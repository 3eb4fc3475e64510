/** The reversible 64-bit mixing of `sonda-core/src/util.rs`: SplitMix64, its inverse,
    and the random-spike membership test built on the inverse. */
module Mixing {
  import opened Words

  const WORD: nat := 0x1_0000_0000_0000_0000

  /** A `u64`. */
  type Word = x: nat | x < WORD

  const GAMMA: Word := 0x9e37_79b9_7f4a_7c15
  const MIX1: Word := 0xbf58_476d_1ce4_e5b9
  const MIX2: Word := 0x94d0_49bb_1331_11eb

  lemma WordIsPow2()
    ensures Pow2(64) == WORD
  {
    assert Pow2(8) == 0x100;
    Pow2Add(8, 8);
    assert Pow2(16) == 0x1_0000;
    Pow2Add(16, 16);
    assert Pow2(32) == 0x1_0000_0000;
    Pow2Add(32, 32);
  }

  function WrappingAdd(a: Word, b: Word): Word { (a + b) % WORD }
  function WrappingSub(a: Word, b: Word): Word { (a - b) % WORD }
  function WrappingMul(a: Word, b: Word): Word { (a * b) % WORD }

  function XorWord(a: Word, b: Word): Word
  {
    WordIsPow2();
    XorBound(a, b, 64);
    Xor(a, b)
  }

  function ShrWord(a: Word, s: nat): Word
  {
    ShrLeq(a, s);
    Shr(a, s)
  }

  lemma ShrLeq(a: nat, s: nat)
    ensures Shr(a, s) <= a
  {
    var q := Shr(a, s);
    assert q * Pow2(s) <= a;
    assert q <= q * Pow2(s);
  }

  /** The xor-shift step `x ^ (x >> s)`. */
  function XorShift(x: Word, s: nat): Word
  {
    XorWord(x, ShrWord(x, s))
  }

  function SplitMix64(z: Word): Word
  {
    var z1 := WrappingAdd(z, GAMMA);
    var z2 := WrappingMul(XorShift(z1, 30), MIX1);
    var z3 := WrappingMul(XorShift(z2, 27), MIX2);
    XorShift(z3, 31)
  }

  // ---- Undoing an xor-shift ----

  /** An xor-shift by at least one bit forgets nothing. */
  lemma XorShiftInjective(x: Word, y: Word, s: nat)
    requires s >= 1
    requires XorShift(x, s) == XorShift(y, s)
    ensures x == y
  {
    var d := Xor(x, y);
    var sx, sy := Shr(x, s), Shr(y, s);
    assert Xor(d, Shr(d, s)) == 0 by {
      ShrXor(x, y, s);
      XorFour(x, y, sx, sy);
      XorSelf(Xor(x, sx));
    }
    XorIsZero(d, Shr(d, s));
    if d > 0 {
      ShrShrinks(d, s);
    }
    XorIsZero(x, y);
  }

  /** (a ^ b) ^ (c ^ d) == (a ^ c) ^ (b ^ d). */
  lemma XorFour(a: nat, b: nat, c: nat, d: nat)
    ensures Xor(Xor(a, b), Xor(c, d)) == Xor(Xor(a, c), Xor(b, d))
  {
    XorAssoc(a, b, Xor(c, d));
    XorAssoc(b, c, d);
    XorComm(b, c);
    XorAssoc(c, b, d);
    XorAssoc(a, c, Xor(b, d));
  }

  /** One round of the loop: the error `XorShift(x) ^ z` of the guess moves `s` bits to
      the right, so `s` more of its top bits are zero. */
  lemma UnxorshiftRound(z: Word, x: Word, s: nat)
    ensures var x' := XorWord(z, ShrWord(x, s));
            Xor(XorShift(x', s), z) == Shr(Xor(XorShift(x, s), z), s)
  {
    var t := Shr(x, s);
    var x' := Xor(z, t);
    // x' ^ (x' >> s) ^ z == t ^ (x' >> s), since x' ^ z == t
    XorComm(x', Shr(x', s));
    XorAssoc(Shr(x', s), x', z);
    XorComm(z, t);
    XorCancel(z, t);
    assert Xor(Xor(x', Shr(x', s)), z) == Xor(Shr(x', s), t);
    // both sides are (x ^ x') >> s
    ShrXor(x', x, s);
    XorAssoc(z, t, x);
    XorComm(t, x);
    XorComm(z, Xor(x, t));
  }

  /** The word itself is right in its top `shift` bits. */
  lemma FirstGuess(z: Word, shift: nat)
    requires 1 <= shift < 64
    ensures Xor(XorShift(z, shift), z) < Pow2(64 - shift)
  {
    WordIsPow2();
    XorComm(z, Shr(z, shift));
    XorCancel(z, Shr(z, shift));
    ShrBound(z, shift, 64);
  }

  /** A round makes `shift` more bits right. */
  lemma NextGuess(z: Word, x: Word, shift: nat, known: nat)
    requires 1 <= shift < 64 && known < 64 && Xor(XorShift(x, shift), z) < Pow2(64 - known)
    ensures var x' := XorWord(z, ShrWord(x, shift));
            if known + shift < 64 then Xor(XorShift(x', shift), z) < Pow2(64 - known - shift)
            else XorShift(x', shift) == z
  {
    UnxorshiftRound(z, x, shift);
    var e := Xor(XorShift(x, shift), z);
    if known + shift < 64 {
      ShrBound(e, shift, 64 - known);
    } else {
      Pow2Monotonic(64 - known, shift);
      ShrAll(e, shift);
      XorIsZero(XorShift(XorWord(z, ShrWord(x, shift)), shift), z);
    }
  }

  /** `unxorshift`: the one word whose xor-shift by `shift` is `z`. */
  method Unxorshift(z: Word, shift: nat) returns (x: Word)
    requires 1 <= shift < 64
    ensures XorShift(x, shift) == z
    ensures forall y: Word :: XorShift(y, shift) == z ==> y == x
  {
    WordIsPow2();
    x := z;
    var known := shift;
    FirstGuess(z, shift);
    while known < 64
      invariant known < 64 ==> Xor(XorShift(x, shift), z) < Pow2(64 - known)
      invariant known >= 64 ==> XorShift(x, shift) == z
    {
      NextGuess(z, x, shift, known);
      x := XorWord(z, ShrWord(x, shift));
      known := known + shift;
    }
    forall y: Word | XorShift(y, shift) == z ensures y == x {
      XorShiftInjective(x, y, shift);
    }
  }

  // ---- Newton's iteration for the inverse of an odd word ----

  /** One step of the iteration: `x * (2 - a * x)`, all wrapping. */
  function NewtonStep(a: Word, x: Word): Word
  {
    WrappingMul(x, WrappingSub(2, WrappingMul(a, x)))
  }

  function Newton(a: Word, steps: nat): Word
  {
    if steps == 0 then a else NewtonStep(a, Newton(a, steps - 1))
  }

  /** `a * x` is 1 modulo `m`, said with a witness. */
  ghost predicate InverseModulo(a: int, x: int, m: int)
  {
    exists k: int :: a * x == 1 + m * k
  }

  /** The step squares the error: the inverse modulo `m` becomes one modulo `m * m`,
      reduced modulo 2^64 by the machine arithmetic. */
  lemma NewtonDoubles(a: Word, x: Word, e: nat)
    requires InverseModulo(a, x, Pow2(e))
    requires 2 * e <= 64
    ensures InverseModulo(a, NewtonStep(a, x), Pow2(2 * e))
  {
    var s, c, q := NewtonUnwrapped(a, x);
    WordSplits(e);
    NewtonSquares(a, x, Pow2(e), s, c, NewtonStep(a, x), q, Pow2(2 * e), Pow2(64 - 2 * e));
  }

  lemma WordSplits(e: nat)
    requires 2 * e <= 64
    ensures Pow2(2 * e) == Pow2(e) * Pow2(e)
    ensures Pow2(2 * e) * Pow2(64 - 2 * e) == WORD
  {
    Pow2Add(e, e);
    Pow2Add(2 * e, 64 - 2 * e);
    WordIsPow2();
  }

  lemma NewtonSquares(a: int, x: int, m: int, s: int, c: int, x': int, q: int, n: int, w: int)
    requires InverseModulo(a, x, m)
    requires s == 2 - a * x + WORD * c
    requires x' == x * s - WORD * q
    requires n == m * m && n * w == WORD
    ensures InverseModulo(a, x', n)
  {
    var k :| a * x == 1 + m * k;
    NewtonError(a, x, m, k, s, c, x', q);
    Collect(a * x', n, w, -(k * k), a * x * c - a * q);
  }

  /** The step without its wrapping: both wrapped factors differ from the exact ones by
      multiples of 2^64. */
  lemma NewtonUnwrapped(a: Word, x: Word) returns (s: int, c: int, q: int)
    ensures s == 2 - a * x + WORD * c
    ensures NewtonStep(a, x) == x * s - WORD * q
  {
    var p := (a * x) % WORD;
    s := (2 - p) % WORD;
    c := (a * x) / WORD - (2 - p) / WORD;
    q := (x * s) / WORD;
  }

  lemma Collect(v: int, n: int, w: int, p: int, u: int)
    requires v == 1 + n * p + (n * w) * u
    ensures exists j: int :: v == 1 + n * j
  {
    MulAssoc(n, w, u);
    assert n * (p + w * u) == n * p + n * (w * u);
    assert v == 1 + n * (p + w * u);
  }

  lemma MulAssoc(a: int, b: int, c: int)
    ensures a * (b * c) == (a * b) * c
  {
  }

  /** The polynomial identity behind the doubling: 1 - a*x*(2 - a*x) == (1 - a*x)^2. */
  lemma NewtonError(a: int, x: int, m: int, k: int, s: int, c: int, x': int, q: int)
    requires a * x == 1 + m * k
    requires s == 2 - a * x + WORD * c
    requires x' == x * s - WORD * q
    ensures a * x' == 1 + m * m * (-(k * k)) + WORD * (a * x * c - a * q)
  {
    var n := m * k;
    calc {
      a * x';
      a * (x * s) - a * (WORD * q);
      { MulAssoc(a, x, s); }
      (a * x) * s - WORD * (a * q);
      (1 + n) * (1 - n + WORD * c) - WORD * (a * q);
      { assert (1 + n) * (1 - n + WORD * c) == (1 + n) * (1 - n) + (1 + n) * (WORD * c); }
      1 - n * n + (1 + n) * (WORD * c) - WORD * (a * q);
      { assert (1 + n) * (WORD * c) == WORD * ((1 + n) * c); }
      1 - n * n + WORD * (a * x * c) - WORD * (a * q);
    }
    assert n * n == m * m * (k * k) by {
      assert n * n == m * (k * (m * k));
      assert k * (m * k) == m * (k * k);
      MulAssoc(m, m, k * k);
    }
    assert WORD * (a * x * c - a * q) == WORD * (a * x * c) - WORD * (a * q);
  }

  /** An odd word is its own inverse modulo 8: the square of an odd number is 1 modulo 8. */
  lemma OddSquare(a: nat)
    requires a % 2 == 1
    ensures InverseModulo(a, a, Pow2(3))
  {
    var h := a / 2;
    assert a == 2 * h + 1;
    assert a * a == 4 * (h * (h + 1)) + 1;
    ProductOfNeighbours(h);
    var j :| h * (h + 1) == 2 * j;
    assert Pow2(3) == 8;
    assert a * a == 1 + Pow2(3) * j;
  }

  lemma ProductOfNeighbours(h: int)
    ensures exists j: int :: h * (h + 1) == 2 * j
  {
    var q := h / 2;
    if h % 2 == 0 {
      assert h * (h + 1) == 2 * (q * (h + 1));
    } else {
      assert h + 1 == 2 * (q + 1);
      assert h * (h + 1) == 2 * (h * (q + 1));
    }
  }

  /** After `k` steps `a * x` is 1 modulo 2^(3 * 2^k), as far as the word is wide. */
  lemma {:induction false} NewtonBits(a: Word, k: nat)
    requires a % 2 == 1
    requires 3 * Pow2(k) <= 64
    ensures InverseModulo(a, Newton(a, k), Pow2(3 * Pow2(k)))
  {
    if k == 0 {
      OddSquare(a);
    } else {
      NewtonBits(a, k - 1);
      NewtonDoubles(a, Newton(a, k - 1), 3 * Pow2(k - 1));
    }
  }

  lemma InverseModuloSmaller(a: int, x: int, e: nat, f: nat)
    requires f <= e && InverseModulo(a, x, Pow2(e))
    ensures InverseModulo(a, x, Pow2(f))
  {
    var k :| a * x == 1 + Pow2(e) * k;
    Pow2Add(f, e - f);
    MulAssoc(Pow2(f), Pow2(e - f), k);
    assert a * x == 1 + Pow2(f) * (Pow2(e - f) * k);
  }

  /** Five steps give an exact inverse modulo 2^64. */
  lemma NewtonExact(a: Word)
    requires a % 2 == 1
    ensures WrappingMul(a, Newton(a, 5)) == 1
  {
    assert Pow2(4) == 16;
    NewtonBits(a, 4);
    InverseModuloSmaller(a, Newton(a, 4), 48, 32);
    NewtonDoubles(a, Newton(a, 4), 32);
    WordIsPow2();
    var x := Newton(a, 5);
    var k :| a * x == 1 + Pow2(64) * k;
    DivUnique(a * x, WORD, k, 1);
  }

  /** `inverse_of_odd`. */
  method InverseOfOdd(a: Word) returns (x: Word)
    requires a % 2 == 1
    ensures WrappingMul(a, x) == 1
    ensures x == Newton(a, 5)
  {
    x := a;
    var step := 0;
    while step < 5
      invariant 0 <= step <= 5
      invariant x == Newton(a, step)
    {
      x := WrappingMul(x, WrappingSub(2, WrappingMul(a, x)));
      step := step + 1;
    }
    NewtonExact(a);
  }

  // ---- The inverse of SplitMix64 ----

  const MIX1_INVERSE: Word := Newton(MIX1, 5)
  const MIX2_INVERSE: Word := Newton(MIX2, 5)

  /** Multiplying by a word and then by its inverse is no change. */
  lemma MulUndoes(z: Word, m: Word, i: Word)
    requires WrappingMul(m, i) == 1
    ensures WrappingMul(WrappingMul(z, m), i) == z
    ensures WrappingMul(WrappingMul(z, i), m) == z
  {
    MulModUndoes(z, m, i);
    MulModUndoes(z, i, m);
  }

  lemma MulModUndoes(z: Word, m: Word, i: Word)
    requires (m * i) % WORD == 1
    ensures (((z * m) % WORD) * i) % WORD == z
  {
    var p := (z * m) % WORD;
    var q, r := (z * m) / WORD, (m * i) / WORD;
    // p * i == z * m * i - WORD * q * i == z + WORD * (z * r - q * i)
    assert (z * m) * i == z + WORD * (z * r) by {
      assert m * i == 1 + WORD * r;
      MulAssoc(z, m, i);
      assert z * (1 + WORD * r) == z + WORD * (z * r);
    }
    assert p * i == (z * m) * i - WORD * (q * i) by {
      assert p == z * m - WORD * q;
      MulAssoc(WORD, q, i);
    }
    DivUnique(p * i, WORD, z * r - q * i, z);
  }

  lemma AddUndoes(z: Word, g: Word)
    ensures WrappingSub(WrappingAdd(z, g), g) == z
    ensures WrappingAdd(WrappingSub(z, g), g) == z
  {
  }

  /** `splitmix64_inverse`: the one word SplitMix64 maps to `z`, for every `z`. */
  method SplitMix64Inverse(z: Word) returns (r: Word)
    ensures SplitMix64(r) == z
    ensures forall y: Word :: SplitMix64(y) == z ==> y == r
  {
    MixInverses();
    var a := Unxorshift(z, 31);
    var b := WrappingMul(a, MIX2_INVERSE);
    MulUndoes(a, MIX2, MIX2_INVERSE);
    var c := Unxorshift(b, 27);
    var d := WrappingMul(c, MIX1_INVERSE);
    MulUndoes(c, MIX1, MIX1_INVERSE);
    var e := Unxorshift(d, 30);
    r := WrappingSub(e, GAMMA);
    AddUndoes(e, GAMMA);
    forall y: Word | SplitMix64(y) == z ensures y == r {
      SplitMix64Injective(y, r);
    }
  }

  lemma MixInverses()
    ensures WrappingMul(MIX1, MIX1_INVERSE) == 1
    ensures WrappingMul(MIX2, MIX2_INVERSE) == 1
  {
    NewtonExact(MIX1);
    NewtonExact(MIX2);
  }

  lemma MulInjective(x: Word, y: Word, m: Word, i: Word)
    requires WrappingMul(m, i) == 1
    requires WrappingMul(x, m) == WrappingMul(y, m)
    ensures x == y
  {
    MulUndoes(x, m, i);
    MulUndoes(y, m, i);
  }

  /** SplitMix64 has no collision. */
  lemma SplitMix64Injective(x: Word, y: Word)
    requires SplitMix64(x) == SplitMix64(y)
    ensures x == y
  {
    MixInverses();
    var x1, y1 := WrappingAdd(x, GAMMA), WrappingAdd(y, GAMMA);
    var x2, y2 := WrappingMul(XorShift(x1, 30), MIX1), WrappingMul(XorShift(y1, 30), MIX1);
    var x3, y3 := WrappingMul(XorShift(x2, 27), MIX2), WrappingMul(XorShift(y2, 27), MIX2);
    XorShiftInjective(x3, y3, 31);
    MulInjective(XorShift(x2, 27), XorShift(y2, 27), MIX2, MIX2_INVERSE);
    XorShiftInjective(x2, y2, 27);
    MulInjective(XorShift(x1, 30), XorShift(y1, 30), MIX1, MIX1_INVERSE);
    XorShiftInjective(x1, y1, 30);
    AddUndoes(x, GAMMA);
    AddUndoes(y, GAMMA);
  }

  // ---- Random spikes ----

  function RandomSpikeHash(seed: Word, index: Word): Word
  {
    SplitMix64(XorWord(seed, index))
  }

  /** `random_spike_index`: the one index with this hash, which decides `InSpike` for every
      cardinality by a comparison. */
  method RandomSpikeIndex(seed: Word, hash: Word) returns (index: Word)
    ensures RandomSpikeHash(seed, index) == hash
    ensures forall cardinality: Word ::
              index < cardinality <==> InSpike(seed, cardinality, hash)
  {
    var z := SplitMix64Inverse(hash);
    index := XorWord(z, seed);
    assert XorWord(seed, index) == z by {
      XorComm(z, seed);
      XorCancel(seed, z);
    }
    forall cardinality: Word
      ensures index < cardinality <==> InSpike(seed, cardinality, hash)
    {
      SpikeMembership(seed, cardinality, index);
    }
  }

  lemma SpikeMembership(seed: Word, cardinality: Word, index: Word)
    ensures index < cardinality <==> InSpike(seed, cardinality, RandomSpikeHash(seed, index))
  {
    if InSpike(seed, cardinality, RandomSpikeHash(seed, index)) {
      var i: Word :| i < cardinality && RandomSpikeHash(seed, i) == RandomSpikeHash(seed, index);
      SpikeHashInjective(seed, i, index);
    }
  }

  ghost predicate InSpike(seed: Word, cardinality: Word, hash: Word)
  {
    exists i: Word :: i < cardinality && RandomSpikeHash(seed, i) == hash
  }

  lemma SpikeHashInjective(seed: Word, i: Word, j: Word)
    requires RandomSpikeHash(seed, i) == RandomSpikeHash(seed, j)
    ensures i == j
  {
    SplitMix64Injective(XorWord(seed, i), XorWord(seed, j));
    XorCancel(seed, i);
    XorCancel(seed, j);
  }

  const DIGITS: string := "0123456789abcdef"

  /** The `width` low hexadecimal digits of `n`, most significant first. */
  function Hex(n: nat, width: nat): (s: string)
    ensures |s| == width
  {
    if width == 0 then "" else Hex(n / 16, width - 1) + [DIGITS[n % 16]]
  }

  /** What a lower-case hexadecimal digit stands for. */
  function DigitValue(c: char): int
  {
    if '0' <= c <= '9' then c as int - '0' as int else if 'a' <= c <= 'f' then c as int - 'a' as int + 10 else -1
  }

  /** The number a text of such digits stands for, if it is one. */
  function Parsed(s: string): int
  {
    if s == "" then 0
    else
      var rest, digit := Parsed(s[..|s| - 1]), DigitValue(s[|s| - 1]);
      if rest < 0 || digit < 0 then -1 else 16 * rest + digit
  }

  /** The digits of a number that fits stand for it. */
  lemma {:induction false} HexReads(n: nat, width: nat)
    requires n < Pow2(4 * width)
    ensures Parsed(Hex(n, width)) == n
  {
    if width > 0 {
      assert Hex(n, width)[..width - 1] == Hex(n / 16, width - 1);
      DigitReads(n % 16);
      assert Pow2(4 * width) == 16 * Pow2(4 * (width - 1)) by {
        Pow2Add(4, 4 * (width - 1));
        assert Pow2(4) == 16;
      }
      HexReads(n / 16, width - 1);
    }
  }

  lemma DigitReads(i: nat)
    requires i < 16
    ensures DigitValue(DIGITS[i]) == i
  {
  }

  function RandomSpikeValue(prefix: string, seed: Word, index: Word): string
  {
    prefix + Hex(RandomSpikeHash(seed, index), 16)
  }

  /** A spike's value is the prefix and sixteen digits, which stand for the mixed index. */
  lemma SpikeValueReads(prefix: string, seed: Word, index: Word)
    ensures var text := RandomSpikeValue(prefix, seed, index);
            && |text| == |prefix| + 16 && prefix <= text
            && Parsed(text[|prefix|..]) == SplitMix64(XorWord(seed, index))
  {
    WordIsPow2();
    HexReads(RandomSpikeHash(seed, index), 16);
    assert RandomSpikeValue(prefix, seed, index)[|prefix|..] == Hex(RandomSpikeHash(seed, index), 16);
  }

  /** Two indices of one spike never render to the same text. */
  lemma SpikeValuesDistinct(prefix: string, seed: Word, i: Word, j: Word)
    requires RandomSpikeValue(prefix, seed, i) == RandomSpikeValue(prefix, seed, j)
    ensures i == j
  {
    var n := |prefix|;
    var a, b := RandomSpikeHash(seed, i), RandomSpikeHash(seed, j);
    assert RandomSpikeValue(prefix, seed, i)[n..] == Hex(a, 16);
    assert RandomSpikeValue(prefix, seed, j)[n..] == Hex(b, 16);
    WordIsPow2();
    HexReads(a, 16);
    HexReads(b, 16);
    SpikeHashInjective(seed, i, j);
  }

  function Rendering(prefix: string, seed: Word): Word -> string
  {
    (i: Word) => RandomSpikeValue(prefix, seed, i)
  }

  ghost predicate Injective(f: Word -> string)
  {
    forall i: Word, j: Word :: f(i) == f(j) ==> i == j
  }

  function Image(f: Word -> string, n: Word): set<string>
  {
    set i: Word | i < n :: f(i)
  }

  lemma RenderingInjective(prefix: string, seed: Word)
    ensures Injective(Rendering(prefix, seed))
  {
    var f := Rendering(prefix, seed);
    forall i: Word, j: Word | f(i) == f(j) ensures i == j {
      SpikeValuesDistinct(prefix, seed, i, j);
    }
  }

  lemma {:induction false} ImageSize(f: Word -> string, n: Word)
    requires Injective(f)
    ensures |Image(f, n)| == n
  {
    if n > 0 {
      var m: Word := n - 1;
      ImageSize(f, m);
      assert Image(f, n) == Image(f, m) + {f(m)};
    }
  }

  /** A spike of `cardinality` values has that many distinct rendered values. */
  lemma SpikeSize(prefix: string, seed: Word, cardinality: Word)
    ensures |Image(Rendering(prefix, seed), cardinality)| == cardinality
  {
    RenderingInjective(prefix, seed);
    ImageSize(Rendering(prefix, seed), cardinality);
  }
}
