/** Unsigned machine words as integers: powers of two, bitwise exclusive or and
    logical right shift, with the laws of the two that undoing a mixing step needs. */
module Words {

  function Pow2(n: nat): (r: nat)
    ensures r >= 1
  {
    if n == 0 then 1 else 2 * Pow2(n - 1)
  }

  /** Exclusive or of two naturals, bit by bit from the least significant bit. */
  function Xor(a: nat, b: nat): nat
    decreases a + b
  {
    if a == 0 && b == 0 then 0
    else (if a % 2 == b % 2 then 0 else 1) + 2 * Xor(a / 2, b / 2)
  }

  /** Logical right shift: the low `s` bits fall off. */
  function Shr(a: nat, s: nat): nat
  {
    DivNonNegative(a, Pow2(s));
    a / Pow2(s)
  }

  lemma DivNonNegative(a: nat, p: nat)
    requires p > 0
    ensures a / p >= 0
  {
  }

  lemma Pow2Add(m: nat, n: nat)
    ensures Pow2(m + n) == Pow2(m) * Pow2(n)
  {
    if m != 0 {
      Pow2Add(m - 1, n);
      assert Pow2(m + n) == 2 * Pow2(m - 1 + n);
    }
  }

  lemma Pow2Monotonic(m: nat, n: nat)
    requires m <= n
    ensures Pow2(m) <= Pow2(n)
    decreases n
  {
    if m < n {
      Pow2Monotonic(m, n - 1);
    }
  }

  lemma {:induction false} XorComm(a: nat, b: nat)
    ensures Xor(a, b) == Xor(b, a)
    decreases a + b
  {
    if a != 0 || b != 0 {
      XorComm(a / 2, b / 2);
    }
  }

  lemma {:induction false} XorHalves(a: nat, b: nat)
    ensures Xor(a, b) / 2 == Xor(a / 2, b / 2)
    ensures Xor(a, b) % 2 == if a % 2 == b % 2 then 0 else 1
  {
    if a == 0 && b == 0 {
      assert Xor(0, 0) == 0;
    }
  }

  lemma {:induction false} XorAssoc(a: nat, b: nat, c: nat)
    ensures Xor(Xor(a, b), c) == Xor(a, Xor(b, c))
    decreases a + b + c
  {
    if a == 0 && b == 0 && c == 0 {
    } else {
      XorHalves(a, b);
      XorHalves(b, c);
      XorHalves(Xor(a, b), c);
      XorHalves(a, Xor(b, c));
      XorAssoc(a / 2, b / 2, c / 2);
    }
  }

  lemma {:induction false} XorSelf(a: nat)
    ensures Xor(a, a) == 0
  {
    if a != 0 {
      XorSelf(a / 2);
    }
  }

  lemma {:induction false} XorZero(a: nat)
    ensures Xor(a, 0) == a
    ensures Xor(0, a) == a
  {
    if a != 0 {
      XorZero(a / 2);
    }
  }

  /** Exclusive or with the same word twice is no change. */
  lemma {:induction false} XorCancel(a: nat, b: nat)
    ensures Xor(a, Xor(a, b)) == b
    ensures Xor(Xor(b, a), a) == b
  {
    XorAssoc(a, a, b);
    XorAssoc(b, a, a);
    XorSelf(a);
    XorZero(b);
  }

  lemma {:induction false} XorIsZero(a: nat, b: nat)
    requires Xor(a, b) == 0
    ensures a == b
  {
    XorCancel(a, b);
    XorZero(a);
  }

  lemma {:induction false} XorBound(a: nat, b: nat, n: nat)
    requires a < Pow2(n) && b < Pow2(n)
    ensures Xor(a, b) < Pow2(n)
    decreases n
  {
    if n != 0 && (a != 0 || b != 0) {
      XorBound(a / 2, b / 2, n - 1);
    }
  }

  lemma ShrStep(a: nat, s: nat)
    requires s > 0
    ensures Shr(a, s) == Shr(a / 2, s - 1)
  {
    DivTwice(a, 2, Pow2(s - 1));
  }

  lemma DivTwice(a: nat, p: nat, q: nat)
    requires p > 0 && q > 0
    ensures p * q > 0
    ensures a / (p * q) == a / p / q
  {
    var d, r := a / p, a % p;
    var e, t := d / q, d % q;
    MulSplit(p, q, e, t);
    MixedRadixBound(p, q, t, r);
    DivUnique(a, p * q, e, p * t + r);
  }

  lemma MulSplit(p: int, q: int, e: int, t: int)
    ensures p * (q * e + t) == (p * q) * e + p * t
  {
  }

  lemma MixedRadixBound(p: int, q: int, t: int, r: int)
    requires 0 <= t < q && 0 <= r < p
    ensures 0 <= p * t + r < p * q
  {
    MulAtLeast(p, q - t);
    Distribute(p, q, t);
    if t > 0 {
      MulAtLeast(p, t);
    }
  }

  lemma MulAtLeast(d: int, n: int)
    requires d > 0 && n >= 1
    ensures d * n >= d
  {
  }

  /** Quotient and remainder are determined by their defining equation. */
  lemma DivUnique(a: int, d: int, q: int, r: int)
    requires d > 0 && 0 <= r < d && a == d * q + r
    ensures a / d == q && a % d == r
  {
    var q', r' := a / d, a % d;
    Distribute(d, q, q');
    if q > q' {
      MulAtLeast(d, q - q');
    } else if q < q' {
      MulAtLeast(d, q' - q);
      Distribute(d, q', q);
    }
  }

  lemma Distribute(d: int, x: int, y: int)
    ensures d * (x - y) == d * x - d * y
  {
  }

  lemma {:induction false} ShrXor(a: nat, b: nat, s: nat)
    ensures Shr(Xor(a, b), s) == Xor(Shr(a, s), Shr(b, s))
    decreases s
  {
    if s > 0 {
      ShrStep(Xor(a, b), s);
      ShrStep(a, s);
      ShrStep(b, s);
      XorHalves(a, b);
      ShrXor(a / 2, b / 2, s - 1);
    }
  }

  /** A right shift by `s` clears the top `s` of `n` bits. */
  lemma ShrBound(a: nat, s: nat, n: nat)
    requires s <= n && a < Pow2(n)
    ensures Shr(a, s) < Pow2(n - s)
  {
    Pow2Add(s, n - s);
    DivBound(a, Pow2(s), Pow2(n - s));
  }

  lemma DivBound(a: nat, p: nat, q: nat)
    requires p > 0 && a < p * q
    ensures a / p < q
  {
    var d, r := a / p, a % p;
    if d > q {
      MulAtLeast(p, d - q);
      Distribute(p, d, q);
    }
  }

  /** A shift by at least one bit makes a nonzero word smaller. */
  lemma ShrShrinks(a: nat, s: nat)
    requires a > 0 && s >= 1
    ensures Shr(a, s) < a
  {
    Pow2Monotonic(1, s);
    assert a < 2 * a <= Pow2(s) * a;
    DivBound(a, Pow2(s), a);
  }

  /** A right shift that drops every bit leaves zero. */
  lemma ShrAll(a: nat, s: nat)
    requires a < Pow2(s)
    ensures Shr(a, s) == 0
  {
    DivUnique(a, Pow2(s), 0, a);
  }

  // ---- Digit by digit ----

  /** The exclusive or of two digits in base 4, and of two in base 16. */
  function Xor4(x: nat, y: nat): nat
  {
    (if x % 2 == y % 2 then 0 else 1) + if x / 2 == y / 2 then 0 else 2
  }

  function Xor16(x: nat, y: nat): nat
  {
    4 * Xor4(x / 4, y / 4) + Xor4(x % 4, y % 4)
  }

  lemma XorBit(a: nat, b: nat, x: nat, y: nat)
    requires x < 2 && y < 2
    ensures Xor(2 * a + x, 2 * b + y) == 2 * Xor(a, b) + if x == y then 0 else 1
  {
    XorHalves(2 * a + x, 2 * b + y);
  }

  lemma XorPair(a: nat, b: nat, x: nat, y: nat)
    requires x < 4 && y < 4
    ensures Xor(4 * a + x, 4 * b + y) == 4 * Xor(a, b) + Xor4(x, y)
  {
    XorBits(a, b, x / 2, x % 2, y / 2, y % 2);
  }

  lemma XorBits(a: nat, b: nat, x1: nat, x0: nat, y1: nat, y0: nat)
    requires x1 < 2 && x0 < 2 && y1 < 2 && y0 < 2
    ensures Xor(4 * a + 2 * x1 + x0, 4 * b + 2 * y1 + y0) ==
            4 * Xor(a, b) + (if x1 == y1 then 0 else 2) + if x0 == y0 then 0 else 1
  {
    XorBit(a, b, x1, y1);
    XorBit(2 * a + x1, 2 * b + y1, x0, y0);
    assert 2 * (2 * a + x1) + x0 == 4 * a + 2 * x1 + x0 && 2 * (2 * b + y1) + y0 == 4 * b + 2 * y1 + y0;
  }

  lemma XorDigit(a: nat, b: nat, x: nat, y: nat)
    requires x < 16 && y < 16
    ensures Xor(16 * a + x, 16 * b + y) == 16 * Xor(a, b) + Xor16(x, y)
  {
    XorPairs(a, b, x / 4, x % 4, y / 4, y % 4);
    assert x == 4 * (x / 4) + x % 4 && y == 4 * (y / 4) + y % 4;
    assert 16 * a + 4 * (x / 4) + x % 4 == 16 * a + x && 16 * b + 4 * (y / 4) + y % 4 == 16 * b + y;
  }

  lemma XorPairs(a: nat, b: nat, x1: nat, x0: nat, y1: nat, y0: nat)
    requires x1 < 4 && x0 < 4 && y1 < 4 && y0 < 4
    ensures Xor(16 * a + 4 * x1 + x0, 16 * b + 4 * y1 + y0) == 16 * Xor(a, b) + 4 * Xor4(x1, y1) + Xor4(x0, y0)
  {
    XorPair(a, b, x1, y1);
    XorPair(4 * a + x1, 4 * b + y1, x0, y0);
    assert 4 * (4 * a + x1) + x0 == 16 * a + 4 * x1 + x0 && 4 * (4 * b + y1) + y0 == 16 * b + 4 * y1 + y0;
  }
}
