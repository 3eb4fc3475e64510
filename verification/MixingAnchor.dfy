/** The output of SplitMix64 for 0, which `sonda-core/src/util.rs` pins: computed digit by digit. */
module MixingAnchor {
  import opened Words
  import opened Mixing

  /** `f` takes one more hexadecimal digit on either side as the exclusive or does. */
  predicate Joins(f: (nat, nat) -> nat, a: nat, b: nat, x: nat, y: nat)
  {
    f(16 * a + x, 16 * b + y) == 16 * f(a, b) + Xor16(x, y)
  }

  ghost predicate Digitwise(f: (nat, nat) -> nat)
  {
    f(0, 0) == 0 && forall a: nat, b: nat, x: nat, y: nat :: x < 16 && y < 16 ==> Joins(f, a, b, x, y)
  }

  function ExclusiveOr(): (nat, nat) -> nat
  {
    (a: nat, b: nat) => Xor(a, b)
  }

  lemma XorDigitwise()
    ensures Digitwise(ExclusiveOr())
  {
    forall a: nat, b: nat, x: nat, y: nat | x < 16 && y < 16 ensures Joins(ExclusiveOr(), a, b, x, y) {
      XorDigit(a, b, x, y);
    }
  }

  lemma FirstHigh(f: (nat, nat) -> nat)
    requires Digitwise(f)
    ensures f(0x9e37_79b9, 0x2) == 0x9e37_79bb
  {
    assert Joins(f, 0x0, 0x0, 0x9, 0x0);
    assert Joins(f, 0x9, 0x0, 0xe, 0x0);
    assert Joins(f, 0x9e, 0x0, 0x3, 0x0);
    assert Joins(f, 0x9e3, 0x0, 0x7, 0x0);
    assert Joins(f, 0x9e37, 0x0, 0x7, 0x0);
    assert Joins(f, 0x9_e377, 0x0, 0x9, 0x0);
    assert Joins(f, 0x9e_3779, 0x0, 0xb, 0x0);
    assert Joins(f, 0x9e3_779b, 0x0, 0x9, 0x2);
  }

  lemma FirstLow(f: (nat, nat) -> nat)
    requires Digitwise(f) && f(0x9e37_79b9, 0x2) == 0x9e37_79bb
    ensures f(0x9e37_79b9_7f4a_7c15, 0x2_78dd_e6e5) == 0x9e37_79bb_0797_9af0
  {
    assert Joins(f, 0x9e37_79b9, 0x2, 0x7, 0x7);
    assert Joins(f, 0x9_e377_9b97, 0x27, 0xf, 0x8);
    assert Joins(f, 0x9e_3779_b97f, 0x278, 0x4, 0xd);
    assert Joins(f, 0x9e3_779b_97f4, 0x278d, 0xa, 0xd);
    assert Joins(f, 0x9e37_79b9_7f4a, 0x2_78dd, 0x7, 0xe);
    assert Joins(f, 0x9_e377_9b97_f4a7, 0x27_8dde, 0xc, 0x6);
    assert Joins(f, 0x9e_3779_b97f_4a7c, 0x278_dde6, 0x1, 0xe);
    assert Joins(f, 0x9e3_779b_97f4_a7c1, 0x278d_de6e, 0x5, 0x5);
  }

  lemma SecondHigh(f: (nat, nat) -> nat)
    requires Digitwise(f)
    ensures f(0x6f68_261b, 0xd) == 0x6f68_2616
  {
    assert Joins(f, 0x0, 0x0, 0x6, 0x0);
    assert Joins(f, 0x6, 0x0, 0xf, 0x0);
    assert Joins(f, 0x6f, 0x0, 0x6, 0x0);
    assert Joins(f, 0x6f6, 0x0, 0x8, 0x0);
    assert Joins(f, 0x6f68, 0x0, 0x2, 0x0);
    assert Joins(f, 0x6_f682, 0x0, 0x6, 0x0);
    assert Joins(f, 0x6f_6826, 0x0, 0x1, 0x0);
    assert Joins(f, 0x6f6_8261, 0x0, 0xb, 0xd);
  }

  lemma SecondLow(f: (nat, nat) -> nat)
    requires Digitwise(f) && f(0x6f68_261b, 0xd) == 0x6f68_2616
    ensures f(0x6f68_261b_57e7_a770, 0xd_ed04_c36a) == 0x6f68_2616_bae3_641a
  {
    assert Joins(f, 0x6f68_261b, 0xd, 0x5, 0xe);
    assert Joins(f, 0x6_f682_61b5, 0xde, 0x7, 0xd);
    assert Joins(f, 0x6f_6826_1b57, 0xded, 0xe, 0x0);
    assert Joins(f, 0x6f6_8261_b57e, 0xded0, 0x7, 0x4);
    assert Joins(f, 0x6f68_261b_57e7, 0xd_ed04, 0xa, 0xc);
    assert Joins(f, 0x6_f682_61b5_7e7a, 0xde_d04c, 0x7, 0x3);
    assert Joins(f, 0x6f_6826_1b57_e7a7, 0xded_04c3, 0x7, 0x6);
    assert Joins(f, 0x6f6_8261_b57e_7a77, 0xded0_4c36, 0x0, 0xa);
  }

  lemma ThirdHigh(f: (nat, nat) -> nat)
    requires Digitwise(f)
    ensures f(0xe220_a838, 0x1) == 0xe220_a839
  {
    assert Joins(f, 0x0, 0x0, 0xe, 0x0);
    assert Joins(f, 0xe, 0x0, 0x2, 0x0);
    assert Joins(f, 0xe2, 0x0, 0x2, 0x0);
    assert Joins(f, 0xe22, 0x0, 0x0, 0x0);
    assert Joins(f, 0xe220, 0x0, 0xa, 0x0);
    assert Joins(f, 0xe_220a, 0x0, 0x8, 0x0);
    assert Joins(f, 0xe2_20a8, 0x0, 0x3, 0x0);
    assert Joins(f, 0xe22_0a83, 0x0, 0x8, 0x1);
  }

  lemma ThirdLow(f: (nat, nat) -> nat)
    requires Digitwise(f) && f(0xe220_a838, 0x1) == 0xe220_a839
    ensures f(0xe220_a838_bf5c_9dde, 0x1_c441_5071) == 0xe220_a839_7b1d_cdaf
  {
    assert Joins(f, 0xe220_a838, 0x1, 0xb, 0xc);
    assert Joins(f, 0xe_220a_838b, 0x1c, 0xf, 0x4);
    assert Joins(f, 0xe2_20a8_38bf, 0x1c4, 0x5, 0x4);
    assert Joins(f, 0xe22_0a83_8bf5, 0x1c44, 0xc, 0x1);
    assert Joins(f, 0xe220_a838_bf5c, 0x1_c441, 0x9, 0x5);
    assert Joins(f, 0xe_220a_838b_f5c9, 0x1c_4415, 0xd, 0x0);
    assert Joins(f, 0xe2_20a8_38bf_5c9d, 0x1c4_4150, 0xd, 0x7);
    assert Joins(f, 0xe22_0a83_8bf5_c9dd, 0x1c44_1507, 0xe, 0x1);
  }

  lemma PowersAre()
    ensures Pow2(27) == 0x800_0000 && Pow2(30) == 0x4000_0000 && Pow2(31) == 0x8000_0000
  {
    assert Pow2(4) == 16 && Pow2(3) == 8;
    Pow2Add(4, 4);
    Pow2Add(8, 8);
    Pow2Add(16, 8);
    Pow2Add(24, 3);
    Pow2Add(27, 3);
    assert Pow2(31) == 2 * Pow2(30);
  }

  lemma Shifted(z: Word, s: nat, power: nat, low: nat)
    requires Pow2(s) == power && z / power == low
    ensures XorShift(z, s) == ExclusiveOr()(z, low)
  {
  }

  lemma FirstXorShift(z: Word)
    requires z == 0x9e37_79b9_7f4a_7c15
    ensures XorShift(z, 30) == 0x9e37_79bb_0797_9af0
  {
    XorDigitwise();
    PowersAre();
    Shifted(z, 30, 0x4000_0000, 0x2_78dd_e6e5);
    FirstHigh(ExclusiveOr());
    FirstLow(ExclusiveOr());
  }

  lemma SecondXorShift(z: Word)
    requires z == 0x6f68_261b_57e7_a770
    ensures XorShift(z, 27) == 0x6f68_2616_bae3_641a
  {
    XorDigitwise();
    PowersAre();
    Shifted(z, 27, 0x800_0000, 0xd_ed04_c36a);
    SecondHigh(ExclusiveOr());
    SecondLow(ExclusiveOr());
  }

  lemma ThirdXorShift(z: Word)
    requires z == 0xe220_a838_bf5c_9dde
    ensures XorShift(z, 31) == 0xe220_a839_7b1d_cdaf
  {
    XorDigitwise();
    PowersAre();
    Shifted(z, 31, 0x8000_0000, 0x1_c441_5071);
    ThirdHigh(ExclusiveOr());
    ThirdLow(ExclusiveOr());
  }

  lemma FirstProduct(x: Word)
    requires x == 0x9e37_79bb_0797_9af0
    ensures WrappingMul(x, MIX1) == 0x6f68_261b_57e7_a770
  {
  }

  lemma SecondProduct(x: Word)
    requires x == 0x6f68_2616_bae3_641a
    ensures WrappingMul(x, MIX2) == 0xe220_a838_bf5c_9dde
  {
  }

  lemma FromStages(z: Word, z1: Word, z2: Word, z3: Word)
    requires z1 == WrappingAdd(z, GAMMA) && z2 == WrappingMul(XorShift(z1, 30), MIX1)
    requires z3 == WrappingMul(XorShift(z2, 27), MIX2)
    ensures SplitMix64(z) == XorShift(z3, 31)
  {
  }

  /** The first two stages. */
  lemma Stages(z: Word) returns (z1: Word, z2: Word, z3: Word)
    requires z == 0
    ensures z1 == WrappingAdd(z, GAMMA) && z2 == WrappingMul(XorShift(z1, 30), MIX1)
    ensures z3 == WrappingMul(XorShift(z2, 27), MIX2) && z3 == 0xe220_a838_bf5c_9dde
  {
    z1 := WrappingAdd(z, GAMMA);
    FirstXorShift(z1);
    FirstProduct(XorShift(z1, 30));
    z2 := WrappingMul(XorShift(z1, 30), MIX1);
    SecondXorShift(z2);
    SecondProduct(XorShift(z2, 27));
    z3 := WrappingMul(XorShift(z2, 27), MIX2);
  }

  /** The output of the canonical finalizer for 0. */
  lemma CanonicalOutput(z: Word)
    requires z == 0
    ensures SplitMix64(z) == 16294208416658607535
  {
    var z1, z2, z3 := Stages(z);
    FromStages(z, z1, z2, z3);
    ThirdXorShift(z3);
  }
}
