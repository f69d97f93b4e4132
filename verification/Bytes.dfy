/** The bits of a byte as arithmetic on its number. */
module Bytes {
  function Pow2(k: nat): (p: nat)
    ensures p > 0
  {
    if k == 0 then 1 else 2 * Pow2(k - 1)
  }

  /** Bit `k` of a number, counted from the least significant one. */
  predicate BitOf(n: nat, k: nat) { n / Pow2(k) % 2 == 1 }

  lemma Powers()
    ensures Pow2(0) == 1 && Pow2(1) == 2 && Pow2(2) == 4 && Pow2(3) == 8
    ensures Pow2(4) == 16 && Pow2(5) == 32 && Pow2(6) == 64 && Pow2(7) == 128
  {
    assert Pow2(4) == 2 * Pow2(3);
    assert Pow2(7) == 2 * Pow2(6);
  }

  lemma LowBit(b: bv8)
    ensures b & 1 != 0 <==> b as nat % 2 == 1
  {
  }

  /** Shifting a byte right divides its number. */
  lemma Shifted(b: bv8, k: nat)
    requires k < 8
    ensures (b >> k) as nat == b as nat / Pow2(k)
  {
    Powers();
    match k
    case 0 => ShiftedLittle(b);
    case 1 => ShiftedLittle(b);
    case 2 => ShiftedLittle(b);
    case 3 => ShiftedLittle(b);
    case 4 => ShiftedMuch(b);
    case 5 => ShiftedMuch(b);
    case 6 => ShiftedMuch(b);
    case 7 => ShiftedMuch(b);
  }

  lemma ShiftedLittle(b: bv8)
    ensures (b >> 0) as nat == b as nat && (b >> 1) as nat == b as nat / 2
    ensures (b >> 2) as nat == b as nat / 4 && (b >> 3) as nat == b as nat / 8
  {
  }

  lemma ShiftedMuch(b: bv8)
    ensures (b >> 4) as nat == b as nat / 16 && (b >> 5) as nat == b as nat / 32
    ensures (b >> 6) as nat == b as nat / 64 && (b >> 7) as nat == b as nat / 128
  {
  }

  /** The test by shifting and the test by masking look at the same bit. */
  lemma BitTests(b: bv8, k: nat)
    requires k < 8
    ensures (b >> k) & 1 != 0 <==> BitOf(b as nat, k)
    ensures b & ((1 as bv8) << k) != 0 <==> BitOf(b as nat, k)
  {
    Shifted(b, k);
    LowBit(b >> k);
    MaskOrShift(b, k);
  }

  lemma MaskOrShift(b: bv8, k: nat)
    requires k < 8
    ensures b & ((1 as bv8) << k) != 0 <==> (b >> k) & 1 != 0
  {
  }
}
