/** Single bits of a 32-bit word, as the N-queens solver's masks use them. */
module Bits {

  /** The word `1u << c`. */
  function Mask(c: nat): bv32
    requires c < 32
  {
    if c == 0 then 1 else Mask(c - 1) << 1
  }

  predicate Hit(x: bv32, m: bv32) {
    x & m != 0
  }

  predicate Bit(x: bv32, c: nat)
    requires c < 32
  {
    Hit(x, Mask(c))
  }

  predicate Single(m: bv32) {
    m != 0 && m & (m - 1) == 0
  }

  /** No bit of `x` below the single bit `m` is set. */
  predicate Below(x: bv32, m: bv32) {
    x & (m - 1) == 0
  }

  /** The compiler builtin that counts trailing zeros: the index of the lowest set bit. */
  function Ctz(x: bv32): (i: nat)
    requires x != 0
    ensures i < 32 && Bit(x, i)
    ensures forall j :: 0 <= j < i ==> !Bit(x, j)
  {
    SomeBit(x);
    CtzFrom(x, 0)
  }

  function CtzFrom(x: bv32, c: nat): (i: nat)
    requires c < 32
    requires exists j :: c <= j < 32 && Bit(x, j)
    requires forall j :: 0 <= j < c ==> !Bit(x, j)
    ensures i < 32 && Bit(x, i)
    ensures forall j :: 0 <= j < i ==> !Bit(x, j)
    decreases 32 - c
  {
    if Bit(x, c) then c else CtzFrom(x, c + 1)
  }

  lemma {:induction false} MaskIsShift(c: nat)
    requires c < 32
    ensures Mask(c) == 1 << c
  {
    if c > 0 {
      MaskIsShift(c - 1);
    }
  }

  lemma MaskSingle(c: nat)
    requires c < 32
    ensures Single(Mask(c))
  {
    MaskIsShift(c);
  }

  lemma BitOfMask(c: nat, d: nat)
    requires c < 32 && d < 32
    ensures Bit(Mask(c), d) <==> c == d
  {
    MaskIsShift(c);
    MaskIsShift(d);
    ShiftsMeet(c, d);
  }

  lemma ShiftsMeet(c: nat, d: nat)
    requires c < 32 && d < 32
    ensures Hit(1 << c, 1 << d) <==> c == d
  {
  }

  lemma BitOfOr(x: bv32, y: bv32, c: nat)
    requires c < 32
    ensures Bit(x | y, c) <==> Bit(x, c) || Bit(y, c)
  {
    OrHit(x, y, Mask(c));
  }

  lemma OrHit(x: bv32, y: bv32, m: bv32)
    ensures Hit(x | y, m) <==> Hit(x, m) || Hit(y, m)
  {
    OrMasked(x, y, m);
  }

  lemma OrMasked(x: bv32, y: bv32, m: bv32)
    ensures (x | y) & m != 0 <==> x & m != 0 || y & m != 0
  {
  }

  lemma BitOfNot(x: bv32, c: nat)
    requires c < 32
    ensures Bit(!x, c) <==> !Bit(x, c)
  {
    MaskSingle(c);
    NotMasked(x, Mask(c));
  }

  lemma NotMasked(x: bv32, m: bv32)
    requires Single(m)
    ensures Hit(!x, m) <==> !Hit(x, m)
  {
  }

  /** Shifting right moves every bit one place down. */
  lemma BitOfShiftRight(x: bv32, c: nat)
    requires c < 32
    ensures Bit(x >> 1, c) <==> c < 31 && Bit(x, c + 1)
  {
    hide Hit;
    if c < 31 {
      assert Mask(c + 1) == Mask(c) << 1;
      ShiftRightHit(x, Mask(c));
    } else {
      TopMask();
      ShiftRightTop(x);
    }
  }

  lemma TopMask()
    ensures Mask(31) == 0x8000_0000
  {
    MaskIsShift(31);
  }

  lemma ShiftRightTop(x: bv32)
    ensures !Hit(x >> 1, 0x8000_0000)
  {
  }

  lemma ShiftRightHit(x: bv32, m: bv32)
    ensures Hit(x >> 1, m) <==> Hit(x, m << 1)
  {
  }

  /** Shifting left moves every bit one place up and drops the top one. */
  lemma BitOfShiftLeft(x: bv32, c: nat)
    requires c < 32
    ensures Bit(x << 1, c) <==> c > 0 && Bit(x, c - 1)
  {
    if c > 0 {
      MaskIsShift(c - 1);
      ShiftLeftMasked(x, Mask(c - 1));
    }
  }

  lemma ShiftLeftMasked(x: bv32, m: bv32)
    requires (m << 1) >> 1 == m
    ensures Hit(x << 1, m << 1) <==> Hit(x, m)
  {
  }

  /** A word none of whose first `c` bits is set is zero below `Mask(c)`. */
  lemma {:induction false} ZeroBelow(x: bv32, c: nat)
    requires c < 32
    requires forall j :: 0 <= j < c ==> !Bit(x, j)
    ensures Below(x, Mask(c))
  {
    if c > 0 {
      ZeroBelow(x, c - 1);
      assert !Bit(x, c - 1);
      MaskSingle(c - 1);
      ZeroBelowStep(x, Mask(c - 1));
    }
  }

  lemma ZeroBelowStep(x: bv32, m: bv32)
    requires Single(m) && Below(x, m) && !Hit(x, m)
    ensures Below(x, m << 1)
  {
  }

  lemma SomeBit(x: bv32)
    requires x != 0
    ensures exists j :: 0 <= j < 32 && Bit(x, j)
  {
    if forall j :: 0 <= j < 31 ==> !Bit(x, j) {
      ZeroBelow(x, 31);
      TopMask();
      assert Bit(x, 31);
    }
  }

  /** `x &= x - 1` clears the lowest set bit and no other. */
  lemma BitOfClearLowest(x: bv32, c: nat)
    requires x != 0 && c < 32
    ensures Bit(x & (x - 1), c) <==> Bit(x, c) && c != Ctz(x)
  {
    ClearBitAt(x, Ctz(x), c);
    SameBits(x & (x - 1), x, Ctz(x), c);
  }

  lemma SameBits(y: bv32, x: bv32, i: nat, c: nat)
    requires i < 32 && c < 32
    requires Hit(y, Mask(c)) <==> Hit(x, Mask(c)) && !Hit(Mask(i), Mask(c))
    ensures Bit(y, c) <==> Bit(x, c) && c != i
  {
    BitOfMask(i, c);
  }

  lemma ClearBitAt(x: bv32, i: nat, c: nat)
    requires i < 32 && c < 32 && Bit(x, i)
    requires forall j :: 0 <= j < i ==> !Bit(x, j)
    ensures Hit(x & (x - 1), Mask(c)) <==> Hit(x, Mask(c)) && !Hit(Mask(i), Mask(c))
  {
    ZeroBelow(x, i);
    MaskSingle(i);
    MaskSingle(c);
    ClearHit(x, Mask(i), Mask(c));
  }

  lemma ClearHit(x: bv32, m: bv32, d: bv32)
    requires Single(m) && Single(d) && Hit(x, m) && Below(x, m)
    ensures Hit(x & (x - 1), d) <==> Hit(x, d) && !Hit(m, d)
  {
    ClearLowest(x, m);
    AndNotMasked(x, m, d);
  }

  lemma ClearLowest(x: bv32, m: bv32)
    requires Single(m) && Hit(x, m) && Below(x, m)
    ensures x & (x - 1) == x & !m
  {
  }

  lemma AndNotMasked(x: bv32, m: bv32, d: bv32)
    requires Single(d) && Single(m)
    ensures Hit(x & !m, d) <==> Hit(x, d) && !Hit(m, d)
  {
  }
}
