/** The compile-time power-of-two computations of `TBitsAlgorithms`, over any word of 2^k bits; the
    32-bit code is the case k = 5. */
module Bits {

  function Pow2(n: nat): (p: nat)
    ensures p > 0
  {
    if n == 0 then 1 else 2 * Pow2(n - 1)
  }

  function Or(a: nat, b: nat): nat {
    if a == 0 && b == 0 then 0
    else 2 * Or(a / 2, b / 2) + if a % 2 == 1 || b % 2 == 1 then 1 else 0
  }

  function And(a: nat, b: nat): nat {
    if a == 0 || b == 0 then 0
    else 2 * And(a / 2, b / 2) + if a % 2 == 1 && b % 2 == 1 then 1 else 0
  }

  function ShiftRight(v: nat, places: nat): nat
    decreases places
  {
    if places == 0 then v else ShiftRight(v / 2, places - 1)
  }

  function Bit(v: nat, i: nat): bool
    decreases i
  {
    if i == 0 then v % 2 == 1 else Bit(v / 2, i - 1)
  }

  /** The number of bits in use. */
  function Length(v: nat): nat {
    if v == 0 then 0 else 1 + Length(v / 2)
  }

  // ---------------------------------------------------------------- the code

  /** `v | v >> 1`, then `v | v >> 2`, then `v | v >> 4` and so on: k steps. */
  function Smear(v: nat, k: nat): nat {
    if k == 0 then v
    else
      var u := Smear(v, k - 1);
      Or(u, ShiftRight(u, Pow2(k - 1)))
  }

  const K32 := 5

  /** The number of values of a word of 2^k bits. */
  function Modulus(k: nat): (m: nat)
    ensures m > 0
  {
    Pow2(Pow2(k))
  }

  /** `TRoundUpPowerOfTwoIncludingZeroPower`, with the word's wrap-around at both ends. */
  function RoundUp(v: nat, k: nat): nat {
    var u := Smear(if v == 0 then Modulus(k) - 1 else v - 1, k);
    if u == Modulus(k) - 1 then 0 else u + 1
  }

  /** `TIsPowerOfTwoIncludingZeroPower`. */
  predicate TestsAsPower(v: nat) {
    v != 0 && And(v, v - 1) == 0
  }

  // ---------------------------------------------------------------- bits

  lemma {:induction false} BitOfOr(a: nat, b: nat, i: nat)
    ensures Bit(Or(a, b), i) == (Bit(a, i) || Bit(b, i))
    decreases i
  {
    if a == 0 && b == 0 {
      BitOfZero(i);
    } else {
      var low := if a % 2 == 1 || b % 2 == 1 then 1 else 0;
      assert Or(a, b) == 2 * Or(a / 2, b / 2) + low;
      assert Or(a, b) / 2 == Or(a / 2, b / 2);
      if i > 0 {
        BitOfOr(a / 2, b / 2, i - 1);
      }
    }
  }

  lemma {:induction false} BitOfZero(i: nat)
    ensures !Bit(0, i)
    decreases i
  {
    if i > 0 {
      BitOfZero(i - 1);
    }
  }

  lemma {:induction false} BitOfShift(v: nat, places: nat, i: nat)
    ensures Bit(ShiftRight(v, places), i) == Bit(v, i + places)
    decreases places
  {
    if places > 0 {
      BitOfShift(v / 2, places - 1, i);
    }
  }

  /** The bits determine the number. */
  lemma {:induction false} SameBits(a: nat, b: nat)
    requires forall i: nat :: Bit(a, i) == Bit(b, i)
    ensures a == b
    decreases a + b
  {
    if a + b > 0 {
      assert Bit(a, 0) == Bit(b, 0);
      forall i: nat ensures Bit(a / 2, i) == Bit(b / 2, i) {
        assert Bit(a, i + 1) == Bit(b, i + 1);
      }
      SameBits(a / 2, b / 2);
    }
  }

  lemma {:induction false} TopBit(v: nat)
    ensures v < Pow2(Length(v))
    ensures v > 0 ==> Pow2(Length(v) - 1) <= v && Bit(v, Length(v) - 1)
    ensures forall i: nat :: i >= Length(v) ==> !Bit(v, i)
  {
    if v == 0 {
      forall i: nat ensures !Bit(0, i) { BitOfZero(i); }
    } else {
      TopBit(v / 2);
      forall i: nat | i >= Length(v) ensures !Bit(v, i) {
        assert !Bit(v / 2, i - 1);
      }
    }
  }

  lemma {:induction false} BitOfOnes(n: nat, i: nat)
    ensures Bit(Pow2(n) - 1, i) == (i < n)
    decreases n
  {
    if n == 0 {
      BitOfZero(i);
    } else {
      assert (Pow2(n) - 1) / 2 == Pow2(n - 1) - 1;
      if i > 0 {
        BitOfOnes(n - 1, i - 1);
      }
    }
  }

  lemma {:induction false} Pow2Grows(m: nat, n: nat)
    requires m < n
    ensures 2 * Pow2(m) <= Pow2(n)
    decreases n
  {
    if m < n - 1 {
      Pow2Grows(m, n - 1);
    }
  }

  // ---------------------------------------------------------------- smearing

  ghost predicate SomeBit(v: nat, from: nat, to: nat) {
    exists j: nat :: from <= j < to && Bit(v, j)
  }

  /** After k steps a bit is set exactly when one of the 2^k bits from it upwards was. */
  lemma {:induction false} SmearSetsWindow(v: nat, k: nat, i: nat)
    ensures Bit(Smear(v, k), i) <==> SomeBit(v, i, i + Pow2(k))
    decreases k
  {
    if k == 0 {
      if SomeBit(v, i, i + 1) {
        var j: nat :| i <= j < i + 1 && Bit(v, j);
        assert j == i;
      }
    } else {
      var u, half := Smear(v, k - 1), Pow2(k - 1);
      BitOfOr(u, ShiftRight(u, half), i);
      BitOfShift(u, half, i);
      SmearSetsWindow(v, k - 1, i);
      SmearSetsWindow(v, k - 1, i + half);
      if SomeBit(v, i, i + Pow2(k)) {
        var j: nat :| i <= j < i + Pow2(k) && Bit(v, j);
        assert if j < i + half then SomeBit(v, i, i + half) else SomeBit(v, i + half, i + half + half);
      }
    }
  }

  lemma SmearedBit(v: nat, k: nat, i: nat)
    requires Length(v) <= Pow2(k)
    ensures Bit(Smear(v, k), i) <==> i < Length(v)
  {
    TopBit(v);
    SmearSetsWindow(v, k, i);
    if i < Length(v) {
      var top := Length(v) - 1;
      assert i <= top < i + Pow2(k) && Bit(v, top);
    }
  }

  /** On a number that fits the word, smearing sets every bit below the top one. */
  lemma SmearFills(v: nat, k: nat)
    requires Length(v) <= Pow2(k)
    ensures Smear(v, k) == Pow2(Length(v)) - 1
  {
    var ones := Pow2(Length(v)) - 1;
    forall i: nat ensures Bit(Smear(v, k), i) == Bit(ones, i) {
      SmearedBit(v, k, i);
      BitOfOnes(Length(v), i);
    }
    SameBits(Smear(v, k), ones);
  }

  // ---------------------------------------------------------------- theorems

  ghost predicate IsPower(p: nat) {
    exists n: nat :: p == Pow2(n)
  }

  ghost predicate LeastPower(v: nat, r: nat) {
    IsPower(r) && v <= r && forall n: nat :: v <= Pow2(n) ==> r <= Pow2(n)
  }

  lemma {:induction false} LengthFits(v: nat, n: nat)
    ensures v < Pow2(n) <==> Length(v) <= n
  {
    if v > 0 && n > 0 {
      LengthFits(v / 2, n - 1);
    }
  }

  lemma LeastPowerFromLength(v: nat)
    requires v > 0
    ensures LeastPower(v, Pow2(Length(v - 1)))
  {
    TopBit(v - 1);
    forall n: nat | v <= Pow2(n) ensures Pow2(Length(v - 1)) <= Pow2(n) {
      LengthFits(v - 1, n);
      if Length(v - 1) < n {
        Pow2Grows(Length(v - 1), n);
      }
    }
  }

  /** The result in terms of the bits in use. */
  lemma RoundUpByLength(v: nat, k: nat)
    requires 1 <= v < Modulus(k)
    ensures RoundUp(v, k) == (if Length(v - 1) < Pow2(k) then Pow2(Length(v - 1)) else 0) && Length(v - 1) <= Pow2(k)
  {
    LengthFits(v - 1, Pow2(k));
    SmearFills(v - 1, k);
    if Length(v - 1) < Pow2(k) {
      Pow2Grows(Length(v - 1), Pow2(k));
    }
  }

  /** 0 becomes the largest value, which smearing leaves as it is. */
  lemma RoundUpZero(k: nat)
    ensures RoundUp(0, k) == 0
  {
    var all: nat := Modulus(k) - 1;
    LengthFits(all, Pow2(k));
    SmearFills(all, k);
    LengthFits(all, Pow2(k) - 1);
    assert Modulus(k) == 2 * Pow2(Pow2(k) - 1);
  }

  /** What the code yields on every value of the word: the least power of two not below it, up to half
      the range; 0, from the wrap-around, on 0 and above half the range. */
  lemma RoundUpIsLeastPower(v: nat, k: nat)
    requires v < Modulus(k)
    ensures 1 <= v <= Modulus(k) / 2 ==> LeastPower(v, RoundUp(v, k))
    ensures !(1 <= v <= Modulus(k) / 2) ==> RoundUp(v, k) == 0
  {
    if v == 0 {
      RoundUpZero(k);
    } else {
      var width := Pow2(k);
      RoundUpByLength(v, k);
      LengthFits(v - 1, width - 1);
      assert Modulus(k) == 2 * Pow2(width - 1);
      if v <= Modulus(k) / 2 {
        LeastPowerFromLength(v);
      }
    }
  }

  /** `v & (v - 1)` is zero, for a non-zero v, exactly for the powers of two. */
  lemma {:induction false} TestIsExact(v: nat)
    ensures TestsAsPower(v) <==> IsPower(v)
  {
    if v == 0 {
    } else if v == 1 {
      assert v == Pow2(0);
    } else if v % 2 == 0 {
      var h := v / 2;
      TestIsExact(h);
      assert (v - 1) / 2 == h - 1;
      if IsPower(h) {
        var n: nat :| h == Pow2(n);
        assert v == Pow2(n + 1);
      }
      if IsPower(v) {
        var n: nat :| v == Pow2(n);
        assert h == Pow2(n - 1);
      }
    } else {
      var h := v / 2;
      assert (v - 1) / 2 == h;
      AndSelf(h);
      forall n: nat ensures v != Pow2(n) {
        assert n > 0 ==> Pow2(n) == 2 * Pow2(n - 1);
      }
    }
  }

  lemma {:induction false} AndSelf(v: nat)
    ensures And(v, v) == v
  {
    if v > 0 {
      AndSelf(v / 2);
    }
  }

  /** Rounding up leaves a value alone exactly when the test holds; 0, which it also leaves alone, fails
      the test and so the static check on the result. */
  lemma FixedExactlyOnPowers(v: nat, k: nat)
    requires v < Modulus(k)
    ensures v > 0 ==> (RoundUp(v, k) == v <==> TestsAsPower(v))
    ensures RoundUp(0, k) == 0 && !TestsAsPower(0)
    ensures TestsAsPower(RoundUp(v, k)) <==> 1 <= v <= Modulus(k) / 2
  {
    RoundUpIsLeastPower(v, k);
    RoundUpIsLeastPower(0, k);
    TestIsExact(v);
    TestIsExact(RoundUp(v, k));
    if v > 0 && IsPower(v) {
      var n: nat :| v == Pow2(n);
      if n >= Pow2(k) {
        if n > Pow2(k) { Pow2Grows(Pow2(k), n); }
        assert false;
      }
      if n < Pow2(k) - 1 {
        Pow2Grows(n, Pow2(k) - 1);
      }
      assert v <= Modulus(k) / 2;
    }
  }

  const MAX_TEMPLATE_VALUE := 1073741824

  /** The 32-bit code, on every value its own range check admits except 0. */
  lemma RoundUp32(v: nat)
    requires 1 <= v <= MAX_TEMPLATE_VALUE
    ensures LeastPower(v, RoundUp(v, K32)) && RoundUp(v, K32) <= MAX_TEMPLATE_VALUE
  {
    assert Pow2(K32) == 32;
    assert Pow2(8) == 256;
    assert Pow2(16) == 65536;
    assert Pow2(24) == 16777216;
    assert Pow2(30) == MAX_TEMPLATE_VALUE;
    assert Modulus(K32) == 4 * MAX_TEMPLATE_VALUE;
    RoundUpIsLeastPower(v, K32);
  }
}
