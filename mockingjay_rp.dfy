// The Mockingjay replacement data and victim selection
// (src/mem/cache/replacement_policies/mockingjay_rp.hh and .cc): each line
// keeps an estimated time remaining (ETR) in an `int8_t`, aging moves it one
// step towards the negative bound, and the victim is the first invalid
// candidate or else the earliest one with the largest ETR.
module MockingjayRp {
  import opened Bits
  import opened Selection

  /** The value an `int8_t` holds once `x` is stored in it: conversion modulo 2^8. */
  function ToInt8(x: int): (r: int)
    ensures -128 <= r < 128
    ensures -128 <= x < 128 ==> r == x
    ensures (x - r) % 256 == 0
  {
    (x + 128) % 256 - 128
  }

  /** `std::abs` on the promoted `int`. */
  function Abs(x: int): (r: nat)
    ensures r == x || r == -x
  {
    if x < 0 then -x else x
  }

  /**
   * One call of `aging`: an ETR whose magnitude is below the bound drops by
   * one (stored back into the `int8_t`); one at or beyond the bound stays.
   */
  function AgedEtr(etr: int, absMax: int): (r: int)
    requires -128 <= etr < 128
    ensures -128 <= r < 128
    ensures Abs(etr) >= absMax ==> r == etr
    ensures Abs(etr) < absMax && etr > -128 ==> r == etr - 1
    ensures Abs(etr) < absMax && etr == -128 ==> r == 127
  {
    if Abs(etr) < absMax then ToInt8(etr - 1) else etr
  }

  /** `n` calls of `aging` in a row. */
  function AgedTimes(etr: int, absMax: int, n: nat): (r: int)
    requires -128 <= etr < 128
    ensures -128 <= r < 128
    decreases n
  {
    if n == 0 then etr else AgedTimes(AgedEtr(etr, absMax), absMax, n - 1)
  }

  /** The bound the constructor derives from the counter width: `(1 << (num_bits - 1)) - 1`. */
  function AbsMaxFor(numBits: nat): (r: int)
    requires 1 <= numBits <= 31
    ensures 0 <= r < 0x4000_0000
    ensures r == Pow2(numBits - 1) - 1
  {
    Pow2Small(numBits - 1);
    Pow2(numBits - 1) - 1
  }

  /** At the default of three ETR bits, and at any width up to eight, the bound fits an `int8_t`. */
  lemma AbsMaxFitsInt8(numBits: nat)
    requires 1 <= numBits <= 8
    ensures 0 <= AbsMaxFor(numBits) <= 127
    ensures numBits == 3 ==> AbsMaxFor(numBits) == 3
  {
    Pow2Monotone(numBits - 1, 7);
    assert Pow2(1) == 2 && Pow2(2) == 4 && Pow2(3) == 8 && Pow2(4) == 16;
    assert Pow2(5) == 32 && Pow2(6) == 64 && Pow2(7) == 128;
  }

  /**
   * With a bound that fits the counter, aging keeps the ETR inside
   * [-absMax, absMax]: it only ever moves down, and never past -absMax.
   */
  lemma AgingStaysInRange(etr: int, absMax: int)
    requires 0 <= absMax <= 128 && -absMax <= etr <= absMax && etr < 128
    ensures -absMax <= AgedEtr(etr, absMax) <= etr
  {
  }

  /** Repeated aging never leaves [-absMax, absMax] and never raises the ETR. */
  lemma {:induction false} AgingTimesStaysInRange(etr: int, absMax: int, n: nat)
    requires 0 <= absMax <= 128 && -absMax <= etr <= absMax && etr < 128
    ensures -absMax <= AgedTimes(etr, absMax, n) <= etr
    decreases n
  {
    if n > 0 {
      AgingStaysInRange(etr, absMax);
      AgingTimesStaysInRange(AgedEtr(etr, absMax), absMax, n - 1);
    }
  }

  /**
   * From inside the bound, `etr + absMax` agings bring the ETR exactly to
   * -absMax, where further aging leaves it.
   */
  lemma {:induction false} AgingReachesFloor(etr: int, absMax: int, extra: nat)
    requires 0 < absMax <= 128 && -absMax <= etr < absMax
    ensures AgedTimes(etr, absMax, etr + absMax + extra) == -absMax
    decreases etr + absMax + extra
  {
    if etr > -absMax {
      AgingReachesFloor(etr - 1, absMax, extra);
    } else if extra > 0 {
      AgingReachesFloor(etr, absMax, extra - 1);
    }
  }

  /** An ETR at or beyond the bound is a fixed point of aging. */
  lemma {:induction false} AgingFixedAtBound(etr: int, absMax: int, n: nat)
    requires -128 <= etr < 128 && Abs(etr) >= absMax
    ensures AgedTimes(etr, absMax, n) == etr
    decreases n
  {
    if n > 0 {
      AgingFixedAtBound(etr, absMax, n - 1);
    }
  }

  /**
   * With nine or more ETR bits the bound exceeds what an `int8_t` holds:
   * aging at -128 then wraps the counter to 127.
   */
  lemma AgingWrapsWhenTooWide(numBits: nat)
    requires 9 <= numBits <= 31
    ensures AbsMaxFor(numBits) > 128 && AgedEtr(-128, AbsMaxFor(numBits)) == 127
  {
    Pow2Monotone(8, numBits - 1);
    assert Pow2(1) == 2 && Pow2(2) == 4 && Pow2(3) == 8 && Pow2(4) == 16;
    assert Pow2(5) == 32 && Pow2(6) == 64 && Pow2(7) == 128 && Pow2(8) == 256;
  }

  /** `MockingjayReplData`: the ETR, its bound and the valid bit of one line. */
  class ReplData {
    var etr: int
    const absMaxEtr: int
    var valid: bool

    /** The ETR is a value an `int8_t` can hold. */
    ghost predicate Valid()
      reads this
    {
      -128 <= etr < 128
    }

    /** A fresh entry: ETR 0, invalid, bound `(1 << (numBits - 1)) - 1`. */
    constructor(numBits: nat)
      requires 1 <= numBits <= 31
      ensures Valid()
      ensures etr == 0 && !valid && absMaxEtr == AbsMaxFor(numBits)
    {
      etr := 0;
      absMaxEtr := AbsMaxFor(numBits);
      valid := false;
    }

    /** `aging`: one step of `AgedEtr`, the valid bit untouched. */
    method Aging()
      requires Valid()
      modifies this
      ensures Valid()
      ensures etr == AgedEtr(old(etr), absMaxEtr) && valid == old(valid)
    {
      if Abs(etr) < absMaxEtr {
        etr := ToInt8(etr - 1);
      }
    }
  }

  /** `invalidate`: the line becomes invalid with ETR 0. */
  method Invalidate(d: ReplData)
    modifies d
    ensures !d.valid && d.etr == 0 && d.Valid()
  {
    d.valid := false;
    d.etr := 0;
  }

  function Valids(cs: seq<ReplData>): (r: seq<bool>)
    reads cs
    ensures |r| == |cs| && forall i :: 0 <= i < |cs| ==> r[i] == cs[i].valid
  {
    seq(|cs|, i reads cs requires 0 <= i < |cs| => cs[i].valid)
  }

  function Etrs(cs: seq<ReplData>): (r: seq<int>)
    reads cs
    ensures |r| == |cs| && forall i :: 0 <= i < |cs| ==> r[i] == cs[i].etr
  {
    seq(|cs|, i reads cs requires 0 <= i < |cs| => cs[i].etr)
  }

  /**
   * `getVictim`: the first invalid candidate, or else the earliest one whose
   * ETR is the largest; nothing is changed.
   */
  method GetVictim(cands: seq<ReplData>) returns (v: nat)
    requires |cands| > 0
    ensures v == Victim(Valids(cands), Etrs(cands))
  {
    ghost var vs, ks := Valids(cands), Etrs(cands);
    v := 0;
    var victimEtr := cands[0].etr;
    var i := 0;
    while i < |cands|
      invariant 0 <= i <= |cands| && v < |cands|
      invariant forall j :: 0 <= j < i ==> vs[j]
      invariant i == 0 ==> v == 0
      invariant i >= 1 ==> v == ArgMax(ks, i)
      invariant victimEtr == ks[v]
    {
      if !cands[i].valid {
        FirstInvalidAt(vs, 0, i);
        return i;
      }
      if cands[i].etr > victimEtr {
        v := i;
        victimEtr := cands[i].etr;
      }
      i := i + 1;
    }
  }
}
