// Victim selection shared by the three replacement policies, and gem5's
// n-bit saturating counter. Every `getVictim` walks its candidates in order,
// returns the first invalid one, and otherwise keeps the candidate whose key
// (RRPV or ETR) is strictly larger than every key seen before it, so ties go
// to the earliest candidate.
module Selection {
  import opened Engine
  import opened Bits

  /** The first index at or after `from` whose entry is invalid, if any. */
  function FirstInvalid(valid: seq<bool>, from: nat): (r: Option<nat>)
    requires from <= |valid|
    ensures r.Some? ==> from <= r.value < |valid| && !valid[r.value]
    ensures r.Some? ==> forall j :: from <= j < r.value ==> valid[j]
    ensures r.None? ==> forall j :: from <= j < |valid| ==> valid[j]
    decreases |valid| - from
  {
    if from == |valid| then None
    else if !valid[from] then Some(from)
    else FirstInvalid(valid, from + 1)
  }

  /** An invalid entry preceded only by valid ones is the one `FirstInvalid` finds. */
  lemma {:induction false} FirstInvalidAt(valid: seq<bool>, from: nat, i: nat)
    requires from <= i < |valid| && !valid[i]
    requires forall j :: from <= j < i ==> valid[j]
    ensures FirstInvalid(valid, from) == Some(i)
    decreases i - from
  {
    if from < i {
      FirstInvalidAt(valid, from + 1, i);
    }
  }

  /**
   * The scan over the first `n` keys: the index of the earliest maximum.
   * Its key is at least every key among the first `n`, and strictly above
   * every key before it.
   */
  function ArgMax(keys: seq<int>, n: nat): (r: nat)
    requires 1 <= n <= |keys|
    ensures r < n
    ensures forall j :: 0 <= j < n ==> keys[j] <= keys[r]
    ensures forall j :: 0 <= j < r ==> keys[j] < keys[r]
  {
    if n == 1 then 0
    else
      var b := ArgMax(keys, n - 1);
      if keys[n - 1] > keys[b] then n - 1 else b
  }

  /** The earliest maximum is unique: any index with both properties is `ArgMax`. */
  lemma ArgMaxUnique(keys: seq<int>, n: nat, r: nat)
    requires 1 <= n <= |keys| && r < n
    requires forall j :: 0 <= j < n ==> keys[j] <= keys[r]
    requires forall j :: 0 <= j < r ==> keys[j] < keys[r]
    ensures r == ArgMax(keys, n)
  {
    var m := ArgMax(keys, n);
    assert keys[m] <= keys[r] && keys[r] <= keys[m];
  }

  /**
   * The candidate every `getVictim` returns: the first invalid one, or,
   * when all are valid, the earliest one with the largest key.
   */
  function Victim(valid: seq<bool>, keys: seq<int>): (r: nat)
    requires |valid| == |keys| >= 1
    ensures r < |keys|
    ensures (exists i :: 0 <= i < |valid| && !valid[i]) ==>
      !valid[r] && forall j :: 0 <= j < r ==> valid[j]
    ensures (forall i :: 0 <= i < |valid| ==> valid[i]) ==>
      (forall j :: 0 <= j < |keys| ==> keys[j] <= keys[r]) &&
      (forall j :: 0 <= j < r ==> keys[j] < keys[r])
  {
    match FirstInvalid(valid, 0)
    case Some(i) => i
    case None => ArgMax(keys, |keys|)
  }

  // ---------------------------------------------------------------------
  // gem5's `SatCounter8`: an n-bit counter that `reset()` sets to 0,
  // `saturate()` sets to its maximum and `++` never takes above it.

  function SatMax(bits: nat): (r: nat)
    ensures r + 1 == Pow2(bits)
  {
    Pow2(bits) - 1
  }

  /** `++` on the counter: one more, unless it is already at the maximum. */
  function SatInc(v: int, bits: nat): (r: int)
    ensures v < SatMax(bits) ==> r == v + 1
    ensures v >= SatMax(bits) ==> r == v
  {
    if v < SatMax(bits) then v + 1 else v
  }

  /** A counter of at least three bits reaches 6 and 7, the values the policies compare with. */
  lemma SatMaxThreeBits(bits: nat)
    requires bits >= 3
    ensures SatMax(bits) >= 7
  {
    Pow2Monotone(3, bits);
  }
}
