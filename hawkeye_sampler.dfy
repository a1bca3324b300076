// The Hawkeye history sampler, OPTgen occupancy vector and PC-based
// predictor (src/mem/cache/tags/hawkeye_sampler.hh and .cc).
//
// A sampler entry packs a 16-bit address tag, a 16-bit hashed PC and an
// 8-bit timestamp into one 64-bit word: address in bits 24..39, PC in bits
// 8..23, timestamp in bits 0..7.
module HawkeyeSampler {
  import opened Engine
  import opened Bits
  import opened SamplerLru

  const NumWays: nat := 8
  const AddressTagMask: bv64 := 0xFFFF

  // ---------------------------------------------------------------------
  // Entry packing.

  /** The word `insert` stores: `addr << 24 | pc << 8 | ts`. */
  function Pack(addr: bv16, pc: bv16, ts: bv8): bv64 {
    ((addr as bv64) << 24) | ((pc as bv64) << 8) | (ts as bv64)
  }

  function GetAddress(w: bv64): bv16 {
    AddressField(w >> 24)
  }

  /** The low 16 bits of the word shifted down past the PC and timestamp fields. */
  function AddressField(hi: bv64): bv16 {
    (hi & 0xFFFF) as bv16
  }

  function GetPC(w: bv64): bv16 {
    ((w >> 8) & 0xFFFF) as bv16
  }

  function GetTimestamp(w: bv64): bv8 {
    (w & 0xFF) as bv8
  }

  /** `setPC`: keep every bit from 24 up and the timestamp, write the PC field. */
  function SetPC(w: bv64, pc: bv16): bv64 {
    ((w >> 24) << 24) | ((pc as bv64) << 8) | (w & 0xFF)
  }

  /** `setTimestamp`: keep every bit from 8 up, write the timestamp field. */
  function SetTimestamp(w: bv64, ts: bv8): bv64 {
    ((w >> 8) << 8) | (ts as bv64)
  }

  /** The getters recover exactly the fields `insert` packed. */
  lemma PackRoundTrip(addr: bv16, pc: bv16, ts: bv8)
    ensures GetAddress(Pack(addr, pc, ts)) == addr
    ensures GetPC(Pack(addr, pc, ts)) == pc
    ensures GetTimestamp(Pack(addr, pc, ts)) == ts
  {
  }

  /** `setPC` writes the PC field ... */
  lemma SetPCWritesPC(w: bv64, pc: bv16)
    ensures GetPC(SetPC(w, pc)) == pc
  {
  }

  /** ... keeps every bit from 24 up, so the address field too ... */
  lemma SetPCKeepsHigh(w: bv64, pc: bv16)
    ensures SetPC(w, pc) >> 24 == w >> 24
    ensures GetAddress(SetPC(w, pc)) == GetAddress(w)
  {
  }

  /** ... and keeps the timestamp. */
  lemma SetPCKeepsTimestamp(w: bv64, pc: bv16)
    ensures GetTimestamp(SetPC(w, pc)) == GetTimestamp(w)
  {
  }

  /** `setTimestamp` writes bits 0..7 and nothing else. */
  lemma SetTimestampFields(w: bv64, ts: bv8)
    ensures GetTimestamp(SetTimestamp(w, ts)) == ts
    ensures SetTimestamp(w, ts) >> 8 == w >> 8
  {
  }

  // ---------------------------------------------------------------------
  // One 8-way sampler set, as a value.

  /** The first way `insert` may overwrite: invalid, or valid with age 0. */
  function FirstFree(ws: seq<Line>, from: nat): (r: Option<nat>)
    requires from <= |ws|
    ensures r.Some? ==> from <= r.value < |ws| && Free(ws[r.value])
    ensures r.Some? ==> forall j :: from <= j < r.value ==> !Free(ws[j])
    ensures r.None? ==> forall j :: from <= j < |ws| ==> !Free(ws[j])
    decreases |ws| - from
  {
    if from == |ws| then None
    else if Free(ws[from]) then Some(from)
    else FirstFree(ws, from + 1)
  }

  /** The set after `insert(addr, pc, ts)`; with no free way nothing changes. */
  function Inserted(ws: seq<Line>, addr: bv16, pc: bv16, ts: bv8): seq<Line> {
    match FirstFree(ws, 0)
    case None => ws
    case Some(c) => Place(ws, c, Pack(addr, pc, ts))
  }

  /** From a reachable set, `insert` always finds a way and keeps the LRU invariant. */
  lemma InsertedInv(ws: seq<Line>, addr: bv16, pc: bv16, ts: bv8)
    requires LruInv(ws) && |ws| > 0
    ensures FirstFree(ws, 0).Some?
    ensures LruInv(Inserted(ws, addr, pc, ts))
  {
    FreeExists(ws);
    var c := FirstFree(ws, 0).value;
    PlaceInv(ws, c, Pack(addr, pc, ts));
  }

  /** The way `access` matches: the first whose address field is `addr`, valid or not. */
  function FindTag(ws: seq<Line>, addr: bv16, from: nat): (r: Option<nat>)
    requires from <= |ws|
    ensures r.Some? ==> from <= r.value < |ws| && GetAddress(ws[r.value].tag) == addr
    ensures r.Some? ==> forall j :: from <= j < r.value ==> GetAddress(ws[j].tag) != addr
    ensures r.None? ==> forall j :: from <= j < |ws| ==> GetAddress(ws[j].tag) != addr
    decreases |ws| - from
  {
    if from == |ws| then None
    else if GetAddress(ws[from].tag) == addr then Some(from)
    else FindTag(ws, addr, from + 1)
  }

  /** What `access` does to the matched way: new PC and timestamp, same address, age and valid bit. */
  function Touched(l: Line, pc: bv16, ts: bv8): Line {
    l.(tag := SetTimestamp(SetPC(l.tag, pc), ts))
  }

  /** The set after `access(addr, pc, ts)`. */
  function Accessed(ws: seq<Line>, addr: bv16, pc: bv16, ts: bv8): seq<Line> {
    match FindTag(ws, addr, 0)
    case None => ws
    case Some(i) => ws[i := Touched(ws[i], pc, ts)]
  }

  /** The way `access` rewrites keeps its address field and now carries the new PC and timestamp. */
  lemma TouchedFields(l: Line, pc: bv16, ts: bv8)
    ensures GetAddress(Touched(l, pc, ts).tag) == GetAddress(l.tag)
    ensures GetPC(Touched(l, pc, ts).tag) == pc
    ensures GetTimestamp(Touched(l, pc, ts).tag) == ts
  {
    var w := SetPC(l.tag, pc);
    SetPCWritesPC(l.tag, pc);
    SetPCKeepsHigh(l.tag, pc);
    SetTimestampFields(w, ts);
    TimestampKeepsFields(w, ts);
  }

  lemma TimestampKeepsFields(w: bv64, ts: bv8)
    ensures GetAddress(SetTimestamp(w, ts)) == GetAddress(w)
    ensures GetPC(SetTimestamp(w, ts)) == GetPC(w)
  {
  }

  /** A hit leaves the tag found again, now carrying the new PC and timestamp, and keeps the invariant. */
  lemma AccessedHit(ws: seq<Line>, addr: bv16, pc: bv16, ts: bv8)
    requires LruInv(ws) && FindTag(ws, addr, 0).Some?
    ensures var i := FindTag(ws, addr, 0).value;
      var r := Accessed(ws, addr, pc, ts);
      && FindTag(r, addr, 0) == Some(i)
      && GetPC(r[i].tag) == pc && GetTimestamp(r[i].tag) == ts
      && r[i].valid == ws[i].valid && r[i].lru == ws[i].lru
      && LruInv(r)
  {
    var i := FindTag(ws, addr, 0).value;
    TouchedFields(ws[i], pc, ts);
    RetagInv(ws, i, Touched(ws[i], pc, ts).tag);
    var r := Accessed(ws, addr, pc, ts);
    FindTagSame(ws, r, addr, i);
  }

  /** Two sets that agree on the address fields of ways `from..i` and whose way `i` matches `addr` find the same way. */
  lemma {:induction false} FindTagSame(ws: seq<Line>, r: seq<Line>, addr: bv16, i: nat)
    requires i < |ws| == |r|
    requires FindTag(ws, addr, 0) == Some(i)
    requires forall j :: 0 <= j < i ==> r[j] == ws[j]
    requires GetAddress(r[i].tag) == addr
    ensures FindTag(r, addr, 0) == Some(i)
  {
    FindTagFrom(ws, r, addr, i, 0);
  }

  lemma {:induction false} FindTagFrom(ws: seq<Line>, r: seq<Line>, addr: bv16, i: nat, from: nat)
    requires from <= i < |ws| == |r|
    requires FindTag(ws, addr, from) == Some(i)
    requires forall j :: from <= j < i ==> r[j] == ws[j]
    requires GetAddress(r[i].tag) == addr
    ensures FindTag(r, addr, from) == Some(i)
    decreases i - from
  {
    if from < i {
      FindTagFrom(ws, r, addr, i, from + 1);
    }
  }

  /** The ways of a freshly constructed set. */
  function EmptyWays(): seq<Line> {
    seq(NumWays, i => EmptyLine)
  }

  /** A freshly constructed set (all ways zero) reports a hit for address tag 0 at way 0. */
  lemma EmptySetHitsZero()
    ensures FindTag(EmptyWays(), 0, 0) == Some(0)
  {
    var ws := EmptyWays();
    assert GetAddress(ws[0].tag) == 0;
  }

  /** `CacheSet`: eight ways updated in place. */
  class CacheSet {
    const ways: array<Line>

    ghost predicate Valid()
      reads ways
    {
      ways.Length == NumWays && LruInv(ways[..])
    }

    constructor()
      ensures Valid() && fresh(ways)
      ensures ways[..] == EmptyWays()
    {
      ways := new Line[NumWays](i => EmptyLine);
      new;
      EmptyInv(ways[..]);
    }

    /** `insert`: take the first free way, age the others, make it the youngest. */
    method Insert(addr: bv16, pc: bv16, ts: bv8)
      requires Valid()
      modifies ways
      ensures Valid()
      ensures ways[..] == Inserted(old(ways[..]), addr, pc, ts)
    {
      ghost var ws := ways[..];
      InsertedInv(ws, addr, pc, ts);
      var inserted := false;
      var i := 0;
      while i < NumWays
        invariant 0 <= i <= NumWays
        invariant !inserted ==> ways[..] == ws && FirstFree(ws, 0) == FirstFree(ws, i)
        invariant inserted ==> ways[..] == Inserted(ws, addr, pc, ts)
      {
        if !ways[i].valid || (ways[i].valid && ways[i].lru == 0) {
          AgeWays(ways);
          ways[i] := Line(true, NumWays - 1, Pack(addr, pc, ts));
          assert ways[..] == Place(ws, i, Pack(addr, pc, ts));
          inserted := true;
          break;
        }
        i := i + 1;
      }
      assert inserted;
    }

    /** The lookup `sample` makes in one set: `access`, and on a miss `insert`. */
    method Lookup(addr: bv16, pc: bv16, ts: bv8) returns (hit: bool, lastPC: bv16, lastTs: bv8)
      requires Valid()
      modifies ways
      ensures Valid()
      ensures hit <==> FindTag(old(ways[..]), addr, 0).Some?
      ensures hit ==> var i := FindTag(old(ways[..]), addr, 0).value;
        lastPC == GetPC(old(ways[i].tag)) && lastTs == GetTimestamp(old(ways[i].tag))
      ensures ways[..] == if hit then Accessed(old(ways[..]), addr, pc, ts) else Inserted(old(ways[..]), addr, pc, ts)
    {
      hit, lastPC, lastTs := Access(addr, pc, ts);
      if !hit {
        Insert(addr, pc, ts);
      }
    }

    /** `access`: on a hit report the way's old PC and timestamp and store the new ones. */
    method Access(addr: bv16, pc: bv16, ts: bv8) returns (hit: bool, lastPC: bv16, lastTs: bv8)
      requires Valid()
      modifies ways
      ensures Valid()
      ensures hit <==> FindTag(old(ways[..]), addr, 0).Some?
      ensures hit ==> var i := FindTag(old(ways[..]), addr, 0).value;
        lastPC == GetPC(old(ways[i].tag)) && lastTs == GetTimestamp(old(ways[i].tag))
      ensures ways[..] == Accessed(old(ways[..]), addr, pc, ts)
    {
      ghost var ws := ways[..];
      lastPC, lastTs := 0, 0;
      var i := 0;
      while i < NumWays
        invariant 0 <= i <= NumWays
        invariant ways[..] == ws
        invariant FindTag(ws, addr, 0) == FindTag(ws, addr, i)
      {
        if addr == GetAddress(ways[i].tag) {
          lastPC := GetPC(ways[i].tag);
          lastTs := GetTimestamp(ways[i].tag);
          ways[i] := ways[i].(tag := SetPC(ways[i].tag, pc));
          ways[i] := ways[i].(tag := SetTimestamp(ways[i].tag, ts));
          assert ways[..] == ws[i := Touched(ws[i], pc, ts)];
          RetagInv(ws, i, ways[i].tag);
          return true, lastPC, lastTs;
        }
        i := i + 1;
      }
      return false, lastPC, lastTs;
    }
  }
}

// The OPTgen occupancy vector, the PC-based predictor and the history
// sampler proper (src/mem/cache/tags/hawkeye_sampler.cc).
module HawkeyeTraining {
  import opened Engine
  import opened Bits
  import opened SamplerLru
  import opened HawkeyeSampler

  // ---------------------------------------------------------------------
  // Circular ranges of `liveness_history`.

  /** The number of `(i + 1) % n` steps from slot `a` to slot `b` on a ring of `n` slots. */
  function Dist(a: nat, b: nat, n: nat): (d: nat)
    requires a < n && b < n
    ensures d < n
    ensures d == 0 <==> a == b
  {
    if b >= a then b - a else b + n - a
  }

  /** Slot `i` lies in the circular range `[last, curr)` the two loops of `should_cache` walk. */
  predicate InWindow(last: nat, curr: nat, i: nat, n: nat)
    requires last < n && curr < n && i < n
  {
    Dist(last, i, n) < Dist(last, curr, n)
  }

  /** `(i + 1) % n` for an index of the ring. */
  function Next(i: nat, n: nat): (r: nat)
    requires i < n
    ensures r < n
    ensures r == if i + 1 == n then 0 else i + 1
  {
    (i + 1) % n
  }

  /** One more step of the walk from `last` stays on the way to `curr`. */
  lemma NextStep(last: nat, i: nat, curr: nat, n: nat)
    requires last < n && i < n && curr < n && i != curr
    requires Dist(last, i, n) <= Dist(last, curr, n)
    ensures Dist(last, i, n) < Dist(last, curr, n)
    ensures Dist(last, Next(i, n), n) == Dist(last, i, n) + 1
    ensures Dist(Next(i, n), curr, n) + 1 == Dist(i, curr, n)
  {
  }

  /** Different slots are at different distances from `last`. */
  lemma DistInjective(last: nat, i: nat, j: nat, n: nat)
    requires last < n && i < n && j < n
    ensures Dist(last, i, n) == Dist(last, j, n) ==> i == j
  {
  }

  /** Every slot of the window is still below the cache size: OPT would have kept the line. */
  predicate Fits(h: seq<u32>, last: nat, curr: nat, cap: u64)
    requires last < |h| && curr < |h|
  {
    forall i :: 0 <= i < |h| && InWindow(last, curr, i, |h|) ==> h[i] as int < cap as int
  }

  /** The history after the second loop of `should_cache`: each slot of the window one fuller. */
  function Charged(h: seq<u32>, last: nat, curr: nat): (r: seq<u32>)
    requires last < |h| && curr < |h|
    ensures |r| == |h|
  {
    seq(|h|, i requires 0 <= i < |h| => if InWindow(last, curr, i, |h|) then Inc32(h[i]) else h[i])
  }

  /** An empty window (`last == curr`) always fits and charges nothing. */
  lemma EmptyWindow(h: seq<u32>, q: nat, cap: u64)
    requires q < |h|
    ensures Fits(h, q, q, cap)
    ensures Charged(h, q, q) == h
  {
  }

  /** When the cache size fits in 32 bits, charging adds exactly 1 inside the window and 0 outside. */
  lemma ChargedExact(h: seq<u32>, last: nat, curr: nat, cap: u64)
    requires last < |h| && curr < |h| && Fits(h, last, curr, cap)
    requires cap as int <= 0xFFFF_FFFF
    ensures forall i :: 0 <= i < |h| ==>
      Charged(h, last, curr)[i] as int == h[i] as int + (if InWindow(last, curr, i, |h|) then 1 else 0)
  {
  }

  /** A history whose slots are all at most the cache size stays so after `should_cache`. */
  lemma ChargedBounded(h: seq<u32>, last: nat, curr: nat, cap: u64)
    requires last < |h| && curr < |h|
    requires forall i :: 0 <= i < |h| ==> h[i] as int <= cap as int
    ensures Fits(h, last, curr, cap) ==>
      forall i :: 0 <= i < |h| ==> Charged(h, last, curr)[i] as int <= cap as int
  {
  }

  /** `OccupencyVector`: the liveness history of one cache set and OPT's decision counters. */
  class OccupancyVector {
    const history: array<u32>
    var numCache: u64
    var numDontCache: u64
    var access: u64
    const cacheSize: u64
    const vectorSize: u64

    ghost predicate Valid() {
      history.Length == vectorSize as int
    }

    constructor(cacheSize: u64, capacity: u64)
      ensures Valid() && fresh(history)
      ensures this.cacheSize == cacheSize && vectorSize == capacity
      ensures history[..] == Zeros(capacity as int)
      ensures numCache == 0 && numDontCache == 0 && access == 0
    {
      this.cacheSize := cacheSize;
      vectorSize := capacity;
      history := new u32[capacity](i => 0);
      numCache, numDontCache, access := 0, 0, 0;
    }

    /** `add_access`: count the access and open the slot of the current quantum. */
    method AddAccess(curr: nat)
      requires Valid() && curr < history.Length
      modifies this, history
      ensures Valid()
      ensures history[..] == old(history[..])[curr := 0]
      ensures access == Inc64(old(access))
      ensures numCache == old(numCache) && numDontCache == old(numDontCache)
    {
      access := Inc64(access);
      history[curr] := 0;
    }

    /** `add_prefetch`: open the slot without counting an access. */
    method AddPrefetch(curr: nat)
      requires Valid() && curr < history.Length
      modifies history
      ensures history[..] == old(history[..])[curr := 0]
    {
      history[curr] := 0;
    }

    /**
     * `should_cache`: OPT keeps the line reused now (last used at quantum
     * `last`) iff no slot between the two uses is already full; if so the
     * line occupies every slot of that range.
     */
    method ShouldCache(curr: nat, last: nat) returns (isCache: bool)
      requires Valid() && curr < history.Length && last < history.Length
      modifies this, history
      ensures Valid()
      ensures isCache == Fits(old(history[..]), last, curr, cacheSize)
      ensures history[..] == if isCache then Charged(old(history[..]), last, curr) else old(history[..])
      ensures numCache == (if isCache then Inc64(old(numCache)) else old(numCache))
      ensures numDontCache == (if isCache then old(numDontCache) else Inc64(old(numDontCache)))
      ensures access == old(access)
    {
      var n := history.Length;
      ghost var h := history[..];
      isCache := true;
      var i: nat := last;
      while i != curr
        invariant i < n && Dist(last, i, n) <= Dist(last, curr, n)
        invariant isCache && history[..] == h
        invariant numCache == old(numCache) && numDontCache == old(numDontCache) && access == old(access)
        invariant forall j :: 0 <= j < n && Dist(last, j, n) < Dist(last, i, n) ==> h[j] as int < cacheSize as int
        decreases Dist(i, curr, n)
      {
        if history[i] as int >= cacheSize as int {
          NextStep(last, i, curr, n);
          assert InWindow(last, curr, i, n) && h[i] as int >= cacheSize as int;
          isCache := false;
          break;
        }
        NextStep(last, i, curr, n);
        forall j | 0 <= j < n && Dist(last, j, n) < Dist(last, Next(i, n), n)
          ensures h[j] as int < cacheSize as int
        {
          DistInjective(last, i, j, n);
        }
        i := (i + 1) % n;
      }
      if isCache {
        i := last;
        while i != curr
          invariant i < n && Dist(last, i, n) <= Dist(last, curr, n)
          invariant numCache == old(numCache) && numDontCache == old(numDontCache) && access == old(access)
          invariant forall j :: 0 <= j < n ==>
            history[j] == if Dist(last, j, n) < Dist(last, i, n) then Inc32(h[j]) else h[j]
          decreases Dist(i, curr, n)
        {
          NextStep(last, i, curr, n);
          forall j | 0 <= j < n
            ensures Dist(last, j, n) == Dist(last, i, n) ==> j == i
          {
            DistInjective(last, i, j, n);
          }
          history[i] := Inc32(history[i]);
          i := (i + 1) % n;
        }
        assert i == curr;
        assert history[..] == Charged(h, last, curr);
      }
      if isCache {
        numCache := Inc64(numCache);
      } else {
        numDontCache := Inc64(numDontCache);
      }
    }

    /** `get_num_opt_hits`: the number of reuses OPT would have cached. */
    method GetNumOptHits() returns (r: u64)
      ensures r == numCache
    {
      return numCache;
    }
  }

  // ---------------------------------------------------------------------
  // The PC-based predictor.

  /** One training step of a saturating counter with maximum `max`. */
  function Trained(c: int, opt: bool, max: int): int {
    if opt then (if c < max then c + 1 else c) else (if c > 0 then c - 1 else c)
  }

  /** On counters in range a step is a saturating increment or decrement, and stays in range. */
  lemma TrainedSaturates(c: int, opt: bool, max: int)
    requires 0 <= c <= max
    ensures opt ==> Trained(c, opt, max) == Min(c + 1, max)
    ensures !opt ==> Trained(c, opt, max) == Max(c - 1, 0)
    ensures 0 <= Trained(c, opt, max) <= max
  {
  }

  /** `(c >> (bits - 1)) & 1`: an arithmetic shift is floor division, `& 1` the parity. */
  predicate TopBit(c: int, bits: nat)
    requires bits >= 1
  {
    (c / Pow2(bits - 1)) % 2 == 1
  }

  /** For a counter in range the top bit is set iff the counter is in the upper half. */
  lemma TopBitUpperHalf(c: int, bits: nat)
    requires bits >= 1 && 0 <= c < Pow2(bits)
    ensures TopBit(c, bits) <==> c >= Pow2(bits - 1)
  {
    var p := Pow2(bits - 1);
    assert Pow2(bits) == 2 * p;
    if c >= p {
      assert c / p == 1 by {
        assert c - p < p;
        DivOne(c, p);
      }
    } else {
      assert c / p == 0;
    }
  }

  lemma DivOne(c: int, p: int)
    requires p >= 1 && p <= c < 2 * p
    ensures c / p == 1
  {
  }

  /** `PCBasedPredictor`: a table of saturating counters indexed by a PC signature. */
  class PCBasedPredictor {
    const counters: array<int>
    const numEntries: nat
    const maxValue: int
    const bitsPerEntry: nat

    ghost predicate Valid() {
      counters.Length == numEntries && bitsPerEntry <= 31 && maxValue == Pow2(bitsPerEntry) - 1
    }

    /** The counters are allocated and not initialised: their contents are arbitrary. */
    constructor(numEntries: nat, bitsPerEntry: nat)
      requires bitsPerEntry <= 31
      ensures Valid() && fresh(counters)
      ensures this.numEntries == numEntries && this.bitsPerEntry == bitsPerEntry
    {
      this.numEntries := numEntries;
      this.bitsPerEntry := bitsPerEntry;
      counters := new int[numEntries];
      maxValue := Pow2(bitsPerEntry) - 1;
    }

    /** `train`: one saturating step of the counter of `lastPC % num_entries`; nothing else changes. */
    method Train(lastPC: bv64, opt: bool)
      requires Valid() && numEntries >= 1
      modifies counters
      ensures var s := Mod(lastPC, numEntries);
        counters[..] == old(counters[..])[s := Trained(old(counters[s]), opt, maxValue)]
    {
      var signature := Mod(lastPC, numEntries);
      if opt {
        if counters[signature] < maxValue {
          counters[signature] := counters[signature] + 1;
        }
      } else {
        if counters[signature] > 0 {
          counters[signature] := counters[signature] - 1;
        }
      }
    }

    /** `predict`: the top bit of the counter of `CRC(PC) % num_entries`. */
    method Predict(pc: bv64) returns (friendly: bool)
      requires Valid() && numEntries >= 1 && bitsPerEntry >= 1
      ensures friendly == TopBit(counters[Mod(Crc(pc), numEntries)], bitsPerEntry)
    {
      var signature := Mod(Crc(pc), numEntries);
      friendly := (counters[signature] / Pow2(bitsPerEntry - 1)) % 2 == 1;
    }
  }

  /** Counters kept in `[0, max]` by training predict friendly iff they are in the upper half. */
  lemma PredictUpperHalf(c: int, bits: nat)
    requires bits >= 1 && 0 <= c <= Pow2(bits) - 1
    ensures TopBit(c, bits) <==> c >= Pow2(bits - 1)
  {
    TopBitUpperHalf(c, bits);
  }

  // ---------------------------------------------------------------------
  // The history sampler.

  /** `SAMPLED_SET`: bits 0..5 of the set number equal its 6 bits from `log2(cache_sets) - 6`. */
  predicate SampledSet(cacheSet: nat, cacheSets: nat)
    requires cacheSets >= 1 && Log2(cacheSets) >= 6
  {
    Field(cacheSet, 0, 6) == Field(cacheSet, Log2(cacheSets) - 6, 6)
  }

  /** Set 0 is always sampled, and with exactly 64 cache sets every set is. */
  lemma SampledSetCases(cacheSet: nat, cacheSets: nat)
    requires cacheSets >= 1 && Log2(cacheSets) >= 6
    ensures SampledSet(0, cacheSets)
    ensures Log2(cacheSets) == 6 ==> SampledSet(cacheSet, cacheSets)
  {
  }

  /** The sampler set an address maps to: `(addr >> log2(block)) % num_sets`. */
  function SetIndex(addr: bv64, log2Block: nat, numSets: nat): (k: nat)
    requires log2Block < 64 && numSets >= 1
    ensures k < numSets
  {
    Mod(addr >> log2Block, numSets)
  }

  /** The sampler's address tag: the CRC of the bits above the set index, cut to 16 bits. */
  function AddrTag(addr: bv64, shift: nat): bv16
    requires shift < 64
  {
    (Mod(Crc(addr >> shift), 0x1_0000)) as bv16
  }

  /** The stored PC: `CRC(PC) % m` cut to 16 bits. */
  function HashedPc(pc: bv64, m: nat): bv16
    requires 1 <= m < 0x8000_0000
  {
    (Mod(Crc(pc), m) % 0x1_0000) as bv16
  }

  /** A sequence that differs from `a` at most at index `k` is `a` updated there. */
  lemma UpdatedAt<T>(a: seq<T>, b: seq<T>, k: nat)
    requires |a| == |b| && k < |a|
    requires forall i :: 0 <= i < |a| && i != k ==> b[i] == a[i]
    ensures b == a[k := b[k]]
  {
  }

  /** The sampler's contents: the ways of each set and the per-set timestamp counters. */
  datatype SamplerState = SamplerState(ways: seq<seq<Line>>, timestamps: seq<u64>)

  /** `HistorySampler`: `num_sets` 8-way sets and one timestamp counter per set. */
  class HistorySampler {
    const sets: seq<CacheSet>
    const timestamps: array<u64>
    const numSets: nat
    const numCacheSets: nat
    const cacheBlockSize: nat
    const timerSize: nat
    const log2NumSets: nat
    const log2CacheBlockSize: nat
    ghost const Repr: set<array<Line>>

    /** The configuration: what the constructor establishes about the constants. */
    ghost predicate Shape() {
      && |sets| == numSets >= 1
      && timestamps.Length == numSets
      && 1 <= timerSize < 0x8000_0000
      && numCacheSets >= 1 && Log2(numCacheSets) >= 6
      && cacheBlockSize >= 1 && log2CacheBlockSize == Log2(cacheBlockSize)
      && log2NumSets == Log2(numSets)
      && log2CacheBlockSize + log2NumSets < 64
    }

    ghost predicate Valid()
      reads this, Repr
    {
      && Shape()
      && Repr == (set i | 0 <= i < |sets| :: sets[i].ways)
      && (forall i :: 0 <= i < |sets| ==> sets[i].Valid())
      && (forall i, j :: 0 <= i < j < |sets| ==> sets[i].ways != sets[j].ways)
    }

    /** Every sampler way starts invalid; the timestamp counters are not initialised. */
    constructor(numSets: nat, numCacheSets: nat, cacheBlockSize: nat, timerSize: nat)
      requires numSets >= 1 && numCacheSets >= 1 && Log2(numCacheSets) >= 6
      requires cacheBlockSize >= 1 && Log2(cacheBlockSize) + Log2(numSets) < 64
      requires 1 <= timerSize < 0x8000_0000
      ensures Valid() && fresh(timestamps) && fresh(Repr)
      ensures forall i :: 0 <= i < |sets| ==> sets[i].ways[..] == EmptyWays()
    {
      var s: seq<CacheSet> := [];
      while |s| < numSets
        invariant |s| <= numSets
        invariant forall i :: 0 <= i < |s| ==> s[i].Valid() && fresh(s[i].ways)
        invariant forall i :: 0 <= i < |s| ==> s[i].ways[..] == EmptyWays()
        invariant forall i, j :: 0 <= i < j < |s| ==> s[i].ways != s[j].ways
      {
        var c := new CacheSet();
        s := s + [c];
      }
      sets := s;
      timestamps := new u64[numSets];
      this.numSets := numSets;
      this.numCacheSets := numCacheSets;
      this.cacheBlockSize := cacheBlockSize;
      this.timerSize := timerSize;
      log2NumSets := Log2(numSets);
      log2CacheBlockSize := Log2(cacheBlockSize);
      Repr := set i | 0 <= i < |s| :: s[i].ways;
    }

    /** The ways of every sampler set and the timestamp counters, as values. */
    ghost function State(): (st: SamplerState)
      requires Valid()
      reads this, Repr, timestamps
      ensures |st.ways| == numSets && st.timestamps == timestamps[..]
      ensures forall i :: 0 <= i < |sets| ==> st.ways[i] == sets[i].ways[..]
    {
      SamplerState(seq(|sets|, i requires 0 <= i < |sets| reads Repr => sets[i].ways[..]), timestamps[..])
    }

    /**
     * What `sample` does, from the state `before` to the state `after`. For
     * an unsampled cache set: no sampler hit and nothing changes. For a
     * sampled one: `currTs` is the set's counter cut to 8 bits, the counter
     * advances modulo `timer_size`, the sampler hits iff some way carries the
     * address tag, a hit reports that way's PC and timestamp and rewrites
     * them, a miss inserts, and no other sampler set changes.
     */
    ghost predicate Sampled(before: SamplerState, after: SamplerState,
                            addr: bv64, pc: bv64, cacheSet: nat, log2NumPredEntries: nat,
                            hit: bool, currTs: bv8, lastPC: bv16, lastTs: bv8)
      requires Shape() && 1 <= log2NumPredEntries < 0x8000_0000
      requires |before.ways| == |after.ways| == |before.timestamps| == |after.timestamps| == numSets
    {
      if !SampledSet(cacheSet, numCacheSets) then
        !hit && after == before
      else
        var k := SetIndex(addr, log2CacheBlockSize, numSets);
        var tag := AddrTag(addr, log2CacheBlockSize + log2NumSets);
        var hpc := HashedPc(pc, log2NumPredEntries);
        var ts := Ts8(before.timestamps[k]);
        var ws := before.ways[k];
        && currTs == ts
        && after.timestamps == before.timestamps[k := Tick(before.timestamps[k], timerSize)]
        && (hit <==> FindTag(ws, tag, 0).Some?)
        && (hit ==>
              lastPC == GetPC(ws[FindTag(ws, tag, 0).value].tag) &&
              lastTs == GetTimestamp(ws[FindTag(ws, tag, 0).value].tag))
        && after.ways == before.ways[k := if hit then Accessed(ws, tag, hpc, ts) else Inserted(ws, tag, hpc, ts)]
    }

    /**
     * `sample`: look the address up in the sampler set of a sampled cache
     * set, store the current PC and timestamp on a hit or insert on a miss,
     * and advance that set's timestamp counter. Returns whether the sampler
     * hit; `lastPC` and `lastTs` are meaningful only then.
     */
    method Sample(addr: bv64, pc: bv64, cacheSet: nat, log2NumPredEntries: nat)
      returns (hit: bool, currTs: bv8, lastPC: bv16, lastTs: bv8)
      requires Valid() && 1 <= log2NumPredEntries < 0x8000_0000
      modifies timestamps, Repr
      ensures Valid()
      ensures Sampled(old(State()), State(), addr, pc, cacheSet, log2NumPredEntries, hit, currTs, lastPC, lastTs)
    {
      lastPC, lastTs, currTs := 0, 0, 0;
      if !SampledSet(cacheSet, numCacheSets) {
        return false, currTs, lastPC, lastTs;
      }
      var k := SetIndex(addr, log2CacheBlockSize, numSets);
      var addrTag := AddrTag(addr, log2CacheBlockSize + log2NumSets);
      var hashedPc := HashedPc(pc, log2NumPredEntries);
      var timestamp := Ts8(timestamps[k]);
      currTs := timestamp;
      hit, lastPC, lastTs := Step(k, addrTag, hashedPc, timestamp);
    }

    /** `sample` on sampler set `k`: look up, insert on a miss, advance the set's counter. */
    method Step(k: nat, tag: bv16, hpc: bv16, ts: bv8) returns (hit: bool, lastPC: bv16, lastTs: bv8)
      requires Valid() && k < numSets
      modifies timestamps, Repr
      ensures Valid()
      ensures var ws := old(State()).ways[k];
        && (hit <==> FindTag(ws, tag, 0).Some?)
        && (hit ==>
              lastPC == GetPC(ws[FindTag(ws, tag, 0).value].tag) &&
              lastTs == GetTimestamp(ws[FindTag(ws, tag, 0).value].tag))
        && State() == SamplerState(
             old(State()).ways[k := if hit then Accessed(ws, tag, hpc, ts) else Inserted(ws, tag, hpc, ts)],
             old(State()).timestamps[k := Tick(old(timestamps[k]), timerSize)])
    {
      var cs := sets[k];
      assert cs.ways in Repr;
      ghost var st := State();
      hit, lastPC, lastTs := cs.Lookup(tag, hpc, ts);
      assert forall i :: 0 <= i < |sets| && i != k ==> sets[i].ways != cs.ways;
      timestamps[k] := Tick(timestamps[k], timerSize);
      assert forall i :: 0 <= i < |sets| && i != k ==> sets[i].ways[..] == st.ways[i];
      assert Valid();
      ghost var after := State();
      UpdatedAt(st.ways, after.ways, k);
    }
  }
}
