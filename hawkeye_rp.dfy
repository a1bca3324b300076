// The Hawkeye replacement policy: per-line replacement data (RRPV, cache
// friendliness, valid bit, owning context), victim selection with aging of
// friendly lines, and the hit (`touch`) and fill (`reset`) handlers that set
// a line's RRPV from the PC predictor and train that predictor with OPTgen's
// decision whenever the history sampler recognises a reuse.
module HawkeyeRp {
  import opened Engine
  import opened Bits
  import opened SamplerLru
  import opened HawkeyeSampler
  import opened HawkeyeTraining
  import opened Selection

  /**
   * The parts of a gem5 packet and its request the Hawkeye policies read.
   * `cacheStats` holds the (cache level, miss count) readings a request
   * carries, in the order its map is walked; `instCount`, `dramAccess` and
   * `dramRowHit` are its counters, gem5's 64-bit `Counter`s.
   */
  datatype Packet = Packet(
    isRequest: bool, isResponse: bool, hasPC: bool, hasContextId: bool,
    addr: bv64, pc: bv64, contextId: int,
    hasCacheStats: bool, cacheStats: seq<(int, u64)>, instCount: u64,
    hasDramStats: bool, dramAccess: u64, dramRowHit: u64)

  /** `touch` acts only on a request that carries a PC and a context. */
  predicate HitGuard(p: Packet) {
    p.isRequest && p.hasPC && p.hasContextId
  }

  /** Hawkeye's `reset` acts only on a response that carries a PC and a context. */
  predicate FillGuard(p: Packet) {
    p.isResponse && p.hasPC && p.hasContextId
  }

  /**
   * `HawkeyeReplData`: an RRPV held in an n-bit saturating counter, the
   * friendliness the predictor gave the line, its valid bit and (written by
   * `touch` and `reset`) the context that last used it.
   */
  class ReplData {
    var rrpv: int
    const rrpvBits: nat
    var friendly: bool
    var valid: bool
    var contextId: int

    /** The counter is in range, and a friendly line is never above 6. */
    ghost predicate Valid()
      reads this
    {
      1 <= rrpvBits <= 8 && 0 <= rrpv <= SatMax(rrpvBits) && (friendly ==> rrpv <= 6)
    }

    /** What `touch` stores in a line: the RRPV for its prediction, and the context. */
    method Mark(ctx: int)
      requires Valid()
      modifies this
      ensures Valid()
      ensures rrpv == RrpvFor(friendly, rrpvBits) && contextId == ctx
      ensures friendly == old(friendly) && valid == old(valid)
    {
      RrpvForValid(friendly, rrpvBits);
      rrpv := RrpvFor(friendly, rrpvBits);
      contextId := ctx;
    }

    /** What Hawkeye's `reset` stores in a filled line: the prediction, its RRPV, valid, the context. */
    method Fill(isFriendly: bool, ctx: int)
      requires Valid()
      modifies this
      ensures Valid()
      ensures friendly == isFriendly && rrpv == RrpvFor(isFriendly, rrpvBits) && valid && contextId == ctx
    {
      RrpvForValid(isFriendly, rrpvBits);
      friendly := isFriendly;
      rrpv := RrpvFor(isFriendly, rrpvBits);
      valid := true;
      contextId := ctx;
    }

    /** A new entry: RRPV 0, averse, invalid. */
    constructor(numBits: nat)
      requires 1 <= numBits <= 8
      ensures Valid() && rrpvBits == numBits
      ensures rrpv == 0 && !friendly && !valid && contextId == 0
    {
      rrpvBits := numBits;
      rrpv := 0;
      friendly := false;
      valid := false;
      contextId := 0;
    }
  }

  function Valids(cs: seq<ReplData>): (r: seq<bool>)
    reads cs
    ensures |r| == |cs| && forall i :: 0 <= i < |cs| ==> r[i] == cs[i].valid
  {
    seq(|cs|, i reads cs requires 0 <= i < |cs| => cs[i].valid)
  }

  function Rrpvs(cs: seq<ReplData>): (r: seq<int>)
    reads cs
    ensures |r| == |cs| && forall i :: 0 <= i < |cs| ==> r[i] == cs[i].rrpv
  {
    seq(|cs|, i reads cs requires 0 <= i < |cs| => cs[i].rrpv)
  }

  /** The RRPV `touch` and Hawkeye's `reset` give a line: 0 when friendly, saturated when averse. */
  function RrpvFor(friendly: bool, bits: nat): nat {
    if friendly then 0 else SatMax(bits)
  }

  /** A line inserted or hit under `RrpvFor` satisfies the line invariant. */
  lemma RrpvForValid(friendly: bool, bits: nat)
    requires 1 <= bits <= 8
    ensures 0 <= RrpvFor(friendly, bits) <= SatMax(bits)
    ensures friendly ==> RrpvFor(friendly, bits) <= 6
    ensures !friendly ==> RrpvFor(friendly, bits) >= 1
  {
    Pow2Monotone(1, bits);
  }

  /** One aging step of `getVictim`: a valid friendly line below 6 gains one, saturating. */
  function AgedRrpv(rrpv: int, valid: bool, friendly: bool, bits: nat): int {
    if valid && friendly && rrpv < 6 then SatInc(rrpv, bits) else rrpv
  }

  /** Aging keeps the counter in range and a friendly line at most 6: the panic cannot fire. */
  lemma AgingKeepsBound(rrpv: int, valid: bool, friendly: bool, bits: nat)
    requires 0 <= rrpv <= SatMax(bits) && (friendly ==> rrpv <= 6)
    ensures 0 <= AgedRrpv(rrpv, valid, friendly, bits) <= SatMax(bits)
    ensures friendly ==> AgedRrpv(rrpv, valid, friendly, bits) <= 6
    ensures !(valid && friendly && rrpv < 6) ==> AgedRrpv(rrpv, valid, friendly, bits) == rrpv
    ensures valid && friendly && rrpv < 6 && rrpv < SatMax(bits) ==>
      AgedRrpv(rrpv, valid, friendly, bits) == rrpv + 1
  {
  }

  /** `invalidate`: the line becomes invalid and averse; its RRPV is kept. */
  method Invalidate(d: ReplData)
    requires d.Valid()
    modifies d
    ensures d.Valid()
    ensures !d.valid && !d.friendly
    ensures d.rrpv == old(d.rrpv) && d.contextId == old(d.contextId)
  {
    d.valid := false;
    d.friendly := false;
  }

  /** No candidate is invalid. */
  predicate AllValid(valid: seq<bool>) {
    forall i :: 0 <= i < |valid| ==> valid[i]
  }

  /**
   * The search loop of `getVictim`: the first invalid candidate, else the
   * earliest candidate with the largest RRPV; `found` says whether an
   * invalid candidate stopped the search. Nothing changes.
   */
  method FindVictim(cands: seq<ReplData>) returns (v: nat, found: bool)
    requires |cands| > 0
    ensures v == Victim(Valids(cands), Rrpvs(cands))
    ensures found <==> !AllValid(Valids(cands))
  {
    ghost var vs, ks := Valids(cands), Rrpvs(cands);
    v := 0;
    var victimRrpv := cands[0].rrpv;
    var i := 0;
    while i < |cands|
      invariant 0 <= i <= |cands| && v < |cands|
      invariant forall j :: 0 <= j < i ==> vs[j]
      invariant i == 0 ==> v == 0
      invariant i >= 1 ==> v == ArgMax(ks, i)
      invariant victimRrpv == ks[v]
    {
      if !cands[i].valid {
        FirstInvalidAt(vs, 0, i);
        return i, true;
      }
      if cands[i].rrpv > victimRrpv {
        v := i;
        victimRrpv := cands[i].rrpv;
      }
      i := i + 1;
    }
    found := false;
  }

  /**
   * The aging loop of `getVictim`: every valid friendly candidate below 6
   * gains one and nothing else changes; the `panic_if` after each step is
   * checked as an assertion.
   */
  method AgeFriendly(cands: seq<ReplData>)
    requires forall i, j :: 0 <= i < j < |cands| ==> cands[i] != cands[j]
    requires forall i :: 0 <= i < |cands| ==> cands[i].Valid()
    modifies cands
    ensures forall i :: 0 <= i < |cands| ==> cands[i].Valid()
    ensures forall i :: 0 <= i < |cands| ==>
      && cands[i].valid == old(cands[i].valid)
      && cands[i].friendly == old(cands[i].friendly)
      && cands[i].contextId == old(cands[i].contextId)
      && cands[i].rrpv == AgedRrpv(old(cands[i].rrpv), old(cands[i].valid), old(cands[i].friendly), cands[i].rrpvBits)
  {
    var i := 0;
    while i < |cands|
      invariant 0 <= i <= |cands|
      invariant forall j :: 0 <= j < |cands| ==>
        && cands[j].valid == old(cands[j].valid)
        && cands[j].friendly == old(cands[j].friendly)
        && cands[j].contextId == old(cands[j].contextId)
        && cands[j].Valid()
      invariant forall j :: 0 <= j < i ==>
        cands[j].rrpv == AgedRrpv(old(cands[j].rrpv), old(cands[j].valid), old(cands[j].friendly), cands[j].rrpvBits)
      invariant forall j :: i <= j < |cands| ==> cands[j].rrpv == old(cands[j].rrpv)
    {
      var c := cands[i];
      AgingKeepsBound(c.rrpv, c.valid, c.friendly, c.rrpvBits);
      if c.valid && c.friendly && c.rrpv < 6 {
        c.rrpv := SatInc(c.rrpv, c.rrpvBits);
      }
      assert !(c.rrpv > 6 && c.friendly);
      i := i + 1;
    }
  }

  /**
   * `getVictim`: the first invalid candidate, else the earliest candidate
   * with the largest RRPV; only when every candidate is valid are the
   * friendly ones aged.
   */
  method GetVictim(cands: seq<ReplData>) returns (v: nat)
    requires |cands| > 0
    requires forall i, j :: 0 <= i < j < |cands| ==> cands[i] != cands[j]
    requires forall i :: 0 <= i < |cands| ==> cands[i].Valid()
    modifies cands
    ensures v == Victim(old(Valids(cands)), old(Rrpvs(cands)))
    ensures forall i :: 0 <= i < |cands| ==> cands[i].Valid()
    ensures forall i :: 0 <= i < |cands| ==>
      && cands[i].valid == old(cands[i].valid)
      && cands[i].friendly == old(cands[i].friendly)
      && cands[i].contextId == old(cands[i].contextId)
    ensures AllValid(old(Valids(cands))) ==> forall i :: 0 <= i < |cands| ==>
      cands[i].rrpv == AgedRrpv(old(cands[i].rrpv), old(cands[i].valid), old(cands[i].friendly), cands[i].rrpvBits)
    ensures !AllValid(old(Valids(cands))) ==> forall i :: 0 <= i < |cands| ==>
      cands[i].rrpv == old(cands[i].rrpv)
  {
    var found;
    v, found := FindVictim(cands);
    if !found {
      AgeFriendly(cands);
    }
  }

  /** The cache set a packet's block maps to: `(addr >> log2(block)) & ((1 << log2(sets)) - 1)`. */
  function CacheSetOf(addr: bv64, log2BlockSize: nat, log2NumCacheSets: nat): (k: nat)
    requires log2BlockSize < 64
    ensures k < Pow2(log2NumCacheSets)
  {
    Field(ToNat(addr >> log2BlockSize), 0, log2NumCacheSets)
  }

  // ---------------------------------------------------------------------
  // Training on a sampler hit.

  /**
   * The occupancy-vector slots of the current and the last access as the
   * source computes them: the current timestamp is reduced modulo the vector
   * size, the last one is passed on as the sampler stored it.
   */
  function TrainIndicesAsWritten(currTs: nat, lastTs: nat, n: nat): (r: (nat, nat))
    requires n >= 1
    ensures r.0 < n
  {
    (currTs % n, lastTs)
  }

  /**
   * The sampler stores 8-bit timestamps, so with the default vector of 128
   * slots a last timestamp of 200 reaches `should_cache` as slot 200, past
   * the end of `liveness_history`.
   */
  lemma LastTimestampOutOfRange()
    ensures GetTimestamp(Pack(0, 0, 200)) == 200
    ensures TrainIndicesAsWritten(5, Ts(GetTimestamp(Pack(0, 0, 200))), 128).1 >= 128
  {
    PackRoundTrip(0, 0, 200);
  }

  /** Both slots reduced modulo the vector size, as the current one already is. */
  function TrainIndices(currTs: nat, lastTs: nat, n: nat): (r: (nat, nat))
    requires n >= 1
    ensures r.0 < n && r.1 < n
    ensures r.0 == TrainIndicesAsWritten(currTs, lastTs, n).0
    ensures lastTs < n ==> r.1 == TrainIndicesAsWritten(currTs, lastTs, n).1
  {
    (currTs % n, lastTs % n)
  }

  /** An 8-bit timestamp as a number. */
  function Ts(t: bv8): nat {
    t as int
  }

  /** What one sampled access reported and what OPTgen decided. */
  datatype SampleOutcome = SampleOutcome(hit: bool, currTs: bv8, lastPC: bv16, lastTs: bv8, isCache: bool)

  /** The state of one occupancy vector as a value. */
  datatype OptState = OptState(history: seq<u32>, numCache: u64, numDontCache: u64, access: u64)

  ghost function OptOf(ov: OccupancyVector): (v: OptState)
    reads ov, ov.history
    ensures |v.history| == ov.history.Length
  {
    OptState(ov.history[..], ov.numCache, ov.numDontCache, ov.access)
  }

  /**
   * `should_cache` followed by `add_access` on one occupancy vector, as
   * values: OPTgen decides over the slots between the last and the current
   * access, charging them if the line fits, counts the decision and the
   * access, and opens the current slot.
   */
  function OptStep(v: OptState, cacheSize: u64, currTs: bv8, lastTs: bv8): (r: (bool, OptState))
    requires |v.history| >= 1
    ensures |r.1.history| == |v.history|
  {
    var slots := TrainIndices(Ts(currTs), Ts(lastTs), |v.history|);
    var isCache := Fits(v.history, slots.1, slots.0, cacheSize);
    (isCache,
     OptState((if isCache then Charged(v.history, slots.1, slots.0) else v.history)[slots.0 := 0],
              if isCache then Inc64(v.numCache) else v.numCache,
              if isCache then v.numDontCache else Inc64(v.numDontCache),
              Inc64(v.access)))
  }

  /**
   * A step keeps every slot at most the cache's associativity, opens the
   * current slot, and counts exactly one access and one decision.
   */
  lemma OptStepInvariant(v: OptState, cacheSize: u64, currTs: bv8, lastTs: bv8)
    requires |v.history| >= 1
    requires forall i :: 0 <= i < |v.history| ==> v.history[i] as int <= cacheSize as int
    ensures var r := OptStep(v, cacheSize, currTs, lastTs);
      && (forall i :: 0 <= i < |r.1.history| ==> r.1.history[i] as int <= cacheSize as int)
      && r.1.history[Ts(currTs) % |v.history|] == 0
      && r.1.access == Inc64(v.access)
      && (r.0 ==> r.1.numCache == Inc64(v.numCache) && r.1.numDontCache == v.numDontCache)
      && (!r.0 ==> r.1.numCache == v.numCache && r.1.numDontCache == Inc64(v.numDontCache))
  {
    var slots := TrainIndices(Ts(currTs), Ts(lastTs), |v.history|);
    ChargedBounded(v.history, slots.1, slots.0, cacheSize);
  }

  /**
   * The training block run on a sampler hit, on values: the occupancy
   * vector takes its `OptStep`, and the predictor counter of the last PC
   * moves one step in the direction of OPTgen's decision.
   */
  function LearnStep(v: OptState, ctrs: seq<int>, cacheSize: u64, maxValue: int,
                     currTs: bv8, lastPC: bv16, lastTs: bv8): (r: (bool, OptState, seq<int>))
    requires |v.history| >= 1 && |ctrs| >= 1
    ensures |r.1.history| == |v.history| && |r.2| == |ctrs|
  {
    var step := OptStep(v, cacheSize, currTs, lastTs);
    var sig := Mod(lastPC as bv64, |ctrs|);
    (step.0, step.1, ctrs[sig := Trained(ctrs[sig], step.0, maxValue)])
  }

  /**
   * A training step keeps every slot at most the cache's associativity, opens
   * the current slot, counts exactly one access and one decision, and moves
   * only the counter of the last PC, and that one within `[0, max]`.
   */
  lemma LearnStepInvariant(v: OptState, ctrs: seq<int>, cacheSize: u64, maxValue: int,
                           currTs: bv8, lastPC: bv16, lastTs: bv8)
    requires |v.history| >= 1 && |ctrs| >= 1 && maxValue >= 0
    requires forall i :: 0 <= i < |v.history| ==> v.history[i] as int <= cacheSize as int
    requires forall i :: 0 <= i < |ctrs| ==> 0 <= ctrs[i] <= maxValue
    ensures var r := LearnStep(v, ctrs, cacheSize, maxValue, currTs, lastPC, lastTs);
      && (forall i :: 0 <= i < |r.1.history| ==> r.1.history[i] as int <= cacheSize as int)
      && r.1.history[Ts(currTs) % |v.history|] == 0
      && r.1.access == Inc64(v.access)
      && (r.0 ==> r.1.numCache == Inc64(v.numCache) && r.1.numDontCache == v.numDontCache)
      && (!r.0 ==> r.1.numCache == v.numCache && r.1.numDontCache == Inc64(v.numDontCache))
      && (forall i :: 0 <= i < |ctrs| ==> 0 <= r.2[i] <= maxValue)
      && (forall i :: 0 <= i < |ctrs| && i != Mod(lastPC as bv64, |ctrs|) ==> r.2[i] == ctrs[i])
  {
    OptStepInvariant(v, cacheSize, currTs, lastTs);
    var sig := Mod(lastPC as bv64, |ctrs|);
    TrainedSaturates(ctrs[sig], OptStep(v, cacheSize, currTs, lastTs).0, maxValue);
  }

  /**
   * What the training block did between two states, for the outcome `o` of
   * a sampler hit: the vector and the counters took the step `LearnStep`
   * computes, and `o.isCache` is OPTgen's decision.
   */
  twostate predicate Learned(pr: PCBasedPredictor, ov: OccupancyVector, o: SampleOutcome)
    requires pr.Valid() && pr.numEntries >= 1 && ov.Valid() && ov.history.Length >= 1
    reads pr, pr.counters, ov, ov.history
  {
    (o.isCache, OptOf(ov), pr.counters[..])
      == LearnStep(old(OptOf(ov)), old(pr.counters[..]), ov.cacheSize, pr.maxValue, o.currTs, o.lastPC, o.lastTs)
  }

  /** `should_cache` then `add_access` on one vector, as `OptStep` states it. */
  method Observe(ov: OccupancyVector, currTs: bv8, lastTs: bv8) returns (isCache: bool)
    requires ov.Valid() && ov.history.Length >= 1
    modifies ov, ov.history
    ensures ov.Valid()
    ensures (isCache, OptOf(ov)) == OptStep(old(OptOf(ov)), ov.cacheSize, currTs, lastTs)
  {
    var slots := TrainIndices(Ts(currTs), Ts(lastTs), ov.history.Length);
    isCache := ov.ShouldCache(slots.0, slots.1);
    ov.AddAccess(slots.0);
  }

  /** The training block run on a sampler hit, as `LearnStep` states it; the sampler `s` stays as it is. */
  method Learn(s: HistorySampler, pr: PCBasedPredictor, ov: OccupancyVector,
               currTs: bv8, lastPC: bv16, lastTs: bv8) returns (isCache: bool)
    requires s.Valid()
    requires pr.Valid() && pr.numEntries >= 1 && ov.Valid() && ov.history.Length >= 1
    modifies pr.counters, ov, ov.history
    ensures ov.Valid() && s.Valid() && s.State() == old(s.State())
    ensures (isCache, OptOf(ov), pr.counters[..])
      == LearnStep(old(OptOf(ov)), old(pr.counters[..]), ov.cacheSize, pr.maxValue, currTs, lastPC, lastTs)
  {
    isCache := Observe(ov, currTs, lastTs);
    pr.Train(lastPC as bv64, isCache);
    SamplerKept(s);
  }

  /** The block `touch` and `reset` share once the line itself is updated. */
  method TrainOnSample(s: HistorySampler, pr: PCBasedPredictor, ov: OccupancyVector,
                       addr: bv64, pc: bv64, cacheSet: nat, m: nat) returns (o: SampleOutcome)
    requires s.Valid() && 1 <= m < 0x8000_0000
    requires pr.Valid() && pr.numEntries >= 1 && ov.Valid() && ov.history.Length >= 1
    modifies s.timestamps, s.Repr, pr.counters, ov, ov.history
    ensures s.Valid()
    ensures s.Sampled(old(s.State()), s.State(), addr, pc, cacheSet, m, o.hit, o.currTs, o.lastPC, o.lastTs)
    ensures o.hit ==> Learned(pr, ov, o)
    ensures !o.hit ==> unchanged(ov, ov.history, pr.counters)
  {
    var hit, currTs, lastPC, lastTs := s.Sample(addr, pc, cacheSet, m);
    assert unchanged(pr.counters, ov, ov.history);
    label sampled:
    var isCache := false;
    if hit {
      isCache := Learn(s, pr, ov, currTs, lastPC, lastTs);
    }
    o := SampleOutcome(hit, currTs, lastPC, lastTs, isCache);
  }

  /** A change that leaves the sampler's arrays alone leaves it valid and in the same state. */
  twostate lemma SamplerKept(s: HistorySampler)
    requires old(s.Valid()) && unchanged(s.timestamps) && unchanged(s.Repr)
    ensures s.Valid() && s.State() == old(s.State())
  {
    var before, after := old(s.State()), s.State();
    forall i | 0 <= i < |s.sets|
      ensures after.ways[i] == before.ways[i]
    {
      assert s.sets[i].ways in s.Repr;
      assert s.sets[i].ways[..] == old(s.sets[i].ways[..]);
    }
    assert after.ways == before.ways;
  }

  // ---------------------------------------------------------------------
  // The policy.

  /** What one access can train, as a value: the sampler, the predictor and one occupancy vector. */
  datatype PolicyState = PolicyState(sampler: SamplerState, counters: seq<int>, vector: OptState)

  /** `n` fresh, distinct, empty occupancy vectors. */
  method NewVectors(n: nat, cacheSize: u64, size: u64) returns (vs: seq<OccupancyVector>)
    ensures |vs| == n
    ensures forall i :: 0 <= i < n ==>
      fresh(vs[i]) && fresh(vs[i].history) && vs[i].Valid() &&
      vs[i].history[..] == Zeros(size as int) && vs[i].cacheSize == cacheSize
    ensures forall i, j :: 0 <= i < j < n ==> vs[i] != vs[j] && vs[i].history != vs[j].history
  {
    vs := [];
    while |vs| < n
      invariant |vs| <= n
      invariant forall i :: 0 <= i < |vs| ==>
        fresh(vs[i]) && fresh(vs[i].history) && vs[i].Valid() &&
        vs[i].history[..] == Zeros(size as int) && vs[i].cacheSize == cacheSize
      invariant forall i, j :: 0 <= i < j < |vs| ==> vs[i] != vs[j] && vs[i].history != vs[j].history
    {
      var v := new OccupancyVector(cacheSize, size);
      vs := vs + [v];
    }
  }

  /**
   * `Hawkeye`: one history sampler, one PC predictor and one occupancy
   * vector per cache set.
   */
  class Hawkeye {
    const sampler: HistorySampler
    const predictor: PCBasedPredictor
    const optVector: seq<OccupancyVector>
    const numRrpvBits: nat
    const numCacheSets: nat
    const log2BlockSize: nat
    const log2NumCacheSets: nat
    /** The `log2_num_pred_entries` argument `sample` declares and the policy does not pass. */
    const log2NumPredEntries: nat
    ghost const Repr: set<object>

    /** The configuration: what the constructor establishes about the constants. */
    ghost predicate Config() {
      && sampler.Shape() && predictor.Valid()
      && predictor.numEntries >= 1 && predictor.bitsPerEntry >= 1
      && 1 <= numRrpvBits <= 8
      && log2BlockSize < 64
      && numCacheSets >= 1 && log2NumCacheSets == Log2(numCacheSets)
      && 1 <= log2NumPredEntries < 0x8000_0000
      && |optVector| == numCacheSets
      && (forall i :: 0 <= i < |optVector| ==> optVector[i].Valid() && optVector[i].history.Length >= 1)
    }

    ghost predicate Valid()
      reads this, Repr
    {
      && Config()
      && sampler in Repr && sampler.timestamps in Repr && sampler.Repr <= Repr
      && predictor in Repr && predictor.counters in Repr
      && sampler.Valid()
      && (forall i :: 0 <= i < |optVector| ==> optVector[i] in Repr && optVector[i].history in Repr)
      && (forall i, j :: 0 <= i < j < |optVector| ==>
            optVector[i] != optVector[j] && optVector[i].history != optVector[j].history)
    }

    /** A training state for cache set `k` of the size this policy was configured with. */
    ghost predicate Sized(st: PolicyState, k: nat)
      requires k < |optVector|
    {
      && |st.sampler.ways| == sampler.numSets && |st.sampler.timestamps| == sampler.numSets
      && |st.counters| == predictor.numEntries
      && |st.vector.history| == optVector[k].history.Length
    }

    /** What an access to cache set `k` can train, as a value. */
    ghost function TrainState(k: nat): (st: PolicyState)
      requires Valid() && k < |optVector|
      reads this, Repr
      ensures Sized(st, k)
    {
      PolicyState(sampler.State(), predictor.counters[..], OptOf(optVector[k]))
    }

    /**
     * The policy as configured: a fresh sampler with every way invalid, a
     * predictor whose counters are not initialised, and one empty occupancy
     * vector of `optgen_vector_size` slots for each cache set.
     */
    constructor(numRrpvBits: nat, numCacheSets: nat, cacheBlockSize: nat, numCacheWays: u64,
                optgenVectorSize: u64, numPredEntries: nat, numPredBits: nat,
                numSampledSets: nat, timerSize: nat, log2NumPredEntries: nat)
      requires 1 <= numRrpvBits <= 8
      requires numSampledSets >= 1 && numCacheSets >= 1 && Log2(numCacheSets) >= 6
      requires cacheBlockSize >= 1 && Log2(cacheBlockSize) + Log2(numSampledSets) < 64
      requires 1 <= timerSize < 0x8000_0000
      requires numPredEntries >= 1 && 1 <= numPredBits <= 31
      requires optgenVectorSize >= 1
      requires 1 <= log2NumPredEntries < 0x8000_0000
      ensures Valid() && fresh(Repr)
      ensures forall i :: 0 <= i < |sampler.sets| ==> sampler.sets[i].ways[..] == EmptyWays()
      ensures forall i :: 0 <= i < |optVector| ==>
        optVector[i].history[..] == Zeros(optgenVectorSize as int) && optVector[i].cacheSize == numCacheWays
    {
      var s := new HistorySampler(numSampledSets, numCacheSets, cacheBlockSize, timerSize);
      var p := new PCBasedPredictor(numPredEntries, numPredBits);
      var vs := NewVectors(numCacheSets, numCacheWays, optgenVectorSize);
      sampler := s;
      predictor := p;
      optVector := vs;
      this.numRrpvBits := numRrpvBits;
      this.numCacheSets := numCacheSets;
      log2BlockSize := Log2(cacheBlockSize);
      log2NumCacheSets := Log2(numCacheSets);
      this.log2NumPredEntries := log2NumPredEntries;
      Repr := {s, s.timestamps, p, p.counters} + s.Repr
        + (set i | 0 <= i < |vs| :: vs[i]) + (set i | 0 <= i < |vs| :: vs[i].history);
    }

    /** The cache set of an address: it indexes one of the occupancy vectors. */
    function SetOf(addr: bv64): (k: nat)
      requires Config()
      ensures k < |optVector|
    {
      CacheSetOf(addr, log2BlockSize, log2NumCacheSets)
    }

    /**
     * The training of one access to cache set `k`, from the state `before`
     * to the state `after`: `sample` ran; on a sampler hit vector `k` and the
     * predictor took the step `LearnStep` computes and `o.isCache` is
     * OPTgen's decision; on a miss they are unchanged.
     */
    ghost predicate TrainedAt(before: PolicyState, after: PolicyState, k: nat, addr: bv64, pc: bv64,
                              o: SampleOutcome)
      requires Config() && k < |optVector| && Sized(before, k) && Sized(after, k)
    {
      && sampler.Sampled(before.sampler, after.sampler, addr, pc, k, log2NumPredEntries,
                         o.hit, o.currTs, o.lastPC, o.lastTs)
      && (o.hit ==>
            (o.isCache, after.vector, after.counters)
              == LearnStep(before.vector, before.counters, optVector[k].cacheSize, predictor.maxValue,
                           o.currTs, o.lastPC, o.lastTs))
      && (!o.hit ==> after.vector == before.vector && after.counters == before.counters)
    }

    /**
     * One access trains the policy: the sampler samples it with cache set
     * `k`, and a sampler hit trains vector `k` and the predictor.
     */
    method Train(k: nat, addr: bv64, pc: bv64) returns (o: SampleOutcome)
      requires Valid() && k < |optVector|
      modifies sampler.timestamps, sampler.Repr, predictor.counters, optVector[k], optVector[k].history
      ensures Valid()
      ensures TrainedAt(old(TrainState(k)), TrainState(k), k, addr, pc, o)
    {
      o := TrainOnSample(sampler, predictor, optVector[k], addr, pc, k, log2NumPredEntries);
    }

    /** A change outside the policy's footprint leaves it valid and its training state as it was. */
    twostate lemma LineOnly(k: nat)
      requires old(Valid()) && k < |optVector| && unchanged(this) && unchanged(Repr)
      ensures Valid() && TrainState(k) == old(TrainState(k))
    {
    }

    /**
     * `touch`: on a request with a PC and a context, a friendly line gets
     * RRPV 0 and an averse one the saturated maximum, the line records the
     * context, and the access trains the predictor through the sampler.
     * Any other packet changes nothing.
     */
    method Touch(d: ReplData, pkt: Packet) returns (ghost o: SampleOutcome)
      requires Valid() && d.Valid() && d !in Repr
      modifies d, sampler.timestamps, sampler.Repr, predictor.counters
      modifies optVector[SetOf(pkt.addr)], optVector[SetOf(pkt.addr)].history
      ensures Valid() && d.Valid()
      ensures !HitGuard(pkt) ==> unchanged(d) && TrainState(SetOf(pkt.addr)) == old(TrainState(SetOf(pkt.addr)))
      ensures HitGuard(pkt) ==> d.rrpv == RrpvFor(d.friendly, d.rrpvBits)
      ensures d.friendly == old(d.friendly) && d.valid == old(d.valid)
      ensures HitGuard(pkt) ==> d.contextId == pkt.contextId
      ensures HitGuard(pkt) ==>
        TrainedAt(old(TrainState(SetOf(pkt.addr))), TrainState(SetOf(pkt.addr)), SetOf(pkt.addr), pkt.addr, pkt.pc, o)
    {
      o := SampleOutcome(false, 0, 0, 0, false);
      if !HitGuard(pkt) {
        return;
      }
      var k := SetOf(pkt.addr);
      label before:
      d.Mark(pkt.contextId);
      LineOnly@before(k);
      o := Train(k, pkt.addr, pkt.pc);
    }

    /**
     * Hawkeye's `reset`: on a response with a PC and a context, the filled
     * line takes the predictor's verdict for the PC (read before training),
     * the RRPV for that verdict, becomes valid and records the context; then
     * the access trains the predictor through the sampler as in `touch`.
     * Any other packet changes nothing.
     */
    method Reset(d: ReplData, pkt: Packet) returns (ghost o: SampleOutcome)
      requires Valid() && d.Valid() && d !in Repr
      modifies d, sampler.timestamps, sampler.Repr, predictor.counters
      modifies optVector[SetOf(pkt.addr)], optVector[SetOf(pkt.addr)].history
      ensures Valid() && d.Valid()
      ensures !FillGuard(pkt) ==> unchanged(d) && TrainState(SetOf(pkt.addr)) == old(TrainState(SetOf(pkt.addr)))
      ensures FillGuard(pkt) ==>
        d.friendly == TopBit(old(predictor.counters[Mod(Crc(pkt.pc), predictor.numEntries)]), predictor.bitsPerEntry)
      ensures FillGuard(pkt) ==> d.rrpv == RrpvFor(d.friendly, d.rrpvBits) && d.valid
      ensures FillGuard(pkt) ==> d.contextId == pkt.contextId
      ensures FillGuard(pkt) ==>
        TrainedAt(old(TrainState(SetOf(pkt.addr))), TrainState(SetOf(pkt.addr)), SetOf(pkt.addr), pkt.addr, pkt.pc, o)
    {
      o := SampleOutcome(false, 0, 0, 0, false);
      if !FillGuard(pkt) {
        return;
      }
      ghost var verdict := TopBit(predictor.counters[Mod(Crc(pkt.pc), predictor.numEntries)], predictor.bitsPerEntry);
      var k := SetOf(pkt.addr);
      FillLine(d, pkt);
      assert d.friendly == verdict;
      LineOnly(k);
      o := Train(k, pkt.addr, pkt.pc);
    }

    /** The line half of `reset`: the predictor's verdict for the PC, its RRPV, the valid bit and the context. */
    method FillLine(d: ReplData, pkt: Packet)
      requires Valid() && d.Valid() && d !in Repr
      modifies d
      ensures d.Valid()
      ensures d.friendly == TopBit(predictor.counters[Mod(Crc(pkt.pc), predictor.numEntries)], predictor.bitsPerEntry)
      ensures d.rrpv == RrpvFor(d.friendly, d.rrpvBits) && d.valid && d.contextId == pkt.contextId
    {
      var isFriendly := predictor.Predict(pkt.pc);
      d.Fill(isFriendly, pkt.contextId);
    }
  }
}
