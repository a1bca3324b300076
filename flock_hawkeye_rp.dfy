// The Flock variant of Hawkeye: one history sampler, PC predictor, OPTgen
// occupancy vector and projection vector per core; an `access` handler that
// merges the statistics requests carry, counts this level's accesses and
// misses, and ages the lines of each core on its own ratio counter; and the
// computation of those ratios from the per-core access counts. The line data,
// `invalidate` and `getVictim` are Hawkeye's and are not repeated here.
module FlockHawkeyeRp {
  import opened Engine
  import opened Bits
  import opened SamplerLru
  import opened HawkeyeSampler
  import opened HawkeyeTraining
  import opened Selection
  import opened HawkeyeRp

  // ---------------------------------------------------------------------
  // The per-core training structures.

  /** What one core's training changes, as a value. */
  datatype CoreState = CoreState(sampler: SamplerState, counters: seq<int>, opt: OptState, proj: OptState)

  /** The state of a freshly built occupancy vector of `size` slots. */
  function EmptyOpt(size: u64): OptState {
    OptState(Zeros(size as int), 0, 0, 0)
  }

  /**
   * `samplers[i]`, `predictors[i]`, `opt_vectors[i]` and `proj_vectors[i]`
   * of one core `i`, kept together as the policy's own note on its per-core
   * information suggests.
   */
  class Core {
    const sampler: HistorySampler
    const predictor: PCBasedPredictor
    const opt: OccupancyVector
    const proj: OccupancyVector
    ghost const Repr: set<object>

    /** What the constructor establishes about the constants. */
    ghost predicate Config() {
      && sampler.Shape() && predictor.Valid()
      && predictor.numEntries >= 1 && predictor.bitsPerEntry >= 1
      && opt.Valid() && proj.Valid() && opt.history.Length >= 1
      && proj.history.Length == opt.history.Length
    }

    ghost predicate Valid()
      reads this, Repr
    {
      && Config()
      && Repr == {sampler, sampler.timestamps, predictor, predictor.counters, opt, opt.history, proj, proj.history}
                 + sampler.Repr
      && sampler.Valid()
      && opt != proj && opt.history != proj.history
    }

    /** The footprint holds only the core's own parts, never a policy object. */
    lemma NotOwned(p: FlockHawkeye)
      requires Valid()
      ensures p !in Repr
    {
    }

    /** Both occupancy vectors are as freshly built with `size` slots. */
    ghost predicate Initial(size: u64)
      reads opt, opt.history, proj, proj.history
    {
      OptOf(opt) == EmptyOpt(size) && OptOf(proj) == EmptyOpt(size)
    }

    /** A state of the sizes this core was built with. */
    ghost predicate Sized(st: CoreState) {
      && |st.sampler.ways| == sampler.numSets && |st.sampler.timestamps| == sampler.numSets
      && |st.counters| == predictor.numEntries
      && |st.opt.history| == opt.history.Length && |st.proj.history| == proj.history.Length
    }

    ghost function State(): (st: CoreState)
      requires Valid()
      reads this, Repr
      ensures Sized(st)
    {
      CoreState(sampler.State(), predictor.counters[..], OptOf(opt), OptOf(proj))
    }

    /**
     * A fresh sampler with every way invalid, a predictor whose counters are
     * not initialised, and two empty occupancy vectors.
     */
    constructor(numSampledSets: nat, numCacheSets: nat, cacheBlockSize: nat, timerSize: nat,
                numPredEntries: nat, numPredBits: nat, numCacheWays: u64, optgenVectorSize: u64)
      requires numSampledSets >= 1 && numCacheSets >= 1 && Log2(numCacheSets) >= 6
      requires cacheBlockSize >= 1 && Log2(cacheBlockSize) + Log2(numSampledSets) < 64
      requires 1 <= timerSize < 0x8000_0000
      requires numPredEntries >= 1 && 1 <= numPredBits <= 31
      requires optgenVectorSize >= 1
      ensures Valid() && fresh(Repr)
      ensures forall i :: 0 <= i < |sampler.sets| ==> sampler.sets[i].ways[..] == EmptyWays()
      ensures OptOf(opt) == EmptyOpt(optgenVectorSize) && opt.cacheSize == numCacheWays
      ensures OptOf(proj) == EmptyOpt(optgenVectorSize) && proj.cacheSize == numCacheWays
    {
      var s := new HistorySampler(numSampledSets, numCacheSets, cacheBlockSize, timerSize);
      var p := new PCBasedPredictor(numPredEntries, numPredBits);
      var o := new OccupancyVector(numCacheWays, optgenVectorSize);
      var q := new OccupancyVector(numCacheWays, optgenVectorSize);
      sampler := s;
      predictor := p;
      opt := o;
      proj := q;
      Repr := {s, s.timestamps, p, p.counters, o, o.history, q, q.history} + s.Repr;
    }

    /**
     * The training run by `touch` and `reset` for this core, from `before`
     * to `after`: `sample` ran; on a sampler hit the OPTgen vector and the
     * predictor took the step `LearnStep` computes, `o.isCache` is OPTgen's
     * decision, and the projection vector took its own `OptStep` (its
     * decision is dropped); on a sampler miss those three are unchanged.
     */
    ghost predicate TrainedAt(before: CoreState, after: CoreState, addr: bv64, pc: bv64, cacheSet: nat,
                              m: nat, o: SampleOutcome)
      requires Config() && 1 <= m < 0x8000_0000 && Sized(before) && Sized(after)
    {
      && sampler.Sampled(before.sampler, after.sampler, addr, pc, cacheSet, m,
                         o.hit, o.currTs, o.lastPC, o.lastTs)
      && (o.hit ==>
            && (o.isCache, after.opt, after.counters)
                 == LearnStep(before.opt, before.counters, opt.cacheSize, predictor.maxValue,
                              o.currTs, o.lastPC, o.lastTs)
            && after.proj == OptStep(before.proj, proj.cacheSize, o.currTs, o.lastTs).1)
      && (!o.hit ==> after.opt == before.opt && after.counters == before.counters && after.proj == before.proj)
    }

    /** The training block shared by `touch` and `reset`, as `TrainedAt` states it. */
    method Train(addr: bv64, pc: bv64, cacheSet: nat, m: nat) returns (o: SampleOutcome)
      requires Valid() && 1 <= m < 0x8000_0000
      modifies Repr
      ensures Valid()
      ensures TrainedAt(old(State()), State(), addr, pc, cacheSet, m, o)
    {
      ghost var before := State();
      o := TrainOnSample(sampler, predictor, opt, addr, pc, cacheSet, m);
      ghost var sampled := sampler.State();
      ghost var learned := (OptOf(opt), predictor.counters[..]);
      assert sampler.Sampled(before.sampler, sampled, addr, pc, cacheSet, m, o.hit, o.currTs, o.lastPC, o.lastTs);
      assert o.hit ==>
        (o.isCache, learned.0, learned.1)
          == LearnStep(before.opt, before.counters, opt.cacheSize, predictor.maxValue, o.currTs, o.lastPC, o.lastTs);
      assert !o.hit ==> learned.0 == before.opt && learned.1 == before.counters;
      assert OptOf(proj) == before.proj;
      if o.hit {
        label trained:
        var projected := Observe(proj, o.currTs, o.lastTs);
        ProjOnly@trained();
      }
    }

    /** Stepping the projection vector leaves the rest of the core as it was. */
    twostate lemma ProjOnly()
      requires old(Valid()) && proj.Valid()
      requires unchanged(Repr - {proj, proj.history})
      ensures Valid()
      ensures sampler.State() == old(sampler.State())
      ensures OptOf(opt) == old(OptOf(opt)) && predictor.counters[..] == old(predictor.counters[..])
    {
    }
  }

  /** One fresh core, valid, with both occupancy vectors as freshly built. */
  method NewCore(numSampledSets: nat, numCacheSets: nat, cacheBlockSize: nat, timerSize: nat,
                 numPredEntries: nat, numPredBits: nat, numCacheWays: u64, optgenVectorSize: u64)
    returns (c: Core)
    requires numSampledSets >= 1 && numCacheSets >= 1 && Log2(numCacheSets) >= 6
    requires cacheBlockSize >= 1 && Log2(cacheBlockSize) + Log2(numSampledSets) < 64
    requires 1 <= timerSize < 0x8000_0000
    requires numPredEntries >= 1 && 1 <= numPredBits <= 31
    requires optgenVectorSize >= 1
    ensures fresh(c) && fresh(c.Repr) && c.Valid() && c.Initial(optgenVectorSize)
  {
    c := new Core(numSampledSets, numCacheSets, cacheBlockSize, timerSize,
                  numPredEntries, numPredBits, numCacheWays, optgenVectorSize);
  }

  /** `n` fresh cores with pairwise disjoint structures. */
  method NewCores(n: nat, numSampledSets: nat, numCacheSets: nat, cacheBlockSize: nat, timerSize: nat,
                  numPredEntries: nat, numPredBits: nat, numCacheWays: u64, optgenVectorSize: u64)
    returns (cs: seq<Core>)
    requires numSampledSets >= 1 && numCacheSets >= 1 && Log2(numCacheSets) >= 6
    requires cacheBlockSize >= 1 && Log2(cacheBlockSize) + Log2(numSampledSets) < 64
    requires 1 <= timerSize < 0x8000_0000
    requires numPredEntries >= 1 && 1 <= numPredBits <= 31
    requires optgenVectorSize >= 1
    ensures |cs| == n
    ensures CoresOk(cs, CoresRepr(cs, n)) && fresh(CoresRepr(cs, n))
    ensures CoresInitial(cs, CoresRepr(cs, n), optgenVectorSize)
  {
    cs := [];
    while |cs| < n
      invariant |cs| <= n
      invariant CoresOk(cs, CoresRepr(cs, |cs|)) && fresh(CoresRepr(cs, |cs|))
      invariant CoresInitial(cs, CoresRepr(cs, |cs|), optgenVectorSize)
    {
      ghost var r := CoresRepr(cs, |cs|);
      CoresReprAllocated(cs, |cs|);
      var c := NewCore(numSampledSets, numCacheSets, cacheBlockSize, timerSize,
                       numPredEntries, numPredBits, numCacheWays, optgenVectorSize);
      assert fresh(r + {c} + c.Repr);
      CoresOkAppend(cs, c);
      cs := cs + [c];
    }
  }

  /** Every object of the joint footprint is allocated. */
  lemma {:induction false} CoresReprAllocated(cs: seq<Core>, n: nat)
    requires n <= |cs|
    ensures forall x :: x in CoresRepr(cs, n) ==> allocated(x)
    decreases n
  {
    if n > 0 {
      CoresReprAllocated(cs, n - 1);
    }
  }

  /** The joint footprint of a prefix does not depend on what follows it. */
  lemma {:induction false} CoresReprPrefix(cs: seq<Core>, c: Core, n: nat)
    requires n <= |cs|
    ensures CoresRepr(cs + [c], n) == CoresRepr(cs, n)
    decreases n
  {
    if n > 0 {
      CoresReprPrefix(cs, c, n - 1);
    }
  }

  /** A valid core that shares no object with a valid collection of cores can join it. */
  lemma CoresOkAppend(cs: seq<Core>, c: Core)
    requires CoresOk(cs, CoresRepr(cs, |cs|)) && c.Valid()
    requires c !in CoresRepr(cs, |cs|) && c.Repr !! CoresRepr(cs, |cs|)
    ensures CoresRepr(cs + [c], |cs| + 1) == CoresRepr(cs, |cs|) + {c} + c.Repr
    ensures CoresOk(cs + [c], CoresRepr(cs + [c], |cs| + 1))
  {
    CoresReprPrefix(cs, c, |cs|);
    var r, ds := CoresRepr(cs, |cs|), cs + [c];
    CoresWithinAppend(cs, c, r);
    CoresDisjointAppend(cs, c, r);
    assert forall i :: 0 <= i < |cs| ==> ds[i] == cs[i];
  }

  lemma CoresWithinAppend(cs: seq<Core>, c: Core, r: set<object>)
    requires CoresWithin(cs, r)
    ensures CoresWithin(cs + [c], r + {c} + c.Repr)
  {
    var ds := cs + [c];
    assert forall i :: 0 <= i < |cs| ==> ds[i] == cs[i];
  }

  lemma CoresDisjointAppend(cs: seq<Core>, c: Core, r: set<object>)
    requires CoresWithin(cs, r) && CoresDisjoint(cs)
    requires c !in r && c.Repr !! r
    ensures CoresDisjoint(cs + [c])
  {
    var ds := cs + [c];
    assert forall i :: 0 <= i < |cs| ==> ds[i] == cs[i];
  }

  /** Every object of the first `n` cores: the cores and their footprints. */
  ghost function CoresRepr(cs: seq<Core>, n: nat): (r: set<object>)
    requires n <= |cs|
    ensures forall i :: 0 <= i < n ==> cs[i] in r && cs[i].Repr <= r
  {
    if n == 0 then {} else CoresRepr(cs, n - 1) + {cs[n - 1]} + cs[n - 1].Repr
  }

  /** Every core lies in `repr` together with its footprint. */
  ghost predicate CoresWithin(cs: seq<Core>, repr: set<object>) {
    forall i :: 0 <= i < |cs| ==> cs[i] in repr && cs[i].Repr <= repr
  }

  /** No two cores are the same or share an object. */
  ghost predicate CoresDisjoint(cs: seq<Core>) {
    forall i, j :: 0 <= i < |cs| && 0 <= j < |cs| && i != j ==> cs[i] != cs[j] && cs[i].Repr !! cs[j].Repr
  }

  /** Every core lies in `repr` with its footprint and is valid, and no two share an object. */
  ghost predicate CoresOk(cs: seq<Core>, repr: set<object>)
    reads repr
  {
    && CoresWithin(cs, repr)
    && CoresDisjoint(cs)
    && (forall i :: 0 <= i < |cs| ==> cs[i].Valid())
  }

  /** Both occupancy vectors of every core lie in `repr` and are as freshly built with `size` slots. */
  ghost predicate CoresInitial(cs: seq<Core>, repr: set<object>, size: u64)
    reads repr
  {
    forall i :: 0 <= i < |cs| ==>
      && {cs[i].opt, cs[i].opt.history, cs[i].proj, cs[i].proj.history} <= repr
      && cs[i].Initial(size)
  }

  /** Cores that are valid together are each valid and configured. */
  lemma CoresOkFacts(cs: seq<Core>)
    requires CoresOk(cs, CoresRepr(cs, |cs|))
    ensures forall i :: 0 <= i < |cs| ==> cs[i].Valid() && cs[i].Config()
  {
  }

  // ---------------------------------------------------------------------
  // Statistics carried by requests and responses.

  /** `cache_stats`: (cache level, context) to (miss count, instruction count). */
  type Stats = map<(int, int), (u64, u64)>

  /** One reading merged: only a key already present, and only if neither count goes down. */
  function MergeReading(stats: Stats, key: (int, int), count: u64, inst: u64): Stats {
    if key in stats && stats[key].0 <= count && stats[key].1 <= inst then stats[key := (count, inst)] else stats
  }

  /**
   * The readings of a request merged in order under the request's context:
   * no key is added, no count goes down, other contexts keep their entries,
   * and an entry that changed carries the request's instruction count.
   */
  function Merged(stats: Stats, readings: seq<(int, u64)>, ctx: int, inst: u64): (r: Stats)
    ensures r.Keys == stats.Keys
    ensures forall k :: k in stats ==> stats[k].0 <= r[k].0 && stats[k].1 <= r[k].1
    ensures forall k :: k in stats && k.1 != ctx ==> r[k] == stats[k]
    ensures forall k :: k in stats && r[k] != stats[k] ==> r[k].1 == inst
    decreases |readings|
  {
    if |readings| == 0 then stats
    else
      var last := readings[|readings| - 1];
      MergeReading(Merged(stats, readings[..|readings| - 1], ctx, inst), (last.0, ctx), last.1, inst)
  }

  /** The merge loop of `access`. */
  method MergeStats(stats: Stats, readings: seq<(int, u64)>, ctx: int, inst: u64) returns (r: Stats)
    ensures r == Merged(stats, readings, ctx, inst)
  {
    r := stats;
    var i := 0;
    while i < |readings|
      invariant 0 <= i <= |readings|
      invariant r == Merged(stats, readings[..i], ctx, inst)
    {
      assert readings[..i + 1][..i] == readings[..i];
      var key := (readings[i].0, ctx);
      if key in r {
        if r[key].0 <= readings[i].1 && r[key].1 <= inst {
          r := r[key := (readings[i].1, inst)];
        }
      }
      i := i + 1;
    }
    assert readings[..i] == readings;
  }

  /**
   * This level counting a request of context `key.1`: the access count
   * grows by one and the miss count by one on a miss, both in 64 bits; a
   * missing entry starts at zero; every other entry is kept.
   */
  function Counted(stats: Stats, key: (int, int), hit: bool): (r: Stats)
    ensures r.Keys == stats.Keys + {key}
    ensures forall k :: k in stats && k != key ==> r[k] == stats[k]
  {
    var before := if key in stats then stats[key] else (0, 0);
    stats[key := (if hit then before.0 else Inc64(before.0), Inc64(before.1))]
  }

  /** Counting keeps misses at most accesses, short of the 64-bit wrap-around. */
  lemma CountedKeepsMissesBelow(stats: Stats, key: (int, int), hit: bool)
    requires key in stats ==> stats[key].0 <= stats[key].1 < 0xFFFF_FFFF_FFFF_FFFF
    ensures Counted(stats, key, hit)[key].0 <= Counted(stats, key, hit)[key].1
    ensures key in stats ==> Counted(stats, key, hit)[key].1 as int == stats[key].1 as int + 1
    ensures key !in stats ==> Counted(stats, key, hit)[key] == (if hit then 0 else 1, 1)
    ensures key in stats ==> Counted(stats, key, hit)[key].0 as int == stats[key].0 as int + (if hit then 0 else 1)
  {
  }

  /** The statistics after `access`: the merge of the request's readings, then this level's count. */
  function AccessStats(stats: Stats, pkt: Packet, hit: bool, level: int): Stats {
    var merged := if pkt.isRequest && pkt.hasCacheStats
      then Merged(stats, pkt.cacheStats, pkt.contextId, pkt.instCount) else stats;
    if pkt.isRequest then Counted(merged, (level, pkt.contextId), hit) else merged
  }

  /**
   * `access` adds at most this level's own key, and every other entry of
   * another context is kept.
   */
  lemma AccessStatsFrame(stats: Stats, pkt: Packet, hit: bool, level: int)
    ensures AccessStats(stats, pkt, hit, level).Keys
      == stats.Keys + (if pkt.isRequest then {(level, pkt.contextId)} else {})
    ensures forall k :: k in stats && k.1 != pkt.contextId ==> AccessStats(stats, pkt, hit, level)[k] == stats[k]
    ensures !pkt.isRequest ==> AccessStats(stats, pkt, hit, level) == stats
  {
  }

  /** `dram_stats` and `dram_ready`. */
  datatype DramState = DramState(access: u64, rowHit: u64, ready: bool)

  /** The DRAM update of `access` as written: a reading is taken only if it is at most the stored one. */
  function DramStepAsWritten(st: DramState, pkt: Packet): (r: DramState)
    ensures r.access <= st.access && r.rowHit <= st.rowHit
    ensures r != st ==> r.ready && pkt.isResponse && pkt.hasDramStats
  {
    if pkt.isResponse && pkt.hasDramStats && pkt.dramAccess <= st.access && pkt.dramRowHit <= st.rowHit
    then DramState(pkt.dramAccess, pkt.dramRowHit, true)
    else st
  }

  /**
   * As written, the stored DRAM counters never leave the zeros the
   * constructor writes, and a response reporting 5 accesses and 3 row hits
   * is dropped.
   */
  lemma DramAsWrittenStuck(st: DramState, pkt: Packet)
    requires st.access == 0 && st.rowHit == 0
    ensures DramStepAsWritten(st, pkt).access == 0 && DramStepAsWritten(st, pkt).rowHit == 0
    ensures var p := pkt.(isResponse := true, hasDramStats := true, dramAccess := 5, dramRowHit := 3);
      DramStepAsWritten(DramState(0, 0, false), p) == DramState(0, 0, false)
  {
  }

  /**
   * The DRAM update with the comparison the cache statistics use: a reading
   * is taken when neither counter goes down, so the stored counters never
   * decrease and any such reading is recorded.
   */
  function DramStep(st: DramState, pkt: Packet): (r: DramState)
    ensures st.access <= r.access && st.rowHit <= r.rowHit
    ensures st.ready ==> r.ready
    ensures pkt.isResponse && pkt.hasDramStats && st.access <= pkt.dramAccess && st.rowHit <= pkt.dramRowHit
      ==> r == DramState(pkt.dramAccess, pkt.dramRowHit, true)
    ensures !(pkt.isResponse && pkt.hasDramStats) ==> r == st
  {
    if pkt.isResponse && pkt.hasDramStats && st.access <= pkt.dramAccess && st.rowHit <= pkt.dramRowHit
    then DramState(pkt.dramAccess, pkt.dramRowHit, true)
    else st
  }

  /** The response of 5 accesses and 3 row hits the code as written drops is recorded. */
  lemma DramStepRecords(pkt: Packet)
    requires pkt.isResponse && pkt.hasDramStats && pkt.dramAccess == 5 && pkt.dramRowHit == 3
    ensures DramStep(DramState(0, 0, false), pkt) == DramState(5, 3, true)
    ensures DramStepAsWritten(DramState(0, 0, false), pkt) == DramState(0, 0, false)
  {
  }

  // ---------------------------------------------------------------------
  // Ratio counters.

  /** `RatioCounter`: accesses since the core's lines last aged, and the period. */
  datatype RatioCounter = RatioCounter(counter: int, ratioMax: int)

  /** `n` ratio counters as the constructor sets them up, each counter and maximum at 0. */
  function ZeroRatios(n: nat): (r: seq<RatioCounter>)
    ensures |r| == n && forall i :: 0 <= i < n ==> r[i] == RatioCounter(0, 0)
  {
    seq(n, i => RatioCounter(0, 0))
  }

  /** `n` partitions as the constructor sets them up, each at 0. */
  function ZeroPartitions(n: nat): (r: seq<int>)
    ensures |r| == n && forall i :: 0 <= i < n ==> r[i] == 0
  {
    seq(n, i => 0)
  }

  /** The core's lines age on this access. */
  predicate Due(r: RatioCounter) {
    r.counter >= r.ratioMax
  }

  /** One access: a due counter restarts at 0, any other counts one more. */
  function RatioStep(r: RatioCounter): (n: RatioCounter)
    ensures n.ratioMax == r.ratioMax
    ensures n.counter == 0 || n.counter == r.counter + 1
  {
    if Due(r) then RatioCounter(0, r.ratioMax) else RatioCounter(r.counter + 1, r.ratioMax)
  }

  /** A counter that starts at or above zero stays in `[0, max(ratio_max, 0)]`. */
  lemma RatioStepBounded(r: RatioCounter)
    requires r.counter >= 0
    ensures 0 <= RatioStep(r).counter <= Max(r.ratioMax, 0)
    ensures RatioStep(r).ratioMax == r.ratioMax
  {
  }

  /** `n` accesses applied to a counter. */
  function RatioAfter(r: RatioCounter, n: nat): RatioCounter {
    if n == 0 then r else RatioStep(RatioAfter(r, n - 1))
  }

  /**
   * From 0, with `ratio_max` m >= 0, the counter after `t` full rounds of
   * `m + 1` accesses and `j <= m` more is `j`, and it is due exactly when
   * `j == m`: the core's lines age once every `m + 1` accesses.
   */
  lemma {:induction false} RatioCycle(m: nat, t: nat, j: nat)
    requires j <= m
    ensures RatioAfter(RatioCounter(0, m), t * (m + 1) + j) == RatioCounter(j, m)
    ensures Due(RatioAfter(RatioCounter(0, m), t * (m + 1) + j)) <==> j == m
    decreases t, j
  {
    if j > 0 {
      RatioCycle(m, t, j - 1);
    } else if t > 0 {
      RatioCycle(m, t - 1, m);
      assert t * (m + 1) == (t - 1) * (m + 1) + m + 1;
    }
  }

  /** The ratio counters after one `access`. */
  function RatioSteps(rs: seq<RatioCounter>): (r: seq<RatioCounter>)
    ensures |r| == |rs|
  {
    seq(|rs|, i requires 0 <= i < |rs| => RatioStep(rs[i]))
  }

  /**
   * The RRPV of a line after the ratio loop of `access`: a valid line below
   * 6 whose context's counter is due gains one, saturating.
   */
  function RatioAged(rrpv: int, valid: bool, ctx: int, rs: seq<RatioCounter>, bits: nat): (a: int)
    ensures a == rrpv || (a == rrpv + 1 && a <= 6 && a <= SatMax(bits))
    ensures a != rrpv ==> valid && 0 <= ctx < |rs| && Due(rs[ctx])
  {
    if valid && 0 <= ctx < |rs| && Due(rs[ctx]) && rrpv < 6 then SatInc(rrpv, bits) else rrpv
  }

  /** Ratio aging keeps the line invariant, and moves a line by at most one. */
  lemma RatioAgedKeepsBound(rrpv: int, valid: bool, friendly: bool, ctx: int, rs: seq<RatioCounter>, bits: nat)
    requires 0 <= rrpv <= SatMax(bits) && (friendly ==> rrpv <= 6)
    ensures var a := RatioAged(rrpv, valid, ctx, rs, bits);
      0 <= a <= SatMax(bits) && (friendly ==> a <= 6) && rrpv <= a <= rrpv + 1
    ensures !valid || ctx < 0 || ctx >= |rs| ==> RatioAged(rrpv, valid, ctx, rs, bits) == rrpv
  {
  }

  /**
   * The inner loop of `access` for core `owner`: every valid candidate of
   * that context below 6 gains one; nothing else changes.
   */
  method AgeOwned(cands: seq<ReplData>, owner: int)
    requires forall i, j :: 0 <= i < j < |cands| ==> cands[i] != cands[j]
    requires forall i :: 0 <= i < |cands| ==> cands[i].Valid()
    modifies cands
    ensures forall i :: 0 <= i < |cands| ==> cands[i].Valid()
    ensures forall i :: 0 <= i < |cands| ==>
      && cands[i].valid == old(cands[i].valid)
      && cands[i].friendly == old(cands[i].friendly)
      && cands[i].contextId == old(cands[i].contextId)
      && cands[i].rrpv == (if old(cands[i].valid) && old(cands[i].contextId) == owner && old(cands[i].rrpv) < 6
                           then SatInc(old(cands[i].rrpv), cands[i].rrpvBits) else old(cands[i].rrpv))
  {
    var i := 0;
    while i < |cands|
      invariant 0 <= i <= |cands|
      invariant forall j :: 0 <= j < |cands| ==>
        && cands[j].valid == old(cands[j].valid)
        && cands[j].friendly == old(cands[j].friendly)
        && cands[j].contextId == old(cands[j].contextId)
        && cands[j].Valid()
      invariant forall j :: 0 <= j < i ==>
        cands[j].rrpv == (if old(cands[j].valid) && old(cands[j].contextId) == owner && old(cands[j].rrpv) < 6
                          then SatInc(old(cands[j].rrpv), cands[j].rrpvBits) else old(cands[j].rrpv))
      invariant forall j :: i <= j < |cands| ==> cands[j].rrpv == old(cands[j].rrpv)
    {
      var c := cands[i];
      if c.valid && c.contextId == owner && c.rrpv < 6 {
        c.rrpv := SatInc(c.rrpv, c.rrpvBits);
      }
      i := i + 1;
    }
  }

  // ---------------------------------------------------------------------
  // Aging ratios from the per-core access counts.

  /** The smallest nonzero count, if any. */
  function MinNonzero(counts: seq<u64>): (r: Option<u64>)
    ensures r.Some? ==> r.value != 0 && exists i :: 0 <= i < |counts| && counts[i] == r.value
    ensures r.Some? ==> forall i :: 0 <= i < |counts| && counts[i] != 0 ==> r.value <= counts[i]
    ensures r.None? ==> forall i :: 0 <= i < |counts| ==> counts[i] == 0
  {
    if |counts| == 0 then None
    else
      var m := MinNonzero(counts[..|counts| - 1]);
      var c := counts[|counts| - 1];
      if c != 0 && (m.None? || c < m.value) then Some(c) else m
  }

  /** One more count: `MinNonzero` keeps the earlier minimum unless the new count is a smaller nonzero one. */
  lemma MinNonzeroPrefix(counts: seq<u64>, i: nat)
    requires i < |counts|
    ensures var m := MinNonzero(counts[..i]);
      MinNonzero(counts[..i + 1]) == if counts[i] != 0 && (m.None? || counts[i] < m.value) then Some(counts[i]) else m
  {
    assert counts[..i + 1][..i] == counts[..i];
  }

  /**
   * The count `setAgingCounter` divides by, as written: the loop keeps a
   * count greater than the best so far, starting from 0, so it ends with
   * the largest count.
   */
  function ChosenAsWritten(counts: seq<u64>): (r: u64)
    ensures forall i :: 0 <= i < |counts| ==> counts[i] <= r
    ensures r != 0 ==> exists i :: 0 <= i < |counts| && counts[i] == r
  {
    if |counts| == 0 then 0
    else
      var m := ChosenAsWritten(counts[..|counts| - 1]);
      var c := counts[|counts| - 1];
      if c != 0 && c > m then c else m
  }

  /**
   * `count / chosen - 1` on gem5's `Counter` (`int64_t`), stored into the
   * `int` `ratio_max`: the 64-bit difference, cut to its low 32 bits.
   */
  function RatioMaxFor(count: u64, chosen: u64): int
    requires chosen != 0
  {
    ToInt32(Sub64(count / chosen, 1))
  }

  /** The ratios for a chosen divisor: every core with a nonzero count gets `count / chosen - 1`. */
  function WithRatios(rs: seq<RatioCounter>, counts: seq<u64>, chosen: u64): (r: seq<RatioCounter>)
    requires |counts| == |rs| && chosen != 0
    ensures |r| == |rs|
  {
    seq(|rs|, i requires 0 <= i < |rs| =>
      if counts[i] != 0 then RatioCounter(rs[i].counter, RatioMaxFor(counts[i], chosen)) else rs[i])
  }

  /** `setAgingCounter` as written: it divides by the largest count. */
  function AgingRatiosAsWritten(rs: seq<RatioCounter>, counts: seq<u64>): (r: seq<RatioCounter>)
    requires |counts| == |rs|
    ensures |r| == |rs|
    ensures forall i :: 0 <= i < |rs| ==> r[i].counter == rs[i].counter
    ensures forall i :: 0 <= i < |rs| && counts[i] == 0 ==> r[i] == rs[i]
  {
    var chosen := ChosenAsWritten(counts);
    if chosen == 0 then rs else WithRatios(rs, counts, chosen)
  }

  /**
   * With access counts 1 and 2, the code as written gives core 0 a
   * `ratio_max` of -1, which the `gem5_assert` after it rejects.
   */
  lemma AgingAsWrittenNegative()
    ensures AgingRatiosAsWritten([RatioCounter(0, 0), RatioCounter(0, 0)], [1, 2])[0].ratioMax == -1
  {
    var counts: seq<u64> := [1, 2];
    assert counts[..1] == [1];
    assert counts[..1][..0] == [];
    assert ChosenAsWritten(counts) == 2;
  }

  /** `setAgingCounter` dividing by the smallest nonzero count, so every quotient is at least 1. */
  function AgingRatios(rs: seq<RatioCounter>, counts: seq<u64>): (r: seq<RatioCounter>)
    requires |counts| == |rs|
    ensures |r| == |rs|
  {
    match MinNonzero(counts)
    case None => rs
    case Some(m) => WithRatios(rs, counts, m)
  }

  /** `1 <= m <= c` makes `1 <= c / m <= c`. */
  lemma DivBounds(c: int, m: int)
    requires 1 <= m <= c
    ensures 1 <= c / m <= c
  {
    var q, r := c / m, c % m;
    assert c == q * m + r && 0 <= r < m;
    assert q * m > 0;
    assert q * m - q == q * (m - 1);
  }

  /** A product with a positive factor that is positive has a positive other factor. */
  lemma PositiveFactor(a: int, k: int)
    requires k > 0 && a * k > 0
    ensures a > 0
  {
  }

  /** Division by a positive number keeps the order. */
  lemma DivMonotone(x: int, y: int, k: int)
    requires k >= 1 && 0 <= x <= y
    ensures x / k <= y / k
  {
    var qx, qy := x / k, y / k;
    assert qx * k <= x;
    assert y < qy * k + k;
    assert (qy + 1 - qx) * k == qy * k + k - qx * k;
    PositiveFactor(qy + 1 - qx, k);
  }

  /** With counts up to 2^31 the stored ratio is the exact `count / min - 1`. */
  lemma RatioMaxForExact(c: u64, m: u64)
    requires 1 <= m <= c && c as int <= 0x8000_0000
    ensures RatioMaxFor(c, m) == (c as int) / (m as int) - 1
    ensures 0 <= RatioMaxFor(c, m)
  {
    DivBounds(c as int, m as int);
  }

  /**
   * With counts up to 2^31 every core with accesses gets a `ratio_max` of at
   * least 0, the least accessed one exactly 0 (its lines age on every access),
   * a core with more accesses never gets a smaller one, and the counters and
   * the cores without accesses are kept.
   */
  lemma AgingRatiosSound(rs: seq<RatioCounter>, counts: seq<u64>)
    requires |counts| == |rs|
    requires forall i :: 0 <= i < |counts| ==> counts[i] as int <= 0x8000_0000
    ensures var r := AgingRatios(rs, counts);
      && (forall i :: 0 <= i < |rs| ==> r[i].counter == rs[i].counter)
      && (forall i :: 0 <= i < |rs| && counts[i] == 0 ==> r[i] == rs[i])
      && (forall i :: 0 <= i < |rs| && counts[i] != 0 ==> r[i].ratioMax >= 0)
      && (forall i :: 0 <= i < |rs| && MinNonzero(counts) == Some(counts[i]) ==> r[i].ratioMax == 0)
      && (forall i, j :: 0 <= i < |rs| && 0 <= j < |rs| && counts[i] != 0 && counts[i] <= counts[j] ==>
            r[i].ratioMax <= r[j].ratioMax)
  {
    match MinNonzero(counts)
    case None =>
    case Some(m) =>
      var r := AgingRatios(rs, counts);
      forall i | 0 <= i < |rs| && counts[i] != 0
        ensures r[i].ratioMax == (counts[i] as int) / (m as int) - 1 >= 0
      {
        RatioMaxForExact(counts[i], m);
      }
      forall i | 0 <= i < |rs| && counts[i] == m
        ensures r[i].ratioMax == 0
      {
        assert (m as int) / (m as int) == 1;
      }
      forall i, j | 0 <= i < |rs| && 0 <= j < |rs| && counts[i] != 0 && counts[i] <= counts[j]
        ensures r[i].ratioMax <= r[j].ratioMax
      {
        DivMonotone(counts[i] as int, counts[j] as int, m as int);
      }
  }

  /** The access count of each core at this level. */
  function AccessCounts(stats: Stats, level: int, n: nat): (r: seq<u64>)
    requires forall i :: 0 <= i < n ==> (level, i) in stats
    ensures |r| == n
  {
    seq(n, i requires 0 <= i < n => stats[(level, i)].1)
  }

  // ---------------------------------------------------------------------
  // The policy.

  /** The RRPV Flock's `reset` gives a filled line as written: saturated when friendly, 0 when averse. */
  function FillRrpvAsWritten(friendly: bool, bits: nat): (r: nat)
    ensures r == RrpvFor(!friendly, bits)
  {
    if friendly then SatMax(bits) else 0
  }

  /**
   * With three or more RRPV bits a friendly line filled as written holds at
   * least 7, above the 6 the `panic_if` of `getVictim` allows a friendly
   * line, while `RrpvFor`, which `touch` uses, keeps it at 0.
   */
  lemma FillAsWrittenBreaksLineInvariant(bits: nat)
    requires 3 <= bits <= 8
    ensures FillRrpvAsWritten(true, bits) > 6
    ensures RrpvFor(true, bits) == 0
  {
    SatMaxThreeBits(bits);
  }

  /** The set of empty entries of `cache_stats` the constructor writes, one per core. */
  ghost predicate InitialStats(stats: Stats, level: int, n: nat) {
    && stats.Keys == (set i | 0 <= i < n :: (level, i))
    && forall k :: k in stats ==> stats[k] == (0, 0)
  }

  /** The constructor's loop over the cores filling `cache_stats`. */
  method NewStats(level: int, n: nat) returns (stats: Stats)
    ensures InitialStats(stats, level, n)
    ensures forall i :: 0 <= i < n ==> (level, i) in stats
  {
    stats := map[];
    var i := 0;
    while i < n
      invariant 0 <= i <= n
      invariant InitialStats(stats, level, i)
    {
      stats := stats[(level, i) := (0, 0)];
      i := i + 1;
    }
  }

  /**
   * `FlockHawkeye`: per-core training structures, per-core ratio counters,
   * the partition budget, and the statistics gathered from packets.
   */
  class FlockHawkeye {
    const cores: seq<Core>
    const numRrpvBits: nat
    const log2BlockSize: nat
    const log2NumCacheSets: nat
    const numCpus: nat
    const numCacheWays: u64
    const cacheLevel: int
    /** The `log2_num_pred_entries` argument `sample` declares and the policy does not pass. */
    const log2NumPredEntries: nat
    var ratio: seq<RatioCounter>
    var currPartition: seq<int>
    var cacheStats: Stats
    /** `dram_stats[0]`, `dram_stats[1]` and `dram_ready`. */
    var dramAccess: u64
    var dramRowHit: u64
    var dramReady: bool
    /** The cores and every object they own. */
    ghost const Repr: set<object>

    /** What the constructor establishes about the constants. */
    ghost predicate Config() {
      && 1 <= numRrpvBits <= 8 && log2BlockSize < 64
      && 1 <= log2NumPredEntries < 0x8000_0000
    }

    ghost predicate Valid()
      reads this, Repr
    {
      && Config()
      && |cores| == numCpus && |ratio| == numCpus
      && (forall i :: 0 <= i < numCpus ==> (cacheLevel, i) in cacheStats)
      && this !in Repr
      && (forall i :: 0 <= i < |cores| ==> cores[i].Config())
      && CoresOk(cores, Repr)
    }

    function Dram(): DramState
      reads this
    {
      DramState(dramAccess, dramRowHit, dramReady)
    }

    /**
     * The policy as configured: one fresh core per CPU, every ratio counter
     * and partition at 0, an empty entry of this level's statistics per
     * core, and the DRAM counters at 0 and not ready.
     */
    constructor(numRrpvBits: nat, numCacheSets: nat, cacheBlockSize: nat, numCpus: nat,
                numCacheWays: u64, cacheLevel: int, optgenVectorSize: u64, numPredEntries: nat,
                numPredBits: nat, numSampledSets: nat, timerSize: nat, log2NumPredEntries: nat)
      requires 1 <= numRrpvBits <= 8
      requires numSampledSets >= 1 && numCacheSets >= 1 && Log2(numCacheSets) >= 6
      requires cacheBlockSize >= 1 && Log2(cacheBlockSize) + Log2(numSampledSets) < 64
      requires 1 <= timerSize < 0x8000_0000
      requires numPredEntries >= 1 && 1 <= numPredBits <= 31
      requires optgenVectorSize >= 1
      requires 1 <= log2NumPredEntries < 0x8000_0000
      ensures Valid() && fresh(Repr)
      ensures ratio == ZeroRatios(numCpus) && currPartition == ZeroPartitions(numCpus)
      ensures InitialStats(cacheStats, cacheLevel, numCpus)
      ensures Dram() == DramState(0, 0, false)
      ensures CoresInitial(cores, Repr, optgenVectorSize)
    {
      this.numRrpvBits := numRrpvBits;
      log2BlockSize := Log2(cacheBlockSize);
      log2NumCacheSets := Log2(numCacheSets);
      this.numCpus := numCpus;
      this.numCacheWays := numCacheWays;
      this.cacheLevel := cacheLevel;
      this.log2NumPredEntries := log2NumPredEntries;
      ratio := ZeroRatios(numCpus);
      currPartition := ZeroPartitions(numCpus);
      var stats := NewStats(cacheLevel, numCpus);
      cacheStats := stats;
      dramAccess, dramRowHit, dramReady := 0, 0, false;
      var cs := NewCores(numCpus, numSampledSets, numCacheSets, cacheBlockSize, timerSize,
                         numPredEntries, numPredBits, numCacheWays, optgenVectorSize);
      CoresOkFacts(cs);
      cores := cs;
      Repr := CoresRepr(cs, |cs|);
      CoresReprAllocated(cs, |cs|);
      label Built:
      new;
      assert this !in Repr by {
        assert !old@Built(allocated(this));
      }
    }

    /** The cache set of an address, which the sampler of the core is given. */
    function SetOf(addr: bv64): nat
      requires Config()
    {
      CacheSetOf(addr, log2BlockSize, log2NumCacheSets)
    }

    /** The training of core `c` on one access; the other cores keep their state. */
    method TrainCore(c: nat, addr: bv64, pc: bv64) returns (o: SampleOutcome)
      requires Valid() && c < numCpus
      modifies cores[c].Repr
      ensures Valid()
      ensures cores[c].TrainedAt(old(cores[c].State()), cores[c].State(), addr, pc, SetOf(addr), log2NumPredEntries, o)
    {
      o := cores[c].Train(addr, pc, SetOf(addr), log2NumPredEntries);
      OthersStayValid(c);
    }

    /** A change outside the policy's footprint leaves it valid and core `c` as it was. */
    twostate lemma LineOnly(c: nat)
      requires old(Valid()) && c < |cores| && unchanged(this) && unchanged(Repr)
      ensures Valid() && cores[c].State() == old(cores[c].State())
    {
    }

    /** A change confined to core `c` that leaves it valid leaves the policy valid. */
    twostate lemma OthersStayValid(c: nat)
      requires old(Valid()) && c < |cores| && cores[c].Valid()
      requires unchanged(this) && unchanged(Repr - cores[c].Repr)
      ensures Valid()
    {
      forall i | 0 <= i < |cores| && i != c
        ensures cores[i].Valid()
      {
        assert cores[i].Repr !! cores[c].Repr;
      }
    }

    /**
     * `touch`: on a request with a PC and a context, a friendly line gets
     * RRPV 0 and an averse one the saturated maximum, the line records the
     * context, and the access trains that context's core. Any other packet
     * changes nothing.
     */
    method Touch(d: ReplData, pkt: Packet) returns (ghost o: SampleOutcome)
      requires Valid() && d.Valid() && d !in Repr
      requires HitGuard(pkt) ==> 0 <= pkt.contextId < numCpus
      modifies d, if HitGuard(pkt) then cores[pkt.contextId].Repr else {}
      ensures Valid() && d.Valid()
      ensures !HitGuard(pkt) ==> unchanged(d)
      ensures d.friendly == old(d.friendly) && d.valid == old(d.valid)
      ensures HitGuard(pkt) ==> d.rrpv == RrpvFor(d.friendly, d.rrpvBits) && d.contextId == pkt.contextId
      ensures HitGuard(pkt) ==>
        cores[pkt.contextId].TrainedAt(old(cores[pkt.contextId].State()), cores[pkt.contextId].State(),
                                       pkt.addr, pkt.pc, SetOf(pkt.addr), log2NumPredEntries, o)
    {
      o := SampleOutcome(false, 0, 0, 0, false);
      if !HitGuard(pkt) {
        return;
      }
      var core := cores[pkt.contextId];
      label before:
      d.Mark(pkt.contextId);
      LineOnly@before(pkt.contextId);
      o := TrainCore(pkt.contextId, pkt.addr, pkt.pc);
    }

    /**
     * Flock's `reset` with the RRPV `touch` and Hawkeye use: on a request
     * with a PC and a context, the filled line takes the verdict of that
     * context's predictor (read before training), RRPV 0 when friendly and
     * the saturated maximum when averse, becomes valid and records the
     * context; then the access trains the core. Any other packet changes
     * nothing.
     */
    method Reset(d: ReplData, pkt: Packet) returns (ghost o: SampleOutcome)
      requires Valid() && d.Valid() && d !in Repr
      requires HitGuard(pkt) ==> 0 <= pkt.contextId < numCpus
      modifies d, if HitGuard(pkt) then cores[pkt.contextId].Repr else {}
      ensures Valid() && d.Valid()
      ensures !HitGuard(pkt) ==> unchanged(d)
      ensures HitGuard(pkt) ==>
        var p := cores[pkt.contextId].predictor;
        d.friendly == TopBit(old(p.counters[Mod(Crc(pkt.pc), p.numEntries)]), p.bitsPerEntry)
      ensures HitGuard(pkt) ==> d.rrpv == RrpvFor(d.friendly, d.rrpvBits) && d.valid && d.contextId == pkt.contextId
      ensures HitGuard(pkt) ==>
        cores[pkt.contextId].TrainedAt(old(cores[pkt.contextId].State()), cores[pkt.contextId].State(),
                                       pkt.addr, pkt.pc, SetOf(pkt.addr), log2NumPredEntries, o)
    {
      o := SampleOutcome(false, 0, 0, 0, false);
      if HitGuard(pkt) {
        o := FillAndTrain(d, pkt);
      }
    }

    /** The body of `reset` once its guard holds: fill the line from core `c`'s verdict, then train core `c`. */
    method FillAndTrain(d: ReplData, pkt: Packet) returns (ghost o: SampleOutcome)
      requires Valid() && d.Valid() && d !in Repr && 0 <= pkt.contextId < numCpus
      modifies d, cores[pkt.contextId].Repr
      ensures Valid() && d.Valid()
      ensures var p := cores[pkt.contextId].predictor;
              d.friendly == TopBit(old(p.counters[Mod(Crc(pkt.pc), p.numEntries)]), p.bitsPerEntry)
      ensures d.rrpv == RrpvFor(d.friendly, d.rrpvBits) && d.valid && d.contextId == pkt.contextId
      ensures cores[pkt.contextId].TrainedAt(old(cores[pkt.contextId].State()), cores[pkt.contextId].State(),
                                             pkt.addr, pkt.pc, SetOf(pkt.addr), log2NumPredEntries, o)
    {
      ghost var p := cores[pkt.contextId].predictor;
      ghost var verdict := TopBit(p.counters[Mod(Crc(pkt.pc), p.numEntries)], p.bitsPerEntry);
      FillLine(d, pkt);
      assert d.friendly == verdict;
      LineOnly(pkt.contextId);
      o := TrainCore(pkt.contextId, pkt.addr, pkt.pc);
    }

    /** The line half of `reset`: core `c`'s verdict for the PC, its RRPV, the valid bit and the context. */
    method FillLine(d: ReplData, pkt: Packet)
      requires Valid() && d.Valid() && d !in Repr && 0 <= pkt.contextId < numCpus
      modifies d
      ensures d.Valid()
      ensures var p := cores[pkt.contextId].predictor;
              d.friendly == TopBit(p.counters[Mod(Crc(pkt.pc), p.numEntries)], p.bitsPerEntry)
      ensures d.rrpv == RrpvFor(d.friendly, d.rrpvBits) && d.valid && d.contextId == pkt.contextId
    {
      var isFriendly := cores[pkt.contextId].predictor.Predict(pkt.pc);
      d.Fill(isFriendly, pkt.contextId);
    }

    /**
     * The ratio loop of `access`: each core's counter takes its `RatioStep`,
     * and the candidates of every due core age as `RatioAged` states.
     */
    method TickRatios(cands: seq<ReplData>)
      requires |ratio| == numCpus
      requires forall i, j :: 0 <= i < j < |cands| ==> cands[i] != cands[j]
      requires forall i :: 0 <= i < |cands| ==> cands[i].Valid()
      modifies this`ratio, cands
      ensures ratio == RatioSteps(old(ratio))
      ensures forall i :: 0 <= i < |cands| ==> cands[i].Valid()
      ensures forall i :: 0 <= i < |cands| ==>
        && cands[i].valid == old(cands[i].valid)
        && cands[i].friendly == old(cands[i].friendly)
        && cands[i].contextId == old(cands[i].contextId)
        && cands[i].rrpv == RatioAged(old(cands[i].rrpv), old(cands[i].valid), old(cands[i].contextId),
                                      old(ratio), cands[i].rrpvBits)
    {
      ghost var r0 := ratio;
      var i := 0;
      while i < numCpus
        invariant 0 <= i <= numCpus && |ratio| == numCpus
        invariant forall j :: 0 <= j < i ==> ratio[j] == RatioStep(r0[j])
        invariant forall j :: i <= j < numCpus ==> ratio[j] == r0[j]
        invariant forall j :: 0 <= j < |cands| ==>
          && cands[j].valid == old(cands[j].valid)
          && cands[j].friendly == old(cands[j].friendly)
          && cands[j].contextId == old(cands[j].contextId)
          && cands[j].Valid()
        invariant forall j :: 0 <= j < |cands| ==>
          cands[j].rrpv == if cands[j].contextId < i
            then RatioAged(old(cands[j].rrpv), cands[j].valid, cands[j].contextId, r0, cands[j].rrpvBits)
            else old(cands[j].rrpv)
      {
        if ratio[i].counter >= ratio[i].ratioMax {
          AgeOwned(cands, i);
          ratio := ratio[i := RatioCounter(0, ratio[i].ratioMax)];
        } else {
          ratio := ratio[i := RatioCounter(ratio[i].counter + 1, ratio[i].ratioMax)];
        }
        i := i + 1;
      }
    }

    /**
     * `access`: the request's statistics are merged and this level counts
     * the request, a response's DRAM statistics are taken when neither
     * counter goes down, and every core's ratio counter advances, aging the
     * candidates of the cores that are due. The cores are not touched.
     */
    method Access(pkt: Packet, hit: bool, cands: seq<ReplData>)
      requires Valid()
      requires forall i, j :: 0 <= i < j < |cands| ==> cands[i] != cands[j]
      requires forall i :: 0 <= i < |cands| ==> cands[i].Valid() && cands[i] !in Repr
      modifies this, cands
      ensures Valid()
      ensures cacheStats == AccessStats(old(cacheStats), pkt, hit, cacheLevel)
      ensures Dram() == DramStep(old(Dram()), pkt)
      ensures ratio == RatioSteps(old(ratio)) && currPartition == old(currPartition)
      ensures forall i :: 0 <= i < |cands| ==> cands[i].Valid()
      ensures forall i :: 0 <= i < |cands| ==>
        && cands[i].valid == old(cands[i].valid)
        && cands[i].friendly == old(cands[i].friendly)
        && cands[i].contextId == old(cands[i].contextId)
        && cands[i].rrpv == RatioAged(old(cands[i].rrpv), old(cands[i].valid), old(cands[i].contextId),
                                      old(ratio), cands[i].rrpvBits)
    {
      var stats := cacheStats;
      if pkt.isRequest && pkt.hasCacheStats {
        stats := MergeStats(stats, pkt.cacheStats, pkt.contextId, pkt.instCount);
      }
      if pkt.isResponse && pkt.hasDramStats {
        if dramAccess <= pkt.dramAccess && dramRowHit <= pkt.dramRowHit {
          dramAccess, dramRowHit, dramReady := pkt.dramAccess, pkt.dramRowHit, true;
        }
      }
      if pkt.isRequest {
        stats := Counted(stats, (cacheLevel, pkt.contextId), hit);
      }
      assert stats == AccessStats(old(cacheStats), pkt, hit, cacheLevel);
      AccessStatsFrame(old(cacheStats), pkt, hit, cacheLevel);
      cacheStats := stats;
      TickRatios(cands);
      FieldsStayValid();
    }

    /** A change to the fields of the policy alone that keeps their shape leaves it valid. */
    twostate lemma FieldsStayValid()
      requires old(Valid()) && unchanged(Repr)
      requires |ratio| == numCpus && forall i :: 0 <= i < numCpus ==> (cacheLevel, i) in cacheStats
      ensures Valid()
    {
    }

    /**
     * `setAgingCounter` dividing by the smallest nonzero access count: each
     * core with accesses gets `count / min - 1` as its `ratio_max`.
     */
    method SetAgingCounter()
      requires Valid()
      modifies this`ratio
      ensures Valid()
      ensures ratio == AgingRatios(old(ratio), AccessCounts(cacheStats, cacheLevel, numCpus))
    {
      ghost var counts := AccessCounts(cacheStats, cacheLevel, numCpus);
      var minIdx := -1;
      var minAccess: u64 := 0;
      var i := 0;
      while i < numCpus
        invariant 0 <= i <= numCpus && ratio == old(ratio)
        invariant (minIdx == -1) == MinNonzero(counts[..i]).None?
        invariant minIdx != -1 ==> minAccess == MinNonzero(counts[..i]).value
      {
        MinNonzeroPrefix(counts, i);
        var c := cacheStats[(cacheLevel, i)].1;
        if c != 0 && (minIdx == -1 || c < minAccess) {
          minIdx := i;
          minAccess := c;
        }
        i := i + 1;
      }
      assert counts[..i] == counts;
      if minIdx != -1 {
        ghost var r0 := ratio;
        i := 0;
        while i < numCpus
          invariant 0 <= i <= numCpus && |ratio| == numCpus
          invariant forall j :: 0 <= j < i ==> ratio[j] == WithRatios(r0, counts, minAccess)[j]
          invariant forall j :: i <= j < numCpus ==> ratio[j] == r0[j]
        {
          var c := cacheStats[(cacheLevel, i)].1;
          if c != 0 {
            ratio := ratio[i := RatioCounter(ratio[i].counter, RatioMaxFor(c, minAccess))];
          }
          i := i + 1;
        }
      }
      FieldsStayValid();
    }
  }
}
