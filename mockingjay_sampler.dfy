// The Mockingjay sampled cache (src/mem/cache/tags/mockingjay_sampler.hh):
// a sampler entry packs a 10-bit address tag in bits 19..28, an 11-bit
// hashed PC in bits 8..18 and an 8-bit timestamp in bits 0..7; a sampler
// set has five ways under the shared LRU discipline.
module MockingjaySampler {
  import opened Engine
  import opened SamplerLru

  const NumWaysSampler: nat := 5
  /** The loop bound `access` is written with. */
  const AccessLoopBoundAsWritten: nat := 128

  /** The fields of a `SampledCachePacket` the set operations read. */
  datatype Packet = Packet(addrTag: bv16, hashedPC: bv16, timestamp: bv8)

  /** `entry_gen`: each field masked to its width and shifted into place. */
  function EntryGen(p: Packet): bv64 {
    (((p.addrTag & 0x3FF) as bv64) << 19) | (((p.hashedPC & 0x7FF) as bv64) << 8) | (p.timestamp as bv64)
  }

  function GetAddress(w: bv64): bv16 {
    ((w >> 19) & 0x3FF) as bv16
  }

  function GetPC(w: bv64): bv16 {
    ((w >> 8) & 0x7FF) as bv16
  }

  function GetTimestamp(w: bv64): bv8 {
    (w & 0xFF) as bv8
  }

  /** The getters recover exactly the masked fields `entry_gen` packed. */
  lemma EntryGenRoundTrip(p: Packet)
    ensures GetAddress(EntryGen(p)) == p.addrTag & 0x3FF
    ensures GetPC(EntryGen(p)) == p.hashedPC & 0x7FF
    ensures GetTimestamp(EntryGen(p)) == p.timestamp
  {
  }

  /** `setTimestamp`: bits 0..7 replaced, every other bit kept. */
  function SetTimestamp(w: bv64, ts: bv8): bv64 {
    ((w >> 8) << 8) | ((ts & 0xFF) as bv64)
  }

  lemma SetTimestampFields(w: bv64, ts: bv8)
    ensures GetTimestamp(SetTimestamp(w, ts)) == ts
    ensures SetTimestamp(w, ts) >> 8 == w >> 8
  {
  }

  /**
   * `setPC` as written: the low part it keeps is `entry_tag & ENTRY_PC_MASK`
   * (eleven bits), so bits 8..10 of the old PC survive into the new one.
   */
  function SetPCAsWritten(w: bv64, pc: bv16): (r: bv64)
    ensures r >> 19 == w >> 19
    ensures GetTimestamp(r) == GetTimestamp(w)
  {
    var r := ((w >> 19) << 19) | (((pc & 0x7FF) as bv64) << 8) | (w & 0x7FF);
    SetPCAsWrittenFrame(w, pc, r);
    r
  }

  /** The word `setPC` builds as written keeps the bits from 19 up and the timestamp byte. */
  lemma SetPCAsWrittenFrame(w: bv64, pc: bv16, r: bv64)
    requires r == ((w >> 19) << 19) | (((pc & 0x7FF) as bv64) << 8) | (w & 0x7FF)
    ensures r >> 19 == w >> 19 && GetTimestamp(r) == GetTimestamp(w)
  {
  }

  /** As written, the new PC field is the new PC OR-ed with the old PC's low three bits. */
  lemma SetPCAsWrittenMixes(w: bv64, pc: bv16)
    ensures GetPC(SetPCAsWritten(w, pc)) == (pc & 0x7FF) | (GetPC(w) & 7)
  {
  }

  /** An entry whose PC is 1, given PC 0, reads back 1. */
  lemma SetPCAsWrittenCounterexample()
    ensures GetPC(SetPCAsWritten(0x100, 0)) == 1
  {
  }

  /** `setPC` as intended: keep the bits above the PC field and the timestamp byte. */
  function SetPC(w: bv64, pc: bv16): bv64 {
    ((w >> 19) << 19) | (((pc & 0x7FF) as bv64) << 8) | (w & 0xFF)
  }

  lemma SetPCWritesPC(w: bv64, pc: bv16)
    ensures GetPC(SetPC(w, pc)) == pc & 0x7FF
  {
  }

  lemma SetPCKeepsRest(w: bv64, pc: bv16)
    ensures SetPC(w, pc) >> 19 == w >> 19
    ensures GetTimestamp(SetPC(w, pc)) == GetTimestamp(w)
  {
  }

  // ---------------------------------------------------------------------
  // One five-way sampler set, as a value.

  /** The highest-indexed way below `upTo` that is invalid. */
  function LastInvalid(ws: seq<Line>, upTo: nat): (r: Option<nat>)
    requires upTo <= |ws|
    ensures r.Some? ==> r.value < upTo && !ws[r.value].valid
    ensures r.Some? ==> forall j :: r.value < j < upTo ==> ws[j].valid
    ensures r.None? ==> forall j :: 0 <= j < upTo ==> ws[j].valid
  {
    if upTo == 0 then None
    else if !ws[upTo - 1].valid then Some(upTo - 1)
    else LastInvalid(ws, upTo - 1)
  }

  /** The highest-indexed way below `upTo` of age 0, valid or not. */
  function LastZero(ws: seq<Line>, upTo: nat): (r: Option<nat>)
    requires upTo <= |ws|
    ensures r.Some? ==> r.value < upTo && ws[r.value].lru == 0
    ensures r.Some? ==> forall j :: r.value < j < upTo ==> ws[j].lru != 0
    ensures r.None? ==> forall j :: 0 <= j < upTo ==> ws[j].lru != 0
  {
    if upTo == 0 then None
    else if ws[upTo - 1].lru == 0 then Some(upTo - 1)
    else LastZero(ws, upTo - 1)
  }

  /** The way `insert` overwrites: the last invalid way, or failing that the last of age 0. */
  function InsertVictim(ws: seq<Line>): Option<nat> {
    match LastInvalid(ws, |ws|)
    case Some(v) => Some(v)
    case None => LastZero(ws, |ws|)
  }

  /** From a reachable set the victim exists, may be overwritten, and keeps the invariant. */
  lemma InsertVictimFree(ws: seq<Line>, tag: bv64)
    requires LruInv(ws) && |ws| > 0
    ensures InsertVictim(ws).Some?
    ensures Free(ws[InsertVictim(ws).value])
    ensures LruInv(Place(ws, InsertVictim(ws).value, tag))
  {
    FreeExists(ws);
    var i :| 0 <= i < |ws| && Free(ws[i]);
    if LastInvalid(ws, |ws|).None? {
      assert ws[i].valid && ws[i].lru == 0;
    }
    PlaceInv(ws, InsertVictim(ws).value, tag);
  }

  /** The set after `insert(pkt)`; with no victim nothing changes. */
  function Inserted(ws: seq<Line>, p: Packet): seq<Line> {
    match InsertVictim(ws)
    case None => ws
    case Some(v) => Place(ws, v, EntryGen(p))
  }

  /** The way `access` matches: the first whose address field equals the packet's tag. */
  function FindTag(ws: seq<Line>, addr: bv16, from: nat): (r: Option<nat>)
    requires from <= |ws|
    ensures r.Some? ==> from <= r.value < |ws| && GetAddress(ws[r.value].tag) == addr
    ensures r.Some? ==> forall j :: from <= j < r.value ==> GetAddress(ws[j].tag) != addr
    ensures r.None? ==> forall j :: from <= j < |ws| ==> GetAddress(ws[j].tag) != addr
    decreases |ws| - from
  {
    if from == |ws| then None
    else if GetAddress(ws[from].tag) == addr then Some(from)
    else FindTag(ws, addr, from + 1)
  }

  /**
   * The number of ways the `access` loop as written reads: up to the
   * matching way, or all 128 loop iterations on a miss.
   */
  function WaysReadAsWritten(ws: seq<Line>, addr: bv16): (n: nat)
    ensures 1 <= n
    ensures FindTag(ws, addr, 0).Some? ==> n <= |ws|
  {
    match FindTag(ws, addr, 0)
    case Some(i) => i + 1
    case None => AccessLoopBoundAsWritten
  }

  /** As written, a miss reads all 128 indices: 123 of them past the five ways of the set. */
  lemma AccessMissOverruns(ws: seq<Line>, addr: bv16)
    requires |ws| == NumWaysSampler && FindTag(ws, addr, 0).None?
    ensures WaysReadAsWritten(ws, addr) == 128 == |ws| + 123
  {
  }

  /** Within five ways, the corrected loop never reads past the set. */
  lemma AccessStaysInside(ws: seq<Line>, addr: bv16)
    requires |ws| == NumWaysSampler
    ensures FindTag(ws, addr, 0).Some? ==> WaysReadAsWritten(ws, addr) <= |ws|
  {
  }

  /** What `access` does to the matched way (with the corrected `setPC`). */
  function Touched(l: Line, p: Packet): Line {
    l.(tag := SetTimestamp(SetPC(l.tag, p.hashedPC), p.timestamp))
  }

  function Accessed(ws: seq<Line>, p: Packet): seq<Line> {
    match FindTag(ws, p.addrTag, 0)
    case None => ws
    case Some(i) => ws[i := Touched(ws[i], p)]
  }

  /** The rewritten way keeps its address field, so the same tag still hits it after the access. */
  lemma TouchedKeepsAddress(l: Line, p: Packet)
    ensures GetAddress(Touched(l, p).tag) == GetAddress(l.tag)
    ensures GetTimestamp(Touched(l, p).tag) == p.timestamp
  {
    var w := SetPC(l.tag, p.hashedPC);
    SetPCKeepsRest(l.tag, p.hashedPC);
    SetTimestampFields(w, p.timestamp);
    SetTimestampKeepsAddress(w, p.timestamp);
  }

  lemma SetTimestampKeepsAddress(w: bv64, ts: bv8)
    ensures GetAddress(SetTimestamp(w, ts)) == GetAddress(w)
  {
  }

  /**
   * A tag of more than ten bits is stored cut to ten bits, so after
   * inserting it the same packet still misses.
   */
  lemma WideTagNeverHits(ws: seq<Line>, p: Packet)
    requires LruInv(ws) && |ws| > 0 && p.addrTag >= 0x400
    ensures FindTag(Inserted(ws, p), p.addrTag, 0).None?
  {
    InsertVictimFree(ws, EntryGen(p));
    var r := Inserted(ws, p);
    EntryGenRoundTrip(p);
    forall j | 0 <= j < |r|
      ensures GetAddress(r[j].tag) != p.addrTag
    {
      AddressBelow(r[j].tag);
    }
  }

  lemma AddressBelow(w: bv64)
    ensures GetAddress(w) < 0x400
  {
  }

  /** With a ten-bit tag (`ENTRY_ADDR_MASK` applied first), an inserted packet hits on its next access. */
  lemma NarrowTagHits(ws: seq<Line>, p: Packet)
    requires LruInv(ws) && |ws| > 0 && p.addrTag < 0x400
    ensures FindTag(Inserted(ws, p), p.addrTag, 0).Some?
  {
    InsertVictimFree(ws, EntryGen(p));
    var v := InsertVictim(ws).value;
    EntryGenRoundTrip(p);
    NarrowMask(p.addrTag);
    var r := Inserted(ws, p);
    assert GetAddress(r[v].tag) == p.addrTag;
    if FindTag(r, p.addrTag, 0).None? {
      assert false;
    }
  }

  lemma NarrowMask(a: bv16)
    requires a < 0x400
    ensures a & 0x3FF == a
  {
  }

  /** `CacheSet` of the sampled cache: five ways updated in place. */
  class CacheSet {
    const ways: array<Line>

    ghost predicate Valid()
      reads ways
    {
      ways.Length == NumWaysSampler && LruInv(ways[..])
    }

    constructor()
      ensures Valid() && fresh(ways)
      ensures ways[..] == seq(NumWaysSampler, i => EmptyLine)
    {
      ways := new Line[NumWaysSampler](i => EmptyLine);
      new;
      EmptyInv(ways[..]);
    }

    /** `insert`: pick the victim with two full scans, age the set, fill the victim as the youngest. */
    method Insert(p: Packet)
      requires Valid()
      modifies ways
      ensures Valid()
      ensures ways[..] == Inserted(old(ways[..]), p)
    {
      ghost var ws := ways[..];
      InsertVictimFree(ws, EntryGen(p));
      var victim := -1;
      var i := 0;
      while i < NumWaysSampler
        invariant 0 <= i <= NumWaysSampler
        invariant victim == -1 ==> LastInvalid(ws, i).None?
        invariant victim != -1 ==> LastInvalid(ws, i) == Some(victim)
      {
        if !ways[i].valid {
          victim := i;
        }
        i := i + 1;
      }
      if victim == -1 {
        i := 0;
        while i < NumWaysSampler
          invariant 0 <= i <= NumWaysSampler
          invariant victim == -1 ==> LastZero(ws, i).None?
          invariant victim != -1 ==> LastZero(ws, i) == Some(victim)
        {
          if ways[i].lru == 0 {
            victim := i;
          }
          i := i + 1;
        }
      }
      assert victim != -1;
      assert InsertVictim(ws) == Some(victim);
      AgeWays(ways);
      ways[victim] := ways[victim].(tag := EntryGen(p));
      ways[victim] := ways[victim].(lru := NumWaysSampler - 1);
      ways[victim] := ways[victim].(valid := true);
      assert ways[..] == Place(ws, victim, EntryGen(p));
    }

    /** `access` with its loop bounded by the five ways of the set. */
    method Access(p: Packet) returns (hit: bool, lastPC: bv16, lastTs: bv8)
      requires Valid()
      modifies ways
      ensures Valid()
      ensures hit <==> FindTag(old(ways[..]), p.addrTag, 0).Some?
      ensures hit ==> var i := FindTag(old(ways[..]), p.addrTag, 0).value;
        lastPC == GetPC(old(ways[i].tag)) && lastTs == GetTimestamp(old(ways[i].tag))
      ensures ways[..] == Accessed(old(ways[..]), p)
    {
      ghost var ws := ways[..];
      lastPC, lastTs := 0, 0;
      var i := 0;
      while i < NumWaysSampler
        invariant 0 <= i <= NumWaysSampler
        invariant ways[..] == ws
        invariant FindTag(ws, p.addrTag, 0) == FindTag(ws, p.addrTag, i)
      {
        if p.addrTag == GetAddress(ways[i].tag) {
          lastPC := GetPC(ways[i].tag);
          lastTs := GetTimestamp(ways[i].tag);
          ways[i] := Touched(ways[i], p);  // setPC, then setTimestamp
          RetagInv(ws, i, ways[i].tag);
          return true, lastPC, lastTs;
        }
        i := i + 1;
      }
      return false, lastPC, lastTs;
    }
  }
}

// The arithmetic helpers, reuse-distance predictor and sampled cache of
// src/mem/cache/tags/mockingjay_sampler.cc.
module MockingjayTraining {
  import opened Engine
  import opened Bits
  import opened SamplerLru
  import opened MockingjaySampler

  /** `1 << TIMESTAMP_LEN`: timestamps live in eight bits. */
  const TimestampRange: int := 256
  const MaxRdThreshold: int := 22

  /** `time_elapsed`: the distance from `local` forward to `global` on the 8-bit timestamp clock. */
  function TimeElapsed(global: int, local: int): (r: int)
    ensures (local + r) % TimestampRange == global % TimestampRange
  {
    if global >= local then global - local else global + TimestampRange - local
  }

  /** For 8-bit timestamps the elapsed time is itself 8-bit and carries `local` to `global`. */
  lemma TimeElapsedInverse(global: int, local: int)
    requires 0 <= global < TimestampRange && 0 <= local < TimestampRange
    ensures 0 <= TimeElapsed(global, local) < TimestampRange
    ensures (local + TimeElapsed(global, local)) % TimestampRange == global
  {
  }

  /**
   * `temporal_difference`: `diff * (1.0 / 16.0)` stored into an `int` is
   * `diff / 16` for the non-negative `diff` here (a sixteenth is exact in
   * binary floating point), so the step is 1 when the two differ by at least
   * 16 and 0 otherwise; the result is capped at `inf_rd` above and 0 below.
   */
  function TemporalDifference(init: int, sample: int, infRd: int): (r: int)
    ensures sample == init ==> r == init
    ensures sample > init ==> r <= init + 1 && r <= infRd
    ensures sample < init ==> 0 <= r <= Max(init, 0)
  {
    if sample > init then
      var diff := Min(1, (sample - init) / 16);
      Min(init + diff, infRd)
    else if sample < init then
      var diff := Min(1, (init - sample) / 16);
      Max(init - diff, 0)
    else
      init
  }

  /**
   * From a value in `[0, inf_rd]` the step moves by at most one, towards the
   * sample, never past it, and stays in `[0, inf_rd]`.
   */
  lemma TemporalDifferenceStep(init: int, sample: int, infRd: int)
    requires 0 <= init <= infRd
    ensures var r := TemporalDifference(init, sample, infRd);
      && init - 1 <= r <= init + 1
      && 0 <= r <= infRd
      && (sample >= init ==> init <= r <= Max(sample, init))
      && (sample <= init ==> Min(sample, init) <= r <= init)
      && (r != init <==> (sample - init >= 16 && init < infRd) || (init - sample >= 16 && init > 0))
  {
  }

  /**
   * `is_sampled_set`: with `k = log2_cache_sets - log2_sampled_sets`, the low
   * `k` bits of the set number equal its `k` bits from `log2_sampled_sets`.
   */
  predicate IsSampledSet(cacheSet: nat, log2CacheSets: nat, log2SampledSets: nat)
    requires log2SampledSets <= log2CacheSets
  {
    var k := log2CacheSets - log2SampledSets;
    Field(cacheSet, 0, k) == Field(cacheSet, log2CacheSets - k, k)
  }

  /** Set 0 is always sampled, and when every set is sampled (`k == 0`) the test always passes. */
  lemma IsSampledSetCases(cacheSet: nat, log2CacheSets: nat, log2SampledSets: nat)
    requires log2SampledSets <= log2CacheSets
    ensures IsSampledSet(0, log2CacheSets, log2SampledSets)
    ensures log2SampledSets == log2CacheSets ==> IsSampledSet(cacheSet, log2CacheSets, log2SampledSets)
  {
  }

  /** `(x << 48) >> 48`: keep the low 16 bits. */
  function Low16(x: bv64): bv64 {
    (x << 48) >> 48
  }

  lemma Low16Mask(x: bv64)
    ensures Low16(x) == x & 0xFFFF
    ensures Low16(x) < 0x1_0000
  {
  }

  function Bit(b: bool): bv64 { if b then 1 else 0 }

  /**
   * The value `get_pc_signature` hashes: with one CPU the PC extended by the
   * hit and prefetch bits; with several, by the prefetch bit and two zero
   * bits that `core` is OR-ed into.
   */
  function SignatureInput(pc: bv64, hit: bool, prefetch: bool, core: bv32, numCpu: bv32): bv64 {
    if numCpu == 1 then (((pc << 1) | Bit(hit)) << 1) | Bit(prefetch)
    else (((pc << 1) | Bit(prefetch)) << 2) | (core as bv64)
  }

  /** `get_pc_signature`: three CRC rounds of the extended PC, cut to its low 16 bits. */
  function PcSignature(pc: bv64, hit: bool, prefetch: bool, core: bv32, numCpu: bv32): (r: bv64)
    ensures r < 0x1_0000
  {
    Low16Mask(CrcHash(SignatureInput(pc, hit, prefetch, core, numCpu)));
    Low16(CrcHash(SignatureInput(pc, hit, prefetch, core, numCpu)))
  }

  /** With several CPUs it does not depend on `hit`. */
  lemma PcSignatureIgnoresHit(pc: bv64, prefetch: bool, core: bv32, numCpu: bv32)
    requires numCpu != 1
    ensures PcSignature(pc, true, prefetch, core, numCpu) == PcSignature(pc, false, prefetch, core, numCpu)
  {
    assert SignatureInput(pc, true, prefetch, core, numCpu) == SignatureInput(pc, false, prefetch, core, numCpu);
  }

  /** C++ `int` division, which truncates toward zero. */
  function TruncDiv(a: int, b: int): int
    requires b > 0
  {
    if a >= 0 then a / b else -((-a) / b)
  }

  /** An `int` returned as `uint16_t`: reduced modulo 2^16. */
  function U16(x: int): (r: int)
    ensures 0 <= r < 0x1_0000
  {
    x % 0x1_0000
  }

  /** What `predict` returns for the counter value `c` of the signature's slot. */
  function PredictionFor(c: int, numCpus: int, maxRd: int, granularity: int, etrInf: int): int
    requires granularity > 0
  {
    if c == -1 then (if numCpus == 1 then 0 else U16(etrInf))
    else if c > maxRd then U16(etrInf)
    else U16(TruncDiv(c, granularity))
  }

  /**
   * Every prediction fits in 16 bits, and a trained counter within `max_rd`
   * whose quotient fits is predicted as that many aging-clock periods.
   */
  lemma PredictionForRange(c: int, numCpus: int, maxRd: int, granularity: int, etrInf: int)
    requires granularity > 0
    ensures 0 <= PredictionFor(c, numCpus, maxRd, granularity, etrInf) < 0x1_0000
    ensures 0 <= c <= maxRd && c / granularity < 0x1_0000 ==>
      PredictionFor(c, numCpus, maxRd, granularity, etrInf) == c / granularity
  {
    if 0 <= c <= maxRd {
      var q := c / granularity;
      assert 0 <= q;
      assert TruncDiv(c, granularity) == q;
    }
  }

  /** `ReuseDistPredictor`: a table of reuse-distance counters indexed by PC signature. */
  class ReuseDistPredictor {
    const counters: array<int>
    const numEntries: nat
    const bitsPerEntry: nat
    const granularity: int
    const numCpus: bv32
    const maxValue: int
    const maxRd: int

    ghost predicate Valid()
      reads this
    {
      counters.Length == numEntries && granularity > 0 && bitsPerEntry <= 31
      && maxValue == Pow2(bitsPerEntry) - 1 && maxRd == maxValue - MaxRdThreshold
    }

    /** Every counter starts at -1 ("never trained"). */
    constructor(numEntries: nat, bitsPerEntry: nat, agingClockSize: int, numCpus: bv32)
      requires agingClockSize > 0 && bitsPerEntry <= 31
      ensures Valid() && fresh(counters)
      ensures counters[..] == seq(numEntries, i => -1)
      ensures this.numEntries == numEntries && granularity == agingClockSize && this.numCpus == numCpus
    {
      this.numEntries := numEntries;
      this.bitsPerEntry := bitsPerEntry;
      granularity := agingClockSize;
      this.numCpus := numCpus;
      var c := new int[numEntries];
      var i := 0;
      while i < numEntries
        invariant 0 <= i <= numEntries
        invariant forall j :: 0 <= j < i ==> c[j] == -1
      {
        c[i] := -1;
        i := i + 1;
      }
      counters := c;
      maxValue := Pow2(bitsPerEntry) - 1;
      maxRd := Pow2(bitsPerEntry) - 1 - MaxRdThreshold;
    }

    /** `train` is an empty stub: it changes nothing. */
    method Train(lastPC: bv64, sampledCacheHit: bool, currTs: bv8, lastTs: bv8, evict: bool)
    {
    }

    /** `predict`: look up the signature's counter and turn it into an ETR. */
    method Predict(pc: bv64, hit: bool, coreId: bv32, etrInf: int) returns (r: int)
      requires Valid() && numEntries >= 1
      ensures r == PredictionFor(counters[Mod(PcSignature(pc, hit, false, coreId, numCpus), numEntries)],
                                 numCpus as int, maxRd, granularity, etrInf)
      ensures (forall i :: 0 <= i < counters.Length ==> counters[i] == -1) ==>
        r == if numCpus == 1 then 0 else U16(etrInf)
      ensures 0 <= r < 0x1_0000
      ensures var c := counters[Mod(PcSignature(pc, hit, false, coreId, numCpus), numEntries)];
        0 <= c <= maxRd && c / granularity < 0x1_0000 ==> r == c / granularity
    {
      var signature := Mod(PcSignature(pc, hit, false, coreId, numCpus), numEntries);
      PredictionForRange(counters[signature], numCpus as int, maxRd, granularity, etrInf);
      if counters[signature] == -1 {
        if numCpus == 1 {
          return 0;
        } else {
          return U16(etrInf);
        }
      } else {
        if counters[signature] > maxRd {
          return U16(etrInf);
        } else {
          return U16(TruncDiv(counters[signature], granularity));
        }
      }
    }
  }

  // ---------------------------------------------------------------------
  // The sampled cache.

  /**
   * `set_index` as written: the mask keeps `log2(num_sets) + log2(cache_sets)`
   * bits of the block address, although there are only `num_sets` sampler sets.
   */
  function SetIndexAsWritten(addr: bv64, log2Block: nat, log2NumSets: nat, log2CacheSets: nat): (k: nat)
    requires log2Block < 64
    ensures k < Pow2(log2NumSets + log2CacheSets)
  {
    Field(ToNat(addr >> log2Block), 0, log2NumSets + log2CacheSets)
  }

  /** With two sampler sets of two cache sets, block address 3 selects sampler set 3. */
  lemma SetIndexAsWrittenOverruns()
    ensures SetIndexAsWritten(3, 0, 1, 1) == 3 >= Pow2(1)
  {
    assert ToNat(3 >> 0) == 3;
    assert Pow2(2) == 4;
  }

  /** `set_index` as intended: the low `log2(num_sets)` bits, always a sampler set. */
  function SetIndex(addr: bv64, log2Block: nat, numSets: nat): (k: nat)
    requires log2Block < 64 && numSets >= 1
    ensures k < numSets
  {
    Pow2Log2Below(numSets);
    Field(ToNat(addr >> log2Block), 0, Log2(numSets))
  }

  lemma Pow2Log2Below(n: nat)
    requires n >= 1
    ensures Pow2(Log2(n)) <= n
  {
  }

  /**
   * With a power-of-two number of sampler sets the intended index is the
   * block address modulo the number of sets.
   */
  lemma SetIndexPow2(addr: bv64, log2Block: nat, k: nat)
    requires log2Block < 64
    ensures SetIndex(addr, log2Block, Pow2(k)) == ToNat(addr >> log2Block) % Pow2(k)
  {
    Log2OfPow2(k);
    var x := ToNat(addr >> log2Block);
    assert Field(x, 0, k) == x % Pow2(k);
  }

  /** The address tag as written: sixteen bits (`ADDRESS_TAG_MASK`), wider than the entry's ten-bit field. */
  function AddrTagAsWritten(addr: bv64, shift: nat): (t: bv16)
    requires shift < 64
    ensures ToNat(addr >> shift) < 0x400 ==> t == AddrTag(addr, shift)
  {
    var x := ToNat(addr >> shift);
    NarrowCast(x);
    (x % 0x1_0000) as bv16
  }

  /** Below 2^10, cutting to 16 bits and cutting to 10 bits give the same tag. */
  lemma NarrowCast(x: nat)
    ensures x < 0x400 ==> (x % 0x1_0000) as bv16 == (x % 0x400) as bv16
  {
    if x < 0x400 {
      assert x % 0x1_0000 == x;
      assert x % 0x400 == x;
    }
  }

  /** Address bit 10 above the shift gives an as-written tag that can never hit once inserted. */
  lemma AddrTagAsWrittenTooWide()
    ensures AddrTagAsWritten(0x400, 0) == 0x400
  {
    var a: bv64 := 0x400;
    assert a >> 0 == a;
    assert ToNat(a) == 0x400;
    assert 0x400 % 0x1_0000 == 0x400;
  }

  /** The address tag as intended: cut to the ten bits an entry stores (`ENTRY_ADDR_MASK`). */
  function AddrTag(addr: bv64, shift: nat): (t: bv16)
    requires shift < 64
    ensures t < 0x400
  {
    (ToNat(addr >> shift) % 0x400) as bv16
  }

  /** `SampledCache`: `num_sets` five-way sets and one timestamp counter per set. */
  class SampledCache {
    const sets: seq<CacheSet>
    const timestamps: array<u64>
    const numSets: nat
    const numCacheSets: nat
    const cacheBlockSize: nat
    const timerSize: nat
    const numCpus: bv32
    const log2NumSets: nat
    const log2CacheBlockSize: nat
    ghost const Repr: set<object>

    ghost predicate Valid()
      reads this, Repr
    {
      && |sets| == numSets >= 1
      && timestamps.Length == numSets
      && 1 <= timerSize < 0x8000_0000
      && numCacheSets >= 1
      && log2NumSets == Log2(numSets) <= Log2(numCacheSets)
      && cacheBlockSize >= 1 && log2CacheBlockSize == Log2(cacheBlockSize)
      && log2CacheBlockSize + log2NumSets + Log2(numCacheSets) < 64
      && Repr == (set i | 0 <= i < |sets| :: sets[i].ways)
      && (forall i :: 0 <= i < |sets| ==> sets[i].Valid())
      && (forall i, j :: 0 <= i < j < |sets| ==> sets[i].ways != sets[j].ways)
    }

    /** Every sampler way starts invalid and every timestamp counter at 0; the timer wraps at `1 << timer_size`. */
    constructor(numSets: nat, numCacheSets: nat, cacheBlockSize: nat, timerBits: nat, numCpus: bv32)
      requires numSets >= 1 && numCacheSets >= 1 && Log2(numSets) <= Log2(numCacheSets)
      requires cacheBlockSize >= 1 && Log2(cacheBlockSize) + Log2(numSets) + Log2(numCacheSets) < 64
      requires timerBits <= 30
      ensures Valid() && fresh(timestamps) && fresh(Repr)
      ensures timerSize == Pow2(timerBits)
      ensures timestamps[..] == seq(numSets, i => 0)
      ensures forall i :: 0 <= i < |sets| ==> sets[i].ways[..] == seq(NumWaysSampler, j => EmptyLine)
    {
      var s: seq<CacheSet> := [];
      while |s| < numSets
        invariant |s| <= numSets
        invariant forall i :: 0 <= i < |s| ==> s[i].Valid() && fresh(s[i].ways)
        invariant forall i :: 0 <= i < |s| ==> s[i].ways[..] == seq(NumWaysSampler, j => EmptyLine)
        invariant forall i, j :: 0 <= i < j < |s| ==> s[i].ways != s[j].ways
      {
        var c := new CacheSet();
        s := s + [c];
      }
      sets := s;
      timestamps := new u64[numSets](i => 0);
      this.numSets := numSets;
      this.numCacheSets := numCacheSets;
      this.cacheBlockSize := cacheBlockSize;
      Pow2Small(timerBits);
      timerSize := Pow2(timerBits);
      this.numCpus := numCpus;
      log2NumSets := Log2(numSets);
      log2CacheBlockSize := Log2(cacheBlockSize);
      Repr := set i | 0 <= i < |s| :: s[i].ways;
    }

    /**
     * `sample`: for a sampled cache set, look the block up in its sampler
     * set, store the new PC signature and timestamp on a hit or insert on a
     * miss, and advance that set's timestamp counter. Returns whether the
     * set is sampled, for a sampled set whether the sampler hit, and whether
     * the insert of a miss replaced a valid line.
     */
    method Sample(addr: bv64, pc: bv64, cacheSet: nat, hit: bool, coreId: bv32)
      returns (sampled: bool, currTs: bv8, lastPC: bv16, lastTs: bv8, sampledHit: bool, evict: bool)
      requires Valid()
      modifies timestamps, Repr
      ensures Valid()
      ensures sampled == IsSampledSet(cacheSet, Log2(numCacheSets), log2NumSets)
      ensures !sampled ==>
        && !sampledHit && !evict
        && timestamps[..] == old(timestamps[..])
        && forall i :: 0 <= i < |sets| ==> sets[i].ways[..] == old(sets[i].ways[..])
      ensures sampled ==>
        var k := SetIndex(addr, log2CacheBlockSize, numSets);
        var tag := AddrTag(addr, log2CacheBlockSize + log2NumSets + Log2(numCacheSets));
        var hpc := (PcSignature(pc, hit, false, coreId, numCpus) & 0xFFFF) as bv16;
        var p := Packet(tag, hpc, Ts8(old(timestamps[k])));
        var ws := old(sets[k].ways[..]);
        && currTs == p.timestamp
        && timestamps[..] == old(timestamps[..])[k := Tick(old(timestamps[k]), timerSize)]
        && (sampledHit <==> FindTag(ws, tag, 0).Some?)
        && (evict <==> !sampledHit && LastInvalid(ws, |ws|).None?)
        && (sampledHit ==>
              lastPC == GetPC(ws[FindTag(ws, tag, 0).value].tag) &&
              lastTs == GetTimestamp(ws[FindTag(ws, tag, 0).value].tag))
        && sets[k].ways[..] == (if sampledHit then Accessed(ws, p) else Inserted(ws, p))
        && forall i :: 0 <= i < |sets| && i != k ==> sets[i].ways[..] == old(sets[i].ways[..])
    {
      lastPC, lastTs, currTs, sampledHit, evict := 0, 0, 0, false, false;
      var log2NumCacheSets := Log2(numCacheSets);
      if !IsSampledSet(cacheSet, log2NumCacheSets, log2NumSets) {
        return false, currTs, lastPC, lastTs, sampledHit, evict;
      }
      var k := SetIndex(addr, log2CacheBlockSize, numSets);
      var addrTag := AddrTag(addr, log2CacheBlockSize + log2NumSets + log2NumCacheSets);
      var hashedPc := (PcSignature(pc, hit, false, coreId, numCpus) & 0xFFFF) as bv16;
      var timestamp := Ts8(timestamps[k]);
      currTs := timestamp;
      var p := Packet(addrTag, hashedPc, timestamp);
      var cs := sets[k];
      assert cs.ways in Repr;
      sampledHit, lastPC, lastTs := cs.Access(p);
      timestamps[k] := Tick(timestamps[k], timerSize);
      if !sampledHit {
        evict := LastInvalid(cs.ways[..], cs.ways.Length).None?;
        cs.Insert(p);
      }
      return true, currTs, lastPC, lastTs, sampledHit, evict;
    }
  }
}
