// The multithreaded checkpoint/restore run script: flag validation, the
// setup choices, the three exit-event handler generators, and the
// exit-cause report.
module RunFsMtCheckpoint {
  import opened Engine
  import Workload

  datatype Args = Args(
    benchmark: Option<string>,
    size: Option<string>,
    cores: int,
    checkpoint: Option<string>,
    restore: Option<string>,
    nokvm: bool,
    o3: bool)

  datatype ArgError =
    | NoBenchmark            // no --benchmark and no --checkpoint
    | NoSize                 // no --size and no --checkpoint
    | CheckpointWithRestore  // --checkpoint together with --restore
    | RestoreDirMissing      // the --restore directory does not exist

  /** What every validated flag record satisfies. */
  predicate Configured(c: Args) {
    && (TruthyStr(c.checkpoint) || (TruthyStr(c.benchmark) && TruthyStr(c.size)))
    && !(TruthyStr(c.checkpoint) && TruthyStr(c.restore))
  }

  /** Lines 59-67: the first rule that rejects the flags, if any. */
  function Check(a: Args): (r: Option<ArgError>)
    ensures r.None? <==> Configured(a)
    ensures r == Some(NoBenchmark) <==> !TruthyStr(a.benchmark) && !TruthyStr(a.checkpoint)
    ensures r == Some(NoSize) <==>
              TruthyStr(a.benchmark) && !TruthyStr(a.size) && !TruthyStr(a.checkpoint)
    ensures r == Some(CheckpointWithRestore) <==> TruthyStr(a.checkpoint) && TruthyStr(a.restore)
  {
    if !TruthyStr(a.benchmark) && !TruthyStr(a.checkpoint) then Some(NoBenchmark)
    else if !TruthyStr(a.size) && !TruthyStr(a.checkpoint) then Some(NoSize)
    else if TruthyStr(a.checkpoint) && TruthyStr(a.restore) then Some(CheckpointWithRestore)
    else None
  }

  /** Lines 76-88: the checkpoint is taken without caches. */
  function CacheFor(c: Args): (k: CacheKind)
    ensures k == NoCache <==> TruthyStr(c.checkpoint)
  {
    if TruthyStr(c.checkpoint) then NoCache else Hierarchy
  }

  /** Lines 100-105: the core the run starts on and the one it switches to. */
  function StartCore(c: Args): (k: CoreKind)
    ensures k == Kvm <==> !c.nokvm
    ensures k in {Kvm, Atomic}
  {
    if c.nokvm then Atomic else Kvm
  }

  function SwitchCore(c: Args): (k: CoreKind)
    ensures k == O3 <==> c.o3
    ensures k in {Timing, O3}
  {
    if c.o3 then O3 else Timing
  }

  /**
   * Lines 204-213: the directory bound to `chkptDir`. Neither flag leaves it
   * unbound; a restore directory that does not exist stops the script.
   */
  function ChkptDir(c: Args, restoreExists: bool): (r: Result<Option<string>, ArgError>)
    ensures r.Err? <==> TruthyStr(c.restore) && !restoreExists
    ensures r.Err? ==> r.error == RestoreDirMissing
    ensures r.Ok? ==> (r.value.Some? <==> TruthyStr(c.checkpoint) || TruthyStr(c.restore))
    ensures r.Ok? && TruthyStr(c.restore) ==> r.value == c.restore
    ensures r.Ok? && !TruthyStr(c.restore) && TruthyStr(c.checkpoint) ==> r.value == c.checkpoint
  {
    if TruthyStr(c.restore) then
      if !restoreExists then Err(RestoreDirMissing) else Ok(c.restore)
    else if TruthyStr(c.checkpoint) then Ok(c.checkpoint)
    else Ok(None)
  }

  /** Line 222: the checkpoint the board boots from is the restore directory, and only with --restore. */
  function CheckpointToLoad(c: Args, restoreExists: bool): (r: Option<string>)
    requires ChkptDir(c, restoreExists).Ok?
    ensures r.Some? <==> TruthyStr(c.restore)
    ensures r.Some? ==> r == c.restore
  {
    if TruthyStr(c.restore) then ChkptDir(c, restoreExists).value else None
  }

  /** Lines 115-161 and 223: the hack-back script when checkpointing, else the benchmark command. */
  function ReadfileFor(c: Args): (r: Readfile)
    requires Configured(c)
    ensures r == HackBack <==> TruthyStr(c.checkpoint)
    ensures r != HackBack ==>
              r == Command(Workload.BenchmarkCommand(c.benchmark.value, c.size.value, c.cores))
  {
    if TruthyStr(c.checkpoint) then HackBack
    else Command(Workload.BenchmarkCommand(c.benchmark.value, c.size.value, c.cores))
  }

  // ---------------------------------------------------------------------
  // The handler generators (lines 226-253).

  /** How many times each generator has been resumed. */
  datatype Progress = Progress(workBegin: nat, workEnd: nat, checkpoint: nat)

  const NoProgress: Progress := Progress(0, 0, 0)

  function Resumed(p: Progress, e: Event): nat
    requires e != MaxInsts
  {
    match e
    case WorkBegin => p.workBegin
    case WorkEnd => p.workEnd
    case Checkpoint => p.checkpoint
  }

  function Bump(p: Progress, e: Event): (q: Progress)
    requires e != MaxInsts
    ensures Resumed(q, e) == Resumed(p, e) + 1
    ensures forall f :: f != MaxInsts && f != e ==> Resumed(q, f) == Resumed(p, f)
  {
    match e
    case WorkBegin => p.(workBegin := p.workBegin + 1)
    case WorkEnd => p.(workEnd := p.workEnd + 1)
    case Checkpoint => p.(checkpoint := p.checkpoint + 1)
  }

  /** One resumption: the new `start_tick`, the effects in order, and the outcome. */
  datatype MtStep = MtStep(startTick: int, actions: seq<Action>, out: Outcome)

  /** `workbegin_handler`: switch cores, reset the stats, remember the tick; once. */
  function WorkBeginGen(k: nat, startTick: int, now: nat): (r: MtStep)
    ensures k == 0 ==> r.actions == [Switch, ResetStats] && r.startTick == now && r.out == Continue
    ensures k > 0 ==> r == MtStep(startTick, [], Exhausted)
  {
    if k == 0 then MtStep(now, [Switch, ResetStats], Continue) else MtStep(startTick, [], Exhausted)
  }

  /** `workend_handler`: dump the stats and stop; once. */
  function WorkEndGen(k: nat, startTick: int): (r: MtStep)
    ensures r.startTick == startTick
    ensures k == 0 ==> r.actions == [DumpStats] && r.out == Terminate
    ensures k > 0 ==> r.actions == [] && r.out == Exhausted
  {
    if k == 0 then MtStep(startTick, [DumpStats], Terminate) else MtStep(startTick, [], Exhausted)
  }

  /**
   * `checkpoint_handler`: save to `chkptDir` and stop; once. When neither
   * --checkpoint nor --restore was given the name is unbound and the body
   * raises before saving.
   */
  function CheckpointGen(k: nat, startTick: int, dir: Option<string>): (r: MtStep)
    ensures r.startTick == startTick
    ensures k == 0 && dir.Some? ==> r.actions == [Save(dir.value)] && r.out == Terminate
    ensures k == 0 && dir.None? ==> r.actions == [] && r.out == Raised
    ensures k > 0 ==> r.actions == [] && r.out == Exhausted
  {
    if k > 0 then MtStep(startTick, [], Exhausted)
    else if dir.Some? then MtStep(startTick, [Save(dir.value)], Terminate)
    else MtStep(startTick, [], Raised)
  }

  function HandleStep(dir: Option<string>, startTick: int, p: Progress, e: Event, now: nat): (r: MtStep)
    requires e != MaxInsts
  {
    match e
    case WorkBegin => WorkBeginGen(p.workBegin, startTick, now)
    case WorkEnd => WorkEndGen(p.workEnd, startTick)
    case Checkpoint => CheckpointGen(p.checkpoint, startTick, dir)
  }

  class Handlers {
    const chkptDir: Option<string>
    var startTick: int
    var progress: Progress
    ghost var trace: seq<Action>

    /** Line 255. */
    constructor (chkptDir: Option<string>)
      ensures this.chkptDir == chkptDir && startTick == 0 && progress == NoProgress && trace == []
    {
      this.chkptDir := chkptDir;
      startTick := 0;
      progress := NoProgress;
      trace := [];
    }

    method WorkBeginHandler(now: nat) returns (out: Outcome)
      modifies this
      ensures var r := WorkBeginGen(old(progress.workBegin), old(startTick), now);
              startTick == r.startTick && trace == old(trace) + r.actions && out == r.out
      ensures progress == Bump(old(progress), WorkBegin)
    {
      if progress.workBegin == 0 {
        trace := trace + [Switch];
        trace := trace + [ResetStats];
        startTick := now;
        out := Continue;
      } else {
        out := Exhausted;
      }
      progress := Bump(progress, WorkBegin);
    }

    method WorkEndHandler() returns (out: Outcome)
      modifies this
      ensures var r := WorkEndGen(old(progress.workEnd), old(startTick));
              startTick == r.startTick && trace == old(trace) + r.actions && out == r.out
      ensures progress == Bump(old(progress), WorkEnd)
    {
      if progress.workEnd == 0 {
        trace := trace + [DumpStats];
        out := Terminate;
      } else {
        out := Exhausted;
      }
      progress := Bump(progress, WorkEnd);
    }

    method CheckpointHandler() returns (out: Outcome)
      modifies this
      ensures var r := CheckpointGen(old(progress.checkpoint), old(startTick), chkptDir);
              startTick == r.startTick && trace == old(trace) + r.actions && out == r.out
      ensures progress == Bump(old(progress), Checkpoint)
    {
      if progress.checkpoint > 0 {
        out := Exhausted;
      } else if chkptDir.Some? {
        trace := trace + [Save(chkptDir.value)];
        out := Terminate;
      } else {
        out := Raised;
      }
      progress := Bump(progress, Checkpoint);
    }
  }

  // ---------------------------------------------------------------------
  // Runs.

  datatype Sim = Sim(startTick: int, progress: Progress, stop: Stop, now: nat, trace: seq<Action>)

  const Boot: Sim := Sim(0, NoProgress, Running, 0, [])

  /** gem5 delivers one of the three installed events to a running simulation. */
  predicate Enabled(s: Sim, e: Event, t: nat) {
    s.stop == Running && s.now <= t && e != MaxInsts
  }

  function Deliver(dir: Option<string>, s: Sim, e: Event, t: nat): Sim
    requires Enabled(s, e, t)
  {
    var r := HandleStep(dir, s.startTick, s.progress, e, t);
    Sim(r.startTick, Bump(s.progress, e), if r.out == Continue then Running else StoppedBy(e, r.out),
        t, s.trace + r.actions)
  }

  predicate Admissible(dir: Option<string>, s: Sim, evs: seq<(Event, nat)>)
    decreases |evs|
  {
    evs == [] || (Enabled(s, evs[0].0, evs[0].1) && Admissible(dir, Deliver(dir, s, evs[0].0, evs[0].1), evs[1..]))
  }

  function Run(dir: Option<string>, s: Sim, evs: seq<(Event, nat)>): Sim
    requires Admissible(dir, s, evs)
    decreases |evs|
  {
    if evs == [] then s else Run(dir, Deliver(dir, s, evs[0].0, evs[0].1), evs[1..])
  }

  /** The effects so far are determined by which generators have run. */
  predicate Inv(s: Sim) {
    && Count(s.trace, Switch) == (if s.progress.workBegin > 0 then 1 else 0)
    && Count(s.trace, ResetStats) == Count(s.trace, Switch)
    && Count(s.trace, DumpStats) == (if s.stop == StoppedBy(WorkEnd, Terminate) then 1 else 0)
    && (s.stop == Running ==> s.progress.workBegin <= 1 && s.progress.workEnd == 0 && s.progress.checkpoint == 0)
    && (s.progress.workBegin > 0 ==> s.startTick <= s.now)
  }

  lemma DeliverInv(dir: Option<string>, s: Sim, e: Event, t: nat)
    requires Enabled(s, e, t) && Inv(s)
    ensures Inv(Deliver(dir, s, e, t))
  {
    var r := HandleStep(dir, s.startTick, s.progress, e, t);
    CountAppend(s.trace, r.actions, Switch);
    CountAppend(s.trace, r.actions, ResetStats);
    CountAppend(s.trace, r.actions, DumpStats);
    if e == WorkBegin && s.progress.workBegin == 0 {
      assert r.actions == [Switch] + [ResetStats];
      CountAppend([Switch], [ResetStats], Switch);
      CountAppend([Switch], [ResetStats], ResetStats);
      CountAppend([Switch], [ResetStats], DumpStats);
    }
  }

  lemma {:induction false} RunInv(dir: Option<string>, s: Sim, evs: seq<(Event, nat)>)
    requires Inv(s) && Admissible(dir, s, evs)
    ensures Inv(Run(dir, s, evs))
    decreases |evs|
  {
    if evs != [] {
      DeliverInv(dir, s, evs[0].0, evs[0].1);
      RunInv(dir, Deliver(dir, s, evs[0].0, evs[0].1), evs[1..]);
    }
  }

  /**
   * Over any run the cores are switched at most once, and exactly as often
   * as the stats are reset; the stats are dumped at most once, and only by
   * the WORKEND that stops the run.
   */
  lemma RunEffects(dir: Option<string>, evs: seq<(Event, nat)>)
    requires Admissible(dir, Boot, evs)
    ensures var s := Run(dir, Boot, evs);
            && Count(s.trace, Switch) <= 1
            && Count(s.trace, Switch) == Count(s.trace, ResetStats)
            && Count(s.trace, DumpStats) <= 1
            && (Count(s.trace, DumpStats) == 1 <==> s.stop == StoppedBy(WorkEnd, Terminate))
  {
    RunInv(dir, Boot, evs);
  }

  /** The benchmark's ROI: WORKBEGIN at `b`, then WORKEND at `e`. */
  lemma RoiRun(dir: Option<string>, b: nat, e: nat)
    requires b <= e
    ensures Admissible(dir, Boot, [(WorkBegin, b), (WorkEnd, e)])
    ensures var s := Run(dir, Boot, [(WorkBegin, b), (WorkEnd, e)]);
            && s.trace == [Switch, ResetStats, DumpStats]
            && s.startTick == b && s.stop == StoppedBy(WorkEnd, Terminate)
  {
    var evs: seq<(Event, nat)> := [(WorkBegin, b), (WorkEnd, e)];
    var rest: seq<(Event, nat)> := [(WorkEnd, e)];
    var none: seq<(Event, nat)> := [];
    assert evs[1..] == rest && rest[1..] == none;
    var s1 := Deliver(dir, Boot, WorkBegin, b);
    assert s1.trace == [Switch, ResetStats] && s1.stop == Running && s1.startTick == b;
    var s2 := Deliver(dir, s1, WorkEnd, e);
    assert s2.trace == [Switch, ResetStats, DumpStats];
    assert Admissible(dir, s2, none) && Run(dir, s2, none) == s2;
    assert Admissible(dir, s1, rest) && Run(dir, s1, rest) == s2;
  }

  /** The post-boot checkpoint run: CHECKPOINT saves to the checkpoint directory and stops. */
  lemma CheckpointRun(c: Args, t: nat)
    requires Configured(c) && TruthyStr(c.checkpoint)
    ensures var dir := ChkptDir(c, false);
            && dir.Ok? && Admissible(dir.value, Boot, [(Checkpoint, t)])
            && var s := Run(dir.value, Boot, [(Checkpoint, t)]);
               s.trace == [Save(c.checkpoint.value)] && s.stop == StoppedBy(Checkpoint, Terminate)
  {
    var evs: seq<(Event, nat)> := [(Checkpoint, t)];
    var none: seq<(Event, nat)> := [];
    assert evs[1..] == none;
    var dir := ChkptDir(c, false).value;
    var s1 := Deliver(dir, Boot, Checkpoint, t);
    assert Admissible(dir, s1, none) && Run(dir, s1, none) == s1;
  }

  // ---------------------------------------------------------------------
  // The exit-cause report (lines 263-269).

  datatype ExitReport = RoiEnd | CheckpointTaken | Unexpected(cause: string)

  function ExitReportFor(cause: string): (r: ExitReport)
    ensures r == RoiEnd <==> cause == "workend"
    ensures r == CheckpointTaken <==> cause == "checkpoint"
    ensures r.Unexpected? ==> r.cause == cause
  {
    if cause == "workend" then RoiEnd
    else if cause == "checkpoint" then CheckpointTaken
    else Unexpected(cause)
  }

  /** A run stopped by WORKEND or CHECKPOINT gets that handler's message. */
  lemma StopReported(dir: Option<string>, s: Sim, e: Event, t: nat)
    requires Enabled(s, e, t) && Deliver(dir, s, e, t).stop == StoppedBy(e, Terminate)
    ensures e == WorkEnd ==> ExitReportFor(CauseOf(e)) == RoiEnd
    ensures e == Checkpoint ==> ExitReportFor(CauseOf(e)) == CheckpointTaken
    ensures e != WorkBegin
  {
  }
}
