// The checkpointing full-system run script: flag validation, the choices the
// flags make (cache, core, readfile, checkpoint directories, which handlers
// are installed), the seven exit-event handler generators, the start-up
// scheduling after a restore, and the exit-cause report.
module RunFsCheckpoints {
  import opened Engine
  import Workload

  /** The parsed command line. */
  datatype Args = Args(
    benchmark: Option<string>,
    size: Option<string>,
    command: Option<string>,
    o3: bool,
    cores: int,
    checkpointRoi: Option<string>,
    takeCheckpoints: Option<int>,
    checkpointPath: string,
    restore: Option<string>,
    warmup: Option<int>,
    insts: Option<int>,
    initCheckpoint: Option<string>,
    startFrom: Option<string>)

  /** Any checkpoint-creating flag. */
  predicate Creates(a: Args) {
    Truthy(a.takeCheckpoints) || TruthyStr(a.checkpointRoi) || TruthyStr(a.initCheckpoint)
  }

  /** A benchmark and size, or an explicit command. */
  predicate HasWorkload(a: Args) {
    (TruthyStr(a.benchmark) && TruthyStr(a.size)) || TruthyStr(a.command)
  }

  datatype ArgError =
    | NoWorkload                  // nothing to run and neither restoring nor making the init checkpoint
    | CreationWithRestore         // a checkpoint-creating flag with --restore
    | InitWithPeriodicOrRoi       // --init-checkpoint with --take-checkpoints or --checkpoint-roi
    | InitWithStartFrom           // --init-checkpoint with --start-from
    | InstsWithoutRestore         // --insts without --restore
    | WarmupWithoutRestore        // --warmup without --restore
    | WarmupNegative              // a truthy --warmup below 0
    | InstsNotPositive            // a truthy --insts below 1
    | TakeCheckpointsNotPositive  // a truthy --take-checkpoints below 1
    | RestoreDirMissing           // the directory to restore or start from does not exist

  /** The flag combinations lines 64-97 let through, as one condition. */
  predicate Acceptable(a: Args) {
    && (HasWorkload(a) || TruthyStr(a.restore) || TruthyStr(a.initCheckpoint))
    && !(Creates(a) && TruthyStr(a.restore))
    && !(TruthyStr(a.initCheckpoint) && (Truthy(a.takeCheckpoints) || TruthyStr(a.checkpointRoi)))
    && !(TruthyStr(a.initCheckpoint) && TruthyStr(a.startFrom))
    && (Truthy(a.insts) ==> TruthyStr(a.restore))
    && (Truthy(a.warmup) ==> TruthyStr(a.restore))
    && (Truthy(a.warmup) ==> a.warmup.value >= 0)
    && (Truthy(a.insts) ==> a.insts.value >= 1)
    && (Truthy(a.takeCheckpoints) ==> a.takeCheckpoints.value >= 1)
  }

  /** What every validated flag record satisfies. */
  predicate Configured(c: Args) {
    && (HasWorkload(c) || TruthyStr(c.restore) || TruthyStr(c.initCheckpoint))
    && !(Creates(c) && TruthyStr(c.restore))
    && !(TruthyStr(c.initCheckpoint) && (Truthy(c.takeCheckpoints) || TruthyStr(c.checkpointRoi)))
    && !(TruthyStr(c.initCheckpoint) && TruthyStr(c.startFrom))
    && (Truthy(c.insts) ==> TruthyStr(c.restore) && c.insts.value >= Million)
    && (Truthy(c.warmup) ==> TruthyStr(c.restore) && c.warmup.value >= Million)
    && (Truthy(c.takeCheckpoints) ==> c.takeCheckpoints.value >= Million)
  }

  /** `if x: if x < least: exit; x *= 1000000` for one numeric flag. */
  function ScaleChecked(x: Option<int>, least: int, e: ArgError): (r: Result<Option<int>, ArgError>)
    ensures r.Err? <==> Truthy(x) && x.value < least
    ensures r.Err? ==> r.error == e
    ensures r.Ok? && Truthy(x) ==> r.value == Some(x.value * Million)
    ensures r.Ok? && !Truthy(x) ==> r.value == x
  {
    if Truthy(x) then
      if x.value < least then Err(e) else Ok(Some(x.value * Million))
    else Ok(x)
  }

  /** Lines 64-97: the checks in source order, then the scaling to instructions. */
  function Validate(a: Args): (r: Result<Args, ArgError>)
    ensures r.Ok? <==> Acceptable(a)
    ensures r.Ok? ==> Configured(r.value)
    ensures r.Ok? ==> r.value == a.(warmup := r.value.warmup, insts := r.value.insts,
                                    takeCheckpoints := r.value.takeCheckpoints)
    ensures r.Ok? ==> Truthy(r.value.warmup) == Truthy(a.warmup)
                      && Truthy(r.value.insts) == Truthy(a.insts)
                      && Truthy(r.value.takeCheckpoints) == Truthy(a.takeCheckpoints)
    ensures r.Ok? && Truthy(a.warmup) ==> r.value.warmup.value == a.warmup.value * Million
    ensures r.Ok? && Truthy(a.insts) ==> r.value.insts.value == a.insts.value * Million
    ensures r.Ok? && Truthy(a.takeCheckpoints) ==>
              r.value.takeCheckpoints.value == a.takeCheckpoints.value * Million
    ensures r == Err(NoWorkload) <==>
              !HasWorkload(a) && !TruthyStr(a.restore) && !TruthyStr(a.initCheckpoint)
    ensures Creates(a) && TruthyStr(a.restore) ==> r.Err?
  {
    if !HasWorkload(a) && !(TruthyStr(a.restore) || TruthyStr(a.initCheckpoint)) then
      Err(NoWorkload)
    else if Creates(a) && TruthyStr(a.restore) then
      Err(CreationWithRestore)
    else if TruthyStr(a.initCheckpoint) && (Truthy(a.takeCheckpoints) || TruthyStr(a.checkpointRoi)) then
      Err(InitWithPeriodicOrRoi)
    else if TruthyStr(a.initCheckpoint) && TruthyStr(a.startFrom) then
      Err(InitWithStartFrom)
    else if Truthy(a.insts) && !TruthyStr(a.restore) then
      Err(InstsWithoutRestore)
    else if Truthy(a.warmup) && !TruthyStr(a.restore) then
      Err(WarmupWithoutRestore)
    else
      var warmup :- ScaleChecked(a.warmup, 0, WarmupNegative);
      var insts :- ScaleChecked(a.insts, 1, InstsNotPositive);
      var take :- ScaleChecked(a.takeCheckpoints, 1, TakeCheckpointsNotPositive);
      Ok(a.(warmup := warmup, insts := insts, takeCheckpoints := take))
  }

  // ---------------------------------------------------------------------
  // Choices made by the flags.

  /** Lines 106-118: checkpoints are taken without caches. */
  function CacheFor(c: Args): (k: CacheKind)
    ensures k == NoCache <==> Creates(c)
  {
    if Creates(c) then NoCache else Hierarchy
  }

  /** Lines 128-139: checkpoints are taken on the atomic core. */
  function CoreFor(c: Args): (k: CoreKind)
    ensures k == Atomic <==> Creates(c)
    ensures k == O3 <==> !Creates(c) && c.o3
  {
    if Creates(c) then Atomic else if c.o3 then O3 else Timing
  }

  /** Lines 239-247: the directory checkpoints are written to, when one is made. */
  function ChkptDir(c: Args): (d: Option<string>)
    ensures d.Some? <==> Creates(c)
    ensures TruthyStr(c.initCheckpoint) ==> d == c.initCheckpoint
    ensures !TruthyStr(c.initCheckpoint) && TruthyStr(c.checkpointRoi) ==> d == c.checkpointRoi
    ensures !TruthyStr(c.initCheckpoint) && !TruthyStr(c.checkpointRoi) && Truthy(c.takeCheckpoints) ==>
              d == Some(c.checkpointPath)
  {
    if TruthyStr(c.initCheckpoint) then c.initCheckpoint
    else if TruthyStr(c.checkpointRoi) then c.checkpointRoi
    else if Truthy(c.takeCheckpoints) then Some(c.checkpointPath)
    else None
  }

  /**
   * Lines 248-256 and 275: the checkpoint the board boots from, which must
   * exist on disk (`dirExists` stands for `Path.exists()`).
   */
  function CheckpointToLoad(c: Args, dirExists: bool): (r: Result<Option<string>, ArgError>)
    ensures r.Err? <==> (TruthyStr(c.restore) || TruthyStr(c.startFrom)) && !dirExists
    ensures r.Err? ==> r.error == RestoreDirMissing
    ensures r.Ok? && TruthyStr(c.restore) ==> r.value == c.restore
    ensures r.Ok? && !TruthyStr(c.restore) && TruthyStr(c.startFrom) ==> r.value == c.startFrom
    ensures r.Ok? && !TruthyStr(c.restore) && !TruthyStr(c.startFrom) ==> r.value == None
  {
    if TruthyStr(c.restore) || TruthyStr(c.startFrom) then
      if !dirExists then Err(RestoreDirMissing)
      else Ok(if TruthyStr(c.restore) then c.restore else c.startFrom)
    else Ok(None)
  }

  /**
   * Lines 259-266: hack-back script, nothing, the explicit command, or the
   * benchmark command. The last case needs a benchmark and a size, which
   * validation guarantees whenever it is reached.
   */
  function ReadfileFor(c: Args): (r: Readfile)
    requires Configured(c)
    ensures r == HackBack <==> TruthyStr(c.initCheckpoint)
    ensures r == NoReadfile <==> !TruthyStr(c.initCheckpoint) && TruthyStr(c.restore)
    ensures r.Command? && TruthyStr(c.command) ==> r.text == c.command.value
    ensures r.Command? && !TruthyStr(c.command) ==>
              TruthyStr(c.benchmark) && TruthyStr(c.size) &&
              r.text == Workload.BenchmarkCommand(c.benchmark.value, c.size.value, c.cores)
  {
    if TruthyStr(c.initCheckpoint) then HackBack
    else if TruthyStr(c.restore) then NoReadfile
    else if TruthyStr(c.command) then Command(c.command.value)
    else Command(Workload.BenchmarkCommand(c.benchmark.value, c.size.value, c.cores))
  }

  /** Which handler table lines 343-366 install. */
  datatype Mode = Periodic | RoiCheckpoint | Restore | InitCheckpoint | Plain

  function ModeOf(c: Args): (m: Mode)
    ensures m == Periodic <==> Truthy(c.takeCheckpoints)
    ensures m == RoiCheckpoint <==> !Truthy(c.takeCheckpoints) && TruthyStr(c.checkpointRoi)
    ensures m == Restore <==>
              !Truthy(c.takeCheckpoints) && !TruthyStr(c.checkpointRoi) && TruthyStr(c.restore)
    ensures m == InitCheckpoint <==>
              !Truthy(c.takeCheckpoints) && !TruthyStr(c.checkpointRoi) && !TruthyStr(c.restore)
              && TruthyStr(c.initCheckpoint)
  {
    if Truthy(c.takeCheckpoints) then Periodic
    else if TruthyStr(c.checkpointRoi) then RoiCheckpoint
    else if TruthyStr(c.restore) then Restore
    else if TruthyStr(c.initCheckpoint) then InitCheckpoint
    else Plain
  }

  /** The exit events each table handles. */
  function Installed(m: Mode): set<Event> {
    match m
    case Periodic => {WorkBegin, WorkEnd, MaxInsts}
    case RoiCheckpoint => {WorkBegin}
    case Restore => {WorkEnd, MaxInsts}
    case InitCheckpoint => {Checkpoint}
    case Plain => {WorkBegin, WorkEnd}
  }

  /**
   * For validated flags the table is the one the flags name: restoring
   * and making the init checkpoint exclude every other mode, and every
   * checkpoint-making mode has a directory to write to.
   */
  lemma ModeOfConfigured(c: Args)
    requires Configured(c)
    ensures ModeOf(c) == Restore <==> TruthyStr(c.restore)
    ensures ModeOf(c) == InitCheckpoint <==> TruthyStr(c.initCheckpoint)
    ensures ModeOf(c) == Plain <==> !Creates(c) && !TruthyStr(c.restore)
    ensures ModeOf(c) in {Periodic, RoiCheckpoint, InitCheckpoint} <==> ChkptDir(c).Some?
    ensures MaxInsts in Installed(ModeOf(c)) <==> Truthy(c.takeCheckpoints) || TruthyStr(c.restore)
  {
  }

  /** The directory of a checkpoint-making mode. */
  function Dir(c: Args): string
    requires Creates(c)
  {
    ChkptDir(c).value
  }

  // ---------------------------------------------------------------------
  // The handler generators.

  /** The module global `start_tick` and the local `checkpoint_num` of the periodic generator. */
  datatype HState = HState(startTick: int, checkpointNum: int)

  /** Line 374, and `checkpoint_num = 1` at line 313. */
  const Fresh: HState := HState(0, 1)

  /** How many times each event's generator has been resumed. */
  datatype Progress = Progress(workBegin: nat, workEnd: nat, maxInsts: nat, checkpoint: nat)

  const NoProgress: Progress := Progress(0, 0, 0, 0)

  function Resumed(p: Progress, e: Event): nat {
    match e
    case WorkBegin => p.workBegin
    case WorkEnd => p.workEnd
    case MaxInsts => p.maxInsts
    case Checkpoint => p.checkpoint
  }

  function Bump(p: Progress, e: Event): (q: Progress)
    ensures Resumed(q, e) == Resumed(p, e) + 1
    ensures forall f :: f != e ==> Resumed(q, f) == Resumed(p, f)
  {
    match e
    case WorkBegin => p.(workBegin := p.workBegin + 1)
    case WorkEnd => p.(workEnd := p.workEnd + 1)
    case MaxInsts => p.(maxInsts := p.maxInsts + 1)
    case Checkpoint => p.(checkpoint := p.checkpoint + 1)
  }

  /** One resumption: the new state, the effects in order, and what the generator produced. */
  datatype CStep = CStep(next: HState, actions: seq<Action>, out: Outcome)

  /** A generator with a single `yield`, resumed for the `k`-th time (from 0). */
  function OneShot(k: nat, h: HState, first: CStep): (r: CStep)
    ensures k == 0 ==> r == first
    ensures k > 0 ==> r == CStep(h, [], Exhausted)
  {
    if k == 0 then first else CStep(h, [], Exhausted)
  }

  /** `workbegin_handler` (lines 279-284). */
  function WorkBeginGen(k: nat, h: HState, now: nat): (r: CStep)
    ensures k == 0 ==> r == CStep(h.(startTick := now), [ResetStats], Continue)
    ensures k > 0 ==> r.out == Exhausted && r.actions == []
  {
    OneShot(k, h, CStep(h.(startTick := now), [ResetStats], Continue))
  }

  /** `workend_handler` (lines 286-289). */
  function WorkEndGen(k: nat, h: HState): (r: CStep)
    ensures r.next == h
    ensures k == 0 ==> r.actions == [DumpStats] && r.out == Terminate
    ensures k > 0 ==> r.out == Exhausted && r.actions == []
  {
    OneShot(k, h, CStep(h, [DumpStats], Terminate))
  }

  /** `checkpoint_roibegin_handler` (lines 291-298). */
  function RoiBeginGen(k: nat, h: HState, dir: string, now: nat): (r: CStep)
    ensures k == 0 ==> r == CStep(h.(startTick := now), [ResetStats, Save(dir)], Terminate)
    ensures k > 0 ==> r.out == Exhausted && r.actions == []
  {
    OneShot(k, h, CStep(h.(startTick := now), [ResetStats, Save(dir)], Terminate))
  }

  /** `checkpoints_workbegin_handler` (lines 300-310). */
  function PeriodicBeginGen(k: nat, h: HState, dir: string, take: int, now: nat): (r: CStep)
    ensures k == 0 ==> r.out == Continue && r.next == h.(startTick := now)
    ensures k == 0 ==> r.actions == [ResetStats, Schedule(take), Save(CheckpointName(dir, now))]
    ensures k > 0 ==> r.out == Exhausted && r.actions == []
  {
    OneShot(k, h, CStep(h.(startTick := now),
                        [ResetStats, Schedule(take), Save(CheckpointName(dir, now))], Continue))
  }

  /** `checkpoints_maxinsts_handler` (lines 312-320): never finishes. */
  function PeriodicMaxInstsGen(h: HState, dir: string, take: int, now: nat): (r: CStep)
    ensures r.out == Continue
    ensures r.next == h.(checkpointNum := h.checkpointNum + 1)
    ensures r.actions == [Save(CheckpointName(dir, now)), Schedule(take)]
  {
    CStep(h.(checkpointNum := h.checkpointNum + 1),
          [Save(CheckpointName(dir, now)), Schedule(take)], Continue)
  }

  /**
   * `restore_maxinsts_handler` (lines 322-336): with a warmup, the first
   * resumption ends the warmup and the second ends the ROI; without one the
   * first resumption ends the ROI.
   */
  function RestoreMaxInstsGen(k: nat, h: HState, warmup: Option<int>, insts: Option<int>, now: nat): (r: CStep)
    ensures var warm := Truthy(warmup) && warmup.value > 0;
            && (warm && k == 0 ==>
                  && r.next == h.(startTick := now) && r.out == Continue
                  && r.actions == [ResetStats] + (if Truthy(insts) then [Schedule(insts.value)] else []))
            && ((if warm then 1 else 0) == k ==>
                  r.next == h && r.actions == [DumpStats] && r.out == Terminate)
            && ((if warm then 1 else 0) < k ==> r.out == Exhausted && r.actions == [])
  {
    if Truthy(warmup) && warmup.value > 0 then
      if k == 0 then
        CStep(h.(startTick := now),
              [ResetStats] + (if Truthy(insts) then [Schedule(insts.value)] else []), Continue)
      else OneShot(k - 1, h, CStep(h, [DumpStats], Terminate))
    else
      OneShot(k, h, CStep(h, [DumpStats], Terminate))
  }

  /** `checkpoint_handler` (lines 338-341). */
  function CheckpointGen(k: nat, h: HState, dir: string): (r: CStep)
    ensures r.next == h
    ensures k == 0 ==> r.actions == [Save(dir)] && r.out == Terminate
    ensures k > 0 ==> r.out == Exhausted && r.actions == []
  {
    OneShot(k, h, CStep(h, [Save(dir)], Terminate))
  }

  /** Dispatching event `e` through the installed table (lines 343-366). */
  function HandleStep(c: Args, h: HState, p: Progress, e: Event, now: nat): (r: CStep)
    requires Configured(c) && e in Installed(ModeOf(c))
  {
    var k := Resumed(p, e);
    match ModeOf(c)
    case Periodic =>
      (match e
       case WorkBegin => PeriodicBeginGen(k, h, Dir(c), c.takeCheckpoints.value, now)
       case WorkEnd => WorkEndGen(k, h)
       case MaxInsts => PeriodicMaxInstsGen(h, Dir(c), c.takeCheckpoints.value, now))
    case RoiCheckpoint => RoiBeginGen(k, h, Dir(c), now)
    case Restore =>
      (match e
       case WorkEnd => WorkEndGen(k, h)
       case MaxInsts => RestoreMaxInstsGen(k, h, c.warmup, c.insts, now))
    case InitCheckpoint => CheckpointGen(k, h, Dir(c))
    case Plain =>
      (match e
       case WorkBegin => WorkBeginGen(k, h, now)
       case WorkEnd => WorkEndGen(k, h))
  }

  /** Lines 378-385: what happens before `simulator.run()`. */
  function Startup(c: Args): (acts: seq<Action>)
    ensures !TruthyStr(c.restore) ==> acts == []
    ensures TruthyStr(c.restore) && Truthy(c.warmup) && c.warmup.value > 0 ==>
              acts == [Schedule(c.warmup.value)]
    ensures TruthyStr(c.restore) && !(Truthy(c.warmup) && c.warmup.value > 0) ==>
              acts == [ResetStats] + (if Truthy(c.insts) then [Schedule(c.insts.value)] else [])
  {
    if TruthyStr(c.restore) then
      if Truthy(c.warmup) && c.warmup.value > 0 then [Schedule(c.warmup.value)]
      else [ResetStats] + (if Truthy(c.insts) then [Schedule(c.insts.value)] else [])
    else []
  }

  /** The generators' state as a class; one method per generator resumption. */
  class Handlers {
    const args: Args
    var startTick: int
    var checkpointNum: int
    var progress: Progress
    ghost var trace: seq<Action>

    function State(): HState
      reads this
    {
      HState(startTick, checkpointNum)
    }

    constructor (args: Args)
      requires Configured(args)
      ensures this.args == args && State() == Fresh && progress == NoProgress && trace == []
    {
      this.args := args;
      startTick := 0;
      checkpointNum := 1;
      progress := NoProgress;
      trace := [];
    }

    method WorkBeginHandler(now: nat) returns (out: Outcome)
      modifies this`startTick, this`progress, this`trace
      ensures var r := WorkBeginGen(old(progress.workBegin), old(State()), now);
              State() == r.next && trace == old(trace) + r.actions && out == r.out
      ensures progress == Bump(old(progress), WorkBegin)
    {
      if progress.workBegin == 0 {
        trace := trace + [ResetStats];
        startTick := now;
        out := Continue;
      } else {
        out := Exhausted;
      }
      progress := Bump(progress, WorkBegin);
    }

    method WorkEndHandler() returns (out: Outcome)
      modifies this`progress, this`trace
      ensures var r := WorkEndGen(old(progress.workEnd), old(State()));
              State() == r.next && trace == old(trace) + r.actions && out == r.out
      ensures progress == Bump(old(progress), WorkEnd)
    {
      if progress.workEnd == 0 {
        trace := trace + [DumpStats];
        out := Terminate;
      } else {
        out := Exhausted;
      }
      progress := Bump(progress, WorkEnd);
    }

    method CheckpointRoiBeginHandler(dir: string, now: nat) returns (out: Outcome)
      modifies this`startTick, this`progress, this`trace
      ensures var r := RoiBeginGen(old(progress.workBegin), old(State()), dir, now);
              State() == r.next && trace == old(trace) + r.actions && out == r.out
      ensures progress == Bump(old(progress), WorkBegin)
    {
      if progress.workBegin == 0 {
        trace := trace + [ResetStats];
        startTick := now;
        trace := trace + [Save(dir)];
        out := Terminate;
      } else {
        out := Exhausted;
      }
      progress := Bump(progress, WorkBegin);
    }

    method CheckpointsWorkBeginHandler(dir: string, take: int, now: nat) returns (out: Outcome)
      modifies this`startTick, this`progress, this`trace
      ensures var r := PeriodicBeginGen(old(progress.workBegin), old(State()), dir, take, now);
              State() == r.next && trace == old(trace) + r.actions && out == r.out
      ensures progress == Bump(old(progress), WorkBegin)
    {
      if progress.workBegin == 0 {
        trace := trace + [ResetStats];
        startTick := now;
        trace := trace + [Schedule(take)];
        var checkpoint := CheckpointName(dir, now);
        trace := trace + [Save(checkpoint)];
        out := Continue;
      } else {
        out := Exhausted;
      }
      progress := Bump(progress, WorkBegin);
    }

    method CheckpointsMaxInstsHandler(dir: string, take: int, now: nat) returns (out: Outcome)
      modifies this`checkpointNum, this`progress, this`trace
      ensures var r := PeriodicMaxInstsGen(old(State()), dir, take, now);
              State() == r.next && trace == old(trace) + r.actions && out == r.out
      ensures progress == Bump(old(progress), MaxInsts)
    {
      checkpointNum := checkpointNum + 1;
      var checkpoint := CheckpointName(dir, now);
      trace := trace + [Save(checkpoint)];
      trace := trace + [Schedule(take)];
      out := Continue;
      progress := Bump(progress, MaxInsts);
    }

    method RestoreMaxInstsHandler(now: nat) returns (out: Outcome)
      modifies this`startTick, this`progress, this`trace
      ensures var r := RestoreMaxInstsGen(old(progress.maxInsts), old(State()), args.warmup, args.insts, now);
              State() == r.next && trace == old(trace) + r.actions && out == r.out
      ensures progress == Bump(old(progress), MaxInsts)
    {
      var k := progress.maxInsts;
      var warm := Truthy(args.warmup) && args.warmup.value > 0;
      if warm && k == 0 {
        trace := trace + [ResetStats];
        startTick := now;
        if Truthy(args.insts) {
          trace := trace + [Schedule(args.insts.value)];
        }
        out := Continue;
      } else if k == (if warm then 1 else 0) {
        trace := trace + [DumpStats];
        out := Terminate;
      } else {
        out := Exhausted;
      }
      progress := Bump(progress, MaxInsts);
    }

    method CheckpointHandler(dir: string) returns (out: Outcome)
      modifies this`progress, this`trace
      ensures var r := CheckpointGen(old(progress.checkpoint), old(State()), dir);
              State() == r.next && trace == old(trace) + r.actions && out == r.out
      ensures progress == Bump(old(progress), Checkpoint)
    {
      if progress.checkpoint == 0 {
        trace := trace + [Save(dir)];
        out := Terminate;
      } else {
        out := Exhausted;
      }
      progress := Bump(progress, Checkpoint);
    }

    /** The simulator looking up and resuming the generator installed for `e`. */
    method Dispatch(e: Event, now: nat) returns (out: Outcome)
      requires Configured(args) && e in Installed(ModeOf(args))
      modifies this
      ensures var r := HandleStep(args, old(State()), old(progress), e, now);
              State() == r.next && trace == old(trace) + r.actions && out == r.out
      ensures progress == Bump(old(progress), e)
    {
      match ModeOf(args) {
        case Periodic =>
          match e {
            case WorkBegin => out := CheckpointsWorkBeginHandler(Dir(args), args.takeCheckpoints.value, now);
            case WorkEnd => out := WorkEndHandler();
            case MaxInsts => out := CheckpointsMaxInstsHandler(Dir(args), args.takeCheckpoints.value, now);
          }
        case RoiCheckpoint => out := CheckpointRoiBeginHandler(Dir(args), now);
        case Restore =>
          match e {
            case WorkEnd => out := WorkEndHandler();
            case MaxInsts => out := RestoreMaxInstsHandler(now);
          }
        case InitCheckpoint => out := CheckpointHandler(Dir(args));
        case Plain =>
          match e {
            case WorkBegin => out := WorkBeginHandler(now);
            case WorkEnd => out := WorkEndHandler();
          }
      }
    }
  }

  // ---------------------------------------------------------------------
  // Runs.

  /**
   * The generators' state plus the engine's: how many MAX_INSTS events are
   * armed, whether the run has stopped and why, the current tick, every
   * effect so far, and the ticks at which a checkpoint was saved.
   */
  datatype Sim = Sim(h: HState, progress: Progress, pending: nat, stop: Stop, now: nat,
                     trace: seq<Action>, saved: seq<nat>)

  function Boot(c: Args): Sim {
    Sim(Fresh, NoProgress, Schedules(Startup(c)), Running, 0, Startup(c), [])
  }

  /** The paths of the `Save` effects in `acts`, in order. */
  function SavePaths(acts: seq<Action>): seq<string> {
    if acts == [] then []
    else (if acts[0].Save? then [acts[0].path] else []) + SavePaths(acts[1..])
  }

  lemma {:induction false} SavePathsAppend(s: seq<Action>, t: seq<Action>)
    ensures SavePaths(s + t) == SavePaths(s) + SavePaths(t)
  {
    if s == [] {
      assert s + t == t;
    } else {
      assert (s + t)[1..] == s[1..] + t;
      SavePathsAppend(s[1..], t);
    }
  }

  /** gem5 delivers `e` at `t` only to a running simulation, to an installed handler, and MAX_INSTS only when armed. */
  predicate Enabled(c: Args, s: Sim, e: Event, t: nat) {
    s.stop == Running && s.now <= t && e in Installed(ModeOf(c)) && (e == MaxInsts ==> s.pending > 0)
  }

  function Deliver(c: Args, s: Sim, e: Event, t: nat): Sim
    requires Configured(c) && Enabled(c, s, e, t)
  {
    var r := HandleStep(c, s.h, s.progress, e, t);
    Sim(r.next, Bump(s.progress, e),
        s.pending - (if e == MaxInsts then 1 else 0) + Schedules(r.actions),
        if r.out == Continue then Running else StoppedBy(e, r.out),
        t, s.trace + r.actions,
        s.saved + (if SavePaths(r.actions) != [] then [t] else []))
  }

  predicate Admissible(c: Args, s: Sim, evs: seq<(Event, nat)>)
    requires Configured(c)
    decreases |evs|
  {
    evs == [] ||
    (Enabled(c, s, evs[0].0, evs[0].1) && Admissible(c, Deliver(c, s, evs[0].0, evs[0].1), evs[1..]))
  }

  function Run(c: Args, s: Sim, evs: seq<(Event, nat)>): Sim
    requires Configured(c) && Admissible(c, s, evs)
    decreases |evs|
  {
    if evs == [] then s else Run(c, Deliver(c, s, evs[0].0, evs[0].1), evs[1..])
  }

  // Restoring from a checkpoint.

  /** Whether a restored run warms up before its ROI. */
  predicate Warm(c: Args) {
    Truthy(c.warmup) && c.warmup.value > 0
  }

  /** The invariant of a restored run. */
  predicate RestoreInv(c: Args, s: Sim) {
    && Count(s.trace, ResetStats) == (if Warm(c) && s.progress.maxInsts == 0 then 0 else 1)
    && Count(s.trace, DumpStats) == (if s.stop.StoppedBy? then 1 else 0)
    && (s.stop == Running ==>
          s.progress.workEnd == 0 && s.progress.maxInsts <= (if Warm(c) then 1 else 0))
    && (s.stop.StoppedBy? ==> s.stop.out == Terminate)
    && (s.stop == StoppedBy(MaxInsts, Terminate) ==> s.progress.maxInsts == (if Warm(c) then 2 else 1))
  }

  lemma RestoreBoot(c: Args)
    requires Configured(c) && ModeOf(c) == Restore
    ensures RestoreInv(c, Boot(c))
  {
    var acts := Startup(c);
    if Warm(c) {
      assert acts == [Schedule(c.warmup.value)];
    } else {
      var tail := if Truthy(c.insts) then [Schedule(c.insts.value)] else [];
      assert acts == [ResetStats] + tail;
      CountAppend([ResetStats], tail, ResetStats);
      CountAppend([ResetStats], tail, DumpStats);
    }
  }

  lemma RestoreDeliver(c: Args, s: Sim, e: Event, t: nat)
    requires Configured(c) && ModeOf(c) == Restore && Enabled(c, s, e, t) && RestoreInv(c, s)
    ensures RestoreInv(c, Deliver(c, s, e, t))
  {
    var r := HandleStep(c, s.h, s.progress, e, t);
    CountAppend(s.trace, r.actions, ResetStats);
    CountAppend(s.trace, r.actions, DumpStats);
    if e == MaxInsts && Warm(c) && s.progress.maxInsts == 0 {
      var tail := if Truthy(c.insts) then [Schedule(c.insts.value)] else [];
      assert r.actions == [ResetStats] + tail;
      CountAppend([ResetStats], tail, ResetStats);
      CountAppend([ResetStats], tail, DumpStats);
    }
  }

  lemma {:induction false} RestoreRunFrom(c: Args, s: Sim, evs: seq<(Event, nat)>)
    requires Configured(c) && ModeOf(c) == Restore && RestoreInv(c, s) && Admissible(c, s, evs)
    ensures RestoreInv(c, Run(c, s, evs))
    decreases |evs|
  {
    if evs != [] {
      RestoreDeliver(c, s, evs[0].0, evs[0].1);
      RestoreRunFrom(c, Deliver(c, s, evs[0].0, evs[0].1), evs[1..]);
    }
  }

  /**
   * A restored run resets and dumps the stats at most once each, never
   * resumes an exhausted generator, and when it ends on MAX_INSTS it has
   * reset the stats exactly once and dumped them exactly once.
   */
  lemma RestoreRun(c: Args, evs: seq<(Event, nat)>)
    requires Configured(c) && ModeOf(c) == Restore && Admissible(c, Boot(c), evs)
    ensures var s := Run(c, Boot(c), evs);
            && Count(s.trace, ResetStats) <= 1 && Count(s.trace, DumpStats) <= 1
            && s.stop != StoppedBy(WorkEnd, Exhausted) && s.stop != StoppedBy(MaxInsts, Exhausted)
            && (s.stop == StoppedBy(MaxInsts, Terminate) ==>
                  Count(s.trace, ResetStats) == 1 && Count(s.trace, DumpStats) == 1)
  {
    RestoreBoot(c);
    RestoreRunFrom(c, Boot(c), evs);
  }

  // Periodic checkpoints.

  predicate Increasing(ts: seq<nat>) {
    forall i, j :: 0 <= i < j < |ts| ==> ts[i] < ts[j]
  }

  function NamesAt(dir: string, ts: seq<nat>): (r: seq<string>)
    ensures |r| == |ts|
    ensures forall i :: 0 <= i < |ts| ==> r[i] == CheckpointName(dir, ts[i])
  {
    if ts == [] then [] else NamesAt(dir, ts[..|ts| - 1]) + [CheckpointName(dir, ts[|ts| - 1])]
  }

  lemma NamesDistinct(dir: string, ts: seq<nat>)
    requires Increasing(ts)
    ensures forall i, j :: 0 <= i < j < |ts| ==> NamesAt(dir, ts)[i] != NamesAt(dir, ts)[j]
  {
    forall i, j | 0 <= i < j < |ts|
      ensures NamesAt(dir, ts)[i] != NamesAt(dir, ts)[j]
    {
      CheckpointNamesDistinct(dir, ts[i], ts[j]);
    }
  }

  /** The invariant of a periodic-checkpoint run. */
  predicate PeriodicInv(c: Args, s: Sim)
    requires Creates(c)
  {
    && SavePaths(s.trace) == NamesAt(Dir(c), s.saved)
    && Increasing(s.saved)
    && s.h.checkpointNum == 1 + s.progress.maxInsts
    && (s.stop.StoppedBy? ==> s.stop.event != MaxInsts)
  }

  /** Every delivery in `evs` comes after every checkpoint already saved, and ticks strictly increase. */
  predicate Later(s: Sim, evs: seq<(Event, nat)>) {
    && (forall i, j :: 0 <= i < j < |evs| ==> evs[i].1 < evs[j].1)
    && (forall k, i :: 0 <= k < |s.saved| && 0 <= i < |evs| ==> s.saved[k] < evs[i].1)
  }

  /** A periodic-mode handler saves at most one checkpoint, named after the current tick. */
  lemma PeriodicSaves(c: Args, s: Sim, e: Event, t: nat)
    requires Configured(c) && ModeOf(c) == Periodic && Enabled(c, s, e, t)
    ensures var r := HandleStep(c, s.h, s.progress, e, t);
            SavePaths(r.actions) == [] || SavePaths(r.actions) == [CheckpointName(Dir(c), t)]
  {
    var r := HandleStep(c, s.h, s.progress, e, t);
    var name := CheckpointName(Dir(c), t);
    var take := c.takeCheckpoints.value;
    if e == WorkBegin && s.progress.workBegin == 0 {
      assert r.actions == [ResetStats, Schedule(take), Save(name)];
      assert r.actions[1..] == [Schedule(take), Save(name)];
      assert r.actions[1..][1..] == [Save(name)];
      assert [Save(name)][1..] == [];
      assert SavePaths([Save(name)]) == [name];
      assert SavePaths([Schedule(take), Save(name)]) == [name];
    } else if e == MaxInsts {
      assert r.actions == [Save(name), Schedule(take)];
      assert r.actions[1..] == [Schedule(take)];
      assert [Schedule(take)][1..] == [];
      assert SavePaths([Schedule(take)]) == [];
    } else if e == WorkEnd && s.progress.workEnd == 0 {
      assert r.actions == [DumpStats];
      assert r.actions[1..] == [];
    }
  }

  lemma PeriodicDeliver(c: Args, s: Sim, e: Event, t: nat)
    requires Configured(c) && ModeOf(c) == Periodic && Enabled(c, s, e, t) && PeriodicInv(c, s)
    requires forall k :: 0 <= k < |s.saved| ==> s.saved[k] < t
    ensures PeriodicInv(c, Deliver(c, s, e, t))
  {
    var r := HandleStep(c, s.h, s.progress, e, t);
    SavePathsAppend(s.trace, r.actions);
    PeriodicSaves(c, s, e, t);
    var s' := Deliver(c, s, e, t);
    if SavePaths(r.actions) != [] {
      assert s'.saved == s.saved + [t];
      assert s'.saved[..|s'.saved| - 1] == s.saved;
    } else {
      assert s'.saved == s.saved;
    }
  }

  lemma {:induction false} PeriodicRunFrom(c: Args, s: Sim, evs: seq<(Event, nat)>)
    requires Configured(c) && ModeOf(c) == Periodic && PeriodicInv(c, s)
    requires Admissible(c, s, evs) && Later(s, evs)
    ensures PeriodicInv(c, Run(c, s, evs))
    decreases |evs|
  {
    if evs != [] {
      PeriodicDeliver(c, s, evs[0].0, evs[0].1);
      var s' := Deliver(c, s, evs[0].0, evs[0].1);
      assert forall k :: 0 <= k < |s'.saved| ==> s'.saved[k] < evs[0].1 || s'.saved[k] == evs[0].1;
      PeriodicRunFrom(c, s', evs[1..]);
    }
  }

  /**
   * In a periodic-checkpoint run with strictly increasing ticks, every
   * checkpoint is written to its own path "chkpt.<tick>" in the checkpoint
   * directory, `checkpoint_num` counts the checkpoints after the first, and
   * MAX_INSTS never stops the run.
   */
  lemma PeriodicRun(c: Args, evs: seq<(Event, nat)>)
    requires Configured(c) && ModeOf(c) == Periodic
    requires Admissible(c, Boot(c), evs)
    requires forall i, j :: 0 <= i < j < |evs| ==> evs[i].1 < evs[j].1
    ensures var s := Run(c, Boot(c), evs);
            && (forall i, j :: 0 <= i < j < |SavePaths(s.trace)| ==>
                  SavePaths(s.trace)[i] != SavePaths(s.trace)[j])
            && s.h.checkpointNum == 1 + s.progress.maxInsts
            && (s.stop.StoppedBy? ==> s.stop.event != MaxInsts)
  {
    assert Startup(c) == [];
    PeriodicRunFrom(c, Boot(c), evs);
    var s := Run(c, Boot(c), evs);
    NamesDistinct(Dir(c), s.saved);
  }

  // ---------------------------------------------------------------------
  // The exit-cause report (lines 390-400).

  datatype ExitReport = RoiEnd | InstsReached | BootCheckpoint | RoiStartCheckpoint | Unexpected(cause: string)

  function ExitReportFor(cause: string): (r: ExitReport)
    ensures r == RoiEnd <==> cause == "workend"
    ensures r == InstsReached <==> cause == MaxInstsCause
    ensures r == BootCheckpoint <==> cause == "checkpoint"
    ensures r == RoiStartCheckpoint <==> cause == "workbegin"
    ensures r.Unexpected? <==> cause !in {"workend", MaxInstsCause, "checkpoint", "workbegin"}
    ensures r.Unexpected? ==> r.cause == cause
  {
    if cause == "workend" then RoiEnd
    else if cause == MaxInstsCause then InstsReached
    else if cause == "checkpoint" then BootCheckpoint
    else if cause == "workbegin" then RoiStartCheckpoint
    else Unexpected(cause)
  }

  /** A run ended by one of the installed handlers is reported with that handler's dedicated message. */
  lemma StopReported(c: Args, s: Sim, e: Event, t: nat)
    requires Configured(c) && Enabled(c, s, e, t)
    requires Deliver(c, s, e, t).stop == StoppedBy(e, Terminate)
    ensures e == WorkEnd ==> ExitReportFor(CauseOf(e)) == RoiEnd
    ensures e == MaxInsts ==> ModeOf(c) == Restore && ExitReportFor(CauseOf(e)) == InstsReached
    ensures e == Checkpoint ==> ModeOf(c) == InitCheckpoint && ExitReportFor(CauseOf(e)) == BootCheckpoint
    ensures e == WorkBegin ==> ModeOf(c) == RoiCheckpoint && ExitReportFor(CauseOf(e)) == RoiStartCheckpoint
  {
  }
}
