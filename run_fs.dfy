// The sampling orchestrator of the full-system run script: argument
// validation, the WORKBEGIN / WORKEND / MAX_INSTS exit-event handlers that
// walk the run through NO_WORK, FF_INIT, FF_WORK, WARMUP and ROI, and the
// classification of the final exit cause.
//
// Each handler is a generator that updates four module globals; here the
// globals are the fields of `Orchestrator`, one method per handler
// resumption, and each method is tied to a pure step function. `Sim` adds
// what the engine knows (which core is active, how many MAX_INSTS events are
// armed, whether the run was told to stop), and the invariant lemmas are
// stated over runs of that model.
module RunFs {
  import opened Engine

  /** The parsed command line (only the fields the orchestration reads). */
  datatype Args = Args(
    sample: bool,
    ffInterval: Option<int>,
    warmupInterval: Option<int>,
    roiInterval: Option<int>,
    maxRois: Option<int>,
    continueSim: bool,
    initFf: Option<int>)

  datatype ArgError =
    | MissingIntervals          // --sample without all three positional intervals
    | MaxRoisNotPositive        // a truthy --max_rois below 1
    | ContinueWithoutMaxRois    // --continue without a truthy --max_rois
    | IntervalWithoutSample     // a truthy ff_interval without --sample
    | SampleFlagsWithoutSample  // --max_rois or --continue without --sample
    | InitFfNotPositive         // a truthy --init_ff below 1

  /** The argument combinations the script lets through, read as one condition. */
  predicate Acceptable(a: Args) {
    && (a.sample ==>
          && a.ffInterval.Some? && a.warmupInterval.Some? && a.roiInterval.Some?
          && (Truthy(a.maxRois) ==> a.maxRois.value >= 1)
          && (!Truthy(a.maxRois) ==> !a.continueSim))
    && (!a.sample ==> !Truthy(a.ffInterval) && !Truthy(a.maxRois) && !a.continueSim)
    && (Truthy(a.initFf) ==> a.initFf.value >= 1)
  }

  /** What every validated argument record satisfies; the handlers rely on it. */
  predicate Configured(c: Args) {
    && (c.sample ==> c.ffInterval.Some? && c.warmupInterval.Some? && c.roiInterval.Some?)
    && (Truthy(c.maxRois) ==> c.sample && c.maxRois.value >= 1)
    && (c.continueSim ==> c.sample && Truthy(c.maxRois))
    && (Truthy(c.initFf) ==> c.initFf.value >= Million)
  }

  /** `x *= 1000000` on a present argument. */
  function Scaled(x: Option<int>): (r: Option<int>)
    ensures r.Some? <==> x.Some?
    ensures r.Some? ==> r.value == x.value * Million
  {
    match x
    case None => None
    case Some(v) => Some(v * Million)
  }

  /**
   * Lines 47-73: the checks in source order; the first failing one is the
   * error, otherwise the arguments come back with the intervals scaled.
   */
  function Validate(a: Args): (r: Result<Args, ArgError>)
    ensures r.Ok? <==> Acceptable(a)
    ensures r.Ok? ==> Configured(r.value)
    ensures r.Ok? ==> r.value.sample == a.sample && r.value.maxRois == a.maxRois
                      && r.value.continueSim == a.continueSim
    ensures r.Ok? && a.sample ==>
              && r.value.ffInterval == Scaled(a.ffInterval)
              && r.value.warmupInterval == Scaled(a.warmupInterval)
              && r.value.roiInterval == Scaled(a.roiInterval)
    ensures r.Ok? && !a.sample ==>
              && r.value.ffInterval == a.ffInterval
              && r.value.warmupInterval == a.warmupInterval
              && r.value.roiInterval == a.roiInterval
    ensures r.Ok? ==> r.value.initFf == (if Truthy(a.initFf) then Scaled(a.initFf) else a.initFf)
    ensures r == Err(MissingIntervals) <==>
              a.sample && (a.ffInterval.None? || a.warmupInterval.None? || a.roiInterval.None?)
    ensures r == Err(InitFfNotPositive) ==> Truthy(a.initFf) && a.initFf.value < 1
    ensures Truthy(a.maxRois) && a.maxRois.value < 1 ==> r.Err?
  {
    var sampled :-
      if a.sample then
        if a.ffInterval.None? || a.warmupInterval.None? || a.roiInterval.None? then
          Err(MissingIntervals)
        else if Truthy(a.maxRois) && a.maxRois.value < 1 then
          Err(MaxRoisNotPositive)
        else if !Truthy(a.maxRois) && a.continueSim then
          Err(ContinueWithoutMaxRois)
        else
          Ok(a.(ffInterval := Scaled(a.ffInterval),
                warmupInterval := Scaled(a.warmupInterval),
                roiInterval := Scaled(a.roiInterval)))
      else if Truthy(a.ffInterval) then
        Err(IntervalWithoutSample)
      else if Truthy(a.maxRois) || a.continueSim then
        Err(SampleFlagsWithoutSample)
      else
        Ok(a);
    if Truthy(sampled.initFf) then
      if sampled.initFf.value < 1 then Err(InitFfNotPositive)
      else Ok(sampled.(initFf := Scaled(sampled.initFf)))
    else
      Ok(sampled)
  }

  /** `class Interval` at lines 183-188. */
  datatype Interval = NoWork | FfInit | FfWork | Warmup | Roi

  /** The module globals `current_interval`, `completed_rois`, `total_ticks`, `start_tick`. */
  datatype Globals = Globals(interval: Interval, completedRois: int, totalTicks: int, startTick: int)

  /** One handler resumption: the new globals, the effects in order, and the yielded value. */
  datatype Step = Step(next: Globals, actions: seq<Action>, stop: bool)

  /** The globals when `simulator.run()` starts (lines 318-321). */
  const Start: Globals := Globals(NoWork, 0, 0, 0)

  /** One resumption of `workbegin_handler`. */
  function WorkBeginStep(c: Args, g: Globals, now: int): (r: Step)
    requires Configured(c)
    ensures r.next.completedRois == 0 && !r.stop && r.next.totalTicks == g.totalTicks
    ensures r.next.interval ==
              if Truthy(c.initFf) then FfInit else if c.sample then FfWork else Roi
    ensures Count(r.actions, Switch) == (if r.next.interval == Roi then 1 else 0)
    ensures r.next.interval == FfInit ==> r.actions == [Schedule(c.initFf.value)]
    ensures r.next.interval == FfWork ==> r.actions == [Schedule(c.ffInterval.value)]
    ensures r.next.interval == Roi ==> r.actions == [Switch, ResetStats] && r.next.startTick == now
    ensures r.next.interval != Roi ==> r.next.startTick == g.startTick
  {
    var g0 := g.(completedRois := 0);
    if Truthy(c.initFf) then
      Step(g0.(interval := FfInit), [Schedule(c.initFf.value)], false)
    else if c.sample then
      Step(g0.(interval := FfWork), [Schedule(c.ffInterval.value)], false)
    else
      Step(g0.(interval := Roi, startTick := now), [Switch, ResetStats], false)
  }

  /** The globals after closing the current ROI at tick `now`. */
  function CloseRoi(g: Globals, now: int): (r: Globals)
    ensures r.completedRois == g.completedRois + 1
    ensures r.totalTicks - g.totalTicks == now - g.startTick
    ensures r.interval == g.interval && r.startTick == g.startTick
  {
    g.(totalTicks := g.totalTicks + (now - g.startTick), completedRois := g.completedRois + 1)
  }

  /** One resumption of `workend_handler`. */
  function WorkEndStep(g: Globals, now: int): (r: Step)
    ensures r.next.interval == NoWork && !r.stop && r.next.startTick == g.startTick
    ensures Count(r.actions, ResetStats) == 1 && r.actions[|r.actions| - 1] == ResetStats
    ensures Count(r.actions, DumpStats) == (if g.interval == Roi then 1 else 0)
    ensures Count(r.actions, Switch) == (if g.interval in {Roi, Warmup} then 1 else 0)
    ensures Schedules(r.actions) == 0
    ensures g.interval == Roi ==> r.next == CloseRoi(g, now).(interval := NoWork)
    ensures g.interval != Roi ==> r.next == g.(interval := NoWork)
  {
    var inRoi := g.interval == Roi;
    var closed := if inRoi then CloseRoi(g, now) else g;
    var actions := (if inRoi then [DumpStats] else [])
                   + (if g.interval in {Roi, Warmup} then [Switch] else [])
                   + [ResetStats];
    Step(closed.(interval := NoWork), actions, false)
  }

  /** Whether the ROI cap `--max_rois` has been reached by `completed` ROIs. */
  predicate CapReached(c: Args, completed: int) {
    Truthy(c.maxRois) && completed >= c.maxRois.value
  }

  /**
   * One resumption of `maxinsts_handler`. The intervals it schedules exist
   * in sample mode; outside sample mode the only MAX_INSTS event armed is
   * the one ending FF_INIT, which the requires states.
   */
  function MaxInstsStep(c: Args, g: Globals, now: int): (r: Step)
    requires Configured(c)
    requires !c.sample ==> g.interval in {NoWork, FfInit}
    ensures r.stop ==> g.interval == Roi && CapReached(c, r.next.completedRois) && !c.continueSim
    ensures g.interval == Roi ==>
              && r.next == CloseRoi(g, now).(interval := FfWork)
              && |r.actions| >= 2 && r.actions[..2] == [DumpStats, Switch]
              && (r.stop <==> CapReached(c, r.next.completedRois) && !c.continueSim)
              && (CapReached(c, r.next.completedRois) ==> Schedules(r.actions) == 0)
              && (!CapReached(c, r.next.completedRois) ==>
                    r.actions == [DumpStats, Switch, Schedule(c.ffInterval.value)])
              && (r.stop ==> r.actions == [DumpStats, Switch, ResetStats])
              && (CapReached(c, r.next.completedRois) && c.continueSim ==>
                    r.actions == [DumpStats, Switch])
    ensures g.interval == Warmup ==>
              && r.next == g.(interval := Roi, startTick := now)
              && r.actions == [ResetStats, Schedule(c.roiInterval.value)] && !r.stop
    ensures g.interval == FfWork ==>
              && r.next == g.(interval := Warmup)
              && r.actions == [Switch, Schedule(c.warmupInterval.value)] && !r.stop
    ensures g.interval == FfInit && c.sample ==>
              && r.next == g.(interval := FfWork)
              && r.actions == [Schedule(c.ffInterval.value)] && !r.stop
    ensures g.interval == FfInit && !c.sample ==>
              && r.next == g.(interval := Roi, startTick := now)
              && r.actions == [Switch, ResetStats] && !r.stop
    ensures g.interval == NoWork ==> r.next == g && r.actions == [] && !r.stop
  {
    match g.interval
    case Roi =>
      var closed := CloseRoi(g, now).(interval := FfWork);
      if CapReached(c, closed.completedRois) then
        if c.continueSim then Step(closed, [DumpStats, Switch], false)
        else Step(closed, [DumpStats, Switch, ResetStats], true)
      else
        Step(closed, [DumpStats, Switch, Schedule(c.ffInterval.value)], false)
    case Warmup =>
      Step(g.(interval := Roi, startTick := now), [ResetStats, Schedule(c.roiInterval.value)], false)
    case FfWork =>
      Step(g.(interval := Warmup), [Switch, Schedule(c.warmupInterval.value)], false)
    case FfInit =>
      if c.sample then Step(g.(interval := FfWork), [Schedule(c.ffInterval.value)], false)
      else Step(g.(interval := Roi, startTick := now), [Switch, ResetStats], false)
    case NoWork =>
      Step(g, [], false)
  }

  /** The handlers' globals as a class; each method is one generator resumption. */
  class Orchestrator {
    const args: Args
    var interval: Interval
    var completedRois: int
    var totalTicks: int
    var startTick: int
    /** The simulator effects issued so far, in order. */
    ghost var trace: seq<Action>

    function State(): Globals
      reads this
    {
      Globals(interval, completedRois, totalTicks, startTick)
    }

    constructor (args: Args)
      requires Configured(args)
      ensures this.args == args && State() == Start && trace == []
    {
      this.args := args;
      interval := NoWork;
      completedRois := 0;
      totalTicks := 0;
      startTick := 0;
      trace := [];
    }

    method WorkBeginHandler(now: int) returns (stop: bool)
      requires Configured(args)
      modifies this
      ensures var r := WorkBeginStep(args, old(State()), now);
              State() == r.next && trace == old(trace) + r.actions && stop == r.stop
    {
      completedRois := 0;
      if Truthy(args.initFf) {
        interval := FfInit;
        trace := trace + [Schedule(args.initFf.value)];
      } else if args.sample {
        interval := FfWork;
        trace := trace + [Schedule(args.ffInterval.value)];
      } else {
        interval := Roi;
        trace := trace + [Switch, ResetStats];
        startTick := now;
      }
      stop := false;
    }

    method WorkEndHandler(now: int) returns (stop: bool)
      modifies this
      ensures var r := WorkEndStep(old(State()), now);
              State() == r.next && trace == old(trace) + r.actions && stop == r.stop
    {
      ghost var before := trace;
      var dumped := interval == Roi;
      if interval == Roi {
        trace := trace + [DumpStats];
        totalTicks := totalTicks + (now - startTick);
        completedRois := completedRois + 1;
      }
      var switched := interval == Roi || interval == Warmup;
      if switched {
        trace := trace + [Switch];
      }
      trace := trace + [ResetStats];
      interval := NoWork;
      stop := false;
      assert trace == before + ((if dumped then [DumpStats] else [])
                                + (if switched then [Switch] else []) + [ResetStats]);
    }

    method MaxInstsHandler(now: int) returns (stop: bool)
      requires Configured(args)
      requires !args.sample ==> interval in {NoWork, FfInit}
      modifies this
      ensures var r := MaxInstsStep(args, old(State()), now);
              State() == r.next && trace == old(trace) + r.actions && stop == r.stop
    {
      stop := false;
      if interval == Roi {
        trace := trace + [DumpStats];
        totalTicks := totalTicks + (now - startTick);
        completedRois := completedRois + 1;
        trace := trace + [Switch];
        interval := FfWork;
        if Truthy(args.maxRois) && completedRois >= args.maxRois.value {
          if !args.continueSim {
            trace := trace + [ResetStats];
            stop := true;
          }
        } else {
          trace := trace + [Schedule(args.ffInterval.value)];
        }
      } else if interval == Warmup {
        trace := trace + [ResetStats];
        startTick := now;
        interval := Roi;
        trace := trace + [Schedule(args.roiInterval.value)];
      } else if interval == FfWork {
        trace := trace + [Switch];
        interval := Warmup;
        trace := trace + [Schedule(args.warmupInterval.value)];
      } else if interval == FfInit {
        if args.sample {
          interval := FfWork;
          trace := trace + [Schedule(args.ffInterval.value)];
        } else {
          interval := Roi;
          trace := trace + [Switch, ResetStats];
          startTick := now;
        }
      }
    }
  }

  // ---------------------------------------------------------------------
  // The run as the engine sees it.

  /**
   * The handlers' globals plus the engine state they act on: whether the
   * switched-to (timing) core is active, how many MAX_INSTS events are
   * armed, whether a handler yielded True, and the current tick.
   */
  datatype Sim = Sim(g: Globals, switched: bool, pending: nat, halted: bool, now: int)

  const Boot: Sim := Sim(Start, false, 0, false, 0)

  /**
   * When gem5 can deliver event `e` at tick `t`: the run has not been
   * stopped, time does not go backwards, MAX_INSTS fires only when armed,
   * and (one benchmark region per run) WORKBEGIN comes outside the
   * benchmark with nothing armed. No CHECKPOINT handler is installed.
   */
  predicate Enabled(s: Sim, e: Event, t: int) {
    && !s.halted && s.now <= t
    && match e
       case WorkBegin => s.g.interval == NoWork && s.pending == 0
       case WorkEnd => true
       case MaxInsts => s.pending > 0
       case Checkpoint => false
  }

  /** The invariant of every reachable state. */
  predicate Inv(c: Args, s: Sim) {
    && 0 <= s.g.completedRois && 0 <= s.g.totalTicks
    && s.g.startTick <= s.now && s.pending <= 1
    // every processor.switch() is an edge into or out of {WARMUP, ROI}
    && (s.switched <==> s.g.interval in {Warmup, Roi})
    // without --sample only FF_INIT arms an event
    && (!c.sample ==> s.g.interval in {NoWork, FfInit, Roi})
    && (!c.sample && s.g.interval == Roi ==> s.pending == 0)
    // the ROI cap
    && (Truthy(c.maxRois) ==>
          && s.g.completedRois <= c.maxRois.value
          && (s.g.interval in {FfInit, Warmup, Roi} ==> s.g.completedRois < c.maxRois.value)
          && (s.g.interval == FfWork && s.pending > 0 ==> s.g.completedRois < c.maxRois.value))
  }

  function Handle(c: Args, s: Sim, e: Event, t: int): (r: Step)
    requires Configured(c) && Inv(c, s) && Enabled(s, e, t)
  {
    match e
    case WorkBegin => WorkBeginStep(c, s.g, t)
    case WorkEnd => WorkEndStep(s.g, t)
    case MaxInsts => MaxInstsStep(c, s.g, t)
  }

  /** Delivering one event: run its handler and apply the effects to the engine state. */
  function Deliver(c: Args, s: Sim, e: Event, t: int): Sim
    requires Configured(c) && Inv(c, s) && Enabled(s, e, t)
  {
    var r := Handle(c, s, e, t);
    Sim(r.next,
        if Count(r.actions, Switch) % 2 == 1 then !s.switched else s.switched,
        s.pending - (if e == MaxInsts then 1 else 0) + Schedules(r.actions),
        r.stop,
        t)
  }

  lemma BootInv(c: Args)
    requires Configured(c)
    ensures Inv(c, Boot)
  {
  }

  /** One delivered event keeps the invariant, and never lowers `total_ticks`. */
  lemma DeliverInv(c: Args, s: Sim, e: Event, t: int)
    requires Configured(c) && Inv(c, s) && Enabled(s, e, t)
    ensures Inv(c, Deliver(c, s, e, t))
    ensures Deliver(c, s, e, t).g.totalTicks >= s.g.totalTicks
  {
    match e
    case WorkBegin => WorkBeginInv(c, s, t);
    case WorkEnd => WorkEndInv(c, s, t);
    case MaxInsts => MaxInstsInv(c, s, t);
  }

  /** `DeliverInv` for a WORK_BEGIN event. */
  lemma WorkBeginInv(c: Args, s: Sim, t: int)
    requires Configured(c) && Inv(c, s) && Enabled(s, WorkBegin, t)
    ensures Inv(c, Deliver(c, s, WorkBegin, t))
    ensures Deliver(c, s, WorkBegin, t).g.totalTicks >= s.g.totalTicks
  {
  }

  /** `DeliverInv` for a WORK_END event. */
  lemma WorkEndInv(c: Args, s: Sim, t: int)
    requires Configured(c) && Inv(c, s) && Enabled(s, WorkEnd, t)
    ensures Inv(c, Deliver(c, s, WorkEnd, t))
    ensures Deliver(c, s, WorkEnd, t).g.totalTicks >= s.g.totalTicks
  {
  }

  /** `DeliverInv` for a MAX_INSTS event. */
  lemma MaxInstsInv(c: Args, s: Sim, t: int)
    requires Configured(c) && Inv(c, s) && Enabled(s, MaxInsts, t)
    ensures Inv(c, Deliver(c, s, MaxInsts, t))
    ensures Deliver(c, s, MaxInsts, t).g.totalTicks >= s.g.totalTicks
  {
    if s.g.interval == Roi {
      RoiEndInv(c, s, t);
    }
  }

  /** MAX_INSTS closing an ROI switches once and arms at most the next fast-forward. */
  lemma RoiEndInv(c: Args, s: Sim, t: int)
    requires Configured(c) && Inv(c, s) && Enabled(s, MaxInsts, t) && s.g.interval == Roi
    ensures Inv(c, Deliver(c, s, MaxInsts, t))
    ensures Deliver(c, s, MaxInsts, t).g.totalTicks >= s.g.totalTicks
  {
    var r := MaxInstsStep(c, s.g, t);
    var closed := CloseRoi(s.g, t).(interval := FfWork);
    if !CapReached(c, closed.completedRois) {
      var arm := Schedule(c.ffInterval.value);
      assert r.actions == [DumpStats, Switch, arm];
      assert r.actions[1..] == [Switch, arm] && [Switch, arm][1..] == [arm] && [arm][1..] == [];
      assert Schedules([arm]) == 1;
      assert Schedules([Switch, arm]) == 1;
    } else if c.continueSim {
      assert r.actions == [DumpStats, Switch];
    } else {
      assert r.actions == [DumpStats, Switch, ResetStats];
    }
    assert Count(r.actions, Switch) == 1;
  }

  /** Whether gem5 can deliver the timed events `evs` one after another from `s`. */
  predicate Admissible(c: Args, s: Sim, evs: seq<(Event, int)>)
    requires Configured(c) && Inv(c, s)
    decreases |evs|
  {
    evs == [] ||
    (Enabled(s, evs[0].0, evs[0].1) &&
     (DeliverInv(c, s, evs[0].0, evs[0].1);
      Admissible(c, Deliver(c, s, evs[0].0, evs[0].1), evs[1..])))
  }

  /** The state after delivering the admissible events `evs`. */
  function Run(c: Args, s: Sim, evs: seq<(Event, int)>): Sim
    requires Configured(c) && Inv(c, s) && Admissible(c, s, evs)
    decreases |evs|
  {
    if evs == [] then s
    else
      DeliverInv(c, s, evs[0].0, evs[0].1);
      Run(c, Deliver(c, s, evs[0].0, evs[0].1), evs[1..])
  }

  /**
   * Every state a run reaches satisfies the invariant (so the timing core is
   * active exactly in WARMUP and ROI, and `completed_rois` never exceeds
   * `--max_rois`), and `total_ticks` never decreases.
   */
  lemma {:induction false} RunInv(c: Args, s: Sim, evs: seq<(Event, int)>)
    requires Configured(c) && Inv(c, s) && Admissible(c, s, evs)
    ensures Inv(c, Run(c, s, evs))
    ensures Run(c, s, evs).g.totalTicks >= s.g.totalTicks
    ensures Truthy(c.maxRois) ==> Run(c, s, evs).g.completedRois <= c.maxRois.value
    ensures Run(c, s, evs).switched <==> Run(c, s, evs).g.interval in {Warmup, Roi}
    decreases |evs|
  {
    if evs != [] {
      DeliverInv(c, s, evs[0].0, evs[0].1);
      RunInv(c, Deliver(c, s, evs[0].0, evs[0].1), evs[1..]);
    }
  }

  /** From the start of simulation the same holds, and `total_ticks` is never negative. */
  lemma RunFromBoot(c: Args, evs: seq<(Event, int)>)
    requires Configured(c)
    requires (BootInv(c); Admissible(c, Boot, evs))
    ensures (BootInv(c); Inv(c, Run(c, Boot, evs)))
    ensures (BootInv(c); Run(c, Boot, evs).g.totalTicks >= 0)
  {
    BootInv(c);
    RunInv(c, Boot, evs);
  }

  // ---------------------------------------------------------------------
  // The exit-cause report after simulator.run() returns (lines 325-331).

  const M5ExitCause: string := "m5_exit instruction encountered"

  datatype ExitReport = M5Exit | MaxRoisMet | Unexpected(cause: string)

  function ExitReportFor(c: Args, cause: string): (r: ExitReport)
    ensures r == M5Exit <==> cause == M5ExitCause
    ensures r == MaxRoisMet <==>
              cause == MaxInstsCause && Truthy(c.maxRois) && !c.continueSim
    ensures r.Unexpected? ==> r.cause == cause
  {
    if cause == M5ExitCause then M5Exit
    else if Truthy(c.maxRois) && !c.continueSim && cause == MaxInstsCause then MaxRoisMet
    else Unexpected(cause)
  }

  /**
   * The only handler that stops the run is MAX_INSTS at the end of the
   * ROI that reaches the cap, so a run the orchestrator stopped is always
   * reported as "max_rois met".
   */
  lemma HaltReported(c: Args, s: Sim, e: Event, t: int)
    requires Configured(c) && Inv(c, s) && Enabled(s, e, t)
    requires Deliver(c, s, e, t).halted
    ensures e == MaxInsts && s.g.interval == Roi
    ensures Truthy(c.maxRois) && Deliver(c, s, e, t).g.completedRois == c.maxRois.value
    ensures ExitReportFor(c, MaxInstsCause) == MaxRoisMet
  {
  }
}
