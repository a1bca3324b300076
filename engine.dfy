// Vocabulary shared by the three full-system run scripts: the simulator
// effects a handler can request, the exit events gem5 delivers, the value a
// handler generator yields, Python truthiness of optional command-line
// arguments, and the decimal rendering of a tick count used in checkpoint
// directory names.
module Engine {

  datatype Option<T> = None | Some(value: T)

  datatype Result<T, E> = Ok(value: T) | Err(error: E) {
    predicate IsFailure() { Err? }
    function PropagateFailure<U>(): Result<U, E> requires Err? { Err(error) }
    function Extract(): T requires Ok? { value }
  }

  /** An effect on the simulator, recorded instead of performed. */
  datatype Action =
    | Switch                 // processor.switch()
    | ResetStats             // m5.stats.reset()
    | DumpStats              // m5.stats.dump()
    | Schedule(insts: int)   // simulator.schedule_max_insts(insts)
    | Save(path: string)     // simulator.save_checkpoint(path)

  /** The exit events the scripts install handlers for. */
  datatype Event = WorkBegin | WorkEnd | MaxInsts | Checkpoint

  /**
   * What one resumption of a handler generator produces: `yield False`
   * (keep simulating), `yield True` (stop simulating), running off the
   * end of the generator body (StopIteration), or any other exception
   * escaping the body.
   */
  datatype Outcome = Continue | Terminate | Exhausted | Raised

  /** Whether a simulation is still running, or which event's handler stopped it and how. */
  datatype Stop = Running | StoppedBy(event: Event, out: Outcome)

  const MaxInstsCause: string := "a thread reached the max instruction count"

  /** The cause string gem5 reports for an exit event that ended `simulator.run()`. */
  function CauseOf(e: Event): string {
    match e
    case WorkBegin => "workbegin"
    case WorkEnd => "workend"
    case MaxInsts => MaxInstsCause
    case Checkpoint => "checkpoint"
  }

  /** The cache hierarchy a script builds: none, or the configured hierarchy. */
  datatype CacheKind = NoCache | Hierarchy

  /** gem5 core models. */
  datatype CoreKind = Kvm | Atomic | Timing | O3

  /** The contents handed to the disk image's readfile. */
  datatype Readfile = HackBack | NoReadfile | Command(text: string)

  /** Instructions are given on the command line in millions. */
  const Million: int := 1000000

  /** Python truthiness of an optional integer argument: None and 0 are false. */
  predicate Truthy(x: Option<int>) {
    x.Some? && x.value != 0
  }

  /** Python truthiness of an optional string argument: None and "" are false. */
  predicate TruthyStr(x: Option<string>) {
    x.Some? && x.value != ""
  }

  /** The number of occurrences of `a` in `s`. */
  function Count(s: seq<Action>, a: Action): (n: nat)
    ensures n <= |s|
    ensures n == 0 <==> a !in s
  {
    if s == [] then 0 else (if s[0] == a then 1 else 0) + Count(s[1..], a)
  }

  lemma {:induction false} CountAppend(s: seq<Action>, t: seq<Action>, a: Action)
    ensures Count(s + t, a) == Count(s, a) + Count(t, a)
  {
    if s == [] {
      assert s + t == t;
    } else {
      assert (s + t)[1..] == s[1..] + t;
      CountAppend(s[1..], t, a);
    }
  }

  /** The number of `Schedule` actions in `s`, whatever their argument. */
  function Schedules(s: seq<Action>): (n: nat)
    ensures n <= |s|
    ensures n == 0 <==> forall i :: 0 <= i < |s| ==> !s[i].Schedule?
  {
    if s == [] then 0 else (if s[0].Schedule? then 1 else 0) + Schedules(s[1..])
  }

  lemma {:induction false} SchedulesAppend(s: seq<Action>, t: seq<Action>)
    ensures Schedules(s + t) == Schedules(s) + Schedules(t)
  {
    if s == [] {
      assert s + t == t;
    } else {
      assert (s + t)[1..] == s[1..] + t;
      SchedulesAppend(s[1..], t);
    }
  }

  function Digit(d: nat): (c: char)
    requires d < 10
    ensures '0' <= c <= '9'
  {
    "0123456789"[d]
  }

  /** Python's str() of a non-negative integer: its decimal digits. */
  function NatToString(n: nat): (s: string)
    ensures 1 <= |s|
    ensures n < 10 <==> |s| == 1
    ensures s[|s| - 1] == Digit(n % 10)
    ensures forall i :: 0 <= i < |s| ==> '0' <= s[i] <= '9'
  {
    if n < 10 then [Digit(n)] else NatToString(n / 10) + [Digit(n % 10)]
  }

  /** Python's str() of any integer: a sign exactly when negative, then digits. */
  function IntToString(n: int): (s: string)
    ensures 1 <= |s|
    ensures s[0] == '-' <==> n < 0
    ensures n < 0 ==> 2 <= |s|
    ensures forall i :: (if n < 0 then 1 else 0) <= i < |s| ==> '0' <= s[i] <= '9'
  {
    if n >= 0 then NatToString(n) else "-" + NatToString(-n)
  }

  lemma DigitInjective(a: nat, b: nat)
    requires a < 10 && b < 10
    ensures Digit(a) == Digit(b) ==> a == b
  {
  }

  /** Different tick counts are rendered as different strings. */
  lemma {:induction false} NatToStringInjective(m: nat, n: nat)
    ensures NatToString(m) == NatToString(n) ==> m == n
  {
    if NatToString(m) == NatToString(n) {
      DigitInjective(m % 10, n % 10);
      if m >= 10 && n >= 10 {
        var sm, sn := NatToString(m), NatToString(n);
        assert sm[..|sm| - 1] == NatToString(m / 10);
        assert sn[..|sn| - 1] == NatToString(n / 10);
        NatToStringInjective(m / 10, n / 10);
      }
    }
  }

  /** Different integers are rendered as different strings. */
  lemma IntToStringInjective(m: int, n: int)
    ensures IntToString(m) == IntToString(n) ==> m == n
  {
    if m >= 0 && n >= 0 {
      NonNegativeDigits(m);
      NonNegativeDigits(n);
      NatToStringInjective(m, n);
    } else if m < 0 && n < 0 {
      var a: nat, b: nat := -m, -n;
      NegativeDigits(m);
      NegativeDigits(n);
      NatToStringInjective(a, b);
      if IntToString(m) == IntToString(n) {
        DropSign(NatToString(a), NatToString(b));
      }
    } else {
      assert IntToString(m)[0] != IntToString(n)[0];
    }
  }

  lemma NonNegativeDigits(n: int)
    requires n >= 0
    ensures IntToString(n) == NatToString(n)
  {
  }

  lemma DropSign(x: string, y: string)
    requires "-" + x == "-" + y
    ensures x == y
  {
    assert x == ("-" + x)[1..];
    assert y == ("-" + y)[1..];
  }

  lemma NegativeDigits(n: int)
    requires n < 0
    ensures IntToString(n) == "-" + NatToString(-n)
  {
  }

  /**
   * `(Path(dir) / name).as_posix()` for a normalised, non-empty directory
   * string that is not the root (no trailing `/`, not `.`).
   */
  function JoinPath(dir: string, name: string): (p: string)
    ensures |p| == |dir| + 1 + |name|
    ensures p[..|dir|] == dir && p[|dir|] == '/' && p[|dir| + 1..] == name
  {
    dir + "/" + name
  }

  /** The file name of the checkpoint saved at tick `t`: "chkpt.<t>". */
  function CheckpointName(dir: string, t: nat): string {
    JoinPath(dir, "chkpt." + NatToString(t))
  }

  /** Checkpoints saved at different ticks in one directory get different names. */
  lemma CheckpointNamesDistinct(dir: string, t: nat, u: nat)
    requires t != u
    ensures CheckpointName(dir, t) != CheckpointName(dir, u)
  {
    var p, q := CheckpointName(dir, t), CheckpointName(dir, u);
    if p == q {
      assert p[|dir| + 1..] == "chkpt." + NatToString(t);
      assert q[|dir| + 1..] == "chkpt." + NatToString(u);
      assert ("chkpt." + NatToString(t))[6..] == NatToString(t);
      assert ("chkpt." + NatToString(u))[6..] == NatToString(u);
      NatToStringInjective(t, u);
    }
  }
}
