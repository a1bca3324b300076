// The benchmark command line both checkpointing run scripts put in the disk
// image's readfile (run_fs_checkpoints.py:149-195, and the same code at
// run_fs_mt_checkpoint.py:115-161): GAP kernels run on a road or synthetic
// graph chosen by size, every other benchmark runs through parsecmgmt.
module Workload {
  import opened Engine

  datatype Suite = GapRoads | GapSssp | GapTc | Parsec

  function SuiteOf(benchmark: string): (s: Suite)
    ensures s == GapRoads <==> benchmark in ["bc", "bfs", "cc", "pr"]
    ensures s == GapSssp <==> benchmark == "sssp"
    ensures s == GapTc <==> benchmark == "tc"
  {
    if benchmark in ["bc", "bfs", "cc", "pr"] then GapRoads
    else if benchmark == "sssp" then GapSssp
    else if benchmark == "tc" then GapTc
    else Parsec
  }

  /** The input graph of a GAP kernel; any size other than small or medium reads as large. */
  function GapInput(suite: Suite, size: string): (path: string)
    requires suite != Parsec
  {
    match suite
    case GapRoads =>
      "roads/" + (if size == "small" then "USA-road-d.COL.gr"
                  else if size == "medium" then "USA-road-d.CAL.gr"
                  else "USA-road-d.CTR.gr")
    case GapSssp =>
      "synth/" + (if size == "small" then "g100k.wsg"
                  else if size == "medium" then "g1m.wsg"
                  else "g4m.wsg")
    case GapTc =>
      "synth/" + (if size == "small" then "g100k.sg"
                  else if size == "medium" then "g500k.sg"
                  else "g1m.sg")
  }

  const GapDir: string := "cd /home/gem5/gapbs;"
  const ParsecDir: string := "cd /home/gem5/parsec-benchmark;"

  /** A GAP kernel's arguments after its name, ending with its input graph. */
  function GapArgs(suite: Suite, size: string): string
    requires suite != Parsec
  {
    "-n 1 -r 1 -f ../graphs/" + GapInput(suite, size) + ";"
  }

  const ParsecRun: string := "source env.sh;parsecmgmt -a run -p "

  /** A PARSEC run's arguments after the benchmark name. */
  function ParsecArgs(size: string, cores: int): string {
    " -c gcc-hooks -i sim" + size + " -n " + IntToString(cores) + ";"
  }

  /** The readfile command: a `cd` into the suite's directory, then one `;`-terminated command. */
  function BenchmarkCommand(benchmark: string, size: string, cores: int): (r: string)
    ensures SuiteOf(benchmark) != Parsec ==> |r| > |GapDir| && r[..|GapDir|] == GapDir
    ensures SuiteOf(benchmark) == Parsec ==> |r| > |ParsecDir| && r[..|ParsecDir|] == ParsecDir
    ensures r[|r| - 1] == ';'
  {
    var suite := SuiteOf(benchmark);
    if suite != Parsec then GapDir + "./" + benchmark + " " + GapArgs(suite, size)
    else ParsecDir + ParsecRun + benchmark + ParsecArgs(size, cores)
  }

  /** A word without spaces followed by a space is determined by the string it starts. */
  lemma {:induction false} FirstWord(a: string, b: string, x: string, y: string)
    requires ' ' !in a && ' ' !in b
    ensures a + " " + x == b + " " + y ==> a == b
  {
    var u, v := a + " " + x, b + " " + y;
    if a != [] && b != [] {
      assert u[0] == a[0] && v[0] == b[0];
      assert u[1..] == a[1..] + " " + x;
      assert v[1..] == b[1..] + " " + y;
      FirstWord(a[1..], b[1..], x, y);
      if a[0] == b[0] && a[1..] == b[1..] {
        assert a == [a[0]] + a[1..] && b == [b[0]] + b[1..];
      }
    } else if a != [] {
      assert u[0] == a[0] && a[0] in a && v[0] == ' ';
    } else if b != [] {
      assert v[0] == b[0] && b[0] in b && u[0] == ' ';
    }
  }

  /** No GAP kernel name contains a space. */
  lemma GapNameHasNoSpace(b: string)
    requires SuiteOf(b) != Parsec
    ensures ' ' !in b
  {
    assert b in ["bc", "bfs", "cc", "pr", "sssp", "tc"];
  }

  lemma GapCommandUnfold(b: string, size: string, cores: int)
    requires SuiteOf(b) != Parsec
    ensures BenchmarkCommand(b, size, cores) == GapDir + "./" + b + " " + GapArgs(SuiteOf(b), size)
  {
  }

  lemma GapCommandTail(b: string, a: string)
    ensures (GapDir + "./" + b + " " + a)[|GapDir| + 2..] == b + " " + a
  {
  }

  /** Two GAP kernels give two commands. */
  lemma GapCommandsDiffer(b1: string, b2: string, size: string, cores: int)
    requires SuiteOf(b1) != Parsec && SuiteOf(b2) != Parsec && b1 != b2
    ensures BenchmarkCommand(b1, size, cores) != BenchmarkCommand(b2, size, cores)
  {
    var a1, a2 := GapArgs(SuiteOf(b1), size), GapArgs(SuiteOf(b2), size);
    GapNameHasNoSpace(b1);
    GapNameHasNoSpace(b2);
    GapCommandUnfold(b1, size, cores);
    GapCommandUnfold(b2, size, cores);
    GapCommandTail(b1, a1);
    GapCommandTail(b2, a2);
    FirstWord(b1, b2, a1, a2);
  }

  /** Two PARSEC benchmarks give two commands. */
  lemma ParsecCommandsDiffer(b1: string, b2: string, size: string, cores: int)
    requires SuiteOf(b1) == Parsec && SuiteOf(b2) == Parsec && b1 != b2
    ensures BenchmarkCommand(b1, size, cores) != BenchmarkCommand(b2, size, cores)
  {
    var p, t := ParsecDir + ParsecRun, ParsecArgs(size, cores);
    assert BenchmarkCommand(b1, size, cores) == p + b1 + t;
    assert BenchmarkCommand(b2, size, cores) == p + b2 + t;
    assert b1 == (p + b1 + t)[|p|..|p| + |b1|];
    assert b2 == (p + b2 + t)[|p|..|p| + |b2|];
  }

  /** Character 14 tells the two `cd` targets apart: `gapbs` against `parsec-benchmark`. */
  lemma SuiteLetter(b: string, size: string, cores: int)
    ensures BenchmarkCommand(b, size, cores)[14] == (if SuiteOf(b) == Parsec then 'p' else 'g')
  {
    var r := BenchmarkCommand(b, size, cores);
    if SuiteOf(b) == Parsec {
      assert r[..|ParsecDir|][14] == 'p';
    } else {
      assert r[..|GapDir|][14] == 'g';
    }
  }

  /** For one size and core count, the command names the benchmark it runs. */
  lemma BenchmarkCommandInjective(b1: string, b2: string, size: string, cores: int)
    requires BenchmarkCommand(b1, size, cores) == BenchmarkCommand(b2, size, cores)
    ensures b1 == b2
  {
    var s1, s2 := SuiteOf(b1), SuiteOf(b2);
    if b1 != b2 {
      if s1 != Parsec && s2 != Parsec {
        GapCommandsDiffer(b1, b2, size, cores);
      } else if s1 == Parsec && s2 == Parsec {
        ParsecCommandsDiffer(b1, b2, size, cores);
      } else {
        SuiteLetter(b1, size, cores);
        SuiteLetter(b2, size, cores);
      }
    }
  }

  /** The arguments of a PARSEC run name its core count. */
  lemma ParsecArgsInjective(size: string, c1: int, c2: int)
    ensures ParsecArgs(size, c1) == ParsecArgs(size, c2) ==> c1 == c2
  {
    var p := " -c gcc-hooks -i sim" + size + " -n ";
    var t1, t2 := ParsecArgs(size, c1), ParsecArgs(size, c2);
    if t1 == t2 {
      assert t1 == p + IntToString(c1) + ";" && t2 == p + IntToString(c2) + ";";
      assert IntToString(c1) == t1[|p|..|t1| - 1];
      assert IntToString(c2) == t2[|p|..|t2| - 1];
      IntToStringInjective(c1, c2);
    }
  }

  lemma SamePrefix(p: string, x: string, y: string)
    requires p + x == p + y
    ensures x == y
  {
    assert x == (p + x)[|p|..];
    assert y == (p + y)[|p|..];
  }

  /** A PARSEC command names the core count it runs with; a GAP command does not depend on it. */
  lemma BenchmarkCommandCores(benchmark: string, size: string, c1: int, c2: int)
    ensures SuiteOf(benchmark) == Parsec && c1 != c2 ==>
              BenchmarkCommand(benchmark, size, c1) != BenchmarkCommand(benchmark, size, c2)
    ensures SuiteOf(benchmark) != Parsec ==>
              BenchmarkCommand(benchmark, size, c1) == BenchmarkCommand(benchmark, size, c2)
  {
    if SuiteOf(benchmark) == Parsec
      && BenchmarkCommand(benchmark, size, c1) == BenchmarkCommand(benchmark, size, c2)
    {
      var p := ParsecDir + ParsecRun + benchmark;
      assert BenchmarkCommand(benchmark, size, c1) == p + ParsecArgs(size, c1);
      assert BenchmarkCommand(benchmark, size, c2) == p + ParsecArgs(size, c2);
      SamePrefix(p, ParsecArgs(size, c1), ParsecArgs(size, c2));
      ParsecArgsInjective(size, c1, c2);
    }
  }
}
