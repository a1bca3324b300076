// The LRU bookkeeping shared by the sets of both samplers (the 8-way
// Hawkeye history sampler and the 5-way Mockingjay sampled cache): every
// insertion ages the valid ways and gives the chosen way the youngest age.
// From an empty set the valid ways always hold distinct ages that fill the
// top of the range, so a way that is invalid or of age 0 always exists and
// the `assert` in each `insert` cannot fire.
module SamplerLru {

  /** One sampler way: valid bit, LRU age, packed entry word. */
  datatype Line = Line(valid: bool, lru: int, tag: bv64)

  /** `CacheLine()`: invalid, age 0, entry 0. */
  const EmptyLine: Line := Line(false, 0, 0)

  function NumValid(ws: seq<Line>): (n: nat)
    ensures n <= |ws|
  {
    if ws == [] then 0 else NumValid(ws[..|ws| - 1]) + (if ws[|ws| - 1].valid then 1 else 0)
  }

  lemma {:induction false} NumValidSameFlags(a: seq<Line>, b: seq<Line>)
    requires |a| == |b| && forall i :: 0 <= i < |a| ==> a[i].valid == b[i].valid
    ensures NumValid(a) == NumValid(b)
  {
    if a != [] {
      NumValidSameFlags(a[..|a| - 1], b[..|b| - 1]);
    }
  }

  lemma {:induction false} NumValidUpdate(ws: seq<Line>, c: nat, l: Line)
    requires c < |ws|
    ensures NumValid(ws[c := l]) ==
            NumValid(ws) - (if ws[c].valid then 1 else 0) + (if l.valid then 1 else 0)
  {
    var ws' := ws[c := l];
    var m := |ws| - 1;
    if c == m {
      assert ws'[..m] == ws[..m];
    } else {
      assert ws'[..m] == ws[..m][c := l];
      NumValidUpdate(ws[..m], c, l);
    }
  }

  lemma {:induction false} NumValidAllValid(ws: seq<Line>)
    requires NumValid(ws) == |ws|
    ensures forall i :: 0 <= i < |ws| ==> ws[i].valid
  {
    if ws != [] {
      NumValidAllValid(ws[..|ws| - 1]);
      forall i | 0 <= i < |ws|
        ensures ws[i].valid
      {
        if i < |ws| - 1 {
          assert ws[..|ws| - 1][i] == ws[i];
        }
      }
    }
  }

  /** A way `insert` may overwrite. */
  predicate Free(l: Line) {
    !l.valid || l.lru == 0
  }

  /** Some valid way has age `k`. */
  predicate HasAge(ws: seq<Line>, k: int) {
    exists i :: 0 <= i < |ws| && ws[i].valid && ws[i].lru == k
  }

  predicate AgesInRange(ws: seq<Line>, n: nat) {
    forall i :: 0 <= i < |ws| && ws[i].valid ==> |ws| - n <= ws[i].lru < |ws|
  }

  predicate AgesDistinct(ws: seq<Line>) {
    forall i, j :: 0 <= i < j < |ws| && ws[i].valid && ws[j].valid ==> ws[i].lru != ws[j].lru
  }

  predicate AgesCovered(ws: seq<Line>, n: nat) {
    forall k :: |ws| - n <= k < |ws| ==> HasAge(ws, k)
  }

  /**
   * The valid ways of a set hold pairwise distinct ages, and those ages are
   * exactly `w - n .. w - 1` where `w` is the associativity and `n` the
   * number of valid ways.
   */
  predicate LruInv(ws: seq<Line>) {
    var n := NumValid(ws);
    AgesInRange(ws, n) && AgesDistinct(ws) && AgesCovered(ws, n)
  }

  /** A set as constructed: every way invalid. */
  lemma EmptyInv(ws: seq<Line>)
    requires forall i :: 0 <= i < |ws| ==> !ws[i].valid
    ensures LruInv(ws)
  {
    NumValidSameFlags(ws, seq(|ws|, i => EmptyLine));
    ZeroValid(|ws|);
  }

  lemma {:induction false} ZeroValid(w: nat)
    ensures NumValid(seq(w, i => EmptyLine)) == 0
  {
    if w > 0 {
      assert seq(w, i => EmptyLine)[..w - 1] == seq(w - 1, i => EmptyLine);
      ZeroValid(w - 1);
    }
  }

  /** Under the invariant a non-empty set always has a way `insert` may take. */
  lemma FreeExists(ws: seq<Line>)
    requires LruInv(ws) && |ws| > 0
    ensures exists i :: 0 <= i < |ws| && Free(ws[i])
  {
    if NumValid(ws) == |ws| {
      NumValidAllValid(ws);
      assert HasAge(ws, 0);
      var i :| 0 <= i < |ws| && ws[i].valid && ws[i].lru == 0;
      assert Free(ws[i]);
    } else if forall i :: 0 <= i < |ws| ==> ws[i].valid {
      NumValidSameFlags(ws, seq(|ws|, i => Line(true, 0, 0)));
      AllValid(|ws|);
      assert false;
    }
  }

  lemma {:induction false} AllValid(w: nat)
    ensures NumValid(seq(w, i => Line(true, 0, 0))) == w
  {
    if w > 0 {
      assert seq(w, i => Line(true, 0, 0))[..w - 1] == seq(w - 1, i => Line(true, 0, 0));
      AllValid(w - 1);
    }
  }

  /** One step of the aging loop: a valid way older than 0 gets one younger. */
  function Aged(l: Line): (r: Line)
    ensures r.valid == l.valid && r.tag == l.tag
    ensures r.lru == (if l.valid && l.lru > 0 then l.lru - 1 else l.lru)
  {
    if l.valid && l.lru > 0 then l.(lru := l.lru - 1) else l
  }

  function AgeAll(ws: seq<Line>): (r: seq<Line>)
    ensures |r| == |ws| && forall i :: 0 <= i < |ws| ==> r[i] == Aged(ws[i])
  {
    seq(|ws|, i requires 0 <= i < |ws| => Aged(ws[i]))
  }

  /** `insert` once it has chosen way `c`: age every valid way, then fill `c` as the youngest. */
  function Place(ws: seq<Line>, c: nat, tag: bv64): (r: seq<Line>)
    requires c < |ws|
    ensures |r| == |ws|
    ensures r[c] == Line(true, |ws| - 1, tag)
    ensures forall i :: 0 <= i < |ws| && i != c ==> r[i] == Aged(ws[i])
  {
    AgeAll(ws)[c := Line(true, |ws| - 1, tag)]
  }

  /** Filling way `c` makes it valid and leaves every other way's valid bit alone. */
  lemma PlaceCount(ws: seq<Line>, c: nat, tag: bv64)
    requires c < |ws|
    ensures NumValid(Place(ws, c, tag)) == NumValid(ws) + (if ws[c].valid then 0 else 1)
  {
    var a := AgeAll(ws);
    NumValidSameFlags(ws, a);
    NumValidUpdate(a, c, Line(true, |ws| - 1, tag));
  }

  /** The way chosen is free, so either the set is not full or the chosen way is the oldest. */
  lemma FreeWay(ws: seq<Line>, c: nat)
    requires LruInv(ws) && c < |ws| && Free(ws[c])
    ensures !ws[c].valid ==> NumValid(ws) < |ws|
    ensures ws[c].valid ==> NumValid(ws) == |ws|
    ensures forall j :: 0 <= j < |ws| && j != c && ws[j].valid ==> ws[j].lru >= 1
  {
    if !ws[c].valid {
      NumValidUpdate(ws, c, Line(true, 0, 0));
    }
    forall j | 0 <= j < |ws| && j != c && ws[j].valid
      ensures ws[j].lru >= 1
    {
      if ws[c].valid {
        if j < c {
          assert ws[j].lru != ws[c].lru;
        } else {
          assert ws[c].lru != ws[j].lru;
        }
      }
    }
  }

  /** Filling a free way keeps the invariant. */
  lemma PlaceInv(ws: seq<Line>, c: nat, tag: bv64)
    requires LruInv(ws) && c < |ws| && Free(ws[c])
    ensures LruInv(Place(ws, c, tag))
  {
    PlaceCount(ws, c, tag);
    FreeWay(ws, c);
    PlaceInRange(ws, c, tag);
    PlaceDistinct(ws, c, tag);
    PlaceCovered(ws, c, tag);
  }

  lemma PlaceInRange(ws: seq<Line>, c: nat, tag: bv64)
    requires LruInv(ws) && c < |ws| && Free(ws[c])
    ensures AgesInRange(Place(ws, c, tag), NumValid(Place(ws, c, tag)))
  {
    var w, r := |ws|, Place(ws, c, tag);
    PlaceCount(ws, c, tag);
    FreeWay(ws, c);
    var n' := NumValid(r);
    forall j | 0 <= j < w && r[j].valid
      ensures w - n' <= r[j].lru < w
    {
      if j != c {
        assert ws[j].valid && r[j].lru == ws[j].lru - 1;
      }
    }
  }

  lemma PlaceDistinct(ws: seq<Line>, c: nat, tag: bv64)
    requires LruInv(ws) && c < |ws| && Free(ws[c])
    ensures AgesDistinct(Place(ws, c, tag))
  {
    var w, r := |ws|, Place(ws, c, tag);
    FreeWay(ws, c);
    forall i, j | 0 <= i < j < w && r[i].valid && r[j].valid
      ensures r[i].lru != r[j].lru
    {
      if i != c && j != c {
        assert r[i].lru == ws[i].lru - 1 && r[j].lru == ws[j].lru - 1;
      } else if i == c {
        assert r[j].lru == ws[j].lru - 1;
      } else {
        assert r[i].lru == ws[i].lru - 1;
      }
    }
  }

  lemma PlaceCovered(ws: seq<Line>, c: nat, tag: bv64)
    requires LruInv(ws) && c < |ws| && Free(ws[c])
    ensures AgesCovered(Place(ws, c, tag), NumValid(Place(ws, c, tag)))
  {
    var w, r := |ws|, Place(ws, c, tag);
    PlaceCount(ws, c, tag);
    FreeWay(ws, c);
    var n' := NumValid(r);
    forall k | w - n' <= k < w
      ensures HasAge(r, k)
    {
      if k == w - 1 {
        assert r[c].valid && r[c].lru == k;
      } else {
        assert HasAge(ws, k + 1);
        var j :| 0 <= j < w && ws[j].valid && ws[j].lru == k + 1;
        assert j != c;
        assert r[j].valid && r[j].lru == k;
      }
    }
  }

  /** Rewriting only the packed word (as `access` does) keeps the invariant. */
  lemma RetagInv(ws: seq<Line>, c: nat, tag: bv64)
    requires LruInv(ws) && c < |ws|
    ensures LruInv(ws[c := ws[c].(tag := tag)])
  {
    var r := ws[c := ws[c].(tag := tag)];
    NumValidSameFlags(ws, r);
    assert AgesCovered(r, NumValid(r)) by {
      forall k | |ws| - NumValid(ws) <= k < |ws|
        ensures HasAge(r, k)
      {
        assert HasAge(ws, k);
        var j :| 0 <= j < |ws| && ws[j].valid && ws[j].lru == k;
        assert r[j].valid && r[j].lru == k;
      }
    }
  }

  /** The aging loop of `insert`: every valid way older than 0 gets one younger. */
  method AgeWays(ways: array<Line>)
    modifies ways
    ensures ways[..] == AgeAll(old(ways[..]))
  {
    ghost var ws := ways[..];
    var j := 0;
    while j < ways.Length
      invariant 0 <= j <= ways.Length
      invariant |ws| == ways.Length
      invariant forall k :: 0 <= k < j ==> ways[k] == Aged(ws[k])
      invariant forall k :: j <= k < ways.Length ==> ways[k] == ws[k]
    {
      if ways[j].valid && ways[j].lru > 0 {
        ways[j] := ways[j].(lru := ways[j].lru - 1);
      }
      j := j + 1;
    }
    assert ways[..] == AgeAll(ws);
  }
}
