/** Dependency graphs over names: paths, cycles, and the levels that measure longest paths. */
module Graphs {
  import opened Names

  /** Each node with the names it depends on. */
  datatype Graph = Graph(deps: map<string, set<string>>)

  function Deps(g: Graph, n: string): set<string> {
    if n in g.deps then g.deps[n] else {}
  }

  /** Every dependency is itself a node. */
  ghost predicate Resolved(g: Graph) {
    forall n, d :: n in g.deps && d in g.deps[n] ==> d in g.deps
  }

  /** A chain of dependencies: each element depends on the next. */
  ghost predicate IsPath(g: Graph, p: seq<string>) {
    p != [] && forall i :: 0 <= i < |p| - 1 ==> p[i + 1] in Deps(g, p[i])
  }

  ghost predicate IsCycle(g: Graph, p: seq<string>) {
    IsPath(g, p) && |p| >= 2 && p[0] == p[|p| - 1]
  }

  ghost predicate Acyclic(g: Graph) {
    forall p :: !IsCycle(g, p)
  }

  /** An order in which every node comes after all it depends on. */
  ghost predicate Topological(g: Graph, order: seq<string>) {
    forall i :: 0 <= i < |order| ==> Deps(g, order[i]) <= Elems(order[..i])
  }

  // ----- A set of nodes that all depend on each other holds a cycle -----

  ghost predicate HasDepIn(g: Graph, s: set<string>, n: string) {
    exists d :: d in s && d in Deps(g, n)
  }

  ghost predicate Stuck(g: Graph, s: set<string>) {
    forall n {:trigger HasDepIn(g, s, n)} :: n in s ==> HasDepIn(g, s, n)
  }

  lemma {:induction false} Walk(g: Graph, s: set<string>, from: string, steps: nat) returns (p: seq<string>)
    requires Stuck(g, s) && from in s
    ensures IsPath(g, p) && |p| == steps + 1 && p[0] == from
    ensures forall x :: x in p ==> x in s
    decreases steps
  {
    if steps == 0 {
      p := [from];
    } else {
      assert HasDepIn(g, s, from);
      var d :| d in s && d in Deps(g, from);
      var rest := Walk(g, s, d, steps - 1);
      p := [from] + rest;
    }
  }

  lemma {:induction false} Repeats(p: seq<string>, s: set<string>) returns (i: nat, j: nat)
    requires (forall x :: x in p ==> x in s) && |p| > |s|
    ensures i < j < |p| && p[i] == p[j]
  {
    if NoDup(p) {
      NoDupFits(p, s);
    }
    i, j :| 0 <= i < j < |p| && p[i] == p[j];
  }

  lemma StuckHasCycle(g: Graph, s: set<string>) returns (c: seq<string>)
    requires Stuck(g, s) && s != {}
    ensures IsCycle(g, c) && forall x :: x in c ==> x in s
  {
    var from :| from in s;
    var p := Walk(g, s, from, |s|);
    var i, j := Repeats(p, s);
    c := p[i..j + 1];
    forall x | x in c ensures x in s {
      var k :| 0 <= k < |c| && c[k] == x;
      assert p[i + k] == x;
    }
  }

  // ----- A topological order of the whole graph excludes cycles -----

  lemma {:induction false} PathGoesBack(g: Graph, order: seq<string>, p: seq<string>, from: nat) returns (to: nat)
    requires Topological(g, order) && IsPath(g, p)
    requires from < |order| && order[from] == p[0]
    ensures to < |order| && order[to] == p[|p| - 1]
    ensures if |p| >= 2 then to < from else to == from
    decreases |p|
  {
    if |p| == 1 {
      to := from;
    } else {
      assert p[1] in Deps(g, p[0]);
      assert p[1] in Deps(g, order[from]);
      var k :| 0 <= k < from && order[..from][k] == p[1];
      to := PathGoesBack(g, order, p[1..], k);
      assert to <= k;
    }
  }

  /** A cycle from a listed node would descend for ever. */
  lemma {:induction false} NoCycleFrom(g: Graph, order: seq<string>, p: seq<string>, i: nat)
    requires Topological(g, order) && IsCycle(g, p) && i < |order| && order[i] == p[0]
    ensures false
    decreases i
  {
    var to := PathGoesBack(g, order, p, i);
    NoCycleFrom(g, order, p, to);
  }

  lemma TopologicalAcyclic(g: Graph, order: seq<string>)
    requires Topological(g, order) && Elems(order) == g.deps.Keys
    ensures Acyclic(g) && Resolved(g)
  {
    forall n, d | n in g.deps && d in g.deps[n] ensures d in g.deps {
      assert n in Elems(order);
      var i :| 0 <= i < |order| && order[i] == n;
      assert d in Deps(g, order[i]);
      assert d in Elems(order[..i]);
    }
    forall p ensures !IsCycle(g, p) {
      if IsCycle(g, p) {
        assert p[1] in Deps(g, p[0]);
        assert p[0] in Elems(order);
        var i :| 0 <= i < |order| && order[i] == p[0];
        NoCycleFrom(g, order, p, i);
      }
    }
  }

  // ----- Levels: a node is in level k when no dependency path from it has more than k nodes -----

  ghost function Level(g: Graph, k: nat): set<string> {
    if k == 0 then {} else set n | n in g.deps.Keys && Deps(g, n) <= Level(g, k - 1)
  }

  lemma {:induction false} LevelGrows(g: Graph, k: nat)
    ensures Level(g, k) <= Level(g, k + 1)
  {
    if k > 0 {
      LevelGrows(g, k - 1);
    }
  }

  lemma {:induction false} LevelGrowsTo(g: Graph, j: nat, k: nat)
    requires j <= k
    ensures Level(g, j) <= Level(g, k)
    decreases k
  {
    if j < k {
      LevelGrowsTo(g, j, k - 1);
      LevelGrows(g, k - 1);
    }
  }

  lemma {:induction false} LevelBoundsPaths(g: Graph, k: nat, p: seq<string>)
    requires IsPath(g, p) && p[0] in Level(g, k)
    ensures |p| <= k
  {
    if |p| > 1 {
      assert p[1] in Deps(g, p[0]);
      LevelBoundsPaths(g, k - 1, p[1..]);
    }
  }

  lemma {:induction false} LongPath(g: Graph, k: nat, n: string) returns (p: seq<string>)
    requires Resolved(g) && n in g.deps.Keys && n !in Level(g, k)
    ensures IsPath(g, p) && p[0] == n && |p| == k + 1
  {
    if k == 0 {
      p := [n];
    } else {
      var d :| d in Deps(g, n) && d !in Level(g, k - 1);
      var rest := LongPath(g, k - 1, d);
      p := [n] + rest;
    }
  }
}
