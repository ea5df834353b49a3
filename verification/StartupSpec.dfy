/** What `startup_order` must return, stated on the dependency graph alone: the graph holds the set of
    service names and the set of edges, so nothing here can depend on declaration order, on repeated
    `depends_on` entries or on how a hash map iterates. */
module StartupSpec {
  import opened Names
  import opened Graphs

  /** The nodes all of whose dependencies are in `done`. */
  ghost function Startable(g: Graph, done: set<string>): set<string> {
    set n | n in g.deps.Keys && Deps(g, n) <= done
  }

  ghost function NewlyReady(g: Graph, n: string, done: set<string>): set<string> {
    set c | c in g.deps.Keys && n in Deps(g, c) && Deps(g, c) <= done
  }

  /** `order[..popped]` has been started; `order[popped..]` is the queue. */
  ghost predicate Queueing(g: Graph, order: seq<string>, popped: nat) {
    && popped <= |order|
    && NoDup(order)
    && Topological(g, order)
    && Elems(order) == Startable(g, Elems(order[..popped]))
  }

  lemma QueueFits(g: Graph, order: seq<string>, popped: nat)
    requires Queueing(g, order, popped)
    ensures |order| <= |g.deps.Keys|
  {
    NoDupFits(order, g.deps.Keys);
  }

  ghost function Pop(g: Graph, order: seq<string>, popped: nat): seq<string>
    requires popped < |order|
  {
    order + Listing(NewlyReady(g, order[popped], Elems(order[..popped + 1])))
  }

  lemma NewlyReadyWaits(g: Graph, order: seq<string>, popped: nat)
    requires Queueing(g, order, popped) && popped < |order|
    ensures forall c :: c in NewlyReady(g, order[popped], Elems(order[..popped + 1])) ==> c !in order
  {
    forall c | c in NewlyReady(g, order[popped], Elems(order[..popped + 1])) ensures c !in order {
      assert order[popped] in Deps(g, c);
      assert order[popped] !in Elems(order[..popped]);
      assert c !in Elems(order);
    }
  }

  lemma AppendTopological(g: Graph, order: seq<string>, k: nat, list: seq<string>)
    requires Topological(g, order) && NoDup(order) && NoDup(list) && k <= |order|
    requires forall c :: c in list ==> c !in order && Deps(g, c) <= Elems(order[..k])
    ensures Topological(g, order + list) && NoDup(order + list)
  {
    var next := order + list;
    forall i | 0 <= i < |next| ensures Deps(g, next[i]) <= Elems(next[..i]) {
      if i < |order| {
        assert next[..i] == order[..i];
      } else {
        assert next[..k] == order[..k];
        PrefixElems(next, k, i);
        assert next[i] in list;
      }
    }
  }

  /** Starting `order[popped]` makes startable what was already queued and the newly ready. */
  lemma PopStartable(g: Graph, order: seq<string>, popped: nat)
    requires Queueing(g, order, popped) && popped < |order|
    ensures Elems(order) + NewlyReady(g, order[popped], Elems(order[..popped + 1]))
         == Startable(g, Elems(order[..popped + 1]))
  {
    var n := order[popped];
    assert order[..popped + 1] == order[..popped] + [n];
    assert Elems(order[..popped + 1]) == Elems(order[..popped]) + {n};
  }

  /** The appended services come after all they depend on, and none is repeated. */
  lemma PopTopological(g: Graph, order: seq<string>, popped: nat)
    requires Queueing(g, order, popped) && popped < |order|
    ensures Topological(g, Pop(g, order, popped)) && NoDup(Pop(g, order, popped))
  {
    var newly := NewlyReady(g, order[popped], Elems(order[..popped + 1]));
    var list := Listing(newly);
    ListingElems(newly);
    NewlyReadyWaits(g, order, popped);
    forall c | c in list ensures c in newly {
      assert c in Elems(list);
    }
    AppendTopological(g, order, popped + 1, list);
  }

  lemma PopKeepsQueueing(g: Graph, order: seq<string>, popped: nat)
    requires Queueing(g, order, popped) && popped < |order|
    ensures Queueing(g, Pop(g, order, popped), popped + 1)
  {
    var newly := NewlyReady(g, order[popped], Elems(order[..popped + 1]));
    var list := Listing(newly);
    ListingElems(newly);
    PopStartable(g, order, popped);
    PopTopological(g, order, popped);
    AppendElems(order, list);
    assert (order + list)[..popped + 1] == order[..popped + 1];
  }

  lemma AppendElems(a: seq<string>, b: seq<string>)
    ensures Elems(a + b) == Elems(a) + Elems(b)
  {
  }

  lemma PrefixElems(s: seq<string>, j: nat, k: nat)
    requires j <= k <= |s|
    ensures Elems(s[..j]) <= Elems(s[..k])
  {
    forall x | x in s[..j] ensures x in s[..k] {
      var i :| 0 <= i < j && s[..j][i] == x;
      assert s[..k][i] == x;
    }
  }

  /** Pop the queue until it is empty, appending the newly startable services of each popped one in
      name order. */
  ghost function Drain(g: Graph, order: seq<string>, popped: nat): (r: seq<string>)
    requires Queueing(g, order, popped)
    ensures Queueing(g, r, |r|) && order <= r
    decreases |g.deps.Keys| - popped
  {
    QueueFits(g, order, popped);
    if popped == |order| then order
    else
      PopKeepsQueueing(g, order, popped);
      QueueFits(g, Pop(g, order, popped), popped + 1);
      Drain(g, Pop(g, order, popped), popped + 1)
  }

  ghost function Roots(g: Graph): seq<string> {
    Listing(Startable(g, {}))
  }

  lemma RootsQueue(g: Graph)
    ensures Queueing(g, Roots(g), 0)
  {
    ListingElems(Startable(g, {}));
    forall i | 0 <= i < |Roots(g)| ensures Deps(g, Roots(g)[i]) <= Elems(Roots(g)[..i]) {
      assert Roots(g)[i] in Elems(Roots(g));
    }
  }

  /** Everything that can be started, in the order it is started. */
  ghost function StartOrder(g: Graph): (r: seq<string>)
    ensures Queueing(g, r, |r|)
  {
    RootsQueue(g);
    Drain(g, Roots(g), 0)
  }

  lemma StartOrderFits(g: Graph)
    ensures |StartOrder(g)| <= |g.deps.Keys|
  {
    QueueFits(g, StartOrder(g), |StartOrder(g)|);
  }

  // ----- Completeness -----

  /** Nothing is left out exactly when every dependency names a service and no services depend on
      each other in a circle. */
  lemma StartsAllIff(g: Graph)
    ensures |StartOrder(g)| == |g.deps.Keys| <==> Resolved(g) && Acyclic(g)
    ensures |StartOrder(g)| == |g.deps.Keys| ==> Elems(StartOrder(g)) == g.deps.Keys
  {
    var order := StartOrder(g);
    NoDupFits(order, g.deps.Keys);
    if Elems(order) == g.deps.Keys {
      TopologicalAcyclic(g, order);
      NoDupMultiset(order);
    } else if Resolved(g) {
      var c := CycleAmongUnstarted(g);
    }
  }

  /** When something is left out, the services left out hold a dependency cycle. */
  lemma CycleAmongUnstarted(g: Graph) returns (c: seq<string>)
    requires Resolved(g) && Elems(StartOrder(g)) != g.deps.Keys
    ensures IsCycle(g, c) && forall n :: n in c ==> n in g.deps.Keys && n !in StartOrder(g)
  {
    var order := StartOrder(g);
    assert order[..|order|] == order;
    c := CycleOutside(g, Elems(order));
  }

  /** A set that already holds all it makes startable leaves out a cycle, if it leaves out anything. */
  lemma CycleOutside(g: Graph, done: set<string>) returns (c: seq<string>)
    requires Resolved(g) && done == Startable(g, done) && done != g.deps.Keys
    ensures IsCycle(g, c) && forall n :: n in c ==> n in g.deps.Keys && n !in done
  {
    var stuck := g.deps.Keys - done;
    assert g.deps.Keys == done + stuck;
    forall n | n in stuck ensures HasDepIn(g, stuck, n) {
      WaitsOnStuck(g, done, n);
    }
    c := StuckHasCycle(g, stuck);
  }

  lemma WaitsOnStuck(g: Graph, done: set<string>, n: string)
    requires Resolved(g) && done == Startable(g, done) && n in g.deps.Keys - done
    ensures HasDepIn(g, g.deps.Keys - done, n)
  {
    assert n !in Startable(g, done);
    var d :| d in Deps(g, n) && d !in done;
    assert d in g.deps;
  }

  // ----- Waves -----

  /** Services come in waves of non-decreasing depth: a chain of dependencies below an earlier service
      is never longer than the longest one below a later service. */
  ghost predicate InWaves(g: Graph, order: seq<string>) {
    forall i, j, p :: 0 <= i < j < |order| && IsPath(g, p) && p[0] == order[i] ==>
      exists q :: IsPath(g, q) && q[0] == order[j] && |q| >= |p|
  }

  ghost predicate AtDepth(g: Graph, n: string, d: nat) {
    d > 0 && n in Level(g, d) && n !in Level(g, d - 1)
  }

  /** `depth[i]` is the length of the longest path below `order[i]`; along the queue it never falls,
      and it rises by at most one from the next service to pop to the end. */
  ghost predicate Depths(g: Graph, order: seq<string>, popped: nat, depth: seq<nat>) {
    && |depth| == |order|
    && (forall i :: 0 <= i < |order| ==> AtDepth(g, order[i], depth[i]))
    && (forall i, j :: 0 <= i < j < |depth| ==> depth[i] <= depth[j])
    && (forall j :: popped < j < |depth| ==> depth[j] <= depth[popped] + 1)
  }

  lemma {:induction false} PopDepth(g: Graph, order: seq<string>, popped: nat, depth: seq<nat>, c: string)
    requires Queueing(g, order, popped) && popped < |order| && Depths(g, order, popped, depth)
    requires c in NewlyReady(g, order[popped], Elems(order[..popped + 1]))
    ensures AtDepth(g, c, depth[popped] + 1)
  {
    var k := depth[popped];
    assert AtDepth(g, order[popped], k);
    forall d | d in Deps(g, c) ensures d in Level(g, k) {
      assert d in Elems(order[..popped + 1]);
      var i :| 0 <= i < popped + 1 && order[..popped + 1][i] == d;
      assert AtDepth(g, order[i], depth[i]);
      LevelGrowsTo(g, depth[i], k);
    }
    assert order[popped] in Deps(g, c);
  }

  lemma AppendDepths(g: Graph, order: seq<string>, popped: nat, depth: seq<nat>, list: seq<string>)
    returns (next: seq<nat>)
    requires popped < |order| && Depths(g, order, popped, depth)
    requires forall c :: c in list ==> AtDepth(g, c, depth[popped] + 1)
    ensures Depths(g, order + list, popped + 1, next)
  {
    next := depth + seq(|list|, i => depth[popped] + 1);
    forall i | 0 <= i < |order + list| ensures AtDepth(g, (order + list)[i], next[i]) {
      assert i >= |order| ==> (order + list)[i] in list;
    }
  }

  lemma PopDepths(g: Graph, order: seq<string>, popped: nat, depth: seq<nat>) returns (next: seq<nat>)
    requires Queueing(g, order, popped) && popped < |order| && Depths(g, order, popped, depth)
    ensures Depths(g, Pop(g, order, popped), popped + 1, next)
  {
    var newly := NewlyReady(g, order[popped], Elems(order[..popped + 1]));
    ListingElems(newly);
    forall c | c in Listing(newly) ensures AtDepth(g, c, depth[popped] + 1) {
      assert c in Elems(Listing(newly));
      PopDepth(g, order, popped, depth, c);
    }
    next := AppendDepths(g, order, popped, depth, Listing(newly));
  }

  lemma {:induction false} DrainDepths(g: Graph, order: seq<string>, popped: nat, depth: seq<nat>)
    returns (final: seq<nat>)
    requires Queueing(g, order, popped) && Depths(g, order, popped, depth)
    ensures Depths(g, Drain(g, order, popped), |Drain(g, order, popped)|, final)
    decreases |g.deps.Keys| - popped
  {
    QueueFits(g, order, popped);
    if popped == |order| {
      final := depth;
    } else {
      PopKeepsQueueing(g, order, popped);
      QueueFits(g, Pop(g, order, popped), popped + 1);
      var next := PopDepths(g, order, popped, depth);
      final := DrainDepths(g, Pop(g, order, popped), popped + 1, next);
    }
  }

  lemma DepthsGiveWaves(g: Graph, order: seq<string>, popped: nat, depth: seq<nat>)
    requires Resolved(g) && Depths(g, order, popped, depth) && Elems(order) <= g.deps.Keys
    ensures InWaves(g, order)
  {
    forall i, j, p | 0 <= i < j < |order| && IsPath(g, p) && p[0] == order[i]
      ensures exists q :: IsPath(g, q) && q[0] == order[j] && |q| >= |p|
    {
      assert AtDepth(g, order[i], depth[i]) && AtDepth(g, order[j], depth[j]);
      LevelBoundsPaths(g, depth[i], p);
      assert order[j] in Elems(order);
      var q := LongPath(g, depth[j] - 1, order[j]);
    }
  }

  lemma StartOrderInWaves(g: Graph)
    requires Resolved(g)
    ensures InWaves(g, StartOrder(g))
  {
    RootsQueue(g);
    var roots := Roots(g);
    ListingElems(Startable(g, {}));
    forall i | 0 <= i < |roots| ensures AtDepth(g, roots[i], 1) {
      assert roots[i] in Elems(roots);
      assert Level(g, 0) == {};
    }
    var depth := DrainDepths(g, roots, 0, seq(|roots|, i => 1));
    DepthsGiveWaves(g, StartOrder(g), |StartOrder(g)|, depth);
  }

  // ----- The exact order -----

  /** Whether n may start once the first k services of `order` have. */
  ghost predicate ReadyAfter(g: Graph, order: seq<string>, n: string, k: nat)
    requires k <= |order|
  {
    Deps(g, n) <= Elems(order[..k])
  }

  ghost predicate NoLater(g: Graph, order: seq<string>, a: string, b: string) {
    forall k :: 0 <= k <= |order| && ReadyAfter(g, order, b, k) ==> ReadyAfter(g, order, a, k)
  }

  /** Sorted by the moment the last dependency starts, then by name. */
  ghost predicate ByReadiness(g: Graph, order: seq<string>) {
    forall i, j :: 0 <= i < j < |order| ==>
      NoLater(g, order, order[i], order[j]) &&
      (NoLater(g, order, order[j], order[i]) ==> Lt(order[i], order[j]))
  }

  /** A newly ready service becomes startable exactly when `order[popped]` has started. */
  lemma NewlyReadyAfter(g: Graph, order: seq<string>, popped: nat, n: string, k: nat)
    requires Queueing(g, order, popped) && popped < |order| && k <= |Pop(g, order, popped)|
    requires n in NewlyReady(g, order[popped], Elems(order[..popped + 1]))
    ensures ReadyAfter(g, Pop(g, order, popped), n, k) <==> popped < k
  {
    var next := Pop(g, order, popped);
    PopKeepsQueueing(g, order, popped);
    assert order[popped] in Deps(g, n);
    assert order[popped] == next[popped];
    if k <= popped {
      assert next[popped] !in next[..k];
    } else {
      assert next[..popped + 1] == order[..popped + 1];
      PrefixElems(next, popped + 1, k);
    }
  }

  /** One that was queued already was startable before that. */
  lemma QueuedReadyAfter(g: Graph, order: seq<string>, popped: nat, n: string, k: nat)
    requires Queueing(g, order, popped) && popped < |order| && k <= |Pop(g, order, popped)|
    requires n in order
    ensures popped <= k ==> ReadyAfter(g, Pop(g, order, popped), n, k)
    ensures k <= |order| ==> (ReadyAfter(g, Pop(g, order, popped), n, k) <==> ReadyAfter(g, order, n, k))
  {
    var next := Pop(g, order, popped);
    assert n in Elems(order);
    assert k <= |order| ==> next[..k] == order[..k];
    if popped <= k {
      assert next[..popped] == order[..popped];
      PrefixElems(next, popped, k);
    }
  }

  lemma PopOldPair(g: Graph, order: seq<string>, popped: nat, a: string, b: string)
    requires Queueing(g, order, popped) && popped < |order| && a in order && b in order
    ensures NoLater(g, Pop(g, order, popped), a, b) <==> NoLater(g, order, a, b)
  {
    var next := Pop(g, order, popped);
    forall k | 0 <= k <= |next|
      ensures popped <= k ==> ReadyAfter(g, next, a, k)
      ensures k <= |order| ==> (ReadyAfter(g, next, a, k) <==> ReadyAfter(g, order, a, k))
      ensures k <= |order| ==> (ReadyAfter(g, next, b, k) <==> ReadyAfter(g, order, b, k))
    {
      QueuedReadyAfter(g, order, popped, a, k);
      QueuedReadyAfter(g, order, popped, b, k);
    }
  }

  lemma PopNewPair(g: Graph, order: seq<string>, popped: nat, a: string, b: string)
    requires Queueing(g, order, popped) && popped < |order|
    requires b in NewlyReady(g, order[popped], Elems(order[..popped + 1]))
    requires a in order || a in NewlyReady(g, order[popped], Elems(order[..popped + 1]))
    ensures NoLater(g, Pop(g, order, popped), a, b)
    ensures a in order ==> !NoLater(g, Pop(g, order, popped), b, a)
  {
    var next := Pop(g, order, popped);
    forall k | 0 <= k <= |next| && ReadyAfter(g, next, b, k) ensures ReadyAfter(g, next, a, k) {
      NewlyReadyAfter(g, order, popped, b, k);
      if a in order {
        QueuedReadyAfter(g, order, popped, a, k);
      } else {
        NewlyReadyAfter(g, order, popped, a, k);
      }
    }
    if a in order {
      QueuedReadyAfter(g, order, popped, a, popped);
      NewlyReadyAfter(g, order, popped, b, popped);
    }
  }

  lemma PopByReadiness(g: Graph, order: seq<string>, popped: nat)
    requires Queueing(g, order, popped) && popped < |order| && ByReadiness(g, order)
    ensures ByReadiness(g, Pop(g, order, popped))
  {
    var next := Pop(g, order, popped);
    var newly := NewlyReady(g, order[popped], Elems(order[..popped + 1]));
    ListingElems(newly);
    forall i, j | 0 <= i < j < |next|
      ensures NoLater(g, next, next[i], next[j])
      ensures NoLater(g, next, next[j], next[i]) ==> Lt(next[i], next[j])
    {
      if j < |order| {
        PopOldPair(g, order, popped, next[i], next[j]);
        PopOldPair(g, order, popped, next[j], next[i]);
      } else {
        assert next[j] in Elems(Listing(newly));
        if i >= |order| {
          assert next[i] in Elems(Listing(newly));
          ListingIncreases(newly, i - |order|, j - |order|);
        }
        PopNewPair(g, order, popped, next[i], next[j]);
      }
    }
  }

  lemma {:induction false} DrainByReadiness(g: Graph, order: seq<string>, popped: nat)
    requires Queueing(g, order, popped) && ByReadiness(g, order)
    ensures ByReadiness(g, Drain(g, order, popped))
    decreases |g.deps.Keys| - popped
  {
    QueueFits(g, order, popped);
    if popped < |order| {
      PopKeepsQueueing(g, order, popped);
      PopByReadiness(g, order, popped);
      QueueFits(g, Pop(g, order, popped), popped + 1);
      DrainByReadiness(g, Pop(g, order, popped), popped + 1);
    }
  }

  lemma StartOrderByReadiness(g: Graph)
    ensures ByReadiness(g, StartOrder(g))
  {
    RootsQueue(g);
    var roots := Roots(g);
    ListingElems(Startable(g, {}));
    forall i | 0 <= i < |roots| ensures Deps(g, roots[i]) == {} {
      assert roots[i] in Elems(roots);
    }
    forall i, j | 0 <= i < j < |roots| ensures Lt(roots[i], roots[j]) {
      ListingIncreases(Startable(g, {}), i, j);
    }
    DrainByReadiness(g, roots, 0);
  }

  ghost predicate Canonical(g: Graph, order: seq<string>) {
    NoDup(order) && Elems(order) == g.deps.Keys && Topological(g, order) && ByReadiness(g, order)
  }

  /** Two orders that agree up to m agree at m. */
  lemma CanonicalNext(g: Graph, a: seq<string>, b: seq<string>, m: nat)
    requires Canonical(g, a) && Canonical(g, b)
    requires m < |a| && m < |b| && a[..m] == b[..m]
    ensures a[m] == b[m]
  {
    if a[m] != b[m] {
      assert b[m] in Elems(a) && a[m] in Elems(b);
      var i := PlaceOf(a, b, m);
      var j := PlaceOf(b, a, m);
      NoLaterElsewhere(g, a, b, m, a[m], b[m]);
      NoLaterElsewhere(g, b, a, m, b[m], a[m]);
      assert NoLater(g, a, a[m], a[i]) && NoLater(g, b, b[m], b[j]);
      LeAntisymmetric(a[m], b[m]);
    }
  }

  lemma PlaceOf(a: seq<string>, b: seq<string>, m: nat) returns (i: nat)
    requires m < |a| && m < |b| && a[..m] == b[..m] && a[m] != b[m]
    requires NoDup(b) && b[m] in a
    ensures m < i < |a| && a[i] == b[m]
  {
    i :| 0 <= i < |a| && a[i] == b[m];
    assert forall k :: 0 <= k < m ==> a[..m][k] == b[..m][k];
  }

  /** x = a[m] and y = b[m] are both startable after the common prefix, so which becomes startable
      first is decided inside it, the same way in both orders. */
  lemma NoLaterElsewhere(g: Graph, a: seq<string>, b: seq<string>, m: nat, x: string, y: string)
    requires Topological(g, a) && Topological(g, b) && m < |a| && m < |b| && a[..m] == b[..m]
    requires x == a[m] && y == b[m]
    ensures NoLater(g, a, x, y) ==> NoLater(g, b, x, y)
  {
    if NoLater(g, a, x, y) {
      forall k | 0 <= k <= |b| && ReadyAfter(g, b, y, k) ensures ReadyAfter(g, b, x, k) {
        if k <= m {
          assert a[..k] == a[..m][..k] == b[..m][..k] == b[..k];
          assert ReadyAfter(g, a, y, k);
        } else {
          assert Deps(g, x) <= Elems(a[..m]);
          PrefixElems(b, m, k);
        }
      }
    }
  }

  /** Wherever the two have agreed so far, they agree on the next. */
  ghost predicate AgreeNext(a: seq<string>, b: seq<string>) {
    forall m: nat :: m < |a| && m < |b| && a[..m] == b[..m] ==> a[m] == b[m]
  }

  lemma CanonicalAgree(g: Graph, a: seq<string>, b: seq<string>)
    requires Canonical(g, a) && Canonical(g, b)
    ensures AgreeNext(a, b) && |a| == |b|
  {
    NoDupMultiset(a);
    NoDupMultiset(b);
    forall m: nat | m < |a| && m < |b| && a[..m] == b[..m] ensures a[m] == b[m] {
      CanonicalNext(g, a, b, m);
    }
  }

  lemma {:induction false} AgreePrefix(a: seq<string>, b: seq<string>, m: nat)
    requires AgreeNext(a, b) && m <= |a| && m <= |b|
    ensures a[..m] == b[..m]
  {
    if m > 0 {
      AgreePrefix(a, b, m - 1);
      assert a[..m] == a[..m - 1] + [a[m - 1]] && b[..m] == b[..m - 1] + [b[m - 1]];
    }
  }

  /** The startup order is the only one sorted by readiness and name. */
  lemma CanonicalUnique(g: Graph, a: seq<string>, b: seq<string>)
    requires Canonical(g, a) && Canonical(g, b)
    ensures a == b
  {
    CanonicalAgree(g, a, b);
    AgreePrefix(a, b, |a|);
    assert a[..|a|] == a && b[..|b|] == b;
  }
}
