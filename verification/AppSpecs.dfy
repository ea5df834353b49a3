/** The multi-service application spec and its startup order (`src/provisioning/app_spec.rs`). */
module AppSpecs {
  import opened Results
  import opened Names
  import opened Graphs
  import opened StartupSpec

  datatype VolumeMount =
    | Named(volume: string, target: string, readOnly: bool)
    | Bind(source: string, target: string, readOnly: bool)

  datatype ServiceSpec = ServiceSpec(name: string, dependsOn: seq<string>, volumes: seq<VolumeMount>)

  type Edge = (string, string)

  const CYCLE := "dependency cycle detected in app spec"
  const EMPTY := "app spec has no services"
  const DUPLICATE := "duplicate service names in app spec"
  const UNKNOWN := "depends_on unknown service"

  function NamesOf(services: seq<ServiceSpec>): set<string> {
    set s | s in services :: s.name
  }

  ghost predicate DistinctNames(services: seq<ServiceSpec>) {
    forall i, j :: 0 <= i < j < |services| ==> services[i].name != services[j].name
  }

  ghost function DepsOf(services: seq<ServiceSpec>, n: string): set<string> {
    set s, d | s in services && s.name == n && d in s.dependsOn :: d
  }

  /** The graph a spec declares; entries that share a name are merged, as the hash maps do. */
  ghost function GraphOf(services: seq<ServiceSpec>): Graph {
    Graph(map n | n in NamesOf(services) :: DepsOf(services, n))
  }

  // ----- The edge list behind the two hash maps -----

  /** The entries read so far: those of the first i services and the first k of service i. */
  function EdgesTo(services: seq<ServiceSpec>, i: nat, k: nat): seq<Edge>
    requires (i < |services| && k <= |services[i].dependsOn|) || (i == |services| && k == 0)
    decreases i, k
  {
    if k > 0 then EdgesTo(services, i, k - 1) + [(services[i].name, services[i].dependsOn[k - 1])]
    else if i > 0 then EdgesTo(services, i - 1, |services[i - 1].dependsOn|)
    else []
  }

  function EdgesOf(services: seq<ServiceSpec>): seq<Edge> {
    EdgesTo(services, |services|, 0)
  }

  /** How many entries still hold c back once `done` have started. */
  function Pending(es: seq<Edge>, c: string, done: set<string>): nat {
    if es == [] then 0
    else Pending(es[..|es| - 1], c, done) +
         var e := es[|es| - 1]; if e.0 == c && e.1 !in done then 1 else 0
  }

  function ChildrenOf(es: seq<Edge>, d: string): seq<string> {
    if es == [] then []
    else ChildrenOf(es[..|es| - 1], d) +
         var e := es[|es| - 1]; if e.1 == d then [e.0] else []
  }

  lemma ExtendEdges(es: seq<Edge>, e: Edge)
    ensures forall c, done ::
      Pending(es + [e], c, done) == Pending(es, c, done) + if e.0 == c && e.1 !in done then 1 else 0
    ensures forall d :: ChildrenOf(es + [e], d) == ChildrenOf(es, d) + if e.1 == d then [e.0] else []
  {
    assert (es + [e])[..|es|] == es;
  }

  ghost predicate Read(services: seq<ServiceSpec>, i: nat, k: nat, n: string, d: string)
    requires (i < |services| && k <= |services[i].dependsOn|) || (i == |services| && k == 0)
  {
    || (exists j :: 0 <= j < i && services[j].name == n && d in services[j].dependsOn)
    || (i < |services| && services[i].name == n && d in services[i].dependsOn[..k])
  }

  lemma {:induction false} EdgesMembers(services: seq<ServiceSpec>, i: nat, k: nat, n: string, d: string)
    requires (i < |services| && k <= |services[i].dependsOn|) || (i == |services| && k == 0)
    ensures (n, d) in EdgesTo(services, i, k) <==> Read(services, i, k, n, d)
    decreases i, k
  {
    if k > 0 {
      EdgesMembers(services, i, k - 1, n, d);
      var deps := services[i].dependsOn;
      assert deps[..k] == deps[..k - 1] + [deps[k - 1]];
    } else if i > 0 {
      var deps := services[i - 1].dependsOn;
      EdgesMembers(services, i - 1, |deps|, n, d);
      assert deps[..|deps|] == deps;
    }
  }

  lemma EdgesAreDeps(services: seq<ServiceSpec>, n: string, d: string)
    ensures (n, d) in EdgesOf(services) <==> n in NamesOf(services) && d in Deps(GraphOf(services), n)
  {
    EdgesMembers(services, |services|, 0, n, d);
  }

  lemma {:induction false} PendingZero(es: seq<Edge>, c: string, done: set<string>)
    ensures Pending(es, c, done) == 0 <==> forall e :: e in es && e.0 == c ==> e.1 in done
  {
    if es != [] {
      var k := |es| - 1;
      PendingZero(es[..k], c, done);
      assert es == es[..k] + [es[k]];
    }
  }

  lemma {:induction false} ChildrenMembers(es: seq<Edge>, d: string, c: string)
    ensures c in ChildrenOf(es, d) <==> (c, d) in es
  {
    if es != [] {
      var k := |es| - 1;
      ChildrenMembers(es[..k], d, c);
      assert es == es[..k] + [es[k]];
    }
  }

  /** Starting n releases exactly as many of c's entries as n's child list names c. */
  lemma {:induction false} PendingStep(es: seq<Edge>, c: string, done: set<string>, n: string)
    requires n !in done
    ensures Pending(es, c, done) == Pending(es, c, done + {n}) + multiset(ChildrenOf(es, n))[c]
  {
    if es != [] {
      PendingStep(es[..|es| - 1], c, done, n);
    }
  }

  // ----- startup_order -----

  /** The in-degree map and the dependents map `startup_order` builds first. */
  ghost predicate Tables(names: set<string>, indegree: map<string, nat>, dependents: map<string, seq<string>>,
                         es: seq<Edge>, done: set<string>)
  {
    && indegree.Keys == names
    && (forall c :: c in indegree ==> indegree[c] == Pending(es, c, done))
    && (forall d :: ChildrenOf(es, d) == Dependents(dependents, d))
  }

  function Dependents(dependents: map<string, seq<string>>, d: string): seq<string> {
    if d in dependents then dependents[d] else []
  }

  lemma TablesAddName(names: set<string>, indegree: map<string, nat>, dependents: map<string, seq<string>>,
                      es: seq<Edge>, n: string)
    requires Tables(names, indegree, dependents, es, {})
    requires forall e :: e in es ==> e.0 in names
    ensures Tables(names + {n}, if n in indegree then indegree else indegree[n := 0], dependents, es, {})
  {
    if n !in indegree {
      PendingZero(es, n, {});
    }
  }

  lemma TablesAddEdge(names: set<string>, indegree: map<string, nat>, dependents: map<string, seq<string>>,
                      es: seq<Edge>, n: string, d: string)
    requires Tables(names, indegree, dependents, es, {}) && n in indegree
    ensures Tables(names, indegree[n := indegree[n] + 1],
                   dependents[d := Dependents(dependents, d) + [n]], es + [(n, d)], {})
  {
    ExtendEdges(es, (n, d));
  }

  method BuildTables(services: seq<ServiceSpec>)
    returns (indegree: map<string, nat>, dependents: map<string, seq<string>>)
    ensures Tables(NamesOf(services), indegree, dependents, EdgesOf(services), {})
  {
    indegree, dependents := map[], map[];
    ghost var names := {};
    for i := 0 to |services|
      invariant names == NamesOf(services[..i])
      invariant Tables(names, indegree, dependents, EdgesTo(services, i, 0), {})
    {
      var svc := services[i];
      ReadNames(services, i);
      TablesAddName(names, indegree, dependents, EdgesTo(services, i, 0), svc.name);
      indegree := if svc.name in indegree then indegree else indegree[svc.name := 0];
      NextName(services, i);
      names := names + {svc.name};
      indegree, dependents := ReadDependencies(services, i, names, indegree, dependents);
    }
    assert services[..|services|] == services;
  }

  /** The inner loop over one service's `depends_on`. */
  method ReadDependencies(services: seq<ServiceSpec>, i: nat, ghost names: set<string>,
                          indegree0: map<string, nat>, dependents0: map<string, seq<string>>)
    returns (indegree: map<string, nat>, dependents: map<string, seq<string>>)
    requires i < |services| && services[i].name in names
    requires Tables(names, indegree0, dependents0, EdgesTo(services, i, 0), {})
    ensures Tables(names, indegree, dependents, EdgesTo(services, i + 1, 0), {})
  {
    indegree, dependents := indegree0, dependents0;
    var name, deps := services[i].name, services[i].dependsOn;
    for k := 0 to |deps|
      invariant Tables(names, indegree, dependents, EdgesTo(services, i, k), {})
    {
      TablesAddEdge(names, indegree, dependents, EdgesTo(services, i, k), name, deps[k]);
      indegree := indegree[name := indegree[name] + 1];
      dependents := dependents[deps[k] := Dependents(dependents, deps[k]) + [name]];
    }
  }

  lemma NextName(services: seq<ServiceSpec>, i: nat)
    requires i < |services|
    ensures NamesOf(services[..i + 1]) == NamesOf(services[..i]) + {services[i].name}
  {
    assert services[..i + 1] == services[..i] + [services[i]];
  }

  lemma ReadNames(services: seq<ServiceSpec>, i: nat)
    requires i <= |services|
    ensures forall e :: e in EdgesTo(services, i, 0) ==> e.0 in NamesOf(services[..i])
  {
    forall e | e in EdgesTo(services, i, 0) ensures e.0 in NamesOf(services[..i]) {
      EdgesMembers(services, i, 0, e.0, e.1);
      var j :| 0 <= j < i && services[j].name == e.0;
      assert services[j] == services[..i][j];
    }
  }

  /** The services with no dependencies, collected in whatever order the hash map iterates. */
  method CollectReady(indegree: map<string, nat>) returns (ready: seq<string>)
    ensures NoDup(ready) && Elems(ready) == set n | n in indegree && indegree[n] == 0
  {
    ready := [];
    var left := indegree.Keys;
    while left != {}
      invariant left <= indegree.Keys && NoDup(ready)
      invariant forall n :: n in ready <==> n in indegree && n !in left && indegree[n] == 0
    {
      var n :| n in left;
      left := left - {n};
      if indegree[n] == 0 {
        ready := ready + [n];
      }
    }
  }

  lemma NextChild(children: seq<string>, k: nat)
    requires k < |children|
    ensures children[..k + 1] == children[..k] + [children[k]]
    ensures multiset(children[..k + 1]) == multiset(children[..k]) + multiset{children[k]}
    ensures multiset(children[..k])[children[k]] < multiset(children)[children[k]]
  {
    assert children[..k + 1] == children[..k] + [children[k]];
    assert children == children[..k + 1] + children[k + 1..];
    assert multiset(children) == multiset(children[..k + 1]) + multiset(children[k + 1..]);
  }

  /** The inner loop: count a started service off its dependents and collect those that reach zero. */
  method CountOff(children: seq<string>, before: map<string, nat>)
    returns (indegree: map<string, nat>, ready: seq<string>)
    requires forall c :: c in children ==> c in before
    requires forall c :: c in before ==> multiset(children)[c] <= before[c]
    ensures indegree.Keys == before.Keys
    ensures forall c :: c in before ==> indegree[c] == before[c] - multiset(children)[c]
    ensures NoDup(ready) && Elems(ready) == set c | c in children && indegree[c] == 0
  {
    indegree, ready := before, [];
    for k := 0 to |children|
      invariant indegree.Keys == before.Keys && NoDup(ready)
      invariant forall c :: c in before ==> indegree[c] + multiset(children[..k])[c] == before[c]
      invariant forall c :: c in ready <==> c in children[..k] && indegree[c] == 0
    {
      var c := children[k];
      NextChild(children, k);
      indegree := indegree[c := indegree[c] - 1];
      if indegree[c] == 0 {
        ready := ready + [c];
      }
    }
    assert children[..|children|] == children;
  }

  lemma CountOffFinds(services: seq<ServiceSpec>, indegree: map<string, nat>, dependents: map<string, seq<string>>,
                      done: set<string>, n: string)
    requires Tables(NamesOf(services), indegree, dependents, EdgesOf(services), done) && n !in done
    ensures forall c :: c in ChildrenOf(EdgesOf(services), n) ==> c in indegree
    ensures forall c :: c in indegree ==>
      multiset(ChildrenOf(EdgesOf(services), n))[c] <= indegree[c] &&
      Pending(EdgesOf(services), c, done + {n}) == indegree[c] - multiset(ChildrenOf(EdgesOf(services), n))[c]
  {
    var es := EdgesOf(services);
    forall c | c in ChildrenOf(es, n) ensures c in indegree {
      ChildrenMembers(es, n, c);
      EdgesAreDeps(services, c, n);
    }
    forall c | c in indegree
      ensures multiset(ChildrenOf(es, n))[c] <= indegree[c]
      ensures Pending(es, c, done + {n}) == indegree[c] - multiset(ChildrenOf(es, n))[c]
    {
      PendingStep(es, c, done, n);
    }
  }

  lemma ZeroMeansStartable(services: seq<ServiceSpec>, c: string, done: set<string>)
    ensures Pending(EdgesOf(services), c, done) == 0 <==> Deps(GraphOf(services), c) <= done
  {
    var es := EdgesOf(services);
    PendingZero(es, c, done);
    forall d ensures (c, d) in es <==> d in Deps(GraphOf(services), c) {
      EdgesAreDeps(services, c, d);
    }
    forall e | e in es && e.0 == c ensures e == (c, e.1) {
    }
  }

  lemma ReadyIsNewlyReady(services: seq<ServiceSpec>, indegree: map<string, nat>, dependents: map<string, seq<string>>,
                          done: set<string>, n: string)
    requires Tables(NamesOf(services), indegree, dependents, EdgesOf(services), done)
    ensures (set c | c in ChildrenOf(EdgesOf(services), n) && c in indegree && indegree[c] == 0)
         == NewlyReady(GraphOf(services), n, done)
  {
    var es := EdgesOf(services);
    forall c
      ensures (c in ChildrenOf(es, n) && c in indegree && indegree[c] == 0)
              <==> c in NewlyReady(GraphOf(services), n, done)
    {
      ChildrenMembers(es, n, c);
      EdgesAreDeps(services, c, n);
      ZeroMeansStartable(services, c, done);
    }
  }

  lemma DistinctIff(services: seq<ServiceSpec>)
    ensures |NamesOf(services)| <= |services|
    ensures |NamesOf(services)| == |services| <==> DistinctNames(services)
  {
    var names := seq(|services|, i requires 0 <= i < |services| => services[i].name);
    ElemsSize(names);
    forall n ensures n in NamesOf(services) <==> n in Elems(names) {
      if n in names {
        var i :| 0 <= i < |services| && names[i] == n;
        assert services[i] in services;
      }
      if n in NamesOf(services) {
        var s :| s in services && s.name == n;
        var i :| 0 <= i < |services| && services[i] == s;
        assert names[i] == n;
      }
    }
    assert NamesOf(services) == Elems(names);
    forall i, j | 0 <= i < j < |services| ensures names[i] == services[i].name && names[j] == services[j].name {
    }
  }

  /** The loop state of `startup_order`: `order` is started, `queue` waits. */
  ghost predicate Starting(services: seq<ServiceSpec>, indegree: map<string, nat>, dependents: map<string, seq<string>>,
                           order: seq<string>, queue: seq<string>)
  {
    && Queueing(GraphOf(services), order + queue, |order|)
    && Drain(GraphOf(services), order + queue, |order|) == StartOrder(GraphOf(services))
    && Tables(NamesOf(services), indegree, dependents, EdgesOf(services), Elems(order))
  }

  method StartRoots(services: seq<ServiceSpec>, indegree: map<string, nat>, ghost dependents: map<string, seq<string>>)
    returns (queue: seq<string>)
    requires Tables(NamesOf(services), indegree, dependents, EdgesOf(services), {})
    ensures Starting(services, indegree, dependents, [], queue)
  {
    ghost var g := GraphOf(services);
    var ready := CollectReady(indegree);
    forall c ensures c in Elems(ready) <==> c in Startable(g, {}) {
      ZeroMeansStartable(services, c, {});
    }
    assert Elems(ready) == Startable(g, {});
    SortIsListing(ready);
    queue := Sort(ready);
    RootsQueue(g);
    assert [] + queue == Roots(g);
    assert Elems<string>([]) == {};
  }

  /** Count a started service off, and sort what that makes ready. */
  method Release(services: seq<ServiceSpec>, indegree0: map<string, nat>, dependents: map<string, seq<string>>,
                 ghost done: set<string>, n: string)
    returns (indegree: map<string, nat>, ready: seq<string>)
    requires Tables(NamesOf(services), indegree0, dependents, EdgesOf(services), done) && n !in done
    ensures Tables(NamesOf(services), indegree, dependents, EdgesOf(services), done + {n})
    ensures ready == Listing(NewlyReady(GraphOf(services), n, done + {n}))
  {
    ghost var children := ChildrenOf(EdgesOf(services), n);
    CountOffFinds(services, indegree0, dependents, done, n);
    assert children == Dependents(dependents, n);
    indegree := indegree0;
    var newlyReady := [];
    if n in dependents {
      indegree, newlyReady := CountOff(dependents[n], indegree0);
    }
    ReadyIsNewlyReady(services, indegree, dependents, done + {n}, n);
    assert Elems(newlyReady) == NewlyReady(GraphOf(services), n, done + {n});
    SortIsListing(newlyReady);
    ready := Sort(newlyReady);
  }

  lemma FrontOfQueue(order: seq<string>, queue: seq<string>)
    requires queue != [] && NoDup(order + queue)
    ensures (order + queue)[..|order| + 1] == order + [queue[0]]
    ensures queue[0] !in order && Elems(order + [queue[0]]) == Elems(order) + {queue[0]}
  {
    assert (order + queue)[|order|] == queue[0];
    forall i | 0 <= i < |order| ensures order[i] != queue[0] {
      assert (order + queue)[i] == order[i];
    }
    AppendElems(order, [queue[0]]);
    assert Elems([queue[0]]) == {queue[0]};
  }

  lemma Regroup(order: seq<string>, queue: seq<string>, ready: seq<string>)
    requires queue != []
    ensures order + [queue[0]] + (queue[1..] + ready) == order + queue + ready
  {
  }

  lemma PopAsQueue(g: Graph, order: seq<string>, queue: seq<string>)
    requires queue != [] && Queueing(g, order + queue, |order|)
    ensures queue[0] !in order && Elems(order + [queue[0]]) == Elems(order) + {queue[0]}
    ensures var ready := Listing(NewlyReady(g, queue[0], Elems(order) + {queue[0]}));
      && Queueing(g, order + [queue[0]] + (queue[1..] + ready), |order| + 1)
      && Drain(g, order + [queue[0]] + (queue[1..] + ready), |order| + 1) == Drain(g, order + queue, |order|)
  {
    FrontOfQueue(order, queue);
    PopKeepsQueueing(g, order + queue, |order|);
    Regroup(order, queue, Listing(NewlyReady(g, queue[0], Elems(order) + {queue[0]})));
  }

  /** One iteration: pop the front of the queue and append what it makes ready, sorted. */
  method StartNext(services: seq<ServiceSpec>, indegree0: map<string, nat>, dependents: map<string, seq<string>>,
                   ghost order: seq<string>, queue0: seq<string>)
    returns (indegree: map<string, nat>, queue: seq<string>)
    requires queue0 != [] && Starting(services, indegree0, dependents, order, queue0)
    ensures Starting(services, indegree, dependents, order + [queue0[0]], queue)
  {
    PopAsQueue(GraphOf(services), order, queue0);
    var ready;
    indegree, ready := Release(services, indegree0, dependents, Elems(order), queue0[0]);
    queue := queue0[1..] + ready;
  }

  /** Start services, dependencies first. Total: it accepts exactly the specs whose names are distinct,
      whose dependencies all exist and whose dependency graph has no cycle, whatever `validate` said. */
  method StartupOrder(services: seq<ServiceSpec>) returns (r: Result<seq<string>, string>)
    ensures r.Ok? <==> DistinctNames(services) && Resolved(GraphOf(services)) && Acyclic(GraphOf(services))
    ensures r.Ok? ==> r.value == StartOrder(GraphOf(services)) && Elems(r.value) == NamesOf(services)
    ensures r.Err? ==> r.error == CYCLE
    ensures r == StartupAnswer(services)
  {
    ghost var g := GraphOf(services);
    var indegree, dependents := BuildTables(services);
    var queue := StartRoots(services, indegree, dependents);
    var order := [];
    while queue != []
      invariant Starting(services, indegree, dependents, order, queue)
      decreases |g.deps.Keys| - |order|
    {
      QueueFits(g, order + queue, |order|);
      var n := queue[0];
      indegree, queue := StartNext(services, indegree, dependents, order, queue);
      order := order + [n];
    }
    Started(services, indegree, dependents, order);
    if |order| != |services| {
      return Err(CYCLE);
    }
    return Ok(order);
  }

  /** What the length test at the end of `startup_order` decides. */
  lemma Started(services: seq<ServiceSpec>, indegree: map<string, nat>, dependents: map<string, seq<string>>,
                order: seq<string>)
    requires Starting(services, indegree, dependents, order, [])
    ensures order == StartOrder(GraphOf(services))
    ensures |order| == |services|
            <==> DistinctNames(services) && Resolved(GraphOf(services)) && Acyclic(GraphOf(services))
    ensures |order| == |services| ==> Elems(order) == NamesOf(services)
  {
    var g := GraphOf(services);
    assert order + [] == order;
    StartsAllIff(g);
    DistinctIff(services);
    StartOrderFits(g);
    assert g.deps.Keys == NamesOf(services);
  }

  /** On a spec that `validate` lets through to the sort, a refusal comes with a dependency cycle among
      services that were never started. */
  lemma RefusalHasCycle(services: seq<ServiceSpec>) returns (c: seq<string>)
    requires Resolved(GraphOf(services)) && !Acyclic(GraphOf(services))
    ensures IsCycle(GraphOf(services), c)
    ensures forall n :: n in c ==> n in NamesOf(services) && n !in StartOrder(GraphOf(services))
  {
    StartsAllIff(GraphOf(services));
    NoDupMultiset(StartOrder(GraphOf(services)));
    c := CycleAmongUnstarted(GraphOf(services));
  }

  /** Everything an accepted spec's order promises: each service once, dependencies first, in waves of
      non-decreasing depth, and sorted by readiness then name, which no other order is. */
  lemma AcceptedOrder(services: seq<ServiceSpec>)
    requires Resolved(GraphOf(services)) && Acyclic(GraphOf(services))
    ensures Canonical(GraphOf(services), StartOrder(GraphOf(services)))
    ensures InWaves(GraphOf(services), StartOrder(GraphOf(services)))
    ensures forall o :: Canonical(GraphOf(services), o) ==> o == StartOrder(GraphOf(services))
  {
    var g := GraphOf(services);
    StartsAllIff(g);
    StartOrderByReadiness(g);
    StartOrderInWaves(g);
    forall o | Canonical(g, o) ensures o == StartOrder(g) {
      CanonicalUnique(g, o, StartOrder(g));
    }
  }

  /** What `startup_order` answers. */
  ghost function StartupAnswer(services: seq<ServiceSpec>): Result<seq<string>, string> {
    var g := GraphOf(services);
    if DistinctNames(services) && Resolved(g) && Acyclic(g) then Ok(StartOrder(g)) else Err(CYCLE)
  }

  /** Both declare the same names and, whatever their order and repetition, the same dependencies. */
  ghost predicate SameEdges(a: seq<ServiceSpec>, b: seq<ServiceSpec>) {
    && NamesOf(a) == NamesOf(b)
    && (forall s, d :: s in a && d in s.dependsOn ==> exists t :: t in b && t.name == s.name && d in t.dependsOn)
    && (forall t, d :: t in b && d in t.dependsOn ==> exists s :: s in a && s.name == t.name && d in s.dependsOn)
  }

  lemma SameGraph(a: seq<ServiceSpec>, b: seq<ServiceSpec>)
    requires SameEdges(a, b)
    ensures GraphOf(a) == GraphOf(b)
  {
    forall n | n in NamesOf(a) ensures DepsOf(a, n) == DepsOf(b, n) {
    }
  }

  /** Declaration order, and the order and repetition of `depends_on` entries, are not significant: two specs
      that differ in nothing else are accepted alike and given the same order. Declaring a service twice is
      significant: it makes the names not distinct, which is refused. */
  lemma OrderInsensitive(a: seq<ServiceSpec>, b: seq<ServiceSpec>)
    requires SameEdges(a, b)
    ensures |a| == |b| ==> StartupAnswer(a) == StartupAnswer(b)
    ensures StartupAnswer(a).Ok? && StartupAnswer(b).Ok? ==> StartupAnswer(a) == StartupAnswer(b) && |a| == |b|
    ensures StartupAnswer(a).Ok? ==> (StartupAnswer(b).Ok? <==> |a| == |b|)
  {
    SameGraph(a, b);
    DistinctIff(a);
    DistinctIff(b);
  }

  // ----- validate -----

  lemma DeclaredIsDep(services: seq<ServiceSpec>, i: nat, k: nat)
    requires i < |services| && k < |services[i].dependsOn|
    ensures services[i].name in GraphOf(services).deps
    ensures services[i].dependsOn[k] in GraphOf(services).deps[services[i].name]
  {
    var s := services[i];
    assert s in services && s.dependsOn[k] in s.dependsOn;
  }

  /** Non-empty, distinct names, every dependency declared, and no cycle. */
  method Validate(services: seq<ServiceSpec>) returns (r: Result<(), string>)
    ensures r.Ok?
            <==> services != [] && DistinctNames(services) && Resolved(GraphOf(services)) && Acyclic(GraphOf(services))
    ensures r == Err(EMPTY) <==> services == []
    ensures r == Err(DUPLICATE) <==> services != [] && !DistinctNames(services)
    ensures r == Err(UNKNOWN) <==> services != [] && DistinctNames(services) && !Resolved(GraphOf(services))
  {
    if services == [] {
      return Err(EMPTY);
    }
    var names := NamesOf(services);
    DistinctIff(services);
    if |names| != |services| {
      return Err(DUPLICATE);
    }
    for i := 0 to |services|
      invariant forall s :: s in services[..i] ==> Elems(s.dependsOn) <= names
    {
      var svc := services[i];
      for k := 0 to |svc.dependsOn|
        invariant Elems(svc.dependsOn[..k]) <= names
      {
        if svc.dependsOn[k] !in names {
          DeclaredIsDep(services, i, k);
          assert svc.dependsOn[k] !in GraphOf(services).deps;
          assert svc.dependsOn[k] in GraphOf(services).deps[svc.name];
          return Err(UNKNOWN);
        }
        assert svc.dependsOn[..k + 1] == svc.dependsOn[..k] + [svc.dependsOn[k]];
      }
      assert svc.dependsOn[..|svc.dependsOn|] == svc.dependsOn;
      assert services[..i + 1] == services[..i] + [svc];
    }
    assert services[..|services|] == services;
    forall n, d | n in NamesOf(services) && d in DepsOf(services, n) ensures d in names {
      var s :| s in services && s.name == n && d in s.dependsOn;
      assert d in Elems(s.dependsOn);
    }
    var order := StartupOrder(services);
    return match order case Ok(_) => Ok(()) case Err(e) => Err(e);
  }

  /** Look up a service by name: the first declared one. */
  method Service(services: seq<ServiceSpec>, name: string) returns (r: Option<ServiceSpec>)
    ensures r.Some? <==> name in NamesOf(services)
    ensures r.Some? ==> exists i :: 0 <= i < |services| && services[i] == r.value && r.value.name == name
                                    && forall j :: 0 <= j < i ==> services[j].name != name
  {
    for i := 0 to |services|
      invariant forall j :: 0 <= j < i ==> services[j].name != name
    {
      if services[i].name == name {
        return Some(services[i]);
      }
    }
    return None;
  }
}
