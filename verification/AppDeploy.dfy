/** Deploying an app on a local container engine (`src/provisioning/app_deploy.rs`): the calls made, in
    order, against an engine whose answers are arbitrary. */
module AppDeploy {
  import opened Results
  import opened Names
  import opened Graphs
  import opened StartupSpec
  import opened AppSpecs

  /** A volume is labelled with the service it was created for. */
  datatype Call =
    | CreateNetwork
    | CreateVolume(logical: string, owner: string)
    | PrepareImage(service: string)
    | CreateContainer(service: string)
    | StartContainer(service: string)

  const FAILED := "container engine call failed"

  class Engine {
    /** Whether the k-th call succeeds. */
    const works: nat -> bool
    var log: seq<Call>

    constructor (works: nat -> bool)
      ensures this.works == works && log == []
    {
      this.works, log := works, [];
    }

    method Do(call: Call) returns (ok: bool)
      modifies this
      ensures log == old(log) + [call] && ok == works(|old(log)|)
    {
      ok := works(|log|);
      log := log + [call];
    }
  }

  // ----- The plan -----

  /** Which service mounts which named volume. */
  datatype Use = Use(logical: string, owner: string)

  /** The named mounts before mount k of service i, in declaration order. */
  function Uses(services: seq<ServiceSpec>, i: nat, k: nat): seq<Use>
    requires i <= |services| && (if i < |services| then k <= |services[i].volumes| else k == 0)
    decreases i, k
  {
    if k > 0 then
      var m := services[i].volumes[k - 1];
      Uses(services, i, k - 1) + if m.Named? then [Use(m.volume, services[i].name)] else []
    else if i > 0 then Uses(services, i - 1, |services[i - 1].volumes|)
    else []
  }

  function AllUses(services: seq<ServiceSpec>): seq<Use> { Uses(services, |services|, 0) }

  predicate Mentions(uses: seq<Use>, logical: string) {
    exists j :: 0 <= j < |uses| && uses[j].logical == logical
  }

  /** The first use of each volume. */
  function Firsts(uses: seq<Use>): seq<Call> {
    if uses == [] then []
    else
      var k := |uses| - 1;
      var first := if Mentions(uses[..k], uses[k].logical) then [] else [CreateVolume(uses[k].logical, uses[k].owner)];
      Firsts(uses[..k]) + first
  }

  function StartCalls(service: string): seq<Call> {
    [PrepareImage(service), CreateContainer(service), StartContainer(service)]
  }

  function Starts(order: seq<string>): seq<Call> {
    if order == [] then [] else Starts(order[..|order| - 1]) + StartCalls(order[|order| - 1])
  }

  ghost function Plan(services: seq<ServiceSpec>): seq<Call> {
    [CreateNetwork] + Firsts(AllUses(services)) + Starts(StartOrder(GraphOf(services)))
  }

  ghost predicate Deployable(services: seq<ServiceSpec>) {
    services != [] && DistinctNames(services) && Resolved(GraphOf(services)) && Acyclic(GraphOf(services))
  }

  // ----- Volumes -----

  lemma {:induction false} UsesExtend(services: seq<ServiceSpec>, i: nat, k: nat)
    requires i < |services| && k <= |services[i].volumes|
    ensures Uses(services, i, k) <= AllUses(services)
    decreases |services| - i, |services[i].volumes| - k
  {
    if k < |services[i].volumes| {
      UsesExtend(services, i, k + 1);
    } else if i + 1 < |services| {
      UsesExtend(services, i + 1, 0);
    }
  }

  lemma {:induction false} FirstsExtend(a: seq<Use>, b: seq<Use>)
    requires a <= b
    ensures Firsts(a) <= Firsts(b)
  {
    if a == b {
    } else {
      var k := |b| - 1;
      assert a == b[..k][..|a|];
      FirstsExtend(a, b[..k]);
    }
  }

  ghost predicate FirstAt(uses: seq<Use>, i: nat, u: Use) {
    i < |uses| && uses[i] == u && !Mentions(uses[..i], u.logical)
  }

  ghost predicate IsFirst(uses: seq<Use>, u: Use) {
    exists i: nat :: FirstAt(uses, i, u)
  }

  lemma NextFirst(uses: seq<Use>, u: Use)
    requires uses != []
    ensures var k := |uses| - 1;
            IsFirst(uses, u) <==> IsFirst(uses[..k], u) || (uses[k] == u && !Mentions(uses[..k], u.logical))
  {
    var k := |uses| - 1;
    forall i: nat | i < k ensures FirstAt(uses, i, u) <==> FirstAt(uses[..k], i, u) {
      assert uses[..k][..i] == uses[..i];
    }
    assert FirstAt(uses, k, u) <==> uses[k] == u && !Mentions(uses[..k], u.logical);
  }

  lemma FirstIsMentioned(uses: seq<Use>, u: Use)
    requires IsFirst(uses, u)
    ensures Mentions(uses, u.logical)
  {
  }

  /** Each volume mounted anywhere is created exactly once, for the first service that mounts it. */
  lemma {:induction false} FirstsOnce(uses: seq<Use>)
    ensures forall c :: c in Firsts(uses) <==> c.CreateVolume? && IsFirst(uses, Use(c.logical, c.owner))
    ensures forall i, j :: 0 <= i < j < |Firsts(uses)| ==> Firsts(uses)[i].logical != Firsts(uses)[j].logical
  {
    if uses != [] {
      var k := |uses| - 1;
      var init := uses[..k];
      FirstsOnce(init);
      forall c ensures c in Firsts(uses) <==> c.CreateVolume? && IsFirst(uses, Use(c.logical, c.owner)) {
        if c.CreateVolume? {
          NextFirst(uses, Use(c.logical, c.owner));
        }
      }
      forall i | 0 <= i < |Firsts(init)| ensures Mentions(init, Firsts(init)[i].logical) {
        assert Firsts(init)[i] in Firsts(init);
        FirstIsMentioned(init, Use(Firsts(init)[i].logical, Firsts(init)[i].owner));
      }
    }
  }

  /** Every mount of a spec is among its uses. */
  lemma {:induction false} MountIsUse(services: seq<ServiceSpec>, i: nat, k: nat)
    requires i < |services| && k < |services[i].volumes| && services[i].volumes[k].Named?
    ensures Mentions(AllUses(services), services[i].volumes[k].volume)
  {
    var uses := Uses(services, i, k + 1);
    UsesExtend(services, i, k + 1);
    assert uses[|uses| - 1].logical == services[i].volumes[k].volume;
    assert AllUses(services)[|uses| - 1] == uses[|uses| - 1];
  }

  lemma {:induction false} FirstUse(uses: seq<Use>, v: string) returns (i: nat)
    requires Mentions(uses, v)
    ensures i < |uses| && uses[i].logical == v && FirstAt(uses, i, uses[i])
  {
    var k := |uses| - 1;
    if Mentions(uses[..k], v) {
      i := FirstUse(uses[..k], v);
      assert uses[..k][..i] == uses[..i];
    } else {
      i := k;
    }
  }

  /** Where a mount is declared. */
  datatype Spot = Spot(service: nat, mount: nat)

  predicate DeclaredBefore(a: Spot, b: Spot) {
    a.service < b.service || (a.service == b.service && a.mount < b.mount)
  }

  predicate IsNamedMount(services: seq<ServiceSpec>, at: Spot) {
    && at.service < |services| && at.mount < |services[at.service].volumes|
    && services[at.service].volumes[at.mount].Named?
  }

  function UseAt(services: seq<ServiceSpec>, at: Spot): Use
    requires IsNamedMount(services, at)
  {
    Use(services[at.service].volumes[at.mount].volume, services[at.service].name)
  }

  /** The uses are the named mounts declared at these spots, all of those before `end`, in order. */
  ghost predicate Declares(services: seq<ServiceSpec>, uses: seq<Use>, spots: seq<Spot>, end: Spot) {
    && |spots| == |uses|
    && (forall m :: 0 <= m < |uses| ==> IsNamedMount(services, spots[m]) && uses[m] == UseAt(services, spots[m]))
    && (forall m :: 0 <= m < |spots| ==> DeclaredBefore(spots[m], end))
    && (forall m, n :: 0 <= m < n < |spots| ==> DeclaredBefore(spots[m], spots[n]))
    && (forall at :: IsNamedMount(services, at) && DeclaredBefore(at, end) ==> at in spots)
  }

  lemma {:induction false} UsesDeclared(services: seq<ServiceSpec>, i: nat, k: nat) returns (spots: seq<Spot>)
    requires i <= |services| && (if i < |services| then k <= |services[i].volumes| else k == 0)
    ensures Declares(services, Uses(services, i, k), spots, Spot(i, k))
    decreases i, k
  {
    if k > 0 {
      spots := UsesDeclared(services, i, k - 1);
      OneMount(services, Uses(services, i, k - 1), spots, i, k - 1);
      if services[i].volumes[k - 1].Named? {
        spots := spots + [Spot(i, k - 1)];
      } else {
        assert Uses(services, i, k) == Uses(services, i, k - 1);
      }
    } else if i > 0 {
      spots := UsesDeclared(services, i - 1, |services[i - 1].volumes|);
      NextService(services, Uses(services, i, 0), spots, i);
    } else {
      spots := [];
    }
  }

  lemma OneMount(services: seq<ServiceSpec>, uses: seq<Use>, spots: seq<Spot>, i: nat, k: nat)
    requires i < |services| && k < |services[i].volumes| && Declares(services, uses, spots, Spot(i, k))
    ensures var m := services[i].volumes[k];
            if m.Named? then
              Declares(services, uses + [Use(m.volume, services[i].name)], spots + [Spot(i, k)], Spot(i, k + 1))
            else Declares(services, uses, spots, Spot(i, k + 1))
  {
    forall at | IsNamedMount(services, at) && DeclaredBefore(at, Spot(i, k + 1))
      ensures at == Spot(i, k) || at in spots
    {
      assert at == Spot(i, k) || DeclaredBefore(at, Spot(i, k));
    }
  }

  lemma NextService(services: seq<ServiceSpec>, uses: seq<Use>, spots: seq<Spot>, i: nat)
    requires 0 < i <= |services| && Declares(services, uses, spots, Spot(i - 1, |services[i - 1].volumes|))
    ensures Declares(services, uses, spots, Spot(i, 0))
  {
  }

  ghost predicate MountsNamed(services: seq<ServiceSpec>, i: nat, v: string) {
    exists k: nat :: IsNamedMount(services, Spot(i, k)) && services[i].volumes[k].volume == v
  }

  /** The first declared service that mounts the volume. */
  ghost predicate FirstMounts(services: seq<ServiceSpec>, i: nat, v: string) {
    MountsNamed(services, i, v) && forall j: nat :: j < i ==> !MountsNamed(services, j, v)
  }

  lemma UseOf(services: seq<ServiceSpec>, spots: seq<Spot>, i: nat, v: string) returns (m: nat)
    requires Declares(services, AllUses(services), spots, Spot(|services|, 0)) && MountsNamed(services, i, v)
    ensures m < |spots| && spots[m].service == i && AllUses(services)[m].logical == v
  {
    var k: nat :| IsNamedMount(services, Spot(i, k)) && services[i].volumes[k].volume == v;
    assert Spot(i, k) in spots;
    m :| 0 <= m < |spots| && spots[m] == Spot(i, k);
  }

  lemma MentionedBefore(uses: seq<Use>, m: nat, n: nat)
    requires n < m <= |uses|
    ensures Mentions(uses[..m], uses[n].logical)
  {
    assert uses[..m][n] == uses[n];
  }

  lemma FirstUseLeast(uses: seq<Use>, m: nat, n: nat)
    requires m < |uses| && FirstAt(uses, m, uses[m]) && n < |uses| && uses[n].logical == uses[m].logical
    ensures m <= n
  {
    if n < m {
      MentionedBefore(uses, m, n);
    }
  }

  lemma NoEarlierMount(services: seq<ServiceSpec>, spots: seq<Spot>, m: nat, j: nat)
    requires Declares(services, AllUses(services), spots, Spot(|services|, 0)) && m < |spots|
    requires FirstAt(AllUses(services), m, AllUses(services)[m])
    requires MountsNamed(services, j, AllUses(services)[m].logical)
    ensures spots[m].service <= j
  {
    var n := UseOf(services, spots, j, AllUses(services)[m].logical);
    FirstUseLeast(AllUses(services), m, n);
  }

  /** The first use of a volume is by the first service that mounts it. */
  lemma FirstUseIsFirstMount(services: seq<ServiceSpec>, spots: seq<Spot>, m: nat)
    requires Declares(services, AllUses(services), spots, Spot(|services|, 0)) && m < |spots|
    requires FirstAt(AllUses(services), m, AllUses(services)[m])
    ensures FirstMounts(services, spots[m].service, AllUses(services)[m].logical)
  {
    var uses := AllUses(services);
    assert IsNamedMount(services, Spot(spots[m].service, spots[m].mount));
    forall j: nat | MountsNamed(services, j, uses[m].logical) ensures spots[m].service <= j {
      NoEarlierMount(services, spots, m, j);
    }
  }

  /** Each volume is created for the first declared service that mounts it, and only those are created. */
  lemma VolumeOwner(services: seq<ServiceSpec>, v: string, owner: string)
    ensures CreateVolume(v, owner) in Firsts(AllUses(services)) <==>
              exists i: nat :: FirstMounts(services, i, v) && services[i].name == owner
  {
    var uses := AllUses(services);
    var spots := UsesDeclared(services, |services|, 0);
    FirstsOnce(uses);
    if CreateVolume(v, owner) in Firsts(uses) {
      var m: nat :| FirstAt(uses, m, Use(v, owner));
      FirstUseIsFirstMount(services, spots, m);
    }
    if i: nat :| FirstMounts(services, i, v) && services[i].name == owner {
      var n := UseOf(services, spots, i, v);
      assert uses[n].logical == v;
      var m := FirstUse(uses, v);
      FirstUseIsFirstMount(services, spots, m);
      assert spots[m].service == i;
      assert FirstAt(uses, m, Use(v, owner));
    }
  }

  // ----- Starts -----

  lemma {:induction false} StartsExtend(order: seq<string>, i: nat)
    requires i < |order|
    ensures Starts(order[..i]) + StartCalls(order[i]) == Starts(order[..i + 1]) <= Starts(order)
  {
    assert order[..i + 1][..i] == order[..i];
    if i + 1 < |order| {
      StartsExtend(order[..|order| - 1], i);
      assert order[..|order| - 1][..i] == order[..i];
      assert order[..|order| - 1][..i + 1] == order[..i + 1];
    } else {
      assert order[..i + 1] == order;
    }
  }

  /** Call 3i + p concerns the i-th service of the order. */
  lemma {:induction false} StartsAt(order: seq<string>, i: nat)
    requires i < |order|
    ensures |Starts(order)| == 3 * |order|
    ensures Starts(order)[3 * i] == PrepareImage(order[i])
    ensures Starts(order)[3 * i + 1] == CreateContainer(order[i])
    ensures Starts(order)[3 * i + 2] == StartContainer(order[i])
  {
    var n := |order| - 1;
    var init := order[..n];
    if init == [] {
      assert Starts(order) == StartCalls(order[0]);
    } else if i < n {
      StartsAt(init, i);
    } else {
      StartsAt(init, 0);
    }
  }

  function ServiceOf(c: Call): string {
    match c
    case PrepareImage(n) => n
    case CreateContainer(n) => n
    case StartContainer(n) => n
    case CreateVolume(_, o) => o
    case CreateNetwork => ""
  }

  lemma DependencyEarlier(services: seq<ServiceSpec>, i: nat, d: string) returns (j: nat)
    requires Deployable(services) && i < |StartOrder(GraphOf(services))|
    requires d in Deps(GraphOf(services), StartOrder(GraphOf(services))[i])
    ensures j < i && StartOrder(GraphOf(services))[j] == d
  {
    var g := GraphOf(services);
    StartsAllIff(g);
    assert d in StartOrder(g)[..i];
    j :| 0 <= j < i && StartOrder(g)[j] == d;
  }

  lemma CallsOf(order: seq<string>, k: nat)
    requires k < |Starts(order)|
    ensures |Starts(order)| == 3 * |order| && k / 3 < |order|
    ensures Starts(order)[k] in StartCalls(order[k / 3]) && ServiceOf(Starts(order)[k]) == order[k / 3]
  {
    if order != [] {
      StartsAt(order, 0);
      StartsAt(order, k / 3);
      assert k == 3 * (k / 3) || k == 3 * (k / 3) + 1 || k == 3 * (k / 3) + 2;
    }
  }

  /** The start calls for one service come after those of all it depends on. */
  lemma DependenciesStarted(services: seq<ServiceSpec>, k: nat, d: string) returns (j: nat)
    requires Deployable(services) && k < |Starts(StartOrder(GraphOf(services)))|
    requires d in Deps(GraphOf(services), ServiceOf(Starts(StartOrder(GraphOf(services)))[k]))
    ensures j < k && Starts(StartOrder(GraphOf(services)))[j] == StartContainer(d)
  {
    var order := StartOrder(GraphOf(services));
    CallsOf(order, k);
    var at := DependencyEarlier(services, k / 3, d);
    StartsAt(order, at);
    j := 3 * at + 2;
  }

  // ----- What any run of the plan guarantees -----

  lemma StartsDiffer(order: seq<string>, i: nat, j: nat)
    requires NoDup(order) && i < j < |Starts(order)|
    ensures Starts(order)[i] != Starts(order)[j]
  {
    CallsOf(order, i);
    CallsOf(order, j);
    if i / 3 == j / 3 {
      StartsAt(order, i / 3);
    }
  }

  /** No call of a plan is made twice: one network, each volume once, each service once. */
  lemma PlanNeverRepeats(services: seq<ServiceSpec>, i: nat, j: nat)
    requires i < j < |Plan(services)|
    ensures Plan(services)[i] != Plan(services)[j]
  {
    var volumes, order := Firsts(AllUses(services)), StartOrder(GraphOf(services));
    FirstsOnce(AllUses(services));
    PlanParts(services, i);
    PlanParts(services, j);
    assert 1 <= i < 1 + |volumes| ==> volumes[i - 1] in volumes;
    assert 1 <= j < 1 + |volumes| ==> volumes[j - 1] in volumes;
    if 1 + |volumes| <= i {
      StartsDiffer(order, i - 1 - |volumes|, j - 1 - |volumes|);
    }
  }

  /** However far a deploy got: the network came first, and a container is only prepared, created or started
      once every named volume of the spec exists and every dependency was started. */
  lemma PrefixIsSafe(services: seq<ServiceSpec>, made: seq<Call>, k: nat)
    requires Deployable(services) && made <= Plan(services) && k < |made|
    ensures made[0] == CreateNetwork && (made[k] == CreateNetwork ==> k == 0)
    ensures made[k].CreateVolume? ==> made[k] in Firsts(AllUses(services))
    ensures ForService(made[k]) ==>
              forall i: nat, m: nat :: i < |services| && m < |services[i].volumes| && services[i].volumes[m].Named? ==>
                exists o :: CreateVolume(services[i].volumes[m].volume, o) in made[..k]
    ensures ForService(made[k]) ==>
              forall d :: d in Deps(GraphOf(services), ServiceOf(made[k])) ==> StartContainer(d) in made[..k]
  {
    PlanParts(services, k);
    FirstsOnce(AllUses(services));
    assert 1 <= k < 1 + |Firsts(AllUses(services))| ==> made[k] in Firsts(AllUses(services));
    if ForService(made[k]) {
      forall i: nat, m: nat | i < |services| && m < |services[i].volumes| && services[i].volumes[m].Named?
        ensures exists o :: CreateVolume(services[i].volumes[m].volume, o) in made[..k]
      {
        var o := VolumeReady(services, made, k, i, m);
      }
      forall d | d in Deps(GraphOf(services), ServiceOf(made[k])) ensures StartContainer(d) in made[..k] {
        DependencyReady(services, made, k, d);
      }
    }
  }

  predicate ForService(c: Call) { c.PrepareImage? || c.CreateContainer? || c.StartContainer? }

  lemma VolumeReady(services: seq<ServiceSpec>, made: seq<Call>, k: nat, i: nat, m: nat) returns (owner: string)
    requires made <= Plan(services) && k < |made| && 1 + |Firsts(AllUses(services))| <= k
    requires i < |services| && m < |services[i].volumes| && services[i].volumes[m].Named?
    ensures CreateVolume(services[i].volumes[m].volume, owner) in made[..k]
  {
    var volumes := Firsts(AllUses(services));
    MountIsUse(services, i, m);
    var u := FirstUse(AllUses(services), services[i].volumes[m].volume);
    owner := AllUses(services)[u].owner;
    FirstsOnce(AllUses(services));
    var c := CreateVolume(services[i].volumes[m].volume, owner);
    assert c in volumes;
    var j :| 0 <= j < |volumes| && volumes[j] == c;
    PlanParts(services, 1 + j);
    assert made[..k][1 + j] == c;
  }

  lemma DependencyReady(services: seq<ServiceSpec>, made: seq<Call>, k: nat, d: string)
    requires Deployable(services) && made <= Plan(services) && k < |made| && 1 + |Firsts(AllUses(services))| <= k
    requires d in Deps(GraphOf(services), ServiceOf(made[k]))
    ensures StartContainer(d) in made[..k]
  {
    var volumes, starts := Firsts(AllUses(services)), Starts(StartOrder(GraphOf(services)));
    var first := 1 + |volumes|;
    PlanParts(services, k);
    var j := DependenciesStarted(services, k - first, d);
    assert starts[j] == StartContainer(d) && first + j < k;
    PlanParts(services, first + j);
    assert made[first + j] == StartContainer(d) by {
      assert made[first + j] == Plan(services)[first + j];
    }
    Earlier(made, first + j, k);
  }

  lemma Earlier(made: seq<Call>, i: nat, k: nat)
    requires i < k <= |made|
    ensures made[i] in made[..k]
  {
    assert made[..k][i] == made[i];
  }

  lemma PlanParts(services: seq<ServiceSpec>, k: nat)
    requires k < |Plan(services)|
    ensures var volumes, starts := Firsts(AllUses(services)), Starts(StartOrder(GraphOf(services)));
            && |Plan(services)| == 1 + |volumes| + |starts|
            && (k == 0 ==> Plan(services)[k] == CreateNetwork)
            && (1 <= k < 1 + |volumes| ==> Plan(services)[k] == volumes[k - 1])
            && (1 + |volumes| <= k ==> Plan(services)[k] == starts[k - 1 - |volumes|]
                                       && ForService(starts[k - 1 - |volumes|]))
  {
    var volumes, order := Firsts(AllUses(services)), StartOrder(GraphOf(services));
    if 1 + |volumes| <= k {
      CallsOf(order, k - 1 - |volumes|);
    }
  }

  // ----- The method -----

  ghost predicate AllWork(works: nat -> bool, from: nat, to: nat) {
    forall i: nat :: from <= i < to ==> works(i)
  }

  /** `made` is what a run of the plan from call number `base` did: up to the first failure, or all of it. */
  ghost predicate Ran(works: nat -> bool, base: nat, plan: seq<Call>, made: seq<Call>, ok: bool) {
    && made <= plan && made != []
    && AllWork(works, base, base + |made| - 1)
    && works(base + |made| - 1) == ok
    && (ok ==> made == plan)
  }

  /** The calls so far, all of which succeeded. */
  ghost predicate Sofar(works: nat -> bool, log: seq<Call>, before: seq<Call>, made: seq<Call>) {
    log == before + made && AllWork(works, |before|, |log|)
  }

  /** The calls after `before` are a run of the plan. */
  ghost predicate RanFrom(works: nat -> bool, log: seq<Call>, before: seq<Call>, plan: seq<Call>, ok: bool) {
    before <= log && Ran(works, |before|, plan, log[|before|..], ok)
  }

  /** The plan ended early, at a call that failed. */
  ghost predicate Stopped(works: nat -> bool, log: seq<Call>, before: seq<Call>, plan: seq<Call>) {
    RanFrom(works, log, before, plan, false)
  }

  lemma Finished(works: nat -> bool, log: seq<Call>, before: seq<Call>, plan: seq<Call>)
    requires Sofar(works, log, before, plan) && plan != []
    ensures RanFrom(works, log, before, plan, true)
  {
    assert log[|before|..] == plan;
  }

  /** Create each named volume the first time a mount names it. */
  method CreateVolumes(engine: Engine, services: seq<ServiceSpec>, ghost before: seq<Call>, ghost plan: seq<Call>)
    returns (ok: bool)
    requires Sofar(engine.works, engine.log, before, [CreateNetwork])
    requires [CreateNetwork] + Firsts(AllUses(services)) <= plan
    modifies engine
    ensures ok ==> Sofar(engine.works, engine.log, before, [CreateNetwork] + Firsts(AllUses(services)))
    ensures !ok ==> Stopped(engine.works, engine.log, before, plan)
  {
    var created: set<string> := {};
    for i := 0 to |services|
      invariant Creating(engine.works, engine.log, before, services, i, 0, created)
    {
      for k := 0 to |services[i].volumes|
        invariant Creating(engine.works, engine.log, before, services, i, k, created)
      {
        ok, created := CreateOnce(engine, services, i, k, created, before, plan);
        if !ok { return; }
      }
    }
    return true;
  }

  /** The calls made before mount k of service i. */
  function VolumesMade(services: seq<ServiceSpec>, i: nat, k: nat): seq<Call>
    requires i <= |services| && (if i < |services| then k <= |services[i].volumes| else k == 0)
  {
    [CreateNetwork] + Firsts(Uses(services, i, k))
  }

  /** Everything named before mount k of service i is created, and remembered. */
  ghost predicate Creating(works: nat -> bool, log: seq<Call>, before: seq<Call>, services: seq<ServiceSpec>,
                           i: nat, k: nat, created: set<string>)
    requires i <= |services| && (if i < |services| then k <= |services[i].volumes| else k == 0)
  {
    && Sofar(works, log, before, VolumesMade(services, i, k))
    && Remembered(Uses(services, i, k), created)
  }

  ghost predicate Remembered(uses: seq<Use>, created: set<string>) {
    forall v :: v in created <==> Mentions(uses, v)
  }

  method CreateOnce(engine: Engine, services: seq<ServiceSpec>, i: nat, k: nat, created: set<string>,
                    ghost before: seq<Call>, ghost plan: seq<Call>)
    returns (ok: bool, created': set<string>)
    requires i < |services| && k < |services[i].volumes|
    requires Creating(engine.works, engine.log, before, services, i, k, created)
    requires [CreateNetwork] + Firsts(AllUses(services)) <= plan
    modifies engine
    ensures ok ==> Creating(engine.works, engine.log, before, services, i, k + 1, created')
    ensures !ok ==> Stopped(engine.works, engine.log, before, plan)
  {
    var m := services[i].volumes[k];
    ghost var made := VolumesMade(services, i, k);
    NextMount(services, i, k, created);
    ok, created' := true, created;
    if m.Named? && m.volume !in created {
      created' := created + {m.volume};
      ok := engine.Do(CreateVolume(m.volume, services[i].name));
      if ok {
        OneMore(engine.works, engine.log, before, made, CreateVolume(m.volume, services[i].name));
      } else {
        StopHere(engine.works, engine.log, before, plan, made, CreateVolume(m.volume, services[i].name));
      }
    }
  }

  /** The next mount is remembered already, or creates its volume. */
  lemma NextMount(services: seq<ServiceSpec>, i: nat, k: nat, created: set<string>)
    requires i < |services| && k < |services[i].volumes|
    requires Remembered(Uses(services, i, k), created)
    ensures var m, uses := services[i].volumes[k], Uses(services, i, k + 1);
            var made, next := VolumesMade(services, i, k), VolumesMade(services, i, k + 1);
            if m.Bind? || m.volume in created then Remembered(uses, created) && next == made
            else
              && Remembered(uses, created + {m.volume})
              && next == made + [CreateVolume(m.volume, services[i].name)]
              && next <= [CreateNetwork] + Firsts(AllUses(services))
  {
    var m, uses := services[i].volumes[k], Uses(services, i, k);
    if m.Bind? {
      assert Uses(services, i, k + 1) == uses;
    } else {
      NextUse(uses, Use(m.volume, services[i].name), created);
      UsesExtend(services, i, k + 1);
      FirstsExtend(Uses(services, i, k + 1), AllUses(services));
      if m.volume in created {
        assert created + {m.volume} == created;
      }
    }
  }

  lemma NextUse(uses: seq<Use>, u: Use, created: set<string>)
    requires Remembered(uses, created)
    ensures Remembered(uses + [u], created + {u.logical})
    ensures Firsts(uses + [u]) == Firsts(uses) + if u.logical in created then [] else [CreateVolume(u.logical, u.owner)]
  {
    var after := uses + [u];
    assert after[..|uses|] == uses;
    forall v ensures v in created + {u.logical} <==> Mentions(after, v) {
      if Mentions(uses, v) {
        var j :| 0 <= j < |uses| && uses[j].logical == v;
        assert after[j].logical == v;
      }
      if v == u.logical {
        assert after[|uses|].logical == v;
      }
    }
  }

  lemma OneMore(works: nat -> bool, log: seq<Call>, before: seq<Call>, made: seq<Call>, call: Call)
    requires log == before + made + [call] && AllWork(works, |before|, |log| - 1) && works(|log| - 1)
    ensures Sofar(works, log, before, made + [call])
  {
  }

  /** A failed call ends the run. */
  lemma StopHere(works: nat -> bool, log: seq<Call>, before: seq<Call>, plan: seq<Call>, made: seq<Call>, call: Call)
    requires log == before + made + [call] && made + [call] <= plan
    requires AllWork(works, |before|, |before + made|)
    requires !works(|before + made|)
    ensures Stopped(works, log, before, plan)
  {
    assert log[|before|..] == made + [call];
  }

  /** Prepare, create and start one service. */
  method DeployService(engine: Engine, svc: ServiceSpec, ghost before: seq<Call>, ghost plan: seq<Call>,
                       ghost made: seq<Call>)
    returns (ok: bool)
    requires Sofar(engine.works, engine.log, before, made) && made + StartCalls(svc.name) <= plan
    modifies engine
    ensures ok ==> Sofar(engine.works, engine.log, before, made + StartCalls(svc.name))
    ensures !ok ==> Stopped(engine.works, engine.log, before, plan)
  {
    ok := engine.Do(PrepareImage(svc.name));
    if !ok {
      StopHere(engine.works, engine.log, before, plan, made, PrepareImage(svc.name));
      return;
    }
    ok := engine.Do(CreateContainer(svc.name));
    if !ok {
      StopHere(engine.works, engine.log, before, plan, made + [PrepareImage(svc.name)], CreateContainer(svc.name));
      return;
    }
    ok := engine.Do(StartContainer(svc.name));
    if !ok {
      StopHere(engine.works, engine.log, before, plan, made + [PrepareImage(svc.name), CreateContainer(svc.name)],
               StartContainer(svc.name));
    }
  }

  lemma NextStart(prepared: seq<Call>, order: seq<string>, i: nat)
    requires i < |order|
    ensures var made := prepared + Starts(order[..i]);
            made + StartCalls(order[i]) == prepared + Starts(order[..i + 1]) <= prepared + Starts(order)
  {
    StartsExtend(order, i);
    Shift(prepared, Starts(order[..i]), StartCalls(order[i]), Starts(order));
  }

  lemma Shift(prepared: seq<Call>, made: seq<Call>, next: seq<Call>, all: seq<Call>)
    requires made + next <= all
    ensures prepared + made + next == prepared + (made + next) <= prepared + all
  {
  }

  /** Start the services one after another. */
  method StartAll(engine: Engine, services: seq<ServiceSpec>, order: seq<string>, ghost before: seq<Call>,
                  ghost prepared: seq<Call>)
    returns (r: Result<seq<ServiceSpec>, string>)
    requires Elems(order) <= NamesOf(services) && Sofar(engine.works, engine.log, before, prepared)
    modifies engine
    ensures r.Ok? ==> Sofar(engine.works, engine.log, before, prepared + Starts(order))
    ensures r.Ok? ==> Reported(services, order, r.value)
    ensures r.Err? ==> Stopped(engine.works, engine.log, before, prepared + Starts(order)) && r.error == FAILED
  {
    var results := [];
    for i := 0 to |order|
      invariant Sofar(engine.works, engine.log, before, prepared + Starts(order[..i]))
      invariant Reported(services, order[..i], results)
    {
      assert order[i] in Elems(order);
      var svc := Service(services, order[i]);
      if svc.None? { assert false; }
      NextStart(prepared, order, i);
      var ok := DeployService(engine, svc.value, before, prepared + Starts(order), prepared + Starts(order[..i]));
      if !ok { return Err(FAILED); }
      results := results + [svc.value];
      NextReported(services, order, i, results);
    }
    assert order[..|order|] == order;
    return Ok(results);
  }

  lemma NextReported(services: seq<ServiceSpec>, order: seq<string>, i: nat, results: seq<ServiceSpec>)
    requires i < |order| && |results| == i + 1 && Reported(services, order[..i], results[..i])
    requires results[i] in services && results[i].name == order[i]
    ensures Reported(services, order[..i + 1], results)
  {
    forall j | 0 <= j < i ensures results[j] in services && results[j].name == order[j] {
      assert results[..i][j] == results[j] && order[..i][j] == order[j];
    }
  }

  /** One result for each service, in order. */
  ghost predicate Reported(services: seq<ServiceSpec>, order: seq<string>, results: seq<ServiceSpec>) {
    && |results| == |order|
    && (forall i :: 0 <= i < |order| ==> results[i] in services && results[i].name == order[i])
  }

  /** A refused spec touches nothing. An accepted one runs its plan up to the first failing call; it succeeds
      exactly when the whole plan did, reporting every service in start order. */
  method Deploy(engine: Engine, services: seq<ServiceSpec>) returns (r: Result<seq<ServiceSpec>, string>)
    modifies engine
    ensures !Deployable(services) ==> r.Err? && engine.log == old(engine.log)
    ensures Deployable(services) ==>
              && RanFrom(engine.works, engine.log, old(engine.log), Plan(services), r.Ok?)
              && (r.Err? ==> r.error == FAILED)
    ensures r.Ok? ==> Reported(services, StartOrder(GraphOf(services)), r.value)
  {
    ghost var before := engine.log;
    var valid := Validate(services);
    if valid.Err? { return Err(valid.error); }
    var ok := engine.Do(CreateNetwork);
    if !ok {
      StopHere(engine.works, engine.log, before, Plan(services), [], CreateNetwork);
      return Err(FAILED);
    }
    ok := CreateVolumes(engine, services, before, Plan(services));
    if !ok { return Err(FAILED); }
    var order := StartupOrder(services);
    if order.Err? { assert false; }
    r := StartAll(engine, services, order.value, before, [CreateNetwork] + Firsts(AllUses(services)));
    if r.Ok? {
      Finished(engine.works, engine.log, before, Plan(services));
    }
  }
}
