/** The `amos.yaml` manifest and its build order (`src/provisioning/manifest.rs`). */
module Manifests {
  import opened Results
  import opened Names
  import opened Graphs
  import AppSpecs

  datatype ManifestService = ManifestService(
    name: string,
    dockerfile: string,
    base: Option<string>,
    buildOnly: bool,
    imageName: Option<string>,
    tag: Option<string>,
    public: bool)
  {
    /** The repository to push to. */
    function ImageName(app: string): string {
      if imageName.Some? then imageName.value else app + "-" + name
    }

    function Tag(): string {
      if tag.Some? then tag.value else "prod"
    }
  }

  datatype Manifest = Manifest(
    name: string, services: seq<ManifestService>, domain: Option<string>, release: Option<string>)

  type Services = seq<ManifestService>

  const NAME_REQUIRED := "amos.yaml: 'name' is required"
  const SERVICE_REQUIRED := "amos.yaml: at least one service is required"
  const UNKNOWN_BASE := "service references unknown base"
  const CYCLIC := "amos.yaml: cyclic or unresolvable 'base' dependencies"

  function NamesOf(services: Services): set<string> {
    set s | s in services :: s.name
  }

  /** Whether a service may be built once the services named in `placed` have been. */
  predicate Placeable(s: ManifestService, placed: set<string>) {
    s.base.None? || s.base.value in placed
  }

  /** An image is named after the app and the service, tagged `prod`, unless the manifest says otherwise. */
  lemma ImageDefaults(s: ManifestService, app: string)
    ensures s.imageName.None? ==> |s.ImageName(app)| == |app| + 1 + |s.name| && app <= s.ImageName(app)
                                  && s.ImageName(app)[|app|] == '-' && s.ImageName(app)[|app| + 1..] == s.name
    ensures s.imageName.Some? ==> Some(s.ImageName(app)) == s.imageName
    ensures if s.tag.None? then s.Tag() == "prod" else Some(s.Tag()) == s.tag
  {
  }

  // ----- One sweep of `retain` over what remains, placing as it goes -----

  function SweepPlaced(rest: Services, placed: set<string>): Services {
    if rest == [] then []
    else if Placeable(rest[0], placed) then [rest[0]] + SweepPlaced(rest[1..], placed + {rest[0].name})
    else SweepPlaced(rest[1..], placed)
  }

  function SweepKept(rest: Services, placed: set<string>): Services {
    if rest == [] then []
    else if Placeable(rest[0], placed) then SweepKept(rest[1..], placed + {rest[0].name})
    else [rest[0]] + SweepKept(rest[1..], placed)
  }

  lemma {:induction false} SweepSplits(rest: Services, placed: set<string>)
    ensures multiset(SweepPlaced(rest, placed)) + multiset(SweepKept(rest, placed)) == multiset(rest)
    ensures |SweepPlaced(rest, placed)| + |SweepKept(rest, placed)| == |rest|
  {
    if rest != [] {
      var placed' := if Placeable(rest[0], placed) then placed + {rest[0].name} else placed;
      SweepSplits(rest[1..], placed');
      assert rest == [rest[0]] + rest[1..];
    }
  }

  /** Sweep until nothing remains, or until a sweep places nothing. */
  function BuildFrom(rest: Services, placed: set<string>): Option<Services>
    decreases |rest|
  {
    if rest == [] then Some([])
    else
      var now, kept := SweepPlaced(rest, placed), SweepKept(rest, placed);
      if now == [] then None
      else
        SweepSplits(rest, placed);
        Then(now, BuildFrom(kept, placed + NamesOf(now)))
  }

  function Then(now: Services, later: Option<Services>): Option<Services> {
    if later.None? then None else Some(now + later.value)
  }

  function BuildOrder(services: Services): Option<Services> {
    BuildFrom(services, {})
  }

  // ----- What the order promises -----

  /** Every service with a base comes after one that its base names. */
  ghost predicate BasesFirst(order: Services, placed: set<string>) {
    forall i :: 0 <= i < |order| ==> Placeable(order[i], placed + NamesOf(order[..i]))
  }

  lemma BasesFirstAppend(a: Services, b: Services, placed: set<string>)
    requires BasesFirst(a, placed) && BasesFirst(b, placed + NamesOf(a))
    ensures BasesFirst(a + b, placed)
  {
    forall i | 0 <= i < |a + b| ensures Placeable((a + b)[i], placed + NamesOf((a + b)[..i])) {
      if i < |a| {
        assert (a + b)[..i] == a[..i];
      } else {
        assert (a + b)[..i] == a + b[..i - |a|];
        assert placed + NamesOf(a + b[..i - |a|]) == placed + NamesOf(a) + NamesOf(b[..i - |a|]);
      }
    }
  }

  lemma {:induction false} SweepBasesFirst(rest: Services, placed: set<string>)
    ensures BasesFirst(SweepPlaced(rest, placed), placed)
  {
    if rest != [] {
      var s := rest[0];
      if Placeable(s, placed) {
        SweepBasesFirst(rest[1..], placed + {s.name});
        assert NamesOf([s]) == {s.name};
        BasesFirstAppend([s], SweepPlaced(rest[1..], placed + {s.name}), placed);
      } else {
        SweepBasesFirst(rest[1..], placed);
      }
    }
  }

  /** A build order is a rearrangement of what was declared in which bases come first. */
  lemma {:induction false} BuildFromOrders(rest: Services, placed: set<string>)
    requires BuildFrom(rest, placed).Some?
    ensures multiset(BuildFrom(rest, placed).value) == multiset(rest)
    ensures BasesFirst(BuildFrom(rest, placed).value, placed)
    decreases |rest|
  {
    if rest != [] {
      var now, kept := SweepPlaced(rest, placed), SweepKept(rest, placed);
      SweepSplits(rest, placed);
      SweepBasesFirst(rest, placed);
      BuildFromOrders(kept, placed + NamesOf(now));
      BasesFirstAppend(now, BuildFrom(kept, placed + NamesOf(now)).value, placed);
    }
  }

  /** When every base is declared before the services that use it, declared order is build order. */
  lemma {:induction false} SweepAll(rest: Services, placed: set<string>)
    requires BasesFirst(rest, placed)
    ensures SweepPlaced(rest, placed) == rest && SweepKept(rest, placed) == []
  {
    if rest != [] {
      var s, tail := rest[0], rest[1..];
      assert NamesOf(rest[..0]) == {};
      forall i | 0 <= i < |tail| ensures Placeable(tail[i], placed + {s.name} + NamesOf(tail[..i])) {
        assert tail[i] == rest[i + 1] && rest[..i + 1] == [s] + tail[..i];
        assert NamesOf(rest[..i + 1]) == {s.name} + NamesOf(tail[..i]);
      }
      SweepAll(tail, placed + {s.name});
      assert rest == [s] + tail;
    }
  }

  /** `build_order` leaves a manifest as declared exactly when each base is declared before its users. */
  lemma DeclaredOrderKept(services: Services)
    ensures BuildOrder(services) == Some(services) <==> BasesFirst(services, {})
  {
    if BasesFirst(services, {}) {
      SweepAll(services, {});
      assert BuildFrom([], {} + NamesOf(services)) == Some([]);
      assert services + [] == services;
    }
    if BuildOrder(services) == Some(services) {
      BuildFromOrders(services, {});
    }
  }

  // ----- When there is an order -----

  /** The chain of base names from `s` reaches, within k steps, a service that needs no base. Where
      names repeat, any service of the name will do. */
  ghost predicate Grounded(services: Services, s: ManifestService, k: nat)
    decreases k
  {
    s.base.None? || (k > 0 && exists t :: t in services && t.name == s.base.value && Grounded(services, t, k - 1))
  }

  ghost predicate AllGrounded(services: Services) {
    forall s :: s in services ==> exists k :: Grounded(services, s, k)
  }

  lemma {:induction false} GroundedLonger(services: Services, s: ManifestService, j: nat, k: nat)
    requires Grounded(services, s, j) && j <= k
    ensures Grounded(services, s, k)
    decreases k
  {
    if s.base.Some? {
      var t :| t in services && t.name == s.base.value && Grounded(services, t, j - 1);
      GroundedLonger(services, t, j - 1, k - 1);
    }
  }

  /** A sweep that places nothing strands every service it kept. */
  lemma {:induction false} StuckNotGrounded(services: Services, rest: Services, placed: set<string>,
                                            s: ManifestService, k: nat)
    requires forall t :: t in services ==> t in rest || t.name in placed
    requires forall t :: t in rest ==> !Placeable(t, placed)
    requires s in rest
    ensures !Grounded(services, s, k)
    decreases k
  {
    if Grounded(services, s, k) {
      var t :| t in services && t.name == s.base.value && Grounded(services, t, k - 1);
      StuckNotGrounded(services, rest, placed, t, k - 1);
      assert false;
    }
  }

  lemma {:induction false} SweepNothing(rest: Services, placed: set<string>)
    requires SweepPlaced(rest, placed) == []
    ensures forall t :: t in rest ==> !Placeable(t, placed)
  {
    if rest != [] {
      SweepNothing(rest[1..], placed);
      assert rest == [rest[0]] + rest[1..];
    }
  }

  lemma {:induction false} BuildFromFails(services: Services, rest: Services, placed: set<string>)
    returns (s: ManifestService)
    requires forall t :: t in services ==> t in rest || t.name in placed
    requires BuildFrom(rest, placed).None?
    ensures s in rest && forall k :: !Grounded(services, s, k)
    decreases |rest|
  {
    var now, kept := SweepPlaced(rest, placed), SweepKept(rest, placed);
    SweepSplits(rest, placed);
    if now == [] {
      SweepNothing(rest, placed);
      s := rest[0];
      forall k: nat ensures !Grounded(services, s, k) {
        StuckNotGrounded(services, rest, placed, s, k);
      }
    } else {
      forall t | t in services ensures t in kept || t.name in placed + NamesOf(now) {
        if t in rest {
          assert t in multiset(now) + multiset(kept);
        }
      }
      s := BuildFromFails(services, kept, placed + NamesOf(now));
      assert s in multiset(now) + multiset(kept);
    }
  }

  lemma BaseBefore(order: Services, i: nat) returns (j: nat)
    requires BasesFirst(order, {}) && i < |order| && order[i].base.Some?
    ensures j < i && order[j].name == order[i].base.value
  {
    assert Placeable(order[i], {} + NamesOf(order[..i]));
    var t :| t in order[..i] && t.name == order[i].base.value;
    j :| 0 <= j < i && order[..i][j] == t;
  }

  lemma GroundedOnBase(services: Services, s: ManifestService, t: ManifestService, j: nat, k: nat)
    requires s.base.Some? && t in services && t.name == s.base.value && Grounded(services, t, j) && j < k
    ensures Grounded(services, s, k)
  {
    GroundedLonger(services, t, j, k - 1);
  }

  ghost predicate AllIn(order: Services, services: Services) {
    forall i :: 0 <= i < |order| ==> order[i] in services
  }

  lemma {:induction false} OrderedGrounded(services: Services, order: Services, i: nat)
    requires BasesFirst(order, {}) && AllIn(order, services) && i < |order|
    ensures Grounded(services, order[i], i)
    decreases i
  {
    if order[i].base.Some? {
      var j := BaseBefore(order, i);
      OrderedGrounded(services, order, j);
      GroundedOnBase(services, order[i], order[j], j, i);
    }
  }

  /** There is a build order exactly when every chain of bases reaches a service that needs none. */
  lemma BuildOrderIff(services: Services)
    ensures BuildOrder(services).Some? <==> AllGrounded(services)
  {
    if BuildOrder(services).Some? {
      var order := BuildOrder(services).value;
      BuildFromOrders(services, {});
      SameMembers(order, services);
      forall s | s in services ensures exists k :: Grounded(services, s, k) {
        var i :| 0 <= i < |order| && order[i] == s;
        OrderedGrounded(services, order, i);
      }
    } else {
      var s := BuildFromFails(services, services, {});
    }
  }

  // ----- With distinct names: the same manifests as `startup_order` accepts -----

  ghost predicate DistinctNames(services: Services) {
    forall i, j :: 0 <= i < j < |services| ==> services[i].name != services[j].name
  }

  function AsSpec(s: ManifestService): AppSpecs.ServiceSpec {
    AppSpecs.ServiceSpec(s.name, if s.base.Some? then [s.base.value] else [], [])
  }

  /** The manifest with each `base` edge read as a `depends_on` entry. */
  function AsSpecs(services: Services): seq<AppSpecs.ServiceSpec> {
    seq(|services|, i requires 0 <= i < |services| => AsSpec(services[i]))
  }

  ghost function BaseGraph(services: Services): Graph {
    AppSpecs.GraphOf(AsSpecs(services))
  }

  lemma SpecOf(services: Services, s: ManifestService)
    requires s in services
    ensures AsSpec(s) in AsSpecs(services)
  {
    var i :| 0 <= i < |services| && services[i] == s;
    assert AsSpecs(services)[i] == AsSpec(s);
  }

  lemma BaseGraphNodes(services: Services)
    ensures BaseGraph(services).deps.Keys == NamesOf(services)
  {
    forall n ensures n in AppSpecs.NamesOf(AsSpecs(services)) <==> n in NamesOf(services) {
      if n in NamesOf(services) {
        var s :| s in services && s.name == n;
        SpecOf(services, s);
      }
    }
  }

  lemma BaseGraphDeps(services: Services, s: ManifestService)
    requires DistinctNames(services) && s in services
    ensures Deps(BaseGraph(services), s.name) == if s.base.Some? then {s.base.value} else {}
  {
    SpecOf(services, s);
    var specs := AsSpecs(services);
    forall t | t in specs && t.name == s.name ensures t == AsSpec(s) {
      var i :| 0 <= i < |specs| && specs[i] == t;
      var j :| 0 <= j < |services| && services[j] == s;
      assert specs[i].name == services[i].name;
    }
    assert AsSpec(s) in specs && AsSpec(s).name == s.name;
    assert forall d :: d in AsSpec(s).dependsOn ==> d in AppSpecs.DepsOf(specs, s.name);
  }

  /** A service whose chain never bottoms out only leads to such services. */
  lemma UngroundedStuck(services: Services, s: ManifestService) returns (t: ManifestService)
    requires DistinctNames(services) && Resolved(BaseGraph(services))
    requires s in services && forall k :: !Grounded(services, s, k)
    ensures t in services && t.name in Deps(BaseGraph(services), s.name) && forall k :: !Grounded(services, t, k)
  {
    assert !Grounded(services, s, 0);
    BaseGraphDeps(services, s);
    BaseGraphNodes(services);
    assert s.base.value in NamesOf(services);
    t :| t in services && t.name == s.base.value;
    forall k: nat ensures !Grounded(services, t, k) {
      assert !Grounded(services, s, k + 1);
    }
  }

  /** A refused manifest with distinct names and known bases has a cycle of bases. */
  lemma UngroundedCycle(services: Services, s: ManifestService) returns (c: seq<string>)
    requires DistinctNames(services) && Resolved(BaseGraph(services))
    requires s in services && forall k :: !Grounded(services, s, k)
    ensures IsCycle(BaseGraph(services), c)
  {
    var bad := set t | t in services && (forall k :: !Grounded(services, t, k)) :: t.name;
    var g := BaseGraph(services);
    forall n | n in bad ensures HasDepIn(g, bad, n) {
      var t :| t in services && (forall k :: !Grounded(services, t, k)) && t.name == n;
      var u := UngroundedStuck(services, t);
      assert u.name in bad;
    }
    assert s.name in bad;
    c := StuckHasCycle(g, bad);
  }

  function NameSeq(order: Services): (names: seq<string>)
    ensures |names| == |order| && forall i :: 0 <= i < |order| ==> names[i] == order[i].name
  {
    seq(|order|, i requires 0 <= i < |order| => order[i].name)
  }

  lemma NameSeqElems(order: Services)
    ensures Elems(NameSeq(order)) == NamesOf(order)
  {
    forall n ensures n in NameSeq(order) <==> n in NamesOf(order) {
      if n in NameSeq(order) {
        var i :| 0 <= i < |order| && NameSeq(order)[i] == n;
        assert order[i] in order;
      }
      if n in NamesOf(order) {
        var s :| s in order && s.name == n;
        var i :| 0 <= i < |order| && order[i] == s;
        assert NameSeq(order)[i] == n;
      }
    }
  }

  lemma NamesTopological(services: Services, order: Services)
    requires DistinctNames(services) && BasesFirst(order, {}) && forall t :: t in order ==> t in services
    ensures Topological(BaseGraph(services), NameSeq(order))
  {
    var names := NameSeq(order);
    forall i | 0 <= i < |names| ensures Deps(BaseGraph(services), names[i]) <= Elems(names[..i]) {
      BaseGraphDeps(services, order[i]);
      NameSeqElems(order[..i]);
      assert names[..i] == NameSeq(order[..i]);
      assert Placeable(order[i], {} + NamesOf(order[..i]));
    }
  }

  lemma SameMembers(a: Services, b: Services)
    requires multiset(a) == multiset(b)
    ensures (forall t :: t in a <==> t in b) && NamesOf(a) == NamesOf(b)
  {
    forall t ensures t in a <==> t in b {
      assert t in a <==> t in multiset(a);
    }
  }

  /** With distinct names the two sorts accept the same inputs. */
  lemma SameAsStartupOrder(services: Services)
    requires DistinctNames(services)
    ensures BuildOrder(services).Some? <==> Resolved(BaseGraph(services)) && Acyclic(BaseGraph(services))
    ensures AppSpecs.DistinctNames(AsSpecs(services))
  {
    var g := BaseGraph(services);
    BuildOrderIff(services);
    BaseGraphNodes(services);
    if BuildOrder(services).Some? {
      var order := BuildOrder(services).value;
      BuildFromOrders(services, {});
      SameMembers(order, services);
      NamesTopological(services, order);
      NameSeqElems(order);
      TopologicalAcyclic(g, NameSeq(order));
    } else if Resolved(g) {
      var s := BuildFromFails(services, services, {});
      var c := UngroundedCycle(services, s);
    }
  }

  // ----- parse -----

  /** The characters `str::trim` removes: those with the Unicode White_Space property. */
  predicate IsSpace(c: char) {
    var n := c as int;
    0x9 <= n <= 0xD || n in {0x20, 0x85, 0xA0, 0x1680, 0x2028, 0x2029, 0x202F, 0x205F, 0x3000} || 0x2000 <= n <= 0x200A
  }

  predicate IsBlank(s: string) {
    forall i :: 0 <= i < |s| ==> IsSpace(s[i])
  }

  predicate BasesKnown(services: Services) {
    forall s :: s in services && s.base.Some? ==> s.base.value in NamesOf(services)
  }

  predicate Parses(m: Manifest) {
    !IsBlank(m.name) && m.services != [] && BasesKnown(m.services)
  }

  /** The checks `AmosManifest::parse` makes on a deserialized manifest. */
  method CheckParsed(m: Manifest) returns (r: Result<Manifest, string>)
    ensures r.Ok? <==> Parses(m)
    ensures r.Ok? ==> r.value == m
    ensures r == Err(NAME_REQUIRED) <==> IsBlank(m.name)
    ensures r == Err(SERVICE_REQUIRED) <==> !IsBlank(m.name) && m.services == []
    ensures r == Err(UNKNOWN_BASE) <==> !IsBlank(m.name) && m.services != [] && !BasesKnown(m.services)
  {
    if IsBlank(m.name) {
      return Err(NAME_REQUIRED);
    }
    if m.services == [] {
      return Err(SERVICE_REQUIRED);
    }
    for i := 0 to |m.services|
      invariant forall s :: s in m.services[..i] && s.base.Some? ==> s.base.value in NamesOf(m.services)
    {
      var s := m.services[i];
      if s.base.Some? {
        if !exists t :: t in m.services && t.name == s.base.value {
          assert s in m.services;
          return Err(UNKNOWN_BASE);
        }
      }
      assert m.services[..i + 1] == m.services[..i] + [s];
    }
    assert m.services[..|m.services|] == m.services;
    return Ok(m);
  }

  /** A parsed manifest with distinct names has a build order exactly when its bases make no cycle. */
  lemma ParsedOrderIff(m: Manifest)
    requires Parses(m) && DistinctNames(m.services)
    ensures BuildOrder(m.services).Some? <==> Acyclic(BaseGraph(m.services))
  {
    SameAsStartupOrder(m.services);
    BaseGraphNodes(m.services);
    forall n, d | n in BaseGraph(m.services).deps && d in BaseGraph(m.services).deps[n]
      ensures d in BaseGraph(m.services).deps
    {
      var s :| s in m.services && s.name == n;
      BaseGraphDeps(m.services, s);
    }
  }

  // ----- build_order -----

  /** One pass of `remaining.retain(..)`. */
  method Sweep(remaining: Services, ordered0: Services, placed0: set<string>)
    returns (kept: Services, ordered: Services, placed: set<string>)
    ensures kept == SweepKept(remaining, placed0)
    ensures ordered == ordered0 + SweepPlaced(remaining, placed0)
    ensures placed == placed0 + NamesOf(SweepPlaced(remaining, placed0))
  {
    kept, ordered, placed := [], ordered0, placed0;
    ghost var now: Services := [];
    for i := 0 to |remaining|
      invariant ordered == ordered0 + now && placed == placed0 + NamesOf(now)
      invariant kept + SweepKept(remaining[i..], placed) == SweepKept(remaining, placed0)
      invariant now + SweepPlaced(remaining[i..], placed) == SweepPlaced(remaining, placed0)
    {
      var s := remaining[i];
      assert remaining[i..][0] == s && remaining[i..][1..] == remaining[i + 1..];
      if Placeable(s, placed) {
        assert NamesOf(now + [s]) == NamesOf(now) + {s.name};
        ordered, placed, now := ordered + [s], placed + {s.name}, now + [s];
      } else {
        kept := kept + [s];
      }
    }
  }

  /** Services with a base after what the base names; an error when sweeping stops making progress.
      `sweeps` counts the passes: never more than there are services. */
  method ComputeBuildOrder(services: Services) returns (r: Result<Services, string>, ghost sweeps: nat)
    ensures r == match BuildOrder(services) case Some(o) => Ok(o) case None => Err(CYCLIC)
    ensures sweeps <= |services|
  {
    sweeps := 0;
    var ordered: Services := [];
    var placed := {};
    var remaining := services;
    ThenNothing(BuildOrder(services));
    while remaining != []
      invariant sweeps + |remaining| <= |services|
      invariant BuildOrder(services) == Then(ordered, BuildFrom(remaining, placed))
      decreases |remaining|
    {
      var before := |remaining|;
      SweepSplits(remaining, placed);
      ThenThen(ordered, SweepPlaced(remaining, placed),
               BuildFrom(SweepKept(remaining, placed), placed + NamesOf(SweepPlaced(remaining, placed))));
      remaining, ordered, placed := Sweep(remaining, ordered, placed);
      sweeps := sweeps + 1;
      if |remaining| == before {
        return Err(CYCLIC), sweeps;
      }
    }
    assert ordered + [] == ordered;
    return Ok(ordered), sweeps;
  }

  lemma ThenNothing(later: Option<Services>)
    ensures Then([], later) == later
  {
    assert later.Some? ==> [] + later.value == later.value;
  }

  lemma ThenThen(a: Services, b: Services, later: Option<Services>)
    ensures Then(a, Then(b, later)) == Then(a + b, later)
  {
    assert later.Some? ==> a + (b + later.value) == a + b + later.value;
  }
}
