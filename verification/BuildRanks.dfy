/** The exact order `build_order` gives (`src/provisioning/manifest.rs`), described without its sweeps. */
module BuildRanks {
  import opened Results
  import opened Manifests

  // ----- Ranks -----

  /** Where a name is first declared. */
  function IndexOf(services: Services, name: string): (i: nat)
    ensures i <= |services| && (i < |services| ==> services[i].name == name)
    ensures i < |services| <==> name in NamesOf(services)
    ensures forall j :: 0 <= j < i ==> services[j].name != name
  {
    if services == [] then 0
    else if services[0].name == name then 0
    else
      assert services == [services[0]] + services[1..];
      1 + IndexOf(services[1..], name)
  }

  /** A service without a base ranks 0. Any other ranks with its base, or one later when the base is not
      declared before it. */
  ghost predicate IsRanking(services: Services, rank: seq<nat>) {
    && |rank| == |services|
    && (forall i :: 0 <= i < |services| && services[i].base.None? ==> rank[i] == 0)
    && (forall i, j :: 0 <= i < |services| && 0 <= j < |services| && services[i].base == Some(services[j].name) ==>
          rank[i] == rank[j] + if j < i then 0 else 1)
  }

  /** The rank along at most `fuel` bases. */
  function RankOf(services: Services, i: nat, fuel: nat): nat
    requires i < |services|
    decreases fuel
  {
    if services[i].base.None? || fuel == 0 then 0
    else
      var j := IndexOf(services, services[i].base.value);
      if j == |services| then 0 else RankOf(services, j, fuel - 1) + if j < i then 0 else 1
  }

  function Ranks(services: Services): seq<nat> {
    seq(|services|, i requires 0 <= i < |services| => RankOf(services, i, |services|))
  }

  lemma IndexOfDeclared(services: Services, j: nat)
    requires DistinctNames(services) && j < |services|
    ensures IndexOf(services, services[j].name) == j
  {
    assert services[j] in services;
    assert services[j].name in NamesOf(services);
  }

  /** More fuel than the chain is long changes nothing. */
  lemma {:induction false} RankSettles(services: Services, i: nat, k: nat, fuel: nat)
    requires DistinctNames(services) && i < |services| && Grounded(services, services[i], k) && k <= fuel
    ensures RankOf(services, i, fuel) == RankOf(services, i, k)
    decreases k
  {
    if services[i].base.Some? {
      var t :| t in services && t.name == services[i].base.value && Grounded(services, t, k - 1);
      var j :| 0 <= j < |services| && services[j] == t;
      IndexOfDeclared(services, j);
      RankSettles(services, j, k - 1, fuel - 1);
    }
  }

  lemma PlaceInOrder(services: Services, i: nat) returns (m: nat)
    requires BuildOrder(services).Some? && i < |services|
    ensures m < |services| == |BuildOrder(services).value| && BuildOrder(services).value[m] == services[i]
  {
    var order := BuildOrder(services).value;
    BuildFromOrders(services, {});
    SameMembers(order, services);
    assert |multiset(order)| == |multiset(services)|;
    assert services[i] in order;
    m :| 0 <= m < |order| && order[m] == services[i];
  }

  lemma OrderIn(services: Services)
    requires BuildOrder(services).Some?
    ensures BasesFirst(BuildOrder(services).value, {}) && AllIn(BuildOrder(services).value, services)
  {
    BuildFromOrders(services, {});
    SameMembers(BuildOrder(services).value, services);
  }

  /** Every chain of bases is shorter than the list of services. */
  lemma GroundedSoon(services: Services, i: nat) returns (k: nat)
    requires BuildOrder(services).Some? && i < |services|
    ensures k < |services| && Grounded(services, services[i], k)
  {
    k := PlaceInOrder(services, i);
    OrderIn(services);
    OrderedGrounded(services, BuildOrder(services).value, k);
  }

  /** Whenever there is a build order, the ranks are well defined. */
  lemma RanksAreRanking(services: Services)
    requires DistinctNames(services) && BuildOrder(services).Some?
    ensures IsRanking(services, Ranks(services))
  {
    var n := |services|;
    forall i, j | 0 <= i < n && 0 <= j < n && services[i].base == Some(services[j].name)
      ensures Ranks(services)[i] == Ranks(services)[j] + if j < i then 0 else 1
    {
      IndexOfDeclared(services, j);
      var k := GroundedSoon(services, j);
      RankSettles(services, j, k, n);
      RankSettles(services, j, k, n - 1);
    }
  }

  // ----- The order by rank and declared position -----

  /** The declared positions, from p on, of rank r. */
  function Exactly(rank: seq<nat>, r: nat, p: nat): seq<nat>
    requires p <= |rank|
    decreases |rank| - p
  {
    if p == |rank| then [] else (if rank[p] == r then [p] else []) + Exactly(rank, r, p + 1)
  }

  /** And of rank r or more. */
  function AtLeast(rank: seq<nat>, r: nat, p: nat): seq<nat>
    requires p <= |rank|
    decreases |rank| - p
  {
    if p == |rank| then [] else (if rank[p] >= r then [p] else []) + AtLeast(rank, r, p + 1)
  }

  predicate Positions(services: Services, at: seq<nat>) {
    forall m :: 0 <= m < |at| ==> at[m] < |services|
  }

  function Pick(services: Services, at: seq<nat>): Services
    requires Positions(services, at)
  {
    seq(|at|, m requires 0 <= m < |at| => services[at[m]])
  }

  lemma {:induction false} ExactlyIs(rank: seq<nat>, r: nat, p: nat)
    requires p <= |rank|
    ensures forall x :: x in Exactly(rank, r, p) <==> p <= x < |rank| && rank[x] == r
    ensures forall a, b :: 0 <= a < b < |Exactly(rank, r, p)| ==> Exactly(rank, r, p)[a] < Exactly(rank, r, p)[b]
    decreases |rank| - p
  {
    if p < |rank| {
      ExactlyIs(rank, r, p + 1);
      var rest := Exactly(rank, r, p + 1);
      forall b | 0 <= b < |rest| ensures p < rest[b] {
        assert rest[b] in rest;
      }
    }
  }

  // ----- A sweep places a rank -----

  /** What is placed when the sweep of rank r reaches position p. */
  ghost predicate PlacedAt(services: Services, rank: seq<nat>, r: nat, p: nat, placed: set<string>)
    requires |rank| == |services|
  {
    forall n :: n in placed <==>
      exists i :: 0 <= i < |services| && services[i].name == n && (rank[i] < r || (rank[i] == r && i < p))
  }

  lemma PlaceableIff(services: Services, rank: seq<nat>, r: nat, p: nat, placed: set<string>)
    requires Ranked(services, rank) && p < |services| && rank[p] >= r && PlacedAt(services, rank, r, p, placed)
    ensures Placeable(services[p], placed) <==> rank[p] == r
  {
    var s := services[p];
    if s.base.Some? {
      assert s in services;
      var j := IndexOf(services, s.base.value);
      assert s.base == Some(services[j].name);
      if s.base.value in placed {
        var i :| 0 <= i < |services| && services[i].name == s.base.value && (rank[i] < r || (rank[i] == r && i < p));
        assert i == j;
      }
    }
  }

  lemma PlacedNext(services: Services, rank: seq<nat>, r: nat, p: nat, placed: set<string>)
    requires |rank| == |services| && p < |services| && PlacedAt(services, rank, r, p, placed)
    ensures PlacedAt(services, rank, r, p + 1, PlacedAfter(services, rank, r, p, placed))
  {
    var next := PlacedAfter(services, rank, r, p, placed);
    forall n ensures n in next <==>
                       exists i :: 0 <= i < |services| && services[i].name == n
                                   && (rank[i] < r || (rank[i] == r && i < p + 1)) {
      if n in placed {
        var i :| 0 <= i < |services| && services[i].name == n && (rank[i] < r || (rank[i] == r && i < p));
        assert rank[i] < r || (rank[i] == r && i < p + 1);
      }
    }
  }

  lemma PickCons(services: Services, p: nat, at: seq<nat>)
    requires p < |services| && Positions(services, at)
    ensures Positions(services, [p] + at) && Pick(services, [p] + at) == [services[p]] + Pick(services, at)
  {
  }

  lemma SweepCons(s: ManifestService, rest: Services, placed: set<string>)
    ensures SweepPlaced([s] + rest, placed) ==
            if Placeable(s, placed) then [s] + SweepPlaced(rest, placed + {s.name}) else SweepPlaced(rest, placed)
    ensures SweepKept([s] + rest, placed) ==
            if Placeable(s, placed) then SweepKept(rest, placed + {s.name}) else [s] + SweepKept(rest, placed)
  {
    assert ([s] + rest)[1..] == rest;
  }

  /** The services, from position p on, of rank r. */
  function RankServices(services: Services, rank: seq<nat>, r: nat, p: nat): Services
    requires |rank| == |services| && p <= |rank|
    decreases |rank| - p
  {
    if p == |rank| then []
    else if rank[p] == r then [services[p]] + RankServices(services, rank, r, p + 1)
    else RankServices(services, rank, r, p + 1)
  }

  /** And of rank r or more. */
  function RestServices(services: Services, rank: seq<nat>, r: nat, p: nat): Services
    requires |rank| == |services| && p <= |rank|
    decreases |rank| - p
  {
    if p == |rank| then []
    else if rank[p] >= r then [services[p]] + RestServices(services, rank, r, p + 1)
    else RestServices(services, rank, r, p + 1)
  }

  lemma {:induction false} ServicesPicked(services: Services, rank: seq<nat>, r: nat, p: nat)
    requires |rank| == |services| && p <= |rank|
    ensures Positions(services, Exactly(rank, r, p))
    ensures RankServices(services, rank, r, p) == Pick(services, Exactly(rank, r, p))
    decreases |rank| - p
  {
    if p < |rank| {
      ServicesPicked(services, rank, r, p + 1);
      if rank[p] == r {
        PickCons(services, p, Exactly(rank, r, p + 1));
      } else {
        assert Exactly(rank, r, p) == Exactly(rank, r, p + 1);
      }
    }
  }

  lemma {:induction false} RestSize(services: Services, rank: seq<nat>, r: nat, p: nat)
    requires |rank| == |services| && p <= |rank|
    ensures |RestServices(services, rank, r, p)| == |AtLeast(rank, r, p)|
    decreases |rank| - p
  {
    if p < |rank| {
      RestSize(services, rank, r, p + 1);
    }
  }

  function PlacedAfter(services: Services, rank: seq<nat>, r: nat, p: nat, placed: set<string>): set<string>
    requires |rank| == |services| && p < |services|
  {
    if rank[p] == r then placed + {services[p].name} else placed
  }

  /** The sweep from p on places what has rank r and keeps the rest. */
  ghost predicate SweptFrom(services: Services, rank: seq<nat>, r: nat, p: nat, placed: set<string>)
    requires |rank| == |services| && p <= |services|
  {
    && SweepPlaced(RestServices(services, rank, r, p), placed) == RankServices(services, rank, r, p)
    && SweepKept(RestServices(services, rank, r, p), placed) == RestServices(services, rank, r + 1, p)
  }

  lemma StepPlaced(services: Services, rank: seq<nat>, r: nat, p: nat, placed: set<string>)
    requires |rank| == |services| && p < |services| && rank[p] == r && Placeable(services[p], placed)
    requires SweptFrom(services, rank, r, p + 1, placed + {services[p].name})
    ensures SweptFrom(services, rank, r, p, placed)
  {
    SweepCons(services[p], RestServices(services, rank, r, p + 1), placed);
  }

  lemma StepKept(services: Services, rank: seq<nat>, r: nat, p: nat, placed: set<string>)
    requires |rank| == |services| && p < |services| && rank[p] > r && !Placeable(services[p], placed)
    requires SweptFrom(services, rank, r, p + 1, placed)
    ensures SweptFrom(services, rank, r, p, placed)
  {
    SweepCons(services[p], RestServices(services, rank, r, p + 1), placed);
  }

  lemma StepSkipped(services: Services, rank: seq<nat>, r: nat, p: nat, placed: set<string>)
    requires |rank| == |services| && p < |services| && rank[p] < r
    requires SweptFrom(services, rank, r, p + 1, placed)
    ensures SweptFrom(services, rank, r, p, placed)
  {
  }

  /** Names are distinct, bases known, and the ranks are right. */
  ghost predicate Ranked(services: Services, rank: seq<nat>) {
    DistinctNames(services) && BasesKnown(services) && IsRanking(services, rank)
  }

  /** The names placed when the sweep of rank r reaches position p. */
  ghost function PlacedSet(services: Services, rank: seq<nat>, r: nat, p: nat): (placed: set<string>)
    requires |rank| == |services|
    ensures PlacedAt(services, rank, r, p, placed)
  {
    set i | 0 <= i < |services| && (rank[i] < r || (rank[i] == r && i < p)) :: services[i].name
  }

  lemma PlacedSetNext(services: Services, rank: seq<nat>, r: nat, p: nat)
    requires |rank| == |services| && p < |services|
    ensures PlacedSet(services, rank, r, p + 1) == PlacedAfter(services, rank, r, p, PlacedSet(services, rank, r, p))
  {
    PlacedNext(services, rank, r, p, PlacedSet(services, rank, r, p));
  }

  ghost predicate SweptAt(services: Services, rank: seq<nat>, r: nat, p: nat)
    requires |rank| == |services| && p <= |services|
  {
    SweptFrom(services, rank, r, p, PlacedSet(services, rank, r, p))
  }

  lemma SweepOne(services: Services, rank: seq<nat>, r: nat, p: nat)
    requires Ranked(services, rank) && p < |services| && SweptAt(services, rank, r, p + 1)
    ensures SweptAt(services, rank, r, p)
  {
    var placed := PlacedSet(services, rank, r, p);
    PlacedSetNext(services, rank, r, p);
    if rank[p] < r {
      StepSkipped(services, rank, r, p, placed);
    } else {
      PlaceableIff(services, rank, r, p, placed);
      if rank[p] == r {
        StepPlaced(services, rank, r, p, placed);
      } else {
        StepKept(services, rank, r, p, placed);
      }
    }
  }

  lemma SweepEnds(services: Services, rank: seq<nat>, r: nat)
    requires |rank| == |services|
    ensures SweptAt(services, rank, r, |services|)
  {
  }

  /** Sweeping what has rank r or more, in declared order, places what has rank r and keeps the rest. */
  lemma {:induction false} SweepByRank(services: Services, rank: seq<nat>, r: nat, p: nat)
    requires Ranked(services, rank) && p <= |services|
    ensures SweptAt(services, rank, r, p)
    decreases |services| - p
  {
    if p == |services| {
      SweepEnds(services, rank, r);
    } else {
      SweepByRank(services, rank, r, p + 1);
      SweepOne(services, rank, r, p);
    }
  }

  /** After the sweep of rank r, exactly the ranks up to r are placed. */
  lemma PlacedRank(services: Services, rank: seq<nat>, r: nat)
    requires |rank| == |services|
    ensures PlacedSet(services, rank, r + 1, 0)
         == PlacedSet(services, rank, r, 0) + NamesOf(RankServices(services, rank, r, 0))
  {
    var now := RankServices(services, rank, r, 0);
    ExactlyIs(rank, r, 0);
    ServicesPicked(services, rank, r, 0);
    forall n ensures n in NamesOf(now) <==>
                       exists i :: 0 <= i < |services| && services[i].name == n && rank[i] == r {
      if n in NamesOf(now) {
        var s :| s in now && s.name == n;
        var m :| 0 <= m < |now| && now[m] == s;
        assert Exactly(rank, r, 0)[m] in Exactly(rank, r, 0);
      }
      if i :| 0 <= i < |services| && services[i].name == n && rank[i] == r {
        assert i in Exactly(rank, r, 0);
        var m :| 0 <= m < |now| && Exactly(rank, r, 0)[m] == i;
        assert now[m] in now && now[m].name == n;
      }
    }
  }

  /** The positions of rank r or more, rank by rank. */
  function ByRank(rank: seq<nat>, r: nat): seq<nat>
    decreases |AtLeast(rank, r, 0)|
  {
    AtLeastShrinks(rank, r, 0);
    if AtLeast(rank, r, 0) == [] || Exactly(rank, r, 0) == [] then []
    else Exactly(rank, r, 0) + ByRank(rank, r + 1)
  }

  lemma {:induction false} AtLeastShrinks(rank: seq<nat>, r: nat, p: nat)
    requires p <= |rank|
    ensures |AtLeast(rank, r, p)| == |Exactly(rank, r, p)| + |AtLeast(rank, r + 1, p)|
    decreases |rank| - p
  {
    if p < |rank| {
      AtLeastShrinks(rank, r, p + 1);
    }
  }

  lemma PickAppend(services: Services, a: seq<nat>, b: seq<nat>)
    requires Positions(services, a) && Positions(services, b)
    ensures Positions(services, a + b) && Pick(services, a + b) == Pick(services, a) + Pick(services, b)
  {
  }

  /** One round of `BuildFrom`. */
  lemma BuildRound(rest: Services, placed: set<string>, now: Services, kept: Services)
    requires SweepPlaced(rest, placed) == now && SweepKept(rest, placed) == kept && rest != []
    ensures BuildFrom(rest, placed).Some? ==> now != []
    ensures now != [] ==> BuildFrom(rest, placed) == Then(now, BuildFrom(kept, placed + NamesOf(now)))
  {
  }

  /** From the sweep of rank r on, the build order is the positions rank by rank. */
  ghost predicate BuiltFrom(services: Services, rank: seq<nat>, r: nat, placed: set<string>)
    requires |rank| == |services|
  {
    && Positions(services, ByRank(rank, r))
    && BuildFrom(RestServices(services, rank, r, 0), placed) == Some(Pick(services, ByRank(rank, r)))
  }

  lemma NothingLeft(services: Services, rank: seq<nat>, r: nat, placed: set<string>)
    requires |rank| == |services| && RestServices(services, rank, r, 0) == []
    ensures BuiltFrom(services, rank, r, placed)
  {
    RestSize(services, rank, r, 0);
    assert ByRank(rank, r) == [] && Pick(services, []) == [];
    assert BuildFrom([], placed) == Some([]);
  }

  lemma OneRank(services: Services, rank: seq<nat>, r: nat, placed: set<string>)
    requires |rank| == |services| && SweptFrom(services, rank, r, 0, placed)
    requires RankServices(services, rank, r, 0) != []
    requires BuiltFrom(services, rank, r + 1, placed + NamesOf(RankServices(services, rank, r, 0)))
    ensures BuiltFrom(services, rank, r, placed)
  {
    var now, kept := RankServices(services, rank, r, 0), RestServices(services, rank, r + 1, 0);
    ServicesPicked(services, rank, r, 0);
    AtLeastShrinks(rank, r, 0);
    RestSize(services, rank, r, 0);
    BuildRound(RestServices(services, rank, r, 0), placed, now, kept);
    PickAppend(services, Exactly(rank, r, 0), ByRank(rank, r + 1));
  }

  /** Something of rank r is placed, or the order fails. */
  lemma RankNotEmpty(services: Services, rank: seq<nat>, r: nat, placed: set<string>)
    requires |rank| == |services| && SweptFrom(services, rank, r, 0, placed)
    requires RestServices(services, rank, r, 0) != [] && BuildFrom(RestServices(services, rank, r, 0), placed).Some?
    ensures var now := RankServices(services, rank, r, 0);
            now != [] && BuildFrom(RestServices(services, rank, r + 1, 0), placed + NamesOf(now)).Some?
    ensures |RestServices(services, rank, r + 1, 0)| < |RestServices(services, rank, r, 0)|
  {
    var rest, now := RestServices(services, rank, r, 0), RankServices(services, rank, r, 0);
    SweepSplits(rest, placed);
    BuildRound(rest, placed, now, RestServices(services, rank, r + 1, 0));
  }

  lemma {:induction false} BuildsByRank(services: Services, rank: seq<nat>, r: nat)
    requires Ranked(services, rank)
    requires BuildFrom(RestServices(services, rank, r, 0), PlacedSet(services, rank, r, 0)).Some?
    ensures BuiltFrom(services, rank, r, PlacedSet(services, rank, r, 0))
    decreases |RestServices(services, rank, r, 0)|
  {
    var placed := PlacedSet(services, rank, r, 0);
    if RestServices(services, rank, r, 0) == [] {
      NothingLeft(services, rank, r, placed);
    } else {
      SweepByRank(services, rank, r, 0);
      RankNotEmpty(services, rank, r, placed);
      PlacedRank(services, rank, r);
      BuildsByRank(services, rank, r + 1);
      OneRank(services, rank, r, placed);
    }
  }

  // ----- Sorted, and uniquely so -----

  predicate Before(rank: seq<nat>, i: nat, j: nat)
    requires i < |rank| && j < |rank|
  {
    rank[i] < rank[j] || (rank[i] == rank[j] && i < j)
  }

  /** Every declared position once, by rank and then by position. */
  ghost predicate SortedByRank(rank: seq<nat>, at: seq<nat>) {
    && (forall m :: 0 <= m < |at| ==> at[m] < |rank|)
    && (forall a, b :: 0 <= a < b < |at| ==> Before(rank, at[a], at[b]))
    && (forall i :: 0 <= i < |rank| ==> i in at)
  }

  /** The same from rank r on. */
  ghost predicate SortedFrom(rank: seq<nat>, r: nat, at: seq<nat>) {
    && (forall m :: 0 <= m < |at| ==> at[m] < |rank| && rank[at[m]] >= r)
    && (forall a, b :: 0 <= a < b < |at| ==> Before(rank, at[a], at[b]))
  }

  lemma SortedAppend(rank: seq<nat>, r: nat, now: seq<nat>, later: seq<nat>)
    requires forall m :: 0 <= m < |now| ==> now[m] < |rank| && rank[now[m]] == r
    requires forall a, b :: 0 <= a < b < |now| ==> now[a] < now[b]
    requires SortedFrom(rank, r + 1, later)
    ensures SortedFrom(rank, r, now + later)
  {
  }

  lemma {:induction false} ByRankSorted(rank: seq<nat>, r: nat)
    ensures SortedFrom(rank, r, ByRank(rank, r))
    decreases |AtLeast(rank, r, 0)|
  {
    AtLeastShrinks(rank, r, 0);
    if AtLeast(rank, r, 0) != [] && Exactly(rank, r, 0) != [] {
      var now := Exactly(rank, r, 0);
      ExactlyIs(rank, r, 0);
      ByRankSorted(rank, r + 1);
      forall m | 0 <= m < |now| ensures now[m] < |rank| && rank[now[m]] == r {
        assert now[m] in now;
      }
      SortedAppend(rank, r, now, ByRank(rank, r + 1));
    }
  }

  lemma {:induction false} SortedUnique(rank: seq<nat>, a: seq<nat>, b: seq<nat>)
    requires forall m :: 0 <= m < |a| ==> a[m] < |rank|
    requires forall m :: 0 <= m < |b| ==> b[m] < |rank|
    requires forall m, n :: 0 <= m < n < |a| ==> Before(rank, a[m], a[n])
    requires forall m, n :: 0 <= m < n < |b| ==> Before(rank, b[m], b[n])
    requires forall x :: x in a <==> x in b
    ensures a == b
  {
    assert (a != [] ==> a[0] in b) && (b != [] ==> b[0] in a);
    if a != [] && b != [] {
      var i :| 0 <= i < |b| && b[i] == a[0];
      var j :| 0 <= j < |a| && a[j] == b[0];
      assert a[0] == b[0];
      forall x ensures x in a[1..] <==> x in b[1..] {
        assert x in a <==> x == a[0] || x in a[1..];
        assert x in b <==> x == b[0] || x in b[1..];
        assert a[0] !in a[1..] && b[0] !in b[1..];
      }
      SortedUnique(rank, a[1..], b[1..]);
    }
  }

  lemma {:induction false} AllRest(services: Services, rank: seq<nat>, p: nat)
    requires |rank| == |services| && p <= |rank|
    ensures RestServices(services, rank, 0, p) == services[p..]
    decreases |rank| - p
  {
    if p < |rank| {
      AllRest(services, rank, p + 1);
    }
  }

  lemma {:induction false} AllPicked(services: Services, at: seq<nat>, i: nat)
    requires DistinctNames(services) && Positions(services, at) && i < |services|
    requires multiset(Pick(services, at)) == multiset(services)
    ensures i in at
  {
    assert services[i] in multiset(Pick(services, at));
    var m :| 0 <= m < |at| && Pick(services, at)[m] == services[i];
    assert at[m] == i;
  }

  /** The sweeps come to the positions rank by rank. */
  lemma OrderByRank(services: Services)
    requires DistinctNames(services) && BuildOrder(services).Some?
    ensures Positions(services, ByRank(Ranks(services), 0))
    ensures BuildOrder(services).value == Pick(services, ByRank(Ranks(services), 0))
  {
    var rank := Ranks(services);
    RanksAreRanking(services);
    KnownBases(services);
    AllRest(services, rank, 0);
    assert services[0..] == services;
    assert PlacedSet(services, rank, 0, 0) == {};
    BuildsByRank(services, rank, 0);
  }

  lemma ByRankIsSorted(services: Services)
    requires DistinctNames(services) && BuildOrder(services).Some?
    ensures SortedByRank(Ranks(services), ByRank(Ranks(services), 0))
  {
    OrderByRank(services);
    ByRankSorted(Ranks(services), 0);
    BuildFromOrders(services, {});
    forall i | 0 <= i < |services| ensures i in ByRank(Ranks(services), 0) {
      AllPicked(services, ByRank(Ranks(services), 0), i);
    }
  }

  /** The order lists the services at these positions. */
  predicate Lists(services: Services, order: Services, at: seq<nat>) {
    Positions(services, at) && order == Pick(services, at)
  }

  /** With distinct names, the build order is the declared services sorted by rank and declared position, and
      no other arrangement of them is so sorted. */
  lemma ExactBuildOrder(services: Services)
    requires DistinctNames(services) && BuildOrder(services).Some?
    ensures IsRanking(services, Ranks(services))
    ensures exists at :: SortedByRank(Ranks(services), at) && Lists(services, BuildOrder(services).value, at)
    ensures forall at :: SortedByRank(Ranks(services), at) ==> Lists(services, BuildOrder(services).value, at)
  {
    var at := ByRank(Ranks(services), 0);
    RanksAreRanking(services);
    OrderByRank(services);
    ByRankIsSorted(services);
    assert Lists(services, BuildOrder(services).value, at);
    forall other | SortedByRank(Ranks(services), other) ensures Lists(services, BuildOrder(services).value, other) {
      SameSorted(Ranks(services), at, other);
    }
  }

  lemma SameSorted(rank: seq<nat>, a: seq<nat>, b: seq<nat>)
    requires SortedByRank(rank, a) && SortedByRank(rank, b)
    ensures a == b
  {
    forall x ensures x in a <==> x in b {
      if x in a {
        var m :| 0 <= m < |a| && a[m] == x;
      }
      if x in b {
        var m :| 0 <= m < |b| && b[m] == x;
      }
    }
    SortedUnique(rank, a, b);
  }

  lemma KnownBases(services: Services)
    requires BuildOrder(services).Some?
    ensures BasesKnown(services)
  {
    BuildOrderIff(services);
    forall s | s in services && s.base.Some? ensures s.base.value in NamesOf(services) {
      var k :| Grounded(services, s, k);
    }
  }
}
