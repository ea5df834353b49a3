/** What every deploy job keeps, whatever it is answered. */
module DeployJobs {
  import opened Results
  import opened ImagePins
  import opened DeployMachine
  import M = Manifests

  // ----- Builds -----

  /** The last of the first k services in the order with this name. */
  ghost predicate LastNamed(t: Target, k: nat, n: string, i: nat)
    requires k <= |t.order|
  {
    i < k && t.order[i].name == n && forall j :: i < j < k ==> t.order[j].name != n
  }

  /** `built` maps the name of every service built so far to the image last built under that name. */
  ghost predicate BuiltInv(t: Target, b: Builds) {
    var k := |b.digests|;
    && k <= |t.order|
    && b.built.Keys == M.NamesOf(t.order[..k])
    && (forall n, i: nat :: LastNamed(t, k, n, i) ==> n in b.built && b.built[n] == Tagged(t, i))
  }

  /** The build of service i named a digest, and no later build of the same repository did. */
  ghost predicate LastDigest(t: Target, b: Builds, i: nat) {
    && i < |b.digests| <= |t.order|
    && b.digests[i].Some?
    && forall j :: i < j < |b.digests| && ImageName(t, j) == ImageName(t, i) ==> b.digests[j].None?
  }

  /** `pins` maps exactly the repositories whose builds named a digest, each to its latest digest. */
  ghost predicate PinsInv(t: Target, b: Builds) {
    && |b.digests| <= |t.order|
    && (forall repo :: repo in b.pins ==> exists i: nat :: LastDigest(t, b, i) && ImageName(t, i) == repo)
    && (forall i: nat :: LastDigest(t, b, i) ==>
         ImageName(t, i) in b.pins &&
         b.pins[ImageName(t, i)] == PinnedRef(t.registry, ImageName(t, i), b.digests[i].value))
  }

  /** The build of order[i] was asked for with the image of the service its base names injected. */
  ghost predicate RightRequest(t: Target, r: BuildRequest, i: nat)
    requires i < |t.order|
  {
    var s := t.order[i];
    && r == BuildRequest(s.name, s.dockerfile, ImageName(t, i), s.Tag(), r.baseImage)
    && (s.base.None? ==> r.baseImage == None)
    && (s.base.Some? ==> exists j: nat :: LastNamed(t, i, s.base.value, j) && r.baseImage == Some(Tagged(t, j)))
  }

  ghost predicate StartedInv(t: Target, b: Builds) {
    && |b.digests| <= |b.started| <= |t.order|
    && |b.started| <= |b.digests| + 1
    && forall i :: 0 <= i < |b.started| ==> RightRequest(t, b.started[i], i)
  }

  ghost predicate BuildsInv(t: Target, b: Builds) {
    BuiltInv(t, b) && PinsInv(t, b) && StartedInv(t, b)
  }

  // ----- Rolls -----

  function Handled(r: Rolls): nat {
    |r.rolled| + |r.upToDate| + |r.failed|
  }

  predicate Changed(x: Settled) {
    Images(x.after) != Images(x.before)
  }

  function Moved(xs: seq<Settled>): seq<string> {
    if xs == [] then []
    else Moved(xs[..|xs| - 1]) + if Changed(xs[|xs| - 1]) then [xs[|xs| - 1].service] else []
  }

  function Kept(xs: seq<Settled>): seq<string> {
    if xs == [] then []
    else Kept(xs[..|xs| - 1]) + if Changed(xs[|xs| - 1]) then [] else [xs[|xs| - 1].service]
  }

  /** Every service handled so far is exactly one of rolled, up to date and failed. */
  ghost predicate Partition(t: Target, r: Rolls) {
    && Handled(r) <= |t.services|
    && multiset(r.rolled) + multiset(r.upToDate) + multiset(r.failed) == multiset(t.services[..Handled(r)])
  }

  /** A moved service runs the pinned clone of what it ran; any other already ran every pinned image. */
  predicate OnTarget(x: Settled, pins: Pins) {
    && Images(x.after) == PinnedImages(x.before, pins)
    && x.after == if Changed(x) then Clone(x.before, pins) else x.before
  }

  ghost predicate AllOnTarget(t: Target, pins: Pins, xs: seq<Settled>) {
    forall x :: x in xs ==> OnTarget(x, pins) && x.service in t.services
  }

  ghost predicate InOrder(t: Target, xs: seq<Settled>) {
    |xs| <= |t.services| && forall k :: 0 <= k < |xs| ==> xs[k].service == t.services[k]
  }

  ghost predicate SettledInv(t: Target, pins: Pins, r: Rolls) {
    && r.rolled == Moved(r.settled) && r.upToDate == Kept(r.settled)
    && |r.settled| == |r.rolled| + |r.upToDate|
    && (r.failed == [] ==> InOrder(t, r.settled))
    && AllOnTarget(t, pins, r.settled)
  }

  const NOTHING := Rolls([], [], [], [])

  // ----- Phases -----

  predicate AllBuilt(job: Job) {
    |job.builds.digests| == |job.builds.started| == |job.target.order|
  }

  predicate GatePassed(job: Job) {
    job.target.manifest.release.None? || job.releaseExit == Some(0)
  }

  predicate Ended(job: Job) {
    if job.rolling then Handled(job.rolls) == |job.target.services| else !job.allOk
  }

  /** Still building or releasing, and nothing has gone wrong. */
  predicate Underway(job: Job) {
    job.allOk && !job.rolling && job.attempts == 0
  }

  predicate PhaseInv(job: Job) {
    match job.phase
    case StartBuild(i) => i < |job.target.order| && |job.builds.digests| == |job.builds.started| == i && Underway(job)
    case PollBuild(i, k) => i < |job.target.order| && k < MAX_POLLS && Underway(job)
                            && |job.builds.digests| == i && |job.builds.started| == i + 1
    case StartRelease => AllBuilt(job) && job.target.manifest.release.Some? && Underway(job)
    case PollRelease(k) => k < MAX_POLLS && AllBuilt(job) && job.target.manifest.release.Some? && Underway(job)
    case Describe(j) => job.rolling && j < |job.target.services| && Handled(job.rolls) == j && job.attempts == 0
    case Update(j, d, p) => job.rolling && j < |job.target.services| && Handled(job.rolls) == j && job.attempts == 0
                            && p == Clone(d, job.builds.pins) && Images(p) != Images(d)
    case Emit => Ended(job) && job.attempts == 0
    case DropGuard => Ended(job) && job.attempts == 1
    case Finished => Ended(job) && job.attempts == 1
    case Panicked => job.attempts == 0 || (job.attempts == 1 && Ended(job))
  }

  predicate RollingInv(job: Job) {
    if job.rolling then AllBuilt(job) && GatePassed(job) && (job.allOk <==> job.rolls.failed == [])
    else job.rolls == NOTHING
  }

  predicate ResultsInv(job: Job) {
    job.allOk <==> forall x :: x in job.results ==> x.1
  }

  ghost predicate TargetInv(t: Target) {
    M.BuildOrder(t.manifest.services) == Some(t.order) && t.order != [] && t.services != []
  }

  ghost predicate JobInv(job: Job) {
    && TargetInv(job.target)
    && BuildsInv(job.target, job.builds)
    && Partition(job.target, job.rolls)
    && SettledInv(job.target, job.builds.pins, job.rolls)
    && RollingInv(job)
    && ResultsInv(job)
    && PhaseInv(job)
  }

  // ----- Preservation -----

  lemma NothingRolled(t: Target, pins: Pins)
    ensures Partition(t, NOTHING) && SettledInv(t, pins, NOTHING)
  {
    assert t.services[..0] == [];
  }

  lemma NewJobInv(c: DeployCall)
    requires M.Parses(c.manifest) && M.BuildOrder(c.manifest.services).Some? && c.row.Some?
    ensures JobInv(NewJob(c, M.BuildOrder(c.manifest.services).value))
  {
    var order := M.BuildOrder(c.manifest.services).value;
    var job := NewJob(c, order);
    M.BuildFromOrders(c.manifest.services, {});
    assert |multiset(order)| == |multiset(c.manifest.services)|;
    NothingRolled(job.target, map[]);
    assert order[..0] == [];
  }

  /** The order puts bases first, so the base's image is in `built` when it is needed. */
  lemma BaseIsBuilt(t: Target, b: Builds, i: nat)
    requires TargetInv(t) && BuiltInv(t, b) && i == |b.digests| < |t.order|
    ensures RightRequest(t, Request(t, b, i), i)
  {
    var s := t.order[i];
    M.BuildFromOrders(t.manifest.services, {});
    assert M.Placeable(s, {} + M.NamesOf(t.order[..i]));
    if s.base.Some? {
      var j := LastOf(t, i, s.base.value);
      assert LastNamed(t, i, s.base.value, j);
    }
  }

  lemma {:induction false} LastOf(t: Target, k: nat, n: string) returns (i: nat)
    requires k <= |t.order| && n in M.NamesOf(t.order[..k])
    ensures LastNamed(t, k, n, i)
  {
    assert k > 0;
    if t.order[k - 1].name == n {
      i := k - 1;
    } else {
      assert t.order[..k] == t.order[..k - 1] + [t.order[k - 1]];
      i := LastOf(t, k - 1, n);
    }
  }

  lemma StartedKeeps(t: Target, b: Builds, i: nat)
    requires TargetInv(t) && BuildsInv(t, b) && i == |b.digests| == |b.started| < |t.order|
    ensures BuildsInv(t, b.(started := b.started + [Request(t, b, i)]))
  {
    var next := b.(started := b.started + [Request(t, b, i)]);
    BaseIsBuilt(t, b, i);
    assert forall j: nat :: LastDigest(t, next, j) <==> LastDigest(t, b, j);
  }

  lemma RecordKeepsBuilt(t: Target, b: Builds, i: nat, digest: Option<string>)
    requires BuiltInv(t, b) && i == |b.digests| < |t.order|
    ensures BuiltInv(t, Record(t, b, i, digest))
  {
    var next := Record(t, b, i, digest);
    assert t.order[..i + 1] == t.order[..i] + [t.order[i]];
    forall n, j: nat | LastNamed(t, i + 1, n, j) ensures n in next.built && next.built[n] == Tagged(t, j) {
      if j < i {
        assert LastNamed(t, i, n, j);
      }
    }
  }

  /** A new digest supersedes the earlier ones of its repository, and only those. */
  lemma LastDigestAfter(t: Target, b: Builds, i: nat, digest: Option<string>, j: nat)
    requires i == |b.digests| < |t.order|
    ensures LastDigest(t, Record(t, b, i, digest), j) <==>
            if j == i then digest.Some?
            else LastDigest(t, b, j) && !(digest.Some? && ImageName(t, j) == ImageName(t, i))
  {
    var after := Record(t, b, i, digest).digests;
    assert after[..i] == b.digests && after[i] == digest;
    assert forall k :: 0 <= k < i ==> after[k] == b.digests[k];
  }

  lemma RecordKeepsPins(t: Target, b: Builds, i: nat, digest: Option<string>)
    requires PinsInv(t, b) && i == |b.digests| < |t.order|
    ensures PinsInv(t, Record(t, b, i, digest))
  {
    var next := Record(t, b, i, digest);
    forall repo | repo in next.pins ensures exists j: nat :: LastDigest(t, next, j) && ImageName(t, j) == repo {
      if digest.Some? && repo == ImageName(t, i) {
        LastDigestAfter(t, b, i, digest, i);
      } else {
        var j: nat :| LastDigest(t, b, j) && ImageName(t, j) == repo;
        LastDigestAfter(t, b, i, digest, j);
      }
    }
    forall j: nat | LastDigest(t, next, j)
      ensures ImageName(t, j) in next.pins
      ensures next.pins[ImageName(t, j)] == PinnedRef(t.registry, ImageName(t, j), next.digests[j].value)
    {
      LastDigestAfter(t, b, i, digest, j);
    }
  }

  lemma RecordKeeps(t: Target, b: Builds, i: nat, digest: Option<string>)
    requires BuildsInv(t, b) && i == |b.digests| < |t.order| && |b.started| == i + 1
    ensures BuildsInv(t, Record(t, b, i, digest))
  {
    RecordKeepsBuilt(t, b, i, digest);
    RecordKeepsPins(t, b, i, digest);
  }

  lemma PassKeepsResults(job: Job, name: string, next: Phase)
    requires ResultsInv(job)
    ensures ResultsInv(Pass(job, name, next))
  {
  }

  /** A recorded build moves the job on and changes none of its rolls. */
  lemma BuildDoneFrame(job: Job, i: nat, digest: Option<string>)
    requires i < |job.target.order|
    ensures var next := BuildDone(job, i, digest);
      && next.target == job.target && next.builds == Record(job.target, job.builds, i, digest)
      && next.rolls == job.rolls && next.allOk == job.allOk
      && next.results == job.results + [(job.target.order[i].name, true)]
      && next.releaseExit == job.releaseExit && next.attempts == job.attempts
  {
  }

  lemma BuildDoneKeeps(job: Job, i: nat, digest: Option<string>)
    requires JobInv(job) && job.phase.PollBuild? && job.phase.i == i
    ensures JobInv(BuildDone(job, i, digest))
  {
    var t := job.target;
    RecordKeeps(t, job.builds, i, digest);
    NothingRolled(t, Record(t, job.builds, i, digest).pins);
    BuildDoneFrame(job, i, digest);
    PassKeepsResults(job, t.order[i].name, job.phase);
  }

  lemma FailKeeps(job: Job, name: string)
    requires JobInv(job) && Underway(job)
    ensures JobInv(Fail(job, name, Emit))
  {
    assert (name, false) in Fail(job, name, Emit).results;
  }

  lemma NextService(services: seq<string>, h: nat)
    requires h < |services|
    ensures multiset(services[..h + 1]) == multiset(services[..h]) + multiset{services[h]}
  {
    assert services[..h + 1] == services[..h] + [services[h]];
  }

  function Settle(r: Rolls, x: Settled): Rolls {
    Rolls(if Changed(x) then r.rolled + [x.service] else r.rolled,
          if Changed(x) then r.upToDate else r.upToDate + [x.service],
          r.failed, r.settled + [x])
  }

  lemma SettleKeepsPartition(t: Target, r: Rolls, x: Settled)
    requires Partition(t, r) && Handled(r) < |t.services| && x.service == t.services[Handled(r)]
    ensures Partition(t, Settle(r, x)) && Handled(Settle(r, x)) == Handled(r) + 1
  {
    NextService(t.services, Handled(r));
  }

  lemma SettleLists(r: Rolls, x: Settled)
    requires r.rolled == Moved(r.settled) && r.upToDate == Kept(r.settled)
    ensures Settle(r, x).rolled == Moved(Settle(r, x).settled) && Settle(r, x).upToDate == Kept(Settle(r, x).settled)
  {
    assert (r.settled + [x])[..|r.settled|] == r.settled;
  }

  lemma NextOnTarget(t: Target, pins: Pins, xs: seq<Settled>, x: Settled)
    requires AllOnTarget(t, pins, xs) && OnTarget(x, pins) && x.service in t.services
    ensures AllOnTarget(t, pins, xs + [x])
  {
  }

  lemma NextInOrder(t: Target, xs: seq<Settled>, x: Settled)
    requires InOrder(t, xs) && |xs| < |t.services| && x.service == t.services[|xs|]
    ensures InOrder(t, xs + [x])
  {
  }

  lemma SettleKeepsSettled(t: Target, pins: Pins, r: Rolls, x: Settled)
    requires SettledInv(t, pins, r) && Handled(r) < |t.services|
    requires x.service == t.services[Handled(r)] && OnTarget(x, pins)
    ensures SettledInv(t, pins, Settle(r, x))
  {
    SettleLists(r, x);
    NextOnTarget(t, pins, r.settled, x);
    if r.failed == [] {
      NextInOrder(t, r.settled, x);
    }
  }

  lemma FailureKeepsRolls(t: Target, pins: Pins, r: Rolls)
    requires Partition(t, r) && SettledInv(t, pins, r) && Handled(r) < |t.services|
    ensures var next := r.(failed := r.failed + [t.services[Handled(r)]]);
            Partition(t, next) && SettledInv(t, pins, next)
  {
    NextService(t.services, Handled(r));
  }

  lemma RollFailedKeeps(job: Job, j: nat)
    requires JobInv(job) && job.rolling && Handled(job.rolls) == j < |job.target.services| && job.attempts == 0
    ensures JobInv(RollFailed(job, j))
  {
    FailureKeepsRolls(job.target, job.builds.pins, job.rolls);
    assert (job.target.services[j], false) in RollFailed(job, j).results;
  }

  /** Settling service j, whichever way, and going on with the next. */
  lemma SettleKeeps(job: Job, j: nat, x: Settled, results: seq<(string, bool)>)
    requires JobInv(job) && job.rolling && Handled(job.rolls) == j < |job.target.services| && job.attempts == 0
    requires x.service == job.target.services[j] && OnTarget(x, job.builds.pins)
    requires results == job.results || results == job.results + [(x.service, true)]
    ensures JobInv(job.(rolls := Settle(job.rolls, x), results := results, phase := RollFrom(job.target, j + 1)))
  {
    SettleKeepsPartition(job.target, job.rolls, x);
    SettleKeepsSettled(job.target, job.builds.pins, job.rolls, x);
  }

  lemma DescribedKeeps(job: Job, j: nat, live: Option<seq<Container>>, writes: nat)
    requires JobInv(job) && job.phase == Describe(j)
    ensures JobInv(OnDescribed(job, j, live, writes))
  {
    if live.None? {
      RollFailedKeeps(job, j);
    } else if Images(Clone(live.value, job.builds.pins)) == Images(live.value) {
      var x := Settled(job.target.services[j], live.value, live.value, writes);
      SettleKeeps(job, j, x, job.results + [(x.service, true)]);
      assert OnDescribed(job, j, live, writes).rolls == Settle(job.rolls, x);
    }
  }

  lemma UpdatedKeeps(job: Job, j: nat, d: seq<Container>, p: seq<Container>, writes: nat)
    requires JobInv(job) && job.phase == Update(j, d, p)
    ensures JobInv(OnUpdated(job, j, d, p, writes))
  {
    var x := Settled(job.target.services[j], d, p, writes);
    SettleKeeps(job, j, x, job.results);
    assert OnUpdated(job, j, d, p, writes).rolls == Settle(job.rolls, x);
  }

  lemma BuildStepKeeps(job: Job, a: Answer, live: Option<seq<Container>>, writes: nat)
    requires JobInv(job) && Fits(job.phase, a) && (job.phase.StartBuild? || job.phase.PollBuild?)
    ensures JobInv(JobStep(job, a, live, writes))
  {
    FailKeeps(job, job.target.order[job.phase.i].name);
    if job.phase.StartBuild? {
      StartedKeeps(job.target, job.builds, job.phase.i);
    } else if a.BuildState? {
      BuildDoneKeeps(job, job.phase.i, a.digest);
    }
  }

  lemma ReleaseStepKeeps(job: Job, a: Answer, live: Option<seq<Container>>, writes: nat)
    requires JobInv(job) && Fits(job.phase, a) && (job.phase.StartRelease? || job.phase.PollRelease?)
    ensures JobInv(JobStep(job, a, live, writes))
  {
    FailKeeps(job, "release");
    if a.ReleaseStopped? {
      FailKeeps(job.(releaseExit := a.exit), "release");
    }
  }

  lemma RollStepKeeps(job: Job, a: Answer, live: Option<seq<Container>>, writes: nat)
    requires JobInv(job) && Fits(job.phase, a) && (job.phase.Describe? || job.phase.Update?)
    ensures JobInv(JobStep(job, a, live, writes))
  {
    RollFailedKeeps(job, job.phase.j);
    if job.phase.Describe? {
      DescribedKeeps(job, job.phase.j, live, writes);
    } else {
      UpdatedKeeps(job, job.phase.j, job.phase.described, job.phase.planned, writes);
    }
  }

  lemma JobStepKeeps(job: Job, a: Answer, live: Option<seq<Container>>, writes: nat)
    requires JobInv(job) && Fits(job.phase, a) && InRange(job)
    ensures JobInv(JobStep(job, a, live, writes))
  {
    if job.phase.StartBuild? || job.phase.PollBuild? {
      BuildStepKeeps(job, a, live, writes);
    } else if job.phase.StartRelease? || job.phase.PollRelease? {
      ReleaseStepKeeps(job, a, live, writes);
    } else if job.phase.Describe? || job.phase.Update? {
      RollStepKeeps(job, a, live, writes);
    }
  }

  // ----- Termination -----

  /** An upper bound on the answers a job still takes. */
  function Measure(job: Job): nat
    requires InRange(job)
  {
    var n, m := |job.target.order|, |job.target.services|;
    match job.phase
    case StartBuild(i) => 62 * (n - i) + 2 * m + 65
    case PollBuild(i, k) => (if k < 60 then 62 * (n - i) - 1 - k else 62 * (n - i) - 61) + 2 * m + 65
    case StartRelease => 2 * m + 65
    case PollRelease(k) => 2 * m + 3 + (if k < 60 then 61 - k else 0)
    case Describe(j) => 2 * (m - j) + 2
    case Update(j, _, _) => 2 * (m - j) + 1
    case Emit => 2
    case DropGuard => 1
    case Finished => 0
    case Panicked => 0
  }

  lemma BuildStepsDecrease(job: Job, a: Answer, live: Option<seq<Container>>, writes: nat)
    requires PhaseInv(job) && Fits(job.phase, a) && (job.phase.StartBuild? || job.phase.PollBuild?)
    ensures InRange(JobStep(job, a, live, writes))
    ensures Measure(JobStep(job, a, live, writes)) < Measure(job)
  {
  }

  lemma LaterStepsDecrease(job: Job, a: Answer, live: Option<seq<Container>>, writes: nat)
    requires PhaseInv(job) && Fits(job.phase, a) && !job.phase.StartBuild? && !job.phase.PollBuild?
    ensures InRange(JobStep(job, a, live, writes))
    ensures Measure(JobStep(job, a, live, writes)) < Measure(job)
  {
  }

  /** Every answer brings a job strictly closer to its end. */
  lemma StepsDecrease(job: Job, a: Answer, live: Option<seq<Container>>, writes: nat)
    requires JobInv(job) && Fits(job.phase, a)
    ensures InRange(JobStep(job, a, live, writes))
    ensures Measure(JobStep(job, a, live, writes)) < Measure(job)
  {
    if job.phase.StartBuild? || job.phase.PollBuild? {
      BuildStepsDecrease(job, a, live, writes);
    } else {
      LaterStepsDecrease(job, a, live, writes);
    }
  }

  /** What a finished job reports: the outcome is never `Rolled` with nothing rolled. */
  lemma OutcomeOf(job: Job)
    requires JobInv(job) && Ended(job)
    ensures JobOutcome(job) == DeployOutcome.Failed <==> !job.allOk
    ensures JobOutcome(job) == NoChanges <==> job.allOk && job.rolls.rolled == []
    ensures JobOutcome(job) == Rolled <==> job.allOk && job.rolls.rolled != []
  {
  }
}
