/** Runs that reach the ends a deploy can come to although its caller might not expect them. */
module DeployWitnesses {
  import opened Results
  import opened ImagePins
  import opened DeployMachine
  import opened DeployJobs
  import opened DeploySafety
  import opened DeployTheorems
  import M = Manifests

  // ----- A small app -----

  const SERVICE := M.ManifestService("api", "Dockerfile", None, false, Some("api"), None, true)
  const APP := M.Manifest("app", [SERVICE], None, None)

  function CallFor(actor: string, services: seq<string>): DeployCall {
    DeployCall(0, actor, APP, None, true, Some((0, services)), false, "registry")
  }

  lemma AppParses()
    ensures M.Parses(APP) && M.BuildOrder(APP.services) == Some([SERVICE])
  {
    assert !M.IsSpace(APP.name[0]);
    M.DeclaredOrderKept(APP.services);
  }

  lemma Next(s: System, l: Label)
    requires Reachable(s)
    ensures Reachable(Step(s, l))
  {
    RunReachable(s, [l]);
    assert [l][..0] == [];
    assert Run(s, [l]) == Step(s, l);
  }

  /** A run leads there in which no errored update of the job took effect. */
  ghost predicate CleanlyReachable(s: System, id: Id) {
    exists ecs, ls :: s == Run(Initial(ecs), ls) && ErroredUpdates(Initial(ecs), ls, id) == 0
  }

  lemma CleanNext(s: System, l: Label, id: Id)
    requires CleanlyReachable(s, id) && !UpdateErrored(s, l, id)
    ensures CleanlyReachable(Step(s, l), id)
  {
    var ecs, ls :| s == Run(Initial(ecs), ls) && ErroredUpdates(Initial(ecs), ls, id) == 0;
    assert (ls + [l])[..|ls|] == ls;
    assert Run(Initial(ecs), ls + [l]) == Step(s, l) && ErroredUpdates(Initial(ecs), ls + [l], id) == 0;
  }

  lemma Accept(ecs: map<string, seq<Container>>, actor: string, services: seq<string>) returns (s: System)
    requires services != []
    ensures Reachable(s) && CleanlyReachable(s, 0) && s.ecs == ecs && s.receipts == [] && s.writes == []
    ensures s.jobs == map[0 := NewJob(CallFor(actor, services), [SERVICE])]
  {
    AppParses();
    var start := Initial(ecs);
    assert Run(start, []) == start && ErroredUpdates(start, [], 0) == 0;
    Next(start, Call(0, CallFor(actor, services)));
    CleanNext(start, Call(0, CallFor(actor, services)), 0);
    s := Step(start, Call(0, CallFor(actor, services)));
  }

  lemma Answered(s: System, a: Answer) returns (s': System)
    requires Reachable(s) && Enabled(s, Advance(0, a))
    ensures Reachable(s') && s' == AfterAnswer(s, 0, a)
    ensures CleanlyReachable(s, 0) && a != NotUpdated(true) ==> CleanlyReachable(s', 0)
  {
    Next(s, Advance(0, a));
    if CleanlyReachable(s, 0) && a != NotUpdated(true) {
      CleanNext(s, Advance(0, a), 0);
    }
    s' := AfterAnswer(s, 0, a);
  }

  // ----- Jobs whose status never becomes terminal -----

  /** A job can panic before it stores anything. */
  lemma PanickedHangs() returns (s: System)
    ensures Reachable(s) && 0 in s.jobs && s.jobs[0].phase.Panicked? && AlwaysInProgress(s, 0)
  {
    var s0 := Accept(map[], "ada", ["web"]);
    Next(s0, Panic(0));
    s := Step(s0, Panic(0));
    DeadJobHangsIff(s, 0);
  }

  /** A job whose caller's subject is blank ends normally, without a receipt. */
  lemma BlankActorHangs() returns (s: System)
    ensures Reachable(s) && 0 in s.jobs && s.jobs[0].phase.Finished? && M.IsBlank(s.jobs[0].target.actor)
    ensures !DeployReceipt(0, s.jobs[0]).WellShaped() && AlwaysInProgress(s, 0)
  {
    var s0 := Accept(map[], "", ["web"]);
    var s1 := Answered(s0, BuildNotStarted);
    var s2 := Answered(s1, NotStored);
    s := Answered(s2, GuardDropped);
    ReceiptShape(0, s.jobs[0]);
    BlankActorNoReceipt(s, 0);
    DeadJobHangsIff(s, 0);
  }

  // ----- When a failed deploy rolled something -----

  /** A job that ended `Failed`, whose summary says its services were not rolled. */
  predicate FailedDeployOf(s: System, id: Id, services: seq<string>) {
    && id in s.jobs && s.jobs[id].attempts == 1 && s.jobs[id].target.services == services
    && JobOutcome(s.jobs[id]) == DeployOutcome.Failed
  }

  /** The one image the witness's services run: the repository the app builds, without a digest. */
  const LIVE := [Container("main", Some("api"), "", "")]

  lemma LiveIsMoved()
    ensures Images(Clone(LIVE, map["api" := "registry/api@sha"])) != Images(LIVE)
  {
    assert "api"[1..] == "pi" && "pi"[1..] == "i" && "i"[1..] == "";
    assert Before("api", '@') == "api" && Before("api", ':') == "api";
    assert PinFor(Some("api"), map["api" := "registry/api@sha"]) == Some("registry/api@sha");
    assert Images(Clone(LIVE, map["api" := "registry/api@sha"]))[0] == Some("registry/api@sha");
    assert Images(LIVE)[0] == Some("api");
  }

  /** What a job becomes when its only build succeeds and there is no release. */
  lemma OnlyBuildDone(job: Job, digest: string)
    requires |job.target.order| == 1 && job.phase == StartBuild(0) && job.target.manifest.release.None?
    requires job.builds.pins == map[]
    ensures var asked := JobStep(job, BuildStarted, None, 0);
      && asked.phase == PollBuild(0, 0) && asked.target == job.target && asked.builds.pins == map[]
    ensures var built := JobStep(JobStep(job, BuildStarted, None, 0), BuildState(true, true, Some(digest)), None, 0);
      && built.target == job.target && built.phase == RollFrom(job.target, 0) && built.rolling
      && built.rolls == job.rolls && built.attempts == job.attempts
      && var image := ImageName(job.target, 0);
         built.builds.pins == map[image := PinnedRef(job.target.registry, image, digest)]
  {
  }

  lemma Asked(services: seq<string>) returns (s: System)
    requires services != []
    ensures Reachable(s) && CleanlyReachable(s, 0)
    ensures s.ecs == map[services[0] := LIVE] && s.jobs.Keys == {0} && s.writes == []
    ensures s.jobs[0] == JobStep(NewJob(CallFor("ada", services), [SERVICE]), BuildStarted, None, 0)
  {
    var s0 := Accept(map[services[0] := LIVE], "ada", services);
    s := Answered(s0, BuildStarted);
  }

  /** A build's answer moves the job and nothing else. */
  lemma AnswersJob(s: System, a: Answer)
    requires Enabled(s, Advance(0, a)) && s.jobs[0].phase.PollBuild?
    ensures AfterAnswer(s, 0, a) == s.(jobs := s.jobs[0 := JobStep(s.jobs[0], a, None, |s.writes|)])
    ensures JobStep(s.jobs[0], a, None, |s.writes|) == JobStep(s.jobs[0], a, None, 0)
  {
  }

  lemma BuiltJob(services: seq<string>)
    requires services != []
    ensures var asked := JobStep(NewJob(CallFor("ada", services), [SERVICE]), BuildStarted, None, 0);
            var job := JobStep(asked, BuildState(true, true, Some("sha")), None, 0);
      && job.target.services == services && job.phase == Describe(0) && job.rolling && job.attempts == 0
      && job.rolls == NOTHING && job.builds.pins == map["api" := "registry/api@sha"]
  {
    var job := NewJob(CallFor("ada", services), [SERVICE]);
    assert ImageName(job.target, 0) == "api" && PinnedRef("registry", "api", "sha") == "registry/api@sha";
    OnlyBuildDone(job, "sha");
  }

  /** Built with a digest, and about to roll. */
  lemma Built(services: seq<string>) returns (s: System)
    requires services != []
    ensures Reachable(s) && CleanlyReachable(s, 0)
    ensures s.ecs == map[services[0] := LIVE] && s.jobs.Keys == {0} && s.writes == []
    ensures var job := s.jobs[0];
      && job.target.services == services && job.phase == Describe(0) && job.rolling && job.attempts == 0
      && job.rolls == NOTHING && job.builds.pins == map["api" := "registry/api@sha"]
  {
    var s1 := Asked(services);
    BuiltJob(services);
    AnswersJob(s1, BuildState(true, true, Some("sha")));
    s := Answered(s1, BuildState(true, true, Some("sha")));
  }

  /** Every service from j on fails to be described. */
  lemma {:induction false} FailRest(s: System, j: nat) returns (s': System)
    requires Reachable(s) && 0 in s.jobs && j <= |s.jobs[0].target.services|
    requires s.jobs[0].phase == RollFrom(s.jobs[0].target, j) && s.jobs[0].attempts == 0
    ensures Reachable(s') && 0 in s'.jobs && s'.jobs[0].phase.Emit? && s'.jobs[0].attempts == 0
    ensures s'.jobs[0].target == s.jobs[0].target && s'.jobs[0].rolls.rolled == s.jobs[0].rolls.rolled
    ensures j < |s.jobs[0].target.services| || !s.jobs[0].allOk ==> !s'.jobs[0].allOk
    ensures s'.ecs == s.ecs && s'.writes == s.writes && (CleanlyReachable(s, 0) ==> CleanlyReachable(s', 0))
    decreases |s.jobs[0].target.services| - j
  {
    if j == |s.jobs[0].target.services| {
      s' := s;
    } else {
      var next := Answered(s, NotDescribed);
      s' := FailRest(next, j + 1);
    }
  }

  /** With two services or more, the first can be rolled and the rest fail. */
  lemma FailedAfterRolling(services: seq<string>) returns (s: System)
    requires |services| >= 2
    ensures Reachable(s) && CleanlyReachable(s, 0)
    ensures FailedDeployOf(s, 0, services) && s.jobs[0].rolls.rolled == [services[0]]
  {
    var s0 := Built(services);
    LiveIsMoved();
    var s1 := Answered(s0, Described);
    var s2 := Answered(s1, Updated);
    var s3 := FailRest(s2, 1);
    s := Answered(s3, NotStored);
  }

  /** With any services, the update of the first can take effect although an error comes back: the failed
      deploy records nothing as rolled and has changed what the service runs. */
  lemma FailedAfterErroredUpdate(services: seq<string>) returns (s: System)
    requires services != []
    ensures Reachable(s) && FailedDeployOf(s, 0, services) && s.jobs[0].rolls.rolled == [] && Wrote(s, 0)
    ensures services[0] in s.ecs && Images(s.ecs[services[0]]) != Images(LIVE)
  {
    var s0 := Built(services);
    LiveIsMoved();
    var s1 := Answered(s0, Described);
    var s2 := Answered(s1, NotUpdated(true));
    assert s2.writes == [Write(services[0], Some(0))];
    var s3 := FailRest(s2, 1);
    s := Answered(s3, NotStored);
    assert s.writes[0].author == Some(0);
  }

  /** So no list of services makes the summary of a failed deploy right in every run. */
  lemma FailedSummaryNeverSure(services: seq<string>)
    requires services != []
    ensures !(forall s, id :: Reachable(s) && FailedDeployOf(s, id, services) ==> !Wrote(s, id))
  {
    var s := FailedAfterErroredUpdate(services);
  }

  lemma OneServiceRolledNothing(s: System, id: Id, services: seq<string>)
    requires Reachable(s) && FailedDeployOf(s, id, services) && |services| == 1
    ensures s.jobs[id].rolls.rolled == []
  {
    ReachablePhase(s, id);
    ReachableRolls(s, id);
  }

  /** The receipt of a failed deploy lists nothing as rolled, in every run, exactly for a single service. */
  lemma FailedReceiptListsNoneIff(services: seq<string>)
    requires services != []
    ensures (forall s, id :: Reachable(s) && FailedDeployOf(s, id, services) ==> s.jobs[id].rolls.rolled == [])
            <==> |services| == 1
  {
    if |services| == 1 {
      forall s, id | Reachable(s) && FailedDeployOf(s, id, services) ensures s.jobs[id].rolls.rolled == [] {
        OneServiceRolledNothing(s, id, services);
      }
    } else {
      var s := FailedAfterRolling(services);
    }
  }

  lemma CleanWroteNothingIff(s: System, id: Id)
    requires CleanlyReachable(s, id) && id in s.jobs
    ensures Reachable(s) && (!Wrote(s, id) <==> s.jobs[id].rolls.rolled == [])
  {
    var ecs, ls :| s == Run(Initial(ecs), ls) && ErroredUpdates(Initial(ecs), ls, id) == 0;
    WroteNothingIff(ecs, ls, id);
  }

  /** Where an errored update never takes effect, the summary of a failed deploy, that its services were not
      rolled, is right in every run exactly for a single service. */
  lemma FailedSummaryRightIff(services: seq<string>)
    requires services != []
    ensures (forall s, id :: CleanlyReachable(s, id) && FailedDeployOf(s, id, services) ==> !Wrote(s, id))
            <==> |services| == 1
  {
    if |services| == 1 {
      forall s, id | CleanlyReachable(s, id) && FailedDeployOf(s, id, services) ensures !Wrote(s, id) {
        CleanWroteNothingIff(s, id);
        OneServiceRolledNothing(s, id, services);
      }
    } else {
      var s := FailedAfterRolling(services);
      CleanWroteNothingIff(s, 0);
    }
  }

  // ----- Which accepted calls can leave a receipt -----

  lemma AfterOwn(s: System, ls: seq<Label>, l: Label)
    ensures Run(s, ls + [l]) == Step(Run(s, ls), l)
  {
    assert (ls + [l])[..|ls|] == ls;
  }

  /** A job whose first build does not start has only its receipt left to store. */
  lemma FirstBuildFails(s: System, id: Id)
    requires id in s.jobs && s.jobs[id].phase == StartBuild(0) && 0 < |s.jobs[id].target.order|
    ensures var s' := Step(s, Advance(id, BuildNotStarted));
            id in s'.jobs && s'.jobs[id].phase == Emit && s'.jobs[id].target == s.jobs[id].target
  {
  }

  lemma StoringStores(s: System, id: Id)
    requires id in s.jobs && s.jobs[id].phase == Emit && Storable(s.jobs[id])
    ensures !NoReceiptOf(Step(s, Advance(id, Stored)), id)
  {
    assert Enabled(s, Advance(id, Stored));
    assert Step(s, Advance(id, Stored)).receipts[|s.receipts|].deployId == id;
  }

  /** The shortest run that stores a receipt: the first build does not start. */
  lemma StoresReceipt(s: System, id: Id, c: DeployCall) returns (ls: seq<Label>)
    requires Reachable(s) && Accepted(s, id, c) && !M.IsBlank(c.actor)
    ensures !NoReceiptOf(Run(Step(s, Call(id, c)), ls), id)
  {
    var s0 := Step(s, Call(id, c));
    Next(s, Call(id, c));
    ReachablePhase(s0, id);
    var l1, l2 := Advance(id, BuildNotStarted), Advance(id, Stored);
    FirstBuildFails(s0, id);
    StoringStores(Step(s0, l1), id);
    ls := [l1, l2];
    assert [] + [l1] == [l1] && [l1] + [l2] == ls;
    AfterOwn(s0, [], l1);
    AfterOwn(s0, [l1], l2);
  }

  /** An accepted call can end with a stored receipt exactly when its caller's subject is not blank. */
  lemma ReceiptPossibleIff(s: System, id: Id, c: DeployCall)
    requires Reachable(s) && Accepted(s, id, c)
    ensures (exists ls :: !NoReceiptOf(Run(Step(s, Call(id, c)), ls), id)) <==> !M.IsBlank(c.actor)
  {
    if M.IsBlank(c.actor) {
      var s0 := Step(s, Call(id, c));
      Next(s, Call(id, c));
      forall ls ensures NoReceiptOf(Run(s0, ls), id) {
        RunReachable(s0, ls);
        TargetKept(s0, ls, id);
        BlankActorNoReceipt(Run(s0, ls), id);
      }
    } else {
      var ls := StoresReceipt(s, id, c);
    }
  }
}
