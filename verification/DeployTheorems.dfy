/** The deploy protocol's guarantees over every run. */
module DeployTheorems {
  import opened Results
  import opened ImagePins
  import opened Receipts
  import opened DeployMachine
  import opened DeployJobs
  import opened DeploySafety
  import M = Manifests

  // ----- One job at a time -----

  /** A deployment is in flight exactly when it has a live job, and it never has two. */
  lemma OneLiveJob(s: System, d: Id)
    requires Reachable(s)
    ensures d in s.inFlight <==> exists id :: id in s.jobs && Live(s.jobs[id]) && s.jobs[id].target.deployment == d
    ensures forall a, b ::
      (a in s.jobs && b in s.jobs && Live(s.jobs[a]) && Live(s.jobs[b])
       && s.jobs[a].target.deployment == s.jobs[b].target.deployment) ==> a == b
  {
    ReachableFlight(s);
    if d in s.inFlight {
      assert s.inFlight[d] in s.jobs;
    }
  }

  /** `already_deploying` always names a live job of the same deployment, and starts nothing. */
  lemma AlreadyDeployingIsLive(s: System, id: Id, c: DeployCall)
    requires Reachable(s) && Respond(s, id, c).AlreadyDeploying?
    ensures var other := Respond(s, id, c).deployId;
            other in s.jobs && Live(s.jobs[other]) && s.jobs[other].target.deployment == c.row.value.0
    ensures Step(s, Call(id, c)) == s
  {
    ReachableFlight(s);
  }

  /** The guard removes its own job's entry and no other, whether the job finishes or panics. */
  lemma GuardDropsOwnEntry(s: System, id: Id, l: Label)
    requires Reachable(s) && Enabled(s, l) && (l == Advance(id, GuardDropped) || l == Panic(id))
    ensures var d := s.jobs[id].target.deployment;
            d in s.inFlight && s.inFlight[d] == id && Step(s, l).inFlight == s.inFlight - {d}
    ensures forall other :: other in s.jobs && other != id && Live(s.jobs[other]) ==>
              s.jobs[other].target.deployment in Step(s, l).inFlight
  {
    ReachableFlight(s);
  }

  // ----- What a deploy may change -----

  ghost predicate WritesOnly(before: map<string, seq<Container>>, after: map<string, seq<Container>>, svc: string) {
    && after.Keys == before.Keys + {svc}
    && (forall other :: other in before && other != svc ==> after[other] == before[other])
  }

  /** A job changes a service's task definition only after it has built every service of the manifest
      and the release was absent or exited 0. */
  lemma WritesAreGated(s: System, l: Label)
    requires Reachable(s) && Step(s, l).ecs != s.ecs && !l.Outside?
    ensures l.Advance? && l.id in s.jobs
    ensures var job := s.jobs[l.id];
      && job.builds.built.Keys == M.NamesOf(job.target.manifest.services)
      && (job.target.manifest.release.None? || job.releaseExit == Some(0))
      && exists svc :: svc in job.target.services && WritesOnly(s.ecs, Step(s, l).ecs, svc)
  {
    JobWrites(s, l);
    var job := s.jobs[l.id];
    ReachablePhase(s, l.id);
    ReachableBuilds(s, l.id);
    EverythingBuilt(job);
    assert WritesOnly(s.ecs, Step(s, l).ecs, job.target.services[job.phase.j]);
  }

  /** Only an update writes, and only the service it is about. */
  lemma JobWrites(s: System, l: Label)
    requires Step(s, l).ecs != s.ecs && !l.Outside?
    ensures l.Advance? && Enabled(s, l) && s.jobs[l.id].phase.Update?
    ensures var svc := s.jobs[l.id].target.services[s.jobs[l.id].phase.j];
            svc in s.jobs[l.id].target.services && Step(s, l).ecs == s.ecs[svc := s.jobs[l.id].phase.planned]
  {
  }

  lemma ReachableBuilds(s: System, id: Id)
    requires Reachable(s) && id in s.jobs
    ensures TargetInv(s.jobs[id].target) && BuildsInv(s.jobs[id].target, s.jobs[id].builds)
    ensures s.jobs[id].rolling ==> AllBuilt(s.jobs[id]) && GatePassed(s.jobs[id])
  {
    ReachableJob(s, id);
  }

  lemma ReachableRolls(s: System, id: Id)
    requires Reachable(s) && id in s.jobs
    ensures Partition(s.jobs[id].target, s.jobs[id].rolls) && RollingInv(s.jobs[id])
    ensures SettledInv(s.jobs[id].target, s.jobs[id].builds.pins, s.jobs[id].rolls)
  {
    ReachableJob(s, id);
  }

  lemma EverythingBuilt(job: Job)
    requires TargetInv(job.target) && BuiltInv(job.target, job.builds) && AllBuilt(job)
    ensures job.builds.built.Keys == M.NamesOf(job.target.manifest.services)
  {
    M.BuildFromOrders(job.target.manifest.services, {});
    M.SameMembers(job.target.order, job.target.manifest.services);
    assert job.target.order[..|job.target.order|] == job.target.order;
  }

  /** A job that rolled leaves each of its services exactly one of rolled, up to date and failed; a job
      that never rolled leaves all three empty. */
  lemma EndedPartition(s: System, id: Id)
    requires Reachable(s) && id in s.jobs && s.jobs[id].attempts == 1
    ensures var job := s.jobs[id];
      if job.rolling then
        multiset(job.rolls.rolled) + multiset(job.rolls.upToDate) + multiset(job.rolls.failed)
        == multiset(job.target.services)
      else job.rolls.rolled == job.rolls.upToDate == job.rolls.failed == []
  {
    ReachableRolls(s, id);
    ReachablePhase(s, id);
    var job := s.jobs[id];
    assert job.target.services[..|job.target.services|] == job.target.services;
  }

  /** Every rolled service had an image whose repository was just built: the loop's "no container image
      matched" branch cannot be taken. */
  lemma RolledMatched(s: System, id: Id, svc: string)
    requires Reachable(s) && id in s.jobs && svc in s.jobs[id].rolls.rolled
    ensures var job := s.jobs[id];
      exists x :: x in job.rolls.settled && x.service == svc && Matched(x.before, job.builds.pins) != []
  {
    ReachableJob(s, id);
    var job := s.jobs[id];
    var x := MovedFrom(job.rolls.settled, svc);
    assert OnTarget(x, job.builds.pins);
    ChangedIsMatched(x.before, job.builds.pins);
  }

  lemma {:induction false} MovedFrom(xs: seq<Settled>, svc: string) returns (x: Settled)
    requires svc in Moved(xs)
    ensures x in xs && x.service == svc && Changed(x)
  {
    var k := |xs| - 1;
    if Changed(xs[k]) && xs[k].service == svc {
      x := xs[k];
    } else {
      x := MovedFrom(xs[..k], svc);
    }
  }

  // ----- Builds -----

  /** The builds started are a prefix of what a dry run of the same manifest announces, and all of it once
      the job rolls; each is given the image of its base. */
  lemma BuildsAsPlanned(s: System, id: Id, c: DeployCall)
    requires Reachable(s) && id in s.jobs && c.manifest == s.jobs[id].target.manifest
    requires Respond(s, id, c).Plan?
    ensures var job := s.jobs[id];
      && |job.builds.started| <= |Respond(s, id, c).wouldBuild|
      && (forall i :: 0 <= i < |job.builds.started| ==>
           && i < |job.target.order|
           && job.builds.started[i].service == Respond(s, id, c).wouldBuild[i]
           && RightRequest(job.target, job.builds.started[i], i))
      && (job.rolling ==> |job.builds.started| == |Respond(s, id, c).wouldBuild|)
  {
    ReachableBuilds(s, id);
    var job := s.jobs[id];
    assert forall i :: 0 <= i < |job.builds.started| ==> RightRequest(job.target, job.builds.started[i], i);
  }

  // ----- Receipts and status -----

  /** The stored receipt: verified exactly when everything went well, which is exactly when the outcome
      is not `Failed`. */
  lemma ReceiptTellsOutcome(s: System, i: nat)
    requires Reachable(s) && i < |s.receipts|
    ensures var r := s.receipts[i];
      && r.deployId in s.jobs
      && (r.receipt.Verified() <==> s.jobs[r.deployId].allOk)
      && (r.receipt.Verified() <==> r.outcome != DeployOutcome.Failed)
      && (r.outcome == NoChanges <==> r.receipt.Verified() && r.rolled == [])
      && r.receipt.tenant == s.jobs[r.deployId].target.tenant
  {
    ReachableReceipts(s);
    var r := s.receipts[i];
    var job := s.jobs[r.deployId];
    ReachableJob(s, r.deployId);
    OutcomeOf(job);
    ReceiptVerified(r.deployId, job);
  }

  lemma ReceiptVerified(id: Id, job: Job)
    requires ResultsInv(job)
    ensures DeployReceipt(id, job).Verified() <==> job.allOk
    ensures DeployReceipt(id, job).tenant == job.target.tenant
  {
    var intent := Intent("deploy '" + job.target.manifest.name + "'", false, "deploy");
    var r := NewReceipt("deploy", job.target.tenant, job.target.actor, intent)
             .Guardrail("manifest_driven").Guardrail("build_graph_ordered").Guardrail("rolling_health_checked")
             .Guardrail("digest_pinned_deploy").Guardrail("release_gated");
    VerifiedIff(r, job.results);
    WithResultsAppends(r, job.results);
  }

  lemma {:induction false} StatusOf(receipts: seq<StoredReceipt>, tenant: Id, id: Id)
    ensures DeployStatus(receipts, tenant, id) == InProgress <==>
            forall i :: 0 <= i < |receipts| ==> !(receipts[i].deployId == id && receipts[i].receipt.tenant == tenant)
    ensures forall i ::
      (0 <= i < |receipts| && receipts[i].deployId == id && receipts[i].receipt.tenant == tenant
       && forall j :: 0 <= j < |receipts| && receipts[j].deployId == id ==> j == i) ==>
      DeployStatus(receipts, tenant, id) == if receipts[i].receipt.Verified() then Succeeded else FailedDeploy
  {
    if receipts != [] {
      StatusOf(receipts[..|receipts| - 1], tenant, id);
    }
  }

  lemma {:induction false} ReceiptsGrow(s: System, ls: seq<Label>)
    ensures s.receipts <= Run(s, ls).receipts
  {
    if ls != [] {
      ReceiptsGrow(s, ls[..|ls| - 1]);
    }
  }

  /** With one receipt per job, the status is that receipt's verdict. */
  lemma StatusFrom(s: System, tenant: Id, id: Id, i: nat)
    requires ReceiptsInv(s) && i < |s.receipts|
    requires s.receipts[i].deployId == id && s.receipts[i].receipt.tenant == tenant
    ensures DeployStatus(s.receipts, tenant, id) == if s.receipts[i].receipt.Verified() then Succeeded else FailedDeploy
  {
    StatusOf(s.receipts, tenant, id);
    forall j | 0 <= j < |s.receipts| && s.receipts[j].deployId == id ensures j == i {
    }
  }

  /** `deploy_status` is terminal: once it says succeeded or failed, no further step changes it. */
  lemma StatusIsTerminal(s: System, ls: seq<Label>, tenant: Id, id: Id)
    requires Reachable(s) && DeployStatus(s.receipts, tenant, id) != InProgress
    ensures DeployStatus(Run(s, ls).receipts, tenant, id) == DeployStatus(s.receipts, tenant, id)
  {
    ReachableReceipts(s);
    RunReachable(s, ls);
    ReachableReceipts(Run(s, ls));
    ReceiptsGrow(s, ls);
    StatusOf(s.receipts, tenant, id);
    var i :| 0 <= i < |s.receipts| && s.receipts[i].deployId == id && s.receipts[i].receipt.tenant == tenant;
    StatusFrom(s, tenant, id, i);
    StatusFrom(Run(s, ls), tenant, id, i);
  }

  /** What a job's caller is told: nothing terminal until its receipt is stored, and then success exactly
      when everything went well. */
  lemma StatusTellsTruth(s: System, id: Id)
    requires Reachable(s) && id in s.jobs
    ensures var told := DeployStatus(s.receipts, s.jobs[id].target.tenant, id);
      && (told == InProgress <==> forall i :: 0 <= i < |s.receipts| ==> s.receipts[i].deployId != id)
      && (told == Succeeded ==> s.jobs[id].allOk && s.jobs[id].attempts == 1)
      && (told == FailedDeploy ==> !s.jobs[id].allOk && s.jobs[id].attempts == 1)
  {
    ReachableReceipts(s);
    var job := s.jobs[id];
    var tenant := job.target.tenant;
    ReachableResults(s, id);
    ReceiptVerified(id, job);
    StatusOf(s.receipts, tenant, id);
    if i :| 0 <= i < |s.receipts| && s.receipts[i].deployId == id {
      StatusFrom(s, tenant, id, i);
    }
  }

  lemma ReachableResults(s: System, id: Id)
    requires Reachable(s) && id in s.jobs
    ensures ResultsInv(s.jobs[id])
  {
    ReachableJob(s, id);
  }

  /** A label leaves a dead job as it is and stores nothing of it. */
  lemma DeadStep(s: System, l: Label, tenant: Id, id: Id)
    requires id in s.jobs && !Live(s.jobs[id])
    ensures id in Step(s, l).jobs && Step(s, l).jobs[id] == s.jobs[id]
    ensures DeployStatus(Step(s, l).receipts, tenant, id) == DeployStatus(s.receipts, tenant, id)
  {
    if Step(s, l).receipts != s.receipts {
      assert Step(s, l).receipts[..|Step(s, l).receipts| - 1] == s.receipts;
    }
  }

  /** A job that is gone answers for ever as it answers now. */
  lemma {:induction false} StatusOfDeadJob(s: System, ls: seq<Label>, tenant: Id, id: Id)
    requires Reachable(s) && id in s.jobs && !Live(s.jobs[id])
    ensures id in Run(s, ls).jobs && Run(s, ls).jobs[id] == s.jobs[id]
    ensures DeployStatus(Run(s, ls).receipts, tenant, id) == DeployStatus(s.receipts, tenant, id)
  {
    if ls != [] {
      StatusOfDeadJob(s, ls[..|ls| - 1], tenant, id);
      DeadStep(Run(s, ls[..|ls| - 1]), ls[|ls| - 1], tenant, id);
    }
  }

  ghost predicate NoReceiptOf(s: System, id: Id) {
    forall i :: 0 <= i < |s.receipts| ==> s.receipts[i].deployId != id
  }

  ghost predicate AlwaysInProgress(s: System, id: Id)
    requires id in s.jobs
  {
    forall ls :: DeployStatus(Run(s, ls).receipts, s.jobs[id].target.tenant, id) == InProgress
  }

  /** Its caller is told it is still running in every continuation exactly when it left no receipt. */
  lemma DeadJobHangsIff(s: System, id: Id)
    requires Reachable(s) && id in s.jobs && !Live(s.jobs[id])
    ensures AlwaysInProgress(s, id) <==> NoReceiptOf(s, id)
  {
    StatusTellsTruth(s, id);
    assert Run(s, []) == s;
    forall ls ensures DeployStatus(Run(s, ls).receipts, s.jobs[id].target.tenant, id)
                      == DeployStatus(s.receipts, s.jobs[id].target.tenant, id) {
      StatusOfDeadJob(s, ls, s.jobs[id].target.tenant, id);
    }
  }

  ghost predicate ActorsNamed(receipts: seq<StoredReceipt>) {
    forall i :: 0 <= i < |receipts| ==> !M.IsBlank(receipts[i].receipt.actor)
  }

  lemma {:induction false} StoredActors(s: System, ls: seq<Label>)
    requires ActorsNamed(s.receipts)
    ensures ActorsNamed(Run(s, ls).receipts)
  {
    if ls != [] {
      var before, l := Run(s, ls[..|ls| - 1]), ls[|ls| - 1];
      StoredActors(s, ls[..|ls| - 1]);
      if l.Advance? && Enabled(before, l) && l.answer.Stored? {
        ReceiptActor(l.id, before.jobs[l.id]);
      }
    }
  }

  lemma ReceiptActor(id: Id, job: Job)
    ensures ReceiptOf(id, job).receipt.actor == job.target.actor
  {
    var intent := Intent("deploy '" + job.target.manifest.name + "'", false, "deploy");
    var r := NewReceipt("deploy", job.target.tenant, job.target.actor, intent)
             .Guardrail("manifest_driven").Guardrail("build_graph_ordered").Guardrail("rolling_health_checked")
             .Guardrail("digest_pinned_deploy").Guardrail("release_gated");
    WithResultsAppends(r, job.results);
  }

  /** A job of a caller whose subject is blank never leaves a receipt: see `ReceiptShape`. */
  lemma BlankActorNoReceipt(s: System, id: Id)
    requires Reachable(s) && id in s.jobs && M.IsBlank(s.jobs[id].target.actor)
    ensures NoReceiptOf(s, id)
  {
    var ecs, ls :| s == Run(Initial(ecs), ls);
    StoredActors(Initial(ecs), ls);
    ReachableReceipts(s);
    ReceiptActor(id, s.jobs[id]);
  }

  // ----- What a job wrote -----

  /** The job changed some service's task definition, whatever it recorded of it. */
  ghost predicate Wrote(s: System, id: Id) {
    exists k :: 0 <= k < |s.writes| && s.writes[k].author == Some(id)
  }

  /** An update of the job takes effect and is answered. */
  predicate UpdateAnswered(s: System, l: Label, id: Id) {
    l == Advance(id, Updated) && Enabled(s, l)
  }

  /** An update of the job takes effect although an error comes back. */
  predicate UpdateErrored(s: System, l: Label, id: Id) {
    l == Advance(id, NotUpdated(true)) && Enabled(s, l)
  }

  /** How many of them there are along a run. */
  function ErroredUpdates(s: System, ls: seq<Label>, id: Id): nat {
    if ls == [] then 0
    else
      var k := |ls| - 1;
      ErroredUpdates(s, ls[..k], id) + if UpdateErrored(Run(s, ls[..k]), ls[k], id) then 1 else 0
  }

  lemma StepWrites(s: System, l: Label, id: Id)
    ensures Wrote(Step(s, l), id) <==> Wrote(s, id) || UpdateAnswered(s, l, id) || UpdateErrored(s, l, id)
  {
    var s' := Step(s, l);
    assert s'.writes == s.writes || (|s'.writes| == |s.writes| + 1 && s'.writes[..|s.writes|] == s.writes);
    if Wrote(s, id) {
      var k :| 0 <= k < |s.writes| && s.writes[k].author == Some(id);
      assert s'.writes[k] == s.writes[k];
    }
    if UpdateAnswered(s, l, id) || UpdateErrored(s, l, id) {
      assert s'.writes[|s.writes|].author == Some(id);
    }
  }

  lemma AnswerRolls(job: Job, a: Answer, live: Option<seq<Container>>, writes: nat)
    requires Fits(job.phase, a) && InRange(job)
    ensures JobStep(job, a, live, writes).rolls.rolled != [] <==> job.rolls.rolled != [] || a.Updated?
  {
    if !job.phase.Describe? && !job.phase.Update? {
      OthersSettleNothing(job, a, live, writes);
    }
  }

  /** What the job has recorded as rolled, none before it exists. */
  function RolledBy(s: System, id: Id): seq<string> {
    if id in s.jobs then s.jobs[id].rolls.rolled else []
  }

  lemma StepRolls(s: System, l: Label, id: Id)
    ensures RolledBy(Step(s, l), id) != [] <==> RolledBy(s, id) != [] || UpdateAnswered(s, l, id)
  {
    if l.Advance? && l.id == id && Enabled(s, l) {
      AnswerRolls(s.jobs[id], l.answer, LiveContainers(s, s.jobs[id]), |AfterAnswer(s, id, l.answer).writes|);
    }
  }

  /** In every run a job wrote nothing exactly when it recorded nothing as rolled and no errored update of its
      took effect. */
  lemma {:induction false} WroteNothingIff(ecs: map<string, seq<Container>>, ls: seq<Label>, id: Id)
    ensures !Wrote(Run(Initial(ecs), ls), id) <==>
              RolledBy(Run(Initial(ecs), ls), id) == [] && ErroredUpdates(Initial(ecs), ls, id) == 0
  {
    if ls != [] {
      var k := |ls| - 1;
      var before := Run(Initial(ecs), ls[..k]);
      WroteNothingIff(ecs, ls[..k], id);
      StepWrites(before, ls[k], id);
      StepRolls(before, ls[k], id);
    }
  }

  // ----- Every job ends -----

  /** How many answers job `id` takes along a run. */
  function Answers(s: System, ls: seq<Label>, id: Id): nat {
    if ls == [] then 0
    else
      var k := |ls| - 1;
      var l := ls[k];
      Answers(s, ls[..k], id) + if l.Advance? && l.id == id && Enabled(Run(s, ls[..k]), l) then 1 else 0
  }

  /** Every answer uses up some of the measure; nothing gives any back. */
  lemma {:induction false} AnswersBounded(s: System, ls: seq<Label>, id: Id)
    requires Reachable(s) && id in s.jobs
    ensures id in Run(s, ls).jobs && InRange(s.jobs[id]) && InRange(Run(s, ls).jobs[id])
    ensures Answers(s, ls, id) + Measure(Run(s, ls).jobs[id]) <= Measure(s.jobs[id])
  {
    ReachablePhase(s, id);
    if ls != [] {
      var k := |ls| - 1;
      AnswersBounded(s, ls[..k], id);
      RunReachable(s, ls[..k]);
      StepBounded(Run(s, ls[..k]), ls[k], id);
    }
  }

  lemma StepBounded(s: System, l: Label, id: Id)
    requires Reachable(s) && id in s.jobs
    ensures id in Step(s, l).jobs && InRange(s.jobs[id]) && InRange(Step(s, l).jobs[id])
    ensures var taken := if l.Advance? && l.id == id && Enabled(s, l) then 1 else 0;
      Measure(Step(s, l).jobs[id]) + taken <= Measure(s.jobs[id])
  {
    ReachablePhase(s, id);
    if l.Advance? && l.id == id && Enabled(s, l) {
      ReachableJob(s, id);
      StepsDecrease(s.jobs[id], l.answer, LiveContainers(s, s.jobs[id]), |AfterAnswer(s, id, l.answer).writes|);
    }
  }

  /** From its acceptance a job takes at most 62 answers for each service to build, 2 for each service to
      roll, and 65 more; while it is live it always has an answer to wait for; and unless it panics it
      ends with its loops complete and exactly one attempt to store a receipt. */
  lemma JobsEnd(s: System, ls: seq<Label>, id: Id, c: DeployCall)
    requires Reachable(s) && Accepted(s, id, c)
    ensures var s' := Run(Step(s, Call(id, c)), ls);
      && id in s'.jobs
      && Answers(Step(s, Call(id, c)), ls, id) <= 62 * |c.manifest.services| + 2 * |s'.jobs[id].target.services| + 65
      && (Live(s'.jobs[id]) ==> exists a :: Enabled(s', Advance(id, a)))
      && (s'.jobs[id].phase.Finished? ==> Ended(s'.jobs[id]) && s'.jobs[id].attempts == 1)
  {
    var s0 := Step(s, Call(id, c));
    RunReachable(s, [Call(id, c)]);
    assert Run(s, [Call(id, c)]) == s0;
    M.BuildFromOrders(c.manifest.services, {});
    assert |multiset(s0.jobs[id].target.order)| == |multiset(c.manifest.services)|;
    AnswersBounded(s0, ls, id);
    RunReachable(s0, ls);
    var job := Run(s0, ls).jobs[id];
    TargetKept(s0, ls, id);
    ReachablePhase(Run(s0, ls), id);
    if Live(job) {
      var a := AnAnswer(job);
      assert Enabled(Run(s0, ls), Advance(id, a));
    }
  }

  lemma AnAnswer(job: Job) returns (a: Answer)
    requires Live(job)
    ensures Fits(job.phase, a) && !a.Stored?
  {
    match job.phase
    case StartBuild(_) => a := BuildNotStarted;
    case PollBuild(_, _) => a := BuildStateUnknown;
    case StartRelease => a := ReleaseNotStarted;
    case PollRelease(_) => a := ReleaseRunning;
    case Describe(_) => a := NotDescribed;
    case Update(_, _, _) => a := NotUpdated(false);
    case Emit => a := NotStored;
    case DropGuard => a := GuardDropped;
  }

  lemma {:induction false} TargetKept(s: System, ls: seq<Label>, id: Id)
    requires id in s.jobs
    ensures id in Run(s, ls).jobs && Run(s, ls).jobs[id].target == s.jobs[id].target
  {
    if ls != [] {
      var k := |ls| - 1;
      TargetKept(s, ls[..k], id);
      var before, l := Run(s, ls[..k]), ls[k];
      if l.Advance? && l.id == id && Enabled(before, l) {
        StepFrame(before.jobs[id], l.answer, LiveContainers(before, before.jobs[id]),
                  |AfterAnswer(before, id, l.answer).writes|);
      }
    }
  }
}
