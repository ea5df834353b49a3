/** What holds in every interleaving of deploy calls, job steps, panics and outside changes. */
module DeploySafety {
  import opened Results
  import opened ImagePins
  import opened DeployMachine
  import opened DeployJobs

  ghost predicate JobsInv(s: System) {
    forall id :: id in s.jobs ==> JobInv(s.jobs[id])
  }

  /** The in-flight map holds exactly the deployments that have a live job, each with that job's id. */
  ghost predicate FlightInv(s: System) {
    && (forall d :: d in s.inFlight ==> s.inFlight[d] in s.jobs && Live(s.jobs[s.inFlight[d]])
                                        && s.jobs[s.inFlight[d]].target.deployment == d)
    && (forall id :: id in s.jobs && Live(s.jobs[id]) ==> s.jobs[id].target.deployment in s.inFlight
                                                          && s.inFlight[s.jobs[id].target.deployment] == id)
  }

  /** At most one receipt per job, stored by its one attempt and never outdated since. */
  ghost predicate ReceiptsInv(s: System) {
    && (forall i :: 0 <= i < |s.receipts| ==>
         var id := s.receipts[i].deployId;
         id in s.jobs && s.jobs[id].attempts == 1 && s.receipts[i] == ReceiptOf(id, s.jobs[id]))
    && (forall i, j :: 0 <= i < j < |s.receipts| ==> s.receipts[i].deployId != s.receipts[j].deployId)
  }

  /** A job writes only while rolling, and only its own services. */
  ghost predicate WritesInv(s: System) {
    forall w :: w in s.writes && w.author.Some? ==>
      w.author.value in s.jobs && s.jobs[w.author.value].rolling && w.service in s.jobs[w.author.value].target.services
  }

  ghost predicate NoWriteSince(s: System, service: string, at: nat) {
    forall k :: at <= k < |s.writes| ==> s.writes[k].service != service
  }

  /** A settled service still runs what it was settled on, unless someone has written it since. */
  ghost predicate StillSettled(s: System, x: Settled) {
    x.at <= |s.writes| && (NoWriteSince(s, x.service, x.at) ==> x.service in s.ecs && s.ecs[x.service] == x.after)
  }

  ghost predicate EcsInv(s: System) {
    forall id, x :: id in s.jobs && x in s.jobs[id].rolls.settled ==> StillSettled(s, x)
  }

  ghost predicate Inv(s: System) {
    JobsInv(s) && FlightInv(s) && ReceiptsInv(s) && WritesInv(s) && EcsInv(s)
  }

  // ----- Calls, panics and outside changes -----

  lemma CallKeepsFlight(s: System, id: Id, c: DeployCall)
    requires FlightInv(s) && Accepted(s, id, c)
    ensures FlightInv(Step(s, Call(id, c)))
  {
  }

  lemma CallKeepsRest(s: System, id: Id, c: DeployCall)
    requires ReceiptsInv(s) && WritesInv(s) && EcsInv(s) && Accepted(s, id, c)
    ensures var s' := Step(s, Call(id, c)); ReceiptsInv(s') && WritesInv(s') && EcsInv(s')
  {
    var s' := Step(s, Call(id, c));
    assert s'.jobs[id].rolls.settled == [];
    forall o, x | o in s'.jobs && x in s'.jobs[o].rolls.settled ensures StillSettled(s', x) {
      assert StillSettled(s, x);
    }
  }

  lemma CallKeeps(s: System, id: Id, c: DeployCall)
    requires Inv(s)
    ensures Inv(Step(s, Call(id, c)))
  {
    if Accepted(s, id, c) {
      NewJobInv(c);
      CallKeepsFlight(s, id, c);
      CallKeepsRest(s, id, c);
    }
  }

  lemma PanicKeepsFlight(s: System, id: Id)
    requires FlightInv(s) && Enabled(s, Panic(id))
    ensures FlightInv(Step(s, Panic(id)))
  {
  }

  lemma SameReceipt(id: Id, job: Job, phase: Phase, attempts: nat)
    ensures ReceiptOf(id, job.(phase := phase, attempts := attempts)) == ReceiptOf(id, job)
  {
  }

  lemma PanicKeepsRest(s: System, id: Id)
    requires ReceiptsInv(s) && WritesInv(s) && EcsInv(s) && Enabled(s, Panic(id))
    ensures var s' := Step(s, Panic(id)); ReceiptsInv(s') && WritesInv(s') && EcsInv(s')
  {
    var s' := Step(s, Panic(id));
    SameReceipt(id, s.jobs[id], Panicked, s.jobs[id].attempts);
    forall o, x | o in s'.jobs && x in s'.jobs[o].rolls.settled ensures StillSettled(s', x) {
      assert x in s.jobs[o].rolls.settled && StillSettled(s, x);
    }
  }

  lemma PanicJob(job: Job)
    requires JobInv(job)
    ensures JobInv(job.(phase := Panicked))
  {
  }

  lemma PanicKeepsJobs(s: System, id: Id)
    requires JobsInv(s) && Enabled(s, Panic(id))
    ensures JobsInv(Step(s, Panic(id)))
  {
    PanicJob(s.jobs[id]);
  }

  lemma PanicKeeps(s: System, id: Id)
    requires Inv(s)
    ensures Inv(Step(s, Panic(id)))
  {
    if Enabled(s, Panic(id)) {
      PanicKeepsJobs(s, id);
      PanicKeepsFlight(s, id);
      PanicKeepsRest(s, id);
    }
  }

  /** A write to one service leaves the others settled, and unsettles its own. */
  lemma WriteKeepsSettled(s: System, s': System, x: Settled, w: Write, cs: seq<Container>)
    requires StillSettled(s, x)
    requires s'.writes == s.writes + [w] && s'.ecs == s.ecs[w.service := cs]
    ensures StillSettled(s', x)
  {
    assert s'.writes[|s.writes|] == w;
    if NoWriteSince(s', x.service, x.at) {
      assert x.service != w.service;
      forall k | x.at <= k < |s.writes| ensures s.writes[k].service != x.service {
        assert s'.writes[k] == s.writes[k];
      }
    }
  }

  lemma OutsideKeeps(s: System, service: string, cs: seq<Container>)
    requires Inv(s)
    ensures Inv(Step(s, Outside(service, cs)))
  {
    var s' := Step(s, Outside(service, cs));
    forall id, x | id in s'.jobs && x in s'.jobs[id].rolls.settled ensures StillSettled(s', x) {
      WriteKeepsSettled(s, s', x, Write(service, None), cs);
    }
  }

  // ----- Answers -----

  /** What no answer changes: the target, that the roll phase was entered, and, but for the guard's drop, that
      the job lives. */
  predicate Framed(job: Job, next: Job) {
    next.target == job.target && (job.rolling ==> next.rolling) && (Live(next) <==> !job.phase.DropGuard?)
  }

  lemma BuildFrame(job: Job, a: Answer, live: Option<seq<Container>>, writes: nat)
    requires Fits(job.phase, a) && InRange(job) && (job.phase.StartBuild? || job.phase.PollBuild?)
    ensures Framed(job, JobStep(job, a, live, writes))
  {
  }

  lemma ReleaseFrame(job: Job, a: Answer, live: Option<seq<Container>>, writes: nat)
    requires Fits(job.phase, a) && InRange(job) && (job.phase.StartRelease? || job.phase.PollRelease?)
    ensures Framed(job, JobStep(job, a, live, writes))
  {
  }

  lemma RollFrame(job: Job, a: Answer, live: Option<seq<Container>>, writes: nat)
    requires Fits(job.phase, a) && InRange(job) && (job.phase.Describe? || job.phase.Update?)
    ensures Framed(job, JobStep(job, a, live, writes))
  {
  }

  lemma StepFrame(job: Job, a: Answer, live: Option<seq<Container>>, writes: nat)
    requires Fits(job.phase, a) && InRange(job)
    ensures Framed(job, JobStep(job, a, live, writes))
  {
    if job.phase.StartBuild? || job.phase.PollBuild? {
      BuildFrame(job, a, live, writes);
    } else if job.phase.StartRelease? || job.phase.PollRelease? {
      ReleaseFrame(job, a, live, writes);
    } else if job.phase.Describe? || job.phase.Update? {
      RollFrame(job, a, live, writes);
    }
  }

  lemma AnswerKeepsFlight(s: System, id: Id, a: Answer)
    requires FlightInv(s) && Enabled(s, Advance(id, a))
    ensures FlightInv(AfterAnswer(s, id, a))
  {
    var job, s' := s.jobs[id], AfterAnswer(s, id, a);
    StepFrame(job, a, LiveContainers(s, job), |s'.writes|);
    assert s'.jobs[id] == JobStep(job, a, LiveContainers(s, job), |s'.writes|);
    assert Live(job);
  }

  lemma StepAttempts(job: Job, a: Answer, live: Option<seq<Container>>, writes: nat)
    requires PhaseInv(job) && Fits(job.phase, a) && InRange(job)
    ensures job.attempts == 1 ==> JobStep(job, a, live, writes) == job.(phase := Finished)
    ensures a.Stored? ==> job.attempts == 0 && JobStep(job, a, live, writes) == job.(phase := DropGuard, attempts := 1)
  {
  }

  lemma StoringKeepsReceipts(s: System, id: Id)
    requires ReceiptsInv(s) && Enabled(s, Advance(id, Stored)) && PhaseInv(s.jobs[id])
    ensures ReceiptsInv(AfterAnswer(s, id, Stored))
  {
    var job, s' := s.jobs[id], AfterAnswer(s, id, Stored);
    SameReceipt(id, job, DropGuard, 1);
    StepAttempts(job, Stored, LiveContainers(s, job), |s'.writes|);
  }

  /** The receipts of a job that changes without storing one are still those of its one attempt. */
  lemma OtherReceiptsKept(s: System, id: Id, a: Answer)
    requires ReceiptsInv(s) && Enabled(s, Advance(id, a)) && PhaseInv(s.jobs[id]) && !a.Stored?
    ensures ReceiptsInv(AfterAnswer(s, id, a))
  {
    var job, s' := s.jobs[id], AfterAnswer(s, id, a);
    SameReceipt(id, job, Finished, job.attempts);
    StepAttempts(job, a, LiveContainers(s, job), |s'.writes|);
    assert s'.jobs == s.jobs[id := s'.jobs[id]] && s'.receipts == s.receipts;
  }

  lemma AnswerKeepsReceipts(s: System, id: Id, a: Answer)
    requires ReceiptsInv(s) && Enabled(s, Advance(id, a)) && PhaseInv(s.jobs[id])
    ensures ReceiptsInv(AfterAnswer(s, id, a))
  {
    if a.Stored? {
      StoringKeepsReceipts(s, id);
    } else {
      OtherReceiptsKept(s, id, a);
    }
  }

  lemma AnswerKeepsWrites(s: System, id: Id, a: Answer)
    requires WritesInv(s) && Enabled(s, Advance(id, a)) && PhaseInv(s.jobs[id])
    ensures WritesInv(AfterAnswer(s, id, a))
  {
    var job, s' := s.jobs[id], AfterAnswer(s, id, a);
    StepFrame(job, a, LiveContainers(s, job), |s'.writes|);
    assert s'.jobs[id] == JobStep(job, a, LiveContainers(s, job), |s'.writes|);
  }

  /** Whatever the answer did to ECS, services settled before stay settled or were written since. */
  lemma AnswerKeepsOldSettled(s: System, id: Id, a: Answer, x: Settled)
    requires Enabled(s, Advance(id, a)) && StillSettled(s, x)
    ensures StillSettled(AfterAnswer(s, id, a), x)
  {
    var s' := AfterAnswer(s, id, a);
    var w := WrittenBy(s.jobs[id], a);
    if w.Some? {
      WriteKeepsSettled(s, s', x, Write(w.value.0, Some(id)), w.value.1);
    } else if NoWriteSince(s', x.service, x.at) {
      assert NoWriteSince(s, x.service, x.at);
    }
  }

  /** Only describing and updating settle anything, and only the service they are about. */
  lemma OthersSettleNothing(job: Job, a: Answer, live: Option<seq<Container>>, writes: nat)
    requires Fits(job.phase, a) && InRange(job) && !job.phase.Describe? && !job.phase.Update?
    ensures JobStep(job, a, live, writes).rolls == job.rolls
  {
  }

  lemma NewlySettled(job: Job, a: Answer, live: Option<seq<Container>>, writes: nat, x: Settled)
    requires Fits(job.phase, a) && InRange(job) && (job.phase.Describe? || job.phase.Update?)
    requires x in JobStep(job, a, live, writes).rolls.settled && x !in job.rolls.settled
    ensures x.service == job.target.services[job.phase.j] && x.at == writes
    ensures job.phase.Describe? ==> live == Some(x.after)
    ensures job.phase.Update? ==> a.Updated? && x.after == job.phase.planned
  {
  }

  lemma AnswerSettles(s: System, id: Id, a: Answer, x: Settled)
    requires Enabled(s, Advance(id, a))
    requires x in AfterAnswer(s, id, a).jobs[id].rolls.settled && x !in s.jobs[id].rolls.settled
    ensures StillSettled(AfterAnswer(s, id, a), x)
  {
    var job, s' := s.jobs[id], AfterAnswer(s, id, a);
    if job.phase.Describe? || job.phase.Update? {
      NewlySettled(job, a, LiveContainers(s, job), |s'.writes|, x);
    } else {
      OthersSettleNothing(job, a, LiveContainers(s, job), |s'.writes|);
    }
  }

  lemma AnswerKeepsEcs(s: System, id: Id, a: Answer)
    requires Inv(s) && Enabled(s, Advance(id, a))
    ensures EcsInv(AfterAnswer(s, id, a))
  {
    var s' := AfterAnswer(s, id, a);
    forall o, x | o in s'.jobs && x in s'.jobs[o].rolls.settled ensures StillSettled(s', x) {
      if o == id && x !in s.jobs[id].rolls.settled {
        AnswerSettles(s, id, a, x);
      } else {
        assert x in s.jobs[o].rolls.settled;
        AnswerKeepsOldSettled(s, id, a, x);
      }
    }
  }

  lemma StepKeeps(s: System, l: Label)
    requires Inv(s)
    ensures Inv(Step(s, l))
  {
    match l
    case Call(id, c) => CallKeeps(s, id, c);
    case Panic(id) => PanicKeeps(s, id);
    case Outside(service, cs) => OutsideKeeps(s, service, cs);
    case Advance(id, a) =>
      if Enabled(s, l) {
        var job := s.jobs[id];
        var s' := AfterAnswer(s, id, a);
        JobStepKeeps(job, a, LiveContainers(s, job), |s'.writes|);
        AnswerKeepsFlight(s, id, a);
        AnswerKeepsReceipts(s, id, a);
        AnswerKeepsWrites(s, id, a);
        AnswerKeepsEcs(s, id, a);
      }
  }

  lemma {:induction false} RunKeeps(s: System, ls: seq<Label>)
    requires Inv(s)
    ensures Inv(Run(s, ls))
  {
    if ls != [] {
      RunKeeps(s, ls[..|ls| - 1]);
      StepKeeps(Run(s, ls[..|ls| - 1]), ls[|ls| - 1]);
    }
  }

  /** The invariant holds in every reachable state. */
  lemma ReachableInv(s: System)
    requires Reachable(s)
    ensures Inv(s)
  {
    var ecs, ls :| s == Run(Initial(ecs), ls);
    RunKeeps(Initial(ecs), ls);
  }

  lemma RunReachable(s: System, ls: seq<Label>)
    requires Reachable(s)
    ensures Reachable(Run(s, ls))
  {
    var ecs, before :| s == Run(Initial(ecs), before);
    RunAppend(Initial(ecs), before, ls);
  }

  lemma ReachableJob(s: System, id: Id)
    requires Reachable(s) && id in s.jobs
    ensures JobInv(s.jobs[id])
  {
    ReachableInv(s);
  }

  lemma ReachablePhase(s: System, id: Id)
    requires Reachable(s) && id in s.jobs
    ensures PhaseInv(s.jobs[id]) && InRange(s.jobs[id])
  {
    ReachableJob(s, id);
  }

  lemma ReachableFlight(s: System)
    requires Reachable(s)
    ensures FlightInv(s)
  {
    ReachableInv(s);
  }

  lemma ReachableReceipts(s: System)
    requires Reachable(s)
    ensures ReceiptsInv(s)
  {
    ReachableInv(s);
  }
}
