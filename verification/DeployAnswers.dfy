/** What a deploy job makes of each answer, and what the answers it received say of a run. */
module DeployAnswers {
  import opened Results
  import opened ImagePins
  import opened Receipts
  import opened DeployMachine
  import opened DeployJobs
  import opened DeploySafety
  import opened DeployTheorems
  import M = Manifests

  // ----- Builds -----

  predicate Succeeds(a: Answer) { a.BuildState? && a.done && a.succeeded }

  predicate Fails(a: Answer) { a.BuildState? && a.done && !a.succeeded }

  /** The job stops with this check failed, and only its receipt is left to emit. */
  predicate StoppedAt(job: Job, next: Job, name: string) {
    next == job.(phase := Emit, allOk := false, results := job.results + [(name, false)])
  }

  /** A build counts as done exactly when CodeBuild says so and that it succeeded. */
  lemma BuildRecordedIff(job: Job, a: Answer, live: Option<seq<Container>>, writes: nat)
    requires Fits(job.phase, a) && InRange(job)
    ensures var next := JobStep(job, a, live, writes);
      && (next.builds.digests != job.builds.digests <==> job.phase.PollBuild? && Succeeds(a))
      && (job.phase.PollBuild? && Succeeds(a) ==>
            && next.builds.digests == job.builds.digests + [a.digest]
            && next.results == job.results + [(job.target.order[job.phase.i].name, true)] && next.allOk == job.allOk
            && next.builds.built.Keys == job.builds.built.Keys + {job.target.order[job.phase.i].name})
  {
  }

  /** A build that failed, or is not done by the 60th poll, or did not start, stops the job; one that is not
      done before is polled again. */
  lemma BuildPollMeans(job: Job, a: Answer, live: Option<seq<Container>>, writes: nat)
    requires Fits(job.phase, a) && InRange(job) && (job.phase.StartBuild? || job.phase.PollBuild?)
    ensures var next, name := JobStep(job, a, live, writes), job.target.order[job.phase.i].name;
      && (a.BuildNotStarted? || Fails(a) ==> StoppedAt(job, next, name))
      && (a.BuildStarted? ==> next.phase == PollBuild(job.phase.i, 0) && next.results == job.results)
      && (job.phase.PollBuild? && !Fails(a) && !Succeeds(a) ==>
            if job.phase.polls + 1 < 60 then next == job.(phase := PollBuild(job.phase.i, job.phase.polls + 1))
            else StoppedAt(job, next, name))
  {
  }

  // ----- The release -----

  /** The roll phase is entered after the last build when there is no release, and otherwise only by a release
      that exits 0. Anything else it can come to stops the job; it is waited for for 60 polls. */
  lemma ReleaseMeans(job: Job, a: Answer, live: Option<seq<Container>>, writes: nat)
    requires Fits(job.phase, a) && InRange(job) && (job.phase.StartRelease? || job.phase.PollRelease?) && !job.rolling
    ensures var next := JobStep(job, a, live, writes);
      && (next.rolling <==> a == ReleaseStopped(Some(0)))
      && (next.rolling ==> next.results == job.results + [("release", true)] && next.allOk == job.allOk
                           && next.releaseExit == Some(0))
      && (a.ReleaseNotStarted? ==> StoppedAt(job, next, "release"))
      && (a.ReleaseStopped? && a.exit != Some(0) ==> StoppedAt(job.(releaseExit := a.exit), next, "release"))
      && (a.ReleaseStarted? ==> next == job.(phase := PollRelease(0)))
      && (a.ReleaseRunning? ==>
            if job.phase.polls + 1 < 60 then next == job.(phase := PollRelease(job.phase.polls + 1))
            else StoppedAt(job, next, "release"))
  {
  }

  lemma ReleaseExitIff(job: Job, a: Answer, live: Option<seq<Container>>, writes: nat)
    requires Fits(job.phase, a) && InRange(job)
    ensures var next := JobStep(job, a, live, writes);
      next.releaseExit == if job.phase.PollRelease? && a.ReleaseStopped? then a.exit else job.releaseExit
  {
  }

  // ----- Rolls -----

  /** The service's failure is recorded, and the next one's turn comes. */
  predicate FailedOn(job: Job, next: Job, j: nat)
    requires j < |job.target.services|
  {
    var svc := job.target.services[j];
    next == job.(phase := if j + 1 < |job.target.services| then Describe(j + 1) else Emit,
                 allOk := false, results := job.results + [(svc, false)],
                 rolls := job.rolls.(failed := job.rolls.failed + [svc]))
  }

  /** A service that cannot be described or updated is a recorded failure; one whose images are already the
      pinned ones is up to date; any other is updated to the pinned clone, and rolled once that is answered. */
  lemma RollMeans(job: Job, a: Answer, live: Option<seq<Container>>, writes: nat)
    requires Fits(job.phase, a) && InRange(job) && (job.phase.Describe? || job.phase.Update?)
    ensures var next, j, pins := JobStep(job, a, live, writes), job.phase.j, job.builds.pins;
      var svc := job.target.services[j];
      && (a.NotDescribed? || a.NotUpdated? || (a.Described? && live.None?) ==> FailedOn(job, next, j))
      && (a.Described? && live.Some? && PinnedImages(live.value, pins) == Images(live.value) ==>
            && next.rolls.upToDate == job.rolls.upToDate + [svc] && next.rolls.rolled == job.rolls.rolled
            && next.rolls.failed == job.rolls.failed && next.results == job.results + [(svc, true)]
            && next.allOk == job.allOk && next.phase == if j + 1 < |job.target.services| then Describe(j + 1) else Emit)
      && (a.Described? && live.Some? && PinnedImages(live.value, pins) != Images(live.value) ==>
            next == job.(phase := Update(j, live.value, Clone(live.value, pins))))
      && (a.Updated? ==>
            && next.rolls.rolled == job.rolls.rolled + [svc] && next.rolls.upToDate == job.rolls.upToDate
            && next.rolls.failed == job.rolls.failed && next.results == job.results && next.allOk == job.allOk
            && next.phase == if j + 1 < |job.target.services| then Describe(j + 1) else Emit)
  {
  }

  // ----- Over a run -----

  /** The job took this answer at the k-th step of the run. */
  ghost predicate Received(ecs: map<string, seq<Container>>, ls: seq<Label>, id: Id, k: nat, a: Answer) {
    k < |ls| && ls[k] == Advance(id, a) && Enabled(Run(Initial(ecs), ls[..k]), ls[k])
  }

  /** CodeBuild answered that the build of the i-th service in the order succeeded. */
  ghost predicate BuildSucceeded(ecs: map<string, seq<Container>>, ls: seq<Label>, id: Id, i: nat) {
    exists k: nat, a :: Received(ecs, ls, id, k, a) && Succeeds(a)
                        && |Run(Initial(ecs), ls[..k]).jobs[id].builds.digests| == i
                        && Run(Initial(ecs), ls[..k]).jobs[id].phase.PollBuild?
                        && Run(Initial(ecs), ls[..k]).jobs[id].phase.i == i
  }

  /** The release was answered to have exited 0. */
  ghost predicate ReleaseExitedZero(ecs: map<string, seq<Container>>, ls: seq<Label>, id: Id) {
    exists k: nat :: Received(ecs, ls, id, k, ReleaseStopped(Some(0)))
  }

  lemma ReceivedLonger(ecs: map<string, seq<Container>>, ls: seq<Label>, l: Label, id: Id, k: nat, a: Answer)
    requires Received(ecs, ls, id, k, a)
    ensures Received(ecs, ls + [l], id, k, a) && (ls + [l])[..k] == ls[..k]
  {
    assert (ls + [l])[..k] == ls[..k];
  }

  lemma SucceededLonger(ecs: map<string, seq<Container>>, ls: seq<Label>, l: Label, id: Id, i: nat)
    requires BuildSucceeded(ecs, ls, id, i)
    ensures BuildSucceeded(ecs, ls + [l], id, i)
  {
    var k: nat, a :| Received(ecs, ls, id, k, a) && Succeeds(a)
                     && |Run(Initial(ecs), ls[..k]).jobs[id].builds.digests| == i
                     && Run(Initial(ecs), ls[..k]).jobs[id].phase.PollBuild?
                     && Run(Initial(ecs), ls[..k]).jobs[id].phase.i == i;
    ReceivedLonger(ecs, ls, l, id, k, a);
  }

  lemma ExitedLonger(ecs: map<string, seq<Container>>, ls: seq<Label>, l: Label, id: Id)
    requires ReleaseExitedZero(ecs, ls, id)
    ensures ReleaseExitedZero(ecs, ls + [l], id)
  {
    var k: nat :| Received(ecs, ls, id, k, ReleaseStopped(Some(0)));
    ReceivedLonger(ecs, ls, l, id, k, ReleaseStopped(Some(0)));
  }

  lemma LastReceived(ecs: map<string, seq<Container>>, ls: seq<Label>, id: Id, a: Answer)
    requires Enabled(Run(Initial(ecs), ls), Advance(id, a))
    ensures Received(ecs, ls + [Advance(id, a)], id, |ls|, a) && (ls + [Advance(id, a)])[..|ls|] == ls
  {
    assert (ls + [Advance(id, a)])[..|ls|] == ls;
  }

  /** How many builds the job has recorded, none before it exists. */
  function BuildsBy(s: System, id: Id): nat {
    if id in s.jobs then |s.jobs[id].builds.digests| else 0
  }

  function ExitOf(s: System, id: Id): Option<int> {
    if id in s.jobs then s.jobs[id].releaseExit else None
  }

  /** Only its own answers move what a job has built and how its release exited. */
  lemma StepBuilds(s: System, l: Label, id: Id)
    ensures var own := l.Advance? && l.id == id && Enabled(s, l);
      var built := own && s.jobs[id].phase.PollBuild? && Succeeds(l.answer);
      && (BuildsBy(Step(s, l), id) == BuildsBy(s, id) + if built then 1 else 0)
      && (ExitOf(Step(s, l), id) ==
            if own && s.jobs[id].phase.PollRelease? && l.answer.ReleaseStopped? then l.answer.exit else ExitOf(s, id))
  {
    if l.Advance? && l.id == id && Enabled(s, l) {
      var job, writes := s.jobs[id], |AfterAnswer(s, id, l.answer).writes|;
      BuildRecordedIff(job, l.answer, LiveContainers(s, job), writes);
      ReleaseExitIff(job, l.answer, LiveContainers(s, job), writes);
    }
  }

  lemma PollsInOrder(s: System, id: Id)
    requires Reachable(s) && id in s.jobs && s.jobs[id].phase.PollBuild?
    ensures |s.jobs[id].builds.digests| == s.jobs[id].phase.i
  {
    ReachablePhase(s, id);
  }

  /** Every build recorded was answered to have succeeded, and an exit 0 recorded was answered. */
  lemma {:induction false} RecordsWereAnswered(ecs: map<string, seq<Container>>, ls: seq<Label>, id: Id)
    ensures forall i: nat :: i < BuildsBy(Run(Initial(ecs), ls), id) ==> BuildSucceeded(ecs, ls, id, i)
    ensures ExitOf(Run(Initial(ecs), ls), id) == Some(0) ==> ReleaseExitedZero(ecs, ls, id)
  {
    if ls != [] {
      var init, l := ls[..|ls| - 1], ls[|ls| - 1];
      var before := Run(Initial(ecs), init);
      assert ls == init + [l];
      RecordsWereAnswered(ecs, init, id);
      StepBuilds(before, l, id);
      forall i: nat | i < BuildsBy(Run(Initial(ecs), ls), id) ensures BuildSucceeded(ecs, ls, id, i) {
        if i < BuildsBy(before, id) {
          SucceededLonger(ecs, init, l, id, i);
        } else {
          PollsInOrder(before, id);
          LastReceived(ecs, init, id, l.answer);
        }
      }
      if ExitOf(Run(Initial(ecs), ls), id) == Some(0) {
        if ExitOf(before, id) == Some(0) {
          ExitedLonger(ecs, init, l, id);
        } else {
          LastReceived(ecs, init, id, l.answer);
        }
      }
    }
  }

  lemma WriterRolls(s: System, id: Id)
    requires Reachable(s) && Wrote(s, id)
    ensures id in s.jobs && s.jobs[id].rolling
  {
    ReachableWrites(s);
    var k :| 0 <= k < |s.writes| && s.writes[k].author == Some(id);
    assert s.writes[k] in s.writes;
  }

  lemma ReachableWrites(s: System)
    requires Reachable(s)
    ensures WritesInv(s)
  {
    ReachableInv(s);
  }

  /** In every run, a job that changed any service was answered a success by CodeBuild for each service of its
      build order, and an exit 0 for its release if it has one. */
  lemma WritesNeedSuccess(ecs: map<string, seq<Container>>, ls: seq<Label>, id: Id)
    requires Wrote(Run(Initial(ecs), ls), id)
    ensures id in Run(Initial(ecs), ls).jobs
    ensures var t := Run(Initial(ecs), ls).jobs[id].target;
      && (forall i: nat :: i < |t.order| ==> BuildSucceeded(ecs, ls, id, i))
      && (t.manifest.release.Some? ==> ReleaseExitedZero(ecs, ls, id))
  {
    var s := Run(Initial(ecs), ls);
    WriterRolls(s, id);
    ReachableBuilds(s, id);
    RecordsWereAnswered(ecs, ls, id);
  }

  // ----- What a call starts -----

  /** The answer to a call, in the order of its checks; a dry run makes the same checks. */
  lemma RespondIff(s: System, id: Id, c: DeployCall)
    ensures var r, ordered := Respond(s, id, c), M.Parses(c.manifest) && M.BuildOrder(c.manifest.services).Some?;
      var found := ordered && c.builderConfigured && c.row.Some?;
      && (r == BadManifest <==> !ordered)
      && (r == NoBuilder <==> ordered && !c.builderConfigured)
      && (r == NoApp <==> ordered && c.builderConfigured && c.row.None?)
      && (r.Plan? <==> found && c.dryRun)
      && (r.AlreadyDeploying? <==> found && !c.dryRun && c.row.value.0 in s.inFlight)
      && (id !in s.jobs ==> (r.Deploying? <==> Accepted(s, id, c)))
      && (r.Deploying? ==> r == Deploying(id, |c.manifest.services|))
  {
  }

  /** A dry run starts nothing, and errs exactly as the deploy itself would. */
  lemma DryRunTouchesNothing(s: System, id: Id, c: DeployCall)
    ensures c.dryRun ==> Step(s, Call(id, c)) == s
    ensures var dry, actual := Respond(s, id, c.(dryRun := true)), Respond(s, id, c.(dryRun := false));
      if dry.Plan? then actual.Deploying? || actual.AlreadyDeploying? else actual == dry
  {
  }

  /** The app's deployment named in the environment: the services it lists, or one of that name. */
  predicate ServicesOf(c: DeployCall, services: seq<string>)
    requires c.row.Some?
  {
    if c.row.value.1 != [] then services == c.row.value.1
    else if c.env.Some? && c.env.value != "" then services == [c.manifest.name + "-" + c.env.value]
    else services == [c.manifest.name]
  }

  /** What a dry run announces is what the job started by the same call is to do: the same builds in the same
      order, the same services, those of the environment asked for. */
  lemma PlanIsJob(s: System, id: Id, c: DeployCall)
    requires Accepted(s, id, c)
    ensures var plan, job := Respond(s, id, c.(dryRun := true)), Step(s, Call(id, c)).jobs[id];
      && plan.Plan? && plan.release == c.manifest.release == job.target.manifest.release
      && job.target.services == plan.wouldRoll && ServicesOf(c, plan.wouldRoll)
      && plan.wouldBuild == M.NameSeq(job.target.order)
      && job.target.tenant == c.tenant && job.target.actor == c.actor && job.target.registry == c.registry
      && job.target.manifest == c.manifest && job.target.deployment == c.row.value.0
  {
  }
}
