/** `tool_deploy`, `run_deploy_to_receipt` and `tool_deploy_status` as the source writes them: loops that
    update local variables, with the rest of the platform running at every await. Each method is proved to
    take only steps of the transition system, so whatever holds of every run holds of the program. */
module DeployProgram {
  import opened Results
  import opened ImagePins
  import opened Receipts
  import opened DeployMachine
  import opened DeployJobs
  import M = Manifests

  /** Where a job stands before building service i, or once all are built. */
  function AtBuild(t: Target, i: nat, b: Builds, results: seq<(string, bool)>): Job {
    var job := Job(t, StartBuild(i), b, NOTHING, results, true, None, false, 0);
    if i < |t.order| then job
    else if t.manifest.release.Some? then job.(phase := StartRelease)
    else EnterRoll(job)
  }

  /** Where a rolling job stands before service j. */
  function AtRoll(job: Job, j: nat, r: Rolls, results: seq<(string, bool)>, allOk: bool): Job {
    job.(phase := RollFrom(job.target, j), rolls := r, results := results, allOk := allOk)
  }

  predicate Elsewhere(l: Label, me: Id) {
    l.Outside? || l.id != me
  }

  class Platform {
    var inFlight: map<Id, Id>
    var ecs: map<string, seq<Container>>
    var receipts: seq<StoredReceipt>
    /** The spawned tasks: where each stands and its local variables. */
    var jobs: map<Id, Job>
    /** Every change of a service's task definition so far. */
    var writes: seq<Write>

    constructor (services: map<string, seq<Container>>)
      ensures State() == Initial(services)
    {
      inFlight, ecs, receipts, jobs, writes := map[], services, [], map[], [];
    }

    function State(): System
      reads this
    {
      System(inFlight, jobs, ecs, writes, receipts)
    }

    /** Answer a call: check, plan, refuse, or start a job. */
    method ToolDeploy(id: Id, c: DeployCall) returns (r: Response)
      requires id !in jobs
      modifies this
      ensures r == Respond(old(State()), id, c)
      ensures State() == Step(old(State()), Call(id, c))
    {
      var parsed := M.CheckParsed(c.manifest);
      if parsed.Err? { return BadManifest; }
      var order, _ := M.ComputeBuildOrder(c.manifest.services);
      if order.Err? { return BadManifest; }
      var appName := if c.env.Some? && c.env.value != "" then c.manifest.name + "-" + c.env.value else c.manifest.name;
      if !c.builderConfigured { return NoBuilder; }
      if c.row.None? { return NoApp; }
      var (deployment, listed) := c.row.value;
      var services := if listed != [] then listed else [appName];
      if c.dryRun {
        return Plan(M.NameSeq(order.value), services, c.manifest.release);
      }
      if !MayStart(deployment in inFlight) {
        return AlreadyDeploying(inFlight[deployment]);
      }
      inFlight := inFlight[deployment := id];
      jobs := jobs[id := NewJob(c, order.value)];
      return Deploying(id, |c.manifest.services|);
    }

    /** Poll a deploy's outcome: the newest receipt that matches. */
    method ToolDeployStatus(tenant: Id, deployId: Id) returns (status: Status)
      ensures status == DeployStatus(receipts, tenant, deployId)
    {
      var n := |receipts|;
      assert receipts[..n] == receipts;
      while n > 0
        invariant n <= |receipts|
        invariant DeployStatus(receipts, tenant, deployId) == DeployStatus(receipts[..n], tenant, deployId)
      {
        var r := receipts[n - 1];
        assert receipts[..n][..n - 1] == receipts[..n - 1];
        if r.deployId == deployId && r.receipt.tenant == tenant {
          return if r.receipt.Verified() then Succeeded else FailedDeploy;
        }
        n := n - 1;
      }
      return InProgress;
    }

    /** One step of anything else on the platform. */
    method Elsewhere1(l: Label)
      modifies this
      ensures State() == Step(old(State()), l)
    {
      var s := Step(State(), l);
      inFlight, jobs, ecs, writes, receipts := s.inFlight, s.jobs, s.ecs, s.writes, s.receipts;
    }

    /** While task `me` awaits, other callers, other jobs and outsiders do as they please. */
    method Pause(me: Id) returns (ghost others: seq<Label>)
      requires me in jobs
      modifies this
      ensures State() == Run(old(State()), others)
      ensures me in jobs && jobs[me] == old(jobs)[me]
    {
      others := [];
      var steps: int :| steps >= 0;
      for i := 0 to steps
        invariant State() == Run(old(State()), others)
        invariant me in jobs && jobs[me] == old(jobs)[me]
      {
        var l: Label := *;
        if Elsewhere(l, me) {
          Elsewhere1(l);
          assert (others + [l])[..|others|] == others;
          others := others + [l];
        }
      }
    }

    /** Task `me` acts on an answer that changes nothing but its own variables. */
    method Act(me: Id, ghost a: Answer, job: Job)
      requires Enabled(State(), Advance(me, a)) && !a.Stored? && !jobs[me].phase.DropGuard?
      requires WrittenBy(jobs[me], a).None?
      requires job == JobStep(jobs[me], a, LiveContainers(State(), jobs[me]), |writes|)
      modifies this
      ensures State() == Step(old(State()), Advance(me, a))
      ensures jobs == old(jobs)[me := job]
    {
      jobs := jobs[me := job];
    }

    /** Poll a build to a terminal state, at most 60 times. `last` is the answer that ended the polling. */
    method PollToTerminal(me: Id, i: nat)
      returns (succeeded: bool, digest: Option<string>, ghost last: Answer, ghost trace: seq<Label>)
      requires me in jobs && jobs[me].phase == PollBuild(i, 0) && i < |jobs[me].target.order|
      modifies this
      ensures State() == Run(old(State()), trace)
      ensures me in jobs && jobs[me].phase.PollBuild? && jobs[me] == old(jobs)[me].(phase := jobs[me].phase)
      ensures jobs[me].phase.i == i && Fits(jobs[me].phase, last)
      ensures succeeded <==> last.BuildState? && last.done && last.succeeded
      ensures last.BuildState? && last.done ==> digest == last.digest
      ensures !(last.BuildState? && last.done) ==> jobs[me].phase.polls == 59
      ensures OnBuildPoll(jobs[me], i, jobs[me].phase.polls, last) ==
              if succeeded then BuildDone(old(jobs)[me], i, digest)
              else Fail(old(jobs)[me], old(jobs)[me].target.order[i].name, Emit)
    {
      ghost var start, before := State(), jobs[me];
      succeeded, digest, trace := false, None, [];
      var polls := 0;
      while true
        invariant State() == Run(start, trace)
        invariant me in jobs && jobs[me] == before.(phase := PollBuild(i, polls)) && polls < MAX_POLLS
        invariant !succeeded
        decreases MAX_POLLS - polls
      {
        ghost var others := Pause(me);
        RunAppend(start, trace, others);
        trace := trace + others;
        var a: Answer :| a.BuildState? || a.BuildStateUnknown?;
        last := a;
        if a.BuildState? && a.done {
          succeeded, digest := a.succeeded, a.digest;
          return;
        }
        if polls + 1 == MAX_POLLS {
          return;
        }
        polls := polls + 1;
        Act(me, a, jobs[me].(phase := PollBuild(i, polls)));
        RunStep(start, trace, Advance(me, a));
        trace := trace + [Advance(me, a)];
      }
    }

    /** Ask CodeBuild for one image, injecting the image of the base. */
    method AskForBuild(me: Id, i: nat, b: Builds, results: seq<(string, bool)>)
      returns (started: bool, builds: Builds, ghost trace: seq<Label>)
      requires me in jobs && i < |jobs[me].target.order| && jobs[me] == AtBuild(jobs[me].target, i, b, results)
      modifies this
      ensures State() == Run(old(State()), trace) && me in jobs
      ensures var was := old(jobs)[me];
        if started then jobs[me] == was.(phase := PollBuild(i, 0), builds := builds)
        else jobs[me] == Fail(was, was.target.order[i].name, Emit) && builds == b
    {
      ghost var start := State();
      var was := jobs[me];
      var svc, app := was.target.order[i], was.target.manifest.name;
      var baseImage := None;
      if svc.base.Some? {
        if svc.base.value in b.built {
          baseImage := Some(b.built[svc.base.value]);
        }
      }
      var request := BuildRequest(svc.name, svc.dockerfile, svc.ImageName(app), svc.Tag(), baseImage);
      trace := Pause(me);
      var a: Answer :| a.BuildStarted? || a.BuildNotStarted?;
      started := a.BuildStarted?;
      builds := if started then b.(started := b.started + [request]) else b;
      Act(me, a, if started then was.(phase := PollBuild(i, 0), builds := builds)
                 else was.(phase := Emit, allOk := false, results := results + [(svc.name, false)]));
      RunStep(start, trace, Advance(me, a));
      trace := trace + [Advance(me, a)];
    }

    /** Build one service: start, poll, and on success record its image and digest. */
    method BuildService(me: Id, i: nat, b: Builds, results0: seq<(string, bool)>)
      returns (allOk: bool, builds: Builds, results: seq<(string, bool)>, ghost trace: seq<Label>)
      requires me in jobs && i < |jobs[me].target.order| && jobs[me] == AtBuild(jobs[me].target, i, b, results0)
      modifies this
      ensures State() == Run(old(State()), trace)
      ensures me in jobs && (allOk ==> jobs[me] == AtBuild(old(jobs)[me].target, i + 1, builds, results))
      ensures !allOk ==> jobs[me].phase.Emit?
    {
      ghost var start := State();
      var t := jobs[me].target;
      var svc, imageName, tag := t.order[i], t.order[i].ImageName(t.manifest.name), t.order[i].Tag();
      allOk, builds, trace := AskForBuild(me, i, b, results0);
      results := results0;
      if !allOk {
        results := results + [(svc.name, false)];
        return;
      }
      var polled := jobs[me];
      var succeeded, digest;
      ghost var last, polling;
      succeeded, digest, last, polling := PollToTerminal(me, i);
      RunAppend(start, trace, polling);
      trace := trace + polling;
      if !succeeded {
        allOk, results := false, results + [(svc.name, false)];
        Act(me, last, Fail(polled, svc.name, Emit));
      } else {
        builds := builds.(built := builds.built[svc.name := t.registry + "/" + imageName + ":" + tag],
                          digests := builds.digests + [digest]);
        if digest.Some? {
          builds := builds.(pins := builds.pins[imageName := t.registry + "/" + imageName + "@" + digest.value]);
        }
        results := results + [(svc.name, true)];
        Act(me, last, AtBuild(t, i + 1, builds, results));
      }
      RunStep(start, trace, Advance(me, last));
      trace := trace + [Advance(me, last)];
    }

    /** Build every service in dependency order, stopping at the first failure. */
    method BuildAll(me: Id)
      returns (allOk: bool, builds: Builds, results: seq<(string, bool)>, ghost trace: seq<Label>)
      requires me in jobs && jobs[me] == AtBuild(jobs[me].target, 0, Builds(map[], map[], [], []), [])
      modifies this
      ensures State() == Run(old(State()), trace)
      ensures me in jobs
      ensures var t := old(jobs)[me].target; allOk ==> jobs[me] == AtBuild(t, |t.order|, builds, results)
      ensures !allOk ==> jobs[me].phase.Emit?
    {
      ghost var start := State();
      var t := jobs[me].target;
      allOk, builds, results, trace := true, Builds(map[], map[], [], []), [], [];
      for i := 0 to |t.order|
        invariant State() == Run(start, trace)
        invariant allOk && me in jobs && jobs[me] == AtBuild(t, i, builds, results)
      {
        ghost var building;
        allOk, builds, results, building := BuildService(me, i, builds, results);
        RunAppend(start, trace, building);
        trace := trace + building;
        if !allOk {
          return;
        }
      }
    }

    /** Wait for the release to stop, at most 60 polls. */
    method PollRelease(me: Id) returns (passed: bool, ghost trace: seq<Label>)
      requires me in jobs && jobs[me].phase == DeployMachine.PollRelease(0) && jobs[me].allOk
      modifies this
      ensures State() == Run(old(State()), trace)
      ensures me in jobs
      ensures var was, now := old(jobs)[me], jobs[me];
        if passed then now == EnterRoll(Pass(was.(releaseExit := Some(0)), "release", Emit))
        else now == Fail(was.(releaseExit := now.releaseExit), "release", Emit)
      ensures trace != []
      ensures passed <==> trace[|trace| - 1] == Advance(me, ReleaseStopped(Some(0)))
    {
      ghost var start := State();
      var was := jobs[me];
      var failed := was.(phase := Emit, allOk := false, results := was.results + [("release", false)]);
      var polls := 0;
      trace := [];
      while true
        invariant State() == Run(start, trace)
        invariant me in jobs && jobs[me] == was.(phase := DeployMachine.PollRelease(polls)) && polls < MAX_POLLS
        decreases MAX_POLLS - polls
      {
        ghost var others := Pause(me);
        RunAppend(start, trace, others);
        trace := trace + others;
        var a: Answer :| a.ReleaseRunning? || a.ReleaseStopped?;
        var done := a.ReleaseStopped? || polls + 1 == MAX_POLLS;
        passed := a.ReleaseStopped? && ReleaseGate(a.exit) == Proceed;
        if passed {
          Act(me, a, was.(releaseExit := a.exit, results := was.results + [("release", true)],
                          rolling := true, phase := RollFrom(was.target, 0)));
        } else if a.ReleaseStopped? {
          Act(me, a, failed.(releaseExit := a.exit));
        } else if done {
          Act(me, a, failed);
        } else {
          polls := polls + 1;
          Act(me, a, was.(phase := DeployMachine.PollRelease(polls)));
        }
        RunStep(start, trace, Advance(me, a));
        trace := trace + [Advance(me, a)];
        if done {
          return;
        }
      }
    }

    /** Start the release command. */
    method StartReleaseTask(me: Id) returns (started: bool, ghost trace: seq<Label>)
      requires me in jobs && jobs[me].phase.StartRelease? && jobs[me].allOk
      modifies this
      ensures State() == Run(old(State()), trace)
      ensures me in jobs
      ensures jobs[me] == if started then old(jobs)[me].(phase := DeployMachine.PollRelease(0))
                          else Fail(old(jobs)[me], "release", Emit)
      ensures !started ==> trace != [] && trace[|trace| - 1] == Advance(me, ReleaseNotStarted)
    {
      ghost var start := State();
      var was := jobs[me];
      trace := Pause(me);
      var a: Answer :| a.ReleaseStarted? || a.ReleaseNotStarted?;
      started := a.ReleaseStarted?;
      Act(me, a, if started then was.(phase := DeployMachine.PollRelease(0))
                 else was.(phase := Emit, allOk := false, results := was.results + [("release", false)]));
      RunStep(start, trace, Advance(me, a));
      trace := trace + [Advance(me, a)];
    }

    /** Run the release command once and wait for it, at most 60 polls. */
    method ReleasePhase(me: Id) returns (passed: bool, ghost trace: seq<Label>)
      requires me in jobs && jobs[me].phase.StartRelease? && jobs[me].allOk
      modifies this
      ensures State() == Run(old(State()), trace)
      ensures me in jobs
      ensures var was, now := old(jobs)[me], jobs[me];
        if passed then now == EnterRoll(Pass(was.(releaseExit := Some(0)), "release", Emit))
        else now == Fail(was.(releaseExit := now.releaseExit), "release", Emit)
      ensures trace != []
      ensures passed <==> trace[|trace| - 1] == Advance(me, ReleaseStopped(Some(0)))
    {
      ghost var start := State();
      passed, trace := StartReleaseTask(me);
      if passed {
        ghost var polling;
        passed, polling := PollRelease(me);
        RunAppend(start, trace, polling);
        trace := trace + polling;
      }
    }

    /** Roll one service by digest: describe it, pin its images, and move it if that changes any. A
        failure is recorded and the loop goes on. */
    method RollService(me: Id, j: nat, r: Rolls, results0: seq<(string, bool)>, allOk0: bool)
      returns (rolls: Rolls, results: seq<(string, bool)>, allOk: bool, ghost trace: seq<Label>)
      requires me in jobs && j < |jobs[me].target.services| && jobs[me] == AtRoll(jobs[me], j, r, results0, allOk0)
      modifies this
      ensures State() == Run(old(State()), trace)
      ensures me in jobs && jobs[me] == AtRoll(old(jobs)[me], j + 1, rolls, results, allOk)
    {
      ghost var start := State();
      var was := jobs[me];
      var svc := was.target.services[j];
      rolls, results, allOk := r, results0, allOk0;
      trace := Pause(me);
      var a: Answer :| a.Described? || a.NotDescribed?;
      if a.NotDescribed? || svc !in ecs {
        allOk, results, rolls := false, results + [(svc, false)], rolls.(failed := rolls.failed + [svc]);
        Act(me, a, AtRoll(was, j + 1, rolls, results, allOk));
        RunStep(start, trace, Advance(me, a));
        trace := trace + [Advance(me, a)];
        return;
      }
      var described := ecs[svc];
      var containers := CloneContainersWithImagePins(described, was.builds.pins);
      if Images(described) == Images(containers) {
        rolls := rolls.(upToDate := rolls.upToDate + [svc],
                        settled := rolls.settled + [Settled(svc, described, described, |writes|)]);
        results := results + [(svc, true)];
        Act(me, a, AtRoll(was, j + 1, rolls, results, allOk));
        RunStep(start, trace, Advance(me, a));
        trace := trace + [Advance(me, a)];
        return;
      }
      Act(me, a, was.(phase := Update(j, described, containers)));
      RunStep(start, trace, Advance(me, a));
      trace := trace + [Advance(me, a)];
      ghost var updating;
      rolls, results, allOk, updating := UpdateService(me, j, described, containers);
      RunAppend(start, trace, updating);
      trace := trace + updating;
    }

    /** Register the pinned task definition and point the service at it. */
    method UpdateService(me: Id, j: nat, described: seq<Container>, containers: seq<Container>)
      returns (rolls: Rolls, results: seq<(string, bool)>, allOk: bool, ghost trace: seq<Label>)
      requires me in jobs && j < |jobs[me].target.services| && jobs[me].phase == Update(j, described, containers)
      modifies this
      ensures State() == Run(old(State()), trace)
      ensures me in jobs && jobs[me] == AtRoll(old(jobs)[me], j + 1, rolls, results, allOk)
    {
      ghost var start := State();
      var was := jobs[me];
      var svc := was.target.services[j];
      rolls, results, allOk := was.rolls, was.results, was.allOk;
      trace := Pause(me);
      var u: Answer :| u.Updated? || u.NotUpdated?;
      if u.Updated? || u.appliedAnyway {
        ecs, writes := ecs[svc := containers], writes + [Write(svc, Some(me))];
      }
      if u.Updated? {
        rolls := rolls.(rolled := rolls.rolled + [svc],
                        settled := rolls.settled + [Settled(svc, described, containers, |writes|)]);
      } else {
        allOk, results, rolls := false, results + [(svc, false)], rolls.(failed := rolls.failed + [svc]);
      }
      jobs := jobs[me := AtRoll(was, j + 1, rolls, results, allOk)];
      RunStep(start, trace, Advance(me, u));
      trace := trace + [Advance(me, u)];
    }

    method RollAll(me: Id) returns (ghost trace: seq<Label>)
      requires me in jobs && jobs[me].phase == RollFrom(jobs[me].target, 0)
      modifies this
      ensures State() == Run(old(State()), trace)
      ensures me in jobs && jobs[me].phase.Emit?
    {
      ghost var start := State();
      var was := jobs[me];
      var rolls, results, allOk := was.rolls, was.results, was.allOk;
      trace := [];
      for j := 0 to |was.target.services|
        invariant State() == Run(start, trace)
        invariant me in jobs && jobs[me] == AtRoll(was, j, rolls, results, allOk)
      {
        ghost var rolling;
        rolls, results, allOk, rolling := RollService(me, j, rolls, results, allOk);
        RunAppend(start, trace, rolling);
        trace := trace + rolling;
      }
    }

    /** The row is stored. */
    method StoreReceipt(me: Id, stored: StoredReceipt)
      requires Enabled(State(), Advance(me, Stored)) && stored == ReceiptOf(me, jobs[me])
      modifies this
      ensures State() == AfterAnswer(old(State()), me, Stored)
    {
      receipts := receipts + [stored];
      jobs := jobs[me := jobs[me].(phase := DropGuard, attempts := jobs[me].attempts + 1)];
    }

    /** Build the receipt from the recorded results and try to store it, once. */
    method EmitReceipt(me: Id) returns (ghost trace: seq<Label>)
      requires me in jobs && jobs[me].phase.Emit?
      modifies this
      ensures State() == Run(old(State()), trace)
      ensures me in jobs && jobs[me].phase.DropGuard?
    {
      ghost var start := State();
      trace := Pause(me);
      var stored := MakeReceipt(me, jobs[me]);
      var storable: bool := *;
      ghost var a := NotStored;
      ReceiptShape(me, jobs[me]);
      if storable && stored.receipt.WellShaped() {
        a := Stored;
        StoreReceipt(me, stored);
      } else {
        Act(me, NotStored, jobs[me].(phase := DropGuard, attempts := jobs[me].attempts + 1));
      }
      RunStep(start, trace, Advance(me, a));
      trace := trace + [Advance(me, a)];
    }

    /** The guard leaves the in-flight map as the function returns. */
    method DropInFlightGuard(me: Id) returns (ghost trace: seq<Label>)
      requires me in jobs && jobs[me].phase.DropGuard?
      modifies this
      ensures State() == Run(old(State()), trace)
      ensures me in jobs && jobs[me].phase.Finished?
    {
      ghost var start := State();
      trace := Pause(me);
      inFlight := inFlight - {jobs[me].target.deployment};
      jobs := jobs[me := jobs[me].(phase := Finished)];
      RunStep(start, trace, Advance(me, GuardDropped));
      trace := trace + [Advance(me, GuardDropped)];
    }

    /** The whole background job, from the spawn to the guard's drop. Whatever CodeBuild, ECS and the
        database answer and whatever else happens meanwhile, it is a run of the transition system, it
        terminates, and its job finishes. */
    method RunDeployToReceipt(me: Id) returns (ghost trace: seq<Label>)
      requires me in jobs && TargetInv(jobs[me].target)
      requires jobs[me] == AtBuild(jobs[me].target, 0, Builds(map[], map[], [], []), [])
      modifies this
      ensures State() == Run(old(State()), trace)
      ensures me in jobs && jobs[me].phase.Finished?
    {
      ghost var start := State();
      trace := [];
      var t := jobs[me].target;
      var order, _ := M.ComputeBuildOrder(t.manifest.services);
      // The call checked the manifest already: this early return cannot fire.
      if order.Err? {
        assert false;
      }
      var allOk, builds, results;
      allOk, builds, results, trace := BuildAll(me);
      if allOk && t.manifest.release.Some? {
        ghost var releasing;
        allOk, releasing := ReleasePhase(me);
        RunAppend(start, trace, releasing);
        trace := trace + releasing;
      }
      if allOk {
        ghost var rolling := RollAll(me);
        RunAppend(start, trace, rolling);
        trace := trace + rolling;
      }
      ghost var emitting := EmitReceipt(me);
      RunAppend(start, trace, emitting);
      trace := trace + emitting;
      ghost var dropping := DropInFlightGuard(me);
      RunAppend(start, trace, dropping);
      trace := trace + dropping;
    }
  }

  /** The receipt, one check for each recorded result. */
  method MakeReceipt(id: Id, job: Job) returns (stored: StoredReceipt)
    ensures stored == ReceiptOf(id, job)
    ensures stored.receipt == DeployReceipt(id, job)
  {
    var intent := Intent("deploy '" + job.target.manifest.name + "'", false, "deploy");
    var blank := NewReceipt("deploy", job.target.tenant, job.target.actor, intent)
                 .Guardrail("manifest_driven").Guardrail("build_graph_ordered").Guardrail("rolling_health_checked")
                 .Guardrail("digest_pinned_deploy").Guardrail("release_gated");
    var receipt := blank;
    for k := 0 to |job.results|
      invariant WithResults(receipt, job.results[k..]) == WithResults(blank, job.results)
    {
      var (name, ok) := job.results[k];
      assert job.results[k..][1..] == job.results[k + 1..];
      receipt := receipt.WithCheck(name, if ok then Passed else CheckStatus.Failed);
    }
    receipt := receipt.Summary(SummaryOf(job));
    stored := StoredReceipt(id, receipt, JobOutcome(job), job.rolls.rolled, job.rolls.upToDate);
  }

  lemma RunStep(s: System, ls: seq<Label>, l: Label)
    ensures Run(s, ls + [l]) == Step(Run(s, ls), l)
  {
    assert (ls + [l])[..|ls|] == ls;
  }
}
