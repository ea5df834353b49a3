/** The manifest deploy protocol (`tool_deploy`, `run_deploy_to_receipt`, `tool_deploy_status` in
    `src/mcp/mod.rs`) as a transition system.

    Many callers ask for deploys; each accepted call becomes a background job. A job advances one await
    at a time, on answers from CodeBuild, ECS and the database that the model leaves arbitrary, so a list
    of labels is one interleaving of all callers, all jobs and anyone else who changes a service. */
module DeployMachine {
  import opened Results
  import opened ImagePins
  import opened Receipts
  import M = Manifests

  type Id = nat

  const MAX_POLLS := 60

  // ----- Calls and their answers -----

  /** One `deploy` call. `row` is what the lookup of the app found: its id and the `ecs_services` its
      metadata lists. */
  datatype DeployCall = DeployCall(
    tenant: Id, actor: string, manifest: M.Manifest, env: Option<string>, builderConfigured: bool,
    row: Option<(Id, seq<string>)>, dryRun: bool, registry: string)

  datatype Response =
    | BadManifest
    | NoBuilder
    | NoApp
    | Plan(wouldBuild: seq<string>, wouldRoll: seq<string>, release: Option<string>)
    | AlreadyDeploying(deployId: Id)
    | Deploying(deployId: Id, servicesToBuild: nat)

  function AppName(m: M.Manifest, env: Option<string>): string {
    if env.Some? && env.value != "" then m.name + "-" + env.value else m.name
  }

  /** The services to roll: those listed, or one named after the app. Never none. */
  function EcsServices(listed: seq<string>, appName: string): (r: seq<string>)
    ensures r != []
  {
    if listed != [] then listed else [appName]
  }

  predicate MayStart(alreadyInFlight: bool) { !alreadyInFlight }

  // ----- Jobs -----

  datatype Phase =
    | StartBuild(i: nat)
    | PollBuild(i: nat, polls: nat)
    | StartRelease
    | PollRelease(polls: nat)
    | Describe(j: nat)
    | Update(j: nat, described: seq<Container>, planned: seq<Container>)
    | Emit
    | DropGuard
    | Finished
    | Panicked

  datatype BuildRequest = BuildRequest(
    service: string, dockerfile: string, imageName: string, tag: string, baseImage: Option<string>)

  /** A service found on, or moved to, its target: what it ran when described, what it runs now, and how
      many writes any service had seen by then. */
  datatype Settled = Settled(service: string, before: seq<Container>, after: seq<Container>, at: nat)

  /** What a job is started with, and the build order it computes first. */
  datatype Target = Target(
    tenant: Id, actor: string, deployment: Id, manifest: M.Manifest, services: seq<string>, registry: string,
    order: M.Services)

  /** The build loop's locals, and a history: the requests started and the digests returned. */
  datatype Builds = Builds(
    built: map<string, string>, pins: Pins, started: seq<BuildRequest>, digests: seq<Option<string>>)

  /** The roll loop's locals, and a history: the services that failed and the others as settled. */
  datatype Rolls = Rolls(rolled: seq<string>, upToDate: seq<string>, failed: seq<string>, settled: seq<Settled>)

  /** A background job. `releaseExit`, `rolling` (the roll phase was entered) and `attempts` (at storing
      the receipt) are history. */
  datatype Job = Job(
    target: Target, phase: Phase, builds: Builds, rolls: Rolls, results: seq<(string, bool)>, allOk: bool,
    releaseExit: Option<int>, rolling: bool, attempts: nat)

  predicate Live(job: Job) {
    !job.phase.Finished? && !job.phase.Panicked?
  }

  function NewJob(c: DeployCall, order: M.Services): Job
    requires c.row.Some?
  {
    var services := EcsServices(c.row.value.1, AppName(c.manifest, c.env));
    Job(Target(c.tenant, c.actor, c.row.value.0, c.manifest, services, c.registry, order),
        StartBuild(0), Builds(map[], map[], [], []), Rolls([], [], [], []), [], true, None, false, 0)
  }

  function ImageName(t: Target, i: nat): string
    requires i < |t.order|
  {
    t.order[i].ImageName(t.manifest.name)
  }

  function Tagged(t: Target, i: nat): string
    requires i < |t.order|
  {
    TaggedRef(t.registry, ImageName(t, i), t.order[i].Tag())
  }

  // ----- Answers a job waits for -----

  datatype Answer =
    | BuildStarted
    | BuildNotStarted
    | BuildState(done: bool, succeeded: bool, digest: Option<string>)
    | BuildStateUnknown
    | ReleaseStarted
    | ReleaseNotStarted
    | ReleaseRunning
    | ReleaseStopped(exit: Option<int>)
    | Described
    | NotDescribed
    | Updated
    | NotUpdated(appliedAnyway: bool)
    | Stored
    | NotStored
    | GuardDropped

  predicate Fits(p: Phase, a: Answer) {
    match p
    case StartBuild(_) => a.BuildStarted? || a.BuildNotStarted?
    case PollBuild(_, _) => a.BuildState? || a.BuildStateUnknown?
    case StartRelease => a.ReleaseStarted? || a.ReleaseNotStarted?
    case PollRelease(_) => a.ReleaseRunning? || a.ReleaseStopped?
    case Describe(_) => a.Described? || a.NotDescribed?
    case Update(_, _, _) => a.Updated? || a.NotUpdated?
    case Emit => a.Stored? || a.NotStored?
    case DropGuard => a.GuardDropped?
    case Finished => false
    case Panicked => false
  }

  // ----- The release gate and the outcome -----

  datatype ReleaseDecision = Proceed | Abort

  function ReleaseGate(exit: Option<int>): ReleaseDecision {
    if exit == Some(0) then Proceed else Abort
  }

  datatype DeployOutcome = Rolled | NoChanges | Failed

  function Outcome(allOk: bool, rolled: nat, upToDate: nat): DeployOutcome {
    if !allOk then DeployOutcome.Failed else if rolled == 0 && upToDate > 0 then NoChanges else Rolled
  }

  function JobOutcome(job: Job): DeployOutcome {
    Outcome(job.allOk, |job.rolls.rolled|, |job.rolls.upToDate|)
  }

  // ----- One answer -----

  function Fail(job: Job, name: string, next: Phase): Job {
    job.(allOk := false, results := job.results + [(name, false)], phase := next)
  }

  function Pass(job: Job, name: string, next: Phase): Job {
    job.(results := job.results + [(name, true)], phase := next)
  }

  /** The roll phase, from service j on. */
  function RollFrom(t: Target, j: nat): Phase {
    if j < |t.services| then Describe(j) else Emit
  }

  function EnterRoll(job: Job): Job {
    job.(rolling := true, phase := RollFrom(job.target, 0))
  }

  function Request(t: Target, b: Builds, i: nat): BuildRequest
    requires i < |t.order|
  {
    var s := t.order[i];
    BuildRequest(s.name, s.dockerfile, ImageName(t, i), s.Tag(),
                 if s.base.Some? && s.base.value in b.built then Some(b.built[s.base.value]) else None)
  }

  /** A build reached SUCCEEDED: record its image and, if CodeBuild named a digest, its pin. */
  function Record(t: Target, b: Builds, i: nat, digest: Option<string>): Builds
    requires i < |t.order|
  {
    var image := ImageName(t, i);
    b.(built := b.built[t.order[i].name := Tagged(t, i)],
       pins := if digest.Some? then b.pins[image := PinnedRef(t.registry, image, digest.value)] else b.pins,
       digests := b.digests + [digest])
  }

  function BuildDone(job: Job, i: nat, digest: Option<string>): Job
    requires i < |job.target.order|
  {
    var next := Pass(job.(builds := Record(job.target, job.builds, i, digest)), job.target.order[i].name, job.phase);
    if i + 1 < |job.target.order| then next.(phase := StartBuild(i + 1))
    else if job.target.manifest.release.Some? then next.(phase := StartRelease)
    else EnterRoll(next)
  }

  function OnBuildPoll(job: Job, i: nat, polls: nat, a: Answer): Job
    requires i < |job.target.order|
  {
    if a.BuildState? && a.done then
      if a.succeeded then BuildDone(job, i, a.digest) else Fail(job, job.target.order[i].name, Emit)
    else if polls + 1 < MAX_POLLS then job.(phase := PollBuild(i, polls + 1))
    else Fail(job, job.target.order[i].name, Emit)
  }

  function OnReleasePoll(job: Job, polls: nat, a: Answer): Job {
    if a.ReleaseStopped? then
      var noted := job.(releaseExit := a.exit);
      if ReleaseGate(a.exit) == Proceed then EnterRoll(Pass(noted, "release", Emit)) else Fail(noted, "release", Emit)
    else if polls + 1 < MAX_POLLS then job.(phase := PollRelease(polls + 1))
    else Fail(job, "release", Emit)
  }

  /** The service is left as it is, and the loop goes on with the next one. */
  function RollFailed(job: Job, j: nat): Job
    requires j < |job.target.services|
  {
    var svc := job.target.services[j];
    Fail(job.(rolls := job.rolls.(failed := job.rolls.failed + [svc])), svc, RollFrom(job.target, j + 1))
  }

  function OnDescribed(job: Job, j: nat, live: Option<seq<Container>>, writes: nat): Job
    requires j < |job.target.services|
  {
    if live.None? then RollFailed(job, j)
    else
      var svc := job.target.services[j];
      var planned := Clone(live.value, job.builds.pins);
      if Images(planned) == Images(live.value) then
        Pass(job.(rolls := job.rolls.(
                    upToDate := job.rolls.upToDate + [svc],
                    settled := job.rolls.settled + [Settled(svc, live.value, live.value, writes)])),
             svc, RollFrom(job.target, j + 1))
      else job.(phase := Update(j, live.value, planned))
  }

  function OnUpdated(job: Job, j: nat, described: seq<Container>, planned: seq<Container>, writes: nat): Job
    requires j < |job.target.services|
  {
    var svc := job.target.services[j];
    job.(rolls := job.rolls.(
           rolled := job.rolls.rolled + [svc],
           settled := job.rolls.settled + [Settled(svc, described, planned, writes)]),
         phase := RollFrom(job.target, j + 1))
  }

  predicate InRange(job: Job) {
    match job.phase
    case StartBuild(i) => i < |job.target.order|
    case PollBuild(i, _) => i < |job.target.order|
    case Describe(j) => j < |job.target.services|
    case Update(j, _, _) => j < |job.target.services|
    case _ => true
  }

  /** `live` is what the described service runs now, if it exists; `writes` how many writes there will
      have been once this answer takes effect. */
  function JobStep(job: Job, a: Answer, live: Option<seq<Container>>, writes: nat): Job
    requires Fits(job.phase, a) && InRange(job)
  {
    match job.phase
    case StartBuild(i) =>
      if a.BuildStarted? then
        job.(phase := PollBuild(i, 0),
             builds := job.builds.(started := job.builds.started + [Request(job.target, job.builds, i)]))
      else Fail(job, job.target.order[i].name, Emit)
    case PollBuild(i, polls) => OnBuildPoll(job, i, polls, a)
    case StartRelease => if a.ReleaseStarted? then job.(phase := PollRelease(0)) else Fail(job, "release", Emit)
    case PollRelease(polls) => OnReleasePoll(job, polls, a)
    case Describe(j) => if a.Described? then OnDescribed(job, j, live, writes) else RollFailed(job, j)
    case Update(j, d, p) => if a.Updated? then OnUpdated(job, j, d, p, writes) else RollFailed(job, j)
    case Emit => job.(phase := DropGuard, attempts := job.attempts + 1)
    case DropGuard => job.(phase := Finished)
  }

  // ----- The whole system -----

  datatype Write = Write(service: string, author: Option<Id>)

  datatype StoredReceipt = StoredReceipt(deployId: Id, receipt: OperationReceipt, outcome: DeployOutcome,
                                         rolled: seq<string>, upToDate: seq<string>)

  /** `inFlight` is the map the jobs share, `ecs` what each service's task definition runs, `receipts` the
      stored receipts in the order of storing. `jobs` and `writes` record all jobs and all writes so far. */
  datatype System = System(
    inFlight: map<Id, Id>,
    jobs: map<Id, Job>,
    ecs: map<string, seq<Container>>,
    writes: seq<Write>,
    receipts: seq<StoredReceipt>)

  datatype Label =
    | Call(id: Id, call: DeployCall)
    | Advance(id: Id, answer: Answer)
    | Panic(id: Id)
    | Outside(service: string, containers: seq<Container>)

  function Initial(ecs: map<string, seq<Container>>): System {
    System(map[], map[], ecs, [], [])
  }

  /** The id a call would get is a fresh UUID. */
  predicate Accepted(s: System, id: Id, c: DeployCall) {
    && M.Parses(c.manifest)
    && M.BuildOrder(c.manifest.services).Some?
    && c.builderConfigured
    && c.row.Some?
    && !c.dryRun
    && MayStart(c.row.value.0 in s.inFlight)
    && id !in s.jobs
  }

  function Respond(s: System, id: Id, c: DeployCall): Response {
    if !M.Parses(c.manifest) then BadManifest else
    var order := M.BuildOrder(c.manifest.services);
    if order.None? then BadManifest
    else if !c.builderConfigured then NoBuilder
    else if c.row.None? then NoApp
    else
      var (deployment, listed) := c.row.value;
      if c.dryRun then
        Plan(M.NameSeq(order.value), EcsServices(listed, AppName(c.manifest, c.env)), c.manifest.release)
      else if !MayStart(deployment in s.inFlight) then AlreadyDeploying(s.inFlight[deployment])
      else Deploying(id, |c.manifest.services|)
  }

  predicate Enabled(s: System, l: Label) {
    match l
    case Call(id, c) => Accepted(s, id, c)
    case Advance(id, a) => id in s.jobs && InRange(s.jobs[id]) && Fits(s.jobs[id].phase, a)
                           && (a.Stored? ==> Storable(s.jobs[id]))
    case Panic(id) => id in s.jobs && Live(s.jobs[id])
    case Outside(_, _) => true
  }

  /** Whether the job's receipt passes the shape test: see `ReceiptShape`. */
  predicate Storable(job: Job) {
    !M.IsBlank(job.target.actor)
  }

  function SummaryOf(job: Job): string {
    match JobOutcome(job)
    case Rolled => "deployed " + job.target.manifest.name
    case NoChanges => job.target.manifest.name + " already up-to-date"
    case Failed => "deploy of " + job.target.manifest.name + " FAILED — services not rolled"
  }

  function DeployReceipt(id: Id, job: Job): OperationReceipt {
    var intent := Intent("deploy '" + job.target.manifest.name + "'", false, "deploy");
    var r := NewReceipt("deploy", job.target.tenant, job.target.actor, intent)
             .Guardrail("manifest_driven").Guardrail("build_graph_ordered").Guardrail("rolling_health_checked")
             .Guardrail("digest_pinned_deploy").Guardrail("release_gated");
    WithResults(r, job.results).Summary(SummaryOf(job))
  }

  /** The receipt has the shape that storing requires exactly when the caller's subject is not blank. */
  lemma ReceiptShape(id: Id, job: Job)
    ensures DeployReceipt(id, job).WellShaped() <==> Storable(job)
  {
    var summary, name := SummaryOf(job), job.target.manifest.name;
    var intent := Intent("deploy '" + name + "'", false, "deploy");
    var r := NewReceipt("deploy", job.target.tenant, job.target.actor, intent)
             .Guardrail("manifest_driven").Guardrail("build_graph_ordered").Guardrail("rolling_health_checked")
             .Guardrail("digest_pinned_deploy").Guardrail("release_gated");
    WithResultsAppends(r, job.results);
    assert !M.IsSpace("deploy"[0]) && !M.IsSpace(intent.summary[0]);
    assert (name + " already up-to-date")[|name| + 1] == 'a';
    assert !M.IsSpace(summary[if JobOutcome(job).NoChanges? then |name| + 1 else 0]);
  }

  function ReceiptOf(id: Id, job: Job): StoredReceipt {
    StoredReceipt(id, DeployReceipt(id, job), JobOutcome(job), job.rolls.rolled, job.rolls.upToDate)
  }

  /** What an update that took effect writes; nothing for any other answer. */
  function WrittenBy(job: Job, a: Answer): Option<(string, seq<Container>)>
    requires InRange(job)
  {
    if job.phase.Update? && (a.Updated? || (a.NotUpdated? && a.appliedAnyway))
    then Some((job.target.services[job.phase.j], job.phase.planned)) else None
  }

  function LiveContainers(s: System, job: Job): Option<seq<Container>>
    requires InRange(job)
  {
    if job.phase.Describe? && job.target.services[job.phase.j] in s.ecs
    then Some(s.ecs[job.target.services[job.phase.j]]) else None
  }

  function AfterAnswer(s: System, id: Id, a: Answer): System
    requires Enabled(s, Advance(id, a))
  {
    var job := s.jobs[id];
    var w := WrittenBy(job, a);
    var writes := if w.Some? then s.writes + [Write(w.value.0, Some(id))] else s.writes;
    System(
      if job.phase.DropGuard? then s.inFlight - {job.target.deployment} else s.inFlight,
      s.jobs[id := JobStep(job, a, LiveContainers(s, job), |writes|)],
      if w.Some? then s.ecs[w.value.0 := w.value.1] else s.ecs,
      writes,
      if a.Stored? then s.receipts + [ReceiptOf(id, job)] else s.receipts)
  }

  /** One label; a label that is not enabled does nothing. */
  function Step(s: System, l: Label): System {
    if !Enabled(s, l) then s else
    match l
    case Call(id, c) =>
      s.(inFlight := s.inFlight[c.row.value.0 := id],
         jobs := s.jobs[id := NewJob(c, M.BuildOrder(c.manifest.services).value)])
    case Advance(id, a) => AfterAnswer(s, id, a)
    case Panic(id) =>
      s.(inFlight := s.inFlight - {s.jobs[id].target.deployment}, jobs := s.jobs[id := s.jobs[id].(phase := Panicked)])
    case Outside(service, containers) =>
      s.(ecs := s.ecs[service := containers], writes := s.writes + [Write(service, None)])
  }

  function Run(s: System, ls: seq<Label>): System {
    if ls == [] then s else Step(Run(s, ls[..|ls| - 1]), ls[|ls| - 1])
  }

  lemma {:induction false} RunAppend(s: System, a: seq<Label>, b: seq<Label>)
    ensures Run(s, a + b) == Run(Run(s, a), b)
  {
    if b == [] {
      assert a + b == a;
    } else {
      var k := |b| - 1;
      RunAppend(s, a, b[..k]);
      assert (a + b)[..|a + b| - 1] == a + b[..k];
    }
  }

  ghost predicate Reachable(s: System) {
    exists ecs, ls :: s == Run(Initial(ecs), ls)
  }

  // ----- deploy_status -----

  datatype Status = InProgress | Succeeded | FailedDeploy

  /** The latest stored receipt for the id, and the tenant asking. */
  function DeployStatus(receipts: seq<StoredReceipt>, tenant: Id, deployId: Id): Status {
    if receipts == [] then InProgress
    else
      var r := receipts[|receipts| - 1];
      if r.deployId == deployId && r.receipt.tenant == tenant then
        if r.receipt.Verified() then Succeeded else FailedDeploy
      else DeployStatus(receipts[..|receipts| - 1], tenant, deployId)
  }
}
