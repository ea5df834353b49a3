/** What the services run after a deploy, and why deploying the same digests again rolls nothing. */
module DeployPinning {
  import opened Results
  import opened ImagePins
  import opened DeployMachine
  import opened DeployJobs
  import opened DeploySafety
  import opened DeployTheorems

  // ----- After a deploy -----

  /** A job whose receipt says all went well settled every service, in order. */
  lemma AllSettled(s: System, id: Id)
    requires Reachable(s) && id in s.jobs && s.jobs[id].attempts == 1 && s.jobs[id].allOk
    ensures var job := s.jobs[id];
      && job.rolling && |job.rolls.settled| == |job.target.services|
      && forall k :: 0 <= k < |job.target.services| ==>
           job.rolls.settled[k].service == job.target.services[k] && OnTarget(job.rolls.settled[k], job.builds.pins)
                                                                  && StillSettled(s, job.rolls.settled[k])
  {
    ReachablePhase(s, id);
    ReachableRolls(s, id);
    ReachableEcs(s);
  }

  lemma ReachableEcs(s: System)
    requires Reachable(s)
    ensures EcsInv(s)
  {
    ReachableInv(s);
  }

  ghost predicate IsBuilt(t: Target, repo: string) {
    exists i: nat :: i < |t.order| && ImageName(t, i) == repo
  }

  lemma {:induction false} LastBuildOf(t: Target, b: Builds, i: nat, k: nat) returns (j: nat)
    requires i < k <= |b.digests| <= |t.order| && (forall d :: d in b.digests ==> d.Some?)
    requires forall m :: k <= m < |b.digests| ==> ImageName(t, m) != ImageName(t, i)
    ensures LastDigest(t, b, j) && ImageName(t, j) == ImageName(t, i)
  {
    if ImageName(t, k - 1) == ImageName(t, i) {
      j := k - 1;
      assert b.digests[j] in b.digests;
    } else {
      j := LastBuildOf(t, b, i, k - 1);
    }
  }

  /** When every build named a digest, the pins are exactly the repositories built. */
  lemma PinsAreBuilds(t: Target, b: Builds, repo: string)
    requires PinsInv(t, b) && |b.digests| == |t.order| && forall d :: d in b.digests ==> d.Some?
    ensures repo in b.pins <==> IsBuilt(t, repo)
  {
    if repo in b.pins {
      var i: nat :| LastDigest(t, b, i) && ImageName(t, i) == repo;
      assert i < |t.order|;
    }
    if IsBuilt(t, repo) {
      var i: nat :| i < |t.order| && ImageName(t, i) == repo;
      var j := LastBuildOf(t, b, i, |t.order|);
    }
  }

  /** Some build of the repository named a digest. */
  ghost predicate HasDigest(t: Target, b: Builds, repo: string) {
    exists i: nat :: LastDigest(t, b, i) && ImageName(t, i) == repo
  }

  function RepoIn(c: Container): Option<string> {
    if c.image.Some? then RepoOf(c.image.value) else None
  }

  /** What a service a deploy has settled runs, until someone else writes it: each container whose repository
      had a digest runs that repository at the last one, every other container runs what it ran, and names
      and copied settings are as before. When every build named a digest, the repositories that had one are
      those that were built. */
  lemma DeployedImages(s: System, id: Id, x: Settled, c: nat)
    requires Reachable(s) && id in s.jobs
    requires x in s.jobs[id].rolls.settled && NoWriteSince(s, x.service, x.at) && c < |x.before|
    ensures x.service in s.ecs && |s.ecs[x.service]| == |x.before|
    ensures var t, b, before, now := s.jobs[id].target, s.jobs[id].builds, x.before[c], s.ecs[x.service][c];
      && now.name == before.name && now.kept == before.kept
      && if RepoIn(before).Some? && HasDigest(t, b, RepoIn(before).value) then
           exists i: nat :: LastDigest(t, b, i) && ImageName(t, i) == RepoIn(before).value
                            && now.image == Some(PinnedRef(t.registry, RepoIn(before).value, b.digests[i].value))
         else now.image == before.image
    ensures var t, b := s.jobs[id].target, s.jobs[id].builds;
      (forall d :: d in b.digests ==> d.Some?) && |b.digests| == |t.order| ==>
        forall repo :: HasDigest(t, b, repo) <==> IsBuilt(t, repo)
  {
    var t, b := s.jobs[id].target, s.jobs[id].builds;
    ReachableRolls(s, id);
    ReachableEcs(s);
    ReachableBuilds(s, id);
    CloneRuns(x.before, b.pins, c);
    assert StillSettled(s, x) && OnTarget(x, b.pins);
    assert Images(x.after)[c] == PinnedImages(x.before, b.pins)[c];
    if (forall d :: d in b.digests ==> d.Some?) && |b.digests| == |t.order| {
      forall repo ensures HasDigest(t, b, repo) <==> IsBuilt(t, repo) {
        PinsAreBuilds(t, b, repo);
        assert HasDigest(t, b, repo) <==> repo in b.pins;
      }
    }
  }

  // ----- The same digests again -----

  /** Every one of the services already runs what these pins would have it run. */
  ghost predicate ServicesOnTarget(s: System, services: seq<string>, pins: Pins) {
    forall svc :: svc in services ==> svc in s.ecs && PinnedImages(s.ecs[svc], pins) == Images(s.ecs[svc])
  }

  lemma DeployLeavesOnTarget(s: System, id: Id)
    requires Reachable(s) && id in s.jobs && s.jobs[id].attempts == 1 && s.jobs[id].allOk
    requires SelfNaming(s.jobs[id].builds.pins)
    requires forall x :: x in s.jobs[id].rolls.settled ==> NoWriteSince(s, x.service, x.at)
    ensures ServicesOnTarget(s, s.jobs[id].target.services, s.jobs[id].builds.pins)
  {
    AllSettled(s, id);
    var job := s.jobs[id];
    var pins := job.builds.pins;
    forall svc | svc in job.target.services
      ensures svc in s.ecs && PinnedImages(s.ecs[svc], pins) == Images(s.ecs[svc])
    {
      var k :| 0 <= k < |job.target.services| && job.target.services[k] == svc;
      var x := job.rolls.settled[k];
      assert x in job.rolls.settled;
      assert s.ecs[svc] == x.after && OnTarget(x, pins);
      PinTwice(x.before, pins);
    }
  }

  /** Between the two deploys and during the second, only the second writes the services. */
  ghost predicate OnlyWriter(from: nat, s: System, services: seq<string>, id: Id) {
    forall k :: from <= k < |s.writes| && s.writes[k].service in services ==> s.writes[k].author == Some(id)
  }

  /** Job `id`, if it has begun, has rolled nothing and is not about to; or it pins something else. */
  ghost predicate RollsNothing(s: System, services: seq<string>, pins: Pins, id: Id) {
    || (id in s.jobs && s.jobs[id].rolling && s.jobs[id].builds.pins != pins)
    || (&& ServicesOnTarget(s, services, pins)
        && (id in s.jobs ==> s.jobs[id].rolls.rolled == [] && !s.jobs[id].phase.Update?))
  }

  /** A described service that is on target is up to date. */
  lemma DescribeOnTarget(job: Job, a: Answer, live: Option<seq<Container>>, writes: nat)
    requires job.phase.Describe? && Fits(job.phase, a) && InRange(job)
    requires live.Some? ==> PinnedImages(live.value, job.builds.pins) == Images(live.value)
    ensures JobStep(job, a, live, writes).rolls.rolled == job.rolls.rolled
    ensures !JobStep(job, a, live, writes).phase.Update?
  {
  }

  lemma OthersDoNotUpdate(job: Job, a: Answer, live: Option<seq<Container>>, writes: nat)
    requires !job.phase.Describe? && !job.phase.Update? && Fits(job.phase, a) && InRange(job)
    ensures !JobStep(job, a, live, writes).phase.Update?
  {
  }

  lemma OwnAnswerRollsNothing(s: System, services: seq<string>, pins: Pins, id: Id, a: Answer)
    requires ServicesOnTarget(s, services, pins) && Enabled(s, Advance(id, a)) && PhaseInv(s.jobs[id])
    requires forall svc :: svc in s.jobs[id].target.services ==> svc in services
    requires s.jobs[id].rolling ==> s.jobs[id].builds.pins == pins
    requires s.jobs[id].rolls.rolled == [] && !s.jobs[id].phase.Update?
    ensures var s' := AfterAnswer(s, id, a);
      s'.ecs == s.ecs && s'.jobs[id].rolls.rolled == [] && !s'.jobs[id].phase.Update?
  {
    var job, writes := s.jobs[id], |AfterAnswer(s, id, a).writes|;
    if job.phase.Describe? {
      assert job.target.services[job.phase.j] in services;
      DescribeOnTarget(job, a, LiveContainers(s, job), writes);
    } else {
      OthersSettleNothing(job, a, LiveContainers(s, job), writes);
      OthersDoNotUpdate(job, a, LiveContainers(s, job), writes);
    }
  }

  /** Once rolling, a job's builds are fixed. */
  lemma RollingBuildsFixed(job: Job, a: Answer, live: Option<seq<Container>>, writes: nat)
    requires job.rolling && PhaseInv(job) && Fits(job.phase, a) && InRange(job)
    ensures JobStep(job, a, live, writes).rolling && JobStep(job, a, live, writes).builds == job.builds
  {
  }

  lemma RollingPinsFixed(s: System, l: Label, id: Id)
    requires id in s.jobs && s.jobs[id].rolling && PhaseInv(s.jobs[id])
    ensures id in Step(s, l).jobs && Step(s, l).jobs[id].rolling
    ensures Step(s, l).jobs[id].builds.pins == s.jobs[id].builds.pins
  {
    if l.Advance? && l.id == id && Enabled(s, l) {
      RollingBuildsFixed(s.jobs[id], l.answer, LiveContainers(s, s.jobs[id]), |Step(s, l).writes|);
    }
  }

  lemma WritesGrow(s: System, l: Label)
    ensures s.writes <= Step(s, l).writes
    ensures Step(s, l).ecs == s.ecs || (|Step(s, l).writes| == |s.writes| + 1
              && var svc := Step(s, l).writes[|s.writes|].service;
                 svc in Step(s, l).ecs && Step(s, l).ecs == s.ecs[svc := Step(s, l).ecs[svc]])
  {
  }

  /** A step by anyone else that leaves these services alone leaves them on target. */
  lemma OthersLeaveOnTarget(s: System, l: Label, services: seq<string>, pins: Pins, id: Id)
    requires ServicesOnTarget(s, services, pins) && OnlyWriter(|s.writes|, Step(s, l), services, id)
    requires !(l.Advance? && l.id == id)
    ensures ServicesOnTarget(Step(s, l), services, pins)
  {
    WritesGrow(s, l);
    if Step(s, l).ecs != s.ecs {
      var w := Step(s, l).writes[|s.writes|];
      assert w.author != Some(id);
    }
  }

  lemma StepRollsNothing(s: System, l: Label, services: seq<string>, pins: Pins, id: Id)
    requires Reachable(s) && RollsNothing(s, services, pins, id)
    requires id in s.jobs ==> forall svc :: svc in s.jobs[id].target.services ==> svc in services
    requires OnlyWriter(|s.writes|, Step(s, l), services, id)
    ensures RollsNothing(Step(s, l), services, pins, id)
  {
    if id in s.jobs {
      ReachablePhase(s, id);
      if s.jobs[id].rolling {
        RollingPinsFixed(s, l, id);
      }
    }
    if id in s.jobs && s.jobs[id].rolling && s.jobs[id].builds.pins != pins {
    } else if l.Advance? && l.id == id {
      if Enabled(s, l) {
        OwnAnswerRollsNothing(s, services, pins, id, l.answer);
      }
    } else {
      OthersLeaveOnTarget(s, l, services, pins, id);
    }
  }

  lemma {:induction false} RunRollsNothing(s: System, ls: seq<Label>, services: seq<string>, pins: Pins, id: Id)
    requires Reachable(s) && id !in s.jobs && ServicesOnTarget(s, services, pins)
    requires OnlyWriter(|s.writes|, Run(s, ls), services, id)
    requires id in Run(s, ls).jobs ==> forall svc :: svc in Run(s, ls).jobs[id].target.services ==> svc in services
    ensures RollsNothing(Run(s, ls), services, pins, id) && s.writes <= Run(s, ls).writes
  {
    if ls != [] {
      var k := |ls| - 1;
      var before := Run(s, ls[..k]);
      WritesGrow(before, ls[k]);
      if id in before.jobs {
        TargetKept(before, [ls[k]], id);
        assert Run(before, [ls[k]]) == Step(before, ls[k]) by { assert [ls[k]][..0] == []; }
      }
      RunRollsNothing(s, ls[..k], services, pins, id);
      RunReachable(s, ls[..k]);
      StepRollsNothing(before, ls[k], services, pins, id);
    }
  }

  lemma SamePinsRollNothing(s: System, ls: seq<Label>, first: Id, second: Id)
    requires Reachable(s) && first in s.jobs && s.jobs[first].attempts == 1 && s.jobs[first].allOk
    requires SelfNaming(s.jobs[first].builds.pins)
    requires forall x :: x in s.jobs[first].rolls.settled ==> NoWriteSince(s, x.service, x.at)
    requires second !in s.jobs && second in Run(s, ls).jobs
    requires OnlyWriter(|s.writes|, Run(s, ls), s.jobs[first].target.services, second)
    requires Run(s, ls).jobs[second].target.services == s.jobs[first].target.services
    requires Run(s, ls).jobs[second].rolling && Run(s, ls).jobs[second].builds.pins == s.jobs[first].builds.pins
    ensures Run(s, ls).jobs[second].rolls.rolled == []
    ensures Run(s, ls).jobs[second].attempts == 1 && Run(s, ls).jobs[second].allOk ==>
              JobOutcome(Run(s, ls).jobs[second]) == NoChanges
  {
    DeployLeavesOnTarget(s, first);
    RunRollsNothing(s, ls, s.jobs[first].target.services, s.jobs[first].builds.pins, second);
    RunReachable(s, ls);
    var s' := Run(s, ls);
    ReachableJob(s', second);
    if s'.jobs[second].attempts == 1 {
      OutcomeOf(s'.jobs[second]);
    }
  }

  /** The same order, names and registry, and the same digests. */
  ghost predicate SameBuilds(t: Target, b: Builds, t': Target, b': Builds) {
    t.order == t'.order && t.manifest.name == t'.manifest.name && t.registry == t'.registry && b.digests == b'.digests
  }

  lemma SameLastDigest(t: Target, b: Builds, t': Target, b': Builds, i: nat)
    requires SameBuilds(t, b, t', b') && LastDigest(t, b, i)
    ensures LastDigest(t', b', i) && ImageName(t', i) == ImageName(t, i)
  {
    forall k | i < k < |b'.digests| && b'.digests[k].Some? ensures ImageName(t', k) != ImageName(t', i) {
      assert ImageName(t, k) == ImageName(t', k);
    }
  }

  ghost predicate Submap(a: Pins, b: Pins) {
    forall repo :: repo in a ==> repo in b && b[repo] == a[repo]
  }

  lemma SubmapsEqual(a: Pins, b: Pins)
    requires Submap(a, b) && Submap(b, a)
    ensures a == b
  {
  }

  lemma PinsWithin(t: Target, b: Builds, t': Target, b': Builds)
    requires SameBuilds(t, b, t', b') && PinsInv(t, b) && PinsInv(t', b')
    ensures Submap(b.pins, b'.pins)
  {
    forall repo | repo in b.pins ensures repo in b'.pins && b'.pins[repo] == b.pins[repo] {
      var i: nat :| LastDigest(t, b, i) && ImageName(t, i) == repo;
      SameLastDigest(t, b, t', b', i);
    }
  }

  /** The pins of a job are determined by its build order, the names, the registry and the digests. */
  lemma DigestsDeterminePins(t: Target, b: Builds, t': Target, b': Builds)
    requires SameBuilds(t, b, t', b') && PinsInv(t, b) && PinsInv(t', b')
    ensures b.pins == b'.pins
  {
    PinsWithin(t, b, t', b');
    PinsWithin(t', b', t, b);
    SubmapsEqual(b.pins, b'.pins);
  }

  /** A second deploy of the same manifest to the same services that builds the same digests rolls nothing,
      however the rest of the platform interleaves with it, and if all goes well it ends `NoChanges`. */
  lemma SecondDeployIsNoOp(s: System, ls: seq<Label>, first: Id, second: Id)
    requires Reachable(s) && first in s.jobs && s.jobs[first].attempts == 1 && s.jobs[first].allOk
    requires SelfNaming(s.jobs[first].builds.pins)
    requires forall x :: x in s.jobs[first].rolls.settled ==> NoWriteSince(s, x.service, x.at)
    requires second !in s.jobs && second in Run(s, ls).jobs
    requires OnlyWriter(|s.writes|, Run(s, ls), s.jobs[first].target.services, second)
    requires var t, t' := s.jobs[first].target, Run(s, ls).jobs[second].target;
             t'.manifest == t.manifest && t'.registry == t.registry && t'.services == t.services
    requires Run(s, ls).jobs[second].rolling && Run(s, ls).jobs[second].builds.digests == s.jobs[first].builds.digests
    ensures Run(s, ls).jobs[second].rolls.rolled == []
    ensures Run(s, ls).jobs[second].attempts == 1 && Run(s, ls).jobs[second].allOk ==>
              JobOutcome(Run(s, ls).jobs[second]) == NoChanges
  {
    var s' := Run(s, ls);
    RunReachable(s, ls);
    ReachableBuilds(s, first);
    ReachableBuilds(s', second);
    DigestsDeterminePins(s.jobs[first].target, s.jobs[first].builds, s'.jobs[second].target, s'.jobs[second].builds);
    SamePinsRollNothing(s, ls, first, second);
  }

  /** The pins of a job name their own repositories whenever the registry is a bare host and the image
      names are non-empty and free of `@` and `:`. */
  lemma PinsSelfNaming(s: System, id: Id)
    requires Reachable(s) && id in s.jobs && '/' !in s.jobs[id].target.registry
    requires forall i: nat :: i < |s.jobs[id].target.order| ==>
               ImageName(s.jobs[id].target, i) != "" && Clean(ImageName(s.jobs[id].target, i))
    ensures SelfNaming(s.jobs[id].builds.pins)
  {
    ReachableBuilds(s, id);
    var t, b := s.jobs[id].target, s.jobs[id].builds;
    forall repo | repo in b.pins ensures RepoOf(b.pins[repo]) == Some(repo) {
      var i: nat :| LastDigest(t, b, i) && ImageName(t, i) == repo;
      PinnedRefRepo(t.registry, repo, b.digests[i].value);
    }
  }
}
