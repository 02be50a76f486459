/** What the API server accepts of a plan: a status is refused once the cluster is not the one that was
    read any more, so a reconcile gets one change of the cluster through at most. It still moves on. */
module Acceptance {
  import opened Seqs
  import opened UpdateGraph
  import opened Cluster
  import Credentials
  import opened Controller
  import opened Runs
  import opened Progress
  import opened Interruption

  /** How many of the writes are accepted. */
  function Granted(w: World, xs: seq<Write>): (n: nat)
    requires w.Valid()
    ensures n <= |xs|
    decreases |xs|
  {
    if xs == [] || !Grants(w, xs[0]) then 0 else 1 + Granted(CarryOut(w, xs[0]), xs[1..])
  }

  /** What they lead to. */
  function Landed(w: World, xs: seq<Write>): (r: World)
    requires w.Valid()
    ensures r.Valid()
  {
    CarryAll(w, xs[..Granted(w, xs)])
  }

  lemma LandedNext(w: World, x: Write, ys: seq<Write>)
    requires w.Valid() && Grants(w, x)
    ensures Landed(w, [x] + ys) == Landed(CarryOut(w, x), ys)
  {
    var xs := [x] + ys;
    assert xs[1..] == ys;
    var n := Granted(CarryOut(w, x), ys);
    assert xs[..n + 1][1..] == ys[..n];
  }

  lemma LandedStops(w: World, xs: seq<Write>)
    requires w.Valid() && (xs == [] || !Grants(w, xs[0]))
    ensures Landed(w, xs) == w
  {
  }

  lemma {:induction false} LandedFree(w: World, xs: seq<Write>)
    requires w.Valid() && forall x :: x in xs ==> !Locked(x)
    ensures Landed(w, xs) == CarryAll(w, xs)
    decreases |xs|
  {
    if xs != [] {
      assert xs == [xs[0]] + xs[1..];
      LandedFree(CarryOut(w, xs[0]), xs[1..]);
      LandedNext(w, xs[0], xs[1..]);
    }
  }

  /** Nothing but the first write is locked. */
  lemma LandedWhole(w: World, x: Write, ys: seq<Write>)
    requires w.Valid() && Grants(w, x) && forall y :: y in ys ==> !Locked(y)
    ensures Landed(w, [x] + ys) == CarryAll(w, [x] + ys)
  {
    LandedNext(w, x, ys);
    LandedFree(CarryOut(w, x), ys);
    assert ([x] + ys)[1..] == ys;
  }

  lemma LandedAimed(aim: Aim, w: World, xs: seq<Write>)
    requires w.Valid() && Always(aim, w, xs)
    ensures aim(Landed(w, xs))
  {
    assert AimedAfter(aim, w, xs, Granted(w, xs));
  }

  /** The reconcile that starts here has read the cluster as it is. */
  predicate Fresh(w: World) {
    w.Valid() && Last(w.clusters) == w.read
  }

  lemma NoLocks(js: seq<Job>, pods: seq<Pod>, names: seq<ObjectName>)
    ensures forall x :: x in DeleteJobs(names) + CleanPods(js, pods).writes ==> !Locked(x)
  {
    OnlyPodsCleaned(js, pods);
  }

  // ---- The effect of the handlers ----

  /** What of a stage one reconcile with up-to-date caches ends by itself; a deployment the API server
      does not accept leaves it where it is. */
  predicate NextStage(before: nat, after: nat, accepted: bool) {
    && after <= before && (before == 6 ==> after == 5)
    && (before == 4 && accepted ==> after <= 3)
    && (before == 2 ==> after == 1) && (before == 1 ==> after == 0)
  }

  ghost predicate Progresses(c: Config, v: View, w: World, w': World)
    requires w.Valid() && w'.Valid()
  {
    && SameTarget(w, w')
    && NextStage(Stage(c, SiteOf(w), v.secretHash), Stage(c, SiteOf(w'), v.secretHash), v.applyAccepted)
  }

  lemma RunEffect(w: World, v: View, c: Config)
    requires Fresh(w) && Healthy(SiteOf(w)) && Current(v, SiteOf(w)) && Stage(c, SiteOf(w), v.secretHash) == 6
    ensures JobFor(v.jobs, c.Digest()).None?
    ensures Progresses(c, v, w, Landed(w, RunMigration(v, c, StatusOf(w)).writes))
  {
    var h, s := c.Digest(), StatusOf(w);
    JobForCurrent(v.jobs, Last(w.jobs), h);
    RunParts(v, c, s);
    NoLocks([], [], ExtraJobs(v.jobs, h));
    LandedWhole(w, PatchStatus(s.Set(Migrating, MigratingCondition(c))),
                 [ApplyJob(h)] + DeleteJobs(ExtraJobs(v.jobs, h)));
    RunSite(w, v, c);
    ExtrasSpareJob(v.jobs, Last(w.jobs), h);
    RunStage(SiteOf(w), c, ExtraJobs(v.jobs, h), v.secretHash);
  }

  /** The deployment is applied, whether or not the statuses around it are accepted. */
  lemma ApplyEffect(w: World, v: View, c: Config)
    requires Fresh(w) && Healthy(SiteOf(w)) && Current(v, SiteOf(w)) && StatusOf(w).target == c.Digest()
    requires !Rendered(c, SiteOf(w), v.secretHash) && v.applyAccepted
    ensures Stage(c, SiteOf(Landed(w, Deploy(v, c, StatusOf(w)).writes)), v.secretHash) <= 3
  {
    var s, spec := StatusOf(w), RenderDeployment(c, v.secretHash);
    DeployApplies(v, c, s, SiteOf(w));
    var m := Migrated(s);
    var tail := PatchIf(ClearsApplyError(m), m.Remove(RolloutError));
    var apply := [ApplyDeployment(spec)] + tail;
    if MigrationPending(s) {
      var w1 := CarryOut(w, PatchStatus(m));
      LandedNext(w, PatchStatus(m), apply);
      AppliedEffect(w1, v, c, tail, m);
    } else {
      assert PatchIf(MigrationPending(s), m) + apply == apply;
      AppliedEffect(w, v, c, tail, m);
    }
  }

  lemma AppliedEffect(w: World, v: View, c: Config, tail: seq<Write>, m: Status)
    requires w.Valid() && Healthy(SiteOf(w)) && !Rendered(c, SiteOf(w), v.secretHash) && StatusOf(w) == m
    requires tail == PatchIf(ClearsApplyError(m), m.Remove(RolloutError))
    ensures var apply := [ApplyDeployment(RenderDeployment(c, v.secretHash))] + tail;
            Stage(c, SiteOf(Landed(w, apply)), v.secretHash) <= 3
  {
    var x := ApplyDeployment(RenderDeployment(c, v.secretHash));
    var w1 := CarryOut(w, x);
    LandedNext(w, x, tail);
    ApplyKeeps(c, v.secretHash, w);
    RenderedIsReady(c, SiteOf(w1), v.secretHash);
    SteadyPatch(c, v.secretHash, w1, ClearsApplyError(m), m.Remove(RolloutError));
    LandedAimed(Keeping(c, v.secretHash, w1), w1, tail);
  }

  /** The rollout is over: its end is recorded, or first that of the migration. */
  lemma RollEffect(w: World, v: View, c: Config)
    requires Fresh(w) && Healthy(SiteOf(w)) && Current(v, SiteOf(w)) && StatusOf(w).target == c.Digest()
    requires Rendered(c, SiteOf(w), v.secretHash) && RolledOut(c, SiteOf(w))
    ensures var after := Stage(c, SiteOf(Landed(w, Deploy(v, c, StatusOf(w)).writes)), v.secretHash);
            after == if MigrationPending(StatusOf(w)) then 1 else 0
  {
    var s, d := StatusOf(w), Last(w.deployments)[OwnDeployment];
    DeployRolls(v, c, s, d);
    RenderedIsReady(c, SiteOf(w), v.secretHash);
    var m := Migrated(s);
    var roll := Roll(v, c, m, d).writes;
    if MigrationPending(s) {
      MigratedIsBehind(c, SiteOf(w), v.secretHash);
      RollStarts(v, c, m, d);
      MigratedEnds(w, m, roll);
    } else {
      assert PatchIf(MigrationPending(s), m) + roll == roll;
      RolledEffect(w, v, c, d);
    }
  }

  lemma RollStarts(v: View, c: Config, s: Status, d: Deployment)
    requires RolloutOver(d, c.replicas) && s.Is(Rolling)
    ensures var roll := Roll(v, c, s, d).writes;
            roll != [] && Locked(roll[0])
  {
  }

  /** The end of the migration is recorded, and the next status is refused. */
  lemma MigratedEnds(w: World, m: Status, roll: seq<Write>)
    requires Fresh(w) && m != StatusOf(w) && roll != [] && Locked(roll[0])
    ensures SiteOf(Landed(w, [PatchStatus(m)] + roll)) == SiteOf(w).(status := m)
  {
    LandedNext(w, PatchStatus(m), roll);
    LandedStops(CarryOut(w, PatchStatus(m)), roll);
  }

  lemma MigratedIsBehind(c: Config, x: Site, secretHash: string)
    requires Healthy(x) && Rendered(c, x, secretHash) && RolledOut(c, x) && x.status.target == c.Digest()
    requires MigrationPending(x.status)
    ensures Migrated(x.status) != x.status && Migrated(x.status).Is(Rolling)
    ensures Stage(c, x.(status := Migrated(x.status)), secretHash) == 1
  {
    RenderedIsReady(c, x, secretHash);
    RenderedIsReady(c, x.(status := Migrated(x.status)), secretHash);
  }

  lemma RolledEffect(w: World, v: View, c: Config, d: Deployment)
    requires Fresh(w) && Healthy(SiteOf(w)) && StatusOf(w).target == c.Digest()
    requires Rendered(c, SiteOf(w), v.secretHash) && RolledOut(c, SiteOf(w)) && !MigrationPending(StatusOf(w))
    requires d == Last(w.deployments)[OwnDeployment]
    ensures Stage(c, SiteOf(Landed(w, Roll(v, c, StatusOf(w), d).writes)), v.secretHash) == 0
  {
    var s := StatusOf(w);
    var next, rest := s.Remove(Rolling).Remove(RolloutError), CleanUp(v.laterJobs, v.jobPods, d).writes;
    assert Landed(w, Roll(v, c, s, d).writes) == CarryAll(w, Roll(v, c, s, d).writes) by {
      CleanUpIsFree(v, d);
      if s.Is(Rolling) || s.Is(RolloutError) {
        LandedWhole(w, PatchStatus(next), rest);
      } else {
        assert Roll(v, c, s, d).writes == rest;
        LandedFree(w, rest);
      }
    }
    RollSite(w, v, c, d);
    RolledIsDone(SiteOf(w), v, c, d);
  }

  lemma RolledIsDone(x: Site, v: View, c: Config, d: Deployment)
    requires Healthy(x) && Rendered(c, x, v.secretHash) && RolledOut(c, x) && x.status.target == c.Digest()
    requires !MigrationPending(x.status) && d == x.deployments[OwnDeployment]
    ensures Stage(c, Site(StatusAfterRoll(x.status, v, c, d), x.deployments, JobsAfterRoll(x.jobs, v, c, d)),
                  v.secretHash) == 0
  {
    RenderedIsReady(c, x, v.secretHash);
  }

  lemma CleanUpIsFree(v: View, d: Deployment)
    ensures forall x :: x in CleanUp(v.laterJobs, v.jobPods, d).writes ==> !Locked(x)
  {
    NoLocks(v.laterJobs, v.jobPods, SpentJobs(v.laterJobs, d));
  }

  lemma DeployEffect(w: World, v: View, c: Config)
    requires Fresh(w) && Healthy(SiteOf(w)) && Current(v, SiteOf(w))
    requires StatusOf(w).target == c.Digest() && Stage(c, SiteOf(w), v.secretHash) <= 4
    ensures Progresses(c, v, w, Landed(w, Deploy(v, c, StatusOf(w)).writes))
  {
    DeploySteady(w, v, c);
    LandedAimed(Keeping(c, v.secretHash, w), w, Deploy(v, c, StatusOf(w)).writes);
    var k := Stage(c, SiteOf(w), v.secretHash);
    if k == 4 && v.applyAccepted {
      ApplyEffect(w, v, c);
    } else if k <= 2 {
      RollEffect(w, v, c);
    }
  }

  /** From the migration check on, a reconcile ends the stage it finds, unless it has to wait. */
  lemma CheckEffect(w: World, v: View, c: Config)
    requires Fresh(w) && Healthy(SiteOf(w)) && Current(v, SiteOf(w)) && StatusOf(w).target == c.Digest()
    ensures Progresses(c, v, w, Landed(w, CheckMigrations(v, c, StatusOf(w)).writes))
  {
    var h, x := c.Digest(), SiteOf(w);
    JobForCurrent(v.jobs, x.jobs, h);
    StampCurrent(v, x, h);
    var k := Stage(c, x, v.secretHash);
    if k == 6 {
      RunEffect(w, v, c);
    } else if k == 5 {
      assert CheckMigrations(v, c, StatusOf(w)).writes == [];
      KeptItself(c, v.secretHash, w);
    } else {
      DeployEffect(w, v, c);
    }
  }

  // ---- One reconcile ----

  /** A change is noticed, and with it the reconcile is over; or the configuration is recorded, and if
      it was before, the stage moves on. */
  ghost predicate Steps(c: Config, v: View, noticed: Status, s1: Status, w: World, w': World)
    requires w.Valid() && w'.Valid()
  {
    if ConfigChanged(v.cluster, v.secretHash) then
      SameCluster(w, w') && SiteOf(w') == SiteOf(w).(status := noticed)
    else
      && RecordedIn(c, v.secretHash, s1, w, w')
      && (s1 == StatusOf(w) ==>
            NextStage(Stage(c, SiteOf(w), v.secretHash), Stage(c, SiteOf(w'), v.secretHash), v.applyAccepted))
  }

  /** A noticed change leaves the configuration to be recorded. */
  lemma NoticedIsUntold(o: ClusterObject, secretHash: string, generation: int, c: Config, warning: Option<string>,
                        available: seq<Version>)
    requires ConfigChanged(o, secretHash)
    ensures var noticed := NoticeChange(o, secretHash);
            noticed != o.status && !StatusEquals(noticed, ComputedStatus(noticed, generation, c, warning, available))
  {
    var noticed := NoticeChange(o, secretHash);
    assert Validating in noticed.conditions;
    assert Validating !in ComputedStatus(noticed, generation, c, warning, available).conditions;
  }

  lemma NoticeEnds(w: World, noticed: Status, s1: Status, rest: seq<Write>)
    requires Fresh(w) && noticed != StatusOf(w)
    ensures var w' := Landed(w, [NoticeStatus(noticed)] + ([PatchStatus(s1)] + rest));
            SameCluster(w, w') && SiteOf(w') == SiteOf(w).(status := noticed)
  {
    var ys := [PatchStatus(s1)] + rest;
    LandedNext(w, NoticeStatus(noticed), ys);
    LandedStops(CarryOut(w, NoticeStatus(noticed)), ys);
  }

  lemma PatchGranted(w: World, changed: bool, s1: Status, rest: seq<Write>)
    requires Fresh(w) && (changed || s1 == StatusOf(w))
    ensures Landed(w, PatchIf(changed, s1) + rest) == Landed(CarryAll(w, PatchIf(changed, s1)), rest)
    ensures s1 == StatusOf(w) ==> Fresh(CarryAll(w, PatchIf(changed, s1)))
  {
    if changed {
      LandedNext(w, PatchStatus(s1), rest);
      CarryOne(w, PatchStatus(s1));
    } else {
      assert PatchIf(changed, s1) + rest == rest;
    }
  }

  lemma RecordEffect(w: World, v: View, c: Config, changed: bool, s1: Status)
    requires Fresh(w) && Healthy(SiteOf(w)) && Current(v, SiteOf(w)) && (changed || s1 == StatusOf(w))
    requires Tells(c, StatusOf(w), s1)
    ensures var w' := Landed(w, PatchIf(changed, s1) + CheckMigrations(v, c, s1).writes);
            && RecordedIn(c, v.secretHash, s1, w, w')
            && (s1 == StatusOf(w) ==>
                  NextStage(Stage(c, SiteOf(w), v.secretHash), Stage(c, SiteOf(w'), v.secretHash), v.applyAccepted))
  {
    var w1, rest := CarryAll(w, PatchIf(changed, s1)), CheckMigrations(v, c, s1).writes;
    CutRest(w, v, c, changed, s1);
    PatchGranted(w, changed, s1, rest);
    LandedAimed(RecordedAim(c, v.secretHash, s1, w), w1, rest);
    if s1 == StatusOf(w) {
      CheckEffect(w1, v, c);
    }
  }

  lemma PlanEffect(w: World, v: View, noticed: Status, c: Config, available: seq<Version>)
    requires Fresh(w) && Healthy(SiteOf(w)) && CurrentView(w, v)
    requires !v.cluster.paused && Credentials.SpecOk(v.cluster.spec.credentials)
    requires noticed == NoticeChange(v.cluster, v.secretHash)
    requires Recordable(noticed.version, c.migration.version)
    ensures Steps(c, v, noticed, Telling(v, noticed, c, available), w,
                  Landed(w, ReconcileWith(v, noticed, Ok(c), Some(available)).writes))
  {
    var changed, s1 := PlanParts(v, noticed, c, available);
    var rest := CheckMigrations(v, c, s1).writes;
    if ConfigChanged(v.cluster, v.secretHash) {
      NoticedIsUntold(v.cluster, v.secretHash, v.cluster.generation, c, v.cluster.spec.warning, available);
      assert changed;
      NoticeEnds(w, noticed, s1, rest);
    } else {
      assert NoticeIf(false, noticed) + (PatchIf(changed, s1) + rest) == PatchIf(changed, s1) + rest;
      RecordEffect(w, v, c, changed, s1);
    }
  }
}
