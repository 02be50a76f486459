/** A plan cut short anywhere loses no stage. */
module Interruption {
  import opened Seqs
  import opened UpdateGraph
  import opened Cluster
  import Credentials
  import opened Controller
  import opened Runs
  import opened Progress

  ghost predicate Kept(c: Config, secretHash: string, w: World, w': World)
    requires w.Valid() && w'.Valid()
  {
    SameTarget(w, w') && Stage(c, SiteOf(w'), secretHash) <= Stage(c, SiteOf(w), secretHash)
  }

  lemma CarryPrefix(w: World, xs: seq<Write>, ys: seq<Write>, n: nat)
    requires w.Valid() && n <= |xs| + |ys|
    ensures CarryAll(w, (xs + ys)[..n])
         == if n <= |xs| then CarryAll(w, xs[..n]) else CarryAll(CarryAll(w, xs), ys[..n - |xs|])
  {
    if n <= |xs| {
      assert (xs + ys)[..n] == xs[..n];
    } else {
      assert (xs + ys)[..n] == xs + ys[..n - |xs|];
      CarryConcat(w, xs, ys[..n - |xs|]);
    }
  }

  type Aim = World -> bool

  /** However many of the writes are carried out, the world is as aimed at. */
  ghost predicate Always(aim: Aim, w: World, xs: seq<Write>)
    requires w.Valid()
  {
    forall n :: 0 <= n <= |xs| ==> AimedAfter(aim, w, xs, n)
  }

  ghost predicate AimedAfter(aim: Aim, w: World, xs: seq<Write>, n: nat)
    requires w.Valid() && n <= |xs|
  {
    aim(CarryAll(w, xs[..n]))
  }

  lemma AlwaysConcat(aim: Aim, w: World, xs: seq<Write>, ys: seq<Write>)
    requires w.Valid() && Always(aim, w, xs) && Always(aim, CarryAll(w, xs), ys)
    ensures Always(aim, w, xs + ys)
  {
    forall n | 0 <= n <= |xs + ys| ensures AimedAfter(aim, w, xs + ys, n) {
      CarryPrefix(w, xs, ys, n);
      if n <= |xs| {
        assert AimedAfter(aim, w, xs, n);
      } else {
        assert AimedAfter(aim, CarryAll(w, xs), ys, n - |xs|);
      }
    }
  }

  /** However many of the writes are carried out, no stage is lost. */
  ghost predicate Steady(c: Config, secretHash: string, w: World, xs: seq<Write>)
    requires w.Valid()
  {
    Always(Keeping(c, secretHash, w), w, xs)
  }

  ghost function Keeping(c: Config, secretHash: string, w: World): Aim {
    (w': World) => w.Valid() && w'.Valid() && Kept(c, secretHash, w, w')
  }

  lemma ProgressJoins(a: Status, b: Status, c: Status)
    requires OnlyProgress(a, b) && OnlyProgress(b, c)
    ensures OnlyProgress(a, c)
  {
    forall k | k != Migrating && k != Rolling && k != RolloutError ensures SameCondition(a, c, k) {
      assert SameCondition(a, b, k) && SameCondition(b, c, k);
    }
  }

  lemma KeptJoins(c: Config, secretHash: string, u: World, v: World, w: World)
    requires u.Valid() && v.Valid() && w.Valid() && Kept(c, secretHash, u, v) && Kept(c, secretHash, v, w)
    ensures Kept(c, secretHash, u, w)
  {
    ProgressJoins(StatusOf(u), StatusOf(v), StatusOf(w));
  }

  /** What keeps the stage later keeps it from the start. */
  lemma KeptFrom(c: Config, secretHash: string, w: World, w1: World, xs: seq<Write>)
    requires w.Valid() && w1.Valid() && Kept(c, secretHash, w, w1) && Steady(c, secretHash, w1, xs)
    ensures Always(Keeping(c, secretHash, w), w1, xs)
  {
    forall n | 0 <= n <= |xs| ensures AimedAfter(Keeping(c, secretHash, w), w1, xs, n) {
      assert AimedAfter(Keeping(c, secretHash, w1), w1, xs, n);
      KeptJoins(c, secretHash, w, w1, CarryAll(w1, xs[..n]));
    }
  }

  lemma SteadyConcat(c: Config, secretHash: string, w: World, xs: seq<Write>, ys: seq<Write>)
    requires w.Valid() && Steady(c, secretHash, w, xs) && Steady(c, secretHash, CarryAll(w, xs), ys)
    ensures Steady(c, secretHash, w, xs + ys)
  {
    assert AimedAfter(Keeping(c, secretHash, w), w, xs, |xs|) && xs[..|xs|] == xs;
    KeptFrom(c, secretHash, w, CarryAll(w, xs), ys);
    AlwaysConcat(Keeping(c, secretHash, w), w, xs, ys);
  }

  lemma CarryOne(w: World, x: Write)
    requires w.Valid()
    ensures CarryAll(w, [x]) == CarryOut(w, x)
  {
    assert [x][1..] == [];
  }

  lemma KeptItself(c: Config, secretHash: string, w: World)
    requires w.Valid() && Healthy(SiteOf(w))
    ensures Kept(c, secretHash, w, w)
  {
  }

  lemma SteadyOne(c: Config, secretHash: string, w: World, x: Write)
    requires w.Valid() && Healthy(SiteOf(w)) && Kept(c, secretHash, w, CarryAll(w, [x]))
    ensures Steady(c, secretHash, w, [x])
  {
    forall n | 0 <= n <= |[x]| ensures AimedAfter(Keeping(c, secretHash, w), w, [x], n) {
      if n == 0 {
        assert [x][..n] == [];
        KeptItself(c, secretHash, w);
      } else {
        assert [x][..n] == [x];
      }
    }
  }

  lemma SteadyNone(c: Config, secretHash: string, w: World)
    requires w.Valid() && Healthy(SiteOf(w))
    ensures Steady(c, secretHash, w, [])
  {
    KeptItself(c, secretHash, w);
  }

  // ---- The writes of the handlers ----

  lemma SteadyPatch(c: Config, secretHash: string, w: World, changed: bool, s: Status)
    requires w.Valid() && Healthy(SiteOf(w))
    requires OnlyProgress(StatusOf(w), s)
    requires Stage(c, SiteOf(w).(status := s), secretHash) <= Stage(c, SiteOf(w), secretHash)
    ensures Steady(c, secretHash, w, PatchIf(changed, s))
  {
    if changed {
      PatchEffect(w, true, s);
      SteadyOne(c, secretHash, w, PatchStatus(s));
    } else {
      SteadyNone(c, secretHash, w);
    }
  }

  lemma DeletesKeep(c: Config, secretHash: string, x: Site, names: seq<ObjectName>)
    requires Healthy(x) && (ReadyToDeploy(c, x) || MigrateJob(c.Digest()) !in names)
    ensures var y := x.(jobs := x.jobs - (set n | n in names));
            Healthy(y) && Stage(c, y, secretHash) <= Stage(c, x, secretHash)
  {
  }

  lemma SteadyDeletes(c: Config, secretHash: string, w: World, names: seq<ObjectName>)
    requires w.Valid() && Healthy(SiteOf(w))
    requires ReadyToDeploy(c, SiteOf(w)) || MigrateJob(c.Digest()) !in names
    ensures Steady(c, secretHash, w, DeleteJobs(names))
  {
    forall n | 0 <= n <= |names| ensures AimedAfter(Keeping(c, secretHash, w), w, DeleteJobs(names), n) {
      assert DeleteJobs(names)[..n] == DeleteJobs(names[..n]);
      DeleteJobsEffect(w, names[..n]);
      DeletesKeep(c, secretHash, SiteOf(w), names[..n]);
    }
  }

  lemma {:induction false} PodsChangeNothing(w: World, xs: seq<Write>)
    requires w.Valid() && forall x :: x in xs ==> x.DeletePod?
    ensures CarryAll(w, xs) == w
    decreases |xs|
  {
    if xs != [] {
      assert xs[0].DeletePod?;
      PodsChangeNothing(w, xs[1..]);
    }
  }

  lemma SteadyPods(c: Config, secretHash: string, w: World, xs: seq<Write>)
    requires w.Valid() && Healthy(SiteOf(w)) && forall x :: x in xs ==> x.DeletePod?
    ensures Steady(c, secretHash, w, xs)
  {
    forall n | 0 <= n <= |xs| ensures AimedAfter(Keeping(c, secretHash, w), w, xs, n) {
      PodsChangeNothing(w, xs[..n]);
    }
  }

  lemma JobKeeps(c: Config, secretHash: string, w: World)
    requires w.Valid() && Healthy(SiteOf(w)) && Stage(c, SiteOf(w), secretHash) == 6
    ensures var r := CarryOut(w, ApplyJob(c.Digest()));
            Kept(c, secretHash, w, r) && Healthy(SiteOf(r))
  {
    var h := c.Digest();
    var job := Job(MigrateJob(h), Some(h), []);
    assert SiteOf(CarryOut(w, ApplyJob(h))) == SiteOf(w).(jobs := Last(w.jobs)[MigrateJob(h) := job]);
  }

  lemma RunParts(v: View, c: Config, s: Status)
    requires JobFor(v.jobs, c.Digest()).None?
    ensures RunMigration(v, c, s).writes
         == PatchIf(true, s.Set(Migrating, MigratingCondition(c))) +
            ([ApplyJob(c.Digest())] + DeleteJobs(ExtraJobs(v.jobs, c.Digest())))
  {
  }

  lemma MigratingStage(x: Site, c: Config, secretHash: string)
    requires Stage(c, x, secretHash) == 6
    ensures Stage(c, x.(status := x.status.Set(Migrating, MigratingCondition(c))), secretHash) == 6
  {
  }

  lemma RunSteady(w: World, v: View, c: Config)
    requires w.Valid() && Healthy(SiteOf(w)) && Current(v, SiteOf(w))
    requires Stage(c, SiteOf(w), v.secretHash) == 6
    ensures Steady(c, v.secretHash, w, RunMigration(v, c, StatusOf(w)).writes)
  {
    var h, s := c.Digest(), StatusOf(w);
    JobForCurrent(v.jobs, Last(w.jobs), h);
    ExtrasSpareJob(v.jobs, Last(w.jobs), h);
    RunParts(v, c, s);
    MarkedThenJob(w, c, v.secretHash, ExtraJobs(v.jobs, h));
  }

  lemma MarkedThenJob(w: World, c: Config, secretHash: string, extras: seq<ObjectName>)
    requires w.Valid() && Healthy(SiteOf(w)) && Stage(c, SiteOf(w), secretHash) == 6
    requires MigrateJob(c.Digest()) !in extras
    ensures var patch := PatchIf(true, StatusOf(w).Set(Migrating, MigratingCondition(c)));
            Steady(c, secretHash, w, patch + ([ApplyJob(c.Digest())] + DeleteJobs(extras)))
  {
    var migrating := StatusOf(w).Set(Migrating, MigratingCondition(c));
    MigratingStage(SiteOf(w), c, secretHash);
    SteadyPatch(c, secretHash, w, true, migrating);
    PatchEffect(w, true, migrating);
    JobSteady(CarryAll(w, PatchIf(true, migrating)), c, secretHash, extras);
    SteadyConcat(c, secretHash, w, PatchIf(true, migrating), [ApplyJob(c.Digest())] + DeleteJobs(extras));
  }

  lemma JobSteady(w: World, c: Config, secretHash: string, extras: seq<ObjectName>)
    requires w.Valid() && Healthy(SiteOf(w)) && Stage(c, SiteOf(w), secretHash) == 6
    requires MigrateJob(c.Digest()) !in extras
    ensures Steady(c, secretHash, w, [ApplyJob(c.Digest())] + DeleteJobs(extras))
  {
    JobKeeps(c, secretHash, w);
    CarryOne(w, ApplyJob(c.Digest()));
    SteadyOne(c, secretHash, w, ApplyJob(c.Digest()));
    SteadyDeletes(c, secretHash, CarryOut(w, ApplyJob(c.Digest())), extras);
    SteadyConcat(c, secretHash, w, [ApplyJob(c.Digest())], DeleteJobs(extras));
  }

  lemma RenderedIsReady(c: Config, x: Site, secretHash: string)
    requires Healthy(x) && Rendered(c, x, secretHash)
    ensures ReadyToDeploy(c, x)
  {
  }

  lemma ApplyKeeps(c: Config, secretHash: string, w: World)
    requires w.Valid() && Healthy(SiteOf(w)) && !Rendered(c, SiteOf(w), secretHash)
    ensures var r := CarryOut(w, ApplyDeployment(RenderDeployment(c, secretHash)));
            Kept(c, secretHash, w, r) && StatusOf(r) == StatusOf(w)
  {
    var spec := RenderDeployment(c, secretHash);
    var r := CarryOut(w, ApplyDeployment(spec));
    assert SiteOf(r) == SiteOf(w).(deployments := DeploymentsAfterApply(Last(w.deployments), spec, true));
    assert Healthy(SiteOf(r)) && Rendered(c, SiteOf(r), secretHash);
    RenderedIsReady(c, SiteOf(r), secretHash);
  }

  lemma ApplySteady(w: World, v: View, c: Config)
    requires w.Valid() && Healthy(SiteOf(w)) && !Rendered(c, SiteOf(w), v.secretHash)
    ensures Steady(c, v.secretHash, w, ApplyNew(v, RenderDeployment(c, v.secretHash), StatusOf(w)).writes)
  {
    var s, spec := StatusOf(w), RenderDeployment(c, v.secretHash);
    if !v.applyAccepted {
      SteadyPatch(c, v.secretHash, w, true, StatusAfterApply(s, false));
    } else {
      ApplyKeeps(c, v.secretHash, w);
      CarryOne(w, ApplyDeployment(spec));
      SteadyOne(c, v.secretHash, w, ApplyDeployment(spec));
      SteadyPatch(c, v.secretHash, CarryOut(w, ApplyDeployment(spec)), ClearsApplyError(s), s.Remove(RolloutError));
      SteadyConcat(c, v.secretHash, w, [ApplyDeployment(spec)], PatchIf(ClearsApplyError(s), s.Remove(RolloutError)));
    }
  }

  lemma RollStage(x: Site, v: View, c: Config)
    requires Healthy(x) && Rendered(c, x, v.secretHash)
    ensures var y := x.(status := StatusAfterRoll(x.status, v, c, x.deployments[OwnDeployment]));
            Stage(c, y, v.secretHash) <= Stage(c, x, v.secretHash) && OnlyProgress(x.status, y.status)
  {
    RenderedIsReady(c, x, v.secretHash);
  }

  lemma RollSteady(w: World, v: View, c: Config)
    requires w.Valid() && Healthy(SiteOf(w)) && Rendered(c, SiteOf(w), v.secretHash)
    ensures Steady(c, v.secretHash, w, Roll(v, c, StatusOf(w), Last(w.deployments)[OwnDeployment]).writes)
  {
    var s, d := StatusOf(w), Last(w.deployments)[OwnDeployment];
    var next := StatusAfterRoll(s, v, c, d);
    RollStage(SiteOf(w), v, c);
    if PodFails(v, d) || !RolloutComplete(d, DesiredReplicas(d, c.replicas)) {
      assert Roll(v, c, s, d).writes == PatchIf(true, next);
      SteadyPatch(c, v.secretHash, w, true, next);
    } else {
      var changed := s.Is(Rolling) || s.Is(RolloutError);
      var patch, rest := PatchIf(changed, next), CleanUp(v.laterJobs, v.jobPods, d).writes;
      assert Roll(v, c, s, d).writes == patch + rest;
      SteadyPatch(c, v.secretHash, w, changed, next);
      PatchEffect(w, changed, next);
      CleanUpSteady(CarryAll(w, patch), v, c, d);
      SteadyConcat(c, v.secretHash, w, patch, rest);
    }
  }

  lemma CleanUpSteady(w: World, v: View, c: Config, d: Deployment)
    requires w.Valid() && Healthy(SiteOf(w)) && Rendered(c, SiteOf(w), v.secretHash)
    ensures Steady(c, v.secretHash, w, CleanUp(v.laterJobs, v.jobPods, d).writes)
  {
    if d.annotations.Some? && |v.laterJobs| + |v.jobPods| > 0 {
      var names, pods := SpentJobs(v.laterJobs, d), CleanPods(v.laterJobs, v.jobPods).writes;
      RenderedIsReady(c, SiteOf(w), v.secretHash);
      SteadyDeletes(c, v.secretHash, w, names);
      DeleteJobsEffect(w, names);
      OnlyPodsCleaned(v.laterJobs, v.jobPods);
      SteadyPods(c, v.secretHash, CarryAll(w, DeleteJobs(names)), pods);
      SteadyConcat(c, v.secretHash, w, DeleteJobs(names), pods);
    }
  }

  lemma MigratedStage(x: Site, c: Config, secretHash: string)
    requires x.status.target == c.Digest()
    ensures var y := x.(status := Migrated(x.status));
            Stage(c, y, secretHash) <= Stage(c, x, secretHash) && OnlyProgress(x.status, y.status)
  {
  }

  lemma DeploySteady(w: World, v: View, c: Config)
    requires w.Valid() && Healthy(SiteOf(w)) && Current(v, SiteOf(w)) && StatusOf(w).target == c.Digest()
    ensures Steady(c, v.secretHash, w, Deploy(v, c, StatusOf(w)).writes)
  {
    var s, x := StatusOf(w), SiteOf(w);
    var patch := PatchIf(MigrationPending(s), Migrated(s));
    MigratedStage(x, c, v.secretHash);
    SteadyPatch(c, v.secretHash, w, MigrationPending(s), Migrated(s));
    MigratedPatch(w);
    var w1 := CarryAll(w, patch);
    if Rendered(c, x, v.secretHash) {
      var d := x.deployments[OwnDeployment];
      DeployRolls(v, c, s, d);
      RollSteady(w1, v, c);
      SteadyConcat(c, v.secretHash, w, patch, Roll(v, c, Migrated(s), d).writes);
    } else {
      DeployApplies(v, c, s, x);
      ApplySteady(w1, v, c);
      SteadyConcat(c, v.secretHash, w, patch, ApplyNew(v, RenderDeployment(c, v.secretHash), Migrated(s)).writes);
    }
  }

  lemma CheckSteady(w: World, v: View, c: Config)
    requires w.Valid() && Healthy(SiteOf(w)) && Current(v, SiteOf(w)) && StatusOf(w).target == c.Digest()
    ensures Steady(c, v.secretHash, w, CheckMigrations(v, c, StatusOf(w)).writes)
  {
    var h, x := c.Digest(), SiteOf(w);
    JobForCurrent(v.jobs, x.jobs, h);
    StampCurrent(v, x, h);
    var k := Stage(c, x, v.secretHash);
    if k == 6 {
      RunSteady(w, v, c);
    } else if k == 5 {
      assert CheckMigrations(v, c, StatusOf(w)).writes == [];
      SteadyNone(c, v.secretHash, w);
    } else {
      DeploySteady(w, v, c);
    }
  }

  // ---- A whole plan ----

  /** The world as it was, with the change noticed, or with the configuration recorded as `s1` and no
      stage lost. */
  ghost predicate CutShort(c: Config, secretHash: string, noticed: Status, s1: Status, w: World, mid: World)
    requires w.Valid() && mid.Valid()
  {
    && SameCluster(w, mid) && Healthy(SiteOf(mid))
    && (SiteOf(mid) == SiteOf(w) || SiteOf(mid) == SiteOf(w).(status := noticed) ||
        Recorded(c, secretHash, s1, w, mid))
  }

  ghost predicate Recorded(c: Config, secretHash: string, s1: Status, w: World, mid: World)
    requires w.Valid() && mid.Valid()
  {
    && OnlyProgress(s1, StatusOf(mid))
    && (StatusOf(w).version == c.migration.version ==>
          Stage(c, SiteOf(mid), secretHash) <= Stage(c, SiteOf(w), secretHash))
  }

  /** The status later handlers see: that of the configuration, with the progress as it was. */
  predicate Tells(c: Config, s: Status, s1: Status) {
    SameProgress(s, s1) && s1.version == c.migration.version && s1.target == c.Digest()
  }

  lemma CutPatch(w: World, changed: bool, s: Status, n: nat)
    requires w.Valid() && n <= |PatchIf(changed, s)|
    ensures var mid := CarryAll(w, PatchIf(changed, s)[..n]);
            && SameCluster(w, mid)
            && (SiteOf(mid) == SiteOf(w) || (changed && SiteOf(mid) == SiteOf(w).(status := s)))
  {
    if n == 0 {
      assert PatchIf(changed, s)[..n] == [];
    } else {
      assert PatchIf(changed, s)[..n] == PatchIf(changed, s);
      PatchEffect(w, changed, s);
    }
  }

  lemma CutNoticeAt(w: World, changed: bool, s: Status, n: nat)
    requires w.Valid() && n <= |NoticeIf(changed, s)|
    ensures var mid := CarryAll(w, NoticeIf(changed, s)[..n]);
            && SameCluster(w, mid)
            && (SiteOf(mid) == SiteOf(w) || (changed && SiteOf(mid) == SiteOf(w).(status := s)))
  {
    if n == 0 {
      assert NoticeIf(changed, s)[..n] == [];
    } else {
      assert NoticeIf(changed, s)[..n] == NoticeIf(changed, s);
      NoticeEffect(w, changed, s);
    }
  }

  /** The world is as it was, or the configuration is recorded. */
  ghost predicate RestCut(c: Config, secretHash: string, s1: Status, w: World, mid: World)
    requires w.Valid() && mid.Valid()
  {
    && SameCluster(w, mid) && Healthy(SiteOf(mid))
    && (SiteOf(mid) == SiteOf(w) || Recorded(c, secretHash, s1, w, mid))
  }

  ghost function RestAim(c: Config, secretHash: string, s1: Status, w: World): Aim {
    (mid: World) => w.Valid() && mid.Valid() && RestCut(c, secretHash, s1, w, mid)
  }

  ghost predicate RecordedIn(c: Config, secretHash: string, s1: Status, w: World, mid: World)
    requires w.Valid() && mid.Valid()
  {
    SameCluster(w, mid) && Healthy(SiteOf(mid)) && Recorded(c, secretHash, s1, w, mid)
  }

  ghost function RecordedAim(c: Config, secretHash: string, s1: Status, w: World): Aim {
    (mid: World) => w.Valid() && mid.Valid() && RecordedIn(c, secretHash, s1, w, mid)
  }

  lemma StillRecorded(c: Config, secretHash: string, w: World, s1: Status, mid: World)
    requires w.Valid() && mid.Valid() && Tells(c, StatusOf(w), s1) && SiteOf(mid) == SiteOf(w).(status := s1)
    ensures Recorded(c, secretHash, s1, w, mid)
  {
    if StatusOf(w).version == c.migration.version {
      StageKept(c, SiteOf(w), s1, secretHash);
    }
  }

  lemma CutBeforeRecord(w: World, c: Config, secretHash: string, changed: bool, s1: Status)
    requires w.Valid() && Healthy(SiteOf(w)) && Tells(c, StatusOf(w), s1)
    ensures Always(RestAim(c, secretHash, s1, w), w, PatchIf(changed, s1))
  {
    forall n | 0 <= n <= |PatchIf(changed, s1)|
      ensures AimedAfter(RestAim(c, secretHash, s1, w), w, PatchIf(changed, s1), n)
    {
      CutPatch(w, changed, s1, n);
      var mid := CarryAll(w, PatchIf(changed, s1)[..n]);
      if SiteOf(mid) == SiteOf(w).(status := s1) {
        StillRecorded(c, secretHash, w, s1, mid);
      }
    }
  }

  lemma RecordedThenKept(w: World, c: Config, secretHash: string, s1: Status, w1: World, mid: World)
    requires w.Valid() && w1.Valid() && mid.Valid() && SameCluster(w, w1) && SiteOf(w1) == SiteOf(w).(status := s1)
    requires Tells(c, StatusOf(w), s1) && Kept(c, secretHash, w1, mid)
    ensures RecordedIn(c, secretHash, s1, w, mid)
  {
    StillRecorded(c, secretHash, w, s1, w1);
  }

  lemma CutAfterRecord(w: World, c: Config, secretHash: string, s1: Status, w1: World, xs: seq<Write>)
    requires w.Valid() && w1.Valid() && SameCluster(w, w1) && SiteOf(w1) == SiteOf(w).(status := s1)
    requires Tells(c, StatusOf(w), s1) && Steady(c, secretHash, w1, xs)
    ensures Always(RecordedAim(c, secretHash, s1, w), w1, xs)
  {
    forall n | 0 <= n <= |xs| ensures AimedAfter(RecordedAim(c, secretHash, s1, w), w1, xs, n) {
      assert AimedAfter(Keeping(c, secretHash, w1), w1, xs, n);
      RecordedThenKept(w, c, secretHash, s1, w1, CarryAll(w1, xs[..n]));
    }
  }

  lemma AlwaysWeaker(w: World, c: Config, secretHash: string, s1: Status, w1: World, xs: seq<Write>)
    requires w1.Valid() && Always(RecordedAim(c, secretHash, s1, w), w1, xs)
    ensures Always(RestAim(c, secretHash, s1, w), w1, xs)
  {
    forall n | 0 <= n <= |xs| ensures AimedAfter(RestAim(c, secretHash, s1, w), w1, xs, n) {
      assert AimedAfter(RecordedAim(c, secretHash, s1, w), w1, xs, n);
    }
  }

  /** From the status after the change is noticed on. */
  lemma CutRest(w: World, v: View, c: Config, changed: bool, s1: Status)
    requires w.Valid() && Healthy(SiteOf(w)) && Current(v, SiteOf(w)) && (changed || s1 == StatusOf(w))
    requires Tells(c, StatusOf(w), s1)
    ensures var w1 := CarryAll(w, PatchIf(changed, s1));
            && SameCluster(w, w1) && SiteOf(w1) == SiteOf(w).(status := s1)
            && Always(RecordedAim(c, v.secretHash, s1, w), w1, CheckMigrations(v, c, s1).writes)
    ensures Always(RestAim(c, v.secretHash, s1, w), w, PatchIf(changed, s1) + CheckMigrations(v, c, s1).writes)
  {
    CutBeforeRecord(w, c, v.secretHash, changed, s1);
    PatchEffect(w, changed, s1);
    var w1 := CarryAll(w, PatchIf(changed, s1));
    CheckSteady(w1, v, c);
    CutAfterRecord(w, c, v.secretHash, s1, w1, CheckMigrations(v, c, s1).writes);
    AlwaysWeaker(w, c, v.secretHash, s1, w1, CheckMigrations(v, c, s1).writes);
    AlwaysConcat(RestAim(c, v.secretHash, s1, w), w, PatchIf(changed, s1), CheckMigrations(v, c, s1).writes);
  }

  lemma NoticedThenCut(w: World, c: Config, secretHash: string, noticed: Status, s1: Status, w1: World, mid: World)
    requires w.Valid() && w1.Valid() && mid.Valid() && SameCluster(w, w1)
    requires SiteOf(w1) == SiteOf(w).(status := noticed)
    requires SameProgress(StatusOf(w), noticed)
    requires noticed.version == StatusOf(w).version && noticed.target == StatusOf(w).target
    requires RestCut(c, secretHash, s1, w1, mid)
    ensures CutShort(c, secretHash, noticed, s1, w, mid)
  {
    StageNoticed(c, SiteOf(w), noticed, secretHash);
  }

  ghost function CutAim(c: Config, secretHash: string, noticed: Status, s1: Status, w: World): Aim {
    (mid: World) => w.Valid() && mid.Valid() && CutShort(c, secretHash, noticed, s1, w, mid)
  }

  lemma CutNotice(w: World, c: Config, secretHash: string, changed: bool, noticed: Status, s1: Status)
    requires w.Valid() && Healthy(SiteOf(w))
    ensures Always(CutAim(c, secretHash, noticed, s1, w), w, NoticeIf(changed, noticed))
  {
    forall n | 0 <= n <= |NoticeIf(changed, noticed)|
      ensures AimedAfter(CutAim(c, secretHash, noticed, s1, w), w, NoticeIf(changed, noticed), n)
    {
      CutNoticeAt(w, changed, noticed, n);
    }
  }

  lemma CutAfterNotice(w: World, c: Config, secretHash: string, noticed: Status, s1: Status, w1: World, xs: seq<Write>)
    requires w.Valid() && w1.Valid() && SameCluster(w, w1) && SiteOf(w1) == SiteOf(w).(status := noticed)
    requires SameProgress(StatusOf(w), noticed)
    requires noticed.version == StatusOf(w).version && noticed.target == StatusOf(w).target
    requires Always(RestAim(c, secretHash, s1, w1), w1, xs)
    ensures Always(CutAim(c, secretHash, noticed, s1, w), w1, xs)
  {
    forall n | 0 <= n <= |xs| ensures AimedAfter(CutAim(c, secretHash, noticed, s1, w), w1, xs, n) {
      assert AimedAfter(RestAim(c, secretHash, s1, w1), w1, xs, n);
      NoticedThenCut(w, c, secretHash, noticed, s1, w1, CarryAll(w1, xs[..n]));
    }
  }

  /** The status that tells of the configuration, written or found equal. */
  function Telling(v: View, noticed: Status, c: Config, available: seq<Version>): Status {
    Validated(noticed, ComputedStatus(noticed, v.cluster.generation, c, v.cluster.spec.warning, available))
  }

  /** Wherever the plan of a reconcile is cut short. */
  lemma CutPlan(w: World, v: View, noticed: Status, c: Config, available: seq<Version>, n: nat)
    requires w.Valid() && Healthy(SiteOf(w)) && CurrentView(w, v)
    requires !v.cluster.paused && Credentials.SpecOk(v.cluster.spec.credentials)
    requires noticed == NoticeChange(v.cluster, v.secretHash)
    requires Recordable(noticed.version, c.migration.version)
    requires n <= |ReconcileWith(v, noticed, Ok(c), Some(available)).writes|
    ensures CutShort(c, v.secretHash, noticed, Telling(v, noticed, c, available), w,
                     CarryAll(w, ReconcileWith(v, noticed, Ok(c), Some(available)).writes[..n]))
  {
    var changed, s1 := PlanParts(v, noticed, c, available);
    CutParts(w, v, noticed, c, changed, s1);
    assert AimedAfter(CutAim(c, v.secretHash, noticed, s1, w), w,
                      ReconcileWith(v, noticed, Ok(c), Some(available)).writes, n);
  }

  lemma CutParts(w: World, v: View, noticed: Status, c: Config, changed: bool, s1: Status)
    requires w.Valid() && Healthy(SiteOf(w)) && CurrentView(w, v)
    requires noticed == NoticeChange(v.cluster, v.secretHash) && (changed || s1 == noticed)
    requires Tells(c, noticed, s1)
    ensures var first := NoticeIf(ConfigChanged(v.cluster, v.secretHash), noticed);
            Always(CutAim(c, v.secretHash, noticed, s1, w), w,
                   first + (PatchIf(changed, s1) + CheckMigrations(v, c, s1).writes))
  {
    var first := ConfigChanged(v.cluster, v.secretHash);
    var rest := PatchIf(changed, s1) + CheckMigrations(v, c, s1).writes;
    NoticeKeeps(v.cluster, v.secretHash);
    CutNotice(w, c, v.secretHash, first, noticed, s1);
    NoticeEffect(w, first, noticed);
    var w1 := CarryAll(w, NoticeIf(first, noticed));
    CutRest(w1, v, c, changed, s1);
    CutAfterNotice(w, c, v.secretHash, noticed, s1, w1, rest);
    AlwaysConcat(CutAim(c, v.secretHash, noticed, s1, w), w, NoticeIf(first, noticed), rest);
  }
}
