/** What one reconcile with up-to-date caches does to the objects of a healthy cluster. */
module Progress {
  import opened Seqs
  import opened UpdateGraph
  import opened Cluster
  import Credentials
  import opened Controller
  import opened Cleanup
  import opened Runs
  import opened SingleMigration

  // ---- Carrying out a whole plan ----

  function CarryAll(w: World, xs: seq<Write>): (r: World)
    requires w.Valid()
    ensures r.Valid()
    decreases |xs|
  {
    if xs == [] then w else CarryAll(CarryOut(w, xs[0]), xs[1..])
  }

  lemma {:induction false} CarryConcat(w: World, xs: seq<Write>, ys: seq<Write>)
    requires w.Valid()
    ensures CarryAll(w, xs + ys) == CarryAll(CarryAll(w, xs), ys)
    decreases |xs|
  {
    if xs == [] {
      assert xs + ys == ys;
    } else {
      assert (xs + ys)[1..] == xs[1..] + ys;
      CarryConcat(CarryOut(w, xs[0]), xs[1..], ys);
    }
  }

  function StatusOf(w: World): Status
    requires w.Valid()
  {
    Last(w.clusters).status
  }

  /** What a reconcile with up-to-date caches can tell of a world. */
  datatype Site = Site(status: Status, deployments: Deployments, jobs: Jobs)

  function SiteOf(w: World): Site
    requires w.Valid()
  {
    Site(StatusOf(w), Last(w.deployments), Last(w.jobs))
  }

  /** Only the status, the deployments and the jobs change. */
  ghost predicate SameCluster(w: World, w': World)
    requires w.Valid() && w'.Valid()
  {
    Last(w'.clusters) == Last(w.clusters).(status := StatusOf(w'))
  }

  lemma PatchEffect(w: World, changed: bool, s: Status)
    requires w.Valid() && (changed || StatusOf(w) == s)
    ensures var r := CarryAll(w, PatchIf(changed, s));
            SiteOf(r) == SiteOf(w).(status := s) && SameCluster(w, r)
  {
    if changed {
      assert CarryAll(w, [PatchStatus(s)]) == CarryOut(w, PatchStatus(s)) by {
        assert [PatchStatus(s)][1..] == [];
      }
    }
  }

  lemma NoticeEffect(w: World, changed: bool, s: Status)
    requires w.Valid() && (changed || StatusOf(w) == s)
    ensures var r := CarryAll(w, NoticeIf(changed, s));
            SiteOf(r) == SiteOf(w).(status := s) && SameCluster(w, r)
  {
    if changed {
      assert CarryAll(w, [NoticeStatus(s)]) == CarryOut(w, NoticeStatus(s)) by {
        assert [NoticeStatus(s)][1..] == [];
      }
    }
  }

  lemma {:induction false} DeleteJobsEffect(w: World, names: seq<ObjectName>)
    requires w.Valid()
    ensures var r := CarryAll(w, DeleteJobs(names));
            && SiteOf(r) == SiteOf(w).(jobs := Last(w.jobs) - (set n | n in names))
            && SameCluster(w, r)
    decreases |names|
  {
    if names == [] {
      assert Last(w.jobs) - (set n | n in names) == Last(w.jobs);
    } else {
      assert DeleteJobs(names)[1..] == DeleteJobs(names[1..]);
      var next := CarryOut(w, DeleteJob(names[0]));
      DeleteJobsEffect(next, names[1..]);
      assert names == [names[0]] + names[1..];
      assert Last(next.jobs) - (set n | n in names[1..]) == Last(w.jobs) - (set n | n in names);
    }
  }

  lemma {:induction false} PodsEffect(w: World, js: seq<Job>, pods: seq<Pod>)
    requires w.Valid()
    ensures CarryAll(w, CleanPods(js, pods).writes) == w
    decreases |pods|
  {
    if pods != [] {
      PodsEffect(w, js, pods[1..]);
      if pods[0].jobName.Some? && !JobListed(js, pods[0].jobName.value) {
        var rest := CleanPods(js, pods[1..]).writes;
        assert ([DeletePod(pods[0].name)] + rest)[1..] == rest;
      }
    }
  }

  // ---- Stages ----

  /** The view shows the site as it is. */
  ghost predicate Current(v: View, x: Site) {
    && v.deployments == (if OwnDeployment in x.deployments then [x.deployments[OwnDeployment]] else [])
    && (forall j :: j in v.jobs <==> j.name in x.jobs && x.jobs[j.name] == j)
    && (forall j :: j in v.laterJobs <==> j.name in x.jobs && x.jobs[j.name] == j)
  }

  /** No one interferes with the objects, and no job has failed. */
  ghost predicate Healthy(x: Site) {
    && OwnOnly(x.deployments) && Labelled(x.jobs)
    && forall n :: n in x.jobs ==> !HasCondition(x.jobs[n], JobFailed)
  }

  predicate ReadyToDeploy(c: Config, x: Site) {
    Exempt(c, x.status) || Stamped(x.deployments, c.Digest())
  }

  predicate Rendered(c: Config, x: Site, secretHash: string) {
    OwnDeployment in x.deployments && x.deployments[OwnDeployment].Renders(RenderDeployment(c, secretHash))
  }

  /** The rollout is complete and no replica is missing. */
  predicate RolloutOver(d: Deployment, replicas: int) {
    RolloutComplete(d, DesiredReplicas(d, replicas)) && d.status.unavailable <= 0
  }

  predicate RolledOut(c: Config, x: Site)
    requires OwnDeployment in x.deployments
  {
    RolloutOver(x.deployments[OwnDeployment], c.replicas)
  }

  /** Equal hashes and nothing in progress. */
  predicate Clean(c: Config, s: Status) {
    && s.target == c.Digest() == s.current
    && Migrating !in s.conditions && !s.Is(Rolling) && !s.Is(RolloutError)
  }

  /** How far the recorded version is from running: 6 no job yet, 5 the job runs, 4 no deployment
      yet, 3 it rolls out, 2 the end of the migration is not recorded, 1 the end of the rollout is
      not, 0 done. */
  function Stage(c: Config, x: Site, secretHash: string): (k: nat)
    ensures k <= 6
  {
    if !ReadyToDeploy(c, x) && MigrateJob(c.Digest()) !in x.jobs then 6
    else if !ReadyToDeploy(c, x) && !HasCondition(x.jobs[MigrateJob(c.Digest())], JobComplete) then 5
    else if !Rendered(c, x, secretHash) then 4
    else if !RolledOut(c, x) then 3
    else if x.status.target != c.Digest() || MigrationPending(x.status) then 2
    else if !Clean(c, x.status) then 1
    else 0
  }

  predicate SameCondition(a: Status, b: Status, k: ConditionType) {
    (k in a.conditions <==> k in b.conditions) && (k in a.conditions ==> a.conditions[k] == b.conditions[k])
  }

  /** Only what tells of a migration or a rollout under way has changed. */
  ghost predicate OnlyProgress(a: Status, b: Status) {
    && b == a.(current := b.current, conditions := b.conditions) && (b.current == a.current || b.current == a.target)
    && forall k :: k != Migrating && k != Rolling && k != RolloutError ==> SameCondition(a, b, k)
  }

  /** The cluster is that of before, but for progress towards the recorded version. */
  ghost predicate SameTarget(w: World, w': World)
    requires w.Valid() && w'.Valid()
  {
    SameCluster(w, w') && Healthy(SiteOf(w')) && OnlyProgress(StatusOf(w), StatusOf(w'))
  }

  // ---- The effect of the handlers ----

  lemma {:induction false} JobForCurrent(js: seq<Job>, x: Jobs, h: Digest)
    requires h != NoDigest && Labelled(x)
    requires forall j :: j in js <==> j.name in x && x[j.name] == j
    ensures JobFor(js, h).Some? <==> MigrateJob(h) in x
    ensures JobFor(js, h).Some? ==> JobFor(js, h).value == x[MigrateJob(h)]
  {
    if MigrateJob(h) in x {
      assert x[MigrateJob(h)] in js;
    }
  }

  /** The jobs after a run: the new one and those not deleted. */
  function JobsAfterRun(js: Jobs, extras: seq<ObjectName>, h: Digest): Jobs {
    js[MigrateJob(h) := AppliedJob(js, h)] - (set n | n in extras)
  }

  lemma RunSite(w: World, v: View, c: Config)
    requires w.Valid() && JobFor(v.jobs, c.Digest()).None?
    ensures var r := CarryAll(w, RunMigration(v, c, StatusOf(w)).writes);
            && SameCluster(w, r)
            && SiteOf(r) == Site(StatusOf(w).Set(Migrating, MigratingCondition(c)), Last(w.deployments),
                                 JobsAfterRun(Last(w.jobs), ExtraJobs(v.jobs, c.Digest()), c.Digest()))
  {
    var h, s := c.Digest(), StatusOf(w);
    var migrating := s.Set(Migrating, MigratingCondition(c));
    var extras := DeleteJobs(ExtraJobs(v.jobs, h));
    var patch := PatchIf(true, migrating);
    assert RunMigration(v, c, s).writes == patch + ([ApplyJob(h)] + extras);
    CarryConcat(w, patch, [ApplyJob(h)] + extras);
    PatchEffect(w, true, migrating);
    var w1 := CarryAll(w, patch);
    assert ([ApplyJob(h)] + extras)[1..] == extras;
    DeleteJobsEffect(CarryOut(w1, ApplyJob(h)), ExtraJobs(v.jobs, h));
  }

  lemma RunStage(x: Site, c: Config, extras: seq<ObjectName>, secretHash: string)
    requires Healthy(x) && Stage(c, x, secretHash) == 6 && MigrateJob(c.Digest()) !in extras
    ensures var y := Site(x.status.Set(Migrating, MigratingCondition(c)), x.deployments,
                          JobsAfterRun(x.jobs, extras, c.Digest()));
            Healthy(y) && Stage(c, y, secretHash) == 5
  {
  }

  lemma ExtrasSpareJob(js: seq<Job>, x: Jobs, h: Digest)
    requires h != NoDigest && Labelled(x)
    requires forall j :: j in js ==> j.name in x && x[j.name] == j
    ensures MigrateJob(h) !in ExtraJobs(js, h)
  {
    if MigrateJob(h) in ExtraJobs(js, h) {
      ExtraExactly(js, h, MigrateJob(h));
    }
  }

  lemma OneDeployment(d: Deployment, spec: DeploymentSpec)
    requires d.annotations.Some?
    ensures Rendering([d], spec) == (if d.Renders(spec) then [d] else [])
    ensures d.Renders(spec) ==> ExtraDeployments([d], spec) == []
  {
    assert [d][..0] == [];
    assert Rendering([], spec) == [] && ExtraDeployments([], spec) == [];
  }

  lemma OneRendering(d: Deployment, spec: DeploymentSpec)
    requires !d.Renders(spec)
    ensures Rendering([d], spec) == []
  {
    assert [d][..0] == [];
  }

  /** The status after the attempt to apply the deployment. */
  function StatusAfterApply(s: Status, accepted: bool): Status {
    if !accepted then s.Set(RolloutError, Condition(true, ApplyFailed, Words([])))
    else if ClearsApplyError(s) then s.Remove(RolloutError)
    else s
  }

  function DeploymentsAfterApply(ds: Deployments, spec: DeploymentSpec, accepted: bool): Deployments {
    if accepted then ds[OwnDeployment := AppliedDeployment(ds, spec)] else ds
  }

  /** A pod of a deployment that lacks replicas has failed. */
  predicate PodFails(v: View, d: Deployment) {
    d.status.unavailable > 0 && PodFailure(v.pods).Some?
  }

  /** The status while a deployment rolls out and after. */
  function StatusAfterRoll(s: Status, v: View, c: Config, d: Deployment): Status {
    var desired := DesiredReplicas(d, c.replicas);
    if PodFails(v, d) then
      s.Set(RolloutError, Condition(true, PodError, Words([PodFailure(v.pods).value])))
    else if !RolloutComplete(d, desired) then s.Set(Rolling, RollingCounts(d, desired))
    else if s.Is(Rolling) || s.Is(RolloutError) then s.Remove(Rolling).Remove(RolloutError)
    else s
  }

  function JobsAfterRoll(js: Jobs, v: View, c: Config, d: Deployment): Jobs {
    if PodFails(v, d) || !RolloutComplete(d, DesiredReplicas(d, c.replicas)) then js
    else JobsAfterCleanUp(js, v, d)
  }

  /** The deployment is there: a pod has failed, it rolls out, or the rollout is over and spent jobs
      are deleted. */
  lemma RollSite(w: World, v: View, c: Config, d: Deployment)
    requires w.Valid()
    ensures var r := CarryAll(w, Roll(v, c, StatusOf(w), d).writes);
            && SameCluster(w, r)
            && SiteOf(r) == Site(StatusAfterRoll(StatusOf(w), v, c, d), Last(w.deployments),
                                 JobsAfterRoll(Last(w.jobs), v, c, d))
  {
    var s, next := StatusOf(w), StatusAfterRoll(StatusOf(w), v, c, d);
    if PodFails(v, d) || !RolloutComplete(d, DesiredReplicas(d, c.replicas)) {
      assert Roll(v, c, s, d).writes == PatchIf(true, next);
      PatchEffect(w, true, next);
    } else {
      var changed := s.Is(Rolling) || s.Is(RolloutError);
      var patch, rest := PatchIf(changed, next), CleanUp(v.laterJobs, v.jobPods, d).writes;
      assert Roll(v, c, s, d).writes == patch + rest;
      CarryConcat(w, patch, rest);
      PatchEffect(w, changed, next);
      CleanUpSite(CarryAll(w, patch), v, d);
    }
  }

  function JobsAfterCleanUp(js: Jobs, v: View, d: Deployment): Jobs {
    if d.annotations.None? || |v.laterJobs| + |v.jobPods| == 0 then js
    else js - (set n | n in SpentJobs(v.laterJobs, d))
  }

  lemma CleanUpSite(w: World, v: View, d: Deployment)
    requires w.Valid()
    ensures var r := CarryAll(w, CleanUp(v.laterJobs, v.jobPods, d).writes);
            SameCluster(w, r) && SiteOf(r) == SiteOf(w).(jobs := JobsAfterCleanUp(Last(w.jobs), v, d))
  {
    if d.annotations.Some? && |v.laterJobs| + |v.jobPods| > 0 {
      var jobs, pods := DeleteJobs(SpentJobs(v.laterJobs, d)), CleanPods(v.laterJobs, v.jobPods).writes;
      CarryConcat(w, jobs, pods);
      DeleteJobsEffect(w, SpentJobs(v.laterJobs, d));
      PodsEffect(CarryAll(w, jobs), v.laterJobs, v.jobPods);
    }
  }

  lemma MigratedPatch(w: World)
    requires w.Valid()
    ensures var s := StatusOf(w);
            var r := CarryAll(w, PatchIf(MigrationPending(s), Migrated(s)));
            SameCluster(w, r) && SiteOf(r) == SiteOf(w).(status := Migrated(s))
  {
    PatchEffect(w, MigrationPending(StatusOf(w)), Migrated(StatusOf(w)));
  }

  lemma DeployApplies(v: View, c: Config, s: Status, x: Site)
    requires Current(v, x) && !Rendered(c, x, v.secretHash)
    ensures Deploy(v, c, s).writes == PatchIf(MigrationPending(s), Migrated(s)) +
                                      ApplyNew(v, RenderDeployment(c, v.secretHash), Migrated(s)).writes
  {
    var spec := RenderDeployment(c, v.secretHash);
    if OwnDeployment in x.deployments {
      OneRendering(x.deployments[OwnDeployment], spec);
    }
    assert Rendering(v.deployments, spec) == [];
  }

  lemma DeployRolls(v: View, c: Config, s: Status, d: Deployment)
    requires v.deployments == [d] && d.Renders(RenderDeployment(c, v.secretHash))
    ensures Deploy(v, c, s).writes == PatchIf(MigrationPending(s), Migrated(s)) + Roll(v, c, Migrated(s), d).writes
  {
    OneDeployment(d, RenderDeployment(c, v.secretHash));
    assert DeleteDeployments([]) == [];
  }

  lemma StampCurrent(v: View, x: Site, h: Digest)
    requires Current(v, x) && OwnOnly(x.deployments)
    ensures HasStamp(v.deployments, h) <==> Stamped(x.deployments, h)
  {
    if OwnDeployment in x.deployments {
      assert x.deployments[OwnDeployment] in v.deployments;
    }
  }

  // ---- One reconcile ----

  /** What later handlers go by is the same. */
  predicate SameProgress(a: Status, b: Status) {
    && a.current == b.current
    && SameCondition(a, b, Migrating) && SameCondition(a, b, Rolling) && SameCondition(a, b, RolloutError)
  }

  lemma NoticeKeeps(o: ClusterObject, secretHash: string)
    ensures var s := NoticeChange(o, secretHash);
            SameProgress(o.status, s) && s.version == o.status.version && s.target == o.status.target
  {
  }

  /** A change of version is noticed: versions that differ do not only differ in their description. */
  predicate Recordable(from: Option<Version>, to: Option<Version>) {
    VersionEquals(from, to) ==> from == to
  }

  lemma ValidatedKeeps(s: Status, computed: Status, generation: int, c: Config, warning: Option<string>,
                       available: seq<Version>)
    requires computed == ComputedStatus(s, generation, c, warning, available)
    requires Recordable(s.version, c.migration.version)
    ensures var s1 := Validated(s, computed);
            SameProgress(s, s1) && s1.version == c.migration.version && s1.target == c.Digest()
  {
  }

  /** The same release, in the same channel, with the same attributes. */
  predicate SameRelease(a: Option<Version>, b: Option<Version>) {
    match (a, b)
    case (Some(x), Some(y)) => x.name == y.name && x.channel == y.channel && x.attributes == y.attributes
    case (None, None) => true
    case _ => false
  }

  /** Written or found equal, the status the later handlers see tells of the configuration: its hash,
      image, migration, phase, version and updates; validation is over, and the rest is as it was. */
  lemma StatusTellsConfig(s: Status, computed: Status, generation: int, c: Config, warning: Option<string>,
                          available: seq<Version>, i: nat)
    requires computed == ComputedStatus(s, generation, c, warning, available)
    ensures var r := Validated(s, computed);
            && r.observedGeneration == generation && r.target == c.Digest()
            && SameRelease(r.version, c.migration.version)
            && r.image == c.migration.image && r.migration == c.migration.migration && r.phase == c.migration.phase
            && |r.available| == |available|
            && (i < |available| ==> SameRelease(Some(r.available[i]), Some(available[i])))
            && Validating !in r.conditions && ValidatingFailed !in r.conditions
            && (ConfigWarning in r.conditions <==> warning.Some?)
            && (warning.Some? ==> r.Is(ConfigWarning) && r.conditions[ConfigWarning].detail == Words([warning.value]))
            && r.current == s.current && r.secretHash == s.secretHash
            && SameCondition(s, r, PreconditionsFailed) && SameProgress(s, r)
  {
  }

  /** The view is up to date. */
  ghost predicate CurrentView(w: World, v: View)
    requires w.Valid()
  {
    v.cluster == Last(w.clusters) && Current(v, SiteOf(w))
  }

  lemma StageKept(c: Config, x: Site, s1: Status, secretHash: string)
    requires SameProgress(x.status, s1) && s1.version == x.status.version && s1.target == c.Digest()
    ensures var before, after := Stage(c, x, secretHash), Stage(c, x.(status := s1), secretHash);
            after <= before
  {
  }

  /** The plan of a reconcile that gets past the first handlers, in its three parts. */
  lemma PlanParts(v: View, noticed: Status, c: Config, available: seq<Version>) returns (changed: bool, s1: Status)
    requires !v.cluster.paused && Credentials.SpecOk(v.cluster.spec.credentials)
    requires Recordable(noticed.version, c.migration.version)
    ensures ReconcileWith(v, noticed, Ok(c), Some(available)).writes
         == NoticeIf(ConfigChanged(v.cluster, v.secretHash), noticed) +
            (PatchIf(changed, s1) + CheckMigrations(v, c, s1).writes)
    ensures var computed := ComputedStatus(noticed, v.cluster.generation, c, v.cluster.spec.warning, available);
            s1 == Validated(noticed, computed) && changed == !StatusEquals(noticed, computed)
    ensures changed || s1 == noticed
    ensures SameProgress(noticed, s1) && s1.version == c.migration.version && s1.target == c.Digest()
  {
    var computed := ComputedStatus(noticed, v.cluster.generation, c, v.cluster.spec.warning, available);
    ValidatedKeeps(noticed, computed, v.cluster.generation, c, v.cluster.spec.warning, available);
    changed, s1 := !StatusEquals(noticed, computed), Validated(noticed, computed);
  }

  lemma StageNoticed(c: Config, x: Site, s1: Status, secretHash: string)
    requires SameProgress(x.status, s1) && s1.version == x.status.version && s1.target == x.status.target
    ensures Stage(c, x, secretHash) == Stage(c, x.(status := s1), secretHash)
  {
  }

  /** What is to be written before anything else: 2 a change to be noticed and then the configuration,
      1 the configuration, 0 nothing. */
  function Backlog(o: ClusterObject, c: Config, available: seq<Version>, secretHash: string): nat {
    if ConfigChanged(o, secretHash) then 2
    else if Validated(o.status, ComputedStatus(o.status, o.generation, c, o.spec.warning, available)) != o.status then 1
    else 0
  }

  lemma BacklogKept(o: ClusterObject, s: Status, c: Config, available: seq<Version>, secretHash: string)
    requires OnlyProgress(o.status, s)
    ensures Backlog(o.(status := s), c, available, secretHash) <= Backlog(o, c, available, secretHash)
  {
    assert SameCondition(o.status, s, PreconditionsFailed);
    if Backlog(o, c, available, secretHash) == 0 {
      ToldStays(o.status, s, o.generation, c, o.spec.warning, available);
    }
  }

  /** Progress does not make the recorded configuration look different. */
  lemma ToldStays(a: Status, b: Status, generation: int, c: Config, warning: Option<string>, available: seq<Version>)
    requires OnlyProgress(a, b)
    requires Validated(a, ComputedStatus(a, generation, c, warning, available)) == a
    ensures Validated(b, ComputedStatus(b, generation, c, warning, available)) == b
  {
    var x := ComputedStatus(a, generation, c, warning, available);
    var y := ComputedStatus(b, generation, c, warning, available);
    assert SameCondition(a, b, Validating) && SameCondition(a, b, ValidatingFailed);
    assert SameCondition(a, b, ConfigWarning);
    assert y.conditions == b.conditions by {
      assert x.conditions == a.conditions;
      ToldConditions(a, x, generation, c, warning, available);
      ToldConditions(b, y, generation, c, warning, available);
    }
  }

  lemma ToldConditions(s: Status, computed: Status, generation: int, c: Config, warning: Option<string>,
                       available: seq<Version>)
    requires computed == ComputedStatus(s, generation, c, warning, available)
    ensures computed.conditions == s.conditions <==>
              && Validating !in s.conditions && ValidatingFailed !in s.conditions
              && (if warning.Some? then
                    ConfigWarning in s.conditions &&
                    s.conditions[ConfigWarning] == Condition(true, OtherReason, Words([warning.value]))
                  else ConfigWarning !in s.conditions)
  {
  }

  lemma NoticedBacklog(o: ClusterObject, c: Config, available: seq<Version>, secretHash: string)
    ensures Backlog(o.(status := NoticeChange(o, secretHash)), c, available, secretHash) <= 1
  {
  }

  lemma RecordedBacklog(o: ClusterObject, s1: Status, c: Config, available: seq<Version>, secretHash: string)
    requires var noticed := NoticeChange(o, secretHash);
             s1 == Validated(noticed, ComputedStatus(noticed, o.generation, c, o.spec.warning, available))
    ensures Backlog(o.(status := s1), c, available, secretHash) == 0
  {
    NoticedBacklog(o, c, available, secretHash);
  }

  // ---- Between reconciles ----

  /** A job may still be under way, but it does not fail, and once complete it stays so. */
  predicate GoesOn(j: Job, later: Job) {
    && later.name == j.name && later.annotations == j.annotations
    && !HasCondition(later, JobFailed) && (HasCondition(j, JobComplete) ==> HasCondition(later, JobComplete))
  }

  /** Between reconciles jobs and the rollout go on, as far as they get. */
  ghost predicate Waits(x: Site, y: Site, replicas: int) {
    && y.status == x.status
    && y.jobs.Keys == x.jobs.Keys
    && (forall n :: n in y.jobs ==> GoesOn(x.jobs[n], y.jobs[n]))
    && y.deployments.Keys == x.deployments.Keys
    && (OwnDeployment in y.deployments ==>
          && y.deployments[OwnDeployment] == x.deployments[OwnDeployment]
             .(status := y.deployments[OwnDeployment].status)
          && (RolloutOver(x.deployments[OwnDeployment], replicas) ==>
                RolloutOver(y.deployments[OwnDeployment], replicas)))
  }

  /** What a reconcile may have to wait for is over: the job of the target and the rollout. */
  ghost predicate Settled(y: Site, replicas: int) {
    && (MigrateJob(y.status.target) in y.jobs ==> HasCondition(y.jobs[MigrateJob(y.status.target)], JobComplete))
    && (OwnDeployment in y.deployments ==> RolloutOver(y.deployments[OwnDeployment], replicas))
  }

  /** Waiting never loses a stage. */
  lemma WaitEffect(x: Site, y: Site, c: Config, secretHash: string)
    requires Healthy(x) && Waits(x, y, c.replicas)
    ensures Healthy(y) && Stage(c, y, secretHash) <= Stage(c, x, secretHash)
  {
  }

  /** And once there is nothing to wait for, no stage that waits is left. */
  lemma SettleEffect(x: Site, y: Site, c: Config, secretHash: string)
    requires Healthy(x) && Waits(x, y, c.replicas) && Settled(y, c.replicas) && y.status.target == c.Digest()
    ensures var k := Stage(c, y, secretHash);
            k <= Stage(c, x, secretHash) && k != 5 && k != 3
  {
  }
}
