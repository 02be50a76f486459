/** What the parts of a plan mean, told from what a reconcile reads: when each is there, what it writes,
    and whether the reconcile is to be repeated. */
module PlanMeaning {
  import opened Seqs
  import opened UpdateGraph
  import opened Cluster
  import Credentials
  import opened Controller
  import opened Cleanup

  /** The statuses differ at most in the conditions of the list. */
  ghost predicate OnlyConditions(a: Status, b: Status, ks: set<ConditionType>) {
    && b == a.(conditions := b.conditions)
    && forall k :: k !in ks ==> (k in a.conditions <==> k in b.conditions) &&
                                (k in a.conditions ==> a.conditions[k] == b.conditions[k])
  }

  // ---- A change is noticed ----

  predicate NoNotice(xs: seq<Write>) {
    forall x :: x in xs ==> !x.NoticeStatus?
  }

  lemma RollNotices(v: View, c: Config, s: Status, d: Deployment)
    ensures NoNotice(Roll(v, c, s, d).writes)
  {
    OnlyPodsCleaned(v.laterJobs, v.jobPods);
  }

  lemma DeployNotices(v: View, c: Config, s: Status)
    ensures NoNotice(Deploy(v, c, s).writes)
  {
    var matching := Rendering(v.deployments, RenderDeployment(c, v.secretHash));
    if |matching| == 1 {
      RollNotices(v, c, Migrated(s), matching[0]);
    }
  }

  lemma CheckNotices(v: View, c: Config, s: Status)
    ensures NoNotice(CheckMigrations(v, c, s).writes)
  {
    var job := JobFor(v.jobs, c.Digest());
    DeployNotices(v, c, s);
    if job.Some? {
      DeployNotices(v, c, s.Set(Migrating, MigratingCondition(c)));
    }
  }

  lemma ValidateNotices(v: View, s: Status, config: Result<Config, seq<ConfigError>>, available: Option<seq<Version>>)
    ensures NoNotice(Validate(v, s, config, available).writes)
  {
    if config.Ok? && available.Some? {
      var computed := ComputedStatus(s, v.cluster.generation, config.value, v.cluster.spec.warning, available.value);
      CheckNotices(v, config.value, Validated(s, computed));
    }
  }

  /** A new generation, another secret hash, or a missing secret. */
  predicate ChangeToNotice(o: ClusterObject, secretHash: string) {
    || o.generation != o.status.observedGeneration || secretHash != o.status.secretHash
    || (PreconditionsFailed in o.status.conditions && o.status.conditions[PreconditionsFailed].reason == MissingSecret)
  }

  /** A reconcile starts with a notice exactly when there is a change, and the notice records it. */
  lemma NoticeMeaning(op: Operator, v: View)
    requires !v.cluster.paused && Credentials.SpecOk(v.cluster.spec.credentials)
    ensures var xs, s := Reconcile(op, v).writes, v.cluster.status;
            && (xs != [] && xs[0].NoticeStatus? <==> ChangeToNotice(v.cluster, v.secretHash))
            && (ChangeToNotice(v.cluster, v.secretHash) ==>
                  var t := xs[0].status;
                  && t.observedGeneration == v.cluster.generation && t.secretHash == v.secretHash
                  && t.Is(Validating) && PreconditionsFailed !in t.conditions
                  && t.conditions[Validating].detail == Words([v.secretHash])
                  && OnlyConditions(s.(observedGeneration := t.observedGeneration, secretHash := t.secretHash), t,
                                    {Validating, PreconditionsFailed}))
  {
    var s := NoticeChange(v.cluster, v.secretHash);
    var config := ConfigFor(op, v.cluster.spec, s);
    ValidateNotices(v, s, config, AvailableFor(op, config));
  }

  // ---- An invalid configuration ----

  /** The failure is recorded unless it already is, and nothing else happens. */
  lemma RejectMeaning(s: Status, generation: int, failed: Condition)
    ensures var p := Reject(s, generation, failed);
            && p.outcome == Finished
            && (p.writes == [] <==>
                  ValidatingFailed in s.conditions && s.conditions[ValidatingFailed].detail == failed.detail)
            && (p.writes != [] ==>
                  && |p.writes| == 1 && p.writes[0].PatchStatus?
                  && var t := p.writes[0].status;
                     && t.observedGeneration == generation && Validating !in t.conditions
                     && ValidatingFailed in t.conditions && t.conditions[ValidatingFailed] == failed
                     && OnlyConditions(s.(observedGeneration := generation), t, {Validating, ValidatingFailed})
                     && Reject(t, generation, failed).writes == [])
  {
  }

  /** A faulty spec is the only thing a reconcile reports then, not even a change. */
  lemma FaultMeaning(op: Operator, v: View, fault: Credentials.SpecFault)
    requires !v.cluster.paused && Credentials.FaultOf(v.cluster.spec.credentials) == Some(fault)
    ensures var p, s, told := Reconcile(op, v), v.cluster.status, Errors("", [InvalidSpec(fault)]);
            && p.outcome == Finished
            && (p.writes == [] <==> ValidatingFailed in s.conditions && s.conditions[ValidatingFailed].detail == told)
            && (p.writes != [] ==>
                  && |p.writes| == 1 && p.writes[0].PatchStatus?
                  && p.writes[0].status.Is(ValidatingFailed)
                  && p.writes[0].status.conditions[ValidatingFailed].detail == told)
  {
    RejectMeaning(v.cluster.status, v.cluster.generation, InvalidConfig("", [InvalidSpec(fault)]));
  }

  /** Where the channel of the target has no source any more, nothing is written but the notice. */
  lemma UnknownUpdatesMeaning(op: Operator, v: View)
    requires !v.cluster.paused && Credentials.SpecOk(v.cluster.spec.credentials)
    requires var config := ConfigFor(op, v.cluster.spec, NoticeChange(v.cluster, v.secretHash));
             && config.Ok? && config.value.migration.version.Some?
             && SourceFor(op.graph, config.value.migration.engine, config.value.migration.version.value.channel).None?
    ensures var p := Reconcile(op, v);
            p.outcome == Requeued && |p.writes| == if ChangeToNotice(v.cluster, v.secretHash) then 1 else 0
  {
  }

  /** A forced image takes the place of a recorded version, and no updates are advertised with it. */
  lemma ForcedImageIsRecorded(op: Operator, v: View)
    requires !v.cluster.paused && Credentials.SpecOk(v.cluster.spec.credentials)
    requires !ChangeToNotice(v.cluster, v.secretHash) && v.cluster.status.version.Some?
    requires var config := ConfigFor(op, v.cluster.spec, v.cluster.status);
             config.Ok? && config.value.migration.version.None?
    ensures var xs := Reconcile(op, v).writes;
            && xs != [] && xs[0].PatchStatus? && xs[0].status.version == None && xs[0].status.available == []
  {
    var s := v.cluster.status;
    var config := ConfigFor(op, v.cluster.spec, s);
    ForcedPlan(v, s, config.value);
    var xs := Validate(v, s, config, Some([])).writes;
    assert Reconcile(op, v).writes == NoticeIf(false, s) + xs == xs;
  }

  lemma ForcedPlan(v: View, s: Status, c: Config)
    requires c.migration.version.None? && s.version.Some?
    ensures var xs := Validate(v, s, Ok(c), Some([])).writes;
            && xs != [] && xs[0].PatchStatus? && xs[0].status.version == None && xs[0].status.available == []
  {
    var computed := ComputedStatus(s, v.cluster.generation, c, v.cluster.spec.warning, []);
    assert !StatusEquals(s, computed);
  }

  lemma SameTargetAfterReject(op: Operator, spec: ClusterSpec, s: Status, t: Status)
    requires OnlyConditions(s.(observedGeneration := t.observedGeneration), t, {Validating, ValidatingFailed})
    ensures ConfigFor(op, spec, t) == ConfigFor(op, spec, s)
  {
    assert Migrating in s.conditions <==> Migrating in t.conditions;
    assert Rolling in s.conditions <==> Rolling in t.conditions;
    assert s.RolloutInProgress() == t.RolloutInProgress();
  }

  /** An invalid configuration is reported once: with the report recorded, the next reconcile writes
      nothing and is not repeated. */
  lemma InvalidIsReportedOnce(op: Operator, v: View, next: View)
    requires !v.cluster.paused && Credentials.SpecOk(v.cluster.spec.credentials)
    requires !ChangeToNotice(v.cluster, v.secretHash) && ConfigFor(op, v.cluster.spec, v.cluster.status).Err?
    requires next.secretHash == v.secretHash && next.cluster == v.cluster.(status := next.cluster.status)
    requires Reconcile(op, v).writes != [] ==> Reconcile(op, v).writes[0] == PatchStatus(next.cluster.status)
    requires Reconcile(op, v).writes == [] ==> next.cluster == v.cluster
    ensures Reconcile(op, next) == Plan([], Finished)
  {
    var s, t := v.cluster.status, next.cluster.status;
    var failed := InvalidConfig(v.secretHash, ConfigFor(op, v.cluster.spec, s).error);
    RejectMeaning(s, v.cluster.generation, failed);
    assert NoticeIf(false, s) + Reject(s, v.cluster.generation, failed).writes
        == Reject(s, v.cluster.generation, failed).writes;
    assert Reconcile(op, v).writes == Reject(s, v.cluster.generation, failed).writes;
    if Reconcile(op, v).writes != [] {
      SameTargetAfterReject(op, v.cluster.spec, s, t);
      assert PreconditionsFailed in s.conditions <==> PreconditionsFailed in t.conditions;
    }
    assert NoticeIf(false, t) + Reject(t, v.cluster.generation, failed).writes == [];
  }

  // ---- Which way a migration goes ----

  /** Migrations are switched off, the datastore is in memory, or the recorded version needs none. */
  predicate NoMigration(c: Config, s: Status) {
    || c.skipMigrations || c.migration.engine == "memory"
    || (s.version.Some? && Migration !in s.version.value.attributes)
  }

  /** Some deployment carries the hash of the configuration. */
  predicate Stamped(ds: seq<Deployment>, c: Config) {
    exists d :: d in ds && d.annotations.Some? && d.annotations.value.migration == Of(c.migration)
  }

  predicate NoJob(js: seq<Job>, c: Config) {
    forall j :: j in js ==> j.annotations != Some(Of(c.migration))
  }

  /** Place `i` holds the first job that carries the hash of the configuration. */
  predicate FirstJob(js: seq<Job>, c: Config, i: nat) {
    i < |js| && js[i].annotations == Some(Of(c.migration)) && NoJob(js[..i], c)
  }

  lemma {:induction false} FirstJobFound(js: seq<Job>, c: Config, i: nat)
    requires FirstJob(js, c, i)
    ensures JobFor(js, c.Digest()) == Some(js[i])
  {
    if i > 0 {
      assert js[0] in js[..i];
      assert js[1..][..i - 1] == js[..i][1..];
      FirstJobFound(js[1..], c, i - 1);
    }
  }

  lemma StampedFound(ds: seq<Deployment>, c: Config)
    ensures HasStamp(ds, c.Digest()) <==> Stamped(ds, c)
  {
  }

  /** With nothing to migrate, or a deployment that carries the hash, the deployment is next. */
  lemma ReadyMeaning(v: View, c: Config, s: Status)
    requires NoMigration(c, s) || Stamped(v.deployments, c)
    ensures CheckMigrations(v, c, s) == Deploy(v, c, s)
  {
    StampedFound(v.deployments, c);
  }

  /** Otherwise, without a job, one is started: the status says so first, and all other writes delete
      jobs. */
  lemma RunMeaning(v: View, c: Config, s: Status)
    requires !NoMigration(c, s) && !Stamped(v.deployments, c) && NoJob(v.jobs, c)
    ensures var p := CheckMigrations(v, c, s);
            && p.outcome == Requeued && |p.writes| >= 2
            && p.writes[0].PatchStatus? && p.writes[0].status.Is(Migrating)
            && p.writes[0].status.conditions[Migrating].detail == Words([c.migration.engine, c.migration.migration])
            && OnlyConditions(s, p.writes[0].status, {Migrating})
            && p.writes[1] == ApplyJob(Of(c.migration))
            && forall x :: x in p.writes[2..] ==> x.DeleteJob?
  {
    StampedFound(v.deployments, c);
  }

  /** With a job: a failed one pauses the cluster and tells why, a completed one lets the deployment go
      on, and any other is waited for. */
  lemma WaitMeaning(v: View, c: Config, s: Status, i: nat, k: nat)
    requires !NoMigration(c, s) && !Stamped(v.deployments, c) && FirstJob(v.jobs, c, i)
    ensures var cs, p := v.jobs[i].conditions, CheckMigrations(v, c, s);
            FirstCondition(cs, JobFailed, k) && cs[k].status ==>
              && p.outcome == Finished && |p.writes| == 1 && p.writes[0].SelfPause?
              && var t := p.writes[0].status;
                 && Migrating in t.conditions && !t.conditions[Migrating].status
                 && t.conditions[Migrating].detail == Words([c.migration.engine, "head", cs[k].message])
                 && OnlyConditions(s, t, {Migrating})
    ensures var cs, p := v.jobs[i].conditions, CheckMigrations(v, c, s);
            !Failing(cs) ==>
              if Completing(cs) then p == Deploy(v, c, s) else p.writes == [] && p.outcome == Requeued
  {
    StampedFound(v.deployments, c);
    FirstJobFound(v.jobs, c, i);
    var cs := v.jobs[i].conditions;
    if FirstCondition(cs, JobFailed, k) {
      FindMeaning(cs, JobFailed, k);
    }
    FirstHolds(cs, JobFailed);
    FirstHolds(cs, JobComplete);
  }

  /** The first condition of failure, or of completion, holds. */
  predicate Failing(cs: seq<JobCondition>) {
    exists k: nat :: k < |cs| && FirstCondition(cs, JobFailed, k) && cs[k].status
  }

  predicate Completing(cs: seq<JobCondition>) {
    exists k: nat :: k < |cs| && FirstCondition(cs, JobComplete, k) && cs[k].status
  }

  lemma {:induction false} FirstExists(cs: seq<JobCondition>, kind: JobConditionType) returns (k: nat)
    requires exists c :: c in cs && c.kind == kind
    ensures FirstCondition(cs, kind, k)
  {
    if cs[0].kind == kind {
      k := 0;
    } else {
      assert cs == [cs[0]] + cs[1..];
      k := FirstExists(cs[1..], kind);
      assert cs[1..][k] == cs[k + 1];
      assert forall j :: 0 < j < k + 1 ==> cs[j] == cs[1..][j - 1];
      k := k + 1;
    }
  }

  lemma FirstHolds(cs: seq<JobCondition>, kind: JobConditionType)
    ensures var found := FindCondition(cs, kind);
            found.Some? && found.value.status <==>
            exists k: nat :: k < |cs| && FirstCondition(cs, kind, k) && cs[k].status
  {
    var found := FindCondition(cs, kind);
    if found.Some? {
      var k := FirstExists(cs, kind);
      FindMeaning(cs, kind, k);
      forall j: nat | j < |cs| && FirstCondition(cs, kind, j) ensures j == k {
      }
    }
  }

  /** A migration job is applied exactly when one is needed and there is neither a job nor a deployment
      for the hash. */
  lemma JobIsAppliedExactly(v: View, c: Config, s: Status, h: Digest)
    ensures ApplyJob(h) in CheckMigrations(v, c, s).writes <==>
              && h == Of(c.migration) && !NoMigration(c, s) && !Stamped(v.deployments, c) && NoJob(v.jobs, c)
  {
    StampedFound(v.deployments, c);
    DeployStartsNoJob(v, c, s, h);
    if NoJob(v.jobs, c) && !NoMigration(c, s) && !Stamped(v.deployments, c) {
      RunMeaning(v, c, s);
      var writes := CheckMigrations(v, c, s).writes;
      assert writes == writes[..2] + writes[2..];
    }
  }

  lemma RollStartsNoJob(v: View, c: Config, s: Status, d: Deployment, h: Digest)
    ensures ApplyJob(h) !in Roll(v, c, s, d).writes
  {
    OnlyPodsCleaned(v.laterJobs, v.jobPods);
  }

  lemma DeployStartsNoJob(v: View, c: Config, s: Status, h: Digest)
    ensures ApplyJob(h) !in Deploy(v, c, s).writes
  {
    var matching := Rendering(v.deployments, RenderDeployment(c, v.secretHash));
    if |matching| == 1 {
      RollStartsNoJob(v, c, Migrated(s), matching[0], h);
    }
  }

  /** So a configuration that needs no migration never starts a job. */
  lemma ExemptStartsNoJob(op: Operator, v: View, h: Digest)
    requires var config := ConfigFor(op, v.cluster.spec, NoticeChange(v.cluster, v.secretHash));
             config.Ok? ==> NoMigration(config.value, v.cluster.status.(version := config.value.migration.version))
    ensures ApplyJob(h) !in Reconcile(op, v).writes
  {
    var s := NoticeChange(v.cluster, v.secretHash);
    var config := ConfigFor(op, v.cluster.spec, s);
    ExemptPlan(v, s, config, AvailableFor(op, config), h);
  }

  lemma ExemptPlan(v: View, s: Status, config: Result<Config, seq<ConfigError>>, available: Option<seq<Version>>,
                   h: Digest)
    requires config.Ok? ==> NoMigration(config.value, v.cluster.status.(version := config.value.migration.version))
    ensures ApplyJob(h) !in ReconcileWith(v, s, config, available).writes
  {
    if config.Ok? && available.Some? {
      var computed := ComputedStatus(s, v.cluster.generation, config.value, v.cluster.spec.warning, available.value);
      var s1 := Validated(s, computed);
      assert NoMigration(config.value, s1);
      assert ApplyJob(h) !in CheckMigrations(v, config.value, s1).writes by {
        JobIsAppliedExactly(v, config.value, s1, h);
      }
      assert ApplyJob(h) !in Validate(v, s, config, available).writes;
    }
  }

  // ---- Deployment ----

  /** The rendered deployment tells of the configuration and of the secrets. */
  lemma RenderMeaning(c: Config, secretHash: string)
    ensures var d := RenderDeployment(c, secretHash);
            && (d.stamp == if c.skipMigrations then Skipped else Of(c.migration))
            && d.image == c.migration.image && d.migration == c.migration.migration
            && d.secretHash == secretHash && d.replicas == c.replicas && d.rendering == c.rendering
            && (c.migration.version.Some? ==> d.versionName == c.migration.version.value.name)
  {
  }

  /** The end of a migration is recorded first: the hash is the target, nothing migrates, it rolls. */
  lemma DeployMeaning(v: View, c: Config, s: Status) returns (m: Status)
    ensures Deploy(v, c, s) == After(PatchIf(Migrating in s.conditions || s.current != s.target, m), Replace(v, c, m))
    ensures if Migrating in s.conditions || s.current != s.target then
              && m.current == s.target && Migrating !in m.conditions && m.Is(Rolling)
              && OnlyConditions(s.(current := s.target), m, {Migrating, Rolling})
            else m == s
  {
    m := Migrated(s);
  }

  predicate RendersIt(d: Deployment, spec: DeploymentSpec) {
    d.annotations.Some? && d.annotations.value.configHash == Some(spec)
  }

  lemma {:induction false} RenderingMember(ds: seq<Deployment>, spec: DeploymentSpec, d: Deployment)
    ensures d in Rendering(ds, spec) <==> d in ds && RendersIt(d, spec)
  {
    if ds != [] {
      RenderingMember(ds[..|ds| - 1], spec, d);
      assert ds == ds[..|ds| - 1] + [Last(ds)];
    }
  }

  lemma {:induction false} RenderingCount(ds: seq<Deployment>, spec: DeploymentSpec, i: nat, j: nat)
    requires i < j < |ds| && RendersIt(ds[i], spec) && RendersIt(ds[j], spec)
    ensures |Rendering(ds, spec)| > 1
  {
    var init := ds[..|ds| - 1];
    if j < |ds| - 1 {
      RenderingCount(init, spec, i, j);
    } else {
      RenderingMember(init, spec, init[i]);
      assert init[i] in Rendering(init, spec);
    }
  }

  /** Place `i` holds the only deployment rendered from the configuration. */
  predicate OnlyRendered(ds: seq<Deployment>, spec: DeploymentSpec, i: nat) {
    i < |ds| && forall j :: 0 <= j < |ds| ==> (RendersIt(ds[j], spec) <==> j == i)
  }

  lemma {:induction false} OnlyRenderedFound(ds: seq<Deployment>, spec: DeploymentSpec, i: nat)
    requires OnlyRendered(ds, spec, i)
    ensures Rendering(ds, spec) == [ds[i]]
  {
    var init := ds[..|ds| - 1];
    if i < |ds| - 1 {
      OnlyRenderedFound(init, spec, i);
    } else {
      NoneRenderedFound(init, spec);
    }
  }

  lemma {:induction false} NoneRenderedFound(ds: seq<Deployment>, spec: DeploymentSpec)
    requires forall d :: d in ds ==> !RendersIt(d, spec)
    ensures Rendering(ds, spec) == []
  {
    if ds != [] {
      assert Last(ds) in ds;
      NoneRenderedFound(ds[..|ds| - 1], spec);
    }
  }

  /** Without a rendered deployment it is applied; a refusal is told in the status, and the end of a
      former refusal, too. */
  lemma ApplyMeaning(v: View, c: Config, s: Status)
    requires forall d :: d in v.deployments ==> !RendersIt(d, RenderDeployment(c, v.secretHash))
    ensures var p := Replace(v, c, s);
            && p.outcome == Requeued
            && (!v.applyAccepted ==>
                  && |p.writes| == 1 && p.writes[0].PatchStatus?
                  && var t := p.writes[0].status;
                     t.Is(RolloutError) && t.conditions[RolloutError].reason == ApplyFailed
                     && OnlyConditions(s, t, {RolloutError}))
            && (v.applyAccepted ==>
                  var cleared := RolloutError in s.conditions && s.conditions[RolloutError].reason == ApplyFailed;
                  && |p.writes| == (if cleared then 2 else 1)
                  && p.writes[0] == ApplyDeployment(RenderDeployment(c, v.secretHash))
                  && (cleared ==> p.writes[1].PatchStatus? && RolloutError !in p.writes[1].status.conditions
                                  && OnlyConditions(s, p.writes[1].status, {RolloutError})))
  {
    NoneRenderedFound(v.deployments, RenderDeployment(c, v.secretHash));
  }

  /** With one, the others are deleted and it is waited for; with more, nothing is done. */
  lemma ReplaceMeaning(v: View, c: Config, s: Status, i: nat, n: ObjectName)
    requires OnlyRendered(v.deployments, RenderDeployment(c, v.secretHash), i)
    ensures var p, roll := Replace(v, c, s), Roll(v, c, s, v.deployments[i]);
            && p.outcome == roll.outcome && |roll.writes| <= |p.writes|
            && p.writes[|p.writes| - |roll.writes|..] == roll.writes
            && (forall x :: x in p.writes[..|p.writes| - |roll.writes|] ==> x.DeleteDeployment?)
            && (DeleteDeployment(n) in p.writes[..|p.writes| - |roll.writes|] <==>
                  exists d :: d in v.deployments && d.name == n && !RendersIt(d, RenderDeployment(c, v.secretHash)))
  {
    var spec := RenderDeployment(c, v.secretHash);
    OnlyRenderedFound(v.deployments, spec, i);
    var names := ExtraDeployments(v.deployments, spec);
    var p, roll := Replace(v, c, s), Roll(v, c, s, v.deployments[i]);
    assert p.writes == DeleteDeployments(names) + roll.writes;
    assert p.writes[..|p.writes| - |roll.writes|] == DeleteDeployments(names);
    ReplacedExactly(v.deployments, spec, n);
    if n in names {
      var k :| 0 <= k < |names| && names[k] == n;
      assert DeleteDeployments(names)[k] == DeleteDeployment(n);
    }
  }

  lemma AmbiguousMeaning(v: View, c: Config, s: Status, i: nat, j: nat)
    requires i < j < |v.deployments|
    requires RendersIt(v.deployments[i], RenderDeployment(c, v.secretHash))
    requires RendersIt(v.deployments[j], RenderDeployment(c, v.secretHash))
    ensures Replace(v, c, s) == Plan([], Requeued)
  {
    RenderingCount(v.deployments, RenderDeployment(c, v.secretHash), i, j);
  }

  // ---- Rollout ----

  /** The latest generation has been observed, and exactly the wanted number of replicas run, all of
      them updated and available. */
  predicate AllReplicasRun(d: Deployment, configured: int) {
    && d.status.observedGeneration == d.generation
    && d.status.updated == d.status.replicas == d.status.available
    && d.status.updated == (match d.replicas case Some(n) => n case None => configured)
  }

  /** No pod of the deployment reports a terminated container. */
  predicate NoPodFailure(v: View, d: Deployment) {
    d.status.unavailable <= 0 || forall cs, c :: cs in v.pods && c in cs ==> c == None
  }

  /** Without a failing pod, a rollout is reported under way, and the reconcile repeated, exactly when
      not all replicas run; otherwise its end is recorded, unless it already is, and cleanup follows. */
  lemma RollMeaning(v: View, c: Config, s: Status, d: Deployment)
    requires NoPodFailure(v, d)
    ensures var p := Roll(v, c, s, d);
            && (!AllReplicasRun(d, c.replicas) ==>
                  && p.outcome == Requeued && |p.writes| == 1 && p.writes[0].PatchStatus?
                  && var t, n := p.writes[0].status, d.status;
                     && t.Is(Rolling) && OnlyConditions(s, t, {Rolling})
                     && t.conditions[Rolling].detail
                        == Counts([n.available, n.ready, n.updated,
                                   match d.replicas case Some(k) => k case None => c.replicas,
                                   n.observedGeneration, d.generation]))
            && (AllReplicasRun(d, c.replicas) ==>
                  var clear := s.Is(Rolling) || s.Is(RolloutError);
                  && (forall x :: x in p.writes && Patches(x) ==> clear && x == p.writes[0])
                  && (clear ==>
                        && p.writes != [] && p.writes[0].PatchStatus?
                        && var t := p.writes[0].status;
                           && Rolling !in t.conditions && RolloutError !in t.conditions
                           && OnlyConditions(s, t, {Rolling, RolloutError}))
                  && p.outcome == CleanUp(v.laterJobs, v.jobPods, d).outcome)
            && ((exists x :: x in p.writes && Patches(x) && x.status.Is(Rolling)) <==> !AllReplicasRun(d, c.replicas))
  {
    OnlyPodsCleaned(v.laterJobs, v.jobPods);
    var p := Roll(v, c, s, d);
    if !AllReplicasRun(d, c.replicas) {
      assert p.writes[0] in p.writes;
    }
  }

  /** Container `j` of pod `i` is the first that has terminated. */
  predicate FirstFailure(pods: seq<Containers>, i: nat, j: nat) {
    && i < |pods| && j < |pods[i]| && pods[i][j].Some?
    && (forall k, c :: 0 <= k < i && c in pods[k] ==> c.None?) && (forall k :: 0 <= k < j ==> pods[i][k].None?)
  }

  lemma {:induction false} FirstTerminatedFound(cs: Containers, j: nat)
    requires j < |cs| && cs[j].Some? && forall k :: 0 <= k < j ==> cs[k].None?
    ensures FirstTerminated(cs) == cs[j]
  {
    if j > 0 {
      assert cs[0].None?;
      FirstTerminatedFound(cs[1..], j - 1);
    }
  }

  lemma {:induction false} FirstFailureFound(pods: seq<Containers>, i: nat, j: nat)
    requires FirstFailure(pods, i, j)
    ensures PodFailure(pods) == pods[i][j]
  {
    if i == 0 {
      FirstTerminatedFound(pods[0], j);
    } else {
      assert forall c :: c in pods[0] ==> c.None?;
      assert forall k :: 0 <= k < i - 1 ==> pods[1..][k] == pods[k + 1];
      FirstFailureFound(pods[1..], i - 1, j);
    }
  }

  /** A failing pod is told, with its message, and nothing else is done. */
  lemma PodFailureMeaning(v: View, c: Config, s: Status, d: Deployment, i: nat, j: nat)
    requires d.status.unavailable > 0 && FirstFailure(v.pods, i, j)
    ensures var p := Roll(v, c, s, d);
            && p.outcome == Requeued && |p.writes| == 1 && p.writes[0].PatchStatus?
            && var t := p.writes[0].status;
               && t.Is(RolloutError) && t.conditions[RolloutError].reason == PodError
               && t.conditions[RolloutError].detail == Words([v.pods[i][j].value])
               && OnlyConditions(s, t, {RolloutError})
  {
    FirstFailureFound(v.pods, i, j);
  }

  // ---- Cleanup ----

  /** Behind a finished rollout the jobs that completed the migration of the deployment are deleted, and
      pods of jobs that are gone; a pod of a listed job asks for another go. */
  lemma CleanUpMeaning(js: seq<Job>, pods: seq<Pod>, d: Deployment, n: ObjectName)
    ensures var p := CleanUp(js, pods, d);
            && (DeleteJob(n) in p.writes <==>
                  d.annotations.Some? && exists j :: j in js && j.name == n && Completing(j.conditions) &&
                                                     j.annotations == Some(d.annotations.value.migration))
            && (p.outcome == Requeued <==>
                  d.annotations.Some? && exists pod :: pod in pods && OfListedJob(js, pod))
            && forall x :: x in p.writes ==> x.DeleteJob? || x.DeletePod?
  {
    OnlyPodsCleaned(js, pods);
    if d.annotations.Some? {
      SpentJobsAreDeleted(js, pods, d, n);
      OrphansAreDeleted(js, pods, "");
      forall j | j in js ensures Spent(j, d) <==>
                 Completing(j.conditions) && j.annotations == Some(d.annotations.value.migration) {
        FirstHolds(j.conditions, JobComplete);
      }
    }
  }

  // ---- A rollout is not reported as over before it is ----

  /** The write goes on reporting a rollout, or some deployment rendered from the configuration has all
      its replicas running. */
  ghost predicate HonestAboutRollout(v: View, c: Config, x: Write) {
    Patches(x) && !x.status.Is(Rolling) ==>
      exists d :: d in v.deployments && RendersIt(d, RenderDeployment(c, v.secretHash)) && AllReplicasRun(d, c.replicas)
  }

  lemma RollIsHonest(v: View, c: Config, s: Status, d: Deployment, x: Write)
    requires s.Is(Rolling) && d in v.deployments && RendersIt(d, RenderDeployment(c, v.secretHash))
    requires x in Roll(v, c, s, d).writes
    ensures HonestAboutRollout(v, c, x)
  {
    OnlyPodsCleaned(v.laterJobs, v.jobPods);
  }

  lemma DeployIsHonest(v: View, c: Config, s: Status, x: Write)
    requires s.Is(Rolling) && x in Deploy(v, c, s).writes
    ensures HonestAboutRollout(v, c, x)
  {
    var m := Migrated(s);
    assert m.Is(Rolling);
    if x in Replace(v, c, m).writes {
      ReplaceIsHonest(v, c, m, x);
    }
  }

  lemma ReplaceIsHonest(v: View, c: Config, s: Status, x: Write)
    requires s.Is(Rolling) && x in Replace(v, c, s).writes
    ensures HonestAboutRollout(v, c, x)
  {
    var spec := RenderDeployment(c, v.secretHash);
    var matching := Rendering(v.deployments, spec);
    if |matching| == 0 {
      ApplyIsHonest(v, c, s, spec, x);
    } else if |matching| == 1 {
      RenderingMember(v.deployments, spec, matching[0]);
      if x in Roll(v, c, s, matching[0]).writes {
        RollIsHonest(v, c, s, matching[0], x);
      }
    }
  }

  lemma ApplyIsHonest(v: View, c: Config, s: Status, spec: DeploymentSpec, x: Write)
    requires s.Is(Rolling) && x in ApplyNew(v, spec, s).writes
    ensures HonestAboutRollout(v, c, x)
  {
  }

  lemma CheckIsHonest(v: View, c: Config, s: Status, x: Write)
    requires s.Is(Rolling) && x in CheckMigrations(v, c, s).writes
    ensures HonestAboutRollout(v, c, x)
  {
    if x in Deploy(v, c, s).writes {
      DeployIsHonest(v, c, s, x);
    } else if JobFor(v.jobs, c.Digest()).None? {
      RunIsHonest(v, c, s, x);
    }
  }

  lemma RunIsHonest(v: View, c: Config, s: Status, x: Write)
    requires s.Is(Rolling) && JobFor(v.jobs, c.Digest()).None?
    ensures x in RunMigration(v, c, s).writes ==> HonestAboutRollout(v, c, x)
  {
  }

  lemma RejectIsHonest(s: Status, generation: int, failed: Condition, x: Write)
    requires s.Is(Rolling) && x in Reject(s, generation, failed).writes
    ensures Patches(x) && x.status.Is(Rolling)
  {
  }

  lemma ValidateIsHonest(v: View, s: Status, config: Result<Config, seq<ConfigError>>, available: Option<seq<Version>>,
                         x: Write)
    requires s.Is(Rolling) && x in Validate(v, s, config, available).writes && Patches(x) && !x.status.Is(Rolling)
    ensures config.Ok? && HonestAboutRollout(v, config.value, x)
  {
    if config.Err? {
      RejectIsHonest(s, v.cluster.generation, InvalidConfig(v.secretHash, config.error), x);
    } else if available.Some? {
      var computed := ComputedStatus(s, v.cluster.generation, config.value, v.cluster.spec.warning, available.value);
      assert computed.Is(Rolling) && Validated(s, computed).Is(Rolling);
      CheckIsHonest(v, config.value, Validated(s, computed), x);
    }
  }

  /** Whatever a reconcile writes to a cluster that is rolling out, it takes that back only with a
      deployment in view that is rendered from its configuration and whose replicas all run. */
  lemma RolloutEndsWhenDone(op: Operator, v: View, x: Write)
    requires v.cluster.status.Is(Rolling) && x in Reconcile(op, v).writes && Patches(x) && !x.status.Is(Rolling)
    ensures var config := ConfigFor(op, v.cluster.spec, NoticeChange(v.cluster, v.secretHash));
            config.Ok? && HonestAboutRollout(v, config.value, x)
  {
    var s := NoticeChange(v.cluster, v.secretHash);
    var config := ConfigFor(op, v.cluster.spec, s);
    ReconcileIsHonest(v, s, config, AvailableFor(op, config), x);
  }

  lemma ReconcileIsHonest(v: View, s: Status, config: Result<Config, seq<ConfigError>>,
                          available: Option<seq<Version>>, x: Write)
    requires s == NoticeChange(v.cluster, v.secretHash) && v.cluster.status.Is(Rolling)
    requires x in ReconcileWith(v, s, config, available).writes && Patches(x) && !x.status.Is(Rolling)
    ensures config.Ok? && HonestAboutRollout(v, config.value, x)
  {
    assert s.Is(Rolling);
    var fault := Credentials.FaultOf(v.cluster.spec.credentials);
    if fault.None? {
      assert x !in NoticeIf(ConfigChanged(v.cluster, v.secretHash), s);
      ValidateIsHonest(v, s, config, available, x);
    }
  }
}
