/** No deployment claims a migration that has not run. */
module MigrationSafety {
  import opened Seqs
  import opened UpdateGraph
  import opened Cluster
  import Credentials
  import opened Controller
  import opened Runs

  /** The configuration itself says that no job is needed. */
  predicate NeedsNoJob(c: MigrationConfig) {
    c.engine == "memory" || (c.version.Some? && Migration !in c.version.value.attributes)
  }

  ghost predicate ProvenBy(js: seq<Job>, c: MigrationConfig) {
    exists j :: j in js && Carries(j, Of(c)) && Succeeded(j)
  }

  // ---- One plan ----

  lemma DeployStamps(v: View, c: Config, s: Status, spec: DeploymentSpec)
    requires ApplyDeployment(spec) in Deploy(v, c, s).writes
    ensures spec.stamp == if c.skipMigrations then Skipped else Of(c.migration)
  {
    var m, spec' := Migrated(s), RenderDeployment(c, v.secretHash);
    var matching := Rendering(v.deployments, spec');
    if |matching| == 1 {
      RollApplies(v, c, m, matching[0]);
    }
  }

  lemma RollApplies(v: View, c: Config, s: Status, d: Deployment)
    ensures forall spec :: ApplyDeployment(spec) !in Roll(v, c, s, d).writes
  {
    OnlyPodsCleaned(v.laterJobs, v.jobPods);
  }

  /** A plan stamps a hash only with a deployment of that hash, a finished job or an exemption in view. */
  lemma PlanStamps(op: Operator, v: View, spec: DeploymentSpec)
    requires ApplyDeployment(spec) in Reconcile(op, v).writes && spec.stamp.Of?
    ensures var c := spec.stamp.config;
            NeedsNoJob(c) || HasStamp(v.deployments, Of(c)) || ProvenBy(v.jobs, c)
  {
    var s := NoticeChange(v.cluster, v.secretHash);
    var config := ConfigFor(op, v.cluster.spec, s);
    ValidateStamps(v, s, config, AvailableFor(op, config), spec);
  }

  lemma ValidateStamps(v: View, s: Status, config: Result<Config, seq<ConfigError>>,
                       available: Option<seq<Version>>, spec: DeploymentSpec)
    requires ApplyDeployment(spec) in ReconcileWith(v, s, config, available).writes && spec.stamp.Of?
    ensures var c := spec.stamp.config;
            NeedsNoJob(c) || HasStamp(v.deployments, Of(c)) || ProvenBy(v.jobs, c)
  {
    var computed := ComputedStatus(s, v.cluster.generation, config.value, v.cluster.spec.warning, available.value);
    CheckStamps(v, config.value, Validated(s, computed), spec);
  }

  lemma CheckStamps(v: View, c: Config, s: Status, spec: DeploymentSpec)
    requires VersionEquals(s.version, c.migration.version)
    requires ApplyDeployment(spec) in CheckMigrations(v, c, s).writes && spec.stamp.Of?
    ensures spec.stamp == Of(c.migration)
    ensures NeedsNoJob(c.migration) || HasStamp(v.deployments, spec.stamp) || ProvenBy(v.jobs, c.migration)
  {
    var h := c.Digest();
    var job := JobFor(v.jobs, h);
    if Exempt(c, s) || HasStamp(v.deployments, h) {
      DeployStamps(v, c, s, spec);
    } else if job.None? {
    } else {
      DeployStamps(v, c, s, spec);
    }
  }

  /** The reconcile gets past the first handlers. */
  predicate Admitted(v: View) {
    !v.cluster.paused && Credentials.SpecOk(v.cluster.spec.credentials)
  }

  /** With no proof in view, whatever deployments of skipped migrations there are, a configuration
      that needs its job is not deployed; the job is created unless it is there already. */
  lemma UnprovenRunsJob(op: Operator, v: View, c: Config)
    requires !c.skipMigrations && !NeedsNoJob(c.migration)
    requires ConfigFor(op, v.cluster.spec, NoticeChange(v.cluster, v.secretHash)) == Ok(c)
    requires AvailableFor(op, Ok(c)).Some?
    requires !HasStamp(v.deployments, c.Digest()) && !ProvenBy(v.jobs, c.migration)
    ensures forall spec :: ApplyDeployment(spec) !in Reconcile(op, v).writes
    ensures ApplyJob(c.Digest()) in Reconcile(op, v).writes <==> Admitted(v) && JobFor(v.jobs, c.Digest()).None?
  {
    ValidUnproven(v, NoticeChange(v.cluster, v.secretHash), c, AvailableFor(op, Ok(c)).value);
  }

  lemma ValidUnproven(v: View, s: Status, c: Config, available: seq<Version>)
    requires !c.skipMigrations && !NeedsNoJob(c.migration)
    requires !HasStamp(v.deployments, c.Digest()) && !ProvenBy(v.jobs, c.migration)
    ensures var writes := ReconcileWith(v, s, Ok(c), Some(available)).writes;
            && (forall spec :: ApplyDeployment(spec) !in writes)
            && (ApplyJob(c.Digest()) in writes <==> Admitted(v) && JobFor(v.jobs, c.Digest()).None?)
  {
    var computed := ComputedStatus(s, v.cluster.generation, c, v.cluster.spec.warning, available);
    var rest := CheckMigrations(v, c, Validated(s, computed)).writes;
    UnprovenWrites(v, c, Validated(s, computed));
    assert forall x :: x in rest || Patches(x) || x !in ReconcileWith(v, s, Ok(c), Some(available)).writes;
    assert Admitted(v) ==> forall x :: x in rest ==> x in ReconcileWith(v, s, Ok(c), Some(available)).writes;
  }

  lemma UnprovenWrites(v: View, c: Config, s: Status)
    requires VersionEquals(s.version, c.migration.version)
    requires !c.skipMigrations && !NeedsNoJob(c.migration)
    requires !HasStamp(v.deployments, c.Digest()) && !ProvenBy(v.jobs, c.migration)
    ensures var writes := CheckMigrations(v, c, s).writes;
            && (forall spec :: ApplyDeployment(spec) !in writes)
            && (ApplyJob(c.Digest()) in writes <==> JobFor(v.jobs, c.Digest()).None?)
  {
    var job := JobFor(v.jobs, c.Digest());
    if job.None? {
      var run := RunMigration(v, c, s).writes;
      assert run[1] == ApplyJob(c.Digest());
    } else {
      assert !Succeeded(job.value);
    }
  }

  // ---- Whole runs ----

  /** A job carrying the hash has succeeded by now. */
  ghost predicate Proven(w: World, c: MigrationConfig) {
    exists i, n :: 0 <= i < |w.jobs| && n in w.jobs[i] && Carries(w.jobs[i][n], Of(c)) && Succeeded(w.jobs[i][n])
  }

  ghost predicate Justified(w: World, stamp: Digest) {
    stamp.Of? ==> NeedsNoJob(stamp.config) || Proven(w, stamp.config)
  }

  ghost predicate StampsJustified(w: World, ds: Deployments) {
    forall n :: n in ds ==> Justified(w, ds[n].Stamp())
  }

  ghost predicate Safe(w: World) {
    && (forall i :: 0 <= i < |w.deployments| ==> StampsJustified(w, w.deployments[i]))
    && (forall spec :: ApplyDeployment(spec) in w.pending ==> Justified(w, spec.stamp))
  }

  lemma JustifiedLater(w: World, later: World, stamp: Digest)
    requires Extends(w, later) && Justified(w, stamp)
    ensures Justified(later, stamp)
  {
    if stamp.Of? && Proven(w, stamp.config) {
      var i, n :| 0 <= i < |w.jobs| && n in w.jobs[i] && Carries(w.jobs[i][n], stamp) && Succeeded(w.jobs[i][n]);
      assert later.jobs[i] == w.jobs[i];
    }
  }

  lemma MoveKeepsSafe(w: World, e: Event, plan: seq<Write>, w': World)
    requires Safe(w) && Moves(w, e, plan, w')
    requires e.Begin? ==> forall spec :: ApplyDeployment(spec) in plan ==> Justified(w, spec.stamp)
    ensures Safe(w')
  {
    MoveExtends(w, e, plan, w');
    forall stamp | Justified(w, stamp) ensures Justified(w', stamp) {
      JustifiedLater(w, w', stamp);
    }
    forall i | 0 <= i < |w'.deployments| ensures StampsJustified(w', w'.deployments[i]) {
      if i < |w.deployments| {
        assert StampsJustified(w, w.deployments[i]);
      } else {
        NewDeploymentsJustified(w, e, plan, w');
      }
    }
  }

  lemma NewDeploymentsJustified(w: World, e: Event, plan: seq<Write>, w': World)
    requires Safe(w) && Moves(w, e, plan, w') && |w'.deployments| > |w.deployments|
    ensures forall n :: n in Last(w'.deployments) ==> Justified(w, Last(w'.deployments)[n].Stamp())
  {
    assert StampsJustified(w, Last(w.deployments));
    if e.Advance? && w.pending[0].ApplyDeployment? {
      assert Justified(w, w.pending[0].spec.stamp);
    }
  }

  lemma StepKeepsSafe(op: Operator, w: World, e: Event, w': World)
    requires Safe(w) && Step(op, w, e, w')
    ensures Safe(w')
  {
    if e.Begin? {
      var plan := Reconcile(op, e.v).writes;
      forall spec | ApplyDeployment(spec) in plan ensures Justified(w, spec.stamp) {
        if spec.stamp.Of? {
          PlanJustified(op, w, e.v, spec);
        }
      }
      MoveKeepsSafe(w, e, plan, w');
    } else {
      MoveKeepsSafe(w, e, [], w');
    }
  }

  lemma PlanJustified(op: Operator, w: World, v: View, spec: DeploymentSpec)
    requires Safe(w) && Sees(w, v)
    requires ApplyDeployment(spec) in Reconcile(op, v).writes && spec.stamp.Of?
    ensures Justified(w, spec.stamp)
  {
    PlanStamps(op, v, spec);
    if HasStamp(v.deployments, spec.stamp) {
      var d :| d in v.deployments && d.annotations.Some? && d.Stamp() == spec.stamp;
      assert Existed(w, d);
      var i :| 0 <= i < |w.deployments| && d.name in w.deployments[i] && w.deployments[i][d.name] == d;
      assert StampsJustified(w, w.deployments[i]);
    } else if ProvenBy(v.jobs, spec.stamp.config) {
      var j :| j in v.jobs && Carries(j, spec.stamp) && Succeeded(j);
      assert JobExisted(w, j);
    }
  }

  /** Over every run, also when the operator is reconfigured: a deployment stamped with a migration
      hash exists only if, by that time, a job carrying the hash has succeeded, or the configuration of
      the hash itself needs none. A skipped migration and a failed job prove nothing. */
  lemma {:induction false} MigrationsPrecedeStamps(ops: seq<Operator>, ws: seq<World>, es: seq<Event>, k: nat)
    requires ReloadedRun(ops, ws, es) && Safe(ws[0]) && k < |ws|
    ensures Safe(ws[k])
  {
    if k > 0 {
      MigrationsPrecedeStamps(ops, ws, es, k - 1);
      assert StepAt(ops[k - 1], ws, es, k - 1);
      StepKeepsSafe(ops[k - 1], ws[k - 1], es[k - 1], ws[k]);
    }
  }
}
