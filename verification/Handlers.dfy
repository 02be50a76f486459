/** The chain of handlers of one reconcile, as it works on the status of the cluster in place and
    attempts its writes one by one, giving up at the first one the API server refuses. */
module Handlers {
  import opened Seqs
  import opened UpdateGraph
  import AvailableVersions
  import opened Cluster
  import opened Controller
  import Credentials

  /** The status last sent to the API server. */
  function LastStatus(s: Status, xs: seq<Write>): Status {
    if xs == [] then s
    else match Last(xs)
      case NoticeStatus(t) => t
      case PatchStatus(t) => t
      case SelfPause(t) => t
      case _ => LastStatus(s, xs[..|xs| - 1])
  }

  /** Every write of the plan was accepted, or it was attempted up to the one that was refused. */
  predicate Did(failAt: nat, before: seq<Write>, p: Plan, after: seq<Write>, outcome: Outcome) {
    || (after == before + p.writes && |after| <= failAt && outcome == p.outcome)
    || (after <= before + p.writes && |after| == failAt + 1 && outcome == Requeued)
  }

  lemma DidAfter(failAt: nat, before: seq<Write>, ws: seq<Write>, p: Plan, after: seq<Write>, outcome: Outcome)
    requires Did(failAt, before + ws, p, after, outcome)
    ensures Did(failAt, before, After(ws, p), after, outcome)
  {
    assert before + (ws + p.writes) == (before + ws) + p.writes;
  }

  /** A refusal within the first writes of a plan. */
  lemma Refused(failAt: nat, before: seq<Write>, ws: seq<Write>, p: Plan, after: seq<Write>)
    requires after <= before + ws && |after| == failAt + 1
    ensures Did(failAt, before, After(ws, p), after, Requeued)
  {
    assert before + (ws + p.writes) == (before + ws) + p.writes;
  }

  class Reconciler {
    const op: Operator
    const v: View
    const failAt: nat          // how many writes are accepted before one is refused
    var status: Status         // the status of the cluster, as handlers update it
    var attempted: seq<Write>  // the writes so far, in order

    ghost predicate Valid()
      reads this
    {
      |attempted| <= failAt + 1 && status == LastStatus(v.cluster.status, attempted)
    }

    /** No write has been refused. */
    ghost predicate Going()
      reads this
    {
      Valid() && |attempted| <= failAt
    }

    constructor (op: Operator, v: View, failAt: nat)
      ensures this.op == op && this.v == v && this.failAt == failAt
      ensures Going() && attempted == [] && status == v.cluster.status
    {
      this.op, this.v, this.failAt := op, v, failAt;
      status, attempted := v.cluster.status, [];
    }

    // ---- Writes ----

    /** Sends the status as it now is, locked on the cluster that was read. */
    method Patch() returns (ok: bool)
      requires |attempted| <= failAt
      modifies this`attempted
      ensures Valid() && attempted == old(attempted) + [PatchStatus(status)]
      ensures ok <==> Going()
    {
      attempted := attempted + [PatchStatus(status)];
      ok := |attempted| <= failAt;
    }

    /** Sends the status as it now is, without the resource version. */
    method Notice() returns (ok: bool)
      requires |attempted| <= failAt
      modifies this`attempted
      ensures Valid() && attempted == old(attempted) + [NoticeStatus(status)]
      ensures ok <==> Going()
    {
      attempted := attempted + [NoticeStatus(status)];
      ok := |attempted| <= failAt;
    }

    method Attempt(x: Write) returns (ok: bool)
      requires Going() && !Patches(x)
      modifies this`attempted
      ensures Valid() && attempted == old(attempted) + [x]
      ensures ok <==> Going()
    {
      assert (attempted + [x])[..|attempted|] == attempted;
      attempted := attempted + [x];
      ok := |attempted| <= failAt;
    }

    // ---- The chain ----

    /** One reconcile: the plan, carried out or cut short at the refused write. */
    method Handle() returns (outcome: Outcome)
      requires Going() && attempted == [] && status == v.cluster.status
      modifies this
      ensures Valid() && Did(failAt, [], Reconcile(op, v), attempted, outcome)
    {
      if v.cluster.paused {
        return Finished;
      }
      outcome := CheckSpec();
    }

    method CheckSpec() returns (outcome: Outcome)
      requires Going() && status == v.cluster.status && !v.cluster.paused
      modifies this
      ensures Valid() && Did(failAt, old(attempted), Reconcile(op, v), attempted, outcome)
    {
      var fault := Credentials.ValidateSpec(v.cluster.spec.credentials);
      if fault.Some? {
        outcome := ReportInvalid(InvalidConfig("", [InvalidSpec(fault.value)]));
        return;
      }
      outcome := NoticeConfigChange();
    }

    method NoticeConfigChange() returns (outcome: Outcome)
      requires Going() && status == v.cluster.status && !v.cluster.paused
      requires Credentials.SpecOk(v.cluster.spec.credentials)
      modifies this
      ensures Valid() && Did(failAt, old(attempted), Reconcile(op, v), attempted, outcome)
    {
      var cluster := v.cluster;
      ghost var before := attempted;
      ghost var noticed := NoticeChange(cluster, v.secretHash);
      ghost var config := ConfigFor(op, cluster.spec, noticed);
      ghost var rest := Validate(v, noticed, config, AvailableFor(op, config));
      if cluster.generation != status.observedGeneration || v.secretHash != status.secretHash
         || (PreconditionsFailed in status.conditions && status.conditions[PreconditionsFailed].reason.MissingSecret?)
      {
        status := status.(observedGeneration := cluster.generation);
        status := status.(secretHash := v.secretHash);
        status := status.Remove(PreconditionsFailed);
        status := status.Set(Validating, VALIDATING.(detail := Words([v.secretHash])));
        var ok := Notice();
        if !ok {
          Refused(failAt, before, [NoticeStatus(noticed)], rest, attempted);
          return Requeued;
        }
      }
      ghost var patch := NoticeIf(ConfigChanged(cluster, v.secretHash), noticed);
      assert attempted == before + patch;
      outcome := ValidateConfig();
      DidAfter(failAt, before, patch, rest, attempted, outcome);
    }

    method ValidateConfig() returns (outcome: Outcome)
      requires Going()
      modifies this
      ensures Valid()
      ensures var config := ConfigFor(op, v.cluster.spec, old(status));
              var plan := Validate(v, old(status), config, AvailableFor(op, config));
              Did(failAt, old(attempted), plan, attempted, outcome)
    {
      var config := NewConfig(op, v.cluster.spec, status);
      if config.Err? {
        outcome := ReportInvalid(InvalidConfig(v.secretHash, config.error));
        return;
      }
      var available := [];
      if config.value.migration.version.Some? {
        var found := AvailableVersions.AvailableVersions(op.graph, config.value.migration.engine,
                                                         config.value.migration.version.value);
        if found.None? {
          return Requeued;
        }
        available := found.value;
      }
      outcome := RecordValid(config.value, available);
    }

    method ReportInvalid(failed: Condition) returns (outcome: Outcome)
      requires Going()
      modifies this
      ensures Valid()
      ensures Did(failAt, old(attempted), Reject(old(status), v.cluster.generation, failed), attempted, outcome)
    {
      if ValidatingFailed in status.conditions && status.conditions[ValidatingFailed].detail == failed.detail {
        return Finished;
      }
      status := status.(observedGeneration := v.cluster.generation);
      status := status.Remove(Validating);
      status := status.Set(ValidatingFailed, failed);
      var ok := Patch();
      outcome := if ok then Finished else Requeued;
    }

    method RecordValid(c: Config, available: seq<Version>) returns (outcome: Outcome)
      requires Going()
      modifies this
      ensures Valid()
      ensures Did(failAt, old(attempted), Validate(v, old(status), Ok(c), Some(available)), attempted, outcome)
    {
      ghost var before, s := attempted, status;
      var computed := status.(observedGeneration := v.cluster.generation, target := c.Digest(),
                              image := c.migration.image, migration := c.migration.migration,
                              phase := c.migration.phase, version := c.migration.version, available := available);
      computed := computed.Remove(ValidatingFailed);
      computed := computed.Remove(Validating);
      if v.cluster.spec.warning.Some? {
        computed := computed.Set(ConfigWarning, Condition(true, OtherReason, Words([v.cluster.spec.warning.value])));
      } else {
        computed := computed.Remove(ConfigWarning);
      }
      assert computed == ComputedStatus(s, v.cluster.generation, c, v.cluster.spec.warning, available);
      ghost var rest := CheckMigrations(v, c, Validated(s, computed));
      if !StatusEquals(status, computed) {
        status := computed;
        var ok := Patch();
        if !ok {
          Refused(failAt, before, [PatchStatus(computed)], rest, attempted);
          return Requeued;
        }
      }
      ghost var patch := PatchIf(!StatusEquals(s, computed), computed);
      assert attempted == before + patch;
      outcome := DispatchMigrations(c);
      DidAfter(failAt, before, patch, rest, attempted, outcome);
    }

    // ---- Migrations ----

    method DispatchMigrations(c: Config) returns (outcome: Outcome)
      requires Going()
      modifies this
      ensures Valid() && Did(failAt, old(attempted), CheckMigrations(v, c, old(status)), attempted, outcome)
    {
      var h := c.Digest();
      var hasDeployment := FindStamp(v.deployments, h);
      var job := FindJob(v.jobs, h);
      if c.skipMigrations || c.migration.engine == "memory" {
        outcome := EnsureDeployment(c);
        return;
      }
      if status.version.Some? && Migration !in status.version.value.attributes {
        outcome := EnsureDeployment(c);
        return;
      }
      if !hasDeployment && job.None? {
        outcome := StartMigration(c);
        return;
      }
      if job.Some? && !hasDeployment {
        outcome := AwaitMigration(c, job.value);
        return;
      }
      outcome := EnsureDeployment(c);
    }

    method StartMigration(c: Config) returns (outcome: Outcome)
      requires Going()
      modifies this
      ensures Valid() && Did(failAt, old(attempted), RunMigration(v, c, old(status)), attempted, outcome)
    {
      var h := c.Digest();
      ghost var before := attempted;
      ghost var migrating := status.Set(Migrating, MigratingCondition(c));
      ghost var job := JobFor(v.jobs, h);
      ghost var applied := [PatchStatus(migrating)] + (if job.None? then [ApplyJob(h)] else []);
      ghost var rest := if job.None? then Plan([], Requeued) else WaitForMigration(v, c, migrating, job.value);
      status := status.Set(Migrating, MigratingCondition(c));
      var ok := Patch();
      var matching, extra := SplitJobs(v.jobs, h);
      ghost var deletes := DeleteJobs(extra);
      ghost var writes := applied + deletes;
      if !ok {
        Refused(failAt, before, writes, rest, attempted);
        return Requeued;
      }
      if |matching| == 0 {
        ok := Attempt(ApplyJob(h));
        if !ok {
          assert attempted == before + applied;
          Refused(failAt, before, writes, rest, attempted);
          return Requeued;
        }
      }
      assert attempted == before + applied;
      ok := DeleteAllJobs(extra);
      if !ok {
        assert (before + applied) + deletes == before + writes;
        Refused(failAt, before, writes, rest, attempted);
        return Requeued;
      }
      assert attempted == before + writes;
      if |matching| >= 1 {
        outcome := AwaitMigration(c, matching[0]);
      } else {
        outcome := Requeued;
      }
      DidAfter(failAt, before, writes, rest, attempted, outcome);
    }

    method DeleteAllJobs(names: seq<ObjectName>) returns (ok: bool)
      requires Going()
      modifies this`attempted
      ensures Valid() && (ok <==> Going())
      ensures ok ==> attempted == old(attempted) + DeleteJobs(names)
      ensures !ok ==> attempted <= old(attempted) + DeleteJobs(names)
    {
      for i := 0 to |names|
        invariant Going() && attempted == old(attempted) + DeleteJobs(names)[..i]
      {
        ok := Attempt(DeleteJob(names[i]));
        assert DeleteJobs(names)[..i] + [DeleteJob(names[i])] == DeleteJobs(names)[..i + 1];
        if !ok {
          return;
        }
      }
      ok := true;
    }

    method AwaitMigration(c: Config, job: Job) returns (outcome: Outcome)
      requires Going()
      modifies this
      ensures Valid() && Did(failAt, old(attempted), WaitForMigration(v, c, old(status), job), attempted, outcome)
    {
      var failed := FindJobCondition(job, JobFailed);
      if failed.Some? && failed.value.status {
        status := status.Set(Migrating, FailedMigration(c, failed.value.message));
        attempted := attempted + [SelfPause(status)];
        return if |attempted| <= failAt then Finished else Requeued;
      }
      var complete := JobConditionHolds(job, JobComplete);
      if complete {
        outcome := EnsureDeployment(c);
        return;
      }
      outcome := Requeued;
    }

    // ---- Deployment ----

    method EnsureDeployment(c: Config) returns (outcome: Outcome)
      requires Going()
      modifies this
      ensures Valid() && Did(failAt, old(attempted), Deploy(v, c, old(status)), attempted, outcome)
    {
      ghost var before, s := attempted, status;
      ghost var m := Migrated(s);
      var spec := RenderDeployment(c, v.secretHash);
      ghost var rest := Replace(v, c, m);
      if Migrating in status.conditions || status.current != status.target {
        status := status.Remove(Migrating);
        status := status.(current := status.target);
        status := status.Set(Rolling, Condition(true, OtherReason, Words([])));
        var ok := Patch();
        if !ok {
          Refused(failAt, before, [PatchStatus(m)], rest, attempted);
          return Requeued;
        }
      }
      assert attempted == before + PatchIf(MigrationPending(s), m);
      outcome := ReplaceDeployment(c, spec);
      DidAfter(failAt, before, PatchIf(MigrationPending(s), m), rest, attempted, outcome);
    }

    method ReplaceDeployment(c: Config, spec: DeploymentSpec) returns (outcome: Outcome)
      requires Going() && spec == RenderDeployment(c, v.secretHash)
      modifies this
      ensures Valid() && Did(failAt, old(attempted), Replace(v, c, old(status)), attempted, outcome)
    {
      var matching, extra := SplitDeployments(v.deployments, spec);
      if |matching| == 1 {
        ghost var before, deletes := attempted, DeleteDeployments(extra);
        ghost var rest := Roll(v, c, status, matching[0]);
        var ok := DeleteAllDeployments(extra);
        if !ok {
          Refused(failAt, before, deletes, rest, attempted);
          return Requeued;
        }
        outcome := AwaitRollout(c, matching[0]);
        DidAfter(failAt, before, deletes, rest, attempted, outcome);
      } else if |matching| == 0 {
        outcome := ApplyFirst(spec);
      } else {
        outcome := Requeued;
      }
    }

    method DeleteAllDeployments(names: seq<ObjectName>) returns (ok: bool)
      requires Going()
      modifies this`attempted
      ensures Valid() && (ok <==> Going())
      ensures ok ==> attempted == old(attempted) + DeleteDeployments(names)
      ensures !ok ==> attempted <= old(attempted) + DeleteDeployments(names)
    {
      for i := 0 to |names|
        invariant Going() && attempted == old(attempted) + DeleteDeployments(names)[..i]
      {
        ok := Attempt(DeleteDeployment(names[i]));
        assert DeleteDeployments(names)[..i] + [DeleteDeployment(names[i])] == DeleteDeployments(names)[..i + 1];
        if !ok {
          return;
        }
      }
      ok := true;
    }

    method ApplyFirst(spec: DeploymentSpec) returns (outcome: Outcome)
      requires Going()
      modifies this
      ensures Valid() && Did(failAt, old(attempted), ApplyNew(v, spec, old(status)), attempted, outcome)
    {
      if !v.applyAccepted {
        status := status.Set(RolloutError, Condition(true, ApplyFailed, Words([])));
        var _ := Patch();
        return Requeued;
      }
      ghost var before := attempted;
      var ok := Attempt(ApplyDeployment(spec));
      if ok && RolloutError in status.conditions && status.conditions[RolloutError].reason.ApplyFailed? {
        status := status.Remove(RolloutError);
        var _ := Patch();
      }
      outcome := Requeued;
    }

    method AwaitRollout(c: Config, d: Deployment) returns (outcome: Outcome)
      requires Going()
      modifies this
      ensures Valid() && Did(failAt, old(attempted), Roll(v, c, old(status), d), attempted, outcome)
    {
      if d.status.unavailable > 0 {
        var failure := FindPodFailure(v.pods);
        if failure.Some? {
          status := status.Set(RolloutError, Condition(true, PodError, Words([failure.value])));
          var _ := Patch();
          return Requeued;
        }
      }
      var desired := DesiredReplicas(d, c.replicas);
      if !RolloutComplete(d, desired) {
        status := status.Set(Rolling, RollingCounts(d, desired));
        var _ := Patch();
        return Requeued;
      }
      ghost var before, s := attempted, status;
      ghost var cleared := s.Remove(Rolling).Remove(RolloutError);
      ghost var rest := CleanUp(v.laterJobs, v.jobPods, d);
      if status.Is(Rolling) || status.Is(RolloutError) {
        status := status.Remove(Rolling);
        status := status.Remove(RolloutError);
        var ok := Patch();
        if !ok {
          Refused(failAt, before, [PatchStatus(cleared)], rest, attempted);
          return Requeued;
        }
      }
      assert attempted == before + PatchIf(s.Is(Rolling) || s.Is(RolloutError), cleared);
      outcome := CleanUpJobs(d);
      DidAfter(failAt, before, PatchIf(s.Is(Rolling) || s.Is(RolloutError), cleared), rest, attempted, outcome);
    }

    // ---- Cleanup ----

    method CleanUpJobs(d: Deployment) returns (outcome: Outcome)
      requires Going()
      modifies this`attempted
      ensures Valid() && Did(failAt, old(attempted), CleanUp(v.laterJobs, v.jobPods, d), attempted, outcome)
    {
      var jobs, pods := v.laterJobs, v.jobPods;
      if d.annotations.None? || |jobs| + |pods| == 0 {
        return Finished;
      }
      ghost var before, deletes := attempted, DeleteJobs(SpentJobs(jobs, d));
      var ok, names := DeleteSpentJobs(jobs, d);
      if !ok {
        Refused(failAt, before, deletes, CleanPods(jobs, pods), attempted);
        return Requeued;
      }
      outcome := DeleteOrphans(names, pods);
      DidAfter(failAt, before, deletes, CleanPods(jobs, pods), attempted, outcome);
    }

    method DeleteIfSpent(j: Job, d: Deployment) returns (ok: bool)
      requires Going() && d.annotations.Some?
      modifies this`attempted
      ensures Valid() && (ok <==> Going())
      ensures attempted == old(attempted) + (if Spent(j, d) then [DeleteJob(j.name)] else [])
    {
      ok := true;
      if j.annotations.Some? && j.Requirement() == d.Stamp() {
        var complete := JobConditionHolds(j, JobComplete);
        if complete {
          ok := Attempt(DeleteJob(j.name));
        }
      }
    }

    method DeleteSpentJobs(jobs: seq<Job>, d: Deployment) returns (ok: bool, names: set<ObjectName>)
      requires Going() && d.annotations.Some?
      modifies this`attempted
      ensures Valid() && (ok <==> Going())
      ensures ok ==> attempted == old(attempted) + DeleteJobs(SpentJobs(jobs, d)) && names == Names(jobs)
      ensures !ok ==> attempted <= old(attempted) + DeleteJobs(SpentJobs(jobs, d))
    {
      names := {};
      for i := 0 to |jobs|
        invariant Going() && attempted == old(attempted) + DeleteJobs(SpentJobs(jobs[..i], d))
        invariant names == Names(jobs[..i])
      {
        SpentStep(jobs, d, i);
        names := names + {jobs[i].name};
        ok := DeleteIfSpent(jobs[i], d);
        if !ok {
          SpentPrefix(jobs, d, i + 1);
          return;
        }
      }
      assert jobs[..|jobs|] == jobs;
      ok := true;
    }

    method DeleteOrphans(names: set<ObjectName>, pods: seq<Pod>) returns (outcome: Outcome)
      requires Going() && names == Names(v.laterJobs)
      modifies this`attempted
      ensures Valid() && Did(failAt, old(attempted), CleanPods(v.laterJobs, pods), attempted, outcome)
    {
      ghost var before := attempted;
      for i := 0 to |pods|
        invariant Going() && before <= attempted
        invariant CleanPods(v.laterJobs, pods) == After(attempted[|before|..], CleanPods(v.laterJobs, pods[i..]))
      {
        var p := pods[i];
        assert pods[i..][1..] == pods[i + 1..];
        if p.jobName.Some? {
          if p.jobName.value in names {
            assert attempted == before + attempted[|before|..];
            return Requeued;
          }
          ghost var sofar := attempted[|before|..];
          ghost var rest := CleanPods(v.laterJobs, pods[i + 1..]);
          assert sofar + ([DeletePod(p.name)] + rest.writes) == (sofar + [DeletePod(p.name)]) + rest.writes;
          var ok := Attempt(DeletePod(p.name));
          assert attempted[|before|..] == sofar + [DeletePod(p.name)];
          if !ok {
            Refused(failAt, before, attempted[|before|..], rest, attempted);
            return Requeued;
          }
        }
      }
      assert attempted == before + attempted[|before|..];
      outcome := Finished;
    }
  }

  // ---- Searches ----

  method FindStamp(ds: seq<Deployment>, h: Digest) returns (found: bool)
    ensures found <==> HasStamp(ds, h)
  {
    for i := 0 to |ds|
      invariant !HasStamp(ds[..i], h)
    {
      if ds[i].annotations.Some? && ds[i].Stamp() == h {
        assert ds[i] in ds;
        return true;
      }
    }
    assert ds[..|ds|] == ds;
    found := false;
  }

  method FindJob(js: seq<Job>, h: Digest) returns (job: Option<Job>)
    ensures job == JobFor(js, h)
  {
    for i := 0 to |js|
      invariant JobFor(js, h) == JobFor(js[i..], h)
    {
      if js[i].annotations.Some? && js[i].Requirement() == h {
        return Some(js[i]);
      }
      assert js[i..][1..] == js[i + 1..];
    }
    job := None;
  }

  /** The message of the first container, in the first pod, that has terminated. */
  method FindPodFailure(pods: seq<Containers>) returns (failure: Option<string>)
    ensures failure == PodFailure(pods)
  {
    for i := 0 to |pods|
      invariant PodFailure(pods) == PodFailure(pods[i..])
    {
      assert pods[i..][1..] == pods[i + 1..];
      for j := 0 to |pods[i]|
        invariant FirstTerminated(pods[i]) == FirstTerminated(pods[i][j..])
      {
        if pods[i][j].Some? {
          return pods[i][j];
        }
        assert pods[i][j..][1..] == pods[i][j + 1..];
      }
    }
    failure := None;
  }

  /** The jobs that carry the hash and the names of the others. */
  method SplitJobs(js: seq<Job>, h: Digest) returns (matching: seq<Job>, extra: seq<ObjectName>)
    requires h.Of?
    ensures extra == ExtraJobs(js, h)
    ensures JobFor(js, h) == if matching == [] then None else Some(matching[0])
  {
    matching, extra := [], [];
    for i := 0 to |js|
      invariant extra == ExtraJobs(js[..i], h)
      invariant JobFor(js, h) == if matching == [] then JobFor(js[i..], h) else Some(matching[0])
    {
      var j := js[i];
      assert js[..i + 1][..i] == js[..i] && js[i..][1..] == js[i + 1..];
      if j.annotations.None? {
        extra := extra + [j.name];
      }
      if j.Requirement() == h {
        matching := matching + [j];
      } else {
        extra := extra + [j.name];
      }
    }
    assert js[..|js|] == js;
  }

  /** The deployments rendered from the spec and the names of the others. */
  method SplitDeployments(ds: seq<Deployment>, spec: DeploymentSpec)
      returns (matching: seq<Deployment>, extra: seq<ObjectName>)
    ensures matching == Rendering(ds, spec) && extra == ExtraDeployments(ds, spec)
  {
    matching, extra := [], [];
    for i := 0 to |ds|
      invariant matching == Rendering(ds[..i], spec) && extra == ExtraDeployments(ds[..i], spec)
    {
      var d := ds[i];
      assert ds[..i + 1][..i] == ds[..i];
      if d.annotations.None? {
        extra := extra + [d.name];
      }
      if d.Renders(spec) {
        matching := matching + [d];
      } else {
        extra := extra + [d.name];
      }
    }
    assert ds[..|ds|] == ds;
  }

  function Names(js: seq<Job>): set<ObjectName> {
    set j | j in js :: j.name
  }

  lemma SpentStep(js: seq<Job>, d: Deployment, i: nat)
    requires i < |js|
    ensures Names(js[..i + 1]) == Names(js[..i]) + {js[i].name}
    ensures DeleteJobs(SpentJobs(js[..i + 1], d))
         == DeleteJobs(SpentJobs(js[..i], d)) + (if Spent(js[i], d) then [DeleteJob(js[i].name)] else [])
  {
    assert js[..i + 1][..i] == js[..i] && js[..i + 1] == js[..i] + [js[i]];
  }

  lemma {:induction false} SpentPrefix(js: seq<Job>, d: Deployment, i: nat)
    requires i <= |js|
    ensures DeleteJobs(SpentJobs(js[..i], d)) <= DeleteJobs(SpentJobs(js, d))
    decreases |js| - i
  {
    if i == |js| {
      assert js[..i] == js;
    } else {
      SpentPrefix(js, d, i + 1);
      assert js[..i + 1][..i] == js[..i];
    }
  }
}
