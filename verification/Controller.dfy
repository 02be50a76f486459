/** One reconcile as a plan: the writes it issues to the API server, in order, given what it reads.
    An API error or a crash cuts the plan short; the writes before it stand. */
module Controller {
  import opened Seqs
  import opened UpdateGraph
  import opened AvailableVersions
  import opened Cluster
  import Credentials

  datatype Write =
    | NoticeStatus(status: Status)
    | PatchStatus(status: Status)
    | ApplyJob(h: Digest)
    | DeleteJob(job: ObjectName)
    | ApplyDeployment(spec: DeploymentSpec)
    | DeleteDeployment(deployment: ObjectName)
    | DeletePod(pod: string)
    | SelfPause(status: Status)

  /** Writes to the status of the cluster. */
  predicate Patches(x: Write) {
    x.NoticeStatus? || Locked(x)
  }

  /** A status is sent with the resource version of the cluster that was read, and refused once the
      cluster is another; only the notice of a change is sent without. */
  predicate Locked(x: Write) {
    x.PatchStatus? || x.SelfPause?
  }

  datatype Outcome = Finished | Requeued

  datatype Plan = Plan(writes: seq<Write>, outcome: Outcome)

  /** For each container of a pod, the message it last terminated with, if it did. */
  type Containers = seq<Option<string>>

  /** What a reconcile reads: cached objects, which may be stale, and what it meets on the way. */
  datatype View = View(cluster: ClusterObject, deployments: seq<Deployment>, jobs: seq<Job>,
                       laterJobs: seq<Job>, jobPods: seq<Pod>, pods: seq<Containers>,
                       secretHash: string, applyAccepted: bool)

  function After(writes: seq<Write>, p: Plan): Plan {
    p.(writes := writes + p.writes)
  }

  function PatchIf(changed: bool, s: Status): seq<Write> {
    if changed then [PatchStatus(s)] else []
  }

  // ---- Configuration change ----

  function NoticeIf(changed: bool, s: Status): seq<Write> {
    if changed then [NoticeStatus(s)] else []
  }

  const VALIDATING := Condition(true, OtherReason, Words([]))

  predicate ConfigChanged(o: ClusterObject, secretHash: string) {
    || o.generation != o.status.observedGeneration
    || secretHash != o.status.secretHash
    || (PreconditionsFailed in o.status.conditions && o.status.conditions[PreconditionsFailed].reason.MissingSecret?)
  }

  function NoticeChange(o: ClusterObject, secretHash: string): Status {
    if ConfigChanged(o, secretHash) then
      o.status.(observedGeneration := o.generation, secretHash := secretHash)
      .Remove(PreconditionsFailed).Set(Validating, VALIDATING.(detail := Words([secretHash])))
    else o.status
  }

  // ---- Validation ----

  function InvalidConfig(secretHash: string, errs: seq<ConfigError>): Condition {
    Condition(true, OtherReason, Errors(secretHash, errs))
  }

  /** The status a valid configuration calls for. */
  function ComputedStatus(s: Status, generation: int, c: Config, warning: Option<string>,
                          available: seq<Version>): Status {
    var kept := s.(observedGeneration := generation, target := c.Digest(), image := c.migration.image,
                   migration := c.migration.migration, phase := c.migration.phase,
                   version := c.migration.version, available := available)
                .Remove(ValidatingFailed).Remove(Validating);
    if warning.Some? then kept.Set(ConfigWarning, Condition(true, OtherReason, Words([warning.value])))
    else kept.Remove(ConfigWarning)
  }

  /** The updates to advertise, unless the channel of the target has no source. */
  ghost function AvailableFor(op: Operator, config: Result<Config, seq<ConfigError>>): Option<seq<Version>> {
    if config.Err? || config.value.migration.version.None? then Some([])
    else Available(op.graph, config.value.migration.engine, config.value.migration.version.value)
  }

  /** The status the later handlers see: the computed one, unless the code finds them equal. */
  function Validated(s: Status, computed: Status): Status {
    if StatusEquals(s, computed) then s else computed
  }

  ghost function Reconcile(op: Operator, v: View): Plan {
    var s := NoticeChange(v.cluster, v.secretHash);
    var config := ConfigFor(op, v.cluster.spec, s);
    ReconcileWith(v, s, config, AvailableFor(op, config))
  }

  /** The plan, given the outcome of validation. */
  function ReconcileWith(v: View, s: Status, config: Result<Config, seq<ConfigError>>,
                         available: Option<seq<Version>>): Plan {
    var fault := Credentials.FaultOf(v.cluster.spec.credentials);
    if v.cluster.paused then Plan([], Finished)
    else if fault.Some? then RejectSpec(v, fault.value)
    else After(NoticeIf(ConfigChanged(v.cluster, v.secretHash), s), Validate(v, s, config, available))
  }

  function Validate(v: View, s: Status, config: Result<Config, seq<ConfigError>>,
                    available: Option<seq<Version>>): Plan {
    if config.Err? then RejectConfig(v, s, config.error)
    else if available.None? then Plan([], Requeued)
    else
      var computed := ComputedStatus(s, v.cluster.generation, config.value, v.cluster.spec.warning,
                                     available.value);
      After(PatchIf(!StatusEquals(s, computed), computed),
            CheckMigrations(v, config.value, Validated(s, computed)))
  }

  function RejectConfig(v: View, s: Status, errs: seq<ConfigError>): Plan {
    Reject(s, v.cluster.generation, InvalidConfig(v.secretHash, errs))
  }

  /** The spec itself is rejected before anything is read. */
  function RejectSpec(v: View, fault: Credentials.SpecFault): Plan {
    Reject(v.cluster.status, v.cluster.generation, InvalidConfig("", [InvalidSpec(fault)]))
  }

  /** There is no more to do until something changes, once the failure is recorded. */
  function Reject(s: Status, generation: int, failed: Condition): Plan {
    if ValidatingFailed in s.conditions && s.conditions[ValidatingFailed].detail == failed.detail then
      Plan([], Finished)
    else
      Plan([PatchStatus(s.(observedGeneration := generation).Remove(Validating)
                        .Set(ValidatingFailed, failed))], Finished)
  }

  // ---- Migrations ----

  predicate HasStamp(ds: seq<Deployment>, h: Digest) {
    exists d :: d in ds && d.annotations.Some? && d.Stamp() == h
  }

  predicate Carries(j: Job, h: Digest) {
    j.annotations.Some? && j.Requirement() == h
  }

  /** The first job carrying the hash. */
  function JobFor(js: seq<Job>, h: Digest): (r: Option<Job>)
    ensures r.Some? ==> r.value in js && Carries(r.value, h)
    ensures r.None? ==> forall j :: j in js ==> !Carries(j, h)
  {
    if js == [] then None
    else if Carries(js[0], h) then Some(js[0])
    else JobFor(js[1..], h)
  }

  /** Migrations are not handled at all: switched off, in memory, or the update needs none. */
  predicate Exempt(c: Config, s: Status) {
    || c.skipMigrations || c.migration.engine == "memory"
    || (s.version.Some? && Migration !in s.version.value.attributes)
  }

  function CheckMigrations(v: View, c: Config, s: Status): Plan {
    var h := c.Digest();
    var job := JobFor(v.jobs, h);
    if Exempt(c, s) || HasStamp(v.deployments, h) then Deploy(v, c, s)
    else if job.None? then RunMigration(v, c, s)
    else WaitForMigration(v, c, s, job.value)
  }

  function MigratingCondition(c: Config): Condition {
    Condition(true, OtherReason, Words([c.migration.engine, c.migration.migration]))
  }

  /** The names of the jobs that do not carry the hash; an unannotated one is listed twice. */
  function ExtraJobs(js: seq<Job>, h: Digest): seq<ObjectName> {
    if js == [] then []
    else
      var j := Last(js);
      ExtraJobs(js[..|js| - 1], h) +
      (if j.annotations.None? then [j.name] else []) +
      (if j.Requirement() == h then [] else [j.name])
  }

  function DeleteJobs(names: seq<ObjectName>): seq<Write> {
    seq(|names|, i requires 0 <= i < |names| => DeleteJob(names[i]))
  }

  function RunMigration(v: View, c: Config, s: Status): Plan {
    var h := c.Digest();
    var migrating := s.Set(Migrating, MigratingCondition(c));
    var job := JobFor(v.jobs, h);
    After([PatchStatus(migrating)] + (if job.None? then [ApplyJob(h)] else []) + DeleteJobs(ExtraJobs(v.jobs, h)),
          if job.None? then Plan([], Requeued) else WaitForMigration(v, c, migrating, job.value))
  }

  function FailedMigration(c: Config, message: string): Condition {
    Condition(false, OtherReason, Words([c.migration.engine, HEAD, message]))
  }

  function WaitForMigration(v: View, c: Config, s: Status, j: Job): Plan {
    var failed := FindCondition(j.conditions, JobFailed);
    if failed.Some? && failed.value.status then
      Plan([SelfPause(s.Set(Migrating, FailedMigration(c, failed.value.message)))], Finished)
    else if HasCondition(j, JobComplete) then Deploy(v, c, s)
    else Plan([], Requeued)
  }

  // ---- Deployment ----

  /** The migration is over: record the hash and start rolling. */
  predicate MigrationPending(s: Status) {
    Migrating in s.conditions || s.current != s.target
  }

  function Migrated(s: Status): Status {
    if MigrationPending(s) then
      s.Remove(Migrating).(current := s.target).Set(Rolling, Condition(true, OtherReason, Words([])))
    else s
  }

  function Rendering(ds: seq<Deployment>, spec: DeploymentSpec): seq<Deployment> {
    if ds == [] then []
    else Rendering(ds[..|ds| - 1], spec) + (if Last(ds).Renders(spec) then [Last(ds)] else [])
  }

  function ExtraDeployments(ds: seq<Deployment>, spec: DeploymentSpec): seq<ObjectName> {
    if ds == [] then []
    else
      var d := Last(ds);
      ExtraDeployments(ds[..|ds| - 1], spec) +
      (if d.annotations.None? then [d.name] else []) +
      (if d.Renders(spec) then [] else [d.name])
  }

  function DeleteDeployments(names: seq<ObjectName>): seq<Write> {
    seq(|names|, i requires 0 <= i < |names| => DeleteDeployment(names[i]))
  }

  function Deploy(v: View, c: Config, s: Status): Plan {
    After(PatchIf(MigrationPending(s), Migrated(s)), Replace(v, c, Migrated(s)))
  }

  /** The rest of a deployment step, once the end of the migration is recorded. */
  function Replace(v: View, c: Config, s: Status): Plan {
    var spec := RenderDeployment(c, v.secretHash);
    var matching := Rendering(v.deployments, spec);
    if |matching| == 0 then ApplyNew(v, spec, s)
    else if |matching| > 1 then Plan([], Requeued)
    else After(DeleteDeployments(ExtraDeployments(v.deployments, spec)), Roll(v, c, s, matching[0]))
  }

  predicate ClearsApplyError(s: Status) {
    RolloutError in s.conditions && s.conditions[RolloutError].reason.ApplyFailed?
  }

  function ApplyNew(v: View, spec: DeploymentSpec, s: Status): Plan {
    if !v.applyAccepted then
      Plan([PatchStatus(s.Set(RolloutError, Condition(true, ApplyFailed, Words([]))))], Requeued)
    else
      Plan([ApplyDeployment(spec)] + PatchIf(ClearsApplyError(s), s.Remove(RolloutError)), Requeued)
  }

  /** The first container that has terminated. */
  function FirstTerminated(cs: Containers): (r: Option<string>)
    ensures r.None? <==> forall c :: c in cs ==> c.None?
    ensures r.Some? ==> r in cs
  {
    if cs == [] then None else if cs[0].Some? then cs[0] else FirstTerminated(cs[1..])
  }

  function PodFailure(pods: seq<Containers>): (r: Option<string>)
    ensures r.None? <==> forall cs, c :: cs in pods && c in cs ==> c.None?
  {
    if pods == [] then None
    else
      assert pods == [pods[0]] + pods[1..];
      if FirstTerminated(pods[0]).Some? then FirstTerminated(pods[0]) else PodFailure(pods[1..])
  }

  function RollingCounts(d: Deployment, desired: int): Condition {
    Condition(true, OtherReason, Counts([d.status.available, d.status.ready, d.status.updated, desired,
                                         d.status.observedGeneration, d.generation]))
  }

  function Roll(v: View, c: Config, s: Status, d: Deployment): Plan {
    var desired := DesiredReplicas(d, c.replicas);
    var failure := PodFailure(v.pods);
    if d.status.unavailable > 0 && failure.Some? then
      Plan([PatchStatus(s.Set(RolloutError, Condition(true, PodError, Words([failure.value]))))], Requeued)
    else if !RolloutComplete(d, desired) then
      Plan([PatchStatus(s.Set(Rolling, RollingCounts(d, desired)))], Requeued)
    else
      After(PatchIf(s.Is(Rolling) || s.Is(RolloutError), s.Remove(Rolling).Remove(RolloutError)),
            CleanUp(v.laterJobs, v.jobPods, d))
  }

  // ---- Cleanup ----

  /** A finished job whose hash the running deployment carries. */
  predicate Spent(j: Job, d: Deployment) {
    j.annotations.Some? && j.Requirement() == d.Stamp() && HasCondition(j, JobComplete)
  }

  function SpentJobs(js: seq<Job>, d: Deployment): seq<ObjectName> {
    if js == [] then []
    else SpentJobs(js[..|js| - 1], d) + (if Spent(Last(js), d) then [Last(js).name] else [])
  }

  predicate JobListed(js: seq<Job>, name: ObjectName) {
    exists j :: j in js && j.name == name
  }

  /** Deletes orphaned job pods until one of a listed job is met. */
  function CleanPods(js: seq<Job>, pods: seq<Pod>): Plan {
    if pods == [] then Plan([], Finished)
    else if pods[0].jobName.None? then CleanPods(js, pods[1..])
    else if JobListed(js, pods[0].jobName.value) then Plan([], Requeued)
    else After([DeletePod(pods[0].name)], CleanPods(js, pods[1..]))
  }

  lemma {:induction false} OnlyPodsCleaned(js: seq<Job>, pods: seq<Pod>)
    ensures forall x :: x in CleanPods(js, pods).writes ==> x.DeletePod?
  {
    if pods != [] {
      OnlyPodsCleaned(js, pods[1..]);
    }
  }

  function CleanUp(js: seq<Job>, pods: seq<Pod>, d: Deployment): Plan {
    if d.annotations.None? || |js| + |pods| == 0 then Plan([], Finished)
    else After(DeleteJobs(SpentJobs(js, d)), CleanPods(js, pods))
  }
}
