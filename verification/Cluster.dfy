/** The cluster resource and the objects the operator manages for it. */
module Cluster {
  import opened Seqs
  import opened UpdateSource
  import opened UpdateGraph
  import Credentials

  /** What decides whether a migration has to run. Hashes are taken to be injective, so a
      configuration stands for its own hash; `settings` is everything but the target. */
  datatype MigrationConfig = MigrationConfig(migration: string, phase: string, engine: string,
                                             image: string, version: Option<Version>, settings: string)

  /** The value of a hash field or annotation: unset, the word "skipped", or a real hash. */
  datatype Digest = NoDigest | Skipped | Of(config: MigrationConfig)

  // ---- Status ----

  datatype ConditionType = Validating | ValidatingFailed | Migrating | ConfigWarning
                         | PreconditionsFailed | Rolling | RolloutError

  datatype Reason = OtherReason | ApplyFailed | PodError | MissingSecret

  /** What a message says: the words put into it, or the replica counts. */
  datatype Detail = Words(words: seq<string>) | Counts(counts: seq<int>)
                  | Errors(secretHash: string, errors: seq<ConfigError>)

  datatype Condition = Condition(status: bool, reason: Reason, detail: Detail)

  datatype Status = Status(observedGeneration: int, target: Digest, current: Digest, secretHash: string,
                           image: string, migration: string, phase: string, version: Option<Version>,
                           available: seq<Version>, conditions: map<ConditionType, Condition>)
  {
    predicate Is(c: ConditionType) {
      c in conditions && conditions[c].status
    }

    predicate RolloutInProgress() {
      Is(Migrating) || Is(Rolling) || current != target
    }

    function Set(c: ConditionType, to: Condition): Status {
      this.(conditions := conditions[c := to])
    }

    function Remove(c: ConditionType): Status {
      this.(conditions := conditions - {c})
    }
  }

  /** Equality of versions up to their description. */
  predicate VersionEquals(a: Option<Version>, b: Option<Version>) {
    || (a.None? && b.None?)
    || (a.Some? && b.Some? && a.value.name == b.value.name && a.value.channel == b.value.channel
        && a.value.attributes == b.value.attributes)
  }

  /** The comparison as the code has it: the current hash of one side is compared with the
      target hash of the other, so a status in transition does not equal itself. */
  predicate StatusEquals(s: Status, o: Status) {
    && s.observedGeneration == o.observedGeneration
    && s.target == o.target && s.current == o.target
    && s.secretHash == o.secretHash && s.image == o.image
    && s.migration == o.migration && s.phase == o.phase
    && VersionEquals(s.version, o.version)
    && |s.available| == |o.available|
    && (forall i :: 0 <= i < |s.available| ==> VersionEquals(Some(s.available[i]), Some(o.available[i])))
    && s.conditions == o.conditions
  }

  /** A status equals itself if and only if it is not in transition. */
  lemma StatusEqualsItself(s: Status)
    ensures StatusEquals(s, s) <==> s.current == s.target
  {
  }

  // ---- Spec and configuration ----

  /** What the user asks for. `settings` feeds the migration hash, `rendering` only the deployment;
      `problem` is any other error in the configuration. */
  datatype ClusterSpec = ClusterSpec(version: Id, channel: string, image: string, baseImage: string,
                                     engine: string, skipMigrations: bool, replicas: int,
                                     settings: string, rendering: string, problem: Option<string>,
                                     warning: Option<string>, credentials: Credentials.Spec)

  datatype ClusterObject = ClusterObject(spec: ClusterSpec, generation: int, status: Status, paused: bool)

  datatype Operator = Operator(graph: Graph, imageName: string)

  datatype ConfigError = NoEngine | NoTarget(why: TargetError) | NoUpdate | Rejected(what: string)
                       | InvalidSpec(fault: Credentials.SpecFault)

  datatype Config = Config(migration: MigrationConfig, skipMigrations: bool, replicas: int, rendering: string)
  {
    function Digest(): Digest {
      Of(migration)
    }
  }

  const HEAD := "head"

  function RequestOf(op: Operator, spec: ClusterSpec): Request {
    Request(op.imageName, spec.baseImage, spec.image, spec.version, spec.channel, spec.engine)
  }

  function ImageOf(t: Target): string {
    if t.state.digest != "" then t.baseImage + "@" + t.state.digest
    else if t.state.tag != "" then t.baseImage + ":" + t.state.tag
    else ""
  }

  function ConfigErrors(spec: ClusterSpec, t: Target): seq<ConfigError> {
    (if spec.engine == "" then [NoEngine] else []) +
    (if t.err.Some? then [NoTarget(t.err.value)] else []) +
    (if t.state.digest == "" && t.state.tag == "" then [NoUpdate] else []) +
    (if spec.problem.Some? then [Rejected(spec.problem.value)] else [])
  }

  function BuildConfig(spec: ClusterSpec, t: Target): Config {
    Config(MigrationConfig(if t.state.migration == "" then HEAD else t.state.migration,
                           t.state.phase, spec.engine, ImageOf(t), t.version, spec.settings),
           spec.skipMigrations, spec.replicas, spec.rendering)
  }

  /** The target for the spec, given the recorded version and whether a rollout is in progress. */
  ghost function TargetFor(op: Operator, spec: ClusterSpec, status: Status): Target {
    Resolve(op.graph, RequestOf(op, spec), status.version, status.RolloutInProgress())
  }

  function ConfigOf(spec: ClusterSpec, t: Target): Result<Config, seq<ConfigError>> {
    if ConfigErrors(spec, t) != [] then Err(ConfigErrors(spec, t)) else Ok(BuildConfig(spec, t))
  }

  ghost function ConfigFor(op: Operator, spec: ClusterSpec, status: Status): Result<Config, seq<ConfigError>> {
    ConfigOf(spec, TargetFor(op, spec, status))
  }

  method NewConfig(op: Operator, spec: ClusterSpec, status: Status) returns (r: Result<Config, seq<ConfigError>>)
    ensures r == ConfigFor(op, spec, status)
  {
    var t := ComputeTarget(op.graph, RequestOf(op, spec), status.version, status.RolloutInProgress());
    r := CheckConfig(spec, t);
  }

  /** A release without a tag and without a digest. */
  predicate NoImage(t: Target) {
    t.state.digest == "" && t.state.tag == ""
  }

  /** Collects every error before giving up on a configuration. */
  method CheckConfig(spec: ClusterSpec, t: Target) returns (r: Result<Config, seq<ConfigError>>)
    ensures r == ConfigOf(spec, t)
    ensures r.Err? <==> spec.engine == "" || t.err.Some? || NoImage(t) || spec.problem.Some?
    ensures r.Err? ==>
              && (NoEngine in r.error <==> spec.engine == "") && (NoUpdate in r.error <==> NoImage(t))
              && (forall e :: NoTarget(e) in r.error <==> t.err == Some(e))
              && (forall p :: Rejected(p) in r.error <==> spec.problem == Some(p))
    ensures r.Ok? ==>
              && r.value.migration.image
              == t.baseImage + (if t.state.digest != "" then "@" + t.state.digest else ":" + t.state.tag)
              && r.value.migration.migration == (if t.state.migration == "" then "head" else t.state.migration)
              && r.value.migration.phase == t.state.phase && r.value.migration.engine == spec.engine
              && r.value.migration.version == t.version && r.value.migration.settings == spec.settings
              && r.value.skipMigrations == spec.skipMigrations && r.value.replicas == spec.replicas
              && r.value.rendering == spec.rendering
  {
    var errs: seq<ConfigError> := [];
    if |spec.engine| == 0 {
      errs := errs + [NoEngine];
    }
    if t.err.Some? {
      errs := errs + [NoTarget(t.err.value)];
    }
    var migration := t.state.migration;
    if |migration| == 0 {
      migration := HEAD;
    }
    var image := "";
    if |t.state.digest| > 0 {
      image := t.baseImage + "@" + t.state.digest;
    } else if |t.state.tag| > 0 {
      image := t.baseImage + ":" + t.state.tag;
    } else {
      errs := errs + [NoUpdate];
    }
    if spec.problem.Some? {
      errs := errs + [Rejected(spec.problem.value)];
    }
    assert errs == ConfigErrors(spec, t);
    if |errs| > 0 {
      return Err(errs);
    }
    r := Ok(Config(MigrationConfig(migration, t.state.phase, spec.engine, image, t.version, spec.settings),
                   spec.skipMigrations, spec.replicas, spec.rendering));
  }

  // ---- Managed objects ----

  datatype ObjectName = OwnDeployment | MigrateJob(h: Digest) | Foreign(n: string)

  /** The rendered deployment; it stands for its own hash. */
  datatype DeploymentSpec = DeploymentSpec(stamp: Digest, versionName: Id, image: string, migration: string,
                                           secretHash: string, replicas: int, rendering: string)

  datatype Annotations = Annotations(migration: Digest, configHash: Option<DeploymentSpec>)

  datatype RolloutStatus = RolloutStatus(observedGeneration: int, replicas: int, updated: int, ready: int,
                                         available: int, unavailable: int)

  datatype Deployment = Deployment(name: ObjectName, annotations: Option<Annotations>, generation: int,
                                   replicas: Option<int>, status: RolloutStatus)
  {
    /** A missing annotation reads as unset. */
    function Stamp(): Digest {
      if annotations.Some? then annotations.value.migration else NoDigest
    }

    predicate Renders(spec: DeploymentSpec) {
      annotations.Some? && annotations.value.configHash == Some(spec)
    }
  }

  datatype JobConditionType = JobComplete | JobFailed | OtherJobCondition

  datatype JobCondition = JobCondition(kind: JobConditionType, status: bool, message: string)

  datatype Job = Job(name: ObjectName, annotations: Option<Digest>, conditions: seq<JobCondition>) {
    function Requirement(): Digest {
      if annotations.Some? then annotations.value else NoDigest
    }
  }

  datatype Pod = Pod(name: string, jobName: Option<ObjectName>)

  function VersionName(c: Config): Id {
    if c.migration.version.Some? then c.migration.version.value.name else ""
  }

  /** The deployment for a configuration. With migrations skipped it does not carry the real hash. */
  function RenderDeployment(c: Config, secretHash: string): DeploymentSpec {
    DeploymentSpec(if c.skipMigrations then Skipped else c.Digest(), VersionName(c), c.migration.image,
                   c.migration.migration, secretHash, c.replicas, c.rendering)
  }

  // ---- Rollout and job progress ----

  function DesiredReplicas(d: Deployment, configured: int): int {
    if d.replicas.Some? then d.replicas.value else configured
  }

  predicate RolloutComplete(d: Deployment, desired: int) {
    && d.status.observedGeneration == d.generation
    && d.status.updated == desired
    && d.status.replicas == d.status.updated
    && d.status.available == d.status.updated
  }

  /** The first condition of a kind. */
  function FindCondition(cs: seq<JobCondition>, kind: JobConditionType): (r: Option<JobCondition>)
    ensures r.Some? ==> r.value in cs && r.value.kind == kind
    ensures r.None? ==> forall c :: c in cs ==> c.kind != kind
  {
    if cs == [] then None
    else if cs[0].kind == kind then Some(cs[0])
    else FindCondition(cs[1..], kind)
  }

  /** Place `i` holds the first condition of the kind. */
  predicate FirstCondition(cs: seq<JobCondition>, kind: JobConditionType, i: nat) {
    i < |cs| && cs[i].kind == kind && forall j :: 0 <= j < i ==> cs[j].kind != kind
  }

  lemma {:induction false} FindMeaning(cs: seq<JobCondition>, kind: JobConditionType, i: nat)
    requires FirstCondition(cs, kind, i)
    ensures FindCondition(cs, kind) == Some(cs[i])
  {
    if i > 0 {
      assert cs[0].kind != kind;
      FindMeaning(cs[1..], kind, i - 1);
    }
  }

  method FindJobCondition(job: Job, kind: JobConditionType) returns (r: Option<JobCondition>)
    ensures r == FindCondition(job.conditions, kind)
    ensures r.None? ==> forall c :: c in job.conditions ==> c.kind != kind
    ensures r.Some? ==> exists i: nat :: FirstCondition(job.conditions, kind, i) && r.value == job.conditions[i]
  {
    var cs := job.conditions;
    for i := 0 to |cs|
      invariant FindCondition(cs, kind) == FindCondition(cs[i..], kind)
      invariant forall j :: 0 <= j < i ==> cs[j].kind != kind
    {
      if cs[i].kind == kind {
        assert FirstCondition(cs, kind, i);
        return Some(cs[i]);
      }
      assert cs[i..][1..] == cs[i + 1..];
    }
    r := None;
  }

  predicate HasCondition(job: Job, kind: JobConditionType) {
    var c := FindCondition(job.conditions, kind);
    c.Some? && c.value.status
  }

  method JobConditionHolds(job: Job, kind: JobConditionType) returns (r: bool)
    ensures r == HasCondition(job, kind)
  {
    var c := FindJobCondition(job, kind);
    r := c.Some? && c.value.status;
  }

  /** The job ran to completion and did not fail. */
  predicate Succeeded(job: Job) {
    HasCondition(job, JobComplete) && !HasCondition(job, JobFailed)
  }
}
