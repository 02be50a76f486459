/** A cluster that asks for a channel without its release: every reconcile adds an attribute to its
    version, so that none ever finds its own hash, and with that one write it is over. */
module Stranded {
  import opened Seqs
  import opened UpdateSource
  import opened UpdateGraph
  import opened Cluster
  import Credentials
  import opened Controller
  import opened Runs
  import opened Progress
  import opened Acceptance

  // ---- The target ----

  /** The cluster runs a release of its own channel and asks for another, which does not have it. */
  ghost predicate Strand(op: Operator, spec: ClusterSpec, v: Version) {
    var wanted, home := SourceFor(op.graph, spec.engine, spec.channel), SourceFor(op.graph, spec.engine, v.channel);
    && !PinnedImage(spec.image) && BaseImage(RequestOf(op, spec)) != ""
    && v.name != "" && spec.channel != "" && spec.channel != v.channel
    && wanted.Some? && v.name !in wanted.value.index && home.Some? && v.name in home.value.index
  }

  function Stuck(v: Version): Version {
    v.(attributes := v.attributes + [NotInChannel])
  }

  /** Rolling or not, the target is the recorded version with one more attribute. */
  lemma StuckTarget(op: Operator, spec: ClusterSpec, v: Version, rolling: bool)
    requires Strand(op, spec, v)
    ensures var rq, home := RequestOf(op, spec), SourceFor(op.graph, spec.engine, v.channel).value;
            && Resolve(op.graph, rq, Some(v), rolling)
            == Target(BaseImage(rq), Some(Stuck(v)), home.StateOf(v.name), None)
  {
    var rq, s := RequestOf(op, spec), SourceFor(op.graph, spec.engine, spec.channel).value;
    var home := SourceFor(op.graph, spec.engine, v.channel).value;
    assert home.IdAt(home.index[v.name]) == v.name;
    StuckStay(op.graph, rq, s, home, v, rolling, BaseImage(rq));
  }

  lemma StuckStay(g: Graph, rq: Request, s: Source, home: Source, v: Version, rolling: bool, base: string)
    requires s.Valid() && home.Valid() && v.name !in s.index && home.StateOf(v.name).id == v.name != ""
    requires SourceFor(g, rq.engine, v.channel) == Some(home) && rq.channel != v.channel
    ensures Move(g, rq, s, v.(channel := rq.channel), v, rolling, base)
         == Target(base, Some(Stuck(v)), home.StateOf(v.name), None)
  {
    assert s.NextVersion(v.name) == "";
  }

  /** The channel of a stuck version still lacks it. */
  lemma StillStranded(op: Operator, spec: ClusterSpec, v: Version)
    requires Strand(op, spec, v)
    ensures Strand(op, spec, Stuck(v))
  {
  }

  // ---- The recorded hash and version agree ----

  predicate Agrees(s: Status) {
    s.target.Of? ==> VersionEquals(s.target.config.version, s.version)
  }

  predicate WriteAgrees(x: Write) {
    Patches(x) ==> Agrees(x.status)
  }

  /** The version and the hash are carried along. */
  predicate Carries(x: Write, s: Status) {
    Patches(x) ==> x.status.version == s.version && x.status.target == s.target
  }

  lemma RollCarries(v: View, c: Config, s: Status, d: Deployment)
    ensures forall x :: x in Roll(v, c, s, d).writes ==> Carries(x, s)
  {
    OnlyPodsCleaned(v.laterJobs, v.jobPods);
  }

  lemma DeployCarries(v: View, c: Config, s: Status, x: Write)
    requires x in Deploy(v, c, s).writes
    ensures Carries(x, s)
  {
    var matching := Rendering(v.deployments, RenderDeployment(c, v.secretHash));
    if |matching| == 1 {
      RollCarries(v, c, Migrated(s), matching[0]);
    }
  }

  lemma RunCarries(v: View, c: Config, s: Status, x: Write)
    requires JobFor(v.jobs, c.Digest()).None? && x in RunMigration(v, c, s).writes
    ensures Carries(x, s)
  {
  }

  lemma CheckCarries(v: View, c: Config, s: Status, x: Write)
    requires x in CheckMigrations(v, c, s).writes
    ensures Carries(x, s)
  {
    var h := c.Digest();
    if x in Deploy(v, c, s).writes {
      DeployCarries(v, c, s, x);
    } else if JobFor(v.jobs, h).None? && !Exempt(c, s) && !HasStamp(v.deployments, h) {
      RunCarries(v, c, s, x);
    }
  }

  lemma ComputedAgrees(s: Status, generation: int, c: Config, warning: Option<string>, available: seq<Version>)
    requires Agrees(s)
    ensures var computed := ComputedStatus(s, generation, c, warning, available);
            Agrees(computed) && Agrees(Validated(s, computed))
  {
  }

  lemma ValidateAgrees(v: View, s: Status, config: Result<Config, seq<ConfigError>>,
                       available: Option<seq<Version>>, x: Write)
    requires Agrees(s) && x in Validate(v, s, config, available).writes
    ensures WriteAgrees(x)
  {
    if config.Ok? && available.Some? {
      var c := config.value;
      ComputedAgrees(s, v.cluster.generation, c, v.cluster.spec.warning, available.value);
      var s1 := Validated(s, ComputedStatus(s, v.cluster.generation, c, v.cluster.spec.warning, available.value));
      if x in CheckMigrations(v, c, s1).writes {
        CheckCarries(v, c, s1, x);
      }
    }
  }

  lemma NoticedAgrees(o: ClusterObject, secretHash: string)
    requires Agrees(o.status)
    ensures Agrees(NoticeChange(o, secretHash)) && NoticeChange(o, secretHash).version == o.status.version
    ensures NoticeChange(o, secretHash).target == o.status.target
  {
  }

  lemma PlanAgrees(op: Operator, v: View, x: Write)
    requires Agrees(v.cluster.status) && x in Reconcile(op, v).writes
    ensures WriteAgrees(x)
  {
    var s := NoticeChange(v.cluster, v.secretHash);
    var config := ConfigFor(op, v.cluster.spec, s);
    NoticedAgrees(v.cluster, v.secretHash);
    ReconciledAgrees(v, s, config, AvailableFor(op, config), x);
  }

  lemma ReconciledAgrees(v: View, s: Status, config: Result<Config, seq<ConfigError>>,
                         available: Option<seq<Version>>, x: Write)
    requires Agrees(v.cluster.status) && Agrees(s) && x in ReconcileWith(v, s, config, available).writes
    ensures WriteAgrees(x)
  {
    if x in Validate(v, s, config, available).writes {
      ValidateAgrees(v, s, config, available, x);
    }
  }

  predicate AllAgree(w: World) {
    && (forall o :: o in w.clusters ==> Agrees(o.status))
    && (forall x :: x in w.pending ==> WriteAgrees(x))
  }

  lemma MoveKeepsAgreement(w: World, e: Event, plan: seq<Write>, w': World)
    requires AllAgree(w) && Moves(w, e, plan, w')
    requires e.Begin? ==> forall x :: x in plan ==> WriteAgrees(x)
    ensures AllAgree(w')
  {
    assert Agrees(Last(w.clusters).status);
    if e.Advance? {
      assert WriteAgrees(w.pending[0]);
    }
  }

  lemma StepKeepsAgreement(op: Operator, w: World, e: Event, w': World)
    requires AllAgree(w) && Step(op, w, e, w')
    ensures AllAgree(w')
  {
    if e.Begin? {
      var plan := Reconcile(op, e.v).writes;
      forall x | x in plan ensures WriteAgrees(x) {
        PlanAgrees(op, e.v, x);
      }
      MoveKeepsAgreement(w, e, plan, w');
    } else {
      MoveKeepsAgreement(w, e, [], w');
    }
  }

  ghost function AgreeAt(ws: seq<World>): nat -> bool {
    (i: nat) => i < |ws| && AllAgree(ws[i])
  }

  lemma AgreeNext(ops: seq<Operator>, ws: seq<World>, es: seq<Event>, i: nat)
    requires ReloadedRun(ops, ws, es) && i < |es| && AgreeAt(ws)(i)
    ensures AgreeAt(ws)(i + 1)
  {
    assert StepAt(ops[i], ws, es, i);
    StepKeepsAgreement(ops[i], ws[i], es[i], ws[i + 1]);
  }

  lemma RunAgrees(ops: seq<Operator>, ws: seq<World>, es: seq<Event>, n: nat)
    requires ReloadedRun(ops, ws, es) && AllAgree(ws[0]) && n < |ws|
    ensures AllAgree(ws[n])
  {
    assert AgreeAt(ws)(0);
    forall i: nat | i < n && AgreeAt(ws)(i) ensures AgreeAt(ws)(i + 1) {
      AgreeNext(ops, ws, es, i);
    }
    Stepwise(AgreeAt(ws), n);
  }

  /** What a reconcile of a stranded cluster works towards, and what it finds recorded. */
  ghost predicate MissesHash(op: Operator, o: ClusterObject, secretHash: string)
    requires o.status.version.Some?
  {
    var config := ConfigFor(op, o.spec, NoticeChange(o, secretHash));
    config.Ok? ==> config.value.Digest() != o.status.target
                   && config.value.migration.version == Some(Stuck(o.status.version.value))
  }

  lemma StuckConfig(op: Operator, spec: ClusterSpec, s: Status)
    requires s.version.Some? && Strand(op, spec, s.version.value)
    ensures var config := ConfigFor(op, spec, s);
            config.Ok? ==> config.value.migration.version == Some(Stuck(s.version.value))
  {
    StuckTarget(op, spec, s.version.value, s.RolloutInProgress());
  }

  lemma StrandedMisses(op: Operator, o: ClusterObject, secretHash: string)
    requires o.status.version.Some? && Strand(op, o.spec, o.status.version.value) && Agrees(o.status)
    ensures MissesHash(op, o, secretHash)
  {
    var s := NoticeChange(o, secretHash);
    NoticedAgrees(o, secretHash);
    StuckConfig(op, o.spec, s);
  }

  /** Over every run, however stale the reads: a reconcile of a stranded cluster never finds its own
      hash recorded, because it works towards a version with one more attribute. */
  lemma HashIsNeverFound(ops: seq<Operator>, ws: seq<World>, es: seq<Event>, n: nat)
    requires ReloadedRun(ops, ws, es) && AllAgree(ws[0]) && n < |es| && es[n].Begin?
    requires var o := es[n].v.cluster;
             o.status.version.Some? && Strand(ops[n], o.spec, o.status.version.value)
    ensures MissesHash(ops[n], es[n].v.cluster, es[n].v.secretHash)
  {
    RunAgrees(ops, ws, es, n);
    assert StepAt(ops[n], ws, es, n);
    assert es[n].v.cluster in ws[n].clusters;
    StrandedMisses(ops[n], es[n].v.cluster, es[n].v.secretHash);
  }

  // ---- Nothing but the status is ever written ----

  /** The hash of the running deployment is that of the release with more attributes than recorded. */
  predicate RunsAhead(s: Status) {
    && s.current.Of? && s.current.config.version.Some? && s.version.Some?
    && s.current.config.version.value.name == s.version.value.name
    && |s.current.config.version.value.attributes| > |s.version.value.attributes|
  }

  ghost predicate Stranding(op: Operator, spec: ClusterSpec, s: Status) {
    s.version.Some? && Strand(op, spec, s.version.value) && !RunsAhead(s)
  }

  /** The first write is locked, if there is any. */
  predicate StartsLocked(xs: seq<Write>) {
    xs != [] ==> Locked(xs[0])
  }

  lemma CheckStartsLocked(v: View, c: Config, s: Status)
    requires s.current != s.target
    ensures StartsLocked(CheckMigrations(v, c, s).writes)
  {
  }

  /** One write to the status, and, if there is more, a change of it before the next locked one. */
  ghost predicate OneWrite(op: Operator, o: ClusterObject, xs: seq<Write>) {
    xs != [] ==>
      && (xs[0].NoticeStatus? || xs[0].PatchStatus?) && Stranding(op, o.spec, xs[0].status)
      && StartsLocked(xs[1..]) && (|xs| > 1 ==> xs[0].status != o.status)
  }

  lemma ValidateShape(op: Operator, v: View, s: Status, config: Result<Config, seq<ConfigError>>,
                      available: Option<seq<Version>>)
    requires Stranding(op, v.cluster.spec, s)
    requires config.Ok? ==> config.value.migration.version == Some(Stuck(s.version.value))
    ensures var xs := Validate(v, s, config, available).writes;
            StartsLocked(xs) && (s == v.cluster.status ==> OneWrite(op, v.cluster, xs))
  {
    if config.Ok? && available.Some? {
      var c := config.value;
      var computed := ComputedStatus(s, v.cluster.generation, c, v.cluster.spec.warning, available.value);
      StuckStatus(op, v.cluster.spec, s, v.cluster.generation, c, v.cluster.spec.warning, available.value);
      CheckStartsLocked(v, c, computed);
      var rest := CheckMigrations(v, c, computed).writes;
      assert Validate(v, s, config, available).writes == [PatchStatus(computed)] + rest;
      OneThenLocked(op, v.cluster, PatchStatus(computed), rest);
    } else if config.Err? {
      RejectShape(op, v.cluster, s, v.cluster.generation, InvalidConfig(v.secretHash, config.error));
    }
  }

  lemma OneThenLocked(op: Operator, o: ClusterObject, x: Write, ys: seq<Write>)
    requires (x.NoticeStatus? || x.PatchStatus?) && Stranding(op, o.spec, x.status) && StartsLocked(ys)
    ensures x.PatchStatus? ==> StartsLocked([x] + ys)
    ensures x.status != o.status ==> OneWrite(op, o, [x] + ys)
  {
    assert ([x] + ys)[1..] == ys;
  }

  lemma RejectShape(op: Operator, o: ClusterObject, s: Status, generation: int, failed: Condition)
    requires Stranding(op, o.spec, s)
    ensures var xs := Reject(s, generation, failed).writes;
            StartsLocked(xs) && OneWrite(op, o, xs)
  {
  }

  /** What is recorded is stranded, too, and never found equal. */
  lemma StuckStatus(op: Operator, spec: ClusterSpec, s: Status, generation: int, c: Config, warning: Option<string>,
                    available: seq<Version>)
    requires Stranding(op, spec, s) && c.migration.version == Some(Stuck(s.version.value))
    ensures var computed := ComputedStatus(s, generation, c, warning, available);
            && !StatusEquals(s, computed) && computed != s && computed.current != computed.target
            && computed.version == c.migration.version && Stranding(op, spec, computed)
  {
    var computed := ComputedStatus(s, generation, c, warning, available);
    StillStranded(op, spec, s.version.value);
    assert computed.current == s.current && computed.target == c.Digest();
  }

  lemma NoticedStranding(op: Operator, o: ClusterObject, secretHash: string)
    requires Stranding(op, o.spec, o.status)
    ensures Stranding(op, o.spec, NoticeChange(o, secretHash))
    ensures ConfigChanged(o, secretHash) ==> NoticeChange(o, secretHash) != o.status
  {
    NoticeKeeps(o, secretHash);
  }

  /** The plan of a reconcile that has read a stranded cluster. */
  lemma PlanShape(op: Operator, v: View)
    requires Stranding(op, v.cluster.spec, v.cluster.status)
    ensures OneWrite(op, v.cluster, Reconcile(op, v).writes)
  {
    var s := NoticeChange(v.cluster, v.secretHash);
    var config := ConfigFor(op, v.cluster.spec, s);
    NoticedStranding(op, v.cluster, v.secretHash);
    NoticeKeeps(v.cluster, v.secretHash);
    StuckConfig(op, v.cluster.spec, s);
    ValidateShape(op, v, s, config, AvailableFor(op, config));
    PlanFrom(op, v, s, config, AvailableFor(op, config));
  }

  lemma PlanFrom(op: Operator, v: View, s: Status, config: Result<Config, seq<ConfigError>>,
                 available: Option<seq<Version>>)
    requires s == NoticeChange(v.cluster, v.secretHash)
    requires Stranding(op, v.cluster.spec, v.cluster.status) && Stranding(op, v.cluster.spec, s)
    requires ConfigChanged(v.cluster, v.secretHash) ==> s != v.cluster.status
    requires var rest := Validate(v, s, config, available).writes;
             StartsLocked(rest) && (s == v.cluster.status ==> OneWrite(op, v.cluster, rest))
    ensures OneWrite(op, v.cluster, ReconcileWith(v, s, config, available).writes)
  {
    var fault := Credentials.FaultOf(v.cluster.spec.credentials);
    if !v.cluster.paused {
      if fault.Some? {
        RejectShape(op, v.cluster, v.cluster.status, v.cluster.generation,
                    InvalidConfig("", [InvalidSpec(fault.value)]));
      } else {
        NoticeShape(op, v.cluster, ConfigChanged(v.cluster, v.secretHash), s, Validate(v, s, config, available).writes);
      }
    }
  }

  lemma NoticeShape(op: Operator, o: ClusterObject, changed: bool, s: Status, rest: seq<Write>)
    requires Stranding(op, o.spec, s) && StartsLocked(rest) && if changed then s != o.status else OneWrite(op, o, rest)
    ensures OneWrite(op, o, NoticeIf(changed, s) + rest)
  {
    if changed {
      OneThenLocked(op, o, NoticeStatus(s), rest);
    } else {
      assert NoticeIf(changed, s) + rest == rest;
    }
  }

  /** Of a reconcile that has read a stranded cluster, now or long ago, the API server accepts one
      write at most, and it is to the status. */
  lemma OneWriteAtMost(op: Operator, w: World, v: View)
    requires w.Valid() && w.read == v.cluster && Stranding(op, v.cluster.spec, v.cluster.status)
    ensures var xs := Reconcile(op, v).writes;
            Granted(w, xs) <= 1 && (Granted(w, xs) == 1 ==> Patches(xs[0]))
  {
    var xs := Reconcile(op, v).writes;
    PlanShape(op, v);
    if xs != [] && Grants(w, xs[0]) {
      assert Granted(CarryOut(w, xs[0]), xs[1..]) == 0;
    }
  }

  // ---- Whole runs ----

  /** All states of the cluster with this spec are stranded, and so is the last one. */
  ghost predicate AllStranded(op: Operator, spec: ClusterSpec, cs: seq<ClusterObject>) {
    && cs != [] && Last(cs).spec == spec
    && forall o :: o in cs && o.spec == spec ==> Stranding(op, spec, o.status)
  }

  /** The reconcile under way is yet to write, or its lock keeps it from writing any more. */
  ghost predicate Halting(op: Operator, spec: ClusterSpec, w: World)
    requires w.Valid()
  {
    || (w.read.spec == spec && OneWrite(op, w.read, w.pending))
    || (StartsLocked(w.pending) && Last(w.clusters).status != w.read.status)
  }

  ghost predicate Ashore(op: Operator, spec: ClusterSpec, w: World) {
    w.Valid() && AllStranded(op, spec, w.clusters) && (w.pending == [] || Halting(op, spec, w))
  }

  /** The spec stays, and reconciles read states with that spec, however old. */
  ghost predicate StrandedStep(op: Operator, spec: ClusterSpec, w: World, e: Event, w': World) {
    Step(op, w, e, w') && !e.EditSpec? && (e.Begin? ==> e.v.cluster.spec == spec)
  }

  lemma AppendStranded(op: Operator, spec: ClusterSpec, cs: seq<ClusterObject>, o: ClusterObject)
    requires AllStranded(op, spec, cs) && o.spec == spec && Stranding(op, spec, o.status)
    ensures AllStranded(op, spec, cs + [o])
  {
  }

  lemma BeginAshore(op: Operator, spec: ClusterSpec, w: World, v: View, w': World)
    requires Ashore(op, spec, w) && Moves(w, Begin(v), Reconcile(op, v).writes, w') && v.cluster.spec == spec
    ensures Ashore(op, spec, w')
  {
    PlanShape(op, v);
  }

  /** Whatever is accepted is a status, and ends the reconcile. */
  lemma AdvanceAshore(op: Operator, spec: ClusterSpec, w: World, w': World)
    requires Ashore(op, spec, w) && Moves(w, Event.Advance, [], w')
    ensures w.pending[0].NoticeStatus? || w.pending[0].PatchStatus?
    ensures Ashore(op, spec, w')
  {
    AdvanceEffect(w, w');
    AdvancedAshore(op, spec, w, w');
  }

  lemma AdvancedAshore(op: Operator, spec: ClusterSpec, w: World, w': World)
    requires Ashore(op, spec, w) && w'.Valid() && Advanced(w, w')
    ensures w.pending[0].NoticeStatus? || w.pending[0].PatchStatus?
    ensures Ashore(op, spec, w')
  {
    assert OneWrite(op, w.read, w.pending) && w.read.spec == spec;
    AppendStranded(op, spec, w.clusters, Last(w'.clusters));
  }

  lemma OtherAshore(op: Operator, spec: ClusterSpec, w: World, e: Event, w': World)
    requires Ashore(op, spec, w) && Moves(w, e, [], w') && !e.Begin? && !e.Advance? && !e.EditSpec?
    ensures Ashore(op, spec, w')
  {
    if e.SetPaused? {
      var o := Last(w.clusters).(paused := e.paused);
      assert Last(w.clusters) in w.clusters && w'.clusters == w.clusters + [o];
      AppendStranded(op, spec, w.clusters, o);
      assert Last(w'.clusters).status == Last(w.clusters).status;
    } else {
      assert w'.clusters == w.clusters;
    }
  }

  lemma StepAshore(op: Operator, spec: ClusterSpec, w: World, e: Event, w': World)
    requires Ashore(op, spec, w) && StrandedStep(op, spec, w, e, w')
    ensures Ashore(op, spec, w')
  {
    if e.Begin? {
      BeginAshore(op, spec, w, e.v, w');
    } else if e.Advance? {
      AdvanceAshore(op, spec, w, w');
    } else {
      OtherAshore(op, spec, w, e, w');
    }
  }

  ghost predicate StrandedStepAt(op: Operator, spec: ClusterSpec, ws: seq<World>, es: seq<Event>, i: nat)
    requires i < |es| < |ws|
  {
    StrandedStep(op, spec, ws[i], es[i], ws[i + 1])
  }

  ghost predicate StrandedRun(op: Operator, spec: ClusterSpec, ws: seq<World>, es: seq<Event>) {
    |ws| == |es| + 1 && forall i :: 0 <= i < |es| ==> StrandedStepAt(op, spec, ws, es, i)
  }

  ghost function AshoreAt(op: Operator, spec: ClusterSpec, ws: seq<World>): nat -> bool {
    (i: nat) => i < |ws| && Ashore(op, spec, ws[i])
  }

  lemma AshoreNext(op: Operator, spec: ClusterSpec, ws: seq<World>, es: seq<Event>, i: nat)
    requires StrandedRun(op, spec, ws, es) && i < |es| && AshoreAt(op, spec, ws)(i)
    ensures AshoreAt(op, spec, ws)(i + 1)
  {
    var w, e, w' := ws[i], es[i], ws[i + 1];
    assert Ashore(op, spec, w') by {
      assert StrandedStep(op, spec, w, e, w') by {
        assert StrandedStepAt(op, spec, ws, es, i);
      }
      StepAshore(op, spec, w, e, w');
    }
  }

  lemma RunAshore(op: Operator, spec: ClusterSpec, ws: seq<World>, es: seq<Event>, n: nat)
    requires StrandedRun(op, spec, ws, es) && n < |ws| && AshoreAt(op, spec, ws)(0)
    ensures AshoreAt(op, spec, ws)(n)
  {
    forall i: nat | i < n && AshoreAt(op, spec, ws)(i) ensures AshoreAt(op, spec, ws)(i + 1) {
      AshoreNext(op, spec, ws, es, i);
    }
    Stepwise(AshoreAt(op, spec, ws), n);
  }

  /** Over every such run, however stale the reads and whatever others do to jobs and deployments: a
      stranded cluster, marked or not, stays stranded, and the operator writes nothing but its status;
      it applies no deployment, starts no job and does not pause. */
  lemma StrandedNeverDeploys(op: Operator, spec: ClusterSpec, ws: seq<World>, es: seq<Event>, n: nat)
    requires StrandedRun(op, spec, ws, es) && n < |ws|
    requires ws[0].Valid() && ws[0].pending == [] && AllStranded(op, spec, ws[0].clusters)
    ensures AllStranded(op, spec, ws[n].clusters)
    ensures n < |es| && es[n].Advance? ==>
              ws[n].pending != [] && (ws[n].pending[0].NoticeStatus? || ws[n].pending[0].PatchStatus?)
  {
    RunAshore(op, spec, ws, es, n);
    if n < |es| && es[n].Advance? {
      assert StrandedStepAt(op, spec, ws, es, n);
      AdvanceAshore(op, spec, ws[n], ws[n + 1]);
    }
  }

  /** Each reconcile that reads the cluster as it is, notices no change and finds its configuration in
      order records one more attribute. */
  lemma EachAddsOne(op: Operator, w: World, v: View)
    requires Fresh(w) && w.read == v.cluster && !v.cluster.paused && Credentials.SpecOk(v.cluster.spec.credentials)
    requires Stranding(op, v.cluster.spec, v.cluster.status) && !ConfigChanged(v.cluster, v.secretHash)
    requires var config := ConfigFor(op, v.cluster.spec, v.cluster.status);
             config.Ok? && AvailableFor(op, config).Some?
    ensures var w' := Landed(w, Reconcile(op, v).writes);
            StatusOf(w').version == Some(Stuck(v.cluster.status.version.value))
  {
    var s, config := v.cluster.status, ConfigFor(op, v.cluster.spec, v.cluster.status);
    StuckConfig(op, v.cluster.spec, s);
    RecordsStuck(op, w, v, config.value, AvailableFor(op, config).value);
    assert Reconcile(op, v) == ReconcileWith(v, s, config, AvailableFor(op, config));
  }

  lemma RecordsStuck(op: Operator, w: World, v: View, c: Config, available: seq<Version>)
    requires Fresh(w) && w.read == v.cluster && !v.cluster.paused && Credentials.SpecOk(v.cluster.spec.credentials)
    requires Stranding(op, v.cluster.spec, v.cluster.status) && !ConfigChanged(v.cluster, v.secretHash)
    requires c.migration.version == Some(Stuck(v.cluster.status.version.value))
    ensures var w' := Landed(w, ReconcileWith(v, v.cluster.status, Ok(c), Some(available)).writes);
            StatusOf(w').version == c.migration.version
  {
    var s := v.cluster.status;
    var computed := ComputedStatus(s, v.cluster.generation, c, v.cluster.spec.warning, available);
    StuckStatus(op, v.cluster.spec, s, v.cluster.generation, c, v.cluster.spec.warning, available);
    var rest := CheckMigrations(v, c, computed).writes;
    CheckStartsLocked(v, c, computed);
    assert ReconcileWith(v, s, Ok(c), Some(available)).writes == [PatchStatus(computed)] + rest by {
      QuietPlan(v, c, available, computed);
    }
    PatchEnds(w, computed, rest);
  }

  /** The plan of a reconcile that notices nothing and finds its status wanting. */
  lemma QuietPlan(v: View, c: Config, available: seq<Version>, computed: Status)
    requires !v.cluster.paused && Credentials.SpecOk(v.cluster.spec.credentials)
    requires !ConfigChanged(v.cluster, v.secretHash) && !StatusEquals(v.cluster.status, computed)
    requires computed
          == ComputedStatus(v.cluster.status, v.cluster.generation, c, v.cluster.spec.warning, available)
    ensures ReconcileWith(v, v.cluster.status, Ok(c), Some(available)).writes
         == [PatchStatus(computed)] + CheckMigrations(v, c, computed).writes
  {
    var plan := [PatchStatus(computed)] + CheckMigrations(v, c, computed).writes;
    assert NoticeIf(false, v.cluster.status) + plan == plan;
  }

  /** A changed status is recorded, and the next one refused. */
  lemma PatchEnds(w: World, s: Status, rest: seq<Write>)
    requires Fresh(w) && s != StatusOf(w) && StartsLocked(rest)
    ensures StatusOf(Landed(w, [PatchStatus(s)] + rest)) == s
  {
    LandedNext(w, PatchStatus(s), rest);
    LandedStops(CarryOut(w, PatchStatus(s)), rest);
  }
}
