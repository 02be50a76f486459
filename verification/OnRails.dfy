/** Updates stay on rails: the recorded version only ever moves along edges of the update graph. */
module OnRails {
  import opened Seqs
  import opened UpdateSource
  import opened UpdateGraph
  import opened TargetProperties
  import opened Cluster
  import opened Controller
  import opened Runs

  // ---- One plan ----

  predicate KeepsVersion(x: Write, version: Option<Version>) {
    Patches(x) ==> VersionEquals(x.status.version, version)
  }

  lemma DeployVersion(v: View, c: Config, s: Status, x: Write)
    requires x in Deploy(v, c, s).writes
    ensures KeepsVersion(x, s.version)
  {
    var m := Migrated(s);
    var spec := RenderDeployment(c, v.secretHash);
    var matching := Rendering(v.deployments, spec);
    if |matching| == 1 {
      RollVersion(v, c, m, matching[0]);
    }
  }

  lemma RollVersion(v: View, c: Config, s: Status, d: Deployment)
    ensures forall x :: x in Roll(v, c, s, d).writes ==> KeepsVersion(x, s.version)
  {
    OnlyPodsCleaned(v.laterJobs, v.jobPods);
  }

  lemma CheckVersion(v: View, c: Config, s: Status, x: Write)
    requires x in CheckMigrations(v, c, s).writes
    ensures KeepsVersion(x, s.version)
  {
    var h := c.Digest();
    var job := JobFor(v.jobs, h);
    if Exempt(c, s) || HasStamp(v.deployments, h) {
      DeployVersion(v, c, s, x);
    } else if job.Some? && x in Deploy(v, c, s).writes {
      DeployVersion(v, c, s, x);
    }
  }

  /** Every status a plan writes carries the version it read or the version of its target. */
  lemma ValidateVersion(v: View, s: Status, config: Result<Config, seq<ConfigError>>,
                        available: Option<seq<Version>>, x: Write)
    requires s.version == v.cluster.status.version && x in ReconcileWith(v, s, config, available).writes
    ensures KeepsVersion(x, s.version) || (config.Ok? && KeepsVersion(x, config.value.migration.version))
  {
    if config.Ok? && available.Some? {
      var computed := ComputedStatus(s, v.cluster.generation, config.value, v.cluster.spec.warning, available.value);
      if x in CheckMigrations(v, config.value, Validated(s, computed)).writes {
        CheckVersion(v, config.value, Validated(s, computed), x);
      }
    }
  }

  ghost predicate Recorded(o: ClusterObject) {
    o.status.version.Some? && o.status.version.value.name != ""
  }

  function NameOf(o: ClusterObject): Id {
    if o.status.version.Some? then o.status.version.value.name else ""
  }

  /** The channel the cluster asks for, or else the one it is on. */
  function WantedChannel(spec: ClusterSpec, version: Option<Version>): string {
    if spec.channel != "" then spec.channel else if version.Some? then version.value.channel else ""
  }

  /** An edge of the recorded channel, which is the wanted one if there is any. */
  ghost predicate RailEdge(g: Graph, spec: ClusterSpec, from: Option<Version>, to: Version) {
    && GraphEdge(g, spec.engine, to.channel, if from.Some? then from.value.name else "", to.name)
    && (WantedChannel(spec, from) != "" ==> to.channel == WantedChannel(spec, from))
  }

  /** Nothing migrates, nothing rolls out, and the hashes are equal. */
  predicate Quiet(s: Status) {
    && (Migrating in s.conditions ==> !s.conditions[Migrating].status)
    && (Rolling in s.conditions ==> !s.conditions[Rolling].status)
    && s.current == s.target
  }

  /** From what a reconcile read to what it records: the same release, or one edge further while
      nothing was migrating or rolling out and the hashes were equal. */
  ghost predicate OneStep(g: Graph, read: ClusterObject, recorded: Option<Version>) {
    && recorded.Some? && recorded.value.name != ""
    && (recorded.value.name == NameOf(read) ||
        (Quiet(read.status) && RailEdge(g, read.spec, read.status.version, recorded.value)))
  }

  lemma PlanStaysOnRails(op: Operator, v: View, x: Write)
    requires Recorded(v.cluster) && !PinnedImage(v.cluster.spec.image)
    requires x in Reconcile(op, v).writes && Patches(x)
    ensures OneStep(op.graph, v.cluster, x.status.version)
  {
    var s := NoticeChange(v.cluster, v.secretHash);
    var config := ConfigFor(op, v.cluster.spec, s);
    if config.Ok? {
      TargetOnRails(op, v.cluster.spec, s);
    }
    RailsFrom(op.graph, v, s, config, AvailableFor(op, config), x);
  }

  lemma RailsFrom(g: Graph, v: View, s: Status, config: Result<Config, seq<ConfigError>>,
                  available: Option<seq<Version>>, x: Write)
    requires Recorded(v.cluster) && s == NoticeChange(v.cluster, v.secretHash)
    requires config.Ok? ==> OneStep(g, v.cluster.(status := s), config.value.migration.version)
    requires x in ReconcileWith(v, s, config, available).writes && Patches(x)
    ensures OneStep(g, v.cluster, x.status.version)
  {
    ValidateVersion(v, s, config, available, x);
    assert s.version == v.cluster.status.version;
    assert Quiet(s) == Quiet(v.cluster.status);
  }

  lemma TargetOnRails(op: Operator, spec: ClusterSpec, s: Status)
    requires s.version.Some? && s.version.value.name != "" && !PinnedImage(spec.image)
    requires ConfigFor(op, spec, s).Ok?
    ensures var version := ConfigFor(op, spec, s).value.migration.version;
            && version.Some? && version.value.name != ""
            && (version.value.name == s.version.value.name ||
                (Quiet(s) && RailEdge(op.graph, spec, s.version, version.value)))
  {
    OkMeansTarget(spec, TargetFor(op, spec, s));
    EdgeOnRails(op, spec, s.version.value, s.RolloutInProgress());
  }

  lemma OkMeansTarget(spec: ClusterSpec, t: Target)
    requires ConfigOf(spec, t).Ok?
    ensures t.err.None? && ConfigOf(spec, t).value.migration.version == t.version
  {
    assert |ConfigErrors(spec, t)| >= if t.err.Some? then 1 else 0;
  }

  lemma EdgeOnRails(op: Operator, spec: ClusterSpec, u: Version, rolling: bool)
    requires u.name != "" && !PinnedImage(spec.image)
    requires Resolve(op.graph, RequestOf(op, spec), Some(u), rolling).err.None?
    ensures var w := Resolve(op.graph, RequestOf(op, spec), Some(u), rolling).version;
            && w.Some? && w.value.name != ""
            && (w.value.name == u.name || (!rolling && RailEdge(op.graph, spec, Some(u), w.value)))
  {
    TargetFollowsEdge(op.graph, RequestOf(op, spec), u, rolling);
  }

  // ---- Whole runs ----

  /** No user forces an image, and a version is recorded from the start. */
  ghost predicate NoForcedImage(ws: seq<World>) {
    forall k, o :: 0 <= k < |ws| && o in ws[k].clusters ==> !PinnedImage(o.spec.image)
  }

  /** State `k` was recorded by a reconcile that read an earlier state, one step away. */
  ghost predicate ComesFrom(op: Operator, cs: seq<ClusterObject>, k: nat)
    requires k < |cs|
  {
    exists j :: 0 <= j < k && OneStep(op.graph, cs[j], cs[k].status.version)
  }

  ghost predicate WriteComesFrom(op: Operator, cs: seq<ClusterObject>, x: Write) {
    Patches(x) ==> exists j :: 0 <= j < |cs| && OneStep(op.graph, cs[j], x.status.version)
  }

  ghost predicate Railed(op: Operator, w: World) {
    && w.clusters != [] && Recorded(w.clusters[0])
    && (forall k :: 0 < k < |w.clusters| ==> ComesFrom(op, w.clusters, k))
    && (forall x :: x in w.pending ==> WriteComesFrom(op, w.clusters, x))
  }

  lemma RailedRecorded(op: Operator, w: World, k: nat)
    requires Railed(op, w) && k < |w.clusters|
    ensures Recorded(w.clusters[k])
  {
    if k > 0 {
      assert ComesFrom(op, w.clusters, k);
    }
  }

  lemma WriteStillComesFrom(op: Operator, cs: seq<ClusterObject>, later: seq<ClusterObject>, x: Write)
    requires cs <= later && WriteComesFrom(op, cs, x)
    ensures WriteComesFrom(op, later, x)
  {
    if Patches(x) {
      var j :| 0 <= j < |cs| && OneStep(op.graph, cs[j], x.status.version);
      assert later[j] == cs[j];
    }
  }

  lemma StillComesFrom(op: Operator, cs: seq<ClusterObject>, later: seq<ClusterObject>, k: nat)
    requires cs <= later && 0 < k < |cs| && ComesFrom(op, cs, k)
    ensures ComesFrom(op, later, k)
  {
    var j :| 0 <= j < k && OneStep(op.graph, cs[j], cs[k].status.version);
    assert later[j] == cs[j] && later[k] == cs[k];
  }

  lemma NewStateRailed(op: Operator, w: World, e: Event, plan: seq<Write>, w': World)
    requires Railed(op, w) && Moves(w, e, plan, w') && |w'.clusters| > |w.clusters|
    ensures |w'.clusters| == |w.clusters| + 1 && ComesFrom(op, w'.clusters, |w.clusters|)
  {
    var cs, cs', k := w.clusters, w'.clusters, |w.clusters|;
    RailedRecorded(op, w, k - 1);
    if e.Advance? {
      assert WriteComesFrom(op, cs, w.pending[0]);
      var j :| 0 <= j < |cs| && OneStep(op.graph, cs[j], w.pending[0].status.version);
      assert OneStep(op.graph, cs'[j], cs'[k].status.version);
    } else {
      assert OneStep(op.graph, cs'[k - 1], cs'[k].status.version);
    }
  }

  lemma MoveKeepsRailed(op: Operator, w: World, e: Event, plan: seq<Write>, w': World)
    requires Railed(op, w) && Moves(w, e, plan, w')
    requires e.Begin? ==> forall x :: x in plan ==> WriteComesFrom(op, w.clusters, x)
    ensures Railed(op, w')
  {
    MoveExtends(w, e, plan, w');
    if |w'.clusters| > |w.clusters| {
      NewStateRailed(op, w, e, plan, w');
    }
    forall k | 0 < k < |w.clusters| ensures ComesFrom(op, w'.clusters, k) {
      assert ComesFrom(op, w.clusters, k);
      StillComesFrom(op, w.clusters, w'.clusters, k);
    }
    forall x | x in w'.pending ensures WriteComesFrom(op, w'.clusters, x) {
      assert WriteComesFrom(op, w.clusters, x);
      WriteStillComesFrom(op, w.clusters, w'.clusters, x);
    }
  }

  lemma PlanComesFrom(op: Operator, w: World, v: View, x: Write)
    requires Railed(op, w) && v.cluster in w.clusters && !PinnedImage(v.cluster.spec.image)
    requires x in Reconcile(op, v).writes
    ensures WriteComesFrom(op, w.clusters, x)
  {
    var j :| 0 <= j < |w.clusters| && w.clusters[j] == v.cluster;
    RailedRecorded(op, w, j);
    if Patches(x) {
      PlanStaysOnRails(op, v, x);
      assert OneStep(op.graph, w.clusters[j], x.status.version);
    }
  }

  lemma StepKeepsRailed(op: Operator, w: World, e: Event, w': World)
    requires Railed(op, w) && Step(op, w, e, w')
    requires forall o :: o in w.clusters ==> !PinnedImage(o.spec.image)
    ensures Railed(op, w')
  {
    if e.Begin? {
      var plan := Reconcile(op, e.v).writes;
      forall x | x in plan ensures WriteComesFrom(op, w.clusters, x) {
        PlanComesFrom(op, w, e.v, x);
      }
      MoveKeepsRailed(op, w, e, plan, w');
    } else {
      MoveKeepsRailed(op, w, e, [], w');
    }
  }

  /** Over every run, however stale the caches and wherever reconciles are cut short: each recorded
      version is the one a reconcile read or one edge further, and the edge is taken only from a
      state with nothing migrating, nothing rolling out and equal hashes. */
  lemma {:induction false} UpdatesStayOnRails(op: Operator, ws: seq<World>, es: seq<Event>, k: nat)
    requires Run(op, ws, es) && NoForcedImage(ws) && k < |ws|
    requires |ws[0].clusters| == 1 && Recorded(ws[0].clusters[0])
    ensures Railed(op, ws[k])
  {
    if k > 0 {
      UpdatesStayOnRails(op, ws, es, k - 1);
      assert StepAt(op, ws, es, k - 1);
      StepKeepsRailed(op, ws[k - 1], es[k - 1], ws[k]);
    }
  }

  // ---- Nothing is skipped ----

  type Line = (Id, Id) -> bool

  /** The edges of one channel. */
  ghost function ChannelLine(g: Graph, engine: string, channel: string): Line {
    (from, to) => GraphEdge(g, engine, channel, from, to)
  }

  /** The edges of all channels. */
  ghost function AnyLine(g: Graph): Line {
    (from, to) => exists engine, channel :: GraphEdge(g, engine, channel, from, to)
  }

  ghost predicate Route(edge: Line, path: seq<Id>, from: Id, to: Id) {
    && path != [] && path[0] == from && Last(path) == to
    && forall i :: 0 <= i < |path| - 1 ==> edge(path[i], path[i + 1])
  }

  /** Every way from `from` to `to` along the edges passes `via`. */
  ghost predicate Cuts(edge: Line, via: Id, from: Id, to: Id) {
    forall path :: Route(edge, path, from, to) ==> via in path
  }

  predicate RecordedBy(cs: seq<ClusterObject>, k: int, id: Id)
    requires k < |cs|
  {
    exists j :: 0 <= j <= k && NameOf(cs[j]) == id
  }

  /** Every change of version is along one of the edges. */
  ghost predicate Follows(g: Graph, cs: seq<ClusterObject>, edge: Line) {
    forall j, k :: 0 <= j < k < |cs| && OneStep(g, cs[j], cs[k].status.version) && NameOf(cs[j]) != NameOf(cs[k])
      ==> edge(NameOf(cs[j]), NameOf(cs[k]))
  }

  lemma RouteGrows(edge: Line, path: seq<Id>, from: Id, mid: Id, to: Id)
    requires Route(edge, path, from, mid) && edge(mid, to)
    ensures Route(edge, path + [to], from, to)
  {
    var longer := path + [to];
    forall i | 0 <= i < |longer| - 1 ensures edge(longer[i], longer[i + 1]) {
      assert longer[i] == path[i];
      assert i < |path| - 1 ==> longer[i + 1] == path[i + 1];
    }
  }

  lemma RecordedLater(cs: seq<ClusterObject>, path: seq<Id>, j: nat, k: nat)
    requires j <= k < |cs| && forall x :: x in path ==> RecordedBy(cs, j, x)
    ensures forall x :: x in path ==> RecordedBy(cs, k, x)
  {
  }

  /** The releases recorded so far contain a route from the first to the one at `k`. */
  lemma {:induction false} RecordedRoute(op: Operator, w: World, edge: Line, k: nat) returns (path: seq<Id>)
    requires Railed(op, w) && Follows(op.graph, w.clusters, edge) && k < |w.clusters|
    ensures Route(edge, path, NameOf(w.clusters[0]), NameOf(w.clusters[k]))
    ensures forall x :: x in path ==> RecordedBy(w.clusters, k, x)
    decreases k
  {
    var cs := w.clusters;
    if k == 0 {
      path := [NameOf(cs[0])];
    } else {
      assert ComesFrom(op, cs, k);
      var j :| 0 <= j < k && OneStep(op.graph, cs[j], cs[k].status.version);
      path := RecordedRoute(op, w, edge, j);
      RecordedLater(cs, path, j, k);
      if NameOf(cs[k]) != NameOf(cs[j]) {
        RouteGrows(edge, path, NameOf(cs[0]), NameOf(cs[j]), NameOf(cs[k]));
        path := path + [NameOf(cs[k])];
      }
    }
  }

  /** Throughout the run the cluster asks for one engine and one channel. */
  ghost predicate FixedChannel(ws: seq<World>, engine: string, channel: string) {
    channel != "" && forall k, o :: 0 <= k < |ws| && o in ws[k].clusters ==>
      o.spec.engine == engine && o.spec.channel == channel
  }

  /** On a fixed channel, a release that cuts the first from the one at `k` in that channel has been
      recorded on the way. */
  lemma NothingIsSkipped(op: Operator, ws: seq<World>, es: seq<Event>, engine: string, channel: string,
                         n: nat, k: nat, via: Id)
    requires Run(op, ws, es) && NoForcedImage(ws) && n < |ws| && k < |ws[n].clusters|
    requires |ws[0].clusters| == 1 && Recorded(ws[0].clusters[0]) && FixedChannel(ws, engine, channel)
    requires Cuts(ChannelLine(op.graph, engine, channel), via, NameOf(ws[n].clusters[0]), NameOf(ws[n].clusters[k]))
    ensures RecordedBy(ws[n].clusters, k, via)
  {
    UpdatesStayOnRails(op, ws, es, n);
    assert forall o :: o in ws[n].clusters ==> o.spec.engine == engine && o.spec.channel == channel;
    OnTheLine(op.graph, ws[n].clusters, engine, channel);
    var path := RecordedRoute(op, ws[n], ChannelLine(op.graph, engine, channel), k);
  }

  lemma OnTheLine(g: Graph, cs: seq<ClusterObject>, engine: string, channel: string)
    requires channel != "" && forall o :: o in cs ==> o.spec.engine == engine && o.spec.channel == channel
    ensures Follows(g, cs, ChannelLine(g, engine, channel))
  {
    forall j, k | 0 <= j < k < |cs| && OneStep(g, cs[j], cs[k].status.version) && NameOf(cs[j]) != NameOf(cs[k])
      ensures ChannelLine(g, engine, channel)(NameOf(cs[j]), NameOf(cs[k]))
    {
      assert cs[j] in cs;
      assert RailEdge(g, cs[j].spec, cs[j].status.version, cs[k].status.version.value);
    }
  }

  /** Whatever channels users switch to, a release that cuts one release from another in the whole
      graph has been recorded on the way. */
  lemma NothingIsSkippedAnywhere(op: Operator, ws: seq<World>, es: seq<Event>, n: nat, k: nat, via: Id)
    requires Run(op, ws, es) && NoForcedImage(ws) && n < |ws| && k < |ws[n].clusters|
    requires |ws[0].clusters| == 1 && Recorded(ws[0].clusters[0])
    requires Cuts(AnyLine(op.graph), via, NameOf(ws[n].clusters[0]), NameOf(ws[n].clusters[k]))
    ensures RecordedBy(ws[n].clusters, k, via)
  {
    UpdatesStayOnRails(op, ws, es, n);
    OnSomeLine(op.graph, ws[n].clusters);
    var path := RecordedRoute(op, ws[n], AnyLine(op.graph), k);
  }

  lemma OnSomeLine(g: Graph, cs: seq<ClusterObject>)
    ensures Follows(g, cs, AnyLine(g))
  {
    forall j, k | 0 <= j < k < |cs| && OneStep(g, cs[j], cs[k].status.version) && NameOf(cs[j]) != NameOf(cs[k])
      ensures AnyLine(g)(NameOf(cs[j]), NameOf(cs[k]))
    {
      assert GraphEdge(g, cs[j].spec.engine, cs[k].status.version.value.channel, NameOf(cs[j]), NameOf(cs[k]));
    }
  }

  // ---- The mark never leaves ----

  predicate MarkedVersion(version: Option<Version>) {
    version.Some? ==> Migration in version.value.attributes
  }

  predicate MarkedWrite(x: Write) {
    Patches(x) ==> MarkedVersion(x.status.version)
  }

  predicate MarkedWorld(w: World) {
    && (forall o :: o in w.clusters ==> MarkedVersion(o.status.version))
    && (forall x :: x in w.pending ==> MarkedWrite(x))
  }

  lemma PlanMarks(op: Operator, v: View, x: Write)
    requires MarkedVersion(v.cluster.status.version) && x in Reconcile(op, v).writes
    ensures MarkedWrite(x)
  {
    var s := NoticeChange(v.cluster, v.secretHash);
    var config := ConfigFor(op, v.cluster.spec, s);
    ValidateVersion(v, s, config, AvailableFor(op, config), x);
    if config.Ok? {
      TargetIsMarked(op, v.cluster.spec, s);
    }
  }

  /** A forced image has no version to mark. */
  lemma TargetIsMarked(op: Operator, spec: ClusterSpec, s: Status)
    requires MarkedVersion(s.version) && ConfigFor(op, spec, s).Ok?
    ensures MarkedVersion(ConfigFor(op, spec, s).value.migration.version)
  {
    OkMeansTarget(spec, TargetFor(op, spec, s));
    if !PinnedImage(spec.image) {
      MarkIsSticky(op.graph, RequestOf(op, spec), s.version, s.RolloutInProgress());
    }
  }

  lemma MoveKeepsMarks(w: World, e: Event, plan: seq<Write>, w': World)
    requires MarkedWorld(w) && Moves(w, e, plan, w')
    requires e.Begin? ==> forall x :: x in plan ==> MarkedWrite(x)
    ensures MarkedWorld(w')
  {
    assert MarkedVersion(Last(w.clusters).status.version);
    if e.Advance? {
      assert MarkedWrite(w.pending[0]);
    }
  }

  lemma StepKeepsMarks(op: Operator, w: World, e: Event, w': World)
    requires MarkedWorld(w) && Step(op, w, e, w')
    ensures MarkedWorld(w')
  {
    if e.Begin? {
      var plan := Reconcile(op, e.v).writes;
      forall x | x in plan ensures MarkedWrite(x) {
        PlanMarks(op, e.v, x);
      }
      MoveKeepsMarks(w, e, plan, w');
    } else {
      MoveKeepsMarks(w, e, [], w');
    }
  }

  /** A cluster the operator installed, or that carries the Migration mark once, carries it for ever:
      no later update is exempt from its migration job on account of the update graph, not even one
      advertised as free of migrations. */
  lemma {:induction false} MarkNeverLeaves(ops: seq<Operator>, ws: seq<World>, es: seq<Event>, k: nat)
    requires ReloadedRun(ops, ws, es) && k < |ws|
    requires MarkedWorld(ws[0])
    ensures MarkedWorld(ws[k])
  {
    if k > 0 {
      MarkNeverLeaves(ops, ws, es, k - 1);
      assert StepAt(ops[k - 1], ws, es, k - 1);
      StepKeepsMarks(ops[k - 1], ws[k - 1], es[k - 1], ws[k]);
    }
  }
}
