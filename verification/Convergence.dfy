/** A cluster converges to the release its walk leads to: the head of its channel, or its pin. */
module Convergence {
  import opened Seqs
  import opened UpdateSource
  import opened Walks
  import opened UpdateGraph
  import opened TargetProperties
  import opened WalkEnding
  import opened Cluster
  import Credentials
  import opened Controller
  import opened PlanMeaning
  import opened TargetMeaning
  import opened Runs
  import opened Progress
  import opened Interruption
  import opened Acceptance

  // ---- The setting ----

  /** The release a cluster is on its way to: its pin, or else the head. */
  function Pin(spec: ClusterSpec, s: Source): Id
    requires s.Valid()
  {
    if spec.version == "" then s.Head() else spec.version
  }

  /** Nothing stops a cluster from updating: the configuration is sound, a pin is in the channel, the
      head is final if there is none, and every release has an image. */
  ghost predicate Unhindered(spec: ClusterSpec, s: Source) {
    && spec.problem.None? && spec.engine != "" && Credentials.SpecOk(spec.credentials)
    && s.Valid() && Pin(spec, s) in s.index && (spec.version == "" ==> s.NextVersion(s.Head()) == "")
    && forall id :: id in s.index ==> Pullable(s.StateOf(id))
  }

  predicate Pullable(n: State) {
    n.tag != "" || n.digest != ""
  }

  /** The configuration of a cluster that is to run the recorded version. */
  function ConfigAt(op: Operator, spec: ClusterSpec, s: Source, v: Version): Config
    requires s.Valid()
  {
    BuildConfig(spec, Target(BaseImage(RequestOf(op, spec)), Some(v), s.StateOf(v.name), None))
  }

  /** The version to run next: the recorded one while rolling, at the pin or at the end of the edges. */
  ghost function NextFor(spec: ClusterSpec, s: Source, v: Version, rolling: bool): Version
    requires s.Valid() && Pin(spec, s) in s.index
  {
    NextRecorded(s.Suffix(s.index[Pin(spec, s)]), v, rolling || v.name == Pin(spec, s))
  }

  lemma HeadFor(spec: ClusterSpec, s: Source, v: Version, rolling: bool)
    requires Unhindered(spec, s) && spec.version == ""
    ensures NextFor(spec, s, v, rolling) == NextRecorded(s, v, rolling)
  {
    SubgraphAtHead(s);
    assert s.index[s.IdAt(0)] == 0;
  }

  lemma WantedTarget(op: Operator, spec: ClusterSpec, s: Source, v: Version, rolling: bool)
    requires Unhindered(spec, s) && OnChannel(op.graph, RequestOf(op, spec), s, v)
    ensures var to, rq := NextFor(spec, s, v, rolling), RequestOf(op, spec);
            && Resolve(op.graph, rq, Some(v), rolling)
            == Target(BaseImage(rq), Some(to), s.StateOf(to.name), None)
            && OnChannel(op.graph, rq, s, to)
  {
    if spec.version == "" {
      HeadFor(spec, s, v, rolling);
      UnpinnedTarget(op.graph, RequestOf(op, spec), s, v, rolling);
    } else {
      PinnedTargetInFull(op.graph, RequestOf(op, spec), s, v, rolling);
    }
  }

  lemma SoundConfig(spec: ClusterSpec, t: Target)
    requires spec.problem.None? && spec.engine != "" && t.err.None? && Pullable(t.state)
    ensures ConfigOf(spec, t) == Ok(BuildConfig(spec, t))
  {
    assert ConfigErrors(spec, t) == [];
  }

  lemma AdvertisesUpdates(op: Operator, c: Config, s: Source)
    requires c.migration.version.Some?
    requires SourceFor(op.graph, c.migration.engine, c.migration.version.value.channel) == Some(s)
    ensures AvailableFor(op, Ok(c)).Some?
  {
  }

  lemma WantedConfig(op: Operator, spec: ClusterSpec, s: Source, st: Status)
    requires Unhindered(spec, s) && st.version.Some?
    requires OnChannel(op.graph, RequestOf(op, spec), s, st.version.value)
    ensures var to := NextFor(spec, s, st.version.value, st.RolloutInProgress());
            && ConfigFor(op, spec, st) == Ok(ConfigAt(op, spec, s, to))
            && AvailableFor(op, Ok(ConfigAt(op, spec, s, to))).Some?
            && OnChannel(op.graph, RequestOf(op, spec), s, to)
  {
    var to := NextFor(spec, s, st.version.value, st.RolloutInProgress());
    var rq := RequestOf(op, spec);
    WantedTarget(op, spec, s, st.version.value, st.RolloutInProgress());
    assert Pullable(s.StateOf(to.name));
    SoundConfig(spec, Target(BaseImage(rq), Some(to), s.StateOf(to.name), None));
    AdvertisesUpdates(op, ConfigAt(op, spec, s, to), s);
  }

  /** The cluster runs a release of the channel from which the walk ends, is not paused, and no one
      interferes. */
  ghost predicate Cruising(op: Operator, spec: ClusterSpec, s: Source, w: World) {
    && w.Valid() && Healthy(SiteOf(w))
    && Last(w.clusters).spec == spec && !Last(w.clusters).paused
    && StatusOf(w).version.Some?
    && OnWay(op, spec, s, StatusOf(w).version.value)
  }

  ghost predicate OnWay(op: Operator, spec: ClusterSpec, s: Source, v: Version) {
    && OnChannel(op.graph, RequestOf(op, spec), s, v)
    && Pin(spec, s) in s.index && WalkEnds(s, Pin(spec, s), v.name)
  }

  /** The configuration a reconcile of this world works towards. */
  ghost function ConfigNext(op: Operator, spec: ClusterSpec, s: Source, st: Status): Config
    requires s.Valid() && Pin(spec, s) in s.index && st.version.Some?
  {
    ConfigAt(op, spec, s, NextFor(spec, s, st.version.value, st.RolloutInProgress()))
  }

  /** The updates advertised with a configuration. */
  ghost function Advertised(op: Operator, c: Config): seq<Version> {
    var available := AvailableFor(op, Ok(c));
    if available.Some? then available.value else []
  }

  /** The plan of a reconcile: it works towards the next version to record. */
  lemma ReconcilePlan(op: Operator, spec: ClusterSpec, s: Source, v: View)
    requires Unhindered(spec, s) && v.cluster.spec == spec && v.cluster.status.version.Some?
    requires OnChannel(op.graph, RequestOf(op, spec), s, v.cluster.status.version.value)
    ensures var c := ConfigNext(op, spec, s, v.cluster.status);
            Reconcile(op, v) == ReconcileWith(v, NoticeChange(v.cluster, v.secretHash), Ok(c), Some(Advertised(op, c)))
  {
    NoticeKeeps(v.cluster, v.secretHash);
    WantedConfig(op, spec, s, NoticeChange(v.cluster, v.secretHash));
  }

  lemma NextRecordable(s: Source, v: Version, stay: bool)
    requires s.Valid()
    ensures Recordable(Some(v), Some(NextRecorded(s, v, stay)))
  {
  }

  lemma NextForRecordable(spec: ClusterSpec, s: Source, v: Version, rolling: bool)
    requires s.Valid() && Pin(spec, s) in s.index
    ensures Recordable(Some(v), Some(NextFor(spec, s, v, rolling)))
  {
    NextRecordable(s.Suffix(s.index[Pin(spec, s)]), v, rolling || v.name == Pin(spec, s));
  }

  /** What a reconcile records is on the way, one step closer to the same end unless it has to stay. */
  lemma NextOnWay(op: Operator, spec: ClusterSpec, s: Source, v: Version, rolling: bool)
    requires Unhindered(spec, s) && OnWay(op, spec, s, v)
    ensures var to, p := NextFor(spec, s, v, rolling), Pin(spec, s);
            && OnWay(op, spec, s, to) && EndOf(s, p, to.name) == EndOf(s, p, v.name)
            && if rolling || StepsLeft(s, p, v.name) == 0 then to == v
               else StepsLeft(s, p, to.name) == StepsLeft(s, p, v.name) - 1
  {
    var p := Pin(spec, s);
    WantedTarget(op, spec, s, v, rolling);
    if Stopped(s, p, v.name) {
      NoStepLeft(s, p, v.name);
    } else if !rolling {
      OneStepLess(s, p, v.name);
      assert NextFor(spec, s, v, rolling).name == PinnedNext(s, p, v.name);
      SomeStepLeft(s, p, v.name);
    }
  }

  lemma SomeStepLeft(s: Source, p: Id, id: Id)
    requires s.Valid() && p in s.index && WalkEnds(s, p, id) && !Stopped(s, p, id)
    ensures StepsLeft(s, p, id) > 0
  {
    assert StopsAt(s, p, id, 0) == Stopped(s, p, id);
  }

  /** The status in which a reconcile of this view records its configuration. */
  ghost function Told(op: Operator, spec: ClusterSpec, s: Source, v: View): Status
    requires s.Valid() && Pin(spec, s) in s.index && v.cluster.status.version.Some?
  {
    var c := ConfigNext(op, spec, s, v.cluster.status);
    Telling(v, NoticeChange(v.cluster, v.secretHash), c, Advertised(op, c))
  }

  lemma ToldVersion(op: Operator, spec: ClusterSpec, s: Source, v: View)
    requires s.Valid() && Pin(spec, s) in s.index && v.cluster.status.version.Some?
    ensures var c := ConfigNext(op, spec, s, v.cluster.status);
            Tells(c, NoticeChange(v.cluster, v.secretHash), Told(op, spec, s, v))
  {
    var st, noticed := v.cluster.status, NoticeChange(v.cluster, v.secretHash);
    var c := ConfigNext(op, spec, s, st);
    NoticeKeeps(v.cluster, v.secretHash);
    NextForRecordable(spec, s, st.version.value, st.RolloutInProgress());
    ValidatedKeeps(noticed, ComputedStatus(noticed, v.cluster.generation, c, v.cluster.spec.warning, Advertised(op, c)),
                   v.cluster.generation, c, v.cluster.spec.warning, Advertised(op, c));
  }

  /** What the API server accepts of a reconcile. */
  lemma ReconcileEffect(op: Operator, spec: ClusterSpec, s: Source, w: World, v: View)
    requires Unhindered(spec, s) && Cruising(op, spec, s, w) && CurrentView(w, v) && Fresh(w)
    ensures Steps(ConfigNext(op, spec, s, StatusOf(w)), v, NoticeChange(v.cluster, v.secretHash),
                  Told(op, spec, s, v), w, Landed(w, Reconcile(op, v).writes))
  {
    var st := StatusOf(w);
    var c := ConfigNext(op, spec, s, st);
    ReconcilePlan(op, spec, s, v);
    NoticeKeeps(v.cluster, v.secretHash);
    NextForRecordable(spec, s, st.version.value, st.RolloutInProgress());
    PlanEffect(w, v, NoticeChange(v.cluster, v.secretHash), c, Advertised(op, c));
  }

  /** What any of its writes leave when it is cut short. */
  lemma CutEffect(op: Operator, spec: ClusterSpec, s: Source, w: World, v: View, n: nat)
    requires Unhindered(spec, s) && Cruising(op, spec, s, w) && CurrentView(w, v)
    requires n <= |Reconcile(op, v).writes|
    ensures CutShort(ConfigNext(op, spec, s, StatusOf(w)), v.secretHash, NoticeChange(v.cluster, v.secretHash),
                     Told(op, spec, s, v), w, CarryAll(w, Reconcile(op, v).writes[..n]))
  {
    var st := StatusOf(w);
    var c := ConfigNext(op, spec, s, st);
    ReconcilePlan(op, spec, s, v);
    NoticeKeeps(v.cluster, v.secretHash);
    NextForRecordable(spec, s, st.version.value, st.RolloutInProgress());
    CutPlan(w, v, NoticeChange(v.cluster, v.secretHash), c, Advertised(op, c), n);
  }

  // ---- Rounds ----

  /** A reconcile, and how many of its writes are carried out before one is refused or it is over. */
  datatype Attempt = Attempt(v: View, carried: nat)

  /** The reconcile has read the cluster. */
  function Begun(w: World, v: View): World {
    w.(read := v.cluster)
  }

  /** The world when the reconcile is over. */
  ghost function Reached(op: Operator, w: World, a: Attempt): (mid: World)
    requires w.Valid() && a.carried <= |Reconcile(op, a.v).writes|
    ensures mid.Valid()
  {
    CarryAll(Begun(w, a.v), Reconcile(op, a.v).writes[..a.carried])
  }

  /** A reconcile with fresh caches, carried out as far as it gets, at most to the write its own lock
      has refused, and what happens until the next one. */
  ghost predicate Round(op: Operator, spec: ClusterSpec, secretHash: string, w: World, a: Attempt, w': World) {
    && w.Valid() && w'.Valid() && CurrentView(w, a.v) && a.v.secretHash == secretHash
    && a.carried <= Granted(Begun(w, a.v), Reconcile(op, a.v).writes)
    && Rest(Reached(op, w, a), w', spec.replicas)
  }

  /** Nothing but the lock on the cluster that was read stops the reconcile, and the API server accepts
      the deployment. */
  ghost predicate Full(op: Operator, w: World, a: Attempt)
    requires w.Valid()
  {
    a.carried == Granted(Begun(w, a.v), Reconcile(op, a.v).writes) && a.v.applyAccepted
  }

  /** Jobs and the rollout go on; nothing else happens. */
  ghost predicate Rest(w: World, w': World, replicas: int)
    requires w.Valid()
  {
    && w'.Valid() && Waits(SiteOf(w), SiteOf(w'), replicas)
    && w' == w.(jobs := w.jobs + [Last(w'.jobs)], deployments := w.deployments + [Last(w'.deployments)])
  }

  lemma RestKeepsCluster(w: World, w': World, replicas: int)
    requires w.Valid() && Rest(w, w', replicas)
    ensures SameCluster(w, w') && Waits(SiteOf(w), SiteOf(w'), replicas)
  {
  }

  /** What is to be done before the version runs: its stage, and what is to be written before. */
  ghost function Rank(op: Operator, spec: ClusterSpec, s: Source, secretHash: string, w: World, v: Version): nat
    requires s.Valid() && w.Valid()
  {
    var c := ConfigAt(op, spec, s, v);
    Stage(c, SiteOf(w), secretHash) + Backlog(Last(w.clusters), c, Advertised(op, c), secretHash)
  }

  /** Rounds left: seven for every update to come and the rank of the recorded version. */
  ghost function RoundsLeft(op: Operator, spec: ClusterSpec, s: Source, secretHash: string, w: World): nat
    requires Cruising(op, spec, s, w)
  {
    var v := StatusOf(w).version.value;
    7 * StepsLeft(s, Pin(spec, s), v.name) + Rank(op, spec, s, secretHash, w, v)
  }

  /** The release the cluster is led to. */
  ghost function Destination(op: Operator, spec: ClusterSpec, s: Source, w: World): Id
    requires Cruising(op, spec, s, w)
  {
    EndOf(s, Pin(spec, s), StatusOf(w).version.value.name)
  }

  /** The release runs: recorded, rolled out, and nothing in progress. */
  ghost predicate Arrived(op: Operator, spec: ClusterSpec, s: Source, secretHash: string, w: World, at: Id)
    requires s.Valid() && w.Valid()
  {
    && StatusOf(w).version.Some? && StatusOf(w).version.value.name == at
    && var c := ConfigAt(op, spec, s, StatusOf(w).version.value);
       && Clean(c, StatusOf(w)) && Rendered(c, SiteOf(w), secretHash) && RolledOut(c, SiteOf(w))
       && Backlog(Last(w.clusters), c, Advertised(op, c), secretHash) == 0
  }

  /** The deployment runs the image of the release, with the replicas asked for and the secrets as they
      are: the latest generation has been observed, and all replicas are updated and available. */
  ghost predicate RunsRelease(op: Operator, spec: ClusterSpec, s: Source, secretHash: string, w: World, at: Id)
    requires s.Valid() && w.Valid() && at in s.index
  {
    var n, st := s.nodes[s.index[at]], StatusOf(w);
    && OwnDeployment in Last(w.deployments)
    && var d := Last(w.deployments)[OwnDeployment];
       && d.annotations.Some? && d.annotations.value.configHash.Some?
       && var r := d.annotations.value.configHash.value;
          && RendersImage(op, spec, n, r.image) && st.image == r.image
          && r.versionName == at && r.secretHash == secretHash && r.replicas == spec.replicas
          && r.migration == (if n.migration == "" then "head" else n.migration) && r.rendering == spec.rendering
          && (r.stamp == Skipped <==> spec.skipMigrations)
          && AllReplicasRun(d, spec.replicas) && d.status.unavailable <= 0
          && st.version.Some? && st.version.value.name == at && st.current == st.target
          && Migrating !in st.conditions && !st.Is(Rolling) && !st.Is(RolloutError)
  }

  /** The base image of the cluster, or else of the operator, with the digest of the release or its tag. */
  ghost predicate RendersImage(op: Operator, spec: ClusterSpec, n: State, image: string) {
    exists base :: BaseFrom(base, ExplodeImage(spec.image).base, spec.baseImage, op.imageName)
                   && image == base + (if n.digest != "" then "@" + n.digest else ":" + n.tag)
  }

  lemma ArrivedRuns(op: Operator, spec: ClusterSpec, s: Source, secretHash: string, w: World, at: Id)
    requires Unhindered(spec, s) && Cruising(op, spec, s, w) && Arrived(op, spec, s, secretHash, w, at)
    ensures at in s.index && RunsRelease(op, spec, s, secretHash, w, at)
  {
    var v := StatusOf(w).version.value;
    var c, n := ConfigAt(op, spec, s, v), s.StateOf(at);
    RenderMeaning(c, secretHash);
    ImageAt(op, spec, s, v);
    assert Pullable(n);
  }

  lemma ImageAt(op: Operator, spec: ClusterSpec, s: Source, v: Version)
    requires s.Valid() && v.name in s.index && Pullable(s.StateOf(v.name))
    ensures RendersImage(op, spec, s.nodes[s.index[v.name]], ConfigAt(op, spec, s, v).migration.image)
  {
    var base := BaseImage(RequestOf(op, spec));
    assert BaseFrom(base, ExplodeImage(spec.image).base, spec.baseImage, op.imageName);
  }

  lemma NoRoundsLeft(op: Operator, spec: ClusterSpec, s: Source, secretHash: string, w: World)
    requires Cruising(op, spec, s, w) && RoundsLeft(op, spec, s, secretHash, w) == 0
    ensures Arrived(op, spec, s, secretHash, w, Destination(op, spec, s, w))
  {
  }

  lemma CruisingOn(op: Operator, spec: ClusterSpec, s: Source, w: World, w': World)
    requires Cruising(op, spec, s, w) && w'.Valid() && SameCluster(w, w') && Healthy(SiteOf(w'))
    requires StatusOf(w').version.Some? && OnWay(op, spec, s, StatusOf(w').version.value)
    ensures Cruising(op, spec, s, w')
  {
  }

  lemma RollingTakesRounds(c: Config, x: Site, secretHash: string)
    requires x.status.RolloutInProgress()
    ensures Stage(c, x, secretHash) >= 1
  {
  }

  /** No rise, and the same destination. */
  ghost predicate NoRise(op: Operator, spec: ClusterSpec, s: Source, secretHash: string, w: World, w': World)
    requires Cruising(op, spec, s, w)
  {
    && Cruising(op, spec, s, w') && Destination(op, spec, s, w') == Destination(op, spec, s, w)
    && RoundsLeft(op, spec, s, secretHash, w') <= RoundsLeft(op, spec, s, secretHash, w)
  }

  /** The same version, and its rank has not risen. */
  lemma RankNoRise(op: Operator, spec: ClusterSpec, s: Source, secretHash: string, w: World, w': World)
    requires Cruising(op, spec, s, w) && w'.Valid() && SameCluster(w, w') && Healthy(SiteOf(w'))
    requires StatusOf(w').version == StatusOf(w).version
    requires var v := StatusOf(w).version.value;
             Rank(op, spec, s, secretHash, w', v) <= Rank(op, spec, s, secretHash, w, v)
    ensures NoRise(op, spec, s, secretHash, w, w')
  {
    CruisingOn(op, spec, s, w, w');
  }

  /** A noticed change is one write less to come. */
  lemma NoticedLowers(op: Operator, spec: ClusterSpec, s: Source, v: View, w: World, mid: World)
    requires Cruising(op, spec, s, w) && mid.Valid() && CurrentView(w, v) && SameCluster(w, mid)
    requires SiteOf(mid) == SiteOf(w).(status := NoticeChange(v.cluster, v.secretHash))
    ensures NoRise(op, spec, s, v.secretHash, w, mid)
    ensures ConfigChanged(v.cluster, v.secretHash) ==>
              RoundsLeft(op, spec, s, v.secretHash, mid) < RoundsLeft(op, spec, s, v.secretHash, w)
  {
    var noticed, c := NoticeChange(v.cluster, v.secretHash), ConfigAt(op, spec, s, StatusOf(w).version.value);
    NoticeKeeps(v.cluster, v.secretHash);
    StageNoticed(c, SiteOf(w), noticed, v.secretHash);
    NoticedBacklog(v.cluster, c, Advertised(op, c), v.secretHash);
    RankNoRise(op, spec, s, v.secretHash, w, mid);
  }

  /** Once the configuration is recorded nothing is to be written before progress goes on. */
  lemma NoBacklog(op: Operator, spec: ClusterSpec, s: Source, v: View, w: World, mid: World)
    requires s.Valid() && Pin(spec, s) in s.index && w.Valid() && mid.Valid()
    requires CurrentView(w, v) && StatusOf(w).version.Some?
    requires SameCluster(w, mid) && OnlyProgress(Told(op, spec, s, v), StatusOf(mid))
    ensures var c := ConfigNext(op, spec, s, StatusOf(w));
            Backlog(Last(mid.clusters), c, Advertised(op, c), v.secretHash) == 0
  {
    var c, s1 := ConfigNext(op, spec, s, StatusOf(w)), Told(op, spec, s, v);
    RecordedBacklog(v.cluster, s1, c, Advertised(op, c), v.secretHash);
    BacklogKept(v.cluster.(status := s1), StatusOf(mid), c, Advertised(op, c), v.secretHash);
  }

  /** A recorded configuration: no rise, and a drop unless it is the one recorded before. */
  lemma RecordedNoRise(op: Operator, spec: ClusterSpec, s: Source, v: View, w: World, mid: World)
    requires Unhindered(spec, s) && Cruising(op, spec, s, w) && mid.Valid() && CurrentView(w, v)
    requires RecordedIn(ConfigNext(op, spec, s, StatusOf(w)), v.secretHash, Told(op, spec, s, v), w, mid)
    ensures NoRise(op, spec, s, v.secretHash, w, mid)
    ensures !ConfigChanged(v.cluster, v.secretHash) && Told(op, spec, s, v) != StatusOf(w) ==>
              RoundsLeft(op, spec, s, v.secretHash, mid) < RoundsLeft(op, spec, s, v.secretHash, w)
  {
    var u, rolling := StatusOf(w).version.value, StatusOf(w).RolloutInProgress();
    NextOnWay(op, spec, s, u, rolling);
    NoBacklog(op, spec, s, v, w, mid);
    ToldVersion(op, spec, s, v);
    if NextFor(spec, s, u, rolling) == u {
      RankNoRise(op, spec, s, v.secretHash, w, mid);
    } else {
      CloserDrops(op, spec, s, v.secretHash, w, mid);
    }
  }

  /** A step closer to the end makes up for all the stages. */
  lemma CloserDrops(op: Operator, spec: ClusterSpec, s: Source, secretHash: string, w: World, mid: World)
    requires Cruising(op, spec, s, w) && mid.Valid() && SameCluster(w, mid) && Healthy(SiteOf(mid))
    requires StatusOf(mid).version.Some? && OnWay(op, spec, s, StatusOf(mid).version.value)
    requires var v, to, p := StatusOf(w).version.value, StatusOf(mid).version.value, Pin(spec, s);
             && EndOf(s, p, to.name) == EndOf(s, p, v.name)
             && StepsLeft(s, p, to.name) == StepsLeft(s, p, v.name) - 1
    requires var c := ConfigAt(op, spec, s, StatusOf(mid).version.value);
             Backlog(Last(mid.clusters), c, Advertised(op, c), secretHash) == 0
    ensures NoRise(op, spec, s, secretHash, w, mid)
    ensures RoundsLeft(op, spec, s, secretHash, mid) < RoundsLeft(op, spec, s, secretHash, w)
  {
    CruisingOn(op, spec, s, w, mid);
  }

  /** Wherever the plan is cut short the measure has not risen. */
  lemma CutNoRise(op: Operator, spec: ClusterSpec, s: Source, v: View, w: World, mid: World)
    requires Unhindered(spec, s) && Cruising(op, spec, s, w) && mid.Valid() && CurrentView(w, v)
    requires CutShort(ConfigNext(op, spec, s, StatusOf(w)), v.secretHash, NoticeChange(v.cluster, v.secretHash),
                      Told(op, spec, s, v), w, mid)
    ensures NoRise(op, spec, s, v.secretHash, w, mid)
  {
    if SiteOf(mid) == SiteOf(w) {
      assert Last(mid.clusters) == Last(w.clusters);
      RankNoRise(op, spec, s, v.secretHash, w, mid);
    } else if SiteOf(mid) == SiteOf(w).(status := NoticeChange(v.cluster, v.secretHash)) {
      NoticedLowers(op, spec, s, v, w, mid);
    } else {
      RecordedNoRise(op, spec, s, v, w, mid);
    }
  }

  /** While jobs and the rollout go on the measure does not rise. */
  lemma RestNoRise(op: Operator, spec: ClusterSpec, s: Source, secretHash: string, mid: World, w': World)
    requires Cruising(op, spec, s, mid) && Rest(mid, w', spec.replicas)
    ensures NoRise(op, spec, s, secretHash, mid, w')
  {
    RestKeepsCluster(mid, w', spec.replicas);
    WaitEffect(SiteOf(mid), SiteOf(w'), ConfigAt(op, spec, s, StatusOf(mid).version.value), secretHash);
    RankNoRise(op, spec, s, secretHash, mid, w');
  }

  predicate Drops(before: nat, after: nat) {
    after < before || after == before == 0
  }

  /** With the configuration recorded before, a reconcile moves the stage on, and waiting does the rest. */
  lemma StageDrops(op: Operator, spec: ClusterSpec, s: Source, v: View, w: World, mid: World, w': World)
    requires Unhindered(spec, s) && Cruising(op, spec, s, w) && mid.Valid() && CurrentView(w, v)
    requires Told(op, spec, s, v) == StatusOf(w) && !ConfigChanged(v.cluster, v.secretHash)
    requires var c := ConfigNext(op, spec, s, StatusOf(w));
             && RecordedIn(c, v.secretHash, StatusOf(w), w, mid)
             && NextStage(Stage(c, SiteOf(w), v.secretHash), Stage(c, SiteOf(mid), v.secretHash), true)
    requires Rest(mid, w', spec.replicas) && Settled(SiteOf(w'), spec.replicas) && Cruising(op, spec, s, w')
    ensures Drops(RoundsLeft(op, spec, s, v.secretHash, w), RoundsLeft(op, spec, s, v.secretHash, w'))
  {
    var u, rolling := StatusOf(w).version.value, StatusOf(w).RolloutInProgress();
    var c := ConfigNext(op, spec, s, StatusOf(w));
    ToldVersion(op, spec, s, v);
    NextOnWay(op, spec, s, u, rolling);
    assert NextFor(spec, s, u, rolling) == u;
    if rolling {
      RollingTakesRounds(c, SiteOf(w), v.secretHash);
    }
    NoBacklog(op, spec, s, v, w, mid);
    RestKeepsCluster(mid, w', spec.replicas);
    SettleEffect(SiteOf(mid), SiteOf(w'), c, v.secretHash);
  }

  /** A reconcile that only its own lock may have cut, after which there is nothing to wait for, lowers
      the measure. */
  lemma SettledLowers(op: Operator, spec: ClusterSpec, s: Source, v: View, w: World, mid: World, w': World)
    requires Unhindered(spec, s) && Cruising(op, spec, s, w) && mid.Valid() && CurrentView(w, v)
    requires Steps(ConfigNext(op, spec, s, StatusOf(w)), v, NoticeChange(v.cluster, v.secretHash),
                   Told(op, spec, s, v), w, mid) && v.applyAccepted
    requires NoRise(op, spec, s, v.secretHash, w, mid) && NoRise(op, spec, s, v.secretHash, mid, w')
    requires Rest(mid, w', spec.replicas) && Settled(SiteOf(w'), spec.replicas)
    ensures Drops(RoundsLeft(op, spec, s, v.secretHash, w), RoundsLeft(op, spec, s, v.secretHash, w'))
  {
    if ConfigChanged(v.cluster, v.secretHash) {
      NoticedLowers(op, spec, s, v, w, mid);
    } else if Told(op, spec, s, v) != StatusOf(w) {
      RecordedNoRise(op, spec, s, v, w, mid);
    } else {
      StageDrops(op, spec, s, v, w, mid, w');
    }
  }

  /** Only its lock has cut the round short, and it ends with nothing to wait for. */
  ghost predicate Settles(op: Operator, w: World, a: Attempt, w': World, replicas: int) {
    w.Valid() && w'.Valid() && Full(op, w, a) && Settled(SiteOf(w'), replicas)
  }

  /** What the reconcile has read is no part of the measure. */
  lemma BegunSame(op: Operator, spec: ClusterSpec, s: Source, secretHash: string, w: World, v: View)
    requires Cruising(op, spec, s, w) && CurrentView(w, v)
    ensures var begun := Begun(w, v);
            && Cruising(op, spec, s, begun) && CurrentView(begun, v) && Fresh(begun)
            && RoundsLeft(op, spec, s, secretHash, begun) == RoundsLeft(op, spec, s, secretHash, w)
            && Destination(op, spec, s, begun) == Destination(op, spec, s, w)
  {
    assert SiteOf(Begun(w, v)) == SiteOf(w);
  }

  lemma RoundNoRise(op: Operator, spec: ClusterSpec, s: Source, secretHash: string, w: World, a: Attempt, w': World)
    requires Unhindered(spec, s) && Cruising(op, spec, s, w) && Round(op, spec, secretHash, w, a, w')
    ensures Cruising(op, spec, s, Begun(w, a.v))
    ensures NoRise(op, spec, s, secretHash, Begun(w, a.v), Reached(op, w, a))
    ensures NoRise(op, spec, s, secretHash, Reached(op, w, a), w')
  {
    var begun := Begun(w, a.v);
    BegunSame(op, spec, s, secretHash, w, a.v);
    CutEffect(op, spec, s, begun, a.v, a.carried);
    CutNoRise(op, spec, s, a.v, begun, Reached(op, w, a));
    RestNoRise(op, spec, s, secretHash, Reached(op, w, a), w');
  }

  lemma RoundDrops(op: Operator, spec: ClusterSpec, s: Source, begun: World, v: View, mid: World, w': World)
    requires Unhindered(spec, s) && Cruising(op, spec, s, begun) && CurrentView(begun, v) && Fresh(begun)
    requires mid == Landed(begun, Reconcile(op, v).writes) && v.applyAccepted
    requires NoRise(op, spec, s, v.secretHash, begun, mid) && NoRise(op, spec, s, v.secretHash, mid, w')
    requires Rest(mid, w', spec.replicas) && Settled(SiteOf(w'), spec.replicas)
    ensures Drops(RoundsLeft(op, spec, s, v.secretHash, begun), RoundsLeft(op, spec, s, v.secretHash, w'))
  {
    ReconcileEffect(op, spec, s, begun, v);
    SettledLowers(op, spec, s, v, begun, mid, w');
  }

  /** The measure never rises in a round, wherever it is cut short, whatever pods fail, and whether or
      not the deployment is accepted; and it drops, down to zero, in each round that settles, also
      when the operator's own lock has cut it short. */
  lemma RoundProgress(op: Operator, spec: ClusterSpec, s: Source, secretHash: string, w: World, a: Attempt, w': World)
    requires Unhindered(spec, s) && Cruising(op, spec, s, w) && Round(op, spec, secretHash, w, a, w')
    ensures NoRise(op, spec, s, secretHash, w, w')
    ensures Settles(op, w, a, w', spec.replicas) ==>
              Drops(RoundsLeft(op, spec, s, secretHash, w), RoundsLeft(op, spec, s, secretHash, w'))
  {
    var begun, mid := Begun(w, a.v), Reached(op, w, a);
    BegunSame(op, spec, s, secretHash, w, a.v);
    RoundNoRise(op, spec, s, secretHash, w, a, w');
    NoRiseJoins(op, spec, s, secretHash, begun, mid, w');
    if Settles(op, w, a, w', spec.replicas) {
      RoundDrops(op, spec, s, begun, a.v, mid, w');
    }
  }

  lemma NoRiseJoins(op: Operator, spec: ClusterSpec, s: Source, secretHash: string, a: World, b: World, c: World)
    requires Cruising(op, spec, s, a) && NoRise(op, spec, s, secretHash, a, b) && NoRise(op, spec, s, secretHash, b, c)
    ensures NoRise(op, spec, s, secretHash, a, c)
  {
  }

  ghost predicate RoundAt(op: Operator, spec: ClusterSpec, s: Source, secretHash: string,
                          ws: seq<World>, rs: seq<Attempt>, i: nat)
    requires i < |rs| < |ws|
  {
    Unhindered(spec, s) && Round(op, spec, secretHash, ws[i], rs[i], ws[i + 1])
  }

  /** Successive rounds of an unhindered cluster. */
  ghost predicate Rounds(op: Operator, spec: ClusterSpec, s: Source, secretHash: string,
                         ws: seq<World>, rs: seq<Attempt>) {
    |ws| == |rs| + 1 && forall i :: 0 <= i < |rs| ==> RoundAt(op, spec, s, secretHash, ws, rs, i)
  }

  ghost predicate Left(op: Operator, spec: ClusterSpec, s: Source, secretHash: string, w: World, at: Id, left: nat) {
    && Cruising(op, spec, s, w) && Destination(op, spec, s, w) == at
    && RoundsLeft(op, spec, s, secretHash, w) == left
  }

  /** After `n` rounds that settled: none are left of the `k` there were at the start, or `n` fewer. */
  ghost predicate FewLeft(op: Operator, spec: ClusterSpec, s: Source, secretHash: string, w: World, at: Id,
                          k: nat, n: nat) {
    exists left: nat :: Left(op, spec, s, secretHash, w, at, left) && (left == 0 || left + n <= k)
  }

  ghost predicate SettlesAt(op: Operator, replicas: int, ws: seq<World>, rs: seq<Attempt>, i: nat) {
    i < |rs| && i + 1 < |ws| && Settles(op, ws[i], rs[i], ws[i + 1], replicas)
  }

  /** How many of the first `n` rounds settled, cut short by the lock at most; any number of others may lie between. */
  ghost function SettledRounds(op: Operator, replicas: int, ws: seq<World>, rs: seq<Attempt>, n: nat): nat {
    if n == 0 then 0
    else SettledRounds(op, replicas, ws, rs, n - 1) + if SettlesAt(op, replicas, ws, rs, n - 1) then 1 else 0
  }

  ghost function Countdown(op: Operator, spec: ClusterSpec, s: Source, secretHash: string,
                           ws: seq<World>, rs: seq<Attempt>, at: Id, k: nat): nat -> bool {
    (i: nat) => i < |ws| &&
                FewLeft(op, spec, s, secretHash, ws[i], at, k, SettledRounds(op, spec.replicas, ws, rs, i))
  }

  lemma FewAfterRound(op: Operator, spec: ClusterSpec, s: Source, secretHash: string,
                      w: World, a: Attempt, w': World, at: Id, k: nat, n: nat)
    requires Unhindered(spec, s) && Round(op, spec, secretHash, w, a, w')
    requires FewLeft(op, spec, s, secretHash, w, at, k, n)
    ensures FewLeft(op, spec, s, secretHash, w', at, k, if Settles(op, w, a, w', spec.replicas) then n + 1 else n)
  {
    RoundProgress(op, spec, s, secretHash, w, a, w');
    assert Left(op, spec, s, secretHash, w', at, RoundsLeft(op, spec, s, secretHash, w'));
  }

  lemma SettledStep(op: Operator, replicas: int, ws: seq<World>, rs: seq<Attempt>, i: nat)
    requires i < |rs| && i + 1 < |ws|
    ensures SettledRounds(op, replicas, ws, rs, i + 1)
         == if Settles(op, ws[i], rs[i], ws[i + 1], replicas) then SettledRounds(op, replicas, ws, rs, i) + 1
            else SettledRounds(op, replicas, ws, rs, i)
  {
  }

  lemma LeftAfterRound(op: Operator, spec: ClusterSpec, s: Source, secretHash: string,
                       ws: seq<World>, rs: seq<Attempt>, at: Id, k: nat, i: nat)
    requires Rounds(op, spec, s, secretHash, ws, rs) && i < |rs|
    requires Countdown(op, spec, s, secretHash, ws, rs, at, k)(i)
    ensures Countdown(op, spec, s, secretHash, ws, rs, at, k)(i + 1)
  {
    assert RoundAt(op, spec, s, secretHash, ws, rs, i);
    var n, w := SettledRounds(op, spec.replicas, ws, rs, i), ws[i + 1];
    SettledStep(op, spec.replicas, ws, rs, i);
    FewAfterRound(op, spec, s, secretHash, ws[i], rs[i], w, at, k, n);
    assert FewLeft(op, spec, s, secretHash, w, at, k, SettledRounds(op, spec.replicas, ws, rs, i + 1));
  }

  lemma RoundsCountDown(op: Operator, spec: ClusterSpec, s: Source, secretHash: string,
                        ws: seq<World>, rs: seq<Attempt>, at: Id, k: nat, n: nat)
    requires Rounds(op, spec, s, secretHash, ws, rs) && n <= |rs|
    requires Countdown(op, spec, s, secretHash, ws, rs, at, k)(0)
    ensures Countdown(op, spec, s, secretHash, ws, rs, at, k)(n)
  {
    forall i: nat | i < n && Countdown(op, spec, s, secretHash, ws, rs, at, k)(i)
      ensures Countdown(op, spec, s, secretHash, ws, rs, at, k)(i + 1)
    {
      LeftAfterRound(op, spec, s, secretHash, ws, rs, at, k, i);
    }
    Stepwise(Countdown(op, spec, s, secretHash, ws, rs, at, k), n);
  }

  /** Seven rounds for every release, and one more. */
  function EnoughRounds(s: Source): nat {
    7 * |s.nodes| + 1
  }

  lemma RoundsBound(op: Operator, spec: ClusterSpec, s: Source, secretHash: string, w: World)
    requires Cruising(op, spec, s, w)
    ensures RoundsLeft(op, spec, s, secretHash, w) <= EnoughRounds(s)
  {
    var v := StatusOf(w).version.value;
    RankBound(op, spec, s, secretHash, w, v);
    assert StepsLeft(s, Pin(spec, s), v.name) < |s.nodes| by {
      StepsBound(s, Pin(spec, s), v.name);
    }
  }

  lemma RankBound(op: Operator, spec: ClusterSpec, s: Source, secretHash: string, w: World, v: Version)
    requires s.Valid() && w.Valid()
    ensures Rank(op, spec, s, secretHash, w, v) <= 8
  {
  }

  lemma AtStart(op: Operator, spec: ClusterSpec, s: Source, secretHash: string, ws: seq<World>, rs: seq<Attempt>)
    requires ws != [] && Cruising(op, spec, s, ws[0])
    ensures Countdown(op, spec, s, secretHash, ws, rs, Destination(op, spec, s, ws[0]), EnoughRounds(s))(0)
  {
    RoundsBound(op, spec, s, secretHash, ws[0]);
    assert Left(op, spec, s, secretHash, ws[0], Destination(op, spec, s, ws[0]),
                RoundsLeft(op, spec, s, secretHash, ws[0]));
  }

  lemma AtEnd(op: Operator, spec: ClusterSpec, s: Source, secretHash: string, w: World, at: Id, k: nat, n: nat)
    requires FewLeft(op, spec, s, secretHash, w, at, k, n) && k <= n && Unhindered(spec, s)
    ensures w.Valid() && Arrived(op, spec, s, secretHash, w, at)
    ensures at in s.index && RunsRelease(op, spec, s, secretHash, w, at)
  {
    NoRoundsLeft(op, spec, s, secretHash, w);
    ArrivedRuns(op, spec, s, secretHash, w, at);
  }

  /** A cluster whose jobs and rollouts eventually succeed converges: however many rounds are cut
      short, refused, marred by failing pods or spent waiting, once seven rounds that only the lock may
      have cut short have settled for every release of the channel, and one more, the release at the
      end of its walk runs, and from then on it stays there with nothing in progress. */
  lemma ClusterConverges(op: Operator, spec: ClusterSpec, s: Source, secretHash: string,
                         ws: seq<World>, rs: seq<Attempt>, n: nat)
    requires Rounds(op, spec, s, secretHash, ws, rs) && n < |ws|
    requires Unhindered(spec, s) && Cruising(op, spec, s, ws[0])
    requires SettledRounds(op, spec.replicas, ws, rs, n) >= EnoughRounds(s)
    ensures ws[n].Valid() && Arrived(op, spec, s, secretHash, ws[n], Destination(op, spec, s, ws[0]))
    ensures var at := Destination(op, spec, s, ws[0]);
            at in s.index && RunsRelease(op, spec, s, secretHash, ws[n], at)
  {
    var at := Destination(op, spec, s, ws[0]);
    AtStart(op, spec, s, secretHash, ws, rs);
    RoundsCountDown(op, spec, s, secretHash, ws, rs, at, EnoughRounds(s), n);
    AtEnd(op, spec, s, secretHash, ws[n], at, EnoughRounds(s), SettledRounds(op, spec.replicas, ws, rs, n));
  }

  /** On an accepted channel an unpinned cluster is on its way to the head. */
  lemma UnpinnedDestination(op: Operator, spec: ClusterSpec, s: Source, v: Version)
    requires Accepted(s) && spec.version == "" && OnChannel(op.graph, RequestOf(op, spec), s, v)
    ensures OnWay(op, spec, s, v) && EndOf(s, Pin(spec, s), v.name) == s.Head()
  {
    WalkEndsAtHead(s, v.name);
  }

  /** With forward edges a pinned cluster is on its way to its pin, if it is no newer and every older
      release keeps an edge to a release no newer than the pin. */
  lemma PinnedDestination(op: Operator, spec: ClusterSpec, s: Source, v: Version)
    requires s.Valid() && s.Forward() && spec.version in s.index && spec.version != ""
    requires OnChannel(op.graph, RequestOf(op, spec), s, v) && s.index[v.name] >= s.index[spec.version]
    requires OlderKeepUpdates(s, spec.version)
    ensures OnWay(op, spec, s, v) && EndOf(s, Pin(spec, s), v.name) == spec.version
  {
    WalkEndsAtPin(s, spec.version, v.name);
  }

  // ---- A new cluster ----

  /** Nothing is recorded yet, and the channel asked for, or the default one, has source `s`. */
  ghost predicate New(op: Operator, spec: ClusterSpec, s: Source, channel: string, o: ClusterObject) {
    var rq := RequestOf(op, spec);
    && o.spec == spec && !o.paused && o.status.version.None? && !o.status.RolloutInProgress()
    && !PinnedImage(rq.image) && BaseImage(rq) != ""
    && ChannelFor(op.graph, rq, None) == Some(channel) && channel != ""
    && SourceFor(op.graph, rq.engine, channel) == Some(s) && "" !in s.index
  }

  /** The pin or the head, to be installed with its migrations. */
  function FirstVersion(spec: ClusterSpec, s: Source, channel: string): Version
    requires s.Valid()
  {
    Version(Pin(spec, s), channel, [Migration], [])
  }

  lemma FirstTarget(op: Operator, spec: ClusterSpec, s: Source, channel: string)
    requires Unhindered(spec, s) && "" !in s.index
    requires var rq := RequestOf(op, spec);
             && !PinnedImage(rq.image) && BaseImage(rq) != ""
             && ChannelFor(op.graph, rq, None) == Some(channel) && channel != ""
             && SourceFor(op.graph, rq.engine, channel) == Some(s)
    ensures var rq, first := RequestOf(op, spec), FirstVersion(spec, s, channel);
            && Resolve(op.graph, rq, None, false)
            == Target(BaseImage(rq), Some(first), s.StateOf(first.name), None)
            && (rq.channel == "" || rq.channel == channel)
  {
    assert s.IdAt(0) == s.Head();
    assert s.IdAt(s.index[Pin(spec, s)]) == Pin(spec, s);
  }

  lemma FirstPlan(op: Operator, spec: ClusterSpec, s: Source, channel: string, o: ClusterObject, v: View)
    requires Unhindered(spec, s) && New(op, spec, s, channel, o) && v.cluster == o
    ensures var c := ConfigAt(op, spec, s, FirstVersion(spec, s, channel));
            Reconcile(op, v) == ReconcileWith(v, NoticeChange(o, v.secretHash), Ok(c), Some(Advertised(op, c)))
    ensures OnWay(op, spec, s, FirstVersion(spec, s, channel))
  {
    var rq, first := RequestOf(op, spec), FirstVersion(spec, s, channel);
    NoticeKeeps(o, v.secretHash);
    FirstTarget(op, spec, s, channel);
    assert Pullable(s.StateOf(first.name));
    SoundConfig(spec, Target(BaseImage(rq), Some(first), s.StateOf(first.name), None));
    AdvertisesUpdates(op, ConfigAt(op, spec, s, first), s);
    NoStepLeft(s, Pin(spec, s), first.name);
  }

  /** The first round of a new cluster notices it, if that is still to be done, and otherwise records
      its pin, or the head of its channel, as soon as that write is carried out; later rounds then
      bring it up. */
  lemma NewClusterStartsAtPin(op: Operator, spec: ClusterSpec, s: Source, channel: string,
                              secretHash: string, w: World, a: Attempt, w': World)
    requires Unhindered(spec, s) && w.Valid() && New(op, spec, s, channel, Last(w.clusters)) && Healthy(SiteOf(w))
    requires Round(op, spec, secretHash, w, a, w')
    ensures Started(op, spec, s, channel, w', Full(op, w, a) && !ConfigChanged(Last(w.clusters), secretHash))
    ensures Full(op, w, a) && StatusOf(w').version.None? ==> !ConfigChanged(Last(w'.clusters), secretHash)
  {
    var begun, mid := Begun(w, a.v), Reached(op, w, a);
    var noticed, c := NoticeChange(a.v.cluster, secretHash), ConfigAt(op, spec, s, FirstVersion(spec, s, channel));
    assert SiteOf(begun) == SiteOf(w);
    FirstEffect(op, spec, s, channel, begun, a.v, a.carried, noticed, c);
    CutStarts(op, spec, s, channel, a.v, noticed, begun, mid, Full(op, w, a));
    RestKeepsCluster(mid, w', spec.replicas);
    StartedRest(op, spec, s, channel, mid, w', Full(op, w, a) && !ConfigChanged(a.v.cluster, secretHash));
  }

  lemma FirstEffect(op: Operator, spec: ClusterSpec, s: Source, channel: string, w: World, v: View, n: nat,
                    noticed: Status, c: Config)
    requires Unhindered(spec, s) && Fresh(w) && New(op, spec, s, channel, Last(w.clusters)) && Healthy(SiteOf(w))
    requires CurrentView(w, v) && noticed == NoticeChange(v.cluster, v.secretHash)
    requires c == ConfigAt(op, spec, s, FirstVersion(spec, s, channel)) && n <= |Reconcile(op, v).writes|
    ensures OnWay(op, spec, s, FirstVersion(spec, s, channel))
    ensures noticed.version.None? && !noticed.RolloutInProgress()
    ensures var s1 := Telling(v, noticed, c, Advertised(op, c));
            && s1.version == c.migration.version
            && CutShort(c, v.secretHash, noticed, s1, w, CarryAll(w, Reconcile(op, v).writes[..n]))
            && Steps(c, v, noticed, s1, w, Landed(w, Reconcile(op, v).writes))
  {
    FirstPlan(op, spec, s, channel, Last(w.clusters), v);
    NoticeKeeps(v.cluster, v.secretHash);
    FirstParts(w, v, noticed, c, Advertised(op, c), Reconcile(op, v).writes, n);
  }

  lemma FirstParts(w: World, v: View, noticed: Status, c: Config, available: seq<Version>, xs: seq<Write>, n: nat)
    requires Fresh(w) && Healthy(SiteOf(w)) && CurrentView(w, v)
    requires !v.cluster.paused && Credentials.SpecOk(v.cluster.spec.credentials)
    requires noticed == NoticeChange(v.cluster, v.secretHash) && noticed.version.None? && c.migration.version.Some?
    requires xs == ReconcileWith(v, noticed, Ok(c), Some(available)).writes && n <= |xs|
    ensures var s1 := Telling(v, noticed, c, available);
            && s1.version == c.migration.version
            && CutShort(c, v.secretHash, noticed, s1, w, CarryAll(w, xs[..n]))
            && Steps(c, v, noticed, s1, w, Landed(w, xs))
  {
    CutPlan(w, v, noticed, c, available, n);
    PlanEffect(w, v, noticed, c, available);
  }

  lemma CutStarts(op: Operator, spec: ClusterSpec, s: Source, channel: string, v: View, noticed: Status,
                  w: World, mid: World, full: bool)
    requires Unhindered(spec, s) && w.Valid() && New(op, spec, s, channel, Last(w.clusters)) && CurrentView(w, v)
    requires OnWay(op, spec, s, FirstVersion(spec, s, channel)) && mid.Valid()
    requires noticed == NoticeChange(v.cluster, v.secretHash) && noticed.version.None? && !noticed.RolloutInProgress()
    requires var c := ConfigAt(op, spec, s, FirstVersion(spec, s, channel));
             var s1 := Telling(v, noticed, c, Advertised(op, c));
             && s1.version == c.migration.version
             && CutShort(c, v.secretHash, noticed, s1, w, mid) && (full ==> Steps(c, v, noticed, s1, w, mid))
    ensures Started(op, spec, s, channel, mid, full && !ConfigChanged(v.cluster, v.secretHash))
    ensures full && StatusOf(mid).version.None? ==> !ConfigChanged(Last(mid.clusters), v.secretHash)
  {
  }

  /** Still new, or on the way with the first version recorded. */
  ghost predicate Started(op: Operator, spec: ClusterSpec, s: Source, channel: string, w: World, whole: bool)
    requires s.Valid()
  {
    && w.Valid() && Healthy(SiteOf(w))
    && (StartedAt(op, spec, s, channel, w) || (!whole && New(op, spec, s, channel, Last(w.clusters))))
  }

  ghost predicate StartedAt(op: Operator, spec: ClusterSpec, s: Source, channel: string, w: World)
    requires s.Valid()
  {
    Cruising(op, spec, s, w) && StatusOf(w).version == Some(FirstVersion(spec, s, channel))
  }

  lemma StartedRest(op: Operator, spec: ClusterSpec, s: Source, channel: string, mid: World, w': World,
                    whole: bool)
    requires s.Valid() && Started(op, spec, s, channel, mid, whole)
    requires Rest(mid, w', spec.replicas)
    ensures Started(op, spec, s, channel, w', whole)
  {
    RestKeepsCluster(mid, w', spec.replicas);
    WaitEffect(SiteOf(mid), SiteOf(w'), ConfigAt(op, spec, s, FirstVersion(spec, s, channel)), "");
  }

  // ---- The head has to be final ----

  /** A quiet cluster at the head stays there if and only if the head leads nowhere else. */
  lemma HeadIsKept(g: Graph, rq: Request, s: Source, v: Version)
    requires OnChannel(g, rq, s, v) && rq.version == "" && v.name == s.Head()
    ensures TargetProperties.Advance(g, rq, v).name == s.Head() <==> s.NextVersion(s.Head()) in {"", s.Head()}
  {
    UnpinnedTarget(g, rq, s, v, false);
  }

  // ---- Rounds are runs ----

  lemma {:induction false} CarryAllPending(w: World, xs: seq<Write>)
    requires w.Valid()
    ensures CarryAll(w, xs).pending == w.pending
    decreases |xs|
  {
    if xs != [] {
      CarryAllPending(CarryOut(w, xs[0]), xs[1..]);
    }
  }

  ghost predicate Leads(op: Operator, ws: seq<World>, es: seq<Event>, from: World, to: World) {
    Segment(op, ws, es) && ws[0] == from && Last(ws) == to
  }

  /** Steps lead from one world to another. */
  ghost predicate Connected(op: Operator, from: World, to: World) {
    exists ws, es :: Leads(op, ws, es, from, to)
  }

  lemma StepConnects(op: Operator, w: World, e: Event, w': World)
    requires Step(op, w, e, w')
    ensures Connected(op, w, w')
  {
    var ws, es := [w, w'], [e];
    assert ws[0] == w && ws[1] == w' && es[0] == e;
    assert Leads(op, ws, es, w, w') by {
      assert StepAt(op, ws, es, 0);
    }
  }

  lemma Join(op: Operator, a: World, b: World, c: World)
    requires Connected(op, a, b) && Connected(op, b, c)
    ensures Connected(op, a, c)
  {
    var ws, es :| Leads(op, ws, es, a, b);
    var ws', es' :| Leads(op, ws', es', b, c);
    var all, events := ws + ws'[1..], es + es';
    forall i | 0 <= i < |events| ensures StepAt(op, all, events, i) {
      if i < |es| {
        assert StepAt(op, ws, es, i);
      } else {
        assert StepAt(op, ws', es', i - |es|);
      }
    }
    assert Leads(op, all, events, a, c);
  }

  lemma {:induction false} Advancing(op: Operator, w: World, xs: seq<Write>, n: nat)
    requires w.Valid() && n <= Granted(w, xs)
    ensures Connected(op, w.(pending := xs), CarryAll(w, xs[..n]).(pending := xs[n..]))
    decreases n
  {
    if n == 0 {
      assert xs[..n] == [] && xs[n..] == xs;
      assert Leads(op, [w.(pending := xs)], [], w.(pending := xs), w.(pending := xs));
    } else {
      var w1, rest := CarryOut(w, xs[0]), xs[1..];
      assert xs[..n][1..] == rest[..n - 1] && rest[n - 1..] == xs[n..];
      Advancing(op, w1, rest, n - 1);
      StepConnects(op, w.(pending := xs), Event.Advance, w1.(pending := rest));
      Join(op, w.(pending := xs), w1.(pending := rest), CarryAll(w, xs[..n]).(pending := xs[n..]));
    }
  }

  lemma CurrentIsSeen(w: World, v: View)
    requires w.Valid() && Healthy(SiteOf(w)) && CurrentView(w, v)
    ensures Sees(w, v)
  {
    assert Last(w.deployments) == w.deployments[|w.deployments| - 1];
    assert Last(w.jobs) == w.jobs[|w.jobs| - 1];
  }

  lemma WaitingIsPossible(w: World, js: Jobs, ds: Deployments, replicas: int)
    requires w.Valid() && Healthy(SiteOf(w))
    requires Waits(SiteOf(w), Site(StatusOf(w), ds, js), replicas)
    ensures NamedJobs(js) && NamedDeployments(ds) && NoNewStamps(Last(w.deployments), ds)
  {
  }

  /** A reconcile begins, some of its writes are carried out, and it is over or abandoned. */
  lemma ReconcileConnects(op: Operator, w: World, v: View, n: nat)
    requires w.Valid() && w.pending == [] && Healthy(SiteOf(w)) && CurrentView(w, v)
    requires n <= Granted(Begun(w, v), Reconcile(op, v).writes)
    ensures Connected(op, w, CarryAll(Begun(w, v), Reconcile(op, v).writes[..n]))
  {
    var plan, begun := Reconcile(op, v).writes, Begun(w, v);
    var end := CarryAll(begun, plan[..n]);
    CurrentIsSeen(w, v);
    StepConnects(op, w, Begin(v), begun.(pending := plan));
    Advancing(op, begun, plan, n);
    Join(op, w, begun.(pending := plan), end.(pending := plan[n..]));
    CarryAllPending(begun, plan[..n]);
    StepConnects(op, end.(pending := plan[n..]), Abandon, end);
    Join(op, w, end.(pending := plan[n..]), end);
  }

  lemma RestConnects(op: Operator, w: World, w': World, replicas: int)
    requires w.Valid() && Healthy(SiteOf(w)) && Rest(w, w', replicas)
    ensures Connected(op, w, w')
  {
    var js, ds := Last(w'.jobs), Last(w'.deployments);
    WaitingIsPossible(w, js, ds, replicas);
    var next := w.(jobs := w.jobs + [js]);
    StepConnects(op, w, JobsChange(js), next);
    StepConnects(op, next, DeploymentsChange(ds), w');
    Join(op, w, next, w');
  }

  /** A round is a stretch of a run of the operator: the reconcile begins, its writes are carried out
      one by one as far as it gets, and jobs and deployments change. */
  lemma RoundIsRun(op: Operator, spec: ClusterSpec, s: Source, secretHash: string, w: World, a: Attempt, w': World)
    requires Unhindered(spec, s) && Cruising(op, spec, s, w) && Round(op, spec, secretHash, w, a, w')
    requires w.pending == []
    ensures Connected(op, w, w')
  {
    var mid := Reached(op, w, a);
    RoundNoRise(op, spec, s, secretHash, w, a, w');
    ReconcileConnects(op, w, a.v, a.carried);
    RestConnects(op, mid, w', spec.replicas);
    Join(op, w, mid, w');
  }
}
