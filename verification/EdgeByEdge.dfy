/** A status is written only while the cluster is as it was read, so, however stale the caches are, each
    change of the recorded version follows one edge; only the notice of a change is not locked. */
module EdgeByEdge {
  import opened Seqs
  import opened UpdateSource
  import opened UpdateGraph
  import opened Cluster
  import Credentials
  import opened Controller
  import opened Runs
  import opened OnRails

  // ---- One plan ----

  function WrittenName(x: Write): Id
    requires Patches(x)
  {
    if x.status.version.Some? then x.status.version.value.name else ""
  }

  /** From the first write that does not carry the name on, all carry the same one. */
  ghost predicate SwitchesOnce(xs: seq<Write>, from: Id) {
    forall a, b :: 0 <= a < b < |xs| && SwitchesAt(xs, from, a) && Patches(xs[b]) ==>
      WrittenName(xs[b]) == WrittenName(xs[a])
  }

  predicate SwitchesAt(xs: seq<Write>, from: Id, a: nat)
    requires a < |xs|
  {
    Patches(xs[a]) && WrittenName(xs[a]) != from
  }

  /** After the change is noticed, a plan writes the version of its target only. */
  lemma ValidateWrites(v: View, s: Status, config: Result<Config, seq<ConfigError>>,
                       available: Option<seq<Version>>, x: Write)
    requires x in Validate(v, s, config, available).writes
    ensures KeepsVersion(x, if config.Ok? then config.value.migration.version else s.version)
  {
    if config.Ok? && available.Some? {
      var computed := ComputedStatus(s, v.cluster.generation, config.value, v.cluster.spec.warning, available.value);
      if x in CheckMigrations(v, config.value, Validated(s, computed)).writes {
        CheckVersion(v, config.value, Validated(s, computed), x);
      }
    }
  }

  lemma SameName(x: Write, y: Write, version: Option<Version>)
    requires Patches(x) && Patches(y) && KeepsVersion(x, version) && KeepsVersion(y, version)
    ensures WrittenName(x) == WrittenName(y)
  {
  }

  lemma PlanSwitchesOnce(v: View, s: Status, config: Result<Config, seq<ConfigError>>,
                         available: Option<seq<Version>>)
    requires s.version == v.cluster.status.version
    ensures SwitchesOnce(ReconcileWith(v, s, config, available).writes, NameOf(v.cluster))
  {
    if !v.cluster.paused && Credentials.SpecOk(v.cluster.spec.credentials) {
      var patch := NoticeIf(ConfigChanged(v.cluster, v.secretHash), s);
      var rest := Validate(v, s, config, available).writes;
      var version := if config.Ok? then config.value.migration.version else s.version;
      forall x | x in rest ensures KeepsVersion(x, version) {
        ValidateWrites(v, s, config, available, x);
      }
      NoticedThenTarget(patch, rest, NameOf(v.cluster), version);
    }
  }

  lemma NoticedThenTarget(patch: seq<Write>, rest: seq<Write>, from: Id, version: Option<Version>)
    requires forall x :: x in patch && Patches(x) ==> WrittenName(x) == from
    requires forall x :: x in rest ==> KeepsVersion(x, version)
    ensures SwitchesOnce(patch + rest, from)
  {
    var xs := patch + rest;
    forall a, b | 0 <= a < b < |xs| && SwitchesAt(xs, from, a) && Patches(xs[b])
      ensures WrittenName(xs[b]) == WrittenName(xs[a])
    {
      assert xs[a] !in patch;
      SameName(xs[a], xs[b], version);
    }
  }

  // ---- Whole runs ----

  /** State `k` carries the version of the state just before, or one that an edge leads to from there,
      taken while nothing was migrating or rolling out and the hashes were equal. */
  ghost predicate Consecutive(op: Operator, cs: seq<ClusterObject>, k: nat)
    requires 0 < k < |cs|
  {
    OneStep(op.graph, cs[k - 1], cs[k].status.version)
  }

  ghost predicate Unbroken(op: Operator, cs: seq<ClusterObject>) {
    && cs != [] && Recorded(cs[0])
    && forall k :: 0 < k < |cs| ==> Consecutive(op, cs, k)
  }

  /** The statuses still to be written lead one step at most from the cluster that was read. */
  ghost predicate Bound(op: Operator, pending: seq<Write>, read: ClusterObject) {
    forall x :: x in pending && Patches(x) ==> OneStep(op.graph, read, x.status.version)
  }

  ghost predicate InStep(op: Operator, w: World) {
    w.Valid() && Unbroken(op, w.clusters) && Bound(op, w.pending, w.read)
  }

  /** A notice that is carried out is one step at most from the version recorded last. */
  ghost predicate NoticeInStep(op: Operator, w: World, e: Event)
    requires w.Valid()
  {
    e.Advance? && w.pending != [] && w.pending[0].NoticeStatus? ==>
      OneStep(op.graph, Last(w.clusters), w.pending[0].status.version)
  }

  lemma AllRecorded(op: Operator, cs: seq<ClusterObject>, o: ClusterObject)
    requires Unbroken(op, cs) && o in cs
    ensures Recorded(o)
  {
    var k :| 0 <= k < |cs| && cs[k] == o;
    if k > 0 {
      assert Consecutive(op, cs, k);
    }
  }

  lemma AppendUnbroken(op: Operator, cs: seq<ClusterObject>, o: ClusterObject)
    requires Unbroken(op, cs) && OneStep(op.graph, Last(cs), o.status.version)
    ensures Unbroken(op, cs + [o])
  {
    var longer := cs + [o];
    forall k | 0 < k < |longer| ensures Consecutive(op, longer, k) {
      assert longer[k - 1] == cs[k - 1];
      if k < |cs| {
        assert longer[k] == cs[k];
        assert Consecutive(op, cs, k);
      } else {
        assert longer[k] == o && longer[k - 1] == Last(cs);
      }
    }
  }

  lemma PlanBound(op: Operator, v: View)
    requires Recorded(v.cluster) && !PinnedImage(v.cluster.spec.image)
    ensures Bound(op, Reconcile(op, v).writes, v.cluster)
  {
    forall x | x in Reconcile(op, v).writes && Patches(x) ensures OneStep(op.graph, v.cluster, x.status.version) {
      PlanStaysOnRails(op, v, x);
    }
  }

  lemma BeginInStep(op: Operator, w: World, v: View, w': World)
    requires InStep(op, w) && Moves(w, Begin(v), Reconcile(op, v).writes, w')
    requires !PinnedImage(v.cluster.spec.image)
    ensures InStep(op, w')
  {
    AllRecorded(op, w.clusters, v.cluster);
    PlanBound(op, v);
  }

  /** A locked write finds the cluster it was made for. */
  lemma AdvanceInStep(op: Operator, w: World, w': World)
    requires InStep(op, w) && Moves(w, Event.Advance, [], w') && NoticeInStep(op, w, Event.Advance)
    ensures InStep(op, w')
  {
    AdvanceEffect(w, w');
    AdvancedInStep(op, w, w');
  }

  lemma AdvancedInStep(op: Operator, w: World, w': World)
    requires InStep(op, w) && w'.Valid() && Advanced(w, w') && NoticeInStep(op, w, Event.Advance)
    ensures InStep(op, w')
  {
    TailBound(op, w.pending, w.read);
    if Patches(w.pending[0]) {
      GrantedInStep(op, w);
      AppendUnbroken(op, w.clusters, Last(w'.clusters));
    }
  }

  lemma GrantedInStep(op: Operator, w: World)
    requires w.Valid() && w.pending != [] && Bound(op, w.pending, w.read) && Patches(w.pending[0])
    requires Grants(w, w.pending[0]) && NoticeInStep(op, w, Event.Advance)
    ensures OneStep(op.graph, Last(w.clusters), w.pending[0].status.version)
  {
    assert w.pending[0] in w.pending;
  }

  lemma TailBound(op: Operator, pending: seq<Write>, read: ClusterObject)
    requires pending != [] && Bound(op, pending, read)
    ensures Bound(op, pending[1..], read)
  {
    assert forall y :: y in pending[1..] ==> y in pending;
  }

  lemma OtherInStep(op: Operator, w: World, e: Event, w': World)
    requires InStep(op, w) && Moves(w, e, [], w') && !e.Begin? && !e.Advance?
    ensures InStep(op, w')
  {
    if e.EditSpec? || e.SetPaused? {
      AllRecorded(op, w.clusters, Last(w.clusters));
      AppendUnbroken(op, w.clusters, Last(w'.clusters));
    }
  }

  lemma StepInStep(op: Operator, w: World, e: Event, w': World)
    requires InStep(op, w) && Step(op, w, e, w') && NoticeInStep(op, w, e)
    requires forall o :: o in w.clusters ==> !PinnedImage(o.spec.image)
    ensures InStep(op, w')
  {
    if e.Begin? {
      BeginInStep(op, w, e.v, w');
    } else if e.Advance? {
      AdvanceInStep(op, w, w');
    } else {
      OtherInStep(op, w, e, w');
    }
  }

  /** A run of a cluster with a recorded version on which no user forces an image. */
  ghost predicate Started(op: Operator, ws: seq<World>, es: seq<Event>) {
    Run(op, ws, es) && NoForcedImage(ws) && |ws[0].clusters| == 1 && Recorded(ws[0].clusters[0])
  }

  /** Every notice carried out so far was in step. */
  ghost predicate NoticesInStep(op: Operator, ws: seq<World>, es: seq<Event>, n: nat)
    requires n <= |es| < |ws|
  {
    forall i :: 0 <= i < n ==> NoticeInStepAt(op, ws, es, i)
  }

  ghost predicate NoticeInStepAt(op: Operator, ws: seq<World>, es: seq<Event>, i: nat)
    requires i < |es| < |ws|
  {
    ws[i].Valid() && NoticeInStep(op, ws[i], es[i])
  }

  ghost function InStepAt(op: Operator, ws: seq<World>): nat -> bool {
    (i: nat) => i < |ws| && InStep(op, ws[i])
  }

  lemma InStepNext(op: Operator, ws: seq<World>, es: seq<Event>, i: nat)
    requires Started(op, ws, es) && i < |es| && InStepAt(op, ws)(i) && NoticeInStepAt(op, ws, es, i)
    ensures InStepAt(op, ws)(i + 1)
  {
    var w, e, w' := ws[i], es[i], ws[i + 1];
    assert InStep(op, w') by {
      assert Step(op, w, e, w') by {
        assert StepAt(op, ws, es, i);
      }
      StepInStep(op, w, e, w');
    }
  }

  lemma NoticesKeepStep(op: Operator, ws: seq<World>, es: seq<Event>, n: nat)
    requires Started(op, ws, es) && n < |ws| && NoticesInStep(op, ws, es, n)
    ensures InStep(op, ws[n])
  {
    assert InStepAt(op, ws)(0);
    forall i: nat | i < n && InStepAt(op, ws)(i) ensures InStepAt(op, ws)(i + 1) {
      assert NoticeInStepAt(op, ws, es, i);
      InStepNext(op, ws, es, i);
    }
    Stepwise(InStepAt(op, ws), n);
  }

  /** A notice in an unbroken history was in step when it was carried out. */
  lemma UnbrokenNotice(op: Operator, w: World, e: Event, w': World, later: World)
    requires w.Valid() && Step(op, w, e, w') && Extends(w', later) && Unbroken(op, later.clusters)
    ensures NoticeInStep(op, w, e)
  {
    if e.Advance? && w.pending[0].NoticeStatus? {
      var o := Last(w.clusters).(status := w.pending[0].status);
      assert w'.clusters == w.clusters + [o];
      UnbrokenAfter(op, w.clusters, o, later.clusters);
    }
  }

  lemma UnbrokenAfter(op: Operator, cs: seq<ClusterObject>, o: ClusterObject, later: seq<ClusterObject>)
    requires cs != [] && cs + [o] <= later && Unbroken(op, later)
    ensures OneStep(op.graph, Last(cs), o.status.version)
  {
    var k := |cs|;
    assert later[k] == (cs + [o])[k] && later[k - 1] == (cs + [o])[k - 1];
    assert Consecutive(op, later, k);
  }

  /** Over every run, however stale the caches and wherever reconciles are cut short: each change of the
      recorded version, from one state to the next, follows one edge from that very state, which had
      nothing migrating, nothing rolling out and equal hashes, if and only if every notice that was
      carried out was in step. No other write can take the cluster off the edges. */
  lemma ChangesFollowEdges(op: Operator, ws: seq<World>, es: seq<Event>, n: nat)
    requires Started(op, ws, es) && n < |ws|
    ensures Unbroken(op, ws[n].clusters) <==> NoticesInStep(op, ws, es, n)
  {
    if NoticesInStep(op, ws, es, n) {
      NoticesKeepStep(op, ws, es, n);
    }
    if Unbroken(op, ws[n].clusters) {
      forall i | 0 <= i < n ensures NoticeInStepAt(op, ws, es, i) {
        SegmentExtends(op, ws, es, 0, i);
        SegmentExtends(op, ws, es, i + 1, n);
        assert StepAt(op, ws, es, i);
        UnbrokenNotice(op, ws[i], es[i], ws[i + 1], ws[n]);
      }
    }
  }

  // ---- Nothing is skipped between any two states ----

  /** Some state from `i` to `k` carries the version. */
  predicate RecordedBetween(cs: seq<ClusterObject>, i: nat, k: nat, id: Id)
    requires k < |cs|
  {
    exists j :: i <= j <= k && NameOf(cs[j]) == id
  }

  /** Each state keeps the version of the one before or takes an edge of the line. */
  ghost predicate KeepsLine(cs: seq<ClusterObject>, edge: Line) {
    forall k :: 0 < k < |cs| ==> LineAt(cs, edge, k)
  }

  ghost predicate LineAt(cs: seq<ClusterObject>, edge: Line, k: nat)
    requires 0 < k < |cs|
  {
    NameOf(cs[k]) == NameOf(cs[k - 1]) || edge(NameOf(cs[k - 1]), NameOf(cs[k]))
  }

  lemma {:induction false} RouteBetween(cs: seq<ClusterObject>, edge: Line, i: nat, k: nat) returns (path: seq<Id>)
    requires KeepsLine(cs, edge) && i <= k < |cs|
    ensures Route(edge, path, NameOf(cs[i]), NameOf(cs[k]))
    ensures forall x :: x in path ==> RecordedBetween(cs, i, k, x)
    decreases k
  {
    if i == k {
      path := [NameOf(cs[i])];
    } else {
      path := RouteBetween(cs, edge, i, k - 1);
      assert LineAt(cs, edge, k);
      if NameOf(cs[k]) != NameOf(cs[k - 1]) {
        path := path + [NameOf(cs[k])];
      }
    }
  }

  lemma ChangeOnTheLine(op: Operator, cs: seq<ClusterObject>, engine: string, channel: string, k: nat)
    requires 0 < k < |cs| && Consecutive(op, cs, k) && channel != ""
    requires forall o :: o in cs ==> o.spec.engine == engine && o.spec.channel == channel
    ensures LineAt(cs, ChannelLine(op.graph, engine, channel), k)
  {
    if NameOf(cs[k]) != NameOf(cs[k - 1]) {
      assert cs[k - 1] in cs;
      StepOnLine(op, cs[k - 1], cs[k].status.version);
    }
  }

  /** A change of version is along an edge of the channel the cluster asks for. */
  lemma StepOnLine(op: Operator, read: ClusterObject, version: Option<Version>)
    requires OneStep(op.graph, read, version) && version.value.name != NameOf(read)
    ensures ChannelLine(op.graph, read.spec.engine, version.value.channel)(NameOf(read), version.value.name)
    ensures read.spec.channel != "" ==> version.value.channel == read.spec.channel
    ensures AnyLine(op.graph)(NameOf(read), version.value.name)
  {
    assert RailEdge(op.graph, read.spec, read.status.version, version.value);
  }

  lemma ChangeOnSomeLine(op: Operator, cs: seq<ClusterObject>, k: nat)
    requires 0 < k < |cs| && Consecutive(op, cs, k)
    ensures LineAt(cs, AnyLine(op.graph), k)
  {
    if NameOf(cs[k]) != NameOf(cs[k - 1]) {
      StepOnLine(op, cs[k - 1], cs[k].status.version);
    }
  }

  /** On a fixed channel, a release that cuts one recorded release from a later one has been recorded
      between them. */
  lemma NothingIsSkippedBetween(op: Operator, ws: seq<World>, es: seq<Event>, engine: string, channel: string,
                                n: nat, i: nat, k: nat, via: Id)
    requires Started(op, ws, es) && FixedChannel(ws, engine, channel)
    requires n < |ws| && NoticesInStep(op, ws, es, n) && i <= k < |ws[n].clusters|
    requires Cuts(ChannelLine(op.graph, engine, channel), via, NameOf(ws[n].clusters[i]), NameOf(ws[n].clusters[k]))
    ensures RecordedBetween(ws[n].clusters, i, k, via)
  {
    var cs, line := ws[n].clusters, ChannelLine(op.graph, engine, channel);
    assert forall o :: o in cs ==> o.spec.engine == engine && o.spec.channel == channel;
    ChangesFollowEdges(op, ws, es, n);
    forall m | 0 < m < |cs| ensures LineAt(cs, line, m) {
      assert Consecutive(op, cs, m);
      ChangeOnTheLine(op, cs, engine, channel, m);
    }
    var path := RouteBetween(cs, line, i, k);
  }

  /** Whatever channels users switch to, the same of a release that cuts them in the whole graph. */
  lemma NothingIsSkippedBetweenAnywhere(op: Operator, ws: seq<World>, es: seq<Event>, n: nat, i: nat, k: nat, via: Id)
    requires Started(op, ws, es) && n < |ws| && NoticesInStep(op, ws, es, n) && i <= k < |ws[n].clusters|
    requires Cuts(AnyLine(op.graph), via, NameOf(ws[n].clusters[i]), NameOf(ws[n].clusters[k]))
    ensures RecordedBetween(ws[n].clusters, i, k, via)
  {
    var cs := ws[n].clusters;
    ChangesFollowEdges(op, ws, es, n);
    forall m | 0 < m < |cs| ensures LineAt(cs, AnyLine(op.graph), m) {
      assert Consecutive(op, cs, m);
      ChangeOnSomeLine(op, cs, m);
    }
    var path := RouteBetween(cs, AnyLine(op.graph), i, k);
  }
}
