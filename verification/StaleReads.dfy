/** What a reconcile that reads an old state of the cluster does to the recorded version: nothing, unless
    it notices a change, for that one write is not locked. */
module StaleReads {
  import opened Seqs
  import opened UpdateSource
  import opened Validation
  import opened UpdateGraph
  import opened TargetProperties
  import opened Cluster
  import Credentials
  import opened Controller
  import opened PlanMeaning
  import opened Runs
  import opened OnRails
  import opened EdgeByEdge
  import opened Progress
  import opened Acceptance
  import opened Convergence
  import opened Feasibility

  /** The reconcile gets to the check for changes and finds one. */
  predicate Notices(v: View) {
    && !v.cluster.paused && Credentials.SpecOk(v.cluster.spec.credentials)
    && ConfigChanged(v.cluster, v.secretHash)
  }

  // ---- Without a change to notice ----

  /** Every locked write finds another cluster. */
  lemma {:induction false} LockedOut(w: World, xs: seq<Write>)
    requires w.Valid() && Last(w.clusters) != w.read && NoNotice(xs)
    ensures Landed(w, xs).clusters == w.clusters
    decreases |xs|
  {
    if xs != [] && Grants(w, xs[0]) {
      assert xs == [xs[0]] + xs[1..];
      LandedNext(w, xs[0], xs[1..]);
      LockedOut(CarryOut(w, xs[0]), xs[1..]);
    }
  }

  lemma {:induction false} HistoryGrows(w: World, xs: seq<Write>)
    requires w.Valid()
    ensures w.clusters <= CarryAll(w, xs).clusters
    decreases |xs|
  {
    if xs != [] {
      HistoryGrows(CarryOut(w, xs[0]), xs[1..]);
    }
  }

  lemma NoticeLands(w: World, x: Write, ys: seq<Write>)
    requires w.Valid() && x.NoticeStatus?
    ensures Landed(w, [x] + ys).clusters != w.clusters
  {
    LandedNext(w, x, ys);
    var w1 := CarryOut(w, x);
    HistoryGrows(w1, ys[..Granted(w1, ys)]);
  }

  /** A reconcile that has read an old state changes the cluster if and only if it notices a change. */
  lemma StaleReadIsLockedOut(op: Operator, w: World, v: View)
    requires w.Valid() && Last(w.clusters) != v.cluster
    ensures Landed(Begun(w, v), Reconcile(op, v).writes).clusters != w.clusters <==> Notices(v)
  {
    var begun, s := Begun(w, v), NoticeChange(v.cluster, v.secretHash);
    var config := ConfigFor(op, v.cluster.spec, s);
    var rest := Validate(v, s, config, AvailableFor(op, config)).writes;
    if Notices(v) {
      assert Reconcile(op, v).writes == [NoticeStatus(s)] + rest;
      NoticeLands(begun, NoticeStatus(s), rest);
    } else {
      ValidateNotices(v, s, config, AvailableFor(op, config));
      LockedOut(begun, Reconcile(op, v).writes);
    }
  }

  // ---- With a change to notice ----

  function EmptyView(o: ClusterObject, secretHash: string): View {
    View(o, [], [], [], [], [], secretHash, true)
  }

  lemma NoticeConnects(op: Operator, w: World, v: View) returns (w': World)
    requires w.Valid() && w.pending == [] && Sees(w, v) && Notices(v)
    ensures Connected(op, w, w')
    ensures w'.clusters == w.clusters + [Last(w.clusters).(status := NoticeChange(v.cluster, v.secretHash))]
  {
    var writes := Reconcile(op, v).writes;
    var begun := Begun(w, v).(pending := writes);
    StepConnects(op, w, Begin(v), begun);
    w' := CarryOut(begun, writes[0]).(pending := writes[1..]);
    StepConnects(op, begun, Event.Advance, w');
    Join(op, w, begun, w');
  }

  /** Whatever is recorded by now, a reconcile that reads an old state and notices a change puts the
      version of that state back. */
  lemma StaleNoticeGoesBack(op: Operator, w: World, past: ClusterObject, secretHash: string) returns (w': World)
    requires w.Valid() && w.pending == [] && past in w.clusters && Notices(EmptyView(past, secretHash))
    ensures Connected(op, w, w') && |w'.clusters| == |w.clusters| + 1 && w.clusters <= w'.clusters
    ensures Last(w'.clusters).status.version == past.status.version
  {
    NoticeKeeps(past, secretHash);
    w' := NoticeConnects(op, w, EmptyView(past, secretHash));
  }

  /** Such a notice keeps to a line if and only if the release of the old state is the one recorded last
      or one edge from it. */
  lemma StaleNoticeKeepsLine(op: Operator, w: World, past: ClusterObject, secretHash: string, edge: Line)
      returns (w': World)
    requires w.Valid() && w.pending == [] && past in w.clusters && Notices(EmptyView(past, secretHash))
    ensures Connected(op, w, w') && |w'.clusters| == |w.clusters| + 1 && w.clusters <= w'.clusters
    ensures var last, back := NameOf(Last(w.clusters)), NameOf(past);
            LineAt(w'.clusters, edge, |w.clusters|) <==> back == last || edge(last, back)
  {
    w' := StaleNoticeGoesBack(op, w, past, secretHash);
    LineOfLast(w.clusters, w'.clusters, edge);
  }

  lemma LineOfLast(cs: seq<ClusterObject>, later: seq<ClusterObject>, edge: Line)
    requires cs != [] && cs <= later && |later| == |cs| + 1
    ensures var last, next := NameOf(Last(cs)), NameOf(Last(later));
            LineAt(later, edge, |cs|) <==> next == last || edge(last, next)
  {
    assert later[|cs| - 1] == Last(cs) && later[|cs|] == Last(later);
  }

  lemma ConnectedExtends(op: Operator, w: World, w': World)
    requires Connected(op, w, w') && w.Valid()
    ensures w'.Valid() && Extends(w, w')
  {
    var ws, es :| Leads(op, ws, es, w, w');
    SegmentExtends(op, ws, es, 0, |ws| - 1);
  }

  // ---- An example ----

  const THREE_NODES := [NO_STATE.(id := "v3", tag := "v3"), NO_STATE.(id := "v2", tag := "v2"),
                        NO_STATE.(id := "v1", tag := "v1")]
  const THREE_EDGES: EdgeSet := map["v1" := ["v2"], "v2" := ["v3"]]
  const THREE := Channel("stable", Some(map["datastore" := "postgres"]), THREE_EDGES, THREE_NODES)
  const UPDATER := OperatorOf(THREE)

  lemma ThreeAccepted()
    ensures Accepts(THREE_NODES, THREE_EDGES)
  {
    var nodes, edges := THREE_NODES, THREE_EDGES;
    assert nodes[0] in nodes && nodes[1] in nodes && nodes[2] in nodes;
    assert NodeId(nodes, 0) == "v3" && NodeId(nodes, 1) == "v2" && NodeId(nodes, 2) == "v1";
    assert Chase(edges, "v1", 0) == "v1" && Chase(edges, "v2", 0) == "v2" && Chase(edges, "v1", 1) == "v2";
    assert Reaches(edges, "v2", "v3", 1) && Reaches(edges, "v1", "v3", 2);
  }

  lemma ThreeStable()
    ensures Stable(THREE)
  {
    ThreeAccepted();
    assert THREE_NODES[2] in THREE_NODES;
  }

  lemma NoWayBack(engine: string, channel: string)
    ensures !GraphEdge(UPDATER.graph, engine, channel, "v3", "v1")
  {
    var found := FindChannel([THREE], engine, channel);
    assert found.Some? ==> found.value == THREE;
  }

  lemma ReachesV3(s: Source) returns (w: World)
    requires s == SourceOf(THREE_NODES, THREE_EDGES)
    ensures Connected(UPDATER, START, w) && w.Valid() && w.pending == [] && OLD in w.clusters
    ensures NameOf(Last(w.clusters)) == "v3"
  {
    ThreeStable();
    StableCruises(THREE);
    w := EndIsReachable(UPDATER, SPEC, s, "", START);
    ConnectedExtends(UPDATER, START, w);
    assert w.clusters[0] == OLD;
  }

  /** A run of the operator, on a channel that only leads from v1 to v2 and from v2 to v3, in which a
      changed secret takes the recorded version from v3 back to v1. */
  lemma StaleNoticeLeavesTheRails() returns (w: World, w': World)
    ensures Connected(UPDATER, START, w')
    ensures w.Valid() && |w'.clusters| == |w.clusters| + 1 && w.clusters <= w'.clusters
    ensures NameOf(Last(w.clusters)) == "v3" && NameOf(Last(w'.clusters)) == "v1"
    ensures !AnyLine(UPDATER.graph)("v3", "v1")
  {
    var s := SourceOf(THREE_NODES, THREE_EDGES);
    w := ReachesV3(s);
    OldNotices();
    w' := StaleNoticeGoesBack(UPDATER, w, OLD, "changed");
    Join(UPDATER, START, w, w');
    forall engine, channel ensures !GraphEdge(UPDATER.graph, engine, channel, "v3", "v1") {
      NoWayBack(engine, channel);
    }
  }

  lemma OldNotices()
    ensures Notices(EmptyView(OLD, "changed")) && OLD.status.version == Some(V1)
  {
  }
}
