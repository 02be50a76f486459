/** The rounds convergence speaks of can always be had, so every such cluster has a run to the head. */
module Feasibility {
  import opened Seqs
  import opened UpdateSource
  import opened Validation
  import opened Walks
  import opened UpdateGraph
  import opened TargetProperties
  import opened Cluster
  import Credentials
  import opened Controller
  import opened Runs
  import opened SingleMigration
  import opened Progress
  import opened Acceptance
  import opened Convergence

  lemma {:induction false} ListJobs(js: Jobs, keys: set<ObjectName>) returns (list: seq<Job>)
    requires Labelled(js) && keys <= js.Keys
    ensures forall j :: j in list <==> j.name in keys && js[j.name] == j
    decreases |keys|
  {
    if keys == {} {
      list := [];
    } else {
      var n :| n in keys;
      var rest := ListJobs(js, keys - {n});
      list := rest + [js[n]];
    }
  }

  lemma FreshView(w: World, secretHash: string) returns (v: View)
    requires w.Valid() && Healthy(SiteOf(w))
    ensures CurrentView(w, v) && v.secretHash == secretHash && v.applyAccepted
  {
    var ds, js := Last(w.deployments), Last(w.jobs);
    var list := ListJobs(js, js.Keys);
    v := View(Last(w.clusters), if OwnDeployment in ds then [ds[OwnDeployment]] else [], list, list, [], [],
              secretHash, true);
  }

  function FinishedJobs(js: Jobs): Jobs {
    map n | n in js :: js[n].(conditions := [JobCondition(JobComplete, true, "")])
  }

  function RolledOutDeployments(ds: Deployments, replicas: int): Deployments {
    if OwnDeployment in ds then
      var d := ds[OwnDeployment];
      var n := DesiredReplicas(d, replicas);
      ds[OwnDeployment := d.(status := RolloutStatus(d.generation, n, n, n, n, 0))]
    else ds
  }

  lemma JobFinished(j: Job)
    requires j.conditions == [JobCondition(JobComplete, true, "")]
    ensures Succeeded(j)
  {
    assert j.conditions[1..] == [];
  }

  lemma RestIsPossible(w: World, replicas: int) returns (w': World)
    requires w.Valid() && Healthy(SiteOf(w))
    ensures Rest(w, w', replicas) && Settled(SiteOf(w'), replicas) && w'.pending == w.pending
  {
    var js, ds := FinishedJobs(Last(w.jobs)), RolledOutDeployments(Last(w.deployments), replicas);
    w' := w.(jobs := w.jobs + [js], deployments := w.deployments + [ds]);
    forall n | n in js ensures Succeeded(js[n]) {
      JobFinished(js[n]);
    }
    assert Last(w'.jobs) == js && Last(w'.deployments) == ds;
  }

  /** From every such world there is a round that only its lock may cut short, and that settles. */
  lemma RoundIsPossible(op: Operator, spec: ClusterSpec, s: Source, secretHash: string, w: World)
      returns (a: Attempt, w': World)
    requires Unhindered(spec, s) && Cruising(op, spec, s, w)
    ensures Round(op, spec, secretHash, w, a, w') && Settles(op, w, a, w', spec.replicas) && w'.pending == w.pending
  {
    var v := FreshView(w, secretHash);
    a := Attempt(v, Granted(Begun(w, v), Reconcile(op, v).writes));
    AttemptIsHealthy(op, spec, s, w, v, a.carried);
    w' := RestIsPossible(Reached(op, w, a), spec.replicas);
  }

  lemma AttemptIsHealthy(op: Operator, spec: ClusterSpec, s: Source, w: World, v: View, n: nat)
    requires Unhindered(spec, s) && Cruising(op, spec, s, w) && CurrentView(w, v)
    requires n <= |Reconcile(op, v).writes|
    ensures var mid := Reached(op, w, Attempt(v, n));
            Healthy(SiteOf(mid)) && mid.pending == w.pending
  {
    BegunSame(op, spec, s, v.secretHash, w, v);
    CutEffect(op, spec, s, Begun(w, v), v, n);
    CarryAllPending(Begun(w, v), Reconcile(op, v).writes[..n]);
  }

  /** A round may also be cut short after any write that is accepted, and end with everything still
      under way. */
  lemma RoundMayStop(op: Operator, spec: ClusterSpec, s: Source, w: World, v: View, n: nat) returns (w': World)
    requires Unhindered(spec, s) && Cruising(op, spec, s, w) && CurrentView(w, v)
    requires n <= Granted(Begun(w, v), Reconcile(op, v).writes)
    ensures Round(op, spec, v.secretHash, w, Attempt(v, n), w')
    ensures SiteOf(w') == SiteOf(Reached(op, w, Attempt(v, n)))
  {
    AttemptIsHealthy(op, spec, s, w, v, n);
    w' := NothingHappens(Reached(op, w, Attempt(v, n)), spec.replicas);
  }

  lemma NothingHappens(w: World, replicas: int) returns (w': World)
    requires w.Valid() && Healthy(SiteOf(w))
    ensures Rest(w, w', replicas) && SiteOf(w') == SiteOf(w)
  {
    w' := w.(jobs := w.jobs + [Last(w.jobs)], deployments := w.deployments + [Last(w.deployments)]);
  }

  lemma CloserWorld(op: Operator, spec: ClusterSpec, s: Source, secretHash: string, w: World)
      returns (w': World)
    requires Unhindered(spec, s) && Cruising(op, spec, s, w) && w.pending == []
    requires RoundsLeft(op, spec, s, secretHash, w) > 0
    ensures Connected(op, w, w') && w'.pending == [] && NoRise(op, spec, s, secretHash, w, w')
    ensures RoundsLeft(op, spec, s, secretHash, w') < RoundsLeft(op, spec, s, secretHash, w)
  {
    var a;
    a, w' := RoundIsPossible(op, spec, s, secretHash, w);
    RoundProgress(op, spec, s, secretHash, w, a, w');
    RoundIsRun(op, spec, s, secretHash, w, a, w');
  }

  lemma AlreadyThere(op: Operator, w: World)
    ensures Connected(op, w, w)
  {
    assert Leads(op, [w], [], w, w);
  }

  /** From every such world the operator has a run that ends with the release at the end of the walk
      rolled out. */
  lemma {:induction false} EndIsReachable(op: Operator, spec: ClusterSpec, s: Source, secretHash: string,
                                          w: World) returns (end: World)
    requires Unhindered(spec, s) && Cruising(op, spec, s, w) && w.pending == []
    ensures Connected(op, w, end) && end.Valid() && end.pending == []
    ensures Arrived(op, spec, s, secretHash, end, Destination(op, spec, s, w))
    decreases RoundsLeft(op, spec, s, secretHash, w)
  {
    if RoundsLeft(op, spec, s, secretHash, w) == 0 {
      end := w;
      AlreadyThere(op, w);
      NoRoundsLeft(op, spec, s, secretHash, w);
    } else {
      var w' := CloserWorld(op, spec, s, secretHash, w);
      end := EndIsReachable(op, spec, s, secretHash, w');
      Join(op, w, w', end);
    }
  }

  // ---- An example ----

  const TWO_NODES := [NO_STATE.(id := "v2", tag := "v2"), NO_STATE.(id := "v1", tag := "v1")]
  const TWO_EDGES: EdgeSet := map["v1" := ["v2"]]
  const STABLE := Channel("stable", Some(map["datastore" := "postgres"]), TWO_EDGES, TWO_NODES)
  const SPEC := ClusterSpec("", "stable", "", "", "postgres", false, 1, "", "", None, None,
                             Credentials.Spec("creds", None))
  const V1 := Version("v1", "stable", [Migration], [])
  const QUIET := Status(1, NoDigest, NoDigest, "", "", "", "", Some(V1), [], map[])

  lemma TwoAccepted()
    ensures Accepts(TWO_NODES, TWO_EDGES)
  {
    var nodes, edges := TWO_NODES, TWO_EDGES;
    assert nodes[0] in nodes && nodes[1] in nodes;
    assert NodeId(nodes, 0) == "v2" && NodeId(nodes, 1) == "v1";
    assert Chase(edges, "v1", 0) == "v1";
    assert Reaches(edges, "v1", "v2", 1);
  }

  /** An accepted channel of named releases that can be pulled, with a final head and a release v1. */
  ghost predicate Stable(c: Channel) {
    && c.name == "stable" && c.Meta("datastore") == "postgres"
    && Accepts(c.nodes, c.edges) && "" !in Ids(c.nodes) && "v1" in Ids(c.nodes)
    && c.nodes[0].id !in c.edges && forall n :: n in c.nodes ==> Pullable(n)
  }

  /** An operator that knows only that channel, and its source. */
  function OperatorOf(c: Channel): Operator {
    Operator(Graph([c]), "spicedb")
  }

  const OLD := ClusterObject(SPEC, 1, QUIET, false)
  const START := World([OLD], [map[]], [map[]], [], OLD)

  lemma OnlyChannelIsHome(c: Channel)
    requires c.name == "stable" && c.Meta("datastore") == "postgres" && Accepts(c.nodes, c.edges)
    ensures Home(OperatorOf(c).graph, RequestOf(OperatorOf(c), SPEC), "stable") == Some(SourceOf(c.nodes, c.edges))
  {
    assert ServesEngine(c, "postgres", "stable");
    assert FindChannel([c], "postgres", "stable") == Some(c);
  }

  lemma ImagesArePullable(s: Source)
    requires s.Valid() && forall n :: n in s.nodes ==> Pullable(n)
    ensures forall id :: id in s.index ==> Pullable(s.StateOf(id))
  {
    forall id | id in s.index ensures Pullable(s.StateOf(id)) {
      assert s.IdAt(s.index[id]) == id;
    }
  }

  lemma StableSource(c: Channel)
    requires Stable(c)
    ensures var s := SourceOf(c.nodes, c.edges);
            Accepted(s) && Unhindered(SPEC, s) && OnChannel(OperatorOf(c).graph, RequestOf(OperatorOf(c), SPEC), s, V1)
  {
    var s := SourceOf(c.nodes, c.edges);
    SourceOfValid(c.nodes, c.edges);
    AcceptedSources(c.nodes, c.edges);
    ImagesArePullable(s);
    assert s.IdAt(0) == s.Head();
    OnlyChannelIsHome(c);
  }

  lemma NothingThereIsHealthy(x: Site)
    requires x.deployments == map[] && x.jobs == map[]
    ensures Healthy(x)
  {
  }

  /** A cluster on release v1 of such a channel, with nothing there yet, is on its way to the head. */
  lemma StableCruises(c: Channel)
    requires Stable(c)
    ensures var s := SourceOf(c.nodes, c.edges);
            && Unhindered(SPEC, s) && Cruising(OperatorOf(c), SPEC, s, START)
            && Destination(OperatorOf(c), SPEC, s, START) == s.Head()
  {
    var s := SourceOf(c.nodes, c.edges);
    StableSource(c);
    NothingThereIsHealthy(SiteOf(START));
    UnpinnedDestination(OperatorOf(c), SPEC, s, V1);
  }

  /** The hypotheses of convergence can be met: a cluster on the older of two releases. */
  lemma ExampleCruises()
    ensures var s := SourceOf(TWO_NODES, TWO_EDGES);
            Unhindered(SPEC, s) && Cruising(OperatorOf(STABLE), SPEC, s, START)
  {
    TwoAccepted();
    assert TWO_NODES[1] in TWO_NODES;
    StableCruises(STABLE);
  }

  // ---- A head that is not final ----

  const BACK_EDGES: EdgeSet := map["v1" := ["v2"], "v2" := ["v1"]]
  const BACK := Channel("stable", Some(map["datastore" := "postgres"]), BACK_EDGES, TWO_NODES)
  const AT_HEAD := Version("v2", "stable", [Migration], [])

  lemma BackAccepted()
    ensures Accepts(TWO_NODES, BACK_EDGES)
  {
    var nodes, edges := TWO_NODES, BACK_EDGES;
    assert nodes[0] in nodes && nodes[1] in nodes;
    assert NodeId(nodes, 0) == "v2" && NodeId(nodes, 1) == "v1";
    assert Chase(edges, "v1", 0) == "v1";
    assert Reaches(edges, "v1", "v2", 1);
  }

  lemma BackSource(s: Source)
    requires s == SourceOf(TWO_NODES, BACK_EDGES)
    ensures s.Valid() && "v2" in s.index && "" !in s.index && s.Head() == "v2" && s.NextVersion("v2") == "v1"
  {
    BackAccepted();
    SourceOfValid(TWO_NODES, BACK_EDGES);
    assert TWO_NODES[0] in TWO_NODES;
  }

  /** A channel whose head has an edge is accepted, and a quiet cluster at the head leaves it. */
  lemma HeadIsLeft()
    ensures Accepts(BACK.nodes, BACK.edges) && SourceOf(BACK.nodes, BACK.edges).Head() == AT_HEAD.name
    ensures var op := OperatorOf(BACK);
            TargetProperties.Advance(op.graph, RequestOf(op, SPEC), AT_HEAD).name == "v1"
  {
    var op, s := OperatorOf(BACK), SourceOf(TWO_NODES, BACK_EDGES);
    BackAccepted();
    BackSource(s);
    OnlyChannelIsHome(BACK);
    UnpinnedTarget(op.graph, RequestOf(op, SPEC), s, AT_HEAD, false);
  }
}
