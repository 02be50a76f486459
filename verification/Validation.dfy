/** Acceptance of a channel: the constructor of an update source checks that
    chasing the greedy successor leads from every release to the head. */
module Validation {
  import opened Seqs
  import opened UpdateSource

  datatype SourceError =
    | MissingNodes
    | MissingEdges
    | DuplicateId(id: Id)
    | UnknownNode(id: Id)
    | DeadEnd(id: Id)
    | CycleDetected(id: Id)
    | NoPath(id: Id)

  /** The release `n` greedy steps after `id`. */
  function Chase(edges: EdgeSet, id: Id, n: nat): Id {
    if n == 0 then id else NextIn(edges, Chase(edges, id, n - 1))
  }

  /** Chasing from `id` meets `head`, and meets no dead end before it. */
  ghost predicate Reaches(edges: EdgeSet, id: Id, head: Id, n: nat) {
    && n > 0 && Chase(edges, id, n) == head
    && forall k :: 0 < k < n ==> Chase(edges, id, k) != ""
  }

  ghost predicate ReachesHead(edges: EdgeSet, id: Id, head: Id) {
    exists n: nat :: Reaches(edges, id, head, n)
  }

  ghost predicate EdgesKnown(nodes: seq<State>, edges: EdgeSet) {
    && (forall from :: from in edges ==> from in Ids(nodes))
    && (forall from, to :: EdgeIn(edges, from, to) ==> to in Ids(nodes))
  }

  ghost predicate OnlyHeadEmpty(nodes: seq<State>, edges: EdgeSet)
    requires nodes != []
  {
    forall from :: from in edges && edges[from] == [] ==> from == nodes[0].id
  }

  predicate BelowHead(nodes: seq<State>, id: Id)
    requires nodes != []
  {
    id in Ids(nodes) && id != nodes[0].id
  }

  ghost predicate AllReachHead(nodes: seq<State>, edges: EdgeSet)
    requires nodes != []
  {
    forall id :: BelowHead(nodes, id) ==> ReachesHead(edges, id, nodes[0].id)
  }

  /** The channels the operator agrees to follow. */
  ghost predicate Accepts(nodes: seq<State>, edges: EdgeSet) {
    && nodes != [] && |edges| > 0
    && UniqueIds(nodes)
    && EdgesKnown(nodes, edges)
    && OnlyHeadEmpty(nodes, edges)
    && AllReachHead(nodes, edges)
  }

  /** What each rejection says about the channel. */
  ghost predicate Justified(e: SourceError, nodes: seq<State>, edges: EdgeSet) {
    match e
    case MissingNodes => nodes == []
    case MissingEdges => |edges| == 0
    case DuplicateId(id) => exists i, j :: 0 <= i < j < |nodes| && nodes[i].id == id == nodes[j].id
    case UnknownNode(id) =>
      && id !in Ids(nodes)
      && (id in edges || exists from :: from in edges && id in edges[from])
    case DeadEnd(id) => nodes != [] && id in edges && edges[id] == [] && id != nodes[0].id
    case CycleDetected(id) =>
      && nodes != [] && id in Ids(nodes) && !ReachesHead(edges, id, nodes[0].id)
      && exists k, n :: CyclesAt(edges, id, k, n)
    case NoPath(id) =>
      && nodes != [] && id in Ids(nodes) && !ReachesHead(edges, id, nodes[0].id)
      && exists n: nat :: n > 0 && Chase(edges, id, n) == ""
  }

  /** The chase comes back, after `n` steps, to a release it met after `k`. */
  ghost predicate CyclesAt(edges: EdgeSet, id: Id, k: nat, n: nat) {
    0 < k < n && Chase(edges, id, k) == Chase(edges, id, n) != ""
  }

  function IndexOf(nodes: seq<State>, id: Id): (i: nat)
    requires id in Ids(nodes)
    ensures i < |nodes| && nodes[i].id == id
  {
    assert exists n :: n in nodes && n.id == id;
    if nodes[0].id == id then 0 else 1 + IndexOf(nodes[1..], id)
  }

  /** The source built from a channel. */
  function SourceOf(nodes: seq<State>, edges: EdgeSet): Source {
    Source(nodes, map id | id in Ids(nodes) :: IndexOf(nodes, id), edges)
  }

  lemma SourceOfValid(nodes: seq<State>, edges: EdgeSet)
    requires nodes != [] && UniqueIds(nodes) && EdgesKnown(nodes, edges)
    ensures SourceOf(nodes, edges).Valid()
  {
    var s := SourceOf(nodes, edges);
    forall i | 0 <= i < |nodes| ensures s.IdAt(i) in s.index && s.index[s.IdAt(i)] == i {
      assert nodes[i] in nodes;
      var j := IndexOf(nodes, nodes[i].id);
      assert NodeId(nodes, j) == NodeId(nodes, i);
    }
  }

  // ---- The constructor ----

  method NewMemorySource(nodes: seq<State>, edges: EdgeSet) returns (r: Result<Source, SourceError>)
    ensures r.Ok? <==> Accepts(nodes, edges)
    ensures r.Ok? ==> r.value == SourceOf(nodes, edges) && r.value.Valid()
    ensures r.Err? ==> Justified(r.error, nodes, edges)
  {
    if |nodes| == 0 {
      return Err(MissingNodes);
    } else if |edges| == 0 {
      return Err(MissingEdges);
    }
    var nodeSet: map<Id, nat> := map[];
    for i := 0 to |nodes|
      invariant forall k :: 0 <= k < i ==> nodes[k].id in nodeSet && nodeSet[nodes[k].id] == k
      invariant forall id :: id in nodeSet ==> nodeSet[id] < i && nodes[nodeSet[id]].id == id
    {
      if nodes[i].id in nodeSet {
        assert NodeId(nodes, nodeSet[nodes[i].id]) == NodeId(nodes, i);
        return Err(DuplicateId(nodes[i].id));
      }
      nodeSet := nodeSet[nodes[i].id := i];
    }
    IndexIsSource(nodes, edges, nodeSet);
    var defect := CheckEdges(nodes, edges, nodeSet.Keys);
    if defect.Some? {
      return Err(defect.value);
    }
    SourceOfValid(nodes, edges);
    var source := Source(nodes, nodeSet, edges);
    defect := ValidateAllNodesPathToHead(source);
    if defect.Some? {
      return Err(defect.value);
    }
    r := Ok(source);
  }

  lemma IndexIsSource(nodes: seq<State>, edges: EdgeSet, nodeSet: map<Id, nat>)
    requires forall k :: 0 <= k < |nodes| ==> nodes[k].id in nodeSet && nodeSet[nodes[k].id] == k
    requires forall id :: id in nodeSet ==> nodeSet[id] < |nodes| && nodes[nodeSet[id]].id == id
    ensures nodeSet.Keys == Ids(nodes) && UniqueIds(nodes)
    ensures nodeSet == SourceOf(nodes, edges).index
  {
    forall id | id in nodeSet ensures id in Ids(nodes) && nodeSet[id] == IndexOf(nodes, id) {
      assert nodes[nodeSet[id]] in nodes;
      assert nodes[IndexOf(nodes, id)].id == id;
    }
  }

  method CheckEdges(nodes: seq<State>, edges: EdgeSet, known: set<Id>) returns (defect: Option<SourceError>)
    requires nodes != [] && known == Ids(nodes)
    ensures defect.None? <==> EdgesKnown(nodes, edges) && OnlyHeadEmpty(nodes, edges)
    ensures defect.Some? ==> Justified(defect.value, nodes, edges)
  {
    var todo := edges.Keys;
    while todo != {}
      invariant todo <= edges.Keys
      invariant forall from :: from in edges && from !in todo ==>
                  && from in known && (edges[from] == [] ==> from == nodes[0].id)
      invariant forall from, to :: EdgeIn(edges, from, to) && from !in todo ==> to in known
      decreases |todo|
    {
      var from :| from in todo;
      todo := todo - {from};
      if from !in known {
        return Some(UnknownNode(from));
      }
      var toSet := edges[from];
      for i := 0 to |toSet|
        invariant forall k :: 0 <= k < i ==> toSet[k] in known
      {
        if toSet[i] !in known {
          assert EdgeIn(edges, from, toSet[i]);
          return Some(UnknownNode(toSet[i]));
        }
      }
      if |toSet| != 0 {
        continue;
      }
      if from != nodes[0].id {
        return Some(DeadEnd(from));
      }
    }
    defect := None;
  }

  /** For each release, follow the greedy successor until the head, a repeat or a dead end. */
  method ValidateAllNodesPathToHead(m: Source) returns (defect: Option<SourceError>)
    requires m.Valid()
    ensures defect.None? <==> AllReachHead(m.nodes, m.edges)
    ensures defect.Some? ==> Justified(defect.value, m.nodes, m.edges)
  {
    var head := m.nodes[0].id;
    for i := 0 to |m.nodes|
      invariant forall k :: 0 <= k < i && m.nodes[k].id != head ==> ReachesHead(m.edges, m.nodes[k].id, head)
    {
      var id := m.nodes[i].id;
      assert m.nodes[i] in m.nodes;
      if id == head {
        continue;
      }
      assert BelowHead(m.nodes, id);
      var e := ChaseToHead(m, id);
      if e.Some? {
        return e;
      }
    }
    defect := None;
  }

  method ChaseToHead(m: Source, id: Id) returns (defect: Option<SourceError>)
    requires m.Valid() && id in Ids(m.nodes)
    ensures defect.None? <==> ReachesHead(m.edges, id, m.Head())
    ensures defect.Some? ==> Justified(defect.value, m.nodes, m.edges)
  {
    var head := m.nodes[0].id;
    var visited: set<Id> := {};
    var current := m.NextVersion(id);
    ghost var n := 1;
    while current != head
      invariant n > 0 && current == Chase(m.edges, id, n)
      invariant forall v :: v in visited <==> exists k :: 0 < k < n && Chase(m.edges, id, k) == v
      invariant head !in visited && "" !in visited && visited <= m.index.Keys
      decreases m.index.Keys - visited
    {
      if current in visited {
        ghost var k :| 0 < k < n && Chase(m.edges, id, k) == current;
        CycleNeverReaches(m.edges, id, head, k, n);
        assert CyclesAt(m.edges, id, k, n);
        return Some(CycleDetected(id));
      }
      if current == "" {
        DeadEndNeverReaches(m.edges, id, head, n);
        return Some(NoPath(id));
      }
      assert m.Edge(Chase(m.edges, id, n - 1), current);
      visited := visited + {current};
      current := m.NextVersion(current);
      n := n + 1;
    }
    assert Reaches(m.edges, id, head, n);
    defect := None;
  }

  /** Once the chase repeats without having met the head, it never meets it. */
  lemma CycleNeverReaches(edges: EdgeSet, id: Id, head: Id, k: nat, n: nat)
    requires 0 < k < n && Chase(edges, id, k) == Chase(edges, id, n)
    requires forall j :: 0 < j <= n ==> Chase(edges, id, j) != head
    ensures !ReachesHead(edges, id, head)
  {
    forall m: nat ensures !Reaches(edges, id, head, m) {
      CycleStaysOff(edges, id, head, k, n, m);
    }
  }

  lemma {:induction false} CycleStaysOff(edges: EdgeSet, id: Id, head: Id, k: nat, n: nat, m: nat)
    requires 0 < k < n && Chase(edges, id, k) == Chase(edges, id, n)
    requires forall j :: 0 < j <= n ==> Chase(edges, id, j) != head
    ensures m > 0 ==> Chase(edges, id, m) != head
  {
    if m > n {
      CycleStaysOff(edges, id, head, k, n, m - (n - k));
      ChaseShift(edges, id, n, k, m - n);
    }
  }

  lemma {:induction false} ChaseShift(edges: EdgeSet, id: Id, a: nat, b: nat, n: nat)
    requires Chase(edges, id, a) == Chase(edges, id, b)
    ensures Chase(edges, id, a + n) == Chase(edges, id, b + n)
  {
    if n > 0 {
      ChaseShift(edges, id, a, b, n - 1);
    }
  }

  lemma DeadEndNeverReaches(edges: EdgeSet, id: Id, head: Id, n: nat)
    requires n > 0 && Chase(edges, id, n) == "" != head
    requires forall j :: 0 < j < n ==> Chase(edges, id, j) != head
    ensures !ReachesHead(edges, id, head)
  {
  }
}
