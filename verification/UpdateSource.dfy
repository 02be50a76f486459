/** One channel of the update graph as the operator queries it: an ordered node
    list (index 0 is the newest release, the head) and ordered edge lists. */
module UpdateSource {
  import opened Seqs

  type Id = string

  datatype State = State(id: Id, tag: string, migration: string, phase: string, digest: string,
                         deprecated: bool)

  const NO_STATE := State("", "", "", "", "", false)

  type EdgeSet = map<Id, seq<Id>>

  function Ids(nodes: seq<State>): set<Id> {
    set n | n in nodes :: n.id
  }

  function NodeId(nodes: seq<State>, i: int): Id
    requires 0 <= i < |nodes|
  {
    nodes[i].id
  }

  predicate UniqueIds(nodes: seq<State>) {
    forall i, j :: 0 <= i < j < |nodes| ==> NodeId(nodes, i) != NodeId(nodes, j)
  }

  predicate SameMigration(a: State, b: State) {
    a.phase == b.phase && a.migration == b.migration
  }

  predicate EdgeIn(edges: EdgeSet, from: Id, to: Id) {
    from in edges && to in edges[from]
  }

  /** The greedy successor: the last entry of the edge list. */
  function NextIn(edges: EdgeSet, from: Id): (to: Id)
    ensures to != "" ==> EdgeIn(edges, from, to)
  {
    if from in edges && edges[from] != [] then Last(edges[from]) else ""
  }

  datatype Source = Source(nodes: seq<State>, index: map<Id, nat>, edges: EdgeSet) {

    /** The index map mirrors the node list and every edge joins known nodes. */
    ghost predicate Valid() {
      && nodes != []
      && (forall i :: 0 <= i < |nodes| ==> IdAt(i) in index && index[IdAt(i)] == i)
      && (forall id :: id in index ==> index[id] < |nodes| && IdAt(index[id]) == id)
      && (forall from :: from in edges ==> from in index)
      && (forall from, to :: Edge(from, to) ==> to in index)
    }

    function IdAt(i: int): Id
      requires 0 <= i < |nodes|
    {
      nodes[i].id
    }

    predicate Edge(from: Id, to: Id) {
      EdgeIn(edges, from, to)
    }

    /** Every edge leads to a strictly newer release. */
    ghost predicate Forward() {
      forall from, to :: Edge(from, to) && from in index && to in index ==> index[to] < index[from]
    }

    function Head(): Id
      requires nodes != []
    {
      nodes[0].id
    }

    function NextVersion(from: Id): (to: Id)
      ensures to != "" ==> Edge(from, to)
    {
      NextIn(edges, from)
    }

    function LatestVersion(id: Id): Id {
      if nodes == [] || id == nodes[0].id then "" else nodes[0].id
    }

    function StateOf(id: Id): State
      requires Valid()
    {
      if id in index then nodes[index[id]] else NO_STATE
    }

    /** Lookup as the code does it in place: an unknown id reads index 0. */
    function NodeAt(id: Id): State
      requires Valid()
    {
      nodes[if id in index then index[id] else 0]
    }

    function EdgesOf(from: Id): seq<Id> {
      if from in edges then edges[from] else []
    }

    /** Length of the longest prefix of `to` whose nodes share the migration and phase of `initial`. */
    function DirectPrefix(initial: State, to: seq<Id>): (n: nat)
      requires Valid()
      ensures n <= |to|
      ensures forall i :: 0 <= i < n ==> SameMigration(initial, NodeAt(to[i]))
      ensures n < |to| ==> !SameMigration(initial, NodeAt(to[n]))
    {
      if to != [] && SameMigration(initial, NodeAt(to[0])) then 1 + DirectPrefix(initial, to[1..]) else 0
    }

    /** The newest release reachable over one edge with no migration in between:
        the end of the longest migration-free prefix of the edge list. */
    function NextDirect(from: Id): Id
      requires Valid()
    {
      var to := EdgesOf(from);
      var n := DirectPrefix(NodeAt(from), to);
      if n == 0 then "" else to[n - 1]
    }

    /** Both releases have the same migration and the same phase. */
    predicate Alike(a: Id, b: Id)
      requires Valid()
    {
      && a in index && b in index
      && nodes[index[a]].migration == nodes[index[b]].migration && nodes[index[a]].phase == nodes[index[b]].phase
    }

    /** Up to entry `i` of its edge list no migration lies between a release and its updates; the next
        entry, if any, needs one. */
    predicate LastAlike(from: Id, i: nat)
      requires Valid()
    {
      && from in edges && i < |edges[from]|
      && (forall j :: 0 <= j <= i ==> Alike(from, edges[from][j]))
      && (i + 1 < |edges[from]| ==> !Alike(from, edges[from][i + 1]))
    }

    /** There is an update, and the first one needs no migration. */
    predicate StartsAlike(from: Id)
      requires Valid()
    {
      from in edges && edges[from] != [] && Alike(from, edges[from][0])
    }

    method NextVersionWithoutMigrations(from: Id) returns (found: Id)
      requires Valid()
      ensures found == NextDirect(from)
      ensures !StartsAlike(from) ==> found == ""
      ensures StartsAlike(from) ==> exists i: nat :: LastAlike(from, i) && found == edges[from][i]
      ensures "" !in index ==> (found == "" <==> !StartsAlike(from))
    {
      var initial := NodeAt(from);
      found := "";
      if from in edges && |edges[from]| > 0 {
        var to := edges[from];
        var i := 0;
        while i < |to|
          invariant 0 <= i <= |to|
          invariant forall j :: 0 <= j < i ==> SameMigration(initial, NodeAt(to[j]))
          invariant found == if i == 0 then "" else to[i - 1]
        {
          if SameMigration(initial, NodeAt(to[i])) {
            found := to[i];
          } else {
            break;
          }
          i := i + 1;
        }
        assert DirectPrefix(initial, to) == i;
      }
      DirectMeaning(this, from);
    }

    /** The releases no newer than position `k`. */
    function KeptIds(k: nat): (ids: set<Id>)
      ensures forall id :: id in ids <==> id in index && index[id] >= k
    {
      set id | id in index && index[id] >= k
    }

    /** The channel cut off at position `k`: the node suffix, re-indexed, and the
        order-preserving restriction of the edges to it. */
    ghost function Suffix(k: nat): (r: Source)
      requires Valid() && k < |nodes|
      ensures r.Valid()
      ensures r.index.Keys == KeptIds(k)
    {
      var r := Source(nodes[k..],
                      map id | id in KeptIds(k) :: index[id] - k,
                      EdgesWithin(edges, KeptIds(k)));
      assert forall i :: 0 <= i < |r.nodes| ==> r.IdAt(i) == IdAt(i + k);
      assert forall from, to :: r.Edge(from, to) ==> to in r.index by {
        forall from, to | r.Edge(from, to) ensures to in r.index {
          RestrictMember(edges[from], KeptIds(k), to);
        }
      }
      r
    }

    method Subgraph(head: Id) returns (r: Result<Source, string>)
      requires Valid()
      ensures r.Err? <==> head != "" && head !in index
      ensures r.Ok? ==> r.value == Suffix(if head == "" then 0 else index[head])
    {
      var at: nat := 0;
      if |head| > 0 {
        if head !in index {
          return Err("version is not in the update graph");
        }
        at := index[head];
      }
      var ordered := nodes[at..];
      var nodeSet := IndexFrom(at);
      var kept := RestrictEdges(edges, nodeSet.Keys);
      r := Ok(Source(ordered, nodeSet, kept));
    }

    /** The positions of the nodes from `at` onward, counted from `at`. */
    method IndexFrom(at: nat) returns (nodeSet: map<Id, nat>)
      requires Valid() && at < |nodes|
      ensures nodeSet == Suffix(at).index
    {
      var ordered := nodes[at..];
      nodeSet := map[];
      for i := 0 to |ordered|
        invariant forall id :: id in nodeSet <==> id in index && at <= index[id] < at + i
        invariant forall id :: id in nodeSet ==> nodeSet[id] == index[id] - at
      {
        assert ordered[i].id == IdAt(at + i);
        nodeSet := nodeSet[ordered[i].id := i];
      }
    }
  }

  /** The edges between nodes of `keep`. */
  function EdgesWithin(edges: EdgeSet, keep: set<Id>): EdgeSet {
    map from | from in edges && from in keep :: Restrict(edges[from], keep)
  }

  /** The migration-free update on the edge list itself. */
  lemma DirectMeaning(s: Source, from: Id)
    requires s.Valid()
    ensures !s.StartsAlike(from) ==> s.NextDirect(from) == ""
    ensures s.StartsAlike(from) ==> exists i: nat :: s.LastAlike(from, i) && s.NextDirect(from) == s.edges[from][i]
  {
    if from in s.edges && s.edges[from] != [] {
      var to := s.edges[from];
      var n := s.DirectPrefix(s.NodeAt(from), to);
      forall j | 0 <= j < |to| ensures s.Alike(from, to[j]) <==> SameMigration(s.NodeAt(from), s.NodeAt(to[j])) {
        assert s.Edge(from, to[j]);
      }
      if n > 0 {
        assert s.LastAlike(from, n - 1);
      }
    }
  }

  lemma LastAlikeUnique(s: Source, from: Id, i: nat, j: nat)
    requires s.Valid() && s.LastAlike(from, i) && s.LastAlike(from, j)
    ensures i == j
  {
  }

  lemma EdgesWithinTwice(edges: EdgeSet, a: set<Id>, b: set<Id>)
    ensures EdgesWithin(EdgesWithin(edges, a), b) == EdgesWithin(edges, a * b)
  {
    forall from | from in edges && from in a * b
      ensures EdgesWithin(EdgesWithin(edges, a), b)[from] == EdgesWithin(edges, a * b)[from]
    {
      RestrictTwice(edges[from], a, b);
    }
  }

  /** Drops every edge that leaves or enters a node outside `keep`. */
  method RestrictEdges(edges: EdgeSet, keep: set<Id>) returns (r: EdgeSet)
    ensures r == EdgesWithin(edges, keep)
  {
    r := map[];
    var todo := edges.Keys;
    while todo != {}
      invariant todo <= edges.Keys
      invariant forall from :: from in r <==> from in edges && from !in todo && from in keep
      invariant forall from :: from in r ==> r[from] == Restrict(edges[from], keep)
      decreases |todo|
    {
      var from :| from in todo;
      todo := todo - {from};
      if from !in keep {
        continue;
      }
      var list: seq<Id> := [];
      var to := edges[from];
      for i := 0 to |to|
        invariant list == Restrict(to[..i], keep)
      {
        RestrictStep(to, i, keep);
        if to[i] in keep {
          list := list + [to[i]];
        }
      }
      assert to[..|to|] == to;
      r := r[from := list];
    }
    assert r == EdgesWithin(edges, keep);
  }

  // ---- Algebra of re-rooting ----

  lemma KeptOfKept(s: Source, sub: Source, i: nat, j: nat)
    requires i <= j && sub.index == map id | id in s.KeptIds(i) :: s.index[id] - i
    ensures sub.KeptIds(j - i) == s.KeptIds(j) && s.KeptIds(i) * sub.KeptIds(j - i) == s.KeptIds(j)
    ensures (map id | id in sub.KeptIds(j - i) :: sub.index[id] - (j - i))
         == map id | id in s.KeptIds(j) :: s.index[id] - j
  {
  }

  /** Re-rooting at position `i` and then at an older position `j` is re-rooting at `j`. */
  lemma SubgraphOfSubgraph(s: Source, i: nat, j: nat)
    requires s.Valid() && i <= j < |s.nodes|
    ensures s.Suffix(i).Suffix(j - i) == s.Suffix(j)
  {
    var sub := s.Suffix(i);
    var a, b := sub.Suffix(j - i), s.Suffix(j);
    assert a.nodes == b.nodes;
    KeptOfKept(s, sub, i, j);
    EdgesWithinTwice(s.edges, s.KeptIds(i), sub.KeptIds(j - i));
  }

  /** Re-rooting at the head changes nothing. */
  lemma SubgraphAtHead(s: Source)
    requires s.Valid()
    ensures s.Suffix(0) == s
  {
    var r := s.Suffix(0);
    assert r.nodes == s.nodes;
    assert r.index == s.index;
    forall from | from in s.edges ensures r.edges[from] == s.edges[from] {
      assert forall to :: to in s.edges[from] ==> s.Edge(from, to);
      RestrictAll(s.edges[from], s.KeptIds(0));
    }
    assert r.edges == s.edges;
  }

  /** Exactly the edges between releases no newer than the new head survive. */
  lemma SubgraphEdges(s: Source, k: nat, from: Id, to: Id)
    requires s.Valid() && k < |s.nodes|
    ensures s.Suffix(k).Edge(from, to)
       <==> s.Edge(from, to) && s.index[from] >= k && s.index[to] >= k
  {
    if from in s.edges {
      RestrictMember(s.edges[from], s.KeptIds(k), to);
    }
  }

  /** A release keeps its state and shifts its position; a newer one is unknown. */
  lemma SubgraphStates(s: Source, k: nat, id: Id)
    requires s.Valid() && k < |s.nodes| && id in s.index
    ensures id in s.Suffix(k).index <==> s.index[id] >= k
    ensures s.index[id] >= k ==> s.Suffix(k).index[id] == s.index[id] - k
    ensures s.index[id] >= k ==> s.Suffix(k).StateOf(id) == s.StateOf(id) == s.NodeAt(id)
  {
  }
}
