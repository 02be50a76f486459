/** The edges of one update graph that another does not have. */
module GraphDifference {
  import opened Seqs
  import opened UpdateSource
  import opened UpdateGraph

  predicate EqualIdentity(c: Channel, o: Channel) {
    && c.metadata.Some? && o.metadata.Some?
    && c.name == o.name && c.Meta("datastore") == o.Meta("datastore")
  }

  predicate Matched(c: Channel, others: seq<Channel>) {
    exists o :: o in others && EqualIdentity(c, o)
  }

  // ---- What is kept of one channel against another ----

  predicate KeptEdge(c: Channel, o: Channel, from: Id, to: Id) {
    EdgeIn(c.edges, from, to) && !EdgeIn(o.edges, from, to)
  }

  /** A start node is kept if the other channel does not have it or lacks one of its edges. */
  ghost predicate KeptStart(c: Channel, o: Channel, from: Id) {
    from in c.edges && (from !in o.edges || exists to :: KeptEdge(c, o, from, to))
  }

  ghost predicate NothingKept(c: Channel, o: Channel) {
    forall from :: !KeptStart(c, o, from)
  }

  ghost predicate Touched(c: Channel, o: Channel, id: Id) {
    KeptStart(c, o, id) || exists from :: KeptEdge(c, o, from, id)
  }

  ghost predicate Dangles(c: Channel, o: Channel) {
    EqualIdentity(c, o) && exists id :: Touched(c, o, id) && id !in Ids(c.nodes)
  }

  ghost predicate KeepsEdges(c: Channel, o: Channel, kept: EdgeSet) {
    && (forall from :: from in kept <==> KeptStart(c, o, from))
    && (forall from, to :: EdgeIn(kept, from, to) <==> KeptEdge(c, o, from, to))
    && (forall from :: from in kept && from !in o.edges ==> from in c.edges && kept[from] == c.edges[from])
    && (forall from :: from in kept && from in o.edges ==> Distinct(kept[from]))
  }

  ghost predicate KeepsNodes(c: Channel, o: Channel, nodes: seq<State>) {
    && UniqueIds(nodes)
    && (forall id :: id in Ids(nodes) <==> Touched(c, o, id))
    && (forall n :: n in nodes ==> n in c.nodes)
  }

  /** `d` is the part of `c` that `o` does not have. */
  ghost predicate DiffChannel(c: Channel, o: Channel, d: Channel) {
    && d.name == c.name && d.metadata == c.metadata
    && KeepsEdges(c, o, d.edges) && KeepsNodes(c, o, d.nodes)
  }

  /** One channel for each match that leaves something, in order. */
  ghost predicate Parts(c: Channel, others: seq<Channel>, piece: seq<Channel>) {
    if others == [] then piece == []
    else if !EqualIdentity(c, Last(others)) || NothingKept(c, Last(others)) then
      Parts(c, others[..|others| - 1], piece)
    else
      && piece != [] && DiffChannel(c, Last(others), Last(piece))
      && Parts(c, others[..|others| - 1], piece[..|piece| - 1])
  }

  /** A channel without a match is new as a whole. */
  ghost predicate Piece(c: Channel, others: seq<Channel>, piece: seq<Channel>) {
    if Matched(c, others) then Parts(c, others, piece) else piece == [c]
  }

  ghost predicate IsDifference(g: Graph, other: Graph, r: Graph, pieces: seq<seq<Channel>>) {
    && |pieces| == |g.channels| && r.channels == Flatten(pieces)
    && forall i :: 0 <= i < |pieces| ==> Piece(g.channels[i], other.channels, pieces[i])
  }

  // ---- The operation ----

  /** None stands for the panic on an edge whose node is not in the channel. */
  method Difference(g: Graph, other: Graph) returns (r: Option<Graph>, ghost pieces: seq<seq<Channel>>)
    ensures r.None? <==> exists c, o :: c in g.channels && o in other.channels && Dangles(c, o)
    ensures r.Some? ==> IsDifference(g, other, r.value, pieces)
  {
    var channels: seq<Channel> := [];
    pieces := [];
    for i := 0 to |g.channels|
      invariant |pieces| == i && channels == Flatten(pieces)
      invariant forall k :: 0 <= k < i ==> Piece(g.channels[k], other.channels, pieces[k])
      invariant forall k, o :: 0 <= k < i && o in other.channels ==> !Dangles(g.channels[k], o)
    {
      var piece := DiffAgainst(g.channels[i], other.channels);
      if piece.None? {
        r := None;
        return;
      }
      channels := channels + piece.value;
      pieces := pieces + [piece.value];
      assert pieces[..i] == pieces[..|pieces| - 1];
    }
    r := Some(Graph(channels));
  }

  ghost predicate AnyDangles(c: Channel, others: seq<Channel>) {
    exists o :: o in others && Dangles(c, o)
  }

  lemma DanglesNext(c: Channel, others: seq<Channel>, o: Channel)
    ensures AnyDangles(c, others + [o]) <==> AnyDangles(c, others) || Dangles(c, o)
  {
    assert forall x :: x in others + [o] <==> x in others || x == o;
  }

  lemma MatchedNext(c: Channel, others: seq<Channel>, o: Channel)
    ensures Matched(c, others + [o]) <==> Matched(c, others) || EqualIdentity(c, o)
  {
    assert forall x :: x in others + [o] <==> x in others || x == o;
  }

  lemma PartsSkip(c: Channel, others: seq<Channel>, o: Channel, piece: seq<Channel>)
    requires Parts(c, others, piece) && (!EqualIdentity(c, o) || NothingKept(c, o))
    ensures Parts(c, others + [o], piece)
  {
    assert (others + [o])[..|others|] == others;
  }

  lemma PartsAdd(c: Channel, others: seq<Channel>, o: Channel, piece: seq<Channel>, d: Channel)
    requires Parts(c, others, piece) && EqualIdentity(c, o) && !NothingKept(c, o) && DiffChannel(c, o, d)
    ensures Parts(c, others + [o], piece + [d])
  {
    assert (others + [o])[..|others|] == others && (piece + [d])[..|piece|] == piece;
  }

  method DiffAgainst(c: Channel, others: seq<Channel>) returns (piece: Option<seq<Channel>>)
    ensures piece.None? <==> AnyDangles(c, others)
    ensures piece.Some? ==> Piece(c, others, piece.value)
  {
    var found := false;
    var parts: seq<Channel> := [];
    for j := 0 to |others|
      invariant found <==> Matched(c, others[..j])
      invariant Parts(c, others[..j], parts)
      invariant !AnyDangles(c, others[..j])
    {
      var o := others[j];
      assert others[..j + 1] == others[..j] + [o];
      MatchedNext(c, others[..j], o);
      DanglesNext(c, others[..j], o);
      if EqualIdentity(c, o) {
        found := true;
        var known, d := DiffMatch(c, o);
        if !known {
          assert o in others;
          return None;
        }
        if d.Some? {
          PartsAdd(c, others[..j], o, parts, d.value);
          parts := parts + [d.value];
        } else {
          PartsSkip(c, others[..j], o, parts);
        }
      } else {
        PartsSkip(c, others[..j], o, parts);
      }
    }
    assert others[..|others|] == others;
    piece := Some(if found then parts else [c]);
  }

  /** What is left of a channel against a match; not `known` when a kept edge dangles. */
  method DiffMatch(c: Channel, o: Channel) returns (known: bool, d: Option<Channel>)
    requires EqualIdentity(c, o)
    ensures known <==> !Dangles(c, o)
    ensures known ==> (d.None? <==> NothingKept(c, o))
    ensures known && d.Some? ==> DiffChannel(c, o, d.value)
  {
    var kept := KeepEdges(c, o);
    if |kept| == 0 {
      NothingTouched(c, o, kept);
      return true, None;
    }
    SomethingKept(c, o, kept);
    var nodes := KeepNodes(c, o, kept);
    if nodes.None? {
      return false, None;
    }
    return true, Some(Channel(c.name, c.metadata, kept, nodes.value));
  }

  lemma NothingTouched(c: Channel, o: Channel, kept: EdgeSet)
    requires KeepsEdges(c, o, kept) && |kept| == 0
    ensures NothingKept(c, o) && !Dangles(c, o)
  {
    assert kept.Keys == {};
    assert forall from :: from !in kept;
    forall from, to ensures !KeptEdge(c, o, from, to) {
      assert !EdgeIn(kept, from, to);
    }
  }

  lemma SomethingKept(c: Channel, o: Channel, kept: EdgeSet)
    requires KeepsEdges(c, o, kept) && |kept| > 0
    ensures !NothingKept(c, o)
  {
    assert kept.Keys != {};
    var from :| from in kept;
  }

  method KeepEdges(c: Channel, o: Channel) returns (kept: EdgeSet)
    ensures KeepsEdges(c, o, kept)
  {
    kept := map[];
    var todo := c.edges.Keys;
    while todo != {}
      invariant todo <= c.edges.Keys
      invariant forall from :: from in kept <==> KeptStart(c, o, from) && from !in todo
      invariant forall from :: from in kept ==> KeepsList(c, o, from, kept[from])
      decreases |todo|
    {
      var from :| from in todo;
      todo := todo - {from};
      if from !in o.edges {
        kept := kept[from := c.edges[from]];
        continue;
      }
      var edges := (set x | x in c.edges[from]) - (set x | x in o.edges[from]);
      if |edges| > 0 {
        var list := UnsortedList(edges);
        assert forall to :: to in edges <==> KeptEdge(c, o, from, to);
        var to :| to in edges;
        assert KeptEdge(c, o, from, to);
        kept := kept[from := list];
      } else {
        assert forall to :: KeptEdge(c, o, from, to) ==> to in edges;
      }
    }
    forall from, to ensures EdgeIn(kept, from, to) <==> KeptEdge(c, o, from, to) {
      if from in kept {
        assert KeepsList(c, o, from, kept[from]);
      }
    }
  }

  ghost predicate KeepsList(c: Channel, o: Channel, from: Id, list: seq<Id>) {
    && from in c.edges
    && (forall to :: to in list <==> KeptEdge(c, o, from, to))
    && (if from in o.edges then Distinct(list) else list == c.edges[from])
  }

  method UnsortedList(s: set<Id>) returns (list: seq<Id>)
    ensures Distinct(list) && forall x :: x in list <==> x in s
  {
    list := [];
    var todo := s;
    while todo != {}
      invariant todo <= s && Distinct(list)
      invariant forall x :: x in list <==> x in s && x !in todo
      decreases |todo|
    {
      var x :| x in todo;
      todo := todo - {x};
      list := list + [x];
    }
  }

  method KeepNodes(c: Channel, o: Channel, kept: EdgeSet) returns (nodes: Option<seq<State>>)
    requires EqualIdentity(c, o) && KeepsEdges(c, o, kept)
    ensures nodes.None? <==> Dangles(c, o)
    ensures nodes.Some? ==> KeepsNodes(c, o, nodes.value)
  {
    var ids := kept.Keys + TargetIds(kept);
    forall id ensures id in ids <==> Touched(c, o, id) {
      if from :| EdgeIn(kept, from, id) {
        assert from in kept && id in kept[from];
      } else {
        assert id !in TargetIds(kept) by {
          assert forall from :: from in kept ==> !EdgeIn(kept, from, id);
        }
      }
    }
    var list := UnsortedList(ids);
    var keep: seq<State> := [];
    for i := 0 to |list|
      invariant |keep| == i
      invariant forall k :: 0 <= k < i ==> keep[k].id == list[k] && keep[k] in c.nodes
    {
      var at := FindNode(c.nodes, list[i]);
      if at < 0 {
        assert list[i] in list;
        return None;
      }
      keep := keep + [c.nodes[at]];
    }
    assert forall id :: id in Ids(keep) <==> id in list by {
      forall id ensures id in Ids(keep) <==> id in list {
        if id in list {
          var k :| 0 <= k < |list| && list[k] == id;
          assert keep[k] in keep;
        }
      }
    }
    assert forall k :: 0 <= k < |keep| ==> NodeId(keep, k) == list[k];
    nodes := Some(keep);
  }

  /** Every node some edge enters. */
  function TargetIds(edges: EdgeSet): set<Id> {
    set from, to | from in edges && to in edges[from] :: to
  }

  method FindNode(nodes: seq<State>, id: Id) returns (at: int)
    ensures at < 0 <==> id !in Ids(nodes)
    ensures at >= 0 ==> at < |nodes| && nodes[at].id == id
  {
    at := 0;
    while at < |nodes|
      invariant 0 <= at <= |nodes|
      invariant forall k :: 0 <= k < at ==> nodes[k].id != id
    {
      if nodes[at].id == id {
        assert nodes[at] in nodes;
        return;
      }
      at := at + 1;
    }
    at := -1;
  }

  // ---- Conservation ----

  ghost predicate DistinctIdentities(g: Graph) {
    forall i, j :: 0 <= i < j < |g.channels| ==> !EqualIdentity(g.channels[i], g.channels[j])
  }

  ghost predicate EdgeFor(g: Graph, c: Channel, from: Id, to: Id) {
    exists d :: d in g.channels && EqualIdentity(c, d) && EdgeIn(d.edges, from, to)
  }

  lemma PieceIdentity(c: Channel, others: seq<Channel>, piece: seq<Channel>, d: Channel)
    requires Piece(c, others, piece) && d in piece
    ensures d.name == c.name && d.metadata == c.metadata
  {
    if Matched(c, others) {
      PartsIdentity(c, others, piece, d);
    }
  }

  lemma {:induction false} PartsIdentity(c: Channel, others: seq<Channel>, piece: seq<Channel>, d: Channel)
    requires Parts(c, others, piece) && d in piece
    ensures d.name == c.name && d.metadata == c.metadata
  {
    if others != [] {
      if !EqualIdentity(c, Last(others)) || NothingKept(c, Last(others)) {
        PartsIdentity(c, others[..|others| - 1], piece, d);
      } else if d != Last(piece) {
        PartsIdentity(c, others[..|others| - 1], piece[..|piece| - 1], d);
      }
    }
  }

  ghost predicate HasPart(piece: seq<Channel>, from: Id, to: Id) {
    exists d :: d in piece && EdgeIn(d.edges, from, to)
  }

  ghost predicate MatchHas(c: Channel, others: seq<Channel>, from: Id, to: Id) {
    exists o :: o in others && EqualIdentity(c, o) && EdgeIn(o.edges, from, to)
  }

  /** With one match at most, the parts hold exactly the edges the match does not have. */
  lemma {:induction false} PartsEdges(c: Channel, others: seq<Channel>, piece: seq<Channel>, from: Id, to: Id)
    requires Parts(c, others, piece) && DistinctIdentities(Graph(others)) && Matched(c, others)
    requires EdgeIn(c.edges, from, to)
    ensures HasPart(piece, from, to) <==> !MatchHas(c, others, from, to)
  {
    var o, init := Last(others), others[..|others| - 1];
    assert others == init + [o];
    if EqualIdentity(c, o) {
      LastPart(c, others, piece, from, to);
    } else {
      assert forall i, j :: 0 <= i < j < |init| ==> !EqualIdentity(others[i], others[j]);
      PartsEdges(c, init, piece, from, to);
    }
  }

  lemma LastPart(c: Channel, others: seq<Channel>, piece: seq<Channel>, from: Id, to: Id)
    requires others != [] && Parts(c, others, piece) && DistinctIdentities(Graph(others))
    requires EqualIdentity(c, Last(others)) && EdgeIn(c.edges, from, to)
    ensures HasPart(piece, from, to) <==> !MatchHas(c, others, from, to)
  {
    var o, init := Last(others), others[..|others| - 1];
    assert others == init + [o];
    OnlyLastMatches(c, others);
    if NothingKept(c, o) {
      NoParts(c, init, piece);
      assert !KeptStart(c, o, from) && !KeptEdge(c, o, from, to);
    } else {
      NoParts(c, init, piece[..|piece| - 1]);
      assert piece == [Last(piece)];
      assert EdgeIn(Last(piece).edges, from, to) <==> KeptEdge(c, o, from, to);
    }
  }

  lemma OnlyLastMatches(c: Channel, others: seq<Channel>)
    requires others != [] && DistinctIdentities(Graph(others)) && EqualIdentity(c, Last(others))
    ensures forall p :: p in others[..|others| - 1] ==> !EqualIdentity(c, p)
  {
    var init := others[..|others| - 1];
    forall p | p in init ensures !EqualIdentity(c, p) {
      var k :| 0 <= k < |init| && init[k] == p;
      assert !EqualIdentity(others[k], others[|others| - 1]);
    }
  }

  lemma {:induction false} NoParts(c: Channel, others: seq<Channel>, piece: seq<Channel>)
    requires Parts(c, others, piece) && !Matched(c, others)
    ensures piece == []
  {
    if others != [] {
      assert Last(others) in others;
      assert !Matched(c, others[..|others| - 1]);
      NoParts(c, others[..|others| - 1], piece);
    }
  }

  /** Each edge of a channel is either in the difference or in the other graph, and never in both. */
  lemma EdgesConserved(g: Graph, other: Graph, r: Graph, pieces: seq<seq<Channel>>, i: nat, from: Id, to: Id)
    requires IsDifference(g, other, r, pieces) && DistinctIdentities(g) && DistinctIdentities(other)
    requires i < |g.channels| && g.channels[i].metadata.Some? && EdgeIn(g.channels[i].edges, from, to)
    ensures EdgeFor(r, g.channels[i], from, to) <==> !EdgeFor(other, g.channels[i], from, to)
  {
    var c := g.channels[i];
    assert Piece(c, other.channels, pieces[i]);
    forall d ensures d in r.channels && EqualIdentity(c, d) <==> d in pieces[i] {
      FlattenMember(pieces, d);
      if k :| 0 <= k < |pieces| && d in pieces[k] {
        PieceIdentity(g.channels[k], other.channels, pieces[k], d);
      }
      if d in pieces[i] {
        PieceIdentity(c, other.channels, pieces[i], d);
      }
    }
    if Matched(c, other.channels) {
      PartsEdges(c, other.channels, pieces[i], from, to);
      assert EdgeFor(other, c, from, to) <==> MatchHas(c, other.channels, from, to);
    } else {
      assert c in pieces[i];
    }
  }

  /** A graph minus itself is empty exactly when every channel carries metadata: a channel
      without it matches nothing, not even itself. */
  lemma SelfDifference(g: Graph, r: Graph, pieces: seq<seq<Channel>>)
    requires IsDifference(g, g, r, pieces) && DistinctIdentities(g)
    ensures r.channels == [] <==> forall c :: c in g.channels ==> c.metadata.Some?
  {
    forall i | 0 <= i < |pieces| ensures pieces[i] == [] <==> g.channels[i].metadata.Some? {
      SelfPiece(g, i, pieces[i]);
    }
    FlattenEmpty(pieces);
  }

  lemma SelfPiece(g: Graph, i: nat, piece: seq<Channel>)
    requires i < |g.channels| && DistinctIdentities(g) && Piece(g.channels[i], g.channels, piece)
    ensures piece == [] <==> g.channels[i].metadata.Some?
  {
    var c := g.channels[i];
    if c.metadata.Some? {
      assert c in g.channels && EqualIdentity(c, c);
      SelfParts(c, g.channels, piece);
    }
  }

  lemma {:induction false} SelfParts(c: Channel, others: seq<Channel>, piece: seq<Channel>)
    requires Parts(c, others, piece)
    requires forall o :: o in others && EqualIdentity(c, o) ==> o == c
    ensures piece == []
  {
    if others != [] {
      assert Last(others) in others;
      if EqualIdentity(c, Last(others)) {
        assert NothingKept(c, c);
      }
      SelfParts(c, others[..|others| - 1], piece);
    }
  }
}
