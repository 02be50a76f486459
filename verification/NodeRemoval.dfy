/** Removing releases from a channel in place: edge lists are slices over shared arrays, and the
    code deletes from a list while ranging over its old header. */
module NodeRemoval {
  import opened Seqs
  import opened UpdateSource

  function Members<T(==)>(s: seq<T>): set<T> {
    set x | x in s
  }

  /** `s` without the elements of `gone`, in order. */
  function Without<T(==)>(s: seq<T>, gone: set<T>): seq<T> {
    Restrict(s, Members(s) - gone)
  }

  /** Dropping some elements is keeping the others. */
  lemma WithoutIsRestrict<T>(s: seq<T>, gone: set<T>, keep: set<T>)
    requires forall x :: x in s ==> (x in keep <==> x !in gone)
    ensures Without(s, gone) == Restrict(s, keep)
  {
    RestrictAgree(s, Members(s) - gone, keep);
  }

  lemma WithoutStep<T>(s: seq<T>, gone: set<T>)
    requires s != []
    ensures Without(s, gone) == if s[0] in gone then Without(s[1..], gone) else [s[0]] + Without(s[1..], gone)
  {
    var keep := Members(s) - gone;
    assert s == [s[0]] + s[1..];
    WithoutIsRestrict(s[1..], gone, keep);
    RestrictConcat([s[0]], s[1..], keep);
    assert Restrict([s[0]], keep) == if s[0] in keep then [s[0]] else [];
  }

  lemma WithoutMember<T>(s: seq<T>, gone: set<T>, x: T)
    ensures x in Without(s, gone) <==> x in s && x !in gone
  {
    RestrictMember(s, Members(s) - gone, x);
  }

  lemma {:induction false} WithoutTwice<T>(s: seq<T>, a: set<T>, b: set<T>)
    ensures Without(Without(s, a), b) == Without(s, a + b)
  {
    if s != [] {
      WithoutTwice(s[1..], a, b);
      WithoutStep(s, a);
      WithoutStep(s, a + b);
      if s[0] !in a {
        WithoutStep(Without(s, a), b);
      }
    }
  }

  lemma {:induction false} WithoutDistinct<T>(s: seq<T>, gone: set<T>)
    requires Distinct(s)
    ensures Distinct(Without(s, gone))
  {
    if s != [] {
      WithoutDistinct(s[1..], gone);
      WithoutStep(s, gone);
      var rest := Without(s[1..], gone);
      forall j | 0 <= j < |rest| ensures rest[j] != s[0] {
        WithoutMember(s[1..], gone, rest[j]);
        assert rest[j] in s[1..];
      }
    }
  }

  lemma WithoutNone<T>(s: seq<T>)
    ensures Without(s, {}) == s
  {
    RestrictAll(s, Members(s) - {});
  }

  // ---- The sweep over one list ----

  /** What ranging over `s` from `i` and deleting each `id` found leaves: after a deletion the
      element that moved into its place is not looked at. */
  function Sweep(s: seq<Id>, i: nat, id: Id): seq<Id>
    decreases |s| - i
  {
    if i >= |s| then s
    else if s[i] == id then Sweep(s[..i] + s[i + 1..], i + 1, id)
    else Sweep(s, i + 1, id)
  }

  /** The sweep, by what it keeps of the rest of the list. */
  function SweptRest(t: seq<Id>, id: Id): seq<Id> {
    if t == [] then []
    else if t[0] != id then [t[0]] + SweptRest(t[1..], id)
    else if |t| == 1 then []
    else [t[1]] + SweptRest(t[2..], id)
  }

  lemma {:induction false} SweepSplits(p: seq<Id>, t: seq<Id>, id: Id)
    ensures Sweep(p + t, |p|, id) == p + SweptRest(t, id)
    decreases |t|
  {
    if t == [] {
      assert p + t == p;
    } else if t[0] != id {
      assert p + t == (p + [t[0]]) + t[1..];
      SweepSplits(p + [t[0]], t[1..], id);
    } else {
      var s := p + t;
      assert s[..|p|] + s[|p| + 1..] == p + t[1..];
      if |t| > 1 {
        assert p + t[1..] == (p + [t[1]]) + t[2..];
        SweepSplits(p + [t[1]], t[2..], id);
      }
    }
  }

  /** Freed places hold the empty name: once such a name is deleted before the last place, the range
      meets a freed place and deletes past the end of the live slice. */
  predicate Overruns(s: seq<Id>, id: Id) {
    id == "" && exists i :: 0 <= i < |s| - 1 && s[i] == ""
  }

  ghost predicate NoneAdjacent(s: seq<Id>, id: Id) {
    forall i :: 0 <= i < |s| - 1 ==> !(s[i] == id && s[i + 1] == id)
  }

  /** The sweep removes every occurrence if and only if no two of them are adjacent. */
  lemma SweepIsExact(s: seq<Id>, id: Id)
    ensures Sweep(s, 0, id) == Without(s, {id}) <==> NoneAdjacent(s, id)
  {
    SweepSplits([], s, id);
    assert [] + s == s;
    SweptRestIsExact(s, id);
  }

  /** Of two adjacent occurrences one survives. */
  lemma AdjacentSurvives(id: Id)
    ensures Sweep([id, id], 0, id) == [id] && Without([id, id], {id}) == []
  {
    SweepSplits([], [id, id], id);
    assert [] + [id, id] == [id, id];
    assert Without([id, id], {id}) == [] by {
      WithoutStep([id, id], {id});
      WithoutStep([id], {id});
      assert [id, id][1..] == [id];
    }
  }

  lemma {:induction false} SweptRestIsExact(t: seq<Id>, id: Id)
    ensures SweptRest(t, id) == Without(t, {id}) <==> NoneAdjacent(t, id)
    decreases |t|
  {
    if t == [] {
    } else if t[0] != id {
      SweptRestIsExact(t[1..], id);
      AdjacentTail(t, id, 1);
      WithoutStep(t, {id});
      assert SweptRest(t, id)[1..] == SweptRest(t[1..], id) && Without(t, {id})[1..] == Without(t[1..], {id});
    } else if |t| == 1 {
      WithoutStep(t, {id});
    } else {
      if t[1] == id {
        WithoutMember(t, {id}, id);
        assert SweptRest(t, id)[0] == id;
      } else {
        SweptRestIsExact(t[2..], id);
        AdjacentTail(t, id, 2);
        WithoutStep(t, {id});
        WithoutStep(t[1..], {id});
        assert t[1..][1..] == t[2..];
        assert SweptRest(t, id)[1..] == SweptRest(t[2..], id) && Without(t, {id})[1..] == Without(t[2..], {id});
      }
    }
  }

  lemma AdjacentTail(t: seq<Id>, id: Id, k: nat)
    requires 0 < k <= |t| && t[k - 1] != id
    requires k == 2 ==> t[1] != id
    requires k <= 2
    ensures NoneAdjacent(t, id) <==> NoneAdjacent(t[k..], id)
  {
    if NoneAdjacent(t[k..], id) {
      forall i | 0 <= i < |t| - 1 ensures !(t[i] == id && t[i + 1] == id) {
        if i >= k {
          assert t[k..][i - k] == t[i] && t[k..][i - k + 1] == t[i + 1];
        }
      }
    }
  }

  lemma SweepDistinct(s: seq<Id>, id: Id)
    requires Distinct(s)
    ensures Sweep(s, 0, id) == Without(s, {id})
  {
    SweepIsExact(s, id);
  }

  function SweptLists(e: EdgeSet, id: Id): EdgeSet {
    map k | k in e :: Sweep(e[k], 0, id)
  }

  /** Its own list is dropped, all others are swept. */
  function SweptEdges(e: EdgeSet, id: Id): EdgeSet {
    SweptLists(e - {id}, id)
  }

  function EdgesAfter(e: EdgeSet, removed: seq<State>): EdgeSet {
    if removed == [] then e
    else SweptEdges(EdgesAfter(e, removed[..|removed| - 1]), Last(removed).id)
  }

  ghost predicate AnyOverruns(e: EdgeSet, id: Id) {
    exists k :: k in e && Overruns(e[k], id)
  }

  lemma OverrunsNext(e: EdgeSet, todo: set<Id>, from: Id, id: Id)
    requires from in e && from in todo
    ensures AnyOverruns(e - (todo - {from}), id) <==> AnyOverruns(e - todo, id) || Overruns(e[from], id)
    ensures AnyOverruns(e - (todo - {from}), id) ==> AnyOverruns(e, id)
  {
    var less, more := e - todo, e - (todo - {from});
    if AnyOverruns(less, id) {
      var k :| k in less && Overruns(less[k], id);
      assert k in more && more[k] == less[k];
    }
    if Overruns(e[from], id) {
      assert from in more && more[from] == e[from];
    }
    if AnyOverruns(more, id) {
      var k :| k in more && Overruns(more[k], id);
      assert k in e && e[k] == more[k];
      assert k != from ==> k in less && less[k] == e[k];
    }
  }

  ghost predicate SweepOverruns(e: EdgeSet, id: Id) {
    AnyOverruns(e - {id}, id)
  }

  /** Removing the releases one after the other panics on the way. */
  ghost predicate RemovalOverruns(e: EdgeSet, removed: seq<State>) {
    exists i :: 0 <= i < |removed| && OverrunsAt(e, removed, i)
  }

  ghost predicate NoOverrun(e: EdgeSet, removed: seq<State>, n: nat)
    requires n <= |removed|
  {
    forall i :: 0 <= i < n ==> !OverrunsAt(e, removed, i)
  }

  lemma NoOverrunNext(e: EdgeSet, removed: seq<State>, n: nat)
    requires n < |removed| && NoOverrun(e, removed, n) && !OverrunsAt(e, removed, n)
    ensures NoOverrun(e, removed, n + 1)
  {
    forall i | 0 <= i < n + 1 ensures !OverrunsAt(e, removed, i) {
      assert i < n || i == n;
    }
  }

  ghost predicate OverrunsAt(e: EdgeSet, removed: seq<State>, i: nat)
    requires i < |removed|
  {
    SweepOverruns(EdgesAfter(e, removed[..i]), removed[i].id)
  }

  /** Only an empty name can do that. */
  lemma NamedNeverOverruns(e: EdgeSet, removed: seq<State>)
    requires forall n :: n in removed ==> n.id != ""
    ensures !RemovalOverruns(e, removed)
  {
  }

  function RemoveFirst(nodes: seq<State>, n: State): seq<State> {
    if nodes == [] then []
    else if nodes[0] == n then nodes[1..]
    else [nodes[0]] + RemoveFirst(nodes[1..], n)
  }

  function NodesAfter(nodes: seq<State>, removed: seq<State>): seq<State> {
    if removed == [] then nodes
    else RemoveFirst(NodesAfter(nodes, removed[..|removed| - 1]), Last(removed))
  }

  ghost predicate NoDuplicates(e: EdgeSet) {
    forall k :: k in e ==> Distinct(e[k])
  }

  function EdgesWithout(e: EdgeSet, gone: set<Id>): EdgeSet {
    map k | k in e && k !in gone :: Without(e[k], gone)
  }

  function RemovedIds(removed: seq<State>): set<Id> {
    set n | n in removed :: n.id
  }

  lemma SweepAgain(list: seq<Id>, gone: set<Id>, id: Id)
    requires Distinct(Without(list, gone))
    ensures Sweep(Without(list, gone), 0, id) == Without(list, gone + {id})
    ensures Distinct(Without(list, gone + {id}))
  {
    SweepDistinct(Without(list, gone), id);
    WithoutTwice(list, gone, {id});
    WithoutDistinct(Without(list, gone), {id});
  }

  lemma SweptExactly(e: EdgeSet, gone: set<Id>, id: Id)
    requires NoDuplicates(EdgesWithout(e, gone))
    ensures SweptEdges(EdgesWithout(e, gone), id) == EdgesWithout(e, gone + {id})
    ensures NoDuplicates(EdgesWithout(e, gone + {id}))
  {
    var before := EdgesWithout(e, gone);
    forall k | k in before && k != id
      ensures Sweep(before[k], 0, id) == Without(e[k], gone + {id}) && Distinct(Without(e[k], gone + {id}))
    {
      SweepAgain(e[k], gone, id);
    }
  }

  /** Without duplicate edges, what is left is exactly the order-preserving restriction. */
  lemma {:induction false} EdgeRemovalIsExact(e: EdgeSet, removed: seq<State>)
    requires NoDuplicates(e)
    ensures EdgesAfter(e, removed) == EdgesWithout(e, RemovedIds(removed))
    ensures NoDuplicates(EdgesAfter(e, removed))
  {
    if removed == [] {
      assert RemovedIds(removed) == {};
      forall k | k in e ensures Without(e[k], {}) == e[k] {
        WithoutNone(e[k]);
      }
    } else {
      var init, id := removed[..|removed| - 1], Last(removed).id;
      EdgeRemovalIsExact(e, init);
      assert removed == init + [Last(removed)];
      assert RemovedIds(removed) == RemovedIds(init) + {id};
      SweptExactly(e, RemovedIds(init), id);
    }
  }

  lemma {:induction false} RemoveFirstIsExact(nodes: seq<State>, n: State)
    requires Distinct(nodes)
    ensures RemoveFirst(nodes, n) == Without(nodes, {n})
  {
    if nodes != [] {
      RemoveFirstIsExact(nodes[1..], n);
      WithoutStep(nodes, {n});
      if nodes[0] == n {
        assert forall x :: x in nodes[1..] ==> x != n;
        WithoutIsRestrict(nodes[1..], {n}, Members(nodes[1..]));
        RestrictAll(nodes[1..], Members(nodes[1..]));
      }
    }
  }

  lemma {:induction false} NodeRemovalIsExact(nodes: seq<State>, removed: seq<State>)
    requires Distinct(nodes)
    ensures NodesAfter(nodes, removed) == Without(nodes, Members(removed))
    ensures Distinct(NodesAfter(nodes, removed))
  {
    if removed == [] {
      assert Members(removed) == {};
      WithoutNone(nodes);
    } else {
      var init := removed[..|removed| - 1];
      NodeRemovalIsExact(nodes, init);
      RemoveFirstIsExact(NodesAfter(nodes, init), Last(removed));
      WithoutTwice(nodes, Members(init), {Last(removed)});
      assert removed == init + [Last(removed)];
      assert Members(removed) == Members(init) + {Last(removed)};
      WithoutDistinct(nodes, Members(removed));
    }
  }

  /** Removing members of a channel without duplicate edges leaves exactly the other nodes and
      the edges among them. */
  lemma RemovalIsRestriction(nodes: seq<State>, e: EdgeSet, removed: seq<State>)
    requires UniqueIds(nodes) && NoDuplicates(e)
    requires forall n :: n in removed ==> n in nodes
    requires forall k :: k in e ==> k in Ids(nodes)
    requires forall k, to :: EdgeIn(e, k, to) ==> to in Ids(nodes)
    ensures NodesAfter(nodes, removed) == Without(nodes, Members(removed))
    ensures Ids(NodesAfter(nodes, removed)) == Ids(nodes) - RemovedIds(removed)
    ensures EdgesAfter(e, removed) == EdgesWithin(e, Ids(NodesAfter(nodes, removed)))
  {
    assert Distinct(nodes) by {
      forall i, j | 0 <= i < j < |nodes| ensures nodes[i] != nodes[j] {
        assert NodeId(nodes, i) != NodeId(nodes, j);
      }
    }
    NodeRemovalIsExact(nodes, removed);
    EdgeRemovalIsExact(e, removed);
    RemainingIds(nodes, removed);
    var keep := Ids(NodesAfter(nodes, removed));
    forall k | k in e && k in keep ensures Without(e[k], RemovedIds(removed)) == Restrict(e[k], keep) {
      assert forall x :: x in e[k] ==> EdgeIn(e, k, x);
      WithoutIsRestrict(e[k], RemovedIds(removed), keep);
    }
  }

  lemma RemainingIds(nodes: seq<State>, removed: seq<State>)
    requires UniqueIds(nodes) && forall n :: n in removed ==> n in nodes
    ensures Ids(Without(nodes, Members(removed))) == Ids(nodes) - RemovedIds(removed)
  {
    var left := Without(nodes, Members(removed));
    forall n ensures n in left <==> n in nodes && n !in removed {
      WithoutMember(nodes, Members(removed), n);
    }
    forall n, r | n in left && r in removed ensures n.id != r.id {
      var i :| 0 <= i < |nodes| && nodes[i] == n;
      var j :| 0 <= j < |nodes| && nodes[j] == r;
      assert NodeId(nodes, i) == n.id && NodeId(nodes, j) == r.id;
    }
    forall id | id in Ids(nodes) - RemovedIds(removed) ensures id in Ids(left) {
      var n :| n in nodes && n.id == id;
      assert n in left;
    }
  }

  // ---- Slices ----

  /** A slice header: the first `len` elements of a shared array. */
  datatype Slice<T> = Slice(arr: array<T>, len: nat)

  lemma Deleted<T>(was: seq<T>, now: seq<T>, i: nat)
    requires i < |was| && |now| == |was| - 1
    requires forall j :: 0 <= j < i ==> now[j] == was[j]
    requires forall j :: i <= j < |now| ==> now[j] == was[j + 1]
    ensures now == was[..i] + was[i + 1..]
  {
  }

  /** Deletes one element: the tail moves left and the freed place is zeroed. */
  method DeleteAt<T>(s: Slice<T>, i: nat, zero: T) returns (r: Slice<T>)
    requires i < s.len <= s.arr.Length
    modifies s.arr
    ensures r == Slice(s.arr, s.len - 1)
    ensures s.arr[..r.len] == old(s.arr[..s.len])[..i] + old(s.arr[..s.len])[i + 1..]
    ensures s.arr[s.len - 1] == zero && s.arr[s.len..] == old(s.arr[s.len..])
  {
    for k := i to s.len - 1
      invariant s.arr[..i] == old(s.arr[..i])
      invariant forall j :: i <= j < k ==> s.arr[j] == old(s.arr[j + 1])
      invariant forall j :: k <= j < s.arr.Length ==> s.arr[j] == old(s.arr[j])
    {
      s.arr[k] := s.arr[k + 1];
    }
    s.arr[s.len - 1] := zero;
    r := Slice(s.arr, s.len - 1);
    Deleted(old(s.arr[..s.len]), s.arr[..r.len], i);
  }

  /** Ranges over the header `edges` while each deletion shortens the live header; not `ok` is the
      panic of a deletion past its end. */
  method SweepSlice(edges: Slice<Id>, id: Id) returns (ok: bool, live: Slice<Id>)
    requires edges.len <= edges.arr.Length
    modifies edges.arr
    ensures ok <==> !Overruns(old(edges.arr[..edges.len]), id)
    ensures ok ==> live.arr == edges.arr && live.len <= edges.len
    ensures ok ==> edges.arr[..live.len] == Sweep(old(edges.arr[..edges.len]), 0, id)
  {
    live := edges;
    ghost var s := edges.arr[..edges.len];
    for i := 0 to edges.len
      invariant live.arr == edges.arr && live.len <= edges.len
      invariant forall k :: live.len <= k < edges.len ==> edges.arr[k] == ""
      invariant Sweep(edges.arr[..live.len], i, id) == Sweep(s, 0, id)
      invariant live.len == edges.len ==> edges.arr[..edges.len] == s && (id == "" ==> "" !in s[..i])
      invariant id == "" && live.len < edges.len ==> (Overruns(s, id) <==> i < edges.len)
    {
      var to := edges.arr[i];
      if to == id {
        if i >= live.len {
          return false, live;
        }
        ghost var before := edges.arr[..live.len];
        ghost var n := live.len;
        live := DeleteAt(live, i, "");
        assert edges.arr[..live.len] == before[..i] + before[i + 1..];
        assert forall k :: n <= k < edges.len ==> edges.arr[k] == edges.arr[n..][k - n];
      }
    }
    ok := true;
  }

  /** The edge lists of a channel: a map shared by every copy of the channel value. */
  class EdgeMap {
    var m: map<Id, Slice<Id>>

    ghost function Arrays(): set<array<Id>>
      reads this
    {
      set k | k in m :: m[k].arr
    }

    /** Headers fit their arrays, and no two lists share one. */
    ghost predicate Valid()
      reads this
    {
      && (forall k :: k in m ==> m[k].len <= m[k].arr.Length)
      && (forall j, k :: Apart(j, k))
    }

    ghost predicate Apart(j: Id, k: Id)
      reads this
    {
      j in m && k in m && j != k ==> m[j].arr != m[k].arr
    }

    ghost function View(): EdgeSet
      requires Valid()
      reads this, Arrays()
    {
      map k | k in m :: List(k)
    }

    constructor (m: map<Id, Slice<Id>>)
      ensures this.m == m
    {
      this.m := m;
    }

    /** One edge list is swept; the others keep their headers and their arrays. */
    method SweepList(from: Id, id: Id) returns (ok: bool)
      requires Valid() && from in m
      modifies this, m[from].arr
      ensures ok <==> !Overruns(old(List(from)), id)
      ensures ok ==> Valid() && m.Keys == old(m.Keys) && Arrays() == old(Arrays())
      ensures ok ==> List(from) == Sweep(old(List(from)), 0, id)
      ensures ok ==> forall k :: k in m && k != from ==> List(k) == old(List(k))
    {
      assert forall k :: k in m && k != from ==> Apart(from, k);
      var s;
      ok, s := SweepSlice(m[from], id);
      if ok {
        m := m[from := s];
        assert forall k :: k in m ==> m[k].arr == old(m[k].arr);
        assert forall j, k :: old(Apart(j, k)) ==> Apart(j, k);
      }
    }

    /** The lists outside `todo` are swept, the others as they were. */
    ghost predicate Partly(was: EdgeSet, todo: set<Id>, id: Id)
      requires Valid()
      reads this, Arrays()
    {
      m.Keys == was.Keys && forall k :: k in m ==> List(k) == if k in todo then was[k] else Sweep(was[k], 0, id)
    }

    ghost predicate Midway(was: EdgeSet, todo: set<Id>, id: Id)
      reads this, Arrays()
    {
      Valid() && Partly(was, todo, id) && !AnyOverruns(was - todo, id)
    }

    method SweepNext(from: Id, id: Id, ghost was: EdgeSet, ghost todo: set<Id>) returns (ok: bool)
      requires Midway(was, todo, id) && from in todo && from in m
      modifies this, Arrays()
      ensures !ok ==> AnyOverruns(was, id)
      ensures ok ==> Arrays() == old(Arrays()) && Midway(was, todo - {from}, id)
    {
      OverrunsNext(was, todo, from, id);
      ok := SweepList(from, id);
    }

    lemma Untouched(was: EdgeSet, id: Id)
      requires Valid() && was == View()
      ensures Midway(was, m.Keys, id)
    {
    }

    lemma AllSwept(was: EdgeSet, id: Id)
      requires Midway(was, {}, id)
      ensures View() == SweptLists(was, id) && !AnyOverruns(was, id)
    {
      assert was - {} == was;
    }

    /** Every edge list is swept. */
    method SweepAll(id: Id) returns (ok: bool)
      requires Valid()
      modifies this, Arrays()
      ensures ok <==> !AnyOverruns(old(View()), id)
      ensures ok ==> Valid() && Arrays() == old(Arrays()) && View() == SweptLists(old(View()), id)
    {
      ghost var was := View();
      var todo := m.Keys;
      Untouched(was, id);
      while todo != {}
        invariant Arrays() == old(Arrays()) && todo <= was.Keys && Midway(was, todo, id)
        decreases todo
      {
        var from :| from in todo;
        ok := SweepNext(from, id, was, todo);
        if !ok {
          return;
        }
        todo := todo - {from};
      }
      AllSwept(was, id);
      ok := true;
    }

    /** The list of a release is dropped. */
    method DropList(id: Id)
      requires Valid()
      modifies this
      ensures Valid() && Arrays() <= old(Arrays()) && View() == old(View()) - {id}
    {
      m := m - {id};
      assert forall j, k :: old(Apart(j, k)) ==> Apart(j, k);
      assert Arrays() <= old(Arrays());
      assert forall k :: k in m ==> List(k) == old(List(k));
    }

    /** Removes every edge that leaves or enters `id`. */
    method RemoveEdges(id: Id) returns (ok: bool)
      requires Valid()
      modifies this, Arrays()
      ensures ok <==> !SweepOverruns(old(View()), id)
      ensures ok ==> Valid() && Arrays() <= old(Arrays())
      ensures ok ==> View() == SweptEdges(old(View()), id)
    {
      DropList(id);
      ok := SweepAll(id);
    }

    ghost function List(k: Id): seq<Id>
      requires Valid() && k in m
      reads this, Arrays()
    {
      m[k].arr[..m[k].len]
    }
  }

  /** A channel value: it holds the edge map by reference and its own node header. */
  datatype ChannelValue = ChannelValue(edges: EdgeMap, nodes: Slice<State>)

  ghost predicate ValidChannel(c: ChannelValue)
    reads c.edges
  {
    c.edges.Valid() && c.nodes.len <= c.nodes.arr.Length
  }

  method IndexOfNode(nodes: Slice<State>, n: State) returns (at: int)
    requires nodes.len <= nodes.arr.Length
    ensures at < 0 ==> n !in nodes.arr[..nodes.len]
    ensures at >= 0 ==> at < nodes.len && nodes.arr[at] == n && n !in nodes.arr[..at]
  {
    at := 0;
    while at < nodes.len
      invariant 0 <= at <= nodes.len
      invariant n !in nodes.arr[..at]
    {
      if nodes.arr[at] == n {
        return;
      }
      at := at + 1;
    }
    at := -1;
  }

  lemma {:induction false} RemoveFirstAt(nodes: seq<State>, n: State, at: nat)
    requires at <= |nodes| && n !in nodes[..at] && (at < |nodes| ==> nodes[at] == n)
    ensures RemoveFirst(nodes, n) == nodes[..at] + (if at < |nodes| then nodes[at + 1..] else [])
  {
    if nodes != [] && at > 0 {
      assert nodes[0] in nodes[..at];
      assert nodes[1..][..at - 1] == nodes[..at][1..];
      RemoveFirstAt(nodes[1..], n, at - 1);
    }
  }

  /** Removes the first occurrence of a release from the node list, if there is one. */
  method RemoveFromList(nodes: Slice<State>, n: State) returns (r: Slice<State>)
    requires nodes.len <= nodes.arr.Length
    modifies nodes.arr
    ensures r.arr == nodes.arr && r.len <= nodes.len
    ensures r.arr[..r.len] == RemoveFirst(old(nodes.arr[..nodes.len]), n)
  {
    var idx := IndexOfNode(nodes, n);
    ghost var all := nodes.arr[..nodes.len];
    if idx < 0 {
      RemoveFirstAt(all, n, |all|);
      return nodes;
    }
    assert all[..idx] == nodes.arr[..idx];
    RemoveFirstAt(all, n, idx);
    r := DeleteAt(nodes, idx, NO_STATE);
  }

  method RemoveNode(c: ChannelValue, n: State) returns (ok: bool, r: ChannelValue)
    requires ValidChannel(c)
    modifies c.edges, c.edges.Arrays(), c.nodes.arr
    ensures r.edges == c.edges && r.nodes.arr == c.nodes.arr
    ensures ok <==> !SweepOverruns(old(c.edges.View()), n.id)
    ensures ok ==> ValidChannel(r) && r.edges.Arrays() <= old(c.edges.Arrays())
    ensures ok ==> r.edges.View() == SweptEdges(old(c.edges.View()), n.id)
    ensures ok ==> r.nodes.arr[..r.nodes.len] == RemoveFirst(old(c.nodes.arr[..c.nodes.len]), n)
  {
    r := c;
    ok := c.edges.RemoveEdges(n.id);
    if ok {
      var nodes := RemoveFromList(c.nodes, n);
      r := c.(nodes := nodes);
    }
  }

  lemma AfterNext(e: EdgeSet, nodes: seq<State>, removed: seq<State>, i: nat)
    requires i < |removed|
    ensures EdgesAfter(e, removed[..i + 1]) == SweptEdges(EdgesAfter(e, removed[..i]), removed[i].id)
    ensures NodesAfter(nodes, removed[..i + 1]) == RemoveFirst(NodesAfter(nodes, removed[..i]), removed[i])
  {
    assert removed[..i + 1][..i] == removed[..i];
  }

  /** Removes releases, one after the other, from the shared edge map and the node array. */
  method RemoveNodes(c: ChannelValue, removed: seq<State>) returns (ok: bool, r: ChannelValue)
    requires ValidChannel(c)
    modifies c.edges, c.edges.Arrays(), c.nodes.arr
    ensures ok <==> !RemovalOverruns(old(c.edges.View()), removed)
    ensures ok ==> ValidChannel(r) && r.edges == c.edges && r.nodes.arr == c.nodes.arr
    ensures ok ==> r.edges.View() == EdgesAfter(old(c.edges.View()), removed)
    ensures ok ==> r.nodes.arr[..r.nodes.len] == NodesAfter(old(c.nodes.arr[..c.nodes.len]), removed)
  {
    r := c;
    ghost var e, ns := c.edges.View(), c.nodes.arr[..c.nodes.len];
    for i := 0 to |removed|
      invariant ValidChannel(r) && r.edges == c.edges && r.nodes.arr == c.nodes.arr
      invariant r.edges.Arrays() <= old(c.edges.Arrays())
      invariant r.edges.View() == EdgesAfter(e, removed[..i])
      invariant r.nodes.arr[..r.nodes.len] == NodesAfter(ns, removed[..i])
      invariant NoOverrun(e, removed, i)
    {
      AfterNext(e, ns, removed, i);
      ok, r := RemoveNode(r, removed[i]);
      assert ok <==> !OverrunsAt(e, removed, i);
      if !ok {
        return;
      }
      NoOverrunNext(e, removed, i);
    }
    assert removed[..|removed|] == removed;
    ok := true;
  }

  method CopySlice<T>(s: Slice<T>, zero: T) returns (r: Slice<T>)
    requires s.len <= s.arr.Length
    ensures fresh(r.arr) && r.len == s.len == r.arr.Length
    ensures r.arr[..r.len] == s.arr[..s.len]
  {
    var arr := new T[s.len](_ => zero);
    for i := 0 to s.len
      invariant arr[..i] == s.arr[..i]
    {
      arr[i] := s.arr[i];
    }
    r := Slice(arr, s.len);
  }

  ghost predicate Holds<T>(s: Slice<T>, list: seq<T>)
    reads s.arr
  {
    s.len <= s.arr.Length && s.arr[..s.len] == list
  }

  /** A fresh copy of every list. */
  method CloneLists(e: EdgeMap) returns (m: map<Id, Slice<Id>>)
    requires e.Valid()
    ensures m.Keys == e.m.Keys
    ensures forall k :: k in m ==> fresh(m[k].arr) && Holds(m[k], e.View()[k])
    ensures forall j, k :: j in m && k in m && j != k ==> m[j].arr != m[k].arr
  {
    m := map[];
    var todo := e.m.Keys;
    ghost var lists := e.View();
    while todo != {}
      invariant todo <= e.m.Keys && m.Keys == e.m.Keys - todo
      invariant forall k :: k in m ==> fresh(m[k].arr) && Holds(m[k], lists[k])
      invariant forall j, k :: j in m && k in m && j != k ==> m[j].arr != m[k].arr
      decreases |todo|
    {
      var k :| k in todo;
      todo := todo - {k};
      assert lists[k] == e.List(k);
      var s := CopySlice(e.m[k], "");
      m := m[k := s];
    }
  }

  lemma ViewIs(e: EdgeMap, lists: EdgeSet)
    requires e.m.Keys == lists.Keys && forall k :: k in e.m ==> Holds(e.m[k], lists[k])
    requires forall j, k :: j in e.m && k in e.m && j != k ==> e.m[j].arr != e.m[k].arr
    ensures e.Valid() && e.View() == lists
  {
    assert e.Valid();
    assert forall k :: k in e.m ==> e.List(k) == lists[k];
  }

  method CloneEdges(e: EdgeMap) returns (r: EdgeMap)
    requires e.Valid()
    ensures r.Valid() && fresh(r) && fresh(r.Arrays()) && r.View() == e.View()
  {
    ghost var lists := e.View();
    var m := CloneLists(e);
    r := new EdgeMap(m);
    ViewIs(r, lists);
  }

  /** A copy with its own edge map, edge lists and node array. */
  method Clone(c: ChannelValue) returns (r: ChannelValue)
    requires ValidChannel(c)
    ensures ValidChannel(r) && fresh(r.edges) && fresh(r.edges.Arrays()) && fresh(r.nodes.arr)
    ensures r.edges.View() == c.edges.View()
    ensures r.nodes.arr[..r.nodes.len] == c.nodes.arr[..c.nodes.len]
  {
    var edges := CloneEdges(c.edges);
    var nodes := CopySlice(c.nodes, NO_STATE);
    r := ChannelValue(edges, nodes);
  }

  /** Removing from a clone changes nothing the original holds. */
  method RemoveFromClone(c: ChannelValue, removed: seq<State>) returns (ok: bool, r: ChannelValue)
    requires ValidChannel(c)
    ensures unchanged(c.edges) && unchanged(c.edges.Arrays()) && unchanged(c.nodes.arr)
    ensures ok <==> !RemovalOverruns(old(c.edges.View()), removed)
    ensures ok ==> ValidChannel(r) && r.edges.View() == EdgesAfter(old(c.edges.View()), removed)
    ensures ok ==> r.nodes.arr[..r.nodes.len] == NodesAfter(old(c.nodes.arr[..c.nodes.len]), removed)
  {
    ghost var e, ns := c.edges.View(), c.nodes.arr[..c.nodes.len];
    var copy := Clone(c);
    assert copy.edges.View() == e && copy.nodes.arr[..copy.nodes.len] == ns;
    ok, r := RemoveNodes(copy, removed);
  }
}
