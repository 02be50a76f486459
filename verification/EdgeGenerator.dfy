/** The generator of channel edges from version ranges. Parsing is left to two parameters:
    `rank` embeds the version order of a release id, `admits` decides a range. */
module EdgeGenerator {
  import opened Seqs
  import opened UpdateSource
  import opened Validation
  import opened Walks
  import opened AvailableVersions

  type Rank = Id -> int
  type Admits = (string, Id) -> bool

  predicate Matches(pattern: string, release: State, admits: Admits) {
    !release.deprecated && admits(pattern, release.id)
  }

  /** The ids of the matching releases, in release order. */
  function MatchingIds(pattern: string, releases: seq<State>, admits: Admits): seq<Id> {
    if releases == [] then []
    else
      var init := MatchingIds(pattern, releases[..|releases| - 1], admits);
      if Matches(pattern, Last(releases), admits) then init + [Last(releases).id] else init
  }

  lemma {:induction false} MatchingMember(pattern: string, releases: seq<State>, admits: Admits, id: Id)
    ensures id in MatchingIds(pattern, releases, admits)
       <==> exists r :: r in releases && r.id == id && Matches(pattern, r, admits)
  {
    if releases != [] {
      MatchingMember(pattern, releases[..|releases| - 1], admits, id);
      assert releases == releases[..|releases| - 1] + [Last(releases)];
    }
  }

  ghost predicate Ascending(s: seq<Id>, rank: Rank) {
    forall i, j :: 0 <= i < j < |s| ==> rank(s[i]) <= rank(s[j])
  }

  method SortByRank(s: seq<Id>, rank: Rank) returns (t: seq<Id>)
    ensures Ascending(t, rank) && multiset(t) == multiset(s)
  {
    t := [];
    for k := 0 to |s|
      invariant Ascending(t, rank) && multiset(t) == multiset(s[..k])
    {
      assert s[..k + 1] == s[..k] + [s[k]];
      t := InsertByRank(t, s[k], rank);
    }
    assert s[..|s|] == s;
  }

  method InsertByRank(t: seq<Id>, x: Id, rank: Rank) returns (r: seq<Id>)
    requires Ascending(t, rank)
    ensures Ascending(r, rank) && multiset(r) == multiset(t) + multiset{x}
  {
    var i := |t|;
    while i > 0 && rank(x) < rank(t[i - 1])
      invariant 0 <= i <= |t|
      invariant forall j :: i <= j < |t| ==> rank(x) < rank(t[j])
    {
      i := i - 1;
    }
    r := t[..i] + [x] + t[i..];
    InsertAscending(t, x, i, rank);
    InsertAdds(t, x, i);
  }

  lemma InsertAdds(t: seq<Id>, x: Id, i: nat)
    requires i <= |t|
    ensures multiset(t[..i] + [x] + t[i..]) == multiset(t) + multiset{x}
  {
    assert t == t[..i] + t[i..];
  }

  lemma InsertAscending(t: seq<Id>, x: Id, i: nat, rank: Rank)
    requires Ascending(t, rank) && i <= |t|
    requires i > 0 ==> rank(t[i - 1]) <= rank(x)
    requires forall j :: i <= j < |t| ==> rank(x) < rank(t[j])
    ensures Ascending(t[..i] + [x] + t[i..], rank)
  {
    var r := t[..i] + [x] + t[i..];
    forall a, b | 0 <= a < b < |r| ensures rank(r[a]) <= rank(r[b]) {
      assert a < i ==> r[a] == t[a] && rank(t[a]) <= rank(t[i - 1]);
      assert a > i ==> r[a] == t[a - 1];
      assert b < i ==> r[b] == t[b];
      assert b > i ==> r[b] == t[b - 1];
    }
  }

  /** The edge list of a range: its matches, oldest first. */
  ghost predicate ListFor(list: seq<Id>, pattern: string, releases: seq<State>, admits: Admits, rank: Rank) {
    Ascending(list, rank) && multiset(list) == multiset(MatchingIds(pattern, releases, admits))
  }

  /** A range contributes an edge list exactly when it matches something: the matches, oldest first. */
  ghost predicate Generated(edges: EdgeSet, patterns: map<Id, string>, releases: seq<State>,
                            admits: Admits, rank: Rank) {
    && (forall from :: from in edges <==> from in patterns && MatchingIds(patterns[from], releases, admits) != [])
    && (forall from :: from in edges ==> ListFor(edges[from], patterns[from], releases, admits, rank))
  }

  method EdgesFromPatterns(patterns: map<Id, string>, releases: seq<State>, admits: Admits, rank: Rank)
    returns (edges: EdgeSet)
    ensures Generated(edges, patterns, releases, admits, rank)
  {
    edges := map[];
    var todo := patterns.Keys;
    while todo != {}
      invariant todo <= patterns.Keys
      invariant forall from :: from in edges <==>
                  (from in patterns.Keys - todo && MatchingIds(patterns[from], releases, admits) != [])
      invariant forall from :: from in edges ==> ListFor(edges[from], patterns[from], releases, admits, rank)
      decreases |todo|
    {
      var from :| from in todo;
      todo := todo - {from};
      var list: seq<Id> := [];
      for i := 0 to |releases|
        invariant list == MatchingIds(patterns[from], releases[..i], admits)
      {
        assert releases[..i + 1][..i] == releases[..i];
        if releases[i].deprecated {
          continue;
        }
        if !admits(patterns[from], releases[i].id) {
          continue;
        }
        list := list + [releases[i].id];
      }
      assert releases[..|releases|] == releases;
      var sorted := SortByRank(list, rank);
      if list != [] {
        assert |multiset(sorted)| == |multiset(list)|;
        edges := edges[from := sorted];
      }
    }
  }

  // ---- The generated channel ----

  /** Releases are named, unique and listed newest first; ranges belong to releases and admit only newer ones. */
  ghost predicate WellFormed(patterns: map<Id, string>, releases: seq<State>, admits: Admits, rank: Rank) {
    && releases != [] && "" !in Ids(releases)
    && (forall i, j :: 0 <= i < j < |releases| ==> rank(NodeId(releases, i)) > rank(NodeId(releases, j)))
    && (forall from :: from in patterns ==> from in Ids(releases))
    && (forall from, to :: from in patterns && admits(patterns[from], to) ==> rank(to) > rank(from))
  }

  /** The release has a range and the range matches some release that may be updated to. */
  ghost predicate Matched(patterns: map<Id, string>, releases: seq<State>, admits: Admits, id: Id) {
    id in patterns && exists r :: r in releases && Matches(patterns[id], r, admits)
  }

  lemma GeneratedEdge(edges: EdgeSet, patterns: map<Id, string>, releases: seq<State>, admits: Admits,
                      rank: Rank, from: Id, to: Id)
    requires Generated(edges, patterns, releases, admits, rank)
    ensures EdgeIn(edges, from, to) <==>
            from in patterns && exists r :: r in releases && r.id == to && Matches(patterns[from], r, admits)
  {
    if from in patterns {
      var ids := MatchingIds(patterns[from], releases, admits);
      MatchingMember(patterns[from], releases, admits, to);
      if from in edges {
        assert to in edges[from] <==> to in multiset(edges[from]);
        assert to in ids <==> to in multiset(ids);
      }
    }
  }

  lemma GeneratedKeys(edges: EdgeSet, patterns: map<Id, string>, releases: seq<State>, admits: Admits,
                      rank: Rank, from: Id)
    requires Generated(edges, patterns, releases, admits, rank)
    ensures from in edges <==> Matched(patterns, releases, admits, from)
    ensures from in edges ==> edges[from] != [] && NextIn(edges, from) == Last(edges[from])
  {
    if from in patterns {
      var ids := MatchingIds(patterns[from], releases, admits);
      if from in edges {
        assert |multiset(edges[from])| == |multiset(ids)|;
        MatchingMember(patterns[from], releases, admits, ids[0]);
      }
      if r :| r in releases && Matches(patterns[from], r, admits) {
        MatchingMember(patterns[from], releases, admits, r.id);
      }
    }
  }

  /** An edge is generated exactly for each release that the range of its start admits and that is not
      deprecated. */
  lemma GeneratedExactly(edges: EdgeSet, patterns: map<Id, string>, releases: seq<State>,
                         admits: Admits, rank: Rank, from: Id, to: Id)
    requires Generated(edges, patterns, releases, admits, rank)
    ensures EdgeIn(edges, from, to) <==>
              from in patterns && exists r :: r in releases && r.id == to && !r.deprecated && admits(patterns[from], to)
  {
    GeneratedEdge(edges, patterns, releases, admits, rank, from, to);
  }

  /** No edge enters a deprecated release, every edge goes to a strictly newer one, and the greedy
      successor is the newest match. */
  lemma GeneratedEdgesAreSafe(edges: EdgeSet, patterns: map<Id, string>, releases: seq<State>,
                              admits: Admits, rank: Rank, from: Id, to: Id)
    requires WellFormed(patterns, releases, admits, rank)
    requires Generated(edges, patterns, releases, admits, rank)
    requires EdgeIn(edges, from, to)
    ensures exists r :: r in releases && r.id == to && !r.deprecated
    ensures rank(to) > rank(from) && from in Ids(releases) && to in Ids(releases)
    ensures EdgeIn(edges, from, NextIn(edges, from)) && rank(to) <= rank(NextIn(edges, from))
  {
    GeneratedEdge(edges, patterns, releases, admits, rank, from, to);
    var i :| 0 <= i < |edges[from]| && edges[from][i] == to;
    var last := |edges[from]| - 1;
    assert i < last ==> rank(edges[from][i]) <= rank(edges[from][last]);
  }

  lemma RankOrdersPlaces(releases: seq<State>, rank: Rank, i: nat, j: nat)
    requires forall i, j :: 0 <= i < j < |releases| ==> rank(NodeId(releases, i)) > rank(NodeId(releases, j))
    requires i < |releases| && j < |releases|
    ensures rank(NodeId(releases, i)) > rank(NodeId(releases, j)) <==> i < j
  {
  }

  /** The validator accepts the generated channel exactly when there are two releases at least and
      each release but the head matches some release that is not deprecated. */
  lemma GeneratorFeedsValidator(edges: EdgeSet, patterns: map<Id, string>, releases: seq<State>,
                                admits: Admits, rank: Rank)
    requires WellFormed(patterns, releases, admits, rank)
    requires Generated(edges, patterns, releases, admits, rank)
    ensures Accepts(releases, edges) <==>
            |releases| >= 2 &&
            forall id :: BelowHead(releases, id) ==> Matched(patterns, releases, admits, id)
  {
    assert UniqueIds(releases);
    assert EdgesKnown(releases, edges) by {
      forall from, to | EdgeIn(edges, from, to) ensures to in Ids(releases) {
        GeneratedEdgesAreSafe(edges, patterns, releases, admits, rank, from, to);
      }
    }
    assert OnlyHeadEmpty(releases, edges) by {
      forall from | from in edges ensures edges[from] != [] {
        GeneratedKeys(edges, patterns, releases, admits, rank, from);
      }
    }
    if |releases| >= 2 && forall id :: BelowHead(releases, id) ==> Matched(patterns, releases, admits, id) {
      AllMatchedAccepted(edges, patterns, releases, admits, rank);
    }
    if Accepts(releases, edges) {
      AcceptedMatched(edges, patterns, releases, admits, rank);
    }
  }

  lemma AllMatchedAccepted(edges: EdgeSet, patterns: map<Id, string>, releases: seq<State>,
                           admits: Admits, rank: Rank)
    requires WellFormed(patterns, releases, admits, rank)
    requires Generated(edges, patterns, releases, admits, rank)
    requires |releases| >= 2
    requires forall id :: BelowHead(releases, id) ==> Matched(patterns, releases, admits, id)
    ensures |edges| > 0 && AllReachHead(releases, edges)
  {
    assert releases[1] in releases;
    assert NodeId(releases, 0) != NodeId(releases, 1);
    assert BelowHead(releases, releases[1].id);
    GeneratedKeys(edges, patterns, releases, admits, rank, releases[1].id);
    assert releases[1].id in edges.Keys;
    forall id | BelowHead(releases, id) ensures ReachesHead(edges, id, releases[0].id) {
      var i := IndexOf(releases, id);
      LeadsUp(edges, patterns, releases, admits, rank, i);
    }
  }

  lemma {:induction false} LeadsUp(edges: EdgeSet, patterns: map<Id, string>, releases: seq<State>,
                                   admits: Admits, rank: Rank, i: nat)
    requires WellFormed(patterns, releases, admits, rank)
    requires Generated(edges, patterns, releases, admits, rank)
    requires forall id :: BelowHead(releases, id) ==> Matched(patterns, releases, admits, id)
    requires 0 < i < |releases|
    ensures ReachesHead(edges, releases[i].id, releases[0].id)
  {
    var id, head := releases[i].id, releases[0].id;
    assert releases[i] in releases && releases[0] in releases;
    assert NodeId(releases, 0) != NodeId(releases, i);
    assert BelowHead(releases, id);
    GeneratedKeys(edges, patterns, releases, admits, rank, id);
    var next := NextIn(edges, id);
    assert EdgeIn(edges, id, next);
    GeneratedEdgesAreSafe(edges, patterns, releases, admits, rank, id, next);
    var j := IndexOf(releases, next);
    RankOrdersPlaces(releases, rank, j, i);
    assert Chase(edges, id, 1) == next;
    if j == 0 {
      assert Reaches(edges, id, head, 1);
    } else {
      LeadsUp(edges, patterns, releases, admits, rank, j);
      var n: nat :| Reaches(edges, next, head, n);
      PrependStep(edges, id, head, n);
    }
  }

  lemma PrependStep(edges: EdgeSet, id: Id, head: Id, n: nat)
    requires NextIn(edges, id) != "" && Reaches(edges, NextIn(edges, id), head, n)
    ensures ReachesHead(edges, id, head)
  {
    forall k | 0 <= k <= n ensures Chase(edges, id, k + 1) == Chase(edges, NextIn(edges, id), k) {
      ChaseFrom(edges, id, k);
    }
    forall k | 0 < k < n + 1 ensures Chase(edges, id, k) != "" {
      assert Chase(edges, id, (k - 1) + 1) == Chase(edges, NextIn(edges, id), k - 1);
    }
    assert Reaches(edges, id, head, n + 1);
  }

  lemma AcceptedMatched(edges: EdgeSet, patterns: map<Id, string>, releases: seq<State>,
                        admits: Admits, rank: Rank)
    requires WellFormed(patterns, releases, admits, rank)
    requires Generated(edges, patterns, releases, admits, rank)
    requires Accepts(releases, edges)
    ensures |releases| >= 2
    ensures forall id :: BelowHead(releases, id) ==> Matched(patterns, releases, admits, id)
  {
    assert edges.Keys != {};
    var from :| from in edges;
    GeneratedKeys(edges, patterns, releases, admits, rank, from);
    GeneratedEdgesAreSafe(edges, patterns, releases, admits, rank, from, edges[from][0]);
    assert from != edges[from][0];
    var i, j := IndexOf(releases, from), IndexOf(releases, edges[from][0]);
    forall id | BelowHead(releases, id) ensures Matched(patterns, releases, admits, id) {
      var n: nat :| Reaches(edges, id, releases[0].id, n);
      assert releases[0] in releases;
      assert Chase(edges, id, 1) == NextIn(edges, id);
      assert NextIn(edges, id) != "";
      GeneratedKeys(edges, patterns, releases, admits, rank, id);
    }
  }

  lemma GeneratedForward(edges: EdgeSet, patterns: map<Id, string>, releases: seq<State>,
                         admits: Admits, rank: Rank, from: Id, to: Id)
    requires WellFormed(patterns, releases, admits, rank)
    requires Generated(edges, patterns, releases, admits, rank)
    requires SourceOf(releases, edges).Valid() && SourceOf(releases, edges).Edge(from, to)
    ensures var s := SourceOf(releases, edges);
            s.index[to] < s.index[from] && Newest(s, from) <= s.index[to]
  {
    var s := SourceOf(releases, edges);
    GeneratedEdgesAreSafe(edges, patterns, releases, admits, rank, from, to);
    var next := s.NextVersion(from);
    GeneratedEdgesAreSafe(edges, patterns, releases, admits, rank, from, next);
    RankOrdersPlaces(releases, rank, s.index[to], s.index[from]);
    RankOrdersPlaces(releases, rank, s.index[to], s.index[next]);
  }

  /** The list of a range is strictly ascending: no release matches twice. */
  lemma ListAscends(list: seq<Id>, pattern: string, releases: seq<State>, admits: Admits, rank: Rank, i: nat, j: nat)
    requires UniqueIds(releases) && ListFor(list, pattern, releases, admits, rank) && i < j < |list|
    ensures list[i] != list[j] && rank(list[i]) <= rank(list[j])
  {
    MatchingDistinct(pattern, releases, admits);
    PermutedDistinct(MatchingIds(pattern, releases, admits), list);
  }

  lemma HigherComesFirst(releases: seq<State>, rank: Rank, s: Source, low: Id, high: Id)
    requires forall i, j :: 0 <= i < j < |releases| ==> rank(NodeId(releases, i)) > rank(NodeId(releases, j))
    requires s.Valid() && s.nodes == releases && low in s.index && high in s.index
    requires low != high && rank(low) <= rank(high)
    ensures s.index[high] < s.index[low]
  {
    assert s.IdAt(s.index[low]) == low && s.IdAt(s.index[high]) == high;
    RankOrdersPlaces(releases, rank, s.index[low], s.index[high]);
  }

  lemma GeneratedOrder(edges: EdgeSet, patterns: map<Id, string>, releases: seq<State>,
                       admits: Admits, rank: Rank, from: Id, i: nat, j: nat)
    requires WellFormed(patterns, releases, admits, rank)
    requires Generated(edges, patterns, releases, admits, rank)
    requires SourceOf(releases, edges).Valid() && from in edges && i < j < |edges[from]|
    ensures var s := SourceOf(releases, edges);
            && s.Edge(from, edges[from][i]) && s.Edge(from, edges[from][j])
            && s.index[edges[from][j]] < s.index[edges[from][i]]
  {
    var s, list := SourceOf(releases, edges), edges[from];
    assert s.Edge(from, list[i]) && s.Edge(from, list[j]);
    ListAscends(list, patterns[from], releases, admits, rank, i, j);
    HigherComesFirst(releases, rank, s, list[i], list[j]);
  }

  /** The generated source has the shape the other results ask for: edges go forward and run from
      oldest to newest, so the last one is the newest. */
  lemma GeneratedShape(edges: EdgeSet, patterns: map<Id, string>, releases: seq<State>,
                       admits: Admits, rank: Rank)
    requires WellFormed(patterns, releases, admits, rank)
    requires Generated(edges, patterns, releases, admits, rank)
    requires Accepts(releases, edges)
    ensures SourceOf(releases, edges).Valid() && SourceOf(releases, edges).Forward()
    ensures NewestLast(SourceOf(releases, edges)) && OldestFirst(SourceOf(releases, edges))
  {
    SourceOfValid(releases, edges);
    var s := SourceOf(releases, edges);
    assert s.Forward() && NewestLast(s) by {
      forall from, to | s.Edge(from, to)
        ensures s.index[to] < s.index[from] && Newest(s, from) <= s.index[to]
      {
        GeneratedForward(edges, patterns, releases, admits, rank, from, to);
      }
    }
    assert OldestFirst(s) by {
      forall from, i, j | from in s.edges && 0 <= i < j < |s.edges[from]|
        ensures s.Edge(from, s.edges[from][i]) && s.Edge(from, s.edges[from][j])
        ensures s.index[s.edges[from][j]] < s.index[s.edges[from][i]]
      {
        GeneratedOrder(edges, patterns, releases, admits, rank, from, i, j);
      }
    }
  }

  lemma {:induction false} MatchingDistinct(pattern: string, releases: seq<State>, admits: Admits)
    requires UniqueIds(releases)
    ensures Distinct(MatchingIds(pattern, releases, admits))
  {
    if releases != [] {
      var init := releases[..|releases| - 1];
      assert forall i :: 0 <= i < |init| ==> NodeId(init, i) == NodeId(releases, i);
      MatchingDistinct(pattern, init, admits);
      MatchingMember(pattern, init, admits, Last(releases).id);
      forall r | r in init ensures r.id != Last(releases).id {
        var i :| 0 <= i < |init| && init[i] == r;
        assert NodeId(releases, i) != NodeId(releases, |releases| - 1);
      }
    }
  }

  /** A rearrangement of a duplicate-free list is duplicate-free. */
  lemma PermutedDistinct(s: seq<Id>, t: seq<Id>)
    requires Distinct(s) && multiset(s) == multiset(t)
    ensures Distinct(t)
  {
    forall i, j | 0 <= i < j < |t| ensures t[i] != t[j] {
      assert t == t[..i] + [t[i]] + t[i + 1..j] + [t[j]] + t[j + 1..];
      AtMostOnce(s, t[i]);
    }
  }

  lemma {:induction false} AtMostOnce(s: seq<Id>, x: Id)
    requires Distinct(s)
    ensures multiset(s)[x] <= 1
  {
    if s != [] {
      AtMostOnce(s[..|s| - 1], x);
      assert s == s[..|s| - 1] + [Last(s)];
      assert Last(s) !in s[..|s| - 1];
    }
  }
}
