/** Walks along the edges of an accepted channel and the greedy walk to its head. */
module Walks {
  import opened Seqs
  import opened UpdateSource
  import opened Validation

  /** Chasing the greedy successor leads from every release to the head. Releases
      are named: the code uses the empty string for "no version". */
  ghost predicate Accepted(s: Source) {
    && s.Valid()
    && "" !in s.index
    && forall id :: id in s.index && id != s.Head() ==> ReachesHead(s.edges, id, s.Head())
  }

  /** The sources the constructor builds from named releases are exactly the valid ones
      with some edge, no empty edge list but the head's, and every release led to the head. */
  lemma AcceptedSources(nodes: seq<State>, edges: EdgeSet)
    requires nodes != [] && UniqueIds(nodes) && EdgesKnown(nodes, edges) && "" !in Ids(nodes)
    ensures Accepts(nodes, edges)
       <==> |edges| > 0 && OnlyHeadEmpty(nodes, edges) && Accepted(SourceOf(nodes, edges))
  {
    SourceOfValid(nodes, edges);
    var s := SourceOf(nodes, edges);
    if Accepts(nodes, edges) {
      assert forall id :: id in s.index && id != s.Head() ==> BelowHead(nodes, id);
    }
  }

  ghost predicate Walk(s: Source, path: seq<Id>) {
    && path != []
    && forall i :: 0 <= i < |path| - 1 ==> s.Edge(path[i], path[i + 1])
  }

  ghost predicate WalkFromTo(s: Source, path: seq<Id>, a: Id, b: Id) {
    Walk(s, path) && path[0] == a && Last(path) == b
  }

  ghost predicate Reachable(s: Source, a: Id, b: Id) {
    exists path :: WalkFromTo(s, path, a, b)
  }

  /** `n` is the number of greedy steps from `id` to the head. */
  ghost predicate IsDistance(s: Source, id: Id, n: nat)
    requires s.Valid()
  {
    && Chase(s.edges, id, n) == s.Head()
    && forall k :: 0 <= k < n ==> Chase(s.edges, id, k) != s.Head()
  }

  ghost function Distance(s: Source, id: Id): (n: nat)
    requires Accepted(s) && id in s.index
    ensures IsDistance(s, id, n)
  {
    DistanceExists(s, id);
    var n: nat :| IsDistance(s, id, n);
    n
  }

  lemma DistanceExists(s: Source, id: Id)
    requires Accepted(s) && id in s.index
    ensures exists n: nat :: IsDistance(s, id, n)
  {
    if id == s.Head() {
      assert IsDistance(s, id, 0);
    } else {
      var m: nat :| Reaches(s.edges, id, s.Head(), m);
      FirstHit(s, id, m);
    }
  }

  lemma {:induction false} FirstHit(s: Source, id: Id, m: nat)
    requires s.Valid() && Chase(s.edges, id, m) == s.Head()
    ensures exists n: nat :: IsDistance(s, id, n)
  {
    if k: nat :| k < m && Chase(s.edges, id, k) == s.Head() {
      FirstHit(s, id, k);
    } else {
      assert IsDistance(s, id, m);
    }
  }

  lemma DistanceUnique(s: Source, id: Id, a: nat, b: nat)
    requires s.Valid() && IsDistance(s, id, a) && IsDistance(s, id, b)
    ensures a == b
  {
  }

  /** Every release but the head has a greedy successor, one step closer to the head. */
  lemma StepCloser(s: Source, id: Id)
    requires Accepted(s) && id in s.index && id != s.Head()
    ensures s.Edge(id, s.NextVersion(id)) && s.NextVersion(id) in s.index
    ensures Distance(s, s.NextVersion(id)) == Distance(s, id) - 1
  {
    var m: nat :| Reaches(s.edges, id, s.Head(), m);
    var next := s.NextVersion(id);
    assert next == Chase(s.edges, id, 1);
    assert s.IdAt(0) == s.Head();
    var d := Distance(s, id);
    assert d > 0;
    forall k: nat ensures Chase(s.edges, next, k) == Chase(s.edges, id, k + 1) {
      ChaseFrom(s.edges, id, k);
    }
    assert IsDistance(s, next, d - 1);
    DistanceUnique(s, next, d - 1, Distance(s, next));
  }

  lemma {:induction false} ChaseFrom(edges: EdgeSet, id: Id, k: nat)
    ensures Chase(edges, NextIn(edges, id), k) == Chase(edges, id, k + 1)
  {
    if k > 0 {
      ChaseFrom(edges, id, k - 1);
    }
  }

  /** The greedy walk visits no release twice, so it has fewer steps than there are nodes. */
  lemma DistanceBound(s: Source, id: Id)
    requires Accepted(s) && id in s.index
    ensures Distance(s, id) < |s.nodes|
  {
    var d, path := Distance(s, id), GreedyPath(s, id);
    GreedyPathWalks(s, id);
    GreedyPathDistinct(s, id);
    var places := seq(d + 1, i requires 0 <= i < d + 1 => s.index[path[i]]);
    assert Distinct(places) by {
      forall i, j | 0 <= i < j < |places| ensures places[i] != places[j] {
        assert s.IdAt(places[i]) == path[i] && s.IdAt(places[j]) == path[j];
      }
    }
    DistinctBound(places, Below(|s.nodes|));
  }

  lemma GreedyPathDistinct(s: Source, id: Id)
    requires Accepted(s) && id in s.index
    ensures Distinct(GreedyPath(s, id))
  {
    forall i, j | 0 <= i < j <= Distance(s, id) ensures GreedyPath(s, id)[i] != GreedyPath(s, id)[j] {
      ChaseDistinct(s.edges, id, s.Head(), Distance(s, id), i, j);
    }
  }

  /** A chase that repeats before it first meets the head would have met it earlier. */
  lemma ChaseDistinct(edges: EdgeSet, id: Id, head: Id, d: nat, i: nat, j: nat)
    requires Chase(edges, id, d) == head && i < j <= d
    requires forall k :: 0 <= k < d ==> Chase(edges, id, k) != head
    ensures Chase(edges, id, i) != Chase(edges, id, j)
  {
    if Chase(edges, id, i) == Chase(edges, id, j) {
      ChaseShift(edges, id, j, i, d - j);
    }
  }

  function Below(n: nat): (r: set<nat>)
    ensures |r| == n && forall i: nat :: i in r <==> i < n
  {
    if n == 0 then {} else Below(n - 1) + {n - 1}
  }

  ghost function GreedyPath(s: Source, id: Id): seq<Id>
    requires Accepted(s) && id in s.index
  {
    seq(Distance(s, id) + 1, i requires i >= 0 => Chase(s.edges, id, i))
  }

  /** The greedy path is a walk along edges that starts at `id` and ends at the head. */
  lemma GreedyPathWalks(s: Source, id: Id)
    requires Accepted(s) && id in s.index
    ensures WalkFromTo(s, GreedyPath(s, id), id, s.Head())
    ensures forall x :: x in GreedyPath(s, id) ==> x in s.index
  {
    var path := GreedyPath(s, id);
    forall k | 0 <= k < |path| ensures path[k] in s.index {
      PathStep(s, id, k);
    }
    forall k | 0 <= k < |path| - 1 ensures s.Edge(path[k], path[k + 1]) {
      PathStep(s, id, k);
    }
    assert path[0] == id && path[|path| - 1] == s.Head();
  }

  lemma PathStep(s: Source, id: Id, k: nat)
    requires Accepted(s) && id in s.index && k <= Distance(s, id)
    ensures var path := GreedyPath(s, id);
            path[k] in s.index && (k < |path| - 1 ==> s.Edge(path[k], path[k + 1]))
  {
    GreedyStep(s, id, k);
    var path := GreedyPath(s, id);
    assert path[k] == Chase(s.edges, id, k);
    if k < |path| - 1 {
      assert path[k + 1] == Chase(s.edges, id, k + 1);
    }
  }

  lemma {:induction false} GreedyStep(s: Source, id: Id, k: nat)
    requires Accepted(s) && id in s.index && k <= Distance(s, id)
    ensures Chase(s.edges, id, k) in s.index
    ensures k < Distance(s, id) ==> s.Edge(Chase(s.edges, id, k), Chase(s.edges, id, k + 1))
  {
    if k > 0 {
      GreedyStep(s, id, k - 1);
    }
    if k < Distance(s, id) {
      StepCloser(s, Chase(s.edges, id, k));
    }
  }

  // ---- Fewest updates ----

  predicate HasUpdate(s: Source, id: Id) {
    id in s.edges && s.edges[id] != []
  }

  /** Position of the last entry of the edge list of `id`. */
  function Newest(s: Source, id: Id): int {
    var to := s.NextVersion(id);
    if to in s.index then s.index[to] else -1
  }

  /** The last entry of each edge list is its newest. */
  ghost predicate NewestLast(s: Source)
    requires s.Valid()
  {
    forall from, to :: s.Edge(from, to) ==> Newest(s, from) <= s.index[to]
  }

  /** A newer release never has an older newest update. */
  ghost predicate NewestMonotone(s: Source)
    requires s.Valid()
  {
    forall a, b :: HasUpdate(s, a) && HasUpdate(s, b) && s.index[a] <= s.index[b]
               ==> Newest(s, a) <= Newest(s, b)
  }

  lemma NewestIsHead(s: Source, id: Id)
    requires s.Valid() && id in s.index && s.Head() in s.index && s.index[id] <= s.index[s.Head()]
    ensures id == s.Head()
  {
    assert s.index[s.IdAt(0)] == 0;
    assert s.IdAt(s.index[id]) == id;
  }

  lemma NoShorterWalk(s: Source, id: Id, path: seq<Id>)
    requires Accepted(s) && NewestLast(s) && NewestMonotone(s)
    requires id in s.index && WalkFromTo(s, path, id, s.Head())
    ensures Distance(s, id) <= |path| - 1
  {
    var n := |path| - 1;
    if Distance(s, id) > n {
      GreedyAhead(s, id, path);
      NewestIsHead(s, Chase(s.edges, id, n));
    }
  }

  /** No walk along edges reaches the head in fewer steps than the greedy walk,
      so following the greedy successor needs the fewest updates. */
  lemma FewestUpdates(s: Source, id: Id, path: seq<Id>)
    requires Accepted(s) && NewestLast(s) && NewestMonotone(s)
    requires id in s.index && WalkFromTo(s, path, id, s.Head())
    ensures Distance(s, id) <= |path| - 1
    ensures |GreedyPath(s, id)| == Distance(s, id) + 1
    ensures WalkFromTo(s, GreedyPath(s, id), id, s.Head())
  {
    GreedyPathWalks(s, id);
    NoShorterWalk(s, id, path);
  }

  /** After as many steps as any walk has taken, the greedy walk is at least as new. */
  lemma {:induction false} GreedyAhead(s: Source, id: Id, path: seq<Id>)
    requires Accepted(s) && NewestLast(s) && NewestMonotone(s)
    requires id in s.index && Walk(s, path) && path[0] == id
    requires |path| - 1 <= Distance(s, id)
    ensures Last(path) in s.index && Chase(s.edges, id, |path| - 1) in s.index
    ensures s.index[Chase(s.edges, id, |path| - 1)] <= s.index[Last(path)]
  {
    var n := |path| - 1;
    if n > 0 {
      GreedyAhead(s, id, path[..n]);
      GreedyStep(s, id, n - 1);
      assert s.Edge(path[n - 1], path[n]);
      AheadStep(s, Chase(s.edges, id, n - 1), path[n - 1], path[n]);
    }
  }

  lemma AheadStep(s: Source, c: Id, y: Id, x: Id)
    requires s.Valid() && NewestLast(s) && NewestMonotone(s)
    requires s.Edge(y, x) && s.Edge(c, s.NextVersion(c)) && s.index[c] <= s.index[y]
    ensures s.index[s.NextVersion(c)] <= s.index[x]
  {
    assert HasUpdate(s, c) && HasUpdate(s, y);
  }
}
