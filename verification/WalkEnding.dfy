/** Whether the walk towards a pinned release ends. */
module WalkEnding {
  import opened Seqs
  import opened UpdateSource
  import opened Validation
  import opened Walks
  import opened TargetProperties

  /** The walk towards `p` ends at `id`: it is there, or has nowhere to go. */
  ghost predicate Stopped(s: Source, p: Id, id: Id)
    requires s.Valid() && p in s.index
  {
    id == p || s.Suffix(s.index[p]).NextVersion(id) == ""
  }

  ghost predicate StopsAt(s: Source, p: Id, id: Id, n: nat)
    requires s.Valid() && p in s.index
  {
    Stopped(s, p, PinnedRun(s, p, id, n))
  }

  ghost predicate WalkEnds(s: Source, p: Id, id: Id)
    requires s.Valid() && p in s.index
  {
    exists n: nat :: StopsAt(s, p, id, n)
  }

  lemma {:induction false} FirstStop(s: Source, p: Id, id: Id, n: nat) returns (m: nat)
    requires s.Valid() && p in s.index && StopsAt(s, p, id, n)
    ensures StopsAt(s, p, id, m) && forall k :: 0 <= k < m ==> !StopsAt(s, p, id, k)
  {
    if k: nat :| k < n && StopsAt(s, p, id, k) {
      m := FirstStop(s, p, id, k);
    } else {
      m := n;
    }
  }

  lemma {:induction false} RunShift(s: Source, p: Id, id: Id, a: nat, b: nat, n: nat)
    requires s.Valid() && p in s.index && PinnedRun(s, p, id, a) == PinnedRun(s, p, id, b)
    ensures PinnedRun(s, p, id, a + n) == PinnedRun(s, p, id, b + n)
  {
    if n > 0 {
      RunShift(s, p, id, a, b, n - 1);
    }
  }

  lemma NextKnown(s: Source, p: Id, id: Id)
    requires s.Valid() && p in s.index && id in s.index
    ensures PinnedNext(s, p, id) in s.index
    ensures !Stopped(s, p, id) ==> s.Edge(id, PinnedNext(s, p, id))
  {
    var sub := s.Suffix(s.index[p]);
    var next := sub.NextVersion(id);
    if next != "" {
      assert sub.Edge(id, next);
      SubgraphEdges(s, s.index[p], id, next);
    }
  }

  lemma {:induction false} RunKnown(s: Source, p: Id, id: Id, n: nat)
    requires s.Valid() && p in s.index && id in s.index
    ensures PinnedRun(s, p, id, n) in s.index
  {
    if n > 0 {
      RunKnown(s, p, id, n - 1);
      NextKnown(s, p, PinnedRun(s, p, id, n - 1));
    }
  }

  /** The walk ends if and only if it has ended within as many steps as there are releases. */
  lemma WalkEndsInTime(s: Source, p: Id, id: Id)
    requires s.Valid() && p in s.index && id in s.index
    ensures WalkEnds(s, p, id) <==> exists n: nat :: n < |s.nodes| && StopsAt(s, p, id, n)
  {
    if WalkEnds(s, p, id) {
      var n: nat :| StopsAt(s, p, id, n);
      var m := FirstStop(s, p, id, n);
      var places := Places(s, p, id, m);
      DistinctBound(places, Below(|s.nodes|));
    }
  }

  /** A walk that repeats before it stops has stopped earlier. */
  lemma EarlierStop(s: Source, p: Id, id: Id, m: nat, i: nat, j: nat) returns (k: nat)
    requires s.Valid() && p in s.index && i < j <= m && StopsAt(s, p, id, m)
    requires PinnedRun(s, p, id, i) == PinnedRun(s, p, id, j)
    ensures k < m && StopsAt(s, p, id, k)
  {
    k := i + (m - j);
    RunShift(s, p, id, i, j, m - j);
    assert j + (m - j) == m;
    SameStop(s, p, id, k, m);
  }

  lemma SameStop(s: Source, p: Id, id: Id, k: nat, m: nat)
    requires s.Valid() && p in s.index && PinnedRun(s, p, id, k) == PinnedRun(s, p, id, m)
    ensures StopsAt(s, p, id, k) <==> StopsAt(s, p, id, m)
  {
  }

  /** Up to its first stop the walk meets no release twice. */
  lemma Places(s: Source, p: Id, id: Id, m: nat) returns (places: seq<nat>)
    requires s.Valid() && p in s.index && id in s.index
    requires StopsAt(s, p, id, m) && forall k :: 0 <= k < m ==> !StopsAt(s, p, id, k)
    ensures |places| == m + 1 && Distinct(places) && forall x :: x in places ==> x < |s.nodes|
  {
    places := seq(m + 1, i requires 0 <= i < m + 1 => PlaceAfter(s, p, id, i));
    forall i, j | 0 <= i < j < |places| ensures places[i] != places[j] {
      if places[i] == places[j] {
        SamePlace(s, PinnedRun(s, p, id, i), PinnedRun(s, p, id, j));
        var k := EarlierStop(s, p, id, m, i, j);
      }
    }
  }

  ghost function PlaceAfter(s: Source, p: Id, id: Id, n: nat): (i: nat)
    requires s.Valid() && p in s.index && id in s.index
    ensures i < |s.nodes| && PinnedRun(s, p, id, n) in s.index && s.index[PinnedRun(s, p, id, n)] == i
  {
    RunKnown(s, p, id, n);
    s.index[PinnedRun(s, p, id, n)]
  }

  lemma {:induction false} RunFrom(s: Source, p: Id, id: Id, n: nat)
    requires s.Valid() && p in s.index
    ensures PinnedRun(s, p, PinnedNext(s, p, id), n) == PinnedRun(s, p, id, n + 1)
  {
    if n > 0 {
      RunFrom(s, p, id, n - 1);
    }
  }

  /** With forward edges every walk ends. */
  lemma {:induction false} ForwardWalkEnds(s: Source, p: Id, id: Id)
    requires s.Valid() && s.Forward() && p in s.index && id in s.index
    ensures WalkEnds(s, p, id)
    decreases s.index[id]
  {
    if Stopped(s, p, id) {
      assert StopsAt(s, p, id, 0);
    } else {
      NextKnown(s, p, id);
      var next := PinnedNext(s, p, id);
      ForwardWalkEnds(s, p, next);
      var n: nat :| StopsAt(s, p, next, n);
      RunFrom(s, p, id, n);
      assert StopsAt(s, p, id, n + 1);
    }
  }

  // ---- Steps to the end ----

  ghost predicate FirstStopAt(s: Source, p: Id, id: Id, n: nat)
    requires s.Valid() && p in s.index
  {
    StopsAt(s, p, id, n) && forall k :: 0 <= k < n ==> !StopsAt(s, p, id, k)
  }

  /** How many steps are left. */
  ghost function StepsLeft(s: Source, p: Id, id: Id): (n: nat)
    requires s.Valid() && p in s.index && WalkEnds(s, p, id)
    ensures FirstStopAt(s, p, id, n)
  {
    StopExists(s, p, id);
    var n: nat :| FirstStopAt(s, p, id, n);
    n
  }

  lemma StopExists(s: Source, p: Id, id: Id)
    requires s.Valid() && p in s.index && WalkEnds(s, p, id)
    ensures exists n: nat :: FirstStopAt(s, p, id, n)
  {
    var n: nat :| StopsAt(s, p, id, n);
    var m := FirstStop(s, p, id, n);
    assert FirstStopAt(s, p, id, m);
  }

  lemma FirstStopUnique(s: Source, p: Id, id: Id, m: nat, n: nat)
    requires s.Valid() && p in s.index && FirstStopAt(s, p, id, m) && FirstStopAt(s, p, id, n)
    ensures m == n
  {
  }

  /** The release the walk ends at. */
  ghost function EndOf(s: Source, p: Id, id: Id): (end: Id)
    requires s.Valid() && p in s.index && WalkEnds(s, p, id)
    ensures Stopped(s, p, end)
  {
    PinnedRun(s, p, id, StepsLeft(s, p, id))
  }

  lemma StepsBound(s: Source, p: Id, id: Id)
    requires s.Valid() && p in s.index && id in s.index && WalkEnds(s, p, id)
    ensures StepsLeft(s, p, id) < |s.nodes|
  {
    var places := Places(s, p, id, StepsLeft(s, p, id));
    DistinctBound(places, Below(|s.nodes|));
  }

  lemma NoStepLeft(s: Source, p: Id, id: Id)
    requires s.Valid() && p in s.index && Stopped(s, p, id)
    ensures WalkEnds(s, p, id) && StepsLeft(s, p, id) == 0 && EndOf(s, p, id) == id
  {
    assert FirstStopAt(s, p, id, 0);
    FirstStopUnique(s, p, id, 0, StepsLeft(s, p, id));
  }

  lemma StopShift(s: Source, p: Id, id: Id, n: nat)
    requires s.Valid() && p in s.index
    ensures StopsAt(s, p, PinnedNext(s, p, id), n) <==> StopsAt(s, p, id, n + 1)
  {
    RunFrom(s, p, id, n);
  }

  /** One step brings the walk one step closer to the same end. */
  lemma OneStepLess(s: Source, p: Id, id: Id)
    requires s.Valid() && p in s.index && WalkEnds(s, p, id) && !Stopped(s, p, id)
    ensures var next := PinnedNext(s, p, id);
            && WalkEnds(s, p, next) && StepsLeft(s, p, next) == StepsLeft(s, p, id) - 1
            && EndOf(s, p, next) == EndOf(s, p, id)
  {
    var next, n := PinnedNext(s, p, id), StepsLeft(s, p, id);
    assert n > 0 by {
      assert StopsAt(s, p, id, 0) == Stopped(s, p, id);
    }
    var m := n - 1;
    ShiftedStop(s, p, id, m);
    FirstStopUnique(s, p, next, m, StepsLeft(s, p, next));
    RunFrom(s, p, id, m);
  }

  lemma ShiftedStop(s: Source, p: Id, id: Id, m: nat)
    requires s.Valid() && p in s.index && FirstStopAt(s, p, id, m + 1)
    ensures FirstStopAt(s, p, PinnedNext(s, p, id), m) && WalkEnds(s, p, PinnedNext(s, p, id))
  {
    StopShift(s, p, id, m);
    forall k | 0 <= k < m ensures !StopsAt(s, p, PinnedNext(s, p, id), k) {
      StopShift(s, p, id, k);
    }
  }

  lemma StepFirst(s: Source, p: Id, id: Id)
    requires s.Valid() && p in s.index && WalkEnds(s, p, PinnedNext(s, p, id))
    ensures WalkEnds(s, p, id)
  {
    var n: nat :| StopsAt(s, p, PinnedNext(s, p, id), n);
    StopShift(s, p, id, n);
  }

  // ---- Where the walk ends ----

  /** Towards the head of an accepted channel every walk ends, and ends there. */
  lemma {:induction false} WalkEndsAtHead(s: Source, id: Id)
    requires Accepted(s) && id in s.index
    ensures s.Head() in s.index && WalkEnds(s, s.Head(), id) && EndOf(s, s.Head(), id) == s.Head()
    decreases Distance(s, id)
  {
    var head := s.Head();
    assert s.IdAt(0) == head;
    if id == head {
      NoStepLeft(s, head, id);
    } else {
      StepCloser(s, id);
      SubgraphAtHead(s);
      assert PinnedNext(s, head, id) == s.NextVersion(id) != "";
      WalkEndsAtHead(s, s.NextVersion(id));
      StepFirst(s, head, id);
      OneStepLess(s, head, id);
    }
  }

  /** Towards a pin a walk along forward edges ends at the pin, if every older release keeps an
      edge to a release no newer than the pin and the walk starts no newer than it. */
  lemma WalkEndsAtPin(s: Source, p: Id, id: Id)
    requires s.Valid() && s.Forward() && p in s.index && id in s.index && "" !in s.index
    requires OlderKeepUpdates(s, p) && s.index[id] >= s.index[p]
    ensures WalkEnds(s, p, id) && EndOf(s, p, id) == p
  {
    ForwardWalkEnds(s, p, id);
    var n, end := StepsLeft(s, p, id), EndOf(s, p, id);
    PinnedRunDescends(s, p, id, n);
    if end != p {
      StoppedEarly(s, p, end);
    }
  }

  lemma StoppedEarly(s: Source, p: Id, id: Id)
    requires s.Valid() && p in s.index && id in s.index && s.index[id] >= s.index[p] && id != p
    requires OlderKeepUpdates(s, p)
    ensures "" !in s.index ==> !Stopped(s, p, id)
  {
    if s.index[id] == s.index[p] {
      SamePlace(s, id, p);
    }
    assert Older(s, id, p);
    var sub := s.Suffix(s.index[p]);
    assert sub.Edge(id, sub.NextVersion(id));
    SubgraphEdges(s, s.index[p], id, sub.NextVersion(id));
  }

  // ---- An endless walk ----

  const LOOP_NODES := [NO_STATE.(id := "v4"), NO_STATE.(id := "v3"), NO_STATE.(id := "v2"), NO_STATE.(id := "v1")]
  const LOOP_EDGES: EdgeSet := map["v3" := ["v4"], "v2" := ["v1", "v4"], "v1" := ["v2", "v4"]]

  lemma LoopReachesHead()
    ensures AllReachHead(LOOP_NODES, LOOP_EDGES)
  {
    var edges := LOOP_EDGES;
    assert Chase(edges, "v1", 0) == "v1" && Chase(edges, "v2", 0) == "v2" && Chase(edges, "v3", 0) == "v3";
    assert Reaches(edges, "v1", "v4", 1) && Reaches(edges, "v2", "v4", 1) && Reaches(edges, "v3", "v4", 1);
  }

  lemma LoopAccepted()
    ensures Accepts(LOOP_NODES, LOOP_EDGES)
  {
    var nodes := LOOP_NODES;
    assert nodes[0] in nodes && nodes[1] in nodes && nodes[2] in nodes && nodes[3] in nodes;
    assert UniqueIds(nodes) by {
      assert NodeId(nodes, 0) == "v4" && NodeId(nodes, 1) == "v3";
      assert NodeId(nodes, 2) == "v2" && NodeId(nodes, 3) == "v1";
    }
    LoopReachesHead();
  }

  /** The only edge that does not lead past the pin is the one that is taken. */
  lemma OnlyUpdate(s: Source, p: Id, id: Id, to: Id)
    requires s.Valid() && p in s.index && id != p && to != "" && s.Edge(id, to)
    requires s.index[id] >= s.index[p] && s.index[to] >= s.index[p]
    requires forall x :: s.Edge(id, x) && x != to ==> s.index[x] < s.index[p]
    ensures PinnedNext(s, p, id) == to
  {
    var sub := s.Suffix(s.index[p]);
    SubgraphEdges(s, s.index[p], id, to);
    var next := sub.NextVersion(id);
    assert sub.Edge(id, next);
    SubgraphEdges(s, s.index[p], id, next);
  }

  lemma {:induction false} Alternates(s: Source, p: Id, a: Id, b: Id, n: nat)
    requires s.Valid() && p in s.index && PinnedNext(s, p, a) == b && PinnedNext(s, p, b) == a
    ensures PinnedRun(s, p, a, n) in {a, b}
  {
    if n > 0 {
      Alternates(s, p, a, b, n - 1);
    }
  }

  lemma LoopStep(s: Source)
    requires s.Valid() && s.nodes == LOOP_NODES && s.edges == LOOP_EDGES
    ensures "v3" in s.index && "v2" in s.index
    ensures PinnedNext(s, "v3", "v2") == "v1" && PinnedNext(s, "v3", "v1") == "v2"
  {
    assert s.IdAt(0) == "v4" && s.IdAt(1) == "v3" && s.IdAt(2) == "v2" && s.IdAt(3) == "v1";
    assert s.Edge("v2", "v1") && s.Edge("v1", "v2");
    OnlyUpdate(s, "v3", "v2", "v1");
    OnlyUpdate(s, "v3", "v1", "v2");
  }

  lemma NeverStops(s: Source, p: Id, a: Id, b: Id)
    requires s.Valid() && p in s.index && a != b && PinnedNext(s, p, a) == b && PinnedNext(s, p, b) == a
    ensures !WalkEnds(s, p, a)
  {
    forall n: nat ensures !StopsAt(s, p, a, n) {
      Alternates(s, p, a, b, n);
    }
  }

  /** An accepted channel on which the walk towards v3 goes from v2 to v1 and back for ever, and so
      does a cluster pinned at v3. */
  lemma WalkNeverEnds()
    ensures Accepts(LOOP_NODES, LOOP_EDGES)
    ensures var s := SourceOf(LOOP_NODES, LOOP_EDGES);
            s.Valid() && "v3" in s.index && "v2" in s.index && !WalkEnds(s, "v3", "v2")
  {
    LoopAccepted();
    SourceOfValid(LOOP_NODES, LOOP_EDGES);
    var s := SourceOf(LOOP_NODES, LOOP_EDGES);
    LoopStep(s);
    NeverStops(s, "v3", "v2", "v1");
  }
}
