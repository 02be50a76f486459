/** What the choice of a target guarantees, one step at a time and over repeated steps. */
module TargetProperties {
  import opened Seqs
  import opened UpdateSource
  import opened Validation
  import opened Walks
  import opened UpdateGraph

  /** One of the channels of the engine has the edge. */
  ghost predicate GraphEdge(g: Graph, engine: string, channel: string, from: Id, to: Id) {
    var s := SourceFor(g, engine, channel);
    s.Some? && s.value.Edge(from, to)
  }

  lemma FollowStep(s: Source, here: State, start: Version, cur: Version, base: string)
    requires s.Valid()
    ensures var t := Follow(s, here, start, cur, base);
            && t.err.None? && t.version.Some?
            && var w := t.version.value;
               if s.NextVersion(cur.name) == "" then w == start
               else
                 && w.name == s.NextVersion(cur.name) && w.channel == start.channel
                 && s.Edge(cur.name, w.name)
                 && w.attributes == (if w.name == s.NextDirect(cur.name) then start.attributes else [Migration])
  {
    var next := s.NextVersion(cur.name);
    if next != "" {
      assert s.Edge(cur.name, next);
      assert s.IdAt(s.index[next]) == next;
    }
  }

  /** The prefix of migration-free edges ends where the migration or phase changes. */
  lemma DirectSharesMigration(s: Source, from: Id)
    requires s.Valid() && s.NextDirect(from) != ""
    ensures s.Edge(from, s.NextDirect(from))
    ensures SameMigration(s.NodeAt(from), s.NodeAt(s.NextDirect(from)))
  {
  }

  lemma FollowMarks(s: Source, here: State, start: Version, cur: Version, base: string)
    requires s.Valid() && s.NextVersion(cur.name) != ""
    ensures var w := Follow(s, here, start, cur, base).version.value;
            !SameMigration(s.NodeAt(cur.name), s.NodeAt(w.name)) ==> w.attributes == [Migration]
  {
    FollowStep(s, here, start, cur, base);
    if s.NextVersion(cur.name) == s.NextDirect(cur.name) {
      DirectSharesMigration(s, cur.name);
    }
  }

  /** Within a source, a move takes one edge and marks a migration or phase boundary. */
  lemma MoveStep(g: Graph, rq: Request, s: Source, start: Version, cur: Version, base: string)
    requires s.Valid() && cur.name in s.index
    requires rq.version == "" || rq.version in s.index
    ensures var t := Move(g, rq, s, start, cur, false, base);
            && t.err.None? && t.version.Some? && t.version.value.channel == start.channel
            && var w := t.version.value;
               w.name == start.name ||
               (w.name != "" && s.Edge(cur.name, w.name) &&
                (!SameMigration(s.StateOf(cur.name), s.StateOf(w.name)) ==> w.attributes == [Migration]))
  {
    if cur.name == rq.version && cur.channel == start.channel {
    } else {
      var k := if rq.version == "" then 0 else s.index[rq.version];
      var sub := s.Suffix(k);
      SubgraphAtHead(s);
      FollowStep(sub, s.StateOf(cur.name), start, cur, base);
      var next := sub.NextVersion(cur.name);
      if next != "" {
        FollowMarks(sub, s.StateOf(cur.name), start, cur, base);
        assert sub.Edge(cur.name, next);
        SubgraphEdges(s, k, cur.name, next);
        SubgraphStates(s, k, cur.name);
        SubgraphStates(s, k, next);
      }
    }
  }

  /** A release that is not in the source has no edge in it: it stays. */
  lemma StayStep(g: Graph, rq: Request, s: Source, start: Version, cur: Version, rolling: bool, base: string)
    requires s.Valid() && cur.name !in s.index
    requires Stay(g, rq, s, start, cur, rolling, base).err.None?
    ensures Stay(g, rq, s, start, cur, rolling, base).version
         == Some(start.(channel := cur.channel, attributes := start.attributes + [NotInChannel]))
  {
    assert s.NextVersion(cur.name) == "";
  }

  /** When a target is found for an installed release, it was chosen in the source of its channel. */
  lemma ResolveMoves(g: Graph, rq: Request, v: Version, rolling: bool)
    requires v.name != "" && !PinnedImage(rq.image)
    requires Resolve(g, rq, Some(v), rolling).err.None?
    ensures var c := ChannelFor(g, rq, Some(v));
            && c.Some? && SourceFor(g, rq.engine, c.value).Some?
            && Resolve(g, rq, Some(v), rolling)
            == Move(g, rq, SourceFor(g, rq.engine, c.value).value, v.(channel := c.value), v, rolling,
                    BaseImage(rq))
  {
  }

  /** A target is the current release or one edge away, and only when nothing is rolling out.
      An edge across a migration or phase boundary always marks its target, also below a pin. */
  lemma TargetFollowsEdge(g: Graph, rq: Request, v: Version, rolling: bool)
    requires v.name != "" && !PinnedImage(rq.image)
    requires Resolve(g, rq, Some(v), rolling).err.None?
    ensures Resolve(g, rq, Some(v), rolling).version.Some?
    ensures var w := Resolve(g, rq, Some(v), rolling).version.value;
            w.name == v.name ||
            (!rolling && MarkedEdge(g, rq.engine, v, w) && ChannelFor(g, rq, Some(v)) == Some(w.channel))
  {
    ResolveMoves(g, rq, v, rolling);
    var c := ChannelFor(g, rq, Some(v)).value;
    var s := SourceFor(g, rq.engine, c).value;
    var start := v.(channel := c);
    if v.name == rq.version && v.channel == c {
    } else if v.name !in s.index {
      StayStep(g, rq, s, start, v, rolling, BaseImage(rq));
    } else if !rolling {
      MoveStep(g, rq, s, start, v, BaseImage(rq));
    }
  }

  /** `w` is one edge after `v` in its channel, and marked if the edge crosses a migration. */
  ghost predicate MarkedEdge(g: Graph, engine: string, v: Version, w: Version) {
    var s := SourceFor(g, engine, w.channel);
    && w.name != "" && s.Some? && s.value.Edge(v.name, w.name)
    && (!SameMigration(s.value.StateOf(v.name), s.value.StateOf(w.name)) ==> w.attributes == [Migration])
  }

  /** The Migration mark is never taken off: a migration-free edge keeps the attributes it starts from. */
  lemma MarkIsSticky(g: Graph, rq: Request, cur: Option<Version>, rolling: bool)
    requires !PinnedImage(rq.image) && Resolve(g, rq, cur, rolling).err.None?
    requires cur.Some? ==> Migration in cur.value.attributes
    ensures var t := Resolve(g, rq, cur, rolling);
            t.version.Some? && Migration in t.version.value.attributes
  {
    var c := ChannelFor(g, rq, cur).value;
    MarkedChoice(g, rq, SourceFor(g, rq.engine, c).value, c, cur, rolling, BaseImage(rq));
  }

  lemma MarkedChoice(g: Graph, rq: Request, s: Source, channel: string, cur: Option<Version>,
                     rolling: bool, base: string)
    requires s.Valid() && (cur.Some? ==> Migration in cur.value.attributes)
    requires Choose(g, rq, s, channel, cur, rolling, base).err.None?
    ensures var t := Choose(g, rq, s, channel, cur, rolling, base);
            t.version.Some? && Migration in t.version.value.attributes
  {
  }

  // ---- Pinned convergence ----

  /** The source of a channel, if the cluster asks for no other and overrides no image. */
  ghost function Home(g: Graph, rq: Request, channel: string): (r: Option<Source>)
    ensures r.Some? ==> r.value.Valid()
  {
    if PinnedImage(rq.image) || BaseImage(rq) == "" || channel == ""
       || (rq.channel != "" && rq.channel != channel) then None
    else SourceFor(g, rq.engine, channel)
  }

  /** The cluster runs `v` from its own channel, whose source is `s`. */
  ghost predicate OnChannel(g: Graph, rq: Request, s: Source, v: Version) {
    Home(g, rq, v.channel) == Some(s) && v.name in s.index && "" !in s.index
  }

  ghost function PinnedNext(s: Source, p: Id, id: Id): Id
    requires s.Valid() && p in s.index
  {
    var next := s.Suffix(s.index[p]).NextVersion(id);
    if id == p || next == "" then id else next
  }

  ghost function PinnedRun(s: Source, p: Id, id: Id, n: nat): Id
    requires s.Valid() && p in s.index
  {
    if n == 0 then id else PinnedNext(s, p, PinnedRun(s, p, id, n - 1))
  }

  /** The version recorded by one quiet reconcile. */
  ghost function Advance(g: Graph, rq: Request, v: Version): Version {
    var t := Resolve(g, rq, Some(v), false);
    if t.version.Some? then t.version.value else NO_VERSION
  }

  ghost predicate AdvancesAt(g: Graph, rq: Request, vs: seq<Version>, i: nat)
    requires i < |vs| - 1
  {
    vs[i + 1] == Advance(g, rq, vs[i])
  }

  /** The versions recorded by successive quiet reconciles. */
  ghost predicate QuietRun(g: Graph, rq: Request, vs: seq<Version>) {
    vs != [] && forall i :: 0 <= i < |vs| - 1 ==> AdvancesAt(g, rq, vs, i)
  }

  lemma OnChannelResolves(g: Graph, rq: Request, s: Source, v: Version, rolling: bool)
    requires OnChannel(g, rq, s, v)
    ensures Resolve(g, rq, Some(v), rolling) == Move(g, rq, s, v, v, rolling, BaseImage(rq))
  {
    assert ChannelFor(g, rq, Some(v)) == Some(v.channel);
  }

  lemma PinnedTarget(g: Graph, rq: Request, s: Source, v: Version)
    requires OnChannel(g, rq, s, v) && rq.version in s.index
    ensures Resolve(g, rq, Some(v), false).err.None?
    ensures Advance(g, rq, v).name == PinnedNext(s, rq.version, v.name)
    ensures Advance(g, rq, v).name in s.index && Advance(g, rq, v).channel == v.channel
  {
    OnChannelResolves(g, rq, s, v, false);
    PinnedMove(g, rq, s, v, BaseImage(rq));
  }

  lemma PinnedMove(g: Graph, rq: Request, s: Source, v: Version, base: string)
    requires s.Valid() && v.name in s.index && rq.version in s.index && "" !in s.index
    ensures var t := Move(g, rq, s, v, v, false, base);
            && t.err.None? && t.version.Some? && t.version.value.channel == v.channel
            && t.version.value.name == PinnedNext(s, rq.version, v.name)
            && t.version.value.name in s.index
  {
    var sub := s.Suffix(s.index[rq.version]);
    FollowStep(sub, s.StateOf(v.name), v, v, base);
    var next := sub.NextVersion(v.name);
    if next != "" {
      assert sub.Edge(v.name, next);
    }
  }

  lemma PinnedStep(g: Graph, rq: Request, s: Source, v: Version, next: Version)
    requires next == Advance(g, rq, v) && OnChannel(g, rq, s, v) && rq.version in s.index
    ensures next.name == PinnedNext(s, rq.version, v.name)
    ensures next.name in s.index && next.channel == v.channel && OnChannel(g, rq, s, next)
  {
    PinnedTarget(g, rq, s, v);
  }

  lemma PinnedStepAt(g: Graph, rq: Request, s: Source, vs: seq<Version>, n: nat)
    requires QuietRun(g, rq, vs) && n < |vs| - 1
    requires OnChannel(g, rq, s, vs[n]) && rq.version in s.index
    ensures vs[n + 1].name == PinnedNext(s, rq.version, vs[n].name)
    ensures vs[n + 1].name in s.index && vs[n + 1].channel == vs[n].channel && OnChannel(g, rq, s, vs[n + 1])
  {
    assert AdvancesAt(g, rq, vs, n);
    PinnedStep(g, rq, s, vs[n], vs[n + 1]);
  }

  ghost predicate FollowsPin(g: Graph, rq: Request, s: Source, vs: seq<Version>, n: nat)
    requires n < |vs|
  {
    && OnChannel(g, rq, s, vs[n]) && rq.version in s.index
    && vs[n].name == PinnedRun(s, rq.version, vs[0].name, n) && vs[n].channel == vs[0].channel
  }

  ghost function Following(g: Graph, rq: Request, s: Source, vs: seq<Version>): nat -> bool {
    (i: nat) => i < |vs| && FollowsPin(g, rq, s, vs, i)
  }

  lemma FollowsPinNext(g: Graph, rq: Request, s: Source, vs: seq<Version>, i: nat)
    requires QuietRun(g, rq, vs) && i < |vs| - 1 && Following(g, rq, s, vs)(i)
    ensures Following(g, rq, s, vs)(i + 1)
  {
    PinnedStepAt(g, rq, s, vs, i);
  }

  lemma PinnedFollowing(g: Graph, rq: Request, s: Source, vs: seq<Version>, n: nat)
    requires QuietRun(g, rq, vs) && n < |vs| && Following(g, rq, s, vs)(0)
    ensures Following(g, rq, s, vs)(n)
  {
    forall i: nat | i < n && Following(g, rq, s, vs)(i) ensures Following(g, rq, s, vs)(i + 1) {
      FollowsPinNext(g, rq, s, vs, i);
    }
    Stepwise(Following(g, rq, s, vs), n);
  }

  /** The versions quiet reconciles record are those of the pinned run. */
  lemma OperatorFollowsPin(g: Graph, rq: Request, s: Source, vs: seq<Version>, n: nat)
    requires QuietRun(g, rq, vs) && n < |vs|
    requires OnChannel(g, rq, s, vs[0]) && rq.version in s.index
    ensures vs[n].name == PinnedRun(s, rq.version, vs[0].name, n)
    ensures vs[n].name in s.index && vs[n].channel == vs[0].channel
  {
    assert Following(g, rq, s, vs)(0);
    PinnedFollowing(g, rq, s, vs, n);
  }

  /** A pinned step moves only towards the pin, never past it, and never from a newer release. */
  lemma PinnedStepDescends(s: Source, p: Id, id: Id)
    requires s.Valid() && s.Forward() && p in s.index && id in s.index && "" !in s.index
    ensures var next := PinnedNext(s, p, id);
            && next in s.index
            && (next != id ==> s.index[p] <= s.index[next] < s.index[id])
            && (next == id <==> id == p || !HasUpdate(s.Suffix(s.index[p]), id))
  {
    var sub := s.Suffix(s.index[p]);
    var next := sub.NextVersion(id);
    if HasUpdate(sub, id) {
      assert sub.Edge(id, next);
      SubgraphEdges(s, s.index[p], id, next);
    }
  }

  lemma NewerNeverMoves(s: Source, p: Id, id: Id)
    requires s.Valid() && p in s.index && id in s.index && s.index[id] < s.index[p]
    ensures PinnedNext(s, p, id) == id
  {
    var sub := s.Suffix(s.index[p]);
    assert id !in sub.index;
  }

  /** Along a pinned run the release only gets newer, stops at or before the pin, and a release
      newer than the pin stays put; each step is either the last or strictly newer. */
  lemma {:induction false} PinnedRunDescends(s: Source, p: Id, id: Id, n: nat)
    requires s.Valid() && s.Forward() && p in s.index && id in s.index && "" !in s.index
    ensures var at := PinnedRun(s, p, id, n);
            && at in s.index && s.index[at] <= s.index[id]
            && (s.index[id] >= s.index[p] ==> s.index[at] >= s.index[p])
            && (s.index[id] < s.index[p] ==> at == id)
            && (PinnedNext(s, p, at) == at || s.index[at] <= s.index[id] - n)
  {
    if n == 0 {
      if s.index[id] < s.index[p] {
        NewerNeverMoves(s, p, id);
      }
    } else {
      PinnedRunDescends(s, p, id, n - 1);
      var before := PinnedRun(s, p, id, n - 1);
      PinnedStepDescends(s, p, before);
    }
  }

  /** A pinned run is over after as many steps as there are releases between start and pin. */
  lemma PinnedRunStops(s: Source, p: Id, id: Id, n: nat)
    requires s.Valid() && s.Forward() && p in s.index && id in s.index && "" !in s.index
    requires n + s.index[p] >= s.index[id]
    ensures PinnedNext(s, p, PinnedRun(s, p, id, n)) == PinnedRun(s, p, id, n)
  {
    PinnedRunDescends(s, p, id, n);
    var at := PinnedRun(s, p, id, n);
    PinnedStepDescends(s, p, at);
    if s.index[id] < s.index[p] {
      NewerNeverMoves(s, p, id);
    }
  }

  predicate Older(s: Source, id: Id, p: Id) {
    id in s.index && p in s.index && s.index[id] > s.index[p]
  }

  ghost predicate OlderKeepUpdates(s: Source, p: Id)
    requires s.Valid() && p in s.index
  {
    forall id :: Older(s, id, p) ==> HasUpdate(s.Suffix(s.index[p]), id)
  }

  ghost predicate EndsAtPin(s: Source, p: Id, id: Id)
    requires s.Valid()
  {
    Older(s, id, p) ==> PinnedRun(s, p, id, s.index[id] - s.index[p]) == p
  }

  ghost predicate OlderEndAtPin(s: Source, p: Id)
    requires s.Valid()
  {
    forall id :: EndsAtPin(s, p, id)
  }

  /** Every older release ends exactly at the pin if and only if each of them keeps an edge
      to a release no newer than the pin. */
  lemma PinIsReached(s: Source, p: Id)
    requires s.Valid() && s.Forward() && p in s.index && "" !in s.index
    ensures OlderEndAtPin(s, p) <==> OlderKeepUpdates(s, p)
  {
    if OlderKeepUpdates(s, p) {
      forall id ensures EndsAtPin(s, p, id) {
        if Older(s, id, p) {
          UpdatesEndAtPin(s, p, id);
        }
      }
    }
    if OlderEndAtPin(s, p) {
      forall id | Older(s, id, p) ensures HasUpdate(s.Suffix(s.index[p]), id) {
        assert EndsAtPin(s, p, id);
        EndingNeedsUpdate(s, p, id);
      }
    }
  }

  lemma UpdatesEndAtPin(s: Source, p: Id, id: Id)
    requires s.Valid() && s.Forward() && p in s.index && "" !in s.index && OlderKeepUpdates(s, p)
    requires Older(s, id, p)
    ensures EndsAtPin(s, p, id)
  {
    var n: nat := s.index[id] - s.index[p];
    assert PinnedRun(s, p, id, n) == p by {
      PinReachedFrom(s, p, id, n);
    }
  }

  lemma EndingNeedsUpdate(s: Source, p: Id, id: Id)
    requires s.Valid() && Older(s, id, p) && EndsAtPin(s, p, id)
    ensures HasUpdate(s.Suffix(s.index[p]), id)
  {
    if !HasUpdate(s.Suffix(s.index[p]), id) {
      StuckRun(s, p, id, s.index[id] - s.index[p]);
    }
  }

  lemma PinReachedFrom(s: Source, p: Id, id: Id, n: nat)
    requires s.Valid() && s.Forward() && p in s.index && id in s.index && "" !in s.index
    requires OlderKeepUpdates(s, p) && s.index[p] <= s.index[id] <= s.index[p] + n
    ensures PinnedRun(s, p, id, n) == p
  {
    var at := PinnedRun(s, p, id, n);
    PinnedRunStops(s, p, id, n);
    PinnedRunDescends(s, p, id, n);
    if !Older(s, at, p) {
      SamePlace(s, at, p);
    }
    PinnedStepDescends(s, p, at);
  }

  lemma SamePlace(s: Source, a: Id, b: Id)
    requires s.Valid() && a in s.index && b in s.index && s.index[a] == s.index[b]
    ensures a == b
  {
    assert s.IdAt(s.index[a]) == a;
  }

  lemma {:induction false} StuckRun(s: Source, p: Id, id: Id, n: nat)
    requires s.Valid() && p in s.index && !HasUpdate(s.Suffix(s.index[p]), id)
    ensures PinnedRun(s, p, id, n) == id
  {
    if n > 0 {
      StuckRun(s, p, id, n - 1);
    }
  }

  const DETOUR_NODES := [NO_STATE.(id := "v3"), NO_STATE.(id := "v2"), NO_STATE.(id := "v1")]
  const DETOUR_EDGES: EdgeSet := map["v1" := ["v3"], "v2" := ["v3"]]

  lemma DetourAccepted()
    ensures Accepts(DETOUR_NODES, DETOUR_EDGES)
  {
    var nodes, edges := DETOUR_NODES, DETOUR_EDGES;
    assert nodes[0] in nodes && nodes[1] in nodes && nodes[2] in nodes;
    assert NodeId(nodes, 0) == "v3" && NodeId(nodes, 1) == "v2" && NodeId(nodes, 2) == "v1";
    assert Chase(edges, "v1", 0) == "v1" && Chase(edges, "v2", 0) == "v2";
    assert Reaches(edges, "v1", "v3", 1) && Reaches(edges, "v2", "v3", 1);
  }

  lemma DetourPlaces(s: Source)
    requires s.Valid() && s.nodes == DETOUR_NODES
    ensures "v1" in s.index && "v2" in s.index && "v3" in s.index
    ensures s.index["v3"] == 0 && s.index["v2"] == 1 && s.index["v1"] == 2
  {
    assert s.IdAt(0) == "v3" && s.IdAt(1) == "v2" && s.IdAt(2) == "v1";
  }

  lemma PastThePin(s: Source, p: Id, id: Id)
    requires s.Valid() && p in s.index
    requires forall to :: s.Edge(id, to) ==> s.index[to] < s.index[p]
    ensures !HasUpdate(s.Suffix(s.index[p]), id)
  {
    var sub := s.Suffix(s.index[p]);
    if HasUpdate(sub, id) {
      assert sub.Edge(id, sub.edges[id][0]);
      SubgraphEdges(s, s.index[p], id, sub.edges[id][0]);
    }
  }

  /** An accepted channel with a pin its oldest release never gets to: v1 only has an edge past v2. */
  lemma PinOutOfReach(n: nat)
    ensures Accepts(DETOUR_NODES, DETOUR_EDGES)
    ensures var s := SourceOf(DETOUR_NODES, DETOUR_EDGES);
            s.Valid() && Older(s, "v1", "v2") && PinnedRun(s, "v2", "v1", n) == "v1"
  {
    DetourAccepted();
    SourceOfValid(DETOUR_NODES, DETOUR_EDGES);
    var s := SourceOf(DETOUR_NODES, DETOUR_EDGES);
    DetourPlaces(s);
    PastThePin(s, "v2", "v1");
    StuckRun(s, "v2", "v1", n);
  }

  /** The recorded versions of a pinned cluster: they get strictly newer until they stop, never
      pass the pin, and stop within as many steps as there are releases in between. */
  lemma PinnedConvergence(g: Graph, rq: Request, s: Source, vs: seq<Version>, n: nat)
    requires QuietRun(g, rq, vs) && n + 1 < |vs|
    requires OnChannel(g, rq, s, vs[0]) && rq.version in s.index && s.Forward()
    ensures Settling(s, rq.version, vs[0].name, n, vs[n].name, vs[n + 1].name)
  {
    var start, at, next := vs[0].name, vs[n].name, vs[n + 1].name;
    PinnedRunSettles(s, rq.version, start, n);
    assert at == PinnedRun(s, rq.version, start, n) by {
      OperatorFollowsPin(g, rq, s, vs, n);
    }
    assert next == PinnedRun(s, rq.version, start, n + 1) by {
      OperatorFollowsPin(g, rq, s, vs, n + 1);
    }
  }

  /** After `n` steps from `start` the release is `at`, and then `next`. */
  ghost predicate Settling(s: Source, p: Id, start: Id, n: nat, at: Id, next: Id)
    requires s.Valid() && p in s.index && start in s.index
  {
    && at in s.index && next in s.index
    && (next == at || s.index[next] < s.index[at])
    && (s.index[start] >= s.index[p] ==> s.index[at] >= s.index[p])
    && (s.index[start] < s.index[p] ==> at == start)
    && (n + s.index[p] >= s.index[start] ==> next == at)
    && (n + s.index[p] >= s.index[start] >= s.index[p] && OlderKeepUpdates(s, p) ==> at == p)
  }

  lemma PinnedRunSettles(s: Source, p: Id, id: Id, n: nat)
    requires s.Valid() && s.Forward() && p in s.index && id in s.index && "" !in s.index
    ensures Settling(s, p, id, n, PinnedRun(s, p, id, n), PinnedRun(s, p, id, n + 1))
  {
    PinnedRunDescends(s, p, id, n);
    PinnedStepDescends(s, p, PinnedRun(s, p, id, n));
    if n + s.index[p] >= s.index[id] {
      PinnedRunStops(s, p, id, n);
      if s.index[id] >= s.index[p] && OlderKeepUpdates(s, p) {
        PinReachedFrom(s, p, id, n);
      }
    }
  }

  // ---- The target in full ----

  /** The version to run next within a source: the recorded one if it is to stay or at the end of the
      edges. */
  function NextRecorded(s: Source, v: Version, stay: bool): Version
    requires s.Valid()
  {
    var next := s.NextVersion(v.name);
    if stay || next == "" then v
    else (if next != s.NextDirect(v.name) then v.(attributes := [Migration]) else v).(name := next)
  }

  lemma UnpinnedTarget(g: Graph, rq: Request, s: Source, v: Version, rolling: bool)
    requires OnChannel(g, rq, s, v) && rq.version == ""
    ensures var to := NextRecorded(s, v, rolling);
            && Resolve(g, rq, Some(v), rolling) == Target(BaseImage(rq), Some(to), s.StateOf(to.name), None)
            && OnChannel(g, rq, s, to)
  {
    OnChannelResolves(g, rq, s, v, rolling);
    var next := s.NextVersion(v.name);
    if next != "" {
      assert s.Edge(v.name, next);
      assert s.IdAt(s.index[next]) == next;
    }
  }

  lemma PinnedTargetInFull(g: Graph, rq: Request, s: Source, v: Version, rolling: bool)
    requires OnChannel(g, rq, s, v) && rq.version in s.index
    ensures var to := NextRecorded(s.Suffix(s.index[rq.version]), v, rolling || v.name == rq.version);
            && Resolve(g, rq, Some(v), rolling) == Target(BaseImage(rq), Some(to), s.StateOf(to.name), None)
            && OnChannel(g, rq, s, to)
  {
    OnChannelResolves(g, rq, s, v, rolling);
    PinnedMoveInFull(g, rq, s, v, rolling, BaseImage(rq));
  }

  lemma PinnedMoveInFull(g: Graph, rq: Request, s: Source, v: Version, rolling: bool, base: string)
    requires s.Valid() && v.name in s.index && rq.version in s.index && "" !in s.index
    ensures var to := NextRecorded(s.Suffix(s.index[rq.version]), v, rolling || v.name == rq.version);
            && Move(g, rq, s, v, v, rolling, base) == Target(base, Some(to), s.StateOf(to.name), None)
            && to.name in s.index && to.channel == v.channel
  {
    var k := s.index[rq.version];
    var sub := s.Suffix(k);
    var next := sub.NextVersion(v.name);
    if next != "" {
      assert sub.Edge(v.name, next);
      SubgraphEdges(s, k, v.name, next);
      SubgraphStates(s, k, next);
      assert s.IdAt(s.index[next]) == next;
    }
  }
}
