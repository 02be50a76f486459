/** The upgrade-path tool: it walks a channel re-rooted at the wanted release. */
module UpgradePath {
  import opened Seqs
  import opened UpdateSource
  import opened UpdateGraph
  import opened TargetProperties
  import opened WalkEnding

  datatype PathStep = PathStep(version: Id, migration: string, phase: string, hasMigration: bool)

  datatype Outcome =
    | NoDatastore
    | NoChannelSource
    | UnknownFrom
    | UnknownTo
    | Unsupported
    | AlreadyThere
    | Supported(path: seq<PathStep>, migrations: nat)

  /** The path is the run of a cluster pinned at `to`, from `from` until it first gets there. */
  ghost predicate PathTo(s: Source, from: Id, to: Id, path: seq<PathStep>)
    requires s.Valid() && to in s.index
  {
    path != [] && forall i :: 0 <= i < |path| ==> OnPath(s, from, to, path, i)
  }

  /** Entry `i` of the path; a step is flagged exactly when it changes the migration or the phase. */
  ghost predicate OnPath(s: Source, from: Id, to: Id, path: seq<PathStep>, i: nat)
    requires s.Valid() && to in s.index && i < |path|
  {
    && path[i].version == PinnedRun(s, to, from, i)
    && (i > 0 ==> path[i - 1].version != to && StepOf(s, path[i - 1].version, path[i]))
  }

  ghost predicate StepOf(s: Source, before: Id, step: PathStep)
    requires s.Valid()
  {
    var after := s.StateOf(step.version);
    && s.Edge(before, step.version)
    && step.migration == after.migration && step.phase == after.phase
    && (step.hasMigration <==> !SameMigration(s.StateOf(before), after))
  }

  function Migrating(path: seq<PathStep>, n: int): set<int>
    requires n <= |path|
  {
    set i | 1 <= i < n && path[i].hasMigration
  }

  ghost predicate NeverThere(s: Source, from: Id, to: Id)
    requires s.Valid() && to in s.index
  {
    forall n: nat :: PinnedRun(s, to, from, n) != to
  }

  /** The verdict for two releases of a channel. */
  ghost predicate Verdict(s: Source, from: Id, to: Id, r: Outcome)
    requires s.Valid() && to in s.index
  {
    match r
    case AlreadyThere => from == to
    case Unsupported => NeverThere(s, from, to)
    case Supported(path, migrations) =>
      && from != to && PathTo(s, from, to, path) && Last(path).version == to
      && migrations == |Migrating(path, |path|)|
    case _ => false
  }

  /** The walk of the tool ends, if it gets that far. */
  ghost predicate UpgradeEnds(g: Graph, datastore: string, from: Id, to: Id) {
    var channel := FindDefault(g.channels, datastore);
    channel.Some? ==>
      var s := SourceFor(g, datastore, channel.value);
      s.Some? && from in s.value.index && to in s.value.index ==> WalkEnds(s.value, to, from)
  }

  method ValidateUpgrade(g: Graph, datastore: string, from: Id, to: Id) returns (r: Outcome)
    requires UpgradeEnds(g, datastore, from, to)
    ensures r.NoDatastore? <==> FindDefault(g.channels, datastore).None?
    ensures !r.NoDatastore? ==>
              var s := SourceFor(g, datastore, FindDefault(g.channels, datastore).value);
              && (r.NoChannelSource? <==> s.None?)
              && (s.Some? ==>
                  && (r.UnknownFrom? <==> s.value.StateOf(from).id == "")
                  && (r.UnknownTo? <==> s.value.StateOf(from).id != "" && s.value.StateOf(to).id == "")
                  && (s.value.StateOf(from).id != "" && s.value.StateOf(to).id != "" ==>
                      Verdict(s.value, from, to, r)))
  {
    var channel := DefaultChannelForDatastore(g, datastore);
    if channel.None? {
      return NoDatastore;
    }
    var source := SourceForChannel(g, datastore, channel.value);
    if source.None? {
      return NoChannelSource;
    }
    var s := source.value;
    if s.StateOf(from).id == "" {
      return UnknownFrom;
    }
    if s.StateOf(to).id == "" {
      return UnknownTo;
    }
    r := WalkTo(s, from, to);
  }

  method WalkTo(s: Source, from: Id, to: Id) returns (r: Outcome)
    requires s.Valid() && from in s.index && to in s.index && WalkEnds(s, to, from)
    requires from != "" && to != ""
    ensures Verdict(s, from, to, r)
  {
    ghost var end: nat :| StopsAt(s, to, from, end);
    var sub := s.Subgraph(to);
    var subSource := sub.value;
    var state := s.StateOf(from);
    var path := [PathStep(from, state.migration, state.phase, false)];
    var current := from;
    while current != to
      invariant PathTo(s, from, to, path)
      invariant current == Last(path).version && current in s.index
      invariant |path| == 1 ==> current == from
      invariant |path| > 1 ==> from != to
      invariant |path| - 1 <= end
      decreases end - |path|
    {
      var next := subSource.NextVersion(current);
      if next == "" {
        NeverReached(s, from, to, path);
        return Unsupported;
      }
      var nextState, prevState := s.StateOf(next), s.StateOf(current);
      var step := PathStep(next, nextState.migration, nextState.phase, false);
      if nextState.migration != prevState.migration || nextState.phase != prevState.phase {
        step := step.(hasMigration := true);
      }
      NotYet(s, from, to, path, end);
      SubgraphEdges(s, s.index[to], current, next);
      ExtendPath(s, from, to, path, step);
      path := path + [step];
      current := next;
    }
    if |path| <= 1 {
      return AlreadyThere;
    }
    var migrationCount := CountMigrations(path);
    r := Supported(path, migrationCount);
  }

  lemma NotYet(s: Source, from: Id, to: Id, path: seq<PathStep>, end: nat)
    requires s.Valid() && to in s.index && PathTo(s, from, to, path) && !Stopped(s, to, Last(path).version)
    requires StopsAt(s, to, from, end) && |path| - 1 <= end
    ensures |path| <= end
  {
    var k: nat := |path| - 1;
    assert !StopsAt(s, to, from, k) by {
      assert OnPath(s, from, to, path, k);
    }
    if k == end {
      assert false;
    }
  }

  method CountMigrations(path: seq<PathStep>) returns (count: nat)
    requires path != []
    ensures count == |Migrating(path, |path|)|
  {
    count := 0;
    for k := 1 to |path|
      invariant count == |Migrating(path, k)|
    {
      assert Migrating(path, k + 1) == Migrating(path, k) + (if path[k].hasMigration then {k} else {});
      if path[k].hasMigration {
        count := count + 1;
      }
    }
  }

  lemma ExtendPath(s: Source, from: Id, to: Id, path: seq<PathStep>, step: PathStep)
    requires s.Valid() && to in s.index && PathTo(s, from, to, path) && Last(path).version != to
    requires step.version == PinnedNext(s, to, Last(path).version) && StepOf(s, Last(path).version, step)
    ensures PathTo(s, from, to, path + [step])
  {
    var longer := path + [step];
    forall i | 0 <= i < |longer| ensures OnPath(s, from, to, longer, i) {
      assert OnPath(s, from, to, path, if i < |path| then i else i - 1);
    }
  }

  lemma NeverReached(s: Source, from: Id, to: Id, path: seq<PathStep>)
    requires s.Valid() && to in s.index && PathTo(s, from, to, path) && Last(path).version != to
    requires s.Suffix(s.index[to]).NextVersion(Last(path).version) == ""
    ensures NeverThere(s, from, to)
  {
    var n := |path| - 1;
    assert OnPath(s, from, to, path, n);
    forall m: nat ensures PinnedRun(s, to, from, m) != to {
      if m > n {
        StaysPut(s, to, from, n, m);
      } else {
        assert OnPath(s, from, to, path, m);
        assert m < n ==> OnPath(s, from, to, path, m + 1);
      }
    }
  }

  lemma {:induction false} StaysPut(s: Source, to: Id, from: Id, n: nat, m: nat)
    requires s.Valid() && to in s.index && n <= m
    requires PinnedNext(s, to, PinnedRun(s, to, from, n)) == PinnedRun(s, to, from, n)
    ensures PinnedRun(s, to, from, m) == PinnedRun(s, to, from, n)
  {
    if n < m {
      StaysPut(s, to, from, n, m - 1);
    }
  }

  /** The tool predicts the operator: a cluster pinned at `to` records exactly the releases of a
      supported path, in order, and then stays; it never gets there when the tool says so. */
  lemma ToolPredictsOperator(g: Graph, rq: Request, s: Source, vs: seq<Version>, r: Outcome, n: nat)
    requires QuietRun(g, rq, vs) && n < |vs|
    requires OnChannel(g, rq, s, vs[0]) && rq.version in s.index
    requires Verdict(s, vs[0].name, rq.version, r)
    ensures r.Unsupported? ==> vs[n].name != rq.version
    ensures r.AlreadyThere? ==> vs[n].name == rq.version
    ensures r.Supported? ==>
              vs[n].name == (if n < |r.path| then r.path[n].version else rq.version)
  {
    OperatorFollowsPin(g, rq, s, vs, n);
    PredictedRun(s, vs[0].name, rq.version, r, n);
  }

  lemma PredictedRun(s: Source, from: Id, to: Id, r: Outcome, n: nat)
    requires s.Valid() && to in s.index && Verdict(s, from, to, r)
    ensures r.Unsupported? ==> PinnedRun(s, to, from, n) != to
    ensures r.AlreadyThere? ==> PinnedRun(s, to, from, n) == to
    ensures r.Supported? ==>
              PinnedRun(s, to, from, n) == (if n < |r.path| then r.path[n].version else to)
  {
    if r.AlreadyThere? {
      StaysPut(s, to, from, 0, n);
    } else if r.Supported? {
      PathIsRun(s, from, to, r.path, n);
    }
  }

  lemma PathIsRun(s: Source, from: Id, to: Id, path: seq<PathStep>, n: nat)
    requires s.Valid() && to in s.index && PathTo(s, from, to, path) && Last(path).version == to
    ensures PinnedRun(s, to, from, n) == (if n < |path| then path[n].version else to)
  {
    if n < |path| {
      assert OnPath(s, from, to, path, n);
    } else {
      var k := |path| - 1;
      assert OnPath(s, from, to, path, k);
      StaysPut(s, to, from, k, n);
    }
  }
}
