/** The updates a cluster advertises in its status. */
module AvailableVersions {
  import opened Seqs
  import opened UpdateSource
  import opened Validation
  import opened Walks
  import opened UpdateGraph
  import opened TargetProperties

  /** An entry, noted as the head when it is. */
  function Entry(name: Id, channel: string, attributes: seq<Attribute>, description: seq<Phrase>, latest: Id): Version {
    if name == latest then Version(name, channel, attributes + [Latest], description + [HeadOfChannel])
    else Version(name, channel, attributes, description)
  }

  /** The entries within the channel of the cluster: the migration-free update, the greedy
      update if it differs, and the head if it is neither. */
  function OwnEntries(s: Source, v: Version): seq<Version>
    requires s.Valid()
  {
    var direct, next, latest := s.NextDirect(v.name), s.NextVersion(v.name), s.LatestVersion(v.name);
    (if direct != "" then [Entry(direct, v.channel, [Next], [DirectUpdate], latest)] else []) +
    (if next != "" && next != direct
     then [Entry(next, v.channel, [Next, Migration], [RunsMigration], latest)] else []) +
    (if latest != "" && next != latest && direct != latest
     then [Version(latest, v.channel, [Latest, Migration], [HeadInSequence])] else [])
  }

  /** The safest update in another channel of the engine, if any. */
  ghost function OtherEntry(g: Graph, engine: string, v: Version, c: Channel): seq<Version> {
    var s := SourceFor(g, engine, c.name);
    if c.name == v.channel || c.Meta("datastore") != engine || s.None? then []
    else Offer(s.value, v.name, c.name)
  }

  /** The update another channel offers. */
  function Offer(s: Source, from: Id, channel: string): seq<Version>
    requires s.Valid()
  {
    if s.NextDirect(from) != "" then [Version(s.NextDirect(from), channel, [Next], [DirectUpdate, DifferentChannel])]
    else if s.NextVersion(from) != "" then
      [Version(s.NextVersion(from), channel, [Next, Migration], [RunsMigration, DifferentChannel])]
    else []
  }

  ghost function OtherEntries(g: Graph, engine: string, v: Version): seq<seq<Version>> {
    seq(|g.channels|, i requires 0 <= i < |g.channels| => OtherEntry(g, engine, v, g.channels[i]))
  }

  ghost function Available(g: Graph, engine: string, v: Version): Option<seq<Version>> {
    var s := SourceFor(g, engine, v.channel);
    if s.None? then None
    else Some(OwnEntries(s.value, v) + Flatten(OtherEntries(g, engine, v)))
  }

  method AvailableVersions(g: Graph, engine: string, v: Version) returns (r: Option<seq<Version>>)
    ensures r == Available(g, engine, v)
  {
    var found := SourceForChannel(g, engine, v.channel);
    if found.None? {
      return None;
    }
    var own := ListOwn(found.value, v);
    var others := ListOthers(g, engine, v);
    r := Some(own + others);
  }

  /** Options in other channels: one entry for each channel that has one. */
  method ListOthers(g: Graph, engine: string, v: Version) returns (available: seq<Version>)
    ensures available == Flatten(OtherEntries(g, engine, v))
  {
    available := [];
    ghost var others := OtherEntries(g, engine, v);
    for i := 0 to |g.channels|
      invariant available == Flatten(others[..i])
    {
      FlattenStep(others, i);
      var more := ListOther(g, engine, v, g.channels[i]);
      assert more == others[i];
      available := available + more;
    }
    assert others[..|g.channels|] == others;
  }

  method ListOther(g: Graph, engine: string, v: Version, c: Channel) returns (more: seq<Version>)
    ensures more == OtherEntry(g, engine, v, c)
  {
    if c.name == v.channel {
      return [];
    }
    if c.Meta("datastore") != engine {
      return [];
    }
    var source := SourceForChannel(g, engine, c.name);
    if source.None? {
      return [];
    }
    var next := source.value.NextVersionWithoutMigrations(v.name);
    if |next| > 0 {
      return [Version(next, c.name, [Next], [DirectUpdate, DifferentChannel])];
    }
    next := source.value.NextVersion(v.name);
    if |next| > 0 {
      return [Version(next, c.name, [Next, Migration], [RunsMigration, DifferentChannel])];
    }
    more := [];
  }

  method ListOwn(source: Source, v: Version) returns (available: seq<Version>)
    requires source.Valid()
    ensures available == OwnEntries(source, v)
  {
    available := [];
    var direct := source.NextVersionWithoutMigrations(v.name);
    var latest := source.LatestVersion(v.name);
    if |direct| > 0 {
      var entry := Version(direct, v.channel, [Next], [DirectUpdate]);
      if direct == latest {
        entry := entry.(description := entry.description + [HeadOfChannel]);
        entry := entry.(attributes := entry.attributes + [Latest]);
      }
      available := available + [entry];
    }
    assert available == (if direct != "" then [Entry(direct, v.channel, [Next], [DirectUpdate], latest)] else []);
    var next := source.NextVersion(v.name);
    if |next| > 0 && next != direct {
      var entry := Version(next, v.channel, [Next, Migration], [RunsMigration]);
      if next == latest {
        entry := entry.(description := entry.description + [HeadOfChannel]);
        entry := entry.(attributes := entry.attributes + [Latest]);
      }
      available := available + [entry];
    }
    if |latest| > 0 && next != latest && direct != latest {
      available := available + [Version(latest, v.channel, [Latest, Migration], [HeadInSequence])];
    }
  }

  // ---- Honesty ----

  /** No release is advertised twice, and the release an unpinned cluster would move to is advertised. */
  lemma OwnEntriesDistinct(s: Source, v: Version)
    requires s.Valid()
    ensures forall i, j :: 0 <= i < j < |OwnEntries(s, v)| ==> OwnEntries(s, v)[i].name != OwnEntries(s, v)[j].name
    ensures s.NextVersion(v.name) != "" ==> exists e :: e in OwnEntries(s, v) && e.name == s.NextVersion(v.name)
  {
    var direct, next, latest := s.NextDirect(v.name), s.NextVersion(v.name), s.LatestVersion(v.name);
    if next != "" {
      var e := if next == direct then Entry(direct, v.channel, [Next], [DirectUpdate], latest)
               else Entry(next, v.channel, [Next, Migration], [RunsMigration], latest);
      assert e in OwnEntries(s, v);
    }
  }

  predicate Lists(entries: seq<Version>, name: Id) {
    exists e :: e in entries && e.name == name
  }

  /** The release an unpinned cluster moves to is among its advertised updates. */
  lemma ChoiceIsAdvertised(g: Graph, rq: Request, s: Source, v: Version)
    requires OnChannel(g, rq, s, v) && rq.version == ""
    ensures var t := Resolve(g, rq, Some(v), false);
            && t.err.None? && t.version.Some? && Available(g, rq.engine, v).Some?
            && (t.version.value.name != v.name ==> Lists(Available(g, rq.engine, v).value, t.version.value.name))
  {
    UnpinnedTarget(g, rq, s, v, false);
    OwnEntriesDistinct(s, v);
    var own, all := OwnEntries(s, v), Available(g, rq.engine, v).value;
    if s.NextVersion(v.name) != "" {
      var e :| e in own && e.name == s.NextVersion(v.name);
      assert e in all;
    }
  }

  ghost predicate Honest(s: Source, v: Version)
    requires s.Valid()
  {
    forall e :: e in OwnEntries(s, v) ==> Reachable(s, v.name, e.name)
  }

  /** Everything advertised within the channel can be reached along its edges exactly when
      the running release is one of its nodes; otherwise the head is advertised in vain. */
  lemma AdvertisedIsReachable(s: Source, v: Version)
    requires Accepted(s)
    ensures Honest(s, v) <==> v.name in s.index
  {
    if v.name in s.index {
      forall e | e in OwnEntries(s, v) ensures Reachable(s, v.name, e.name) {
        EntryName(s, v, e);
        EntryReachable(s, v.name, e.name);
      }
    } else {
      StrangerSeesHead(s, v);
    }
  }

  lemma EntryName(s: Source, v: Version, e: Version)
    requires s.Valid() && e in OwnEntries(s, v)
    ensures e.name != ""
    ensures e.name == s.NextDirect(v.name) || e.name == s.NextVersion(v.name) || e.name == s.LatestVersion(v.name)
  {
  }

  lemma EntryReachable(s: Source, id: Id, to: Id)
    requires Accepted(s) && id in s.index && to != ""
    requires to == s.NextDirect(id) || to == s.NextVersion(id) || to == s.LatestVersion(id)
    ensures Reachable(s, id, to)
  {
    if to == s.NextDirect(id) {
      DirectSharesMigration(s, id);
      EdgeReachable(s, id, to);
    } else if to == s.NextVersion(id) {
      EdgeReachable(s, id, to);
    } else {
      HeadReachable(s, id);
    }
  }

  lemma EdgeReachable(s: Source, from: Id, to: Id)
    requires s.Edge(from, to)
    ensures Reachable(s, from, to)
  {
    assert WalkFromTo(s, [from, to], from, to);
  }

  lemma HeadReachable(s: Source, id: Id)
    requires Accepted(s) && id in s.index
    ensures Reachable(s, id, s.Head())
  {
    GreedyPathWalks(s, id);
  }

  lemma StrangerSeesHead(s: Source, v: Version)
    requires s.Valid() && "" !in s.index && v.name !in s.index
    ensures !Honest(s, v)
  {
    assert s.IdAt(0) == s.Head();
    var e := Version(s.Head(), v.channel, [Latest, Migration], [HeadInSequence]);
    assert OwnEntries(s, v) == [e];
    forall path ensures !WalkFromTo(s, path, v.name, e.name) {
      if |path| > 1 && path[0] == v.name {
        assert !s.Edge(path[0], path[1]);
      }
    }
    assert e in OwnEntries(s, v);
  }

  // ---- What the entries say ----

  /** The release stands at the end of the updates that need no migration. */
  ghost predicate EndsAlike(s: Source, from: Id, name: Id)
    requires s.Valid()
  {
    exists i: nat :: s.LastAlike(from, i) && s.edges[from][i] == name
  }

  /** The release is the last entry of the edge list. */
  predicate EndsEdges(s: Source, from: Id, name: Id) {
    from in s.edges && s.edges[from] != [] && s.edges[from][|s.edges[from]| - 1] == name
  }

  /** Some edge leads to the release, and no entry up to it needs a migration. */
  ghost predicate AlikeUpTo(s: Source, from: Id, name: Id)
    requires s.Valid()
  {
    from in s.edges && exists i :: 0 <= i < |s.edges[from]| && s.edges[from][i] == name &&
                                   forall j :: 0 <= j <= i ==> s.Alike(from, s.edges[from][j])
  }

  lemma DirectIsEnd(s: Source, from: Id, name: Id)
    requires s.Valid() && "" !in s.index && name != ""
    ensures s.NextDirect(from) == name <==> EndsAlike(s, from, name)
    ensures s.NextVersion(from) == name <==> EndsEdges(s, from, name)
  {
    DirectMeaning(s, from);
    if EndsAlike(s, from, name) {
      var i: nat :| s.LastAlike(from, i) && s.edges[from][i] == name;
      assert s.Alike(from, s.edges[from][0]);
      var k: nat :| s.LastAlike(from, k) && s.NextDirect(from) == s.edges[from][k];
      LastAlikeUnique(s, from, i, k);
    }
  }

  /** Which releases of its own channel a cluster is told of: the end of the updates that need no
      migration, the last edge, and the head unless it runs. */
  lemma ListedExactly(s: Source, v: Version, name: Id)
    requires s.Valid() && "" !in s.index
    ensures Lists(OwnEntries(s, v), name) <==>
              && name != ""
              && (EndsAlike(s, v.name, name) || EndsEdges(s, v.name, name) || name == s.nodes[0].id != v.name)
  {
    var direct, next, latest := s.NextDirect(v.name), s.NextVersion(v.name), s.LatestVersion(v.name);
    assert s.IdAt(0) in s.index;
    if name != "" {
      DirectIsEnd(s, v.name, name);
      if name == direct {
        assert Entry(direct, v.channel, [Next], [DirectUpdate], latest) in OwnEntries(s, v);
      } else if name == next {
        assert Entry(next, v.channel, [Next, Migration], [RunsMigration], latest) in OwnEntries(s, v);
      } else if name == latest {
        assert Version(latest, v.channel, [Latest, Migration], [HeadInSequence]) in OwnEntries(s, v);
      }
    }
  }

  /** What a cluster is told about each of them. */
  lemma EntryMeaning(s: Source, v: Version, e: Version)
    requires s.Valid() && "" !in s.index && e in OwnEntries(s, v)
    ensures e.channel == v.channel
    ensures Migration !in e.attributes <==> EndsAlike(s, v.name, e.name)
    ensures Next in e.attributes <==> EndsAlike(s, v.name, e.name) || EndsEdges(s, v.name, e.name)
    ensures Latest in e.attributes <==> e.name == s.nodes[0].id != v.name
    ensures IncompatibleDispatch !in e.attributes && NotInChannel !in e.attributes
    ensures DirectUpdate in e.description <==> Migration !in e.attributes
    ensures RunsMigration in e.description <==> Next in e.attributes && Migration in e.attributes
    ensures HeadOfChannel in e.description <==> Next in e.attributes && Latest in e.attributes
    ensures HeadInSequence in e.description <==> Next !in e.attributes
    ensures DifferentChannel !in e.description
  {
    var direct, next, latest := s.NextDirect(v.name), s.NextVersion(v.name), s.LatestVersion(v.name);
    EntryName(s, v, e);
    DirectIsEnd(s, v.name, e.name);
    KindOfEntry(s, v, e);
    KindMeaning(e, v.channel, direct, next, latest);
    assert s.IdAt(0) in s.index;
  }

  /** The three kinds of entries a channel has for its own clusters. */
  ghost predicate OwnKind(e: Version, channel: string, direct: Id, next: Id, latest: Id)
  {
    if e.name == direct then e == Entry(direct, channel, [Next], [DirectUpdate], latest)
    else if e.name == next then e == Entry(next, channel, [Next, Migration], [RunsMigration], latest)
    else e == Version(latest, channel, [Latest, Migration], [HeadInSequence])
  }

  lemma KindOfEntry(s: Source, v: Version, e: Version)
    requires s.Valid() && e in OwnEntries(s, v)
    ensures OwnKind(e, v.channel, s.NextDirect(v.name), s.NextVersion(v.name), s.LatestVersion(v.name))
  {
  }

  lemma KindMeaning(e: Version, channel: string, direct: Id, next: Id, latest: Id)
    requires OwnKind(e, channel, direct, next, latest)
    ensures e.channel == channel
    ensures Migration !in e.attributes <==> e.name == direct
    ensures Next in e.attributes <==> e.name == direct || e.name == next
    ensures Latest in e.attributes <==> e.name == latest
    ensures IncompatibleDispatch !in e.attributes && NotInChannel !in e.attributes
    ensures DirectUpdate in e.description <==> Migration !in e.attributes
    ensures RunsMigration in e.description <==> Next in e.attributes && Migration in e.attributes
    ensures HeadOfChannel in e.description <==> Next in e.attributes && Latest in e.attributes
    ensures HeadInSequence in e.description <==> Next !in e.attributes
    ensures DifferentChannel !in e.description
  {
    if e.name == direct {
      EntrySays(direct, channel, [Next], DirectUpdate, latest);
    } else if e.name == next {
      EntrySays(next, channel, [Next, Migration], RunsMigration, latest);
    }
  }

  lemma EntrySays(name: Id, channel: string, attributes: seq<Attribute>, phrase: Phrase, latest: Id)
    requires attributes == [Next] || attributes == [Next, Migration]
    ensures var e := Entry(name, channel, attributes, [phrase], latest);
            && e.name == name && e.channel == channel && (Latest in e.attributes <==> name == latest)
            && (forall a :: a != Latest ==> (a in e.attributes <==> a in attributes))
            && (forall p :: p != HeadOfChannel ==> (p in e.description <==> p == phrase))
            && (phrase != HeadOfChannel ==> (HeadOfChannel in e.description <==> name == latest))
  {
  }

  /** With edge lists from oldest to newest: an entry says nothing of a migration exactly when an edge
      leads to it past no entry that needs one, and it is called next exactly when it is an edge. */
  lemma OrderedEntryMeaning(s: Source, v: Version, e: Version)
    requires s.Valid() && "" !in s.index && OldestFirst(s) && e in OwnEntries(s, v)
    ensures Migration !in e.attributes <==> AlikeUpTo(s, v.name, e.name)
    ensures Next in e.attributes <==> s.Edge(v.name, e.name)
  {
    EntryMeaning(s, v, e);
    EntryName(s, v, e);
    DirectIsEnd(s, v.name, e.name);
    if s.Edge(v.name, e.name) {
      OrderedEdge(s, v, e);
    }
  }

  /** The head can only be the last entry of such a list. */
  lemma OrderedEdge(s: Source, v: Version, e: Version)
    requires s.Valid() && "" !in s.index && OldestFirst(s) && e in OwnEntries(s, v) && s.Edge(v.name, e.name)
    ensures EndsAlike(s, v.name, e.name) || EndsEdges(s, v.name, e.name)
    ensures AlikeUpTo(s, v.name, e.name) ==> EndsAlike(s, v.name, e.name)
  {
    EntryName(s, v, e);
    DirectIsEnd(s, v.name, e.name);
    if e.name == s.nodes[0].id {
      HeadComesLast(s, v.name);
    }
    if AlikeUpTo(s, v.name, e.name) && EndsEdges(s, v.name, e.name) {
      AlikeToTheEnd(s, v.name, e.name);
    }
  }

  lemma HeadComesLast(s: Source, from: Id)
    requires s.Valid() && OldestFirst(s) && s.Edge(from, s.nodes[0].id)
    ensures EndsEdges(s, from, s.nodes[0].id)
  {
    var list := s.edges[from];
    var k :| 0 <= k < |list| && list[k] == s.nodes[0].id;
    assert s.index[s.IdAt(0)] == 0;
    assert s.index[list[|list| - 1]] <= s.index[list[k]];
  }

  lemma AlikeToTheEnd(s: Source, from: Id, name: Id)
    requires s.Valid() && OldestFirst(s) && AlikeUpTo(s, from, name) && EndsEdges(s, from, name)
    ensures EndsAlike(s, from, name)
  {
    var list := s.edges[from];
    var i :| 0 <= i < |list| && list[i] == name && forall j :: 0 <= j <= i ==> s.Alike(from, list[j]);
    OrderedOnce(s, from, i, |list| - 1);
    assert s.LastAlike(from, i);
  }

  lemma OrderedOnce(s: Source, from: Id, i: nat, j: nat)
    requires s.Valid() && OldestFirst(s) && from in s.edges && i < |s.edges[from]| && j < |s.edges[from]|
    requires s.edges[from][i] == s.edges[from][j]
    ensures i == j
  {
  }

  // ---- Other channels ----

  /** Another channel of the engine contributes one entry if it has an update, and none otherwise: the
      migration-free one if there is any, else the last edge, said to be in that channel. */
  lemma OtherEntryMeaning(g: Graph, engine: string, v: Version, c: Channel)
    requires c.name != v.channel && c.Meta("datastore") == engine && SourceFor(g, engine, c.name).Some?
    requires "" !in SourceFor(g, engine, c.name).value.index
    ensures OfferMeans(SourceFor(g, engine, c.name).value, v.name, c.name, OtherEntry(g, engine, v, c))
  {
    OfferMeaning(SourceFor(g, engine, c.name).value, v.name, c.name);
  }

  ghost predicate OfferMeans(s: Source, from: Id, channel: string, r: seq<Version>)
    requires s.Valid()
  {
    && |r| == (if from in s.edges && s.edges[from] != [] then 1 else 0)
    && (r != [] ==>
          && r[0].channel == channel
          && (if s.StartsAlike(from) then EndsAlike(s, from, r[0].name) else EndsEdges(s, from, r[0].name))
          && (Migration in r[0].attributes <==> !s.StartsAlike(from))
          && Next in r[0].attributes && Latest !in r[0].attributes && NotInChannel !in r[0].attributes
          && (DirectUpdate in r[0].description <==> s.StartsAlike(from))
          && (RunsMigration in r[0].description <==> !s.StartsAlike(from))
          && DifferentChannel in r[0].description && HeadOfChannel !in r[0].description)
  }

  lemma OfferMeaning(s: Source, from: Id, channel: string)
    requires s.Valid() && "" !in s.index
    ensures OfferMeans(s, from, channel, Offer(s, from, channel))
  {
    DirectMeaning(s, from);
    if s.StartsAlike(from) {
      var i: nat :| s.LastAlike(from, i) && s.NextDirect(from) == s.edges[from][i];
      assert s.Edge(from, s.edges[from][i]);
      assert Offer(s, from, channel)
          == [Version(s.NextDirect(from), channel, [Next], [DirectUpdate, DifferentChannel])];
    } else if from in s.edges && s.edges[from] != [] {
      assert s.Edge(from, s.NextVersion(from));
      assert Offer(s, from, channel)
          == [Version(s.NextVersion(from), channel, [Next, Migration], [RunsMigration, DifferentChannel])];
    }
  }

  /** The own channel, other engines and channels without a source contribute nothing. */
  lemma NoOtherEntry(g: Graph, engine: string, v: Version, c: Channel)
    requires c.name == v.channel || c.Meta("datastore") != engine || SourceFor(g, engine, c.name).None?
    ensures OtherEntry(g, engine, v, c) == []
  {
  }

  /** The whole list: what the own channel offers, then the entries of the other channels, in the order
      of the channels. */
  lemma AdvertisedInOrder(g: Graph, engine: string, v: Version, i: nat)
    ensures Available(g, engine, v).None? <==> SourceFor(g, engine, v.channel).None?
    ensures Available(g, engine, v).Some? ==>
              var all, own := Available(g, engine, v).value, OwnEntries(SourceFor(g, engine, v.channel).value, v);
              var others := OtherEntries(g, engine, v);
              && own <= all && |all| == |own| + FilledBefore(others, |g.channels|)
              && (i < |g.channels| && OtherEntry(g, engine, v, g.channels[i]) != [] ==>
                    && FilledBefore(others, i) < FilledBefore(others, |g.channels|)
                    && [all[|own| + FilledBefore(others, i)]] == OtherEntry(g, engine, v, g.channels[i]))
  {
    var others := OtherEntries(g, engine, v);
    assert others[..|others|] == others;
    FlattenSize(others, |others|);
    if i < |others| {
      FlattenPlace(others, i, |others|);
    }
  }

  // ---- Without that order ----

  const MIXED_NODES := [NO_STATE.(id := "v3", tag := "v3"), NO_STATE.(id := "v2", tag := "v2"),
                        NO_STATE.(id := "v1", tag := "v1")]
  const MIXED_EDGES: EdgeSet := map["v1" := ["v3", "v2"], "v2" := ["v3"]]

  lemma MixedAccepted()
    ensures Accepts(MIXED_NODES, MIXED_EDGES)
  {
    var nodes, edges := MIXED_NODES, MIXED_EDGES;
    assert nodes[0] in nodes && nodes[1] in nodes && nodes[2] in nodes;
    assert NodeId(nodes, 0) == "v3" && NodeId(nodes, 1) == "v2" && NodeId(nodes, 2) == "v1";
    assert Chase(edges, "v1", 0) == "v1" && Chase(edges, "v2", 0) == "v2" && Chase(edges, "v1", 1) == "v2";
    assert Reaches(edges, "v2", "v3", 1) && Reaches(edges, "v1", "v3", 2);
  }

  /** An accepted channel whose head is one migration-free edge away, and is advertised as a sequence of
      updates with a migration. */
  lemma DirectHeadIsNotTold(s: Source, v: Version)
    requires s == SourceOf(MIXED_NODES, MIXED_EDGES) && v.name == "v1"
    ensures Accepts(MIXED_NODES, MIXED_EDGES) && s.Valid() && AlikeUpTo(s, "v1", "v3")
    ensures Version("v3", v.channel, [Latest, Migration], [HeadInSequence]) in OwnEntries(s, v)
  {
    MixedAccepted();
    MixedSource(s);
    MixedDirect(s);
    var e := Version("v3", v.channel, [Latest, Migration], [HeadInSequence]);
    assert OwnEntries(s, v) == [Entry("v2", v.channel, [Next], [DirectUpdate], "v3"), e];
    assert s.edges["v1"][0] == "v3";
  }

  lemma MixedDirect(s: Source)
    requires s.Valid() && s.nodes == MIXED_NODES && "v1" in s.edges && s.edges["v1"] == ["v3", "v2"]
    requires s.Alike("v1", "v3") && s.Alike("v1", "v2")
    ensures s.NextDirect("v1") == s.NextVersion("v1") == "v2" && s.LatestVersion("v1") == "v3"
  {
    assert s.LastAlike("v1", 1);
    DirectMeaning(s, "v1");
    var i: nat :| s.LastAlike("v1", i) && s.NextDirect("v1") == s.edges["v1"][i];
    LastAlikeUnique(s, "v1", i, 1);
  }

  lemma MixedSource(s: Source)
    requires s == SourceOf(MIXED_NODES, MIXED_EDGES)
    ensures s.Valid() && s.nodes == MIXED_NODES && "v1" in s.edges && s.edges["v1"] == ["v3", "v2"]
    ensures s.Alike("v1", "v3") && s.Alike("v1", "v2")
  {
    MixedAccepted();
    SourceOfValid(MIXED_NODES, MIXED_EDGES);
    assert s.IdAt(0) == "v3" && s.IdAt(1) == "v2" && s.IdAt(2) == "v1";
  }

  // ---- Taking the advertised migration-free update ----

  /** Edge lists run from oldest to newest. */
  ghost predicate OldestFirst(s: Source)
    requires s.Valid()
  {
    forall from, i, j :: from in s.edges && 0 <= i < j < |s.edges[from]| ==>
      s.Edge(from, s.edges[from][i]) && s.Edge(from, s.edges[from][j]) &&
      s.index[s.edges[from][j]] < s.index[s.edges[from][i]]
  }

  /** Below the migration-free choice the edge list is its own migration-free prefix. */
  lemma DirectSubgraph(s: Source, id: Id)
    requires s.Valid() && s.Forward() && OldestFirst(s) && s.NextDirect(id) != ""
    ensures s.NextDirect(id) in s.index && id in s.index
    ensures var sub := s.Suffix(s.index[s.NextDirect(id)]);
            sub.NextVersion(id) == sub.NextDirect(id) == s.NextDirect(id)
  {
    DirectSharesMigration(s, id);
    var n := s.DirectPrefix(s.NodeAt(id), s.edges[id]);
    RestrictedToDirect(s, id, n, s.index[s.NextDirect(id)]);
    DirectWithin(s, id, n, s.index[s.NextDirect(id)]);
  }

  lemma DirectWithin(s: Source, id: Id, n: nat, k: nat)
    requires s.Valid() && id in s.edges && k < s.index[id] && n == s.DirectPrefix(s.NodeAt(id), s.edges[id]) > 0
    requires forall i :: 0 <= i < n ==> s.edges[id][i] in s.index && s.index[s.edges[id][i]] >= k
    requires Restrict(s.edges[id], s.KeptIds(k)) == s.edges[id][..n]
    ensures s.Suffix(k).NextVersion(id) == s.Suffix(k).NextDirect(id) == s.edges[id][n - 1]
  {
    var sub, list := s.Suffix(k), s.edges[id];
    assert sub.edges[id] == list[..n];
    forall i | 0 <= i < n ensures sub.NodeAt(list[..n][i]) == s.NodeAt(list[i]) {
      SubgraphStates(s, k, list[i]);
    }
    SubgraphStates(s, k, id);
    WholeListIsDirect(sub, id);
  }

  lemma WholeListIsDirect(s: Source, id: Id)
    requires s.Valid() && id in s.edges && s.edges[id] != []
    requires forall i :: 0 <= i < |s.edges[id]| ==> SameMigration(s.NodeAt(id), s.NodeAt(s.edges[id][i]))
    ensures s.NextVersion(id) == s.NextDirect(id) == Last(s.edges[id])
  {
  }

  lemma RestrictedToDirect(s: Source, id: Id, n: nat, k: nat)
    requires s.Valid() && s.Forward() && OldestFirst(s) && id in s.edges
    requires 0 < n <= |s.edges[id]| && s.edges[id][n - 1] in s.index && k == s.index[s.edges[id][n - 1]]
    ensures forall i :: 0 <= i < n ==> s.edges[id][i] in s.index && s.index[s.edges[id][i]] >= k
    ensures Restrict(s.edges[id], s.KeptIds(k)) == s.edges[id][..n]
  {
    var list := s.edges[id];
    forall i | 0 <= i < |list| ensures list[i] in s.index && (i < n <==> s.index[list[i]] >= k) {
      assert s.Edge(id, list[i]);
    }
    assert list == list[..n] + list[n..];
    RestrictConcat(list[..n], list[n..], s.KeptIds(k));
    RestrictAll(list[..n], s.KeptIds(k));
    RestrictNone(list[n..], s.KeptIds(k));
  }

  /** Pinning to the advertised migration-free update lands on it in one step and leaves the
      attributes of the running version as they were. */
  lemma DirectUpdateLands(g: Graph, rq: Request, s: Source, v: Version)
    requires OnChannel(g, rq, s, v) && s.Forward() && OldestFirst(s)
    requires s.NextDirect(v.name) != "" && rq.version == s.NextDirect(v.name)
    ensures Resolve(g, rq, Some(v), false).err.None?
    ensures Resolve(g, rq, Some(v), false).version == Some(v.(name := rq.version))
  {
    OnChannelResolves(g, rq, s, v, false);
    DirectMove(g, rq, s, v, BaseImage(rq));
  }

  lemma DirectMove(g: Graph, rq: Request, s: Source, v: Version, base: string)
    requires s.Valid() && v.name in s.index && s.Forward() && OldestFirst(s)
    requires s.NextDirect(v.name) != "" && rq.version == s.NextDirect(v.name)
    ensures Move(g, rq, s, v, v, false, base).err.None?
    ensures Move(g, rq, s, v, v, false, base).version == Some(v.(name := rq.version))
  {
    DirectSubgraph(s, v.name);
    DirectSharesMigration(s, v.name);
    var sub := s.Suffix(s.index[rq.version]);
    FollowStep(sub, s.StateOf(v.name), v, v, base);
    assert s.index[rq.version] < s.index[v.name];
  }
}
