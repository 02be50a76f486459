/** The update graph and the choice of the next release to run. */
module UpdateGraph {
  import opened Seqs
  import opened UpdateSource
  import opened Validation

  datatype Attribute = Next | Migration | IncompatibleDispatch | Latest | NotInChannel

  /** The phrases a description is put together from. */
  datatype Phrase = DirectUpdate | RunsMigration | HeadOfChannel | HeadInSequence | DifferentChannel

  datatype Version = Version(name: Id, channel: string, attributes: seq<Attribute>, description: seq<Phrase>)

  const NO_VERSION := Version("", "", [], [])

  datatype Channel = Channel(name: string, metadata: Option<map<string, string>>, edges: EdgeSet,
                             nodes: seq<State>)
  {
    /** A missing map or key reads as the empty string. */
    function Meta(key: string): string {
      if metadata.Some? && key in metadata.value then metadata.value[key] else ""
    }
  }

  datatype Graph = Graph(channels: seq<Channel>)

  function Lower(c: char): char {
    if 'A' <= c <= 'Z' then (c as int + 32) as char else c
  }

  /** Equality under ASCII case folding. */
  predicate EqualFold(a: string, b: string) {
    |a| == |b| && forall i :: 0 <= i < |a| ==> Lower(a[i]) == Lower(b[i])
  }

  /** The capital and the small form of one letter. */
  predicate CapitalOf(c: char, d: char) {
    'A' <= c <= 'Z' && d as int - 'a' as int == c as int - 'A' as int
  }

  lemma FoldMeaning(a: string, b: string)
    ensures EqualFold(a, b) <==>
              |a| == |b| && forall i :: 0 <= i < |a| ==> a[i] == b[i] || CapitalOf(a[i], b[i]) || CapitalOf(b[i], a[i])
  {
    forall i | 0 <= i < |a| == |b|
      ensures Lower(a[i]) == Lower(b[i]) <==> a[i] == b[i] || CapitalOf(a[i], b[i]) || CapitalOf(b[i], a[i]) {
      LetterMeaning(a[i], b[i]);
    }
  }

  lemma LetterMeaning(c: char, d: char)
    ensures Lower(c) == Lower(d) <==> c == d || CapitalOf(c, d) || CapitalOf(d, c)
  {
    if Lower(c) == Lower(d) {
      assert Lower(c) as int == Lower(d) as int;
    }
  }

  // ---- Channel lookup ----

  predicate ServesEngine(c: Channel, engine: string, name: string) {
    EqualFold(c.name, name) && EqualFold(c.Meta("datastore"), engine)
  }

  /** The first channel of that name for the engine. */
  function FindChannel(channels: seq<Channel>, engine: string, name: string): (r: Option<Channel>)
    ensures r.Some? ==> r.value in channels && ServesEngine(r.value, engine, name)
    ensures r.None? ==> forall c :: c in channels ==> !ServesEngine(c, engine, name)
  {
    if channels == [] then None
    else if ServesEngine(channels[0], engine, name) then Some(channels[0])
    else FindChannel(channels[1..], engine, name)
  }

  /** The source for a channel: none when no channel matches or the first match is rejected. */
  ghost function SourceFor(g: Graph, engine: string, name: string): (r: Option<Source>)
    ensures r.Some? ==> r.value.Valid()
  {
    var c := FindChannel(g.channels, engine, name);
    if c.Some? && Accepts(c.value.nodes, c.value.edges) then
      SourceOfValid(c.value.nodes, c.value.edges);
      Some(SourceOf(c.value.nodes, c.value.edges))
    else
      None
  }

  /** Channel `i` is the first of that name for the engine. */
  predicate FirstServing(channels: seq<Channel>, engine: string, name: string, i: nat) {
    && i < |channels| && EqualFold(channels[i].name, name) && EqualFold(channels[i].Meta("datastore"), engine)
    && forall j :: 0 <= j < i ==>
                     !EqualFold(channels[j].name, name) || !EqualFold(channels[j].Meta("datastore"), engine)
  }

  lemma {:induction false} FindChannelMeaning(channels: seq<Channel>, engine: string, name: string, i: nat)
    requires FirstServing(channels, engine, name, i)
    ensures FindChannel(channels, engine, name) == Some(channels[i])
  {
    if i > 0 {
      assert !ServesEngine(channels[0], engine, name);
      FindChannelMeaning(channels[1..], engine, name, i - 1);
    }
  }

  method SourceForChannel(g: Graph, engine: string, name: string) returns (r: Option<Source>)
    ensures r == SourceFor(g, engine, name)
    ensures r.Some? ==> r.value.Valid()
    ensures r.Some? ==> exists i: nat :: FirstServing(g.channels, engine, name, i) &&
                                         r.value.nodes == g.channels[i].nodes && r.value.edges == g.channels[i].edges
    ensures r.None? ==> forall i: nat :: FirstServing(g.channels, engine, name, i) ==>
                                           !Accepts(g.channels[i].nodes, g.channels[i].edges)
  {
    for i := 0 to |g.channels|
      invariant FindChannel(g.channels, engine, name) == FindChannel(g.channels[i..], engine, name)
      invariant forall j :: 0 <= j < i ==> !ServesEngine(g.channels[j], engine, name)
    {
      var c := g.channels[i];
      if ServesEngine(c, engine, name) {
        assert FirstServing(g.channels, engine, name, i);
        var s := NewMemorySource(c.nodes, c.edges);
        return if s.Ok? then Some(s.value) else None;
      }
      assert g.channels[i..][1..] == g.channels[i + 1..];
    }
    r := None;
  }

  /** Upper and lower case do not matter to the lookup. */
  lemma LookupIgnoresCase(g: Graph, engine: string, name: string, engine': string, name': string)
    requires EqualFold(engine, engine') && EqualFold(name, name')
    ensures SourceFor(g, engine, name) == SourceFor(g, engine', name')
  {
    FindIgnoresCase(g.channels, engine, name, engine', name');
  }

  lemma {:induction false} FindIgnoresCase(channels: seq<Channel>, engine: string, name: string, engine': string,
                                           name': string)
    requires EqualFold(engine, engine') && EqualFold(name, name')
    ensures FindChannel(channels, engine, name) == FindChannel(channels, engine', name')
  {
    if channels != [] {
      FindIgnoresCase(channels[1..], engine, name, engine', name');
    }
  }

  predicate DefaultFor(c: Channel, engine: string) {
    EqualFold(c.Meta("datastore"), engine) && EqualFold(c.Meta("default"), "true")
  }

  function FindDefault(channels: seq<Channel>, engine: string): (r: Option<string>)
    ensures r.Some? <==> exists c :: c in channels && DefaultFor(c, engine)
    ensures r.Some? ==> exists c :: c in channels && DefaultFor(c, engine) && c.name == r.value
  {
    if channels == [] then None
    else
      assert channels == [channels[0]] + channels[1..];
      if DefaultFor(channels[0], engine) then Some(channels[0].name)
      else FindDefault(channels[1..], engine)
  }

  /** Channel `i` is the first marked as default for the engine. */
  predicate FirstDefault(channels: seq<Channel>, engine: string, i: nat) {
    && i < |channels|
    && EqualFold(channels[i].Meta("datastore"), engine) && EqualFold(channels[i].Meta("default"), "true")
    && forall j :: 0 <= j < i ==>
                     || !EqualFold(channels[j].Meta("datastore"), engine)
                     || !EqualFold(channels[j].Meta("default"), "true")
  }

  lemma {:induction false} FindDefaultMeaning(channels: seq<Channel>, engine: string, i: nat)
    requires FirstDefault(channels, engine, i)
    ensures FindDefault(channels, engine) == Some(channels[i].name)
  {
    if i > 0 {
      assert !DefaultFor(channels[0], engine);
      FindDefaultMeaning(channels[1..], engine, i - 1);
    }
  }

  method DefaultChannelForDatastore(g: Graph, engine: string) returns (r: Option<string>)
    ensures r == FindDefault(g.channels, engine)
    ensures r.Some? ==> exists i: nat :: FirstDefault(g.channels, engine, i) && r.value == g.channels[i].name
    ensures r.None? ==> forall i: nat :: !FirstDefault(g.channels, engine, i)
  {
    for i := 0 to |g.channels|
      invariant FindDefault(g.channels, engine) == FindDefault(g.channels[i..], engine)
      invariant forall j :: 0 <= j < i ==> !DefaultFor(g.channels[j], engine)
    {
      if DefaultFor(g.channels[i], engine) {
        assert FirstDefault(g.channels, engine, i);
        return Some(g.channels[i].name);
      }
      assert g.channels[i..][1..] == g.channels[i + 1..];
    }
    r := None;
  }

  // ---- Images ----

  /** Splits at the first `sep`; without one, the second part is empty. */
  function Cut(s: string, sep: char): (r: (string, string))
    ensures sep !in s ==> r == (s, "")
    ensures sep in s ==> sep !in r.0 && s == r.0 + [sep] + r.1
  {
    if s == "" then ("", "")
    else if s[0] == sep then ("", s[1..])
    else
      assert s == [s[0]] + s[1..];
      var rest := Cut(s[1..], sep);
      ([s[0]] + rest.0, rest.1)
  }

  datatype Image = Image(base: string, tag: string, digest: string)

  function ExplodeImage(image: string): Image {
    var (maybeTag, digest) := Cut(image, '@');
    var (base, tag) := Cut(maybeTag, ':');
    Image(base, tag, digest)
  }

  predicate PinnedImage(image: string) {
    ExplodeImage(image).digest != "" || ExplodeImage(image).tag != ""
  }

  // ---- The target ----

  datatype TargetError = NoBaseImage | NoDefaultChannel | NoSource | NilSource | UnknownVersion
                       | RollingWithoutState | NoUpdatePath

  datatype Target = Target(baseImage: string, version: Option<Version>, state: State,
                           err: Option<TargetError>)

  /** What a cluster asks for: image overrides, a pinned version, a channel and an engine. */
  datatype Request = Request(operatorImage: string, clusterImage: string, image: string,
                             version: Id, channel: string, engine: string)

  function FirstNonEmpty(a: string, b: string, c: string): string {
    if a != "" then a else if b != "" then b else c
  }

  function BaseImage(rq: Request): string {
    FirstNonEmpty(ExplodeImage(rq.image).base, rq.clusterImage, rq.operatorImage)
  }

  /** The requested channel, else the current one, else the default of the engine. */
  function ChannelFor(g: Graph, rq: Request, cur: Option<Version>): Option<string> {
    if rq.channel != "" then Some(rq.channel)
    else if cur.Some? && cur.value.channel != "" then Some(cur.value.channel)
    else FindDefault(g.channels, rq.engine)
  }

  /** The release to run next, as a decision table. */
  ghost function Resolve(g: Graph, rq: Request, cur: Option<Version>, rolling: bool): Target {
    var image := ExplodeImage(rq.image);
    var base := BaseImage(rq);
    var channel := ChannelFor(g, rq, cur);
    if PinnedImage(rq.image) then
      Target(image.base, None, NO_STATE.(tag := image.tag, digest := image.digest), None)
    else if base == "" then
      Target("", None, NO_STATE, Some(NoBaseImage))
    else if channel.None? then
      Target(base, None, NO_STATE, Some(NoDefaultChannel))
    else if channel.value == "" then
      // a default channel without a name leaves the source unset
      Target(base, None, NO_STATE,
             Some(if cur.None? && rq.version == "" && rolling then RollingWithoutState else NilSource))
    else
      var source := SourceFor(g, rq.engine, channel.value);
      if source.None? then Target(base, None, NO_STATE, Some(NoSource))
      else Choose(g, rq, source.value, channel.value, cur, rolling, base)
  }

  /** The choice within the source of the wanted channel. */
  ghost function Choose(g: Graph, rq: Request, s: Source, channel: string, cur: Option<Version>,
                        rolling: bool, base: string): Target
    requires s.Valid()
  {
    if cur.Some? && cur.value.name != "" then
      Move(g, rq, s, cur.value.(channel := channel), cur.value, rolling, base)
    else if rq.version != "" then
      Install(s, rq.version, cur, channel, base)
    else
      Start(g, rq, s, cur, channel, rolling, base)
  }

  function Marked(v: Version, name: Id): Version {
    v.(name := name, attributes := [Migration])
  }

  /** An explicit version with nothing installed yet: install that release. */
  function Install(s: Source, version: Id, cur: Option<Version>, channel: string, base: string): Target
    requires s.Valid()
  {
    var start := (if cur.Some? then cur.value else NO_VERSION).(channel := channel);
    var state := s.StateOf(version);
    if state.id == "" then Target(base, Some(start), NO_STATE, Some(UnknownVersion))
    else Target(base, Some(Marked(start, state.id)), state, None)
  }

  /** Nothing installed and no version asked for: install the head. */
  ghost function Start(g: Graph, rq: Request, s: Source, cur: Option<Version>, channel: string,
                       rolling: bool, base: string): Target
    requires s.Valid()
  {
    var start := (if cur.Some? then cur.value else NO_VERSION).(channel := channel);
    var head := s.StateOf(s.LatestVersion(""));
    var install := Target(base, Some(Marked(start, head.id)), head, None);
    if cur.None? then
      if rolling then Target(base, None, NO_STATE, Some(RollingWithoutState)) else install
    else if cur.value.channel == channel then
      Target(base, Some(start), s.StateOf(""), None)
    else if SourceFor(g, rq.engine, cur.value.channel).None? then
      Target(base, Some(start), NO_STATE, Some(NoSource))
    else if rolling then
      Target(base, None, NO_STATE, Some(RollingWithoutState))
    else
      install.(version := Some(Marked(cur.value, head.id)))
  }

  /** A release is installed: stay while rolling or when there is nowhere to go, else take one edge. */
  ghost function Move(g: Graph, rq: Request, s: Source, start: Version, cur: Version, rolling: bool,
                      base: string): Target
    requires s.Valid()
  {
    if cur.name == rq.version && cur.channel == start.channel then
      Target(base, Some(start), s.StateOf(cur.name), None)
    else if cur.name !in s.index then
      Stay(g, rq, s, start, cur, rolling, base)
    else if rolling then
      Target(base, Some(start), s.StateOf(cur.name), None)
    else if rq.version != "" && rq.version !in s.index then
      Target(base, Some(start), NO_STATE, Some(NoUpdatePath))
    else
      Follow(if rq.version == "" then s else s.Suffix(s.index[rq.version]),
             s.StateOf(cur.name), start, cur, base)
  }

  /** The release is not in the wanted channel: stay on it, in its own channel. */
  ghost function Stay(g: Graph, rq: Request, s: Source, start: Version, cur: Version, rolling: bool,
                      base: string): Target
    requires s.Valid()
  {
    var home := SourceFor(g, rq.engine, cur.channel);
    if home.None? then Target(base, Some(start), NO_STATE, Some(NoSource))
    else
      var here := home.value.StateOf(cur.name);
      var stuck := start.(channel := cur.channel, attributes := start.attributes + [NotInChannel]);
      if rolling && here.id == "" then Target(base, None, NO_STATE, Some(RollingWithoutState))
      else if rolling then Target(base, Some(stuck), here, None)
      else Follow(s, here, stuck, cur, base)
  }

  /** One greedy edge of `s`, marked when it is not the migration-free choice. */
  function Follow(s: Source, here: State, start: Version, cur: Version, base: string): Target
    requires s.Valid()
  {
    var next := s.NextVersion(cur.name);
    if next == "" then Target(base, Some(start), here, None)
    else
      var target := if next != s.NextDirect(cur.name) then start.(attributes := [Migration]) else start;
      Target(base, Some(target.(name := s.StateOf(next).id)), s.StateOf(next), None)
  }

  method ComputeTarget(g: Graph, rq: Request, cur: Option<Version>, rolling: bool) returns (r: Target)
    ensures r == Resolve(g, rq, cur, rolling)
  {
    var image := ExplodeImage(rq.image);
    if |image.digest| > 0 || |image.tag| > 0 {
      return Target(image.base, None, NO_STATE.(tag := image.tag, digest := image.digest), None);
    }
    var base := FirstNonEmpty(image.base, rq.clusterImage, rq.operatorImage);
    if base == "" {
      return Target(base, None, NO_STATE, Some(NoBaseImage));
    }
    var channel := rq.channel;
    if channel == "" && cur.Some? {
      channel := cur.value.channel;
    }
    if channel == "" {
      var fallback := DefaultChannelForDatastore(g, rq.engine);
      if fallback.None? {
        return Target(base, None, NO_STATE, Some(NoDefaultChannel));
      }
      channel := fallback.value;
    }
    if |channel| == 0 {
      // the source stays unset: its first use panics, unless the rolling check comes first
      return Target(base, None, NO_STATE,
                    Some(if cur.None? && rq.version == "" && rolling then RollingWithoutState else NilSource));
    }
    var found := SourceForChannel(g, rq.engine, channel);
    if found.None? {
      return Target(base, None, NO_STATE, Some(NoSource));
    }
    r := TargetInSource(g, rq, found.value, channel, cur, rolling, base);
  }

  /** The second half of `ComputeTarget`, once the channel has a source. */
  method TargetInSource(g: Graph, rq: Request, channelSource: Source, channel: string,
                        cur: Option<Version>, rolling: bool, base: string) returns (r: Target)
    requires channelSource.Valid()
    ensures r == Choose(g, rq, channelSource, channel, cur, rolling, base)
  {
    var source := channelSource;
    var target := (if cur.Some? then cur.value else NO_VERSION).(channel := channel);

    if |rq.version| > 0 && (cur.None? || |cur.value.name| == 0) {
      var state := source.StateOf(rq.version);
      if |state.id| == 0 {
        return Target(base, Some(target), NO_STATE, Some(UnknownVersion));
      }
      target := target.(name := state.id);
      target := target.(attributes := [Migration]);
      return Target(base, Some(target), state, None);
    }
    if cur.Some? && cur.value.name == rq.version && cur.value.channel == channel {
      return Target(base, Some(target), source.StateOf(cur.value.name), None);
    }

    var currentState := NO_STATE;
    var notInChannel := false;
    if cur.Some? {
      currentState := source.StateOf(cur.value.name);
      if |currentState.id| == 0 {
        var home := SourceForChannel(g, rq.engine, cur.value.channel);
        if home.None? {
          return Target(base, Some(target), NO_STATE, Some(NoSource));
        }
        currentState := home.value.StateOf(cur.value.name);
        target := target.(channel := cur.value.channel);
        target := target.(attributes := target.attributes + [NotInChannel]);
        notInChannel := true;
      }
    }
    if rolling {
      if |currentState.id| == 0 {
        return Target(base, None, NO_STATE, Some(RollingWithoutState));
      }
      return Target(base, Some(target), currentState, None);
    }
    if cur.Some? && |rq.version| > 0 && !notInChannel {
      var sub := source.Subgraph(rq.version);
      if sub.Err? {
        return Target(base, Some(target), NO_STATE, Some(NoUpdatePath));
      }
      source := sub.value;
    }
    var targetVersion: Id;
    if cur.Some? && |cur.value.name| > 0 {
      targetVersion := source.NextVersion(cur.value.name);
      if |targetVersion| == 0 {
        return Target(base, Some(target), currentState, None);
      }
      var direct := source.NextVersionWithoutMigrations(cur.value.name);
      if targetVersion != direct {
        target := target.(attributes := [Migration]);
      }
    } else {
      targetVersion := source.LatestVersion("");
      target := target.(attributes := [Migration]);
    }
    var state := source.StateOf(targetVersion);
    target := target.(name := state.id);
    r := Target(base, Some(target), state, None);
  }
}
