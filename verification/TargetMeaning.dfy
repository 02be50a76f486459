/** The choice of a target told from what is asked for: which image, which release, which error. */
module TargetMeaning {
  import opened Seqs
  import opened UpdateSource
  import opened UpdateGraph
  import opened Cluster

  // ---- Images ----

  lemma {:induction false} CutAt(a: string, sep: char, b: string)
    requires sep !in a
    ensures Cut(a + [sep] + b, sep) == (a, b)
  {
    if a != "" {
      assert (a + [sep] + b)[1..] == a[1..] + [sep] + b;
      CutAt(a[1..], sep, b);
      assert [a[0]] + a[1..] == a;
    } else {
      assert ("" + [sep] + b)[1..] == b;
    }
  }

  /** A name without separators. */
  predicate Plain(base: string) {
    ':' !in base && '@' !in base
  }

  /** An image is a name, perhaps a tag after a colon, and perhaps a digest after an at sign. */
  lemma ExplodeMeaning(base: string, tag: string, digest: string)
    requires Plain(base) && '@' !in tag
    ensures ExplodeImage(base) == Image(base, "", "")
    ensures ExplodeImage(base + [':'] + tag) == Image(base, tag, "")
    ensures ExplodeImage(base + ['@'] + digest) == Image(base, "", digest)
    ensures ExplodeImage(base + [':'] + tag + ['@'] + digest) == Image(base, tag, digest)
  {
    CutAt(base, ':', tag);
    CutAt(base, '@', digest);
    CutAt(base + [':'] + tag, '@', digest);
  }

  /** The image of a configuration comes apart into the base image and the digest of the release, or
      else its tag. */
  lemma ImageMeaning(t: Target)
    requires Plain(t.baseImage) && '@' !in t.state.tag && !NoImage(t)
    ensures ExplodeImage(ImageOf(t))
         == Image(t.baseImage, if t.state.digest != "" then "" else t.state.tag, t.state.digest)
  {
    ExplodeMeaning(t.baseImage, t.state.tag, t.state.digest);
    assert t.baseImage + "@" + t.state.digest == t.baseImage + ['@'] + t.state.digest;
    assert t.baseImage + ":" + t.state.tag == t.baseImage + [':'] + t.state.tag;
  }

  /** An image with a tag or a digest is run as it is, and no version is chosen. */
  lemma ForcedImage(g: Graph, rq: Request, cur: Option<Version>, rolling: bool, base: string, tag: string,
                    digest: string)
    requires Plain(base) && '@' !in tag && (tag != "" || digest != "")
    requires rq.image == Written(base, tag, digest)
    ensures Resolve(g, rq, cur, rolling) == Target(base, None, State("", tag, "", "", digest, false), None)
  {
    ExplodeMeaning(base, tag, digest);
    ForcedTarget(g, rq, cur, rolling);
  }

  function Written(base: string, tag: string, digest: string): string {
    if digest == "" then if tag == "" then base else base + [':'] + tag
    else if tag == "" then base + ['@'] + digest
    else base + [':'] + tag + ['@'] + digest
  }

  lemma ForcedTarget(g: Graph, rq: Request, cur: Option<Version>, rolling: bool)
    requires PinnedImage(rq.image)
    ensures var image := ExplodeImage(rq.image);
            Resolve(g, rq, cur, rolling)
            == Target(image.base, None, State("", image.tag, "", "", image.digest, false), None)
  {
  }

  /** The name in the image of the cluster goes before the base image of the cluster, and that before the
      one of the operator. */
  predicate BaseFrom(base: string, image: string, clusterImage: string, operatorImage: string) {
    if image != "" then base == image
    else if clusterImage != "" then base == clusterImage
    else base == operatorImage
  }

  lemma BaseMeaning(g: Graph, rq: Request, cur: Option<Version>, rolling: bool)
    requires !PinnedImage(rq.image)
    ensures BaseFrom(Resolve(g, rq, cur, rolling).baseImage, ExplodeImage(rq.image).base, rq.clusterImage,
                     rq.operatorImage)
  {
    var channel := ChannelFor(g, rq, cur);
    if channel.Some? && SourceFor(g, rq.engine, channel.value).Some? {
      ChosenBase(g, rq, SourceFor(g, rq.engine, channel.value).value, channel.value, cur, rolling, BaseImage(rq));
    }
    assert BaseFrom(BaseImage(rq), ExplodeImage(rq.image).base, rq.clusterImage, rq.operatorImage);
  }

  /** The choice within a channel keeps the base image, and has its own errors. */
  lemma ChosenBase(g: Graph, rq: Request, s: Source, channel: string, cur: Option<Version>, rolling: bool, base: string)
    requires s.Valid()
    ensures var t := Choose(g, rq, s, channel, cur, rolling, base);
            t.baseImage == base && t.err != Some(NoBaseImage) && t.err != Some(NoDefaultChannel)
  {
  }

  /** The image a valid configuration runs. */
  lemma ConfigImage(op: Operator, spec: ClusterSpec, st: Status) returns (base: string)
    requires ConfigFor(op, spec, st).Ok? && !PinnedImage(spec.image)
    ensures BaseFrom(base, ExplodeImage(spec.image).base, spec.baseImage, op.imageName)
    ensures var n := TargetFor(op, spec, st).state;
            ConfigFor(op, spec, st).value.migration.image
            == base + (if n.digest != "" then "@" + n.digest else ":" + n.tag)
  {
    var t := TargetFor(op, spec, st);
    base := t.baseImage;
    BaseMeaning(op.graph, RequestOf(op, spec), st.version, st.RolloutInProgress());
    BuiltImage(spec, t);
  }

  lemma BuiltImage(spec: ClusterSpec, t: Target)
    requires ConfigOf(spec, t).Ok?
    ensures ConfigOf(spec, t).value.migration.image
         == t.baseImage + (if t.state.digest != "" then "@" + t.state.digest else ":" + t.state.tag)
  {
  }

  // ---- Errors before the channel is known ----

  predicate NoBase(rq: Request) {
    ExplodeImage(rq.image).base == "" && rq.clusterImage == "" && rq.operatorImage == ""
  }

  predicate NoChannelAsked(rq: Request, cur: Option<Version>) {
    rq.channel == "" && (cur.None? || cur.value.channel == "")
  }

  lemma EarlyErrors(g: Graph, rq: Request, cur: Option<Version>, rolling: bool)
    ensures var err := Resolve(g, rq, cur, rolling).err;
            && (err == Some(NoBaseImage) <==> !PinnedImage(rq.image) && NoBase(rq))
            && (err == Some(NoDefaultChannel) <==>
                  && !PinnedImage(rq.image) && !NoBase(rq) && NoChannelAsked(rq, cur)
                  && forall c :: c in g.channels ==> !DefaultFor(c, rq.engine))
            && (PinnedImage(rq.image) ==> err == None)
  {
    var channel := ChannelFor(g, rq, cur);
    if channel.Some? && SourceFor(g, rq.engine, channel.value).Some? {
      ChosenBase(g, rq, SourceFor(g, rq.engine, channel.value).value, channel.value, cur, rolling, BaseImage(rq));
    }
  }

  /** A default channel without a name has no source to choose from. */
  lemma NamelessDefault(g: Graph, rq: Request, cur: Option<Version>, rolling: bool, i: nat)
    requires !PinnedImage(rq.image) && !NoBase(rq) && NoChannelAsked(rq, cur)
    requires FirstDefault(g.channels, rq.engine, i) && g.channels[i].name == ""
    ensures Resolve(g, rq, cur, rolling).err
         == Some(if cur == None && rq.version == "" && rolling then RollingWithoutState else NilSource)
  {
    FindDefaultMeaning(g.channels, rq.engine, i);
  }

  // ---- Within a channel ----

  /** The channel that is asked for, or the recorded one, has source `s`. */
  ghost predicate Asked(g: Graph, rq: Request, cur: Option<Version>, channel: string, s: Source) {
    && !PinnedImage(rq.image) && !NoBase(rq) && channel != ""
    && (if rq.channel != "" then channel == rq.channel
        else if cur.Some? && cur.value.channel != "" then channel == cur.value.channel
        else exists i: nat :: FirstDefault(g.channels, rq.engine, i) && g.channels[i].name == channel)
    && SourceFor(g, rq.engine, channel) == Some(s)
  }

  lemma AskedTarget(g: Graph, rq: Request, cur: Option<Version>, rolling: bool, channel: string, s: Source)
    requires Asked(g, rq, cur, channel, s)
    ensures Resolve(g, rq, cur, rolling) == Choose(g, rq, s, channel, cur, rolling, BaseImage(rq))
  {
    AskedChannel(g, rq, cur, channel, s);
  }

  lemma AskedChannel(g: Graph, rq: Request, cur: Option<Version>, channel: string, s: Source)
    requires Asked(g, rq, cur, channel, s)
    ensures ChannelFor(g, rq, cur) == Some(channel)
  {
    if NoChannelAsked(rq, cur) {
      var i: nat :| FirstDefault(g.channels, rq.engine, i) && g.channels[i].name == channel;
      FindDefaultMeaning(g.channels, rq.engine, i);
    }
  }

  /** Nothing is installed: the release asked for, or else the head, is to be installed with its
      migrations; the only error is a release the channel does not have. */
  lemma InstallMeaning(g: Graph, rq: Request, channel: string, s: Source)
    requires Asked(g, rq, None, channel, s) && "" !in s.index
    ensures var t, want := Resolve(g, rq, None, false), if rq.version != "" then rq.version else s.nodes[0].id;
            if want in s.index then
              && t.err == None && t.state == s.nodes[s.index[want]]
              && t.version == Some(Version(want, channel, [Migration], []))
            else t.err == Some(UnknownVersion)
  {
    AskedTarget(g, rq, None, false, channel, s);
    assert s.IdAt(0) in s.index;
    if rq.version in s.index {
      assert s.IdAt(s.index[rq.version]) == rq.version;
    }
  }

  /** Nothing is installed, but a rollout is said to be under way: without a release asked for there is
      nothing to go by. */
  lemma RollingWithNothing(g: Graph, rq: Request, channel: string, s: Source)
    requires Asked(g, rq, None, channel, s) && "" !in s.index && rq.version == ""
    ensures Resolve(g, rq, None, true).err == Some(RollingWithoutState)
  {
    AskedTarget(g, rq, None, true, channel, s);
  }

  /** A version without a name is recorded: a release asked for is installed as if there were none. */
  lemma NamelessInstall(g: Graph, rq: Request, v: Version, rolling: bool, channel: string, s: Source)
    requires Asked(g, rq, Some(v), channel, s) && "" !in s.index && v.name == "" && rq.version != ""
    ensures var t := Resolve(g, rq, Some(v), rolling);
            if rq.version in s.index then
              && t.err == None && t.state == s.nodes[s.index[rq.version]]
              && t.version == Some(Version(rq.version, channel, [Migration], v.description))
            else t.err == Some(UnknownVersion)
  {
    AskedTarget(g, rq, Some(v), rolling, channel, s);
    if rq.version in s.index {
      assert s.IdAt(s.index[rq.version]) == rq.version;
    }
  }

  /** Without a release asked for, such a version is kept within its channel, and no release with it; in
      another channel the head is to be installed, under the name of the old channel. */
  lemma NamelessMeaning(g: Graph, rq: Request, v: Version, rolling: bool, channel: string, s: Source)
    requires Asked(g, rq, Some(v), channel, s) && "" !in s.index && v.name == "" && rq.version == ""
    ensures var t, home := Resolve(g, rq, Some(v), rolling), SourceFor(g, rq.engine, v.channel);
            if v.channel == channel then t.err == None && t.version == Some(v) && t.state == NO_STATE
            else if home.None? then t.err == Some(NoSource)
            else if rolling then t.err == Some(RollingWithoutState)
            else
              && t.err == None && t.state == s.nodes[0]
              && t.version == Some(v.(name := s.nodes[0].id, attributes := [Migration]))
  {
    AskedTarget(g, rq, Some(v), rolling, channel, s);
    assert s.IdAt(0) in s.index;
  }

  /** A release of the channel is installed: the only error is a release asked for that the channel does
      not have, and that only when nothing rolls out. */
  lemma InstalledErrors(g: Graph, rq: Request, v: Version, rolling: bool, channel: string, s: Source)
    requires Asked(g, rq, Some(v), channel, s) && "" !in s.index && v.name in s.index
    ensures var t := Resolve(g, rq, Some(v), rolling);
            && (t.err == Some(NoUpdatePath) <==> !rolling && rq.version != "" && rq.version !in s.index)
            && (t.err != None ==> t.err == Some(NoUpdatePath))
            && (rolling || (v.name == rq.version && v.channel == channel) ==> t.state == s.nodes[s.index[v.name]])
  {
    AskedTarget(g, rq, Some(v), rolling, channel, s);
    MoveErrors(g, rq, s, v.(channel := channel), v, rolling, BaseImage(rq));
  }

  lemma MoveErrors(g: Graph, rq: Request, s: Source, start: Version, v: Version, rolling: bool, base: string)
    requires s.Valid() && "" !in s.index && v.name in s.index
    ensures var t := Move(g, rq, s, start, v, rolling, base);
            && (t.err == Some(NoUpdatePath) <==> !rolling && rq.version != "" && rq.version !in s.index)
            && (t.err != None ==> t.err == Some(NoUpdatePath))
            && (rolling || (v.name == rq.version && v.channel == start.channel) ==>
                  t.state == s.nodes[s.index[v.name]])
  {
  }

  /** A release is installed that the channel does not have: its own channel has to know it while it
      rolls out, and has to be there in any case, unless it is the very release asked for in it. */
  lemma StrangerErrors(g: Graph, rq: Request, v: Version, rolling: bool, channel: string, s: Source)
    requires Asked(g, rq, Some(v), channel, s) && v.name != "" && v.name !in s.index
    requires v.name != rq.version || v.channel != channel
    ensures var t, home := Resolve(g, rq, Some(v), rolling), SourceFor(g, rq.engine, v.channel);
            && (t.err == Some(NoSource) <==> home.None?)
            && (t.err == Some(RollingWithoutState) <==> home.Some? && rolling && v.name !in home.value.index)
            && (t.err != None ==> t.err == Some(NoSource) || t.err == Some(RollingWithoutState))
  {
    AskedTarget(g, rq, Some(v), rolling, channel, s);
    StayErrors(g, rq, s, v.(channel := channel), v, rolling, BaseImage(rq));
  }

  lemma StayErrors(g: Graph, rq: Request, s: Source, start: Version, v: Version, rolling: bool, base: string)
    requires s.Valid() && v.name != ""
    ensures var t, home := Stay(g, rq, s, start, v, rolling, base), SourceFor(g, rq.engine, v.channel);
            && (t.err == Some(NoSource) <==> home.None?)
            && (t.err == Some(RollingWithoutState) <==> home.Some? && rolling && v.name !in home.value.index)
            && (t.err != None ==> t.err == Some(NoSource) || t.err == Some(RollingWithoutState))
  {
    var home := SourceFor(g, rq.engine, v.channel);
    if home.Some? && v.name in home.value.index {
      assert home.value.IdAt(home.value.index[v.name]) == v.name;
    }
  }

  /** A channel without a source is an error. */
  lemma NoSourceMeaning(g: Graph, rq: Request, cur: Option<Version>, rolling: bool, channel: string)
    requires !PinnedImage(rq.image) && !NoBase(rq) && channel != "" && ChannelFor(g, rq, cur) == Some(channel)
    requires SourceFor(g, rq.engine, channel).None?
    ensures Resolve(g, rq, cur, rolling).err == Some(NoSource)
  {
  }
}
