/** The patch-metadata cache: concurrent lookups share one fetch for each group-version. */
module SchemaCache {
  import opened Seqs

  datatype GroupVersion = GroupVersion(group: string, version: string)

  datatype GroupVersionKind = GroupVersionKind(group: string, version: string, kind: string) {
    function Gv(): GroupVersion {
      GroupVersion(group, version)
    }
  }

  /** The extension that says which kinds a schema describes: a list, a single object, or neither. */
  datatype Extension = AsList(maps: seq<map<string, string>>) | AsObject(m: map<string, string>) | Unusable

  datatype Schema = Schema(name: string, extension: Extension)

  datatype Fetched = FetchFailed | NoComponents | Components(schemas: map<string, Schema>)

  datatype Loaded = LoadFailed | Indexed(byGvk: map<GroupVersionKind, Schema>, all: map<string, Schema>)

  datatype Answer = Failure | NotDescribed | Found(schema: Schema, all: map<string, Schema>)

  // ---- Loading one group-version ----

  function Field(m: map<string, string>, key: string): string {
    if key in m then m[key] else ""
  }

  function KindOf(m: map<string, string>): GroupVersionKind {
    GroupVersionKind(Field(m, "group"), Field(m, "version"), Field(m, "kind"))
  }

  /** The maps the extension decodes to, whichever shape it has. */
  function KindMaps(e: Extension): seq<map<string, string>> {
    match e
    case AsList(maps) => maps
    case AsObject(m) => [m]
    case Unusable => []
  }

  /** A schema describes a kind if one of its maps names it; a map without a kind names none. */
  predicate Describes(s: Schema, gvk: GroupVersionKind) {
    exists m :: m in KindMaps(s.extension) && Field(m, "kind") != "" && KindOf(m) == gvk
  }

  predicate SomeDescribes(schemas: map<string, Schema>, gvk: GroupVersionKind) {
    exists name :: name in schemas && Describes(schemas[name], gvk)
  }

  /** The map names the kind; a missing group or version is empty, a missing kind names nothing. */
  predicate NamesKind(m: map<string, string>, gvk: GroupVersionKind) {
    && "kind" in m && m["kind"] == gvk.kind != ""
    && (if "group" in m then gvk.group == m["group"] else gvk.group == "")
    && (if "version" in m then gvk.version == m["version"] else gvk.version == "")
  }

  predicate ExtensionNames(e: Extension, gvk: GroupVersionKind) {
    match e
    case AsList(maps) => exists m :: m in maps && NamesKind(m, gvk)
    case AsObject(m) => NamesKind(m, gvk)
    case Unusable => false
  }

  lemma NamesMeaning(m: map<string, string>, gvk: GroupVersionKind)
    ensures NamesKind(m, gvk) <==> Field(m, "kind") != "" && KindOf(m) == gvk
  {
  }

  method DescribedGvks(e: Extension) returns (gvks: seq<GroupVersionKind>)
    ensures forall s: Schema, gvk :: s.extension == e ==> (gvk in gvks <==> Describes(s, gvk))
    ensures forall gvk :: gvk in gvks <==> ExtensionNames(e, gvk)
  {
    gvks := [];
    var maps := KindMaps(e);
    for i := 0 to |maps|
      invariant forall gvk :: gvk in gvks <==>
                  exists m :: m in maps[..i] && Field(m, "kind") != "" && KindOf(m) == gvk
    {
      assert maps[..i + 1] == maps[..i] + [maps[i]];
      if Field(maps[i], "kind") == "" {
        continue;
      }
      gvks := gvks + [KindOf(maps[i])];
    }
    assert maps[..|maps|] == maps;
    forall gvk ensures ExtensionNames(e, gvk) <==> exists m :: m in maps && Field(m, "kind") != "" && KindOf(m) == gvk {
      forall m ensures NamesKind(m, gvk) <==> Field(m, "kind") != "" && KindOf(m) == gvk {
        NamesMeaning(m, gvk);
      }
    }
  }

  /** The index answers for a kind exactly when a scan of the schemas finds one describing it,
      and its answer is such a schema. */
  ghost predicate Indexes(byGvk: map<GroupVersionKind, Schema>, schemas: map<string, Schema>) {
    && (forall gvk :: gvk in byGvk <==> SomeDescribes(schemas, gvk))
    && (forall gvk :: gvk in byGvk ==>
          exists name :: name in schemas && byGvk[gvk] == schemas[name] && Describes(schemas[name], gvk))
  }

  ghost predicate Loads(f: Fetched, l: Loaded) {
    match f
    case FetchFailed => l == LoadFailed
    case NoComponents => l == LoadFailed
    case Components(schemas) => l.Indexed? && l.all == schemas && Indexes(l.byGvk, schemas)
  }

  method Load(f: Fetched) returns (l: Loaded)
    ensures Loads(f, l)
  {
    if f.FetchFailed? || f.NoComponents? {
      return LoadFailed;
    }
    var byGvk: map<GroupVersionKind, Schema> := map[];
    var todo := f.schemas.Keys;
    while todo != {}
      invariant todo <= f.schemas.Keys
      invariant Indexes(byGvk, f.schemas - todo)
      decreases |todo|
    {
      var name :| name in todo;
      var s := f.schemas[name];
      var gvks := DescribedGvks(s.extension);
      var next := IndexAll(byGvk, gvks, s);
      IndexGrows(byGvk, next, f.schemas, todo, name, gvks);
      byGvk := next;
      todo := todo - {name};
    }
    assert f.schemas - todo == f.schemas;
    l := Indexed(byGvk, f.schemas);
  }

  method IndexAll(byGvk: map<GroupVersionKind, Schema>, gvks: seq<GroupVersionKind>, s: Schema)
    returns (r: map<GroupVersionKind, Schema>)
    ensures forall gvk :: gvk in r <==> gvk in byGvk || gvk in gvks
    ensures forall gvk :: gvk in r ==> r[gvk] == if gvk in gvks then s else byGvk[gvk]
  {
    r := byGvk;
    for i := 0 to |gvks|
      invariant forall gvk :: gvk in r <==> gvk in byGvk || gvk in gvks[..i]
      invariant forall gvk :: gvk in r ==> r[gvk] == if gvk in gvks[..i] then s else byGvk[gvk]
    {
      r := r[gvks[i] := s];
    }
  }

  lemma IndexGrows(byGvk: map<GroupVersionKind, Schema>, next: map<GroupVersionKind, Schema>,
                   schemas: map<string, Schema>, todo: set<string>, name: string, gvks: seq<GroupVersionKind>)
    requires name in todo && name in schemas && Indexes(byGvk, schemas - todo)
    requires forall gvk :: gvk in gvks <==> Describes(schemas[name], gvk)
    requires forall gvk :: gvk in next <==> gvk in byGvk || gvk in gvks
    requires forall gvk :: gvk in next ==> next[gvk] == if gvk in gvks then schemas[name] else byGvk[gvk]
    ensures Indexes(next, schemas - (todo - {name}))
  {
    var before, after := schemas - todo, schemas - (todo - {name});
    forall gvk ensures gvk in next <==> SomeDescribes(after, gvk) {
      if gvk in gvks {
        assert name in after && Describes(after[name], gvk);
      }
      if gvk in byGvk {
        var n :| n in before && Describes(before[n], gvk);
        assert n in after && after[n] == before[n];
      }
      if n :| n in after && Describes(after[n], gvk) {
        assert n == name || (n in before && before[n] == after[n]);
      }
    }
    forall gvk | gvk in next
      ensures exists n :: n in after && next[gvk] == after[n] && Describes(after[n], gvk)
    {
      if gvk in gvks {
        assert name in after && next[gvk] == after[name] && Describes(after[name], gvk);
      } else {
        var n :| n in before && byGvk[gvk] == before[n] && Describes(before[n], gvk);
        assert n in after && after[n] == before[n];
      }
    }
  }

  function AnswerFor(gvk: GroupVersionKind, l: Loaded): Answer {
    if l.LoadFailed? then Failure
    else if gvk in l.byGvk then Found(l.byGvk[gvk], l.all)
    else NotDescribed
  }

  // ---- Interleaved lookups ----

  type Tid = nat

  datatype Once = Idle | Running(t: Tid) | Done

  datatype Entry = Entry(gv: GroupVersion, once: Once, loaded: Option<Loaded>)

  /** Where a lookup stands. */
  datatype Pc =
    | Begun
    | Locked
    | Missed
    | Holding(e: nat)
    | Ready(e: nat)
    | Loading(e: nat)
    | Received(e: nat, f: Fetched)
    | Stored(e: nat)
    | Joined(e: nat)
    | Returned(answer: Answer)

  datatype Lookup = Lookup(gvk: GroupVersionKind, pc: Pc)

  datatype Fetch = Fetch(gv: GroupVersion, response: Fetched)

  datatype World = World(mutex: Option<Tid>, cached: map<GroupVersion, nat>, entries: seq<Entry>,
                         lookups: map<Tid, Lookup>, fetches: seq<Fetch>)

  datatype Action =
    | Spawn(t: Tid, gvk: GroupVersionKind)
    | Lock(t: Tid)
    | Find(t: Tid)
    | Insert(t: Tid)
    | Unlock(t: Tid)
    | EnterOnce(t: Tid)
    | CallServer(t: Tid, f: Fetched)
    | StoreResult(t: Tid, l: Loaded)
    | LeaveOnce(t: Tid)
    | PassOnce(t: Tid)
    | Return(t: Tid)

  const EMPTY := World(None, map[], [], map[], [])

  ghost predicate Enabled(w: World, a: Action) {
    if a.Spawn? then a.t !in w.lookups
    else
      a.t in w.lookups &&
      var pc := w.lookups[a.t].pc;
      match a
      case Spawn(_, _) => false
      case Lock(_) => pc.Begun? && w.mutex.None?
      case Find(_) => pc.Locked?
      case Insert(_) => pc.Missed?
      case Unlock(_) => pc.Holding?
      case EnterOnce(_) => pc.Ready? && pc.e < |w.entries| && w.entries[pc.e].once.Idle?
      case CallServer(_, _) => pc.Loading?
      case StoreResult(_, l) => pc.Received? && pc.e < |w.entries| && Loads(pc.f, l)
      case LeaveOnce(_) => pc.Stored? && pc.e < |w.entries|
      case PassOnce(_) => pc.Ready? && pc.e < |w.entries| && w.entries[pc.e].once.Done?
      case Return(_) => pc.Joined? && pc.e < |w.entries|
  }

  function At(w: World, t: Tid, pc: Pc): World
    requires t in w.lookups
  {
    w.(lookups := w.lookups[t := w.lookups[t].(pc := pc)])
  }

  ghost function Do(w: World, a: Action): World
    requires Enabled(w, a)
  {
    match a
    case Spawn(t, gvk) => w.(lookups := w.lookups[t := Lookup(gvk, Begun)])
    case Lock(t) => At(w, t, Locked).(mutex := Some(t))
    case Find(t) =>
      var gv := w.lookups[t].gvk.Gv();
      At(w, t, if gv in w.cached then Holding(w.cached[gv]) else Missed)
    case Insert(t) =>
      var gv := w.lookups[t].gvk.Gv();
      At(w, t, Holding(|w.entries|)).(cached := w.cached[gv := |w.entries|],
                                      entries := w.entries + [Entry(gv, Idle, None)])
    case Unlock(t) => At(w, t, Ready(w.lookups[t].pc.e)).(mutex := None)
    case EnterOnce(t) =>
      var e := w.lookups[t].pc.e;
      At(w, t, Loading(e)).(entries := w.entries[e := w.entries[e].(once := Running(t))])
    case CallServer(t, f) =>
      var l := w.lookups[t];
      At(w, t, Received(l.pc.e, f)).(fetches := w.fetches + [Fetch(l.gvk.Gv(), f)])
    case StoreResult(t, l) =>
      var e := w.lookups[t].pc.e;
      At(w, t, Stored(e)).(entries := w.entries[e := w.entries[e].(loaded := Some(l))])
    case LeaveOnce(t) =>
      var e := w.lookups[t].pc.e;
      At(w, t, Joined(e)).(entries := w.entries[e := w.entries[e].(once := Done)])
    case PassOnce(t) => At(w, t, Joined(w.lookups[t].pc.e))
    case Return(t) =>
      var l := w.lookups[t];
      At(w, t, Returned(match w.entries[l.pc.e].loaded
                        case Some(loaded) => AnswerFor(l.gvk, loaded)
                        case None => NotDescribed))
  }

  /** Some interleaving of lookups leads to `w`. */
  ghost predicate Reachable(w: World, actions: seq<Action>)
    decreases |actions|
  {
    if actions == [] then w == EMPTY
    else exists before :: Reachable(before, actions[..|actions| - 1]) &&
                          Enabled(before, Last(actions)) && w == Do(before, Last(actions))
  }

  // ---- The invariant ----

  /** The entry a lookup has in hand. */
  function EntryOf(pc: Pc): Option<nat> {
    if pc.Begun? || pc.Locked? || pc.Missed? || pc.Returned? then None else Some(pc.e)
  }

  predicate InsideLock(pc: Pc) {
    pc.Locked? || pc.Missed? || pc.Holding?
  }

  predicate InsideOnce(pc: Pc) {
    pc.Loading? || pc.Received? || pc.Stored?
  }

  /** The responses received for a group-version. */
  function FetchesOf(fs: seq<Fetch>, gv: GroupVersion): seq<Fetched> {
    if fs == [] then []
    else FetchesOf(fs[..|fs| - 1], gv) + (if Last(fs).gv == gv then [Last(fs).response] else [])
  }

  lemma FetchesGrow(fs: seq<Fetch>, x: Fetch, gv: GroupVersion)
    ensures FetchesOf(fs + [x], gv) == FetchesOf(fs, gv) + (if x.gv == gv then [x.response] else [])
  {
    assert (fs + [x])[..|fs|] == fs;
  }

  ghost predicate OnlyFetch(w: World, gv: GroupVersion, f: Fetched) {
    FetchesOf(w.fetches, gv) == [f]
  }

  ghost predicate NotFetched(w: World, gv: GroupVersion) {
    FetchesOf(w.fetches, gv) == []
  }

  /** One entry for each group-version, found through the map. */
  ghost predicate EntriesCached(w: World) {
    && (forall gv :: gv in w.cached ==> w.cached[gv] < |w.entries| && w.entries[w.cached[gv]].gv == gv)
    && (forall e :: 0 <= e < |w.entries| ==> w.entries[e].gv in w.cached && w.cached[w.entries[e].gv] == e)
    && (forall gv :: gv !in w.cached ==> FetchesOf(w.fetches, gv) == [])
  }

  ghost predicate LookupOk(w: World, t: Tid)
    requires t in w.lookups
  {
    var l := w.lookups[t];
    && (InsideLock(l.pc) <==> w.mutex == Some(t))
    && (l.pc.Missed? ==> l.gvk.Gv() !in w.cached)
    && (EntryOf(l.pc).Some? ==> l.gvk.Gv() in w.cached && w.cached[l.gvk.Gv()] == EntryOf(l.pc).value)
    && (InsideOnce(l.pc) ==> l.pc.e < |w.entries| && w.entries[l.pc.e].once == Running(t))
    && (l.pc.Joined? ==> l.pc.e < |w.entries| && w.entries[l.pc.e].once.Done?)
    && (l.pc.Loading? ==> NotFetched(w, l.gvk.Gv()))
    && (l.pc.Received? ==> OnlyFetch(w, l.gvk.Gv(), l.pc.f))
    && (l.pc.Stored? ==> LoadedFromFetch(w, l.pc.e))
    && (l.pc.Returned? ==> AnsweredFromFetch(w, l.gvk, l.pc.answer))
  }

  ghost predicate LoadedFromFetch(w: World, e: nat) {
    && e < |w.entries| && w.entries[e].loaded.Some?
    && |FetchesOf(w.fetches, w.entries[e].gv)| == 1
    && Loads(FetchesOf(w.fetches, w.entries[e].gv)[0], w.entries[e].loaded.value)
  }

  /** The answer is that of an index of the one response received for the group-version. */
  ghost predicate AnsweredFromFetch(w: World, gvk: GroupVersionKind, a: Answer) {
    && gvk.Gv() in w.cached && w.cached[gvk.Gv()] < |w.entries|
    && var e := w.cached[gvk.Gv()];
       && w.entries[e].once.Done? && LoadedFromFetch(w, e)
       && a == AnswerFor(gvk, w.entries[e].loaded.value)
  }

  ghost predicate EntryOk(w: World, e: nat)
    requires e < |w.entries|
  {
    match w.entries[e].once
    case Idle => NotFetched(w, w.entries[e].gv) && w.entries[e].loaded.None?
    case Running(t) => t in w.lookups && InsideOnce(w.lookups[t].pc) && w.lookups[t].pc.e == e
    case Done => LoadedFromFetch(w, e)
  }

  ghost predicate Inv(w: World) {
    && EntriesCached(w)
    && (w.mutex.Some? ==> w.mutex.value in w.lookups)
    && (forall t :: t in w.lookups ==> LookupOk(w, t))
    && (forall e :: 0 <= e < |w.entries| ==> EntryOk(w, e))
  }

  /** What one action may do to the shared state, as the other lookups see it. */
  ghost predicate Grows(w: World, v: World) {
    && (forall gv :: gv in w.cached ==> gv in v.cached && v.cached[gv] == w.cached[gv])
    && |w.entries| <= |v.entries|
    && (forall e :: 0 <= e < |w.entries| ==> v.entries[e].gv == w.entries[e].gv)
    && (forall e :: 0 <= e < |w.entries| && w.entries[e].once.Done? ==> v.entries[e] == w.entries[e])
    && w.fetches <= v.fetches
  }

  /** No action replaces a map entry, touches a finished entry or forgets a fetch. */
  lemma EntriesAreNeverReplaced(w: World, actions: seq<Action>, a: Action)
    requires Reachable(w, actions) && Enabled(w, a)
    ensures Grows(w, Do(w, a))
  {
    ReachableInv(w, actions);
    if a.StoreResult? || a.LeaveOnce? {
      assert LookupOk(w, a.t);
    }
    if a.Insert? {
      assert LookupOk(w, a.t);
    }
  }

  /** Actions around the mutex that leave the map alone. */
  lemma LockKeepsInv(w: World, a: Action)
    requires Inv(w) && Enabled(w, a) && (a.Spawn? || a.Lock? || a.Find? || a.Unlock?)
    ensures Inv(Do(w, a))
  {
    var v := Do(w, a);
    if a.t in w.lookups {
      assert LookupOk(w, a.t);
    }
    forall t | t in v.lookups ensures LookupOk(v, t) {
      if t in w.lookups {
        assert LookupOk(w, t);
      }
    }
    forall e | 0 <= e < |v.entries| ensures EntryOk(v, e) {
      assert EntryOk(w, e);
    }
  }

  lemma PassKeepsInv(w: World, a: Action)
    requires Inv(w) && Enabled(w, a) && a.PassOnce?
    ensures Inv(Do(w, a))
  {
    var v := Do(w, a);
    assert LookupOk(w, a.t) && EntryOk(w, w.lookups[a.t].pc.e);
    forall t | t in v.lookups ensures LookupOk(v, t) {
      assert LookupOk(w, t);
    }
    forall e | 0 <= e < |v.entries| ensures EntryOk(v, e) {
      assert EntryOk(w, e);
    }
  }

  lemma ReturnKeepsInv(w: World, a: Action)
    requires Inv(w) && Enabled(w, a) && a.Return?
    ensures Inv(Do(w, a))
  {
    var v := Do(w, a);
    assert LookupOk(w, a.t) && EntryOk(w, w.lookups[a.t].pc.e);
    forall t | t in v.lookups ensures LookupOk(v, t) {
      assert LookupOk(w, t);
    }
    forall e | 0 <= e < |v.entries| ensures EntryOk(v, e) {
      assert EntryOk(w, e);
    }
  }

  lemma InsertKeepsInv(w: World, a: Action)
    requires Inv(w) && Enabled(w, a) && a.Insert?
    ensures Inv(Do(w, a))
  {
    var v := Do(w, a);
    assert LookupOk(w, a.t);
    forall t | t in v.lookups ensures LookupOk(v, t) {
      assert LookupOk(w, t);
    }
    forall e | 0 <= e < |v.entries| ensures EntryOk(v, e) {
      if e < |w.entries| {
        assert EntryOk(w, e);
      }
    }
  }

  lemma EnterKeepsInv(w: World, a: Action)
    requires Inv(w) && Enabled(w, a) && a.EnterOnce?
    ensures Inv(Do(w, a))
  {
    var v := Do(w, a);
    assert LookupOk(w, a.t) && EntryOk(w, w.lookups[a.t].pc.e);
    forall t | t in v.lookups ensures LookupOk(v, t) {
      assert LookupOk(w, t);
    }
    forall e | 0 <= e < |v.entries| ensures EntryOk(v, e) {
      assert EntryOk(w, e);
    }
  }

  lemma CallKeepsInv(w: World, a: Action)
    requires Inv(w) && Enabled(w, a) && a.CallServer?
    ensures Inv(Do(w, a))
  {
    var v := Do(w, a);
    assert LookupOk(w, a.t);
    forall t | t in v.lookups ensures LookupOk(v, t) {
      CallKeepsLookup(w, a, t);
    }
    forall e | 0 <= e < |v.entries| ensures EntryOk(v, e) {
      CallKeepsEntry(w, a, e);
    }
    forall gv | gv !in v.cached ensures FetchesOf(v.fetches, gv) == [] {
      FetchesGrow(w.fetches, Last(v.fetches), gv);
    }
  }

  lemma CallKeepsLookup(w: World, a: Action, t: Tid)
    requires Inv(w) && Enabled(w, a) && a.CallServer? && t in w.lookups
    ensures LookupOk(Do(w, a), t)
  {
    var v := Do(w, a);
    assert LookupOk(w, a.t) && LookupOk(w, t);
    FetchesGrow(w.fetches, Last(v.fetches), w.lookups[t].gvk.Gv());
  }

  lemma CallKeepsEntry(w: World, a: Action, e: nat)
    requires Inv(w) && Enabled(w, a) && a.CallServer? && e < |w.entries|
    ensures EntryOk(Do(w, a), e)
  {
    var v := Do(w, a);
    assert LookupOk(w, a.t) && EntryOk(w, e);
    FetchesGrow(w.fetches, Last(v.fetches), w.entries[e].gv);
  }

  lemma StoreKeepsInv(w: World, a: Action)
    requires Inv(w) && Enabled(w, a) && a.StoreResult?
    ensures Inv(Do(w, a))
  {
    var v := Do(w, a);
    assert LookupOk(w, a.t);
    forall t | t in v.lookups ensures LookupOk(v, t) {
      assert LookupOk(w, t);
    }
    forall e | 0 <= e < |v.entries| ensures EntryOk(v, e) {
      assert EntryOk(w, e);
    }
  }

  lemma LeaveKeepsInv(w: World, a: Action)
    requires Inv(w) && Enabled(w, a) && a.LeaveOnce?
    ensures Inv(Do(w, a))
  {
    var v := Do(w, a);
    assert LookupOk(w, a.t);
    forall t | t in v.lookups ensures LookupOk(v, t) {
      assert LookupOk(w, t);
    }
    forall e | 0 <= e < |v.entries| ensures EntryOk(v, e) {
      assert EntryOk(w, e);
    }
  }

  /** The invariant holds after every interleaving. */
  lemma {:induction false} ReachableInv(w: World, actions: seq<Action>)
    requires Reachable(w, actions)
    ensures Inv(w)
    decreases |actions|
  {
    if actions != [] {
      var a := Last(actions);
      var before :| Reachable(before, actions[..|actions| - 1]) && Enabled(before, a) && w == Do(before, a);
      ReachableInv(before, actions[..|actions| - 1]);
      match a
      case Insert(_) => InsertKeepsInv(before, a);
      case EnterOnce(_) => EnterKeepsInv(before, a);
      case CallServer(_, _) => CallKeepsInv(before, a);
      case StoreResult(_, _) => StoreKeepsInv(before, a);
      case LeaveOnce(_) => LeaveKeepsInv(before, a);
      case PassOnce(_) => PassKeepsInv(before, a);
      case Return(_) => ReturnKeepsInv(before, a);
      case _ => LockKeepsInv(before, a);
    }
  }

  /** However the lookups interleave: each group-version is fetched at most once, failures included;
      a lookup reads an entry only after its load has finished; and every answer is the one a scan
      of the single response gives. */
  lemma OneFetchForAll(w: World, actions: seq<Action>, t: Tid)
    requires Reachable(w, actions)
    ensures forall gv :: |FetchesOf(w.fetches, gv)| <= 1
    ensures t in w.lookups && w.lookups[t].pc.Joined? ==>
              w.lookups[t].pc.e < |w.entries| && w.entries[w.lookups[t].pc.e].once.Done?
    ensures t in w.lookups && w.lookups[t].pc.Returned? ==> ScanAnswer(w, w.lookups[t])
  {
    ReachableInv(w, actions);
    forall gv ensures |FetchesOf(w.fetches, gv)| <= 1 {
      if gv in w.cached {
        var e := w.cached[gv];
        assert EntryOk(w, e);
        if w.entries[e].once.Running? {
          assert LookupOk(w, w.entries[e].once.t);
        }
      }
    }
    if t in w.lookups {
      assert LookupOk(w, t);
    }
  }

  /** A finished lookup fails exactly when the one fetch did, and finds a schema exactly when some
      fetched schema describes the kind; the schema it finds is one of those. */
  ghost predicate ScanAnswer(w: World, l: Lookup)
    requires l.pc.Returned?
  {
    var responses := FetchesOf(w.fetches, l.gvk.Gv());
    && |responses| == 1
    && match responses[0]
       case Components(schemas) =>
         && !l.pc.answer.Failure?
         && (l.pc.answer.Found? <==> SomeDescribes(schemas, l.gvk))
         && (l.pc.answer.Found? ==>
             && l.pc.answer.all == schemas
             && exists name :: name in schemas && l.pc.answer.schema == schemas[name] &&
                               Describes(schemas[name], l.gvk))
       case _ => l.pc.answer.Failure?
  }

  /** Two finished lookups of the same kind have the same answer. */
  lemma LookupsAgree(w: World, actions: seq<Action>, t: Tid, u: Tid)
    requires Reachable(w, actions) && t in w.lookups && u in w.lookups
    requires w.lookups[t].pc.Returned? && w.lookups[u].pc.Returned? && w.lookups[t].gvk == w.lookups[u].gvk
    ensures w.lookups[t].pc.answer == w.lookups[u].pc.answer
  {
    ReachableInv(w, actions);
    assert LookupOk(w, t) && LookupOk(w, u);
  }
}
