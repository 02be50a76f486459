/** A migration job is created at most once while its hash stays the target. */
module SingleMigration {
  import opened Seqs
  import opened UpdateGraph
  import opened Cluster
  import opened Controller
  import opened Cleanup
  import opened Runs

  // ---- What one plan asks for ----

  /** The operator rendered this deployment for the hash. */
  predicate RenderedFor(d: Deployment, h: Digest) {
    d.annotations.Some? && d.annotations.value.configHash.Some? && d.annotations.value.configHash.value.stamp == h
  }

  ghost predicate Obsolete(v: View, h: Digest, n: ObjectName) {
    exists j :: j in v.jobs && j.name == n && j.Requirement() != h
  }

  ghost predicate SpentFor(v: View, h: Digest, n: ObjectName) {
    exists j, d :: j in v.laterJobs && d in v.deployments &&
      j.name == n && RenderedFor(d, h) && j.annotations.Some? && j.Requirement() == d.Stamp()
  }

  /** What a write of a plan for the hash tells about the view it was made from. */
  ghost predicate Careful(v: View, h: Digest, x: Write) {
    match x
    case ApplyJob(g) => g == h && !HasStamp(v.deployments, h)
    case DeleteJob(n) => Obsolete(v, h, n) || SpentFor(v, h, n)
    case ApplyDeployment(spec) => spec.stamp == h
    case DeleteDeployment(n) => exists d, e :: d in v.deployments && e in v.deployments && d.name == n && d != e
    case _ => true
  }

  lemma {:induction false} RenderingMember(ds: seq<Deployment>, spec: DeploymentSpec, d: Deployment)
    requires d in Rendering(ds, spec)
    ensures d in ds && d.Renders(spec)
  {
    assert ds == ds[..|ds| - 1] + [Last(ds)];
    if d in Rendering(ds[..|ds| - 1], spec) {
      RenderingMember(ds[..|ds| - 1], spec, d);
    }
  }

  lemma RollIsCareful(v: View, c: Config, s: Status, d: Deployment, h: Digest, x: Write)
    requires d in v.deployments && RenderedFor(d, h) && x in Roll(v, c, s, d).writes
    ensures Careful(v, h, x)
  {
    OnlyPodsCleaned(v.laterJobs, v.jobPods);
    if x.DeleteJob? {
      SpentExactly(v.laterJobs, d, x.job);
      assert SpentFor(v, h, x.job);
    }
  }

  lemma DeployIsCareful(v: View, c: Config, s: Status, x: Write)
    requires !c.skipMigrations && x in Deploy(v, c, s).writes
    ensures Careful(v, c.Digest(), x)
  {
    var m := Migrated(s);
    var spec := RenderDeployment(c, v.secretHash);
    var matching := Rendering(v.deployments, spec);
    if |matching| == 1 {
      var d := matching[0];
      RenderingMember(v.deployments, spec, d);
      if x in Roll(v, c, m, d).writes {
        RollIsCareful(v, c, m, d, c.Digest(), x);
      } else if x in DeleteDeployments(ExtraDeployments(v.deployments, spec)) {
        ReplacedExactly(v.deployments, spec, x.deployment);
      }
    }
  }

  lemma CheckIsCareful(v: View, c: Config, s: Status, x: Write)
    requires !c.skipMigrations && x in CheckMigrations(v, c, s).writes
    ensures Careful(v, c.Digest(), x)
  {
    var h := c.Digest();
    if Exempt(c, s) || HasStamp(v.deployments, h) {
      DeployIsCareful(v, c, s, x);
    } else if JobFor(v.jobs, h).None? {
      if x.DeleteJob? {
        ExtraExactly(v.jobs, h, x.job);
      }
    } else if x in Deploy(v, c, s).writes {
      DeployIsCareful(v, c, s, x);
    }
  }

  /** The reconcile aims at the hash, with migrations on, or does not get that far. */
  ghost predicate AimsAt(config: Result<Config, seq<ConfigError>>, h: Digest) {
    config.Ok? ==> config.value.Digest() == h && !config.value.skipMigrations
  }

  lemma PlanIsCareful(v: View, s: Status, config: Result<Config, seq<ConfigError>>,
                      available: Option<seq<Version>>, h: Digest, x: Write)
    requires AimsAt(config, h) && x in ReconcileWith(v, s, config, available).writes
    ensures Careful(v, h, x)
  {
    if config.Ok? && available.Some? {
      var computed := ComputedStatus(s, v.cluster.generation, config.value, v.cluster.spec.warning, available.value);
      if x in CheckMigrations(v, config.value, Validated(s, computed)).writes {
        CheckIsCareful(v, config.value, Validated(s, computed), x);
      }
    }
  }

  // ---- Runs in which the hash stays the target ----

  /** A world, how far the deployment cache has got, and how often the job was created. */
  datatype Tracked = Tracked(w: World, seen: nat, created: nat)

  predicate Stamped(ds: Deployments, h: Digest) {
    OwnDeployment in ds && ds[OwnDeployment].annotations.Some? && ds[OwnDeployment].Stamp() == h
  }

  /** The list is the content of a snapshot. */
  ghost predicate Lists(list: seq<Deployment>, ds: Deployments) {
    forall d :: d in list <==> d.name in ds && ds[d.name] == d
  }

  /** Only the operator's own deployment, with its two annotations in agreement. */
  predicate OwnOnly(ds: Deployments) {
    && (forall n :: n in ds ==> n == OwnDeployment && ds[n].name == n)
    && (forall n :: n in ds && ds[n].annotations.Some? && ds[n].annotations.value.configHash.Some? ==>
          ds[n].Stamp() == ds[n].annotations.value.configHash.value.stamp)
  }

  /** A job is named after the hash it carries. */
  predicate Labelled(js: Jobs) {
    forall n :: n in js ==> js[n].name == n && (n.MigrateJob? ==> js[n].annotations == Some(n.h))
                            && (js[n].annotations.Some? ==> n == MigrateJob(js[n].annotations.value))
  }

  predicate SameAnnotations(before: Deployments, after: Deployments) {
    && before.Keys == after.Keys
    && forall n :: n in after && n in before ==>
         after[n].annotations == before[n].annotations && after[n].name == before[n].name
  }

  /** The events of such a run. The deployment cache only moves forward; nobody else creates or
      deletes the job or the deployment, or rewrites their annotations. */
  ghost predicate Admits(t: Tracked, e: Event, seen: nat, h: Digest)
    requires t.w.Valid()
  {
    && t.seen <= seen < |t.w.deployments|
    && (!e.Begin? ==> seen == t.seen)
    && match e
       case Begin(v) => Lists(v.deployments, t.w.deployments[seen])
       case JobsChange(js) => Labelled(js) && (MigrateJob(h) in js <==> MigrateJob(h) in Last(t.w.jobs))
       case DeploymentsChange(ds) => SameAnnotations(Last(t.w.deployments), ds)
       case _ => true
  }

  predicate Creates(w: World, e: Event, h: Digest)
    requires w.Valid()
  {
    e.Advance? && w.pending != [] && w.pending[0] == ApplyJob(h) && MigrateJob(h) !in Last(w.jobs)
  }

  ghost predicate Track(t: Tracked, e: Event, plan: seq<Write>, t': Tracked, h: Digest) {
    && Moves(t.w, e, plan, t'.w)
    && Admits(t, e, t'.seen, h)
    && t'.created == t.created + if Creates(t.w, e, h) then 1 else 0
  }

  /** In the part of the history the cache may still show, the stamp is never lost. */
  ghost predicate StampStays(ds: seq<Deployments>, seen: nat, h: Digest) {
    forall i, j :: seen <= i <= j < |ds| && Stamped(ds[i], h) ==> Stamped(ds[j], h)
  }

  ghost predicate PendingOnce(t: Tracked, h: Digest, x: Write)
    requires t.seen < |t.w.deployments|
  {
    match x
    case ApplyJob(g) => g == h && !Stamped(t.w.deployments[t.seen], h)
    case DeleteJob(n) => n == MigrateJob(h) ==> Stamped(t.w.deployments[t.seen], h)
    case ApplyDeployment(spec) => spec.stamp == h
    case DeleteDeployment(_) => false
    case _ => true
  }

  ghost predicate Once(t: Tracked, h: Digest) {
    && t.w.Valid() && t.seen < |t.w.deployments|
    && (forall i :: 0 <= i < |t.w.deployments| ==> OwnOnly(t.w.deployments[i]))
    && (forall i :: 0 <= i < |t.w.jobs| ==> Labelled(t.w.jobs[i]))
    && StampStays(t.w.deployments, t.seen, h)
    && (forall x :: x in t.w.pending ==> PendingOnce(t, h, x))
    && t.created <= 1
    && (t.created == 1 ==> MigrateJob(h) in Last(t.w.jobs) || Stamped(t.w.deployments[t.seen], h))
  }

  lemma CarefulIsOnce(t: Tracked, v: View, h: Digest, x: Write)
    requires t.seen < |t.w.deployments| && Lists(v.deployments, t.w.deployments[t.seen])
    requires OwnOnly(t.w.deployments[t.seen]) && Sees(t.w, v)
    requires forall i :: 0 <= i < |t.w.jobs| ==> Labelled(t.w.jobs[i])
    requires Careful(v, h, x)
    ensures PendingOnce(t, h, x)
  {
    var ds := t.w.deployments[t.seen];
    match x
    case DeleteJob(n) =>
      if n == MigrateJob(h) {
        SpentNotObsolete(t, v, h);
        var j, d :| j in v.laterJobs && d in v.deployments &&
                    j.name == n && RenderedFor(d, h) && j.annotations.Some? && j.Requirement() == d.Stamp();
        assert d.name in ds && ds[d.name] == d;
      }
    case _ =>
  }

  lemma SpentNotObsolete(t: Tracked, v: View, h: Digest)
    requires Sees(t.w, v) && forall i :: 0 <= i < |t.w.jobs| ==> Labelled(t.w.jobs[i])
    ensures !Obsolete(v, h, MigrateJob(h))
  {
    forall j | j in v.jobs && j.name == MigrateJob(h) ensures j.Requirement() == h {
      assert JobExisted(t.w, j);
      var i :| 0 <= i < |t.w.jobs| && j.name in t.w.jobs[i] && t.w.jobs[i][j.name] == j;
      assert Labelled(t.w.jobs[i]);
    }
  }

  /** A reconcile begins: its plan keeps to what its view shows. */
  lemma BeginKeepsOnce(t: Tracked, e: Event, plan: seq<Write>, t': Tracked, h: Digest)
    requires Once(t, h) && Track(t, e, plan, t', h) && e.Begin?
    requires forall x :: x in plan ==> Careful(e.v, h, x)
    ensures Once(t', h)
  {
    forall x | x in plan ensures PendingOnce(t', h, x) {
      CarefulIsOnce(t', e.v, h, x);
    }
    if Stamped(t.w.deployments[t.seen], h) {
      assert Stamped(t.w.deployments[t'.seen], h);
    }
  }

  lemma PendingStaysOnce(t: Tracked, t': Tracked, h: Digest)
    requires Once(t, h) && t'.seen == t.seen && t.w.deployments <= t'.w.deployments
    requires forall x :: x in t'.w.pending ==> x in t.w.pending
    ensures forall x :: x in t'.w.pending ==> PendingOnce(t', h, x)
  {
    assert t'.w.deployments[t'.seen] == t.w.deployments[t.seen];
    forall x | x in t'.w.pending ensures PendingOnce(t', h, x) {
      assert PendingOnce(t, h, x);
    }
  }

  /** The next write is carried out. */
  lemma AdvanceKeepsOnce(t: Tracked, e: Event, plan: seq<Write>, t': Tracked, h: Digest)
    requires Once(t, h) && Track(t, e, plan, t', h) && e.Advance?
    ensures Once(t', h)
  {
    var x := t.w.pending[0];
    assert PendingOnce(t, h, x);
    PendingStaysOnce(t, t', h);
    if x.ApplyDeployment? || x.DeleteDeployment? {
      DeploymentWriteKeepsOnce(t, e, plan, t', h);
    } else if x.ApplyJob? || x.DeleteJob? {
      JobWriteKeepsOnce(t, e, plan, t', h);
    }
  }

  lemma DeploymentWriteKeepsOnce(t: Tracked, e: Event, plan: seq<Write>, t': Tracked, h: Digest)
    requires Once(t, h) && Track(t, e, plan, t', h) && e.Advance?
    requires t.w.pending[0].ApplyDeployment? || t.w.pending[0].DeleteDeployment?
    requires forall x :: x in t'.w.pending ==> PendingOnce(t', h, x)
    ensures Once(t', h)
  {
    assert PendingOnce(t, h, t.w.pending[0]);
    assert OwnOnly(Last(t.w.deployments));
    var next := Last(t'.w.deployments);
    assert t'.w.deployments == t.w.deployments + [next];
    assert OwnOnly(next) && Stamped(next, h);
    StampAdded(t.w.deployments, next, t.seen, h);
  }

  lemma JobWriteKeepsOnce(t: Tracked, e: Event, plan: seq<Write>, t': Tracked, h: Digest)
    requires Once(t, h) && Track(t, e, plan, t', h) && e.Advance?
    requires t.w.pending[0].ApplyJob? || t.w.pending[0].DeleteJob?
    requires forall x :: x in t'.w.pending ==> PendingOnce(t', h, x)
    ensures Once(t', h)
  {
    assert PendingOnce(t, h, t.w.pending[0]);
    assert Labelled(Last(t.w.jobs));
    var next := Last(t'.w.jobs);
    assert t'.w.jobs == t.w.jobs + [next];
    assert Labelled(next);
  }

  lemma StampAdded(ds: seq<Deployments>, next: Deployments, seen: nat, h: Digest)
    requires ds != [] && StampStays(ds, seen, h) && (Stamped(Last(ds), h) ==> Stamped(next, h))
    ensures StampStays(ds + [next], seen, h)
  {
    var longer := ds + [next];
    forall i, j | seen <= i <= j < |longer| && Stamped(longer[i], h) ensures Stamped(longer[j], h) {
      if j == |ds| && i < |ds| {
        assert Stamped(ds[|ds| - 1], h);
      }
    }
  }

  lemma OtherKeepsOnce(t: Tracked, e: Event, plan: seq<Write>, t': Tracked, h: Digest)
    requires Once(t, h) && Track(t, e, plan, t', h) && !e.Begin? && !e.Advance?
    ensures Once(t', h)
  {
    assert OwnOnly(Last(t.w.deployments));
    PendingStaysOnce(t, t', h);
    if e.DeploymentsChange? {
      StampAdded(t.w.deployments, e.deployments, t.seen, h);
    }
  }

  /** A run in which every reconcile that gets to the migration check aims at the hash. */
  ghost predicate TargetStays(op: Operator, ts: seq<Tracked>, es: seq<Event>, h: Digest) {
    && |ts| == |es| + 1
    && forall i :: 0 <= i < |es| ==> TrackedAt(op, ts, es, i, h)
  }

  ghost predicate TrackedAt(op: Operator, ts: seq<Tracked>, es: seq<Event>, i: nat, h: Digest)
    requires i < |es| < |ts|
  {
    TrackedStep(op, ts[i], es[i], ts[i + 1], h)
  }

  ghost predicate TrackedStep(op: Operator, t: Tracked, e: Event, t': Tracked, h: Digest) {
    && Track(t, e, if e.Begin? then Reconcile(op, e.v).writes else [], t', h)
    && (e.Begin? ==> AimsAt(ConfigFor(op, e.v.cluster.spec, NoticeChange(e.v.cluster, e.v.secretHash)), h))
  }

  lemma StepKeepsOnce(op: Operator, t: Tracked, e: Event, t': Tracked, h: Digest)
    requires Once(t, h) && TrackedStep(op, t, e, t', h)
    ensures Once(t', h)
  {
    if e.Begin? {
      var s := NoticeChange(e.v.cluster, e.v.secretHash);
      var config := ConfigFor(op, e.v.cluster.spec, s);
      var plan := Reconcile(op, e.v).writes;
      forall x | x in plan ensures Careful(e.v, h, x) {
        PlanIsCareful(e.v, s, config, AvailableFor(op, config), h, x);
      }
      BeginKeepsOnce(t, e, plan, t', h);
    } else if e.Advance? {
      AdvanceKeepsOnce(t, e, [], t', h);
    } else {
      OtherKeepsOnce(t, e, [], t', h);
    }
  }

  ghost function OnceAt(ts: seq<Tracked>, h: Digest): nat -> bool {
    (i: nat) => i < |ts| && Once(ts[i], h)
  }

  lemma OnceAfterStep(op: Operator, ts: seq<Tracked>, es: seq<Event>, h: Digest, i: nat)
    requires TargetStays(op, ts, es, h) && i < |es| && OnceAt(ts, h)(i)
    ensures OnceAt(ts, h)(i + 1)
  {
    assert TrackedAt(op, ts, es, i, h);
    StepKeepsOnce(op, ts[i], es[i], ts[i + 1], h);
  }

  lemma OnceHolds(op: Operator, ts: seq<Tracked>, es: seq<Event>, h: Digest, k: nat)
    requires TargetStays(op, ts, es, h) && Once(ts[0], h) && k < |ts|
    ensures Once(ts[k], h)
  {
    assert OnceAt(ts, h)(0);
    forall i: nat | i < k && OnceAt(ts, h)(i) ensures OnceAt(ts, h)(i + 1) {
      OnceAfterStep(op, ts, es, h, i);
    }
    Stepwise(OnceAt(ts, h), k);
  }

  /** Over every such run the job is created at most once. Its deletion is planned only with the
      stamp in the deployment cache, and with the stamp in the cache it is never applied again. */
  lemma JobIsCreatedOnce(op: Operator, ts: seq<Tracked>, es: seq<Event>, h: Digest, k: nat)
    requires TargetStays(op, ts, es, h) && Once(ts[0], h) && k < |ts|
    ensures ts[k].created <= 1 && ts[k].seen < |ts[k].w.deployments|
    ensures DeleteJob(MigrateJob(h)) in ts[k].w.pending ==> Stamped(ts[k].w.deployments[ts[k].seen], h)
    ensures Stamped(ts[k].w.deployments[ts[k].seen], h) ==> ApplyJob(h) !in ts[k].w.pending
  {
    OnceHolds(op, ts, es, h, k);
    assert forall x :: x in ts[k].w.pending ==> PendingOnce(ts[k], h, x);
  }

  ghost predicate CacheStamped(t: Tracked, h: Digest) {
    t.seen < |t.w.deployments| && Stamped(t.w.deployments[t.seen], h)
  }

  /** Once the cache shows the stamp it goes on showing it. */
  lemma {:induction false} StampStaysInCache(op: Operator, ts: seq<Tracked>, es: seq<Event>, h: Digest, i: nat, k: nat)
    requires TargetStays(op, ts, es, h) && Once(ts[0], h) && i <= k < |ts| && CacheStamped(ts[i], h)
    ensures CacheStamped(ts[k], h)
  {
    if k > i {
      StampStaysInCache(op, ts, es, h, i, k - 1);
      StampKeptAt(op, ts, es, h, k - 1);
    }
  }

  lemma StampKeptAt(op: Operator, ts: seq<Tracked>, es: seq<Event>, h: Digest, k: nat)
    requires TargetStays(op, ts, es, h) && Once(ts[0], h) && k < |es| && CacheStamped(ts[k], h)
    ensures CacheStamped(ts[k + 1], h)
  {
    OnceHolds(op, ts, es, h, k);
    assert TrackedAt(op, ts, es, k, h);
    StampKept(op, ts[k], es[k], ts[k + 1], h);
  }

  lemma StampKept(op: Operator, t: Tracked, e: Event, t': Tracked, h: Digest)
    requires Once(t, h) && TrackedStep(op, t, e, t', h) && CacheStamped(t, h)
    ensures CacheStamped(t', h)
  {
    if e.Begin? {
      MoveExtends(t.w, e, Reconcile(op, e.v).writes, t'.w);
    } else {
      MoveExtends(t.w, e, [], t'.w);
    }
    assert t'.w.deployments[t'.seen] == t.w.deployments[t'.seen];
  }
}
