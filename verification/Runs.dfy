/** Runs of the operator against an API server: reconciles read caches of any age, their writes are
    carried out one by one, may be cut short anywhere, and interleave with everything users,
    Kubernetes controllers and other actors do. */
module Runs {
  import opened Seqs
  import opened Cluster
  import opened Controller

  type Deployments = map<ObjectName, Deployment>

  type Jobs = map<ObjectName, Job>

  /** Every state the API server has been in, newest last, the writes still to be carried out, and the
      cluster as the reconcile under way has read it. */
  datatype World = World(clusters: seq<ClusterObject>, deployments: seq<Deployments>, jobs: seq<Jobs>,
                         pending: seq<Write>, read: ClusterObject)
  {
    predicate Valid() {
      clusters != [] && deployments != [] && jobs != []
    }
  }

  ghost predicate Existed(w: World, d: Deployment) {
    exists i :: 0 <= i < |w.deployments| && d.name in w.deployments[i] && w.deployments[i][d.name] == d
  }

  ghost predicate JobExisted(w: World, j: Job) {
    exists i :: 0 <= i < |w.jobs| && j.name in w.jobs[i] && w.jobs[i][j.name] == j
  }

  /** Everything in the view was there at some time. */
  ghost predicate Sees(w: World, v: View) {
    && v.cluster in w.clusters
    && (forall d :: d in v.deployments ==> Existed(w, d))
    && (forall j :: j in v.jobs ==> JobExisted(w, j))
    && (forall j :: j in v.laterJobs ==> JobExisted(w, j))
  }

  // ---- Writes ----

  const FRESH_ROLLOUT := RolloutStatus(0, 0, 0, 0, 0, 0)

  /** Server-side apply of the operator's deployment: a new rendering is a new generation. */
  function AppliedDeployment(ds: Deployments, spec: DeploymentSpec): Deployment {
    var annotations := Some(Annotations(spec.stamp, Some(spec)));
    if OwnDeployment in ds then
      ds[OwnDeployment].(annotations := annotations, generation := ds[OwnDeployment].generation + 1,
                         replicas := Some(spec.replicas))
    else Deployment(OwnDeployment, annotations, 1, Some(spec.replicas), FRESH_ROLLOUT)
  }

  /** Server-side apply of a migration job: an existing one keeps its progress. */
  function AppliedJob(js: Jobs, h: Digest): Job {
    if MigrateJob(h) in js then js[MigrateJob(h)].(annotations := Some(h))
    else Job(MigrateJob(h), Some(h), [])
  }

  function CarryOut(w: World, x: Write): World
    requires w.Valid()
  {
    match x
    case NoticeStatus(s) => w.(clusters := w.clusters + [Last(w.clusters).(status := s)])
    case PatchStatus(s) => w.(clusters := w.clusters + [Last(w.clusters).(status := s)])
    case SelfPause(s) => w.(clusters := w.clusters + [Last(w.clusters).(status := s, paused := true)])
    case ApplyJob(h) => w.(jobs := w.jobs + [Last(w.jobs)[MigrateJob(h) := AppliedJob(Last(w.jobs), h)]])
    case DeleteJob(n) => w.(jobs := w.jobs + [Last(w.jobs) - {n}])
    case ApplyDeployment(spec) =>
      w.(deployments := w.deployments +
           [Last(w.deployments)[OwnDeployment := AppliedDeployment(Last(w.deployments), spec)]])
    case DeleteDeployment(n) => w.(deployments := w.deployments + [Last(w.deployments) - {n}])
    case DeletePod(_) => w
  }

  /** The API server accepts a locked write only while the cluster is as it was read. */
  predicate Grants(w: World, x: Write)
    requires w.Valid()
  {
    Locked(x) ==> Last(w.clusters) == w.read
  }

  // ---- Steps ----

  datatype Event =
    | Begin(v: View)                  // a reconcile starts
    | Advance                         // its next write is carried out
    | Abandon                         // an API error or a crash ends it
    | EditSpec(spec: ClusterSpec)     // a user edits the cluster
    | SetPaused(paused: bool)         // a user pauses or resumes it
    | JobsChange(jobs: Jobs)          // jobs progress, fail, come and go
    | DeploymentsChange(deployments: Deployments)  // rollouts progress, deployments come and go

  /** No one but the operator stamps a deployment with a migration hash. */
  ghost predicate NoNewStamps(before: Deployments, after: Deployments) {
    forall n :: n in after && after[n].Stamp().Of? ==>
      exists m :: m in before && before[m].Stamp() == after[n].Stamp()
  }

  /** Objects are listed under their own names. */
  predicate NamedJobs(js: Jobs) {
    forall n :: n in js ==> js[n].name == n
  }

  predicate NamedDeployments(ds: Deployments) {
    forall n :: n in ds ==> ds[n].name == n
  }

  ghost predicate Possible(w: World, e: Event)
    requires w.Valid()
  {
    match e
    case Begin(v) => w.pending == [] && Sees(w, v)
    case Advance => w.pending != [] && Grants(w, w.pending[0])
    case DeploymentsChange(ds) => NamedDeployments(ds) && NoNewStamps(Last(w.deployments), ds)
    case JobsChange(js) => NamedJobs(js)
    case _ => true
  }

  /** What an event does to the world; `plan` is what a reconcile that begins is going to write. */
  function Happen(w: World, e: Event, plan: seq<Write>): World
    requires w.Valid() && (e.Advance? ==> w.pending != [])
  {
    match e
    case Begin(v) => w.(pending := plan, read := v.cluster)
    case Advance => CarryOut(w, w.pending[0]).(pending := w.pending[1..])
    case Abandon => w.(pending := [])
    case EditSpec(spec) =>
      var c := Last(w.clusters);
      w.(clusters := w.clusters + [c.(spec := spec, generation := c.generation + 1)])
    case SetPaused(paused) => w.(clusters := w.clusters + [Last(w.clusters).(paused := paused)])
    case JobsChange(js) => w.(jobs := w.jobs + [js])
    case DeploymentsChange(ds) => w.(deployments := w.deployments + [ds])
  }

  /** One event, whatever the plan of a reconcile. */
  ghost predicate Moves(w: World, e: Event, plan: seq<Write>, w': World) {
    w.Valid() && Possible(w, e) && w' == Happen(w, e, plan)
  }

  /** One event, with the plan the operator makes. */
  ghost predicate Step(op: Operator, w: World, e: Event, w': World) {
    Moves(w, e, if e.Begin? then Reconcile(op, e.v).writes else [], w')
  }

  /** A run: worlds and the events between them. */
  ghost predicate Run(op: Operator, ws: seq<World>, es: seq<Event>) {
    && |ws| == |es| + 1
    && ws[0].Valid() && ws[0].pending == []
    && forall i :: 0 <= i < |es| ==> StepAt(op, ws, es, i)
  }

  /** A run during which the operator is reconfigured: each event meets the operator of its time. */
  ghost predicate ReloadedRun(ops: seq<Operator>, ws: seq<World>, es: seq<Event>) {
    && |ws| == |es| + 1 && |ops| == |es|
    && ws[0].Valid() && ws[0].pending == []
    && forall i :: 0 <= i < |es| ==> StepAt(ops[i], ws, es, i)
  }

  ghost predicate StepAt(op: Operator, ws: seq<World>, es: seq<Event>, i: nat)
    requires i < |es| < |ws|
  {
    Step(op, ws[i], es[i], ws[i + 1])
  }

  /** What carrying out a write does to the cluster. */
  ghost predicate Advanced(w: World, w': World)
    requires w.Valid() && w'.Valid()
  {
    && w.pending != [] && Grants(w, w.pending[0]) && w'.pending == w.pending[1..] && w'.read == w.read
    && if Patches(w.pending[0]) then
         && w'.clusters == w.clusters + [Last(w'.clusters)]
         && Last(w'.clusters).status == w.pending[0].status && Last(w'.clusters).spec == Last(w.clusters).spec
       else w'.clusters == w.clusters
  }

  lemma AdvanceEffect(w: World, w': World)
    requires Moves(w, Event.Advance, [], w')
    ensures w'.Valid() && Advanced(w, w')
  {
  }

  /** History is only added to. */
  predicate Extends(w: World, later: World) {
    w.clusters <= later.clusters && w.deployments <= later.deployments && w.jobs <= later.jobs
  }

  lemma MoveExtends(w: World, e: Event, plan: seq<Write>, w': World)
    requires Moves(w, e, plan, w')
    ensures w'.Valid() && Extends(w, w')
  {
  }

  lemma StepExtends(op: Operator, from: World, w: World, e: Event, w': World)
    requires Extends(from, w) && Step(op, w, e, w')
    ensures w'.Valid() && Extends(from, w')
  {
    MoveExtends(w, e, if e.Begin? then Reconcile(op, e.v).writes else [], w');
  }

  /** Steps one after another. */
  ghost predicate Segment(op: Operator, ws: seq<World>, es: seq<Event>) {
    |ws| == |es| + 1 && forall i :: 0 <= i < |es| ==> StepAt(op, ws, es, i)
  }

  lemma {:induction false} SegmentExtends(op: Operator, ws: seq<World>, es: seq<Event>, i: nat, n: nat)
    requires Segment(op, ws, es) && ws[0].Valid() && i <= n < |ws|
    ensures ws[n].Valid() && Extends(ws[i], ws[n])
    decreases n
  {
    if n > 0 {
      var w, e, w' := ws[n - 1], es[n - 1], ws[n];
      assert Step(op, w, e, w') by {
        assert StepAt(op, ws, es, n - 1);
      }
      SegmentExtends(op, ws, es, if i == n then n - 1 else i, n - 1);
      StepExtends(op, if i == n then w else ws[i], w, e, w');
    }
  }
}
