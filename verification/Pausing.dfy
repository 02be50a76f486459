/** A failed migration pauses the cluster, and a paused cluster is left alone. */
module Pausing {
  import opened Seqs
  import opened UpdateGraph
  import opened Cluster
  import Credentials
  import opened Controller
  import opened PlanMeaning
  import opened Runs
  import opened Progress
  import opened Acceptance

  /** A reconcile that reads a paused cluster writes nothing and is not repeated. */
  lemma PausedIsNotReconciled(op: Operator, v: View)
    requires v.cluster.paused
    ensures Reconcile(op, v) == Plan([], Finished)
  {
  }

  // ---- From a failed job to a paused cluster ----

  /** The job of the configuration, the first one in view, has failed; `k` is the place where it says so. */
  predicate FailedJob(v: View, c: Config, i: nat, k: nat) {
    FirstJob(v.jobs, c, i) && FirstCondition(v.jobs[i].conditions, JobFailed, k) && v.jobs[i].conditions[k].status
  }

  /** The cluster is paused, and its status says that the migration is not going on, and why. */
  predicate PausedFor(o: ClusterObject, engine: string, message: string) {
    && o.paused && Migrating in o.status.conditions && !o.status.conditions[Migrating].status
    && o.status.conditions[Migrating].detail == Words([engine, "head", message])
  }

  lemma PauseLands(w: World, t: Status, noop: seq<Write>)
    requires Fresh(w) && (noop == [] || noop == [PatchStatus(StatusOf(w))])
    ensures var w' := Landed(w, noop + [SelfPause(t)]);
            Last(w'.clusters) == Last(w.clusters).(status := t, paused := true)
  {
    var w1 := CarryAll(w, noop);
    if noop == [] {
      assert noop + [SelfPause(t)] == [SelfPause(t)] + [];
      LandedNext(w, SelfPause(t), []);
    } else {
      LandedNext(w, noop[0], [SelfPause(t)]);
      assert [SelfPause(t)] == [SelfPause(t)] + [];
      LandedNext(CarryOut(w, noop[0]), SelfPause(t), []);
    }
  }

  /** A reconcile that finds the migration it waits for failed pauses the cluster and tells why, and the
      next reconcile of the cluster as it then is writes nothing. */
  lemma FailedMigrationPauses(op: Operator, w: World, v: View, next: View, i: nat, k: nat)
    requires Fresh(w) && v.cluster == Last(w.clusters)
    requires !v.cluster.paused && Credentials.SpecOk(v.cluster.spec.credentials)
    requires var config := ConfigFor(op, v.cluster.spec, v.cluster.status);
             && config.Ok? && AvailableFor(op, config).Some?
             && Backlog(v.cluster, config.value, AvailableFor(op, config).value, v.secretHash) == 0
             && !NoMigration(config.value, v.cluster.status) && !PlanMeaning.Stamped(v.deployments, config.value)
             && FailedJob(v, config.value, i, k)
    requires next.cluster == Last(Landed(w, Reconcile(op, v).writes).clusters)
    ensures var c := ConfigFor(op, v.cluster.spec, v.cluster.status).value;
            PausedFor(next.cluster, c.migration.engine, v.jobs[i].conditions[k].message)
    ensures next.cluster.spec == v.cluster.spec && Reconcile(op, next) == Plan([], Finished)
  {
    var config := ConfigFor(op, v.cluster.spec, v.cluster.status);
    FailedPlan(w, v, config.value, AvailableFor(op, config).value, i, k);
  }

  lemma FailedPlan(w: World, v: View, c: Config, available: seq<Version>, i: nat, k: nat)
    requires Fresh(w) && v.cluster == Last(w.clusters)
    requires !v.cluster.paused && Credentials.SpecOk(v.cluster.spec.credentials)
    requires Backlog(v.cluster, c, available, v.secretHash) == 0
    requires !NoMigration(c, v.cluster.status) && !PlanMeaning.Stamped(v.deployments, c) && FailedJob(v, c, i, k)
    ensures var w' := Landed(w, ReconcileWith(v, v.cluster.status, Ok(c), Some(available)).writes);
            && PausedFor(Last(w'.clusters), c.migration.engine, v.jobs[i].conditions[k].message)
            && Last(w'.clusters).spec == v.cluster.spec
  {
    var s := v.cluster.status;
    var computed := ComputedStatus(s, v.cluster.generation, c, v.cluster.spec.warning, available);
    var noop, rest := PatchIf(!StatusEquals(s, computed), computed), CheckMigrations(v, c, s);
    assert ReconcileWith(v, s, Ok(c), Some(available)).writes == noop + rest.writes by {
      assert NoticeIf(false, s) + (noop + rest.writes) == noop + rest.writes;
    }
    WaitMeaning(v, c, s, i, k);
    assert rest.writes == [SelfPause(rest.writes[0].status)];
    PauseLands(w, rest.writes[0].status, noop);
  }

  // ---- Whole runs ----

  /** What is left to be written comes from a cluster that was not paused. */
  ghost predicate Awake(w: World) {
    w.Valid() && (w.pending != [] ==> !w.read.paused)
  }

  lemma StepAwake(op: Operator, w: World, e: Event, w': World)
    requires Awake(w) && Step(op, w, e, w')
    ensures Awake(w')
  {
    if e.Begin? && e.v.cluster.paused {
      PausedIsNotReconciled(op, e.v);
    }
  }

  ghost function AwakeAt(ws: seq<World>): nat -> bool {
    (i: nat) => i < |ws| && Awake(ws[i])
  }

  lemma RunAwake(op: Operator, ws: seq<World>, es: seq<Event>, n: nat)
    requires Run(op, ws, es) && n < |ws|
    ensures Awake(ws[n])
  {
    assert AwakeAt(ws)(0);
    forall i: nat | i < n && AwakeAt(ws)(i) ensures AwakeAt(ws)(i + 1) {
      assert StepAt(op, ws, es, i);
      StepAwake(op, ws[i], es[i], ws[i + 1]);
    }
    Stepwise(AwakeAt(ws), n);
  }

  lemma PausedStep(op: Operator, w: World, e: Event, w': World)
    requires Awake(w) && Step(op, w, e, w') && Last(w.clusters).paused
    ensures e.Advance? ==> !Locked(w.pending[0])
    ensures !e.SetPaused? ==> w'.Valid() && Last(w'.clusters).paused
  {
  }

  /** Over every run, however stale the reads: while the cluster is paused no status but the notice of a
      change is accepted, and only a user resumes it. */
  lemma PausedIsLeftAlone(op: Operator, ws: seq<World>, es: seq<Event>, n: nat)
    requires Run(op, ws, es) && n < |es| && ws[n].Valid() && Last(ws[n].clusters).paused
    ensures es[n].Advance? ==> ws[n].pending != [] && !Locked(ws[n].pending[0])
    ensures !es[n].SetPaused? ==> ws[n + 1].Valid() && Last(ws[n + 1].clusters).paused
  {
    RunAwake(op, ws, es, n);
    assert StepAt(op, ws, es, n);
    PausedStep(op, ws[n], es[n], ws[n + 1]);
  }

  lemma AdvancePauses(w: World, w': World)
    requires Moves(w, Event.Advance, [], w') && w.pending[0].SelfPause?
    ensures w'.Valid() && Last(w'.clusters).paused && Last(w'.clusters).status == w.pending[0].status
  {
  }

  /** Once the operator has paused a cluster it stays paused, with every event but a user's. */
  lemma {:induction false} PausedUntilResumed(op: Operator, ws: seq<World>, es: seq<Event>, i: nat, n: nat)
    requires Run(op, ws, es) && i < n < |ws| && es[i].Advance? && ws[i].pending != [] && ws[i].pending[0].SelfPause?
    requires forall k :: i < k < n ==> !es[k].SetPaused?
    ensures ws[n].Valid() && Last(ws[n].clusters).paused
    decreases n
  {
    if n == i + 1 {
      assert StepAt(op, ws, es, i);
      AdvancePauses(ws[i], ws[n]);
    } else {
      PausedUntilResumed(op, ws, es, i, n - 1);
      PausedIsLeftAlone(op, ws, es, n - 1);
    }
  }
}
