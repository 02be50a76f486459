/** What a reconcile clears away: exactly the jobs, deployments and pods that are done for. */
module Cleanup {
  import opened Seqs
  import opened Cluster
  import opened Controller

  lemma {:induction false} SpentExactly(js: seq<Job>, d: Deployment, n: ObjectName)
    ensures n in SpentJobs(js, d) <==> exists j :: j in js && j.name == n && Spent(j, d)
  {
    if js != [] {
      var init := js[..|js| - 1];
      assert js == init + [Last(js)];
      SpentExactly(init, d, n);
    }
  }

  lemma {:induction false} ExtraExactly(js: seq<Job>, h: Digest, n: ObjectName)
    requires h != NoDigest
    ensures n in ExtraJobs(js, h) <==> exists j :: j in js && j.name == n && j.Requirement() != h
  {
    if js != [] {
      var init := js[..|js| - 1];
      assert js == init + [Last(js)];
      ExtraExactly(init, h, n);
    }
  }

  lemma {:induction false} ReplacedExactly(ds: seq<Deployment>, spec: DeploymentSpec, n: ObjectName)
    ensures n in ExtraDeployments(ds, spec) <==> exists d :: d in ds && d.name == n && !d.Renders(spec)
  {
    if ds != [] {
      var init := ds[..|ds| - 1];
      assert ds == init + [Last(ds)];
      ReplacedExactly(init, spec, n);
    }
  }

  lemma DeletesNamed(names: seq<ObjectName>, n: ObjectName)
    ensures DeleteJob(n) in DeleteJobs(names) <==> n in names
  {
    if n in names {
      var i :| 0 <= i < |names| && names[i] == n;
      assert DeleteJobs(names)[i] == DeleteJob(n);
    }
  }

  /** Starting a migration deletes a job if and only if it carries another hash or none. */
  lemma OtherJobsAreDeleted(v: View, c: Config, s: Status, n: ObjectName)
    requires JobFor(v.jobs, c.Digest()).None?
    ensures DeleteJob(n) in RunMigration(v, c, s).writes
       <==> exists j :: j in v.jobs && j.name == n && j.Requirement() != c.Digest()
  {
    var extras := ExtraJobs(v.jobs, c.Digest());
    ExtraExactly(v.jobs, c.Digest(), n);
    DeletesNamed(extras, n);
    assert RunMigration(v, c, s).writes
        == [PatchStatus(s.Set(Migrating, MigratingCondition(c))), ApplyJob(c.Digest())] + DeleteJobs(extras);
  }

  /** Cleanup deletes a job if and only if it completed the migration the deployment carries. */
  lemma SpentJobsAreDeleted(js: seq<Job>, pods: seq<Pod>, d: Deployment, n: ObjectName)
    requires d.annotations.Some?
    ensures DeleteJob(n) in CleanUp(js, pods, d).writes <==> exists j :: j in js && j.name == n && Spent(j, d)
  {
    SpentExactly(js, d, n);
    DeletesNamed(SpentJobs(js, d), n);
    OnlyPodsCleaned(js, pods);
  }

  predicate OfListedJob(js: seq<Job>, p: Pod) {
    p.jobName.Some? && JobListed(js, p.jobName.value)
  }

  predicate Orphan(js: seq<Job>, p: Pod) {
    p.jobName.Some? && !JobListed(js, p.jobName.value)
  }

  /** Pods are cleaned up to the first one of a listed job, which asks for another go; without one,
      exactly the orphaned pods are deleted. */
  lemma {:induction false} OrphansAreDeleted(js: seq<Job>, pods: seq<Pod>, name: string)
    ensures CleanPods(js, pods).outcome.Requeued? <==> exists p :: p in pods && OfListedJob(js, p)
    ensures DeletePod(name) in CleanPods(js, pods).writes ==> exists p :: p in pods && p.name == name && Orphan(js, p)
    ensures CleanPods(js, pods).outcome.Finished? ==>
              (DeletePod(name) in CleanPods(js, pods).writes
               <==> exists p :: p in pods && p.name == name && Orphan(js, p))
  {
    if pods != [] {
      assert pods == [pods[0]] + pods[1..];
      OrphansAreDeleted(js, pods[1..], name);
      if OfListedJob(js, pods[0]) {
        assert pods[0] in pods;
      }
    }
  }
}
