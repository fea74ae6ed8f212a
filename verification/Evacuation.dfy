/**
 * What one evacuation pass reads out of its Slurm snapshot, and why nothing slips through: a job that
 * still holds a recorded worker is either new to the record or not yet evacuated.
 */
module Evacuation {
  import opened Bags
  import opened SlurmJobs
  import opened RecoveryMachine

  type Snapshot = map<Cluster, seq<SlurmJob>>

  /** The snapshot shows a job, not finished, that uses a recorded worker. */
  ghost predicate Affected(r: Record, snapshot: Snapshot, key: JobKey) {
    key.cluster in snapshot
    && exists i :: 0 <= i < |snapshot[key.cluster]| && Touches(r, key, snapshot[key.cluster][i])
  }

  ghost predicate Touches(r: Record, key: JobKey, job: SlurmJob) {
    && !Terminal(job) && RootId(job) == key.id
    && exists pod :: pod in r.workers && r.workers[pod].cluster == key.cluster && pod.name in job.nodes
  }

  /** The affected jobs of one cluster that are not recorded yet. */
  method AffectedInCluster(r: Record, snapshot: Snapshot, c: Cluster) returns (added: set<JobKey>)
    requires c in snapshot
    ensures forall key :: key in added <==> key.cluster == c && key !in r.jobs && Affected(r, snapshot, key)
  {
    added := {};
    var jobs, names := snapshot[c], WorkerNames(r.workers, c);
    for i := 0 to |jobs|
      invariant forall key :: key in added <==>
        key.cluster == c && key !in r.jobs && exists k :: 0 <= k < i && Touches(r, key, jobs[k])
    {
      assert UsesAnyNode(jobs[i], names) <==>
        exists pod :: pod in r.workers && r.workers[pod].cluster == c && pod.name in jobs[i].nodes;
      if !Terminal(jobs[i]) && UsesAnyNode(jobs[i], names) {
        var root := JobKey(c, RootId(jobs[i]));
        if root !in r.jobs {
          added := added + {root};
        }
      }
    }
  }

  /** `addAffectedJobs`: exactly the affected jobs that are not recorded yet. */
  method AffectedJobs(r: Record, snapshot: Snapshot) returns (added: set<JobKey>)
    ensures forall key :: key in added <==> key !in r.jobs && Affected(r, snapshot, key)
  {
    added := {};
    var order := ListKeys(snapshot);
    for i := 0 to |order|
      invariant forall key :: key in added <==>
        key.cluster in order[..i] && key !in r.jobs && Affected(r, snapshot, key)
    {
      var more := AffectedInCluster(r, snapshot, order[i]);
      added := added + more;
    }
    assert order[..|order|] == order;
  }

  // ---- jobEvacuated ----

  predicate Runs(job: SlurmJob, id: nat) { RootId(job) == id && Active(job) }

  /** The recorded job no longer holds its workers, and was requeued by us or is not running at all. */
  predicate JobEvacuated(j: Job, id: nat, names: set<string>, jobs: seq<SlurmJob>) {
    && (forall i :: 0 <= i < |jobs| ==> Runs(jobs[i], id) ==> !UsesAnyNode(jobs[i], names))
    && (j.requeueSent || forall i :: 0 <= i < |jobs| ==> !Runs(jobs[i], id))
  }

  /** `jobEvacuated`, by a scan with an early return. */
  method CheckEvacuated(j: Job, id: nat, names: set<string>, jobs: seq<SlurmJob>) returns (evacuated: bool)
    ensures evacuated == JobEvacuated(j, id, names, jobs)
  {
    var active := false;
    for i := 0 to |jobs|
      invariant forall k :: 0 <= k < i ==> Runs(jobs[k], id) ==> !UsesAnyNode(jobs[k], names)
      invariant active <==> exists k :: 0 <= k < i && Runs(jobs[k], id)
    {
      if RootId(jobs[i]) != id || Pending(jobs[i]) || Terminal(jobs[i]) {
        continue;
      }
      active := true;
      if UsesAnyNode(jobs[i], names) {
        return false;
      }
    }
    return j.requeueSent || !active;
  }

  function JobsOf(snapshot: Snapshot, c: Cluster): seq<SlurmJob> {
    if c in snapshot then snapshot[c] else []
  }

  ghost predicate JobGone(r: Record, snapshot: Snapshot, k: JobKey)
    requires k in r.jobs
  {
    JobEvacuated(r.jobs[k], k.id, WorkerNames(r.workers, k.cluster), JobsOf(snapshot, k.cluster))
  }

  ghost predicate AllEvacuated(r: Record, snapshot: Snapshot) {
    forall k :: k in r.jobs ==> JobGone(r, snapshot, k)
  }

  /** Every affected job is recorded. */
  ghost predicate AllRecorded(r: Record, snapshot: Snapshot) {
    forall key :: Affected(r, snapshot, key) ==> key in r.jobs
  }

  /** Adding what is affected records everything. */
  lemma AddingRecordsAll(r: Record, snapshot: Snapshot, added: set<JobKey>, next: Record)
    requires forall key :: key in added <==> key !in r.jobs && Affected(r, snapshot, key)
    requires next.workers == r.workers && forall key :: key in r.jobs || key in added ==> key in next.jobs
    ensures AllRecorded(next, snapshot)
  {
    forall key | Affected(next, snapshot, key) ensures key in next.jobs {
      var i :| 0 <= i < |snapshot[key.cluster]| && Touches(next, key, snapshot[key.cluster][i]);
      assert Touches(r, key, snapshot[key.cluster][i]);
    }
  }

  /** The first loop of `cleanupEvacuatedWorkers`. */
  method CheckAllEvacuated(r: Record, snapshot: Snapshot) returns (all: bool)
    ensures all == AllEvacuated(r, snapshot)
  {
    var order := ListKeys(r.jobs);
    for i := 0 to |order|
      invariant forall n :: 0 <= n < i ==> JobGone(r, snapshot, order[n])
    {
      var k := order[i];
      var gone := CheckEvacuated(r.jobs[k], k.id, WorkerNames(r.workers, k.cluster), JobsOf(snapshot, k.cluster));
      if !gone {
        assert !JobGone(r, snapshot, k);
        return false;
      }
    }
    return true;
  }

  /** When the snapshot shows nothing unrecorded and every recorded job is evacuated, no active job at
      all, recorded or not, uses a recorded worker. */
  lemma NothingSlipsThrough(r: Record, snapshot: Snapshot)
    requires AllRecorded(r, snapshot)
    requires AllEvacuated(r, snapshot)
    ensures forall c :: c in snapshot ==> NoneActive(snapshot[c], WorkerNames(r.workers, c))
    ensures forall c :: c in snapshot ==> NoneHeld(snapshot[c], c, r.workers)
  {
    forall c, i | c in snapshot && 0 <= i < |snapshot[c]| && Active(snapshot[c][i])
      ensures !UsesAnyNode(snapshot[c][i], WorkerNames(r.workers, c))
    {
      var job := snapshot[c][i];
      var key := JobKey(c, RootId(job));
      if UsesAnyNode(job, WorkerNames(r.workers, c)) {
        assert Touches(r, key, job);
        assert Affected(r, snapshot, key);
        assert Runs(JobsOf(snapshot, c)[i], key.id);
      }
    }
    forall c | c in snapshot ensures NoneHeld(snapshot[c], c, r.workers) {
      NoneActiveByName(snapshot[c], c, r.workers);
    }
  }

  /** With every affected job recorded, the check is exact: it passes precisely when no active job uses a
      recorded worker and no recorded job runs anywhere without our requeue. */
  lemma ChecksAreExact(r: Record, snapshot: Snapshot)
    requires AllRecorded(r, snapshot) && forall k :: k in r.jobs ==> k.cluster in snapshot
    ensures AllEvacuated(r, snapshot) <==>
      && (forall c :: c in snapshot ==> NoneHeld(snapshot[c], c, r.workers))
      && (forall k :: k in r.jobs && !r.jobs[k].requeueSent ==>
            forall i :: 0 <= i < |snapshot[k.cluster]| ==> !Runs(snapshot[k.cluster][i], k.id))
  {
    if AllEvacuated(r, snapshot) {
      NothingSlipsThrough(r, snapshot);
    }
    forall c | c in snapshot
      ensures NoneHeld(snapshot[c], c, r.workers) <==> NoneActive(snapshot[c], WorkerNames(r.workers, c))
    {
      NoneActiveByName(snapshot[c], c, r.workers);
    }
  }
}
