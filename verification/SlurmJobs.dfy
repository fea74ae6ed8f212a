/** What the operator reads off a Slurm job. */
module SlurmJobs {
  /** A job as Slurm lists it. `heldReason` says that its reason, compared without regard to case, is
      "job_requeued_in_held_state". */
  datatype SlurmJob = SlurmJob(id: nat, hetJobId: nat, states: seq<string>, heldReason: bool, nodes: seq<string>)

  const TERMINAL: set<string> := {
    "BOOT_FAIL", "CANCELLED", "COMPLETED", "DEADLINE", "FAILED", "NODE_FAIL", "OUT_OF_MEMORY",
    "PREEMPTED", "REVOKED", "TIMEOUT" }

  /** Components of one heterogeneous job share the id of their leader. */
  function RootId(j: SlurmJob): nat {
    if j.hetJobId != 0 then j.hetJobId else j.id
  }

  predicate RequeuedState(j: SlurmJob) {
    && "PENDING" !in j.states
    && ("REQUEUED" in j.states || "REQUEUE_HOLD" in j.states || "SPECIAL_EXIT" in j.states
        || ("CANCELLED" in j.states && j.heldReason))
  }

  predicate Pending(j: SlurmJob) {
    "PENDING" in j.states || RequeuedState(j)
  }

  predicate Terminal(j: SlurmJob) {
    (exists state :: state in j.states && state in TERMINAL) && !Pending(j)
  }

  predicate UsesAnyNode(j: SlurmJob, names: set<string>) {
    exists name :: name in j.nodes && name in names
  }

  /** The job holds its nodes: it is neither waiting to run nor finished. */
  predicate Active(j: SlurmJob) {
    !Pending(j) && !Terminal(j)
  }

  const NOT_RUNNING: set<string> := {
    "PENDING", "REQUEUED", "REQUEUE_HOLD", "SPECIAL_EXIT", "BOOT_FAIL", "CANCELLED", "COMPLETED", "DEADLINE",
    "FAILED", "NODE_FAIL", "OUT_OF_MEMORY", "PREEMPTED", "REVOKED", "TIMEOUT" }

  /** Slurm lists the job, in no state of waiting or being finished, on the node of that name. */
  predicate Holds(j: SlurmJob, name: string) {
    name in j.nodes && forall state :: state in j.states ==> state !in NOT_RUNNING
  }

  /** All components of a heterogeneous job are known by their leader's id, and any other job by its own. */
  lemma ComponentsShareRoot(i: SlurmJob, j: SlurmJob)
    ensures i.hetJobId == j.hetJobId != 0 ==> RootId(i) == RootId(j)
    ensures i.hetJobId == i.id || i.hetJobId == 0 ==> RootId(i) == i.id
  {
  }

  /** A job is waiting exactly when it is pending, was requeued, or was cancelled while held for a requeue;
      it is finished exactly when it is not waiting and in a state of being finished. A job uses some of
      these nodes and is active exactly when it holds one of them. */
  lemma ActiveByState(j: SlurmJob, names: set<string>)
    ensures Pending(j) <==>
      || "PENDING" in j.states || "REQUEUED" in j.states || "REQUEUE_HOLD" in j.states || "SPECIAL_EXIT" in j.states
      || ("CANCELLED" in j.states && j.heldReason)
    ensures Terminal(j) <==> !Pending(j) && exists state :: state in j.states && state in NOT_RUNNING
    ensures Active(j) && UsesAnyNode(j, names) <==> exists name :: name in names && Holds(j, name)
  {
    assert forall state :: state in NOT_RUNNING <==>
      state in TERMINAL || state in {"PENDING", "REQUEUED", "REQUEUE_HOLD", "SPECIAL_EXIT"};
    assert "CANCELLED" in TERMINAL;
    if Active(j) && UsesAnyNode(j, names) {
      var name :| name in j.nodes && name in names;
      assert Holds(j, name);
    }
  }
}
