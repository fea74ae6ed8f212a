/**
 * The recovery operator as the source writes it: passes that read, save and call in order and return at
 * the first error. Every call may be lost before or after it takes effect, and between any two calls the
 * other parties make any moves open to them. The operator's state is always one that a run reaches whose
 * observations were true of the world, so what holds of such runs holds throughout every pass.
 */
module Operator {
  import opened Bags
  import opened SlurmJobs
  import opened RecoveryMachine
  import opened RecoveryRuns
  import opened RecoveryWorld
  import opened Evacuation

  const STABLE := 30
  const VERIFIER_TIMEOUT := 120

  // ---- What the operator may rely on between its calls ----

  /** Others have moved: nothing the operator's guards depend on has been lost. */
  ghost predicate Stable(s: System, t: System) {
    && t.durable == s.durable && t.starts == s.starts && t.seen == s.seen && t.grown == s.grown
    && t.lifted == s.lifted && t.signalled == s.signalled && t.requeued == s.requeued && s.acked <= t.acked
    && t.node.incident == s.node.incident && t.node.phase == s.node.phase && t.node.request == s.node.request
    && t.degraded == s.degraded
  }

  /** The node's marks are those of the durable record: quarantined, with the incident, its phase and
      its reboot request; or none of these. */
  ghost predicate Agrees(s: System) {
    match s.durable
    case Some(r) =>
      && s.node.incident == r.incident && s.node.phase == Some(r.phase) && s.degraded
      && (Asking(r.phase) ==> s.node.request == r.incident)
    case None => s.node.incident == "" && s.node.phase == None && s.node.request == "" && !s.degraded
  }

  lemma OutsideIsStable(s: System, a: Action)
    requires Enabled(s, a) && Outside(a)
    ensures Stable(s, Apply(s, a))
  {
    match a
    case Look =>
    case CountPods(_) =>
    case Acknowledge(_) =>
    case Reboot =>
    case Stop =>
    case Ask(_) =>
  }

  lemma StaysStable(s0: System, s: System, a: Action)
    requires Enabled(s, a) && Outside(a) && Stable(s0, s)
    requires s.node.ack == s0.node.ack || s.node.ack == s0.node.request
    ensures Stable(s0, Apply(s, a))
    ensures Apply(s, a).node.ack == s0.node.ack || Apply(s, a).node.ack == s0.node.request
  {
    OutsideIsStable(s, a);
  }

  lemma AllowedStable(s: System, t: System, r: Record, change: Change)
    requires Stable(s, t) && Allowed(s, r, change)
    ensures Allowed(t, r, change)
  {
  }

  lemma EnabledStable(s: System, t: System, a: Action)
    requires Stable(s, t) && !Outside(a) && !a.Observe? && Enabled(s, a)
    ensures Enabled(t, a) && Stable(Apply(s, a), Apply(t, a))
  {
    if a.Save? {
      AllowedStable(s, t, s.durable.value, a.change);
    }
  }

  // ---- What can go wrong, and where a pass may lead ----

  /** A call is lost, or some lookup fails, at time t. */
  ghost predicate Trouble(w: World, t: nat) {
    || w.reply(t) != Done || !w.load(t) || w.newId(t) == "" || w.node(t).None? || w.pods(t).None?
    || (exists c :: w.slurm(t, c).None?) || (exists numa :: w.verifier(t, numa).NotRead?)
    || (exists pod :: w.pod(t, pod).Unreadable?) || (exists pod :: w.claim(t, pod).Unreadable?)
  }

  ghost predicate TroubleIn(w: World, from: nat, to: nat) {
    exists t :: from <= t <= to && Trouble(w, t)
  }

  /** Where an evacuation pass leads if it completes. */
  predicate StepsTo(p: Phase, next: Phase) {
    match p
    case Isolated => next == Draining
    case Draining => next == Checkpointing || next == Requeued
    case Checkpointing => next == Checkpointing || next == Requeued
    case Requeued => next == Requeued || next == RebootRequested
    case _ => false
  }

  /** The same, new jobs included. */
  predicate MovesTo(p: Phase, next: Phase) {
    StepsTo(p, next) || ((p == Checkpointing || p == Requeued) && next == Draining)
  }

  /** Where any pass may lead. */
  predicate MayLeadTo(p: Phase, next: Phase) {
    || next == p || MovesTo(p, next)
    || match p
       case RebootRequested => next == Rebooting || next == ManualRepair
       case Rebooting => next == Verifying || next == ManualRepair
       case Verifying => next == ManualRepair
       case ManualRepair => next == Isolated || next == Draining
       case _ => false
  }

  /** What one pass, crashed or not, may do to the durable record. */
  ghost predicate PassLeads(before: Option<Record>, after: Option<Record>) {
    match (before, after)
    case (None, None) => true
    case (None, Some(r)) => r.phase in {Isolated, Draining, ManualRepair}
    case (Some(r), None) => r.phase == Verifying && r.verificationPassed
    case (Some(r), Some(next)) =>
      MayLeadTo(r.phase, next.phase) && (next.incident == r.incident || r.phase == ManualRepair)
  }

  predicate WasIn(before: Option<Record>, p: Phase) { before.Some? && before.value.phase == p }

  /** What the world showed during the pass, for each step it may have taken. */
  ghost predicate Justified(w: World, from: nat, to: nat, before: Option<Record>, s: System) {
    match s.durable
    case None => before.Some? ==> NoFaultIn(w, from, to)
    case Some(r) =>
      && (r.phase == RebootRequested && !WasIn(before, RebootRequested) ==> NodeWasEmpty(w, from, to, r.workers))
      && (r.phase == Rebooting && !WasIn(before, Rebooting) ==> r.incident in s.acked)
      && (r.phase == Verifying && !WasIn(before, Verifying) ==>
            r.preHash != "" && InventoryWasShown(w, from, to, r.preHash, r.newBoot))
      && (r.verificationPassed && !(before.Some? && before.value.verificationPassed) ==>
            CellsSucceeded(w, from, to, r) && NoFaultIn(w, from, to))
  }

  /** A listing of that span showed this worker. */
  ghost predicate WasListed(w: World, from: nat, to: nat, pod: Pod, worker: Worker) {
    exists t :: from <= t <= to && w.pods(t).Some? && Listed(w.pods(t).value, pod, worker)
  }

  /** Every worker of the record was recorded before, or was listed during the pass. */
  ghost predicate WorkersKnown(w: World, from: nat, to: nat, before: Option<Record>, after: Option<Record>) {
    after.Some? ==>
      forall pod :: pod in after.value.workers ==>
        || (before.Some? && pod in before.value.workers && before.value.workers[pod] == after.value.workers[pod])
        || WasListed(w, from, to, pod, after.value.workers[pod])
  }

  lemma ListedAreKnown(w: World, from: nat, at: nat, to: nat, before: Record, after: Record)
    requires from <= at <= to && NewAsListed(before.workers, after.workers, w.pods(at))
    ensures WorkersKnown(w, from, to, Some(before), Some(after))
  {
  }

  /** The record a pass works on: the one there was, or a new one where there was none or manual repair. */
  ghost predicate Prepared(before: Option<Record>, after: Option<Record>) {
    || after == before
    || (&& after.Some? && after.value.phase in {Isolated, ManualRepair} && !after.value.verificationPassed
        && after.value.workers == map[]
        && (before.None? || before.value.phase == ManualRepair))
  }

  /** A pass may end there. */
  lemma PreparedIsPass(w: World, from: nat, to: nat, before: Option<Record>, s: System)
    requires Prepared(before, s.durable)
    ensures PassLeads(before, s.durable) && Justified(w, from, to, before, s)
    ensures WorkersKnown(w, from, to, before, s.durable)
  {
  }

  /** A pass that prepares a record and goes on with it leads, and is justified, as a whole. */
  lemma PassComposes(w: World, from: nat, to: nat, before: Option<Record>, prepared: Option<Record>, s: System)
    requires Prepared(before, prepared) && prepared.Some?
    requires PassLeads(prepared, s.durable) && Justified(w, from, to, prepared, s)
    requires WorkersKnown(w, from, to, prepared, s.durable)
    ensures PassLeads(before, s.durable) && Justified(w, from, to, before, s)
    ensures WorkersKnown(w, from, to, before, s.durable)
  {
  }

  class RecoveryOperator {
    const world: World
    var s: System
    var time: nat
    ghost var began: nat

    ghost predicate Valid()
      reads this
    {
      Witnessed(world, s, began, time)
    }

    ghost predicate Holds(r: Record)
      reads this
    {
      Valid() && s.durable == Some(r)
    }

    /** The record is durable and the node is marked accordingly. */
    ghost predicate Marks(r: Record)
      reads this
    {
      Holds(r) && Agrees(s)
    }

    /** Time has passed, nothing read is forgotten, and only trouble ends a call early. */
    ghost predicate Since(t0: nat, seen0: set<Observation>, ok: bool)
      reads this
    {
      Valid() && t0 <= time && seen0 <= s.seen && (!ok ==> TroubleIn(world, t0, time))
    }

    /** The record may be led here by a pass: the same incident, with no verification passed meanwhile. */
    ghost predicate Leads(r: Record)
      reads this
    {
      && s.durable.Some? && s.durable.value.incident == r.incident
      && s.durable.value.verificationPassed == r.verificationPassed && MayLeadTo(r.phase, s.durable.value.phase)
      && (Evacuating(r.phase) || s.durable.value.workers == r.workers)
    }

    constructor (world: World)
      ensures Valid() && this.world == world && s == FRESH && time == began == 0
    {
      this.world, s, time, began := world, FRESH, 0, 0;
      new;
      WitnessedFresh(world);
    }

    /** The watchdog and the human move; moves not open to them are skipped. */
    method Yield()
      requires Valid()
      modifies `s, `time
      ensures Valid() && Stable(old(s), s) && time == old(time) + 1
      ensures s.node.ack == old(s.node.ack) || s.node.ack == old(s.node.request)
    {
      WitnessedLater(world, s, began, time, time + 1);
      time := time + 1;
      var moves := world.others(time);
      for i := 0 to |moves|
        invariant Valid() && Stable(old(s), s) && time == old(time) + 1
        invariant s.node.ack == old(s.node.ack) || s.node.ack == old(s.node.request)
      {
        if Outside(moves[i]) && Enabled(s, moves[i]) {
          WitnessedApply(world, s, began, time, moves[i]);
          StaysStable(old(s), s, moves[i]);
          s := Apply(s, moves[i]);
        }
      }
    }

    /** The operator has read something that is so. */
    method See(what: Observation)
      requires Valid() && Readable(s, what) && TrueAt(world, time, what)
      modifies `s
      ensures Valid() && s == old(s).(seen := old(s).seen + {what})
    {
      WitnessedApply(world, s, began, time, Observe(what));
      s := s.(seen := s.seen + {what});
    }

    /** One call of the operator. */
    method Call(a: Action) returns (ok: bool)
      requires Valid() && !Outside(a) && !a.Observe? && !a.BeginPass? && Enabled(s, a)
      modifies `s, `time
      ensures Since(old(time), old(s.seen), ok) && time == old(time) + 1
      ensures Stable(Apply(old(s), a), s) || (!ok && Stable(old(s), s))
    {
      Yield();
      EnabledStable(old(s), s, a);
      WitnessedApply(world, s, began, time, a);
      var reply := world.reply(time);
      if !reply.Lost? {
        s := Apply(s, a);
      }
      ok := reply.Done?;
      assert !ok ==> Trouble(world, time);
    }

    /** `saveState` after one change of the record. */
    method SaveState(r: Record, change: Change) returns (ok: bool, next: Record)
      requires Holds(r) && Allowed(s, r, change)
      modifies `s, `time
      ensures Since(old(time), old(s.seen), ok) && next == Changed(r, change)
      ensures s.durable == Some(next) || (!ok && s.durable == Some(r))
      ensures old(Agrees(s)) && !change.To? ==> Agrees(s)
      ensures ok && change.AddJobs? ==> s.grown
      ensures s.signalled == old(s.signalled) && s.requeued == old(s.requeued) && old(s.acked) <= s.acked
    {
      next := Changed(r, change);
      ok := Call(Save(change));
    }

    /** `ensureIsolation`: mark the node, then its condition. */
    method EnsureIsolation(r: Record) returns (ok: bool)
      requires Holds(r)
      modifies `s, `time
      ensures Since(old(time), old(s.seen), ok) && Holds(r) && (ok ==> Agrees(s)) && old(s.acked) <= s.acked
    {
      ok := Call(Isolate);
      if ok {
        ok := Call(SetCondition(true));
      }
    }

    /** `setPhase`: save, then mark the node. */
    method SetPhase(r: Record, move: Move) returns (ok: bool)
      requires Holds(r) && MayMove(s, r, move)
      modifies `s, `time
      ensures Since(old(time), old(s.seen), ok) && (ok ==> Marks(Changed(r, To(move)))) && old(s.acked) <= s.acked
      ensures s.durable == Some(Changed(r, To(move))) || (!ok && s.durable == Some(r))
    {
      var next;
      ok, next := SaveState(r, To(move));
      if ok {
        ok := EnsureIsolation(next);
      }
    }

    /** `enterManualRepair`, noting the request for a retry that was read. */
    method EnterManualRepair(r: Record, retry: string) returns (ok: bool)
      requires Holds(r) && r.phase != ManualRepair && SawRetry(retry) in s.seen
      modifies `s, `time
      ensures Since(old(time), old(s.seen), ok) && (ok ==> Agrees(s)) && old(s.acked) <= s.acked
      ensures s.durable == Some(r.(phase := ManualRepair, manualRequest := retry)) || (!ok && s.durable == Some(r))
    {
      ok := SetPhase(r, GiveUp(retry));
    }

    // ---- Evacuation ----

    /** `discoverWorkers`: record the node's worker Pods and their clusters. */
    method DiscoverWorkers(r: Record, views: seq<PodView>)
      returns (clusters: map<Cluster, string>, workers: map<Pod, Worker>)
      requires ClustersKnown(r)
      ensures Discovered(r, views, clusters, workers)
      ensures UidsListed(r, views, clusters)
    {
      clusters, workers := r.clusters, r.workers;
      for i := 0 to |views|
        invariant Extends(r, views, clusters, workers) && UidsListed(r, views, clusters)
        invariant forall k :: 0 <= k < i ==> views[k].pod in workers
      {
        var v := views[i];
        if v.cluster !in clusters {
          clusters := clusters[v.cluster := v.uid];
        }
        if v.pod !in workers {
          assert Listed(views, v.pod, Worker(v.cluster, v.claim));
          workers := workers[v.pod := Worker(v.cluster, v.claim)];
        }
      }
    }

    /** `slurmSnapshots`: every recorded cluster's jobs, as Slurm showed them in this pass, or nothing. */
    method TakeSnapshots(r: Record) returns (snapshot: Option<Snapshot>)
      requires Marks(r)
      modifies `s, `time
      ensures Since(old(time), old(s.seen), snapshot.Some?) && Marks(r)
      ensures snapshot.Some? ==> snapshot.value.Keys == r.clusters.Keys && SnapshotSeen(s.seen, snapshot.value)
      ensures snapshot.Some? ==> SnapshotTrue(world, old(time), time, snapshot.value)
    {
      var order := ListKeys(r.clusters);
      var result: Snapshot := map[];
      for i := 0 to |order|
        invariant Since(old(time), old(s.seen), true) && Marks(r)
        invariant forall c :: c in result <==> c in order[..i]
        invariant SnapshotSeen(s.seen, result) && SnapshotTrue(world, old(time), time, result)
      {
        Yield();
        var jobs := world.slurm(time, order[i]);
        if jobs.None? {
          assert Trouble(world, time);
          return None;
        }
        See(SawJobs(order[i], jobs.value));
        SnapshotNext(world, old(time), time - 1, time, result, order[i], jobs.value);
        result := result[order[i] := jobs.value];
      }
      assert order[..|order|] == order;
      snapshot := Some(result);
    }

    /** Discover the workers and save them if any are new. */
    method RecordWorkers(r0: Record) returns (ok: bool, r: Record)
      requires Marks(r0) && Evacuating(r0.phase)
      modifies `s, `time
      ensures Since(old(time), old(s.seen), ok) && (ok ==> Marks(r))
      ensures SameButWorkers(r0, r) && s.durable.Some? && SameButWorkers(r0, s.durable.value)
      ensures NewAsListed(r0.workers, s.durable.value.workers, world.pods(old(time)))
      ensures ok ==> world.pods(old(time)).Some? && AllSeen(world.pods(old(time)).value, r)
    {
      r := r0;
      var views := world.pods(time);
      if views.None? {
        assert Trouble(world, time);
        return false, r;
      }
      WitnessedReachable(world, s, began, time);
      ReachableClusters(s);
      var clusters, workers := DiscoverWorkers(r, views.value);
      if clusters == r.clusters && workers == r.workers {
        return true, r;
      }
      ok, r := SaveWorkers(r, views.value, clusters, workers);
    }

    method SaveWorkers(r0: Record, views: seq<PodView>, clusters: map<Cluster, string>, workers: map<Pod, Worker>)
      returns (ok: bool, r: Record)
      requires Marks(r0) && Evacuating(r0.phase) && world.pods(time) == Some(views)
      requires Discovered(r0, views, clusters, workers)
      modifies `s, `time
      ensures Since(old(time), old(s.seen), ok) && Agrees(s) && r == r0.(clusters := clusters, workers := workers)
      ensures s.durable == Some(r) || (!ok && s.durable == Some(r0))
    {
      See(SawPods(views));
      ok, r := SaveState(r0, AddWorkers(views, clusters, workers));
    }

    /** Add the affected jobs and save them if any are new. */
    method RecordJobs(r0: Record, snapshot: Snapshot) returns (ok: bool, r: Record, added: bool)
      requires Marks(r0) && Evacuating(r0.phase)
      modifies `s, `time
      ensures Since(old(time), old(s.seen), ok) && r == r0.(jobs := r.jobs) && JobsAdded(r0, r)
      ensures s.durable == Some(r) || (!ok && s.durable == Some(r0))
      ensures ok ==> Marks(r) && AllRecorded(r, snapshot) && (if added then s.grown else r == r0)
    {
      r := r0;
      var keys := AffectedJobs(r, snapshot);
      added := keys != {};
      ok := true;
      if added {
        ok, r := SaveState(r, AddJobs(keys));
      }
      if ok {
        AddingRecordsAll(r0, snapshot, keys, r);
      }
    }

    /** `reconcileEvacuation`: by the end every worker Pod seen is recorded, new jobs lead back to Draining,
        a reboot is requested only if the world showed in this pass that nothing is left on the node, and
        without trouble the phase stays only if something was. */
    method ReconcileEvacuation(r0: Record) returns (ok: bool, ghost snapshot: Snapshot)
      requires Marks(r0) && Evacuating(r0.phase)
      modifies `s, `time
      ensures Since(old(time), old(s.seen), ok) && (ok ==> Agrees(s)) && Leads(r0)
      ensures NewAsListed(r0.workers, s.durable.value.workers, world.pods(old(time)))
      ensures ok ==> world.pods(old(time)).Some? && AllSeen(world.pods(old(time)).value, s.durable.value)
      ensures s.durable.value.phase == RebootRequested ==> NodeWasEmpty(world, began, time, s.durable.value.workers)
      ensures ok && r0.phase in {Checkpointing, Requeued} && s.durable.value.jobs.Keys != r0.jobs.Keys ==>
        s.durable.value.phase == Draining
      ensures ok ==> MovesTo(r0.phase, s.durable.value.phase)
      ensures ok && s.durable.value.phase == r0.phase ==>
        Occupied(world, old(time), time, SurveyOf(r0, s.durable.value), snapshot)
    {
      var surveyed, found, added;
      ok, surveyed, found, added := Survey(r0);
      snapshot := found;
      if !ok {
        return;
      }
      ghost var before := time;
      ok := DrainAndEvacuate(surveyed, found, added);
      SnapshotLater(world, old(time), old(time), before, time, found);
      if s.durable.value.phase == r0.phase {
        SurveyedAs(r0, surveyed, s.durable.value);
      }
    }

    /** Drain every worker, then go back for new jobs or on with the evacuation. */
    method DrainAndEvacuate(r: Record, snapshot: Snapshot, added: bool) returns (ok: bool)
      requires Marks(r) && Evacuating(r.phase) && snapshot.Keys == r.clusters.Keys && AllRecorded(r, snapshot)
      requires SnapshotSeen(s.seen, snapshot) && (added ==> s.grown)
      modifies `s, `time
      ensures Since(old(time), old(s.seen), ok) && (ok ==> Agrees(s))
      ensures s.durable.Some? && SameButJobs(r.(phase := s.durable.value.phase), s.durable.value)
      ensures MayLeadTo(r.phase, s.durable.value.phase)
      ensures s.durable.value.phase == RebootRequested ==> NodeWasEmpty(world, began, time, r.workers)
      ensures ok && added && r.phase in {Checkpointing, Requeued} ==> s.durable.value.phase == Draining
      ensures ok ==> MovesTo(r.phase, s.durable.value.phase)
      ensures ok && s.durable.value.phase == r.phase && AllEvacuated(r, snapshot) ==>
        SomeWorkerStays(world, old(time), time, r)
    {
      ok := DrainWorkers(r);
      if !ok {
        return;
      }
      if added && r.phase != Isolated && r.phase != Draining {
        ok := SetPhase(r, ReturnToDraining);
      } else {
        ok := Evacuate(r, snapshot);
      }
    }

    /** Ask Slurm to drain the workers. */
    method DrainWorkers(r: Record) returns (ok: bool)
      requires Marks(r)
      modifies `s, `time
      ensures Since(old(time), old(s.seen), ok) && Marks(r) && s.grown == old(s.grown)
      ensures ok <==> world.reply(time) == Done
    {
      Yield();
      ok := world.reply(time).Done?;
      assert !ok ==> Trouble(world, time);
    }

    /** Record the workers there are, and the jobs that use any of them. */
    method Survey(r0: Record) returns (ok: bool, r: Record, snapshot: Snapshot, added: bool)
      requires Marks(r0) && Evacuating(r0.phase)
      modifies `s, `time
      ensures Since(old(time), old(s.seen), ok) && Leads(r0) && s.durable.value.phase == r0.phase
      ensures NewAsListed(r0.workers, s.durable.value.workers, world.pods(old(time)))
      ensures ok ==> Marks(r) && snapshot.Keys == r.clusters.Keys && SnapshotSeen(s.seen, snapshot)
      ensures ok ==> AllRecorded(r, snapshot) && JobsAdded(r0, r) && (if added then s.grown else r.jobs == r0.jobs)
      ensures ok ==> SnapshotTrue(world, old(time), time, snapshot)
      ensures ok ==> world.pods(old(time)).Some? && AllSeen(world.pods(old(time)).value, r)
    {
      snapshot, added := map[], false;
      ok, r := RecordWorkers(r0);
      if !ok {
        return;
      }
      ghost var before := time;
      ok, r, snapshot, added := SurveyJobs(r);
      if ok {
        SnapshotLater(world, old(time), before, time, time, snapshot);
      }
    }

    /** Ask Slurm, and record the jobs that use any of the workers. */
    method SurveyJobs(r0: Record) returns (ok: bool, r: Record, snapshot: Snapshot, added: bool)
      requires Marks(r0) && Evacuating(r0.phase)
      modifies `s, `time
      ensures Since(old(time), old(s.seen), ok) && r == r0.(jobs := r.jobs) && JobsAdded(r0, r)
      ensures s.durable == Some(r) || (!ok && s.durable == Some(r0))
      ensures ok ==> Marks(r) && snapshot.Keys == r.clusters.Keys && SnapshotSeen(s.seen, snapshot)
      ensures ok ==> AllRecorded(r, snapshot) && (if added then s.grown else r == r0)
      ensures ok ==> SnapshotTrue(world, old(time), time, snapshot)
    {
      r, snapshot, added := r0, map[], false;
      var taken := TakeSnapshots(r);
      if taken.None? {
        return false, r, snapshot, added;
      }
      snapshot := taken.value;
      ghost var until := time;
      ok, r, added := RecordJobs(r, snapshot);
      SnapshotLater(world, old(time), old(time), until, time, snapshot);
    }

    /** The part of the pass that depends on the phase. A reboot is requested only when nothing is left. */
    method Evacuate(r: Record, snapshot: Snapshot) returns (ok: bool)
      requires Marks(r) && Evacuating(r.phase) && snapshot.Keys == r.clusters.Keys && AllRecorded(r, snapshot)
      requires SnapshotSeen(s.seen, snapshot)
      modifies `s, `time
      ensures Since(old(time), old(s.seen), ok) && (ok ==> Agrees(s))
      ensures s.durable.Some? && SameButJobs(r.(phase := s.durable.value.phase), s.durable.value)
      ensures StepsTo(r.phase, s.durable.value.phase) || (!ok && s.durable.value.phase == r.phase)
      ensures r.phase == Requeued && !AllEvacuated(r, snapshot) ==> s.durable == Some(r)
      ensures ok && s.durable.value.phase == r.phase && AllEvacuated(r, snapshot) ==>
        SomeWorkerStays(world, old(time), time, r)
      ensures s.durable.value.phase == RebootRequested ==> NodeWasEmpty(world, began, time, r.workers)
    {
      if r.phase == Requeued {
        ok := RequestRebootWhenEmpty(r, snapshot);
      } else {
        ok := MoveJobs(r, snapshot);
      }
    }

    /** The phases in which jobs are moved away. */
    method MoveJobs(r: Record, snapshot: Snapshot) returns (ok: bool)
      requires Marks(r) && Evacuating(r.phase) && r.phase != Requeued
      modifies `s, `time
      ensures Since(old(time), old(s.seen), ok) && (ok ==> Agrees(s))
      ensures s.durable.Some? && SameButJobs(r.(phase := s.durable.value.phase), s.durable.value)
      ensures StepsTo(r.phase, s.durable.value.phase) || (!ok && s.durable.value.phase == r.phase)
      ensures ok && s.durable.value.phase == r.phase ==> !AllEvacuated(r, snapshot)
    {
      if r.phase == Isolated {
        ok := SetPhase(r, Drain);
      } else if r.phase == Draining {
        ok := SignalJobs(r, snapshot);
      } else {
        ok := CheckpointAndRequeue(r, snapshot);
      }
    }

    /** Clean up, and request the reboot if that completes. */
    method RequestRebootWhenEmpty(r: Record, snapshot: Snapshot) returns (ok: bool)
      requires Marks(r) && r.phase == Requeued && snapshot.Keys == r.clusters.Keys && AllRecorded(r, snapshot)
      requires SnapshotSeen(s.seen, snapshot)
      modifies `s, `time
      ensures Since(old(time), old(s.seen), ok) && (ok ==> Agrees(s))
      ensures s.durable == Some(r) || s.durable == Some(r.(phase := RebootRequested))
      ensures s.durable != Some(r) ==> AllEvacuated(r, snapshot) && NodeWasEmpty(world, began, time, r.workers)
      ensures ok && s.durable == Some(r) && AllEvacuated(r, snapshot) ==> SomeWorkerStays(world, old(time), time, r)
    {
      var sight;
      ok, sight := Cleanup(r, snapshot);
      if sight.Some? {
        ok := SetPhase(r, RequestReboot(sight.value));
        WitnessedTruthful(world, s, began, time);
        SightMeansEmpty(world, began, time, s.seen, r, sight.value);
      }
    }

    /** `signalJobs`, and the move to Checkpointing: by then every job has been signalled or was seen
        to be evacuated. */
    method SignalJobs(r0: Record, snapshot: Snapshot) returns (ok: bool)
      requires Marks(r0) && r0.phase == Draining
      modifies `s, `time
      ensures Since(old(time), old(s.seen), ok) && (ok ==> Agrees(s)) && s.durable.Some?
      ensures SameButJobs(r0.(phase := s.durable.value.phase), s.durable.value)
      ensures s.durable.value.phase == Draining || s.durable.value.phase == SignalsLeadTo(r0)
      ensures ok ==> s.durable.value.phase == SignalsLeadTo(r0)
      ensures s.durable.value.phase != Draining ==> forall k :: k in r0.jobs ==> Notified(s.durable.value.jobs[k])
    {
      var r := r0;
      var order := ListKeys(r.jobs);
      for i := 0 to |order|
        invariant Since(old(time), old(s.seen), true) && Marks(r) && SameButJobs(r0, r)
        invariant NotifiedSoFar(r, order[..i])
      {
        ghost var before := r;
        ok, r := SignalJob(r, order[i], snapshot);
        if !ok {
          return;
        }
        NotifiedNext(before, r, order, i);
      }
      assert order[..|order|] == order;
      SameEmptiness(r, r0);
      ok := SetPhase(r, SignalsDone);
    }

    /** One job: evacuated already, signalled already, or to be signalled now. */
    method SignalJob(r0: Record, k: JobKey, snapshot: Snapshot) returns (ok: bool, r: Record)
      requires Marks(r0) && r0.phase == Draining && k in r0.jobs
      modifies `s, `time
      ensures Since(old(time), old(s.seen), ok) && (ok ==> Marks(r) && Moved(r0, r, k) && Notified(r.jobs[k]))
      ensures s.durable.Some? && Moved(r0, s.durable.value, k)
    {
      r := r0;
      var gone := CheckEvacuated(r.jobs[k], k.id, WorkerNames(r.workers, k.cluster), JobsOf(snapshot, k.cluster));
      if gone {
        ok, r := SaveJob(r, k, NoteEvacuated);
      } else if r.jobs[k].signalSent {
        ok := true;
      } else {
        ok, r := SendSignal(r, k);
      }
    }

    /** One step of one job, saved. */
    method SaveJob(r: Record, k: JobKey, step: JobStep) returns (ok: bool, next: Record)
      requires Marks(r) && k in r.jobs && JobMay(s, r, k, step)
      modifies `s, `time
      ensures Since(old(time), old(s.seen), ok) && Agrees(s) && s.durable.Some?
      ensures Moved(r, next, k) && next.jobs[k] == Stepped(r.jobs[k], step)
      ensures s.durable.value == next || (!ok && s.durable.value == r)
      ensures s.signalled == old(s.signalled) && s.requeued == old(s.requeued)
    {
      ok, next := SaveState(r, OnJob(k, step));
    }

    method CallSignal(r: Record, k: JobKey) returns (ok: bool)
      requires Marks(r) && r.phase == Draining && k in r.jobs
      requires r.jobs[k].signalRequestedAt.Some? && !r.jobs[k].signalSent
      modifies `s, `time
      ensures Since(old(time), old(s.seen), ok) && Marks(r) && (ok ==> (r.incident, k) in s.signalled)
      ensures ok ==> s.signalled == old(s.signalled) + {(r.incident, k)}
    {
      ok := Call(Signal(k));
    }

    method CallRequeue(r: Record, k: JobKey, now: int) returns (ok: bool)
      requires Marks(r) && r.phase == Checkpointing && k in r.jobs && r.jobs[k].requeueRequestedAt.Some?
      requires !r.jobs[k].requeueSent && ReadyToRequeue(r.jobs[k], now) && SawClock(now) in s.seen
      modifies `s, `time
      ensures Since(old(time), old(s.seen), ok) && Marks(r)
      ensures ok ==> s.requeued == old(s.requeued) + {(r.incident, k)}
    {
      ok := Call(Requeue(k, now));
    }

    /** Save the intent, signal, and note the signal: without trouble the job's signal is the one call made,
        and its intent bears the time it bore before or the time read now. */
    method SendSignal(r0: Record, k: JobKey) returns (ok: bool, r: Record)
      requires Marks(r0) && r0.phase == Draining && k in r0.jobs && !r0.jobs[k].signalSent
      modifies `s, `time
      ensures Since(old(time), old(s.seen), ok) && (ok ==> Marks(r) && Moved(r0, r, k))
      ensures ok ==> s.signalled == old(s.signalled) + {(r0.incident, k)}
      ensures ok ==> r.jobs[k] == r0.jobs[k].(signalSent := true, signalRequestedAt := Some(
        if r0.jobs[k].signalRequestedAt.Some? then r0.jobs[k].signalRequestedAt.value else world.clock(old(time))))
      ensures s.durable.Some? && Moved(r0, s.durable.value, k)
    {
      ok, r := IntendSignal(r0, k);
      if ok {
        ok := CallSignal(r, k);
      }
      if ok {
        ok, r := SaveJob(r, k, NoteSignal);
      }
    }

    /** The intent is saved once, with the time read. */
    method IntendSignal(r0: Record, k: JobKey) returns (ok: bool, r: Record)
      requires Marks(r0) && r0.phase == Draining && k in r0.jobs && !r0.jobs[k].signalSent
      modifies `s, `time
      ensures Since(old(time), old(s.seen), ok) && Agrees(s) && s.signalled == old(s.signalled)
      ensures Moved(r0, r, k) && (s.durable == Some(r) || (!ok && s.durable == Some(r0)))
      ensures r.jobs[k] == r0.jobs[k].(signalRequestedAt := Some(
        if r0.jobs[k].signalRequestedAt.Some? then r0.jobs[k].signalRequestedAt.value else world.clock(old(time))))
    {
      r, ok := r0, true;
      if r.jobs[k].signalRequestedAt.None? {
        var now := world.clock(time);
        See(SawClock(now));
        ok, r := SaveJob(r, k, RequestSignal(now));
      }
    }

    /** `checkpointAndRequeue`: the phase moves on only, and without trouble exactly, when every job was
        evacuated. */
    method CheckpointAndRequeue(r0: Record, snapshot: Snapshot) returns (ok: bool)
      requires Marks(r0) && r0.phase == Checkpointing
      modifies `s, `time
      ensures Since(old(time), old(s.seen), ok) && (ok ==> Agrees(s)) && s.durable.Some?
      ensures SameButJobs(r0.(phase := s.durable.value.phase), s.durable.value)
      ensures s.durable.value.phase in {Checkpointing, Requeued}
      ensures s.durable.value.phase == Requeued ==> AllEvacuated(r0, snapshot)
      ensures ok && AllEvacuated(r0, snapshot) ==> s.durable.value.phase == Requeued
    {
      var r, all;
      ok, r, all := RequeueJobs(r0, snapshot);
      if ok && all {
        ok := SetPhase(r, JobsDone);
      }
    }

    /** The loop over the jobs; it ends early at a job that is not evacuated and was not signalled. */
    method RequeueJobs(r0: Record, snapshot: Snapshot) returns (ok: bool, r: Record, all: bool)
      requires Marks(r0) && r0.phase == Checkpointing
      modifies `s, `time
      ensures Since(old(time), old(s.seen), ok) && s.durable.Some? && SameButJobs(r0, s.durable.value)
      ensures ok ==> Marks(r) && all == AllEvacuated(r0, snapshot)
    {
      r, all := r0, true;
      var order := ListKeys(r.jobs);
      for i := 0 to |order|
        invariant Since(old(time), old(s.seen), true) && Marks(r) && SameButJobs(r0, r)
        invariant StillToVisit(r0, r, order[i..]) && all == GoneSoFar(r0, snapshot, order[..i])
      {
        var k := order[i];
        VisitNext(r0, r, snapshot, order, i);
        var gone, before := false, r;
        ok, r, gone := EvacuateJob(r, k, snapshot);
        if !ok {
          return;
        }
        VisitMoved(r0, before, r, order, i);
        all := all && gone;
        if !gone && (r.jobs[k].signalRequestedAt.None? || !r.jobs[k].signalSent) {
          return true, r, false;
        }
      }
      assert order[..|order|] == order;
      ok := true;
    }

    /** One job of that loop: noted as evacuated, or, once signalled, requeued when it is time. */
    method EvacuateJob(r0: Record, k: JobKey, snapshot: Snapshot) returns (ok: bool, r: Record, gone: bool)
      requires Marks(r0) && r0.phase == Checkpointing && k in r0.jobs
      modifies `s, `time
      ensures gone == JobGone(r0, snapshot, k)
      ensures Since(old(time), old(s.seen), ok) && (ok ==> Marks(r) && Moved(r0, r, k))
      ensures s.durable.Some? && Moved(r0, s.durable.value, k)
      ensures ok && gone ==> r.jobs[k].evacuated
      ensures ok && !gone && r.jobs[k].signalRequestedAt.Some? && r.jobs[k].signalSent ==>
        Attended(world, old(time), time, r.jobs[k])
    {
      r, ok := r0, true;
      gone := CheckEvacuated(r.jobs[k], k.id, WorkerNames(r.workers, k.cluster), JobsOf(snapshot, k.cluster));
      if gone {
        if !r.jobs[k].evacuated {
          ok, r := SaveJob(r, k, NoteEvacuated);
        }
      } else if r.jobs[k].signalRequestedAt.Some? && r.jobs[k].signalSent {
        ok, r := RequeueJob(r, k);
      }
    }

    /** One signalled job: look for its checkpoint, wait out the grace, then requeue it once. A checkpoint
        is noted only if there was one in this pass, and a requeue sent only if it was due by the clock. */
    method RequeueJob(r0: Record, k: JobKey) returns (ok: bool, r: Record)
      requires Marks(r0) && r0.phase == Checkpointing && k in r0.jobs
      requires r0.jobs[k].signalRequestedAt.Some? && r0.jobs[k].signalSent
      modifies `s, `time
      ensures Since(old(time), old(s.seen), ok) && (ok ==> Marks(r))
      ensures s.durable.Some? && Moved(r0, s.durable.value, k)
      ensures Sooner(world, old(time), time, k, r0.jobs[k], s.durable.value.jobs[k])
      ensures ok ==> Attended(world, old(time), time, r.jobs[k])
    {
      ok, r := NoteCheckpointOf(r0, k);
      if ok {
        ok, r := RequeueWhenDue(r, k);
      }
    }

    /** Requeue the job if that is due by the clock and was not done. */
    method RequeueWhenDue(r0: Record, k: JobKey) returns (ok: bool, r: Record)
      requires Marks(r0) && r0.phase == Checkpointing && k in r0.jobs
      modifies `s, `time
      ensures Since(old(time), old(s.seen), ok) && (ok ==> Marks(r))
      ensures s.durable.Some? && Moved(r0, s.durable.value, k)
      ensures var j, now := s.durable.value.jobs[k], world.clock(old(time));
        && j == r0.jobs[k].(requeueSent := j.requeueSent, requeueRequestedAt := j.requeueRequestedAt)
        && (j.requeueSent ==> r0.jobs[k].requeueSent || DueBy(j, now))
        && (ok && DueBy(j, now) ==> j.requeueSent)
    {
      r, ok := r0, true;
      var now := world.clock(time);
      if ReadyToRequeue(r.jobs[k], now) && !r.jobs[k].requeueSent {
        See(SawClock(now));
        ok, r := SendRequeue(r, k, now);
      }
    }

    /** Look for a checkpoint that has not been noted, and note it. */
    method NoteCheckpointOf(r0: Record, k: JobKey) returns (ok: bool, r: Record)
      requires Marks(r0) && r0.phase == Checkpointing && k in r0.jobs && r0.jobs[k].signalSent
      modifies `s, `time
      ensures Since(old(time), old(s.seen), ok) && (ok ==> Marks(r))
      ensures s.durable.Some? && Moved(r0, s.durable.value, k)
      ensures var found := !r0.jobs[k].checkpointSeen && world.checkpoint(old(time) + 1, k);
        if found then s.durable.value.jobs[k] == r0.jobs[k].(checkpointSeen := true) || (!ok && s.durable == Some(r0))
        else s.durable == Some(r0)
    {
      r, ok := r0, true;
      if !r.jobs[k].checkpointSeen {
        Yield();
        if world.checkpoint(time, k) {
          See(SawCheckpoint(k));
          ok, r := SaveJob(r, k, NoteCheckpoint);
        }
      }
    }

    /** Save the intent, requeue, and note the requeue: without trouble the job's requeue is the one call
        made. */
    method SendRequeue(r0: Record, k: JobKey, now: int) returns (ok: bool, r: Record)
      requires Marks(r0) && r0.phase == Checkpointing && k in r0.jobs && SawClock(now) in s.seen
      requires ReadyToRequeue(r0.jobs[k], now) && !r0.jobs[k].requeueSent
      modifies `s, `time
      ensures Since(old(time), old(s.seen), ok) && (ok ==> Marks(r) && Moved(r0, r, k))
      ensures ok ==> s.requeued == old(s.requeued) + {(r0.incident, k)}
      ensures ok ==> r.jobs[k] == r0.jobs[k].(requeueSent := true, requeueRequestedAt := Some(
        if r0.jobs[k].requeueRequestedAt.Some? then r0.jobs[k].requeueRequestedAt.value else now))
      ensures s.durable.Some? && Moved(r0, s.durable.value, k)
      ensures var j := s.durable.value.jobs[k];
        r0.jobs[k] == j.(requeueSent := r0.jobs[k].requeueSent, requeueRequestedAt := r0.jobs[k].requeueRequestedAt)
    {
      ok, r := IntendRequeue(r0, k, now);
      if ok {
        ok := CallRequeue(r, k, now);
      }
      if ok {
        ok, r := SaveJob(r, k, NoteRequeue);
      }
    }

    /** The intent is saved once. */
    method IntendRequeue(r0: Record, k: JobKey, now: int) returns (ok: bool, r: Record)
      requires Marks(r0) && r0.phase == Checkpointing && k in r0.jobs && SawClock(now) in s.seen
      requires ReadyToRequeue(r0.jobs[k], now) && !r0.jobs[k].requeueSent
      modifies `s, `time
      ensures Since(old(time), old(s.seen), ok) && Agrees(s) && s.requeued == old(s.requeued)
      ensures Moved(r0, r, k) && (s.durable == Some(r) || (!ok && s.durable == Some(r0)))
      ensures r.jobs[k] == r0.jobs[k].(requeueRequestedAt := Some(
        if r0.jobs[k].requeueRequestedAt.Some? then r0.jobs[k].requeueRequestedAt.value else now))
    {
      r, ok := r0, true;
      if r.jobs[k].requeueRequestedAt.None? {
        ok, r := SaveJob(r, k, RequestRequeue(now));
      }
    }

    /** `cleanupEvacuatedWorkers`: it completes only when this pass has read that the node is evacuated. */
    method Cleanup(r: Record, snapshot: Snapshot) returns (ok: bool, sight: Option<Sight>)
      requires Marks(r) && snapshot.Keys == r.clusters.Keys && AllRecorded(r, snapshot)
      requires SnapshotSeen(s.seen, snapshot)
      modifies `s, `time
      ensures Since(old(time), old(s.seen), ok) && Marks(r)
      ensures sight.Some? ==> ok && Evacuated(r, sight.value) && Sighted(s.seen, sight.value)
      ensures sight.Some? ==> sight.value.jobs == snapshot && AllEvacuated(r, snapshot)
      ensures sight.Some? ==> WorkersWereGone(world, old(time), time, r)
      ensures ok && sight.None? && AllEvacuated(r, snapshot) ==> SomeWorkerStays(world, old(time), time, r)
    {
      var all := CheckAllEvacuated(r, snapshot);
      if !all {
        return true, None;
      }
      NothingSlipsThrough(r, snapshot);
      WitnessedReachable(world, s, began, time);
      ReachableClusters(s);
      var gone, pods, claims;
      ok, gone, pods, claims := RemoveWorkers(r);
      sight := if ok && gone then Some(Sight(snapshot, pods, claims)) else None;
    }

    /** Delete the workers' Slurm nodes, Pods and claims; done only when all were seen to be gone. */
    method RemoveWorkers(r: Record) returns (ok: bool, gone: bool, pods: set<Pod>, claims: set<Pod>)
      requires Marks(r)
      modifies `s, `time
      ensures Since(old(time), old(s.seen), ok) && Marks(r)
      ensures GoneSeen(s.seen, pods, claims) && WereGone(world, old(time), time, pods, claims)
      ensures ok && gone ==> forall pod :: pod in r.workers ==> WorkerGone(r, pod, pods, claims)
      ensures ok && !gone ==> SomeWorkerStays(world, old(time), time, r)
    {
      pods, claims, gone := {}, {}, true;
      Yield();
      if world.reply(time) != Done {
        assert Trouble(world, time);
        return false, false, pods, claims;
      }
      var order := ListKeys(r.workers);
      for i := 0 to |order|
        invariant Since(old(time), old(s.seen), true) && Marks(r)
        invariant Removed(world, old(time), time, s.seen, r, order[..i], gone, pods, claims)
      {
        ghost var before, seen := time, s.seen;
        var podGone, claimGone;
        ok, podGone, claimGone := RemoveWorker(r, order[i]);
        RemovedNext(world, old(time), before, time, seen, s.seen, r, order, i, gone, pods, claims,
                    ok, podGone, claimGone);
        pods := if podGone then pods + {order[i]} else pods;
        claims := if claimGone then claims + {order[i]} else claims;
        if !ok {
          return false, false, pods, claims;
        }
        gone := gone && podGone && (r.workers[order[i]].claim != "" ==> claimGone);
      }
      assert order[..|order|] == order;
      ok := true;
    }

    /** One worker: a Pod that is there is deleted; the claim is deleted once the Pod is gone. */
    method RemoveWorker(r: Record, pod: Pod) returns (ok: bool, podGone: bool, claimGone: bool)
      requires Marks(r) && pod in r.workers
      modifies `s, `time
      ensures Since(old(time), old(s.seen), ok) && Marks(r)
      ensures podGone ==> SawPodGone(pod) in s.seen && PodWasAbsent(world, old(time), time, pod)
      ensures claimGone ==> SawClaimGone(pod) in s.seen && ClaimWasAbsent(world, old(time), time, pod)
      ensures ok && !(podGone && (r.workers[pod].claim != "" ==> claimGone)) ==>
        exists t :: old(time) <= t <= time && Stays(world, t, pod)
    {
      podGone, claimGone := false, false;
      Yield();
      var seen := world.pod(time, pod);
      if seen.Unreadable? {
        assert Trouble(world, time);
        return false, podGone, claimGone;
      }
      if seen.Present? {
        assert Stays(world, time, pod);
        Yield();
        ok := world.reply(time).Done?; // its deletion
        assert !ok ==> Trouble(world, time);
        return ok, podGone, claimGone;
      }
      podGone := true;
      See(SawPodGone(pod));
      if r.workers[pod].claim == "" {
        return true, podGone, claimGone;
      }
      Yield();
      var claim := world.claim(time, pod);
      if claim.Unreadable? {
        assert Trouble(world, time);
        return false, podGone, claimGone;
      }
      assert claim.Present? ==> Stays(world, time, pod);
      if claim.Absent? {
        claimGone := true;
        See(SawClaimGone(pod));
      }
      ok := true;
    }

    // ---- Reboot and verification ----

    /** `reconcileReboot`. Out of time it gives up; an acknowledgement of this incident moves it to
        Rebooting; and a boot other than the one before the fault and the one recorded gives up too. */
    method ReconcileReboot(r0: Record, requestedAt: int) returns (ok: bool)
      requires Marks(r0) && Asking(r0.phase)
      modifies `s, `time
      ensures Since(old(time), old(s.seen), ok) && (ok ==> Agrees(s) && world.node(old(time) + 1).Some?)
      ensures Leads(r0) && (s.durable.value.phase == Rebooting ==> r0.incident in s.acked)
      ensures s.durable.value.phase == Verifying ==>
        && s.durable.value.preHash != ""
        && InventoryWasShown(world, began, time, s.durable.value.preHash, s.durable.value.newBoot)
      ensures ok && world.clock(old(time) + 1) - requestedAt >= world.rebootTimeout ==>
        s.durable.value.phase == ManualRepair
      ensures ok && world.clock(old(time) + 1) - requestedAt < world.rebootTimeout && r0.phase == RebootRequested ==>
        if old(s.node.ack) == r0.incident then s.durable == Some(r0.(phase := Rebooting))
        else s.durable == Some(r0) || s.durable == Some(r0.(phase := Rebooting))
      ensures ok && world.clock(old(time) + 1) - requestedAt < world.rebootTimeout && r0.phase == Rebooting ==>
        BootsLeadTo(world.node(old(time) + 1).value.boot, r0, s.durable.value)
    {
      var r := r0;
      Yield();
      RebootWasAcknowledged(r);
      var ack, retry, node := s.node.ack, s.node.retry, world.node(time);
      if node.None? {
        assert Trouble(world, time);
        return false;
      }
      See(SawRetry(retry));
      if world.clock(time) - requestedAt >= world.rebootTimeout {
        ok := EnterManualRepair(r, retry);
        return;
      }
      if r.phase == RebootRequested {
        ok := ConfirmAcknowledgement(r, ack);
        return;
      }
      ok := AwaitBoot(r, node.value, retry);
    }

    /** A rebooting incident has been acknowledged. */
    lemma RebootWasAcknowledged(r: Record)
      requires Holds(r)
      ensures r.phase == Rebooting ==> r.incident in s.acked
    {
      var trace, actions, times := Unlock(world, s, began, time);
      if r.phase == Rebooting {
        var k := ConfirmedAt(trace, actions, |actions|, r);
        RunKnown(trace, actions, k);
        AcksLast(trace, actions, k, |actions|, r.incident);
      }
    }

    method ConfirmAcknowledgement(r: Record, ack: string) returns (ok: bool)
      requires Marks(r) && r.phase == RebootRequested && ack == s.node.ack
      modifies `s, `time
      ensures Since(old(time), old(s.seen), ok) && (ok ==> Agrees(s))
      ensures s.durable == Some(r) || (s.durable == Some(r.(phase := Rebooting)) && r.incident in s.acked)
      ensures ok ==> s.durable == Some(if ack == r.incident then r.(phase := Rebooting) else r)
    {
      ok := true;
      if ack == r.incident {
        See(SawAck(ack));
        WitnessedReachable(world, s, began, time);
        ReachableKnown(s);
        ok := SetPhase(r, ConfirmAck);
      }
    }

    /** A node that is up again: its new boot is recorded once. */
    method AwaitBoot(r0: Record, node: NodeView, retry: string) returns (ok: bool)
      requires Marks(r0) && r0.phase == Rebooting && world.node(time) == Some(node) && SawRetry(retry) in s.seen
      modifies `s, `time
      ensures Since(old(time), old(s.seen), ok) && (ok ==> Agrees(s)) && Leads(r0)
      ensures old(s.acked) <= s.acked
      ensures s.durable.value.phase == Verifying ==>
        && s.durable.value.preHash != ""
        && InventoryWasShown(world, began, time, s.durable.value.preHash, s.durable.value.newBoot)
      ensures ok ==> BootsLeadTo(node.boot, r0, s.durable.value)
    {
      if node.boot == "" || node.boot == r0.preBoot {
        return true;
      }
      if r0.newBoot != "" && r0.newBoot != node.boot {
        ok := EnterManualRepair(r0, retry);
        return;
      }
      var r;
      ok, r := NoteBoot(r0, node);
      if ok {
        ok := AwaitInventory(r, node, retry);
      }
    }

    /** Read the node, and record its boot if none is. */
    method NoteBoot(r0: Record, node: NodeView) returns (ok: bool, r: Record)
      requires Marks(r0) && r0.phase == Rebooting && world.node(time) == Some(node)
      requires node.boot != "" && node.boot != r0.preBoot && (r0.newBoot == "" || r0.newBoot == node.boot)
      modifies `s, `time
      ensures Since(old(time), old(s.seen), ok) && Agrees(s) && old(s.acked) <= s.acked
      ensures s.durable == Some(r) || (!ok && s.durable == Some(r0))
      ensures r == if r0.newBoot == "" then r0.(newBoot := node.boot, readySince := None) else r0
      ensures SawInventory(node.inventoryHash, node.inventoryBoot) in s.seen
    {
      r, ok := r0, true;
      See(SawBoot(node.boot));
      See(SawInventory(node.inventoryHash, node.inventoryBoot));
      if r.newBoot == "" {
        ok, r := SaveState(r, RecordBoot(node.boot));
      }
    }

    /** The rest of `reconcileReboot`, once the new boot is recorded: readiness, inventory, verification.
        A failure to save that readiness was lost is ignored. */
    method AwaitInventory(r0: Record, node: NodeView, retry: string) returns (ok: bool)
      requires Marks(r0) && r0.phase == Rebooting && r0.newBoot != "" && SawRetry(retry) in s.seen
      requires SawInventory(node.inventoryHash, node.inventoryBoot) in s.seen
      modifies `s, `time
      ensures Since(old(time), old(s.seen), ok) && (ok ==> Agrees(s)) && Leads(r0)
      ensures Kept(r0, s.durable.value) && old(s.acked) <= s.acked
      ensures s.durable.value.phase == Verifying ==>
        InventoryWasShown(world, began, time, r0.preHash, r0.newBoot) && r0.preHash != ""
      ensures !node.ready ==> s.durable == Some(r0.(readySince := None)) || s.durable == Some(r0)
      ensures ok && node.ready && r0.readySince.None? ==>
        s.durable == Some(r0.(readySince := Some(world.clock(old(time)))))
      ensures ok && node.ready && r0.readySince.Some? ==>
        InventoryLeadsTo(node, world.clock(old(time)) - r0.readySince.value, r0, s.durable.value)
    {
      var r, now := r0, world.clock(time);
      See(SawClock(now));
      if !node.ready {
        if r.readySince.Some? {
          ok, r := SaveState(r, NoteReady(None));
        }
        ok := true;
      } else if r.readySince.None? {
        ok, r := SaveState(r, NoteReady(Some(now)));
      } else {
        ok := CheckInventory(r, node, now, retry);
      }
    }

    /** A node that has been ready: its inventory must come in time and be the one from before the fault. */
    method CheckInventory(r: Record, node: NodeView, now: int, retry: string) returns (ok: bool)
      requires Marks(r) && r.phase == Rebooting && r.newBoot != "" && r.readySince.Some? && SawRetry(retry) in s.seen
      requires SawInventory(node.inventoryHash, node.inventoryBoot) in s.seen && SawClock(now) in s.seen
      modifies `s, `time
      ensures Since(old(time), old(s.seen), ok) && (ok ==> Agrees(s)) && Leads(r)
      ensures Kept(r, s.durable.value) && old(s.acked) <= s.acked
      ensures s.durable.value.phase == Verifying ==>
        InventoryWasShown(world, began, time, r.preHash, r.newBoot) && r.preHash != ""
      ensures ok ==> InventoryLeadsTo(node, now - r.readySince.value, r, s.durable.value)
    {
      ok := true;
      if now - r.readySince.value < STABLE {
        return;
      }
      if node.inventoryBoot != r.newBoot || node.inventoryHash == "" {
        if now - r.readySince.value >= VERIFIER_TIMEOUT {
          ok := EnterManualRepair(r, retry);
        }
      } else if r.preHash == "" || node.inventoryHash != r.preHash {
        ok := EnterManualRepair(r, retry);
      } else {
        ok := BeginVerification(r, node, now, retry);
        WitnessedTruthful(world, s, began, time);
        InventorySeen(world, began, time, node.inventoryHash, node.inventoryBoot);
      }
    }

    /** The inventory matches: note the start, create the verifiers, and move on. */
    method BeginVerification(r0: Record, node: NodeView, now: int, retry: string) returns (ok: bool)
      requires Marks(r0) && r0.phase == Rebooting && r0.newBoot != "" && node.inventoryBoot == r0.newBoot
      requires node.inventoryHash == r0.preHash != "" && SawRetry(retry) in s.seen && SawClock(now) in s.seen
      requires SawInventory(node.inventoryHash, node.inventoryBoot) in s.seen
      modifies `s, `time
      ensures Since(old(time), old(s.seen), ok) && (ok ==> Agrees(s)) && Leads(r0)
      ensures Kept(r0, s.durable.value) && old(s.acked) <= s.acked
      ensures ok ==> s.durable.value.phase in {Verifying, ManualRepair}
      ensures ok ==>
        s.durable.value.verificationStarted == Some(
          if r0.verificationStarted.Some? then r0.verificationStarted.value else now)
    {
      var r;
      ok, r := NoteStart(r0, now);
      if !ok {
        return;
      }
      Yield();
      if world.reply(time) != Done {
        ok := EnterManualRepair(r, retry);
        return;
      }
      ok := SetPhase(r, Verify(node.inventoryHash, node.inventoryBoot));
    }

    /** The start of the verification is noted once. */
    method NoteStart(r0: Record, now: int) returns (ok: bool, r: Record)
      requires Marks(r0) && r0.phase == Rebooting && r0.newBoot != "" && SawClock(now) in s.seen
      modifies `s, `time
      ensures Since(old(time), old(s.seen), ok) && Agrees(s) && old(s.acked) <= s.acked
      ensures s.durable == Some(r) || (!ok && s.durable == Some(r0))
      ensures r == r0.(verificationStarted :=
        Some(if r0.verificationStarted.Some? then r0.verificationStarted.value else now))
    {
      r, ok := r0, true;
      if r.verificationStarted.None? {
        ok, r := SaveState(r, StartVerification(now));
      }
    }

    /** Verification never started, is at least 120 seconds old, or has no sound inventory to go by. */
    predicate CannotVerify(r: Record, t: nat) {
      || r.verificationStarted.None? || world.clock(t) - r.verificationStarted.value >= 120 || !SoundInventory(r)
    }

    /** `reconcileVerification`: late or without an inventory it gives up; before the pass it can only
        pass, wait or give up; after it, it waits for the fault to be gone and then lifts the quarantine. */
    method ReconcileVerification(r: Record, raw: Status, retry: string) returns (ok: bool)
      requires Marks(r) && r.phase == Verifying && SawRaw(raw) in s.seen && SawRetry(retry) in s.seen
      modifies `s, `time
      ensures Since(old(time), old(s.seen), ok) && (ok ==> Agrees(s))
      ensures s.durable.Some? ==> s.durable.value.incident == r.incident && s.durable.value.workers == r.workers
      ensures s.durable.Some? ==> s.durable.value.phase in {Verifying, ManualRepair}
      ensures CannotVerify(r, old(time)) ==> s.durable.Some? && (ok ==> s.durable.value.phase == ManualRepair)
      ensures s.durable.None? ==> r.verificationPassed && NoFaultIn(world, began, time)
      ensures s.durable.Some? && s.durable.value.verificationPassed && !r.verificationPassed ==>
        CellsSucceeded(world, began, time, s.durable.value) && NoFaultIn(world, began, time)
      ensures s.durable.Some? && s.durable.value.phase == Verifying ==>
        s.durable == Some(r) || s.durable == Some(r.(verificationPassed := true))
      ensures ok && r.verificationPassed && !CannotVerify(r, old(time)) && raw == No ==>
        (world.verifiersGone(old(time) + 1) ==> s.durable.None? && r.incident in s.lifted)
    {
      CellsAreTheInventory(r);
      if r.verificationStarted.None? || world.clock(time) - r.verificationStarted.value >= VERIFIER_TIMEOUT
         || CellsOf(r).None?
      {
        ok := EnterManualRepair(r, retry);
        return;
      }
      if !r.verificationPassed {
        ok := PassVerifiers(r, CellsOf(r).value, raw, retry);
        return;
      }
      if raw != No {
        return true;
      }
      Yield();
      if world.reply(time) != Done {
        assert Trouble(world, time);
        return false;
      }
      if !world.verifiersGone(time) {
        return true;
      }
      ok := LiftQuarantine(r);
      WitnessedTruthful(world, s, began, time);
      NoFaultSeen(world, began, time);
    }

    /** One pass over the verifiers: a failed one gives up, and only all of them succeeding, with no
        fault reported, passes. */
    method PassVerifiers(r: Record, cells: seq<int>, raw: Status, retry: string) returns (ok: bool)
      requires Marks(r) && r.phase == Verifying && !r.verificationPassed && CellsOf(r) == Some(cells)
      requires SawRaw(raw) in s.seen && SawRetry(retry) in s.seen
      modifies `s, `time
      ensures Since(old(time), old(s.seen), ok) && (ok ==> Agrees(s))
      ensures || s.durable == Some(r) || s.durable == Some(r.(verificationPassed := true))
              || s.durable == Some(r.(phase := ManualRepair, manualRequest := retry))
      ensures s.durable.value.verificationPassed ==>
        CellsSucceeded(world, began, time, r) && NoFaultIn(world, began, time)
      ensures ok && raw == No && CellsStaySound(world, old(time), time, cells) ==>
        s.durable == Some(r.(verificationPassed := true))
      ensures s.durable.value.phase == ManualRepair ==> SomeFailed(world, old(time), time, cells)
    {
      var outcome, succeeded := CheckVerifiers(r, cells);
      match outcome
      case Unread => ok := false;
      case Missing =>
        Yield();
        ok := world.reply(time).Done?;
        assert !ok ==> Trouble(world, time);
      case Failed => ok := EnterManualRepair(r, retry);
      case Checked =>
        ok := true;
        if succeeded && raw == No {
          WitnessedTruthful(world, s, began, time);
          SeenMeansSucceeded(world, began, time, s.seen, r);
          NoFaultSeen(world, began, time);
          var next;
          ok, next := SaveState(r, Pass);
        }
    }

    /** The loop over the cells' verifier Jobs: it stops at a missing, unreadable or failed one, and all
        have succeeded only if each was seen to. */
    method CheckVerifiers(r: Record, cells: seq<int>) returns (outcome: Outcome, succeeded: bool)
      requires Marks(r) && CellsOf(r) == Some(cells)
      modifies `s, `time
      ensures Since(old(time), old(s.seen), outcome != Unread) && Marks(r)
      ensures outcome == Failed ==> SomeFailed(world, old(time), time, cells)
      ensures outcome != Unread && !succeeded ==> !CellsStaySound(world, old(time), time, cells)
      ensures outcome == Checked ==> (succeeded <==> SoundInTurn(world, old(time) + 1, cells, |cells|))
      ensures succeeded ==> outcome == Checked && AllCellsSeen(s.seen, r)
    {
      succeeded := true;
      for i := 0 to |cells|
        invariant Since(old(time), old(s.seen), true) && Marks(r) && time == old(time) + i
        invariant succeeded <==> SoundInTurn(world, old(time) + 1, cells, i)
        invariant succeeded ==> forall k :: 0 <= k < i ==> SawVerifier(cells[k], 0, 1) in s.seen
      {
        var one;
        outcome, one := CheckVerifier(r, cells[i]);
        if outcome != Checked {
          return outcome, false;
        }
        succeeded := succeeded && one;
      }
      outcome := Checked;
    }

    /** One verifier Job. */
    method CheckVerifier(r: Record, numa: int) returns (outcome: Outcome, succeeded: bool)
      requires Marks(r)
      modifies `s, `time
      ensures Since(old(time), old(s.seen), outcome != Unread) && Marks(r) && time == old(time) + 1
      ensures var job := world.verifier(time, numa);
        && outcome == (if job.NoJob? then Missing else if job.NotRead? then Unread
                       else if job.failed != 0 then Failed else Checked)
        && (succeeded <==> job == Counts(0, 1)) && (succeeded ==> SawVerifier(numa, 0, 1) in s.seen)
    {
      Yield();
      var job := world.verifier(time, numa);
      succeeded := job == Counts(0, 1);
      if job.NoJob? {
        return Missing, succeeded;
      }
      if job.NotRead? {
        assert Trouble(world, time);
        return Unread, succeeded;
      }
      See(SawVerifier(numa, job.failed, job.succeeded));
      return if job.failed != 0 then Failed else Checked, succeeded;
    }

    /** The node is set healthy, and then the record is deleted. */
    method LiftQuarantine(r: Record) returns (ok: bool)
      requires Holds(r) && Verified(s) && SawRaw(No) in s.seen
      modifies `s, `time
      ensures Since(old(time), old(s.seen), ok) && (ok ==> Agrees(s) && s.durable.None? && r.incident in s.lifted)
      ensures s.durable == Some(r) || s.durable.None?
    {
      ok := SetHealthy(r);
      if ok {
        ok := Call(Forget);
      }
    }

    /** `setHealthy` for a passed incident: unmark the node, then clear its condition. */
    method SetHealthy(r: Record) returns (ok: bool)
      requires Holds(r) && Verified(s) && SawRaw(No) in s.seen
      modifies `s, `time
      ensures Since(old(time), old(s.seen), ok) && Holds(r) && (ok ==> r.incident in s.lifted)
      ensures ok ==> s.node.incident == "" && s.node.phase == None && s.node.request == "" && !s.degraded
    {
      ok := Call(Lift);
      if ok {
        ok := Call(SetCondition(false));
      }
    }

    // ---- A whole pass ----

    /** The state a pass works on: the durable one, or a new one. None ends the pass. */
    method LoadOrCreate(raw: Status, facts: Facts) returns (ok: bool, r: Option<Record>)
      requires Valid() && SawRaw(raw) in s.seen && SawFacts(facts) in s.seen
      modifies `s, `time
      ensures Since(old(time), old(s.seen), ok) && (ok ==> r == s.durable && (r.None? ==> Agrees(s)))
      ensures old(s.durable).Some? ==> ok && s.durable == old(s.durable)
      ensures old(s.durable).None? ==> s.durable.None? || NewFor(s.durable.value, facts, raw)
      ensures ok && old(s.durable).None? ==> (s.durable.Some? <==> raw == Yes || old(s.node.incident) != "")
    {
      if s.durable.Some? {
        return true, s.durable;
      }
      if raw == Yes || s.node.incident != "" {
        ok := CreateRecord(raw, facts);
        return ok, s.durable;
      }
      ok := Call(Clear(raw));
      if ok {
        ok := Call(SetCondition(false));
      }
      return ok, None;
    }

    /** A new incident under a random id, unless none could be drawn. */
    method CreateRecord(raw: Status, facts: Facts) returns (ok: bool)
      requires Valid() && s.durable.None? && (raw == Yes || s.node.incident != "")
      requires SawRaw(raw) in s.seen && SawFacts(facts) in s.seen
      modifies `s, `time
      ensures Since(old(time), old(s.seen), ok)
      ensures (!ok && s.durable.None?) || (s.durable.Some? && NewFor(s.durable.value, facts, raw))
      ensures s.durable.Some? ==> s.durable.value.incident == world.newId(old(time)) != ""
    {
      var incident := world.newId(time);
      if incident == "" {
        assert Trouble(world, time);
        return false;
      }
      ok := Call(Create(incident, facts, raw));
    }

    /** A retry asked for by a human starts a new incident under the id given, if it is a valid one and
        not the one tried last. */
    method MaybeRestart(r0: Record, raw: Status, facts: Facts, retry: string, valid: bool)
      returns (ok: bool, r: Record)
      requires Holds(r0) && SawRaw(raw) in s.seen && SawFacts(facts) in s.seen && SawRetry(retry) in s.seen
      modifies `s, `time
      ensures Since(old(time), old(s.seen), ok) && (ok ==> Holds(r))
      ensures var due := r0.phase == ManualRepair && raw == No && retry != "" && retry != r0.manualRequest && valid;
        && (s.durable == Some(r0) || (due && s.durable.Some? && Retries(s.durable.value, facts, retry)))
        && (ok ==> if due then Retries(r, facts, retry) else r == r0)
    {
      r := r0;
      if r.phase != ManualRepair || raw != No || retry == "" || retry == r.manualRequest || !valid {
        return true, r;
      }
      r := NewRecord(retry, facts).(manualRequest := retry);
      ok := Call(Restart(retry, facts));
    }

    /** `Reconcile`: one pass, from any state a run can reach. Whatever goes wrong on the way, the durable
        record moves only along the phases one pass may lead to, and only for reasons that the world showed
        during the pass. On a managed node, a pass during which nothing goes wrong completes, and leaves the
        node's marks in agreement with the record. */
    method Reconcile(requestedAt: int, validRetry: bool) returns (ok: bool)
      requires Valid()
      modifies this
      ensures Valid() && old(time) < time && (ok ==> Agrees(s))
      ensures !ok ==> TroubleIn(world, old(time) + 1, time) || !world.managed(old(time) + 1)
      ensures PassLeads(old(s.durable), s.durable)
      ensures Justified(world, old(time) + 1, time, old(s.durable), s)
      ensures WorkersKnown(world, old(time) + 1, time, old(s.durable), s.durable)
      ensures ok && old(s.durable).Some? ==> Advances(world, old(time) + 1, time, old(s.durable).value, s.durable)
    {
      Yield();
      BeginPass();
      if !world.load(time) || (s.durable.None? && s.node.incident == "" && !world.managed(time)) {
        assert !world.load(time) ==> Trouble(world, time);
        return false; // unreadable, or not a node under management
      }
      ok := RunPass(requestedAt, validRetry);
    }

    /** The pass on a node under management. */
    method RunPass(requestedAt: int, validRetry: bool) returns (ok: bool)
      requires Valid() && began == time
      modifies `s, `time
      ensures Since(old(time), old(s.seen), ok) && (ok ==> Agrees(s))
      ensures PassLeads(old(s.durable), s.durable)
      ensures Justified(world, old(time), time, old(s.durable), s)
      ensures WorkersKnown(world, old(time), time, old(s.durable), s.durable)
      ensures ok && old(s.durable).Some? ==> Advances(world, old(time), time, old(s.durable).value, s.durable)
    {
      var raw, retry, r;
      ok, raw, retry, r := Prepare(validRetry);
      PreparedIsPass(world, began, time, old(s.durable), s);
      if !ok || r.None? {
        return;
      }
      ghost var prepared, begun := s.durable, time;
      ok := Continue(r.value, raw, retry, requestedAt);
      if ok {
        AdvancesWithin(world, began, begun, time, r.value, s.durable);
      }
      PassComposes(world, began, time, old(s.durable), prepared, s);
    }

    /** Read the node, and load, create or restart the record. */
    method Prepare(validRetry: bool) returns (ok: bool, raw: Status, retry: string, r: Option<Record>)
      requires Valid()
      modifies `s, `time
      ensures Since(old(time), old(s.seen), ok) && SawRaw(raw) in s.seen && SawRetry(retry) in s.seen
      ensures ok ==> r == s.durable && (r.None? ==> Agrees(s))
      ensures Prepared(old(s.durable), s.durable)
    {
      var facts;
      raw, facts, retry := world.raw(time), world.facts(time), s.node.retry;
      See(SawRaw(raw));
      See(SawFacts(facts));
      See(SawRetry(retry));
      ok, r := LoadOrCreate(raw, facts);
      if ok && r.Some? {
        var next;
        ok, next := MaybeRestart(r.value, raw, facts, retry, validRetry);
        r := Some(next);
      }
    }

    /** A pass starts with nothing in memory. */
    method BeginPass()
      requires Valid()
      modifies `s, `began
      ensures Valid() && s == old(s).(seen := {}, grown := false) && began == time
    {
      WitnessedApply(world, s, began, time, RecoveryMachine.BeginPass);
      s, began := s.(seen := {}, grown := false), time;
    }

    /** The pass once its record is known. */
    method Continue(r: Record, raw: Status, retry: string, requestedAt: int) returns (ok: bool)
      requires Holds(r) && SawRaw(raw) in s.seen && SawRetry(retry) in s.seen && began <= time
      modifies `s, `time
      ensures Since(old(time), old(s.seen), ok) && (ok ==> Agrees(s))
      ensures PassLeads(Some(r), s.durable) && Justified(world, began, time, Some(r), s)
      ensures WorkersKnown(world, began, time, Some(r), s.durable)
      ensures ok ==> Advances(world, old(time), time, r, s.durable)
    {
      ok := EnsureIsolation(r);
      if !ok || r.phase == ManualRepair {
        return;
      }
      ghost var begun := time;
      if Evacuating(r.phase) {
        ok := EvacuationPass(r);
      } else if Asking(r.phase) {
        ok := RebootPass(r, requestedAt);
      } else {
        ok := VerificationPass(r, raw, retry);
      }
      if ok {
        AdvancesWithin(world, old(time), begun, time, r, s.durable);
      }
    }

    method EvacuationPass(r: Record) returns (ok: bool)
      requires Marks(r) && Evacuating(r.phase) && began <= time
      modifies `s, `time
      ensures Since(old(time), old(s.seen), ok) && (ok ==> Agrees(s))
      ensures PassLeads(Some(r), s.durable) && Justified(world, began, time, Some(r), s)
      ensures WorkersKnown(world, began, time, Some(r), s.durable)
      ensures ok ==> Advances(world, old(time), time, r, s.durable)
    {
      ghost var snapshot;
      ok, snapshot := ReconcileEvacuation(r);
      ListedAreKnown(world, began, old(time), time, r, s.durable.value);
    }

    method RebootPass(r: Record, requestedAt: int) returns (ok: bool)
      requires Marks(r) && Asking(r.phase)
      modifies `s, `time
      ensures Since(old(time), old(s.seen), ok) && (ok ==> Agrees(s))
      ensures PassLeads(Some(r), s.durable) && Justified(world, began, time, Some(r), s)
      ensures WorkersKnown(world, began, time, Some(r), s.durable)
      ensures ok ==> Advances(world, old(time), time, r, s.durable)
    {
      ok := ReconcileReboot(r, requestedAt);
    }

    method VerificationPass(r: Record, raw: Status, retry: string) returns (ok: bool)
      requires Marks(r) && r.phase == Verifying && SawRaw(raw) in s.seen && SawRetry(retry) in s.seen
      modifies `s, `time
      ensures Since(old(time), old(s.seen), ok) && (ok ==> Agrees(s))
      ensures PassLeads(Some(r), s.durable) && Justified(world, began, time, Some(r), s)
      ensures WorkersKnown(world, began, time, Some(r), s.durable)
      ensures ok ==> Advances(world, old(time), time, r, s.durable)
    {
      ok := ReconcileVerification(r, raw, retry);
    }
  }

  /** What the loop over the verifier Jobs came to. */
  datatype Outcome = Unread | Missing | Failed | Checked

  /** Every cell's verifier has succeeded throughout. */
  ghost predicate CellsStaySound(w: World, from: nat, to: nat, cells: seq<int>) {
    forall t, numa :: from <= t <= to && numa in cells ==> w.verifier(t, numa) == Counts(0, 1)
  }

  /** The first n cells' verifiers had succeeded, each at its turn. */
  ghost predicate SoundInTurn(w: World, from: nat, cells: seq<int>, n: nat)
    requires n <= |cells|
  {
    forall i :: 0 <= i < n ==> w.verifier(from + i, cells[i]) == Counts(0, 1)
  }

  ghost predicate SomeFailed(w: World, from: nat, to: nat, cells: seq<int>) {
    exists t, numa ::
      from <= t <= to && numa in cells && w.verifier(t, numa).Counts? && w.verifier(t, numa).failed != 0
  }

  /** A record just created: isolated for a fault, in manual repair for marks without a record. */
  ghost predicate NewFor(r: Record, facts: Facts, raw: Status) {
    && r.preBoot == facts.boot && r.preInventory == facts.inventory && r.preHash == facts.hash
    && r.phase == (if raw == Yes then Isolated else ManualRepair) && r.manualRequest == "" && Blank(r)
  }

  /** Nothing has been done about the incident yet. */
  ghost predicate Blank(r: Record) {
    && r.clusters == map[] && r.workers == map[] && r.jobs == map[] && r.newBoot == "" && r.readySince.None?
    && r.verificationStarted.None? && !r.verificationPassed
  }

  /** A record of a retry: isolated again, under the id given, for what the node says now. */
  ghost predicate Retries(r: Record, facts: Facts, retry: string) {
    && r.incident == retry == r.manualRequest && r.phase == Isolated && Blank(r)
    && r.preBoot == facts.boot && r.preInventory == facts.inventory && r.preHash == facts.hash
  }

  /** What a boot seen while rebooting leads to: none or the old one waits; a new one is recorded; a
      second new one gives up. */
  ghost predicate BootsLeadTo(boot: string, r: Record, next: Record) {
    && (boot == "" || boot == r.preBoot ==> next == r)
    && (boot != "" && boot != r.preBoot && r.newBoot != "" && boot != r.newBoot ==> next.phase == ManualRepair)
    && (boot != "" && boot != r.preBoot && next.phase != ManualRepair ==> next.newBoot == boot)
  }

  /** What the inventory of a node ready for so long leads to. */
  ghost predicate InventoryLeadsTo(node: NodeView, stable: int, r: Record, next: Record) {
    var published := node.inventoryBoot == r.newBoot && node.inventoryHash != "";
    var matches := r.preHash != "" && node.inventoryHash == r.preHash;
    && (stable < 30 || (!published && stable < 120) ==> next == r)
    && (stable >= 120 && !published ==> next.phase == ManualRepair)
    && (stable >= 30 && published && !matches ==> next.phase == ManualRepair)
    && (stable >= 30 && published && matches ==> next.phase in {Verifying, ManualRepair})
    && (next.phase == Verifying ==> stable >= 30 && published && matches)
  }

  /** What waiting for the inventory does not touch. */
  ghost predicate Kept(r: Record, next: Record) {
    && next.incident == r.incident && next.preBoot == r.preBoot && next.preHash == r.preHash
    && next.newBoot == r.newBoot && next.verificationPassed == r.verificationPassed && next.workers == r.workers
  }

  function SignalsLeadTo(r: Record): Phase {
    if r.jobs == map[] then Requeued else Checkpointing
  }

  ghost predicate SnapshotSeen(seen: set<Observation>, snapshot: Snapshot) {
    forall c :: c in snapshot ==> SawJobs(c, snapshot[c]) in seen
  }

  /** Each cluster had these jobs at some moment of the span. */
  ghost predicate SnapshotTrue(w: World, from: nat, to: nat, snapshot: Snapshot) {
    forall c :: c in snapshot ==> exists t :: from <= t <= to && w.slurm(t, c) == Some(snapshot[c])
  }

  lemma SnapshotLater(w: World, from: nat, before: nat, until: nat, to: nat, snapshot: Snapshot)
    requires SnapshotTrue(w, before, until, snapshot) && from <= before && until <= to
    ensures SnapshotTrue(w, from, to, snapshot)
  {
  }

  /** Slurm, asked about every recorded cluster, showed a recorded job that was not evacuated, or a worker was
      still there. */
  ghost predicate Occupied(w: World, from: nat, to: nat, r: Record, snapshot: Snapshot) {
    && snapshot.Keys == r.clusters.Keys && SnapshotTrue(w, from, to, snapshot)
    && (AllEvacuated(r, snapshot) ==> SomeWorkerStays(w, from, to, r))
  }

  /** An evacuation moves on, unless the node is seen to be occupied. */
  ghost predicate Advances(w: World, from: nat, to: nat, r: Record, after: Option<Record>) {
    Evacuating(r.phase) ==>
      && after.Some? && MovesTo(r.phase, after.value.phase)
      && (after.value.phase == r.phase ==>
            exists snapshot :: Occupied(w, from, to, SurveyOf(r, after.value), snapshot))
  }

  lemma AdvancesWithin(w: World, from: nat, begun: nat, to: nat, r: Record, after: Option<Record>)
    requires from <= begun && Advances(w, begun, to, r, after)
    ensures Advances(w, from, to, r, after)
  {
    if Evacuating(r.phase) && after.value.phase == r.phase {
      var snapshot :| Occupied(w, begun, to, SurveyOf(r, after.value), snapshot);
      SnapshotLater(w, from, begun, to, to, snapshot);
      assert Occupied(w, from, to, SurveyOf(r, after.value), snapshot);
    }
  }

  lemma SnapshotNext(w: World, from: nat, before: nat, to: nat, snapshot: Snapshot, c: Cluster, jobs: seq<SlurmJob>)
    requires SnapshotTrue(w, from, before, snapshot) && from <= before <= to && w.slurm(to, c) == Some(jobs)
    ensures SnapshotTrue(w, from, to, snapshot[c := jobs])
  {
  }

  ghost predicate GoneSeen(seen: set<Observation>, pods: set<Pod>, claims: set<Pod>) {
    && (forall pod :: pod in pods ==> SawPodGone(pod) in seen)
    && (forall pod :: pod in claims ==> SawClaimGone(pod) in seen)
  }

  predicate WorkerGone(r: Record, pod: Pod, pods: set<Pod>, claims: set<Pod>)
    requires pod in r.workers
  {
    pod in pods && (r.workers[pod].claim != "" ==> pod in claims)
  }

  ghost predicate GoneUpTo(r: Record, done: seq<Pod>, pods: set<Pod>, claims: set<Pod>) {
    forall pod :: pod in done && pod in r.workers ==> WorkerGone(r, pod, pods, claims)
  }

  ghost predicate WereGone(w: World, from: nat, to: nat, pods: set<Pod>, claims: set<Pod>) {
    && (forall pod :: pod in pods ==> PodWasAbsent(w, from, to, pod))
    && (forall pod :: pod in claims ==> ClaimWasAbsent(w, from, to, pod))
  }

  /** Of the workers visited all are gone, or one was still there. */
  ghost predicate Removed(w: World, from: nat, to: nat, seen: set<Observation>, r: Record, done: seq<Pod>,
                          gone: bool, pods: set<Pod>, claims: set<Pod>)
  {
    && GoneSeen(seen, pods, claims) && WereGone(w, from, to, pods, claims)
    && if gone then GoneUpTo(r, done, pods, claims) else SomeWorkerStays(w, from, to, r)
  }

  /** One more worker visited. */
  lemma RemovedNext(
    w: World, from: nat, before: nat, to: nat, seen: set<Observation>, next: set<Observation>, r: Record,
    order: seq<Pod>, i: nat, gone: bool, pods: set<Pod>, claims: set<Pod>, ok: bool, podGone: bool, claimGone: bool)
    requires from <= before <= to && seen <= next && i < |order| && order[i] in r.workers
    requires Removed(w, from, before, seen, r, order[..i], gone, pods, claims)
    requires podGone ==> SawPodGone(order[i]) in next && PodWasAbsent(w, before, to, order[i])
    requires claimGone ==> SawClaimGone(order[i]) in next && ClaimWasAbsent(w, before, to, order[i])
    requires ok && !(podGone && (r.workers[order[i]].claim != "" ==> claimGone)) ==>
      exists t :: before <= t <= to && Stays(w, t, order[i])
    ensures
      var pods1 := if podGone then pods + {order[i]} else pods;
      var claims1 := if claimGone then claims + {order[i]} else claims;
      var gone1 := gone && podGone && (r.workers[order[i]].claim != "" ==> claimGone);
      && GoneSeen(next, pods1, claims1) && WereGone(w, from, to, pods1, claims1)
      && (ok ==> Removed(w, from, to, next, r, order[..i + 1], gone1, pods1, claims1))
  {
    assert order[..i + 1] == order[..i] + [order[i]];
  }

  /** A worker's Pod or claim is there. */
  ghost predicate Stays(w: World, t: nat, pod: Pod) { w.pod(t, pod).Present? || w.claim(t, pod).Present? }

  ghost predicate SomeWorkerStays(w: World, from: nat, to: nat, r: Record) {
    exists t, pod :: from <= t <= to && pod in r.workers && Stays(w, t, pod)
  }

  ghost predicate WorkersWereGone(w: World, from: nat, to: nat, r: Record) {
    forall pod :: pod in r.workers ==>
      PodWasAbsent(w, from, to, pod) && (r.workers[pod].claim != "" ==> ClaimWasAbsent(w, from, to, pod))
  }

  /** What one visit may note of a job: a checkpoint that was there, and a requeue that was due. */
  ghost predicate Sooner(w: World, from: nat, to: nat, k: JobKey, j: Job, next: Job) {
    && next.signalSent == j.signalSent && next.signalRequestedAt == j.signalRequestedAt
    && (next.checkpointSeen && !j.checkpointSeen ==> w.checkpoint(from + 1, k))
    && (next.requeueSent && !j.requeueSent ==> exists t :: from <= t <= to && DueBy(next, w.clock(t)))
  }

  /** The job was signalled, and its checkpoint was seen or that was at least 120 seconds ago. */
  predicate DueBy(j: Job, now: int) {
    j.signalSent && j.signalRequestedAt.Some? && (j.checkpointSeen || now - j.signalRequestedAt.value >= 120)
  }

  /** The job has been requeued, or it was not due. */
  ghost predicate Attended(w: World, from: nat, to: nat, j: Job) {
    j.requeueSent || exists t :: from <= t <= to && !DueBy(j, w.clock(t))
  }

  ghost predicate NotifiedSoFar(r: Record, done: seq<JobKey>) {
    forall k :: k in done && k in r.jobs ==> Notified(r.jobs[k])
  }

  lemma NotifiedNext(before: Record, r: Record, order: seq<JobKey>, i: nat)
    requires i < |order| && NotifiedSoFar(before, order[..i])
    requires Moved(before, r, order[i]) && Notified(r.jobs[order[i]])
    ensures NotifiedSoFar(r, order[..i + 1])
  {
    assert forall k :: k in order[..i + 1] <==> k in order[..i] || k == order[i];
  }

  lemma SameEmptiness(a: Record, b: Record)
    requires a.jobs.Keys == b.jobs.Keys
    ensures a.jobs == map[] <==> b.jobs == map[]
  {
    assert a.jobs == map[] <==> a.jobs.Keys == {};
    assert b.jobs == map[] <==> b.jobs.Keys == {};
  }

  ghost predicate SameButWorkers(r: Record, next: Record) {
    next == r.(clusters := next.clusters, workers := next.workers)
  }

  /** Jobs that were recorded are as they were, and others are new. */
  ghost predicate JobsAdded(r: Record, next: Record) {
    && (forall k :: k in r.jobs ==> k in next.jobs)
    && (forall k :: k in next.jobs ==>
          next.jobs[k] == if k in r.jobs then r.jobs[k] else Job(None, false, false, None, false, false))
  }

  /** The record as the survey of a pass left it: with the jobs and workers there are after the pass, and of
      each job what the record said before. */
  ghost function SurveyOf(before: Record, after: Record): Record {
    after.(jobs := map k | k in after.jobs :: if k in before.jobs then before.jobs[k] else NEW_JOB)
  }

  lemma SurveyedAs(before: Record, surveyed: Record, after: Record)
    requires JobsAdded(before, surveyed) && SameButJobs(surveyed.(phase := after.phase), after)
    requires after.phase == surveyed.phase
    ensures surveyed == SurveyOf(before, after)
  {
    assert surveyed.jobs == SurveyOf(before, after).jobs;
  }

  /** Only the notes on jobs differ. */
  ghost predicate SameButJobs(r: Record, next: Record) {
    next == r.(jobs := next.jobs) && next.jobs.Keys == r.jobs.Keys
  }

  /** The jobs of the list are as they were. */
  ghost predicate StillToVisit(r0: Record, r: Record, rest: seq<JobKey>)
    requires SameButJobs(r0, r)
  {
    forall k :: k in rest && k in r0.jobs ==> r.jobs[k] == r0.jobs[k]
  }

  ghost predicate GoneSoFar(r0: Record, snapshot: Snapshot, done: seq<JobKey>) {
    forall k :: k in done && k in r0.jobs ==> JobGone(r0, snapshot, k)
  }

  lemma VisitNext(r0: Record, r: Record, snapshot: Snapshot, order: seq<JobKey>, i: nat)
    requires SameButJobs(r0, r) && i < |order| && order[i] in r0.jobs && StillToVisit(r0, r, order[i..])
    ensures JobGone(r, snapshot, order[i]) == JobGone(r0, snapshot, order[i])
    ensures GoneSoFar(r0, snapshot, order[..i + 1]) ==
      (GoneSoFar(r0, snapshot, order[..i]) && JobGone(r0, snapshot, order[i]))
  {
    assert order[i] in order[i..];
    assert forall k :: k in order[..i + 1] <==> k in order[..i] || k == order[i];
  }

  lemma VisitMoved(r0: Record, before: Record, r: Record, order: seq<JobKey>, i: nat)
    requires SameButJobs(r0, before) && i < |order| && StillToVisit(r0, before, order[i..])
    requires Moved(before, r, order[i]) && forall n, m :: 0 <= n < m < |order| ==> order[n] != order[m]
    ensures SameButJobs(r0, r) && StillToVisit(r0, r, order[i + 1..])
  {
    forall k | k in order[i + 1..] && k in r0.jobs ensures r.jobs[k] == r0.jobs[k] {
      assert k in order[i..];
    }
  }

  /** A new cluster has the uid a listing gave it. */
  ghost predicate UidsListed(r: Record, views: seq<PodView>, clusters: map<Cluster, string>) {
    forall c :: c in clusters && c !in r.clusters ==>
      exists i :: 0 <= i < |views| && views[i].cluster == c && views[i].uid == clusters[c]
  }

  /** Workers recorded before are kept, and new ones are as listed. */
  ghost predicate NewAsListed(before: map<Pod, Worker>, after: map<Pod, Worker>, views: Option<seq<PodView>>) {
    && (forall pod :: pod in before ==> pod in after && after[pod] == before[pod])
    && (forall pod :: pod in after && pod !in before ==> views.Some? && Listed(views.value, pod, after[pod]))
  }

  ghost predicate AllSeen(views: seq<PodView>, r: Record) {
    forall i :: 0 <= i < |views| ==> views[i].pod in r.workers
  }

  /** The job has been signalled, or was seen to be evacuated. */
  predicate Notified(j: Job) { j.signalSent || j.evacuated }

  /** Only job k has changed, if any, and it has lost no note. */
  ghost predicate Moved(r: Record, next: Record, k: JobKey) {
    && SameButJobs(r, next) && k in r.jobs
    && (Notified(r.jobs[k]) ==> Notified(next.jobs[k]))
    && forall l :: l in r.jobs && l != k ==> next.jobs[l] == r.jobs[l]
  }
}
