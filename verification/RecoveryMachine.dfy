/**
 * Hardware recovery of one node: the durable incident record, the node's annotations, the operator's
 * writes and calls, and the watchdog that reboots the host.
 *
 * Each action is one call that reaches the API server, Slurm or the host. The operator may crash
 * between any two of them, which leaves the durable record and the annotations as they are, so its
 * actions are guarded by the durable record and by what it has read in the current pass, not by a
 * program counter.
 * The watchdog and a human who asks for a retry move between any two operator actions.
 */
module RecoveryMachine {
  import opened Bags
  import opened SlurmJobs

  const GRACE := 120

  datatype Phase =
    Isolated | Draining | Checkpointing | Requeued | RebootRequested | Rebooting | Verifying | ManualRepair

  datatype Status = Yes | No | Unknown

  /** The fate of a call: done, lost before its effect, or lost after it. */
  datatype Reply = Done | Lost | LostAfter

  datatype Cluster = Cluster(namespace: string, name: string)
  datatype Pod = Pod(namespace: string, name: string)
  datatype Worker = Worker(cluster: Cluster, claim: string)
  datatype JobKey = JobKey(cluster: Cluster, id: nat)

  /** A worker Pod of the node as a listing shows it, whose cluster could be read. */
  datatype PodView = PodView(pod: Pod, cluster: Cluster, uid: string, claim: string)

  datatype Job = Job(
    signalRequestedAt: Option<int>, signalSent: bool, checkpointSeen: bool,
    requeueRequestedAt: Option<int>, requeueSent: bool, evacuated: bool)

  const NEW_JOB := Job(None, false, false, None, false, false)

  /** The durable record. Lists of clusters, workers and jobs, which the source searches by key before
      it appends, are maps from those keys. */
  datatype Record = Record(
    incident: string, phase: Phase,
    preBoot: string, preInventory: Option<Inventory>, preHash: string,
    clusters: map<Cluster, string>, workers: map<Pod, Worker>, jobs: map<JobKey, Job>,
    newBoot: string, readySince: Option<int>, verificationStarted: Option<int>,
    verificationPassed: bool, manualRequest: string)

  /** One NUMA cell of a published inventory, and the inventory. */
  datatype Cell = Cell(numa: int, cpus: int, memoryUnits: int, memoryUnitBytes: int)
  datatype Inventory = Inventory(version: int, boot: string, cells: seq<Cell>)

  predicate CellOk(c: Cell) {
    c.numa >= 0 && c.cpus >= 1 && c.memoryUnits >= 1 && c.memoryUnitBytes >= 1
  }

  /** The NUMA nodes to verify: those of a sound inventory published for the boot before the fault. */
  function VerifiedCells(inventory: Option<Inventory>, boot: string): Option<seq<int>> {
    if inventory.Some? && inventory.value.version == 1 && inventory.value.boot == boot && inventory.value.cells != []
       && forall i :: 0 <= i < |inventory.value.cells| ==> CellOk(inventory.value.cells[i])
    then Some(Nodes(inventory.value.cells)) else None
  }

  function Nodes(cells: seq<Cell>): (nodes: seq<int>)
    ensures |nodes| == |cells| && forall i :: 0 <= i < |nodes| ==> nodes[i] == cells[i].numa
  {
    if cells == [] then [] else Nodes(cells[..|cells| - 1]) + [cells[|cells| - 1].numa]
  }

  /** The cells an incident must verify. */
  function CellsOf(r: Record): Option<seq<int>> { VerifiedCells(r.preInventory, r.preBoot) }

  /** What a node says of itself; its inventory is None when it does not decode. */
  datatype Facts = Facts(boot: string, inventory: Option<Inventory>, hash: string)

  function NewRecord(incident: string, facts: Facts): Record {
    Record(incident, Isolated, facts.boot, facts.inventory, facts.hash,
           map[], map[], map[], "", None, None, false, "")
  }

  predicate Evacuating(p: Phase) {
    p == Isolated || p == Draining || p == Checkpointing || p == Requeued
  }

  predicate Asking(p: Phase) { p == RebootRequested || p == Rebooting }

  // ---- What evacuation must have seen ----

  function WorkerNames(workers: map<Pod, Worker>, cluster: Cluster): set<string> {
    set pod | pod in workers && workers[pod].cluster == cluster :: pod.name
  }

  /** One pass's view of Slurm, and the Pods and claims it found absent. */
  datatype Sight = Sight(jobs: map<Cluster, seq<SlurmJob>>, podsGone: set<Pod>, claimsGone: set<Pod>)

  /** Every worker's cluster was asked, no active job of those clusters uses any recorded worker, and
      every recorded worker's Pod and claim is gone. */
  predicate Evacuated(r: Record, sight: Sight) {
    && (forall pod :: pod in r.workers ==> r.workers[pod].cluster in sight.jobs)
    && (forall c :: c in sight.jobs ==> NoneActive(sight.jobs[c], WorkerNames(r.workers, c)))
    && (forall pod :: pod in r.workers ==>
          pod in sight.podsGone && (r.workers[pod].claim != "" ==> pod in sight.claimsGone))
  }

  predicate NoneActive(jobs: seq<SlurmJob>, names: set<string>) {
    forall i :: 0 <= i < |jobs| ==> Active(jobs[i]) ==> !UsesAnyNode(jobs[i], names)
  }

  /** No job holds any of the workers of the cluster. */
  ghost predicate NoneHeld(jobs: seq<SlurmJob>, c: Cluster, workers: map<Pod, Worker>) {
    forall i, pod :: 0 <= i < |jobs| && pod in workers && workers[pod].cluster == c ==> !Holds(jobs[i], pod.name)
  }

  lemma NoneActiveByName(jobs: seq<SlurmJob>, c: Cluster, workers: map<Pod, Worker>)
    ensures NoneActive(jobs, WorkerNames(workers, c)) <==> NoneHeld(jobs, c, workers)
  {
    forall i | 0 <= i < |jobs|
      ensures Active(jobs[i]) && UsesAnyNode(jobs[i], WorkerNames(workers, c)) <==>
              exists pod :: pod in workers && workers[pod].cluster == c && Holds(jobs[i], pod.name)
    {
      ActiveByState(jobs[i], WorkerNames(workers, c));
    }
  }

  // ---- What a pass may observe ----

  /** One thing the operator has read in the current pass. The retry and the acknowledgement are
      annotations of the node; the rest comes from outside. */
  datatype Observation =
    | SawRaw(raw: Status)
    | SawFacts(facts: Facts)
    | SawRetry(retry: string)
    | SawAck(ack: string)
    | SawClock(now: int)
    | SawPods(views: seq<PodView>)
    | SawJobs(cluster: Cluster, jobs: seq<SlurmJob>)
    | SawPodGone(pod: Pod)
    | SawClaimGone(pod: Pod)
    | SawCheckpoint(key: JobKey)
    | SawBoot(boot: string)
    | SawInventory(hash: string, inventoryBoot: string)
    | SawVerifier(numa: int, failed: nat, succeeded: nat)

  /** All of the sight was read in this pass. */
  predicate Sighted(seen: set<Observation>, sight: Sight) {
    && (forall c :: c in sight.jobs ==> SawJobs(c, sight.jobs[c]) in seen)
    && (forall pod :: pod in sight.podsGone ==> SawPodGone(pod) in seen)
    && (forall pod :: pod in sight.claimsGone ==> SawClaimGone(pod) in seen)
  }

  /** In this pass every cell of the inventory from before the fault was seen to have succeeded. */
  predicate AllCellsSeen(seen: set<Observation>, r: Record) {
    var cells := CellsOf(r);
    cells.Some? && forall i :: 0 <= i < |cells.value| ==> SawVerifier(cells.value[i], 0, 1) in seen
  }

  // ---- What a listing adds ----

  /** The listing shows this worker. */
  predicate Listed(views: seq<PodView>, pod: Pod, worker: Worker) {
    exists i :: 0 <= i < |views| && views[i].pod == pod && worker == Worker(views[i].cluster, views[i].claim)
  }

  /** Every Pod listed is recorded; a new worker as listed, in a recorded cluster; and nothing recorded
      before has changed. */
  predicate Discovered(r: Record, views: seq<PodView>, clusters: map<Cluster, string>, workers: map<Pod, Worker>) {
    Extends(r, views, clusters, workers) && forall i :: 0 <= i < |views| ==> views[i].pod in workers
  }

  predicate Extends(r: Record, views: seq<PodView>, clusters: map<Cluster, string>, workers: map<Pod, Worker>) {
    && (forall c :: c in r.clusters ==> c in clusters && clusters[c] == r.clusters[c])
    && (forall pod :: pod in r.workers ==> pod in workers && workers[pod] == r.workers[pod])
    && (forall pod :: pod in workers ==> workers[pod].cluster in clusters)
    && (forall pod :: pod in workers && pod !in r.workers ==> Listed(views, pod, workers[pod]))
  }

  // ---- Changes to the record ----

  /** Steps of one job's evacuation. */
  datatype JobStep =
    RequestSignal(now: int) | NoteSignal | NoteCheckpoint | RequestRequeue(now: int) | NoteRequeue | NoteEvacuated

  /** Steps from phase to phase. */
  datatype Move =
    | Drain
    | ReturnToDraining
    | SignalsDone
    | JobsDone
    | RequestReboot(sight: Sight)
    | ConfirmAck
    | Verify(hash: string, inventoryBoot: string)
    | GiveUp(request: string)

  datatype Change =
    | AddWorkers(views: seq<PodView>, clusters: map<Cluster, string>, workers: map<Pod, Worker>)
    | AddJobs(keys: set<JobKey>)
    | OnJob(key: JobKey, step: JobStep)
    | To(move: Move)
    | RecordBoot(boot: string)
    | NoteReady(since: Option<int>)
    | StartVerification(now: int)
    | Pass

  function Stepped(j: Job, step: JobStep): Job {
    match step
    case RequestSignal(now) => j.(signalRequestedAt := Some(now))
    case NoteSignal => j.(signalSent := true)
    case NoteCheckpoint => j.(checkpointSeen := true)
    case RequestRequeue(now) => j.(requeueRequestedAt := Some(now))
    case NoteRequeue => j.(requeueSent := true)
    case NoteEvacuated => j.(evacuated := true)
  }

  function Target(r: Record, move: Move): Phase {
    match move
    case Drain => Draining
    case ReturnToDraining => Draining
    case SignalsDone => if r.jobs == map[] then Requeued else Checkpointing
    case JobsDone => Requeued
    case RequestReboot(_) => RebootRequested
    case ConfirmAck => Rebooting
    case Verify(_, _) => Verifying
    case GiveUp(_) => ManualRepair
  }

  /** The record after a change. */
  function Changed(r: Record, change: Change): Record
    requires change.OnJob? ==> change.key in r.jobs
  {
    match change
    case AddWorkers(_, clusters, workers) => r.(clusters := clusters, workers := workers)
    case AddJobs(keys) => r.(jobs := r.jobs + map k | k in keys :: NEW_JOB)
    case OnJob(k, step) => r.(jobs := r.jobs[k := Stepped(r.jobs[k], step)])
    case To(move) =>
      r.(phase := Target(r, move), manualRequest := if move.GiveUp? then move.request else r.manualRequest)
    case RecordBoot(boot) => r.(newBoot := boot, readySince := None)
    case NoteReady(since) => r.(readySince := since)
    case StartVerification(now) => r.(verificationStarted := Some(now))
    case Pass => r.(verificationPassed := true)
  }

  // ---- The system ----

  datatype Annotations = Annotations(
    incident: string, phase: Option<Phase>, request: string, ack: string, retry: string)

  const NONE := Annotations("", None, "", "", "")

  /** Where the watchdog stands in one attempt, and for which request. */
  datatype Attempt = Idle | Looked(request: string) | Unoccupied(request: string) | Armed(request: string)

  /** The shared state, the watchdog, what the operator has read in the current pass (`seen`) and
      whether it has added jobs in it (`grown`), and history: how often each incident id was started;
      the ids ever `asked` for as a reboot request; those ever `acked` by the watchdog; the incident
      of each reboot; the incidents whose quarantine was `lifted`; the calls that reached Slurm; and, for
      the current incident, how often it went back to draining. */
  datatype System = System(
    durable: Option<Record>, node: Annotations, degraded: bool, watchdog: Attempt,
    seen: set<Observation>, grown: bool,
    starts: multiset<string>, asked: set<string>, acked: set<string>, rebooted: seq<string>,
    lifted: set<string>, signalled: set<(string, JobKey)>, requeued: set<(string, JobKey)>,
    backs: nat)

  datatype Action =
    // the operator
    | BeginPass
    | Observe(what: Observation)
    | Create(incident: string, facts: Facts, raw: Status)
    | Restart(incident: string, facts: Facts)
    | Save(change: Change)
    | Isolate
    | SetCondition(degraded: bool)
    | Lift
    | Clear(raw: Status)
    | Forget
    | Signal(key: JobKey)
    | Requeue(key: JobKey, now: int)
    // the watchdog
    | Look
    | CountPods(pods: nat)
    | Acknowledge(lost: bool)
    | Reboot
    | Stop
    // a human
    | Ask(retry: string)

  predicate WatchdogMove(a: Action) {
    a.Look? || a.CountPods? || a.Acknowledge? || a.Reboot? || a.Stop?
  }

  /** Who else moves while the operator is at work. */
  predicate Outside(a: Action) { WatchdogMove(a) || a.Ask? }

  /** When a job may take a step. */
  predicate JobMay(s: System, r: Record, k: JobKey, step: JobStep)
    requires k in r.jobs
  {
    var j := r.jobs[k];
    match step
    case RequestSignal(now) =>
      r.phase == Draining && j.signalRequestedAt.None? && !j.signalSent && SawClock(now) in s.seen
    case NoteSignal => r.phase == Draining && j.signalRequestedAt.Some? && (r.incident, k) in s.signalled
    case NoteCheckpoint => r.phase == Checkpointing && j.signalSent && SawCheckpoint(k) in s.seen
    case RequestRequeue(now) =>
      && r.phase == Checkpointing && j.requeueRequestedAt.None? && !j.requeueSent
      && ReadyToRequeue(j, now) && SawClock(now) in s.seen
    case NoteRequeue => r.phase == Checkpointing && j.requeueRequestedAt.Some? && (r.incident, k) in s.requeued
    case NoteEvacuated => r.phase == Draining || r.phase == Checkpointing
  }

  /** When the phase may change. */
  predicate MayMove(s: System, r: Record, move: Move) {
    match move
    case Drain => r.phase == Isolated
    case ReturnToDraining => (r.phase == Checkpointing || r.phase == Requeued) && s.grown
    case SignalsDone => r.phase == Draining
    case JobsDone => r.phase == Checkpointing
    case RequestReboot(sight) => r.phase == Requeued && Evacuated(r, sight) && Sighted(s.seen, sight)
    case ConfirmAck => r.phase == RebootRequested && SawAck(r.incident) in s.seen
    case Verify(hash, inventoryBoot) =>
      && r.phase == Rebooting && r.newBoot != "" && r.verificationStarted.Some?
      && r.preHash != "" && hash == r.preHash && inventoryBoot == r.newBoot
      && SawInventory(hash, inventoryBoot) in s.seen
    case GiveUp(request) => r.phase != ManualRepair && SawRetry(request) in s.seen
  }

  /** When the operator may write a change: what the durable record must say and what must have been
      read in this pass. */
  predicate Allowed(s: System, r: Record, change: Change) {
    match change
    case AddWorkers(views, clusters, workers) =>
      Evacuating(r.phase) && SawPods(views) in s.seen && Discovered(r, views, clusters, workers)
    case AddJobs(keys) => Evacuating(r.phase) && keys != {} && keys !! r.jobs.Keys
    case OnJob(k, step) => k in r.jobs && JobMay(s, r, k, step)
    case To(move) => MayMove(s, r, move)
    case RecordBoot(boot) =>
      r.phase == Rebooting && r.newBoot == "" && boot != "" && boot != r.preBoot && SawBoot(boot) in s.seen
    case NoteReady(since) =>
      r.phase == Rebooting && r.newBoot != "" && (since.Some? ==> SawClock(since.value) in s.seen)
    case StartVerification(now) =>
      r.phase == Rebooting && r.newBoot != "" && r.verificationStarted.None? && SawClock(now) in s.seen
    case Pass => r.phase == Verifying && AllCellsSeen(s.seen, r) && SawRaw(No) in s.seen
  }

  /** The signal was sent, and a checkpoint was seen or the grace period has passed. */
  predicate ReadyToRequeue(j: Job, now: int) {
    j.signalSent && j.signalRequestedAt.Some? && (j.checkpointSeen || now >= j.signalRequestedAt.value + GRACE)
  }

  /** The incident has passed its verification. */
  predicate Verified(s: System) {
    s.durable.Some? && s.durable.value.phase == Verifying && s.durable.value.verificationPassed
  }

  /** Annotations are read off the node; everything else may be anything. */
  predicate Readable(s: System, what: Observation) {
    match what
    case SawRetry(retry) => retry == s.node.retry
    case SawAck(ack) => ack == s.node.ack
    case _ => true
  }

  predicate Enabled(s: System, a: Action) {
    match a
    case BeginPass => true
    case Observe(what) => Readable(s, what)
    case Create(incident, facts, raw) =>
      && s.durable.None? && incident != "" && (raw == Yes || s.node.incident != "")
      && SawRaw(raw) in s.seen && SawFacts(facts) in s.seen
    case Restart(incident, facts) =>
      && s.durable.Some? && s.durable.value.phase == ManualRepair
      && incident != "" && incident != s.durable.value.manualRequest
      && SawRaw(No) in s.seen && SawRetry(incident) in s.seen && SawFacts(facts) in s.seen
    case Save(change) => s.durable.Some? && Allowed(s, s.durable.value, change)
    case Isolate => s.durable.Some?
    case SetCondition(degraded) => degraded || s.durable.None? || (Verified(s) && SawRaw(No) in s.seen)
    case Lift => Verified(s) && SawRaw(No) in s.seen
    case Clear(raw) => s.durable.None? && raw != Yes && s.node.incident == "" && SawRaw(raw) in s.seen
    case Forget => Verified(s) && SawRaw(No) in s.seen
    case Signal(k) =>
      && s.durable.Some? && s.durable.value.phase == Draining && k in s.durable.value.jobs
      && s.durable.value.jobs[k].signalRequestedAt.Some? && !s.durable.value.jobs[k].signalSent
    case Requeue(k, now) =>
      && s.durable.Some? && s.durable.value.phase == Checkpointing && k in s.durable.value.jobs
      && s.durable.value.jobs[k].requeueRequestedAt.Some? && !s.durable.value.jobs[k].requeueSent
      && ReadyToRequeue(s.durable.value.jobs[k], now) && SawClock(now) in s.seen
    case Look => s.watchdog.Idle?
    case CountPods(_) => s.watchdog.Looked?
    case Acknowledge(_) => s.watchdog.Unoccupied?
    case Reboot => s.watchdog.Armed?
    case Stop => true
    case Ask(_) => true
  }

  /** The watchdog's guard: a request for the present incident, not acknowledged, in the right phase, on
      a degraded node. */
  predicate Due(s: System) {
    && s.node.request != "" && s.node.request != s.node.ack && s.node.request == s.node.incident
    && s.node.phase == Some(RebootRequested) && s.degraded
  }

  function Saved(s: System, r: Record, change: Change): System
    requires change.OnJob? ==> change.key in r.jobs
  {
    var next := Changed(r, change);
    s.(durable := Some(next),
       backs := if change == To(ReturnToDraining) then s.backs + 1 else s.backs,
       grown := if change.AddJobs? then true else if change == To(ReturnToDraining) then false else s.grown)
  }

  function Started(s: System, r: Record): System {
    s.(durable := Some(r), starts := s.starts + multiset{r.incident}, backs := 0, grown := false)
  }

  function Marked(node: Annotations, r: Record): Annotations {
    node.(incident := r.incident, phase := Some(r.phase),
          request := if Asking(r.phase) then r.incident else node.request)
  }

  /** The watchdog's conditional update: nothing is written when the request has changed or is acknowledged. */
  function Acknowledged(s: System, request: string): System {
    if s.node.request != request || s.node.ack == request then s
    else s.(node := s.node.(ack := request), acked := s.acked + {request})
  }

  function Apply(s: System, a: Action): System
    requires Enabled(s, a)
  {
    match a
    case BeginPass => s.(seen := {}, grown := false)
    case Observe(what) => s.(seen := s.seen + {what})
    case Create(incident, facts, raw) =>
      Started(s, NewRecord(incident, facts).(phase := if raw == Yes then Isolated else ManualRepair))
    case Restart(incident, facts) => Started(s, NewRecord(incident, facts).(manualRequest := incident))
    case Save(change) => Saved(s, s.durable.value, change)
    case Isolate =>
      var r := s.durable.value;
      s.(node := Marked(s.node, r), asked := if Asking(r.phase) then s.asked + {r.incident} else s.asked)
    case SetCondition(degraded) => s.(degraded := degraded)
    case Lift => s.(node := NONE, lifted := s.lifted + {s.durable.value.incident})
    case Clear(_) => s.(node := NONE)
    case Forget => s.(durable := None)
    case Signal(k) => s.(signalled := s.signalled + {(s.durable.value.incident, k)})
    case Requeue(k, _) => s.(requeued := s.requeued + {(s.durable.value.incident, k)})
    case Look => if Due(s) then s.(watchdog := Looked(s.node.request)) else s
    case CountPods(n) => s.(watchdog := if n == 0 then Unoccupied(s.watchdog.request) else Idle)
    case Acknowledge(lost) =>
      Acknowledged(s, s.watchdog.request).(watchdog := if lost then Idle else Armed(s.watchdog.request))
    case Reboot => s.(watchdog := Idle, rebooted := s.rebooted + [s.watchdog.request])
    case Stop => s.(watchdog := Idle)
    case Ask(retry) => s.(node := s.node.(retry := retry))
  }

  const FRESH := System(None, NONE, false, Idle, {}, false, multiset{}, {}, {}, [], {}, {}, {}, 0)

  ghost predicate Run(trace: seq<System>, actions: seq<Action>) {
    && |trace| == |actions| + 1 && trace[0] == FRESH
    && forall i :: 0 <= i < |actions| ==>
         Enabled(trace[i], actions[i]) && trace[i + 1] == Apply(trace[i], actions[i])
  }
}
