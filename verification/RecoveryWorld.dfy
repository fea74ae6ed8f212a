/**
 * The world the recovery operator reads: what each lookup would return at each moment. A run in which
 * every observation is true of the world at the moment it is made turns what the operator's record says
 * into what was so.
 */
module RecoveryWorld {
  import opened Bags
  import opened SlurmJobs
  import opened RecoveryMachine
  import opened RecoveryRuns

  datatype Presence = Present | Absent | Unreadable

  datatype NodeView = NodeView(ready: bool, boot: string, inventoryBoot: string, inventoryHash: string)

  /** A verifier Job: missing, not readable, or its counts of failed and succeeded Pods. */
  datatype Verifier = NoJob | NotRead | Counts(failed: nat, succeeded: nat)

  /** Everything the operator does not decide, at each moment: the fate of calls, the clock, the moves
      of others, and the answer of each lookup. None is a failed read. */
  datatype World = World(
    reply: nat -> Reply, clock: nat -> int, others: nat -> seq<Action>, rebootTimeout: int,
    load: nat -> bool, managed: nat -> bool, raw: nat -> Status, facts: nat -> Facts, newId: nat -> string,
    node: nat -> Option<NodeView>, pods: nat -> Option<seq<PodView>>,
    slurm: (nat, Cluster) -> Option<seq<SlurmJob>>, pod: (nat, Pod) -> Presence, claim: (nat, Pod) -> Presence,
    checkpoint: (nat, JobKey) -> bool, verifier: (nat, int) -> Verifier, verifiersGone: nat -> bool)

  /** The observation is what the world answers at time t. */
  ghost predicate TrueAt(w: World, t: nat, what: Observation) {
    match what
    case SawRaw(raw) => w.raw(t) == raw
    case SawFacts(facts) => w.facts(t) == facts
    case SawRetry(_) => true
    case SawAck(_) => true
    case SawClock(now) => w.clock(t) == now
    case SawPods(views) => w.pods(t) == Some(views)
    case SawJobs(c, jobs) => w.slurm(t, c) == Some(jobs)
    case SawPodGone(pod) => w.pod(t, pod) == Absent
    case SawClaimGone(pod) => w.claim(t, pod) == Absent
    case SawCheckpoint(k) => w.checkpoint(t, k)
    case SawBoot(boot) => w.node(t).Some? && w.node(t).value.boot == boot
    case SawInventory(hash, boot) =>
      w.node(t).Some? && w.node(t).value.inventoryHash == hash && w.node(t).value.inventoryBoot == boot
    case SawVerifier(numa, failed, succeeded) => w.verifier(t, numa) == Counts(failed, succeeded)
  }

  ghost predicate TrueIn(w: World, from: nat, to: nat, what: Observation) {
    exists t :: from <= t <= to && TrueAt(w, t, what)
  }

  // ---- Timed runs ----

  /** The moments of a run's steps: in order, up to now, each observation true when it is made. */
  ghost predicate Timed(w: World, actions: seq<Action>, times: seq<nat>, now: nat) {
    && |times| == |actions| && (forall i :: 0 <= i < |times| ==> times[i] <= now)
    && (forall i, j :: 0 <= i < j < |times| ==> times[i] <= times[j])
    && (forall i :: 0 <= i < |actions| && actions[i].Observe? ==> TrueAt(w, times[i], actions[i].what))
  }

  /** When the pass that step n belongs to began. */
  ghost function PassStart(actions: seq<Action>, times: seq<nat>, n: nat): nat
    requires n <= |actions| == |times|
  {
    if n == 0 then 0 else if actions[n - 1] == BeginPass then times[n - 1] else PassStart(actions, times, n - 1)
  }

  /** What a pass knows at step n was so at a moment of that pass. */
  lemma {:induction false} SeenWasTrue(w: World, trace: seq<System>, actions: seq<Action>, times: seq<nat>, now: nat,
                                       n: nat, at: nat, what: Observation)
    requires Run(trace, actions) && Timed(w, actions, times, now) && n <= |actions| && what in trace[n].seen
    requires forall i :: 0 <= i < n ==> times[i] <= at
    ensures TrueIn(w, PassStart(actions, times, n), at, what)
    decreases n
  {
    assert trace[n] == Apply(trace[n - 1], actions[n - 1]) && Enabled(trace[n - 1], actions[n - 1]);
    if actions[n - 1] == Observe(what) {
      PassStartsBefore(w, actions, times, now, n - 1);
      assert TrueAt(w, times[n - 1], what);
    } else {
      SeenWasTrue(w, trace, actions, times, now, n - 1, at, what);
    }
  }

  lemma {:induction false} PassStartsBefore(w: World, actions: seq<Action>, times: seq<nat>, now: nat, n: nat)
    requires Timed(w, actions, times, now) && n < |actions|
    ensures PassStart(actions, times, n) <= times[n]
  {
    if n > 0 && actions[n - 1] != BeginPass {
      PassStartsBefore(w, actions, times, now, n - 1);
    }
  }

  // ---- What must have been so ----

  /** Slurm listed no job that holds any of these workers of the cluster. */
  ghost predicate ClusterWasIdle(w: World, from: nat, to: nat, c: Cluster, workers: map<Pod, Worker>) {
    exists t :: from <= t <= to && w.slurm(t, c).Some? && NoneHeld(w.slurm(t, c).value, c, workers)
  }

  ghost predicate PodWasAbsent(w: World, from: nat, to: nat, pod: Pod) {
    exists t :: from <= t <= to && w.pod(t, pod) == Absent
  }

  ghost predicate ClaimWasAbsent(w: World, from: nat, to: nat, pod: Pod) {
    exists t :: from <= t <= to && w.claim(t, pod) == Absent
  }

  ghost predicate VerifierSucceeded(w: World, from: nat, to: nat, numa: int) {
    exists t :: from <= t <= to && w.verifier(t, numa) == Counts(0, 1)
  }

  ghost predicate BootWasShown(w: World, from: nat, to: nat, boot: string) {
    exists t :: from <= t <= to && w.node(t).Some? && w.node(t).value.boot == boot
  }

  ghost predicate InventoryWasShown(w: World, from: nat, to: nat, hash: string, boot: string) {
    exists t :: from <= t <= to && w.node(t).Some?
                && w.node(t).value.inventoryHash == hash && w.node(t).value.inventoryBoot == boot
  }

  /** The node said of itself what the record says of it from before the fault. */
  ghost predicate FactsWereShown(w: World, from: nat, to: nat, r: Record) {
    exists t :: from <= t <= to && w.facts(t).boot == r.preBoot && w.facts(t).inventory == r.preInventory
                && w.facts(t).hash == r.preHash
  }

  ghost predicate NoFaultIn(w: World, from: nat, to: nat) {
    exists t :: from <= t <= to && w.raw(t) == No
  }

  /** In this span, each recorded worker's cluster was without an active job on any recorded worker, and
      the worker's Pod and claim were absent. */
  ghost predicate NodeWasEmpty(w: World, from: nat, to: nat, workers: map<Pod, Worker>) {
    forall pod :: pod in workers ==>
      && ClusterWasIdle(w, from, to, workers[pod].cluster, workers)
      && PodWasAbsent(w, from, to, pod) && (workers[pod].claim != "" ==> ClaimWasAbsent(w, from, to, pod))
  }

  /** In this span every cell of the record's inventory, which is sound, had a verifier that had succeeded. */
  ghost predicate CellsSucceeded(w: World, from: nat, to: nat, r: Record) {
    && SoundInventory(r)
    && forall i :: 0 <= i < |r.preInventory.value.cells| ==>
         VerifierSucceeded(w, from, to, r.preInventory.value.cells[i].numa)
  }

  /** All that was seen was so at some moment of the span. */
  ghost predicate Truthful(w: World, from: nat, to: nat, seen: set<Observation>) {
    forall what :: what in seen ==> TrueIn(w, from, to, what)
  }

  lemma JobsWereIdle(w: World, from: nat, to: nat, c: Cluster, jobs: seq<SlurmJob>, workers: map<Pod, Worker>)
    requires TrueIn(w, from, to, SawJobs(c, jobs)) && NoneActive(jobs, WorkerNames(workers, c))
    ensures ClusterWasIdle(w, from, to, c, workers)
  {
    NoneActiveByName(jobs, c, workers);
    var t :| from <= t <= to && TrueAt(w, t, SawJobs(c, jobs));
  }

  lemma PodWasGone(w: World, from: nat, to: nat, pod: Pod)
    requires TrueIn(w, from, to, SawPodGone(pod))
    ensures PodWasAbsent(w, from, to, pod)
  {
    var t :| from <= t <= to && TrueAt(w, t, SawPodGone(pod));
  }

  lemma ClaimWasGone(w: World, from: nat, to: nat, pod: Pod)
    requires TrueIn(w, from, to, SawClaimGone(pod))
    ensures ClaimWasAbsent(w, from, to, pod)
  {
    var t :| from <= t <= to && TrueAt(w, t, SawClaimGone(pod));
  }

  lemma CellSucceeded(w: World, from: nat, to: nat, numa: int)
    requires TrueIn(w, from, to, SawVerifier(numa, 0, 1))
    ensures VerifierSucceeded(w, from, to, numa)
  {
    var t :| from <= t <= to && TrueAt(w, t, SawVerifier(numa, 0, 1));
  }

  lemma BootSeen(w: World, from: nat, to: nat, boot: string)
    requires TrueIn(w, from, to, SawBoot(boot))
    ensures BootWasShown(w, from, to, boot)
  {
    var t :| from <= t <= to && TrueAt(w, t, SawBoot(boot));
  }

  lemma InventorySeen(w: World, from: nat, to: nat, hash: string, boot: string)
    requires TrueIn(w, from, to, SawInventory(hash, boot))
    ensures InventoryWasShown(w, from, to, hash, boot)
  {
    var t :| from <= t <= to && TrueAt(w, t, SawInventory(hash, boot));
  }

  lemma FactsSeen(w: World, from: nat, to: nat, r: Record)
    requires TrueIn(w, from, to, SawFacts(FactsOf(r)))
    ensures FactsWereShown(w, from, to, r)
  {
    var t :| from <= t <= to && TrueAt(w, t, SawFacts(FactsOf(r)));
  }

  lemma NoFaultSeen(w: World, from: nat, to: nat)
    requires TrueIn(w, from, to, SawRaw(No))
    ensures NoFaultIn(w, from, to)
  {
    var t :| from <= t <= to && TrueAt(w, t, SawRaw(No));
  }

  lemma SightMeansEmpty(w: World, from: nat, to: nat, seen: set<Observation>, r: Record, sight: Sight)
    requires Evacuated(r, sight) && Sighted(seen, sight) && Truthful(w, from, to, seen)
    ensures NodeWasEmpty(w, from, to, r.workers)
  {
    forall pod | pod in r.workers
      ensures ClusterWasIdle(w, from, to, r.workers[pod].cluster, r.workers)
      ensures PodWasAbsent(w, from, to, pod)
      ensures r.workers[pod].claim != "" ==> ClaimWasAbsent(w, from, to, pod)
    {
      var c := r.workers[pod].cluster;
      JobsWereIdle(w, from, to, c, sight.jobs[c], r.workers);
      PodWasGone(w, from, to, pod);
      if r.workers[pod].claim != "" {
        ClaimWasGone(w, from, to, pod);
      }
    }
  }

  lemma SeenMeansSucceeded(w: World, from: nat, to: nat, seen: set<Observation>, r: Record)
    requires AllCellsSeen(seen, r) && Truthful(w, from, to, seen)
    ensures CellsSucceeded(w, from, to, r)
  {
    CellsAreTheInventory(r);
    var cells := r.preInventory.value.cells;
    forall i | 0 <= i < |cells| ensures VerifierSucceeded(w, from, to, cells[i].numa) {
      assert SawVerifier(CellsOf(r).value[i], 0, 1) in seen;
      CellSucceeded(w, from, to, cells[i].numa);
    }
  }

  // ---- Systems reached by a timed run ----

  ghost predicate Shows(w: World, trace: seq<System>, actions: seq<Action>, times: seq<nat>,
                        s: System, began: nat, now: nat)
  {
    && Run(trace, actions) && trace[|actions|] == s && Timed(w, actions, times, now)
    && PassStart(actions, times, |actions|) == began <= now
  }

  /** A key that always fits: what is kept under it is looked at only where a lemma turns it. */
  ghost predicate Opens(key: bool) { key || !key }

  /** Some run, all of whose observations were true of the world, ends here and now, in a pass begun then. */
  ghost predicate Witnessed(w: World, s: System, began: nat, now: nat) {
    forall key :: Opens(key) ==>
      exists trace, actions, times :: Shows(w, trace, actions, times, s, began, now)
  }

  lemma Unlock(w: World, s: System, began: nat, now: nat)
    returns (trace: seq<System>, actions: seq<Action>, times: seq<nat>)
    requires Witnessed(w, s, began, now)
    ensures Shows(w, trace, actions, times, s, began, now)
  {
    assert Opens(true);
    trace, actions, times :| Shows(w, trace, actions, times, s, began, now);
  }

  lemma WitnessedFresh(w: World)
    ensures Witnessed(w, FRESH, 0, 0)
  {
    assert Shows(w, [FRESH], [], [], FRESH, 0, 0);
  }

  lemma {:induction false} PassStartExtends(actions: seq<Action>, times: seq<nat>, a: Action, t: nat, n: nat)
    requires n <= |actions| == |times|
    ensures PassStart(actions + [a], times + [t], n) == PassStart(actions, times, n)
  {
    if n > 0 {
      PassStartExtends(actions, times, a, t, n - 1);
    }
  }

  lemma WitnessedApply(w: World, s: System, began: nat, now: nat, a: Action)
    requires Witnessed(w, s, began, now) && Enabled(s, a) && (a.Observe? ==> TrueAt(w, now, a.what))
    ensures Witnessed(w, Apply(s, a), if a == BeginPass then now else began, now)
  {
    var trace, actions, times := Unlock(w, s, began, now);
    PassStartExtends(actions, times, a, now, |actions|);
    RunExtends(trace, actions, a);
    assert Timed(w, actions + [a], times + [now], now);
    assert Shows(w, trace + [Apply(s, a)], actions + [a], times + [now], Apply(s, a),
                 if a == BeginPass then now else began, now);
  }

  lemma WitnessedLater(w: World, s: System, began: nat, now: nat, later: nat)
    requires Witnessed(w, s, began, now) && now <= later
    ensures Witnessed(w, s, began, later)
  {
    var trace, actions, times := Unlock(w, s, began, now);
    assert Shows(w, trace, actions, times, s, began, later);
  }

  lemma WitnessedTruthful(w: World, s: System, began: nat, now: nat)
    requires Witnessed(w, s, began, now)
    ensures Truthful(w, began, now, s.seen)
  {
    var trace, actions, times := Unlock(w, s, began, now);
    SeenAreTrue(w, trace, actions, times, now, |actions|, now);
  }

  lemma SeenAreTrue(w: World, trace: seq<System>, actions: seq<Action>, times: seq<nat>, now: nat, n: nat, at: nat)
    requires Run(trace, actions) && Timed(w, actions, times, now) && n <= |actions|
    requires forall i :: 0 <= i < n ==> times[i] <= at
    ensures Truthful(w, PassStart(actions, times, n), at, trace[n].seen)
  {
    forall what | what in trace[n].seen ensures TrueIn(w, PassStart(actions, times, n), at, what) {
      SeenWasTrue(w, trace, actions, times, now, n, at, what);
    }
  }

  lemma WitnessedReachable(w: World, s: System, began: nat, now: nat)
    requires Witnessed(w, s, began, now)
    ensures Reachable(s)
  {
    var trace, actions, times := Unlock(w, s, began, now);
  }

  // ---- What was so, whenever the record or the history says it ----

  /** When the pass of a step began, and when the step was taken. */
  datatype Span = Span(from: nat, to: nat)

  ghost function SpanOf(actions: seq<Action>, times: seq<nat>, n: nat): Span
    requires n < |actions| == |times|
  {
    Span(PassStart(actions, times, n), times[n])
  }

  ghost predicate TrueOf(w: World, span: Span, what: Observation) { TrueIn(w, span.from, span.to, what) }

  lemma SightWasRight(w: World, trace: seq<System>, actions: seq<Action>, times: seq<nat>, now: nat,
                      n: nat, what: Observation)
    requires Run(trace, actions) && Timed(w, actions, times, now) && n < |actions| && what in trace[n].seen
    ensures TrueOf(w, SpanOf(actions, times, n), what)
  {
    SeenWasTrue(w, trace, actions, times, now, n, times[n], what);
  }

  /** Every recorded worker was listed, with that cluster and claim, during the pass that recorded it. */
  lemma WorkerExisted(w: World, trace: seq<System>, actions: seq<Action>, times: seq<nat>, now: nat, n: nat, pod: Pod)
    returns (k: nat)
    requires Run(trace, actions) && Timed(w, actions, times, now) && n <= |actions|
    requires trace[n].durable.Some? && pod in trace[n].durable.value.workers
    ensures k < n && ListedBy(trace, actions, k, trace[n].durable.value, pod)
    ensures TrueOf(w, SpanOf(actions, times, k), SawPods(actions[k].change.views))
  {
    k := WorkerWasListed(trace, actions, n, pod);
    SightWasRight(w, trace, actions, times, now, k, SawPods(actions[k].change.views));
  }

  /** In the span of step k the workers of the record were gone, and so were the jobs on them. */
  ghost predicate EmptyAt(w: World, actions: seq<Action>, times: seq<nat>, k: nat, r: Record)
    requires k < |actions| == |times|
  {
    var span := SpanOf(actions, times, k);
    span.from <= span.to && NodeWasEmpty(w, span.from, span.to, r.workers)
  }

  /** The pass that requested the reboot did so for a node that was empty. */
  lemma RequestWasRight(w: World, trace: seq<System>, actions: seq<Action>, times: seq<nat>, now: nat,
                        k: nat, r: Record)
    requires Run(trace, actions) && Timed(w, actions, times, now) && EvacuatedBy(trace, actions, k, r)
    ensures EmptyAt(w, actions, times, k, r)
  {
    PassStartsBefore(w, actions, times, now, k);
    SeenAreTrue(w, trace, actions, times, now, k, times[k]);
    SightMeansEmpty(w, PassStart(actions, times, k), times[k], trace[k].seen, trace[k].durable.value,
                    actions[k].change.move.sight);
  }

  /** A record that has come as far as the request got there by a pass during which the node was empty of
      that record's workers. */
  lemma RequestedWhenEmpty(w: World, trace: seq<System>, actions: seq<Action>, times: seq<nat>, now: nat, n: nat)
    returns (k: nat)
    requires Run(trace, actions) && Timed(w, actions, times, now) && n <= |actions|
    requires trace[n].durable.Some? && trace[n].durable.value.phase in FROM_REQUEST
    ensures k < n && EvacuatedBy(trace, actions, k, trace[n].durable.value)
    ensures EmptyAt(w, actions, times, k, trace[n].durable.value)
  {
    k := RequestedAt(trace, actions, n, trace[n].durable.value);
    RequestWasRight(w, trace, actions, times, now, k, trace[n].durable.value);
  }

  /** The host is rebooted only for an incident whose reboot an earlier step requested, and the node was
      empty of that step's workers during the pass of that step. For an id started once, these are the
      workers the incident has ever after. */
  lemma RebootedWhenEmpty(w: World, trace: seq<System>, actions: seq<Action>, times: seq<nat>, now: nat, n: nat)
    returns (k: nat)
    requires Run(trace, actions) && Timed(w, actions, times, now) && n < |actions| && actions[n] == Reboot
    ensures k < n && trace[n].watchdog.Armed? && Owns(trace[k], trace[n].watchdog.request)
    ensures Requests(actions[k]) && EmptyAt(w, actions, times, k, trace[k].durable.value)
    ensures forall m :: k < m <= |actions| && Owns(trace[m], trace[n].watchdog.request)
                        && trace[m].starts[trace[n].watchdog.request] <= 1 ==>
              trace[m].durable.value.workers == trace[k].durable.value.workers
  {
    var looked, counted;
    k, looked, counted := RebootIsDue(trace, actions, n);
    RequestWasRight(w, trace, actions, times, now, k, trace[k].durable.value);
    forall m | k < m <= |actions| && Owns(trace[m], trace[n].watchdog.request)
               && trace[m].starts[trace[n].watchdog.request] <= 1
      ensures trace[m].durable.value.workers == trace[k].durable.value.workers
    {
      OneRequest(trace, actions, k, m, trace[m].durable.value);
    }
  }

  /** The verification that passed saw every verifier succeed, and no fault. */
  lemma PassWasRight(w: World, trace: seq<System>, actions: seq<Action>, times: seq<nat>, now: nat, k: nat, r: Record)
    requires Run(trace, actions) && Timed(w, actions, times, now) && PassedBy(trace, actions, k, r)
    ensures SoundAt(w, actions, times, k, r)
  {
    PassStartsBefore(w, actions, times, now, k);
    SeenAreTrue(w, trace, actions, times, now, k, times[k]);
    CellsAreTheInventory(r);
    SeenMeansSucceeded(w, PassStart(actions, times, k), times[k], trace[k].seen, r);
    NoFaultSeen(w, PassStart(actions, times, k), times[k]);
  }

  /** In the span of step k the verifiers of the record's cells had succeeded, and there was no fault. */
  ghost predicate SoundAt(w: World, actions: seq<Action>, times: seq<nat>, k: nat, r: Record)
    requires k < |actions| == |times|
  {
    var span := SpanOf(actions, times, k);
    CellsSucceeded(w, span.from, span.to, r) && NoFaultIn(w, span.from, span.to)
  }

  /** Each step of a story was taken by a pass during which the world was as the step says of the record. */
  ghost predicate Proves(w: World, actions: seq<Action>, times: seq<nat>, n: nat, r: Record, story: Story) {
    && story.started < story.evacuated < n < |actions| == |times|
    && story.booted < n && story.matched < n && story.passed < n
    && BegunAt(w, actions, times, story.started, r) && EmptyAt(w, actions, times, story.evacuated, r)
    && BootedAnewAt(w, actions, times, story.booted, r) && SameInventoryAt(w, actions, times, story.matched, r)
    && SoundAt(w, actions, times, story.passed, r)
    && NoFaultIn(w, SpanOf(actions, times, n).from, SpanOf(actions, times, n).to)
  }

  /** In the span of step k the node said what the record says of it from before the fault. */
  ghost predicate BegunAt(w: World, actions: seq<Action>, times: seq<nat>, k: nat, r: Record)
    requires k < |actions| == |times|
  {
    FactsWereShown(w, SpanOf(actions, times, k).from, SpanOf(actions, times, k).to, r)
  }

  /** In the span of step k the node showed the record's new boot, which is not the one before the fault. */
  ghost predicate BootedAnewAt(w: World, actions: seq<Action>, times: seq<nat>, k: nat, r: Record)
    requires k < |actions| == |times|
  {
    && r.newBoot != "" && r.newBoot != r.preBoot
    && BootWasShown(w, SpanOf(actions, times, k).from, SpanOf(actions, times, k).to, r.newBoot)
  }

  /** In the span of step k the node showed, for its new boot, an inventory with the hash from before the fault. */
  ghost predicate SameInventoryAt(w: World, actions: seq<Action>, times: seq<nat>, k: nat, r: Record)
    requires k < |actions| == |times|
  {
    && r.preHash != ""
    && InventoryWasShown(w, SpanOf(actions, times, k).from, SpanOf(actions, times, k).to, r.preHash, r.newBoot)
  }

  /** In a timed run the story behind a lifted quarantine is one of things that were so, of the very record
      that the lifting step finds. */
  lemma LiftWasRight(w: World, trace: seq<System>, actions: seq<Action>, times: seq<nat>, now: nat, n: nat)
    returns (story: Story)
    requires Run(trace, actions) && Timed(w, actions, times, now) && n < |actions| && Lifts(trace[n], actions[n])
    ensures Earned(trace, actions, n, trace[n].durable.value, story)
    ensures Proves(w, actions, times, n, trace[n].durable.value, story)
  {
    var r := trace[n].durable.value;
    story := LiftIsEarned(trace, actions, n);
    StoryWasRight(w, trace, actions, times, now, n, r, story);
    SightWasRight(w, trace, actions, times, now, n, SawRaw(No));
    NoFaultSeen(w, PassStart(actions, times, n), times[n]);
  }

  lemma StoryWasRight(w: World, trace: seq<System>, actions: seq<Action>, times: seq<nat>, now: nat, n: nat,
                      r: Record, story: Story)
    requires Run(trace, actions) && Timed(w, actions, times, now) && n < |actions|
    requires Earned(trace, actions, n, r, story)
    ensures BegunAt(w, actions, times, story.started, r) && EmptyAt(w, actions, times, story.evacuated, r)
    ensures BootedAnewAt(w, actions, times, story.booted, r) && SameInventoryAt(w, actions, times, story.matched, r)
    ensures SoundAt(w, actions, times, story.passed, r)
  {
    StartWasRight(w, trace, actions, times, now, story.started, r);
    RequestWasRight(w, trace, actions, times, now, story.evacuated, r);
    BootWasRight(w, trace, actions, times, now, story.booted, r);
    MatchWasRight(w, trace, actions, times, now, story.matched, r);
    PassWasRight(w, trace, actions, times, now, story.passed, r);
  }

  lemma StartWasRight(w: World, trace: seq<System>, actions: seq<Action>, times: seq<nat>, now: nat, k: nat, r: Record)
    requires Run(trace, actions) && Timed(w, actions, times, now) && StartedBy(trace, actions, k, r)
    ensures BegunAt(w, actions, times, k, r)
  {
    SightWasRight(w, trace, actions, times, now, k, SawFacts(FactsOf(r)));
    FactsSeen(w, PassStart(actions, times, k), times[k], r);
  }

  lemma BootWasRight(w: World, trace: seq<System>, actions: seq<Action>, times: seq<nat>, now: nat, k: nat, r: Record)
    requires Run(trace, actions) && Timed(w, actions, times, now) && BootedBy(trace, actions, k, r)
    ensures BootedAnewAt(w, actions, times, k, r)
  {
    SightWasRight(w, trace, actions, times, now, k, SawBoot(r.newBoot));
    BootSeen(w, PassStart(actions, times, k), times[k], r.newBoot);
  }

  lemma MatchWasRight(w: World, trace: seq<System>, actions: seq<Action>, times: seq<nat>, now: nat, k: nat, r: Record)
    requires Run(trace, actions) && Timed(w, actions, times, now) && MatchedBy(trace, actions, k, r)
    ensures SameInventoryAt(w, actions, times, k, r)
  {
    SightWasRight(w, trace, actions, times, now, k, SawInventory(r.preHash, r.newBoot));
    InventorySeen(w, PassStart(actions, times, k), times[k], r.preHash, r.newBoot);
  }

  /** What every record says of the node from before the fault, the node said of itself during the pass that
      made the record. */
  lemma RecordedFactsWereTrue(w: World, trace: seq<System>, actions: seq<Action>, times: seq<nat>, now: nat, n: nat)
    returns (k: nat)
    requires Run(trace, actions) && Timed(w, actions, times, now) && n <= |actions| && trace[n].durable.Some?
    ensures k < n && StartedBy(trace, actions, k, trace[n].durable.value)
    ensures BegunAt(w, actions, times, k, trace[n].durable.value)
  {
    k := StartedAt(trace, actions, n, trace[n].durable.value);
    StartWasRight(w, trace, actions, times, now, k, trace[n].durable.value);
  }

  /** Every incident ever lifted was lifted by a step of which that is so. */
  lemma LiftedWhenSound(w: World, trace: seq<System>, actions: seq<Action>, times: seq<nat>, now: nat, incident: string)
    returns (n: nat, story: Story)
    requires Run(trace, actions) && Timed(w, actions, times, now) && incident in trace[|actions|].lifted
    ensures n < |actions| && actions[n] == Lift && Owns(trace[n], incident)
    ensures Earned(trace, actions, n, trace[n].durable.value, story)
    ensures Proves(w, actions, times, n, trace[n].durable.value, story)
  {
    n := LiftedAt(trace, actions, |actions|, incident);
    story := LiftWasRight(w, trace, actions, times, now, n);
  }

  /** How the wait before the requeue at step n ended in the world: a checkpoint of the job was there during
      the pass that noted it, or during the pass of the requeue the clock was 120 seconds past the recorded
      signal time. */
  ghost predicate WaitWasOver(w: World, trace: seq<System>, actions: seq<Action>, times: seq<nat>, n: nat,
                              incident: string, k: JobKey, at: int, wait: Wait)
    requires Run(trace, actions) && n < |actions| == |times|
  {
    match wait
    case Checkpoint(step) =>
      && step < n && SavesStep(trace[step], actions[step], incident, k, NoteCheckpoint)
      && TrueOf(w, SpanOf(actions, times, step), SawCheckpoint(k))
    case Grace =>
      exists t :: SpanOf(actions, times, n).from <= t <= SpanOf(actions, times, n).to && w.clock(t) >= at + 120
  }

  /** A requeue reaches Slurm only for a job whose recorded signal time the clock showed during the pass that
      saved it, and only once the wait was over. */
  lemma RequeueWasRight(w: World, trace: seq<System>, actions: seq<Action>, times: seq<nat>, now: nat, n: nat)
    returns (intended: nat, at: int, wait: Wait)
    requires Run(trace, actions) && Timed(w, actions, times, now) && n < |actions| && actions[n].Requeue?
    ensures trace[n].durable.Some? && actions[n].key in trace[n].durable.value.jobs
    ensures trace[n].durable.value.jobs[actions[n].key].signalRequestedAt == Some(at)
    ensures intended < n && TrueOf(w, SpanOf(actions, times, intended), SawClock(at))
    ensures var incident := trace[n].durable.value.incident;
      && SavesStep(trace[intended], actions[intended], incident, actions[n].key, RequestSignal(at))
      && WaitWasOver(w, trace, actions, times, n, incident, actions[n].key, at, wait)
  {
    var signalled;
    signalled, intended, at, wait := RequeueFollowsSignal(trace, actions, n);
    SightWasRight(w, trace, actions, times, now, intended, SawClock(at));
    if wait.Grace? {
      ClockWasPast(w, trace, actions, times, now, n, at);
    } else {
      SightWasRight(w, trace, actions, times, now, wait.step, SawCheckpoint(actions[n].key));
    }
  }

  lemma ClockWasPast(w: World, trace: seq<System>, actions: seq<Action>, times: seq<nat>, now: nat, n: nat, at: int)
    requires Run(trace, actions) && Timed(w, actions, times, now) && n < |actions| && actions[n].Requeue?
    requires actions[n].now >= at + 120 && SawClock(actions[n].now) in trace[n].seen
    ensures exists t :: SpanOf(actions, times, n).from <= t <= SpanOf(actions, times, n).to && w.clock(t) >= at + 120
  {
    SightWasRight(w, trace, actions, times, now, n, SawClock(actions[n].now));
    var span := SpanOf(actions, times, n);
    var t :| span.from <= t <= span.to && TrueAt(w, t, SawClock(actions[n].now));
  }

  lemma RequeueWasSignalled(trace: seq<System>, actions: seq<Action>, n: nat)
    requires Run(trace, actions) && n < |actions| && actions[n].Requeue?
    ensures trace[n].durable.Some? && (trace[n].durable.value.incident, actions[n].key) in trace[n].signalled
  {
    RunCallsInv(trace, actions, n);
    assert Enabled(trace[n], actions[n]);
  }

  /** Every job ever requeued was requeued by a step of which that is so, and had been signalled. */
  lemma RequeuedWhenDue(w: World, trace: seq<System>, actions: seq<Action>, times: seq<nat>, now: nat,
                        incident: string, k: JobKey) returns (n: nat, at: int, wait: Wait)
    requires Run(trace, actions) && Timed(w, actions, times, now) && (incident, k) in trace[|actions|].requeued
    ensures n < |actions| && actions[n].Requeue? && actions[n].key == k && Owns(trace[n], incident)
    ensures (incident, k) in trace[n].signalled
    ensures k in trace[n].durable.value.jobs && trace[n].durable.value.jobs[k].signalRequestedAt == Some(at)
    ensures WaitWasOver(w, trace, actions, times, n, incident, k, at, wait)
  {
    n := RequeuedAt(trace, actions, |actions|, incident, k);
    RequeueWasSignalled(trace, actions, n);
    var intended;
    intended, at, wait := RequeueWasRight(w, trace, actions, times, now, n);
  }
}
