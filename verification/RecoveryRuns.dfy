/**
 * What holds of hardware recovery in every run: each incident leads to at most one reboot, the
 * quarantine is lifted only when it has been earned, Slurm calls follow their durable intents and are
 * not repeated, and phases cannot change for ever.
 */
module RecoveryRuns {
  import opened Bags
  import opened RecoveryMachine

  // ---- Who is known ----

  /** Ids that were asked for, acknowledged, seen as acknowledged, or that stand on the node or with the
      watchdog, are ids that were started. */
  ghost predicate KnownInv(s: System) {
    && "" !in s.starts && (forall id :: id in s.asked ==> id in s.starts) && s.acked <= s.asked
    && (s.node.ack != "" ==> s.node.ack in s.acked)
    && (s.node.request != "" ==> s.node.request in s.asked)
    && (s.durable.Some? ==> s.durable.value.incident in s.starts)
    && (!s.watchdog.Idle? ==> s.watchdog.request in s.asked)
    && (forall id :: SawAck(id) in s.seen && id != "" ==> id in s.acked)
  }

  lemma OperatorKeepsKnown(s: System, a: Action)
    requires KnownInv(s) && Enabled(s, a) && !Outside(a) && !a.Save?
    ensures KnownInv(Apply(s, a))
  {
    match a
    case BeginPass =>
    case Observe(_) =>
    case Create(_, _, _) =>
    case Restart(_, _) =>
    case Isolate =>
    case SetCondition(_) =>
    case Lift =>
    case Clear(_) =>
    case Forget =>
    case Signal(_) =>
    case Requeue(_, _) =>
  }

  lemma OutsideKeepsKnown(s: System, a: Action)
    requires KnownInv(s) && Enabled(s, a) && Outside(a)
    ensures KnownInv(Apply(s, a))
  {
    match a
    case Look =>
    case CountPods(_) =>
    case Acknowledge(_) =>
    case Reboot =>
    case Stop =>
    case Ask(_) =>
  }

  lemma ApplyKeepsKnown(s: System, a: Action)
    requires KnownInv(s) && Enabled(s, a)
    ensures KnownInv(Apply(s, a))
  {
    if Outside(a) {
      OutsideKeepsKnown(s, a);
    } else if a.Save? {
      PhaseSteps(s, s.durable.value, a.change);
    } else {
      OperatorKeepsKnown(s, a);
    }
  }

  lemma {:induction false} RunKnown(trace: seq<System>, actions: seq<Action>, n: nat)
    requires Run(trace, actions) && n <= |actions|
    ensures KnownInv(trace[n])
  {
    if n > 0 {
      RunKnown(trace, actions, n - 1);
      ApplyKeepsKnown(trace[n - 1], actions[n - 1]);
    }
  }

  /** No change leads back into evacuation, and a reboot is requested only at the end of one. */
  lemma PhaseSteps(s: System, r: Record, change: Change)
    requires Allowed(s, r, change)
    ensures var next := Changed(r, change);
      && next.incident == r.incident
      && (Evacuating(next.phase) ==> Evacuating(r.phase))
      && (Asking(next.phase) ==>
            Asking(r.phase) || (r.phase == Requeued && change.To? && change.move.RequestReboot?))
  {
  }

  lemma {:induction false} StartsGrow(trace: seq<System>, actions: seq<Action>, m: nat, n: nat, id: string)
    requires Run(trace, actions) && m <= n <= |actions|
    ensures trace[m].starts[id] <= trace[n].starts[id]
    decreases n
  {
    if m < n {
      StartsGrow(trace, actions, m, n - 1, id);
      assert trace[n] == Apply(trace[n - 1], actions[n - 1]) && Enabled(trace[n - 1], actions[n - 1]);
    }
  }

  // ---- Reboots ----

  predicate Owns(s: System, incident: string) {
    s.durable.Some? && s.durable.value.incident == incident
  }

  function Reboots(s: System, id: string): nat { multiset(s.rebooted)[id] }

  /** The watchdog will not act on this incident again. */
  ghost predicate Spent(s: System, id: string) {
    s.node.ack == id || s.node.request != id
  }

  /** Of one incident: its request, once written, stands until it is past its reboot; it was rebooted for
      at most once, and is then acknowledged or no longer requested; and an attempt is under way for it
      only before that. */
  ghost predicate OnceInv(s: System, id: string) {
    && (Owns(s, id) && id in s.asked ==>
          && !Evacuating(s.durable.value.phase)
          && (Asking(s.durable.value.phase) ==> s.node.request == id))
    && Reboots(s, id) <= 1 && (Reboots(s, id) == 1 ==> id in s.asked && Spent(s, id))
    && (!s.watchdog.Idle? && s.watchdog.request == id ==> Reboots(s, id) == 0)
    && (s.watchdog == Armed(id) ==> Spent(s, id))
  }

  lemma RebootKeepsOnce(s: System, id: string)
    requires KnownInv(s) && OnceInv(s, id) && Enabled(s, Reboot)
    ensures OnceInv(Apply(s, Reboot), id)
  {
    assert multiset(Apply(s, Reboot).rebooted) == multiset(s.rebooted) + multiset{s.watchdog.request};
  }

  lemma AcknowledgeKeepsOnce(s: System, lost: bool, id: string)
    requires OnceInv(s, id) && Enabled(s, Acknowledge(lost))
    ensures OnceInv(Apply(s, Acknowledge(lost)), id)
  {
    assert Apply(s, Acknowledge(lost)).rebooted == s.rebooted;
  }

  lemma LookKeepsOnce(s: System, id: string)
    requires OnceInv(s, id) && Enabled(s, Look)
    ensures OnceInv(Apply(s, Look), id)
  {
    assert Due(s) ==> !Spent(s, s.node.request);
  }

  lemma IdleKeepsOnce(s: System, a: Action, id: string)
    requires OnceInv(s, id) && Enabled(s, a) && (a.CountPods? || a.Stop? || a.Ask?)
    ensures OnceInv(Apply(s, a), id)
  {
  }

  lemma OutsideKeepsOnce(s: System, a: Action, id: string)
    requires KnownInv(s) && OnceInv(s, id) && Enabled(s, a) && Outside(a)
    ensures OnceInv(Apply(s, a), id)
  {
    if a == Look {
      LookKeepsOnce(s, id);
    } else if a.Acknowledge? {
      AcknowledgeKeepsOnce(s, a.lost, id);
    } else if a == Reboot {
      RebootKeepsOnce(s, id);
    } else {
      IdleKeepsOnce(s, a, id);
    }
  }

  lemma OperatorKeepsOnce(s: System, a: Action, id: string)
    requires KnownInv(s) && OnceInv(s, id) && Enabled(s, a) && !Outside(a) && Apply(s, a).starts[id] <= 1
    ensures OnceInv(Apply(s, a), id)
  {
    if a.Save? {
      PhaseSteps(s, s.durable.value, a.change);
    }
  }

  lemma {:induction false} RunOnce(trace: seq<System>, actions: seq<Action>, n: nat, id: string)
    requires Run(trace, actions) && n <= |actions| && trace[n].starts[id] <= 1
    ensures OnceInv(trace[n], id)
  {
    if n > 0 {
      StartsGrow(trace, actions, n - 1, n, id);
      RunKnown(trace, actions, n - 1);
      RunOnce(trace, actions, n - 1, id);
      if Outside(actions[n - 1]) {
        OutsideKeepsOnce(trace[n - 1], actions[n - 1], id);
      } else {
        OperatorKeepsOnce(trace[n - 1], actions[n - 1], id);
      }
    }
  }

  /** In every run, with any interleaving of the operator, its crashes and the watchdog, an incident id
      that is started at most once leads to at most one reboot, whatever becomes of other ids. */
  lemma OneRebootPerIncident(trace: seq<System>, actions: seq<Action>, n: nat, id: string)
    requires Run(trace, actions) && n <= |actions| && trace[n].starts[id] <= 1
    ensures Reboots(trace[n], id) <= 1
  {
    RunOnce(trace, actions, n, id);
  }

  // ---- Looking back along a run ----

  /** What is true now and was not at first became true at some step. */
  lemma {:induction false} BecameTrue(trace: seq<System>, p: System -> bool, n: nat) returns (k: nat)
    requires n < |trace| && p(trace[n]) && !p(trace[0])
    ensures k < n && !p(trace[k]) && p(trace[k + 1])
  {
    k := n - 1;
    if p(trace[k]) {
      k := BecameTrue(trace, p, k);
    }
  }

  /** What is true at a step, and is kept from step to step, is true ever after. */
  lemma {:induction false} StaysTrue(trace: seq<System>, p: System -> bool, i: nat, n: nat)
    requires i <= n < |trace| && p(trace[i])
    requires forall m :: i <= m < n && p(trace[m]) ==> p(trace[m + 1])
    ensures p(trace[n])
    decreases n
  {
    if i < n {
      StaysTrue(trace, p, i, n - 1);
    }
  }

  /** No pass begins between two steps. */
  predicate SamePass(actions: seq<Action>, k: nat, n: nat) {
    k < n <= |actions| && forall j :: k < j < n ==> actions[j] != BeginPass
  }

  /** What a pass knows it has read, in that very pass. */
  lemma {:induction false} SeenAt(trace: seq<System>, actions: seq<Action>, n: nat, what: Observation) returns (k: nat)
    requires Run(trace, actions) && n <= |actions| && what in trace[n].seen
    ensures SamePass(actions, k, n) && actions[k] == Observe(what)
  {
    k := n - 1;
    assert trace[n] == Apply(trace[k], actions[k]) && Enabled(trace[k], actions[k]);
    if actions[k] != Observe(what) {
      k := SeenAt(trace, actions, n - 1, what);
    }
  }

  predicate InPhase(s: System, incident: string, phases: set<Phase>) {
    Owns(s, incident) && s.durable.value.phase in phases
  }

  const FROM_REQUEST := {RebootRequested, Rebooting, Verifying}
  const FROM_REBOOT := {Rebooting, Verifying}

  predicate Requests(a: Action) { a.Save? && a.change.To? && a.change.move.RequestReboot? }
  predicate Matches(a: Action) { a.Save? && a.change.To? && a.change.move.Verify? }

  /** The durable record is of r's incident, with r's workers and what r says of the node before the fault. */
  predicate Shares(s: System, r: Record) {
    && Owns(s, r.incident) && s.durable.value.workers == r.workers && s.durable.value.preBoot == r.preBoot
    && s.durable.value.preInventory == r.preInventory && s.durable.value.preHash == r.preHash
  }

  predicate Requested(s: System, r: Record) { Shares(s, r) && s.durable.value.phase in FROM_REQUEST }
  predicate Rebooted(s: System, r: Record) { Shares(s, r) && s.durable.value.phase in FROM_REBOOT }
  predicate Booted(s: System, r: Record) { Shares(s, r) && s.durable.value.newBoot == r.newBoot != "" }
  predicate Matched(s: System, r: Record) { Booted(s, r) && s.durable.value.phase == Verifying }
  predicate Passed(s: System, r: Record) { Booted(s, r) && s.durable.value.verificationPassed }

  /** Other than by a save, a record is only made anew, before all of that. */
  lemma OnlySaves(s: System, a: Action, r: Record)
    requires Enabled(s, a) && !a.Save? && Apply(s, a).durable != s.durable
    ensures !Requested(Apply(s, a), r) && !Booted(Apply(s, a), r) && !Passed(Apply(s, a), r)
  {
  }

  /** A reboot is requested only by a pass that itself read that no active job uses any recorded worker
      and that every recorded worker's Pod and claim is gone. */
  lemma RequestedAt(trace: seq<System>, actions: seq<Action>, n: nat, r: Record) returns (k: nat)
    requires Run(trace, actions) && n <= |actions| && Requested(trace[n], r)
    ensures k < n && EvacuatedBy(trace, actions, k, r)
  {
    k := BecameTrue(trace, (s: System) => Requested(s, r), n);
    EntersRequest(trace[k], actions[k], r);
  }

  /** Step k requests the reboot of an incident whose node this pass has read to be evacuated. */
  ghost predicate EvacuatedBy(trace: seq<System>, actions: seq<Action>, k: nat, r: Record)
    requires Run(trace, actions)
  {
    && k < |actions| && Requests(actions[k]) && Shares(trace[k], r) && trace[k].durable.value.phase == Requeued
    && Evacuated(trace[k].durable.value, actions[k].change.move.sight)
    && Sighted(trace[k].seen, actions[k].change.move.sight)
  }

  lemma EntersRequest(s: System, a: Action, r: Record)
    requires Enabled(s, a) && !Requested(s, r) && Requested(Apply(s, a), r)
    ensures Requests(a) && Shares(s, r) && s.durable.value.phase == Requeued
  {
    if !a.Save? {
      OnlySaves(s, a, r);
    }
  }

  lemma AskedAt(trace: seq<System>, actions: seq<Action>, n: nat, incident: string) returns (k: nat)
    requires Run(trace, actions) && n <= |actions| && incident in trace[n].asked
    ensures k < n && InPhase(trace[k], incident, FROM_REQUEST)
  {
    k := BecameTrue(trace, (s: System) => incident in s.asked, n);
    assert trace[k + 1] == Apply(trace[k], actions[k]) && Enabled(trace[k], actions[k]);
  }

  predicate AttemptAt(s: System, attempt: Attempt) { s.watchdog == attempt }

  /** At step k the watchdog looks at a degraded node, marked as of that incident and waiting for its reboot,
      which is asked for and not acknowledged. */
  ghost predicate LookedBy(trace: seq<System>, actions: seq<Action>, k: nat, incident: string)
    requires Run(trace, actions)
  {
    && k < |actions| && actions[k] == Look && incident != "" && trace[k].degraded
    && trace[k].node.incident == incident && trace[k].node.phase == Some(RebootRequested)
    && trace[k].node.request == incident && trace[k].node.ack != incident
  }

  /** Every attempt begins with such a look, so none begins on a node marked for manual repair. */
  lemma AttemptBegins(trace: seq<System>, actions: seq<Action>, k: nat)
    requires Run(trace, actions) && k < |actions| && trace[k].watchdog.Idle? && !trace[k + 1].watchdog.Idle?
    ensures LookedBy(trace, actions, k, trace[k + 1].watchdog.request)
    ensures trace[k].node.phase != Some(ManualRepair)
  {
    assert trace[k + 1] == Apply(trace[k], actions[k]) && Enabled(trace[k], actions[k]);
  }

  lemma LookedAt(trace: seq<System>, actions: seq<Action>, n: nat, request: string) returns (k: nat)
    requires Run(trace, actions) && n <= |actions| && trace[n].watchdog == Looked(request)
    ensures k < n && LookedBy(trace, actions, k, request)
  {
    k := BecameTrue(trace, (s: System) => AttemptAt(s, Looked(request)), n);
    assert trace[k + 1] == Apply(trace[k], actions[k]) && Enabled(trace[k], actions[k]);
  }

  predicate PastPods(s: System, request: string) {
    s.watchdog == Unoccupied(request) || s.watchdog == Armed(request)
  }

  lemma CountedAt(trace: seq<System>, actions: seq<Action>, n: nat, request: string) returns (k: nat)
    requires Run(trace, actions) && n <= |actions| && PastPods(trace[n], request)
    ensures k < n && actions[k] == CountPods(0) && trace[k].watchdog == Looked(request)
  {
    k := BecameTrue(trace, (s: System) => PastPods(s, request), n);
    assert trace[k + 1] == Apply(trace[k], actions[k]) && Enabled(trace[k], actions[k]);
  }

  /** Behind every reboot, in order: a pass of the operator that read that the node is evacuated, a look
      of the watchdog that saw a request for the present incident in phase RebootRequested on a degraded
      node, and a count that found no worker Pods. */
  lemma RebootIsDue(trace: seq<System>, actions: seq<Action>, n: nat)
    returns (evacuated: nat, looked: nat, counted: nat)
    requires Run(trace, actions) && n < |actions| && actions[n] == Reboot
    ensures evacuated < looked < counted < n && trace[n].watchdog.Armed?
    ensures Owns(trace[evacuated], trace[n].watchdog.request)
    ensures EvacuatedBy(trace, actions, evacuated, trace[evacuated].durable.value)
    ensures LookedBy(trace, actions, looked, trace[n].watchdog.request)
    ensures actions[counted] == CountPods(0) && trace[counted].watchdog == Looked(trace[n].watchdog.request)
  {
    evacuated, looked, counted := AttemptIsDue(trace, actions, n, trace[n].watchdog.request);
  }

  /** The same behind every attempt that has found no worker Pods. */
  lemma AttemptIsDue(trace: seq<System>, actions: seq<Action>, n: nat, request: string)
    returns (evacuated: nat, looked: nat, counted: nat)
    requires Run(trace, actions) && n <= |actions| && PastPods(trace[n], request)
    ensures evacuated < looked < counted < n && Owns(trace[evacuated], request)
    ensures EvacuatedBy(trace, actions, evacuated, trace[evacuated].durable.value)
    ensures LookedBy(trace, actions, looked, request)
    ensures actions[counted] == CountPods(0) && trace[counted].watchdog == Looked(request)
  {
    counted := CountedAt(trace, actions, n, request);
    looked := LookedAt(trace, actions, counted, request);
    RunKnown(trace, actions, looked);
    var asked := AskedAt(trace, actions, looked, request);
    evacuated := RequestedAt(trace, actions, asked, trace[asked].durable.value);
  }

  // ---- From the request to the verification ----

  lemma AcknowledgedAt(trace: seq<System>, actions: seq<Action>, n: nat, incident: string) returns (k: nat)
    requires Run(trace, actions) && n <= |actions| && incident in trace[n].acked
    ensures k < n && actions[k].Acknowledge? && trace[k].watchdog == Unoccupied(incident)
  {
    k := BecameTrue(trace, (s: System) => incident in s.acked, n);
    assert trace[k + 1] == Apply(trace[k], actions[k]) && Enabled(trace[k], actions[k]);
  }

  lemma {:induction false} AcksLast(trace: seq<System>, actions: seq<Action>, i: nat, n: nat, id: string)
    requires Run(trace, actions) && i <= n <= |actions| && id in trace[i].acked
    ensures id in trace[n].acked
  {
    if i < n {
      AcksLast(trace, actions, i, n - 1, id);
      assert trace[n] == Apply(trace[n - 1], actions[n - 1]) && Enabled(trace[n - 1], actions[n - 1]);
    }
  }

  lemma ConfirmedAt(trace: seq<System>, actions: seq<Action>, n: nat, r: Record) returns (k: nat)
    requires Run(trace, actions) && n <= |actions| && Rebooted(trace[n], r)
    ensures k < n && ConfirmedBy(trace, actions, k, r) && Requested(trace[k], r)
  {
    k := BecameTrue(trace, (s: System) => Rebooted(s, r), n);
    EntersReboot(trace[k], actions[k], r);
  }

  /** At step k this pass has read that the watchdog acknowledged the incident. */
  ghost predicate ConfirmedBy(trace: seq<System>, actions: seq<Action>, k: nat, r: Record)
    requires Run(trace, actions)
  {
    && k < |actions| && actions[k] == Save(To(ConfirmAck)) && Shares(trace[k], r)
    && SawAck(r.incident) in trace[k].seen
  }

  lemma EntersReboot(s: System, a: Action, r: Record)
    requires Enabled(s, a) && !Rebooted(s, r) && Rebooted(Apply(s, a), r)
    ensures a == Save(To(ConfirmAck)) && Requested(s, r) && SawAck(r.incident) in s.seen
  {
    if !a.Save? {
      OnlySaves(s, a, r);
    }
  }

  /** A boot is recorded and a verification passed only when evacuation is over. */
  ghost predicate MarksAreLate(s: System) {
    s.durable.Some? && Evacuating(s.durable.value.phase) ==>
      s.durable.value.newBoot == "" && !s.durable.value.verificationPassed
  }

  lemma ApplyKeepsMarksLate(s: System, a: Action)
    requires Enabled(s, a) && MarksAreLate(s)
    ensures MarksAreLate(Apply(s, a))
  {
    if a.Save? {
      PhaseSteps(s, s.durable.value, a.change);
    }
  }

  lemma {:induction false} RunMarksLate(trace: seq<System>, actions: seq<Action>, n: nat)
    requires Run(trace, actions) && n <= |actions|
    ensures MarksAreLate(trace[n])
  {
    if n > 0 {
      RunMarksLate(trace, actions, n - 1);
      ApplyKeepsMarksLate(trace[n - 1], actions[n - 1]);
    }
  }

  lemma BootedAt(trace: seq<System>, actions: seq<Action>, n: nat, r: Record) returns (k: nat)
    requires Run(trace, actions) && n <= |actions| && Booted(trace[n], r)
    ensures k < n && BootedBy(trace, actions, k, r) && Rebooted(trace[k], r)
  {
    k := BecameTrue(trace, (s: System) => Booted(s, r), n);
    RunMarksLate(trace, actions, k);
    EntersBoot(trace[k], actions[k], r);
  }

  lemma EntersBoot(s: System, a: Action, r: Record)
    requires Enabled(s, a) && MarksAreLate(s) && !Booted(s, r) && Booted(Apply(s, a), r)
    ensures a == Save(RecordBoot(r.newBoot)) && Rebooted(s, r) && r.newBoot != r.preBoot
    ensures SawBoot(r.newBoot) in s.seen
  {
    if !a.Save? {
      OnlySaves(s, a, r);
    }
  }

  /** Step k records a new boot that this pass has read. */
  ghost predicate BootedBy(trace: seq<System>, actions: seq<Action>, k: nat, r: Record)
    requires Run(trace, actions)
  {
    && k < |actions| && actions[k] == Save(RecordBoot(r.newBoot)) && Shares(trace[k], r)
    && r.newBoot != "" && r.newBoot != r.preBoot && SawBoot(r.newBoot) in trace[k].seen
  }

  lemma MatchedAt(trace: seq<System>, actions: seq<Action>, n: nat, r: Record) returns (k: nat)
    requires Run(trace, actions) && n <= |actions| && Matched(trace[n], r)
    ensures k < n && MatchedBy(trace, actions, k, r) && Booted(trace[k], r)
  {
    k := BecameTrue(trace, (s: System) => Matched(s, r), n);
    EntersVerifying(trace[k], actions[k], r);
  }

  lemma EntersVerifying(s: System, a: Action, r: Record)
    requires Enabled(s, a) && !Matched(s, r) && Matched(Apply(s, a), r)
    ensures Matches(a) && Booted(s, r) && r.preHash != "" && SawInventory(r.preHash, r.newBoot) in s.seen
  {
    if !a.Save? {
      OnlySaves(s, a, r);
    }
  }

  /** At step k this pass has read an inventory of the recorded boot with the non-empty hash from before
      the fault. */
  ghost predicate MatchedBy(trace: seq<System>, actions: seq<Action>, k: nat, r: Record)
    requires Run(trace, actions)
  {
    && k < |actions| && Matches(actions[k]) && Booted(trace[k], r) && r.preHash != ""
    && SawInventory(r.preHash, r.newBoot) in trace[k].seen
  }

  lemma PassedAt(trace: seq<System>, actions: seq<Action>, n: nat, r: Record) returns (k: nat)
    requires Run(trace, actions) && n <= |actions| && Passed(trace[n], r)
    ensures k < n && PassedBy(trace, actions, k, r) && Matched(trace[k], r)
  {
    k := BecameTrue(trace, (s: System) => Passed(s, r), n);
    RunMarksLate(trace, actions, k);
    RunPassedBooted(trace, actions, k);
    EntersPassed(trace[k], actions[k], r);
    CellsAreTheInventory(r);
  }

  lemma EntersPassed(s: System, a: Action, r: Record)
    requires Enabled(s, a) && MarksAreLate(s) && PassedBooted(s) && !Passed(s, r) && Passed(Apply(s, a), r)
    ensures a == Save(Pass) && Matched(s, r) && AllCellsSeen(s.seen, r) && SawRaw(No) in s.seen
  {
    if !a.Save? {
      OnlySaves(s, a, r);
    }
  }

  /** A verification has passed only for a recorded boot. */
  ghost predicate PassedBooted(s: System) {
    s.durable.Some? ==>
      && (s.durable.value.phase == Verifying ==> s.durable.value.newBoot != "")
      && (s.durable.value.verificationPassed ==> s.durable.value.newBoot != "")
  }

  lemma {:induction false} RunPassedBooted(trace: seq<System>, actions: seq<Action>, n: nat)
    requires Run(trace, actions) && n <= |actions|
    ensures PassedBooted(trace[n])
  {
    if n > 0 {
      RunPassedBooted(trace, actions, n - 1);
      assert trace[n] == Apply(trace[n - 1], actions[n - 1]) && Enabled(trace[n - 1], actions[n - 1]);
    }
  }

  /** At step k this one pass has read that every cell of the inventory from before the fault has
      succeeded, and that no fault is reported. */
  ghost predicate PassedBy(trace: seq<System>, actions: seq<Action>, k: nat, r: Record)
    requires Run(trace, actions)
  {
    && k < |actions| && actions[k] == Save(Pass) && Booted(trace[k], r)
    && SoundInventory(r) && SawRaw(No) in trace[k].seen
    && forall i :: 0 <= i < |r.preInventory.value.cells| ==>
         SawVerifier(r.preInventory.value.cells[i].numa, 0, 1) in trace[k].seen
  }

  /** The inventory from before the fault can be verified by: of version 1, published for the boot before the
      fault, not empty, and with every field of every cell in its range. */
  predicate SoundInventory(r: Record) {
    && r.preInventory.Some? && r.preInventory.value.version == 1 && r.preInventory.value.boot == r.preBoot
    && |r.preInventory.value.cells| > 0
    && forall i :: 0 <= i < |r.preInventory.value.cells| ==>
         && r.preInventory.value.cells[i].numa >= 0 && r.preInventory.value.cells[i].cpus >= 1
         && r.preInventory.value.cells[i].memoryUnits >= 1 && r.preInventory.value.cells[i].memoryUnitBytes >= 1
  }

  /** A record has cells to verify exactly when its inventory is sound, and they are those of the inventory. */
  lemma CellsAreTheInventory(r: Record)
    ensures CellsOf(r).Some? <==> SoundInventory(r)
    ensures CellsOf(r).Some? ==>
      && |CellsOf(r).value| == |r.preInventory.value.cells|
      && forall i :: 0 <= i < |CellsOf(r).value| ==> CellsOf(r).value[i] == r.preInventory.value.cells[i].numa
  {
    assert forall i :: r.preInventory.Some? && 0 <= i < |r.preInventory.value.cells| ==>
      (CellOk(r.preInventory.value.cells[i]) <==>
        && r.preInventory.value.cells[i].numa >= 0 && r.preInventory.value.cells[i].cpus >= 1
        && r.preInventory.value.cells[i].memoryUnits >= 1 && r.preInventory.value.cells[i].memoryUnitBytes >= 1);
  }

  // ---- An incident's request, for an id started once ----

  /** After its request an incident keeps its workers and never evacuates again. */
  predicate Settled(s: System, r: Record) {
    r.incident in s.starts && (Owns(s, r.incident) ==> Shares(s, r) && !Evacuating(s.durable.value.phase))
  }

  lemma ApplyKeepsSettled(s: System, a: Action, r: Record)
    requires Enabled(s, a) && Settled(s, r) && Apply(s, a).starts[r.incident] <= 1
    ensures Settled(Apply(s, a), r)
  {
    if a.Save? {
      PhaseSteps(s, s.durable.value, a.change);
    }
  }

  lemma SettledLasts(trace: seq<System>, actions: seq<Action>, i: nat, n: nat, r: Record)
    requires Run(trace, actions) && i <= n <= |actions| && Settled(trace[i], r) && trace[n].starts[r.incident] <= 1
    ensures Settled(trace[n], r)
  {
    forall m | i <= m < n && Settled(trace[m], r) ensures Settled(trace[m + 1], r) {
      StartsGrow(trace, actions, m + 1, n, r.incident);
      SettledStep(trace, actions, m, r);
    }
    StaysTrue(trace, (s: System) => Settled(s, r), i, n);
  }

  lemma SettledStep(trace: seq<System>, actions: seq<Action>, m: nat, r: Record)
    requires Run(trace, actions) && m < |actions| && Settled(trace[m], r) && trace[m + 1].starts[r.incident] <= 1
    ensures Settled(trace[m + 1], r)
  {
    ApplyKeepsSettled(trace[m], actions[m], r);
  }

  /** Of an id started at most once, whatever step requested its reboot did so for the record there is. */
  lemma OneRequest(trace: seq<System>, actions: seq<Action>, k: nat, n: nat, r: Record)
    requires Run(trace, actions) && k < n <= |actions| && trace[n].starts[r.incident] <= 1 && Shares(trace[n], r)
    requires Owns(trace[k], r.incident) && EvacuatedBy(trace, actions, k, trace[k].durable.value)
    ensures EvacuatedBy(trace, actions, k, r)
  {
    RunKnown(trace, actions, k);
    SettledLasts(trace, actions, k + 1, n, trace[k].durable.value);
  }

  // ---- Lifting the quarantine ----

  /** The steps that lead to a lifted quarantine. */
  datatype Story = Story(
    started: nat, evacuated: nat, looked: nat, counted: nat, acknowledged: nat,
    confirmed: nat, booted: nat, matched: nat, passed: nat)

  /** The watchdog looked, found a request that was due, found no worker Pods, and acknowledged. */
  ghost predicate AcknowledgedBy(trace: seq<System>, actions: seq<Action>, story: Story, incident: string)
    requires Run(trace, actions)
  {
    && story.looked < story.counted < story.acknowledged < |actions|
    && LookedBy(trace, actions, story.looked, incident)
    && actions[story.counted] == CountPods(0) && trace[story.counted].watchdog == Looked(incident)
    && actions[story.acknowledged].Acknowledge? && trace[story.acknowledged].watchdog == Unoccupied(incident)
  }

  /** All of it happened, in that order, to the record there is at step n. */
  ghost predicate Earned(trace: seq<System>, actions: seq<Action>, n: nat, r: Record, story: Story)
    requires Run(trace, actions) && n < |actions|
  {
    && story.started < story.evacuated < story.confirmed && story.acknowledged < story.confirmed
    && story.confirmed < story.booted < story.matched < story.passed < n
    && (trace[n].starts[r.incident] <= 1 ==> story.evacuated < story.looked)
    && StartedBy(trace, actions, story.started, r)
    && EvacuatedBy(trace, actions, story.evacuated, r)
    && AcknowledgedBy(trace, actions, story, r.incident)
    && ConfirmedBy(trace, actions, story.confirmed, r)
    && BootedBy(trace, actions, story.booted, r)
    && MatchedBy(trace, actions, story.matched, r)
    && PassedBy(trace, actions, story.passed, r)
  }

  /** Any part of lifting the quarantine while a record exists: unmarking the node, clearing its degraded
      condition, or dropping the record. */
  predicate Lifts(s: System, a: Action) {
    s.durable.Some? && (a == Lift || a == SetCondition(false) || a == Forget)
  }

  /** In every run, crashes included, the quarantine is lifted while an incident's record exists only
      after all of that, for that very record, and by a pass that read no fault. */
  lemma LiftIsEarned(trace: seq<System>, actions: seq<Action>, n: nat) returns (story: Story)
    requires Run(trace, actions) && n < |actions| && Lifts(trace[n], actions[n])
    ensures SawRaw(No) in trace[n].seen && Earned(trace, actions, n, trace[n].durable.value, story)
  {
    var r := trace[n].durable.value;
    RunPassedBooted(trace, actions, n);
    assert Enabled(trace[n], actions[n]) && Verified(trace[n]);
    var passed := PassedAt(trace, actions, n, r);
    var matched := MatchedAt(trace, actions, passed, r);
    var booted := BootedAt(trace, actions, matched, r);
    var confirmed := ConfirmedAt(trace, actions, booted, r);
    RunKnown(trace, actions, confirmed);
    var acknowledged := AcknowledgedAt(trace, actions, confirmed, r.incident);
    var evacuated, looked, counted := AttemptIsDue(trace, actions, acknowledged, r.incident);
    if trace[n].starts[r.incident] <= 1 {
      OneRequest(trace, actions, evacuated, n, r);
    } else {
      evacuated := RequestedAt(trace, actions, confirmed, r);
    }
    var started := StartedAt(trace, actions, evacuated, r);
    story := Story(started, evacuated, looked, counted, acknowledged, confirmed, booted, matched, passed);
  }

  lemma LiftedAt(trace: seq<System>, actions: seq<Action>, n: nat, incident: string) returns (k: nat)
    requires Run(trace, actions) && n <= |actions| && incident in trace[n].lifted
    ensures k < n && actions[k] == Lift && Owns(trace[k], incident)
  {
    k := BecameTrue(trace, (s: System) => incident in s.lifted, n);
    assert trace[k + 1] == Apply(trace[k], actions[k]) && Enabled(trace[k], actions[k]);
  }

  // ---- Signals and requeues ----

  /** Notes of calls are never ahead of the calls. */
  ghost predicate CallsInv(s: System) {
    s.durable.Some? ==> forall k :: k in s.durable.value.jobs ==>
      && (s.durable.value.jobs[k].signalSent ==> (s.durable.value.incident, k) in s.signalled)
      && (s.durable.value.jobs[k].requeueSent ==> (s.durable.value.incident, k) in s.requeued)
  }

  /** A note that a change sets is the note of a call that was made. */
  lemma NewNotes(s: System, r: Record, change: Change, k: JobKey)
    requires Allowed(s, r, change) && k in Changed(r, change).jobs
    ensures var j := Changed(r, change).jobs[k];
      && (j.signalSent ==> (k in r.jobs && r.jobs[k].signalSent) || (r.incident, k) in s.signalled)
      && (j.requeueSent ==> (k in r.jobs && r.jobs[k].requeueSent) || (r.incident, k) in s.requeued)
  {
  }

  lemma SaveKeepsCallsInv(s: System, change: Change)
    requires CallsInv(s) && Enabled(s, Save(change))
    ensures CallsInv(Apply(s, Save(change)))
  {
    var r, t := s.durable.value, Apply(s, Save(change));
    PhaseSteps(s, r, change);
    forall k | k in t.durable.value.jobs
      ensures t.durable.value.jobs[k].signalSent ==> (r.incident, k) in t.signalled
      ensures t.durable.value.jobs[k].requeueSent ==> (r.incident, k) in t.requeued
    {
      NewNotes(s, r, change, k);
    }
  }

  lemma ApplyKeepsCallsInv(s: System, a: Action)
    requires CallsInv(s) && Enabled(s, a)
    ensures CallsInv(Apply(s, a))
  {
    if a.Save? {
      SaveKeepsCallsInv(s, a.change);
    }
  }

  predicate SignalNoted(s: System, incident: string, k: JobKey) {
    Owns(s, incident) && k in s.durable.value.jobs && s.durable.value.jobs[k].signalSent
  }

  predicate RequeueNoted(s: System, incident: string, k: JobKey) {
    Owns(s, incident) && k in s.durable.value.jobs && s.durable.value.jobs[k].requeueSent
  }

  /** The incident is over: its id was started and its record is gone. */
  predicate Closed(s: System, incident: string) {
    incident in s.starts && !Owns(s, incident)
  }

  /** The record is of the same incident and forgets no note. */
  ghost predicate Keeps(r: Record, next: Record) {
    && next.incident == r.incident
    && forall k :: k in r.jobs ==>
         && k in next.jobs
         && (r.jobs[k].signalSent ==> next.jobs[k].signalSent)
         && (r.jobs[k].requeueSent ==> next.jobs[k].requeueSent)
  }

  /** From one step to the next the record of an incident is kept, or is there only if the id is new. */
  ghost predicate Continues(s: System, t: System, id: string) {
    && (id in s.starts ==> id in t.starts) && (Owns(s, id) ==> id in s.starts)
    && (Owns(t, id) ==> id !in s.starts || (Owns(s, id) && Keeps(s.durable.value, t.durable.value)))
  }

  lemma SaveKeepsNotes(s: System, change: Change)
    requires Enabled(s, Save(change))
    ensures Keeps(s.durable.value, Changed(s.durable.value, change))
  {
  }

  lemma ApplyContinues(s: System, a: Action, id: string)
    requires KnownInv(s) && Enabled(s, a) && Apply(s, a).starts[id] <= 1
    ensures Continues(s, Apply(s, a), id)
  {
    if a.Save? {
      SaveKeepsNotes(s, a.change);
    }
  }

  lemma NotesLast(s: System, t: System, incident: string, k: JobKey)
    requires Continues(s, t, incident)
    ensures Closed(s, incident) ==> Closed(t, incident)
    ensures SignalNoted(s, incident, k) ==> SignalNoted(t, incident, k) || Closed(t, incident)
    ensures RequeueNoted(s, incident, k) ==> RequeueNoted(t, incident, k) || Closed(t, incident)
  {
  }

  /** What was noted is still noted, or its incident is over. */
  lemma {:induction false} NotesLastInRun(
    trace: seq<System>, actions: seq<Action>, i: nat, n: nat, incident: string, k: JobKey)
    requires Run(trace, actions) && i <= n <= |actions| && trace[n].starts[incident] <= 1
    ensures Closed(trace[i], incident) ==> Closed(trace[n], incident)
    ensures SignalNoted(trace[i], incident, k) ==> SignalNoted(trace[n], incident, k) || Closed(trace[n], incident)
    ensures RequeueNoted(trace[i], incident, k) ==> RequeueNoted(trace[n], incident, k) || Closed(trace[n], incident)
    decreases n
  {
    if i < n {
      StartsGrow(trace, actions, n - 1, n, incident);
      NotesLastInRun(trace, actions, i, n - 1, incident, k);
      StepContinues(trace, actions, n - 1, incident);
      NotesLast(trace[n - 1], trace[n], incident, k);
    }
  }

  lemma StepContinues(trace: seq<System>, actions: seq<Action>, m: nat, incident: string)
    requires Run(trace, actions) && m < |actions| && trace[m + 1].starts[incident] <= 1
    ensures Continues(trace[m], trace[m + 1], incident)
  {
    RunKnown(trace, actions, m);
    ApplyContinues(trace[m], actions[m], incident);
  }

  /** Once a signal is durably noted as sent it is never sent again for that incident, across crashes
      and returns to draining, if its id is started at most once. */
  lemma SignalNotRepeated(trace: seq<System>, actions: seq<Action>, i: nat, n: nat, incident: string, k: JobKey)
    requires Run(trace, actions) && i <= n < |actions| && trace[n].starts[incident] <= 1
    requires SignalNoted(trace[i], incident, k)
    ensures !(actions[n] == Signal(k) && Owns(trace[n], incident))
  {
    NotesLastInRun(trace, actions, i, n, incident, k);
  }

  lemma RequeueNotRepeated(trace: seq<System>, actions: seq<Action>, i: nat, n: nat, incident: string, k: JobKey)
    requires Run(trace, actions) && i <= n < |actions| && trace[n].starts[incident] <= 1
    requires RequeueNoted(trace[i], incident, k)
    ensures !(actions[n].Requeue? && actions[n].key == k && Owns(trace[n], incident))
  {
    NotesLastInRun(trace, actions, i, n, incident, k);
  }

  lemma SignalledAt(trace: seq<System>, actions: seq<Action>, n: nat, incident: string, k: JobKey) returns (i: nat)
    requires Run(trace, actions) && n <= |actions| && (incident, k) in trace[n].signalled
    ensures i < n && actions[i] == Signal(k) && Owns(trace[i], incident)
  {
    i := BecameTrue(trace, (s: System) => (incident, k) in s.signalled, n);
    assert trace[i + 1] == Apply(trace[i], actions[i]) && Enabled(trace[i], actions[i]);
  }

  lemma RequeuedAt(trace: seq<System>, actions: seq<Action>, n: nat, incident: string, k: JobKey) returns (i: nat)
    requires Run(trace, actions) && n <= |actions| && (incident, k) in trace[n].requeued
    ensures i < n && actions[i].Requeue? && actions[i].key == k && Owns(trace[i], incident)
  {
    i := BecameTrue(trace, (s: System) => (incident, k) in s.requeued, n);
    assert trace[i + 1] == Apply(trace[i], actions[i]) && Enabled(trace[i], actions[i]);
  }

  lemma {:induction false} RunCallsInv(trace: seq<System>, actions: seq<Action>, n: nat)
    requires Run(trace, actions) && n <= |actions|
    ensures CallsInv(trace[n])
  {
    if n > 0 {
      RunCallsInv(trace, actions, n - 1);
      ApplyKeepsCallsInv(trace[n - 1], actions[n - 1]);
    }
  }

  predicate SignalIntended(s: System, incident: string, k: JobKey, at: int) {
    Owns(s, incident) && k in s.durable.value.jobs && s.durable.value.jobs[k].signalRequestedAt == Some(at)
  }

  predicate CheckpointNoted(s: System, incident: string, k: JobKey) {
    Owns(s, incident) && k in s.durable.value.jobs && s.durable.value.jobs[k].checkpointSeen
  }

  predicate RequeueIntended(s: System, incident: string, k: JobKey) {
    Owns(s, incident) && k in s.durable.value.jobs && s.durable.value.jobs[k].requeueRequestedAt.Some?
  }

  /** Step i saves that step of the job for that incident. */
  predicate SavesStep(s: System, a: Action, incident: string, k: JobKey, step: JobStep) {
    a == Save(OnJob(k, step)) && Owns(s, incident)
  }

  lemma SignalIntentIsSaved(s: System, a: Action, incident: string, k: JobKey, at: int)
    requires Enabled(s, a) && !SignalIntended(s, incident, k, at) && SignalIntended(Apply(s, a), incident, k, at)
    ensures SavesStep(s, a, incident, k, RequestSignal(at)) && SawClock(at) in s.seen
  {
  }

  lemma CheckpointIsSaved(s: System, a: Action, incident: string, k: JobKey)
    requires Enabled(s, a) && !CheckpointNoted(s, incident, k) && CheckpointNoted(Apply(s, a), incident, k)
    ensures SavesStep(s, a, incident, k, NoteCheckpoint) && SawCheckpoint(k) in s.seen
  {
  }

  lemma RequeueIntentIsSaved(s: System, a: Action, incident: string, k: JobKey)
    requires Enabled(s, a) && !RequeueIntended(s, incident, k) && RequeueIntended(Apply(s, a), incident, k)
    ensures a.Save? && a.change.OnJob? && a.change.key == k && a.change.step.RequestRequeue? && Owns(s, incident)
  {
  }

  /** The recorded signal time of a job is a clock reading of the pass that saved it. */
  lemma IntendedAt(trace: seq<System>, actions: seq<Action>, n: nat, incident: string, k: JobKey, at: int)
    returns (i: nat)
    requires Run(trace, actions) && n <= |actions| && SignalIntended(trace[n], incident, k, at)
    ensures i < n && SavesStep(trace[i], actions[i], incident, k, RequestSignal(at)) && SawClock(at) in trace[i].seen
  {
    i := BecameTrue(trace, (s: System) => SignalIntended(s, incident, k, at), n);
    SignalIntentIsSaved(trace[i], actions[i], incident, k, at);
  }

  /** Before a signal reaches Slurm, its intent has been saved for the same incident and job, with a
      clock reading of the saving pass. */
  lemma SignalFollowsIntent(trace: seq<System>, actions: seq<Action>, n: nat) returns (i: nat, at: int)
    requires Run(trace, actions) && n < |actions| && actions[n].Signal?
    ensures i < n && trace[n].durable.Some? && SawClock(at) in trace[i].seen
    ensures SavesStep(trace[i], actions[i], trace[n].durable.value.incident, actions[n].key, RequestSignal(at))
  {
    var r := trace[n].durable.value;
    at := r.jobs[actions[n].key].signalRequestedAt.value;
    i := IntendedAt(trace, actions, n, r.incident, actions[n].key, at);
  }

  /** Before a requeue reaches Slurm, its intent has been saved for the same incident and job. */
  lemma RequeueFollowsIntent(trace: seq<System>, actions: seq<Action>, n: nat) returns (i: nat)
    requires Run(trace, actions) && n < |actions| && actions[n].Requeue?
    ensures i < n && actions[i].Save? && actions[i].change.OnJob? && actions[i].change.step.RequestRequeue?
    ensures actions[i].change.key == actions[n].key
    ensures trace[n].durable.Some? && Owns(trace[i], trace[n].durable.value.incident)
  {
    var incident, k := trace[n].durable.value.incident, actions[n].key;
    i := BecameTrue(trace, (s: System) => RequeueIntended(s, incident, k), n);
    RequeueIntentIsSaved(trace[i], actions[i], incident, k);
  }

  /** How the wait before a requeue ended: a pass read a checkpoint of the job and noted it at a step, or
      this pass read a clock 120 seconds past the recorded signal time. */
  datatype Wait = Checkpoint(step: nat) | Grace

  ghost predicate Ended(
    trace: seq<System>, actions: seq<Action>, n: nat, incident: string, k: JobKey, at: int, wait: Wait)
    requires Run(trace, actions) && n < |actions| && actions[n].Requeue?
  {
    match wait
    case Checkpoint(step) =>
      && step < n && SavesStep(trace[step], actions[step], incident, k, NoteCheckpoint)
      && SawCheckpoint(k) in trace[step].seen
    case Grace => actions[n].now >= at + 120 && SawClock(actions[n].now) in trace[n].seen
  }

  /** A requeue reaches Slurm only after a signal of the same incident and job, whose intent was saved
      before with a clock reading, and after a checkpoint was read or 120 seconds had passed by the clock. */
  lemma RequeueFollowsSignal(trace: seq<System>, actions: seq<Action>, n: nat)
    returns (signalled: nat, intended: nat, at: int, wait: Wait)
    requires Run(trace, actions) && n < |actions| && actions[n].Requeue?
    ensures trace[n].durable.Some? && signalled < n && intended < n
    ensures actions[signalled] == Signal(actions[n].key)
    ensures Owns(trace[signalled], trace[n].durable.value.incident)
    ensures var incident := trace[n].durable.value.incident;
      SavesStep(trace[intended], actions[intended], incident, actions[n].key, RequestSignal(at))
    ensures SawClock(at) in trace[intended].seen
    ensures actions[n].key in trace[n].durable.value.jobs
    ensures trace[n].durable.value.jobs[actions[n].key].signalRequestedAt == Some(at)
    ensures Ended(trace, actions, n, trace[n].durable.value.incident, actions[n].key, at, wait)
  {
    var r, k := trace[n].durable.value, actions[n].key;
    at := r.jobs[k].signalRequestedAt.value;
    RunCallsInv(trace, actions, n);
    signalled := SignalledAt(trace, actions, n, r.incident, k);
    intended := IntendedAt(trace, actions, n, r.incident, k, at);
    wait := Grace;
    if r.jobs[k].checkpointSeen {
      var step := BecameTrue(trace, (s: System) => CheckpointNoted(s, r.incident, k), n);
      CheckpointIsSaved(trace[step], actions[step], r.incident, k);
      wait := Checkpoint(step);
    }
  }

  // ---- Where a record comes from ----

  function FactsOf(r: Record): Facts { Facts(r.preBoot, r.preInventory, r.preHash) }

  predicate About(s: System, r: Record) {
    && Owns(s, r.incident) && s.durable.value.preBoot == r.preBoot
    && s.durable.value.preInventory == r.preInventory && s.durable.value.preHash == r.preHash
  }

  /** Step k makes a record of r's incident, for the boot, inventory and hash that r has and that this pass has
      read off the node. */
  ghost predicate StartedBy(trace: seq<System>, actions: seq<Action>, k: nat, r: Record)
    requires Run(trace, actions)
  {
    && k < |actions| && (actions[k].Create? || actions[k].Restart?) && actions[k].incident == r.incident
    && About(trace[k + 1], r) && SawFacts(FactsOf(r)) in trace[k].seen
  }

  /** What a record says of the node from before the fault is what the pass that made it has read. */
  lemma StartedAt(trace: seq<System>, actions: seq<Action>, n: nat, r: Record) returns (k: nat)
    requires Run(trace, actions) && n <= |actions| && About(trace[n], r)
    ensures k < n && StartedBy(trace, actions, k, r)
  {
    k := BecameTrue(trace, (s: System) => About(s, r), n);
    EntersAbout(trace[k], actions[k], r);
  }

  lemma EntersAbout(s: System, a: Action, r: Record)
    requires Enabled(s, a) && !About(s, r) && About(Apply(s, a), r)
    ensures (a.Create? || a.Restart?) && a.incident == r.incident && SawFacts(FactsOf(r)) in s.seen
  {
  }

  /** A retry starts only from manual repair, when this pass has read no fault and that very request, and never
      for the request that was noted when the last attempt was given up or begun. */
  lemma RetryIsNew(trace: seq<System>, actions: seq<Action>, n: nat)
    requires Run(trace, actions) && n < |actions| && actions[n].Restart?
    ensures trace[n].durable.Some? && trace[n].durable.value.phase == ManualRepair
    ensures SawRaw(No) in trace[n].seen && SawRetry(actions[n].incident) in trace[n].seen
    ensures actions[n].incident != "" && actions[n].incident != trace[n].durable.value.manualRequest
    ensures Owns(trace[n + 1], actions[n].incident) && trace[n + 1].durable.value.manualRequest == actions[n].incident
  {
    assert trace[n + 1] == Apply(trace[n], actions[n]) && Enabled(trace[n], actions[n]);
  }

  /** Unmarking a node leaves none of the incident's marks, no acknowledgement and no request for a retry. */
  lemma UnmarkedIsClean(trace: seq<System>, actions: seq<Action>, n: nat)
    requires Run(trace, actions) && n < |actions| && (actions[n] == Lift || actions[n].Clear?)
    ensures var node := trace[n + 1].node;
      node.incident == node.request == node.ack == node.retry == "" && node.phase.None?
  {
    assert trace[n + 1] == Apply(trace[n], actions[n]) && Enabled(trace[n], actions[n]);
  }

  // ---- Where workers come from ----

  predicate Records(s: System, incident: string, pod: Pod, worker: Worker) {
    Owns(s, incident) && pod in s.durable.value.workers && s.durable.value.workers[pod] == worker
  }

  /** Every recorded worker was shown, with that cluster and claim, by a listing of the pass that recorded it. */
  lemma WorkerWasListed(trace: seq<System>, actions: seq<Action>, n: nat, pod: Pod) returns (k: nat)
    requires Run(trace, actions) && n <= |actions| && trace[n].durable.Some? && pod in trace[n].durable.value.workers
    ensures k < n && ListedBy(trace, actions, k, trace[n].durable.value, pod)
  {
    var r := trace[n].durable.value;
    k := BecameTrue(trace, (s: System) => Records(s, r.incident, pod, r.workers[pod]), n);
    NewWorkerIsListed(trace[k], actions[k], r.incident, pod, r.workers[pod]);
  }

  /** Step k records r's worker as this pass has read it. */
  ghost predicate ListedBy(trace: seq<System>, actions: seq<Action>, k: nat, r: Record, pod: Pod)
    requires Run(trace, actions) && pod in r.workers
  {
    && k < |actions| && actions[k].Save? && actions[k].change.AddWorkers? && Owns(trace[k], r.incident)
    && SawPods(actions[k].change.views) in trace[k].seen
    && exists i :: 0 <= i < |actions[k].change.views| && actions[k].change.views[i].pod == pod
         && actions[k].change.views[i].cluster == r.workers[pod].cluster
         && actions[k].change.views[i].claim == r.workers[pod].claim
  }

  lemma NewWorkerIsListed(s: System, a: Action, incident: string, pod: Pod, worker: Worker)
    requires Enabled(s, a) && !Records(s, incident, pod, worker) && Records(Apply(s, a), incident, pod, worker)
    ensures a.Save? && a.change.AddWorkers? && Owns(s, incident)
    ensures SawPods(a.change.views) in s.seen && Listed(a.change.views, pod, worker)
  {
  }

  // ---- How many phase changes ----

  function Rank(p: Phase): nat {
    match p
    case Isolated => 0
    case Draining => 1
    case Checkpointing => 2
    case Requeued => 3
    case RebootRequested => 4
    case Rebooting => 5
    case Verifying => 6
    case ManualRepair => 7
  }

  function PhaseOf(s: System): Option<Phase> {
    if s.durable.Some? then Some(s.durable.value.phase) else None
  }

  /** How often the durable phase has changed since the last record was made. */
  ghost function PhaseChanges(trace: seq<System>, actions: seq<Action>, n: nat): nat
    requires Run(trace, actions) && n <= |actions|
  {
    if n == 0 || actions[n - 1].Create? || actions[n - 1].Restart? then 0
    else PhaseChanges(trace, actions, n - 1) + if PhaseOf(trace[n]) != PhaseOf(trace[n - 1]) then 1 else 0
  }

  ghost predicate CountInv(s: System, changes: nat) {
    s.durable.Some? ==>
      && changes <= Rank(s.durable.value.phase) + 3 * s.backs
      && s.backs + (if s.grown then 1 else 0) <= |s.durable.value.jobs|
  }

  lemma JobsGrow(r: Record, keys: set<JobKey>)
    requires keys != {} && keys !! r.jobs.Keys
    ensures |Changed(r, AddJobs(keys)).jobs| > |r.jobs|
  {
    var jobs := Changed(r, AddJobs(keys)).jobs;
    assert jobs.Keys == r.jobs.Keys + keys;
    assert |jobs| == |jobs.Keys| && |r.jobs| == |r.jobs.Keys|;
  }

  lemma JobsNeverShrink(s: System, r: Record, change: Change)
    requires Allowed(s, r, change)
    ensures |r.jobs| + (if change.AddJobs? then 1 else 0) <= |Changed(r, change).jobs|
  {
    if change.AddJobs? {
      JobsGrow(r, change.keys);
    } else if change.OnJob? {
      assert Changed(r, change).jobs.Keys == r.jobs.Keys;
      assert |Changed(r, change).jobs| == |Changed(r, change).jobs.Keys| && |r.jobs| == |r.jobs.Keys|;
    }
  }

  /** Every move but the return climbs, and the return falls by at most two. */
  lemma MovesClimb(s: System, r: Record, move: Move)
    requires MayMove(s, r, move)
    ensures Rank(r.phase) <= Rank(Target(r, move)) + (if move == ReturnToDraining then 2 else -1)
  {
  }

  lemma SaveKeepsCountInv(s: System, change: Change, changes: nat)
    requires CountInv(s, changes) && Enabled(s, Save(change))
    ensures CountInv(Apply(s, Save(change)),
                     changes + if PhaseOf(Apply(s, Save(change))) != PhaseOf(s) then 1 else 0)
  {
    JobsNeverShrink(s, s.durable.value, change);
    if change.To? {
      MovesClimb(s, s.durable.value, change.move);
    }
  }

  lemma ApplyKeepsCountInv(s: System, a: Action, changes: nat)
    requires CountInv(s, changes) && Enabled(s, a)
    ensures CountInv(Apply(s, a), if a.Create? || a.Restart? then 0
                                  else changes + if PhaseOf(Apply(s, a)) != PhaseOf(s) then 1 else 0)
  {
    if a.Save? {
      SaveKeepsCountInv(s, a.change, changes);
    }
  }

  /** Within one incident the durable record changes phase at most 7 + 3 * |jobs| times. */
  lemma {:induction false} PhaseChangesBounded(trace: seq<System>, actions: seq<Action>, n: nat)
    requires Run(trace, actions) && n <= |actions|
    ensures CountInv(trace[n], PhaseChanges(trace, actions, n))
    ensures trace[n].durable.Some? ==>
      PhaseChanges(trace, actions, n) <= 7 + 3 * |trace[n].durable.value.jobs|
  {
    if n > 0 {
      PhaseChangesBounded(trace, actions, n - 1);
      ApplyKeepsCountInv(trace[n - 1], actions[n - 1], PhaseChanges(trace, actions, n - 1));
    }
  }

  // ---- Reachable systems ----

  ghost predicate Reachable(s: System) {
    exists trace, actions :: Run(trace, actions) && trace[|actions|] == s
  }

  lemma ReachableFresh()
    ensures Reachable(FRESH)
  {
    assert Run([FRESH], []);
  }

  lemma RunExtends(trace: seq<System>, actions: seq<Action>, a: Action)
    requires Run(trace, actions) && Enabled(trace[|actions|], a)
    ensures Run(trace + [Apply(trace[|actions|], a)], actions + [a])
  {
  }

  lemma ReachableApply(s: System, a: Action)
    requires Reachable(s) && Enabled(s, a)
    ensures Reachable(Apply(s, a))
  {
    var trace, actions :| Run(trace, actions) && trace[|actions|] == s;
    RunExtends(trace, actions, a);
  }

  /** The clusters of all recorded workers are recorded. */
  ghost predicate ClustersKnown(r: Record) {
    forall pod :: pod in r.workers ==> r.workers[pod].cluster in r.clusters
  }

  lemma {:induction false} RunClusters(trace: seq<System>, actions: seq<Action>, n: nat)
    requires Run(trace, actions) && n <= |actions|
    ensures trace[n].durable.Some? ==> ClustersKnown(trace[n].durable.value)
  {
    if n > 0 {
      RunClusters(trace, actions, n - 1);
      ApplyKeepsClusters(trace[n - 1], actions[n - 1]);
    }
  }

  lemma ApplyKeepsClusters(s: System, a: Action)
    requires Enabled(s, a) && (s.durable.Some? ==> ClustersKnown(s.durable.value))
    ensures Apply(s, a).durable.Some? ==> ClustersKnown(Apply(s, a).durable.value)
  {
  }

  lemma ReachableClusters(s: System)
    requires Reachable(s) && s.durable.Some?
    ensures ClustersKnown(s.durable.value)
  {
    var trace, actions :| Run(trace, actions) && trace[|actions|] == s;
    RunClusters(trace, actions, |actions|);
  }

  lemma ReachableKnown(s: System)
    requires Reachable(s)
    ensures KnownInv(s)
  {
    var trace, actions :| Run(trace, actions) && trace[|actions|] == s;
    RunKnown(trace, actions, |actions|);
  }
}
