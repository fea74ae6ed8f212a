/**
 * Why an incident id must not be started twice: a retry asked for under an old id, after that incident
 * was closed and another one failed, reboots the host for the old id a second time. The run also shows
 * a whole recovery, from the fault to the lifted quarantine.
 */
module ReusedIds {
  import opened Bags
  import opened RecoveryMachine
  import opened RecoveryRuns

  const INVENTORY := Inventory(1, "boot-0", [Cell(0, 1, 1, 1)])
  const FACTS := Facts("boot-0", Some(INVENTORY), "hash")
  const NOTHING := Sight(map[], {}, {})

  /** One step of the run being built. */
  lemma Next(s: System, a: Action) returns (t: System)
    requires Reachable(s) && Enabled(s, a)
    ensures t == Apply(s, a) && Reachable(t)
  {
    ReachableApply(s, a);
    t := Apply(s, a);
  }

  /** Something is read. */
  lemma Seeing(s: System, what: Observation) returns (t: System)
    requires Reachable(s) && Readable(s, what)
    ensures Reachable(t) && t == s.(seen := s.seen + {what})
  {
    t := Next(s, Observe(what));
  }

  /** A change is saved, with nothing else touched. */
  lemma Saving(s: System, change: Change) returns (t: System)
    requires Reachable(s) && s.durable.Some? && Allowed(s, s.durable.value, change)
    requires !change.AddJobs? && change != To(ReturnToDraining)
    ensures Reachable(t) && t == s.(durable := Some(Changed(s.durable.value, change)))
  {
    t := Next(s, Save(change));
  }

  /** A new incident of a node without workers or jobs, and a watchdog at rest. */
  ghost predicate JustStarted(s: System, incident: string) {
    && Reachable(s) && incident != "" && s.durable.Some? && s.watchdog.Idle?
    && s.durable.value == NewRecord(incident, FACTS).(manualRequest := s.durable.value.manualRequest)
  }

  /** From there through evacuation, with nothing to evacuate. */
  lemma ToSaved(s: System, incident: string) returns (t: System)
    requires JustStarted(s, incident)
    ensures Reachable(t) && t == s.(durable := Some(s.durable.value.(phase := RebootRequested)))
  {
    t := Saving(s, To(Drain));
    t := Saving(t, To(SignalsDone));
    t := Saving(t, To(RequestReboot(NOTHING)));
  }

  /** To a written reboot request. */
  lemma ToRequest(s: System, incident: string) returns (t: System)
    requires JustStarted(s, incident)
    ensures Reachable(t) && t.durable == Some(s.durable.value.(phase := RebootRequested))
    ensures t.node.request == incident && t.node.incident == incident && t.node.phase == Some(RebootRequested)
    ensures t.degraded && t.node.ack == s.node.ack && t.rebooted == s.rebooted && t.watchdog.Idle?
  {
    t := ToSaved(s, incident);
    t := Next(t, Isolate);
    t := Next(t, SetCondition(true));
  }

  /** The watchdog's attempt, up to its acknowledgement. */
  lemma ToArmed(s: System, incident: string) returns (t: System)
    requires Reachable(s) && Due(s) && s.watchdog.Idle? && s.node.request == incident
    ensures Reachable(t) && t.durable == s.durable && t.rebooted == s.rebooted
    ensures t.node.ack == incident && t.watchdog == Armed(incident)
  {
    t := Next(s, Look);
    t := Next(t, CountPods(0));
    t := Next(t, Acknowledge(false));
  }

  lemma ToReboot(s: System, incident: string) returns (t: System)
    requires Reachable(s) && Due(s) && s.watchdog.Idle? && s.node.request == incident
    ensures Reachable(t) && t.durable == s.durable && t.rebooted == s.rebooted + [incident]
    ensures t.node.ack == incident && t.watchdog.Idle?
  {
    t := ToArmed(s, incident);
    t := Next(t, Reboot);
  }

  /** The acknowledgement is seen, and the host is back under another boot. */
  lemma ToBooted(s: System, incident: string) returns (t: System)
    requires Reachable(s) && s.node.ack == incident && s.durable.Some?
    requires s.durable.value ==
      NewRecord(incident, FACTS).(phase := RebootRequested, manualRequest := s.durable.value.manualRequest)
    ensures Reachable(t) && t == s.(durable := t.durable, seen := t.seen)
    ensures t.durable == Some(s.durable.value.(phase := Rebooting, newBoot := "boot-1"))
  {
    t := Seeing(s, SawAck(incident));
    t := Saving(t, To(ConfirmAck));
    t := Seeing(t, SawBoot("boot-1"));
    t := Saving(t, RecordBoot("boot-1"));
  }

  /** The same inventory is published again. */
  lemma ToVerifying(s: System) returns (t: System)
    requires Reachable(s) && s.durable.Some? && s.durable.value.phase == Rebooting
    requires s.durable.value.newBoot == "boot-1" && s.durable.value.preHash == "hash"
    requires s.durable.value.verificationStarted.None?
    ensures Reachable(t) && t == s.(durable := t.durable, seen := t.seen)
    ensures t.durable == Some(s.durable.value.(phase := Verifying, verificationStarted := Some(0)))
  {
    t := Seeing(s, SawClock(0));
    t := Saving(t, StartVerification(0));
    t := Seeing(t, SawInventory("hash", "boot-1"));
    t := Saving(t, To(Verify("hash", "boot-1")));
  }

  /** The cell verifies, and no fault is reported. */
  lemma ToPassed(s: System) returns (t: System)
    requires Reachable(s) && s.durable.Some? && s.durable.value.phase == Verifying
    requires s.durable.value.preInventory == Some(INVENTORY) && s.durable.value.preBoot == "boot-0"
    ensures Reachable(t) && t == s.(durable := t.durable, seen := t.seen)
    ensures SawRaw(No) in t.seen && t.durable == Some(s.durable.value.(verificationPassed := true))
  {
    t := Seeing(s, SawVerifier(0, 0, 1));
    t := Seeing(t, SawRaw(No));
    assert Nodes(INVENTORY.cells) == [0];
    t := Saving(t, Pass);
  }

  /** The quarantine is lifted. */
  lemma ToLifted(s: System) returns (t: System)
    requires Reachable(s) && s.durable.Some? && s.durable.value.phase == Verifying
    requires s.durable.value.preInventory == Some(INVENTORY) && s.durable.value.preBoot == "boot-0"
    ensures Reachable(t) && t.durable.None? && t.node == NONE && t.rebooted == s.rebooted && t.watchdog == s.watchdog
  {
    t := ToPassed(s);
    t := Next(t, Lift);
    t := Next(t, Forget);
  }

  /** A fault, under an id of the operator's choice. */
  lemma ToFault(s: System, incident: string) returns (t: System)
    requires Reachable(s) && s.durable.None? && s.watchdog.Idle? && incident != ""
    ensures JustStarted(t, incident) && t.rebooted == s.rebooted && t.node == s.node
    ensures t.durable.value.manualRequest == "" && SawFacts(FACTS) in t.seen
  {
    t := Seeing(s, SawFacts(FACTS));
    t := Seeing(t, SawRaw(Yes));
    t := Next(t, Create(incident, FACTS, Yes));
  }

  /** The incident fails, and the retry names another id. */
  lemma ToRetry(s: System, failed: string, incident: string) returns (t: System)
    requires JustStarted(s, failed) && s.durable.value.manualRequest == "" && s.node.retry == "" && incident != ""
    requires SawFacts(FACTS) in s.seen
    ensures JustStarted(t, incident) && t.rebooted == s.rebooted && t.node.ack == s.node.ack
  {
    t := Seeing(s, SawRetry(""));
    t := Saving(t, To(GiveUp("")));
    t := Next(t, Ask(incident));
    t := Seeing(t, SawRetry(incident));
    t := Seeing(t, SawRaw(No));
    t := Next(t, Restart(incident, FACTS));
  }

  /** From a new incident to a reboot for it. */
  lemma ToRebooted(s: System, incident: string) returns (t: System)
    requires JustStarted(s, incident) && s.node.ack != incident
    ensures Reachable(t) && t.durable == Some(s.durable.value.(phase := RebootRequested))
    ensures t.rebooted == s.rebooted + [incident] && t.node.ack == incident && t.watchdog.Idle?
  {
    t := ToRequest(s, incident);
    t := ToReboot(t, incident);
  }

  /** And on to the end of the recovery. */
  lemma ToRecovered(s: System, incident: string) returns (t: System)
    requires JustStarted(s, incident) && s.node.ack != incident
    ensures Reachable(t) && t.durable.None? && t.node == NONE && t.rebooted == s.rebooted + [incident]
    ensures t.watchdog.Idle?
  {
    t := ToRebooted(s, incident);
    t := ToBooted(t, incident);
    t := ToVerifying(t);
    t := ToLifted(t);
  }

  /** A run in which one id leads to two reboots. */
  lemma ReusedIdRebootsTwice(incident: string, other: string) returns (t: System)
    requires incident != "" && other != ""
    ensures Reachable(t) && t.rebooted == [incident, incident]
  {
    ReachableFresh();
    t := ToFault(FRESH, incident);
    t := ToRecovered(t, incident);
    t := ToFault(t, other);
    t := ToRetry(t, other, incident);
    t := ToRebooted(t, incident);
  }

  /** Two reboots for an id are possible only when that very id was started twice. */
  lemma TwiceMeansReused(s: System, id: string)
    requires Reachable(s) && Reboots(s, id) >= 2
    ensures s.starts[id] >= 2
  {
    var trace, actions :| Run(trace, actions) && trace[|actions|] == s;
    if s.starts[id] <= 1 {
      RunOnce(trace, actions, |actions|, id);
    }
  }
}
