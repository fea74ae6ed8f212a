/**
 * The watchdog's reboot attempt as the source writes it, while the operator and a human make any
 * moves open to them between its calls.
 */
module Watchdog {
  import opened Bags
  import opened RecoveryMachine
  import opened RecoveryRuns

  /** The fate of calls, the moves of others, and how many worker Pods a listing shows, at each moment.
      None is a failed listing. */
  datatype World = World(
    reply: nat -> Reply, others: nat -> seq<Action>, pods: nat -> Option<nat>, dryRun: bool)

  /** A call fails, or worker Pods are listed or cannot be. */
  ghost predicate Hindrance(w: World, t: nat) { w.reply(t) != Done || w.pods(t) != Some(0) }

  ghost predicate HindranceIn(w: World, from: nat, to: nat) {
    exists t :: from < t <= to && Hindrance(w, t)
  }

  ghost predicate NoneListedIn(w: World, from: nat, to: nat) {
    exists t :: from < t <= to && w.pods(t) == Some(0)
  }

  /** The state after the others' moves, those not open to them skipped. */
  function After(s: System, moves: seq<Action>): System {
    if moves == [] then s
    else
      var before, last := After(s, moves[..|moves| - 1]), moves[|moves| - 1];
      if !WatchdogMove(last) && Enabled(before, last) then Apply(before, last) else before
  }

  lemma AfterNext(s: System, moves: seq<Action>, i: nat)
    requires i < |moves|
    ensures After(s, moves[..i + 1]) ==
      var before := After(s, moves[..i]);
      if !WatchdogMove(moves[i]) && Enabled(before, moves[i]) then Apply(before, moves[i]) else before
  {
    assert moves[..i + 1][..i] == moves[..i];
  }

  lemma OthersLeaveWatchdog(s: System, a: Action)
    requires Enabled(s, a) && !WatchdogMove(a)
    ensures Apply(s, a).watchdog == s.watchdog && Apply(s, a).rebooted == s.rebooted
  {
  }

  class RebootWatchdog {
    const world: World
    var s: System
    var time: nat

    ghost predicate Valid()
      reads this
    {
      Reachable(s)
    }

    /** A daemon started anew has no attempt under way. */
    constructor (world: World, s: System)
      requires Reachable(s)
      ensures Valid() && this.world == world && this.s == Apply(s, Stop)
    {
      this.world, this.s, time := world, Apply(s, Stop), 0;
      new;
      ReachableApply(s, Stop);
    }

    /** The operator and the human move; moves not open to them are skipped. */
    method Yield()
      requires Valid()
      modifies this
      ensures Valid() && time == old(time) + 1 && s == After(old(s), world.others(time))
      ensures s.watchdog == old(s.watchdog) && s.rebooted == old(s.rebooted)
    {
      time := time + 1;
      var moves := world.others(time);
      for i := 0 to |moves|
        invariant Valid() && time == old(time) + 1 && s == After(old(s), moves[..i])
        invariant s.watchdog == old(s.watchdog) && s.rebooted == old(s.rebooted)
      {
        AfterNext(old(s), moves, i);
        if !WatchdogMove(moves[i]) && Enabled(s, moves[i]) {
          ReachableApply(s, moves[i]);
          OthersLeaveWatchdog(s, moves[i]);
          s := Apply(s, moves[i]);
        }
      }
      assert moves[..|moves|] == moves;
    }

    /** Give the attempt up. */
    method Abandon()
      requires Valid()
      modifies `s
      ensures Valid() && s == old(s).(watchdog := Idle)
    {
      ReachableApply(s, Stop);
      s := s.(watchdog := Idle);
    }

    /** Read the node: an attempt begins exactly when the read succeeds and shows, on a degraded node in
        phase RebootRequested, a request for the present incident that is not acknowledged. */
    method LookAtNode() returns (due: bool, ghost looked: System)
      requires Valid() && s.watchdog.Idle?
      modifies this
      ensures Valid() && s.rebooted == old(s.rebooted) && time == old(time) + 1
      ensures looked == After(old(s), world.others(time)) && Reachable(looked)
      ensures s == if due then looked.(watchdog := Looked(looked.node.request)) else looked
      ensures due <==>
        && world.reply(time) == Done && looked.degraded && looked.node.phase == Some(RebootRequested)
        && looked.node.request != "" && looked.node.request == looked.node.incident
        && looked.node.request != looked.node.ack
      ensures !due ==> s.watchdog.Idle?
    {
      Yield();
      looked := s;
      due := world.reply(time) == Done && Due(s);
      if due {
        ReachableApply(s, Look);
        s := s.(watchdog := Looked(s.node.request));
      }
    }

    /** List the worker Pods on the node: the attempt goes on exactly when there are none. */
    method CountWorkers(request: string) returns (none: bool)
      requires Valid() && s.watchdog == Looked(request)
      modifies this
      ensures Valid() && s.rebooted == old(s.rebooted) && time == old(time) + 1
      ensures none <==> world.pods(time) == Some(0)
      ensures s.watchdog == if none then Unoccupied(request) else Idle
    {
      Yield();
      none := world.pods(time) == Some(0);
      if none {
        ReachableApply(s, CountPods(0));
        s := s.(watchdog := Unoccupied(request));
      } else {
        Abandon();
      }
    }

    /** Acknowledge the request by a conditional update, retried on conflict: nothing is written when
        the request has changed or is already acknowledged. */
    method AcknowledgeRequest(request: string) returns (ok: bool)
      requires Valid() && s.watchdog == Unoccupied(request)
      modifies this
      ensures Valid() && s.rebooted == old(s.rebooted) && time == old(time) + 1
      ensures ok <==> world.reply(time) == Done
      ensures s.watchdog == if ok then Armed(request) else Idle
      ensures ok ==> s.node.ack == request || s.node.request != request
    {
      Yield();
      var reply := world.reply(time);
      if reply.Lost? {
        Abandon();
        return false;
      }
      ok := reply.Done?;
      ReachableApply(s, Acknowledge(!ok));
      s := Acknowledged(s, request).(watchdog := if ok then Armed(request) else Idle);
    }

    /** Sync and reboot, unless in dry-run mode. */
    method RebootHost(request: string) returns (done: bool)
      requires Valid() && s.watchdog == Armed(request)
      modifies this
      ensures Valid() && s.watchdog.Idle? && time == old(time) + 1
      ensures done <==> !world.dryRun && world.reply(time) == Done
      ensures s.rebooted == if done then old(s.rebooted) + [request] else old(s.rebooted)
    {
      Yield();
      done := !world.dryRun && world.reply(time) == Done;
      if done {
        ReachableApply(s, RecoveryMachine.Reboot);
        s := s.(watchdog := Idle, rebooted := s.rebooted + [request]);
      } else {
        Abandon();
      }
    }

    /** `rebootOnce`. It reboots at most once, for a request that was due when it looked and after a
        listing that showed no worker Pods; and, if that incident's id was started at most once, the host
        had not been rebooted for it before. `looked` is the state the node was read in: a request is due
        on a degraded node in phase RebootRequested, for the present incident and not acknowledged; if one
        was, the attempt is given up only if something hinders it. */
    method RebootOnce() returns (rebooted: bool, ghost looked: System)
      requires Valid() && s.watchdog.Idle?
      modifies this
      ensures Valid() && s.watchdog.Idle? && old(time) < time
      ensures looked == After(old(s), world.others(old(time) + 1)) && Reachable(looked)
      ensures s.rebooted == if rebooted then old(s.rebooted) + [looked.node.request] else old(s.rebooted)
      ensures rebooted ==> !world.dryRun && NoneListedIn(world, old(time), time)
      ensures rebooted ==>
        && looked.degraded && looked.node.phase == Some(RebootRequested) && looked.node.request != ""
        && looked.node.request == looked.node.incident && looked.node.request != looked.node.ack
      ensures rebooted && s.starts[looked.node.request] <= 1 ==> looked.node.request !in old(s.rebooted)
      ensures !rebooted ==>
        || !looked.degraded || looked.node.phase != Some(RebootRequested) || looked.node.request == ""
        || looked.node.request != looked.node.incident || looked.node.request == looked.node.ack
        || world.dryRun || HindranceIn(world, old(time), time)
    {
      rebooted, looked := LookAtNode();
      assert world.reply(time) != Done ==> Hindrance(world, time);
      if rebooted {
        rebooted := CarryOut(s.watchdog.request);
      }
      if rebooted && s.starts[looked.node.request] <= 1 {
        ReachableOnce(s, looked.node.request);
        assert multiset(s.rebooted) == multiset(old(s.rebooted)) + multiset{looked.node.request};
      }
    }

    /** The rest of an attempt, once its request is known. */
    method CarryOut(request: string) returns (rebooted: bool)
      requires Valid() && s.watchdog == Looked(request)
      modifies this
      ensures Valid() && s.watchdog.Idle? && old(time) < time
      ensures s.rebooted == if rebooted then old(s.rebooted) + [request] else old(s.rebooted)
      ensures rebooted ==> !world.dryRun && NoneListedIn(world, old(time), time)
      ensures !rebooted ==> world.dryRun || HindranceIn(world, old(time), time)
    {
      rebooted := CountWorkers(request);
      assert !rebooted ==> Hindrance(world, time);
      if rebooted {
        rebooted := AcknowledgeRequest(request);
        assert !rebooted ==> Hindrance(world, time);
        if rebooted {
          rebooted := RebootHost(request);
          assert !rebooted ==> world.dryRun || Hindrance(world, time);
        }
      }
    }
  }

  lemma ReachableOnce(s: System, id: string)
    requires Reachable(s) && s.starts[id] <= 1
    ensures Reboots(s, id) <= 1
  {
    var trace, actions :| Run(trace, actions) && trace[|actions|] == s;
    OneRebootPerIncident(trace, actions, |actions|, id);
  }
}
