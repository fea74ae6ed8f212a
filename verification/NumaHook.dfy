/**
 * The node driver's placement hook: a claim's devices must share one NUMA node and include a CPU.
 * The node of a claim starts out as -1, which is also how a device without a node is recorded.
 */
module NumaHook {
  import opened Bags
  import opened Sorting
  import opened ClaimTable

  const UNKNOWN := -1

  /** A device's node, and its logical CPU if it is one. */
  datatype Device = Device(numa: int, cpu: Option<int>)

  type Inventory = map<string, Device>

  /** A name that is missing reads as the zero device. */
  function DeviceOf(inv: Inventory, name: string): Device {
    if name in inv then inv[name] else Device(0, None)
  }

  function Node(inv: Inventory, name: string): int { DeviceOf(inv, name).numa }

  /** What the hook accepts: devices without a node first, then devices that all share one. */
  predicate Settles(inv: Inventory, names: seq<string>, k: nat)
    requires k <= |names|
  {
    && (forall i :: 0 <= i < k ==> Node(inv, names[i]) == UNKNOWN)
    && (forall i, j :: k <= i < j < |names| ==> Node(inv, names[i]) == Node(inv, names[j]))
  }

  predicate Accepts(inv: Inventory, names: seq<string>) {
    exists k :: 0 <= k <= |names| && Settles(inv, names, k)
  }

  function CpusOf(inv: Inventory, names: seq<string>): seq<int> {
    if names == [] then []
    else
      var last := DeviceOf(inv, names[|names| - 1]);
      CpusOf(inv, names[..|names| - 1]) + if last.cpu.Some? then [last.cpu.value] else []
  }

  predicate AtMost(a: int, b: int) { a <= b }

  function LastNode(inv: Inventory, names: seq<string>): int {
    if names == [] then UNKNOWN else Node(inv, names[|names| - 1])
  }

  /** The placement of a claim: the node of its last device, and its CPUs in order. */
  function Placed(inv: Inventory, names: seq<string>): Option<Placement> {
    if Accepts(inv, names) && CpusOf(inv, names) != []
    then Some(Placement(LastNode(inv, names), Sort(AtMost, CpusOf(inv, names)))) else None
  }

  lemma AcceptsNext(inv: Inventory, names: seq<string>, i: nat)
    requires i < |names| && Accepts(inv, names[..i])
    ensures LastNode(inv, names[..i]) == UNKNOWN || LastNode(inv, names[..i]) == Node(inv, names[i]) ==>
      Accepts(inv, names[..i + 1])
  {
    var before, next := names[..i], names[..i + 1];
    var k :| 0 <= k <= i && Settles(inv, before, k);
    assert forall n :: 0 <= n < i ==> next[n] == before[n];
    if LastNode(inv, before) == UNKNOWN {
      assert Settles(inv, next, i);
    } else if LastNode(inv, before) == Node(inv, names[i]) {
      assert Settles(inv, next, k);
    }
  }

  lemma Unsettled(inv: Inventory, names: seq<string>, i: nat)
    requires 0 < i < |names| && Node(inv, names[i - 1]) != UNKNOWN && Node(inv, names[i]) != Node(inv, names[i - 1])
    ensures !Accepts(inv, names)
  {
    forall k | 0 <= k <= |names| ensures !Settles(inv, names, k) {
      assert k <= i - 1 || names[i - 1] in names[..k];
    }
  }

  /** The hook: a running node and a running list of CPUs. */
  method PrepareHook(inv: Inventory, names: seq<string>) returns (p: Option<Placement>)
    ensures p == Placed(inv, names)
  {
    var numa, cpus := UNKNOWN, [];
    assert Settles(inv, [], 0);
    for i := 0 to |names|
      invariant Accepts(inv, names[..i]) && numa == LastNode(inv, names[..i]) && cpus == CpusOf(inv, names[..i])
    {
      var device := DeviceOf(inv, names[i]);
      AcceptsNext(inv, names, i);
      assert names[..i + 1][..i] == names[..i];
      if numa == UNKNOWN {
        numa := device.numa;
      } else if numa != device.numa {
        Unsettled(inv, names, i);
        return None;
      }
      if device.cpu.Some? {
        cpus := cpus + [device.cpu.value];
      }
    }
    assert names[..|names|] == names;
    if cpus == [] {
      return None;
    }
    return Some(Placement(numa, Sort(AtMost, cpus)));
  }

  /** With no device of unknown node, the hook accepts exactly the claims that sit on one node. */
  lemma OneNodeExactly(inv: Inventory, names: seq<string>)
    requires forall i :: 0 <= i < |names| ==> Node(inv, names[i]) != UNKNOWN
    ensures Accepts(inv, names) <==>
      forall i, j :: 0 <= i < j < |names| ==> Node(inv, names[i]) == Node(inv, names[j])
  {
    if forall i, j :: 0 <= i < j < |names| ==> Node(inv, names[i]) == Node(inv, names[j]) {
      assert Settles(inv, names, 0);
    }
  }

  /** Accepted although on two nodes: exactly when the unknown ones come first and the others agree. */
  lemma MixedExactly(inv: Inventory, names: seq<string>)
    ensures Accepts(inv, names) && !Settles(inv, names, 0) <==>
      exists k :: 0 < k < |names| && Settles(inv, names, k) && Node(inv, names[k]) != UNKNOWN
  {
    if Accepts(inv, names) && !Settles(inv, names, 0) {
      var k :| 0 <= k <= |names| && Settles(inv, names, k);
      assert k < |names| && Node(inv, names[k]) != UNKNOWN by {
        if k == |names| || Node(inv, names[k]) == UNKNOWN {
          assert Settles(inv, names, 0);
        }
      }
    }
    if k :| 0 < k < |names| && Settles(inv, names, k) && Node(inv, names[k]) != UNKNOWN {
      assert Node(inv, names[0]) == UNKNOWN;
    }
  }

  /** The hook alone: a device of unknown node, and after it a CPU of node 3, are accepted and recorded as
      node 3. */
  lemma UnknownNodeIsIgnored() returns (inv: Inventory, names: seq<string>)
    ensures |names| == 2 && Node(inv, names[0]) != Node(inv, names[1])
    ensures Accepts(inv, names) && CpusOf(inv, names) == [7] && LastNode(inv, names) == 3
  {
    inv, names := map["a" := Device(UNKNOWN, None), "b" := Device(3, Some(7))], ["a", "b"];
    assert Settles(inv, names, 1);
    assert names[..1] == ["a"] && names[..1][..0] == [];
    assert CpusOf(inv, names[..1]) == [];
  }

  // ---- Claims of one driver ----

  /** The plugin runs with this hook over this inventory. */
  ghost predicate Driven(c: Config, inv: Inventory) {
    c.devices == inv.Keys && forall names :: c.place(names) == Placed(inv, names)
  }

  predicate StartsWith(name: string, prefix: string) { prefix <= name }

  /** How discovery names devices, and that every CPU has a node. */
  ghost predicate Discovered(inv: Inventory) {
    forall name :: name in inv ==>
      if inv[name].cpu.Some? then StartsWith(name, "cpu-") && inv[name].numa >= 0
      else StartsWith(name, "gpu-") || StartsWith(name, "memory-") || StartsWith(name, "opentpu-")
  }

  /** In byte order CPUs come before all other devices. */
  lemma CpusComeFirst(inv: Inventory, a: string, b: string)
    requires Discovered(inv) && a in inv && b in inv && inv[a].cpu.Some? && inv[b].cpu.None?
    ensures Before(a, b)
  {
    assert a[0] == 'c' && b[0] in {'g', 'm', 'o'};
  }

  /** So a claim's first device is a CPU if it has any. */
  lemma FirstIsCpu(inv: Inventory, names: seq<string>)
    requires Discovered(inv) && InOrder(UpTo, names) && CpusOf(inv, names) != []
    requires forall i :: 0 <= i < |names| ==> names[i] in inv
    ensures inv[names[0]].cpu.Some?
  {
    var cpu := CpusOf(inv, names)[0];
    var name := CpuComesFromDevice(inv, names, cpu);
    var i :| 0 <= i < |names| && names[i] == name;
    assert i > 0 ==> UpTo(names[0], names[i]);
    if inv[names[0]].cpu.None? {
      CpusComeFirst(inv, name, names[0]);
    }
  }

  /** Every device of a prepared claim sits on the claim's recorded node, even if a device that is not a
      CPU was recorded without one. */
  lemma ClaimsSitOnOneNode(c: Config, inv: Inventory, t: Table, uid: string, i: nat)
    requires TableOk(c, t) && Driven(c, inv) && Discovered(inv) && uid in t && i < |t[uid].devices|
    ensures Node(inv, t[uid].devices[i]) == t[uid].placement.numa >= 0
  {
    var r := t[uid];
    assert RecordOk(c, r) && c.place(r.devices) == Placed(inv, r.devices);
    FirstIsCpu(inv, r.devices);
    var k :| 0 <= k <= |r.devices| && Settles(inv, r.devices, k);
    assert k == 0 by {
      assert Node(inv, r.devices[0]) != UNKNOWN;
    }
    var last := |r.devices| - 1;
    assert i < last ==> Node(inv, r.devices[i]) == Node(inv, r.devices[last]);
    assert 0 < last ==> Node(inv, r.devices[0]) == Node(inv, r.devices[last]);
  }

  lemma {:induction false} CpuComesFromDevice(inv: Inventory, names: seq<string>, cpu: int) returns (name: string)
    requires cpu in CpusOf(inv, names)
    ensures name in names && DeviceOf(inv, name).cpu == Some(cpu)
  {
    var n := |names| - 1;
    if cpu in CpusOf(inv, names[..n]) {
      name := CpuComesFromDevice(inv, names[..n], cpu);
    } else {
      name := names[n];
    }
  }

  /** When no two devices are the same logical CPU, the CPU sets of distinct claims are disjoint. */
  lemma CpusAreDisjoint(c: Config, inv: Inventory, t: Table, uid: string, other: string, cpu: int)
    requires TableOk(c, t) && Driven(c, inv) && uid in t && other in t && uid != other
    requires forall a, b :: a in inv && b in inv && a != b && inv[a].cpu.Some? ==> inv[a].cpu != inv[b].cpu
    requires cpu in t[uid].placement.cpus
    ensures cpu !in t[other].placement.cpus
  {
    var r, s := t[uid], t[other];
    assert c.place(r.devices) == Placed(inv, r.devices) && c.place(s.devices) == Placed(inv, s.devices);
    SortHas(AtMost, CpusOf(inv, r.devices), cpu);
    SortHas(AtMost, CpusOf(inv, s.devices), cpu);
    assert Apart(r, s);
    var a := CpuComesFromDevice(inv, r.devices, cpu);
    if cpu in s.placement.cpus {
      var b := CpuComesFromDevice(inv, s.devices, cpu);
    }
  }
}
