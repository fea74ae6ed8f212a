/**
 * Planning elastic workers for pending work: demands are met group by group, each unit by the best
 * free worker or by a new one, and a group is planned in full or not at all.
 */
module Planner {
  import opened Bags
  import opened Sorting

  datatype Shape = Shape(cpus: int, memory: int, gres: map<string, int>)

  datatype Candidate = Candidate(name: string, pool: string, shape: Shape)

  datatype Demand = Demand(job: nat, group: nat, pool: string, count: nat, shape: Shape)

  /** A missing key reads as zero, as in the source's maps. */
  function Read(m: map<string, int>, key: string): int {
    if key in m then m[key] else 0
  }

  // ---- Fitting and waste ----

  predicate ShapeFits(candidate: Shape, wanted: Shape) {
    && candidate.cpus >= wanted.cpus && candidate.memory >= wanted.memory && |candidate.gres| == |wanted.gres|
    && forall name :: name in wanted.gres ==> Read(candidate.gres, name) == wanted.gres[name]
  }

  /** Unless a wanted count is zero, devices fit exactly when they are the same. */
  lemma DevicesMatchExactly(candidate: Shape, wanted: Shape)
    requires forall name :: name in wanted.gres ==> wanted.gres[name] != 0
    ensures ShapeFits(candidate, wanted) <==>
      candidate.cpus >= wanted.cpus && candidate.memory >= wanted.memory && candidate.gres == wanted.gres
  {
    if ShapeFits(candidate, wanted) {
      assert wanted.gres.Keys <= candidate.gres.Keys;
      SameSize(wanted.gres.Keys, candidate.gres.Keys);
    }
  }

  lemma SameSize(a: set<string>, b: set<string>)
    requires a <= b && |a| == |b|
    ensures a == b
  {
    if a != b {
      var x :| x in b && x !in a;
      SubsetCount(a, b - {x});
    }
  }

  lemma {:induction false} SubsetCount(a: set<string>, b: set<string>)
    requires a <= b
    ensures |a| <= |b|
  {
    if a != {} {
      var x :| x in a;
      SubsetCount(a - {x}, b - {x});
    }
  }

  /** The test alone: a zero count lets through a worker with different devices, one that lacks the device and
      has some other instead. */
  lemma ZeroCountMatchesOthers(wanted: Shape, zero: string) returns (candidate: Shape)
    requires zero in wanted.gres && wanted.gres[zero] == 0
    ensures ShapeFits(candidate, wanted) && candidate.gres != wanted.gres
  {
    var other := NewName(wanted.gres.Keys);
    var less := wanted.gres - {zero};
    candidate := wanted.(gres := less[other := 1]);
    assert candidate.gres.Keys == (wanted.gres.Keys - {zero}) + {other};
    assert |candidate.gres.Keys| == |wanted.gres.Keys|;
    assert |candidate.gres| == |candidate.gres.Keys| && |wanted.gres| == |wanted.gres.Keys|;
    assert zero !in candidate.gres;
  }

  /** A string longer than any of a finite set. */
  lemma {:induction false} NewName(names: set<string>) returns (name: string)
    ensures name !in names && name != "" && forall n :: n in names ==> |n| < |name|
    decreases |names|
  {
    if names == {} {
      name := "x";
    } else {
      var n :| n in names;
      var rest := NewName(names - {n});
      name := if |n| < |rest| then rest else n + "x";
    }
  }

  predicate LessWaste(a: Candidate, b: Candidate, wanted: Shape) {
    var aCpus, bCpus := a.shape.cpus - wanted.cpus, b.shape.cpus - wanted.cpus;
    var aMemory, bMemory := a.shape.memory - wanted.memory, b.shape.memory - wanted.memory;
    if aCpus != bCpus then aCpus < bCpus
    else if aMemory != bMemory then aMemory < bMemory
    else Before(a.name, b.name)
  }

  lemma LessWasteTransitive(a: Candidate, b: Candidate, c: Candidate, wanted: Shape)
    requires LessWaste(a, b, wanted) && LessWaste(b, c, wanted)
    ensures LessWaste(a, c, wanted)
  {
    if Before(a.name, b.name) && Before(b.name, c.name) {
      BeforeTransitive(a.name, b.name, c.name);
    }
  }

  /** Of two candidates for one shape, a has the less CPU to spare, or as much and the less memory, or as much of
      both and the lesser name, or they do not differ in any of that. */
  ghost predicate Thriftier(a: Candidate, b: Candidate) {
    || a.shape.cpus < b.shape.cpus
    || (a.shape.cpus == b.shape.cpus && a.shape.memory < b.shape.memory)
    || (a.shape.cpus == b.shape.cpus && a.shape.memory == b.shape.memory && (a.name == b.name || Before(a.name, b.name)))
  }

  lemma ThriftierExactly(a: Candidate, b: Candidate, wanted: Shape)
    ensures Thriftier(a, b) <==> !LessWaste(b, a, wanted)
  {
    BeforeTotal(a.name, b.name);
    BeforeAsymmetric(a.name, b.name);
  }

  predicate Eligible(c: Candidate, taken: set<string>, d: Demand) {
    c.name !in taken && c.pool == d.pool && ShapeFits(c.shape, d.shape)
  }

  /** The right choice for one unit: the eligible candidate with the least CPU, then memory, to spare, then the
      least name, or none when there is none. */
  ghost predicate GoodPick(cands: seq<Candidate>, taken: set<string>, d: Demand, pick: Option<nat>) {
    match pick
    case None => forall i :: 0 <= i < |cands| ==> !Eligible(cands[i], taken, d)
    case Some(best) =>
      && best < |cands| && Eligible(cands[best], taken, d)
      && forall i :: 0 <= i < |cands| && Eligible(cands[i], taken, d) ==> Thriftier(cands[best], cands[i])
  }

  /** `bestCandidate`: a scan with a running best. */
  method BestCandidate(cands: seq<Candidate>, used: set<string>, localUsed: set<string>, d: Demand)
    returns (best: Option<nat>)
    ensures GoodPick(cands, used + localUsed, d, best)
  {
    best := None;
    for i := 0 to |cands|
      invariant best.None? ==> forall k :: 0 <= k < i ==> !Eligible(cands[k], used + localUsed, d)
      invariant best.Some? ==>
        && best.value < i && Eligible(cands[best.value], used + localUsed, d)
        && forall k :: 0 <= k < i && Eligible(cands[k], used + localUsed, d) ==>
             !LessWaste(cands[k], cands[best.value], d.shape)
    {
      var c := cands[i];
      if c.name in used || c.name in localUsed || c.pool != d.pool || !ShapeFits(c.shape, d.shape) {
        continue;
      }
      if best.None? || LessWaste(c, cands[best.value], d.shape) {
        ghost var previous := best;
        best := Some(i);
        BestSoFar(cands, used + localUsed, d, previous, i);
      }
    }
    if best.Some? {
      forall i | 0 <= i < |cands| && Eligible(cands[i], used + localUsed, d)
        ensures Thriftier(cands[best.value], cands[i])
      {
        ThriftierExactly(cands[best.value], cands[i], d.shape);
      }
    }
  }

  lemma BestSoFar(cands: seq<Candidate>, taken: set<string>, d: Demand, previous: Option<nat>, i: nat)
    requires i < |cands|
    requires previous.None? ==> forall k :: 0 <= k < i ==> !Eligible(cands[k], taken, d)
    requires previous.Some? ==> previous.value < i && LessWaste(cands[i], cands[previous.value], d.shape)
    requires previous.Some? ==>
      forall k :: 0 <= k < i && Eligible(cands[k], taken, d) ==>
        !LessWaste(cands[k], cands[previous.value], d.shape)
    ensures forall k :: 0 <= k <= i && Eligible(cands[k], taken, d) ==> !LessWaste(cands[k], cands[i], d.shape)
  {
    BeforeAsymmetric(cands[i].name, cands[i].name);
    if previous.Some? {
      forall k | 0 <= k < i && Eligible(cands[k], taken, d) ensures !LessWaste(cands[k], cands[i], d.shape) {
        if LessWaste(cands[k], cands[i], d.shape) {
          LessWasteTransitive(cands[k], cands[i], cands[previous.value], d.shape);
        }
      }
    }
  }

  // ---- The units of a group ----

  function Repeat(d: Demand, n: nat): (s: seq<Demand>)
    ensures |s| == n
  {
    if n == 0 then [] else Repeat(d, n - 1) + [d]
  }

  function Unit(d: Demand): Demand { d.(count := 1) }

  /** A group's demands, unit by unit. */
  function Units(ds: seq<Demand>): seq<Demand> {
    if ds == [] then [] else Units(ds[..|ds| - 1]) + Repeat(Unit(ds[|ds| - 1]), ds[|ds| - 1].count)
  }

  /** A demand of n units gives n units of its own, in its place, each of its job, group, pool and shape. */
  lemma {:induction false} UnitsAt(ds: seq<Demand>, i: nat, n: nat)
    requires i < |ds| && n < ds[i].count
    ensures |Units(ds[..i])| + ds[i].count == |Units(ds[..i + 1])| <= |Units(ds)|
    ensures Units(ds)[|Units(ds[..i])| + n] == Demand(ds[i].job, ds[i].group, ds[i].pool, 1, ds[i].shape)
    decreases |ds|
  {
    UnitsNext(ds, i);
    var front := ds[..|ds| - 1];
    if i == |ds| - 1 {
      assert ds[..i + 1] == ds && ds[..i] == front;
      RepeatAt(Unit(ds[i]), ds[i].count, n);
    } else {
      UnitsAt(front, i, n);
      assert front[..i] == ds[..i] && front[..i + 1] == ds[..i + 1];
    }
  }

  lemma {:induction false} RepeatAt(d: Demand, count: nat, n: nat)
    requires n < count
    ensures Repeat(d, count)[n] == d
  {
    if n < count - 1 {
      RepeatAt(d, count - 1, n);
    }
  }

  function NamesOf(cands: seq<Candidate>, picks: seq<Option<nat>>): set<string> {
    if picks == [] then {}
    else
      var last := picks[|picks| - 1];
      NamesOf(cands, picks[..|picks| - 1])
      + if last.Some? && last.value < |cands| then {cands[last.value].name} else {}
  }

  function CreatesOf(units: seq<Demand>, picks: seq<Option<nat>>): seq<Demand> {
    if picks == [] || |units| != |picks| then []
    else
      var n := |picks| - 1;
      CreatesOf(units[..n], picks[..n]) + if picks[n].None? then [units[n]] else []
  }

  /** Unit by unit, each pick is right given what earlier groups and earlier units have taken. */
  ghost predicate GoodPicks(cands: seq<Candidate>, used: set<string>, units: seq<Demand>, picks: seq<Option<nat>>) {
    && |picks| == |units|
    && forall u :: 0 <= u < |units| ==> GoodPick(cands, used + NamesOf(cands, picks[..u]), units[u], picks[u])
  }

  lemma PickNext(cands: seq<Candidate>, used: set<string>, units: seq<Demand>, picks: seq<Option<nat>>,
                 d: Demand, pick: Option<nat>)
    requires GoodPicks(cands, used, units, picks) && GoodPick(cands, used + NamesOf(cands, picks), d, pick)
    ensures GoodPicks(cands, used, units + [d], picks + [pick])
    ensures NamesOf(cands, picks + [pick]) ==
      NamesOf(cands, picks) + if pick.Some? then {cands[pick.value].name} else {}
    ensures CreatesOf(units + [d], picks + [pick]) == CreatesOf(units, picks) + if pick.None? then [d] else []
  {
    var units', picks' := units + [d], picks + [pick];
    assert picks'[..|picks|] == picks && units'[..|units|] == units;
    forall u | 0 <= u < |units'| ensures GoodPick(cands, used + NamesOf(cands, picks'[..u]), units'[u], picks'[u]) {
      if u < |units| {
        assert picks'[..u] == picks[..u];
      }
    }
  }

  /** The running picks, names and new workers for the units so far. */
  ghost predicate Picked(cands: seq<Candidate>, used: set<string>, units: seq<Demand>,
                         picks: seq<Option<nat>>, localUsed: set<string>, creates: seq<Demand>) {
    GoodPicks(cands, used, units, picks) && localUsed == NamesOf(cands, picks) && creates == CreatesOf(units, picks)
  }

  /** The innermost step: one more unit. */
  method PickUnit(cands: seq<Candidate>, used: set<string>, ghost units: seq<Demand>, unit: Demand,
                  picks0: seq<Option<nat>>, localUsed0: set<string>, creates0: seq<Demand>)
    returns (picks: seq<Option<nat>>, localUsed: set<string>, creates: seq<Demand>)
    requires Picked(cands, used, units, picks0, localUsed0, creates0)
    ensures Picked(cands, used, units + [unit], picks, localUsed, creates)
  {
    var pick := BestCandidate(cands, used, localUsed0, unit);
    PickNext(cands, used, units, picks0, unit, pick);
    picks, localUsed, creates := picks0 + [pick], localUsed0, creates0;
    if pick.Some? {
      localUsed := localUsed + {cands[pick.value].name};
    } else {
      creates := creates + [unit];
    }
  }

  lemma RepeatNext(units: seq<Demand>, d: Demand, n: nat)
    ensures units + Repeat(d, n + 1) == (units + Repeat(d, n)) + [d]
  {
  }

  lemma UnitsNext(ds: seq<Demand>, i: nat)
    requires i < |ds|
    ensures Units(ds[..i + 1]) == Units(ds[..i]) + Repeat(Unit(ds[i]), ds[i].count)
  {
    assert ds[..i + 1][..i] == ds[..i];
  }

  /** The two inner loops: every unit of every demand of the group. */
  method PickUnits(cands: seq<Candidate>, used: set<string>, ds: seq<Demand>)
    returns (picks: seq<Option<nat>>, localUsed: set<string>, creates: seq<Demand>)
    ensures Picked(cands, used, Units(ds), picks, localUsed, creates)
  {
    picks, localUsed, creates := [], {}, [];
    for i := 0 to |ds|
      invariant Picked(cands, used, Units(ds[..i]), picks, localUsed, creates)
    {
      ghost var done := Units(ds[..i]);
      UnitsNext(ds, i);
      assert done + Repeat(Unit(ds[i]), 0) == done;
      for n := 0 to ds[i].count
        invariant Picked(cands, used, done + Repeat(Unit(ds[i]), n), picks, localUsed, creates)
      {
        RepeatNext(done, Unit(ds[i]), n);
        picks, localUsed, creates :=
          PickUnit(cands, used, done + Repeat(Unit(ds[i]), n), Unit(ds[i]), picks, localUsed, creates);
      }
    }
    assert ds[..|ds|] == ds;
  }

  lemma {:induction false} NamesHave(cands: seq<Candidate>, picks: seq<Option<nat>>, u: nat)
    requires u < |picks| && picks[u].Some? && picks[u].value < |cands|
    ensures cands[picks[u].value].name in NamesOf(cands, picks)
  {
    if u < |picks| - 1 {
      NamesHave(cands, picks[..|picks| - 1], u);
    }
  }

  /** Within a group no candidate serves two units, and none serves a unit of an earlier group. */
  lemma PicksAreDistinct(cands: seq<Candidate>, used: set<string>, units: seq<Demand>, picks: seq<Option<nat>>,
                         u: nat, v: nat)
    requires GoodPicks(cands, used, units, picks) && u < v < |picks| && picks[u].Some? && picks[v].Some?
    ensures picks[u].value < |cands| && picks[v].value < |cands|
    ensures cands[picks[u].value].name != cands[picks[v].value].name
    ensures cands[picks[v].value].name !in used && cands[picks[u].value].name !in used
  {
    assert GoodPick(cands, used + NamesOf(cands, picks[..u]), units[u], picks[u]);
    assert GoodPick(cands, used + NamesOf(cands, picks[..v]), units[v], picks[v]);
    NamesHave(cands, picks[..v], u);
  }

  // ---- Whether a group fits ----

  function CountOf(ds: seq<Demand>, pool: string): nat {
    if ds == [] then 0 else CountOf(ds[..|ds| - 1], pool) + if ds[|ds| - 1].pool == pool then 1 else 0
  }

  /** Every new worker can be claimed, and no pool that gets one grows past its limit, counting the
      workers there were and those already created. */
  ghost predicate Fits(creates: seq<Demand>, before: map<string, int>, already: seq<Demand>,
                       limits: map<string, int>, claimable: Demand -> bool) {
    && (forall k :: 0 <= k < |creates| ==> claimable(creates[k]))
    && (forall pool :: CountOf(creates, pool) > 0 ==>
          Read(before, pool) + CountOf(already, pool) + CountOf(creates, pool) <= Read(limits, pool))
  }

  /** The pool sizes after some workers were created. */
  ghost predicate Grown(before: map<string, int>, created: seq<Demand>, counts: map<string, int>) {
    forall pool :: Read(counts, pool) == Read(before, pool) + CountOf(created, pool)
  }

  /** The tally of new workers per pool. */
  method Tally(creates: seq<Demand>, claimable: Demand -> bool) returns (tally: map<string, int>, valid: bool)
    ensures valid <==> forall k :: 0 <= k < |creates| ==> claimable(creates[k])
    ensures forall pool :: Read(tally, pool) == CountOf(creates, pool)
    ensures forall pool :: pool in tally ==> tally[pool] > 0
  {
    tally, valid := map[], true;
    for i := 0 to |creates|
      invariant valid <==> forall k :: 0 <= k < i ==> claimable(creates[k])
      invariant forall pool :: Read(tally, pool) == CountOf(creates[..i], pool)
      invariant forall pool :: pool in tally ==> tally[pool] > 0
    {
      assert creates[..i + 1][..i] == creates[..i];
      var pool := creates[i].pool;
      tally := tally[pool := Read(tally, pool) + 1];
      if !claimable(creates[i]) {
        valid := false;
      }
    }
    assert creates[..|creates|] == creates;
  }

  method CheckFits(creates: seq<Demand>, ghost before: map<string, int>, ghost already: seq<Demand>,
                   counts: map<string, int>, limits: map<string, int>, claimable: Demand -> bool)
    returns (fits: bool)
    requires Grown(before, already, counts)
    ensures fits == Fits(creates, before, already, limits, claimable)
  {
    var tally;
    tally, fits := Tally(creates, claimable);
    var rest := tally.Keys;
    while rest != {}
      invariant rest <= tally.Keys
      invariant forall pool :: pool in tally && pool !in rest ==> Read(counts, pool) + tally[pool] <= Read(limits, pool)
      decreases |rest|
    {
      var pool :| pool in rest;
      if Read(counts, pool) + tally[pool] > Read(limits, pool) {
        assert CountOf(creates, pool) == Read(tally, pool) > 0;
        return false;
      }
      rest := rest - {pool};
    }
    assert forall pool :: CountOf(creates, pool) > 0 ==> pool in tally;
  }

  // ---- The whole plan ----

  /** What was decided for one group. */
  datatype Decision = Decision(group: nat, accepted: bool, picks: seq<Option<nat>>)

  function DemandsOf(ds: seq<Demand>, group: nat): seq<Demand> {
    if ds == [] then []
    else DemandsOf(ds[..|ds| - 1], group) + if ds[|ds| - 1].group == group then [ds[|ds| - 1]] else []
  }

  /** The candidates reserved by the accepted decisions. */
  function Reserved(cands: seq<Candidate>, decisions: seq<Decision>): set<string> {
    if decisions == [] then {}
    else
      var last := decisions[|decisions| - 1];
      Reserved(cands, decisions[..|decisions| - 1]) + if last.accepted then NamesOf(cands, last.picks) else {}
  }

  /** The demands of a decision's group, unit by unit. */
  function UnitsOf(ds: seq<Demand>, d: Decision): seq<Demand> { Units(DemandsOf(ds, d.group)) }

  /** The new workers a decision asks for. */
  function Creates(ds: seq<Demand>, d: Decision): seq<Demand> { CreatesOf(UnitsOf(ds, d), d.picks) }

  /** The new workers of the accepted decisions, in order. */
  function Ordered(ds: seq<Demand>, decisions: seq<Decision>): seq<Demand> {
    if decisions == [] then []
    else
      var last := decisions[|decisions| - 1];
      Ordered(ds, decisions[..|decisions| - 1]) + if last.accepted then Creates(ds, last) else []
  }

  /** The picks are right given what was reserved before, and the group is accepted exactly when its
      new workers fit beside those created before. */
  ghost predicate RightDecision(cands: seq<Candidate>, ds: seq<Demand>, before: map<string, int>,
                                limits: map<string, int>, claimable: Demand -> bool,
                                used: set<string>, already: seq<Demand>, d: Decision) {
    && GoodPicks(cands, used, UnitsOf(ds, d), d.picks)
    && (d.accepted <==> Fits(Creates(ds, d), before, already, limits, claimable))
  }

  /** Every decision is right given those before it. */
  ghost predicate Decided(cands: seq<Candidate>, ds: seq<Demand>, before: map<string, int>,
                          limits: map<string, int>, claimable: Demand -> bool, decisions: seq<Decision>) {
    decisions == [] ||
    var n := |decisions| - 1;
    && Decided(cands, ds, before, limits, claimable, decisions[..n])
    && RightDecision(cands, ds, before, limits, claimable,
                     Reserved(cands, decisions[..n]), Ordered(ds, decisions[..n]), decisions[n])
  }

  lemma DecidedNext(cands: seq<Candidate>, ds: seq<Demand>, before: map<string, int>, limits: map<string, int>,
                    claimable: Demand -> bool, decisions: seq<Decision>, d: Decision)
    requires Decided(cands, ds, before, limits, claimable, decisions)
    requires RightDecision(cands, ds, before, limits, claimable, Reserved(cands, decisions), Ordered(ds, decisions), d)
    ensures Decided(cands, ds, before, limits, claimable, decisions + [d])
  {
    assert (decisions + [d])[..|decisions|] == decisions;
  }

  lemma {:induction false} DecidedPrefix(
    cands: seq<Candidate>, ds: seq<Demand>, before: map<string, int>, limits: map<string, int>,
    claimable: Demand -> bool, decisions: seq<Decision>, n: nat)
    requires Decided(cands, ds, before, limits, claimable, decisions) && n <= |decisions|
    ensures Decided(cands, ds, before, limits, claimable, decisions[..n])
  {
    if n == |decisions| {
      assert decisions[..n] == decisions;
    } else {
      var front := decisions[..|decisions| - 1];
      assert front[..n] == decisions[..n];
      DecidedPrefix(cands, ds, before, limits, claimable, front, n);
    }
  }

  lemma DecidedAt(cands: seq<Candidate>, ds: seq<Demand>, before: map<string, int>, limits: map<string, int>,
                  claimable: Demand -> bool, decisions: seq<Decision>, g: nat)
    requires Decided(cands, ds, before, limits, claimable, decisions) && g < |decisions|
    ensures RightDecision(cands, ds, before, limits, claimable,
                          Reserved(cands, decisions[..g]), Ordered(ds, decisions[..g]), decisions[g])
  {
    DecidedPrefix(cands, ds, before, limits, claimable, decisions, g + 1);
    assert decisions[..g + 1][..g] == decisions[..g];
  }

  lemma TotalsNext(cands: seq<Candidate>, ds: seq<Demand>, decisions: seq<Decision>, d: Decision)
    ensures Reserved(cands, decisions + [d]) ==
      Reserved(cands, decisions) + if d.accepted then NamesOf(cands, d.picks) else {}
    ensures Ordered(ds, decisions + [d]) == Ordered(ds, decisions) + if d.accepted then Creates(ds, d) else []
  {
    assert (decisions + [d])[..|decisions|] == decisions;
  }

  /** The groups of the demands, in order of first appearance. */
  function FirstGroups(ds: seq<Demand>): seq<nat> {
    if ds == [] then []
    else
      var front, last := FirstGroups(ds[..|ds| - 1]), ds[|ds| - 1].group;
      if last in front then front else front + [last]
  }

  lemma {:induction false} FirstGroupsHave(ds: seq<Demand>, group: nat)
    ensures group in FirstGroups(ds) <==> exists i :: 0 <= i < |ds| && ds[i].group == group
  {
    if ds != [] {
      var n := |ds| - 1;
      FirstGroupsHave(ds[..n], group);
      assert forall i :: 0 <= i < n ==> ds[..n][i] == ds[i];
    }
  }

  lemma {:induction false} FirstGroupsExtend(ds: seq<Demand>, i: nat)
    requires i <= |ds|
    ensures FirstGroups(ds[..i]) <= FirstGroups(ds)
  {
    if i == |ds| {
      assert ds[..i] == ds;
    } else {
      assert ds[..|ds| - 1][..i] == ds[..i];
      FirstGroupsExtend(ds[..|ds| - 1], i);
    }
  }

  /** A group stands after exactly the groups that appear before it. */
  lemma FirstGroupsAt(ds: seq<Demand>, i: nat)
    requires i < |ds| && forall k :: 0 <= k < i ==> ds[k].group != ds[i].group
    ensures |FirstGroups(ds[..i])| < |FirstGroups(ds)| && FirstGroups(ds)[|FirstGroups(ds[..i])|] == ds[i].group
  {
    FirstGroupsHave(ds[..i], ds[i].group);
    assert ds[..i + 1][..i] == ds[..i];
    FirstGroupsExtend(ds, i + 1);
  }

  /** The groups seen so far, in order of first appearance, and their demands. */
  ghost predicate Grouped(ds: seq<Demand>, groups: seq<nat>, byGroup: map<nat, seq<Demand>>) {
    && Distinct(groups) && groups == FirstGroups(ds)
    && (forall group :: group in groups <==> group in byGroup)
    && (forall group :: DemandsOf(ds, group) == if group in byGroup then byGroup[group] else [])
  }

  /** The group list after a demand: a group is added when it first appears. */
  function Appeared(groups: seq<nat>, byGroup: map<nat, seq<Demand>>, group: nat): seq<nat> {
    if group in byGroup then groups else groups + [group]
  }

  function Appended(byGroup: map<nat, seq<Demand>>, d: Demand): map<nat, seq<Demand>> {
    byGroup[d.group := (if d.group in byGroup then byGroup[d.group] else []) + [d]]
  }

  method Groups(ds: seq<Demand>) returns (groups: seq<nat>, byGroup: map<nat, seq<Demand>>)
    ensures Grouped(ds, groups, byGroup)
  {
    groups, byGroup := [], map[];
    for i := 0 to |ds|
      invariant Grouped(ds[..i], groups, byGroup)
    {
      GroupNext(ds, i, groups, byGroup);
      groups, byGroup := Appeared(groups, byGroup, ds[i].group), Appended(byGroup, ds[i]);
    }
    assert ds[..|ds|] == ds;
  }

  lemma DemandsNext(ds: seq<Demand>, i: nat, group: nat)
    requires i < |ds|
    ensures DemandsOf(ds[..i + 1], group) ==
      DemandsOf(ds[..i], group) + if ds[i].group == group then [ds[i]] else []
  {
    assert ds[..i + 1][..i] == ds[..i];
  }

  lemma GroupNext(ds: seq<Demand>, i: nat, groups: seq<nat>, byGroup: map<nat, seq<Demand>>)
    requires i < |ds| && Grouped(ds[..i], groups, byGroup)
    ensures Grouped(ds[..i + 1], Appeared(groups, byGroup, ds[i].group), Appended(byGroup, ds[i]))
  {
    assert ds[..i + 1][..i] == ds[..i];
    forall group
      ensures DemandsOf(ds[..i + 1], group) ==
        DemandsOf(ds[..i], group) + if ds[i].group == group then [ds[i]] else []
    {
      DemandsNext(ds, i, group);
    }
  }

  /** Create a group's new workers, one by one; an error leaves those already created. */
  method CreateAll(creates: seq<Demand>, image: bool, fails: seq<Demand> -> bool,
                   ghost before: map<string, int>, counts0: map<string, int>, created0: seq<Demand>)
    returns (ok: bool, counts: map<string, int>, created: seq<Demand>)
    requires Grown(before, created0, counts0)
    ensures Grown(before, created, counts) && created0 <= created <= created0 + creates
    ensures if ok then created == created0 + creates
            else (!image || fails(created)) && created < created0 + creates
  {
    counts, created := counts0, created0;
    for i := 0 to |creates|
      invariant Grown(before, created, counts) && created == created0 + creates[..i]
    {
      if !image || fails(created) {
        return false, counts, created;
      }
      var pool := creates[i].pool;
      counts := counts[pool := Read(counts, pool) + 1];
      assert (created + [creates[i]])[..|created|] == created;
      created := created + [creates[i]];
    }
    ok := true;
  }

  /** One group: pick for every unit, then accept or refuse. */
  method DecideGroup(cands: seq<Candidate>, ds: seq<Demand>, before: map<string, int>, limits: map<string, int>,
                     claimable: Demand -> bool, decisions: seq<Decision>, used: set<string>, created: seq<Demand>,
                     counts: map<string, int>, group: nat, mine: seq<Demand>)
    returns (d: Decision, localUsed: set<string>, creates: seq<Demand>)
    requires Decided(cands, ds, before, limits, claimable, decisions)
    requires used == Reserved(cands, decisions) && created == Ordered(ds, decisions) && Grown(before, created, counts)
    requires mine == DemandsOf(ds, group)
    ensures Decided(cands, ds, before, limits, claimable, decisions + [d])
    ensures d.group == group && localUsed == NamesOf(cands, d.picks) && creates == Creates(ds, d)
  {
    var picks;
    picks, localUsed, creates := PickUnits(cands, used, mine);
    var fits := CheckFits(creates, before, created, counts, limits, claimable);
    d := Decision(group, fits, picks);
    DecidedNext(cands, ds, before, limits, claimable, decisions, d);
  }

  /** The groups that were decided, in order. */
  function GroupsOf(decisions: seq<Decision>): seq<nat> {
    if decisions == [] then [] else GroupsOf(decisions[..|decisions| - 1]) + [decisions[|decisions| - 1].group]
  }

  lemma GroupsNext(decisions: seq<Decision>, d: Decision)
    ensures GroupsOf(decisions + [d]) == GroupsOf(decisions) + [d.group]
  {
    assert (decisions + [d])[..|decisions|] == decisions;
  }

  ghost predicate Distinct(s: seq<nat>) {
    forall g, h :: 0 <= g < h < |s| ==> s[g] != s[h]
  }

  lemma PrefixNext(s: seq<nat>, n: nat)
    requires Distinct(s) && n < |s|
    ensures s[..n] + [s[n]] == s[..n + 1] && Distinct(s[..n + 1])
  {
  }

  /** The running maps and lists say what the decisions so far say. */
  ghost predicate Planned(cands: seq<Candidate>, ds: seq<Demand>, before: map<string, int>, decisions: seq<Decision>,
                          reserved: set<string>, created: seq<Demand>, counts: map<string, int>) {
    && reserved == Reserved(cands, decisions) && created == Ordered(ds, decisions) && Grown(before, created, counts)
  }

  /** One pass of the outer loop: decide the group, then reserve and create if it is accepted. */
  method PlanGroup(cands: seq<Candidate>, ds: seq<Demand>, before: map<string, int>, limits: map<string, int>,
                   claimable: Demand -> bool, image: bool, fails: seq<Demand> -> bool, decisions: seq<Decision>,
                   used: set<string>, ordered: seq<Demand>, sizes: map<string, int>, group: nat, mine: seq<Demand>)
    returns (ok: bool, d: Decision, reserved: set<string>, created: seq<Demand>, counts: map<string, int>)
    requires Decided(cands, ds, before, limits, claimable, decisions)
    requires Planned(cands, ds, before, decisions, used, ordered, sizes) && mine == DemandsOf(ds, group)
    ensures Decided(cands, ds, before, limits, claimable, decisions + [d]) && d.group == group
    ensures reserved == Reserved(cands, decisions + [d]) && created <= Ordered(ds, decisions + [d])
    ensures if ok then Planned(cands, ds, before, decisions + [d], reserved, created, counts)
            else (!image || fails(created)) && created < Ordered(ds, decisions + [d])
  {
    var localUsed, creates;
    d, localUsed, creates :=
      DecideGroup(cands, ds, before, limits, claimable, decisions, used, ordered, sizes, group, mine);
    TotalsNext(cands, ds, decisions, d);
    ok, reserved, created, counts := true, used, ordered, sizes;
    if d.accepted {
      reserved := used + localUsed;
      ok, counts, created := CreateAll(creates, image, fails, before, sizes, ordered);
    }
  }

  /** The planning section of `reconcileWorkers`: each group is decided once, rightly, and in order;
      what is reserved and created is exactly what the accepted decisions say. */
  method Plan(cands: seq<Candidate>, ds: seq<Demand>, before: map<string, int>, limits: map<string, int>,
              claimable: Demand -> bool, image: bool, fails: seq<Demand> -> bool)
    returns (decisions: seq<Decision>, reserved: set<string>, created: seq<Demand>, complete: bool)
    ensures Decided(cands, ds, before, limits, claimable, decisions) && Distinct(GroupsOf(decisions))
    ensures GroupsOf(decisions) <= FirstGroups(ds) && (complete ==> GroupsOf(decisions) == FirstGroups(ds))
    ensures reserved == Reserved(cands, decisions) && created <= Ordered(ds, decisions)
    ensures if complete then created == Ordered(ds, decisions)
            else (!image || fails(created)) && created < Ordered(ds, decisions)
  {
    var groups, byGroup := Groups(ds);
    var counts := before;
    decisions, reserved, created := [], {}, [];
    for n := 0 to |groups|
      invariant GroupsOf(decisions) == groups[..n]
      invariant Decided(cands, ds, before, limits, claimable, decisions)
      invariant Planned(cands, ds, before, decisions, reserved, created, counts)
    {
      var ok, d;
      var group, mine := groups[n], byGroup[groups[n]];
      assert mine == DemandsOf(ds, group);
      ok, d, reserved, created, counts :=
        PlanGroup(cands, ds, before, limits, claimable, image, fails, decisions,
                  reserved, created, counts, group, mine);
      GroupsNext(decisions, d);
      PrefixNext(groups, n);
      decisions := decisions + [d];
      if !ok {
        return decisions, reserved, created, false;
      }
    }
    complete := true;
    assert groups[..|groups|] == groups;
  }

  // ---- What every plan satisfies ----

  lemma {:induction false} ReservedGrows(cands: seq<Candidate>, decisions: seq<Decision>, g: nat, n: nat)
    requires g < n <= |decisions| && decisions[g].accepted
    ensures NamesOf(cands, decisions[g].picks) <= Reserved(cands, decisions[..n])
  {
    assert decisions[..n][..n - 1] == decisions[..n - 1];
    if g < n - 1 {
      ReservedGrows(cands, decisions, g, n - 1);
    }
  }

  /** No candidate serves two units of accepted groups. */
  lemma NoCandidateTwice(cands: seq<Candidate>, ds: seq<Demand>, before: map<string, int>, limits: map<string, int>,
                         claimable: Demand -> bool, decisions: seq<Decision>, g: nat, u: nat, h: nat, v: nat)
    requires Decided(cands, ds, before, limits, claimable, decisions)
    requires g < |decisions| && h < |decisions| && decisions[g].accepted && decisions[h].accepted
    requires u < |decisions[g].picks| && v < |decisions[h].picks| && (g < h || (g == h && u < v))
    requires decisions[g].picks[u].Some? && decisions[h].picks[v].Some?
    ensures decisions[g].picks[u].value < |cands| && decisions[h].picks[v].value < |cands|
    ensures cands[decisions[g].picks[u].value].name != cands[decisions[h].picks[v].value].name
  {
    var p, q := decisions[g].picks, decisions[h].picks;
    DecidedAt(cands, ds, before, limits, claimable, decisions, g);
    DecidedAt(cands, ds, before, limits, claimable, decisions, h);
    if g == h {
      PicksAreDistinct(cands, Reserved(cands, decisions[..g]), UnitsOf(ds, decisions[g]), p, u, v);
    } else {
      assert GoodPick(cands, Reserved(cands, decisions[..g]) + NamesOf(cands, p[..u]),
                      UnitsOf(ds, decisions[g])[u], p[u]);
      assert GoodPick(cands, Reserved(cands, decisions[..h]) + NamesOf(cands, q[..v]),
                      UnitsOf(ds, decisions[h])[v], q[v]);
      NamesHave(cands, p, u);
      ReservedGrows(cands, decisions, g, h);
    }
  }

  lemma {:induction false} CountConcat(a: seq<Demand>, b: seq<Demand>, pool: string)
    ensures CountOf(a + b, pool) == CountOf(a, pool) + CountOf(b, pool)
  {
    if b == [] {
      assert a + b == a;
    } else {
      var front := b[..|b| - 1];
      assert (a + b)[..|a + b| - 1] == a + front;
      CountConcat(a, front, pool);
    }
  }

  /** The pool is within its limit if anything was created for it. */
  ghost predicate Within(before: map<string, int>, created: seq<Demand>, limits: map<string, int>, pool: string) {
    CountOf(created, pool) > 0 ==> Read(before, pool) + CountOf(created, pool) <= Read(limits, pool)
  }

  lemma FitsStayWithin(before: map<string, int>, already: seq<Demand>, creates: seq<Demand>,
                       limits: map<string, int>, claimable: Demand -> bool, pool: string)
    requires Within(before, already, limits, pool) && Fits(creates, before, already, limits, claimable)
    ensures Within(before, already + creates, limits, pool)
  {
    CountConcat(already, creates, pool);
  }

  lemma {:induction false} OrderedFits(
    cands: seq<Candidate>, ds: seq<Demand>, before: map<string, int>, limits: map<string, int>,
    claimable: Demand -> bool, decisions: seq<Decision>, pool: string)
    requires Decided(cands, ds, before, limits, claimable, decisions)
    ensures Within(before, Ordered(ds, decisions), limits, pool)
  {
    if decisions != [] {
      var n := |decisions| - 1;
      OrderedFits(cands, ds, before, limits, claimable, decisions[..n], pool);
      if decisions[n].accepted {
        FitsStayWithin(before, Ordered(ds, decisions[..n]), Creates(ds, decisions[n]), limits, claimable, pool);
      } else {
        assert Ordered(ds, decisions) == Ordered(ds, decisions[..n]);
      }
    }
  }

  /** Creation never takes a pool past its limit, even when an error cuts the plan short. */
  lemma PoolsStayWithinLimits(cands: seq<Candidate>, ds: seq<Demand>, before: map<string, int>,
                              limits: map<string, int>, claimable: Demand -> bool,
                              decisions: seq<Decision>, created: seq<Demand>, pool: string)
    requires Decided(cands, ds, before, limits, claimable, decisions) && created <= Ordered(ds, decisions)
    ensures Within(before, created, limits, pool)
  {
    OrderedFits(cands, ds, before, limits, claimable, decisions, pool);
    var all := Ordered(ds, decisions);
    assert all == created + all[|created|..];
    CountConcat(created, all[|created|..], pool);
  }

  // ---- Refused groups ----

  /** The demands of all other groups. */
  function Without(ds: seq<Demand>, group: nat): seq<Demand> {
    if ds == [] then []
    else Without(ds[..|ds| - 1], group) + if ds[|ds| - 1].group == group then [] else [ds[|ds| - 1]]
  }

  lemma {:induction false} OthersKeepDemands(ds: seq<Demand>, group: nat, other: nat)
    requires other != group
    ensures DemandsOf(Without(ds, group), other) == DemandsOf(ds, other)
  {
    if ds != [] {
      var n := |ds| - 1;
      OthersKeepDemands(ds[..n], group, other);
      var front := Without(ds[..n], group);
      assert front + [] == front && (front + [ds[n]])[..|front|] == front;
    }
  }

  lemma {:induction false} GroupsAt(decisions: seq<Decision>, g: nat)
    requires g < |decisions|
    ensures |GroupsOf(decisions)| == |decisions| && GroupsOf(decisions)[g] == decisions[g].group
  {
    var n := |decisions| - 1;
    if n > 0 {
      GroupsAt(decisions[..n], if g < n then g else 0);
    }
  }

  ghost predicate NoneOf(decisions: seq<Decision>, group: nat) {
    forall g :: 0 <= g < |decisions| ==> decisions[g].group != group
  }

  /** Decisions on other groups are right without a group's demands just as with them. */
  lemma {:induction false} OthersStayRight(
    cands: seq<Candidate>, ds: seq<Demand>, before: map<string, int>, limits: map<string, int>,
    claimable: Demand -> bool, decisions: seq<Decision>, group: nat)
    requires Decided(cands, ds, before, limits, claimable, decisions) && NoneOf(decisions, group)
    ensures Decided(cands, Without(ds, group), before, limits, claimable, decisions)
    ensures Ordered(Without(ds, group), decisions) == Ordered(ds, decisions)
  {
    if decisions != [] {
      var n := |decisions| - 1;
      OthersStayRight(cands, ds, before, limits, claimable, decisions[..n], group);
      OthersKeepDemands(ds, group, decisions[n].group);
    }
  }

  /** The plan without its decision g. */
  function Rest(decisions: seq<Decision>, g: nat): seq<Decision>
    requires g < |decisions|
  {
    decisions[..g] + decisions[g + 1..]
  }

  /** A refused group leaves no trace: without its demands all other decisions would be right as they
      are, with the same workers reserved and created. */
  lemma {:induction false} RefusalLeavesNoTrace(
    cands: seq<Candidate>, ds: seq<Demand>, before: map<string, int>, limits: map<string, int>,
    claimable: Demand -> bool, decisions: seq<Decision>, g: nat)
    requires Decided(cands, ds, before, limits, claimable, decisions) && Distinct(GroupsOf(decisions))
    requires g < |decisions| && !decisions[g].accepted
    ensures NoTrace(cands, ds, before, limits, claimable, decisions, g)
  {
    OthersDiffer(decisions, g);
    NoTraceUpTo(cands, ds, before, limits, claimable, decisions, g, |decisions|);
    assert decisions[..|decisions|] == decisions;
  }

  /** No other decision is on the group of decision g. */
  ghost predicate Alone(decisions: seq<Decision>, g: nat)
    requires g < |decisions|
  {
    forall h :: 0 <= h < |decisions| && h != g ==> decisions[h].group != decisions[g].group
  }

  lemma OthersDiffer(decisions: seq<Decision>, g: nat)
    requires Distinct(GroupsOf(decisions)) && g < |decisions|
    ensures Alone(decisions, g)
  {
    forall h | 0 <= h < |decisions| && h != g ensures decisions[h].group != decisions[g].group {
      GroupsAt(decisions, g);
      GroupsAt(decisions, h);
    }
  }

  lemma {:induction false} NoTraceUpTo(
    cands: seq<Candidate>, ds: seq<Demand>, before: map<string, int>, limits: map<string, int>,
    claimable: Demand -> bool, decisions: seq<Decision>, g: nat, m: nat)
    requires g < m <= |decisions| && !decisions[g].accepted && Alone(decisions, g)
    requires Decided(cands, ds, before, limits, claimable, decisions)
    ensures NoTrace(cands, ds, before, limits, claimable, decisions[..m], g)
  {
    if m == g + 1 {
      NoTraceFirst(cands, ds, before, limits, claimable, decisions, g);
    } else {
      NoTraceUpTo(cands, ds, before, limits, claimable, decisions, g, m - 1);
      NoTraceStep(cands, ds, before, limits, claimable, decisions, g, m);
    }
  }

  lemma PrefixGrows(decisions: seq<Decision>, m: nat)
    requires 0 < m <= |decisions|
    ensures decisions[..m - 1] + [decisions[m - 1]] == decisions[..m]
  {
  }

  lemma NoTraceStep(cands: seq<Candidate>, ds: seq<Demand>, before: map<string, int>, limits: map<string, int>,
                    claimable: Demand -> bool, decisions: seq<Decision>, g: nat, m: nat)
    requires g < m - 1 < |decisions| && decisions[m - 1].group != decisions[g].group
    requires Decided(cands, ds, before, limits, claimable, decisions)
    requires NoTrace(cands, ds, before, limits, claimable, decisions[..m - 1], g)
    ensures NoTrace(cands, ds, before, limits, claimable, decisions[..m], g)
  {
    DecidedPrefix(cands, ds, before, limits, claimable, decisions, m);
    PrefixGrows(decisions, m);
    NoTraceNext(cands, ds, before, limits, claimable, decisions[..m - 1], decisions[m - 1], decisions[..m], g);
  }

  lemma NoTraceFirst(cands: seq<Candidate>, ds: seq<Demand>, before: map<string, int>, limits: map<string, int>,
                     claimable: Demand -> bool, decisions: seq<Decision>, g: nat)
    requires g < |decisions| && !decisions[g].accepted && Alone(decisions, g)
    requires Decided(cands, ds, before, limits, claimable, decisions)
    ensures NoTrace(cands, ds, before, limits, claimable, decisions[..g + 1], g)
  {
    DecidedPrefix(cands, ds, before, limits, claimable, decisions, g);
    PrefixGrows(decisions, g + 1);
    RefusedLast(cands, ds, before, limits, claimable, decisions[..g], decisions[g], decisions[..g + 1]);
  }

  lemma RefusedLast(cands: seq<Candidate>, ds: seq<Demand>, before: map<string, int>, limits: map<string, int>,
                    claimable: Demand -> bool, front: seq<Decision>, last: Decision, whole: seq<Decision>)
    requires Decided(cands, ds, before, limits, claimable, front) && NoneOf(front, last.group) && !last.accepted
    requires whole == front + [last]
    ensures NoTrace(cands, ds, before, limits, claimable, whole, |front|)
  {
    assert Rest(whole, |front|) == front;
    OthersStayRight(cands, ds, before, limits, claimable, front, last.group);
    TotalsNext(cands, ds, front, last);
  }

  ghost predicate NoTrace(cands: seq<Candidate>, ds: seq<Demand>, before: map<string, int>, limits: map<string, int>,
                          claimable: Demand -> bool, decisions: seq<Decision>, g: nat)
    requires g < |decisions|
  {
    var others := Without(ds, decisions[g].group);
    && Decided(cands, others, before, limits, claimable, Rest(decisions, g))
    && Reserved(cands, Rest(decisions, g)) == Reserved(cands, decisions)
    && Ordered(others, Rest(decisions, g)) == Ordered(ds, decisions)
  }

  /** A decision that is right after some others is right after any that come to the same. */
  lemma DecidedWithout(
    cands: seq<Candidate>, ds: seq<Demand>, others: seq<Demand>, before: map<string, int>, limits: map<string, int>,
    claimable: Demand -> bool, front: seq<Decision>, rest: seq<Decision>, last: Decision, whole: seq<Decision>)
    requires whole == front + [last] && DemandsOf(others, last.group) == DemandsOf(ds, last.group)
    requires Decided(cands, ds, before, limits, claimable, whole)
    requires Decided(cands, others, before, limits, claimable, rest)
    requires Reserved(cands, rest) == Reserved(cands, front) && Ordered(others, rest) == Ordered(ds, front)
    ensures Decided(cands, others, before, limits, claimable, rest + [last])
  {
    assert whole[..|front|] == front && (rest + [last])[..|rest|] == rest;
    assert UnitsOf(others, last) == UnitsOf(ds, last);
  }

  lemma RestNext(front: seq<Decision>, last: Decision, g: nat)
    requires g < |front|
    ensures Rest(front + [last], g) == Rest(front, g) + [last] && (front + [last])[g] == front[g]
  {
    assert (front + [last])[..g] == front[..g] && (front + [last])[g + 1..] == front[g + 1..] + [last];
  }

  /** One more decision, on a later group. */
  lemma NoTraceNext(cands: seq<Candidate>, ds: seq<Demand>, before: map<string, int>, limits: map<string, int>,
                    claimable: Demand -> bool, front: seq<Decision>, last: Decision, whole: seq<Decision>, g: nat)
    requires g < |front| && last.group != front[g].group && whole == front + [last]
    requires Decided(cands, ds, before, limits, claimable, whole)
    requires NoTrace(cands, ds, before, limits, claimable, front, g)
    ensures NoTrace(cands, ds, before, limits, claimable, whole, g)
  {
    var others := Without(ds, front[g].group);
    RestNext(front, last, g);
    OthersKeepDemands(ds, front[g].group, last.group);
    DecidedWithout(cands, ds, others, before, limits, claimable, front, Rest(front, g), last, whole);
    TotalsNext(cands, others, Rest(front, g), last);
    TotalsNext(cands, ds, front, last);
  }

  // ---- Only one plan is right ----

  ghost predicate DistinctNames(cands: seq<Candidate>) {
    forall i, j :: 0 <= i < j < |cands| ==> cands[i].name != cands[j].name
  }

  lemma OneGoodPick(cands: seq<Candidate>, taken: set<string>, d: Demand, a: Option<nat>, b: Option<nat>)
    requires DistinctNames(cands) && GoodPick(cands, taken, d, a) && GoodPick(cands, taken, d, b)
    ensures a == b
  {
    if a.Some? && b.Some? {
      BeforeAsymmetric(cands[a.value].name, cands[b.value].name);
    }
  }

  lemma OnePickAt(cands: seq<Candidate>, used: set<string>, units: seq<Demand>,
                  a: seq<Option<nat>>, b: seq<Option<nat>>, u: nat)
    requires DistinctNames(cands) && GoodPicks(cands, used, units, a) && GoodPicks(cands, used, units, b)
    requires u < |units| && a[..u] == b[..u]
    ensures a[u] == b[u]
  {
    var taken := used + NamesOf(cands, a[..u]);
    assert GoodPick(cands, taken, units[u], a[u]) && GoodPick(cands, taken, units[u], b[u]);
    OneGoodPick(cands, taken, units[u], a[u], b[u]);
  }

  lemma {:induction false} SameByPrefix<T>(a: seq<T>, b: seq<T>, n: nat)
    requires n <= |a| == |b| && forall u :: 0 <= u < |a| && a[..u] == b[..u] ==> a[u] == b[u]
    ensures a[..n] == b[..n]
  {
    if n > 0 {
      SameByPrefix(a, b, n - 1);
    }
  }

  lemma OneGoodPicks(cands: seq<Candidate>, used: set<string>, units: seq<Demand>,
                     a: seq<Option<nat>>, b: seq<Option<nat>>)
    requires DistinctNames(cands) && GoodPicks(cands, used, units, a) && GoodPicks(cands, used, units, b)
    ensures a == b
  {
    forall u | 0 <= u < |a| && a[..u] == b[..u] ensures a[u] == b[u] {
      OnePickAt(cands, used, units, a, b, u);
    }
    SameByPrefix(a, b, |a|);
    assert a[..|a|] == a && b[..|a|] == b;
  }

  lemma OneRightDecision(
    cands: seq<Candidate>, ds: seq<Demand>, before: map<string, int>, limits: map<string, int>,
    claimable: Demand -> bool, used: set<string>, already: seq<Demand>, a: Decision, b: Decision)
    requires DistinctNames(cands) && a.group == b.group
    requires RightDecision(cands, ds, before, limits, claimable, used, already, a)
    requires RightDecision(cands, ds, before, limits, claimable, used, already, b)
    ensures a == b
  {
    OneGoodPicks(cands, used, UnitsOf(ds, a), a.picks, b.picks);
  }

  /** When candidates have different names, the groups decided and their order leave one right plan. */
  lemma OnePlan(cands: seq<Candidate>, ds: seq<Demand>, before: map<string, int>, limits: map<string, int>,
                claimable: Demand -> bool, a: seq<Decision>, b: seq<Decision>)
    requires DistinctNames(cands) && |a| == |b| && forall g :: 0 <= g < |a| ==> a[g].group == b[g].group
    requires Decided(cands, ds, before, limits, claimable, a) && Decided(cands, ds, before, limits, claimable, b)
    ensures a == b
  {
    forall g | 0 <= g < |a| && a[..g] == b[..g] ensures a[g] == b[g] {
      DecidedAt(cands, ds, before, limits, claimable, a, g);
      DecidedAt(cands, ds, before, limits, claimable, b, g);
      OneRightDecision(cands, ds, before, limits, claimable, Reserved(cands, a[..g]), Ordered(ds, a[..g]), a[g], b[g]);
    }
    SameByPrefix(a, b, |a|);
    assert a[..|a|] == a && b[..|a|] == b;
  }

  // ---- What an accepted group gets ----

  /** Where the new worker for unit u of decision g stands among all new workers. */
  function Place(ds: seq<Demand>, decisions: seq<Decision>, g: nat, u: nat): nat
    requires g < |decisions| && u <= |UnitsOf(ds, decisions[g])| == |decisions[g].picks|
  {
    |Ordered(ds, decisions[..g])| + |CreatesOf(UnitsOf(ds, decisions[g])[..u], decisions[g].picks[..u])|
  }

  /** An accepted group is served in full: every unit has a fitting free worker of its pool or a new one. */
  lemma AcceptedInFull(cands: seq<Candidate>, ds: seq<Demand>, before: map<string, int>, limits: map<string, int>,
                       claimable: Demand -> bool, decisions: seq<Decision>, g: nat, u: nat)
    requires Decided(cands, ds, before, limits, claimable, decisions) && g < |decisions| && decisions[g].accepted
    requires u < |UnitsOf(ds, decisions[g])|
    ensures |decisions[g].picks| == |UnitsOf(ds, decisions[g])|
    ensures if decisions[g].picks[u].Some? then ServedByCandidate(cands, ds, decisions, g, u)
            else ServedByNew(ds, decisions, g, u)
  {
    DecidedAt(cands, ds, before, limits, claimable, decisions, g);
    if decisions[g].picks[u].Some? {
      CandidateServes(cands, ds, decisions, Reserved(cands, decisions[..g]), g, u);
    } else {
      NewWorkerServes(ds, decisions, g, u);
    }
  }

  /** The unit has a candidate of its pool that fits it and is reserved. */
  ghost predicate ServedByCandidate(cands: seq<Candidate>, ds: seq<Demand>, decisions: seq<Decision>, g: nat, u: nat)
    requires g < |decisions| && u < |UnitsOf(ds, decisions[g])| == |decisions[g].picks|
    requires decisions[g].picks[u].Some?
  {
    var unit, best := UnitsOf(ds, decisions[g])[u], decisions[g].picks[u].value;
    && best < |cands| && cands[best].pool == unit.pool && ShapeFits(cands[best].shape, unit.shape)
    && cands[best].name in Reserved(cands, decisions)
  }

  /** The unit has a new worker of its own place. */
  ghost predicate ServedByNew(ds: seq<Demand>, decisions: seq<Decision>, g: nat, u: nat)
    requires g < |decisions| && u < |UnitsOf(ds, decisions[g])| == |decisions[g].picks|
  {
    && Place(ds, decisions, g, u) < |Ordered(ds, decisions)|
    && Ordered(ds, decisions)[Place(ds, decisions, g, u)] == UnitsOf(ds, decisions[g])[u]
  }

  lemma CandidateServes(cands: seq<Candidate>, ds: seq<Demand>, decisions: seq<Decision>, used: set<string>,
                        g: nat, u: nat)
    requires g < |decisions| && decisions[g].accepted
    requires GoodPicks(cands, used, UnitsOf(ds, decisions[g]), decisions[g].picks)
    requires u < |decisions[g].picks| && decisions[g].picks[u].Some?
    ensures ServedByCandidate(cands, ds, decisions, g, u)
  {
    var units, picks := UnitsOf(ds, decisions[g]), decisions[g].picks;
    assert GoodPick(cands, used + NamesOf(cands, picks[..u]), units[u], picks[u]);
    NamesHave(cands, picks, u);
    assert decisions[..|decisions|] == decisions;
    ReservedGrows(cands, decisions, g, |decisions|);
  }

  lemma NewWorkerServes(ds: seq<Demand>, decisions: seq<Decision>, g: nat, u: nat)
    requires g < |decisions| && decisions[g].accepted
    requires u < |UnitsOf(ds, decisions[g])| == |decisions[g].picks| && decisions[g].picks[u].None?
    ensures ServedByNew(ds, decisions, g, u)
  {
    var units, picks := UnitsOf(ds, decisions[g]), decisions[g].picks;
    CreatesAt(units, picks, u);
    OrderedAt(ds, decisions, g, |CreatesOf(units[..u], picks[..u])|);
  }

  /** No new worker serves two units: later units have later places. */
  lemma NoNewWorkerTwice(ds: seq<Demand>, decisions: seq<Decision>, g: nat, u: nat, h: nat, v: nat)
    requires g < |decisions| && h < |decisions| && decisions[g].accepted && decisions[h].accepted
    requires u < |UnitsOf(ds, decisions[g])| == |decisions[g].picks| && decisions[g].picks[u].None?
    requires v < |UnitsOf(ds, decisions[h])| == |decisions[h].picks| && decisions[h].picks[v].None?
    requires g < h || (g == h && u < v)
    ensures Place(ds, decisions, g, u) < Place(ds, decisions, h, v)
  {
    var units, picks := UnitsOf(ds, decisions[g]), decisions[g].picks;
    if g == h {
      assert units[..v][..u] == units[..u] && picks[..v][..u] == picks[..u];
      CreatesAt(units[..v], picks[..v], u);
    } else {
      assert decisions[..h][..g] == decisions[..g];
      CreatesAt(units, picks, u);
      OrderedAt(ds, decisions[..h], g, |CreatesOf(units[..u], picks[..u])|);
    }
  }

  /** And none is idle: each has the place of a unit without a candidate. */
  lemma {:induction false} EveryNewWorkerServes(ds: seq<Demand>, decisions: seq<Decision>, i: nat)
    returns (g: nat, u: nat)
    requires i < |Ordered(ds, decisions)|
    requires forall d :: 0 <= d < |decisions| ==> |UnitsOf(ds, decisions[d])| == |decisions[d].picks|
    ensures g < |decisions| && decisions[g].accepted && u < |decisions[g].picks| && decisions[g].picks[u].None?
    ensures Place(ds, decisions, g, u) == i
  {
    var n := |decisions| - 1;
    var front := Ordered(ds, decisions[..n]);
    if i < |front| {
      g, u := EveryNewWorkerServes(ds, decisions[..n], i);
      assert decisions[..n][..g] == decisions[..g];
    } else {
      g := n;
      u := CreatedFor(UnitsOf(ds, decisions[n]), decisions[n].picks, i - |front|);
    }
  }

  /** Every device count asked for is at least one, as the demands that are read from Slurm have it. */
  predicate Positive(d: Demand) {
    forall name :: name in d.shape.gres ==> d.shape.gres[name] >= 1
  }

  lemma {:induction false} RepeatedAt(d: Demand, n: nat, u: nat)
    requires u < n
    ensures Repeat(d, n)[u] == d
  {
    if u < n - 1 {
      RepeatedAt(d, n - 1, u);
    }
  }

  lemma {:induction false} UnitsArePositive(ds: seq<Demand>, u: nat)
    requires u < |Units(ds)| && forall i :: 0 <= i < |ds| ==> Positive(ds[i])
    ensures Positive(Units(ds)[u])
  {
    var n := |ds| - 1;
    if u < |Units(ds[..n])| {
      UnitsArePositive(ds[..n], u);
    } else {
      RepeatedAt(Unit(ds[n]), ds[n].count, u - |Units(ds[..n])|);
    }
  }

  lemma {:induction false} DemandsArePositive(ds: seq<Demand>, group: nat)
    requires forall i :: 0 <= i < |ds| ==> Positive(ds[i])
    ensures forall i :: 0 <= i < |DemandsOf(ds, group)| ==> Positive(DemandsOf(ds, group)[i])
  {
    if ds != [] {
      DemandsArePositive(ds[..|ds| - 1], group);
    }
  }

  /** A worker that is put to use has exactly the devices asked for. */
  lemma ReusedDevicesMatch(cands: seq<Candidate>, ds: seq<Demand>, before: map<string, int>, limits: map<string, int>,
                           claimable: Demand -> bool, decisions: seq<Decision>, g: nat, u: nat)
    requires Decided(cands, ds, before, limits, claimable, decisions) && g < |decisions| && decisions[g].accepted
    requires forall i :: 0 <= i < |ds| ==> Positive(ds[i])
    requires u < |UnitsOf(ds, decisions[g])| == |decisions[g].picks| && decisions[g].picks[u].Some?
    ensures decisions[g].picks[u].value < |cands|
    ensures cands[decisions[g].picks[u].value].shape.gres == UnitsOf(ds, decisions[g])[u].shape.gres
  {
    AcceptedInFull(cands, ds, before, limits, claimable, decisions, g, u);
    DemandsArePositive(ds, decisions[g].group);
    UnitsArePositive(DemandsOf(ds, decisions[g].group), u);
    DevicesMatchExactly(cands[decisions[g].picks[u].value].shape, UnitsOf(ds, decisions[g])[u].shape);
  }

  lemma {:induction false} CreatesAt(units: seq<Demand>, picks: seq<Option<nat>>, u: nat)
    requires |units| == |picks| && u < |picks| && picks[u].None?
    ensures |CreatesOf(units[..u], picks[..u])| < |CreatesOf(units, picks)|
    ensures CreatesOf(units, picks)[|CreatesOf(units[..u], picks[..u])|] == units[u]
  {
    var n := |picks| - 1;
    if u < n {
      assert units[..n][..u] == units[..u] && picks[..n][..u] == picks[..u];
      CreatesAt(units[..n], picks[..n], u);
    }
  }

  lemma {:induction false} CreatedFor(units: seq<Demand>, picks: seq<Option<nat>>, i: nat) returns (u: nat)
    requires |units| == |picks| && i < |CreatesOf(units, picks)|
    ensures u < |picks| && picks[u].None? && |CreatesOf(units[..u], picks[..u])| == i
  {
    var n := |picks| - 1;
    if i < |CreatesOf(units[..n], picks[..n])| {
      u := CreatedFor(units[..n], picks[..n], i);
      assert units[..n][..u] == units[..u] && picks[..n][..u] == picks[..u];
    } else {
      u := n;
    }
  }

  lemma {:induction false} OrderedAt(ds: seq<Demand>, decisions: seq<Decision>, g: nat, i: nat)
    requires g < |decisions| && decisions[g].accepted && i < |Creates(ds, decisions[g])|
    ensures |Ordered(ds, decisions[..g])| + i < |Ordered(ds, decisions)|
    ensures Ordered(ds, decisions)[|Ordered(ds, decisions[..g])| + i] == Creates(ds, decisions[g])[i]
  {
    var n := |decisions| - 1;
    if g < n {
      assert decisions[..n][..g] == decisions[..g];
      OrderedAt(ds, decisions[..n], g, i);
    }
  }
}
