/**
 * Finding the newest usable checkpoint of a run: list the markers, sort the steps, and take the
 * first that loads, is compatible and verifies in full. The store may grow between any two remote
 * calls, and any call may be lost.
 */
module Latest {
  import opened Bags
  import opened ObjectKeys
  import opened Sorting
  import opened CommitMachine
  import CM = CheckpointManifest

  const MAX_LISTED := 10000

  datatype Result = Found(step: u64, manifest: CM.Manifest) | TooMany | NotFound

  /** The store at each remote call, and whether the call is lost. */
  datatype Remote = Remote(view: nat -> Store, lost: nat -> bool)

  ghost predicate Growing(remote: Remote) {
    forall i, j :: i <= j ==> Grows(remote.view(i), remote.view(j))
  }

  // ---- Which steps a listing yields ----

  predicate Below(step: u64, before: Option<u64>) {
    before.Some? ==> step < before.value
  }

  /** The steps of the listed markers below the bound, in listing order. */
  function Listed(run: string, names: seq<string>, before: Option<u64>): seq<u64> {
    if names == [] then []
    else
      var front := Listed(run, names[..|names| - 1], before);
      var step := ListedStep(run, names[|names| - 1]);
      if step.Some? && Below(step.value, before) then front + [step.value] else front
  }

  /** Exactly the steps that some name stands for, and that are less than the bound if there is one. */
  lemma {:induction false} ListedHas(run: string, names: seq<string>, before: Option<u64>, step: u64)
    ensures step in Listed(run, names, before) <==>
      && (before.Some? ==> step < before.value)
      && exists i :: 0 <= i < |names| && ListedStep(run, names[i]) == Some(step)
  {
    if names != [] {
      var front, last := names[..|names| - 1], |names| - 1;
      ListedHas(run, front, before, step);
      assert forall i :: 0 <= i < last ==> front[i] == names[i];
    }
  }

  lemma {:induction false} ListedGrows(run: string, names: seq<string>, n: nat, before: Option<u64>)
    requires n <= |names|
    ensures |Listed(run, names[..n], before)| <= |Listed(run, names, before)|
  {
    if n < |names| {
      var front := names[..|names| - 1];
      assert front[..n] == names[..n];
      ListedGrows(run, front, n, before);
    } else {
      assert names[..n] == names;
    }
  }

  method List(run: string, names: seq<string>, before: Option<u64>) returns (steps: seq<u64>, tooMany: bool)
    ensures tooMany <==> |Listed(run, names, before)| > 10000
    ensures !tooMany ==> steps == Listed(run, names, before)
  {
    steps := [];
    for i := 0 to |names|
      invariant steps == Listed(run, names[..i], before) && |steps| <= MAX_LISTED
    {
      assert names[..i + 1][..i] == names[..i];
      var step := ListedStep(run, names[i]);
      if step.Some? && Below(step.value, before) {
        steps := steps + [step.value];
        if |steps| > MAX_LISTED {
          ListedGrows(run, names, i + 1, before);
          return steps, true;
        }
      }
    }
    assert names[..|names|] == names;
    tooMany := false;
  }

  /** Greatest first. */
  predicate AtLeast(a: u64, b: u64) { a >= b }

  ghost predicate Descending(s: seq<u64>) {
    forall i, j :: 0 <= i < j < |s| ==> s[i] >= s[j]
  }

  method SortDescending(steps: seq<u64>) returns (sorted: seq<u64>)
    ensures Descending(sorted) && multiset(sorted) == multiset(steps) && forall x :: x in sorted <==> x in steps
  {
    sorted := Sort(AtLeast, steps);
    SortOrders(AtLeast, steps);
    forall x ensures x in sorted <==> x in steps {
      SortHas(AtLeast, steps, x);
    }
  }

  // ---- Which checkpoints may be resumed ----

  /** The checkpoint loads, suits the caller, and all its objects verify. */
  ghost predicate Usable(f: Formats, store: Store, run: string, step: u64, want: CM.Compatibility) {
    Complete(f, store, run, step) && CM.Compatible(LoadCommitted(f, store, run, step).value, want)
  }

  /** The step has a marker and the manifest that goes with it, everything that manifest names is stored, and it
      suits the caller. */
  ghost predicate Resumable(f: Formats, store: Store, run: string, step: u64, want: CM.Compatibility, m: CM.Manifest) {
    Marks(f, store, run, step, m) && Backed(f, store, run, step, m) && CM.Compatible(m, want)
  }

  /** That is what usable means. */
  lemma UsableExactly(f: Formats, store: Store, run: string, step: u64, want: CM.Compatibility, m: CM.Manifest)
    ensures Resumable(f, store, run, step, want, m) <==>
      Usable(f, store, run, step, want) && LoadCommitted(f, store, run, step) == Some(m)
  {
    LoadsExactly(f, store, run, step, m);
    BackedExactly(f, store, run, step, m);
  }

  /** The objects of a manifest in some visiting order. */
  ghost predicate Enumerates(objects: CM.Manifest -> seq<CM.Object>) {
    forall m, o :: CM.Lists(m, o) <==> o in objects(m)
  }

  /** The inner loop of `latest`: every object verified, or the first that is not ends it. */
  method VerifyAll(f: Formats, remote: Remote, t: nat, run: string, step: u64, objects: seq<CM.Object>)
    returns (valid: bool, next: nat)
    requires Growing(remote)
    ensures t <= next
    ensures valid ==> forall i :: 0 <= i < |objects| ==> Verified(f, remote.view(next), run, step, objects[i])
    ensures !valid ==>
      || (exists i :: t <= i < next && remote.lost(i))
      || (exists i :: 0 <= i < |objects| && !Verified(f, remote.view(t), run, step, objects[i]))
  {
    next := t;
    for i := 0 to |objects|
      invariant t <= next
      invariant forall k :: 0 <= k < i ==> Verified(f, remote.view(next), run, step, objects[k])
    {
      var now := next;
      next := next + 1;
      if remote.lost(now) {
        return false, next;
      }
      if !Verified(f, remote.view(now), run, step, objects[i]) {
        NotVerifiedBefore(f, remote, t, now, run, step, objects[i]);
        return false, next;
      }
      forall k | 0 <= k <= i ensures Verified(f, remote.view(next), run, step, objects[k]) {
        VerifiedStable(f, remote.view(now), remote.view(next), run, step, objects[k]);
      }
    }
    valid := true;
  }

  lemma NotVerifiedBefore(f: Formats, remote: Remote, t: nat, now: nat, run: string, step: u64, o: CM.Object)
    requires Growing(remote) && t <= now && !Verified(f, remote.view(now), run, step, o)
    ensures !Verified(f, remote.view(t), run, step, o)
  {
    if Verified(f, remote.view(t), run, step, o) {
      VerifiedStable(f, remote.view(t), remote.view(now), run, step, o);
    }
  }

  /** One candidate: load it, compare it, verify its objects. */
  method Try(f: Formats, remote: Remote, t: nat, run: string, step: u64, want: CM.Compatibility,
             objects: CM.Manifest -> seq<CM.Object>)
    returns (m: Option<CM.Manifest>, next: nat)
    requires Growing(remote) && Enumerates(objects)
    ensures t < next
    ensures m.Some? ==> Usable(f, remote.view(next), run, step, want)
                        && LoadCommitted(f, remote.view(next), run, step) == m
    ensures m.None? ==> (exists i :: t <= i < next && remote.lost(i)) || !Usable(f, remote.view(t), run, step, want)
  {
    next := t + 1;
    if remote.lost(t) {
      return None, next;
    }
    m := LoadCommitted(f, remote.view(t), run, step);
    var suits := false;
    if m.Some? {
      suits := CM.CheckCompatible(m.value, want);
    }
    if !suits {
      return None, next;
    }
    LoadStable(f, remote.view(t), remote.view(next), run, step);
    var valid, after := VerifyAll(f, remote, next, run, step, objects(m.value));
    if !valid {
      NotUsable(f, remote, t, next, after, run, step, want, objects);
      return None, after;
    }
    LoadStable(f, remote.view(t), remote.view(after), run, step);
    return m, after;
  }

  /** An object that does not verify at a later call did not verify at the first. */
  lemma NotUsable(f: Formats, remote: Remote, t: nat, next: nat, after: nat, run: string, step: u64,
                  want: CM.Compatibility, objects: CM.Manifest -> seq<CM.Object>)
    requires Growing(remote) && Enumerates(objects) && t <= next <= after
    requires LoadCommitted(f, remote.view(t), run, step).Some?
    requires var list := objects(LoadCommitted(f, remote.view(t), run, step).value);
      || (exists i :: next <= i < after && remote.lost(i))
      || (exists i :: 0 <= i < |list| && !Verified(f, remote.view(next), run, step, list[i]))
    ensures (exists i :: t <= i < after && remote.lost(i)) || !Usable(f, remote.view(t), run, step, want)
  {
    var m := LoadCommitted(f, remote.view(t), run, step).value;
    if i :| 0 <= i < |objects(m)| && !Verified(f, remote.view(next), run, step, objects(m)[i]) {
      NotVerifiedBefore(f, remote, t, next, run, step, objects(m)[i]);
      assert CM.Lists(m, objects(m)[i]);
    }
  }

  /** A call was lost before call n. */
  ghost predicate AnyLost(remote: Remote, n: nat) {
    exists i :: 0 <= i < n && remote.lost(i)
  }

  lemma NotUsableAtFirst(f: Formats, remote: Remote, t: nat, run: string, step: u64, want: CM.Compatibility)
    requires Growing(remote) && !Usable(f, remote.view(t), run, step, want)
    ensures !Usable(f, remote.view(0), run, step, want)
  {
    if Usable(f, remote.view(0), run, step, want) {
      CompleteStable(f, remote.view(0), remote.view(t), run, step);
    }
  }

  /** No step of the list is usable. */
  ghost predicate NoneUsable(f: Formats, store: Store, run: string, steps: seq<u64>, want: CM.Compatibility) {
    forall k :: 0 <= k < |steps| ==> !Usable(f, store, run, steps[k], want)
  }

  /** The scan of the sorted steps: the first that passes, none before it having been usable. */
  method Scan(f: Formats, remote: Remote, run: string, sorted: seq<u64>, want: CM.Compatibility,
              objects: CM.Manifest -> seq<CM.Object>)
    returns (k: nat, m: Option<CM.Manifest>, calls: nat)
    requires Growing(remote) && Enumerates(objects)
    ensures k <= |sorted| && (m.None? ==> k == |sorted|)
    ensures m.Some? ==> k < |sorted| && Usable(f, remote.view(calls), run, sorted[k], want)
                        && LoadCommitted(f, remote.view(calls), run, sorted[k]) == m
    ensures !AnyLost(remote, calls) ==> NoneUsable(f, remote.view(0), run, sorted[..k], want)
  {
    calls, m := 0, None;
    for i := 0 to |sorted|
      invariant m.None? && (!AnyLost(remote, calls) ==> NoneUsable(f, remote.view(0), run, sorted[..i], want))
    {
      var start := calls;
      m, calls := Try(f, remote, start, run, sorted[i], want, objects);
      assert AnyLost(remote, start) ==> AnyLost(remote, calls);
      if m.Some? {
        return i, m, calls;
      }
      if !AnyLost(remote, calls) {
        NotUsableAtFirst(f, remote, start, run, sorted[i], want);
      }
    }
    k := |sorted|;
  }

  lemma NotAmong(f: Formats, store: Store, run: string, steps: seq<u64>, want: CM.Compatibility, step: u64)
    requires NoneUsable(f, store, run, steps, want) && Usable(f, store, run, step, want)
    ensures step !in steps
  {
  }

  lemma FirstIsGreatest(sorted: seq<u64>, k: nat, step: u64)
    requires Descending(sorted) && k <= |sorted| && step in sorted && step !in sorted[..k]
    ensures k < |sorted| && step <= sorted[k]
  {
    assert forall j :: 0 <= j < k ==> sorted[j] in sorted[..k];
  }

  /** `latest`. What it returns is listed, below the bound, and can be resumed then and later. Unless a call was
      lost, no greater listed step could be resumed when it began, and finding nothing means none could. */
  method FindLatest(f: Formats, remote: Remote, run: string, names: seq<string>, want: CM.Compatibility,
                    before: Option<u64>, objects: CM.Manifest -> seq<CM.Object>)
    returns (r: Result, calls: nat)
    requires Growing(remote) && Enumerates(objects)
    ensures r.TooMany? <==> |Listed(run, names, before)| > 10000
    ensures r.Found? ==>
      && (before.Some? ==> r.step < before.value)
      && (exists i :: 0 <= i < |names| && ListedStep(run, names[i]) == Some(r.step))
      && Resumable(f, remote.view(calls), run, r.step, want, r.manifest)
    ensures !r.TooMany? && !AnyLost(remote, calls) ==>
      forall step, m :: step in Listed(run, names, before) && Resumable(f, remote.view(0), run, step, want, m) ==>
        r.Found? && step <= r.step
  {
    var steps, tooMany := List(run, names, before);
    if tooMany {
      return TooMany, 0;
    }
    var sorted := SortDescending(steps);
    var k, m;
    k, m, calls := Scan(f, remote, run, sorted, want, objects);
    r := if m.Some? then Found(sorted[k], m.value) else NotFound;
    if m.Some? {
      assert sorted[k] in steps;
      ListedHas(run, names, before, sorted[k]);
      UsableExactly(f, remote.view(calls), run, sorted[k], want, m.value);
    }
    if !AnyLost(remote, calls) {
      forall step, m' | step in steps && Resumable(f, remote.view(0), run, step, want, m')
        ensures r.Found? && step <= r.step
      {
        UsableExactly(f, remote.view(0), run, step, want, m');
        NotAmong(f, remote.view(0), run, sorted[..k], want, step);
        FirstIsGreatest(sorted, k, step);
      }
    }
  }

  // ---- After a commit ----

  /** A listing returns at least the names of the run that were there when it began. */
  ghost predicate Covers(store: Store, run: string, names: seq<string>) {
    forall k :: k in store && HasPrefix(Name(k), RunPrefix(run)) ==> Name(k) in names
  }

  /** A committed step below the bound is found by any such listing. */
  lemma CommitsAreListed(store: Store, run: string, names: seq<string>, before: Option<u64>, step: u64)
    requires '/' !in run && Covers(store, run, names) && MarkerAt(run, step) in store
    requires before.Some? ==> step < before.value
    ensures step in Listed(run, names, before)
  {
    ListingIsExact(run, MarkerAt(run, step), step);
    MarkerHasPrefix(run, step);
    assert Name(MarkerAt(run, step)) in names;
    ListedHas(run, names, before, step);
  }

  /** The names a listing returns of a store that does not change meanwhile. */
  ghost predicate Lists(store: Store, run: string, names: seq<string>) {
    forall name :: name in names <==> HasPrefix(name, RunPrefix(run)) && exists k :: k in store && Name(k) == name
  }

  /** A listing of such a store finds exactly the committed steps of the run. */
  lemma ListingFindsCommits(f: Formats, store: Store, run: string, names: seq<string>, before: Option<u64>, step: u64)
    requires '/' !in run && StoreOk(f, store) && Lists(store, run, names)
    ensures step in Listed(run, names, before) <==>
      (before.Some? ==> step < before.value) && MarkerAt(run, step) in store
  {
    if (before.Some? ==> step < before.value) && MarkerAt(run, step) in store {
      CommitsAreListed(store, run, names, before, step);
    }
    ListedHas(run, names, before, step);
    if i :| 0 <= i < |names| && ListedStep(run, names[i]) == Some(step) {
      assert names[i] in names;
      var k :| k in store && Name(k) == names[i];
      ListingIsExact(run, k, step);
    }
  }

  lemma MarkerHasPrefix(run: string, step: u64)
    ensures HasPrefix(MarkerKey(run, step), RunPrefix(run))
  {
    var key := MarkerKey(run, step);
    assert key == RunPrefix(run) + ("step_" + Padded(step) + SUFFIX);
  }

  /** After a commit has returned, `latest` without a bound, for a compatible caller and a run of at
      most ten thousand markers, returns that step or a greater one, unless a call is lost: whatever
      other flushers do before it begins and while it runs, and whichever of their new names its listing
      happens to include. */
  method LatestAfterCommit(f: Formats, remote: Remote, names: seq<string>, want: CM.Compatibility,
                           objects: CM.Manifest -> seq<CM.Object>,
                           ghost trace: seq<System>, ghost actions: seq<Action>, ghost i: nat, ghost j: nat, c: Commit)
    returns (r: Result, calls: nat)
    requires Sound(f) && Run(f, trace, actions) && i <= j <= |actions| && Committed(c) in trace[i].returned
    requires Growing(remote) && Enumerates(objects) && remote.view(0) == trace[j].store
    requires Covers(remote.view(0), c.manifest.runId, names) && CM.Compatible(c.manifest, want)
    ensures |Listed(c.manifest.runId, names, None)| <= 10000 && !AnyLost(remote, calls) ==>
      r.Found? && c.manifest.globalStep <= r.step
  {
    r, calls := FindLatest(f, remote, c.manifest.runId, names, want, None, objects);
    CommitIsListed(f, trace, actions, i, j, c, names);
    UsableExactly(f, remote.view(0), c.manifest.runId, c.manifest.globalStep, want, c.manifest);
  }

  lemma CommitIsListed(f: Formats, trace: seq<System>, actions: seq<Action>, i: nat, j: nat, c: Commit,
                       names: seq<string>)
    requires Sound(f) && Run(f, trace, actions) && i <= j <= |actions| && Committed(c) in trace[i].returned
    requires Covers(trace[j].store, c.manifest.runId, names)
    ensures Complete(f, trace[j].store, c.manifest.runId, c.manifest.globalStep)
    ensures LoadCommitted(f, trace[j].store, c.manifest.runId, c.manifest.globalStep) == Some(c.manifest)
    ensures c.manifest.globalStep in Listed(c.manifest.runId, names, None)
  {
    CommittedForever(f, trace, actions, i, j, c);
    RunInv(f, trace, actions, j);
    CommitsAreListed(trace[j].store, c.manifest.runId, names, None, c.manifest.globalStep);
  }
}
