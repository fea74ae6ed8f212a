/**
 * The device plugin as the source writes it: a table in memory and files on disk, changed together
 * by batches of requests, each of which may fail to reach the disk or be cut off by a crash.
 */
module DraPlugin {
  import opened Bags
  import opened ClaimTable

  /** What becomes of one file operation: done, failed without effect, or the process ends before or after it. */
  datatype Fate = Done | Fails | DiesBefore | DiesAfter

  /** What the API server says of a prepared claim. */
  datatype View = Missing | Unreadable | Found(uid: string, bound: bool, results: seq<Allocation>)

  datatype Operation =
    | Prepare(claims: seq<Claim>, fate: nat -> Fate)
    | Unprepare(uids: seq<string>, fate: nat -> Fate)
    | Recover(view: string -> View, fate: nat -> Fate)
    | Restart

  predicate Dies(fate: Fate) { fate.DiesBefore? || fate.DiesAfter? }

  /** Nothing that was there has changed or gone. */
  ghost predicate Kept(t: Table, next: Table) {
    forall uid :: uid in t ==> uid in next && next[uid] == t[uid]
  }

  /** What remains is unchanged. */
  ghost predicate Shrunk(t: Table, next: Table) {
    forall uid :: uid in next ==> uid in t && t[uid] == next[uid]
  }

  lemma ShrinkingKeeps(c: Config, t: Table, next: Table)
    requires TableOk(c, t) && Shrunk(t, next)
    ensures TableOk(c, next)
  {
    forall a, b | a in next && b in next && a != b ensures Apart(next[a], next[b]) {
      assert Apart(t[a], t[b]);
    }
  }

  class Plugin {
    const c: Config
    var prepared: Table
    var disk: Table

    /** What is on disk is sound. */
    ghost predicate DiskOk()
      reads this
    {
      TableOk(c, disk)
    }

    /** Between operations the table in memory is what is on disk. */
    ghost predicate Valid()
      reads this
    {
      DiskOk() && prepared == disk
    }

    constructor (c: Config)
      ensures this.c == c && Valid() && disk == map[]
    {
      this.c, prepared, disk := c, map[], map[];
    }

    /** Write a record to its file, then to the table in memory. */
    method FileRecord(uid: string, r: Record, fate: Fate) returns (alive: bool, written: bool)
      requires Valid() && TableOk(c, disk[uid := r]) && (uid in disk ==> disk[uid] == r)
      modifies this
      ensures Kept(old(disk), disk) && if alive then Valid() else DiskOk()
      ensures forall other :: other in disk ==> other in old(disk) || other == uid
      ensures alive <==> !Dies(fate)
      ensures alive ==> (written <==> fate.Done?)
      ensures alive ==> prepared == if written then old(prepared)[uid := r] else old(prepared)
    {
      if fate.Fails? {
        return true, false;
      }
      if fate.DiesBefore? {
        return false, false;
      }
      disk := disk[uid := r];
      if fate.DiesAfter? {
        return false, false;
      }
      prepared := prepared[uid := r];
      return true, true;
    }

    /** One claim of a batch: decide, write the file, then file the record in memory. It is granted
        exactly when it can be prepared and its file was written; otherwise nothing changes. */
    method PrepareOne(claim: Claim, fate: Fate) returns (alive: bool, granted: bool)
      requires Valid()
      modifies this
      ensures Kept(old(disk), disk) && if alive then Valid() else DiskOk()
      ensures forall uid :: uid in disk ==> uid in old(disk) || uid == claim.uid
      ensures !alive ==> Dies(fate)
      ensures alive ==> (granted <==> Granted(c, old(prepared), claim, fate))
      ensures alive ==> prepared == Filled(c, old(prepared), claim, fate)
    {
      var r := PrepareRecord(c, prepared, claim);
      if r.None? {
        return true, false;
      }
      FilingKeepsTable(c, disk, claim, r.value);
      FilledWith(c, prepared, claim, fate, r.value);
      alive, granted := FileRecord(claim.uid, r.value, fate);
    }

    /** `PrepareResourceClaims`: each claim of the batch in turn, against the table the earlier ones left. */
    method PrepareResourceClaims(claims: seq<Claim>, fate: nat -> Fate) returns (alive: bool, result: map<string, bool>)
      requires Valid()
      modifies this
      ensures Kept(old(disk), disk) && if alive then Valid() else DiskOk()
      ensures OnlyAsked(old(disk), disk, claims)
      ensures !alive ==> exists i :: 0 <= i < |claims| && Dies(fate(i))
      ensures alive ==> prepared == Batch(c, old(prepared), claims, fate, |claims|)
      ensures alive ==> result == Answers(c, old(prepared), claims, fate, |claims|)
    {
      result := map[];
      for i := 0 to |claims|
        invariant Valid() && Kept(old(disk), disk) && OnlyAsked(old(disk), disk, claims)
        invariant prepared == Batch(c, old(prepared), claims, fate, i)
        invariant result == Answers(c, old(prepared), claims, fate, i)
      {
        var granted;
        assert Asked(claims, claims[i].uid);
        alive, granted := PrepareOne(claims[i], fate(i));
        if !alive {
          return;
        }
        result := result[claims[i].uid := granted];
      }
      alive := true;
    }

    /** Remove one file, then the record. */
    method RemoveOne(uid: string, fate: Fate) returns (alive: bool, removed: bool)
      requires Valid()
      modifies this
      ensures Shrunk(old(disk), disk) && if alive then Valid() else DiskOk()
      ensures alive <==> !Dies(fate)
      ensures alive ==> disk == if removed then old(disk) - {uid} else old(disk)
      ensures alive ==> (removed <==> fate.Done?)
    {
      ShrinkingKeeps(c, disk, disk - {uid});
      if fate.Fails? {
        return true, false;
      }
      if fate.DiesBefore? {
        return false, false;
      }
      disk := disk - {uid};
      if fate.DiesAfter? {
        return false, false;
      }
      prepared := prepared - {uid};
      return true, true;
    }

    /** `UnprepareResourceClaims`: exactly the claims whose files were removed leave the table. */
    method UnprepareResourceClaims(uids: seq<string>, fate: nat -> Fate) returns (alive: bool)
      requires Valid()
      modifies this
      ensures Shrunk(old(disk), disk) && if alive then Valid() else DiskOk()
      ensures alive <==> forall i :: 0 <= i < |uids| ==> !Dies(fate(i))
      ensures alive ==> disk == Unprepared(old(disk), uids, fate, |uids|)
    {
      for i := 0 to |uids|
        invariant Valid() && Shrunk(old(disk), disk) && disk == Unprepared(old(disk), uids, fate, i)
        invariant forall k :: 0 <= k < i ==> !Dies(fate(k))
      {
        var removed;
        alive, removed := RemoveOne(uids[i], fate(i));
        if !alive {
          return;
        }
      }
      alive := true;
    }

    /** `Recover`: drop exactly the records whose claim is gone or was replaced, and fail if any other claim
        changed. It fails only for such a claim or for a file that was not removed. When every claim is as it
        was, it succeeds and drops nothing. */
    method RecoverClaims(order: seq<string>, view: string -> View, fate: nat -> Fate) returns (alive: bool, ok: bool)
      requires Valid() && forall uid :: uid in order <==> uid in prepared
      modifies this
      ensures Shrunk(old(disk), disk) && if alive then Valid() else DiskOk()
      ensures alive && ok ==> forall uid :: uid in old(prepared) ==>
        if uid in prepared then Allocated(c, view(uid), prepared[uid]) else Replaced(view(uid), uid)
      ensures !(alive && ok) ==> exists i :: 0 <= i < |order| && Hinders(old(prepared), order[i], view, fate(i))
      ensures (forall uid :: uid in old(prepared) ==> Allocated(c, view(uid), old(prepared)[uid])) ==>
        alive && ok && prepared == disk == old(prepared)
    {
      alive, ok := RecoverEach(order, view, fate);
      if forall uid :: uid in old(prepared) ==> Allocated(c, view(uid), old(prepared)[uid]) {
        NothingHinders(old(prepared), order, view, fate);
      }
    }

    /** When every claim is as it was, nothing hinders recovery and no claim is gone. */
    lemma NothingHinders(t: Table, order: seq<string>, view: string -> View, fate: nat -> Fate)
      requires RecordsOk(c, t) && (forall uid :: uid in order <==> uid in t)
      requires forall uid :: uid in t ==> Allocated(c, view(uid), t[uid])
      ensures forall uid :: uid in t ==> !Replaced(view(uid), uid)
      ensures forall i :: 0 <= i < |order| ==> !Hinders(t, order[i], view, fate(i))
    {
      forall i | 0 <= i < |order| ensures !Hinders(t, order[i], view, fate(i)) {
        assert order[i] in t;
      }
    }

    /** The loop over the records. */
    method RecoverEach(order: seq<string>, view: string -> View, fate: nat -> Fate) returns (alive: bool, ok: bool)
      requires Valid() && forall uid :: uid in order <==> uid in prepared
      modifies this
      ensures Shrunk(old(disk), disk) && if alive then Valid() else DiskOk()
      ensures alive && ok ==> forall uid :: uid in old(prepared) ==>
        if uid in prepared then Allocated(c, view(uid), prepared[uid]) else Replaced(view(uid), uid)
      ensures !(alive && ok) ==> exists i :: 0 <= i < |order| && Hinders(old(prepared), order[i], view, fate(i))
    {
      for i := 0 to |order|
        invariant Valid() && Shrunk(old(prepared), prepared)
        invariant forall uid :: uid in prepared ==> uid in order[i..] || Allocated(c, view(uid), prepared[uid])
        invariant forall uid :: uid in old(prepared) && uid !in prepared ==> Replaced(view(uid), uid)
      {
        var uid := order[i];
        assert order[i..] == [uid] + order[i + 1..];
        alive, ok := RecoverOne(uid, view(uid), fate(i));
        if !alive || !ok {
          assert Hinders(old(prepared), uid, view, fate(i));
          return;
        }
      }
      return true, true;
    }

    /** One record: its claim is looked up. */
    method RecoverOne(uid: string, v: View, fate: Fate) returns (alive: bool, ok: bool)
      requires Valid()
      modifies this
      ensures Shrunk(old(disk), disk) && if alive then Valid() else DiskOk()
      ensures alive && ok ==> disk == if Replaced(v, uid) then old(disk) - {uid} else old(disk)
      ensures alive && ok && uid in prepared ==> Allocated(c, v, prepared[uid])
      ensures !(alive && ok) ==>
        if Replaced(v, uid) then !fate.Done? else uid in old(prepared) && !Allocated(c, v, old(prepared)[uid])
    {
      if v.Missing? || (v.Found? && v.uid != uid) {
        alive, ok := RemoveOne(uid, fate);
        return;
      }
      ok := uid !in prepared || (v.Found? && v.bound && c.allocationHash(v.results) == prepared[uid].hash);
      alive := true;
    }

    /** The claim is gone and its file could not be removed, or it is there and has changed. */
    ghost predicate Hinders(t: Table, uid: string, view: string -> View, fate: Fate) {
      if Replaced(view(uid), uid) then !fate.Done? else uid in t && !Allocated(c, view(uid), t[uid])
    }

    /** A restart rebuilds the table from the files: it fails exactly when a claim without a uid was
        prepared, and otherwise finds what was on disk. */
    method Reload(order: seq<string>) returns (ok: bool)
      requires DiskOk() && forall f :: f in order <==> f in disk
      modifies this`prepared
      ensures DiskOk() && (ok <==> "" !in disk) && (ok ==> prepared == disk)
    {
      SoundTablesReload(c, disk);
      ok, prepared := Load(c, disk, order);
    }

    /** One operation; a process that dies is started again. */
    method Step(op: Operation) returns (up: bool)
      requires Valid()
      modifies this
      ensures DiskOk() && if up then prepared == disk else "" in disk
      ensures forall uid :: uid in disk ==> uid in old(disk) || (op.Prepare? && Asked(op.claims, uid))
    {
      var alive := true;
      match op {
        case Prepare(claims, fate) =>
          var result;
          alive, result := PrepareResourceClaims(claims, fate);
        case Unprepare(uids, fate) =>
          alive := UnprepareResourceClaims(uids, fate);
        case Recover(view, fate) =>
          var order := ListKeys(prepared);
          var ok;
          alive, ok := RecoverClaims(order, view, fate);
        case Restart =>
          alive := false;
      }
      up := true;
      if !alive {
        var order := ListKeys(disk);
        up := Reload(order);
      }
    }

    /** Any sequence of operations, until one after which the process cannot start. Throughout, no device
        is held by two claims. The process stays up, with the table that is on disk, unless a claim without
        a uid was prepared. */
    method Operate(ops: seq<Operation>) returns (up: bool)
      requires Valid()
      modifies this
      ensures DiskOk() && if up then prepared == disk else "" in disk
      ensures forall uid, other, device ::
        uid in disk && other in disk && uid != other && device in disk[uid].devices ==>
          device !in disk[other].devices
      ensures "" in disk ==>
        "" in old(disk) || exists i :: 0 <= i < |ops| && ops[i].Prepare? && Asked(ops[i].claims, "")
    {
      up := true;
      for i := 0 to |ops|
        invariant Valid() && up
        invariant "" in disk ==>
          "" in old(disk) || exists k :: 0 <= k < i && ops[k].Prepare? && Asked(ops[k].claims, "")
      {
        up := Step(ops[i]);
        if !up {
          break;
        }
      }
      assert forall uid, other :: uid in disk && other in disk && uid != other ==> Apart(disk[uid], disk[other]);
    }
  }

  // ---- What a batch comes to ----

  /** The claim can be prepared, and its file was written. */
  ghost predicate Granted(c: Config, t: Table, claim: Claim, fate: Fate) {
    fate.Done? && exists r :: Prepares(c, t, claim, r)
  }

  /** The table with the claim's record, if it was granted. */
  ghost function Filled(c: Config, t: Table, claim: Claim, fate: Fate): Table {
    if Granted(c, t, claim, fate) then
      var r :| Prepares(c, t, claim, r);
      t[claim.uid := r]
    else t
  }

  lemma FilledWith(c: Config, t: Table, claim: Claim, fate: Fate, r: Record)
    requires Prepares(c, t, claim, r)
    ensures Filled(c, t, claim, fate) == if fate.Done? then t[claim.uid := r] else t
  {
    assert Granted(c, t, claim, fate) <==> fate.Done?;
    forall other | Prepares(c, t, claim, other) ensures other == r {
      PreparesOnce(c, t, claim, r, other);
    }
  }

  /** The table after the first n claims, and their answers: a uid named twice has the later one. */
  ghost function Batch(c: Config, t: Table, claims: seq<Claim>, fate: nat -> Fate, n: nat): Table
    requires n <= |claims|
  {
    if n == 0 then t else Filled(c, Batch(c, t, claims, fate, n - 1), claims[n - 1], fate(n - 1))
  }

  ghost function Answers(c: Config, t: Table, claims: seq<Claim>, fate: nat -> Fate, n: nat): map<string, bool>
    requires n <= |claims|
  {
    if n == 0 then map[]
    else
      var granted := Granted(c, Batch(c, t, claims, fate, n - 1), claims[n - 1], fate(n - 1));
      Answers(c, t, claims, fate, n - 1)[claims[n - 1].uid := granted]
  }

  /** Every claim of a batch has its answer, and what is reported as prepared is. */
  lemma {:induction false} AnswersAreHonest(c: Config, t: Table, claims: seq<Claim>, fate: nat -> Fate, n: nat)
    requires n <= |claims|
    ensures forall i :: 0 <= i < n ==> claims[i].uid in Answers(c, t, claims, fate, n)
    ensures forall uid :: uid in Answers(c, t, claims, fate, n) && Answers(c, t, claims, fate, n)[uid] ==>
      uid in Batch(c, t, claims, fate, n)
  {
    if n > 0 {
      AnswersAreHonest(c, t, claims, fate, n - 1);
    }
  }

  /** What was added was asked for. */
  ghost predicate OnlyAsked(t: Table, next: Table, claims: seq<Claim>) {
    forall uid :: uid in next ==> uid in t || Asked(claims, uid)
  }

  predicate Asked(claims: seq<Claim>, uid: string) {
    exists i :: 0 <= i < |claims| && claims[i].uid == uid
  }

  /** The table without the claims among the first n whose files were removed. */
  ghost function Unprepared(t: Table, uids: seq<string>, fate: nat -> Fate, n: nat): Table
    requires n <= |uids|
  {
    if n == 0 then t
    else
      var before := Unprepared(t, uids, fate, n - 1);
      if fate(n - 1).Done? then before - {uids[n - 1]} else before
  }

  lemma {:induction false} UnpreparedHas(t: Table, uids: seq<string>, fate: nat -> Fate, n: nat, uid: string)
    requires n <= |uids|
    ensures uid in Unprepared(t, uids, fate, n) <==>
              uid in t && !exists i :: 0 <= i < n && fate(i).Done? && uids[i] == uid
    ensures uid in Unprepared(t, uids, fate, n) ==> Unprepared(t, uids, fate, n)[uid] == t[uid]
  {
    if n > 0 {
      UnpreparedHas(t, uids, fate, n - 1, uid);
    }
  }

  /** There is no such claim any more, or another of that name. */
  ghost predicate Replaced(v: View, uid: string) { !v.Unreadable? && (v.Found? ==> v.uid != uid) }

  /** The claim still exists with the allocation it was prepared for. */
  ghost predicate Allocated(c: Config, v: View, r: Record) {
    v.Found? && v.uid == r.uid && v.bound && c.allocationHash(v.results) == r.hash
  }

  /** A claim that was granted is granted again, which changes nothing; and its record, found again with the
      same allocation, is recovered. */
  lemma GrantedAgain(c: Config, t: Table, claim: Claim, fate: Fate, again: Fate)
    requires TableOk(c, t) && Granted(c, t, claim, fate)
    ensures var next := Filled(c, t, claim, fate);
      && Filled(c, next, claim, again) == next && (Granted(c, next, claim, again) <==> again.Done?)
      && claim.uid in next && Allocated(c, Found(claim.uid, true, claim.results), next[claim.uid])
  {
    var r :| Prepares(c, t, claim, r);
    FilledWith(c, t, claim, fate, r);
    FiledAgain(c, t, claim, r, again);
    FoundAgain(c, t, claim, r);
  }

  lemma FiledAgain(c: Config, t: Table, claim: Claim, r: Record, again: Fate)
    requires Prepares(c, t, claim, r)
    ensures Filled(c, t[claim.uid := r], claim, again) == t[claim.uid := r]
    ensures Granted(c, t[claim.uid := r], claim, again) <==> again.Done?
  {
    PreparesAgain(c, t, claim, r);
    FilledSame(c, t[claim.uid := r], claim, r, again);
  }

  lemma FilledSame(c: Config, t: Table, claim: Claim, r: Record, fate: Fate)
    requires Prepares(c, t, claim, r) && claim.uid in t && t[claim.uid] == r
    ensures Filled(c, t, claim, fate) == t && (Granted(c, t, claim, fate) <==> fate.Done?)
  {
    FilledWith(c, t, claim, fate, r);
    assert t[claim.uid := r] == t;
  }

  lemma FoundAgain(c: Config, t: Table, claim: Claim, r: Record)
    requires TableOk(c, t) && Prepares(c, t, claim, r)
    ensures Allocated(c, Found(claim.uid, true, claim.results), r)
  {
    PreparedIsSound(c, t, claim, r);
  }

  /** The last claim of that uid among the first n. */
  ghost predicate LastOf(claims: seq<Claim>, n: nat, i: nat)
    requires n <= |claims|
  {
    i < n && forall j :: i < j < n ==> claims[j].uid != claims[i].uid
  }

  /** After a batch, the record of every claim reported as prepared describes the claim, so that it is granted
      again and recovered if it does not change. */
  lemma {:induction false} AnsweredAreDescribed(c: Config, t: Table, claims: seq<Claim>, fate: nat -> Fate, n: nat, i: nat)
    requires n <= |claims| && LastOf(claims, n, i)
    requires claims[i].uid in Answers(c, t, claims, fate, n) && Answers(c, t, claims, fate, n)[claims[i].uid]
    ensures claims[i].uid in Batch(c, t, claims, fate, n)
    ensures Describes(c, Batch(c, t, claims, fate, n)[claims[i].uid], claims[i])
    decreases n
  {
    var before, last := Batch(c, t, claims, fate, n - 1), claims[n - 1];
    if i == n - 1 {
      var r :| Prepares(c, before, last, r);
      FilledWith(c, before, last, fate(n - 1), r);
    } else {
      AnsweredAreDescribed(c, t, claims, fate, n - 1, i);
      if Granted(c, before, last, fate(n - 1)) {
        var r :| Prepares(c, before, last, r);
        FilledWith(c, before, last, fate(n - 1), r);
      }
    }
  }
}
