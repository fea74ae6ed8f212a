/**
 * The flusher's requests as the source writes them: calls on a shared store, in order, with early
 * returns. Before each remote call any other requests take any of their steps, and the call itself
 * may be lost. The object carries the system state it stands for, which is always reachable, so what
 * holds in every run of the machine holds at every point of every call.
 */
module Flusher {
  import opened Bags
  import opened ObjectKeys
  import opened CommitMachine
  import CM = CheckpointManifest

  /** What happens at one of our remote calls: steps of other requests, then the reply to ours. */
  datatype Turn = Turn(rivals: seq<(nat, Reply)>, reply: Reply)

  /** What is left of a schedule of replies. */
  ghost predicate Remains(before: seq<Turn>, after: seq<Turn>) {
    |after| <= |before| && after == before[|before| - |after|..]
  }

  /** Between the two a call was not answered, or the replies ran out. */
  ghost predicate Silent(before: seq<Turn>, after: seq<Turn>) {
    after == [] || exists i :: 0 <= i < |before| - |after| && !before[i].reply.Answer?
  }

  lemma SilentWithin(a: seq<Turn>, b: seq<Turn>, c: seq<Turn>)
    requires Remains(a, b) && Remains(b, c)
    ensures Remains(a, c) && (Silent(a, b) || Silent(b, c) ==> Silent(a, c))
  {
    if Silent(b, c) && c != [] {
      var i :| 0 <= i < |b| - |c| && !b[i].reply.Answer?;
      assert a[|a| - |b| + i] == b[i];
    }
  }

  /** All that a commit looks for is stored: optimizer metadata that decodes, and every chunk and artifact. */
  ghost predicate Committable(f: Formats, store: Store, m: CM.Manifest) {
    Optimized(f, store, m) && Backed(f, store, m.runId, m.globalStep, m)
  }

  /** The key holds something else. */
  predicate Conflicts(store: Store, key: Key, data: Bytes) { key in store && store[key] != data }

  class ObjectStore {
    const f: Formats
    const id: nat
    var store: Store
    var rivals: map<nat, Request>
    var schedule: seq<Turn>
    ghost var s: System

    /** The store is that of a reachable system in which this request stands at r. */
    ghost predicate Live(r: Request)
      reads this
    {
      && Reachable(f, s) && s.store == store && id !in rivals && s.requests == rivals[id := r]
    }

    /** The store has only grown, and replies have been used in order. */
    ghost predicate Continued(store0: Store, schedule0: seq<Turn>)
      reads this
    {
      Grows(store0, store) && Remains(schedule0, schedule)
    }

    /** A new request against whatever store and whatever other requests a run has reached. */
    constructor (f: Formats, id: nat, store: Store, rivals: map<nat, Request>, schedule: seq<Turn>,
                 ghost s: System, ghost r: Request)
      requires Reachable(f, s) && s.store == store && id !in rivals && s.requests == rivals && Starts(f, r)
      ensures Live(r) && this.f == f && this.id == id && this.store == store
    {
      this.f, this.id, this.store, this.rivals, this.schedule := f, id, store, rivals, schedule;
      this.s := Apply(f, s, Begin(id, r));
      new;
      ReachableApply(f, s, Begin(id, r));
    }

    method RivalStep(ghost r: Request, rival: nat, reply: Reply)
      requires Live(r) && rival in rivals
      modifies this`store, this`rivals, this`s
      ensures Live(r) && Grows(old(store), store)
    {
      StepGrows(f, store, rivals[rival], reply);
      ReachableApply(f, s, Call(rival, reply));
      ghost var next := Apply(f, s, Call(rival, reply));
      var (changed, q) := Step(f, store, rivals[rival], reply);
      store, rivals := changed, rivals[rival := q];
      s := next;
      assert s.requests == rivals[id := r];
    }

    /** The other requests move, and the reply to our own call is drawn. */
    method Remote(ghost r: Request) returns (reply: Reply)
      requires Live(r)
      modifies this`store, this`rivals, this`schedule, this`s
      ensures Live(r) && Grows(old(store), store) && Remains(old(schedule), schedule)
      ensures !reply.Answer? ==> Silent(old(schedule), schedule)
      ensures reply.Answer? ==> AnsweredAfter(old(schedule), schedule, reply.read)
    {
      if schedule == [] {
        return Lost;
      }
      var turn := schedule[0];
      schedule := schedule[1..];
      assert old(schedule)[0].reply == turn.reply;
      for i := 0 to |turn.rivals|
        invariant Live(r) && Grows(old(store), store) && schedule == old(schedule)[1..]
      {
        if turn.rivals[i].0 in rivals {
          RivalStep(r, turn.rivals[i].0, turn.rivals[i].1);
        }
      }
      return turn.reply;
    }

    /** Our own call, in the machine; the caller has made the same change to the store. */
    ghost method Take(r: Request, before: Store, reply: Reply)
      requires Reachable(f, s) && s.store == before && id !in rivals && s.requests == rivals[id := r]
      requires store == Step(f, before, r, reply).0
      modifies this`s
      ensures Live(Step(f, before, r, reply).1)
    {
      ReachableApply(f, s, Call(id, reply));
      s := Apply(f, s, Call(id, reply));
    }

    /** The comparison with an object that is already there. */
    method CompareStored(c: Commit, ghost marker: bool, key: Key, data: Bytes) returns (ok: bool)
      requires Live(PutRequest(c, marker, Compare))
      requires key == PutKey(c, marker) && data == PutData(f, c, marker)
      requires key in store
      modifies this`store, this`rivals, this`schedule, this`s
      ensures Live(if ok then PutDone(c, marker) else PutFailed(c, marker)) && Continued(old(store), old(schedule))
      ensures if ok then key in store && store[key] == data
              else Silent(old(schedule), schedule) || Conflicts(store, key, data)
    {
      var reply := Remote(PutRequest(c, marker, Compare));
      Take(PutRequest(c, marker, Compare), store, reply);
      return reply.Answer? && key in store && store[key] == data;
    }

    /** `putImmutable`, for the manifest or the marker. It succeeds only when the key holds the data. */
    method PutImmutable(c: Commit, ghost marker: bool, key: Key, data: Bytes) returns (ok: bool)
      requires Live(PutRequest(c, marker, Stat))
      requires key == PutKey(c, marker) && data == PutData(f, c, marker)
      modifies this`store, this`rivals, this`schedule, this`s
      ensures Live(if ok then PutDone(c, marker) else PutFailed(c, marker)) && Continued(old(store), old(schedule))
      ensures if ok then key in store && store[key] == data
              else Silent(old(schedule), schedule) || Conflicts(store, key, data)
    {
      var reply := Remote(PutRequest(c, marker, Stat));
      Take(PutRequest(c, marker, Stat), store, reply);
      if !reply.Answer? {
        return false;
      }
      ghost var stat := schedule;
      if key in store {
        ok := CompareStored(c, marker, key, data);
      } else {
        ok := PutIfMissing(c, marker, key, data);
      }
      SilentWithin(old(schedule), stat, schedule);
    }

    /** The conditional PUT of an object that was not there, and the comparison if it is by then. */
    method PutIfMissing(c: Commit, ghost marker: bool, key: Key, data: Bytes) returns (ok: bool)
      requires Live(PutRequest(c, marker, Put))
      requires key == PutKey(c, marker) && data == PutData(f, c, marker)
      modifies this`store, this`rivals, this`schedule, this`s
      ensures Live(if ok then PutDone(c, marker) else PutFailed(c, marker)) && Continued(old(store), old(schedule))
      ensures if ok then key in store && store[key] == data
              else Silent(old(schedule), schedule) || Conflicts(store, key, data)
    {
      var reply := Remote(PutRequest(c, marker, Put));
      ghost var before := store;
      var absent := key !in store;
      if !reply.Lost? && absent {
        store := store[key := data];
      }
      Take(PutRequest(c, marker, Put), before, reply);
      if !reply.Answer? {
        return false;
      }
      if absent {
        return true;
      }
      ghost var put := schedule;
      ok := CompareStored(c, marker, key, data);
      SilentWithin(old(schedule), put, schedule);
    }

    /** `putImmutableMarker`: a marker that is already there is accepted when it names the same manifest. */
    method PutImmutableMarker(c: Commit) returns (ok: bool)
      requires Sound(f) && Live(PutMarker(c, Stat))
      modifies this`store, this`rivals, this`schedule, this`s
      ensures Live(if ok then Committed(c) else Failed) && Continued(old(store), old(schedule))
      ensures !ok ==> Silent(old(schedule), schedule)
    {
      ok := PutImmutable(c, true, CommitMarker(c), f.writeMarker(MarkerOf(f, c)));
      if ok {
        return;
      }
      ghost var put := schedule;
      ok := CompareMarker(c);
      SilentWithin(old(schedule), put, schedule);
    }

    /** Read the marker that is there. As our manifest is stored, it names that, if the read succeeds and a
        marker is there at all. */
    method CompareMarker(c: Commit) returns (ok: bool)
      requires Sound(f) && Live(ReadMarker(c))
      modifies this`store, this`rivals, this`schedule, this`s
      ensures Live(if ok then Committed(c) else Failed) && Continued(old(store), old(schedule))
      ensures !ok ==> Silent(old(schedule), schedule) || CommitMarker(c) !in store
    {
      var reply := Remote(ReadMarker(c));
      MarkerIsOurs(f, s, id, c);
      Take(ReadMarker(c), store, reply);
      if !reply.Answer? || CommitMarker(c) !in store || |store[CommitMarker(c)]| > MAX_MARKER {
        return false;
      }
      var existing := f.readMarker(store[CommitMarker(c)]);
      ok := existing.Some? && existing.value.version == VERSION
            && existing.value.step == c.manifest.globalStep && existing.value.digest == f.sha(c.bytes);
    }

    /** `verifyObject`: stat, then hash the listed range. */
    method VerifyObject(c: Commit, i: nat) returns (ok: bool)
      requires i < |c.objects| && Live(StatObject(c, i))
      modifies this`store, this`rivals, this`schedule, this`s
      ensures Live(if ok then NextObject(c, i + 1) else Failed) && Continued(old(store), old(schedule))
      ensures !ok ==> Silent(old(schedule), schedule) || !Stored(old(store), c, i)
    {
      ok := StatListed(c, i);
      if !ok {
        return;
      }
      ghost var stat, stored := schedule, store;
      ok := HashListed(c, i);
      SilentWithin(old(schedule), stat, schedule);
      StoredLater(old(store), stored, c, i);
    }

    /** The object of the manifest's list is stored as listed. */
    ghost predicate Stored(at: Store, c: Commit, i: nat)
      requires i < |c.objects|
    {
      Verified(f, at, c.manifest.runId, c.manifest.globalStep, c.objects[i])
    }

    lemma StoredLater(a: Store, b: Store, c: Commit, i: nat)
      requires i < |c.objects| && Grows(a, b)
      ensures Stored(a, c, i) ==> Stored(b, c, i)
    {
      if Stored(a, c, i) {
        VerifiedStable(f, a, b, c.manifest.runId, c.manifest.globalStep, c.objects[i]);
      }
    }

    /** An object that is not stored as listed later was not before, so not all are. */
    lemma NotAllStored(a: Store, b: Store, c: Commit, i: nat)
      requires i < |c.objects| && Grows(a, b)
      ensures !Stored(b, c, i) ==> !ObjectsVerified(f, a, c, |c.objects|)
    {
      StoredLater(a, b, c, i);
    }

    method StatListed(c: Commit, i: nat) returns (ok: bool)
      requires i < |c.objects| && Live(StatObject(c, i))
      modifies this`store, this`rivals, this`schedule, this`s
      ensures Live(if ok then HashObject(c, i) else Failed) && Continued(old(store), old(schedule))
      ensures !ok ==> Silent(old(schedule), schedule) || !Stored(old(store), c, i)
    {
      var o := c.objects[i];
      var key := ObjectAt(c.manifest.runId, c.manifest.globalStep, o.path);
      var reply := Remote(StatObject(c, i));
      StoredLater(old(store), store, c, i);
      Take(StatObject(c, i), store, reply);
      ok := reply.Answer? && key in store && o.offset <= |store[key]| && o.length <= |store[key]| - o.offset;
    }

    method HashListed(c: Commit, i: nat) returns (ok: bool)
      requires i < |c.objects| && Live(HashObject(c, i))
      modifies this`store, this`rivals, this`schedule, this`s
      ensures Live(if ok then NextObject(c, i + 1) else Failed) && Continued(old(store), old(schedule))
      ensures !ok ==> Silent(old(schedule), schedule) || !Stored(old(store), c, i)
    {
      var reply := Remote(HashObject(c, i));
      StoredLater(old(store), store, c, i);
      Take(HashObject(c, i), store, reply);
      ok := reply.Answer? && Verified(f, store, c.manifest.runId, c.manifest.globalStep, c.objects[i]);
    }

    /** `readArtifact` on the optimizer metadata, and its decoding. */
    method CheckOptimizer(c: Commit) returns (ok: bool)
      requires Live(ReadOptimizer(c))
      modifies this`store, this`rivals, this`schedule, this`s
      ensures Live(if ok then NextObject(c, 0) else Failed) && Continued(old(store), old(schedule))
      ensures !ok ==> Silent(old(schedule), schedule) || !Optimized(f, old(store), c.manifest)
    {
      var a := c.manifest.state.optimizer;
      var key := ObjectAt(c.manifest.runId, c.manifest.globalStep, a.path);
      var reply := Remote(ReadOptimizer(c));
      Take(ReadOptimizer(c), store, reply);
      ok := reply.Answer? && a.byteLength <= MAX_OPTIMIZER && key in store && |store[key]| == a.byteLength
            && f.optimizer(store[key], c.manifest);
    }

    /** `commit`. When it succeeds the step is committed: the marker loads this very manifest, and
        every object the manifest lists is stored with the listed range and hash. It fails only if a call is
        not answered, if something it looks for was not there at first, or if another manifest of the step is
        stored. */
    method CommitCheckpoint(c: Commit) returns (ok: bool)
      requires Sound(f) && Live(ReadOptimizer(c))
      modifies this`store, this`rivals, this`schedule, this`s
      ensures Live(if ok then Committed(c) else Failed) && Continued(old(store), old(schedule))
      ensures ok ==> Marks(f, store, c.manifest.runId, c.manifest.globalStep, c.manifest)
      ensures ok ==> Committable(f, store, c.manifest)
      ensures !ok ==> || Silent(old(schedule), schedule) || !Committable(f, old(store), c.manifest)
                      || Conflicts(store, ObjectAt(c.manifest.runId, c.manifest.globalStep, "manifest.json"), c.bytes)
    {
      ok := CheckStored(c);
      if !ok {
        return;
      }
      ghost var checked := schedule;
      ok := StoreManifest(c);
      SilentWithin(old(schedule), checked, schedule);
      if ok {
        CommittedFacts(f, s, id, c);
      }
    }

    /** What must be there before anything is written. */
    method CheckStored(c: Commit) returns (ok: bool)
      requires Sound(f) && Live(ReadOptimizer(c))
      modifies this`store, this`rivals, this`schedule, this`s
      ensures Live(if ok then PutManifest(c, Stat) else Failed) && Continued(old(store), old(schedule))
      ensures !ok ==> Silent(old(schedule), schedule) || !Committable(f, old(store), c.manifest)
    {
      CommittableObjects(f, s, id, c);
      ok := CheckOptimizer(c);
      if !ok {
        return;
      }
      ghost var checked, stored := schedule, store;
      ok := VerifyObjects(c);
      SilentWithin(old(schedule), checked, schedule);
      VerifiedBefore(f, old(store), stored, c);
    }

    /** The loop over the listed objects. */
    method VerifyObjects(c: Commit) returns (ok: bool)
      requires Live(NextObject(c, 0))
      modifies this`store, this`rivals, this`schedule, this`s
      ensures Live(if ok then PutManifest(c, Stat) else Failed) && Continued(old(store), old(schedule))
      ensures !ok ==> Silent(old(schedule), schedule) || !ObjectsVerified(f, old(store), c, |c.objects|)
    {
      for i := 0 to |c.objects|
        invariant Live(NextObject(c, i)) && Continued(old(store), old(schedule))
      {
        ghost var before, stored := schedule, store;
        ok := VerifyObject(c, i);
        SilentWithin(old(schedule), before, schedule);
        if !ok {
          NotAllStored(old(store), stored, c, i);
          return;
        }
      }
      ok := true;
    }

    /** The manifest, then the marker. */
    method StoreManifest(c: Commit) returns (ok: bool)
      requires Sound(f) && Live(PutManifest(c, Stat))
      modifies this`store, this`rivals, this`schedule, this`s
      ensures Live(if ok then Committed(c) else Failed) && Continued(old(store), old(schedule))
      ensures !ok ==> Silent(old(schedule), schedule) || Conflicts(store, CommitManifest(c), c.bytes)
    {
      ok := PutImmutable(c, false, CommitManifest(c), c.bytes);
      if !ok {
        return;
      }
      ghost var put := schedule;
      ok := PutImmutableMarker(c);
      SilentWithin(old(schedule), put, schedule);
    }

    /** `compareExistingHash`, after the stat that found the object: it gives a receipt for the wanted hash, and
        only for an object of the wanted length and hash. It fails on an empty object, and otherwise only if a
        call is not answered or the object differs. */
    method CompareExistingHash(u: Upload, digest: string) returns (receipt: Option<Receipt>)
      requires Live(SizeStep(store, u, digest))
      modifies this`store, this`rivals, this`schedule, this`s
      ensures Live(if receipt.Some? then Uploaded(u, receipt.value) else Failed)
      ensures Continued(old(store), old(schedule))
      ensures receipt.Some? ==>
        && receipt.value == Receipt(u.path, u.size, digest)
        && Holds(store, u, u.size, digest) && u.size > 0
      ensures receipt.None? ==> || Silent(old(schedule), schedule) || ObjectAt(u.run, u.step, u.path) !in old(store)
                                || u.size == 0 || !Holds(store, u, u.size, digest)
    {
      if UploadKey(u) !in store || |store[UploadKey(u)]| != u.size {
        return None;
      }
      var reply := Remote(HashExisting(u, digest));
      Take(HashExisting(u, digest), store, reply);
      if !reply.Answer? || u.size == 0 || !InRange(store, UploadKey(u), 0, u.size) {
        return None;
      }
      assert store[UploadKey(u)][0..u.size] == store[UploadKey(u)];
      if f.sha(store[UploadKey(u)][0..u.size]) != digest {
        return None;
      }
      return Some(Receipt(u.path, u.size, digest));
    }

    /** The object of the upload is stored with that length and hash. */
    ghost predicate Holds(at: Store, u: Upload, size: nat, sha256: string) {
      var key := ObjectAt(u.run, u.step, u.path);
      key in at && |at[key]| == size && f.sha(at[key]) == sha256
    }

    /** `upload`. A returned receipt has the length and hash of the stored bytes. They are those of the first
        `size` bytes of the source, unless another writer was faster (`raced`) and the PUT was refused after
        so many bytes were sent, whose hash it then is. Without a receipt a call was not answered, the source
        was too short, or an object was there already: then the request is for no bytes at all, the source
        is of another length, or the object differs from what was sent. */
    method UploadObject(u: Upload) returns (receipt: Option<Receipt>, ghost raced: Option<nat>)
      requires Sound(f) && Live(StatUpload(u))
      modifies this`store, this`rivals, this`schedule, this`s
      ensures Live(if receipt.Some? then Uploaded(u, receipt.value) else Failed)
      ensures Continued(old(store), old(schedule))
      ensures receipt.Some? ==>
        && receipt.value == Receipt(u.path, u.size, receipt.value.sha256)
        && Holds(store, u, u.size, receipt.value.sha256)
        && u.size <= |u.source| && receipt.value.sha256 == SentHash(u, raced)
      ensures raced.Some? ==>
        && ObjectAt(u.run, u.step, u.path) !in old(store) && ObjectAt(u.run, u.step, u.path) in store
        && AnsweredAfter(old(schedule), schedule, raced.value)
      ensures receipt.None? ==>
        || Silent(old(schedule), schedule) || |u.source| < u.size
        || (ObjectAt(u.run, u.step, u.path) in store
            && (u.size == 0 || (raced.None? && |u.source| != u.size) || !Holds(store, u, u.size, SentHash(u, raced))))
    {
      raced := None;
      var key := UploadKey(u);
      var reply := Remote(StatUpload(u));
      Take(StatUpload(u), store, reply);
      if !reply.Answer? {
        return None, raced;
      }
      if key in store {
        if |u.source| != u.size {
          return None, raced;
        }
        ghost var stat := schedule;
        assert u.source[..u.size] == u.source;
        receipt := CompareExistingHash(u, f.sha(u.source));
        SilentWithin(old(schedule), stat, schedule);
      } else {
        ghost var stat := schedule;
        receipt, raced := PutBody(u);
        SilentWithin(old(schedule), stat, schedule);
        AnsweredWithin(old(schedule), stat, schedule, raced);
      }
    }

    /** The hash of what was sent: of the first `size` bytes, or of as many as a refused PUT had taken. */
    ghost function SentHash(u: Upload, raced: Option<nat>): string {
      var n := if raced.Some? then raced.value else u.size;
      f.sha(if n <= |u.source| then u.source[..n] else u.source)
    }

    /** The conditional PUT of `upload`, and the comparison when another writer was first. */
    method PutBody(u: Upload) returns (receipt: Option<Receipt>, ghost raced: Option<nat>)
      requires Live(PutUpload(u))
      modifies this`store, this`rivals, this`schedule, this`s
      ensures Live(if receipt.Some? then Uploaded(u, receipt.value) else Failed)
      ensures Continued(old(store), old(schedule))
      ensures receipt.Some? ==>
        && receipt.value == Receipt(u.path, u.size, SentHash(u, raced)) && u.size <= |u.source|
        && Holds(store, u, u.size, SentHash(u, raced))
      ensures raced.Some? ==>
        ObjectAt(u.run, u.step, u.path) in store && AnsweredAfter(old(schedule), schedule, raced.value)
      ensures receipt.None? ==>
        || Silent(old(schedule), schedule) || |u.source| < u.size
        || (raced.Some? && (u.size == 0 || !Holds(store, u, u.size, SentHash(u, raced))))
    {
      raced := None;
      var key := UploadKey(u);
      var reply := Remote(PutUpload(u));
      ghost var before := store;
      if reply.Lost? || |u.source| < u.size {
        Take(PutUpload(u), before, reply);
        return None, raced;
      }
      var body := u.source[..u.size];
      var absent := key !in store;
      if absent {
        store := store[key := body];
      }
      Take(PutUpload(u), before, reply);
      if !reply.Answer? {
        return None, raced;
      }
      if absent {
        return Some(Receipt(u.path, u.size, f.sha(body))), raced;
      }
      raced := Some(reply.read);
      ghost var put := schedule;
      receipt := CompareRaced(u, f.sha(Sent(u, reply.read)));
      SilentWithin(old(schedule), put, schedule);
      AnsweredLater(old(schedule), put, schedule, reply.read);
    }

    /** Stat the object that another writer stored first, and compare. */
    method CompareRaced(u: Upload, digest: string) returns (receipt: Option<Receipt>)
      requires Live(RestatUpload(u, digest)) && ObjectAt(u.run, u.step, u.path) in store
      modifies this`store, this`rivals, this`schedule, this`s
      ensures Live(if receipt.Some? then Uploaded(u, receipt.value) else Failed)
      ensures Continued(old(store), old(schedule))
      ensures receipt.Some? ==>
        receipt.value == Receipt(u.path, u.size, digest) && Holds(store, u, u.size, digest)
      ensures receipt.None? ==>
        Silent(old(schedule), schedule) || u.size == 0 || !Holds(store, u, u.size, digest)
    {
      var reply := Remote(RestatUpload(u, digest));
      Take(RestatUpload(u, digest), store, reply);
      if !reply.Answer? {
        return None;
      }
      ghost var stat := schedule;
      receipt := CompareExistingHash(u, digest);
      SilentWithin(old(schedule), stat, schedule);
    }
  }

  /** Between the two a call was answered after so many bytes were sent. */
  ghost predicate AnsweredAfter(before: seq<Turn>, after: seq<Turn>, read: nat) {
    exists i :: 0 <= i < |before| - |after| && before[i].reply == Answer(read)
  }

  lemma AnsweredLater(a: seq<Turn>, b: seq<Turn>, c: seq<Turn>, read: nat)
    requires Remains(a, b) && Remains(b, c) && AnsweredAfter(a, b, read)
    ensures AnsweredAfter(a, c, read)
  {
    var i :| 0 <= i < |a| - |b| && a[i].reply == Answer(read);
  }

  lemma AnsweredWithin(a: seq<Turn>, b: seq<Turn>, c: seq<Turn>, read: Option<nat>)
    requires Remains(a, b) && Remains(b, c) && (read.Some? ==> AnsweredAfter(b, c, read.value))
    ensures read.Some? ==> AnsweredAfter(a, c, read.value)
  {
    if read.Some? {
      var i :| 0 <= i < |b| - |c| && b[i].reply == Answer(read.value);
      assert a[|a| - |b| + i] == b[i];
    }
  }

  // ---- putImmutable's two uses ----

  ghost function PutRequest(c: Commit, marker: bool, at: PutPoint): Request {
    if marker then PutMarker(c, at) else PutManifest(c, at)
  }

  ghost function PutKey(c: Commit, marker: bool): Key {
    if marker then CommitMarker(c) else CommitManifest(c)
  }

  ghost function PutData(f: Formats, c: Commit, marker: bool): Bytes {
    if marker then f.writeMarker(MarkerOf(f, c)) else c.bytes
  }

  ghost function PutDone(c: Commit, marker: bool): Request {
    if marker then Committed(c) else PutMarker(c, Stat)
  }

  ghost function PutFailed(c: Commit, marker: bool): Request {
    if marker then ReadMarker(c) else Failed
  }

  // ---- The requests the server passes on ----

  lemma AcceptedRunId(lib: CM.Library, m: CM.Manifest)
    requires CM.Accepted(lib, m)
    ensures '/' !in m.runId
  {
    assert CM.ValidId(m.runId);
  }

  lemma DecodedListing(m: CM.Manifest, order: seq<string>, rngOrder: seq<string>)
    requires Listing(order, m.tensors) && Listing(rngOrder, m.state.rng)
    ensures forall o :: CM.Lists(m, o) <==> o in CM.ObjectList(m, order, rngOrder)
  {
    forall o ensures CM.Lists(m, o) <==> o in CM.ObjectList(m, order, rngOrder) {
      CM.ObjectListMembers(m, order, rngOrder, o);
    }
  }

  /** A decoded manifest with its listed objects, in any visiting order of its maps, is a request
      that may begin. */
  lemma DecodedCommitStarts(f: Formats, lib: CM.Library, bytes: Bytes, m: CM.Manifest,
                            order: seq<string>, rngOrder: seq<string>, committedAt: string, jobId: u64)
    requires Validates(f, lib) && f.manifest(bytes) == Some(m) && f.timestamp(committedAt)
    requires Listing(order, m.tensors) && Listing(rngOrder, m.state.rng)
    requires ReadsBack(f, Marker(VERSION, m.globalStep, f.sha(bytes), committedAt, jobId))
    ensures Starts(f, ReadOptimizer(Commit(bytes, m, CM.ObjectList(m, order, rngOrder), committedAt, jobId)))
  {
    AcceptedRunId(lib, m);
    DecodedListing(m, order, rngOrder);
  }

  // ---- What a reachable system says of a finished request ----

  lemma CommittedFacts(f: Formats, s: System, id: nat, c: Commit)
    requires Sound(f) && Reachable(f, s) && id in s.requests && s.requests[id] == Committed(c)
    ensures Marks(f, s.store, c.manifest.runId, c.manifest.globalStep, c.manifest)
    ensures Committable(f, s.store, c.manifest)
  {
    ReachableInv(f, s);
    assert RequestOk(f, s.store, Committed(c));
    assert Complete(f, s.store, c.manifest.runId, c.manifest.globalStep);
    LoadsExactly(f, s.store, c.manifest.runId, c.manifest.globalStep, c.manifest);
    BackedExactly(f, s.store, c.manifest.runId, c.manifest.globalStep, c.manifest);
  }

  /** With every chunk and artifact stored, every object of the request's list verifies. */
  lemma CommittableObjects(f: Formats, s: System, id: nat, c: Commit)
    requires Sound(f) && Reachable(f, s) && id in s.requests && s.requests[id] == ReadOptimizer(c)
    ensures Committable(f, s.store, c.manifest) ==> ObjectsVerified(f, s.store, c, |c.objects|)
  {
    ReachableInv(f, s);
    assert RequestOk(f, s.store, s.requests[id]);
    if Committable(f, s.store, c.manifest) {
      BackedExactly(f, s.store, c.manifest.runId, c.manifest.globalStep, c.manifest);
    }
  }

  /** A call only adds to the store. */
  lemma StepGrows(f: Formats, store: Store, r: Request, reply: Reply)
    ensures Grows(store, Step(f, store, r, reply).0)
  {
    match r
    case PutManifest(c, at) => PutGrows(store, CommitManifest(c), c.bytes, at, reply);
    case PutMarker(c, at) => PutGrows(store, CommitMarker(c), f.writeMarker(MarkerOf(f, c)), at, reply);
    case _ =>
  }

  lemma VerifiedBefore(f: Formats, a: Store, b: Store, c: Commit)
    requires Grows(a, b)
    ensures ObjectsVerified(f, a, c, |c.objects|) ==> ObjectsVerified(f, b, c, |c.objects|)
  {
    if ObjectsVerified(f, a, c, |c.objects|) {
      VerifiedPrefixStable(f, a, b, c, |c.objects|);
    }
  }

  /** With our manifest stored, any marker of the step names it. */
  lemma MarkerIsOurs(f: Formats, s: System, id: nat, c: Commit)
    requires Sound(f) && Reachable(f, s) && id in s.requests && s.requests[id] == ReadMarker(c)
    ensures CommitMarker(c) in s.store ==> ReadMarkerStep(f, s.store, c) == Committed(c)
  {
    ReachableInv(f, s);
    assert RequestOk(f, s.store, s.requests[id]);
    if CommitMarker(c) in s.store {
      assert Complete(f, s.store, c.manifest.runId, c.manifest.globalStep);
    }
  }
}
