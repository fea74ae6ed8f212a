/**
 * Any number of flushers uploading objects and committing checkpoints to one shared object store.
 *
 * The store only ever gains keys: every write is a conditional PUT. Each remote call of each request
 * is one step; the call may fail, and a failed PUT may have taken effect. A crashed flusher is one
 * that takes no further step, and a request may begin at any time.
 */
module CommitMachine {
  import opened Bags
  import opened Blocks
  import opened ObjectKeys
  import CM = CheckpointManifest

  type u64 = CM.u64
  type Bytes = seq<Byte>
  type Store = map<Key, Bytes>

  const VERSION := 2
  const MAX_MARKER: nat := 65536
  const MAX_MANIFEST: nat := 16777216
  const MAX_OPTIMIZER: nat := 4194304

  datatype Marker = Marker(version: int, step: u64, digest: string, committedAt: string, jobId: u64)

  /** Hashing and decoding, as functions of bytes. */
  datatype Formats = Formats(
    sha: Bytes -> string,
    manifest: Bytes -> Option<CM.Manifest>,
    readMarker: Bytes -> Option<Marker>,
    writeMarker: Marker -> Bytes,
    timestamp: string -> bool,
    optimizer: (Bytes, CM.Manifest) -> bool)

  /** A digest prints as 64 characters, and a manifest that decodes is not empty and not over the limit. */
  ghost predicate Sound(f: Formats) {
    && (forall b :: |f.sha(b)| == 64)
    && (forall b :: f.manifest(b).Some? ==> 0 < |b| <= MAX_MANIFEST)
  }

  /** The marker's encoding is within the limit and reads back as the marker. */
  predicate ReadsBack(f: Formats, m: Marker) {
    |f.writeMarker(m)| <= MAX_MARKER && f.readMarker(f.writeMarker(m)) == Some(m)
  }

  /** Decoding a manifest ends with its validation. */
  ghost predicate Validates(f: Formats, lib: CM.Library) {
    forall b :: f.manifest(b).Some? ==> CM.Accepted(lib, f.manifest(b).value)
  }

  // ---- Reading the store ----

  predicate InRange(store: Store, key: Key, offset: nat, length: nat) {
    key in store && offset <= |store[key]| && length <= |store[key]| - offset
  }

  /** The object is stored, its range lies in the stored bytes, and the range has the listed hash. */
  predicate Verified(f: Formats, store: Store, run: string, step: u64, o: CM.Object) {
    var key := ObjectAt(run, step, o.path);
    && o.length > 0 && InRange(store, key, o.offset, o.length)
    && f.sha(store[key][o.offset..o.offset + o.length]) == o.sha256
  }

  /** What a marker and the manifest beside it say, when they agree. */
  function LoadCommitted(f: Formats, store: Store, run: string, step: u64): Option<CM.Manifest> {
    if !(MarkerAt(run, step) in store && |store[MarkerAt(run, step)]| <= MAX_MARKER) then None
    else
      var marker := f.readMarker(store[MarkerAt(run, step)]);
      if !(marker.Some? && marker.value.version == VERSION && marker.value.step == step
           && |marker.value.digest| == 64 && f.timestamp(marker.value.committedAt)) then None
      else if !(ManifestAt(run, step) in store && |store[ManifestAt(run, step)]| <= MAX_MANIFEST) then None
      else
        var bytes := store[ManifestAt(run, step)];
        var m := f.manifest(bytes);
        if f.sha(bytes) == marker.value.digest && m.Some? && m.value.runId == run && m.value.globalStep == step
        then m else None
  }

  /** A committed checkpoint: it loads, and every object its manifest lists verifies. */
  ghost predicate Complete(f: Formats, store: Store, run: string, step: u64) {
    && LoadCommitted(f, store, run, step).Some?
    && forall o | CM.Lists(LoadCommitted(f, store, run, step).value, o) :: Verified(f, store, run, step, o)
  }

  /** The range of the stored bytes is there and has the hash. */
  ghost predicate Holding(f: Formats, store: Store, key: Key, offset: nat, length: nat, sha256: string) {
    && key in store && 0 < length && offset + length <= |store[key]|
    && f.sha(store[key][offset..offset + length]) == sha256
  }

  /** Every chunk of every tensor, the optimizer metadata and every rank's random state are stored, each under
      its own path with its own range and hash. */
  ghost predicate Backed(f: Formats, store: Store, run: string, step: u64, m: CM.Manifest) {
    && (forall name, j :: name in m.tensors && 0 <= j < |m.tensors[name].chunks| ==>
          ChunkBacked(f, store, run, step, m.tensors[name].chunks[j]))
    && ArtifactBacked(f, store, run, step, m.state.optimizer)
    && (forall key :: key in m.state.rng ==> ArtifactBacked(f, store, run, step, m.state.rng[key]))
  }

  ghost predicate ChunkBacked(f: Formats, store: Store, run: string, step: u64, c: CM.Chunk) {
    Holding(f, store, ObjectAt(run, step, c.path), c.byteOffset, c.byteLength, c.sha256)
  }

  ghost predicate ArtifactBacked(f: Formats, store: Store, run: string, step: u64, a: CM.Artifact) {
    Holding(f, store, ObjectAt(run, step, a.path), 0, a.byteLength, a.sha256)
  }

  /** That is what it takes for every listed object to verify. */
  lemma BackedExactly(f: Formats, store: Store, run: string, step: u64, m: CM.Manifest)
    ensures (forall o | CM.Lists(m, o) :: Verified(f, store, run, step, o)) <==> Backed(f, store, run, step, m)
  {
    if forall o | CM.Lists(m, o) :: Verified(f, store, run, step, o) {
      VerifiedAreBacked(f, store, run, step, m);
    }
    if Backed(f, store, run, step, m) {
      forall o | CM.Lists(m, o) ensures Verified(f, store, run, step, o) {
        BackedAreVerified(f, store, run, step, m, o);
      }
    }
  }

  lemma VerifiedAreBacked(f: Formats, store: Store, run: string, step: u64, m: CM.Manifest)
    requires forall o | CM.Lists(m, o) :: Verified(f, store, run, step, o)
    ensures Backed(f, store, run, step, m)
  {
    forall name, j | name in m.tensors && 0 <= j < |m.tensors[name].chunks|
      ensures ChunkBacked(f, store, run, step, m.tensors[name].chunks[j])
    {
      var o := CM.ChunkObject(m.tensors[name].chunks[j]);
      assert CM.FromChunk(m.tensors[name], o);
      assert CM.Lists(m, o);
    }
    assert CM.Lists(m, CM.OptimizerObject(m.state.optimizer));
    forall key | key in m.state.rng ensures ArtifactBacked(f, store, run, step, m.state.rng[key]) {
      assert CM.Lists(m, CM.RngObject(key, m.state.rng[key]));
    }
  }

  lemma BackedAreVerified(f: Formats, store: Store, run: string, step: u64, m: CM.Manifest, o: CM.Object)
    requires Backed(f, store, run, step, m) && CM.Lists(m, o)
    ensures Verified(f, store, run, step, o)
  {
    if CM.FromTensor(m, o) {
      var name :| name in m.tensors && CM.FromChunk(m.tensors[name], o);
      var j :| 0 <= j < |m.tensors[name].chunks| && o == CM.ChunkObject(m.tensors[name].chunks[j]);
      assert ChunkBacked(f, store, run, step, m.tensors[name].chunks[j]);
    } else if CM.FromRng(m, o) {
      var key :| key in m.state.rng && o == CM.RngObject(key, m.state.rng[key]);
      assert ArtifactBacked(f, store, run, step, m.state.rng[key]);
    }
  }

  /** The marker is readable, of version 2 and of this step, and the manifest beside it has the marker's digest
      and decodes to one of this run and step. */
  ghost predicate Marks(f: Formats, store: Store, run: string, step: u64, m: CM.Manifest) {
    var marker, manifest := MarkerAt(run, step), ObjectAt(run, step, "manifest.json");
    && marker in store && |store[marker]| <= 65536 && f.readMarker(store[marker]).Some?
    && f.readMarker(store[marker]).value.version == 2 && f.readMarker(store[marker]).value.step == step
    && |f.readMarker(store[marker]).value.digest| == 64 && f.timestamp(f.readMarker(store[marker]).value.committedAt)
    && manifest in store && |store[manifest]| <= 16777216
    && f.sha(store[manifest]) == f.readMarker(store[marker]).value.digest
    && f.manifest(store[manifest]) == Some(m) && m.runId == run && m.globalStep == step
  }

  lemma LoadsExactly(f: Formats, store: Store, run: string, step: u64, m: CM.Manifest)
    ensures LoadCommitted(f, store, run, step) == Some(m) <==> Marks(f, store, run, step, m)
  {
  }

  /** The optimizer metadata is stored at its listed length, of at most four mebibytes, and decodes for the
      manifest. */
  predicate Optimized(f: Formats, store: Store, m: CM.Manifest) {
    var key := ObjectAt(m.runId, m.globalStep, m.state.optimizer.path);
    && key in store && |store[key]| == m.state.optimizer.byteLength <= 4194304 && f.optimizer(store[key], m)
  }

  // ---- Requests ----

  datatype Upload = Upload(run: string, step: u64, path: string, source: Bytes, size: u64)

  datatype Receipt = Receipt(path: string, byteLength: u64, sha256: string)

  /** A commit request: the posted bytes, what they decode to, and the clock reading for the marker. */
  datatype Commit = Commit(
    bytes: Bytes, manifest: CM.Manifest, objects: seq<CM.Object>, committedAt: string, jobId: u64)

  function UploadKey(u: Upload): Key { ObjectAt(u.run, u.step, u.path) }
  function CommitManifest(c: Commit): Key { ManifestAt(c.manifest.runId, c.manifest.globalStep) }
  function CommitMarker(c: Commit): Key { MarkerAt(c.manifest.runId, c.manifest.globalStep) }

  function MarkerOf(f: Formats, c: Commit): Marker {
    Marker(VERSION, c.manifest.globalStep, f.sha(c.bytes), c.committedAt, c.jobId)
  }

  /** Where a call of putImmutable stands: each is a remote call about to be made. */
  datatype PutPoint = Stat | Compare | Put

  /** A request, at the remote call it is about to make. */
  datatype Request =
    | StatUpload(u: Upload)
    | PutUpload(u: Upload)
    | RestatUpload(u: Upload, digest: string)
    | HashExisting(u: Upload, digest: string)
    | Uploaded(u: Upload, receipt: Receipt)
    | ReadOptimizer(c: Commit)
    | StatObject(c: Commit, i: nat)
    | HashObject(c: Commit, i: nat)
    | PutManifest(c: Commit, at: PutPoint)
    | PutMarker(c: Commit, at: PutPoint)
    | ReadMarker(c: Commit)
    | Committed(c: Commit)
    | Failed

  /** A remote call answers (`read` source bytes having been sent when a PUT is refused), is lost
      before it takes effect, or is lost after it. */
  datatype Reply = Answer(read: nat) | Lost | LostAfter

  // ---- One remote call ----

  datatype PutResult = Go(at: PutPoint) | Present | Refused

  /** A conditional PUT: nothing is ever overwritten. */
  function PutIfAbsent(store: Store, key: Key, data: Bytes): Store {
    if key in store then store else store[key := data]
  }

  function PutStep(store: Store, key: Key, data: Bytes, at: PutPoint, reply: Reply): (Store, PutResult) {
    match at
    case Stat =>
      (store, if !reply.Answer? then Refused else if key in store then Go(Compare) else Go(Put))
    case Compare =>
      (store, if reply.Answer? && key in store && store[key] == data then Present else Refused)
    case Put =>
      if reply.Lost? then (store, Refused)
      else
        (PutIfAbsent(store, key, data),
         if reply.LostAfter? then Refused else if key in store then Go(Compare) else Present)
  }

  function NextObject(c: Commit, i: nat): Request {
    if i < |c.objects| then StatObject(c, i) else PutManifest(c, Stat)
  }

  function OptimizerStep(f: Formats, store: Store, c: Commit): Request {
    var a := c.manifest.state.optimizer;
    var key := ObjectAt(c.manifest.runId, c.manifest.globalStep, a.path);
    if a.byteLength <= MAX_OPTIMIZER && key in store && |store[key]| == a.byteLength
       && f.optimizer(store[key], c.manifest)
    then NextObject(c, 0) else Failed
  }

  function SizeStep(store: Store, u: Upload, digest: string): Request {
    if UploadKey(u) in store && |store[UploadKey(u)]| == u.size then HashExisting(u, digest) else Failed
  }

  function HashStep(f: Formats, store: Store, u: Upload, digest: string): Request {
    if u.size > 0 && InRange(store, UploadKey(u), 0, u.size)
       && f.sha(store[UploadKey(u)][0..u.size]) == digest
    then Uploaded(u, Receipt(u.path, u.size, digest)) else Failed
  }

  function Sent(u: Upload, n: nat): Bytes {
    if n <= |u.source| then u.source[..n] else u.source
  }

  function UploadPutStep(f: Formats, store: Store, u: Upload, reply: Reply): (Store, Request) {
    if reply.Lost? || |u.source| < u.size then (store, Failed)
    else
      var body := u.source[..u.size];
      (PutIfAbsent(store, UploadKey(u), body),
       if reply.LostAfter? then Failed
       else if UploadKey(u) in store then RestatUpload(u, f.sha(Sent(u, reply.read)))
       else Uploaded(u, Receipt(u.path, u.size, f.sha(body))))
  }

  function ManifestStep(f: Formats, store: Store, c: Commit, at: PutPoint, reply: Reply): (Store, Request) {
    var (next, result) := PutStep(store, CommitManifest(c), c.bytes, at, reply);
    (next, match result
           case Go(p) => PutManifest(c, p)
           case Present => PutMarker(c, Stat)
           case Refused => Failed)
  }

  function MarkerStep(f: Formats, store: Store, c: Commit, at: PutPoint, reply: Reply): (Store, Request) {
    var (next, result) := PutStep(store, CommitMarker(c), f.writeMarker(MarkerOf(f, c)), at, reply);
    (next, match result
           case Go(p) => PutMarker(c, p)
           case Present => Committed(c)
           case Refused => ReadMarker(c))
  }

  /** A marker that conflicts byte for byte is still a success when it names the same manifest. */
  function ReadMarkerStep(f: Formats, store: Store, c: Commit): Request {
    if !(CommitMarker(c) in store && |store[CommitMarker(c)]| <= MAX_MARKER) then Failed
    else
      var existing := f.readMarker(store[CommitMarker(c)]);
      if existing.Some? && existing.value.version == VERSION && existing.value.step == c.manifest.globalStep
         && existing.value.digest == f.sha(c.bytes)
      then Committed(c) else Failed
  }

  function Step(f: Formats, store: Store, r: Request, reply: Reply): (Store, Request) {
    match r
    case StatUpload(u) =>
      (store,
       if !reply.Answer? then Failed
       else if UploadKey(u) !in store then PutUpload(u)
       else if |u.source| != u.size then Failed
       else SizeStep(store, u, f.sha(u.source)))
    case PutUpload(u) => UploadPutStep(f, store, u, reply)
    case RestatUpload(u, digest) => (store, if reply.Answer? then SizeStep(store, u, digest) else Failed)
    case HashExisting(u, digest) => (store, if reply.Answer? then HashStep(f, store, u, digest) else Failed)
    case ReadOptimizer(c) => (store, if reply.Answer? then OptimizerStep(f, store, c) else Failed)
    case StatObject(c, i) =>
      (store,
       if reply.Answer? && i < |c.objects|
          && InRange(store, ObjectAt(c.manifest.runId, c.manifest.globalStep, c.objects[i].path),
                     c.objects[i].offset, c.objects[i].length)
       then HashObject(c, i) else Failed)
    case HashObject(c, i) =>
      (store,
       if reply.Answer? && i < |c.objects|
          && Verified(f, store, c.manifest.runId, c.manifest.globalStep, c.objects[i])
       then NextObject(c, i + 1) else Failed)
    case PutManifest(c, at) => ManifestStep(f, store, c, at, reply)
    case PutMarker(c, at) => MarkerStep(f, store, c, at, reply)
    case ReadMarker(c) => (store, if reply.Answer? then ReadMarkerStep(f, store, c) else Failed)
    case Uploaded(_, _) | Committed(_) | Failed => (store, r)
  }

  // ---- The system ----

  /** The store, every request ever begun, and the requests that have returned successfully. */
  datatype System = System(store: Store, requests: map<nat, Request>, returned: set<Request>)

  datatype Action = Begin(id: nat, request: Request) | Call(id: nat, reply: Reply)

  ghost predicate CommitOk(f: Formats, c: Commit) {
    && f.manifest(c.bytes) == Some(c.manifest) && '/' !in c.manifest.runId
    && f.timestamp(c.committedAt) && ReadsBack(f, MarkerOf(f, c))
    && forall o :: CM.Lists(c.manifest, o) <==> o in c.objects
  }

  /** The two requests the server passes on: run names hold no slash, and a committed manifest is decoded. */
  ghost predicate Starts(f: Formats, r: Request) {
    match r
    case StatUpload(u) => '/' !in u.run
    case ReadOptimizer(c) => CommitOk(f, c)
    case _ => false
  }

  ghost predicate Enabled(f: Formats, s: System, a: Action) {
    match a
    case Begin(_, r) => Starts(f, r)
    case Call(id, _) => id in s.requests
  }

  function Note(returned: set<Request>, r: Request): set<Request> {
    if r.Uploaded? || r.Committed? then returned + {r} else returned
  }

  function Apply(f: Formats, s: System, a: Action): System {
    match a
    case Begin(id, r) => s.(requests := s.requests[id := r])
    case Call(id, reply) =>
      if id !in s.requests then s
      else
        var (store, r) := Step(f, s.store, s.requests[id], reply);
        System(store, s.requests[id := r], Note(s.returned, r))
  }

  predicate Init(s: System) {
    s.store == map[] && s.requests == map[] && s.returned == {}
  }

  ghost predicate Run(f: Formats, trace: seq<System>, actions: seq<Action>) {
    && |trace| == |actions| + 1 && Init(trace[0])
    && forall i :: 0 <= i < |actions| ==>
         Enabled(f, trace[i], actions[i]) && trace[i + 1] == Apply(f, trace[i], actions[i])
  }

  // ---- Growing stores ----

  ghost predicate Grows(a: Store, b: Store) {
    forall k :: k in a ==> k in b && b[k] == a[k]
  }

  lemma VerifiedStable(f: Formats, a: Store, b: Store, run: string, step: u64, o: CM.Object)
    requires Grows(a, b) && Verified(f, a, run, step, o)
    ensures Verified(f, b, run, step, o)
  {
    assert ObjectAt(run, step, o.path) in a;
  }

  /** What a loaded checkpoint says never changes. */
  lemma LoadStable(f: Formats, a: Store, b: Store, run: string, step: u64)
    requires Grows(a, b) && LoadCommitted(f, a, run, step).Some?
    ensures LoadCommitted(f, b, run, step) == LoadCommitted(f, a, run, step)
  {
    assert MarkerAt(run, step) in a && ManifestAt(run, step) in a;
  }

  lemma CompleteStable(f: Formats, a: Store, b: Store, run: string, step: u64)
    requires Grows(a, b) && Complete(f, a, run, step)
    ensures Complete(f, b, run, step) && LoadCommitted(f, b, run, step) == LoadCommitted(f, a, run, step)
  {
    LoadStable(f, a, b, run, step);
    forall o | CM.Lists(LoadCommitted(f, b, run, step).value, o) ensures Verified(f, b, run, step, o) {
      VerifiedStable(f, a, b, run, step, o);
    }
  }

  // ---- The invariant ----

  ghost predicate ObjectsVerified(f: Formats, store: Store, c: Commit, n: nat) {
    n <= |c.objects|
    && forall i :: 0 <= i < n ==> Verified(f, store, c.manifest.runId, c.manifest.globalStep, c.objects[i])
  }

  /** All that must hold before the marker may be written. */
  ghost predicate Evidence(f: Formats, store: Store, c: Commit) {
    && Optimized(f, store, c.manifest) && ObjectsVerified(f, store, c, |c.objects|)
    && CommitManifest(c) in store && store[CommitManifest(c)] == c.bytes
  }

  /** The receipt describes the bytes that are stored. */
  ghost predicate Receipted(f: Formats, store: Store, u: Upload, receipt: Receipt) {
    && UploadKey(u) in store && receipt.path == u.path
    && receipt.byteLength == |store[UploadKey(u)]| && receipt.sha256 == f.sha(store[UploadKey(u)])
  }

  ghost predicate RequestOk(f: Formats, store: Store, r: Request) {
    match r
    case StatUpload(u) => '/' !in u.run
    case PutUpload(u) => '/' !in u.run
    case RestatUpload(u, _) => '/' !in u.run
    case HashExisting(u, _) => '/' !in u.run && UploadKey(u) in store && |store[UploadKey(u)]| == u.size
    case Uploaded(u, receipt) => Receipted(f, store, u, receipt)
    case ReadOptimizer(c) => CommitOk(f, c)
    case StatObject(c, i) => CommitOk(f, c) && Optimized(f, store, c.manifest) && ObjectsVerified(f, store, c, i)
    case HashObject(c, i) => CommitOk(f, c) && Optimized(f, store, c.manifest) && ObjectsVerified(f, store, c, i)
    case PutManifest(c, _) =>
      CommitOk(f, c) && Optimized(f, store, c.manifest) && ObjectsVerified(f, store, c, |c.objects|)
    case PutMarker(c, _) => CommitOk(f, c) && Evidence(f, store, c)
    case ReadMarker(c) => CommitOk(f, c) && Evidence(f, store, c)
    case Committed(c) => CommitOk(f, c) && Evidence(f, store, c) && CommitMarker(c) in store
    case Failed => true
  }

  /** Every key has a slash-free run, and every marker stands for a complete checkpoint. */
  ghost predicate StoreOk(f: Formats, store: Store) {
    && (forall k :: k in store ==> '/' !in k.run)
    && (forall run, step :: MarkerAt(run, step) in store ==>
          && Complete(f, store, run, step)
          && Optimized(f, store, LoadCommitted(f, store, run, step).value))
  }

  ghost predicate Inv(f: Formats, s: System) {
    && StoreOk(f, s.store)
    && (forall id :: id in s.requests ==> RequestOk(f, s.store, s.requests[id]))
    && (forall r :: r in s.returned ==> RequestOk(f, s.store, r))
  }

  lemma VerifiedPrefixStable(f: Formats, a: Store, b: Store, c: Commit, n: nat)
    requires Grows(a, b) && ObjectsVerified(f, a, c, n)
    ensures ObjectsVerified(f, b, c, n)
  {
    forall i | 0 <= i < n ensures Verified(f, b, c.manifest.runId, c.manifest.globalStep, c.objects[i]) {
      VerifiedStable(f, a, b, c.manifest.runId, c.manifest.globalStep, c.objects[i]);
    }
  }

  /** What a request knows stays true while others write. */
  lemma RequestStable(f: Formats, a: Store, b: Store, r: Request)
    requires Grows(a, b) && RequestOk(f, a, r)
    ensures RequestOk(f, b, r)
  {
    match r
    case StatObject(c, i) => VerifiedPrefixStable(f, a, b, c, i);
    case HashObject(c, i) => VerifiedPrefixStable(f, a, b, c, i);
    case PutManifest(c, _) => VerifiedPrefixStable(f, a, b, c, |c.objects|);
    case PutMarker(c, _) => VerifiedPrefixStable(f, a, b, c, |c.objects|);
    case ReadMarker(c) => VerifiedPrefixStable(f, a, b, c, |c.objects|);
    case Committed(c) => VerifiedPrefixStable(f, a, b, c, |c.objects|);
    case _ =>
  }

  lemma PutGrows(store: Store, key: Key, data: Bytes, at: PutPoint, reply: Reply)
    ensures var (next, result) := PutStep(store, key, data, at, reply);
      && Grows(store, next) && (next == store || (key !in store && next == store[key := data]))
      && (result == Present ==> key in next && next[key] == data)
  {
  }

  /** A call adds at most one key that was not there: an upload's PUT the first `size` bytes of its source under
      its own path, a commit's PUTs the posted manifest and a marker of it, and no other call anything. */
  ghost predicate Adds(f: Formats, store: Store, next: Store, r: Request) {
    next == store ||
    match r
    case PutUpload(u) =>
      && '/' !in u.run && ObjectAt(u.run, u.step, u.path) !in store && u.size <= |u.source|
      && next == store[ObjectAt(u.run, u.step, u.path) := u.source[..u.size]]
    case PutManifest(c, _) =>
      var key := ObjectAt(c.manifest.runId, c.manifest.globalStep, "manifest.json");
      '/' !in key.run && key !in store && next == store[key := c.bytes]
    case PutMarker(c, _) =>
      var key := MarkerAt(c.manifest.runId, c.manifest.globalStep);
      '/' !in key.run && key !in store && next == store[key := f.writeMarker(MarkerFor(f, c))]
    case _ => false
  }

  /** The marker of a commit: of version 2, with its step, the digest of the posted bytes, the time and the job. */
  ghost function MarkerFor(f: Formats, c: Commit): Marker {
    Marker(2, c.manifest.globalStep, f.sha(c.bytes), c.committedAt, c.jobId)
  }

  lemma StepAdds(f: Formats, store: Store, r: Request, reply: Reply)
    requires RequestOk(f, store, r)
    ensures Grows(store, Step(f, store, r, reply).0)
    ensures Adds(f, store, Step(f, store, r, reply).0, r)
  {
    match r
    case PutManifest(c, at) =>
      PutGrows(store, CommitManifest(c), c.bytes, at, reply);
    case PutMarker(c, at) =>
      PutGrows(store, CommitMarker(c), f.writeMarker(MarkerOf(f, c)), at, reply);
    case _ =>
  }

  /** The request a request began as. */
  function Origin(r: Request): Option<Request> {
    match r
    case StatUpload(u) => Some(StatUpload(u))
    case PutUpload(u) => Some(StatUpload(u))
    case RestatUpload(u, _) => Some(StatUpload(u))
    case HashExisting(u, _) => Some(StatUpload(u))
    case Uploaded(u, _) => Some(StatUpload(u))
    case ReadOptimizer(c) => Some(ReadOptimizer(c))
    case StatObject(c, _) => Some(ReadOptimizer(c))
    case HashObject(c, _) => Some(ReadOptimizer(c))
    case PutManifest(c, _) => Some(ReadOptimizer(c))
    case PutMarker(c, _) => Some(ReadOptimizer(c))
    case ReadMarker(c) => Some(ReadOptimizer(c))
    case Committed(c) => Some(ReadOptimizer(c))
    case Failed => None
  }

  lemma StepKeepsOrigin(f: Formats, store: Store, r: Request, reply: Reply)
    ensures var next := Step(f, store, r, reply).1; next == Failed || Origin(next) == Origin(r)
  {
  }

  lemma MarkerLoads(f: Formats, store: Store, c: Commit, next: Store)
    requires Sound(f) && CommitOk(f, c) && Evidence(f, store, c)
    requires next == store[CommitMarker(c) := f.writeMarker(MarkerOf(f, c))]
    ensures LoadCommitted(f, next, c.manifest.runId, c.manifest.globalStep) == Some(c.manifest)
  {
    assert f.readMarker(next[CommitMarker(c)]) == Some(MarkerOf(f, c));
    assert next[CommitManifest(c)] == c.bytes;
  }

  /** Evidence and a freshly written marker make a complete checkpoint. */
  lemma MarkerCompletes(f: Formats, store: Store, c: Commit, next: Store)
    requires Sound(f) && CommitOk(f, c) && Evidence(f, store, c)
    requires CommitMarker(c) !in store && next == store[CommitMarker(c) := f.writeMarker(MarkerOf(f, c))]
    ensures Complete(f, next, c.manifest.runId, c.manifest.globalStep)
    ensures Optimized(f, next, LoadCommitted(f, next, c.manifest.runId, c.manifest.globalStep).value)
  {
    MarkerLoads(f, store, c, next);
    forall o | CM.Lists(c.manifest, o) ensures Verified(f, next, c.manifest.runId, c.manifest.globalStep, o) {
      EvidenceOf(f, store, c, o);
      VerifiedStable(f, store, next, c.manifest.runId, c.manifest.globalStep, o);
    }
  }

  lemma EvidenceOf(f: Formats, store: Store, c: Commit, o: CM.Object)
    requires CommitOk(f, c) && Evidence(f, store, c) && CM.Lists(c.manifest, o)
    ensures Verified(f, store, c.manifest.runId, c.manifest.globalStep, o)
  {
    assert o in c.objects;
  }

  lemma StepKeepsStore(f: Formats, store: Store, r: Request, reply: Reply)
    requires Sound(f) && StoreOk(f, store) && RequestOk(f, store, r)
    ensures StoreOk(f, Step(f, store, r, reply).0)
  {
    var next := Step(f, store, r, reply).0;
    StepAdds(f, store, r, reply);
    forall run, step | MarkerAt(run, step) in next
      ensures Complete(f, next, run, step) && Optimized(f, next, LoadCommitted(f, next, run, step).value)
    {
      if MarkerAt(run, step) in store {
        CompleteStable(f, store, next, run, step);
      } else {
        MarkerCompletes(f, store, r.c, next);
      }
    }
  }

  lemma PutKeepsRequest(f: Formats, store: Store, r: Request, reply: Reply)
    requires (r.PutManifest? || r.PutMarker?) && RequestOk(f, store, r)
    ensures RequestOk(f, Step(f, store, r, reply).0, Step(f, store, r, reply).1)
  {
    var key := if r.PutManifest? then CommitManifest(r.c) else CommitMarker(r.c);
    var data := if r.PutManifest? then r.c.bytes else f.writeMarker(MarkerOf(f, r.c));
    PutGrows(store, key, data, r.at, reply);
    VerifiedPrefixStable(f, store, Step(f, store, r, reply).0, r.c, |r.c.objects|);
  }

  lemma StepKeepsRequest(f: Formats, store: Store, r: Request, reply: Reply)
    requires RequestOk(f, store, r)
    ensures RequestOk(f, Step(f, store, r, reply).0, Step(f, store, r, reply).1)
  {
    if r.PutManifest? || r.PutMarker? {
      PutKeepsRequest(f, store, r, reply);
    } else if r.HashExisting? {
      var key := UploadKey(r.u);
      assert store[key][0..|store[key]|] == store[key];
    }
  }

  lemma ApplyKeepsInv(f: Formats, s: System, a: Action)
    requires Sound(f) && Inv(f, s) && Enabled(f, s, a)
    ensures Inv(f, Apply(f, s, a)) && Grows(s.store, Apply(f, s, a).store)
  {
    match a
    case Begin(id, r) =>
    case Call(id, reply) =>
      var r := s.requests[id];
      var next := Step(f, s.store, r, reply).0;
      StepAdds(f, s.store, r, reply);
      StepKeepsStore(f, s.store, r, reply);
      StepKeepsRequest(f, s.store, r, reply);
      forall q | RequestOk(f, s.store, q) ensures RequestOk(f, next, q) {
        RequestStable(f, s.store, next, q);
      }
  }

  // ---- What holds in every run ----

  lemma {:induction false} RunInv(f: Formats, trace: seq<System>, actions: seq<Action>, n: nat)
    requires Sound(f) && Run(f, trace, actions) && n <= |actions|
    ensures Inv(f, trace[n])
  {
    if n > 0 {
      RunInv(f, trace, actions, n - 1);
      ApplyKeepsInv(f, trace[n - 1], actions[n - 1]);
    }
  }

  /** A later system holds all that was stored and all that was returned. */
  ghost predicate Later(a: System, b: System) {
    Grows(a.store, b.store) && a.returned <= b.returned
  }

  ghost predicate LaterAt(trace: seq<System>, k: nat) {
    k + 1 < |trace| && Later(trace[k], trace[k + 1])
  }

  lemma NextIsLater(f: Formats, trace: seq<System>, actions: seq<Action>, k: nat)
    requires Sound(f) && Run(f, trace, actions) && k < |actions|
    ensures LaterAt(trace, k)
  {
    RunInv(f, trace, actions, k);
    ApplyKeepsInv(f, trace[k], actions[k]);
  }

  lemma {:induction false} LaterChain(trace: seq<System>, i: nat, n: nat)
    requires i <= n < |trace| && forall k: nat :: k < |trace| - 1 ==> LaterAt(trace, k)
    ensures Later(trace[i], trace[n])
    decreases n
  {
    if i < n {
      LaterChain(trace, i, n - 1);
      assert LaterAt(trace, n - 1);
    }
  }

  lemma RunIsLater(f: Formats, trace: seq<System>, actions: seq<Action>)
    requires Sound(f) && Run(f, trace, actions)
    ensures forall k: nat :: k < |trace| - 1 ==> LaterAt(trace, k)
  {
    forall k: nat | k < |trace| - 1 ensures LaterAt(trace, k) {
      NextIsLater(f, trace, actions, k);
    }
  }

  lemma RunGrows(f: Formats, trace: seq<System>, actions: seq<Action>, i: nat, n: nat)
    requires Sound(f) && Run(f, trace, actions) && i <= n <= |actions|
    ensures Later(trace[i], trace[n])
  {
    RunIsLater(f, trace, actions);
    LaterChain(trace, i, n);
  }

  /** A request that returned knows what it knew, ever after. */
  lemma ReturnedStaysTrue(f: Formats, trace: seq<System>, actions: seq<Action>, i: nat, j: nat, r: Request)
    requires Sound(f) && Run(f, trace, actions) && i <= j <= |actions| && r in trace[i].returned
    ensures RequestOk(f, trace[j].store, r)
  {
    RunGrows(f, trace, actions, i, j);
    RunInv(f, trace, actions, j);
  }

  /** At every point of every run, a stored marker means: the manifest beside it has the marker's digest and the
      marker's run and step, the manifest is one the validator accepts, every chunk and artifact it names is
      stored with its range and hash, and the optimizer metadata decodes. */
  lemma MarkersAreSound(f: Formats, lib: CM.Library, trace: seq<System>, actions: seq<Action>, n: nat,
                        run: string, step: u64)
    requires Sound(f) && Validates(f, lib) && Run(f, trace, actions) && n <= |actions|
    requires MarkerAt(run, step) in trace[n].store
    ensures var store, manifest := trace[n].store, ObjectAt(run, step, "manifest.json");
      && manifest in store && f.manifest(store[manifest]).Some?
      && var m := f.manifest(store[manifest]).value;
         && Marks(f, store, run, step, m) && CM.Accepted(lib, m)
         && Backed(f, store, run, step, m) && Optimized(f, store, m)
  {
    RunInv(f, trace, actions, n);
    assert Complete(f, trace[n].store, run, step);
    var m := LoadCommitted(f, trace[n].store, run, step).value;
    LoadsExactly(f, trace[n].store, run, step, m);
    BackedExactly(f, trace[n].store, run, step, m);
  }

  // ---- Where stored bytes come from ----

  lemma {:induction false} BeganAt(f: Formats, trace: seq<System>, actions: seq<Action>, n: nat, id: nat)
    returns (i: nat)
    requires Run(f, trace, actions) && n <= |actions| && id in trace[n].requests && trace[n].requests[id] != Failed
    ensures i < n && actions[i].Begin? && Origin(trace[n].requests[id]) == Some(actions[i].request)
  {
    i := n - 1;
    ApplyKeepsOrigin(f, trace[i], actions[i], id);
    if !(actions[i].Begin? && actions[i].id == id) {
      i := BeganAt(f, trace, actions, n - 1, id);
    }
  }

  lemma ApplyKeepsOrigin(f: Formats, s: System, a: Action, id: nat)
    requires Enabled(f, s, a) && id in Apply(f, s, a).requests && Apply(f, s, a).requests[id] != Failed
    ensures if a.Begin? && a.id == id then Origin(Apply(f, s, a).requests[id]) == Some(a.request)
            else id in s.requests && s.requests[id] != Failed
                 && Origin(Apply(f, s, a).requests[id]) == Origin(s.requests[id])
  {
    if a.Call? && a.id == id {
      StepKeepsOrigin(f, s.store, s.requests[id], a.reply);
    }
  }

  /** A key that a step adds is one that the request of the step sends. */
  lemma ApplyAdds(f: Formats, s: System, a: Action, key: Key)
    requires Inv(f, s) && Enabled(f, s, a) && key in Apply(f, s, a).store && key !in s.store
    ensures a.Call? && s.requests[a.id] != Failed
    ensures Sends(f, Origin(s.requests[a.id]).value, key, Apply(f, s, a).store[key])
  {
    StepAdds(f, s.store, s.requests[a.id], a.reply);
  }

  /** A stored key was added at some step. */
  lemma {:induction false} AddedAt(trace: seq<System>, n: nat, key: Key) returns (k: nat)
    requires n < |trace| && key in trace[n].store && key !in trace[0].store
    ensures k < n && key !in trace[k].store && key in trace[k + 1].store
  {
    k := n - 1;
    if key in trace[k].store {
      k := AddedAt(trace, k, key);
    }
  }

  lemma StepAddsKey(f: Formats, trace: seq<System>, actions: seq<Action>, k: nat, key: Key) returns (i: nat)
    requires Sound(f) && Run(f, trace, actions) && k < |actions|
    requires key !in trace[k].store && key in trace[k + 1].store
    ensures i < k && actions[i].Begin? && Sends(f, actions[i].request, key, trace[k + 1].store[key])
  {
    RunInv(f, trace, actions, k);
    ApplyAdds(f, trace[k], actions[k], key);
    i := BeganAt(f, trace, actions, k, actions[k].id);
  }

  /** What a request sends under a key: an upload the first `size` bytes of its source under its own path, a
      commit its posted bytes as the step's manifest and a marker of them. */
  ghost predicate Sends(f: Formats, start: Request, key: Key, bytes: Bytes) {
    match start
    case StatUpload(u) =>
      key == ObjectAt(u.run, u.step, u.path) && u.size <= |u.source| && bytes == u.source[..u.size]
    case ReadOptimizer(c) =>
      || (key == ObjectAt(c.manifest.runId, c.manifest.globalStep, "manifest.json") && bytes == c.bytes)
      || (key == MarkerAt(c.manifest.runId, c.manifest.globalStep) && bytes == f.writeMarker(MarkerFor(f, c)))
    case _ => false
  }

  /** At every point of every run, whatever is stored under a key is what some request, begun before, sends
      under it. */
  lemma StoredWasSent(f: Formats, trace: seq<System>, actions: seq<Action>, n: nat, key: Key)
    returns (i: nat)
    requires Sound(f) && Run(f, trace, actions) && n <= |actions| && key in trace[n].store
    ensures i < n && actions[i].Begin? && Sends(f, actions[i].request, key, trace[n].store[key])
  {
    var k := AddedAt(trace, n, key);
    i := StepAddsKey(f, trace, actions, k, key);
    RunGrows(f, trace, actions, k + 1, n);
  }

  /** Two commits of one step that return successfully, at any two points of a run and from any
      flushers, committed the same manifest bytes. */
  lemma OneManifestPerStep(f: Formats, trace: seq<System>, actions: seq<Action>,
                           i: nat, j: nat, c: Commit, d: Commit)
    requires Sound(f) && Run(f, trace, actions) && i <= j <= |actions|
    requires Committed(c) in trace[i].returned && Committed(d) in trace[j].returned
    requires c.manifest.runId == d.manifest.runId && c.manifest.globalStep == d.manifest.globalStep
    ensures c.bytes == d.bytes && c.manifest == d.manifest
  {
    ReturnedStaysTrue(f, trace, actions, i, j, Committed(c));
    ReturnedStaysTrue(f, trace, actions, j, j, Committed(d));
  }

  /** A returned receipt describes the stored bytes, then and ever after. */
  lemma ReceiptsAreTrue(f: Formats, trace: seq<System>, actions: seq<Action>,
                        i: nat, j: nat, u: Upload, receipt: Receipt)
    requires Sound(f) && Run(f, trace, actions) && i <= j <= |actions|
    requires Uploaded(u, receipt) in trace[i].returned
    ensures Receipted(f, trace[j].store, u, receipt)
  {
    ReturnedStaysTrue(f, trace, actions, i, j, Uploaded(u, receipt));
  }

  /** A committed checkpoint stays committed, with the same manifest, for the rest of the run. */
  lemma CommittedForever(f: Formats, trace: seq<System>, actions: seq<Action>,
                         i: nat, j: nat, c: Commit)
    requires Sound(f) && Run(f, trace, actions) && i <= j <= |actions|
    requires Committed(c) in trace[i].returned
    ensures Complete(f, trace[j].store, c.manifest.runId, c.manifest.globalStep)
    ensures LoadCommitted(f, trace[j].store, c.manifest.runId, c.manifest.globalStep) == Some(c.manifest)
  {
    ReturnedStaysTrue(f, trace, actions, i, j, Committed(c));
    RunInv(f, trace, actions, j);
    assert Complete(f, trace[j].store, c.manifest.runId, c.manifest.globalStep);
  }

  // ---- Reachable systems ----

  ghost predicate Reachable(f: Formats, s: System) {
    exists trace, actions :: Run(f, trace, actions) && trace[|actions|] == s
  }

  lemma ReachableInit(f: Formats)
    ensures Reachable(f, System(map[], map[], {}))
  {
    var s := System(map[], map[], {});
    assert Run(f, [s], []);
  }

  lemma ReachableApply(f: Formats, s: System, a: Action)
    requires Reachable(f, s) && Enabled(f, s, a)
    ensures Reachable(f, Apply(f, s, a))
  {
    var trace, actions :| Run(f, trace, actions) && trace[|actions|] == s;
    assert Run(f, trace + [Apply(f, s, a)], actions + [a]);
  }

  lemma ReachableInv(f: Formats, s: System)
    requires Sound(f) && Reachable(f, s)
    ensures Inv(f, s)
  {
    var trace, actions :| Run(f, trace, actions) && trace[|actions|] == s;
    RunInv(f, trace, actions, |actions|);
  }
}
