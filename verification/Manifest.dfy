/** Checkpoint manifests: which decoded manifests the validator accepts, and what
    acceptance guarantees. */
module CheckpointManifest {
  import opened Bags
  import opened Boxes

  const VERSION := 2
  const MAX_CHUNKS := 4096
  const MAX_DIMENSIONS := 16
  const MAX_U64: nat := 0xffff_ffff_ffff_ffff

  /** Values of this type never wrap: every assignment to it is proved in range. */
  type u64 = x: nat | x <= MAX_U64

  datatype Float = Finite(value: real) | Infinite | NotANumber

  /** The two library calls whose results the validator depends on. */
  datatype Library = Library(rfc3339: string -> bool, clean: string -> string)

  datatype Manifest = Manifest(
    version: int, runId: string, globalStep: u64, epoch: Float, createdAt: string,
    metadata: Metadata, world: World, tensors: map<string, Tensor>, state: State)

  datatype Metadata = Metadata(
    totalParameters: u64, dtype: string, modelId: string, schemaHash: string, datasetId: string,
    imageDigest: string, framework: string, frameworkVersion: string, adapterVersions: map<string, string>)

  datatype World = World(size: int, ranks: seq<Rank>)
  datatype Rank = Rank(rank: int, hardware: string, adapter: string)

  datatype Tensor = Tensor(
    role: string, shape: seq<u64>, dtype: string, byteOrder: string, layout: string,
    quantization: Option<Quantization>, chunks: seq<Chunk>)

  datatype Quantization = Quantization(
    scheme: string, scale: Float, zeroPoint: int, rounding: string, clampLow: int, clampHigh: int)

  datatype Chunk = Chunk(
    id: string, path: string, slice: Box, shape: seq<u64>,
    byteOffset: u64, byteLength: u64, sha256: string, writerRank: int)

  datatype State = State(optimizer: Artifact, hasScheduler: bool, rng: map<string, Artifact>, hasDataCursor: bool)
  datatype Artifact = Artifact(path: string, byteLength: u64, sha256: string)

  datatype Object = Object(id: string, path: string, offset: u64, length: u64, sha256: string, writerRank: int)

  datatype Compatibility = Compatibility(
    modelId: string, schemaHash: string, datasetId: string, imageDigest: string,
    framework: string, frameworkVersion: string, adapterVersions: map<string, string>)

  // --- lexical checks ---------------------------------------------------

  predicate Alphanumeric(c: char) {
    'A' <= c <= 'Z' || 'a' <= c <= 'z' || '0' <= c <= '9'
  }

  predicate Identifier(s: string, extra: string, limit: nat) {
    && 1 <= |s| <= limit
    && Alphanumeric(s[0])
    && forall i :: 0 <= i < |s| ==> Alphanumeric(s[i]) || s[i] in extra
  }

  predicate ValidId(s: string) { Identifier(s, "._-", 128) }
  predicate ValidTensorName(s: string) { Identifier(s, "._:/-", 512) }
  predicate ValidAdapter(s: string) { Identifier(s, "._-", 64) }

  predicate ValidHash(s: string) {
    |s| == 64 && forall i :: 0 <= i < |s| ==> '0' <= s[i] <= '9' || 'a' <= s[i] <= 'f'
  }

  predicate ValidStoragePath(lib: Library, s: string) {
    && s != "" && |s| <= 1024 && '\\' !in s && '\0' !in s
    && !("/" <= s) && lib.clean(s) == s && s != "." && !("../" <= s)
  }

  function DtypeSize(dtype: string): (size: Option<nat>)
    ensures size.Some? ==> 1 <= size.value <= 8
  {
    match dtype
    case "float16" => Some(2)
    case "bfloat16" => Some(2)
    case "float32" => Some(4)
    case "float64" => Some(8)
    case "int8" => Some(1)
    case "uint8" => Some(1)
    case "int16" => Some(2)
    case "int32" => Some(4)
    case "int64" => Some(8)
    case "bool" => Some(1)
    case _ => None
  }

  function Digits(s: string): (value: Option<nat>) {
    if s == "" then None
    else
      var d := s[|s| - 1];
      if !('0' <= d <= '9') then None
      else if |s| == 1 then Some((d - '0') as nat)
      else
        var front := Digits(s[..|s| - 1]);
        if front.None? then None else Some(10 * front.value + (d - '0') as nat)
  }

  /** strconv.Atoi on a 64-bit platform: an optional sign, decimal digits, and the int64 range. */
  function Atoi(s: string): (value: Option<int>) {
    var negative := s != "" && s[0] == '-';
    var digits := Digits(if s != "" && (s[0] == '-' || s[0] == '+') then s[1..] else s);
    if digits.None? then None
    else if negative then if digits.value <= 0x8000_0000_0000_0000 then Some(-(digits.value as int)) else None
    else if digits.value < 0x8000_0000_0000_0000 then Some(digits.value) else None
  }

  // --- what a valid manifest is, without an order -----------------------

  predicate MetadataOk(m: Metadata) {
    && DtypeSize(m.dtype).Some?
    && 1 <= |m.modelId| <= 512 && 1 <= |m.datasetId| <= 512
    && 1 <= |m.framework| <= 512 && 1 <= |m.frameworkVersion| <= 512
    && ValidHash(m.schemaHash)
    && "sha256:" <= m.imageDigest && ValidHash(m.imageDigest[7..])
    && 1 <= |m.adapterVersions| <= 64
    && forall name :: name in m.adapterVersions ==> ValidAdapter(name) && 1 <= |m.adapterVersions[name]| <= 64
  }

  predicate RankOk(r: Rank, size: int) {
    && 0 <= r.rank < size
    && r.hardware in ["cpu", "nvidia-gpu", "opentpu-sim"]
    && 1 <= |r.adapter| <= 64
  }

  predicate WorldOk(w: World) {
    && 1 <= w.size <= 65536 && |w.ranks| == w.size
    && (forall i :: 0 <= i < |w.ranks| ==> RankOk(w.ranks[i], w.size))
    && (forall i, j :: 0 <= i < j < |w.ranks| ==> w.ranks[i].rank != w.ranks[j].rank)
  }

  predicate QuantizationOk(q: Quantization, dtype: string) {
    && q.scheme == "affine_int8" && q.scale.Finite? && q.scale.value > 0.0
    && -128 <= q.zeroPoint <= 127 && q.rounding == "ties_to_even" && q.clampLow == -128 && q.clampHigh == 127
    && (dtype == "float32" || dtype == "bfloat16")
  }

  predicate ShapeOk(shape: seq<u64>) {
    && 1 <= |shape| <= 16
    && (forall k :: 0 <= k < |shape| ==> shape[k] > 0)
    && Product(shape) <= MAX_U64
  }

  /** A chunk on its own: a non-empty box inside the tensor whose bytes are exactly its elements. */
  predicate ChunkOk(lib: Library, c: Chunk, t: Tensor, world: World, size: nat) {
    && ValidId(c.id) && ValidStoragePath(lib, c.path)
    && NonEmpty(c.slice) && Inside(c.slice, t.shape) && Extents(c.slice) == c.shape
    && Volume(c.slice) * size == c.byteLength && c.byteOffset + c.byteLength <= MAX_U64
    && ValidHash(c.sha256) && 0 <= c.writerRank < world.size
  }

  function Slices(chunks: seq<Chunk>): (boxes: seq<Box>)
    ensures |boxes| == |chunks|
  {
    seq(|chunks|, i requires 0 <= i < |chunks| => chunks[i].slice)
  }

  predicate HeaderOk(t: Tensor) {
    && t.role in ["model_parameter", "model_buffer", "optimizer_tensor", "application_state"]
    && ShapeOk(t.shape)
    && DtypeSize(t.dtype).Some? && t.byteOrder == "little" && t.layout == "C" && t.chunks != []
    && (t.quantization.Some? ==> QuantizationOk(t.quantization.value, t.dtype))
  }

  /** A tensor on its own: its chunks tile its index space. */
  ghost predicate TensorOk(lib: Library, t: Tensor, world: World) {
    && HeaderOk(t)
    && (forall i :: 0 <= i < |t.chunks| ==> ChunkOk(lib, t.chunks[i], t, world, DtypeSize(t.dtype).value))
    && ExactPartition(t.shape, Slices(t.chunks))
  }

  predicate ArtifactOk(lib: Library, a: Artifact) {
    ValidStoragePath(lib, a.path) && a.byteLength > 0 && ValidHash(a.sha256)
  }

  predicate RngRankOk(key: string, world: World) {
    var value := Atoi(key);
    value.Some? && 0 <= value.value < world.size
  }

  predicate StateOk(lib: Library, s: State, world: World) {
    && ArtifactOk(lib, s.optimizer)
    && s.hasScheduler && s.hasDataCursor && |s.rng| == world.size
    && forall key :: key in s.rng ==> RngRankOk(key, world) && ArtifactOk(lib, s.rng[key])
  }

  ghost function IdBag(c: Chunk): multiset<string> { multiset{c.id} }
  ghost function PathBag(c: Chunk): multiset<string> { multiset{c.path} }
  ghost function TensorIds(t: Tensor): multiset<string> { BagOf(t.chunks, IdBag) }
  ghost function TensorPaths(t: Tensor): multiset<string> { BagOf(t.chunks, PathBag) }
  ghost function ArtifactBag(a: Artifact): multiset<string> { multiset{a.path} }

  /** The number of model parameters a tensor contributes, as an unbounded product. */
  ghost function Parameters(t: Tensor): nat {
    if t.role == "model_parameter" then Product(t.shape) else 0
  }

  ghost function ChunkCount(t: Tensor): nat { |t.chunks| }

  /** Every storage path the manifest names, with repetitions. */
  ghost function AllPaths(m: Manifest): multiset<string> {
    Bag(m.tensors, TensorPaths) + multiset{m.state.optimizer.path} + Bag(m.state.rng, ArtifactBag)
  }

  ghost predicate NamedTensorOk(lib: Library, m: Manifest, name: string)
    requires name in m.tensors
  {
    && ValidTensorName(name) && TensorOk(lib, m.tensors[name], m.world)
    && (m.tensors[name].role == "model_parameter" ==> m.tensors[name].dtype == m.metadata.dtype)
  }

  predicate PreambleOk(lib: Library, m: Manifest) {
    && m.version == 2 && ValidId(m.runId)
    && m.epoch.Finite? && m.epoch.value >= 0.0 && lib.rfc3339(m.createdAt)
    && MetadataOk(m.metadata) && WorldOk(m.world)
    && (forall i :: 0 <= i < |m.world.ranks| ==>
          m.world.ranks[i].hardware in m.metadata.adapterVersions
          && m.metadata.adapterVersions[m.world.ranks[i].hardware] != "")
    && m.tensors != map[]
  }

  /** The meaning of acceptance. No clause mentions the order in which a map is visited. */
  ghost predicate Accepted(lib: Library, m: Manifest) {
    && PreambleOk(lib, m)
    && (forall name :: name in m.tensors ==> NamedTensorOk(lib, m, name))
    && Single(Bag(m.tensors, TensorIds))
    && Sum(m.tensors, ChunkCount) <= 4096
    && Sum(m.tensors, Parameters) == m.metadata.totalParameters
    && StateOk(lib, m.state, m.world)
    && Single(AllPaths(m))
  }

  // --- the validator ----------------------------------------------------

  lemma {:induction false} ProductGrows(shape: seq<nat>, n: nat)
    requires n <= |shape|
    requires forall k :: 0 <= k < |shape| ==> shape[k] > 0
    ensures 0 < Product(shape[..n]) <= Product(shape)
  {
    if n == |shape| {
      assert shape[..n] == shape;
      if n > 0 {
        ProductGrows(shape[..n - 1], n - 1);
        assert shape[..n - 1][..n - 1] == shape[..n - 1];
      }
    } else {
      var front := shape[..|shape| - 1];
      ProductGrows(front, n);
      assert front[..n] == shape[..n];
      assert Product(front) * 1 <= Product(front) * shape[|shape| - 1];
    }
  }

  /** The overflow-guarded product succeeds exactly when the true product fits. */
  method CheckedProduct(shape: seq<u64>) returns (r: Option<u64>)
    ensures r.Some? <==> (forall k :: 0 <= k < |shape| ==> shape[k] > 0) && Product(shape) <= MAX_U64
    ensures r.Some? ==> r.value == Product(shape)
  {
    var result: u64 := 1;
    for i := 0 to |shape|
      invariant result == Product(shape[..i])
      invariant forall k :: 0 <= k < i ==> shape[k] > 0
    {
      var dimension := shape[i];
      assert shape[..i + 1][..i] == shape[..i];
      if dimension == 0 || result > MAX_U64 / dimension {
        if forall k :: 0 <= k < |shape| ==> shape[k] > 0 {
          ProductGrows(shape, i + 1);
          QuotientGuard(result, dimension);
        }
        return None;
      }
      QuotientGuard(result, dimension);
      result := result * dimension;
    }
    assert shape[..|shape|] == shape;
    return Some(result);
  }

  lemma QuotientGuard(a: nat, b: nat)
    requires b > 0
    ensures a > MAX_U64 / b <==> a * b > MAX_U64
  {
    var q := MAX_U64 / b;
    assert MAX_U64 == q * b + MAX_U64 % b;
    if a <= q {
      assert a * b <= q * b;
    } else {
      assert a * b >= (q + 1) * b == q * b + b;
    }
  }

  method ValidateWorld(w: World) returns (ok: bool)
    ensures ok <==> WorldOk(w)
  {
    if w.size < 1 || w.size > 65536 || |w.ranks| != w.size {
      return false;
    }
    var seen := new bool[w.size](_ => false);
    for i := 0 to |w.ranks|
      invariant forall k :: 0 <= k < i ==> RankOk(w.ranks[k], w.size) && seen[w.ranks[k].rank]
      invariant forall r :: 0 <= r < w.size && seen[r] ==> exists k :: 0 <= k < i && w.ranks[k].rank == r
      invariant forall j, k :: 0 <= j < k < i ==> w.ranks[j].rank != w.ranks[k].rank
    {
      var rank := w.ranks[i];
      if rank.rank < 0 || rank.rank >= w.size || seen[rank.rank] {
        return false;
      }
      seen[rank.rank] := true;
      if rank.hardware !in ["cpu", "nvidia-gpu", "opentpu-sim"] || rank.adapter == "" || |rank.adapter| > 64 {
        return false;
      }
    }
    return true;
  }

  /** The maps the validator threads through every tensor and artifact. */
  class Registry {
    var paths: set<string>
    var chunkIds: set<string>

    constructor ()
      ensures paths == {} && chunkIds == {}
    {
      paths, chunkIds := {}, {};
    }

    method UniquePath(lib: Library, value: string) returns (ok: bool)
      modifies this`paths
      ensures ok <==> ValidStoragePath(lib, value) && value !in old(paths)
      ensures paths == if ok then old(paths) + {value} else old(paths)
    {
      if !ValidStoragePath(lib, value) || value in paths {
        return false;
      }
      paths := paths + {value};
      return true;
    }

    method ValidateArtifact(lib: Library, a: Artifact) returns (ok: bool)
      modifies this`paths
      ensures ok <==> ArtifactOk(lib, a) && a.path !in old(paths)
      ensures ok ==> paths == old(paths) + {a.path}
    {
      ok := UniquePath(lib, a.path);
      ok := ok && a.byteLength != 0 && ValidHash(a.sha256);
    }

    /** Bounds and shape of one chunk, dimension by dimension. */
    method SliceOk(c: Chunk, t: Tensor) returns (ok: bool)
      ensures ok <==> NonEmpty(c.slice) && Inside(c.slice, t.shape) && Extents(c.slice) == c.shape
    {
      if |c.slice| != |t.shape| || |c.shape| != |t.shape| {
        return false;
      }
      for d := 0 to |c.slice|
        invariant forall k :: 0 <= k < d ==>
          c.slice[k].lo < c.slice[k].hi <= t.shape[k] && c.shape[k] == c.slice[k].hi - c.slice[k].lo
      {
        var bounds := c.slice[d];
        if bounds.lo >= bounds.hi || bounds.hi > t.shape[d] || c.shape[d] != bounds.hi - bounds.lo {
          return false;
        }
      }
      return true;
    }

    /** One chunk's own checks and its two uniqueness checks. */
    method ValidateChunk(lib: Library, c: Chunk, t: Tensor, world: World, size: nat)
      returns (ok: bool, elements: u64)
      requires 1 <= size <= 8
      modifies this
      ensures ok <==> ChunkOk(lib, c, t, world, size) && c.id !in old(chunkIds) && c.path !in old(paths)
      ensures ok ==> chunkIds == old(chunkIds) + {c.id} && paths == old(paths) + {c.path}
      ensures ok ==> elements == Volume(c.slice)
    {
      elements := 0;
      if !ValidId(c.id) || c.id in chunkIds {
        return false, 0;
      }
      chunkIds := chunkIds + {c.id};
      ok := UniquePath(lib, c.path);
      if !ok {
        return false, 0;
      }
      ok := SliceOk(c, t);
      if !ok {
        return false, 0;
      }
      var product := CheckedProduct(c.shape);
      QuotientGuard(Volume(c.slice), size);
      assert Volume(c.slice) * size >= Volume(c.slice);
      if product.None? || product.value > MAX_U64 / size || product.value * size != c.byteLength
         || c.byteLength == 0 || c.byteOffset > MAX_U64 - c.byteLength {
        ProductGrows(c.shape, 0);
        return false, 0;
      }
      elements := product.value;
      ok := ValidHash(c.sha256) && 0 <= c.writerRank < world.size;
    }

    /** The source's inner loop: does chunk i overlap an earlier one? */
    method OverlapsEarlier(chunks: seq<Chunk>, i: nat) returns (found: bool)
      requires i < |chunks|
      ensures found <==> exists j :: 0 <= j < i && Overlap(chunks[i].slice, chunks[j].slice)
    {
      for j := 0 to i
        invariant forall k :: 0 <= k < j ==> !Overlap(chunks[i].slice, chunks[k].slice)
      {
        if Overlap(chunks[i].slice, chunks[j].slice) {
          return true;
        }
      }
      return false;
    }

    method ValidateTensor(lib: Library, t: Tensor, world: World) returns (ok: bool)
      modifies this
      ensures ok <==>
        && TensorOk(lib, t, world)
        && Single(multiset(old(chunkIds)) + TensorIds(t))
        && Single(multiset(old(paths)) + TensorPaths(t))
      ensures ok ==> multiset(chunkIds) == multiset(old(chunkIds)) + TensorIds(t)
      ensures ok ==> multiset(paths) == multiset(old(paths)) + TensorPaths(t)
    {
      var globalElements := ValidateHeader(t);
      if globalElements.None? {
        return false;
      }
      ok := ValidateChunks(lib, t, world, globalElements.value);
    }

    method ValidateHeader(t: Tensor) returns (globalElements: Option<u64>)
      ensures globalElements.Some? <==> HeaderOk(t)
      ensures globalElements.Some? ==> globalElements.value == Product(t.shape)
    {
      if t.role !in ["model_parameter", "model_buffer", "optimizer_tensor", "application_state"] {
        return None;
      }
      if |t.shape| == 0 || |t.shape| > MAX_DIMENSIONS {
        return None;
      }
      globalElements := CheckedProduct(t.shape);
      if globalElements.None? {
        return None;
      }
      if DtypeSize(t.dtype).None? || t.byteOrder != "little" || t.layout != "C" || |t.chunks| == 0 {
        return None;
      }
      if t.quantization.Some? {
        var q := t.quantization.value;
        if q.scheme != "affine_int8" || !q.scale.Finite? || q.scale.value <= 0.0 || q.zeroPoint < -128
           || q.zeroPoint > 127 || q.rounding != "ties_to_even" || q.clampLow != -128 || q.clampHigh != 127
        {
          return None;
        }
        if t.dtype != "float32" && t.dtype != "bfloat16" {
          return None;
        }
      }
    }

    /** One pass of the chunk loop. */
    method ValidateNext(lib: Library, t: Tensor, world: World, size: nat, i: nat, covered0: u64,
                        ghost ids: multiset<string>, ghost names: multiset<string>)
      returns (ok: bool, covered: u64)
      requires HeaderOk(t) && size == DtypeSize(t.dtype).value && i < |t.chunks| && Tiled(lib, t, world, i, covered0)
      requires multiset(chunkIds) == ids + BagOf(t.chunks[..i], IdBag)
      requires multiset(paths) == names + BagOf(t.chunks[..i], PathBag)
      modifies this
      ensures ok ==> Tiled(lib, t, world, i + 1, covered)
      ensures ok ==> multiset(chunkIds) == ids + BagOf(t.chunks[..i + 1], IdBag)
      ensures ok ==> multiset(paths) == names + BagOf(t.chunks[..i + 1], PathBag)
      ensures !ok ==> !ChunksOk(lib, t, world, ids, names)
    {
      RegisterNext(chunkIds, ids, t.chunks, i, IdBag, t.chunks[i].id);
      RegisterNext(paths, names, t.chunks, i, PathBag, t.chunks[i].path);
      var elements;
      ok, elements := ValidateChunk(lib, t.chunks[i], t, world, size);
      if ok {
        ok, covered := CoverNext(lib, t, world, i, covered0, elements);
      } else {
        if ChunksOk(lib, t, world, ids, names) {
          ChunkMust(lib, t, world, ids, names, i);
        }
        covered := covered0;
      }
    }

    /** The rest of that pass, for a chunk that is sound on its own. */
    method CoverNext(lib: Library, t: Tensor, world: World, i: nat, covered0: u64, elements: u64)
      returns (ok: bool, covered: u64)
      requires HeaderOk(t) && i < |t.chunks| && Tiled(lib, t, world, i, covered0)
      requires ChunkOk(lib, t.chunks[i], t, world, DtypeSize(t.dtype).value) && elements == Volume(t.chunks[i].slice)
      ensures ok ==> Tiled(lib, t, world, i + 1, covered)
      ensures !ok ==> !TensorOk(lib, t, world)
    {
      TileStep(lib, t, world, i, covered0);
      if MAX_U64 - covered0 < elements {
        return false, covered0;
      }
      covered := covered0 + elements;
      var found := OverlapsEarlier(t.chunks, i);
      ok := !found;
    }

    /** The chunk loop: running coverage, uniqueness and pairwise overlap. */
    method ValidateChunks(lib: Library, t: Tensor, world: World, globalElements: u64) returns (ok: bool)
      requires HeaderOk(t) && globalElements == Product(t.shape)
      modifies this
      ensures ok <==>
        && TensorOk(lib, t, world)
        && Single(multiset(old(chunkIds)) + TensorIds(t))
        && Single(multiset(old(paths)) + TensorPaths(t))
      ensures ok ==> multiset(chunkIds) == multiset(old(chunkIds)) + TensorIds(t)
      ensures ok ==> multiset(paths) == multiset(old(paths)) + TensorPaths(t)
    {
      var size := DtypeSize(t.dtype).value;
      ghost var ids, names := multiset(chunkIds), multiset(paths);
      var covered: u64 := 0;
      TileNone(lib, t, world);
      for i := 0 to |t.chunks|
        invariant Tiled(lib, t, world, i, covered)
        invariant multiset(chunkIds) == ids + BagOf(t.chunks[..i], IdBag)
        invariant multiset(paths) == names + BagOf(t.chunks[..i], PathBag)
      {
        ok, covered := ValidateNext(lib, t, world, size, i, covered, ids, names);
        if !ok {
          return false;
        }
      }
      TileDone(lib, t, world, covered);
      assert t.chunks[..|t.chunks|] == t.chunks;
      SetIsSingle(chunkIds);
      SetIsSingle(paths);
      return covered == globalElements;
    }

    method ValidateState(lib: Library, s: State, world: World, rngOrder: seq<string>) returns (ok: bool)
      requires Listing(rngOrder, s.rng)
      modifies this`paths
      ensures ok <==>
        && StateOk(lib, s, world)
        && Single(multiset(old(paths)) + multiset{s.optimizer.path} + Bag(s.rng, ArtifactBag))
    {
      ghost var before := paths;
      ok := ValidateArtifact(lib, s.optimizer);
      OptimizerStep(before, s);
      if !ok {
        return;
      }
      if !s.hasScheduler || !s.hasDataCursor || |s.rng| != world.size {
        return false;
      }
      for i := 0 to |rngOrder|
        invariant RngVisited(lib, s, world, rngOrder, i, before, paths)
      {
        var key := rngOrder[i];
        assert key in s.rng;
        var value := Atoi(key);
        if value.None? || value.value < 0 || value.value >= world.size {
          assert !RngRankOk(key, world);
          return false;
        }
        RngStep(lib, s, world, rngOrder, i, before, paths);
        ok := ValidateArtifact(lib, s.rng[key]);
        if !ok {
          return;
        }
      }
      RngDone(lib, s, world, rngOrder, before, paths);
      return true;
    }
  }

  lemma OptimizerStep(before: set<string>, s: State)
    ensures s.optimizer.path in before ==>
              !Single(multiset(before) + multiset{s.optimizer.path} + Bag(s.rng, ArtifactBag))
    ensures s.optimizer.path !in before ==>
              multiset(before + {s.optimizer.path}) == multiset(before) + multiset{s.optimizer.path}
  {
    var all := multiset(before) + multiset{s.optimizer.path} + Bag(s.rng, ArtifactBag);
    assert s.optimizer.path in before ==> all[s.optimizer.path] >= 2;
  }

  ghost predicate RngVisited(lib: Library, s: State, world: World, order: seq<string>, n: nat,
                             before: set<string>, paths: set<string>)
    requires Listing(order, s.rng)
  {
    && n <= |order|
    && (forall k :: 0 <= k < n ==> RngRankOk(order[k], world) && ArtifactOk(lib, s.rng[order[k]]))
    && multiset(paths) == multiset(before) + multiset{s.optimizer.path} + BagOf(Values(order, s.rng)[..n], ArtifactBag)
  }

  lemma RngStep(lib: Library, s: State, world: World, order: seq<string>, n: nat,
                before: set<string>, paths: set<string>)
    requires Listing(order, s.rng) && n < |order|
    requires RngVisited(lib, s, world, order, n, before, paths)
    ensures var path := s.rng[order[n]].path;
            if path in paths
            then !Single(multiset(before) + multiset{s.optimizer.path} + Bag(s.rng, ArtifactBag))
            else RngRankOk(order[n], world) && ArtifactOk(lib, s.rng[order[n]]) ==>
                   RngVisited(lib, s, world, order, n + 1, before, paths + {path})
  {
    ListingTotals(order, s.rng, ArtifactBag, (a: Artifact) => 0);
    var base := multiset(before) + multiset{s.optimizer.path};
    RegisterNext(paths, base, Values(order, s.rng), n, ArtifactBag, s.rng[order[n]].path);
  }

  lemma RngDone(lib: Library, s: State, world: World, order: seq<string>, before: set<string>, paths: set<string>)
    requires Listing(order, s.rng)
    requires RngVisited(lib, s, world, order, |order|, before, paths)
    ensures Single(multiset(before) + multiset{s.optimizer.path} + Bag(s.rng, ArtifactBag))
    ensures forall key :: key in s.rng ==> RngRankOk(key, world) && ArtifactOk(lib, s.rng[key])
  {
    assert multiset(paths) == multiset(before) + multiset{s.optimizer.path} + Bag(s.rng, ArtifactBag) by {
      ListingTotals(order, s.rng, ArtifactBag, (a: Artifact) => 0);
      assert Values(order, s.rng)[..|order|] == Values(order, s.rng);
    }
    SetIsSingle(paths);
    forall key | key in s.rng ensures RngRankOk(key, world) && ArtifactOk(lib, s.rng[key]) {
      assert key in order;
    }
  }

  /** The tensor is sound, and its chunks' ids and paths are new. */
  ghost predicate ChunksOk(lib: Library, t: Tensor, world: World, ids: multiset<string>, names: multiset<string>) {
    TensorOk(lib, t, world) && Single(ids + TensorIds(t)) && Single(names + TensorPaths(t))
  }

  lemma ChunkMust(lib: Library, t: Tensor, world: World, ids: multiset<string>, names: multiset<string>, i: nat)
    requires i < |t.chunks| && ChunksOk(lib, t, world, ids, names)
    ensures ChunkOk(lib, t.chunks[i], t, world, DtypeSize(t.dtype).value)
  {
  }

  /** The state of the chunk loop after n chunks. */
  ghost predicate Tiled(lib: Library, t: Tensor, world: World, n: nat, covered: nat)
    requires HeaderOk(t)
  {
    && n <= |t.chunks|
    && (forall k :: 0 <= k < n ==> ChunkOk(lib, t.chunks[k], t, world, DtypeSize(t.dtype).value))
    && Fits(t.shape, Slices(t.chunks[..n]))
    && covered == Total(Slices(t.chunks[..n])) && NoneOverlap(Slices(t.chunks[..n]))
  }

  lemma TileNone(lib: Library, t: Tensor, world: World)
    requires HeaderOk(t)
    ensures Tiled(lib, t, world, 0, 0)
  {
    assert Slices(t.chunks[..0]) == [];
  }

  /** One more chunk that overlaps no earlier one keeps the loop state. */
  lemma TileNext(lib: Library, t: Tensor, world: World, n: nat, covered: nat)
    requires HeaderOk(t) && n < |t.chunks| && Tiled(lib, t, world, n, covered)
    requires ChunkOk(lib, t.chunks[n], t, world, DtypeSize(t.dtype).value)
    requires forall j :: 0 <= j < n ==> !Overlap(t.chunks[n].slice, t.chunks[j].slice)
    ensures Tiled(lib, t, world, n + 1, covered + Volume(t.chunks[n].slice))
  {
    SlicesStep(t, n);
  }

  /** In a tiling the next chunk neither overflows the coverage nor overlaps. */
  lemma TileMust(lib: Library, t: Tensor, world: World, n: nat, covered: nat)
    requires HeaderOk(t) && n < |t.chunks| && Tiled(lib, t, world, n, covered)
    requires TensorOk(lib, t, world)
    ensures covered + Volume(t.chunks[n].slice) <= MAX_U64
    ensures forall j :: 0 <= j < n ==> !Overlap(t.chunks[n].slice, t.chunks[j].slice)
  {
    var boxes := Slices(t.chunks);
    PartitionPrefix(t.shape, boxes, n + 1);
    SlicesStep(t, n);
    assert Slices(t.chunks[..n + 1]) == boxes[..n + 1];
    forall j | 0 <= j < n ensures !Overlap(t.chunks[n].slice, t.chunks[j].slice) {
      assert !Overlap(boxes[n], boxes[j]);
    }
  }

  lemma TileStep(lib: Library, t: Tensor, world: World, n: nat, covered: nat)
    requires HeaderOk(t) && n < |t.chunks| && Tiled(lib, t, world, n, covered)
    requires ChunkOk(lib, t.chunks[n], t, world, DtypeSize(t.dtype).value)
    ensures (exists j :: 0 <= j < n && Overlap(t.chunks[n].slice, t.chunks[j].slice))
            || Tiled(lib, t, world, n + 1, covered + Volume(t.chunks[n].slice))
    ensures TensorOk(lib, t, world) ==>
              && covered + Volume(t.chunks[n].slice) <= MAX_U64
              && forall j :: 0 <= j < n ==> !Overlap(t.chunks[n].slice, t.chunks[j].slice)
  {
    if forall j :: 0 <= j < n ==> !Overlap(t.chunks[n].slice, t.chunks[j].slice) {
      TileNext(lib, t, world, n, covered);
    }
    if TensorOk(lib, t, world) {
      TileMust(lib, t, world, n, covered);
    }
  }

  lemma TileDone(lib: Library, t: Tensor, world: World, covered: nat)
    requires HeaderOk(t) && Tiled(lib, t, world, |t.chunks|, covered)
    ensures TensorOk(lib, t, world) <==> covered == Product(t.shape)
  {
    assert t.chunks[..|t.chunks|] == t.chunks;
    CountingTheorem(t.shape, Slices(t.chunks));
  }

  lemma SlicesStep(t: Tensor, i: nat)
    requires i < |t.chunks|
    ensures Slices(t.chunks[..i + 1])[..i] == Slices(t.chunks[..i])
    ensures Slices(t.chunks[..i + 1])[i] == t.chunks[i].slice
  {
  }

  method ValidateMetadata(m: Metadata) returns (ok: bool)
    ensures ok <==> MetadataOk(m)
  {
    if DtypeSize(m.dtype).None? {
      return false;
    }
    var names := [m.modelId, m.datasetId, m.framework, m.frameworkVersion];
    for i := 0 to |names|
      invariant forall k :: 0 <= k < i ==> 1 <= |names[k]| <= 512
    {
      if names[i] == "" || |names[i]| > 512 {
        assert !MetadataOk(m);
        return false;
      }
    }
    assert 1 <= |names[0]| <= 512 && 1 <= |names[1]| <= 512 && 1 <= |names[2]| <= 512 && 1 <= |names[3]| <= 512;
    if !ValidHash(m.schemaHash) || !("sha256:" <= m.imageDigest) || !ValidHash(m.imageDigest[7..]) {
      return false;
    }
    if |m.adapterVersions| == 0 || |m.adapterVersions| > 64 {
      return false;
    }
    var order := ListKeys(m.adapterVersions);
    for i := 0 to |order|
      invariant forall k :: 0 <= k < i ==> ValidAdapter(order[k]) && 1 <= |m.adapterVersions[order[k]]| <= 64
    {
      var version := m.adapterVersions[order[i]];
      if !ValidAdapter(order[i]) || version == "" || |version| > 64 {
        return false;
      }
    }
    return true;
  }

  method ValidatePreamble(lib: Library, m: Manifest) returns (ok: bool)
    ensures ok <==> PreambleOk(lib, m)
  {
    if m.version != VERSION || !ValidId(m.runId) {
      return false;
    }
    if !(m.epoch.Finite? && m.epoch.value >= 0.0) || !lib.rfc3339(m.createdAt) {
      return false;
    }
    ok := ValidateMetadata(m.metadata);
    if !ok {
      return false;
    }
    ok := ValidateWorld(m.world);
    if !ok {
      return false;
    }
    for i := 0 to |m.world.ranks|
      invariant forall k :: 0 <= k < i ==>
        m.world.ranks[k].hardware in m.metadata.adapterVersions
        && m.metadata.adapterVersions[m.world.ranks[k].hardware] != ""
    {
      var hardware := m.world.ranks[i].hardware;
      if hardware !in m.metadata.adapterVersions || m.metadata.adapterVersions[hardware] == "" {
        return false;
      }
    }
    return m.tensors != map[];
  }

  /** What the body of the tensor loop demands of the next tensor. */
  ghost predicate Passes(lib: Library, m: Manifest, name: string, ids: set<string>, paths: set<string>,
                         chunks: nat, parameters: nat)
    requires name in m.tensors
  {
    && NamedTensorOk(lib, m, name)
    && Single(multiset(ids) + TensorIds(m.tensors[name]))
    && Single(multiset(paths) + TensorPaths(m.tensors[name]))
    && chunks + ChunkCount(m.tensors[name]) <= MAX_CHUNKS
    && parameters + Parameters(m.tensors[name]) <= MAX_U64
  }

  /** The body of the tensor loop. */
  method ValidateNamed(lib: Library, m: Manifest, name: string, registry: Registry,
                       chunksBefore: nat, parametersBefore: u64)
    returns (ok: bool, totalChunks: nat, totalParameters: u64)
    requires name in m.tensors
    modifies registry
    ensures ok <==> Passes(lib, m, name, old(registry.chunkIds), old(registry.paths), chunksBefore, parametersBefore)
    ensures ok ==>
      && multiset(registry.chunkIds) == multiset(old(registry.chunkIds)) + TensorIds(m.tensors[name])
      && multiset(registry.paths) == multiset(old(registry.paths)) + TensorPaths(m.tensors[name])
      && totalChunks == chunksBefore + ChunkCount(m.tensors[name])
      && totalParameters == parametersBefore + Parameters(m.tensors[name])
  {
    totalChunks, totalParameters := chunksBefore, parametersBefore;
    var tensor := m.tensors[name];
    if !ValidTensorName(name) {
      return false, 0, 0;
    }
    ok := registry.ValidateTensor(lib, tensor, m.world);
    if !ok {
      return false, 0, 0;
    }
    totalChunks := totalChunks + |tensor.chunks|;
    if totalChunks > MAX_CHUNKS {
      return false, 0, 0;
    }
    if tensor.role == "model_parameter" {
      var elements := CheckedProduct(tensor.shape);
      if elements.None? || MAX_U64 - totalParameters < elements.value {
        return false, 0, 0;
      }
      totalParameters := totalParameters + elements.value;
      if tensor.dtype != m.metadata.dtype {
        return false, 0, 0;
      }
    }
  }

  ghost predicate TensorsOk(lib: Library, m: Manifest) {
    && (forall name :: name in m.tensors ==> NamedTensorOk(lib, m, name))
    && Single(Bag(m.tensors, TensorIds)) && Single(Bag(m.tensors, TensorPaths))
    && Sum(m.tensors, ChunkCount) <= MAX_CHUNKS
    && Sum(m.tensors, Parameters) == m.metadata.totalParameters
  }

  /** The state of the tensor loop after n tensors of the visiting order. */
  ghost predicate Visited(lib: Library, m: Manifest, order: seq<string>, n: nat,
                          ids: set<string>, paths: set<string>, chunks: nat, parameters: nat)
    requires Listing(order, m.tensors)
  {
    var ts := Values(order, m.tensors);
    && n <= |order|
    && (forall k :: 0 <= k < n ==> NamedTensorOk(lib, m, order[k]))
    && multiset(ids) == BagOf(ts[..n], TensorIds)
    && multiset(paths) == BagOf(ts[..n], TensorPaths)
    && chunks == SumOf(ts[..n], ChunkCount) <= MAX_CHUNKS
    && parameters == SumOf(ts[..n], Parameters)
  }

  /** In an acceptable manifest every tensor passes every check of the loop body. */
  lemma VisitMust(lib: Library, m: Manifest, order: seq<string>, n: nat,
                  ids: set<string>, paths: set<string>, chunks: nat, parameters: nat)
    requires Listing(order, m.tensors) && n < |order|
    requires Visited(lib, m, order, n, ids, paths, chunks, parameters)
    requires TensorsOk(lib, m)
    ensures Passes(lib, m, order[n], ids, paths, chunks, parameters)
  {
    var ts := Values(order, m.tensors);
    ListingTotals(order, m.tensors, TensorIds, ChunkCount);
    ListingTotals(order, m.tensors, TensorPaths, Parameters);
    BagNext(ts, n, TensorIds);
    BagNext(ts, n, TensorPaths);
    SumNext(ts, n, ChunkCount);
    SumNext(ts, n, Parameters);
  }

  lemma VisitStep(lib: Library, m: Manifest, order: seq<string>, n: nat,
                  ids: set<string>, paths: set<string>, chunks: nat, parameters: nat,
                  ids': set<string>, paths': set<string>)
    requires Listing(order, m.tensors) && n < |order|
    requires Visited(lib, m, order, n, ids, paths, chunks, parameters)
    requires Passes(lib, m, order[n], ids, paths, chunks, parameters)
    requires multiset(ids') == multiset(ids) + TensorIds(m.tensors[order[n]])
    requires multiset(paths') == multiset(paths) + TensorPaths(m.tensors[order[n]])
    ensures Visited(lib, m, order, n + 1, ids', paths',
                    chunks + ChunkCount(m.tensors[order[n]]), parameters + Parameters(m.tensors[order[n]]))
  {
    var ts := Values(order, m.tensors);
    BagStep(ts, n, TensorIds);
    BagStep(ts, n, TensorPaths);
    SumStep(ts, n, ChunkCount);
    SumStep(ts, n, Parameters);
  }

  lemma VisitTotals(lib: Library, m: Manifest, order: seq<string>,
                    ids: set<string>, paths: set<string>, chunks: nat, parameters: nat)
    requires Listing(order, m.tensors)
    requires Visited(lib, m, order, |order|, ids, paths, chunks, parameters)
    ensures multiset(ids) == Bag(m.tensors, TensorIds) && chunks == Sum(m.tensors, ChunkCount)
    ensures multiset(paths) == Bag(m.tensors, TensorPaths) && parameters == Sum(m.tensors, Parameters)
  {
    var ts := Values(order, m.tensors);
    assert ts[..|order|] == ts;
    ListingTotals(order, m.tensors, TensorIds, ChunkCount);
    ListingTotals(order, m.tensors, TensorPaths, Parameters);
  }

  lemma VisitDone(lib: Library, m: Manifest, order: seq<string>,
                  ids: set<string>, paths: set<string>, chunks: nat, parameters: nat)
    requires Listing(order, m.tensors)
    requires Visited(lib, m, order, |order|, ids, paths, chunks, parameters)
    ensures TensorsOk(lib, m) <==> parameters == m.metadata.totalParameters
    ensures multiset(paths) == Bag(m.tensors, TensorPaths)
  {
    VisitTotals(lib, m, order, ids, paths, chunks, parameters);
    SetIsSingle(ids);
    SetIsSingle(paths);
    forall name | name in m.tensors ensures NamedTensorOk(lib, m, name) {
      assert name in order;
    }
  }

  /** One pass of the tensor loop. */
  method ValidateEntry(lib: Library, m: Manifest, order: seq<string>, i: nat, registry: Registry,
                       chunks0: nat, parameters0: u64)
    returns (ok: bool, chunks: nat, parameters: u64)
    requires Listing(order, m.tensors) && i < |order|
    requires Visited(lib, m, order, i, registry.chunkIds, registry.paths, chunks0, parameters0)
    modifies registry
    ensures ok ==> Visited(lib, m, order, i + 1, registry.chunkIds, registry.paths, chunks, parameters)
    ensures !ok ==> !TensorsOk(lib, m)
  {
    ghost var ids, paths := registry.chunkIds, registry.paths;
    if TensorsOk(lib, m) {
      VisitMust(lib, m, order, i, ids, paths, chunks0, parameters0);
    }
    ok, chunks, parameters := ValidateNamed(lib, m, order[i], registry, chunks0, parameters0);
    if ok {
      VisitStep(lib, m, order, i, ids, paths, chunks0, parameters0, registry.chunkIds, registry.paths);
    }
  }

  /** The tensor loop. The result does not depend on the order in which the map is visited. */
  method ValidateTensors(lib: Library, m: Manifest, order: seq<string>, registry: Registry) returns (ok: bool)
    requires Listing(order, m.tensors)
    requires registry.paths == {} && registry.chunkIds == {}
    modifies registry
    ensures ok <==> TensorsOk(lib, m)
    ensures ok ==> multiset(registry.paths) == Bag(m.tensors, TensorPaths)
  {
    var totalChunks: nat := 0;
    var totalParameters: u64 := 0;
    for i := 0 to |order|
      invariant Visited(lib, m, order, i, registry.chunkIds, registry.paths, totalChunks, totalParameters)
    {
      ok, totalChunks, totalParameters := ValidateEntry(lib, m, order, i, registry, totalChunks, totalParameters);
      if !ok {
        return false;
      }
    }
    VisitDone(lib, m, order, registry.chunkIds, registry.paths, totalChunks, totalParameters);
    return totalParameters == m.metadata.totalParameters;
  }

  /** The validator, for any visiting orders of the two maps, accepts exactly the
      manifests whose order-free meaning is `Accepted`. */
  method Validate(lib: Library, m: Manifest, order: seq<string>, rngOrder: seq<string>) returns (ok: bool)
    requires Listing(order, m.tensors) && Listing(rngOrder, m.state.rng)
    ensures ok <==> Accepted(lib, m)
  {
    ok := ValidatePreamble(lib, m);
    if !ok {
      return false;
    }
    var registry := new Registry();
    ok := ValidateTensors(lib, m, order, registry);
    if !ok {
      assert !Single(Bag(m.tensors, TensorPaths)) ==> !Single(AllPaths(m)) by {
        if Single(AllPaths(m)) {
          SubBagSingle(Bag(m.tensors, TensorPaths), AllPaths(m));
        }
      }
      return false;
    }
    ok := registry.ValidateState(lib, m.state, m.world, rngOrder);
  }

  // --- what acceptance guarantees ---------------------------------------

  ghost function RankSet(ranks: seq<Rank>): set<int> {
    set i | 0 <= i < |ranks| :: ranks[i].rank
  }

  lemma {:induction false} DistinctRanksCount(ranks: seq<Rank>)
    requires forall i, j :: 0 <= i < j < |ranks| ==> ranks[i].rank != ranks[j].rank
    ensures |RankSet(ranks)| == |ranks|
  {
    if |ranks| > 0 {
      var n := |ranks| - 1;
      DistinctRanksCount(ranks[..n]);
      assert RankSet(ranks) == RankSet(ranks[..n]) + {ranks[n].rank} by {
        forall x | x in RankSet(ranks) ensures x in RankSet(ranks[..n]) + {ranks[n].rank} {
          var i :| 0 <= i < |ranks| && ranks[i].rank == x;
          assert i < n ==> ranks[..n][i].rank == x;
        }
      }
    } else {
      assert RankSet(ranks) == {};
    }
  }

  ghost predicate ListedOnce(w: World, r: int) {
    exists i :: 0 <= i < |w.ranks| && w.ranks[i].rank == r
                && forall j :: 0 <= j < |w.ranks| && w.ranks[j].rank == r ==> j == i
  }

  ghost function Below(n: nat): (s: set<int>)
    ensures |s| == n && forall r :: r in s <==> 0 <= r < n
  {
    if n == 0 then {} else Below(n - 1) + {n - 1}
  }

  /** A valid world lists each of the ranks 0 .. size-1 exactly once. */
  lemma RanksAreABijection(w: World)
    requires WorldOk(w)
    ensures forall r :: 0 <= r < w.size ==> ListedOnce(w, r)
  {
    DistinctRanksCount(w.ranks);
    SubsetSize(RankSet(w.ranks), Below(w.size));
    forall r | 0 <= r < w.size ensures ListedOnce(w, r) {
      assert r in RankSet(w.ranks);
    }
  }

  /** In an accepted manifest every index of every tensor is stored in exactly one chunk. */
  lemma EveryElementStoredOnce(lib: Library, m: Manifest, name: string, index: seq<nat>)
    requires Accepted(lib, m) && name in m.tensors
    requires InBox(index, Whole(m.tensors[name].shape))
    ensures exists i :: 0 <= i < |m.tensors[name].chunks| && InBox(index, m.tensors[name].chunks[i].slice)
                        && forall j :: 0 <= j < |m.tensors[name].chunks| ==>
                             InBox(index, m.tensors[name].chunks[j].slice) ==> j == i
  {
    var boxes := Slices(m.tensors[name].chunks);
    assert NamedTensorOk(lib, m, name);
    var i :| 0 <= i < |boxes| && InBox(index, boxes[i]);
    forall j | 0 <= j < |boxes| && InBox(index, m.tensors[name].chunks[j].slice) ensures j == i {
      assert InBox(index, boxes[j]);
    }
  }

  // --- the object list --------------------------------------------------

  /** The value half of `value, _ := strconv.Atoi(s)`. */
  function AtoiValue(s: string): int {
    var negative := s != "" && s[0] == '-';
    if Atoi(s).Some? then Atoi(s).value
    else if Digits(if s != "" && (s[0] == '-' || s[0] == '+') then s[1..] else s).None? then 0
    else if negative then -0x8000_0000_0000_0000
    else 0x7fff_ffff_ffff_ffff
  }

  function ChunkObject(c: Chunk): Object {
    Object(c.id, c.path, c.byteOffset, c.byteLength, c.sha256, c.writerRank)
  }

  function OptimizerObject(a: Artifact): Object {
    Object("optimizer_metadata", a.path, 0, a.byteLength, a.sha256, 0)
  }

  function RngObject(key: string, a: Artifact): Object {
    Object("rng_" + key, a.path, 0, a.byteLength, a.sha256, AtoiValue(key))
  }

  ghost function ObjectPath(o: Object): multiset<string> { multiset{o.path} }

  ghost predicate FromChunk(t: Tensor, o: Object) {
    exists j :: 0 <= j < |t.chunks| && var c := t.chunks[j];
      o == Object(c.id, c.path, c.byteOffset, c.byteLength, c.sha256, c.writerRank)
  }

  ghost predicate FromTensor(m: Manifest, o: Object) {
    exists name :: name in m.tensors && FromChunk(m.tensors[name], o)
  }

  ghost predicate FromRng(m: Manifest, o: Object) {
    exists key :: key in m.state.rng && var a := m.state.rng[key];
      o == Object("rng_" + key, a.path, 0, a.byteLength, a.sha256, AtoiValue(key))
  }

  /** The objects a manifest lists, as a set without an order. */
  ghost predicate Lists(m: Manifest, o: Object) {
    var a := m.state.optimizer;
    FromTensor(m, o) || o == Object("optimizer_metadata", a.path, 0, a.byteLength, a.sha256, 0) || FromRng(m, o)
  }

  ghost function TensorList(t: Tensor): (list: seq<Object>)
    ensures |list| == |t.chunks|
  {
    seq(|t.chunks|, j requires 0 <= j < |t.chunks| => ChunkObject(t.chunks[j]))
  }

  ghost function Flatten(ts: seq<Tensor>): seq<Object> {
    if ts == [] then [] else Flatten(ts[..|ts| - 1]) + TensorList(ts[|ts| - 1])
  }

  /** The object list for one pair of visiting orders. */
  ghost function ObjectList(m: Manifest, order: seq<string>, rngOrder: seq<string>): seq<Object>
    requires Listing(order, m.tensors) && Listing(rngOrder, m.state.rng)
  {
    Flatten(Values(order, m.tensors)) + [OptimizerObject(m.state.optimizer)] + Entries(rngOrder, m.state.rng, RngObject)
  }

  /** `Objects()` computes the list. */
  method Objects(m: Manifest, order: seq<string>, rngOrder: seq<string>) returns (result: seq<Object>)
    requires Listing(order, m.tensors) && Listing(rngOrder, m.state.rng)
    ensures result == ObjectList(m, order, rngOrder)
  {
    result := [];
    ghost var ts := Values(order, m.tensors);
    for i := 0 to |order|
      invariant result == Flatten(ts[..i])
    {
      ghost var before := result;
      var chunks := m.tensors[order[i]].chunks;
      for j := 0 to |chunks|
        invariant result == before + TensorList(ts[i])[..j]
      {
        result := result + [ChunkObject(chunks[j])];
      }
      assert TensorList(ts[i])[..|chunks|] == TensorList(ts[i]);
      assert ts[..i + 1][..i] == ts[..i];
    }
    assert ts[..|order|] == ts;
    result := result + [OptimizerObject(m.state.optimizer)];
    ghost var base := result;
    for i := 0 to |rngOrder|
      invariant result == base + Entries(rngOrder, m.state.rng, RngObject)[..i]
    {
      result := result + [RngObject(rngOrder[i], m.state.rng[rngOrder[i]])];
    }
  }

  lemma {:induction false} FlattenBag(ts: seq<Tensor>)
    ensures BagOf(Flatten(ts), ObjectPath) == BagOf(ts, TensorPaths)
  {
    if ts != [] {
      var n := |ts| - 1;
      FlattenBag(ts[..n]);
      BagCongruent(TensorList(ts[n]), ts[n].chunks, ObjectPath, PathBag);
      BagConcat(Flatten(ts[..n]), TensorList(ts[n]), ObjectPath);
    }
  }

  lemma {:induction false} FlattenMembers(ts: seq<Tensor>, o: Object)
    ensures o in Flatten(ts) <==> exists k :: 0 <= k < |ts| && FromChunk(ts[k], o)
  {
    if ts != [] {
      var n := |ts| - 1;
      FlattenMembers(ts[..n], o);
      if j :| 0 <= j < |ts[n].chunks| && o == ChunkObject(ts[n].chunks[j]) {
        assert TensorList(ts[n])[j] == o;
      }
      if k :| 0 <= k < |ts| && FromChunk(ts[k], o) {
        assert k < n ==> FromChunk(ts[..n][k], o);
      }
    }
  }

  lemma ChunkMembers(m: Manifest, order: seq<string>, o: Object)
    requires Listing(order, m.tensors)
    ensures o in Flatten(Values(order, m.tensors)) <==> FromTensor(m, o)
  {
    var ts := Values(order, m.tensors);
    FlattenMembers(ts, o);
    if name :| name in m.tensors && FromChunk(m.tensors[name], o) {
      assert name in order;
      var k :| 0 <= k < |order| && order[k] == name;
      assert FromChunk(ts[k], o);
    }
  }

  /** In whatever order the maps are visited, the list's paths are the manifest's paths,
      repetitions included. */
  lemma ObjectListPaths(m: Manifest, order: seq<string>, rngOrder: seq<string>)
    requires Listing(order, m.tensors) && Listing(rngOrder, m.state.rng)
    ensures BagOf(ObjectList(m, order, rngOrder), ObjectPath) == AllPaths(m)
  {
    var chunks, optimizer := Flatten(Values(order, m.tensors)), [OptimizerObject(m.state.optimizer)];
    FlattenBag(Values(order, m.tensors));
    EntriesBag(rngOrder, m.state.rng, RngObject, ArtifactBag, ObjectPath);
    ListingTotals(order, m.tensors, TensorPaths, ChunkCount);
    BagConcat(chunks, optimizer, ObjectPath);
    BagConcat(chunks + optimizer, Entries(rngOrder, m.state.rng, RngObject), ObjectPath);
    assert BagOf(optimizer, ObjectPath) == multiset{m.state.optimizer.path};
  }

  /** In whatever order the maps are visited, the list holds exactly the listed objects. */
  lemma ObjectListMembers(m: Manifest, order: seq<string>, rngOrder: seq<string>, o: Object)
    requires Listing(order, m.tensors) && Listing(rngOrder, m.state.rng)
    ensures o in ObjectList(m, order, rngOrder) <==> Lists(m, o)
  {
    ChunkMembers(m, order, o);
    EntriesMembers(rngOrder, m.state.rng, RngObject, o);
  }

  /** No two entries of an accepted manifest's object list share a storage path. */
  lemma ObjectPathsDistinct(lib: Library, m: Manifest, order: seq<string>, rngOrder: seq<string>)
    requires Accepted(lib, m) && Listing(order, m.tensors) && Listing(rngOrder, m.state.rng)
    ensures var result := ObjectList(m, order, rngOrder);
            forall i, j :: 0 <= i < j < |result| ==> result[i].path != result[j].path
  {
    var result := ObjectList(m, order, rngOrder);
    ObjectListPaths(m, order, rngOrder);
    forall i, j | 0 <= i < j < |result| ensures result[i].path != result[j].path {
      if result[i].path == result[j].path {
        SingleMeansDistinct(result, i, j, ObjectPath, result[i].path);
      }
    }
  }

  /** A path that stays below the place it is used at. */
  ghost predicate SafePath(lib: Library, path: string) {
    && 1 <= |path| <= 1024 && path[0] != '/' && '\\' !in path && '\0' !in path
    && lib.clean(path) == path && path != "." && !(|path| >= 3 && path[..3] == "../")
  }

  ghost predicate HexDigest(sha256: string) {
    |sha256| == 64 && forall i :: 0 <= i < 64 ==> '0' <= sha256[i] <= '9' || 'a' <= sha256[i] <= 'f'
  }

  ghost predicate SoundObject(lib: Library, world: World, o: Object) {
    && SafePath(lib, o.path) && HexDigest(o.sha256)
    && 0 < o.length && o.offset + o.length <= MAX_U64 && 0 <= o.writerRank < world.size
  }

  /** Every object an accepted manifest lists has a safe path, a digest in lower-case hexadecimal, a non-empty
      range that does not wrap, and a writer among the ranks. */
  lemma ListedAreSound(lib: Library, m: Manifest, o: Object)
    requires Accepted(lib, m) && Lists(m, o)
    ensures SoundObject(lib, m.world, o)
  {
    if FromTensor(m, o) {
      var name :| name in m.tensors && FromChunk(m.tensors[name], o);
      ChunksOfTensor(lib, m, name);
      ChunkIsSound(lib, m.tensors[name], m.world, o);
    } else if FromRng(m, o) {
      var key :| key in m.state.rng && o == RngObject(key, m.state.rng[key]);
      RngIsSound(lib, m, key);
    } else {
      OptimizerIsSound(lib, m);
    }
  }

  lemma RngIsSound(lib: Library, m: Manifest, key: string)
    requires Accepted(lib, m) && key in m.state.rng
    ensures SoundObject(lib, m.world, RngObject(key, m.state.rng[key]))
  {
    assert RngRankOk(key, m.world) && ArtifactOk(lib, m.state.rng[key]);
    PathIsSafe(lib, m.state.rng[key].path);
  }

  lemma OptimizerIsSound(lib: Library, m: Manifest)
    requires Accepted(lib, m)
    ensures SoundObject(lib, m.world, OptimizerObject(m.state.optimizer))
  {
    PathIsSafe(lib, m.state.optimizer.path);
  }

  lemma PathIsSafe(lib: Library, path: string)
    requires ValidStoragePath(lib, path)
    ensures SafePath(lib, path)
  {
    assert "/" <= path <==> |path| >= 1 && path[0] == '/';
  }

  lemma ChunkIsSound(lib: Library, t: Tensor, world: World, o: Object)
    requires DtypeSize(t.dtype).Some? && FromChunk(t, o)
    requires forall j :: 0 <= j < |t.chunks| ==> ChunkOk(lib, t.chunks[j], t, world, DtypeSize(t.dtype).value)
    ensures SoundObject(lib, world, o)
  {
    var j :| 0 <= j < |t.chunks| && o == ChunkObject(t.chunks[j]);
    SoundOnItsOwn(lib, t.chunks[j], t, world);
  }

  lemma ChunksOfTensor(lib: Library, m: Manifest, name: string)
    requires Accepted(lib, m) && name in m.tensors
    ensures var t := m.tensors[name];
      && DtypeSize(t.dtype).Some?
      && forall j :: 0 <= j < |t.chunks| ==> ChunkOk(lib, t.chunks[j], t, m.world, DtypeSize(t.dtype).value)
  {
    assert NamedTensorOk(lib, m, name);
  }

  lemma SoundOnItsOwn(lib: Library, c: Chunk, t: Tensor, world: World)
    requires DtypeSize(t.dtype).Some? && ChunkOk(lib, c, t, world, DtypeSize(t.dtype).value)
    ensures SoundObject(lib, world, ChunkObject(c))
  {
    PathIsSafe(lib, c.path);
    VolumePositive(c.slice);
  }

  lemma VolumePositive(b: Box)
    requires NonEmpty(b)
    ensures Volume(b) > 0
  {
    ProductGrows(Extents(b), 0);
  }

  /** Restoring a checkpoint requires every named identity to match and be non-empty. */
  predicate Compatible(m: Manifest, want: Compatibility) {
    && want.modelId != "" && m.metadata.modelId == want.modelId
    && want.schemaHash != "" && m.metadata.schemaHash == want.schemaHash
    && want.datasetId != "" && m.metadata.datasetId == want.datasetId
    && want.imageDigest != "" && m.metadata.imageDigest == want.imageDigest
    && want.framework != "" && m.metadata.framework == want.framework
    && want.frameworkVersion != "" && m.metadata.frameworkVersion == want.frameworkVersion
    && want.adapterVersions != map[]
    && forall adapter :: adapter in want.adapterVersions ==> Advertises(m, want, adapter)
  }

  /** `Compatible`: the named identities in turn, then the adapters in some order. */
  method CheckCompatible(m: Manifest, want: Compatibility) returns (ok: bool)
    ensures ok <==> Compatible(m, want)
  {
    var checks := [
      (m.metadata.modelId, want.modelId), (m.metadata.schemaHash, want.schemaHash),
      (m.metadata.datasetId, want.datasetId), (m.metadata.imageDigest, want.imageDigest),
      (m.metadata.framework, want.framework), (m.metadata.frameworkVersion, want.frameworkVersion)];
    for i := 0 to |checks|
      invariant forall k :: 0 <= k < i ==> checks[k].1 != "" && checks[k].0 == checks[k].1
    {
      if checks[i].1 == "" || checks[i].0 != checks[i].1 {
        assert !Compatible(m, want);
        return false;
      }
    }
    assert checks[0].1 != "" && checks[1].1 != "" && checks[2].1 != "";
    assert checks[3].1 != "" && checks[4].1 != "" && checks[5].1 != "";
    if |want.adapterVersions| == 0 {
      return false;
    }
    ok := CheckAdapters(m, want);
  }

  method CheckAdapters(m: Manifest, want: Compatibility) returns (ok: bool)
    ensures ok <==> forall adapter :: adapter in want.adapterVersions ==> Advertises(m, want, adapter)
  {
    var order := ListKeys(want.adapterVersions);
    for i := 0 to |order|
      invariant forall k :: 0 <= k < i ==> Advertises(m, want, order[k])
    {
      var known := if order[i] in m.metadata.adapterVersions then m.metadata.adapterVersions[order[i]] else "";
      if known != want.adapterVersions[order[i]] {
        assert !Advertises(m, want, order[i]);
        return false;
      }
    }
    return true;
  }

  /** The manifest's version of the adapter is the one wanted; one it does not name has the empty version. */
  predicate Advertises(m: Manifest, want: Compatibility, adapter: string)
    requires adapter in want.adapterVersions
  {
    if adapter in m.metadata.adapterVersions then m.metadata.adapterVersions[adapter] == want.adapterVersions[adapter]
    else want.adapterVersions[adapter] == ""
  }
}
