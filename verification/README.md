# Verified core of the heterogeneous cluster orchestrator

A Dafny model of the parts of the orchestrator whose correctness is hardest to see from the code, with
proofs of what they promise. `dafny verify dfyconfig.toml` covers all files.

| part | modules |
|---|---|
| checkpoint manifests and the partition of tensors into chunks | `Boxes`, `Bags`, `CheckpointManifest` |
| the shared-memory ring between a producer and a consumer, in Go and in C | `RingMachine`, `RingHandles` |
| uploads, commits and `latest` on a shared, append-only object store | `ObjectKeys`, `CommitMachine`, `Flusher`, `Latest` |
| hardware recovery: the operator, its durable record, Slurm, and the watchdog | `SlurmJobs`, `RecoveryMachine`, `RecoveryRuns`, `RecoveryWorld`, `ReusedIds`, `Evacuation`, `Operator`, `Watchdog` |
| the gang planner for elastic workers | `Planner` |
| the table of prepared device claims and the NUMA hook | `ClaimTable`, `DraPlugin`, `NumaHook` |
| bfloat16 rounding and int8 quantization | `Bf16`, `Quantize`, `Blocks`, `Convert` |
| sorting by a total order | `Sorting` |

## How it is built

The three protocols (ring, commit, recovery) are each a machine whose actions are single shared
accesses or remote calls. Theorems are stated over every run of the machine, that is, every
interleaving of the parties, every lost call and every crash. Beside each machine stands the code in
the source's own form: classes whose methods update fields in loops and return early on errors. These
methods let the other parties move before each of their own calls, and each method is proved to make
only moves of the machine, so the theorems hold at every point of every call. The validator, the
planner, the claim table and the conversion loops are methods with loops, proved against order-free
or declarative definitions.

Assumptions about what lies outside:

- Counter loads and stores of the ring are sequentially consistent, and there is one producer and one
  consumer on a freshly initialised ring.
- The object store applies a conditional PUT atomically and never overwrites (section 13.1.2 of
  RFC 9110). SHA-256, JSON decoding and the marker encoding are functions of bytes; the
  marker a commit writes can be read back from its encoding. No collision resistance is assumed.
- There is one operator and one watchdog, and nobody else writes the recovery annotations. The world
  (clock, Slurm, Pods, claims, checkpoints, boots, inventories, verifier Jobs) may answer anything at any
  moment; a pass may go only by what it has read, and what it reads is what the world answers then.
- Float64 and float32 operations are within their relative rounding error of the real result.
- Renaming a file is atomic.

## Where a promise fails

- The bfloat16 round trip holds for a difference at every float64 scale only up to 128
  (`Bf16RoundTripExactly`, `Bf16RoundTripFails`).
- A manual retry is compared only with the last one tried, so an id can be started twice, and then the
  host can be rebooted for it twice (`ReusedIdRebootsTwice`); for an id started once it cannot
  (`OneRebootPerIncident`, `TwiceMeansReused`).

Four helpers promise less on their own than the code around them does:

- `prepare` accepts a claim with an empty uid, whose file `New` then refuses, so that the plugin cannot
  restart (`NoRestartWithoutUid`, `SoundTablesReload`, `Reload`); the API server gives every claim a uid.
- `float32ToBF16` turns some NaNs into infinity or zero (`NaNKeptExactly`, `NaNBecomesZero`); its caller
  passes the product of an integer and a finite scale.
- `shapeFits` compares device maps by size and wanted values, so a wanted count of zero would let through
  a worker with other devices (`DevicesMatchExactly`, `ZeroCountMatchesOthers`); demands have counts of at
  least one, and then devices match exactly (`ReusedDevicesMatch`).
- The NUMA hook uses -1 both for "not set" and for "no node", so devices without a node that come first
  are ignored (`OneNodeExactly`, `MixedExactly`, `UnknownNodeIsIgnored`); in a claim a CPU comes first, and
  all its devices share one node (`ClaimsSitOnOneNode`).

## Model

| member | source | states |
|---|---|---|
| `Boxes.CountingTheorem` | src/shared/checkpoint/manifest.go:306-347 | for non-empty boxes inside the tensor, "no two overlap and the volumes add up" holds exactly when every index of the tensor lies in exactly one box, for any number of dimensions and chunks |
| `Boxes.OverlapMeansSharedIndex` | src/shared/checkpoint/manifest.go:454-461 | the dimension-by-dimension overlap test is true exactly when two non-empty boxes share an index |
| `Boxes.VolumeCounts` | src/shared/checkpoint/manifest.go:443-452 | the product of a box's extents is the number of indices in it |
| `Boxes.DisjointTotalBounded` | src/shared/checkpoint/manifest.go:333-347 | volumes of disjoint boxes inside the tensor never add up to more than the tensor, and reach it exactly when the boxes cover it |
| `CheckpointManifest.CheckedProduct` | src/shared/checkpoint/manifest.go:443-452 | the guarded 64-bit product fails exactly when a dimension is zero or the unbounded product does not fit, and is that product otherwise |
| `CheckpointManifest.ValidateWorld` | src/shared/checkpoint/manifest.go:265-280 | the rank loop accepts exactly the worlds whose size and ranks are as stated |
| `CheckpointManifest.ValidateMetadata` | src/shared/checkpoint/manifest.go:236-263 | the loops accept exactly the metadata that is as stated, in whatever order the adapters are visited |
| `CheckpointManifest.Registry.UniquePath` | src/shared/checkpoint/manifest.go:379-388 | a path is admitted exactly when it is a valid storage path not seen before, and is then registered |
| `CheckpointManifest.Registry.OverlapsEarlier` | src/shared/checkpoint/manifest.go:338-342 | finds exactly the overlaps of a chunk with an earlier one |
| `CheckpointManifest.Registry.ValidateChunk` | src/shared/checkpoint/manifest.go:307-336 | accepts exactly the chunks that are sound on their own and whose id and path are new |
| `CheckpointManifest.Registry.ValidateChunks` | src/shared/checkpoint/manifest.go:306-347 | the chunk loop accepts exactly when every index of the tensor is in exactly one chunk and all ids and paths are new; the 64-bit coverage never wraps |
| `CheckpointManifest.Registry.ValidateTensor` | src/shared/checkpoint/manifest.go:282-348 | a tensor is accepted exactly when its header is sound and its chunks partition it |
| `CheckpointManifest.Registry.ValidateState` | src/shared/checkpoint/manifest.go:350-377 | for any order of the RNG map, accepted exactly when the state is sound and its paths are new |
| `CheckpointManifest.ValidateTensors` | src/shared/checkpoint/manifest.go:201-229 | for any order of the tensor map, accepted exactly when all tensors are sound, ids and paths are unique across them, and the totals are true unbounded sums |
| `CheckpointManifest.Validate` | src/shared/checkpoint/manifest.go:173-234 | for any visiting orders of the maps, the validator accepts exactly the manifests that satisfy a definition of acceptance that mentions no order |
| `CheckpointManifest.EveryElementStoredOnce` | src/shared/checkpoint/manifest.go:282-348 | in an accepted manifest every index of every tensor lies in exactly one chunk of it |
| `CheckpointManifest.RanksAreABijection` | src/shared/checkpoint/manifest.go:265-280 | accepted ranks are each of 0..size-1 exactly once |
| `CheckpointManifest.Objects` | src/shared/checkpoint/manifest.go:428-441 | the list it builds is the chunk objects, the optimizer object and the RNG objects, in visiting order |
| `CheckpointManifest.ObjectListMembers` | src/shared/checkpoint/manifest.go:428-441 | in any visiting order the list holds exactly the objects the manifest lists |
| `CheckpointManifest.ObjectPathsDistinct` | src/shared/checkpoint/manifest.go:379-388 | no two entries of an accepted manifest's object list share a storage path |
| `CheckpointManifest.ListedAreSound` | src/shared/checkpoint/manifest.go:302-393 | every object an accepted manifest lists has a path that stays below its step, a lower-case hexadecimal digest, a non-empty range that does not wrap, and a writer among the ranks |
| `CheckpointManifest.CheckCompatible` | src/shared/checkpoint/manifest.go:394-417 | the loops decide compatibility: six identities not empty and equal, at least one adapter wanted, and every wanted adapter at the wanted version |
| `Bf16.RoundsToNearestEven` | src/quantization-engine/convert.go:103-107 | the add-and-shift trick is round-to-nearest-even (section 4.3.1 of IEEE 754-2019) on every finite pattern: zeros, subnormals, carries and overflow included |
| `Bf16.NearestEvenUnique` | src/quantization-engine/convert.go:103-107 | nearest-even has one answer, so the trick computes it |
| `Bf16.TrickSplit` | src/quantization-engine/convert.go:103-107 | the 32-bit addition as sign, kept half and carry, wrap-around included |
| `Bf16.WidenThenRound` | src/quantization-engine/convert.go:103-109 | widening and rounding back is the identity on all 65536 patterns |
| `Bf16.NaNKeptExactly` | src/quantization-engine/convert.go:103-107 | of the helper alone: a NaN stays a NaN exactly when its magnitude is in [0x7f808001, 0x7fff8000) |
| `Bf16.NaNBecomesZero` | src/quantization-engine/convert.go:103-107 | of the helper alone: two NaN patterns that become a signed zero and an infinity |
| `Bf16.RelativeError` | src/quantization-engine/convert.go:103-107 | rounding a normal value moves it by at most 1/257 of itself |
| `Quantize.Float32RoundTrip` | src/quantization-engine/convert.go:71-100 | int8 to float32 to int8 is the identity for every zero point and every scale that keeps values normal |
| `Quantize.Bf16RoundTrip` | src/quantization-engine/convert.go:71-109 | int8 to bfloat16 to int8 is the identity while the value is within 128 of the zero point |
| `Quantize.Bf16RoundTripFails` | src/quantization-engine/convert.go:71-109 | for every difference past 128, at the float64 nearest to a certain scale and whichever way product and quotient are rounded, the bfloat16 round trip gives another integer |
| `Quantize.Bf16RoundTripExactly` | src/quantization-engine/convert.go:71-109 | a difference survives the bfloat16 round trip at every float64 scale exactly when it is at most 128 in magnitude |
| `Quantize.StoredAsTie` | src/quantization-engine/convert.go:76-80 | near 257/256 exactly one float32 is nearest to a product, the one half-way between two bfloat16 values |
| `Blocks.MapStream` | src/quantization-engine/convert.go:43-69 | converting block by block is converting the whole stream; a short source or an element error is an error |
| `Blocks.MapAllAt` | src/quantization-engine/convert.go:71-101 | element i of the output is element i of the input, converted |
| `Convert.ConvertBlock` | src/quantization-engine/convert.go:71-101 | every element becomes what it means, in order: an int8 the little-endian pattern of its dequantized value, or of that rounded to bfloat16; a finite number the int8 nearest to its quotient plus the zero point, saturating at -128 and 127, ties to the even quotient; it fails only on a number that is not finite |
| `Convert.ConvertStream` | src/quantization-engine/convert.go:29-69 | the same for the whole stream of a valid request; an invalid request, a short source and a number that is not finite are the only errors |
| `Convert.ElementMeans` | src/quantization-engine/convert.go:71-101 | the same for one element, read and written as signed bytes and little-endian words |
| `Quantize.RoundsAndClamps` | src/quantization-engine/convert.go:96-98 | rounding the quotient to even, adding the zero point and clamping gives the nearest int8 |
| `Quantize.NearestUnique` | src/quantization-engine/convert.go:96-98 | of which there is one |
| `Bf16.FiniteByExponent` | src/quantization-engine/convert.go:93-95 | a pattern is not finite exactly when its exponent bits are all ones |
| `Convert.StreamRoundTrip` | src/quantization-engine/convert.go:71-109 | an int8 stream converted out and back is itself: always through float32, through bfloat16 when every element is within 128 of the zero point and none overflows there |
| `RingMachine.StreamInOrder` | src/shared/ring/ring.go:117-187 | at every point of every interleaving the bytes out are a prefix of the bytes in, the counters are at most `slots` apart, the corrupt-counters branch is not reached, and a reader at the end has all `total` bytes in order |
| `RingMachine.StepKeepsInv` | src/shared/ring/ring.go:117-187 | every counter load, byte copy and counter store of either side keeps the protocol invariant, with stale counters in hand |
| `RingMachine.CopiesAreSafe` | src/shared/ring/ring.go:138-184 | a copy stays inside the mapping and behind its header of 4096 bytes, and the writer never fills a slot that is published and not drained |
| `RingMachine.CountersStaySmall` | src/shared/ring/ring.go:124-127 | the 64-bit counters stay below 2^20 + 1, so they cannot wrap |
| `RingMachine.SomeProgress` | src/shared/ring/ring.go:121-137 | until the reader has every byte some side can make progress: the two waits never block each other |
| `RingMachine.ProgressLowers` | src/shared/ring/ring.go:155-174 | every step that is not a poll lowers a remaining-work measure |
| `RingMachine.PollKeepsMeasure` | src/shared/ring/ring.go:155-174 | a poll of a full or empty ring leaves the measure as it is |
| `RingMachine.ProgressIsBounded` | src/shared/ring/ring.go:117-187 | in every run, cancelled waits, empty and refused calls included, the steps that make progress are at most 32 * total + 14, plus 14 for each time a side idled that way |
| `RingHandles.RingWriter.Write` | src/shared/ring/ring.go:151-187 | whatever the reader does between any two shared accesses, the bytes join the stream in order; all of them unless the wait is cancelled; refused exactly when past the declared length |
| `RingHandles.RingReader.Read` | src/shared/ring/ring.go:117-149 | whatever the writer does meanwhile, the bytes returned are the next bytes of the stream; end of stream exactly at `total` |
| `RingHandles.RingReader.ReadFully` | src/shared/ringabi/abi.c:121-144 | the C reader returns the next bytes of the stream until the buffer is full or the stream ends |
| `RingHandles.RingWriter.LoadCounters` | src/shared/ring/ring.go:158-163 | the counters loaded one after the other are never more than `slots` apart |
| `ObjectKeys.ParsePadded` | src/checkpoint-flusher/store.go:105-131 | parsing the zero-padded step gives the step back for every 64-bit step |
| `ObjectKeys.KeysAsStored` | src/checkpoint-flusher/store.go:320-322 | an object is stored as `checkpoints/<run>/step_<step>/<path>` and a marker as `checkpoints/<run>/step_<step>.complete` |
| `ObjectKeys.AtoiReads` | src/shared/checkpoint/manifest.go:357-361 | a rank printed in decimal, with or without a sign, is read as that rank |
| `ObjectKeys.DtypeSizeInName` | src/shared/checkpoint/manifest.go:463-467 | the size of a type is the number of bits its name ends in, and one byte for bool |
| `ObjectKeys.ObjectKeyInjective` | src/checkpoint-flusher/store.go:320-322 | for runs without a slash, object keys are injective in run, step and path |
| `ObjectKeys.ObjectIsNoMarker` | src/checkpoint-flusher/store.go:105-105 | an object key is never a marker key, whatever the path |
| `ObjectKeys.NameInjective` | src/checkpoint-flusher/store.go:320-322 | distinct objects and markers have distinct names |
| `ObjectKeys.ListingIsExact` | src/checkpoint-flusher/store.go:117-133 | of all stored names, exactly the run's marker names are listed, each as its own step |
| `CommitMachine.MarkersAreSound` | src/checkpoint-flusher/store.go:84-110 | at every point of every run of any number of flushers, a stored marker means: it is of version 2 and of this step; the manifest beside it has its digest, run and step and is one the validator accepts; under the path of every chunk and artifact the listed range of the stored bytes has the listed hash; and the optimizer metadata decodes |
| `CommitMachine.OneManifestPerStep` | src/checkpoint-flusher/store.go:84-110 | two successful commits of one step, from any flushers at any two points of a run, committed the same manifest bytes |
| `CommitMachine.CommittedForever` | src/checkpoint-flusher/store.go:84-110 | a committed step loads the same manifest and verifies in full for the rest of the run |
| `CommitMachine.ReceiptsAreTrue` | src/checkpoint-flusher/store.go:34-82 | a returned upload receipt has the length and hash of the stored bytes, then and ever after |
| `CommitMachine.StepAdds` | src/checkpoint-flusher/store.go:279-318 | a remote call changes nothing stored and adds at most one key: an upload's PUT the first `size` bytes of its source under its own path, a commit's PUTs its posted bytes and a marker of version 2 with its step, digest, time and job |
| `CommitMachine.StoredWasSent` | src/checkpoint-flusher/store.go:34-110 | at every point of every run, whatever is stored is what some request begun before sends under that key: the first `size` bytes of an upload's source, or a commit's manifest or marker |
| `CommitMachine.BackedExactly` | src/checkpoint-flusher/store.go:208-246 | every listed object verifies exactly when every chunk, the optimizer metadata and every RNG artifact is stored with its range and hash |
| `CommitMachine.LoadsExactly` | src/checkpoint-flusher/store.go:157-183 | a checkpoint loads exactly when its marker reads back as of version 2 and this step with a valid digest and time, and the manifest beside it has that digest and decodes to this run and step |
| `CommitMachine.ApplyKeepsInv` | src/checkpoint-flusher/store.go:34-110 | each remote call of each request, lost before or after its effect, keeps the store sound and every other request's knowledge true |
| `CommitMachine.LoadStable` | src/checkpoint-flusher/store.go:157-183 | what a loaded checkpoint says never changes as the store grows |
| `Flusher.DecodedCommitStarts` | src/checkpoint-flusher/server.go:167-180 | a decoded manifest with its listed objects, in any visiting order, is a request of the machine |
| `Flusher.ObjectStore.PutImmutable` | src/checkpoint-flusher/store.go:279-302 | succeeds only when the key holds exactly the data, whatever other flushers do between its calls; fails only if a call is not answered or the key holds something else |
| `Flusher.ObjectStore.PutImmutableMarker` | src/checkpoint-flusher/store.go:304-318 | succeeds with its own marker or an existing one for the same version, step and digest; as the manifest is stored, only an unanswered call can make it fail |
| `Flusher.ObjectStore.VerifyObject` | src/checkpoint-flusher/store.go:208-246 | passes to the next object only when the stored range has the listed hash; fails only if a call is not answered or the object was not so stored |
| `Flusher.ObjectStore.CommitCheckpoint` | src/checkpoint-flusher/store.go:84-110 | on success the marker names this very manifest, every chunk and artifact is stored with its range and hash, and the optimizer metadata decodes; it fails only if a call is not answered, something of that was not stored when it began, or another manifest of the step is stored |
| `Flusher.ObjectStore.UploadObject` | src/checkpoint-flusher/store.go:34-59 | a receipt has the length and hash of the stored bytes, and that hash is of the first `size` bytes of the source, or, if another writer was faster, of what was sent before the PUT was refused; without one a call was not answered, the source was short, or an object was there and the request was for no bytes, the source was of another length, or the object differs from what was sent |
| `Flusher.ObjectStore.CompareExistingHash` | src/checkpoint-flusher/store.go:70-82 | an existing object gives a receipt exactly when it is not empty and has the wanted length and hash, unless a call is not answered |
| `Latest.List` | src/checkpoint-flusher/store.go:113-135 | the listing loop collects exactly the listed steps below the bound, or reports more than 10000 |
| `Latest.FindLatest` | src/checkpoint-flusher/store.go:112-155 | the step returned is listed, less than the bound, marked with a manifest of its own, compatible, and has every chunk and artifact stored with its range and hash; unless a call is lost no greater listed step had; too many markers is an error exactly past 10000 |
| `Latest.ListingFindsCommits` | src/checkpoint-flusher/store.go:113-135 | listing a run whose store does not change meanwhile finds exactly its committed steps below the bound |
| `Latest.CommitsAreListed` | src/checkpoint-flusher/store.go:113-135 | a listing that returns at least what was there when it began finds every step committed by then |
| `Latest.LatestAfterCommit` | src/checkpoint-flusher/store.go:112-183 | after a commit at s has returned, every later unbounded compatible `latest` over at most 10000 markers returns a step >= s, while others keep writing and whatever of their new names the listing includes |
| `RecoveryRuns.OneRebootPerIncident` | src/watchdog-daemon/main.go:157-197 | in every interleaving of operator, crashes and one watchdog, an incident id started at most once is rebooted for at most once, whatever becomes of other ids |
| `ReusedIds.ReusedIdRebootsTwice` | src/slurm-operator/controllers/recovery.go:189-202 | for any two ids, a run in which a human asks for a retry under a used id and the host is rebooted for that id a second time |
| `ReusedIds.TwiceMeansReused` | src/slurm-operator/controllers/recovery.go:189-202 | two reboots for one id happen only when that very id was started twice |
| `RecoveryRuns.RebootIsDue` | src/watchdog-daemon/main.go:157-190 | behind every reboot, in order: a pass that itself read the node to be evacuated; a look at a degraded node marked with that incident in phase RebootRequested, whose request is for that incident and not acknowledged; and a count of no worker Pods |
| `RecoveryRuns.AttemptBegins` | src/watchdog-daemon/main.go:162-165 | every attempt begins with such a look, so none begins on a node marked for manual repair |
| `RecoveryRuns.LiftIsEarned` | src/slurm-operator/controllers/recovery_verifier.go:106-163 | unmarking the node, clearing its degraded condition or dropping the record, while a record exists, happens only after this very record was made from what a pass read of the node, evacuated, looked at by the watchdog as due, counted without worker Pods, acknowledged and confirmed, recorded its new boot, matched its non-empty inventory hash and, in one pass that read no fault, read one success and no failure for every cell of its inventory, which is of version 1, of the boot before the fault, not empty and in range; and by a pass that read no fault |
| `RecoveryRuns.CellsAreTheInventory` | src/slurm-operator/controllers/recovery_verifier.go:201-211 | there are cells to verify exactly when the inventory is there, of version 1, of the boot before the fault, not empty and with every field of every cell in range, and they are the cells of that inventory, one by one |
| `RecoveryRuns.StartedAt` | src/slurm-operator/controllers/recovery.go:167-202 | the boot, inventory and hash a record has from before the fault are those that the pass that made it read off the node |
| `RecoveryRuns.RetryIsNew` | src/slurm-operator/controllers/recovery.go:189-202 | a retry starts only from manual repair, in a pass that read no fault and that request, and never for the request noted when the last attempt was begun or given up |
| `RecoveryRuns.UnmarkedIsClean` | src/slurm-operator/controllers/recovery.go:382-396 | unmarking leaves no incident, phase, reboot request, acknowledgement or retry on the node |
| `RecoveryRuns.OneRequest` | src/slurm-operator/controllers/recovery_evacuation.go:86-101 | for an id started at most once, whatever step requested its reboot did so for the workers and facts the record has ever after |
| `RecoveryRuns.WorkerWasListed` | src/slurm-operator/controllers/recovery_evacuation.go:105-156 | every worker a record ever holds was shown, with that cluster and claim, by a listing that the recording pass read |
| `RecoveryRuns.RequestedAt` | src/slurm-operator/controllers/recovery_evacuation.go:86-101 | an incident is at or past RebootRequested only after a pass that itself read no active job on any recorded worker and every worker and claim gone |
| `RecoveryRuns.SignalFollowsIntent` | src/slurm-operator/controllers/recovery_evacuation.go:235-269 | a signal reaches Slurm only after its intent was saved for that incident and job with a clock reading of that pass |
| `RecoveryRuns.RequeueFollowsIntent` | src/slurm-operator/controllers/recovery_evacuation.go:309-328 | a requeue reaches Slurm only after its intent was saved for that incident and job |
| `RecoveryRuns.RequeueFollowsSignal` | src/slurm-operator/controllers/recovery_evacuation.go:271-329 | a requeue follows an earlier signal of the same job and incident, whose intent was saved with a clock reading, and a checkpoint that a pass read, or a clock reading 120 seconds past that one |
| `RecoveryRuns.SignalNotRepeated` | src/slurm-operator/controllers/recovery_evacuation.go:246-268 | once noted as sent a signal is never sent again for an incident id started at most once, across crashes and returns to Draining |
| `RecoveryRuns.RequeueNotRepeated` | src/slurm-operator/controllers/recovery_evacuation.go:306-328 | once noted as sent a requeue is never sent again for an incident id started at most once |
| `RecoveryRuns.PhaseChangesBounded` | src/slurm-operator/controllers/recovery_evacuation.go:40-101 | the steps at which the durable phase changes, counted along the run since the record was made, are at most 7 + 3 * jobs |
| `RecoveryRuns.RunOnce` | src/slurm-operator/controllers/recovery.go:354-396 | every action of every party keeps the invariant that a request stands until its incident is past the reboot, and that a rebooted incident is acknowledged or no longer requested |
| `RecoveryWorld.SeenWasTrue` | src/slurm-operator/controllers/recovery.go:150-220 | whatever a pass goes by at a step was true of the world at a moment of that very pass |
| `RecoveryWorld.RequestedWhenEmpty` | src/slurm-operator/controllers/recovery_evacuation.go:86-101 | a record at or past RebootRequested got there by a step during whose pass Slurm listed, for each worker's cluster, no job in a running state with the Pod name of a recorded worker of that cluster among its nodes, and every one of those Pods and claims was absent |
| `RecoveryWorld.RebootedWhenEmpty` | src/watchdog-daemon/main.go:157-197 | behind every reboot there is the step that requested it, during whose pass the world was so of the workers recorded at that step; for an id started once these are the incident's workers ever after |
| `RecoveryWorld.LiftWasRight` | src/slurm-operator/controllers/recovery_verifier.go:106-163 | at every step that lifts the quarantine, each step of its story was taken by a pass during which the world was as it says of the very record that is lifted: its boot, inventory and hash from before the fault were what the node said of itself; the node was empty of its workers; its new boot was up; its inventory hash was published for that boot; the verifier of every cell of its inventory was at one success and no failure; no fault |
| `RecoveryWorld.LiftedWhenSound` | src/slurm-operator/controllers/recovery_verifier.go:145-162 | every incident ever lifted was lifted by a step with that story |
| `RecoveryWorld.RequeuedWhenDue` | src/slurm-operator/controllers/recovery_evacuation.go:291-321 | every job ever requeued was requeued by a step at which it had been signalled, and either its checkpoint was there during the pass that noted it or, during the pass of the requeue, the clock was 120 seconds past the recorded signal time |
| `RecoveryWorld.RequeueWasRight` | src/slurm-operator/controllers/recovery_evacuation.go:249-321 | and that recorded time was the clock's during the pass that saved the intent |
| `RecoveryWorld.WorkerExisted` | src/slurm-operator/controllers/recovery_evacuation.go:105-156 | every recorded worker was listed in the world, with its cluster and claim, during the pass that recorded it |
| `RecoveryWorld.RecordedFactsWereTrue` | src/slurm-operator/controllers/recovery.go:167-202 | what every record says of the node from before the fault, the node said of itself during the pass that made the record |
| `RecoveryRuns.MovesClimb` | src/slurm-operator/controllers/recovery_evacuation.go:50-101 | every phase move climbs but the return to Draining, which falls by at most two |
| `SlurmJobs.ActiveByState` | src/slurm-operator/internal/slurm/client.go:210-225 | waiting and finished are decided by the states as listed; a job is active and uses some nodes exactly when it lists one of them and is in none of fourteen states of waiting or being finished |
| `SlurmJobs.ComponentsShareRoot` | src/slurm-operator/internal/slurm/client.go:203-208 | components of a heterogeneous job share the id of their leader, and any other job has its own |
| `Evacuation.AffectedJobs` | src/slurm-operator/controllers/recovery_evacuation.go:193-219 | adds exactly the unfinished jobs that list the Pod name of a recorded worker of their cluster and are not recorded |
| `Evacuation.CheckEvacuated` | src/slurm-operator/controllers/recovery_evacuation.go:331-347 | true exactly when no running component uses a worker, and the job was requeued by us or is not running |
| `Evacuation.NothingSlipsThrough` | src/slurm-operator/controllers/recovery_evacuation.go:193-219 | when nothing new is affected and every recorded job is evacuated, no job at all, recorded or not, holds a recorded worker of its cluster |
| `Evacuation.ChecksAreExact` | src/slurm-operator/controllers/recovery_evacuation.go:331-354 | with every affected job recorded, the check passes exactly when no job holds a recorded worker of its cluster and no recorded job runs without our requeue |
| `Operator.RecoveryOperator.Reconcile` | src/slurm-operator/controllers/recovery.go:150-220 | whatever goes wrong, one pass moves the record only along the allowed phases and only for reasons the world showed during the pass: a request for an empty node, a pass of all verifiers, no fault at the end; every worker was recorded before or listed during the pass. A pass on a managed node with no lost call and no failed read completes, leaves the node marked as the record says, and moves an evacuation on unless Slurm, asked about every recorded cluster, showed a recorded job not evacuated or a recorded worker was still there |
| `Operator.RecoveryOperator.LoadOrCreate` | src/slurm-operator/controllers/recovery.go:166-187 | works on the durable record or creates one from what was read, exactly when there is a fault or a mark; otherwise the node is left unmarked |
| `Operator.RecoveryOperator.CreateRecord` | src/slurm-operator/controllers/recovery.go:167-186 | a fault starts an isolated incident with the boot, inventory and hash read and nothing else noted; a marked node without a record goes to manual repair |
| `Operator.RecoveryOperator.MaybeRestart` | src/slurm-operator/controllers/recovery.go:189-202 | restarts exactly in manual repair without a fault, for a valid request read off the node that is not the last one tried, with the boot, inventory and hash read and nothing else noted |
| `Operator.RecoveryOperator.EnsureIsolation` | src/slurm-operator/controllers/recovery.go:354-380 | marks the node with the incident, its phase, its reboot request when one is due, and the degraded condition |
| `Operator.RecoveryOperator.SetPhase` | src/slurm-operator/controllers/recovery.go:322-330 | saves the phase and then marks the node with it |
| `Operator.RecoveryOperator.EnterManualRepair` | src/slurm-operator/controllers/recovery.go:332-343 | saves manual repair and the request for a retry that was read |
| `Operator.RecoveryOperator.DiscoverWorkers` | src/slurm-operator/controllers/recovery_evacuation.go:105-156 | records every Pod listed, each new worker with the cluster and claim listed and each new cluster with the uid listed, and changes nothing recorded before |
| `Operator.RecoveryOperator.RecordWorkers` | src/slurm-operator/controllers/recovery_evacuation.go:23-32 | saves exactly that, unless trouble leaves the record as it was |
| `Operator.RecoveryOperator.TakeSnapshots` | src/slurm-operator/controllers/recovery_evacuation.go:158-191 | a snapshot covers every recorded cluster, with the jobs Slurm had at a moment of the call, or there is none |
| `Operator.RecoveryOperator.ReconcileEvacuation` | src/slurm-operator/controllers/recovery_evacuation.go:22-103 | every worker Pod seen is recorded as listed, new jobs lead back to Draining, a reboot is requested only if during the pass the world showed no active job on a recorded worker and every Pod and claim absent, and without trouble a phase stays only if a recorded job was seen not evacuated or a recorded worker was still there |
| `Operator.RecoveryOperator.Evacuate` | src/slurm-operator/controllers/recovery_evacuation.go:57-102 | leads only to the next phases, never on from Requeued while a recorded job is not evacuated, and stays only if a job or a worker is still there |
| `Operator.RecoveryOperator.RequestRebootWhenEmpty` | src/slurm-operator/controllers/recovery_evacuation.go:86-100 | requests the reboot only when the world showed the node empty during the pass, and leaves it only if a job or a worker is still there |
| `Operator.RecoveryOperator.SignalJobs` | src/slurm-operator/controllers/recovery_evacuation.go:235-269 | moves on only when every job was signalled or seen evacuated, to Requeued exactly when there are none |
| `Operator.RecoveryOperator.SendSignal` | src/slurm-operator/controllers/recovery_evacuation.go:249-266 | without trouble exactly this job is signalled, and its record notes the signal and an intent with the time it bore or the time read |
| `Operator.RecoveryOperator.CheckpointAndRequeue` | src/slurm-operator/controllers/recovery_evacuation.go:271-329 | moves to Requeued only when every recorded job was evacuated in the snapshot, and without trouble whenever it was |
| `Operator.RecoveryOperator.RequeueJob` | src/slurm-operator/controllers/recovery_evacuation.go:291-327 | a checkpoint is noted only if the world had one, a requeue only if the job was signalled and had a checkpoint or 120 seconds had passed by the world's clock, and without trouble a requeue so due is sent; no other job changes |
| `Operator.RecoveryOperator.SendRequeue` | src/slurm-operator/controllers/recovery_evacuation.go:309-327 | without trouble exactly this job is requeued, and its record notes the requeue and an intent with the time it bore or the time read |
| `Operator.RecoveryOperator.Cleanup` | src/slurm-operator/controllers/recovery_evacuation.go:349-393 | completes only when this pass read no active job on a recorded worker and the world showed every worker's Pod and claim absent; it stays only if a job or a worker is still there |
| `Operator.RecoveryOperator.RemoveWorkers` | src/slurm-operator/controllers/recovery_evacuation.go:355-392 | exactly Pods and claims the world showed absent are taken as gone, and the removal is complete unless one was still there |
| `Operator.RecoveryOperator.ReconcileReboot` | src/slurm-operator/controllers/recovery_verifier.go:25-60 | gives up when late or rebooted twice, moves to Rebooting only on an acknowledgement, waits for a new boot and records it, and reaches Verifying only with the matching inventory in the world |
| `Operator.RecoveryOperator.AwaitInventory` | src/slurm-operator/controllers/recovery_verifier.go:61-103 | a node not ready loses its readiness, a ready one starts it |
| `Operator.RecoveryOperator.CheckInventory` | src/slurm-operator/controllers/recovery_verifier.go:76-103 | waits out 30 seconds, gives up on an inventory that is different, or not there after 120 seconds, and goes to Verifying only with the matching one |
| `Operator.RecoveryOperator.BeginVerification` | src/slurm-operator/controllers/recovery_verifier.go:88-103 | notes the start once and goes to Verifying, or gives up if verifiers cannot be created |
| `Operator.RecoveryOperator.ReconcileVerification` | src/slurm-operator/controllers/recovery_verifier.go:106-163 | never started, 120 seconds old, or without an inventory that is of version 1, of the boot before the fault, not empty and in range, it gives up; verification passes only with the verifier of every cell of that inventory succeeded and no fault in the world during the pass; the record is dropped only after that, without a fault, and is when the verifiers are gone |
| `Operator.RecoveryOperator.PassVerifiers` | src/slurm-operator/controllers/recovery_verifier.go:117-144 | passes only with every cell of the inventory succeeded and no fault in the world, and does when they stay so; gives up only if a verifier failed |
| `Operator.RecoveryOperator.CheckVerifiers` | src/slurm-operator/controllers/recovery_verifier.go:118-135 | all have succeeded exactly when each cell's Job, read in turn, had one success and no failure |
| `Operator.RecoveryOperator.LiftQuarantine` | src/slurm-operator/controllers/recovery_verifier.go:152-161 | unmarks the node, clears the condition and deletes the record |
| `Watchdog.RebootWatchdog.RebootOnce` | src/watchdog-daemon/main.go:157-197 | reboots at most once, only if in the state the node was read in it was degraded, in phase RebootRequested, and its request was for the present incident and not acknowledged, and only after a listing without worker Pods; for an id started at most once, never a second time; when all that was so, the attempt is given up only on a failed call, a listed Pod or a dry run |
| `Watchdog.RebootWatchdog.LookAtNode` | src/watchdog-daemon/main.go:158-165 | an attempt begins exactly when the read succeeds and the state after the others' moves is degraded, in phase RebootRequested, with a request that is not empty, is for the present incident and is not acknowledged |
| `Watchdog.RebootWatchdog.CountWorkers` | src/watchdog-daemon/main.go:166-172 | the attempt goes on exactly when the listing shows no worker Pods |
| `Watchdog.RebootWatchdog.AcknowledgeRequest` | src/watchdog-daemon/main.go:173-187 | afterwards the request is acknowledged or is no longer the node's request |
| `Planner.DevicesMatchExactly` | src/slurm-operator/controllers/workers.go:319-329 | unless a wanted count is zero, shapes fit exactly when CPUs and memory suffice and the devices are the same |
| `Planner.ZeroCountMatchesOthers` | src/slurm-operator/controllers/workers.go:319-329 | of the test alone: for every shape with a zero count there is a worker with other devices that fits it |
| `Planner.ReusedDevicesMatch` | src/slurm-operator/controllers/workers.go:306-329 | with counts of at least one, as demands have them, a worker put to use has exactly the devices asked for |
| `Planner.BestCandidate` | src/slurm-operator/controllers/workers.go:306-317 | among the candidates free, of the pool and fitting, the one with the least CPU, then the least memory, then the least name; none exactly when there is none |
| `Planner.LessWasteTransitive` | src/slurm-operator/controllers/workers.go:331-340 | the waste order is transitive |
| `Planner.PickUnits` | src/slurm-operator/controllers/workers.go:205-216 | each unit of a group gets the right pick given what earlier units took |
| `Planner.UnitsAt` | src/slurm-operator/controllers/workers.go:205-216 | a demand of n units gives n units of its own, each of its job, group, pool and shape |
| `Planner.CheckFits` | src/slurm-operator/controllers/workers.go:217-233 | accepts exactly when every new worker can be claimed and no pool passes its limit |
| `Planner.Plan` | src/slurm-operator/controllers/workers.go:194-253 | the groups are decided rightly, once each, in order of first appearance; what is reserved and created is exactly what the accepted decisions say; it stops early only at a creation that fails, with a proper prefix created |
| `Planner.FirstGroupsAt` | src/slurm-operator/controllers/workers.go:194-201 | in that order a group stands after exactly the groups that appear before it |
| `Planner.NoCandidateTwice` | src/slurm-operator/controllers/workers.go:202-243 | no candidate serves two units of accepted groups |
| `Planner.AcceptedInFull` | src/slurm-operator/controllers/workers.go:204-253 | every unit of an accepted group has a fitting reserved worker of its pool, or the new worker at a place of its own |
| `Planner.NoNewWorkerTwice` | src/slurm-operator/controllers/workers.go:244-252 | no new worker serves two units |
| `Planner.EveryNewWorkerServes` | src/slurm-operator/controllers/workers.go:244-252 | every new worker serves a unit that had no candidate |
| `Planner.RefusalLeavesNoTrace` | src/slurm-operator/controllers/workers.go:234-239 | take a refused group's demands away, and all other decisions are right as they stand, with the same workers reserved and created |
| `Planner.OnePlan` | src/slurm-operator/controllers/workers.go:202-253 | for candidates of different names the groups in their order leave exactly one right plan |
| `Planner.PoolsStayWithinLimits` | src/slurm-operator/controllers/workers.go:228-252 | creation never takes a pool past its limit, even when an error cuts it short |
| `ClaimTable.PrepareRecord` | src/shared/draplugin/plugin.go:137-178 | a claim is prepared exactly when its devices are ours, present, named once, free and placeable, with a record of its own uid, namespace, name, allocation hash and the inventory hash of its sorted devices; or when the record there is has these as they are |
| `ClaimTable.PreparesAgain` | src/shared/draplugin/plugin.go:142-147 | once filed, a claim can be prepared again, with the same record |
| `ClaimTable.InventoryHashOrderFree` | src/shared/draplugin/plugin.go:210-214 | the inventory hash does not depend on the order devices are named in |
| `ClaimTable.DevicesAreSorted` | src/shared/draplugin/plugin.go:151-170 | a new record lists exactly the allocated devices, in byte order |
| `ClaimTable.FilingKeepsTable` | src/shared/draplugin/plugin.go:137-178 | filing a prepared record keeps every device with one claim and changes no other record |
| `ClaimTable.Load` | src/shared/draplugin/plugin.go:59-93 | succeeds exactly when every file is current, in the inventory, unchanged and shares no device, and then gives back what the files say |
| `ClaimTable.SoundTablesReload` | src/shared/draplugin/plugin.go:59-93 | a table the plugin wrote reloads exactly when no claim in it has an empty uid |
| `ClaimTable.NoRestartWithoutUid` | src/shared/draplugin/plugin.go:75-178 | whatever claim can be prepared can be prepared without a uid, and after that there is no restart |
| `ClaimTable.SomeClaimWithoutUid` | src/shared/draplugin/plugin.go:75-178 | such a claim |
| `DraPlugin.Plugin.PrepareOne` | src/shared/draplugin/plugin.go:125-133 | granted exactly when it can be prepared and its file was written, and then filed; otherwise nothing changes |
| `DraPlugin.GrantedAgain` | src/shared/draplugin/plugin.go:125-147 | a claim that was granted is granted again, which changes nothing, and is recovered if it is found with the same allocation |
| `DraPlugin.Plugin.PrepareResourceClaims` | src/shared/draplugin/plugin.go:120-135 | each claim is decided against the table the earlier ones left; table and answers are those of the batch; cut off anywhere, the disk is sound and keeps all earlier records |
| `DraPlugin.AnswersAreHonest` | src/shared/draplugin/plugin.go:123-134 | every claim of a batch is answered, and what is reported as prepared is |
| `DraPlugin.AnsweredAreDescribed` | src/shared/draplugin/plugin.go:123-147 | after a batch, the record of every claim reported as prepared has the namespace, name, allocation hash and inventory hash of that claim |
| `DraPlugin.Plugin.UnprepareResourceClaims` | src/shared/draplugin/plugin.go:180-193 | exactly the claims whose files were removed leave the table |
| `DraPlugin.UnpreparedHas` | src/shared/draplugin/plugin.go:180-193 | a claim is left exactly when none of the successful removals named it, and its record is unchanged |
| `DraPlugin.Plugin.RecoverClaims` | src/shared/draplugin/plugin.go:95-118 | on success every remaining record is of a claim that still exists under its uid, allocated with the same hash, and exactly the records whose claim is missing or replaced were dropped; it fails only for a claim that changed or a file that was not removed; when every claim is as it was, it succeeds and drops nothing |
| `DraPlugin.Plugin.Reload` | src/shared/draplugin/plugin.go:59-93 | a restart fails exactly when a claim without a uid was prepared, and otherwise rebuilds the table that was on disk |
| `DraPlugin.Plugin.Operate` | src/shared/draplugin/plugin.go:59-193 | after any sequence of batches, removals, recoveries, failed writes, crashes and restarts, no device is held by two claims; the process is up with the table that is on disk unless a claim without a uid was prepared |
| `NumaHook.PrepareHook` | src/dra-driver/internal/driver/plugin.go:35-53 | the running-node loop computes the declarative placement |
| `NumaHook.OneNodeExactly` | src/dra-driver/internal/driver/plugin.go:36-43 | with no node unknown, exactly the claims on one node are accepted |
| `NumaHook.MixedExactly` | src/dra-driver/internal/driver/plugin.go:36-43 | of the hook alone: names on different nodes are accepted exactly when devices of unknown node come first and the rest agree |
| `NumaHook.UnknownNodeIsIgnored` | src/dra-driver/internal/driver/plugin.go:36-43 | of the hook alone: a device of unknown node and a CPU of node 3, accepted as node 3 |
| `NumaHook.ClaimsSitOnOneNode` | src/dra-driver/internal/driver/plugin.go:35-53 | for devices named as discovery names them, every device of a prepared claim is on the recorded node, even with devices configured on no node |
| `NumaHook.FirstIsCpu` | src/dra-driver/internal/driver/inventory.go:200-200 | a sorted list of discovered devices that has a CPU starts with one |
| `NumaHook.CpusAreDisjoint` | src/dra-driver/internal/driver/plugin.go:44-51 | with distinct logical CPUs the CPU sets of distinct claims are disjoint |

## Left out

- HTTP handlers, TLS, JWT, MinIO client setup, metrics, CDI, NRI and the Kubernetes objects that are built: plumbing around the modelled logic.
- JSON, gzip and regular-expression details: the model starts from decoded values; storage-path cleaning and timestamp parsing are parameters.
- Ring headers and file creation, wrong-role and null-argument errors, and the lock-free check: the model starts from a mapped ring with valid bounds. Go's and C's waits are both polls that may be cancelled.
- Memory order weaker than sequential consistency in the C ring.
- `restore`, and the content of optimizer metadata: the latter is a predicate of the bytes.
- Latest.VerifyAll: the stat and the hash of one object, and the two reads of one load, are taken together, because stored bytes never change; in `Flusher` they are separate calls.
- Latest.FindLatest: errors while listing are not modelled; they end the call with an error.
- Flusher.ObjectStore.UploadObject: how much of the source was sent when a PUT is refused is an input, so that a raced retry of the same bytes may fail, as it may in the source, where the rest is drained outside the hash; ETags are left out.
- Operator.RecoveryOperator.DiscoverWorkers: the annotation written on each worker Pod is left out, and Pods whose cluster cannot be read make the whole observation fail.
- The lists of clusters, workers and jobs in the durable record are maps from the keys the source searches by; their sorted order is one of the orders the loops may take. Timestamps that only decide when to give up are inputs.
- Node reads are taken as current: a lagging cache is not modelled.
- Liveness of recovery over many passes, and the idempotence of creating verifier resources, whose result is an input.
- `checkpointCommittedSince`, host lists and Slurm REST calls: observations and calls that may fail.
- Planner.Plan: demand parsing, pod listing and idle scale-down are left out; demands, candidates and pool sizes are inputs, and `resourceClaim` is a predicate of a demand. Surplus is computed without 64-bit overflow.
- DraPlugin.Plugin.RecoverClaims: one lookup per claim; `PreparedFor` and the CDI device list are left out.
- ClaimTable.Load: files are keyed by uid, which assumes uids that are plain file names.
- Uniqueness of object ids, and one RNG artifact per rank: neither is promised by the validator.
- Demand filtering by the drain annotation: the candidate filter does not test it.
