/**
 * The table of prepared device claims, kept in memory and in one file per claim, through batches,
 * failed writes, removals, crashes and restarts.
 */
module ClaimTable {
  import opened Bags
  import opened Sorting

  datatype Allocation = Allocation(request: string, driver: string, pool: string, device: string)

  /** A claim; one that is not allocated has no results. */
  datatype Claim = Claim(uid: string, namespace: string, name: string, results: seq<Allocation>)

  datatype Placement = Placement(numa: int, cpus: seq<int>)

  datatype Record = Record(
    version: int, uid: string, namespace: string, name: string, hash: string,
    inventory: string, devices: seq<string>, placement: Placement)

  /** The driver: its inventory, its hashes, and its placement hook. */
  datatype Config = Config(
    version: int, driver: string, pool: string, devices: set<string>,
    inventoryHash: seq<string> -> string, allocationHash: seq<Allocation> -> string,
    place: seq<string> -> Option<Placement>)

  type Table = map<string, Record>

  function InventoryHash(c: Config, names: seq<string>): string {
    c.inventoryHash(Sort(UpTo, names))
  }

  /** The hash of an inventory does not depend on the order its devices are named in. */
  lemma InventoryHashOrderFree(c: Config, a: seq<string>, b: seq<string>)
    requires multiset(a) == multiset(b)
    ensures InventoryHash(c, a) == InventoryHash(c, b)
  {
    UpToIsTotal();
    SortOrders(UpTo, a);
    SortOrders(UpTo, b);
    forall x, y | UpTo(x, y) && UpTo(y, x) ensures x == y {
      BeforeTotal(x, y);
    }
    SortedOnce(UpTo, Sort(UpTo, a), Sort(UpTo, b));
  }

  // ---- The invariant ----

  ghost predicate Distinct(names: seq<string>) {
    forall i, j :: 0 <= i < j < |names| ==> names[i] != names[j]
  }

  ghost predicate RecordOk(c: Config, r: Record) {
    && r.version == c.version && Distinct(r.devices) && InOrder(UpTo, r.devices)
    && (forall i :: 0 <= i < |r.devices| ==> r.devices[i] in c.devices)
    && r.inventory == InventoryHash(c, r.devices) && c.place(r.devices) == Some(r.placement)
  }

  ghost predicate Apart(a: Record, b: Record) {
    forall name :: name in a.devices ==> name !in b.devices
  }

  ghost predicate RecordsOk(c: Config, t: Table) {
    forall uid :: uid in t ==> t[uid].uid == uid && RecordOk(c, t[uid])
  }

  ghost predicate NoneShared(t: Table) {
    forall uid, other :: uid in t && other in t && uid != other ==> Apart(t[uid], t[other])
  }

  /** Records are filed under their own uid, list their devices in order, agree with the inventory, and
      share no device. */
  ghost predicate TableOk(c: Config, t: Table) {
    RecordsOk(c, t) && NoneShared(t)
  }

  // ---- prepare ----

  function DevicesOf(results: seq<Allocation>): (names: seq<string>)
    ensures |names| == |results| && forall i :: 0 <= i < |names| ==> names[i] == results[i].device
  {
    if results == [] then [] else DevicesOf(results[..|results| - 1]) + [results[|results| - 1].device]
  }

  ghost predicate Free(t: Table, uid: string, device: string) {
    forall other :: other in t && other != uid ==> device !in t[other].devices
  }

  /** The allocated device is ours, exists, was not named before, and is held by no other claim. */
  ghost predicate AllocationOk(c: Config, t: Table, claim: Claim, i: nat)
    requires i < |claim.results|
  {
    var a := claim.results[i];
    && a.driver == c.driver && a.pool == c.pool && a.device in c.devices && Free(t, claim.uid, a.device)
    && forall j :: 0 <= j < i ==> claim.results[j].device != a.device
  }

  ghost predicate Grantable(c: Config, t: Table, claim: Claim) {
    forall i :: 0 <= i < |claim.results| ==> AllocationOk(c, t, claim, i)
  }

  /** The record names the claim, its allocation and the inventory of its devices as they are. */
  ghost predicate Describes(c: Config, r: Record, claim: Claim) {
    && r.hash == c.allocationHash(claim.results) && r.inventory == InventoryHash(c, r.devices)
    && r.namespace == claim.namespace && r.name == claim.name
  }

  /** The record a claim is prepared with, if it can be. */
  ghost predicate Prepares(c: Config, t: Table, claim: Claim, r: Record) {
    && claim.results != []
    && if claim.uid in t then r == t[claim.uid] && Describes(c, r, claim)
       else
         && Grantable(c, t, claim) && r.version == c.version && r.uid == claim.uid && Describes(c, r, claim)
         && r.devices == Sort(UpTo, DevicesOf(claim.results)) && c.place(r.devices) == Some(r.placement)
  }

  /** A new record lists its claim's devices, each as often as allocated, in byte order. */
  lemma DevicesAreSorted(c: Config, t: Table, claim: Claim, r: Record)
    requires Prepares(c, t, claim, r) && claim.uid !in t
    ensures InOrder(UpTo, r.devices) && multiset(r.devices) == multiset(DevicesOf(claim.results))
  {
    UpToIsTotal();
    SortOrders(UpTo, DevicesOf(claim.results));
  }

  /** A claim has at most one record it can be prepared with. */
  lemma PreparesOnce(c: Config, t: Table, claim: Claim, r: Record, s: Record)
    requires Prepares(c, t, claim, r) && Prepares(c, t, claim, s)
    ensures r == s
  {
  }

  /** Once filed, a claim can be prepared again, with the same record. */
  lemma PreparesAgain(c: Config, t: Table, claim: Claim, r: Record)
    requires Prepares(c, t, claim, r)
    ensures Prepares(c, t[claim.uid := r], claim, r)
  {
  }

  method HeldByOther(t: Table, uid: string, device: string) returns (held: bool)
    ensures held == !Free(t, uid, device)
  {
    var rest := t.Keys;
    while rest != {}
      invariant rest <= t.Keys
      invariant forall other :: other in t && other !in rest && other != uid ==> device !in t[other].devices
      decreases |rest|
    {
      var other :| other in rest;
      if other != uid && device in t[other].devices {
        return true;
      }
      rest := rest - {other};
    }
    return false;
  }

  /** The loop of `prepare` over the allocated devices. */
  method Collect(c: Config, t: Table, claim: Claim) returns (devices: Option<seq<string>>)
    ensures devices.Some? <==> Grantable(c, t, claim)
    ensures devices.Some? ==> devices.value == DevicesOf(claim.results)
  {
    var names: seq<string> := [];
    for i := 0 to |claim.results|
      invariant names == DevicesOf(claim.results[..i]) && forall k :: 0 <= k < i ==> AllocationOk(c, t, claim, k)
    {
      var a := claim.results[i];
      assert a.device in names <==> exists j :: 0 <= j < i && names[j] == a.device;
      if a.driver != c.driver || a.pool != c.pool || a.device !in c.devices || a.device in names {
        assert !AllocationOk(c, t, claim, i);
        return None;
      }
      var held := HeldByOther(t, claim.uid, a.device);
      if held {
        assert !AllocationOk(c, t, claim, i);
        return None;
      }
      assert claim.results[..i + 1][..i] == claim.results[..i];
      names := names + [a.device];
    }
    assert claim.results[..|claim.results|] == claim.results;
    return Some(names);
  }

  method PrepareRecord(c: Config, t: Table, claim: Claim) returns (r: Option<Record>)
    ensures r.Some? ==> Prepares(c, t, claim, r.value)
    ensures r.None? ==> forall record :: !Prepares(c, t, claim, record)
  {
    if claim.results == [] {
      return None;
    }
    var hash := c.allocationHash(claim.results);
    if claim.uid in t {
      var earlier := t[claim.uid];
      if earlier.hash != hash || earlier.inventory != InventoryHash(c, earlier.devices)
         || earlier.namespace != claim.namespace || earlier.name != claim.name
      {
        return None;
      }
      return Some(earlier);
    }
    var devices := Collect(c, t, claim);
    if devices.None? {
      return None;
    }
    var sorted := Sort(UpTo, devices.value);
    var placement := c.place(sorted);
    if placement.None? {
      return None;
    }
    return Some(Record(c.version, claim.uid, claim.namespace, claim.name, hash, InventoryHash(c, sorted), sorted,
                       placement.value));
  }

  // ---- What preparing keeps ----

  lemma SortKeepsDistinct(names: seq<string>)
    requires Distinct(names)
    ensures Distinct(Sort(UpTo, names))
  {
    var sorted := Sort(UpTo, names);
    forall i, j | 0 <= i < j < |sorted| ensures sorted[i] != sorted[j] {
      if sorted[i] == sorted[j] {
        TwiceInBag(sorted, i, j);
        DistinctOnce(names, sorted[i]);
      }
    }
  }

  lemma TwiceInBag(s: seq<string>, i: nat, j: nat)
    requires i < j < |s| && s[i] == s[j]
    ensures multiset(s)[s[i]] >= 2
  {
    assert s == s[..i] + [s[i]] + s[i + 1..j] + [s[j]] + s[j + 1..];
  }

  lemma {:induction false} DistinctOnce(s: seq<string>, x: string)
    requires Distinct(s)
    ensures multiset(s)[x] <= 1
  {
    if s != [] {
      DistinctOnce(s[1..], x);
      assert s == [s[0]] + s[1..];
      assert forall k :: 0 <= k < |s[1..]| ==> s[1..][k] == s[k + 1];
    }
  }

  /** The devices of a claim that may be granted. */
  ghost predicate Grants(c: Config, t: Table, uid: string, names: seq<string>) {
    Distinct(names) && forall name :: name in names ==> name in c.devices && Free(t, uid, name)
  }

  lemma GrantableGrants(c: Config, t: Table, claim: Claim)
    requires Grantable(c, t, claim)
    ensures Grants(c, t, claim.uid, DevicesOf(claim.results))
  {
    var names := DevicesOf(claim.results);
    forall i, j | 0 <= i < j < |names| ensures names[i] != names[j] {
      assert AllocationOk(c, t, claim, j);
    }
    forall name | name in names ensures name in c.devices && Free(t, claim.uid, name) {
      var i :| 0 <= i < |names| && names[i] == name;
      assert AllocationOk(c, t, claim, i);
    }
  }

  lemma SortKeepsGrants(c: Config, t: Table, uid: string, names: seq<string>)
    requires Grants(c, t, uid, names)
    ensures Grants(c, t, uid, Sort(UpTo, names))
  {
    SortKeepsDistinct(names);
    forall name | name in Sort(UpTo, names) ensures name in c.devices && Free(t, uid, name) {
      SortHas(UpTo, names, name);
    }
  }

  /** A prepared record is sound and shares no device with any other. */
  lemma PreparedIsSound(c: Config, t: Table, claim: Claim, r: Record)
    requires TableOk(c, t) && Prepares(c, t, claim, r)
    ensures r.uid == claim.uid && RecordOk(c, r)
    ensures forall other :: other in t && other != claim.uid ==> Apart(r, t[other]) && Apart(t[other], r)
  {
    if claim.uid !in t {
      GrantableGrants(c, t, claim);
      SortKeepsGrants(c, t, claim.uid, DevicesOf(claim.results));
      DevicesAreSorted(c, t, claim, r);
      assert Grants(c, t, claim.uid, r.devices);
    }
  }

  lemma FilingKeepsApart(t: Table, uid: string, r: Record)
    requires NoneShared(t) && forall other :: other in t && other != uid ==> Apart(r, t[other]) && Apart(t[other], r)
    ensures NoneShared(t[uid := r])
  {
    var next := t[uid := r];
    forall a, b | a in next && b in next && a != b ensures Apart(next[a], next[b]) {
      assert a != uid ==> next[a] == t[a];
      assert b != uid ==> next[b] == t[b];
    }
  }

  lemma FilingKeepsRecords(c: Config, t: Table, uid: string, r: Record)
    requires RecordsOk(c, t) && r.uid == uid && RecordOk(c, r)
    ensures RecordsOk(c, t[uid := r])
  {
  }

  lemma FilingKeeps(c: Config, t: Table, uid: string, r: Record)
    requires TableOk(c, t) && r.uid == uid && RecordOk(c, r)
    requires forall other :: other in t && other != uid ==> Apart(r, t[other]) && Apart(t[other], r)
    ensures TableOk(c, t[uid := r])
  {
    FilingKeepsRecords(c, t, uid, r);
    FilingKeepsApart(t, uid, r);
  }

  /** Filing a prepared record keeps the table sound and changes no record already there. */
  lemma FilingKeepsTable(c: Config, t: Table, claim: Claim, r: Record)
    requires TableOk(c, t) && Prepares(c, t, claim, r)
    ensures TableOk(c, t[claim.uid := r]) && (claim.uid in t ==> t[claim.uid] == r)
  {
    PreparedIsSound(c, t, claim, r);
    FilingKeeps(c, t, claim.uid, r);
  }

  // ---- Restart ----

  /** What a restart accepts: every file current and in the inventory, no device held twice. */
  ghost predicate Loadable(c: Config, files: Table) {
    && (forall f :: f in files ==> FileOk(c, files[f]))
    && (forall f, g :: f in files && g in files && files[f].uid != files[g].uid ==> Apart(files[f], files[g]))
  }

  ghost predicate FileOk(c: Config, r: Record) {
    && r.version == c.version && r.uid != "" && (forall i :: 0 <= i < |r.devices| ==> r.devices[i] in c.devices)
    && InventoryHash(c, r.devices) == r.inventory
  }

  /** The devices of the files read so far and who holds them. */
  ghost predicate Holding(files: Table, done: seq<string>, held: map<string, string>) {
    && (forall f, name :: f in done && f in files && name in files[f].devices ==>
          name in held && held[name] == files[f].uid)
    && (forall name :: name in held ==>
          exists f :: f in done && f in files && name in files[f].devices && files[f].uid == held[name])
  }

  /** One more file is fine when it passes its own checks and shares no device with another record. */
  ghost predicate Joins(c: Config, files: Table, done: seq<string>, f: string)
    requires f in files
  {
    && FileOk(c, files[f])
    && forall g :: g in done && g in files && files[g].uid != files[f].uid ==> Apart(files[f], files[g])
  }

  /** Every file so far was fine when it was read. */
  ghost predicate Clean(c: Config, files: Table, done: seq<string>) {
    done == [] ||
    var n := |done| - 1;
    Clean(c, files, done[..n]) && done[n] in files && Joins(c, files, done[..n], done[n])
  }

  /** One file's devices: they exist and are held by no other record, and are then held by this one. */
  method HoldDevices(c: Config, files: Table, order: seq<string>, n: nat, held0: map<string, string>)
    returns (ok: bool, held: map<string, string>)
    requires n < |order| && order[n] in files && Holding(files, order[..n], held0)
    ensures ok ==> Holding(files, order[..n + 1], held)
    ensures ok <==>
      && (forall i :: 0 <= i < |files[order[n]].devices| ==> files[order[n]].devices[i] in c.devices)
      && (forall g :: g in order[..n] && g in files && files[g].uid != files[order[n]].uid ==>
            Apart(files[order[n]], files[g]))
  {
    var r := files[order[n]];
    held := held0;
    for i := 0 to |r.devices|
      invariant forall k :: 0 <= k < i ==> r.devices[k] in c.devices
      invariant forall k :: 0 <= k < i ==> r.devices[k] in held && held[r.devices[k]] == r.uid
      invariant forall name :: name in held0 ==> name in held && held[name] == held0[name]
      invariant forall name :: name in held && name !in held0 ==> name in r.devices && held[name] == r.uid
    {
      var name := r.devices[i];
      if name !in c.devices {
        return false, held;
      }
      if name in held && held[name] != r.uid {
        ghost var g :| g in order[..n] && g in files && name in files[g].devices && files[g].uid == held0[name];
        assert !Apart(r, files[g]);
        return false, held;
      }
      held := held[name := r.uid];
    }
    ok := true;
    HeldNow(files, order, n, held0, held);
  }

  /** After the loop, this record's devices are held by it and all others as before. */
  lemma HeldNow(files: Table, order: seq<string>, n: nat, held0: map<string, string>, held: map<string, string>)
    requires n < |order| && order[n] in files && Holding(files, order[..n], held0)
    requires var r := files[order[n]];
      && (forall k :: 0 <= k < |r.devices| ==> r.devices[k] in held && held[r.devices[k]] == r.uid)
      && (forall name :: name in held0 ==> name in held && held[name] == held0[name])
      && (forall name :: name in held && name !in held0 ==> name in r.devices && held[name] == r.uid)
    ensures Holding(files, order[..n + 1], held)
    ensures forall g :: g in order[..n] && g in files && files[g].uid != files[order[n]].uid ==>
      Apart(files[order[n]], files[g])
  {
    assert forall f :: f in order[..n + 1] <==> f in order[..n] || f == order[n];
  }

  /** One file read back. */
  method LoadFile(c: Config, files: Table, order: seq<string>, n: nat, held0: map<string, string>)
    returns (ok: bool, held: map<string, string>)
    requires n < |order| && order[n] in files && Holding(files, order[..n], held0)
    ensures ok == Joins(c, files, order[..n], order[n]) && (ok ==> Holding(files, order[..n + 1], held))
  {
    var r := files[order[n]];
    if r.version != c.version || r.uid == "" {
      return false, held0;
    }
    ok, held := HoldDevices(c, files, order, n, held0);
    if ok {
      ok := InventoryHash(c, r.devices) == r.inventory;
    }
  }

  /** Each file holds the record of the uid it is named after. */
  ghost predicate Filed(files: Table) {
    forall f :: f in files ==> files[f].uid == f
  }

  function Read(files: Table, done: seq<string>): Table
    requires forall f :: f in done ==> f in files
  {
    if done == [] then map[]
    else
      var r := files[done[|done| - 1]];
      Read(files, done[..|done| - 1])[r.uid := r]
  }

  /** `New`: read every file back. It fails exactly when the files are not loadable, and otherwise the
      table is what the files say. */
  method Load(c: Config, files: Table, order: seq<string>) returns (ok: bool, prepared: Table)
    requires forall f :: f in order <==> f in files
    ensures ok == Loadable(c, files)
    ensures ok && Filed(files) ==> prepared == files
  {
    prepared := map[];
    var held := map[];
    for i := 0 to |order|
      invariant Holding(files, order[..i], held) && Clean(c, files, order[..i]) && prepared == Read(files, order[..i])
    {
      assert order[..i + 1][..i] == order[..i];
      ok, held := LoadFile(c, files, order, i, held);
      if !ok {
        NotJoining(c, files, order[..i], order[i]);
        return;
      }
      prepared := prepared[files[order[i]].uid := files[order[i]]];
    }
    assert order[..|order|] == order;
    CleanIsLoadable(c, files, order);
    ok := true;
    if Filed(files) {
      ReadsAll(files, order);
    }
  }

  lemma NotJoining(c: Config, files: Table, done: seq<string>, f: string)
    requires f in files && !Joins(c, files, done, f)
    ensures !Loadable(c, files)
  {
  }

  lemma {:induction false} CleanPair(c: Config, files: Table, done: seq<string>, i: nat, j: nat)
    requires Clean(c, files, done) && i < j < |done|
    ensures done[i] in files && done[j] in files
    ensures files[done[i]].uid != files[done[j]].uid ==> Apart(files[done[j]], files[done[i]])
  {
    var n := |done| - 1;
    if j < n {
      CleanPair(c, files, done[..n], i, j);
    } else {
      assert done[i] in done[..n];
      CleanFile(c, files, done[..n], i);
    }
  }

  lemma {:induction false} CleanFile(c: Config, files: Table, done: seq<string>, i: nat)
    requires Clean(c, files, done) && i < |done|
    ensures done[i] in files && FileOk(c, files[done[i]])
  {
    if i < |done| - 1 {
      CleanFile(c, files, done[..|done| - 1], i);
    }
  }

  lemma CleanApart(c: Config, files: Table, order: seq<string>, f: string, g: string)
    requires Clean(c, files, order) && f in order && g in order
    requires f in files && g in files && files[f].uid != files[g].uid
    ensures Apart(files[f], files[g])
  {
    var i :| 0 <= i < |order| && order[i] == f;
    var j :| 0 <= j < |order| && order[j] == g;
    if i < j {
      CleanPair(c, files, order, i, j);
    } else {
      CleanPair(c, files, order, j, i);
    }
  }

  lemma CleanIsLoadable(c: Config, files: Table, order: seq<string>)
    requires Clean(c, files, order) && forall f :: f in files ==> f in order
    ensures Loadable(c, files)
  {
    forall f | f in files ensures FileOk(c, files[f]) {
      var i :| 0 <= i < |order| && order[i] == f;
      CleanFile(c, files, order, i);
    }
    forall f, g | f in files && g in files && files[f].uid != files[g].uid ensures Apart(files[f], files[g]) {
      CleanApart(c, files, order, f, g);
    }
  }

  lemma {:induction false} ReadsAll(files: Table, done: seq<string>)
    requires Filed(files) && forall f :: f in done ==> f in files
    ensures forall f :: f in Read(files, done) <==> f in done
    ensures forall f :: f in Read(files, done) ==> f in files && Read(files, done)[f] == files[f]
  {
    if done != [] {
      var n := |done| - 1;
      ReadsAll(files, done[..n]);
      assert forall f :: f in done <==> f in done[..n] || f == done[n];
    }
  }

  /** A sound table reloads exactly when no claim without a uid is in it. */
  lemma SoundTablesReload(c: Config, t: Table)
    requires TableOk(c, t)
    ensures Loadable(c, t) <==> "" !in t
  {
  }

  /** Whatever can be prepared can be prepared without a uid. */
  lemma PreparesWithoutUid(c: Config, t: Table, claim: Claim, r: Record)
    requires Prepares(c, t, claim, r) && claim.uid !in t && "" !in t
    ensures Prepares(c, t, claim.(uid := ""), r.(uid := ""))
  {
    var nameless := claim.(uid := "");
    forall i | 0 <= i < |nameless.results| ensures AllocationOk(c, t, nameless, i) {
      assert AllocationOk(c, t, claim, i);
    }
  }

  /** And once it is, there is no restart. */
  lemma NoRestartWithoutUid(c: Config, t: Table, claim: Claim, r: Record)
    requires TableOk(c, t) && Prepares(c, t, claim, r) && claim.uid !in t && "" !in t
    ensures Prepares(c, t, claim.(uid := ""), r.(uid := ""))
    ensures TableOk(c, t["" := r.(uid := "")]) && !Loadable(c, t["" := r.(uid := "")])
  {
    PreparesWithoutUid(c, t, claim, r);
    FilingKeepsTable(c, t, claim.(uid := ""), r.(uid := ""));
    SoundTablesReload(c, t["" := r.(uid := "")]);
  }

  /** Such a claim, of one device, against an empty table. */
  lemma SomeClaimWithoutUid() returns (c: Config, claim: Claim, r: Record)
    ensures claim.uid == "" && Prepares(c, map[], claim, r) && !Loadable(c, map["" := r])
  {
    c := Config(1, "driver", "pool", {"cpu"}, _ => "inventory", _ => "allocation", _ => Some(Placement(0, [0])));
    claim := Claim("", "namespace", "name", [Allocation("request", "driver", "pool", "cpu")]);
    r := Record(1, "", "namespace", "name", "allocation", "inventory", Sort(UpTo, DevicesOf(claim.results)),
                Placement(0, [0]));
    assert AllocationOk(c, map[], claim, 0);
    assert r.uid == "" && !FileOk(c, map["" := r][""]);
  }
}
