/** The network-data runner: groups queued updates by claim, persists each, and
    publishes the persisted ones in the claim's status. */
module Nri {
  import opened Options
  import opened PodManager
  import opened Resources
  import opened VfConfigs

  /** A queued update; its device object is shared with the pod manager. */
  datatype Item = Item(device: PreparedDevice, networkData: Option<NetworkData>, data: string)

  function DeviceKey(d: PreparedDevice): ClaimKey { ClaimKey(d.info.claimNamespace, d.info.claimName) }

  function KeyOf(item: Item): ClaimKey { DeviceKey(item.device) }

  function StatusKeyOf(item: Item): StatusKey { StatusKey(DRIVER_NAME, item.device.info.pool, item.device.info.device) }

  // ---- Grouping -----------------------------------------------------------------

  /** The updates for one claim, in queue order; None entries are nil items. */
  function ItemsOf(list: seq<Option<Item>>, key: ClaimKey): seq<Item>
  {
    if list == [] then []
    else
      var last := list[|list| - 1];
      ItemsOf(list[..|list| - 1], key) + if last.Some? && KeyOf(last.value) == key then [last.value] else []
  }

  method GroupNetworkDataByClaim(list: seq<Option<Item>>) returns (grouped: map<ClaimKey, seq<Item>>)
    ensures forall key :: key in grouped <==> ItemsOf(list, key) != []
    ensures forall key :: key in grouped ==> grouped[key] == ItemsOf(list, key)
  {
    grouped := map[];
    for i := 0 to |list|
      invariant forall key :: key in grouped <==> ItemsOf(list[..i], key) != []
      invariant forall key :: key in grouped ==> grouped[key] == ItemsOf(list[..i], key)
    {
      assert list[..i + 1][..i] == list[..i];
      if list[i].None? {
        continue;
      }
      var item := list[i].value;
      var key := KeyOf(item);
      grouped := grouped[key := (if key in grouped then grouped[key] else []) + [item]];
    }
    assert list[..|list|] == list;
  }

  // ---- The status index -----------------------------------------------------------

  /** `at` are the positions of `k`, in ascending order, at least one. */
  ghost predicate Lists(at: seq<int>, devices: seq<DeviceStatus>, k: StatusKey)
  {
    && at != []
    && (forall m :: 0 <= m < |at| ==> 0 <= at[m] < |devices| && devices[at[m]].key == k)
    && (forall m, n :: 0 <= m < n < |at| ==> at[m] < at[n])
  }

  /** The entry at `i` can be found under its key. */
  ghost predicate Located(index: map<StatusKey, seq<int>>, devices: seq<DeviceStatus>, i: nat)
    requires i < |devices|
  {
    devices[i].key in index && i in index[devices[i].key]
  }

  /** `index` lists, for every key, the positions that carry it, in order. */
  ghost predicate IsIndex(index: map<StatusKey, seq<int>>, devices: seq<DeviceStatus>)
  {
    && (forall i :: 0 <= i < |devices| ==> Located(index, devices, i))
    && (forall k :: k in index ==> Lists(index[k], devices, k))
  }

  lemma ListsNext(at: seq<int>, devices: seq<DeviceStatus>, d: DeviceStatus, k: StatusKey)
    requires at == [] || Lists(at, devices, k)
    ensures at != [] ==> Lists(at, devices + [d], k)
    ensures k == d.key ==> Lists(at + [|devices|], devices + [d], k)
  {
  }

  lemma LocatedNext(index: map<StatusKey, seq<int>>, devices: seq<DeviceStatus>, d: DeviceStatus, i: nat)
    requires i < |devices| ==> Located(index, devices, i)
    requires i <= |devices|
    ensures Located(index[d.key := (if d.key in index then index[d.key] else []) + [|devices|]], devices + [d], i)
  {
    var at := if d.key in index then index[d.key] else [];
    if i < |devices| {
      if devices[i].key == d.key {
        var m :| 0 <= m < |at| && at[m] == i;
        assert (at + [|devices|])[m] == i;
      }
    } else {
      assert (at + [|devices|])[|at|] == i;
    }
  }

  lemma IndexNext(index: map<StatusKey, seq<int>>, devices: seq<DeviceStatus>, d: DeviceStatus)
    requires IsIndex(index, devices)
    ensures IsIndex(index[d.key := (if d.key in index then index[d.key] else []) + [|devices|]], devices + [d])
  {
    var at := if d.key in index then index[d.key] else [];
    var index' := index[d.key := at + [|devices|]];
    ListsNext(at, devices, d, d.key);
    forall k | k in index' ensures Lists(index'[k], devices + [d], k) {
      if k in index { ListsNext(index[k], devices, d, k); }
    }
    ghost var all := devices + [d];
    forall i | 0 <= i < |all| ensures Located(index', all, i) {
      LocatedNext(index, devices, d, i);
    }
  }

  lemma IndexByKeys(index: map<StatusKey, seq<int>>, devices: seq<DeviceStatus>, devices': seq<DeviceStatus>)
    requires IsIndex(index, devices) && |devices'| == |devices|
    requires forall i :: 0 <= i < |devices| ==> devices'[i].key == devices[i].key
    ensures IsIndex(index, devices')
  {
    forall k | k in index ensures Lists(index[k], devices', k) { assert Lists(index[k], devices, k); }
    forall i | 0 <= i < |devices'| ensures Located(index, devices', i) { assert Located(index, devices, i); }
  }

  method BuildClaimStatusDeviceIndex(devices: seq<DeviceStatus>) returns (index: map<StatusKey, seq<int>>)
    ensures IsIndex(index, devices)
  {
    index := map[];
    for idx := 0 to |devices|
      invariant IsIndex(index, devices[..idx])
    {
      var key := devices[idx].key;
      IndexNext(index, devices[..idx], devices[idx]);
      index := index[key := (if key in index then index[key] else []) + [idx]];
      assert devices[..idx + 1] == devices[..idx] + [devices[idx]];
    }
    assert devices[..|devices|] == devices;
  }

  /** The status after one update, by a naive scan over all entries: every entry
      with the device's key takes the network data, and the new data string if it
      could be built. */
  function Scanned(devices: seq<DeviceStatus>, item: Item, built: bool): seq<DeviceStatus>
  {
    seq(|devices|, i requires 0 <= i < |devices| => ScannedEntry(devices[i], item, built))
  }

  function ScannedEntry(d: DeviceStatus, item: Item, built: bool): DeviceStatus
  {
    if d.key != StatusKeyOf(item) then d
    else if built then d.(networkData := item.networkData, data := item.data)
    else d.(networkData := item.networkData)
  }

  /** Some entry is the device's. */
  predicate Mentions(devices: seq<DeviceStatus>, item: Item)
  {
    exists i :: 0 <= i < |devices| && devices[i].key == StatusKeyOf(item)
  }

  /** Updating through the index is the naive scan. `built` says whether the
      data string could be marshalled. */
  method UpdateClaimDeviceStatus(status: ClaimStatus, index: map<StatusKey, seq<int>>, item: Item, built: bool)
    returns (updated: bool)
    requires IsIndex(index, status.devices)
    modifies status
    ensures status.devices == Scanned(old(status.devices), item, built)
    ensures updated <==> Mentions(old(status.devices), item)
    ensures IsIndex(index, status.devices)
  {
    var key := StatusKeyOf(item);
    ghost var before := status.devices;
    forall i | 0 <= i < |before| ensures before[i].key in index { assert Located(index, before, i); }
    if key !in index {
      assert status.devices == Scanned(before, item, built);
      return false;
    }
    var deviceIndexes := index[key];
    assert Lists(deviceIndexes, before, key);
    assert before[deviceIndexes[0]].key == key;
    for n := 0 to |deviceIndexes|
      invariant |status.devices| == |before|
      invariant forall i :: 0 <= i < |before| ==>
        status.devices[i] == (if i in deviceIndexes[..n] then ScannedEntry(before[i], item, built) else before[i])
    {
      var idx := deviceIndexes[n];
      assert deviceIndexes[..n + 1] == deviceIndexes[..n] + [idx];
      assert idx !in deviceIndexes[..n];
      status.devices := status.devices[idx := status.devices[idx].(networkData := item.networkData)];
      if built {
        status.devices := status.devices[idx := status.devices[idx].(data := item.data)];
      }
    }
    assert deviceIndexes[..|deviceIndexes|] == deviceIndexes;
    forall i | 0 <= i < |before| ensures i in deviceIndexes <==> before[i].key == key {
      assert Located(index, before, i);
      if i in deviceIndexes { var m :| 0 <= m < |deviceIndexes| && deviceIndexes[m] == i; }
    }
    assert status.devices == Scanned(before, item, built);
    IndexByKeys(index, before, status.devices);
    updated := true;
  }

  // ---- Publishing -----------------------------------------------------------------

  /** What the environment does to one claim's updates: whether the claim can be
      read, which checkpoint writes are refused and which data strings cannot be
      built, by position in the group, and the answers to the status update. */
  datatype Weather = Weather(found: bool, refused: nat -> bool, built: nat -> bool, answers: seq<Answer>)

  /** The claim's status after the first `n` updates of its group: those whose
      checkpoint write was refused are left out. */
  function Published(devices: seq<DeviceStatus>, items: seq<Item>, w: Weather, n: nat): seq<DeviceStatus>
    requires n <= |items|
  {
    if n == 0 then devices
    else if w.refused(n - 1) then Published(devices, items, w, n - 1)
    else Scanned(Published(devices, items, w, n - 1), items[n - 1], w.built(n - 1))
  }

  /** One of the first `n` updates was persisted and is in the status. */
  predicate HasUpdatesUpTo(devices: seq<DeviceStatus>, items: seq<Item>, w: Weather, n: nat)
    requires n <= |items|
  {
    n > 0 && ((!w.refused(n - 1) && Mentions(devices, items[n - 1])) || HasUpdatesUpTo(devices, items, w, n - 1))
  }

  /** The status the API server ends up with for one claim. */
  function Outcome(status: Option<seq<DeviceStatus>>, items: seq<Item>, w: Weather): Option<seq<DeviceStatus>>
  {
    if status.Some? && w.found && HasUpdatesUpTo(status.value, items, w, |items|)
    then Written(status, Published(status.value, items, w, |items|), w.answers)
    else status
  }

  /** The status entry is that of the update's device, of this driver. */
  ghost predicate Listed(entry: DeviceStatus, item: Item)
  {
    && entry.key.driver == "sriovnetwork.k8snetworkplumbingwg.io"
    && entry.key.pool == item.device.info.pool
    && entry.key.device == item.device.info.device
  }

  /** Update `m` reached the checkpoint and is for the entry. */
  ghost predicate Reaches(entry: DeviceStatus, items: seq<Item>, w: Weather, m: int)
  {
    0 <= m < |items| && !w.refused(m) && Listed(entry, items[m])
  }

  /** Some update that reached the checkpoint is for some entry. */
  ghost predicate Awaited(devices: seq<DeviceStatus>, items: seq<Item>, w: Weather)
  {
    exists i, m :: 0 <= i < |devices| && Reaches(devices[i], items, w, m)
  }

  /** It is the last of the first `n` updates that does so. */
  ghost predicate LastToReach(entry: DeviceStatus, items: seq<Item>, w: Weather, m: int, n: int)
  {
    m < n && Reaches(entry, items, w, m) && forall l :: m < l < n ==> !Reaches(entry, items, w, l)
  }

  /** It is the last of those whose data string could be built. */
  ghost predicate LastBuilt(entry: DeviceStatus, items: seq<Item>, w: Weather, m: int, n: int)
  {
    && m < n && Reaches(entry, items, w, m) && w.built(m)
    && forall l :: m < l < n ==> !(Reaches(entry, items, w, l) && w.built(l))
  }

  /** The entry has the network data of the last of the first `n` updates that
      reaches it. */
  ghost predicate DataCarried(entry: DeviceStatus, after: DeviceStatus, items: seq<Item>, w: Weather, n: nat)
  {
    && (forall m {:trigger LastToReach(entry, items, w, m, n)} ::
          LastToReach(entry, items, w, m, n) ==> after.networkData == items[m].networkData)
    && ((forall m :: m < n ==> !Reaches(entry, items, w, m)) ==> after.networkData == entry.networkData)
  }

  /** It has the data string of the last of those that could be built. */
  ghost predicate TextCarried(entry: DeviceStatus, after: DeviceStatus, items: seq<Item>, w: Weather, n: nat)
  {
    && (forall m {:trigger LastBuilt(entry, items, w, m, n)} ::
          LastBuilt(entry, items, w, m, n) ==> after.data == items[m].data)
    && ((forall m :: m < n ==> !(Reaches(entry, items, w, m) && w.built(m))) ==> after.data == entry.data)
  }

  ghost predicate Carried(entry: DeviceStatus, after: DeviceStatus, items: seq<Item>, w: Weather, n: nat)
  {
    && after.key == entry.key
    && DataCarried(entry, after, items, w, n)
    && TextCarried(entry, after, items, w, n)
  }

  ghost predicate AllCarried(devices: seq<DeviceStatus>, after: seq<DeviceStatus>, items: seq<Item>, w: Weather, n: nat)
  {
    |after| == |devices| && forall i :: 0 <= i < |devices| ==> Carried(devices[i], after[i], items, w, n)
  }

  /** What becomes of a claim's status: if some update that reached the checkpoint is
      for one of its entries and an attempt is accepted, every entry carries what was
      persisted for it; if no update is for it, or no attempt is accepted and nobody
      else writes, it stays. */
  ghost predicate Shown(before: Option<seq<DeviceStatus>>, after: Option<seq<DeviceStatus>>, items: seq<Item>,
                        w: Weather)
  {
    && (before.Some? && w.found && Awaited(before.value, items, w) && Accepted in w.answers ==>
          after.Some? && AllCarried(before.value, after.value, items, w, |items|))
    && (before.None? || !w.found || !Awaited(before.value, items, w) ==> after == before)
    && ((forall a :: a in w.answers ==> a.Refused? || (a.Conflict? && a.theirs.None?)) ==> after == before)
  }

  lemma {:induction false} PublishedCarries(devices: seq<DeviceStatus>, items: seq<Item>, w: Weather, n: nat)
    requires n <= |items|
    ensures forall after :: after == Published(devices, items, w, n) ==> AllCarried(devices, after, items, w, n)
  {
    if n == 0 {
      NothingCarried(devices, items, w);
    } else {
      PublishedCarries(devices, items, w, n - 1);
      AllCarriedNext(devices, Published(devices, items, w, n - 1), Published(devices, items, w, n), items, w, n - 1, n);
    }
  }

  lemma AllCarriedNext(devices: seq<DeviceStatus>, now: seq<DeviceStatus>, next: seq<DeviceStatus>, items: seq<Item>,
                       w: Weather, n: nat, n': nat)
    requires n < |items| && n' == n + 1 && AllCarried(devices, now, items, w, n)
    requires next == if w.refused(n) then now else Scanned(now, items[n], w.built(n))
    ensures AllCarried(devices, next, items, w, n')
  {
    forall i | 0 <= i < |devices| ensures Carried(devices[i], next[i], items, w, n + 1) {
      CarriedNext(devices[i], now[i], next[i], items, w, n);
    }
  }

  lemma NothingCarried(devices: seq<DeviceStatus>, items: seq<Item>, w: Weather)
    ensures AllCarried(devices, devices, items, w, 0)
  {
    forall i | 0 <= i < |devices| ensures Carried(devices[i], devices[i], items, w, 0) { }
  }

  lemma CarriedNext(entry: DeviceStatus, now: DeviceStatus, next: DeviceStatus, items: seq<Item>, w: Weather, n: nat)
    requires n < |items| && Carried(entry, now, items, w, n)
    requires next == if w.refused(n) then now else ScannedEntry(now, items[n], w.built(n))
    ensures Carried(entry, next, items, w, n + 1)
  {
    assert Reaches(entry, items, w, n) <==> !w.refused(n) && now.key == StatusKeyOf(items[n]);
    DataNext(entry, now, next, items, w, n);
    TextNext(entry, now, next, items, w, n);
  }

  /** The last of one more update: that update, if it reaches the entry. */
  lemma LastReachNext(entry: DeviceStatus, items: seq<Item>, w: Weather, m: int, n: nat)
    requires n < |items| && LastToReach(entry, items, w, m, n + 1)
    ensures if Reaches(entry, items, w, n) then m == n else LastToReach(entry, items, w, m, n)
  {
  }

  lemma LastBuiltNext(entry: DeviceStatus, items: seq<Item>, w: Weather, m: int, n: nat)
    requires n < |items| && LastBuilt(entry, items, w, m, n + 1)
    ensures if Reaches(entry, items, w, n) && w.built(n) then m == n else LastBuilt(entry, items, w, m, n)
  {
  }

  lemma DataNext(entry: DeviceStatus, now: DeviceStatus, next: DeviceStatus, items: seq<Item>, w: Weather, n: nat)
    requires n < |items| && DataCarried(entry, now, items, w, n)
    requires next.networkData == if Reaches(entry, items, w, n) then items[n].networkData else now.networkData
    ensures DataCarried(entry, next, items, w, n + 1)
  {
    forall m | LastToReach(entry, items, w, m, n + 1) ensures next.networkData == items[m].networkData {
      LastReachNext(entry, items, w, m, n);
    }
  }

  lemma TextNext(entry: DeviceStatus, now: DeviceStatus, next: DeviceStatus, items: seq<Item>, w: Weather, n: nat)
    requires n < |items| && TextCarried(entry, now, items, w, n)
    requires next.data == if Reaches(entry, items, w, n) && w.built(n) then items[n].data else now.data
    ensures TextCarried(entry, next, items, w, n + 1)
  {
    forall m | LastBuilt(entry, items, w, m, n + 1) ensures next.data == items[m].data {
      LastBuiltNext(entry, items, w, m, n);
    }
  }

  lemma {:induction false} UpdatesAwaited(devices: seq<DeviceStatus>, items: seq<Item>, w: Weather, n: nat)
    requires n <= |items|
    ensures HasUpdatesUpTo(devices, items, w, n) <==>
      exists i, m :: 0 <= i < |devices| && m < n && Reaches(devices[i], items, w, m)
  {
    if n > 0 {
      UpdatesAwaited(devices, items, w, n - 1);
      if i :| 0 <= i < |devices| && devices[i].key == StatusKeyOf(items[n - 1]) {
        assert Reaches(devices[i], items, w, n - 1) <==> !w.refused(n - 1);
      }
      if i :| 0 <= i < |devices| && Reaches(devices[i], items, w, n - 1) {
        assert devices[i].key == StatusKeyOf(items[n - 1]);
      }
    }
  }

  lemma OutcomeShown(status: Option<seq<DeviceStatus>>, items: seq<Item>, w: Weather)
    ensures Shown(status, Outcome(status, items, w), items, w)
  {
    if status.Some? {
      var published := Published(status.value, items, w, |items|);
      UpdatesAwaited(status.value, items, w, |items|);
      PublishedCarries(status.value, items, w, |items|);
      if Accepted in w.answers { AcceptedWins(status, published, w.answers); }
      if forall a :: a in w.answers ==> a.Refused? || (a.Conflict? && a.theirs.None?) {
        NobodyWrote(status, published, w.answers);
      }
    }
  }

  /** The network data of a device after the first `n` updates: those of other
      devices do not touch it, and a refused checkpoint write makes no
      difference. */
  function LastData(items: seq<Item>, n: nat, d: PreparedDevice, before: Option<NetworkData>): Option<NetworkData>
    requires n <= |items|
  {
    if n == 0 then before
    else if items[n - 1].device == d then items[n - 1].networkData
    else LastData(items, n - 1, d, before)
  }

  ghost function DevicesOf(items: seq<Item>): set<PreparedDevice> { set i | 0 <= i < |items| :: items[i].device }

  lemma {:induction false} PublishedKeepsKeys(devices: seq<DeviceStatus>, items: seq<Item>, w: Weather, n: nat)
    requires n <= |items|
    ensures |Published(devices, items, w, n)| == |devices|
    ensures forall i :: 0 <= i < |devices| ==> Published(devices, items, w, n)[i].key == devices[i].key
  {
    if n > 0 { PublishedKeepsKeys(devices, items, w, n - 1); }
  }

  /** One update: the status is touched only after the checkpoint is written. */
  method UpdateOne(manager: PodManager, claim: ClaimStatus, index: map<StatusKey, seq<int>>, item: Item, refused: bool,
                   built: bool)
    returns (updated: bool)
    requires IsIndex(index, claim.devices)
    modifies manager.store, claim, item.device
    ensures claim.devices == (if refused then old(claim.devices) else Scanned(old(claim.devices), item, built))
    ensures updated <==> !refused && Mentions(old(claim.devices), item)
    ensures IsIndex(index, claim.devices)
    ensures item.device.networkData == item.networkData
    ensures !refused ==> manager.store.checkpoint == Some(Deep(manager.pods))
    ensures refused ==> manager.store.checkpoint == old(manager.store.checkpoint)
  {
    var persisted := manager.UpdatePreparedDeviceNetworkData(item.device, item.networkData, refused);
    if !persisted {
      return false;
    }
    label Persisted:
    updated := UpdateClaimDeviceStatus(claim, index, item, built);
    DeepUnchanged@Persisted(manager.pods);
  }

  lemma MentionsByKeys(devices: seq<DeviceStatus>, devices': seq<DeviceStatus>, item: Item)
    requires |devices'| == |devices|
    requires forall i :: 0 <= i < |devices| ==> devices'[i].key == devices[i].key
    ensures Mentions(devices', item) <==> Mentions(devices, item)
  {
    if i :| 0 <= i < |devices| && devices[i].key == StatusKeyOf(item) { assert devices'[i].key == StatusKeyOf(item); }
    if i :| 0 <= i < |devices| && devices'[i].key == StatusKeyOf(item) { assert devices[i].key == StatusKeyOf(item); }
  }

  /** The group is worked on: its claim can be read. */
  predicate Worked(statuses: map<ClaimKey, seq<DeviceStatus>>, key: ClaimKey, w: Weather)
  {
    w.found && key in statuses
  }

  /** One claim's group: persist each update, then put it in the status. Memory
      has the last update of every device; and the checkpoint is all of memory,
      if the last write was taken. */
  method UpdateClaim(manager: PodManager, api: ApiServer, key: ClaimKey, items: seq<Item>, w: Weather)
    requires |w.answers| == BACKOFF_STEPS
    modifies manager.store, api, DevicesOf(items)
    ensures StatusOf(api.statuses, key) == Outcome(StatusOf(old(api.statuses), key), items, w)
    ensures forall k :: k == key ==> Shown(StatusOf(old(api.statuses), k), StatusOf(api.statuses, k), items, w)
    ensures forall k :: k != key ==> StatusOf(api.statuses, k) == StatusOf(old(api.statuses), k)
    ensures forall d :: d in DevicesOf(items) ==>
      d.networkData == if Worked(old(api.statuses), key, w) then LastData(items, |items|, d, old(d.networkData))
                       else old(d.networkData)
    ensures Worked(old(api.statuses), key, w) && items != [] && !w.refused(|items| - 1) ==>
      manager.store.checkpoint == Some(Deep(manager.pods))
    ensures !Worked(old(api.statuses), key, w) || (forall n: nat :: n < |items| ==> w.refused(n)) ==>
      manager.store.checkpoint == old(manager.store.checkpoint)
    ensures !Worked(old(api.statuses), key, w) ==> Deep(manager.pods) == old(Deep(manager.pods))
  {
    if !w.found || key !in api.statuses {
      OutcomeShown(StatusOf(api.statuses, key), items, w);
      DeepUnchanged(manager.pods);
      return;
    }
    ghost var before := api.statuses[key];
    var claim := new ClaimStatus(api.statuses[key]);
    var index := BuildClaimStatusDeviceIndex(claim.devices);
    var hasClaimStatusUpdates := false;
    for n := 0 to |items|
      invariant api.statuses == old(api.statuses)
      invariant claim.devices == Published(before, items, w, n) && IsIndex(index, claim.devices)
      invariant hasClaimStatusUpdates <==> HasUpdatesUpTo(before, items, w, n)
      invariant forall d :: d in DevicesOf(items) ==> d.networkData == LastData(items, n, d, old(d.networkData))
      invariant n > 0 && !w.refused(n - 1) ==> manager.store.checkpoint == Some(Deep(manager.pods))
      invariant (forall m: nat :: m < n ==> w.refused(m)) ==> manager.store.checkpoint == old(manager.store.checkpoint)
    {
      assert items[n].device in DevicesOf(items);
      PublishedKeepsKeys(before, items, w, n);
      MentionsByKeys(before, claim.devices, items[n]);
      var updated := UpdateOne(manager, claim, index, items[n], w.refused(n), w.built(n));
      if updated {
        hasClaimStatusUpdates := true;
      }
    }
    OutcomeShown(StatusOf(api.statuses, key), items, w);
    if !hasClaimStatusUpdates {
      return;
    }
    Publish(manager, api, key, claim, w.answers);
  }

  method Publish(manager: PodManager, api: ApiServer, key: ClaimKey, claim: ClaimStatus, answers: seq<Answer>)
    requires |answers| == BACKOFF_STEPS
    modifies api
    ensures StatusOf(api.statuses, key) == Written(StatusOf(old(api.statuses), key), claim.devices, answers)
    ensures forall k :: k != key ==> StatusOf(api.statuses, k) == StatusOf(old(api.statuses), k)
    ensures Deep(manager.pods) == old(Deep(manager.pods))
  {
    var ok := api.UpdateWithRetry(key, claim, answers);
    DeepUnchanged(manager.pods);
  }

  /** What was published for a device is in the checkpoint, for a tracked device
      whose last update was the one that was published: at the end of a group whose
      last write was taken. */
  lemma PublishedIsStored(pods: Pods, devices: seq<DeviceStatus>, items: seq<Item>, w: Weather,
                          before: Option<NetworkData>, m: nat, i: nat, p: string, c: string, j: nat)
    requires m < |items| && i < |devices| && p in pods && c in pods[p] && j < |pods[p][c]|
    requires pods[p][c][j] == items[m].device
    requires pods[p][c][j].networkData == LastData(items, |items|, pods[p][c][j], before)
    requires LastToReach(devices[i], items, w, m, |items|)
    requires forall l :: m < l < |items| ==> items[l].device != items[m].device
    ensures |Published(devices, items, w, |items|)| == |devices|
    ensures Deep(pods)[p][c][j].networkData == Published(devices, items, w, |items|)[i].networkData
  {
    PublishedIsPersisted(devices, items, w, |items|, i);
    LastDataIs(items, |items|, m, before);
    assert Deep(pods)[p][c] == Records(pods[p][c]);
  }

  lemma {:induction false} LastDataIs(items: seq<Item>, n: nat, m: nat, before: Option<NetworkData>)
    requires m < n <= |items| && forall l :: m < l < n ==> items[l].device != items[m].device
    ensures LastData(items, n, items[m].device, before) == items[m].networkData
  {
    if m < n - 1 { LastDataIs(items, n - 1, m, before); }
  }

  ghost function QueuedDevices(list: seq<Option<Item>>): set<PreparedDevice>
  {
    set i | 0 <= i < |list| && list[i].Some? :: list[i].value.device
  }

  lemma {:induction false} ItemsAreQueued(list: seq<Option<Item>>, key: ClaimKey)
    ensures forall m :: 0 <= m < |ItemsOf(list, key)| ==>
      KeyOf(ItemsOf(list, key)[m]) == key && exists i :: 0 <= i < |list| && list[i] == Some(ItemsOf(list, key)[m])
  {
    if list != [] {
      var n := |list| - 1;
      ItemsAreQueued(list[..n], key);
      assert list == list[..n] + [list[n]];
    }
  }

  lemma {:induction false} QueuedAreItems(list: seq<Option<Item>>, d: PreparedDevice)
    requires d in QueuedDevices(list)
    ensures d in DevicesOf(ItemsOf(list, DeviceKey(d)))
  {
    var n := |list| - 1;
    var items, key := ItemsOf(list, DeviceKey(d)), DeviceKey(d);
    var i :| 0 <= i < |list| && list[i].Some? && list[i].value.device == d;
    if i < n {
      assert list[..n][i] == list[i];
      QueuedAreItems(list[..n], d);
      var m :| 0 <= m < |ItemsOf(list[..n], key)| && ItemsOf(list[..n], key)[m].device == d;
      assert items[m].device == d;
    } else {
      assert items[|items| - 1].device == d;
    }
  }

  lemma GroupDevices(list: seq<Option<Item>>, key: ClaimKey)
    ensures DevicesOf(ItemsOf(list, key)) <= QueuedDevices(list)
    ensures forall d :: d in QueuedDevices(list) ==> (d in DevicesOf(ItemsOf(list, key)) <==> DeviceKey(d) == key)
  {
    ItemsAreQueued(list, key);
    forall d | d in QueuedDevices(list) && DeviceKey(d) == key ensures d in DevicesOf(ItemsOf(list, key)) {
      QueuedAreItems(list, d);
    }
  }

  /** For every claim of the queue, the last write of its group is taken. */
  ghost predicate LastWritesTaken(list: seq<Option<Item>>, weather: ClaimKey -> Weather)
  {
    forall key :: ItemsOf(list, key) != [] ==> !weather(key).refused(|ItemsOf(list, key)| - 1)
  }

  /** Memory after one claim's group, for the devices of the queue. */
  ghost predicate MemoryAfter(list: seq<Option<Item>>, key: ClaimKey, worked: bool, d: PreparedDevice,
                              before: Option<NetworkData>)
    reads d
  {
    d.networkData == if worked then LastData(ItemsOf(list, key), |ItemsOf(list, key)|, d, before) else before
  }

  /** The runner's work on one queued list, claim by claim in any order. */
  method UpdateNetworkDeviceData(manager: PodManager, api: ApiServer, list: seq<Option<Item>>,
                                 weather: ClaimKey -> Weather)
    requires forall key :: |weather(key).answers| == BACKOFF_STEPS
    modifies manager.store, api, QueuedDevices(list)
    ensures forall key ::
      StatusOf(api.statuses, key) == StatusAfter(list, weather, key, true, StatusOf(old(api.statuses), key))
    ensures forall key ::
      Shown(StatusOf(old(api.statuses), key), StatusOf(api.statuses, key), ItemsOf(list, key), weather(key))
    ensures forall d :: d in QueuedDevices(list) ==>
      MemoryAfter(list, DeviceKey(d), Worked(old(api.statuses), DeviceKey(d), weather(DeviceKey(d))), d,
                  old(d.networkData))
    ensures LastWritesTaken(list, weather) ==>
      manager.store.checkpoint == Some(Deep(manager.pods)) ||
      (manager.store.checkpoint == old(manager.store.checkpoint) && Deep(manager.pods) == old(Deep(manager.pods)))
  {
    ghost var data := map d | d in QueuedDevices(list) :: d.networkData;
    ghost var statuses, checkpoint, memory := api.statuses, manager.store.checkpoint, Deep(manager.pods);
    var grouped := GroupNetworkDataByClaim(list);
    DeepUnchanged(manager.pods);
    forall d | d in QueuedDevices(list) ensures DeviceKey(d) in grouped { QueuedAreItems(list, d); }
    var rest := grouped.Keys;
    while rest != {}
      invariant rest <= grouped.Keys
      invariant Progress(manager, api, list, weather, rest, statuses, data, checkpoint, memory)
    {
      var key :| key in rest;
      UpdateNext(manager, api, list, weather, key, grouped[key], rest, statuses, data, checkpoint, memory);
      rest := rest - {key};
    }
    forall key
      ensures Shown(StatusOf(statuses, key), StatusAfter(list, weather, key, true, StatusOf(statuses, key)),
                    ItemsOf(list, key), weather(key))
    {
      AfterShown(list, weather, key, StatusOf(statuses, key));
    }
  }

  /** Where the work stands when the groups of `rest` are still to come. */
  ghost predicate Progress(manager: PodManager, api: ApiServer, list: seq<Option<Item>>, weather: ClaimKey -> Weather,
                           rest: set<ClaimKey>, statuses: map<ClaimKey, seq<DeviceStatus>>,
                           data: map<PreparedDevice, Option<NetworkData>>, checkpoint: Option<Snapshot>,
                           memory: Snapshot)
    reads manager, manager.store, api, Objects(manager.pods), QueuedDevices(list)
  {
    && (forall key ::
          StatusOf(api.statuses, key) == StatusAfter(list, weather, key, key !in rest, StatusOf(statuses, key)))
    && (forall d :: d in QueuedDevices(list) ==>
          var key := DeviceKey(d);
          d in data && MemoryAfter(list, key, key !in rest && Worked(statuses, key, weather(key)), d, data[d]))
    && (LastWritesTaken(list, weather) ==>
          manager.store.checkpoint == Some(Deep(manager.pods)) ||
            (manager.store.checkpoint == checkpoint && Deep(manager.pods) == memory))
  }

  /** The status of a claim, once its group is worked off or before. */
  ghost function StatusAfter(list: seq<Option<Item>>, weather: ClaimKey -> Weather, key: ClaimKey, done: bool,
                             status: Option<seq<DeviceStatus>>): Option<seq<DeviceStatus>>
  {
    if done && ItemsOf(list, key) != [] then Outcome(status, ItemsOf(list, key), weather(key)) else status
  }

  lemma AfterShown(list: seq<Option<Item>>, weather: ClaimKey -> Weather, key: ClaimKey,
                   status: Option<seq<DeviceStatus>>)
    ensures Shown(status, StatusAfter(list, weather, key, true, status), ItemsOf(list, key), weather(key))
  {
    OutcomeShown(status, ItemsOf(list, key), weather(key));
  }

  method UpdateNext(manager: PodManager, api: ApiServer, list: seq<Option<Item>>, weather: ClaimKey -> Weather,
                    key: ClaimKey, items: seq<Item>, ghost rest: set<ClaimKey>,
                    ghost statuses: map<ClaimKey, seq<DeviceStatus>>,
                    ghost data: map<PreparedDevice, Option<NetworkData>>, ghost checkpoint: Option<Snapshot>,
                    ghost memory: Snapshot)
    requires |weather(key).answers| == BACKOFF_STEPS && key in rest && items == ItemsOf(list, key) != []
    requires Progress(manager, api, list, weather, rest, statuses, data, checkpoint, memory)
    modifies manager.store, api, QueuedDevices(list)
    ensures Progress(manager, api, list, weather, rest - {key}, statuses, data, checkpoint, memory)
  {
    GroupDevices(list, key);
    assert StatusOf(api.statuses, key) == StatusOf(statuses, key);
    ghost var stored, deep, held := manager.store.checkpoint, Deep(manager.pods), api.statuses;
    UpdateClaim(manager, api, key, items, weather(key));
    forall k
      ensures StatusOf(api.statuses, k) == StatusAfter(list, weather, k, k !in rest - {key}, StatusOf(statuses, k))
    {
      if k != key { assert StatusOf(api.statuses, k) == StatusOf(held, k); }
    }
    forall d | d in QueuedDevices(list)
      ensures MemoryAfter(list, DeviceKey(d),
                          DeviceKey(d) !in rest - {key} && Worked(statuses, DeviceKey(d), weather(DeviceKey(d))), d,
                          data[d])
    {
      assert d in DevicesOf(items) <==> DeviceKey(d) == key;
    }
    if LastWritesTaken(list, weather) {
      assert !weather(key).refused(|items| - 1);
      assert manager.store.checkpoint == Some(Deep(manager.pods)) ||
             (manager.store.checkpoint == stored && Deep(manager.pods) == deep);
    }
  }

  // ---- Persistence precedes publication ---------------------------------------------

  /** An entry of the published status carries the network data of the last
      update for its device whose checkpoint write was taken, and is what it was
      if there was none: data that was not persisted is never published. */
  lemma PublishedIsPersisted(devices: seq<DeviceStatus>, items: seq<Item>, w: Weather, n: nat, i: nat)
    requires n <= |items| && i < |devices|
    ensures |Published(devices, items, w, n)| == |devices|
    ensures (forall m :: m < n ==> !Reaches(devices[i], items, w, m)) ==>
      Published(devices, items, w, n)[i] == devices[i]
    ensures forall m {:trigger LastToReach(devices[i], items, w, m, n)} ::
      LastToReach(devices[i], items, w, m, n) ==> Published(devices, items, w, n)[i].networkData == items[m].networkData
  {
    PublishedCarries(devices, items, w, n);
    assert AllCarried(devices, Published(devices, items, w, n), items, w, n);
  }

  // ---- Grouping is a partition --------------------------------------------------------

  /** The groups partition the queued items: each item is in its own claim's
      group as often as it was queued, and in no other group. */
  lemma {:induction false} GroupsPartition(list: seq<Option<Item>>, key: ClaimKey, item: Item)
    ensures multiset(ItemsOf(list, key))[item] ==
            if item.device.info.claimNamespace == key.namespace && item.device.info.claimName == key.name
            then multiset(list)[Some(item)] else 0
  {
    if list != [] {
      assert list == list[..|list| - 1] + [list[|list| - 1]];
      GroupsPartition(list[..|list| - 1], key, item);
    }
  }

  /** The groups keep the queue's order: splitting the queue splits every group. */
  lemma {:induction false} GroupsKeepOrder(a: seq<Option<Item>>, b: seq<Option<Item>>, key: ClaimKey)
    ensures ItemsOf(a + b, key) == ItemsOf(a, key) + ItemsOf(b, key)
  {
    if b == [] {
      assert a + b == a;
    } else {
      var init, last := b[..|b| - 1], b[|b| - 1];
      var end := if last.Some? && KeyOf(last.value) == key then [last.value] else [];
      GroupsKeepOrder(a, init, key);
      assert (a + b)[..|a + b| - 1] == a + init && (a + b)[|a + b| - 1] == last;
      assert ItemsOf(a + b, key) == (ItemsOf(a, key) + ItemsOf(init, key)) + end;
    }
  }
}
