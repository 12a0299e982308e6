/** The state behind the kubelet's calls as a value: what always holds of it, what
    each call does to it, and what that keeps. */
module DraState {
  import opened Options
  import opened Attributes
  import opened VfConfigs
  import opened Host
  import opened PodManager
  import opened PodRuns
  import opened Resources
  import opened ClaimTransaction
  import opened ClaimRoundTrip
  import Discovery

  // ---- Answers ------------------------------------------------------------------

  /** What the kubelet is told of a prepared device. */
  datatype KubeletDevice = KubeletDevice(
    requests: seq<string>, pool: string, device: string, cdiDeviceIDs: seq<string>, attributes: Attrs,
      networkData: Option<NetworkData>)

  function ToKubelet(r: Record): KubeletDevice
  {
    KubeletDevice(r.info.requests, r.info.pool, r.info.device, r.info.cdiDeviceIDs, r.info.attributes, r.networkData)
  }

  predicate Shows(devices: seq<KubeletDevice>, records: seq<Record>)
  {
    |devices| == |records| && forall i :: 0 <= i < |records| ==> devices[i] == ToKubelet(records[i])
  }

  /** The kubelet is told of every record, in order. */
  lemma ShowsMeans(devices: seq<KubeletDevice>, records: seq<Record>, i: nat)
    requires Shows(devices, records) && i < |records|
    ensures |devices| == |records|
    ensures var (d, info) := (devices[i], records[i].info);
      && d.requests == info.requests && d.pool == info.pool && d.device == info.device
      && d.cdiDeviceIDs == info.cdiDeviceIDs && d.attributes == info.attributes
      && d.networkData == records[i].networkData
  {
    assert devices[i] == ToKubelet(records[i]);
  }

  /** The answer for one claim. `cleaned` says whether the devices of a claim that
      could not be recorded were unprepared. */
  datatype PrepareResult =
    | Ready(devices: seq<KubeletDevice>)
    | NoPod
    | ManyPods
    | NotAllocated
    | NotPrepared(error: PrepareError)
    | NotRecorded(cleaned: bool)

  // ---- The state ------------------------------------------------------------------

  /** `pods` are the records as objects, `memory` is their deep value. */
  datatype View = View(
    slots: Slots, specs: map<SpecName, seq<string>>, entries: map<InfoKey, DeviceInfo>,
    pods: Pods, memory: Snapshot, checkpoint: Option<Snapshot>, statuses: map<ClaimKey, seq<DeviceStatus>>)

  ghost predicate Entry(pods: Pods, p: string, c: string)
  {
    p in pods && c in pods[p]
  }

  ghost predicate SameInfos(devices: seq<PreparedDevice>, records: seq<Record>)
  {
    |devices| == |records| && forall i :: 0 <= i < |devices| ==> devices[i].info == records[i].info
  }

  /** Objects and deep value are of the same claims and devices. */
  ghost predicate Tells(v: View)
  {
    && v.pods.Keys == v.memory.Keys
    && forall p, c ::
      && (Entry(v.pods, p, c) <==> p in v.memory && c in v.memory[p])
      && (Entry(v.pods, p, c) ==> SameInfos(v.pods[p][c], v.memory[p][c]))
  }

  lemma DeepTells(pods: Pods, p: string, c: string)
    ensures Entry(pods, p, c) <==> p in Deep(pods) && c in Deep(pods)[p]
    ensures Entry(pods, p, c) ==> Deep(pods)[p][c] == Records(pods[p][c])
  {
    if p in pods { assert Deep(pods)[p] == DeepClaims(pods[p]); }
  }

  // ---- What holds of it -----------------------------------------------------------------

  /** The devices of one recorded claim: its own, and pairwise distinct. */
  ghost predicate Owned(p: string, c: string, devices: seq<PreparedDevice>)
  {
    devices != [] && DistinctDevices(devices) && forall i :: 0 <= i < |devices| ==>
      devices[i].info.claimUID == c && devices[i].info.podUID == p
  }

  ghost predicate Apart(devices: seq<PreparedDevice>, others: seq<PreparedDevice>)
  {
    forall i, j :: 0 <= i < |devices| && 0 <= j < |others| ==> devices[i].info.pciAddress != others[j].info.pciAddress
  }

  /** No claim is in two pods, and no device in two claims. */
  ghost predicate Separate(pods: Pods)
  {
    && (forall p, c :: Entry(pods, p, c) ==> Owned(p, c, pods[p][c]))
    && (forall p, c, q, e :: Entry(pods, p, c) && Entry(pods, q, e) && (p, c) != (q, e) ==>
          c != e && Apart(pods[p][c], pods[q][e]))
  }

  /** What holds whatever fails: the records do not overlap, and no spec is left
      without the record that lets a later unprepare remove it. */
  ghost predicate Sound(v: View)
  {
    && Separate(v.pods)
    && (forall c :: ClaimSpec(c) in v.specs ==> Tracked(v.pods, c))
    && (forall p :: PodSpec(p) in v.specs ==> p in v.pods)
  }

  /** The pod holds no claim but `c`. */
  ghost predicate OnlyClaim(pods: Pods, p: string, c: string)
  {
    forall e :: Entry(pods, p, e) ==> e == c
  }

  /** The claim shares its pod with no other. */
  ghost predicate Unshared(pods: Pods, c: string)
  {
    forall p :: Entry(pods, p, c) ==> OnlyClaim(pods, p, c)
  }

  ghost predicate OneClaimPerPod(pods: Pods)
  {
    forall c :: Unshared(pods, c)
  }

  /** The driver a prepared device is to carry. */
  predicate Carries(info: PreparedInfo, t: Traits, s: Slot)
  {
    info.settings.driver != "" ==> s.driver == BoundSlot(Slot(info.originalDriver, ""), t, info.settings.driver).driver
  }

  ghost predicate AllCarry(slots: Slots, traits: string -> Traits, devices: seq<PreparedDevice>)
  {
    forall i :: 0 <= i < |devices| ==>
      var info := devices[i].info;
      Carries(info, traits(info.pciAddress), SlotAt(slots, info.pciAddress))
  }

  ghost predicate Carrying(pods: Pods, slots: Slots, traits: string -> Traits)
  {
    forall p, c :: Entry(pods, p, c) ==> AllCarry(slots, traits, pods[p][c])
  }

  /** Recorded exactly if prepared: a claim is recorded if and only if its spec is
      there, and then its devices carry the configured drivers. */
  ghost predicate Consistent(v: View, traits: string -> Traits)
  {
    && Sound(v)
    && (forall c :: Tracked(v.pods, c) ==> ClaimSpec(c) in v.specs)
    && Carrying(v.pods, v.slots, traits)
  }

  // ---- What the scheduler promises ---------------------------------------------------------

  predicate Settled(claim: ResourceClaim) { |claim.reservedFor| == 1 && claim.allocation.Some? }

  /** The claim asks for the device at `pci`. */
  ghost predicate AsksFor(table: Devices, claim: ResourceClaim, pci: string)
    requires claim.allocation.Some?
  {
    var wants := WantsOf(table, map[], claim.allocation.value.results);
    exists i :: 0 <= i < |wants| && wants[i].pciAddress == pci
  }

  /** In a table that is filed by address: one of this driver's results names it. */
  lemma AsksForMeans(table: Devices, claim: ResourceClaim, pci: string)
    requires claim.allocation.Some? && Discovery.FiledByAddress(table)
    requires forall r ::
      r in claim.allocation.value.results && r.driver == "sriovnetwork.k8snetworkplumbingwg.io" ==> r.device in table
    ensures AsksFor(table, claim, pci) <==> exists r :: r in claim.allocation.value.results && Names(r, pci)
  {
    var results := claim.allocation.value.results;
    var ours, wants := OursOf(results), WantsOf(table, map[], results);
    WantsAre(table, map[], results);
    forall i | 0 <= i < |ours| ensures ours[i] in results && Names(ours[i], wants[i].pciAddress) {
      OursHas(results, ours[i]);
      AddressOf(table, ours[i].device);
    }
    if r :| r in results && Names(r, pci) {
      OursHas(results, r);
      var i :| 0 <= i < |ours| && ours[i] == r;
      Discovery.DeviceNameInjective(pci, wants[i].pciAddress);
    }
  }

  ghost predicate Spared(table: Devices, claim: ResourceClaim, devices: seq<PreparedDevice>)
    requires claim.allocation.Some?
  {
    forall i :: 0 <= i < |devices| ==> !AsksFor(table, claim, devices[i].info.pciAddress)
  }

  /** A claim that is handed out: its devices are distinct, it stays with its pod,
      and no other recorded claim has its devices. */
  ghost predicate Schedulable(table: Devices, pods: Pods, claim: ResourceClaim)
  {
    Settled(claim) ==>
      && DistinctResults(table, claim.allocation.value.results)
      && (forall p :: Entry(pods, p, claim.uid) ==> p == claim.reservedFor[0])
      && (forall p, c :: Entry(pods, p, c) && c != claim.uid ==> Spared(table, claim, pods[p][c]))
  }

  // ---- What preparing a claim does ------------------------------------------------------------

  /** The devices of a claim as the table and its configs describe them. */
  ghost predicate DevicesFor(manager: ClaimManager, claim: ResourceClaim, devices: seq<PreparedDevice>)
    requires Settled(claim)
    reads manager.table
  {
    && devices != [] && Prepared(devices, manager.WantsFor(claim))
    && manager.Described(devices, claim, manager.ConfigsFor(claim), claim.allocation.value.results)
  }

  /** The claim is recorded, and nothing else is new in memory. */
  ghost predicate RecordedIn(before: View, now: View, p: string, c: string)
  {
    && Entry(now.pods, p, c) && now.pods == Stored(before.pods, p, c, now.pods[p][c])
    && p in now.memory && c in now.memory[p] && now.memory == Apply(before.memory, SetOp(p, c, now.memory[p][c]))
  }

  ghost predicate OnlyStatus(before: map<ClaimKey, seq<DeviceStatus>>, now: map<ClaimKey, seq<DeviceStatus>>,
                             key: ClaimKey)
  {
    forall k :: k != key ==> StatusOf(now, k) == StatusOf(before, k)
  }

  /** A claim that could not be recorded is unprepared again, completely if
      `cleaned`. */
  ghost predicate Withdrawn(manager: ClaimManager, before: View, now: View, claim: ResourceClaim,
                            devices: seq<PreparedDevice>, cleaned: bool)
    requires Settled(claim)
    reads manager.table
  {
    var keys := manager.ClaimKeys(claim.allocation.value.results);
    && Confined(before.slots, now.slots, manager.WantsFor(claim))
    && InfosElsewhere(before.entries, now.entries, keys)
    && SpecsElsewhere(before.specs[ClaimSpec(claim.uid) := manager.SpecOf(devices)], now.specs,
                      {ClaimSpec(claim.uid), PodSpec(claim.reservedFor[0])})
    && (cleaned ==>
          && now.entries == before.entries - keys
          && now.specs.Keys == before.specs.Keys - {ClaimSpec(claim.uid), PodSpec(claim.reservedFor[0])})
    && (DistinctResults(manager.table.allocatable, claim.allocation.value.results) ==>
          && AllHeld(before.slots, now.slots, manager.host.traits, devices)
          && (cleaned ==> AllBackAs(before.slots, now.slots, manager.host.traits, devices))
          && (manager.reliable ==> (cleaned <==> Reversible(before.slots, manager.WantsFor(claim)))))
  }

  /** A claim that was not recorded is prepared, recorded and checkpointed. */
  ghost predicate NewReady(manager: ClaimManager, before: View, now: View, claim: ResourceClaim, from: nat, next: nat,
                           devices: seq<KubeletDevice>)
    requires Settled(claim)
    reads manager.table
  {
    var p, c := claim.reservedFor[0], claim.uid;
    && RecordedIn(before, now, p, c) && now.checkpoint == Some(now.memory) && Shows(devices, now.memory[p][c])
    && manager.AllPrepared(before.slots, now.slots, before.entries, now.entries, claim, now.pods[p][c], from, next)
    && now.specs == before.specs[ClaimSpec(c) := manager.SpecOf(now.pods[p][c])]
    && OnlyStatus(before.statuses, now.statuses, ClaimKey(claim.namespace, claim.name))
    && manager.Preparable(claim)
  }

  /** It cannot be prepared, and is rolled back. */
  ghost predicate NewFailed(manager: ClaimManager, before: View, now: View, claim: ResourceClaim, error: PrepareError)
    requires Settled(claim)
    reads manager.table
  {
    && now == before.(slots := now.slots, entries := now.entries)
    && manager.PreparedNothing(before.slots, now.slots, before.entries, now.entries, claim, error)
    && (manager.reliable ==> !manager.Preparable(claim))
  }

  /** It cannot be written to the checkpoint: it stays in memory, although its
      devices are unprepared again. */
  ghost predicate NewUnrecorded(manager: ClaimManager, before: View, now: View, claim: ResourceClaim, cleaned: bool)
    requires Settled(claim)
    reads manager.table
  {
    var p, c := claim.reservedFor[0], claim.uid;
    && RecordedIn(before, now, p, c) && now.checkpoint == before.checkpoint && now.statuses == before.statuses
    && DevicesFor(manager, claim, now.pods[p][c])
    && Withdrawn(manager, before, now, claim, now.pods[p][c], cleaned)
    && manager.Preparable(claim)
  }

  /** Preparing a claim that was not recorded. */
  ghost predicate PreparesNew(manager: ClaimManager, before: View, now: View, claim: ResourceClaim, from: nat,
                              next: nat, r: PrepareResult)
    requires Settled(claim)
    reads manager.table
  {
    match r
    case Ready(devices) => NewReady(manager, before, now, claim, from, next, devices)
    case NotPrepared(error) => NewFailed(manager, before, now, claim, error)
    case NotRecorded(cleaned) => NewUnrecorded(manager, before, now, claim, cleaned)
    case _ => false
  }

  /** Preparing a claim, with the interface index going from `from` to `next`. A
      claim that is recorded is answered from its record, without any effect. */
  ghost predicate Prepares(manager: ClaimManager, before: View, now: View, claim: ResourceClaim, from: nat, next: nat,
                           r: PrepareResult)
    reads manager.table
  {
    && from <= next
    && if claim.reservedFor == [] then r.NoPod? && now == before && next == from
       else if |claim.reservedFor| > 1 then r.ManyPods? && now == before && next == from
       else if claim.allocation.None? then r.NotAllocated? && now == before && next == from
       else if Entry(before.pods, claim.reservedFor[0], claim.uid) then
         && now == before && next == from && r.Ready?
         && claim.reservedFor[0] in before.memory && claim.uid in before.memory[claim.reservedFor[0]]
         && Shows(r.devices, before.memory[claim.reservedFor[0]][claim.uid])
       else PreparesNew(manager, before, now, claim, from, next, r)
  }

  // ---- What unpreparing a claim does -------------------------------------------------------------

  /** The devices are unprepared, completely if `ok`. */
  ghost predicate TornDown(manager: ClaimManager, before: View, now: View, c: string, devices: seq<PreparedDevice>,
                           ok: bool)
  {
    && Elsewhere(before.slots, now.slots, devices)
    && InfosElsewhere(before.entries, now.entries, InfoKeys(devices))
    && SpecsElsewhere(before.specs, now.specs, SpecsOf(c, devices))
    && (DistinctDevices(devices) ==> StillUndoable(before.slots, now.slots, manager.host.traits, devices))
    && (ok ==>
          && now.specs == before.specs - SpecsOf(c, devices)
          && now.entries == (if manager.multus then before.entries - InfoKeys(devices) else before.entries)
          && (DistinctDevices(devices) ==> Restored(before.slots, now.slots, manager.host.traits, devices, |devices|)))
    && (manager.reliable ==> (ok <==> Restorable(devices)))
  }

  /** Unpreparing the claim that pod `p` holds. A teardown that fails leaves the
      record alone; one that succeeds is followed by the deletion of the pod's
      record, which memory keeps to even if the disk does not. */
  ghost predicate Removed(manager: ClaimManager, before: View, now: View, p: string, c: string, ok: bool)
    requires Entry(before.pods, p, c)
  {
    var deleted := p !in now.pods;
    && TornDown(manager, before, now, c, before.pods[p][c], deleted)
    && now.pods == (if deleted then before.pods - {p} else before.pods)
    && now.memory == (if deleted then before.memory - {p} else before.memory)
    && (ok ==> deleted) && (manager.reliable && deleted ==> ok)
    && now.checkpoint == (if ok then Some(now.memory) else before.checkpoint)
    && now.statuses == before.statuses
  }

  /** `p` is the only pod that holds the claim. */
  ghost predicate Holder(pods: Pods, p: string, c: string)
  {
    Entry(pods, p, c) && forall q :: Entry(pods, q, c) ==> q == p
  }

  /** No pod gains a claim. */
  ghost predicate Shrunk(before: Pods, now: Pods)
  {
    forall p :: p in now ==> p in before && now[p] == before[p]
  }

  /** Unpreparing a claim. One that is not recorded is skipped. */
  ghost predicate Unprepares(manager: ClaimManager, before: View, now: View, c: string, ok: bool)
  {
    && Shrunk(before.pods, now.pods)
    && (now.checkpoint == before.checkpoint || now.checkpoint == Some(now.memory))
    && if !Tracked(before.pods, c) then ok && now == before
       else forall p :: Holder(before.pods, p, c) ==> Removed(manager, before, now, p, c, ok)
  }

  // ---- Entries -------------------------------------------------------------------------------

  lemma TrackedIsEntry(pods: Pods, c: string)
    ensures Tracked(pods, c) <==> exists p :: Entry(pods, p, c)
  {
    if p :| p in pods && c in pods[p] { assert Entry(pods, p, c); }
  }

  lemma StoredEntries(pods: Pods, p: string, c: string, devices: seq<PreparedDevice>)
    ensures forall q, e :: Entry(Stored(pods, p, c, devices), q, e) <==> (q, e) == (p, c) || Entry(pods, q, e)
    ensures forall q, e :: Entry(Stored(pods, p, c, devices), q, e) ==>
      Stored(pods, p, c, devices)[q][e] == if (q, e) == (p, c) then devices else pods[q][e]
    ensures forall e :: Tracked(Stored(pods, p, c, devices), e) <==> e == c || Tracked(pods, e)
  {
    var after := Stored(pods, p, c, devices);
    forall e ensures Tracked(after, e) <==> e == c || Tracked(pods, e) {
      TrackedIsEntry(after, e);
      TrackedIsEntry(pods, e);
      assert Entry(after, p, c);
      if q :| Entry(pods, q, e) { assert Entry(after, q, e); }
    }
  }

  lemma OnePod(pods: Pods, p: string, c: string)
    requires Separate(pods) && Entry(pods, p, c)
    ensures Holder(pods, p, c)
    ensures forall q, e :: Entry(pods, q, e) && q != p ==> Apart(pods[q][e], pods[p][c])
  {
  }

  lemma HasHolder(pods: Pods, c: string) returns (p: string)
    requires Separate(pods) && Tracked(pods, c)
    ensures Holder(pods, p, c)
  {
    TrackedIsEntry(pods, c);
    p :| Entry(pods, p, c);
    OnePod(pods, p, c);
  }

  /** Deleting the pod of a claim that is alone there deletes that claim only. */
  lemma DeletedEntries(pods: Pods, p: string, c: string)
    requires Holder(pods, p, c) && OnlyClaim(pods, p, c)
    ensures forall q, e :: Entry(pods - {p}, q, e) <==> Entry(pods, q, e) && q != p
    ensures forall e :: Tracked(pods - {p}, e) <==> Tracked(pods, e) && e != c
  {
    forall e ensures Tracked(pods - {p}, e) <==> Tracked(pods, e) && e != c {
      TrackedIsEntry(pods, e);
      TrackedIsEntry(pods - {p}, e);
      if q :| Entry(pods, q, e) && e != c { assert Entry(pods - {p}, q, e); }
      if q :| Entry(pods - {p}, q, e) { assert Entry(pods, q, e); }
    }
  }

  lemma ShrunkKeeps(before: Pods, now: Pods)
    requires Shrunk(before, now)
    ensures Separate(before) ==> Separate(now)
    ensures forall c :: Unshared(before, c) ==> Unshared(now, c)
    ensures forall c :: !Tracked(before, c) ==> !Tracked(now, c)
  {
    assert forall p, c :: Entry(now, p, c) ==> Entry(before, p, c);
  }

  // ---- What preparing keeps ----------------------------------------------------------------

  /** A claim's devices that nothing else has are recorded. Its spec may be there
      or not, and no other spec is new. */
  lemma SoundAfterSet(v: View, now: View, p: string, c: string, devices: seq<PreparedDevice>)
    requires Sound(v) && Owned(p, c, devices)
    requires forall q :: !Entry(v.pods, q, c)
    requires forall q, e :: Entry(v.pods, q, e) ==> Apart(v.pods[q][e], devices)
    requires now.pods == Stored(v.pods, p, c, devices)
    requires now.specs.Keys <= v.specs.Keys + {ClaimSpec(c)}
    ensures Sound(now)
  {
    StoredEntries(v.pods, p, c, devices);
  }

  lemma CarryElsewhere(before: Slots, now: Slots, traits: string -> Traits, devices: seq<PreparedDevice>,
                       others: seq<PreparedDevice>)
    requires AllCarry(before, traits, devices) && Elsewhere(before, now, others) && Apart(devices, others)
    ensures AllCarry(now, traits, devices)
  {
  }

  lemma ConsistentAfterSet(v: View, now: View, traits: string -> Traits, p: string, c: string,
                           devices: seq<PreparedDevice>)
    requires Consistent(v, traits) && Owned(p, c, devices)
    requires forall q :: !Entry(v.pods, q, c)
    requires forall q, e :: Entry(v.pods, q, e) ==> Apart(v.pods[q][e], devices)
    requires now.pods == Stored(v.pods, p, c, devices)
    requires now.specs.Keys == v.specs.Keys + {ClaimSpec(c)}
    requires Elsewhere(v.slots, now.slots, devices) && AllBound(v.slots, now.slots, traits, devices)
    ensures Consistent(now, traits)
  {
    StoredEntries(v.pods, p, c, devices);
    SoundAfterSet(v, now, p, c, devices);
    forall q, e | Entry(now.pods, q, e) ensures AllCarry(now.slots, traits, now.pods[q][e]) {
      if (q, e) != (p, c) { CarryElsewhere(v.slots, now.slots, traits, v.pods[q][e], devices); }
    }
  }

  lemma WantsAsked(manager: ClaimManager, claim: ResourceClaim, i: nat)
    requires Settled(claim) && i < |manager.WantsFor(claim)|
    ensures AsksFor(manager.table.allocatable, claim, manager.WantsFor(claim)[i].pciAddress)
  {
    SameAddresses(manager.table.allocatable, map[], manager.ConfigsFor(claim), claim.allocation.value.results);
  }

  /** A failed prepare of a claim that is not recorded disturbs no recorded one. */
  lemma ConsistentAfterFailure(manager: ClaimManager, v: View, now: View, claim: ResourceClaim)
    requires Consistent(v, manager.host.traits) && Settled(claim)
    requires Schedulable(manager.table.allocatable, v.pods, claim)
    requires !Entry(v.pods, claim.reservedFor[0], claim.uid)
    requires now.pods == v.pods && now.specs == v.specs && Confined(v.slots, now.slots, manager.WantsFor(claim))
    ensures Consistent(now, manager.host.traits)
  {
    forall p, c | Entry(now.pods, p, c) ensures AllCarry(now.slots, manager.host.traits, now.pods[p][c]) {
      assert Spared(manager.table.allocatable, claim, v.pods[p][c]);
      forall i, j | 0 <= i < |v.pods[p][c]| && 0 <= j < |manager.WantsFor(claim)|
        ensures v.pods[p][c][i].info.pciAddress != manager.WantsFor(claim)[j].pciAddress
      {
        WantsAsked(manager, claim, j);
      }
    }
  }

  /** The new devices of a scheduled claim are its own, and nobody else's. */
  lemma NewIsApart(manager: ClaimManager, pods: Pods, claim: ResourceClaim, devices: seq<PreparedDevice>)
    requires Settled(claim) && Schedulable(manager.table.allocatable, pods, claim)
    requires !Entry(pods, claim.reservedFor[0], claim.uid)
    requires DevicesFor(manager, claim, devices)
    ensures Owned(claim.reservedFor[0], claim.uid, devices)
    ensures forall q :: !Entry(pods, q, claim.uid)
    ensures forall q, e :: Entry(pods, q, e) ==> Apart(pods[q][e], devices)
  {
    manager.OwnedBy(devices, claim);
    DistinctFor(manager, claim, devices);
    forall q, e | Entry(pods, q, e) ensures Apart(pods[q][e], devices) {
      assert Spared(manager.table.allocatable, claim, pods[q][e]);
      forall i, j | 0 <= i < |pods[q][e]| && 0 <= j < |devices|
        ensures pods[q][e][i].info.pciAddress != devices[j].info.pciAddress {
        WantsAsked(manager, claim, j);
      }
    }
  }

  lemma NewIsSound(manager: ClaimManager, v: View, now: View, claim: ResourceClaim, devices: seq<PreparedDevice>)
    requires Settled(claim) && Schedulable(manager.table.allocatable, v.pods, claim)
    requires !Entry(v.pods, claim.reservedFor[0], claim.uid)
    requires Sound(v) && DevicesFor(manager, claim, devices)
    requires now.pods == Stored(v.pods, claim.reservedFor[0], claim.uid, devices)
    requires now.specs.Keys <= v.specs.Keys + {ClaimSpec(claim.uid)}
    ensures Sound(now)
  {
    NewIsApart(manager, v.pods, claim, devices);
    SoundAfterSet(v, now, claim.reservedFor[0], claim.uid, devices);
  }

  lemma NewIsConsistent(manager: ClaimManager, v: View, now: View, claim: ResourceClaim, devices: seq<PreparedDevice>)
    requires Settled(claim) && Schedulable(manager.table.allocatable, v.pods, claim)
    requires !Entry(v.pods, claim.reservedFor[0], claim.uid)
    requires Consistent(v, manager.host.traits) && DevicesFor(manager, claim, devices)
    requires now.pods == Stored(v.pods, claim.reservedFor[0], claim.uid, devices)
    requires now.specs.Keys == v.specs.Keys + {ClaimSpec(claim.uid)}
    requires Bound(v.slots, now.slots, manager.host.traits, devices)
    ensures Consistent(now, manager.host.traits)
  {
    NewIsApart(manager, v.pods, claim, devices);
    ConsistentAfterSet(v, now, manager.host.traits, claim.reservedFor[0], claim.uid, devices);
  }

  /** Preparing a scheduled claim keeps what always holds, whatever fails. */
  lemma PreparesKeepsSound(manager: ClaimManager, v: View, now: View, claim: ResourceClaim, from: nat, next: nat,
                           r: PrepareResult)
    requires Prepares(manager, v, now, claim, from, next, r) && Schedulable(manager.table.allocatable, v.pods, claim)
    requires Sound(v)
    ensures Sound(now)
  {
    if Settled(claim) && !Entry(v.pods, claim.reservedFor[0], claim.uid) && !r.NotPrepared? {
      NewIsSound(manager, v, now, claim, now.pods[claim.reservedFor[0]][claim.uid]);
    }
  }

  /** And it keeps records and specs in step unless the checkpoint could not be
      written. */
  lemma PreparesKeepsConsistent(manager: ClaimManager, v: View, now: View, claim: ResourceClaim, from: nat, next: nat,
                                r: PrepareResult)
    requires Prepares(manager, v, now, claim, from, next, r) && Schedulable(manager.table.allocatable, v.pods, claim)
    requires !r.NotRecorded?
    requires Consistent(v, manager.host.traits)
    ensures Consistent(now, manager.host.traits)
  {
    if Settled(claim) && !Entry(v.pods, claim.reservedFor[0], claim.uid) {
      if r.NotPrepared? {
        ConsistentAfterFailure(manager, v, now, claim);
      } else {
        NewIsConsistent(manager, v, now, claim, now.pods[claim.reservedFor[0]][claim.uid]);
      }
    }
  }

  /** If the checkpoint could not be written, and the claim was unprepared again
      completely, they are out of step for sure: the claim is recorded, and has no
      spec. */
  lemma UnrecordedIsOutOfStep(manager: ClaimManager, v: View, now: View, claim: ResourceClaim, from: nat, next: nat)
    requires Prepares(manager, v, now, claim, from, next, NotRecorded(true))
    ensures Tracked(now.pods, claim.uid) && ClaimSpec(claim.uid) !in now.specs
    ensures !Consistent(now, manager.host.traits)
  {
    TrackedIsEntry(now.pods, claim.uid);
  }

  // ---- What unpreparing keeps ----------------------------------------------------------------

  lemma SpecsOfOwned(pods: Pods, p: string, c: string)
    requires Separate(pods) && Entry(pods, p, c)
    ensures SpecsOf(c, pods[p][c]) == {ClaimSpec(c), PodSpec(p)}
  {
    assert Owned(p, c, pods[p][c]);
  }

  lemma CarryingAfterDelete(pods: Pods, before: Slots, now: Slots, traits: string -> Traits, p: string,
                            devices: seq<PreparedDevice>)
    requires Carrying(pods, before, traits) && Elsewhere(before, now, devices)
    requires forall q, e :: Entry(pods, q, e) && q != p ==> Apart(pods[q][e], devices)
    ensures Carrying(pods - {p}, now, traits)
  {
    forall q, e | Entry(pods - {p}, q, e) ensures AllCarry(now, traits, pods[q][e]) {
      assert Entry(pods, q, e);
      CarryElsewhere(before, now, traits, pods[q][e], devices);
    }
  }

  /** A pod goes, and with it the only claim it held and that claim's spec. */
  lemma SoundAfterDelete(v: View, now: View, p: string, c: string)
    requires Sound(v) && Entry(v.pods, p, c) && OnlyClaim(v.pods, p, c)
    requires now.pods == v.pods - {p} && now.specs.Keys <= v.specs.Keys - {ClaimSpec(c), PodSpec(p)}
    ensures Sound(now)
  {
    OnePod(v.pods, p, c);
    DeletedEntries(v.pods, p, c);
  }

  lemma ConsistentAfterDelete(v: View, now: View, traits: string -> Traits, p: string, c: string)
    requires Consistent(v, traits) && Entry(v.pods, p, c) && OnlyClaim(v.pods, p, c)
    requires now.pods == v.pods - {p} && now.specs.Keys == v.specs.Keys - {ClaimSpec(c), PodSpec(p)}
    requires Elsewhere(v.slots, now.slots, v.pods[p][c])
    ensures Consistent(now, traits)
  {
    SoundAfterDelete(v, now, p, c);
    OnePod(v.pods, p, c);
    DeletedEntries(v.pods, p, c);
    forall e | Tracked(now.pods, e) ensures ClaimSpec(e) in now.specs { assert Tracked(v.pods, e) && e != c; }
    CarryingAfterDelete(v.pods, v.slots, now.slots, traits, p, v.pods[p][c]);
  }

  lemma FewerSpecsSound(v: View, now: View)
    requires Sound(v) && now.pods == v.pods && now.specs.Keys <= v.specs.Keys
    ensures Sound(now)
  {
  }

  lemma GoneWithPod(pods: Pods, p: string, c: string)
    requires Holder(pods, p, c)
    ensures !Tracked(pods - {p}, c)
  {
    TrackedIsEntry(pods - {p}, c);
    if q :| Entry(pods - {p}, q, c) { assert Entry(pods, q, c); }
  }

  /** Unpreparing a claim that shares its pod with no other keeps what always
      holds; and if it succeeds, it keeps records and specs in step. */
  lemma UnpreparesKeeps(manager: ClaimManager, v: View, now: View, c: string, ok: bool)
    requires Separate(v.pods) && Unprepares(manager, v, now, c, ok)
    ensures Separate(now.pods) && (ok ==> !Tracked(now.pods, c))
    ensures Sound(v) && Unshared(v.pods, c) ==> Sound(now)
    ensures Consistent(v, manager.host.traits) && Unshared(v.pods, c) && ok ==> Consistent(now, manager.host.traits)
  {
    ShrunkKeeps(v.pods, now.pods);
    if Tracked(v.pods, c) {
      var p := HasHolder(v.pods, c);
      assert Removed(manager, v, now, p, c, ok);
      SpecsOfOwned(v.pods, p, c);
      if p in now.pods {
        if Sound(v) { FewerSpecsSound(v, now); }
      } else {
        GoneWithPod(v.pods, p, c);
        if Sound(v) && Unshared(v.pods, c) {
          assert OnlyClaim(v.pods, p, c);
          SoundAfterDelete(v, now, p, c);
          if Consistent(v, manager.host.traits) { ConsistentAfterDelete(v, now, manager.host.traits, p, c); }
        }
      }
    }
  }

  /** A claim whose spec is there and whose record is not. */
  ghost predicate Orphan(v: View, c: string)
  {
    ClaimSpec(c) in v.specs && !Tracked(v.pods, c)
  }

  /** Unprepare deletes the record of the whole pod: every other claim of the pod
      keeps its spec and its drivers, and is recorded no more. */
  lemma RemovalForgets(manager: ClaimManager, before: View, now: View, p: string, c: string, e: string)
    requires Consistent(before, manager.host.traits) && Entry(before.pods, p, c)
    requires Removed(manager, before, now, p, c, true)
    requires Entry(before.pods, p, e) && e != c
    ensures Orphan(now, e) && AllCarry(now.slots, manager.host.traits, before.pods[p][e])
  {
    SpecsOfOwned(before.pods, p, c);
    TrackedIsEntry(before.pods, e);
    OnePod(before.pods, p, e);
    GoneWithPod(before.pods, p, e);
    CarryElsewhere(before.slots, now.slots, manager.host.traits, before.pods[p][e], before.pods[p][c]);
  }

  /** So what always holds survives a successful unprepare exactly when the claim
      was the only one of its pod. */
  lemma RemovalExactly(manager: ClaimManager, before: View, now: View, p: string, c: string)
    requires Consistent(before, manager.host.traits) && Entry(before.pods, p, c)
    requires Removed(manager, before, now, p, c, true)
    ensures Sound(now) <==> OnlyClaim(before.pods, p, c)
  {
    if OnlyClaim(before.pods, p, c) {
      SpecsOfOwned(before.pods, p, c);
      SoundAfterDelete(before, now, p, c);
    } else {
      var e :| Entry(before.pods, p, e) && e != c;
      RemovalForgets(manager, before, now, p, c, e);
    }
  }
}
