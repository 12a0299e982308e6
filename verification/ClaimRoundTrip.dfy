/** Prepare, then unprepare as often as it takes: what the round trip leaves. */
module ClaimRoundTrip {
  import opened Options
  import opened Attributes
  import opened VfConfigs
  import opened Host
  import opened PodManager
  import opened Resources
  import opened ClaimTransaction
  import Discovery
  import PolicyController
  import PolicyDevices
  import PolicyRuns

  /** Every device is held since it was bound: its record names the driver it had,
      and nothing but attempts to put it back has touched it. */
  ghost predicate AllHeld(before: Slots, now: Slots, traits: string -> Traits, devices: seq<PreparedDevice>)
  {
    forall i :: 0 <= i < |devices| ==> HeldDevice(before, now, traits, devices[i].info)
  }

  predicate HeldDevice(before: Slots, now: Slots, traits: string -> Traits, info: PreparedInfo)
  {
    var (s, pci) := (SlotAt(before, info.pciAddress), info.pciAddress);
    && Held(s, traits(pci), SlotAt(now, pci), info.settings.driver)
    && info.originalDriver == if info.settings.driver == "" then "" else s.driver
  }

  lemma HeldWhenBound(before: Slots, bound: Slots, traits: string -> Traits, devices: seq<PreparedDevice>)
    requires AllBound(before, bound, traits, devices)
    ensures AllHeld(before, bound, traits, devices)
  {
  }

  /** Another attempt, that breaks off, does no harm. */
  lemma HeldStays(before: Slots, between: Slots, now: Slots, traits: string -> Traits, devices: seq<PreparedDevice>)
    requires AllHeld(before, between, traits, devices) && StillUndoable(between, now, traits, devices)
    ensures AllHeld(before, now, traits, devices)
  {
    forall i | 0 <= i < |devices| ensures HeldDevice(before, now, traits, devices[i].info) {
      var info := devices[i].info;
      var (s, t, pci) := (SlotAt(before, info.pciAddress), traits(info.pciAddress), info.pciAddress);
      assert HeldDevice(before, between, traits, info);
      if info.settings.driver != "" {
        AttemptedTwice(BoundSlot(s, t, info.settings.driver), t, s.driver, SlotAt(between, pci), SlotAt(now, pci));
      }
    }
  }

  /** Every device is put back. */
  ghost predicate AllPutBack(before: Slots, now: Slots, traits: string -> Traits, devices: seq<PreparedDevice>)
  {
    forall i :: 0 <= i < |devices| ==>
      var info := devices[i].info;
      PutBack(SlotAt(before, info.pciAddress), traits(info.pciAddress), SlotAt(now, info.pciAddress),
              info.settings.driver)
  }

  /** Every device is put back, and no override is left. */
  ghost predicate AllBackAs(before: Slots, now: Slots, traits: string -> Traits, devices: seq<PreparedDevice>)
  {
    forall i :: 0 <= i < |devices| ==>
      var info := devices[i].info;
      SlotAt(now, info.pciAddress) == BackAs(SlotAt(before, info.pciAddress), traits(info.pciAddress),
                                             info.settings.driver)
  }

  /** So it is when the first attempt succeeds. */
  lemma BackAtOnce(before: Slots, bound: Slots, now: Slots, traits: string -> Traits, devices: seq<PreparedDevice>)
    requires AllBound(before, bound, traits, devices) && Restored(bound, now, traits, devices, |devices|)
    ensures AllBackAs(before, now, traits, devices)
  {
    forall i | 0 <= i < |devices|
      ensures var info := devices[i].info;
        SlotAt(now, info.pciAddress) == BackAs(SlotAt(before, info.pciAddress), traits(info.pciAddress),
                                               info.settings.driver)
    {
      var info := devices[i].info;
      if info.settings.driver != "" {
        LandedBack(SlotAt(before, info.pciAddress), traits(info.pciAddress), info.settings.driver);
      }
    }
  }

  ghost predicate WantsPutBack(before: Slots, now: Slots, traits: string -> Traits, wants: seq<Want>)
  {
    forall i :: 0 <= i < |wants| ==>
      var pci := wants[i].pciAddress;
      PutBack(SlotAt(before, pci), traits(pci), SlotAt(now, pci), wants[i].target)
  }

  ghost predicate WantsBackAs(before: Slots, now: Slots, traits: string -> Traits, wants: seq<Want>)
  {
    forall i :: 0 <= i < |wants| ==>
      var pci := wants[i].pciAddress;
      SlotAt(now, pci) == BackAs(SlotAt(before, pci), traits(pci), wants[i].target)
  }

  lemma WantsFollow(before: Slots, now: Slots, traits: string -> Traits, devices: seq<PreparedDevice>, wants: seq<Want>)
    requires Prepared(devices, wants)
    ensures AllPutBack(before, now, traits, devices) ==> WantsPutBack(before, now, traits, wants)
    ensures AllBackAs(before, now, traits, devices) ==> WantsBackAs(before, now, traits, wants)
  {
  }

  /** And one that succeeds puts every device back. */
  lemma HeldThenRestored(before: Slots, held: Slots, now: Slots, traits: string -> Traits, devices: seq<PreparedDevice>)
    requires AllHeld(before, held, traits, devices) && Restored(held, now, traits, devices, |devices|)
    ensures AllPutBack(before, now, traits, devices)
  {
    forall i | 0 <= i < |devices|
      ensures var info := devices[i].info;
        PutBack(SlotAt(before, info.pciAddress), traits(info.pciAddress), SlotAt(now, info.pciAddress),
                info.settings.driver)
    {
      var info := devices[i].info;
      assert HeldDevice(before, held, traits, info);
      if info.settings.driver != "" {
        RestoredLate(SlotAt(before, info.pciAddress), traits(info.pciAddress), SlotAt(held, info.pciAddress),
                     info.settings.driver);
      }
    }
  }

  /** Unprepares again and again until one attempt succeeds, at most `attempts`
      times. Each attempt stops restoring at the first device that fails; what the
      first successful one leaves does not depend on how the others broke off. */
  method RetriedUnprepare(manager: ClaimManager, claimUID: string, devices: seq<PreparedDevice>, attempts: nat,
                          ghost before: Slots)
    returns (ok: bool)
    requires DistinctDevices(devices) && AllBound(before, manager.host.slots, manager.host.traits, devices)
    modifies manager.host, manager.cdi, manager.infos
    ensures Elsewhere(old(manager.host.slots), manager.host.slots, devices)
    ensures InfosElsewhere(old(manager.infos.entries), manager.infos.entries, InfoKeys(devices))
    ensures SpecsElsewhere(old(manager.cdi.specs), manager.cdi.specs, SpecsOf(claimUID, devices))
    ensures ok ==> AllPutBack(before, manager.host.slots, manager.host.traits, devices)
    ensures ok && attempts == 1 ==> AllBackAs(before, manager.host.slots, manager.host.traits, devices)
    ensures ok ==>
      manager.infos.entries == if manager.multus then old(manager.infos.entries) - InfoKeys(devices)
                               else old(manager.infos.entries)
    ensures ok ==> manager.cdi.specs == old(manager.cdi.specs) - SpecsOf(claimUID, devices)
    ensures manager.reliable && attempts > 0 ==> (ok <==> Restorable(devices))
  {
    ghost var bound, entries, specs := manager.host.slots, manager.infos.entries, manager.cdi.specs;
    ok := false;
    HeldWhenBound(before, bound, manager.host.traits, devices);
    for n := 0 to attempts
      invariant !ok && (n == 0 ==> manager.host.slots == bound)
      invariant AllHeld(before, manager.host.slots, manager.host.traits, devices)
      invariant Elsewhere(bound, manager.host.slots, devices)
      invariant InfosElsewhere(entries, manager.infos.entries, InfoKeys(devices))
      invariant !manager.multus ==> manager.infos.entries == entries
      invariant SpecsElsewhere(specs, manager.cdi.specs, SpecsOf(claimUID, devices))
      invariant manager.reliable && n > 0 ==> !Restorable(devices)
    {
      ghost var tried, triedInfos, triedSpecs := manager.host.slots, manager.infos.entries, manager.cdi.specs;
      ok := manager.Unprepare(claimUID, devices);
      WrittenThenCleaned(entries, triedInfos, manager.infos.entries, InfoKeys(devices));
      SpecsElsewhereTwice(specs, triedSpecs, manager.cdi.specs, SpecsOf(claimUID, devices));
      if ok {
        HeldThenRestored(before, tried, manager.host.slots, manager.host.traits, devices);
        if n == 0 { BackAtOnce(before, bound, manager.host.slots, manager.host.traits, devices); }
        return;
      }
      HeldStays(before, tried, manager.host.slots, manager.host.traits, devices);
    }
  }

  lemma SpecsElsewhereTwice(before: map<SpecName, seq<string>>, between: map<SpecName, seq<string>>,
                            now: map<SpecName, seq<string>>, names: set<SpecName>)
    requires SpecsElsewhere(before, between, names) && SpecsElsewhere(between, now, names)
    ensures SpecsElsewhere(before, now, names)
    ensures now == between - names ==> now == before - names
  {
  }

  /** Every device that is bound to a configured driver started on one that can be
      bound again. */
  predicate Reversible(before: Slots, wants: seq<Want>)
  {
    forall w :: w in wants && w.target != "" ==> !Unsupported(SlotAt(before, w.pciAddress).driver)
  }

  lemma RestorableFromStart(before: Slots, bound: Slots, traits: string -> Traits, devices: seq<PreparedDevice>,
                            wants: seq<Want>)
    requires Prepared(devices, wants) && AllBound(before, bound, traits, devices)
    ensures Restorable(devices) <==> Reversible(before, wants)
  {
    forall i | 0 <= i < |wants|
      ensures wants[i].target == devices[i].info.settings.driver
      ensures wants[i].target != "" ==> SlotAt(before, wants[i].pciAddress).driver == devices[i].info.originalDriver
    {
    }
    assert forall i :: 0 <= i < |wants| ==> wants[i] in wants && devices[i] in devices;
  }

  /** Which addresses a claim asks for does not depend on its configs. */
  lemma {:induction false} SameAddresses(devices: Devices, configs: map<string, Settings>,
                                         configs': map<string, Settings>, results: seq<AllocationResult>)
    ensures var wants, wants' := WantsOf(devices, configs, results), WantsOf(devices, configs', results);
      |wants| == |wants'| && forall i :: 0 <= i < |wants| ==> wants[i].pciAddress == wants'[i].pciAddress
  {
    if results != [] { SameAddresses(devices, configs, configs', results[..|results| - 1]); }
  }

  /** The claim's devices are pairwise distinct. */
  ghost predicate DistinctResults(devices: Devices, results: seq<AllocationResult>)
  {
    DistinctWants(WantsOf(devices, map[], results))
  }

  /** In a table that is filed by address, that says that no two results of this
      driver name the same device. */
  lemma DistinctResultsMeans(devices: Devices, results: seq<AllocationResult>)
    requires Discovery.FiledByAddress(devices)
    requires forall r :: r in results && r.driver == "sriovnetwork.k8snetworkplumbingwg.io" ==> r.device in devices
    ensures DistinctResults(devices, results) <==> DistinctNames(results)
  {
    var wants, ours := WantsOf(devices, map[], results), OursOf(results);
    OursDistinct(results);
    WantsAre(devices, map[], results);
    forall i, j | 0 <= i < j < |ours|
      ensures wants[i].pciAddress != wants[j].pciAddress <==> ours[i].device != ours[j].device {
      AddressOf(devices, ours[i].device);
      AddressOf(devices, ours[j].device);
    }
    if !DistinctNames(results) {
      var i, j :| 0 <= i < j < |ours| && ours[i].device == ours[j].device;
      assert wants[i].pciAddress == wants[j].pciAddress;
    }
  }

  /** Under the configs of a claim, too, its devices are distinct. */
  lemma DistinctFor(manager: ClaimManager, claim: ResourceClaim, devices: seq<PreparedDevice>)
    requires claim.allocation.Some? && Prepared(devices, manager.WantsFor(claim))
    requires DistinctResults(manager.table.allocatable, claim.allocation.value.results)
    ensures DistinctWants(manager.WantsFor(claim)) && DistinctDevices(devices)
  {
    SameAddresses(manager.table.allocatable, map[], manager.ConfigsFor(claim), claim.allocation.value.results);
  }

  lemma UndoneEntries(manager: ClaimManager, claim: ResourceClaim, devices: seq<PreparedDevice>,
                      entries: map<InfoKey, DeviceInfo>, written: map<InfoKey, DeviceInfo>,
                      now: map<InfoKey, DeviceInfo>)
    requires claim.allocation.Some? && InfoKeys(devices) == manager.ClaimKeys(claim.allocation.value.results)
    requires InfosElsewhere(entries, written, manager.ClaimKeys(claim.allocation.value.results))
    requires (!manager.multus ==> written == entries)
    requires InfosElsewhere(written, now, InfoKeys(devices))
    requires now == if manager.multus then written - InfoKeys(devices) else written
    ensures now == entries - manager.ClaimKeys(claim.allocation.value.results)
  {
    WrittenThenCleaned(entries, written, now, InfoKeys(devices));
  }

  /** The round trip of one claim. Whichever attempt at unpreparing is the first to
      succeed, every device is then put back, no other device was ever touched, the
      claim's spec and its pod's spec are gone, and of the device-info entries
      exactly those under the keys that the table has for the claim's devices. In a
      reliable environment a claim is prepared exactly if it can be, and the round
      trip fails only for devices that started on a driver which cannot be bound
      again. */
  method PrepareThenUnprepare(manager: ClaimManager, ifNameIndex: nat, claim: ResourceClaim, attempts: nat)
    returns (prepared: bool, ok: bool)
    requires claim.reservedFor != [] && claim.allocation.Some?
    requires DistinctResults(manager.table.allocatable, claim.allocation.value.results)
    modifies manager.host, manager.cdi, manager.infos, claim.status
    ensures ok ==> prepared
    ensures Confined(old(manager.host.slots), manager.host.slots, manager.WantsFor(claim))
    ensures InfosElsewhere(old(manager.infos.entries), manager.infos.entries,
                           manager.ClaimKeys(claim.allocation.value.results))
    ensures ok ==>
      WantsPutBack(old(manager.host.slots), manager.host.slots, manager.host.traits, manager.WantsFor(claim))
    ensures ok && attempts == 1 ==>
      WantsBackAs(old(manager.host.slots), manager.host.slots, manager.host.traits, manager.WantsFor(claim))
    ensures ok ==> manager.cdi.specs == old(manager.cdi.specs) - {ClaimSpec(claim.uid), PodSpec(claim.reservedFor[0])}
    ensures ok ==>
      manager.infos.entries == old(manager.infos.entries) - manager.ClaimKeys(claim.allocation.value.results)
    ensures manager.reliable ==> (prepared <==> manager.Preparable(claim))
    ensures manager.reliable && prepared && attempts > 0 ==>
      (ok <==> Reversible(old(manager.host.slots), manager.WantsFor(claim)))
  {
    ghost var before, entries, specs := manager.host.slots, manager.infos.entries, manager.cdi.specs;
    var r := PrepareTo(manager, ifNameIndex, claim);
    prepared, ok := r.Ok?, false;
    if !prepared {
      return;
    }
    ghost var bound, written := manager.host.slots, manager.infos.entries;
    ok := RetriedUnprepare(manager, claim.uid, r.value, attempts, before);
    TripConfined(manager, claim, r.value, before, bound, manager.host.slots, entries, written, manager.infos.entries);
    if ok {
      WantsFollow(before, manager.host.slots, manager.host.traits, r.value, manager.WantsFor(claim));
      UndoneEntries(manager, claim, r.value, entries, written, manager.infos.entries);
      SpecGone(specs, claim, manager.SpecOf(r.value));
    }
  }

  lemma SpecGone(specs: map<SpecName, seq<string>>, claim: ResourceClaim, spec: seq<string>)
    requires claim.reservedFor != []
    ensures var names := {ClaimSpec(claim.uid), PodSpec(claim.reservedFor[0])};
      specs[ClaimSpec(claim.uid) := spec] - names == specs - names
  {
  }

  /** The first half of the round trip: the claim is prepared as `devices`. */
  ghost predicate Outward(manager: ClaimManager, claim: ResourceClaim, devices: seq<PreparedDevice>, before: Slots,
                          bound: Slots, entries: map<InfoKey, DeviceInfo>, written: map<InfoKey, DeviceInfo>)
    requires claim.reservedFor != [] && claim.allocation.Some?
    reads manager.table
  {
    var keys := manager.ClaimKeys(claim.allocation.value.results);
    && DistinctDevices(devices) && Prepared(devices, manager.WantsFor(claim))
    && Elsewhere(before, bound, devices) && AllBound(before, bound, manager.host.traits, devices)
    && InfoKeys(devices) == keys && InfosElsewhere(entries, written, keys) && (!manager.multus ==> written == entries)
    && SpecsOf(claim.uid, devices) == {ClaimSpec(claim.uid), PodSpec(claim.reservedFor[0])}
    && (Restorable(devices) <==> Reversible(before, manager.WantsFor(claim)))
  }

  method PrepareTo(manager: ClaimManager, ifNameIndex: nat, claim: ResourceClaim)
    returns (r: Result<seq<PreparedDevice>, PrepareError>)
    requires claim.reservedFor != [] && claim.allocation.Some?
    requires DistinctResults(manager.table.allocatable, claim.allocation.value.results)
    modifies manager.host, manager.cdi, manager.infos, claim.status
    ensures r.Ok? ==>
      Outward(manager, claim, r.value, old(manager.host.slots), manager.host.slots, old(manager.infos.entries),
              manager.infos.entries)
    ensures r.Err? ==> Confined(old(manager.host.slots), manager.host.slots, manager.WantsFor(claim))
    ensures r.Err? ==>
      InfosElsewhere(old(manager.infos.entries), manager.infos.entries,
                     manager.ClaimKeys(claim.allocation.value.results))
    ensures r.Ok? ==> manager.cdi.specs == old(manager.cdi.specs)[ClaimSpec(claim.uid) := manager.SpecOf(r.value)]
    ensures manager.reliable ==> (r.Ok? <==> manager.Preparable(claim))
  {
    ghost var before, entries := manager.host.slots, manager.infos.entries;
    var next;
    r, next := manager.PrepareDevicesForClaim(ifNameIndex, claim);
    if r.Ok? {
      OutwardWhenPrepared(manager, claim, r.value, before, manager.host.slots, entries, manager.infos.entries,
                          ifNameIndex, next);
    }
  }

  lemma OutwardWhenPrepared(manager: ClaimManager, claim: ResourceClaim, devices: seq<PreparedDevice>, before: Slots,
                            bound: Slots, entries: map<InfoKey, DeviceInfo>, written: map<InfoKey, DeviceInfo>,
                            from: nat, next: nat)
    requires claim.reservedFor != [] && claim.allocation.Some?
    requires DistinctResults(manager.table.allocatable, claim.allocation.value.results)
    requires manager.AllPrepared(before, bound, entries, written, claim, devices, from, next)
    ensures Outward(manager, claim, devices, before, bound, entries, written)
  {
    manager.BoundReads(before, bound, claim, devices, from, next);
    manager.OwnedBy(devices, claim);
    OutwardDevices(manager, claim, devices, before, bound);
  }

  lemma OutwardDevices(manager: ClaimManager, claim: ResourceClaim, devices: seq<PreparedDevice>, before: Slots,
                       bound: Slots)
    requires claim.allocation.Some? && DistinctResults(manager.table.allocatable, claim.allocation.value.results)
    requires Prepared(devices, manager.WantsFor(claim)) && Bound(before, bound, manager.host.traits, devices)
    ensures DistinctDevices(devices) && AllBound(before, bound, manager.host.traits, devices)
    ensures Restorable(devices) <==> Reversible(before, manager.WantsFor(claim))
  {
    DistinctFor(manager, claim, devices);
    RestorableFromStart(before, bound, manager.host.traits, devices, manager.WantsFor(claim));
  }

  lemma TripConfined(manager: ClaimManager, claim: ResourceClaim, devices: seq<PreparedDevice>, before: Slots,
                     bound: Slots, now: Slots, entries: map<InfoKey, DeviceInfo>, written: map<InfoKey, DeviceInfo>,
                     left: map<InfoKey, DeviceInfo>)
    requires claim.reservedFor != [] && claim.allocation.Some?
    requires Outward(manager, claim, devices, before, bound, entries, written)
    requires Elsewhere(bound, now, devices) && InfosElsewhere(written, left, InfoKeys(devices))
    ensures Confined(before, now, manager.WantsFor(claim))
    ensures InfosElsewhere(entries, left, manager.ClaimKeys(claim.allocation.value.results))
  {
    ConfinedWhenPrepared(before, bound, now, devices, manager.WantsFor(claim));
    WrittenThenCleaned(entries, written, left, InfoKeys(devices));
  }

  /** The want whose bind failed ends up with its driver exactly if the failure was
      harmless. */
  ghost predicate BackIfHarmless(before: Slots, now: Slots, traits: string -> Traits, w: Want, fault: Step)
  {
    var (s, t) := (SlotAt(before, w.pciAddress), traits(w.pciAddress));
    SlotAt(now, w.pciAddress).driver == BackAs(s, t, w.target).driver <==> Harmless(s, t, w.target, fault)
  }

  /** A prepare that fails in a bind and is rolled back, a second one that succeeds,
      and an unprepare that succeeds: the second prepare takes what the failed bind
      left for the original driver, so the device of that bind is on the driver it
      is to be on exactly if the failure was harmless. */
  method PrepareAgainThenUnprepare(manager: ClaimManager, ifNameIndex: nat, claim: ResourceClaim)
    returns (failed: Option<PrepareError>, prepared: bool, ok: bool)
    requires claim.reservedFor != [] && claim.allocation.Some?
    requires DistinctResults(manager.table.allocatable, claim.allocation.value.results)
    modifies manager.host, manager.cdi, manager.infos, claim.status
    ensures failed.Some? && failed.value.cause.BindFailed? && failed.value.compensated && ok ==>
      && (exists i ::
            0 <= i < |manager.WantsFor(claim)| &&
              manager.WantsFor(claim)[i].pciAddress == failed.value.cause.pciAddress)
      && forall i ::
        0 <= i < |manager.WantsFor(claim)| && manager.WantsFor(claim)[i].pciAddress == failed.value.cause.pciAddress ==>
           BackIfHarmless(old(manager.host.slots), manager.host.slots, manager.host.traits, manager.WantsFor(claim)[i],
                          failed.value.cause.fault)
  {
    ghost var before := manager.host.slots;
    var r, next := manager.PrepareDevicesForClaim(ifNameIndex, claim);
    DistinctEitherWay(manager, claim);
    failed, prepared, ok := if r.Err? then Some(r.error) else None, false, false;
    if r.Ok? {
      return;
    }
    ghost var between := manager.host.slots;
    prepared, ok := PrepareThenUnprepare(manager, next, claim, 1);
    ghost var wants := manager.WantsFor(claim);
    if ok && r.error.cause.BindFailed? && r.error.compensated {
      SecondBindTakes(manager, before, between, manager.host.slots, claim, r.error.cause);
    }
  }

  lemma DistinctEitherWay(manager: ClaimManager, claim: ResourceClaim)
    requires claim.allocation.Some? && DistinctResults(manager.table.allocatable, claim.allocation.value.results)
    ensures DistinctWants(manager.WantsFor(claim))
  {
    SameAddresses(manager.table.allocatable, map[], manager.ConfigsFor(claim), claim.allocation.value.results);
  }

  lemma SecondBindTakes(manager: ClaimManager, before: Slots, between: Slots, now: Slots, claim: ResourceClaim,
                        cause: Cause)
    requires claim.allocation.Some? && DistinctWants(manager.WantsFor(claim)) && cause.BindFailed?
    requires RolledBack(before, between, manager.host.traits, manager.WantsFor(claim), cause)
    requires WantsBackAs(between, now, manager.host.traits, manager.WantsFor(claim))
    ensures exists i :: 0 <= i < |manager.WantsFor(claim)| && manager.WantsFor(claim)[i].pciAddress == cause.pciAddress
    ensures forall i ::
      0 <= i < |manager.WantsFor(claim)| && manager.WantsFor(claim)[i].pciAddress == cause.pciAddress ==>
      BackIfHarmless(before, now, manager.host.traits, manager.WantsFor(claim)[i], cause.fault)
  {
    var wants, traits := manager.WantsFor(claim), manager.host.traits;
    var i :| 0 <= i < |wants| && WantBroken(before, between, traits, wants[i], cause);
    BackAfterBroken(before, between, now, traits, wants[i], cause);
    forall j | 0 <= j < |wants| && wants[j].pciAddress == cause.pciAddress
      ensures BackIfHarmless(before, now, traits, wants[j], cause.fault) {
      assert j == i;
    }
  }

  lemma BackAfterBroken(before: Slots, between: Slots, now: Slots, traits: string -> Traits, w: Want, cause: Cause)
    requires cause.BindFailed? && WantBroken(before, between, traits, w, cause)
    requires SlotAt(now, w.pciAddress) == BackAs(SlotAt(between, w.pciAddress), traits(w.pciAddress), w.target)
    ensures BackIfHarmless(before, now, traits, w, cause.fault)
  {
    RebindAfterFailure(SlotAt(before, w.pciAddress), traits(w.pciAddress), w.target, cause.fault);
  }

  // ---- From discovery to the bind ----------------------------------------------------------

  /** After discovery and any run of reconciles: a claim that is prepared, and that
      names the device of VF `j` of PF `k`, has it at the address of that VF; and a
      VF that no result names is left alone. */
  lemma VFIsPrepared(pfs: seq<Discovery.PFInfo>, vfs: seq<seq<Discovery.VFInfo>>, rdma: string -> bool,
                     sel: PolicyController.Selectors, discovered: Devices, requests: seq<PolicyRuns.Request>,
                     maps: seq<PolicyController.PolicyMap>, worlds: seq<PolicyRuns.World>, i: nat, k: nat, j: nat,
                     manager: ClaimManager, before: Slots, now: Slots, claim: ResourceClaim,
                     devices: seq<PreparedDevice>, n: nat)
    requires Discovery.Discovered(pfs, vfs, rdma, discovered) && k < |pfs| && j < |vfs[k]|
    requires PolicyRuns.Trace(sel, discovered, requests, maps, worlds) && i <= |requests|
    requires manager.table.State() == worlds[i].table
    requires claim.reservedFor != [] && claim.allocation.Some? && n < |claim.allocation.value.results|
    requires manager.OthersKept(before, now, claim) && manager.PreparedByName(before, now, claim, devices)
    ensures Discovery.FiledByAddress(manager.table.allocatable)
    ensures var (r, a) := (claim.allocation.value.results[n], vfs[k][j].pciAddress);
      r.driver == "sriovnetwork.k8snetworkplumbingwg.io" && r.device == Discovery.DeviceName(a) ==>
        manager.PreparedAt(before, now, claim, devices, r, a)
    ensures var a := vfs[k][j].pciAddress;
      (forall r :: r in claim.allocation.value.results ==> r.device != Discovery.DeviceName(a)) ==>
        SlotAt(now, a) == SlotAt(before, a)
  {
    PolicyRuns.TableStaysFiled(pfs, vfs, rdma, sel, discovered, requests, maps, worlds, i);
    Discovery.DiscoveredIsFiled(pfs, vfs, rdma, discovered);
    var (r, a) := (claim.allocation.value.results[n], vfs[k][j].pciAddress);
    if r.driver == DRIVER_NAME && r.device == Discovery.DeviceName(a) { assert Names(r, a); }
    if forall r :: r in claim.allocation.value.results ==> r.device != Discovery.DeviceName(a) {
      assert forall r :: r in claim.allocation.value.results ==> !Names(r, a);
    }
  }
}
