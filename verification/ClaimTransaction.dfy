/** Preparing and unpreparing the devices of one claim: driver binding, device-info
    entries and the claim's CDI spec, with compensation at every failure point. */
module ClaimTransaction {
  import opened Options
  import opened Attributes
  import opened VfConfigs
  import opened Host
  import opened PodManager
  import opened PolicyDevices
  import opened Resources
  import opened InterfaceNames
  import VlanRanges
  import Discovery

  // ---- Stores -------------------------------------------------------------------

  datatype InfoKey = InfoKey(resourceName: string, deviceID: string)

  datatype DeviceInfo = DeviceInfo(pciAddress: string, rdmaDevices: string)

  /** The device-info files. A refused operation changes nothing. */
  class InfoStore {
    var entries: map<InfoKey, DeviceInfo>

    constructor ()
      ensures entries == map[]
    {
      entries := map[];
    }

    method CleanDeviceInfoForDP(key: InfoKey, refused: bool) returns (ok: bool)
      modifies this
      ensures ok == !refused
      ensures entries == if refused then old(entries) else old(entries) - {key}
    {
      if !refused {
        entries := entries - {key};
      }
      ok := !refused;
    }

    method SaveDeviceInfoForDP(key: InfoKey, info: DeviceInfo, refused: bool) returns (ok: bool)
      modifies this
      ensures ok == !refused
      ensures entries == if refused then old(entries) else old(entries)[key := info]
    {
      if !refused {
        entries := entries[key := info];
      }
      ok := !refused;
    }
  }

  /** Spec files are named by claim or pod UID; the two never meet. */
  datatype SpecName = ClaimSpec(uid: string) | PodSpec(uid: string)

  /** The CDI directory; removing a spec that is not there succeeds. */
  class CdiDirectory {
    var specs: map<SpecName, seq<string>>

    constructor ()
      ensures specs == map[]
    {
      specs := map[];
    }

    method WriteSpec(name: SpecName, spec: seq<string>, refused: bool) returns (ok: bool)
      modifies this
      ensures ok == !refused
      ensures specs == if refused then old(specs) else old(specs)[name := spec]
    {
      if !refused {
        specs := specs[name := spec];
      }
      ok := !refused;
    }

    method DeleteSpecFile(name: SpecName, refused: bool) returns (ok: bool)
      modifies this
      ensures ok == !refused
      ensures specs == if refused then old(specs) else old(specs) - {name}
    {
      if !refused {
        specs := specs - {name};
      }
      ok := !refused;
    }
  }

  // ---- What a claim asks for --------------------------------------------------------

  /** A device to prepare: its PCI address, and the driver it is to be bound to. */
  datatype Want = Want(pciAddress: string, target: string)

  function SettingsOf(configs: map<string, Settings>, request: string): Settings
  {
    if request in configs then configs[request] else DEFAULT
  }

  function PciOf(d: Device): string
  {
    match StringAttribute(d, PciAddress)
    case Some(pci) => pci
    case None => ""
  }

  /** The devices that the results name, other drivers' results left out. */
  function WantsOf(devices: Devices, configs: map<string, Settings>, results: seq<AllocationResult>): seq<Want>
  {
    if results == [] then []
    else
      var last := results[|results| - 1];
      WantsOf(devices, configs, results[..|results| - 1]) +
        if last.driver == DRIVER_NAME && last.device in devices
        then [Want(PciOf(devices[last.device]), SettingsOf(configs, last.request).driver)] else []
  }

  /** The results of this driver. */
  function OursOf(results: seq<AllocationResult>): seq<AllocationResult>
  {
    if results == [] then []
    else
      var last := results[|results| - 1];
      OursOf(results[..|results| - 1]) + if last.driver == DRIVER_NAME then [last] else []
  }

  /** The interface names that the configs of this driver's results give. */
  function ConfiguredOf(configs: map<string, Settings>, results: seq<AllocationResult>): seq<string>
  {
    if results == [] then []
    else
      var last := results[|results| - 1];
      ConfiguredOf(configs, results[..|results| - 1]) + if last.driver == DRIVER_NAME
                                                        then [SettingsOf(configs, last.request).ifName] else []
  }

  /** The device-info key of a device, if it has the Multus pair. */
  function KeyOfDevice(d: Device): Option<InfoKey>
  {
    var pair := MultusPair(d);
    if pair.0 == "" || pair.1 == "" then None else Some(InfoKey(pair.0, pair.1))
  }

  /** Every device with a device-info key has an address. */
  predicate AddressedResults(devices: Devices, results: seq<AllocationResult>)
  {
    forall r :: r in OursOf(results) && r.device in devices && KeyOfDevice(devices[r.device]).Some? ==>
      PciOf(devices[r.device]) != ""
  }

  /** Every result of this driver names a known device and a driver that can be
      bound. */
  predicate Feasible(devices: Devices, configs: map<string, Settings>, results: seq<AllocationResult>)
  {
    forall r :: r in results && r.driver == DRIVER_NAME ==>
      r.device in devices && !Unsupported(SettingsOf(configs, r.request).driver)
  }

  ghost predicate DistinctWants(wants: seq<Want>)
  {
    forall i, j :: 0 <= i < j < |wants| ==> wants[i].pciAddress != wants[j].pciAddress
  }

  /** `devices` are prepared for `wants`, one by one. */
  ghost predicate Prepared(devices: seq<PreparedDevice>, wants: seq<Want>)
  {
    && |devices| == |wants|
    && forall i :: 0 <= i < |wants| ==>
      devices[i].info.pciAddress == wants[i].pciAddress && devices[i].info.settings.driver == wants[i].target
  }

  ghost predicate DistinctDevices(devices: seq<PreparedDevice>)
  {
    forall i, j :: 0 <= i < j < |devices| ==> devices[i].info.pciAddress != devices[j].info.pciAddress
  }

  // ---- What happens to one device ---------------------------------------------------

  /** A successful bind of a device in state `s` to `target` leaves `now`. */
  predicate BoundTo(s: Slot, t: Traits, now: Slot, target: string, original: string)
  {
    now == BoundSlot(s, t, target) && original == if target == "" then "" else s.driver
  }

  // ---- What happens to the host -------------------------------------------------------

  type Slots = map<string, Slot>

  /** Only the claim's devices are touched. */
  ghost predicate Elsewhere(before: Slots, now: Slots, devices: seq<PreparedDevice>)
  {
    forall d :: (forall i :: 0 <= i < |devices| ==> devices[i].info.pciAddress != d) ==>
      SlotAt(now, d) == SlotAt(before, d)
  }

  /** No device but those that are asked for is touched. */
  ghost predicate Confined(before: Slots, now: Slots, wants: seq<Want>)
  {
    forall d :: (forall i :: 0 <= i < |wants| ==> wants[i].pciAddress != d) ==> SlotAt(now, d) == SlotAt(before, d)
  }

  ghost predicate AllBound(before: Slots, now: Slots, traits: string -> Traits, devices: seq<PreparedDevice>)
  {
    forall i :: 0 <= i < |devices| ==>
      var info := devices[i].info;
      BoundTo(SlotAt(before, info.pciAddress), traits(info.pciAddress), SlotAt(now, info.pciAddress),
              info.settings.driver, info.originalDriver)
  }

  /** The first `n` devices are restored, those without a configured driver left
      alone. */
  ghost predicate Restored(before: Slots, now: Slots, traits: string -> Traits, devices: seq<PreparedDevice>, n: nat)
    requires n <= |devices|
  {
    forall i :: 0 <= i < n ==>
      var info := devices[i].info;
      if info.settings.driver == "" then SlotAt(now, info.pciAddress) == SlotAt(before, info.pciAddress)
      else SlotAt(now, info.pciAddress) == Landed(SlotAt(before, info.pciAddress), traits(info.pciAddress),
                                                  info.originalDriver)
  }

  /** A bind to `target` broke off at `fault`. */
  predicate BrokenOff(s: Slot, t: Traits, now: Slot, target: string, fault: Step)
  {
    Breaks(s, target, fault) && now == BrokenBind(s, t, target, fault)
  }

  /** What a failed prepare leaves of a device it was to bind: it is put back, or
      broken off in the bind that failed. */
  predicate LeftAs(s: Slot, t: Traits, now: Slot, pci: string, target: string, cause: Cause)
  {
    now == BackAs(s, t, target) ||
      (cause.BindFailed? && cause.pciAddress == pci && BrokenOff(s, t, now, target, cause.fault))
  }

  /** What a failed prepare leaves of each device. A bind that was refused halfway
      is not compensated, and leaves its device where it broke off; every other
      device is as before or put back. */
  ghost predicate RolledBack(before: Slots, now: Slots, traits: string -> Traits, wants: seq<Want>, cause: Cause)
  {
    && (forall d :: SlotAt(now, d) == SlotAt(before, d) || LeftBy(before, now, traits, wants, cause, d))
    && (cause.BindFailed? ==> exists i :: 0 <= i < |wants| && WantBroken(before, now, traits, wants[i], cause))
  }

  ghost predicate LeftBy(before: Slots, now: Slots, traits: string -> Traits, wants: seq<Want>, cause: Cause, d: string)
  {
    exists i ::
      0 <= i < |wants| && wants[i].pciAddress == d &&
        LeftAs(SlotAt(before, d), traits(d), SlotAt(now, d), d, wants[i].target, cause)
  }

  /** The bind of `w` is the one that failed. */
  predicate WantBroken(before: Slots, now: Slots, traits: string -> Traits, w: Want, cause: Cause)
    requires cause.BindFailed?
  {
    var pci := w.pciAddress;
    pci == cause.pciAddress && BrokenOff(SlotAt(before, pci), traits(pci), SlotAt(now, pci), w.target, cause.fault)
  }

  lemma UndoAll(before: Slots, bound: Slots, now: Slots, traits: string -> Traits, devices: seq<PreparedDevice>,
                wants: seq<Want>, cause: Cause)
    requires Prepared(devices, wants) && AllBound(before, bound, traits, devices)
    requires Elsewhere(bound, now, devices) && Restored(bound, now, traits, devices, |devices|)
    requires Elsewhere(before, bound, devices) && !cause.BindFailed?
    ensures RolledBack(before, now, traits, wants, cause)
  {
    forall d
      ensures SlotAt(now, d) == SlotAt(before, d) || LeftBy(before, now, traits, wants, cause, d)
    {
      if i :| 0 <= i < |devices| && devices[i].info.pciAddress == d {
        var info := devices[i].info;
        if info.settings.driver != "" {
          LandedBack(SlotAt(before, d), traits(d), info.settings.driver);
        }
        assert wants[i].pciAddress == d &&
          LeftAs(SlotAt(before, d), traits(d), SlotAt(now, d), d, wants[i].target, cause);
      }
    }
  }

  /** What a failure while preparing the device at `pci` leaves of it, once it is
      compensated: a bind that failed leaves it where it broke off, a later failure
      puts it back, an earlier one has not touched it. */
  predicate FailedAt(s: Slot, t: Traits, now: Slot, pci: string, target: string, cause: Cause)
  {
    match cause
    case BindFailed(d, fault) => d == pci && BrokenOff(s, t, now, target, fault)
    case VhostFailed => now == BackAs(s, t, target)
    case VfioFailed => now == BackAs(s, t, target)
    case RdmaFailed => now == BackAs(s, t, target)
    case _ => now == s
  }

  lemma {:induction false} WantsPrefix(devices: Devices, configs: map<string, Settings>, results: seq<AllocationResult>,
                                       k: nat)
    requires k <= |results|
    ensures WantsOf(devices, configs, results[..k]) <= WantsOf(devices, configs, results)
    decreases |results| - k
  {
    if k == |results| {
      assert results[..k] == results;
    } else {
      WantsPrefix(devices, configs, results, k + 1);
      assert results[..k + 1][..k] == results[..k];
    }
  }

  /** The devices are bound, if no two share an address, and no other is touched. */
  ghost predicate Bound(before: Slots, now: Slots, traits: string -> Traits, devices: seq<PreparedDevice>)
  {
    Elsewhere(before, now, devices) && (DistinctDevices(devices) ==> AllBound(before, now, traits, devices))
  }

  /** `failing` is the want that a failure touched, going from `was` to `failed`. */
  ghost predicate FailedOn(was: Slots, failed: Slots, traits: string -> Traits, failing: Option<Want>, cause: Cause)
  {
    if failing.None? then failed == was && !cause.BindFailed?
    else
      var pci := failing.value.pciAddress;
      Only(pci, was, failed) &&
        FailedAt(SlotAt(was, pci), traits(pci), SlotAt(failed, pci), pci, failing.value.target, cause)
  }

  lemma BindOneMore(before: Slots, was: Slots, now: Slots, traits: string -> Traits, devices: seq<PreparedDevice>,
                    d: PreparedDevice)
    requires Bound(before, was, traits, devices) && Only(d.info.pciAddress, was, now)
    requires BoundTo(SlotAt(was, d.info.pciAddress), traits(d.info.pciAddress), SlotAt(now, d.info.pciAddress),
                     d.info.settings.driver, d.info.originalDriver)
    ensures Bound(before, now, traits, devices + [d])
  {
    var all := devices + [d];
    forall x | forall i :: 0 <= i < |all| ==> all[i].info.pciAddress != x ensures SlotAt(now, x) == SlotAt(before, x) {
      assert all[|devices|] == d;
      forall i | 0 <= i < |devices| ensures devices[i].info.pciAddress != x { assert all[i] == devices[i]; }
    }
    if DistinctDevices(all) {
      forall i, j | 0 <= i < j < |devices| ensures devices[i].info.pciAddress != devices[j].info.pciAddress {
        assert all[i] == devices[i] && all[j] == devices[j];
      }
      forall i | 0 <= i < |devices| ensures devices[i].info.pciAddress != d.info.pciAddress {
        assert all[i] == devices[i] && all[|devices|] == d;
      }
      assert SlotAt(was, d.info.pciAddress) == SlotAt(before, d.info.pciAddress);
      forall i | 0 <= i < |all|
        ensures var info := all[i].info;
          BoundTo(SlotAt(before, info.pciAddress), traits(info.pciAddress), SlotAt(now, info.pciAddress),
                  info.settings.driver, info.originalDriver)
      {
        assert all[|devices|] == d;
        if i < |devices| {
          assert all[i] == devices[i] && SlotAt(now, all[i].info.pciAddress) == SlotAt(was, all[i].info.pciAddress);
        }
      }
    }
  }

  /** A device that was bound before the failure is put back. */
  lemma EarlierIsBack(before: Slots, was: Slots, failed: Slots, now: Slots, traits: string -> Traits,
                      devices: seq<PreparedDevice>, wants: seq<Want>, failing: Option<Want>, cause: Cause, i: nat)
    requires DistinctWants(wants) && |devices| <= |wants| && Prepared(devices, wants[..|devices|])
    requires DistinctDevices(devices)
    requires Bound(before, was, traits, devices) && FailedOn(was, failed, traits, failing, cause)
    requires failing.Some? ==> |devices| < |wants| && wants[|devices|] == failing.value
    requires Restored(failed, now, traits, devices, |devices|) && i < |devices|
    ensures LeftBy(before, now, traits, wants, cause, devices[i].info.pciAddress)
  {
    var info := devices[i].info;
    var pci := info.pciAddress;
    assert wants[..|devices|][i] == wants[i] && wants[i].pciAddress == pci;
    assert SlotAt(failed, pci) == SlotAt(was, pci);
    if info.settings.driver != "" { LandedBack(SlotAt(before, pci), traits(pci), info.settings.driver); }
    assert LeftAs(SlotAt(before, pci), traits(pci), SlotAt(now, pci), pci, wants[i].target, cause);
  }

  /** A failure at one device, after the devices before it were bound: when they
      are restored, everything is rolled back. `failing` is the device the
      failure touched, if any. */
  lemma UndoAfterFailure(before: Slots, was: Slots, failed: Slots, now: Slots, traits: string -> Traits,
                         devices: seq<PreparedDevice>, wants: seq<Want>, failing: Option<Want>, cause: Cause)
    requires DistinctWants(wants) && |devices| <= |wants| && Prepared(devices, wants[..|devices|])
    requires Bound(before, was, traits, devices) && FailedOn(was, failed, traits, failing, cause)
    requires failing.Some? ==> |devices| < |wants| && wants[|devices|] == failing.value
    requires Elsewhere(failed, now, devices)
    requires DistinctDevices(devices) ==> Restored(failed, now, traits, devices, |devices|)
    ensures RolledBack(before, now, traits, wants, cause)
  {
    var n := |devices|;
    assert forall i :: 0 <= i < n ==> wants[..n][i] == wants[i];
    assert DistinctDevices(devices);
    forall d
      ensures SlotAt(now, d) == SlotAt(before, d) || LeftBy(before, now, traits, wants, cause, d)
    {
      if i :| 0 <= i < n && devices[i].info.pciAddress == d {
        EarlierIsBack(before, was, failed, now, traits, devices, wants, failing, cause, i);
      } else if failing.Some? && failing.value.pciAddress == d {
        assert SlotAt(was, d) == SlotAt(before, d) && SlotAt(now, d) == SlotAt(failed, d);
        assert wants[n].pciAddress == d &&
          (SlotAt(now, d) == SlotAt(before, d) ||
           LeftAs(SlotAt(before, d), traits(d), SlotAt(now, d), d, wants[n].target, cause));
      }
    }
    if cause.BindFailed? { assert WantBroken(before, now, traits, wants[n], cause); }
  }

  lemma ConfinedAfterFailure(before: Slots, was: Slots, failed: Slots, now: Slots, devices: seq<PreparedDevice>,
                             wants: seq<Want>, failing: Option<Want>)
    requires |devices| <= |wants| && Prepared(devices, wants[..|devices|])
    requires Elsewhere(before, was, devices) && Elsewhere(failed, now, devices)
    requires failing.Some? ==> |devices| < |wants| && wants[|devices|] == failing.value
    requires if failing.None? then failed == was else Only(failing.value.pciAddress, was, failed)
    ensures Confined(before, now, wants)
  {
    forall d | forall i :: 0 <= i < |wants| ==> wants[i].pciAddress != d ensures SlotAt(now, d) == SlotAt(before, d) {
      forall i | 0 <= i < |devices| ensures devices[i].info.pciAddress != d {
        assert wants[..|devices|][i] == wants[i];
      }
    }
  }

  lemma ConfinedWhenPrepared(before: Slots, was: Slots, now: Slots, devices: seq<PreparedDevice>, wants: seq<Want>)
    requires Prepared(devices, wants) && Elsewhere(before, was, devices) && Elsewhere(was, now, devices)
    ensures Confined(before, now, wants)
  {
    assert wants[..|devices|] == wants;
    ConfinedAfterFailure(before, was, was, now, devices, wants, None);
  }

  /** The devices are new objects. */
  twostate predicate AllNew(new devices: seq<PreparedDevice>)
  {
    forall d :: d in devices ==> fresh(d)
  }

  twostate lemma AllNewNext(new devices: seq<PreparedDevice>, new d: PreparedDevice)
    requires AllNew(devices) && fresh(d)
    ensures AllNew(devices + [d])
  {
  }

  // ---- The manager ----------------------------------------------------------------------

  datatype Cause =
    | BadConfig(error: ConfigError)
    | DeviceNotFound(device: string)
    | NetAttachDefFailed
    | BindFailed(pciAddress: string, fault: Step)
    | VhostFailed
    | VfioFailed
    | RdmaFailed
    | NothingPrepared
    | DeviceInfoFailed
    | SpecFailed

  /** The failures after which device-info files may have been written. */
  predicate FilesTouched(cause: Cause) { cause.DeviceInfoFailed? || cause.SpecFailed? }

  /** The failures of a single device. */
  predicate OfDevice(cause: Cause) { !FilesTouched(cause) && !cause.NothingPrepared? && !cause.BadConfig? }

  /** `compensated` is false when some restore or cleanup failed as well. */
  datatype PrepareError = PrepareError(cause: Cause, compensated: bool)

  /** The device-info key of a prepared device, if it has both parts. */
  function InfoKeyOf(info: PreparedInfo): Option<InfoKey>
  {
    if info.multusResourceName == "" || info.multusDeviceID == "" then None
    else Some(InfoKey(info.multusResourceName, info.multusDeviceID))
  }

  ghost function InfoKeys(devices: seq<PreparedDevice>): set<InfoKey>
  {
    set i | 0 <= i < |devices| && InfoKeyOf(devices[i].info).Some? :: InfoKeyOf(devices[i].info).value
  }

  /** The Multus pair of a device: both attributes, neither empty. */
  function MultusPair(d: Device): (string, string)
  {
    match (StringAttribute(d, MultusResourceName), StringAttribute(d, MultusDeviceID))
    case (Some(name), Some(id)) => if name != "" && id != "" then (name, id) else ("", "")
    case _ => ("", "")
  }

  /** The rest of the environment: the decoder of opaque parameters, the JSON of
      the settings, the RDMA devices of a PCI address, and the netconf that a
      device's attachment comes to. */
  datatype Surroundings = Surroundings(decode: string -> Decoded, marshal: Settings -> string,
                                       rdmaDevices: string -> string, netConf: (string, string, string) -> string)

  class ClaimManager {
    const table: Manager
    const host: Host
    const cdi: CdiDirectory
    const infos: InfoStore
    const multus: bool
    const interfacePrefix: string
    const outside: Surroundings
    /** With this set no operation of the environment is ever refused. */
    const reliable: bool

    constructor (table: Manager, host: Host, cdi: CdiDirectory, infos: InfoStore, multus: bool, interfacePrefix: string,
                 outside: Surroundings, reliable: bool)
      ensures this.table == table && this.host == host && this.cdi == cdi && this.infos == infos
      ensures this.multus == multus && this.interfacePrefix == interfacePrefix && this.outside == outside
      ensures this.reliable == reliable
    {
      this.table, this.host, this.cdi, this.infos := table, host, cdi, infos;
      this.multus, this.interfacePrefix, this.outside, this.reliable := multus, interfacePrefix, outside, reliable;
    }

    /** Whether the environment refuses the next operation. */
    method Refusal() returns (refused: bool)
      ensures reliable ==> !refused
    {
      refused := *;
      if reliable {
        refused := false;
      }
    }

    /** The system call that the kernel refuses in the next driver operation. */
    method RefusedStep() returns (at: Step)
      ensures reliable ==> at == Never
    {
      at := *;
      if reliable {
        at := Never;
      }
    }

    // ---- Undoing ------------------------------------------------------------------

    /** Restores the devices in order and stops at the first that fails. */
    method UnprepareDevices(devices: seq<PreparedDevice>) returns (ok: bool)
      modifies host
      ensures Elsewhere(old(host.slots), host.slots, devices)
      ensures ok && DistinctDevices(devices) ==> Restored(old(host.slots), host.slots, host.traits, devices, |devices|)
      ensures DistinctDevices(devices) ==> StillUndoable(old(host.slots), host.slots, host.traits, devices)
      ensures reliable ==> (ok <==> Restorable(devices))
    {
      ghost var before := host.slots;
      for n := 0 to |devices|
        invariant Halfway(before, host.slots, host.traits, devices, n)
        invariant reliable ==> Restorable(devices[..n])
      {
        assert devices[..n + 1] == devices[..n] + [devices[n]];
        var restored := RestoreNext(devices, n, before);
        if !restored {
          assert devices[n] in devices;
          return false;
        }
      }
      assert devices[..|devices|] == devices;
      AllRestoredUndoable(before, host.slots, host.traits, devices);
      ok := true;
    }

    /** Restores the next device, unless it has no configured driver. */
    method RestoreNext(devices: seq<PreparedDevice>, n: nat, ghost before: Slots) returns (ok: bool)
      requires n < |devices| && Halfway(before, host.slots, host.traits, devices, n)
      modifies host
      ensures ok ==> Halfway(before, host.slots, host.traits, devices, n + 1)
      ensures Elsewhere(before, host.slots, devices)
      ensures !ok && DistinctDevices(devices) ==> StillUndoable(before, host.slots, host.traits, devices)
      ensures reliable ==>
        (ok <==> devices[n].info.settings.driver == "" || !Unsupported(devices[n].info.originalDriver))
    {
      var info := devices[n].info;
      if info.settings.driver == "" {
        return true;
      }
      var at := RefusedStep();
      ghost var s, modules, was := host.At(info.pciAddress), host.modules, host.slots;
      ok := host.RestoreDeviceDriver(info.pciAddress, info.originalDriver, at);
      if reliable { RestorePossible(s, host.traits(info.pciAddress), modules, info.originalDriver); }
      if ok {
        RestoreEnds(s, host.traits(info.pciAddress), modules, info.originalDriver, at);
        OneMoreRestored(before, was, host.slots, host.traits, devices, n);
      } else {
        RestoreAttempts(s, host.traits(info.pciAddress), modules, info.originalDriver, at);
        BrokenOffUndoable(before, was, host.slots, host.traits, devices, n);
      }
    }

    /** Removes the device-info entries, going on after a failure. */
    method CleanDeviceInfoFiles(devices: seq<PreparedDevice>) returns (ok: bool)
      modifies infos
      ensures InfosElsewhere(old(infos.entries), infos.entries, InfoKeys(devices))
      ensures infos.entries.Keys <= old(infos.entries).Keys
      ensures ok ==> infos.entries == old(infos.entries) - InfoKeys(devices)
      ensures reliable ==> ok
    {
      ghost var before := infos.entries;
      ok := true;
      for n := 0 to |devices|
        invariant InfosElsewhere(before, infos.entries, InfoKeys(devices[..n]))
        invariant infos.entries.Keys <= before.Keys
        invariant ok ==> infos.entries.Keys == before.Keys - InfoKeys(devices[..n])
        invariant reliable ==> ok
      {
        InfoKeysNext(devices, n);
        var key := InfoKeyOf(devices[n].info);
        if key.Some? {
          var refused := Refusal();
          var cleaned := infos.CleanDeviceInfoForDP(key.value, refused);
          if !cleaned {
            ok := false;
          }
        }
      }
      assert devices[..|devices|] == devices;
    }

    method CleanDeviceInfoFilesIfNeeded(devices: seq<PreparedDevice>) returns (ok: bool)
      modifies infos
      ensures InfosElsewhere(old(infos.entries), infos.entries, InfoKeys(devices))
      ensures infos.entries.Keys <= old(infos.entries).Keys
      ensures ok ==> infos.entries == if multus then old(infos.entries) - InfoKeys(devices) else old(infos.entries)
      ensures !multus ==> infos.entries == old(infos.entries)
      ensures reliable ==> ok
    {
      if !multus {
        return true;
      }
      ok := CleanDeviceInfoFiles(devices);
    }

    method SaveDeviceInfo(info: PreparedInfo, key: InfoKey) returns (ok: bool)
      modifies infos
      ensures InfosElsewhere(old(infos.entries), infos.entries, {key})
      ensures ok ==> infos.entries == old(infos.entries)[key := InfoOf(info)] && info.pciAddress != ""
      ensures reliable ==> (ok <==> info.pciAddress != "")
    {
      if info.pciAddress == "" {
        return false;
      }
      var refused := Refusal();
      ok := infos.CleanDeviceInfoForDP(key, refused);
      if !ok {
        return;
      }
      refused := Refusal();
      ok := infos.SaveDeviceInfoForDP(key, InfoOf(info), refused);
    }

    function InfoOf(info: PreparedInfo): DeviceInfo
    {
      DeviceInfo(info.pciAddress, outside.rdmaDevices(info.pciAddress))
    }

    /** Writes the device-info entries, going on after a failure. */
    method SyncDeviceInfoFiles(devices: seq<PreparedDevice>) returns (ok: bool)
      modifies infos
      ensures InfosElsewhere(old(infos.entries), infos.entries, InfoKeys(devices))
      ensures ok ==>
        Addressed(devices) && forall i :: 0 <= i < |devices| ==> Written(devices, |devices|, i, infos.entries)
      ensures reliable ==> (ok <==> Addressed(devices))
    {
      ghost var before := infos.entries;
      ok := true;
      for n := 0 to |devices|
        invariant InfosElsewhere(before, infos.entries, InfoKeys(devices[..n]))
        invariant ok ==> forall i :: 0 <= i < n ==> Written(devices, n, i, infos.entries)
        invariant ok ==> Addressed(devices[..n])
        invariant reliable ==> (ok <==> Addressed(devices[..n]))
      {
        InfoKeysNext(devices, n);
        assert devices[..n + 1] == devices[..n] + [devices[n]];
        var key := InfoKeyOf(devices[n].info);
        ghost var was := infos.entries;
        if key.Some? {
          var saved := SaveDeviceInfo(devices[n].info, key.value);
          if !saved {
            ok := false;
          }
        }
        if ok {
          ghost var next := n + 1;
          forall i | 0 <= i < next ensures Written(devices, next, i, infos.entries) {
            if i < n {
              assert Written(devices, n, i, was);
              assert InfoKeyOf(devices[i].info) == key || InfoKeyOf(devices[i].info).None? ||
                (InfoKeyOf(devices[i].info).value in infos.entries <==> InfoKeyOf(devices[i].info).value in was);
            }
          }
        }
      }
      assert devices[..|devices|] == devices;
    }

    /** Removes the device-info entries, restores the drivers, and removes the
        claim's and the pod's specs; every part is tried even if another fails. */
    method Unprepare(claimUID: string, devices: seq<PreparedDevice>) returns (ok: bool)
      modifies host, cdi, infos
      ensures Elsewhere(old(host.slots), host.slots, devices)
      ensures InfosElsewhere(old(infos.entries), infos.entries, InfoKeys(devices))
      ensures SpecsElsewhere(old(cdi.specs), cdi.specs, SpecsOf(claimUID, devices))
      ensures DistinctDevices(devices) ==> StillUndoable(old(host.slots), host.slots, host.traits, devices)
      ensures ok && DistinctDevices(devices) ==> Restored(old(host.slots), host.slots, host.traits, devices, |devices|)
      ensures ok ==> infos.entries == if multus then old(infos.entries) - InfoKeys(devices) else old(infos.entries)
      ensures !multus ==> infos.entries == old(infos.entries)
      ensures ok ==> cdi.specs == old(cdi.specs) - SpecsOf(claimUID, devices)
      ensures reliable ==> (ok <==> Restorable(devices))
    {
      var cleaned := CleanDeviceInfoFilesIfNeeded(devices);
      var restored := UnprepareDevices(devices);
      var refused := Refusal();
      var claimDeleted := cdi.DeleteSpecFile(ClaimSpec(claimUID), refused);
      var podDeleted := true;
      if |devices| > 0 {
        refused := Refusal();
        podDeleted := cdi.DeleteSpecFile(PodSpec(devices[0].info.podUID), refused);
      }
      ok := cleaned && restored && claimDeleted && podDeleted;
    }

    // ---- Preparing ------------------------------------------------------------------

    /** After a failure past the bind: the original driver is restored if one was
        configured. */
    method RestoreDriverOnError(pciAddress: string, settings: Settings, originalDriver: string) returns (ok: bool)
      modifies host
      ensures Only(pciAddress, old(host.slots), host.slots)
      ensures settings.driver == "" ==> ok && host.slots == old(host.slots)
      ensures settings.driver != "" && ok ==>
        host.At(pciAddress) == Landed(old(host.At(pciAddress)), host.traits(pciAddress), originalDriver)
    {
      if settings.driver == "" {
        return true;
      }
      var at := RefusedStep();
      ghost var s, modules := host.At(pciAddress), host.modules;
      ok := host.RestoreDeviceDriver(pciAddress, originalDriver, at);
      if ok { RestoreEnds(s, host.traits(pciAddress), modules, originalDriver, at); }
    }

    /** The host part of preparing a device: the bind, then the modules and device
        nodes it needs, with the restore if one of them fails. */
    method BindAndEquip(pciAddress: string, settings: Settings, rdmaCapable: bool)
      returns (r: Result<string, PrepareError>)
      modifies host
      ensures Only(pciAddress, old(host.slots), host.slots)
      ensures r.Ok? ==>
        BoundTo(old(host.At(pciAddress)), host.traits(pciAddress), host.At(pciAddress), settings.driver, r.value)
      ensures r.Err? && r.error.compensated ==>
        FailedAt(old(host.At(pciAddress)), host.traits(pciAddress), host.At(pciAddress), pciAddress, settings.driver,
                 r.error.cause)
      ensures r.Err? ==> OfDevice(r.error.cause) && (r.error.cause.VhostFailed? ==> settings.addVhostMount)
      ensures r.Ok? ==> !Unsupported(settings.driver)
      ensures reliable ==> (r.Ok? <==> !Unsupported(settings.driver))
      ensures r.Err? && r.error.cause.VfioFailed? ==> settings.driver == "vfio-pci"
      ensures r.Err? && r.error.cause.RdmaFailed? ==> rdmaCapable
    {
      var at := RefusedStep();
      var fault := FaultOf(host.modules, settings.driver, at);
      ghost var t, s, modules := host.traits(pciAddress), host.At(pciAddress), host.modules;
      var bound := host.BindDeviceDriver(pciAddress, settings.driver, at);
      if reliable { RestorePossible(s, t, modules, settings.driver); }
      if bound.None? {
        FailedBindLeaves(s, t, modules, settings.driver, at);
        return Err(PrepareError(BindFailed(pciAddress, fault), true));
      }
      var originalDriver := bound.value;
      BindEnds(s, t, modules, settings.driver, at);
      ghost var now := host.At(pciAddress);
      var cause := None;
      if settings.addVhostMount {
        var refused := Refusal();
        if refused {
          cause := Some(VhostFailed);
        }
      }
      if cause.None? && settings.driver == "vfio-pci" {
        var refused := Refusal();
        if refused {
          cause := Some(VfioFailed);
        }
      }
      if cause.None? && rdmaCapable {
        var refused := Refusal();
        if refused {
          cause := Some(RdmaFailed);
        }
      }
      if cause.Some? {
        var restored := RestoreDriverOnError(pciAddress, settings, originalDriver);
        if restored && settings.driver != "" {
          LandedBack(s, t, settings.driver);
        }
        return Err(PrepareError(cause.value, restored));
      }
      r := Ok(originalDriver);
    }

    /** Prepares one allocated device. */
    method ApplyConfigOnDevice(ifNameIndex: nat, claim: ResourceClaim, settings: Settings, result: AllocationResult)
      returns (r: Result<PreparedDevice, PrepareError>, ifNameIndex': nat)
      requires claim.reservedFor != []
      modifies host
      ensures r.Ok? ==>
        fresh(r.value) && r.value.networkData == None && IsPrepared(r.value.info, ifNameIndex, claim, settings, result)
      ensures r.Ok? ==> BoundTo(SlotAt(old(host.slots), r.value.info.pciAddress), host.traits(r.value.info.pciAddress),
        SlotAt(host.slots, r.value.info.pciAddress), settings.driver, r.value.info.originalDriver)
      ensures ifNameIndex' == if r.Ok? && !multus && settings.ifName == "" then ifNameIndex + 1 else ifNameIndex
      ensures if result.device in table.allocatable
        then Only(PciOf(table.allocatable[result.device]), old(host.slots), host.slots)
        else r.Err? && r.error.cause == DeviceNotFound(result.device) && host.slots == old(host.slots)
      ensures r.Err? && result.device in table.allocatable && r.error.compensated ==>
        var pci := PciOf(table.allocatable[result.device]);
        FailedAt(SlotAt(old(host.slots), pci), host.traits(pci), SlotAt(host.slots, pci), pci, settings.driver,
                 r.error.cause)
      ensures r.Err? ==> OfDevice(r.error.cause) && (r.error.cause.VhostFailed? ==> settings.addVhostMount)
      ensures r.Ok? ==> !Unsupported(settings.driver)
      ensures reliable ==> (r.Ok? <==> result.device in table.allocatable && !Unsupported(settings.driver))
    {
      ifNameIndex' := ifNameIndex;
      if result.device !in table.allocatable {
        return Err(PrepareError(DeviceNotFound(result.device), true)), ifNameIndex;
      }
      var deviceInfo := table.allocatable[result.device];
      var multusResourceName, multusDeviceID := "", "";
      if multus {
        var pair := MultusPair(deviceInfo);
        multusResourceName, multusDeviceID := pair.0, pair.1;
      }
      var pciAddress := PciOf(deviceInfo);
      var netConf := "";
      if !multus {
        var namespace := if settings.netAttachDefNamespace != "" then settings.netAttachDefNamespace
                         else claim.namespace;
        var refused := Refusal();
        if refused {
          return Err(PrepareError(NetAttachDefFailed, true)), ifNameIndex;
        }
        netConf := outside.netConf(namespace, settings.netAttachDefName, pciAddress);
      }
      var bound := BindAndEquip(pciAddress, settings, Lookup(deviceInfo.attributes, RDMACapable) == Some(Flag(true)));
      if bound.Err? {
        return Err(bound.error), ifNameIndex;
      }
      var ifName := settings.ifName;
      if !multus && ifName == "" {
        ifName := Generated(interfacePrefix, ifNameIndex);
        ifNameIndex' := ifNameIndex + 1;
      }
      var attributes := if ifName == "" then deviceInfo.attributes
                        else deviceInfo.attributes[InterfaceName := Str(ifName)];
      var info := PreparedInfo(
        claim.uid, claim.namespace, claim.name, claim.reservedFor[0],
        [result.request], result.pool, result.device, [claim.uid + "-" + result.device, claim.reservedFor[0]],
        settings, ifName, pciAddress, multusDeviceID, multusResourceName,
        attributes, netConf, bound.value);
      var device := new PreparedDevice(info, None);
      r := Ok(device);
    }

    /** What a prepared device records of its claim, its result and its device,
        apart from its interface name. */
    ghost predicate Describes(info: PreparedInfo, claim: ResourceClaim, settings: Settings, result: AllocationResult)
      requires claim.reservedFor != []
      reads table
    {
      && result.device in table.allocatable
      && info.claimUID == claim.uid && info.claimNamespace == claim.namespace && info.claimName == claim.name
      && info.podUID == claim.reservedFor[0]
      && info.requests == [result.request] && info.pool == result.pool && info.device == result.device
      && info.cdiDeviceIDs == [claim.uid + "-" + result.device, claim.reservedFor[0]]
      && info.settings == settings
      && info.netAttachDefConfig == (if multus then ""
           else outside.netConf(if settings.netAttachDefNamespace != "" then settings.netAttachDefNamespace
                                else claim.namespace,
                                settings.netAttachDefName, PciOf(table.allocatable[result.device])))
      && info.pciAddress == PciOf(table.allocatable[result.device])
      && (info.multusResourceName, info.multusDeviceID) == (if multus then MultusPair(table.allocatable[result.device])
                                                            else ("", ""))
      && info.attributes - {InterfaceName} == table.allocatable[result.device].attributes - {InterfaceName}
      && (info.ifName != "" ==> Lookup(info.attributes, InterfaceName) == Some(Str(info.ifName)))
    }

    ghost predicate IsPrepared(info: PreparedInfo, ifNameIndex: nat, claim: ResourceClaim, settings: Settings,
                               result: AllocationResult)
      requires claim.reservedFor != []
      reads table
    {
      && Describes(info, claim, settings, result)
      && info.ifName == (if settings.ifName == "" && !multus then Generated(interfacePrefix, ifNameIndex)
                         else settings.ifName)
    }

    /** The devices are those of the claim's results, one by one. */
    ghost predicate Described(devices: seq<PreparedDevice>, claim: ResourceClaim, configs: map<string, Settings>,
                              results: seq<AllocationResult>)
      requires claim.reservedFor != []
      reads table
    {
      && |devices| == |OursOf(results)|
      && forall i :: 0 <= i < |devices| ==>
        Describes(devices[i].info, claim, SettingsOf(configs, OursOf(results)[i].request), OursOf(results)[i])
    }

    /** The device-info keys of the claim's devices, from the table. */
    ghost function ClaimKeys(results: seq<AllocationResult>): set<InfoKey>
      reads table
    {
      if multus
      then set r | r in OursOf(results) && r.device in table.allocatable &&
        KeyOfDevice(table.allocatable[r.device]).Some? ::
        KeyOfDevice(table.allocatable[r.device]).value
      else {}
    }

    lemma KeysDescribed(devices: seq<PreparedDevice>, claim: ResourceClaim, configs: map<string, Settings>,
                        results: seq<AllocationResult>)
      requires claim.reservedFor != [] && Described(devices, claim, configs, results)
      ensures InfoKeys(devices) == ClaimKeys(results)
      ensures Addressed(devices) <==> (multus ==> AddressedResults(table.allocatable, results))
    {
      var ours := OursOf(results);
      forall i | 0 <= i < |devices|
        ensures InfoKeyOf(devices[i].info) == (if multus then KeyOfDevice(table.allocatable[ours[i].device]) else None)
        ensures devices[i].info.pciAddress == PciOf(table.allocatable[ours[i].device])
      {
        assert Describes(devices[i].info, claim, SettingsOf(configs, ours[i].request), ours[i]);
      }
      forall k | k in ClaimKeys(results) ensures k in InfoKeys(devices) {
        var i :| 0 <= i < |ours| && KeyOfDevice(table.allocatable[ours[i].device]) == Some(k);
        assert InfoKeyOf(devices[i].info) == Some(k);
      }
      forall k | k in InfoKeys(devices) ensures k in ClaimKeys(results) {
        var i :| 0 <= i < |devices| && InfoKeyOf(devices[i].info) == Some(k);
        assert ours[i] in ours;
      }
      if Addressed(devices) && multus {
        forall r | r in ours && r.device in table.allocatable && KeyOfDevice(table.allocatable[r.device]).Some?
          ensures PciOf(table.allocatable[r.device]) != "" {
          var i :| 0 <= i < |ours| && ours[i] == r;
          assert devices[i] in devices;
        }
      }
      if multus ==> AddressedResults(table.allocatable, results) {
        forall d | d in devices && InfoKeyOf(d.info).Some? ensures d.info.pciAddress != "" {
          var i :| 0 <= i < |devices| && devices[i] == d;
          assert ours[i] in ours;
        }
      }
    }

    /** The status entries of this driver's results. */
    function StatusEntries(configs: map<string, Settings>, results: seq<AllocationResult>): seq<DeviceStatus>
    {
      if results == [] then []
      else
        var last := results[|results| - 1];
        StatusEntries(configs, results[..|results| - 1]) +
          if last.driver == DRIVER_NAME
          then [DeviceStatus(StatusKey(last.driver, last.pool, last.device), None,
                             outside.marshal(SettingsOf(configs, last.request)))] else []
    }

    lemma NextResult(allocation: Allocation, configs: map<string, Settings>, k: nat)
      requires k < |allocation.results|
      ensures var r := allocation.results[k];
        var settings := SettingsOf(configs, r.request);
        && allocation.results[..k + 1] == allocation.results[..k] + [r]
        && WantsOf(table.allocatable, configs, allocation.results[..k + 1]) ==
           WantsOf(table.allocatable, configs, allocation.results[..k]) +
             (if r.driver == DRIVER_NAME && r.device in table.allocatable
             then [Want(PciOf(table.allocatable[r.device]), settings.driver)] else [])
      ensures var r := allocation.results[k];
        Feasible(table.allocatable, configs, allocation.results[..k + 1]) <==>
          Feasible(table.allocatable, configs, allocation.results[..k]) &&
          (r.driver == DRIVER_NAME ==>
             r.device in table.allocatable && !Unsupported(SettingsOf(configs, r.request).driver))
    {
      assert allocation.results[..k + 1][..k] == allocation.results[..k];
    }

    lemma NextDevice(claim: ResourceClaim, configs: map<string, Settings>, k: nat, devices: seq<PreparedDevice>,
                     d: PreparedDevice, ifNameIndex: nat)
      requires claim.allocation.Some? && claim.reservedFor != [] && k < |claim.allocation.value.results|
      requires Prepared(devices, WantsOf(table.allocatable, configs, claim.allocation.value.results[..k]))
      requires claim.allocation.value.results[k].driver == DRIVER_NAME
      requires IsPrepared(d.info, ifNameIndex, claim, SettingsOf(configs, claim.allocation.value.results[k].request),
                          claim.allocation.value.results[k])
      ensures Prepared(devices + [d], WantsOf(table.allocatable, configs, claim.allocation.value.results[..k + 1]))
    {
      NextResult(claim.allocation.value, configs, k);
    }

    lemma NextDescribed(claim: ResourceClaim, configs: map<string, Settings>, k: nat, devices: seq<PreparedDevice>,
                        d: PreparedDevice)
      requires claim.allocation.Some? && claim.reservedFor != [] && k < |claim.allocation.value.results|
      requires Described(devices, claim, configs, claim.allocation.value.results[..k])
      requires var result := claim.allocation.value.results[k];
        result.driver == DRIVER_NAME && Describes(d.info, claim, SettingsOf(configs, result.request), result)
      ensures Described(devices + [d], claim, configs, claim.allocation.value.results[..k + 1])
    {
      NextOurs(configs, claim.allocation.value.results, k);
    }

    lemma FailingWant(claim: ResourceClaim, configs: map<string, Settings>, k: nat, devices: seq<PreparedDevice>)
      requires claim.allocation.Some? && k < |claim.allocation.value.results|
      requires Prepared(devices, WantsOf(table.allocatable, configs, claim.allocation.value.results[..k]))
      requires claim.allocation.value.results[k].driver == DRIVER_NAME
      ensures var results := claim.allocation.value.results;
        var wants := WantsOf(table.allocatable, configs, results);
        && |devices| <= |wants| && Prepared(devices, wants[..|devices|])
        && (results[k].device in table.allocatable ==>
              |devices| < |wants| &&
                wants[|devices|] == Want(PciOf(table.allocatable[results[k].device]),
                                         SettingsOf(configs, results[k].request).driver))
        && (Feasible(table.allocatable, configs, results) ==>
              results[k].device in table.allocatable && !Unsupported(SettingsOf(configs, results[k].request).driver))
    {
      var results := claim.allocation.value.results;
      NextResult(claim.allocation.value, configs, k);
      WantsPrefix(table.allocatable, configs, results, k);
      WantsPrefix(table.allocatable, configs, results, k + 1);
      assert results[k] in results;
    }

    /** Rolls back the devices that were prepared before one failed. */
    method RollBack(devices: seq<PreparedDevice>, error: PrepareError, ghost before: Slots, ghost was: Slots,
                    ghost wants: seq<Want>, ghost failing: Option<Want>)
      returns (e: PrepareError)
      requires |devices| <= |wants| && Prepared(devices, wants[..|devices|])
      requires Bound(before, was, host.traits, devices)
      requires failing.Some? ==> |devices| < |wants| && wants[|devices|] == failing.value
      requires if failing.None? then host.slots == was else Only(failing.value.pciAddress, was, host.slots)
      requires error.compensated ==> FailedOn(was, host.slots, host.traits, failing, error.cause)
      modifies host
      ensures Confined(before, host.slots, wants)
      ensures e.cause == error.cause && (e.compensated ==> error.compensated)
      ensures e.compensated && DistinctWants(wants) ==> RolledBack(before, host.slots, host.traits, wants, e.cause)
    {
      ghost var failed := host.slots;
      var rolledBack := UnprepareDevices(devices);
      if rolledBack && error.compensated && DistinctWants(wants) {
        UndoAfterFailure(before, was, failed, host.slots, host.traits, devices, wants, failing, error.cause);
      }
      ConfinedAfterFailure(before, was, failed, host.slots, devices, wants, failing);
      e := PrepareError(error.cause, error.compensated && rolledBack);
    }

    /** The devices are named by their configs, or numbered in order from `from` up
        to `next`. */
    ghost predicate Numbered(devices: seq<PreparedDevice>, configured: seq<string>, from: nat, next: nat)
    {
      && |devices| == |configured|
      && next == from + (if multus then 0 else Unnamed(configured))
      && forall i :: 0 <= i < |devices| ==>
        devices[i].info.ifName == if multus then configured[i] else NameAt(configured, interfacePrefix, from, i)
    }

    lemma NumberedNext(devices: seq<PreparedDevice>, configured: seq<string>, d: PreparedDevice, ifName: string,
                       from: nat, next: nat, next': nat)
      requires Numbered(devices, configured, from, next)
      requires d.info.ifName == (if ifName == "" && !multus then Generated(interfacePrefix, next) else ifName)
      requires next' == if !multus && ifName == "" then next + 1 else next
      ensures Numbered(devices + [d], configured + [ifName], from, next')
    {
      var all := configured + [ifName];
      assert all[..|configured|] == configured;
      forall i | 0 <= i < |configured| ensures all[..i] == configured[..i] {
      }
    }

    /** The devices of the first `k` results are prepared, and `slots` is the host. */
    ghost predicate SoFar(before: Slots, slots: Slots, claim: ResourceClaim, configs: map<string, Settings>,
                          devices: seq<PreparedDevice>, k: nat, from: nat, next: nat)
      requires claim.reservedFor != [] && claim.allocation.Some? && k <= |claim.allocation.value.results|
      reads table
    {
      && DevicesSoFar(claim, configs, devices, k)
      && Bound(before, slots, host.traits, devices)
      && Numbered(devices, ConfiguredOf(configs, claim.allocation.value.results[..k]), from, next)
    }

    /** `devices` are those of the first `k` results. */
    ghost predicate DevicesSoFar(claim: ResourceClaim, configs: map<string, Settings>, devices: seq<PreparedDevice>,
                                 k: nat)
      requires claim.reservedFor != [] && claim.allocation.Some? && k <= |claim.allocation.value.results|
      reads table
    {
      var results := claim.allocation.value.results[..k];
      && Prepared(devices, WantsOf(table.allocatable, configs, results))
      && Described(devices, claim, configs, results)
      && Feasible(table.allocatable, configs, results)
    }

    ghost predicate PreparedSoFar(before: Slots, claim: ResourceClaim, entries: seq<DeviceStatus>,
                                  configs: map<string, Settings>, devices: seq<PreparedDevice>, k: nat, from: nat,
                                  next: nat)
      requires claim.reservedFor != [] && claim.allocation.Some? && k <= |claim.allocation.value.results|
      reads table, host, claim.status
    {
      && SoFar(before, host.slots, claim, configs, devices, k, from, next)
      && claim.status.devices == entries + StatusEntries(configs, claim.allocation.value.results[..k])
    }

    /** Results of other drivers are skipped. */
    lemma OthersResult(before: Slots, claim: ResourceClaim, entries: seq<DeviceStatus>, configs: map<string, Settings>,
                       devices: seq<PreparedDevice>, k: nat, from: nat, next: nat)
      requires claim.reservedFor != [] && claim.allocation.Some? && k < |claim.allocation.value.results|
      requires claim.allocation.value.results[k].driver != DRIVER_NAME
      requires PreparedSoFar(before, claim, entries, configs, devices, k, from, next)
      ensures PreparedSoFar(before, claim, entries, configs, devices, k + 1, from, next)
    {
      OthersSkipped(claim, configs, k);
    }

    lemma OthersSkipped(claim: ResourceClaim, configs: map<string, Settings>, k: nat)
      requires claim.allocation.Some? && k < |claim.allocation.value.results|
      requires claim.allocation.value.results[k].driver != DRIVER_NAME
      ensures var results := claim.allocation.value.results;
        && OursOf(results[..k + 1]) == OursOf(results[..k])
        && ConfiguredOf(configs, results[..k + 1]) == ConfiguredOf(configs, results[..k])
        && WantsOf(table.allocatable, configs, results[..k + 1]) == WantsOf(table.allocatable, configs, results[..k])
        && StatusEntries(configs, results[..k + 1]) == StatusEntries(configs, results[..k])
        && (Feasible(table.allocatable, configs, results[..k + 1]) <==>
              Feasible(table.allocatable, configs, results[..k]))
    {
      NextResult(claim.allocation.value, configs, k);
      NextOurs(configs, claim.allocation.value.results, k);
      NextStatus(claim.allocation.value, configs, k, []);
    }

    lemma NextStatus(allocation: Allocation, configs: map<string, Settings>, k: nat, entries: seq<DeviceStatus>)
      requires k < |allocation.results|
      ensures var r := allocation.results[k];
        entries + StatusEntries(configs, allocation.results[..k + 1]) ==
          (entries + StatusEntries(configs, allocation.results[..k])) + (if r.driver == DRIVER_NAME
            then [DeviceStatus(StatusKey(r.driver, r.pool, r.device), None,
                               outside.marshal(SettingsOf(configs, r.request)))] else [])
      ensures allocation.results[k].driver != DRIVER_NAME ==>
        StatusEntries(configs, allocation.results[..k + 1]) == StatusEntries(configs, allocation.results[..k])
    {
      assert allocation.results[..k + 1][..k] == allocation.results[..k];
    }

    /** Result `k` is prepared as device `d`. */
    ghost predicate ResultApplied(was: Slots, slots: Slots, claim: ResourceClaim, configs: map<string, Settings>,
                                  k: nat, d: PreparedDevice, next: nat, next': nat)
      requires claim.reservedFor != [] && claim.allocation.Some? && k < |claim.allocation.value.results|
      reads table
    {
      var result := claim.allocation.value.results[k];
      var settings := SettingsOf(configs, result.request);
      var pci := d.info.pciAddress;
      && IsPrepared(d.info, next, claim, settings, result) && !Unsupported(settings.driver)
      && next' == (if !multus && settings.ifName == "" then next + 1 else next)
      && Only(pci, was, slots)
      && BoundTo(SlotAt(was, pci), host.traits(pci), SlotAt(slots, pci), d.info.settings.driver, d.info.originalDriver)
    }

    /** Result `k` failed. */
    ghost predicate ResultFailed(was: Slots, slots: Slots, claim: ResourceClaim, configs: map<string, Settings>, k: nat,
                                 error: PrepareError)
      requires claim.allocation.Some? && k < |claim.allocation.value.results|
      reads table
    {
      var result := claim.allocation.value.results[k];
      var settings := SettingsOf(configs, result.request);
      && OfDevice(error.cause) && (error.cause.VhostFailed? ==> settings.addVhostMount)
      && (reliable ==> !(result.device in table.allocatable && !Unsupported(settings.driver)))
      && if result.device in table.allocatable then
           var pci := PciOf(table.allocatable[result.device]);
           && Only(pci, was, slots)
           && (error.compensated ==>
                 FailedAt(SlotAt(was, pci), host.traits(pci), SlotAt(slots, pci), pci, settings.driver, error.cause))
         else slots == was && !error.cause.BindFailed?
    }

    method ApplyResult(ifNameIndex: nat, claim: ResourceClaim, configs: map<string, Settings>, k: nat)
      returns (r: Result<PreparedDevice, PrepareError>, ifNameIndex': nat)
      requires claim.reservedFor != [] && claim.allocation.Some? && k < |claim.allocation.value.results|
      modifies host
      ensures unchanged(table)
      ensures r.Ok? ==> fresh(r.value) && r.value.networkData == None
      ensures r.Ok? ==>
        ResultApplied(old(host.slots), host.slots, claim, configs, k, r.value, ifNameIndex, ifNameIndex')
      ensures r.Err? ==> ResultFailed(old(host.slots), host.slots, claim, configs, k, r.error)
      ensures ifNameIndex <= ifNameIndex'
    {
      var result := claim.allocation.value.results[k];
      r, ifNameIndex' := ApplyConfigOnDevice(ifNameIndex, claim, SettingsOf(configs, result.request), result);
    }

    lemma SoFarNext(before: Slots, was: Slots, slots: Slots, claim: ResourceClaim, configs: map<string, Settings>,
                    devices: seq<PreparedDevice>, d: PreparedDevice, k: nat, from: nat, next: nat, next': nat)
      requires claim.reservedFor != [] && claim.allocation.Some? && k < |claim.allocation.value.results|
      requires SoFar(before, was, claim, configs, devices, k, from, next)
      requires claim.allocation.value.results[k].driver == DRIVER_NAME
      requires ResultApplied(was, slots, claim, configs, k, d, next, next')
      ensures SoFar(before, slots, claim, configs, devices + [d], k + 1, from, next')
    {
      var results := claim.allocation.value.results;
      NextResult(claim.allocation.value, configs, k);
      NextDevice(claim, configs, k, devices, d, next);
      NextDescribed(claim, configs, k, devices, d);
      NextOurs(configs, results, k);
      NumberedNext(devices, ConfiguredOf(configs, results[..k]), d, SettingsOf(configs, results[k].request).ifName,
                   from, next, next');
      BindOneMore(before, was, slots, host.traits, devices, d);
    }

    /** What a failed prepare guarantees: the rollback, and in a reliable
        environment a claim that could not be prepared. */
    ghost predicate FailedPrepare(before: Slots, claim: ResourceClaim, configs: map<string, Settings>,
                                  error: PrepareError)
      requires claim.allocation.Some?
      reads table, host
    {
      var results := claim.allocation.value.results;
      var wants := WantsOf(table.allocatable, configs, results);
      && Confined(before, host.slots, wants)
      && (error.compensated && DistinctWants(wants) ==> RolledBack(before, host.slots, host.traits, wants, error.cause))
      && OfDevice(error.cause)
      && (error.cause.VhostFailed? ==> exists request :: SettingsOf(configs, request).addVhostMount)
      && (reliable ==> !Feasible(table.allocatable, configs, results))
    }

    /** The device of result `k` failed: those before it are rolled back. */
    method FailPrepare(claim: ResourceClaim, configs: map<string, Settings>, k: nat, devices: seq<PreparedDevice>,
                       error: PrepareError, ghost before: Slots, ghost was: Slots)
      returns (e: PrepareError)
      requires claim.reservedFor != [] && claim.allocation.Some? && k < |claim.allocation.value.results|
      requires claim.allocation.value.results[k].driver == DRIVER_NAME
      requires Prepared(devices, WantsOf(table.allocatable, configs, claim.allocation.value.results[..k]))
      requires Bound(before, was, host.traits, devices)
      requires ResultFailed(was, host.slots, claim, configs, k, error)
      modifies host
      ensures FailedPrepare(before, claim, configs, e)
    {
      ghost var results := claim.allocation.value.results;
      FailingWant(claim, configs, k, devices);
      e := RollBack(devices, error, before, was, WantsOf(table.allocatable, configs, results),
        if results[k].device in table.allocatable
        then Some(Want(PciOf(table.allocatable[results[k].device]),
                       SettingsOf(configs, results[k].request).driver)) else None);
    }

    /** Prepares the device of result `k`; on a failure the devices before it are
        rolled back. */
    method PrepareDevice(ifNameIndex: nat, claim: ResourceClaim, configs: map<string, Settings>, k: nat,
                         devices: seq<PreparedDevice>, ghost before: Slots, ghost from: nat)
      returns (r: Result<PreparedDevice, PrepareError>, ifNameIndex': nat)
      requires claim.reservedFor != [] && claim.allocation.Some? && k < |claim.allocation.value.results|
      requires claim.allocation.value.results[k].driver == DRIVER_NAME
      requires SoFar(before, host.slots, claim, configs, devices, k, from, ifNameIndex)
      modifies host
      ensures r.Ok? ==>
        fresh(r.value) && SoFar(before, host.slots, claim, configs, devices + [r.value], k + 1, from, ifNameIndex')
      ensures r.Err? ==> FailedPrepare(before, claim, configs, r.error)
      ensures ifNameIndex <= ifNameIndex'
    {
      ghost var was := host.slots;
      r, ifNameIndex' := ApplyResult(ifNameIndex, claim, configs, k);
      if r.Err? {
        var error := FailPrepare(claim, configs, k, devices, r.error, before, was);
        return Err(error), ifNameIndex';
      }
      SoFarNext(before, was, host.slots, claim, configs, devices, r.value, k, from, ifNameIndex, ifNameIndex');
    }

    /** One result of this driver, with its status entry. */
    method PrepareResult(ifNameIndex: nat, claim: ResourceClaim, configs: map<string, Settings>, k: nat,
                         devices: seq<PreparedDevice>, ghost before: Slots, ghost entries: seq<DeviceStatus>,
                         ghost from: nat)
      returns (r: Result<PreparedDevice, PrepareError>, ifNameIndex': nat)
      requires claim.reservedFor != [] && claim.allocation.Some? && k < |claim.allocation.value.results|
      requires claim.allocation.value.results[k].driver == DRIVER_NAME
      requires PreparedSoFar(before, claim, entries, configs, devices, k, from, ifNameIndex)
      modifies host, claim.status
      ensures r.Ok? ==>
        fresh(r.value) && PreparedSoFar(before, claim, entries, configs, devices + [r.value], k + 1, from, ifNameIndex')
      ensures r.Err? ==> FailedPrepare(before, claim, configs, r.error)
      ensures ifNameIndex <= ifNameIndex'
    {
      r, ifNameIndex' := PrepareDevice(ifNameIndex, claim, configs, k, devices, before, from);
      if r.Err? {
        return;
      }
      ghost var slots := host.slots;
      AddStatus(claim, configs, k, entries);
      assert host.slots == slots;
    }

    /** The status entry of result `k`. */
    method AddStatus(claim: ResourceClaim, configs: map<string, Settings>, k: nat, ghost entries: seq<DeviceStatus>)
      requires claim.allocation.Some? && k < |claim.allocation.value.results|
      requires claim.allocation.value.results[k].driver == DRIVER_NAME
      requires claim.status.devices == entries + StatusEntries(configs, claim.allocation.value.results[..k])
      modifies claim.status
      ensures claim.status.devices == entries + StatusEntries(configs, claim.allocation.value.results[..k + 1])
      ensures unchanged(host) && unchanged(table)
    {
      var result := claim.allocation.value.results[k];
      NextStatus(claim.allocation.value, configs, k, entries);
      claim.status.devices := claim.status.devices +
        [DeviceStatus(StatusKey(result.driver, result.pool, result.device), None,
                      outside.marshal(SettingsOf(configs, result.request)))];
    }

    /** Prepares the devices in order. */
    method PrepareDevices(ifNameIndex: nat, claim: ResourceClaim, configs: map<string, Settings>)
      returns (r: Result<seq<PreparedDevice>, PrepareError>, ifNameIndex': nat)
      requires claim.reservedFor != [] && claim.allocation.Some?
      modifies host, claim.status
      ensures unchanged(table)
      ensures r.Ok? ==>
        PreparedSoFar(old(host.slots), claim, old(claim.status.devices), configs, r.value,
                      |claim.allocation.value.results|, ifNameIndex, ifNameIndex')
      ensures r.Ok? ==> AllNew(r.value)
      ensures r.Err? ==> FailedPrepare(old(host.slots), claim, configs, r.error)
      ensures ifNameIndex <= ifNameIndex'
    {
      var results := claim.allocation.value.results;
      ifNameIndex' := ifNameIndex;
      var preparedDevices: seq<PreparedDevice> := [];
      for k := 0 to |results|
        invariant PreparedSoFar(old(host.slots), claim, old(claim.status.devices), configs, preparedDevices, k,
                                ifNameIndex, ifNameIndex')
        invariant AllNew(preparedDevices)
      {
        if results[k].driver != DRIVER_NAME {
          OthersResult(old(host.slots), claim, old(claim.status.devices), configs, preparedDevices, k, ifNameIndex,
                       ifNameIndex');
          continue;
        }
        var prepared;
        prepared, ifNameIndex' := PrepareResult(ifNameIndex', claim, configs, k, preparedDevices, old(host.slots),
                                                old(claim.status.devices), ifNameIndex);
        if prepared.Err? {
          return Err(prepared.error), ifNameIndex';
        }
        AllNewNext(preparedDevices, prepared.value);
        preparedDevices := preparedDevices + [prepared.value];
      }
      r := Ok(preparedDevices);
    }

    /** The spec of a claim lists its devices. */
    function SpecOf(devices: seq<PreparedDevice>): seq<string>
    {
      if devices == [] then []
      else
        var last := devices[|devices| - 1].info;
        SpecOf(devices[..|devices| - 1]) + [last.claimUID + "-" + last.device]
    }

    /** Undoes a prepare whose device-info files or spec could not be written. */
    method UndoPrepared(devices: seq<PreparedDevice>, cause: Cause, ghost before: Slots, ghost wants: seq<Want>)
      returns (e: PrepareError)
      requires Prepared(devices, wants) && Bound(before, host.slots, host.traits, devices) && !cause.BindFailed?
      modifies host, infos
      ensures e.cause == cause
      ensures Confined(before, host.slots, wants)
      ensures e.compensated && DistinctWants(wants) ==> RolledBack(before, host.slots, host.traits, wants, cause)
      ensures InfosElsewhere(old(infos.entries), infos.entries, InfoKeys(devices))
      ensures e.compensated ==>
        infos.entries == if multus then old(infos.entries) - InfoKeys(devices) else old(infos.entries)
    {
      ghost var bound := host.slots;
      var cleaned := CleanDeviceInfoFilesIfNeeded(devices);
      var restored := UnprepareDevices(devices);
      if restored && DistinctWants(wants) {
        assert DistinctDevices(devices);
        UndoAll(before, bound, host.slots, host.traits, devices, wants, cause);
      }
      ConfinedWhenPrepared(before, bound, host.slots, devices, wants);
      e := PrepareError(cause, cleaned && restored);
    }

    /** Writes the device-info files and the claim's spec; undoes the prepare if
        that fails. */
    method PublishPrepared(devices: seq<PreparedDevice>, ghost before: Slots, ghost wants: seq<Want>)
      returns (error: Option<PrepareError>)
      requires devices != [] && Prepared(devices, wants) && Bound(before, host.slots, host.traits, devices)
      modifies host, cdi, infos
      ensures unchanged(table)
      ensures error.None? ==> host.slots == old(host.slots)
      ensures cdi.specs == if error.None? then old(cdi.specs)[ClaimSpec(devices[0].info.claimUID) := SpecOf(devices)]
                           else old(cdi.specs)
      ensures InfosElsewhere(old(infos.entries), infos.entries, InfoKeys(devices))
      ensures error.None? && !multus ==> infos.entries == old(infos.entries)
      ensures error.None? && multus ==> forall i :: 0 <= i < |devices| ==> Written(devices, |devices|, i, infos.entries)
      ensures error.Some? && error.value.compensated ==>
        infos.entries == if multus then old(infos.entries) - InfoKeys(devices) else old(infos.entries)
      ensures error.Some? ==> Confined(before, host.slots, wants)
      ensures error.Some? && error.value.compensated && DistinctWants(wants) ==>
        RolledBack(before, host.slots, host.traits, wants, error.value.cause)
      ensures error.None? && multus ==> Addressed(devices)
      ensures error.Some? && reliable ==> multus && !Addressed(devices)
      ensures error.Some? ==> FilesTouched(error.value.cause)
    {
      ghost var entries := infos.entries;
      var cause := None;
      if multus {
        var synced := SyncDeviceInfoFiles(devices);
        if !synced {
          cause := Some(DeviceInfoFailed);
        }
      }
      if cause.None? {
        var refused := Refusal();
        var written := cdi.WriteSpec(ClaimSpec(devices[0].info.claimUID), SpecOf(devices), refused);
        if !written {
          cause := Some(SpecFailed);
        }
      }
      if cause.Some? {
        ghost var after := infos.entries;
        var e := UndoPrepared(devices, cause.value, before, wants);
        WrittenThenCleaned(entries, after, infos.entries, InfoKeys(devices));
        return Some(e);
      }
      error := None;
    }

    /** The merged settings of every request that a config of this driver names. */
    ghost function ConfigsFor(claim: ResourceClaim): map<string, Settings>
      requires claim.allocation.Some?
    {
      MergedAll(outside.decode, claim.allocation.value.configs)
    }

    /** Every config has a known source and, if it is this driver's, decodes. */
    predicate Usable(claim: ResourceClaim)
      requires claim.allocation.Some?
    {
      forall c :: c in claim.allocation.value.configs ==> KnownSource(c) && Acceptable(outside.decode, c)
    }

    /** What a claim must bring to be prepared: usable configs; at least one result
        of this driver, each naming a known device and a driver that can be bound;
        and an address for every device that gets a device-info file. */
    ghost predicate Preparable(claim: ResourceClaim)
      requires claim.allocation.Some?
      reads table
    {
      Bindable(claim) && (multus ==> AddressedResults(table.allocatable, claim.allocation.value.results))
    }

    ghost predicate Bindable(claim: ResourceClaim)
      requires claim.allocation.Some?
      reads table
    {
      var results := claim.allocation.value.results;
      Usable(claim) && OursOf(results) != [] && Feasible(table.allocatable, ConfigsFor(claim), results)
    }

    ghost function WantsFor(claim: ResourceClaim): seq<Want>
      requires claim.allocation.Some?
      reads table
    {
      WantsOf(table.allocatable, ConfigsFor(claim), claim.allocation.value.results)
    }

    /** The interface names the configs give to the claim's devices. */
    ghost function ConfiguredFor(claim: ResourceClaim): seq<string>
      requires claim.allocation.Some?
    {
      ConfiguredOf(ConfigsFor(claim), claim.allocation.value.results)
    }

    /** The configs of a claim, merged per request. */
    method MergedConfigs(claim: ResourceClaim) returns (r: Result<map<string, Settings>, ConfigError>)
      requires claim.allocation.Some?
      ensures r.Ok? ==> r.value == ConfigsFor(claim)
      ensures r.Ok? <==> Usable(claim)
    {
      var merged := GetMapOfOpaqueDeviceConfig(outside.decode, claim.allocation.value.configs);
      if merged.Err? {
        return Err(merged.error);
      }
      MergedAllUnique(outside.decode, claim.allocation.value.configs, Views(merged.value));
      r := Ok(Views(merged.value));
    }

    lemma NoVhost(claim: ResourceClaim, request: string)
      requires claim.allocation.Some? && Usable(claim)
      ensures !SettingsOf(ConfigsFor(claim), request).addVhostMount
    {
      MergedAllReads(outside.decode, claim.allocation.value.configs, request);
    }

    /** All devices of a claim are bound and named. */
    ghost predicate AllBoundFor(before: Slots, slots: Slots, claim: ResourceClaim, devices: seq<PreparedDevice>,
                                from: nat, next: nat)
      requires claim.reservedFor != [] && claim.allocation.Some?
      reads table
    {
      && devices != [] && Prepared(devices, WantsFor(claim))
      && Described(devices, claim, ConfigsFor(claim), claim.allocation.value.results)
      && Bound(before, slots, host.traits, devices)
      && Numbered(devices, ConfiguredFor(claim), from, next)
    }

    /** And published: `entries` became `entries'`. */
    ghost predicate AllPrepared(before: Slots, slots: Slots, entries: map<InfoKey, DeviceInfo>,
                                entries': map<InfoKey, DeviceInfo>, claim: ResourceClaim, devices: seq<PreparedDevice>,
                                from: nat, next: nat)
      requires claim.reservedFor != [] && claim.allocation.Some?
      reads table
    {
      && AllBoundFor(before, slots, claim, devices, from, next)
      && InfosElsewhere(entries, entries', ClaimKeys(claim.allocation.value.results))
      && (if multus then forall i :: 0 <= i < |devices| ==> Written(devices, |devices|, i, entries')
          else entries' == entries)
    }

    /** What a failed prepare leaves. No device but the claim's is touched, and no
        device-info entry but the claim's. If every compensation succeeded, the
        claim's devices are as before, put back, or where their own bind broke off;
        and the claim has no device-info entry, if any file was touched at all. */
    ghost predicate PreparedNothing(before: Slots, slots: Slots, entries: map<InfoKey, DeviceInfo>,
                                    entries': map<InfoKey, DeviceInfo>, claim: ResourceClaim, error: PrepareError)
      requires claim.allocation.Some?
      reads table
    {
      var keys := ClaimKeys(claim.allocation.value.results);
      && Confined(before, slots, WantsFor(claim))
      && (error.compensated && DistinctWants(WantsFor(claim)) ==>
            RolledBack(before, slots, host.traits, WantsFor(claim), error.cause))
      && InfosElsewhere(entries, entries', keys)
      && (!FilesTouched(error.cause) ==> entries' == entries)
      && (FilesTouched(error.cause) && error.compensated ==> entries' == entries - keys)
    }

    lemma OwnedBy(devices: seq<PreparedDevice>, claim: ResourceClaim)
      requires claim.reservedFor != [] && claim.allocation.Some?
      requires Described(devices, claim, ConfigsFor(claim), claim.allocation.value.results)
      ensures forall i :: 0 <= i < |devices| ==>
        devices[i].info.claimUID == claim.uid && devices[i].info.podUID == claim.reservedFor[0]
    {
      var ours := OursOf(claim.allocation.value.results);
      forall i | 0 <= i < |devices|
        ensures devices[i].info.claimUID == claim.uid && devices[i].info.podUID == claim.reservedFor[0] {
        assert Describes(devices[i].info, claim, SettingsOf(ConfigsFor(claim), ours[i].request), ours[i]);
      }
    }

    lemma SoFarEnds(before: Slots, slots: Slots, claim: ResourceClaim, devices: seq<PreparedDevice>, from: nat,
                    next: nat)
      requires claim.reservedFor != [] && claim.allocation.Some?
      requires SoFar(before, slots, claim, ConfigsFor(claim), devices, |claim.allocation.value.results|, from, next)
      ensures Feasible(table.allocatable, ConfigsFor(claim), claim.allocation.value.results)
      ensures devices == [] <==> OursOf(claim.allocation.value.results) == []
      ensures devices != [] ==> AllBoundFor(before, slots, claim, devices, from, next)
      ensures devices == [] ==> forall d :: SlotAt(slots, d) == SlotAt(before, d)
    {
      assert claim.allocation.value.results[..|claim.allocation.value.results|] == claim.allocation.value.results;
    }

    lemma FailedIsNothing(before: Slots, entries: map<InfoKey, DeviceInfo>, claim: ResourceClaim, error: PrepareError)
      requires claim.allocation.Some? && Usable(claim)
      requires FailedPrepare(before, claim, ConfigsFor(claim), error)
      ensures PreparedNothing(before, host.slots, entries, entries, claim, error)
      ensures !error.cause.VhostFailed? && !error.cause.BadConfig? && (reliable ==> !Bindable(claim))
    {
      if request :| SettingsOf(ConfigsFor(claim), request).addVhostMount { NoVhost(claim, request); }
    }

    /** Binds all devices of a claim, or none. */
    method BindClaim(ifNameIndex: nat, claim: ResourceClaim)
      returns (r: Result<seq<PreparedDevice>, PrepareError>, ifNameIndex': nat)
      requires claim.reservedFor != [] && claim.allocation.Some?
      modifies host, claim.status
      ensures unchanged(table)
      ensures r.Ok? ==> AllNew(r.value)
      ensures r.Ok? ==> AllBoundFor(old(host.slots), host.slots, claim, r.value, ifNameIndex, ifNameIndex')
      ensures r.Ok? ==>
        claim.status.devices == old(claim.status.devices) + StatusEntries(ConfigsFor(claim),
                                                                          claim.allocation.value.results)
      ensures r.Ok? ==> Bindable(claim)
      ensures r.Err? ==> PreparedNothing(old(host.slots), host.slots, infos.entries, infos.entries, claim, r.error)
      ensures r.Err? ==>
        !FilesTouched(r.error.cause) && !r.error.cause.VhostFailed? && (r.error.cause.BadConfig? <==> !Usable(claim))
      ensures r.Err? && reliable ==> !Bindable(claim)
      ensures ifNameIndex <= ifNameIndex'
    {
      ifNameIndex' := ifNameIndex;
      var resultsConfig := MergedConfigs(claim);
      if resultsConfig.Err? {
        return Err(PrepareError(BadConfig(resultsConfig.error), true)), ifNameIndex;
      }
      r, ifNameIndex' := PrepareDevices(ifNameIndex, claim, resultsConfig.value);
      if r.Err? {
        FailedIsNothing(old(host.slots), infos.entries, claim, r.error);
        return;
      }
      SoFarEnds(old(host.slots), host.slots, claim, r.value, ifNameIndex, ifNameIndex');
      assert claim.allocation.value.results[..|claim.allocation.value.results|] == claim.allocation.value.results;
      if |r.value| == 0 {
        r := Err(PrepareError(NothingPrepared, true));
      }
    }

    /** What the publication has to go by: the devices' keys and owner in terms of
        the claim. */
    lemma BoundReads(before: Slots, slots: Slots, claim: ResourceClaim, devices: seq<PreparedDevice>, from: nat,
                     next: nat)
      requires claim.reservedFor != [] && claim.allocation.Some?
      requires AllBoundFor(before, slots, claim, devices, from, next)
      ensures InfoKeys(devices) == ClaimKeys(claim.allocation.value.results)
      ensures Addressed(devices) <==> (multus ==> AddressedResults(table.allocatable, claim.allocation.value.results))
      ensures devices[0].info.claimUID == claim.uid
    {
      KeysDescribed(devices, claim, ConfigsFor(claim), claim.allocation.value.results);
      OwnedBy(devices, claim);
    }

    lemma UnpublishedIsNothing(before: Slots, slots: Slots, entries: map<InfoKey, DeviceInfo>,
                               entries': map<InfoKey, DeviceInfo>, claim: ResourceClaim, error: PrepareError)
      requires claim.allocation.Some? && FilesTouched(error.cause)
      requires Confined(before, slots, WantsFor(claim))
      requires error.compensated && DistinctWants(WantsFor(claim)) ==>
        RolledBack(before, slots, host.traits, WantsFor(claim), error.cause)
      requires InfosElsewhere(entries, entries', ClaimKeys(claim.allocation.value.results))
      requires error.compensated ==>
        entries' == if multus then entries - ClaimKeys(claim.allocation.value.results) else entries
      ensures PreparedNothing(before, slots, entries, entries', claim, error)
    {
    }

    /** Prepares all devices of a claim, or none. In a reliable environment that
        depends on the claim alone. */
    method PrepareDevicesForClaim(ifNameIndex: nat, claim: ResourceClaim)
      returns (r: Result<seq<PreparedDevice>, PrepareError>, ifNameIndex': nat)
      requires claim.reservedFor != [] && claim.allocation.Some?
      modifies host, cdi, infos, claim.status
      ensures unchanged(table)
      ensures r.Ok? ==> AllNew(r.value)
      ensures r.Ok? ==>
        AllPrepared(old(host.slots), host.slots, old(infos.entries), infos.entries, claim, r.value, ifNameIndex,
                    ifNameIndex')
      ensures r.Ok? ==>
        claim.status.devices == old(claim.status.devices) + StatusEntries(ConfigsFor(claim),
                                                                          claim.allocation.value.results)
      ensures r.Ok? ==> Preparable(claim)
      ensures cdi.specs == if r.Ok? then old(cdi.specs)[ClaimSpec(claim.uid) := SpecOf(r.value)] else old(cdi.specs)
      ensures r.Err? ==> PreparedNothing(old(host.slots), host.slots, old(infos.entries), infos.entries, claim, r.error)
      ensures r.Err? ==> !r.error.cause.VhostFailed? && (r.error.cause.BadConfig? <==> !Usable(claim))
      ensures reliable ==> (r.Ok? <==> Preparable(claim))
      ensures ifNameIndex <= ifNameIndex'
      ensures Discovery.FiledByAddress(table.allocatable) ==> OthersKept(old(host.slots), host.slots, claim)
      ensures Discovery.FiledByAddress(table.allocatable) && r.Ok? ==>
        PreparedByName(old(host.slots), host.slots, claim, r.value)
      ensures Discovery.FiledByAddress(table.allocatable) && r.Ok? && multus ==> EntriesByName(infos.entries, claim)
      ensures r.Ok? ==>
        ClaimSpec(claim.uid) in cdi.specs && SpecByName(cdi.specs[ClaimSpec(claim.uid)], claim)
    {
      r, ifNameIndex' := BindClaim(ifNameIndex, claim);
      if r.Err? {
        FailedByName(old(host.slots), host.slots, claim);
        return;
      }
      BoundReads(old(host.slots), host.slots, claim, r.value, ifNameIndex, ifNameIndex');
      var error := PublishPrepared(r.value, old(host.slots), WantsFor(claim));
      if error.Some? {
        UnpublishedIsNothing(old(host.slots), host.slots, old(infos.entries), infos.entries, claim, error.value);
        FailedByName(old(host.slots), host.slots, claim);
        return Err(error.value), ifNameIndex';
      }
      SpecNamed(r.value, claim);
      SucceededByName(old(host.slots), host.slots, old(infos.entries), infos.entries, claim, r.value, ifNameIndex,
                      ifNameIndex');
    }

    /** Of the first `n` devices, the entry of device `i` is on disk, unless a later
        one has the same key. */
    ghost predicate Written(devices: seq<PreparedDevice>, n: nat, i: nat, entries: map<InfoKey, DeviceInfo>)
      requires i < n <= |devices|
    {
      var key := InfoKeyOf(devices[i].info);
      key.Some? && (forall j :: i < j < n ==> InfoKeyOf(devices[j].info) != key) ==>
        key.value in entries && entries[key.value] == InfoOf(devices[i].info)
    }

    // ---- By name ----------------------------------------------------------------------

    /** A claim touches the addresses of no other devices than its own. */
    ghost predicate OthersKept(before: Slots, now: Slots, claim: ResourceClaim)
      requires claim.allocation.Some?
    {
      forall a :: (forall r :: r in claim.allocation.value.results ==> !Names(r, a)) ==>
        SlotAt(now, a) == SlotAt(before, a)
    }

    /** Every result of this driver is prepared at the address of its device. */
    ghost predicate PreparedByName(before: Slots, now: Slots, claim: ResourceClaim, devices: seq<PreparedDevice>)
      requires claim.reservedFor != [] && claim.allocation.Some?
      reads table
    {
      forall k, a :: 0 <= k < |claim.allocation.value.results| && Names(claim.allocation.value.results[k], a) ==>
        PreparedAt(before, now, claim, devices, claim.allocation.value.results[k], a)
    }

    ghost predicate PreparedAt(before: Slots, now: Slots, claim: ResourceClaim, devices: seq<PreparedDevice>,
                               result: AllocationResult, a: string)
      requires claim.reservedFor != [] && claim.allocation.Some?
      reads table
    {
      exists i :: 0 <= i < |devices| && RecordedAt(devices[i].info, claim, result, a) &&
        (DistinctNames(claim.allocation.value.results) ==>
           IsBound(SlotAt(before, a), host.traits(a), SlotAt(now, a), devices[i].info.settings.driver,
                   devices[i].info.originalDriver))
    }

    /** The record of a result: the address, whose it is, and the merged settings. */
    ghost predicate RecordedAt(info: PreparedInfo, claim: ResourceClaim, result: AllocationResult, a: string)
      requires claim.reservedFor != [] && claim.allocation.Some?
      reads table
    {
      var configs := claim.allocation.value.configs;
      && info.pciAddress == a && info.device == result.device && info.pool == result.pool
      && info.requests == [result.request] && info.claimUID == claim.uid && info.podUID == claim.reservedFor[0]
      && info.claimNamespace == claim.namespace && info.claimName == claim.name
      && Configured(outside.decode, configs, result.request, (c: Settings) => c.driver, info.settings.driver)
      && Configured(outside.decode, configs, result.request, (c: Settings) => c.ifName, info.settings.ifName)
      && Configured(outside.decode, configs, result.request, (c: Settings) => c.mac, info.settings.mac)
      && Configured(outside.decode, configs, result.request, (c: Settings) => c.netAttachDefName,
                    info.settings.netAttachDefName)
      && !info.settings.addVhostMount && info.settings.netAttachDefNamespace == ""
      && info.netAttachDefConfig ==
         (if multus then "" else outside.netConf(claim.namespace, info.settings.netAttachDefName, a))
      && result.device in table.allocatable
      && (if multus then RecordsPair(info, table.allocatable[result.device])
          else info.multusResourceName == info.multusDeviceID == "")
    }

    /** In Multus mode, the device-info entry of a result's device holds its address,
        unless another device of the claim has the same Multus pair. */
    ghost predicate EntriesByName(entries: map<InfoKey, DeviceInfo>, claim: ResourceClaim)
      requires claim.allocation.Some?
      reads table
    {
      var results := claim.allocation.value.results;
      forall k, a, name, id ::
        0 <= k < |results| && Names(results[k], a) && OwnPair(results, results[k].device, name, id) ==>
          EntryIs(entries, InfoKey(name, id), DeviceInfo(a, outside.rdmaDevices(a)))
    }

    /** Of the claim's devices, this one has the Multus pair and no other has. */
    ghost predicate OwnPair(results: seq<AllocationResult>, device: string, name: string, id: string)
      reads table
    {
      && device in table.allocatable && HasPair(table.allocatable[device], name, id)
      && forall r ::
        r in results && r.driver == "sriovnetwork.k8snetworkplumbingwg.io" && r.device in table.allocatable &&
        HasPair(table.allocatable[r.device], name, id) ==>
          r.device == device
    }

    lemma OthersAreKept(before: Slots, now: Slots, claim: ResourceClaim)
      requires claim.allocation.Some? && Discovery.FiledByAddress(table.allocatable)
      requires Confined(before, now, WantsFor(claim))
      ensures OthersKept(before, now, claim)
    {
      var results, wants := claim.allocation.value.results, WantsFor(claim);
      forall a | forall r :: r in results ==> !Names(r, a) ensures SlotAt(now, a) == SlotAt(before, a) {
        forall i | 0 <= i < |wants| ensures wants[i].pciAddress != a {
          WantsHave(table.allocatable, ConfigsFor(claim), results, i);
          var r :| r in results && r.driver == DRIVER_NAME && r.device in table.allocatable &&
            wants[i].pciAddress == PciOf(table.allocatable[r.device]);
          AddressOf(table.allocatable, r.device);
          assert !Names(r, a);
        }
      }
    }

    /** The settings that a request's device is prepared with. */
    lemma SettingsSay(claim: ResourceClaim, request: string)
      requires claim.allocation.Some? && Usable(claim)
      ensures var s := SettingsOf(ConfigsFor(claim), request);
        var configs := claim.allocation.value.configs;
        && Configured(outside.decode, configs, request, (c: Settings) => c.driver, s.driver)
        && Configured(outside.decode, configs, request, (c: Settings) => c.ifName, s.ifName)
        && Configured(outside.decode, configs, request, (c: Settings) => c.mac, s.mac)
        && Configured(outside.decode, configs, request, (c: Settings) => c.netAttachDefName, s.netAttachDefName)
        && !s.addVhostMount && s.netAttachDefNamespace == ""
    {
      var configs := claim.allocation.value.configs;
      CopiedFields();
      MergedAllReads(outside.decode, configs, request);
      MergedIsConfigured(outside.decode, configs, request, (c: Settings) => c.driver);
      MergedIsConfigured(outside.decode, configs, request, (c: Settings) => c.ifName);
      MergedIsConfigured(outside.decode, configs, request, (c: Settings) => c.mac);
      MergedIsConfigured(outside.decode, configs, request, (c: Settings) => c.netAttachDefName);
    }

    lemma DescribedIsRecorded(info: PreparedInfo, claim: ResourceClaim, result: AllocationResult, a: string)
      requires claim.reservedFor != [] && claim.allocation.Some? && Usable(claim)
      requires Discovery.FiledByAddress(table.allocatable) && Names(result, a)
      requires Describes(info, claim, SettingsOf(ConfigsFor(claim), result.request), result)
      ensures RecordedAt(info, claim, result, a)
    {
      SettingsSay(claim, result.request);
      AddressOf(table.allocatable, result.device);
      Discovery.DeviceNameInjective(a, info.pciAddress);
      if multus { PairRecorded(info, table.allocatable[result.device]); }
    }

    lemma OursAreDistinct(claim: ResourceClaim, devices: seq<PreparedDevice>)
      requires claim.reservedFor != [] && claim.allocation.Some?
      requires Discovery.FiledByAddress(table.allocatable) && DistinctNames(claim.allocation.value.results)
      requires Described(devices, claim, ConfigsFor(claim), claim.allocation.value.results)
      ensures DistinctDevices(devices)
    {
      var ours := OursOf(claim.allocation.value.results);
      OursDistinct(claim.allocation.value.results);
      forall i | 0 <= i < |devices| ensures Discovery.DeviceName(devices[i].info.pciAddress) == ours[i].device {
        AddressRecorded(devices, claim, i);
      }
    }

    lemma BoundByName(before: Slots, now: Slots, claim: ResourceClaim, devices: seq<PreparedDevice>, from: nat,
                      next: nat, k: nat, a: string)
      requires claim.reservedFor != [] && claim.allocation.Some? && Usable(claim)
      requires Discovery.FiledByAddress(table.allocatable)
      requires AllBoundFor(before, now, claim, devices, from, next)
      requires k < |claim.allocation.value.results| && Names(claim.allocation.value.results[k], a)
      ensures PreparedAt(before, now, claim, devices, claim.allocation.value.results[k], a)
    {
      var results := claim.allocation.value.results;
      var ours, r := OursOf(results), results[k];
      OursHas(results, r);
      var i :| 0 <= i < |ours| && ours[i] == r;
      var info := devices[i].info;
      assert Describes(info, claim, SettingsOf(ConfigsFor(claim), r.request), r);
      DescribedIsRecorded(info, claim, r, a);
      if DistinctNames(results) {
        OursAreDistinct(claim, devices);
        BoundIs(SlotAt(before, a), host.traits(a), SlotAt(now, a), info.settings.driver, info.originalDriver);
      }
    }

    lemma AllBoundByName(before: Slots, now: Slots, claim: ResourceClaim, devices: seq<PreparedDevice>, from: nat,
                         next: nat)
      requires claim.reservedFor != [] && claim.allocation.Some? && Usable(claim)
      requires Discovery.FiledByAddress(table.allocatable)
      requires AllBoundFor(before, now, claim, devices, from, next)
      ensures OthersKept(before, now, claim) && PreparedByName(before, now, claim, devices)
    {
      ConfinedWhenPrepared(before, now, now, devices, WantsFor(claim));
      OthersAreKept(before, now, claim);
      forall k, a | 0 <= k < |claim.allocation.value.results| && Names(claim.allocation.value.results[k], a)
        ensures PreparedAt(before, now, claim, devices, claim.allocation.value.results[k], a)
      {
        BoundByName(before, now, claim, devices, from, next, k, a);
      }
    }

    /** The device of result `ours[i]` has this pair exactly if its record has. */
    lemma KeyRecorded(devices: seq<PreparedDevice>, claim: ResourceClaim, i: nat, name: string, id: string)
      requires claim.reservedFor != [] && claim.allocation.Some? && multus
      requires Described(devices, claim, ConfigsFor(claim), claim.allocation.value.results) && i < |devices|
      ensures var r := OursOf(claim.allocation.value.results)[i];
        r.device in table.allocatable && (HasPair(table.allocatable[r.device], name, id) <==>
                                          InfoKeyOf(devices[i].info) == Some(InfoKey(name, id)))
    {
      var r := OursOf(claim.allocation.value.results)[i];
      assert Describes(devices[i].info, claim, SettingsOf(ConfigsFor(claim), r.request), r);
    }

    /** And its record has the address it is named after. */
    lemma AddressRecorded(devices: seq<PreparedDevice>, claim: ResourceClaim, i: nat)
      requires claim.reservedFor != [] && claim.allocation.Some?
      requires Discovery.FiledByAddress(table.allocatable)
      requires Described(devices, claim, ConfigsFor(claim), claim.allocation.value.results) && i < |devices|
      ensures Names(OursOf(claim.allocation.value.results)[i], devices[i].info.pciAddress)
    {
      var r := OursOf(claim.allocation.value.results)[i];
      assert Describes(devices[i].info, claim, SettingsOf(ConfigsFor(claim), r.request), r);
      AddressOf(table.allocatable, r.device);
      OursHas(claim.allocation.value.results, r);
    }

    /** The last device of the claim with a pair that is the result's own. */
    lemma LastOwn(claim: ResourceClaim, devices: seq<PreparedDevice>, result: AllocationResult, name: string,
                  id: string)
      returns (i: nat)
      requires claim.reservedFor != [] && claim.allocation.Some? && multus
      requires Described(devices, claim, ConfigsFor(claim), claim.allocation.value.results)
      requires result in claim.allocation.value.results && result.driver == DRIVER_NAME
      requires OwnPair(claim.allocation.value.results, result.device, name, id)
      ensures i < |devices| && OursOf(claim.allocation.value.results)[i].device == result.device
      ensures InfoKeyOf(devices[i].info) == Some(InfoKey(name, id))
      ensures forall l :: i < l < |devices| ==> InfoKeyOf(devices[l].info) != Some(InfoKey(name, id))
    {
      var ours := OursOf(claim.allocation.value.results);
      OursHas(claim.allocation.value.results, result);
      var j :| 0 <= j < |ours| && ours[j] == result;
      KeyRecorded(devices, claim, j, name, id);
      i := LastWithKey(devices, InfoKey(name, id), j);
      KeyRecorded(devices, claim, i, name, id);
      OursHas(claim.allocation.value.results, ours[i]);
    }

    lemma EntryNamed(entries: map<InfoKey, DeviceInfo>, claim: ResourceClaim, devices: seq<PreparedDevice>,
                     result: AllocationResult, a: string, name: string, id: string)
      requires claim.reservedFor != [] && claim.allocation.Some? && multus
      requires Discovery.FiledByAddress(table.allocatable)
      requires Described(devices, claim, ConfigsFor(claim), claim.allocation.value.results)
      requires forall i :: 0 <= i < |devices| ==> Written(devices, |devices|, i, entries)
      requires result in claim.allocation.value.results && Names(result, a)
      requires OwnPair(claim.allocation.value.results, result.device, name, id)
      ensures EntryIs(entries, InfoKey(name, id), DeviceInfo(a, outside.rdmaDevices(a)))
    {
      var i := LastOwn(claim, devices, result, name, id);
      assert Written(devices, |devices|, i, entries);
      AddressRecorded(devices, claim, i);
      Discovery.DeviceNameInjective(a, devices[i].info.pciAddress);
    }

    lemma EntriesNamed(entries: map<InfoKey, DeviceInfo>, claim: ResourceClaim, devices: seq<PreparedDevice>)
      requires claim.reservedFor != [] && claim.allocation.Some? && multus
      requires Discovery.FiledByAddress(table.allocatable)
      requires Described(devices, claim, ConfigsFor(claim), claim.allocation.value.results)
      requires forall i :: 0 <= i < |devices| ==> Written(devices, |devices|, i, entries)
      ensures EntriesByName(entries, claim)
    {
      var results := claim.allocation.value.results;
      forall k, a, name, id |
        0 <= k < |results| && Names(results[k], a) && OwnPair(results, results[k].device, name, id)
        ensures EntryIs(entries, InfoKey(name, id), DeviceInfo(a, outside.rdmaDevices(a)))
      {
        EntryNamed(entries, claim, devices, results[k], a, name, id);
      }
    }

    /** A failed prepare by name: no other address is touched. */
    lemma FailedByName(before: Slots, now: Slots, claim: ResourceClaim)
      requires claim.allocation.Some? && Confined(before, now, WantsFor(claim))
      ensures Discovery.FiledByAddress(table.allocatable) ==> OthersKept(before, now, claim)
    {
      if Discovery.FiledByAddress(table.allocatable) { OthersAreKept(before, now, claim); }
    }

    /** A prepare that succeeded, by name. */
    lemma SucceededByName(before: Slots, now: Slots, entries: map<InfoKey, DeviceInfo>,
                          entries': map<InfoKey, DeviceInfo>, claim: ResourceClaim, devices: seq<PreparedDevice>,
                          from: nat, next: nat)
      requires claim.reservedFor != [] && claim.allocation.Some? && Usable(claim)
      requires AllPrepared(before, now, entries, entries', claim, devices, from, next)
      ensures Discovery.FiledByAddress(table.allocatable) ==> OthersKept(before, now, claim)
      ensures Discovery.FiledByAddress(table.allocatable) ==> PreparedByName(before, now, claim, devices)
      ensures Discovery.FiledByAddress(table.allocatable) && multus ==> EntriesByName(entries', claim)
    {
      if Discovery.FiledByAddress(table.allocatable) {
        AllBoundByName(before, now, claim, devices, from, next);
        if multus { EntriesNamed(entries', claim, devices); }
      }
    }

    /** The claim's spec lists its results' devices, each under the claim's UID. */
    ghost predicate SpecByName(spec: seq<string>, claim: ResourceClaim)
      requires claim.allocation.Some?
    {
      var results := claim.allocation.value.results;
      && (forall r :: r in results && r.driver == "sriovnetwork.k8snetworkplumbingwg.io" ==>
            claim.uid + "-" + r.device in spec)
      && (forall s :: s in spec ==>
            exists r ::
              r in results && r.driver == "sriovnetwork.k8snetworkplumbingwg.io" && s == claim.uid + "-" + r.device)
    }

    lemma {:induction false} SpecReads(devices: seq<PreparedDevice>)
      ensures |SpecOf(devices)| == |devices|
      ensures forall i :: 0 <= i < |devices| ==>
        SpecOf(devices)[i] == devices[i].info.claimUID + "-" + devices[i].info.device
    {
      if devices != [] { SpecReads(devices[..|devices| - 1]); }
    }

    lemma SpecNamed(devices: seq<PreparedDevice>, claim: ResourceClaim)
      requires claim.reservedFor != [] && claim.allocation.Some?
      requires Described(devices, claim, ConfigsFor(claim), claim.allocation.value.results)
      ensures SpecByName(SpecOf(devices), claim)
    {
      var results := claim.allocation.value.results;
      var ours, spec := OursOf(results), SpecOf(devices);
      SpecReads(devices);
      forall i | 0 <= i < |devices| ensures spec[i] == claim.uid + "-" + ours[i].device {
        assert Describes(devices[i].info, claim, SettingsOf(ConfigsFor(claim), ours[i].request), ours[i]);
      }
      forall r | r in results && r.driver == DRIVER_NAME ensures claim.uid + "-" + r.device in spec {
        OursHas(results, r);
        var i :| 0 <= i < |ours| && ours[i] == r;
        assert spec[i] == claim.uid + "-" + r.device;
      }
      forall s | s in spec
        ensures exists r :: r in results && r.driver == DRIVER_NAME && s == claim.uid + "-" + r.device
      {
        var i :| 0 <= i < |spec| && spec[i] == s;
        OursHas(results, ours[i]);
      }
    }

    /** The status entries: one for each of this driver's results, in order, with the
        merged settings. */
    lemma {:induction false} StatusReads(configs: map<string, Settings>, results: seq<AllocationResult>)
      ensures |StatusEntries(configs, results)| == |OursOf(results)|
      ensures forall i :: 0 <= i < |OursOf(results)| ==>
        var r := OursOf(results)[i];
        StatusEntries(configs, results)[i] ==
          DeviceStatus(StatusKey("sriovnetwork.k8snetworkplumbingwg.io", r.pool, r.device), None,
                       outside.marshal(SettingsOf(configs, r.request)))
    {
      if results != [] {
        OursHas(results, results[|results| - 1]);
        StatusReads(configs, results[..|results| - 1]);
      }
    }
  }

  lemma NextOurs(configs: map<string, Settings>, results: seq<AllocationResult>, k: nat)
    requires k < |results|
    ensures OursOf(results[..k + 1]) == OursOf(results[..k]) + if results[k].driver == DRIVER_NAME then [results[k]]
                                                               else []
    ensures ConfiguredOf(configs, results[..k + 1]) ==
      ConfiguredOf(configs, results[..k]) + if results[k].driver == DRIVER_NAME
                                            then [SettingsOf(configs, results[k].request).ifName] else []
  {
    assert results[..k + 1][..k] == results[..k];
  }

  // ---- Addresses and names --------------------------------------------------------------

  /** The result is of this driver, and `a` is the address of its device. */
  ghost predicate Names(r: AllocationResult, a: string)
  {
    && r.driver == "sriovnetwork.k8snetworkplumbingwg.io"
    && Discovery.WellFormedAddress(a) && Discovery.DeviceName(a) == r.device
  }

  /** No two results of this driver have the same device. */
  ghost predicate DistinctNames(results: seq<AllocationResult>)
  {
    forall i, j :: 0 <= i < j < |results| && results[i].driver == "sriovnetwork.k8snetworkplumbingwg.io" ==>
      results[j].driver == results[i].driver ==> results[i].device != results[j].device
  }

  /** A device in state `was` is bound to the configured driver, which is now `now`. */
  ghost predicate IsBound(was: Slot, t: Traits, now: Slot, driver: string, original: string)
  {
    && (driver == "" ==> now == was && original == "")
    && (driver != "" ==> original == was.driver && (now == was || !t.overridable || now.override == ""))
    && (driver == "default" && was.driver in {"", "vfio-pci", "uio_pci_generic", "igb_uio"} ==> now.driver == t.native)
    && (driver == "default" && was.driver !in {"", "vfio-pci", "uio_pci_generic", "igb_uio"} ==> now == was)
    && (driver !in {"", "default"} ==> now.driver == driver)
  }

  lemma BoundIs(was: Slot, t: Traits, now: Slot, driver: string, original: string)
    requires BoundTo(was, t, now, driver, original)
    ensures IsBound(was, t, now, driver, original)
  {
    DpdkDrivers(was.driver);
  }

  /** Both Multus attributes are there, and neither is empty. */
  predicate HasPair(d: Device, name: string, id: string)
  {
    && Discovery.Says(d, MultusResourceName, Str(name)) && name != ""
    && Discovery.Says(d, MultusDeviceID, Str(id)) && id != ""
  }

  /** The record has the device's Multus pair, or nothing if it has none. */
  ghost predicate RecordsPair(info: PreparedInfo, d: Device)
  {
    && (forall name, id :: HasPair(d, name, id) ==> info.multusResourceName == name && info.multusDeviceID == id)
    && ((forall name, id :: !HasPair(d, name, id)) ==> info.multusResourceName == info.multusDeviceID == "")
  }

  lemma PairRecorded(info: PreparedInfo, d: Device)
    requires (info.multusResourceName, info.multusDeviceID) == MultusPair(d)
    ensures RecordsPair(info, d)
  {
    if forall name, id :: !HasPair(d, name, id) {
      var pair := MultusPair(d);
      assert !HasPair(d, pair.0, pair.1);
    }
  }

  /** The last device from `j` on with a key. */
  lemma LastWithKey(devices: seq<PreparedDevice>, key: InfoKey, j: nat) returns (i: nat)
    requires j < |devices| && InfoKeyOf(devices[j].info) == Some(key)
    ensures i < |devices| && InfoKeyOf(devices[i].info) == Some(key)
    ensures forall l :: i < l < |devices| ==> InfoKeyOf(devices[l].info) != Some(key)
    decreases |devices| - j
  {
    if l :| j < l < |devices| && InfoKeyOf(devices[l].info) == Some(key) {
      i := LastWithKey(devices, key, l);
    } else {
      i := j;
    }
  }

  ghost predicate EntryIs(entries: map<InfoKey, DeviceInfo>, key: InfoKey, info: DeviceInfo)
  {
    key in entries && entries[key] == info
  }

  /** The results of this driver: these, as often as they are listed, in order. */
  lemma {:induction false} OursMeans(results: seq<AllocationResult>, r: AllocationResult)
    ensures multiset(OursOf(results))[r] ==
            if r.driver == "sriovnetwork.k8snetworkplumbingwg.io" then multiset(results)[r] else 0
  {
    if results != [] {
      assert results == results[..|results| - 1] + [results[|results| - 1]];
      OursMeans(results[..|results| - 1], r);
    }
  }

  lemma {:induction false} OursKeepOrder(a: seq<AllocationResult>, b: seq<AllocationResult>)
    ensures OursOf(a + b) == OursOf(a) + OursOf(b)
  {
    if b == [] {
      assert a + b == a;
    } else {
      var init, last := b[..|b| - 1], b[|b| - 1];
      OursKeepOrder(a, init);
      assert (a + b)[..|a + b| - 1] == a + init && (a + b)[|a + b| - 1] == last;
      assert OursOf(a + b) == (OursOf(a) + OursOf(init)) + if last.driver == DRIVER_NAME then [last] else [];
    }
  }

  lemma OursHas(results: seq<AllocationResult>, r: AllocationResult)
    ensures r in OursOf(results) <==> r in results && r.driver == "sriovnetwork.k8snetworkplumbingwg.io"
  {
    OursMeans(results, r);
    assert r in OursOf(results) <==> r in multiset(OursOf(results));
    assert r in results <==> r in multiset(results);
  }

  /** No two results name the same device. */
  ghost predicate AllApart(results: seq<AllocationResult>)
  {
    forall i, j :: 0 <= i < j < |results| ==> results[i].device != results[j].device
  }

  lemma {:induction false} OursDistinct(results: seq<AllocationResult>)
    ensures DistinctNames(results) <==> AllApart(OursOf(results))
  {
    if results != [] {
      var before, last := OursOf(results[..|results| - 1]), results[|results| - 1];
      OursDistinct(results[..|results| - 1]);
      forall r ensures r in before <==> r in results[..|results| - 1] && r.driver == DRIVER_NAME {
        OursHas(results[..|results| - 1], r);
      }
      DistinctNext(results, before, last);
      if last.driver == DRIVER_NAME {
        ApartNext(before, last);
        assert OursOf(results) == before + [last];
      } else {
        assert OursOf(results) == before;
      }
    } else {
      assert OursOf(results) == [];
    }
  }

  /** One more result. */
  lemma DistinctNext(results: seq<AllocationResult>, before: seq<AllocationResult>, last: AllocationResult)
    requires results != [] && last == results[|results| - 1]
    requires forall r :: r in before <==> r in results[..|results| - 1] && r.driver == DRIVER_NAME
    ensures DistinctNames(results) <==>
      DistinctNames(results[..|results| - 1]) &&
        (last.driver == DRIVER_NAME ==> forall r :: r in before ==> r.device != last.device)
  {
    var n := |results| - 1;
    var init := results[..n];
    assert forall i :: 0 <= i < n ==> init[i] == results[i];
    if DistinctNames(results) && last.driver == DRIVER_NAME {
      forall r | r in before ensures r.device != last.device {
        var k :| 0 <= k < n && init[k] == r;
        assert results[k] == r;
      }
    }
    if last.driver == DRIVER_NAME && forall r :: r in before ==> r.device != last.device {
      forall k | 0 <= k < n && results[k].driver == DRIVER_NAME ensures results[k].device != last.device {
        assert init[k] in before;
      }
    }
  }

  lemma ApartNext(before: seq<AllocationResult>, last: AllocationResult)
    ensures AllApart(before + [last]) <==> AllApart(before) && forall r :: r in before ==> r.device != last.device
  {
    var all := before + [last];
    assert all[|before|] == last && forall i :: 0 <= i < |before| ==> all[i] == before[i];
    if AllApart(all) {
      forall r | r in before ensures r.device != last.device {
        var i :| 0 <= i < |before| && before[i] == r;
        assert all[i].device != all[|before|].device;
      }
    }
  }

  /** The device of result `r` is to be bound at the address it is named after. */
  lemma {:induction false} WantsHave(devices: Devices, configs: map<string, Settings>, results: seq<AllocationResult>,
                                     i: nat)
    requires i < |WantsOf(devices, configs, results)|
    ensures exists r ::
      r in results && r.driver == DRIVER_NAME && r.device in devices &&
        WantsOf(devices, configs, results)[i].pciAddress == PciOf(devices[r.device])
  {
    var n := |results| - 1;
    if i < |WantsOf(devices, configs, results[..n])| {
      WantsHave(devices, configs, results[..n], i);
    } else {
      assert results[n] in results;
    }
  }

  /** What is asked for, where the table has every device: an address and a driver
      for each result. */
  lemma {:induction false} WantsAre(devices: Devices, configs: map<string, Settings>, results: seq<AllocationResult>)
    requires forall r :: r in results && r.driver == DRIVER_NAME ==> r.device in devices
    ensures |WantsOf(devices, configs, results)| == |OursOf(results)|
    ensures forall i :: 0 <= i < |OursOf(results)| ==>
      OursOf(results)[i].device in devices &&
      WantsOf(devices, configs, results)[i] ==
        Want(PciOf(devices[OursOf(results)[i].device]), SettingsOf(configs, OursOf(results)[i].request).driver)
  {
    if results != [] {
      assert results[|results| - 1] in results;
      WantsAre(devices, configs, results[..|results| - 1]);
    }
  }

  lemma AddressOf(devices: Devices, n: string)
    requires Discovery.FiledByAddress(devices) && n in devices
    ensures Discovery.WellFormedAddress(PciOf(devices[n])) && Discovery.DeviceName(PciOf(devices[n])) == n
  {
    assert Discovery.Filed(devices, n);
  }

  /** Every device with a device-info key has an address. */
  predicate Addressed(devices: seq<PreparedDevice>)
  {
    forall d :: d in devices && InfoKeyOf(d.info).Some? ==> d.info.pciAddress != ""
  }

  /** The specs that unpreparing a claim removes. */
  function SpecsOf(claimUID: string, devices: seq<PreparedDevice>): set<SpecName>
  {
    {ClaimSpec(claimUID)} + if |devices| > 0 then {PodSpec(devices[0].info.podUID)} else {}
  }

  /** Other specs are untouched, and none of these is new. */
  ghost predicate SpecsElsewhere(before: map<SpecName, seq<string>>, now: map<SpecName, seq<string>>,
                                 names: set<SpecName>)
  {
    && now.Keys <= before.Keys
    && forall s :: s in before && (s !in names || s in now) ==> s in now && now[s] == before[s]
  }

  lemma WrittenThenCleaned(before: map<InfoKey, DeviceInfo>, written: map<InfoKey, DeviceInfo>,
                           now: map<InfoKey, DeviceInfo>, keys: set<InfoKey>)
    requires InfosElsewhere(before, written, keys) && InfosElsewhere(written, now, keys)
    ensures InfosElsewhere(before, now, keys)
    ensures now == written - keys ==> now == before - keys
  {
    if now == written - keys {
      assert forall k :: k in now <==> k in before - keys;
    }
  }

  /** Entries under other keys are untouched. */
  ghost predicate InfosElsewhere(before: map<InfoKey, DeviceInfo>, now: map<InfoKey, DeviceInfo>, keys: set<InfoKey>)
  {
    forall k :: k !in keys ==> (k in now <==> k in before) && (k in now ==> now[k] == before[k])
  }

  lemma InfoKeysNext(devices: seq<PreparedDevice>, n: nat)
    requires n < |devices|
    ensures InfoKeys(devices[..n + 1]) ==
      InfoKeys(devices[..n]) + (if InfoKeyOf(devices[n].info).Some? then {InfoKeyOf(devices[n].info).value} else {})
  {
    var before, after := devices[..n], devices[..n + 1];
    forall k | k in InfoKeys(before) ensures k in InfoKeys(after) {
      var i :| 0 <= i < n && InfoKeyOf(before[i].info) == Some(k);
      assert after[i] == before[i];
    }
    forall k | k in InfoKeys(after)
      ensures k in InfoKeys(before) || InfoKeyOf(devices[n].info) == Some(k)
    {
      var i :| 0 <= i < n + 1 && InfoKeyOf(after[i].info) == Some(k);
      if i < n { assert before[i] == after[i]; }
    }
    if InfoKeyOf(devices[n].info).Some? { assert after[n] == devices[n]; }
  }

  /** After an attempt to restore the devices, complete or not. */
  ghost predicate StillUndoable(before: Slots, now: Slots, traits: string -> Traits, devices: seq<PreparedDevice>)
  {
    forall i :: 0 <= i < |devices| ==>
      var info := devices[i].info;
      var (was, left) := (SlotAt(before, info.pciAddress), SlotAt(now, info.pciAddress));
      if info.settings.driver == "" then left == was
      else Attempted(was, traits(info.pciAddress), info.originalDriver, left)
  }

  /** The first `n` devices are restored, the others not touched yet. */
  ghost predicate Halfway(before: Slots, now: Slots, traits: string -> Traits, devices: seq<PreparedDevice>, n: nat)
    requires n <= |devices|
  {
    && Elsewhere(before, now, devices)
    && (DistinctDevices(devices) ==>
          && Restored(before, now, traits, devices, n)
          && forall i :: n <= i < |devices| ==>
            SlotAt(now, devices[i].info.pciAddress) == SlotAt(before, devices[i].info.pciAddress))
  }

  lemma OneMoreRestored(before: Slots, was: Slots, now: Slots, traits: string -> Traits, devices: seq<PreparedDevice>,
                        n: nat)
    requires n < |devices| && Halfway(before, was, traits, devices, n)
    requires Only(devices[n].info.pciAddress, was, now)
    requires var info := devices[n].info;
      info.settings.driver != "" &&
        SlotAt(now, info.pciAddress) == Landed(SlotAt(was, info.pciAddress), traits(info.pciAddress),
                                               info.originalDriver)
    ensures Halfway(before, now, traits, devices, n + 1)
  {
  }

  /** The restore of device `n` broke off. */
  lemma BrokenOffUndoable(before: Slots, was: Slots, now: Slots, traits: string -> Traits, devices: seq<PreparedDevice>,
                          n: nat)
    requires n < |devices| && Halfway(before, was, traits, devices, n)
    requires Only(devices[n].info.pciAddress, was, now)
    requires var info := devices[n].info;
      info.settings.driver != "" &&
        Attempted(SlotAt(was, info.pciAddress), traits(info.pciAddress), info.originalDriver,
                  SlotAt(now, info.pciAddress))
    ensures Elsewhere(before, now, devices)
    ensures DistinctDevices(devices) ==> StillUndoable(before, now, traits, devices)
  {
    if DistinctDevices(devices) {
      forall i | 0 <= i < |devices| && i != n
        ensures SlotAt(now, devices[i].info.pciAddress) == SlotAt(was, devices[i].info.pciAddress) {
      }
    }
  }

  lemma AllRestoredUndoable(before: Slots, now: Slots, traits: string -> Traits, devices: seq<PreparedDevice>)
    requires Halfway(before, now, traits, devices, |devices|)
    ensures DistinctDevices(devices) ==> StillUndoable(before, now, traits, devices)
  {
  }

  predicate Restorable(devices: seq<PreparedDevice>)
  {
    forall d :: d in devices && d.info.settings.driver != "" ==> !Unsupported(d.info.originalDriver)
  }
}
