/** The second half of discovery: from the PFs found on the PCI bus and their VF
    lists to the table of allocatable devices. */
module Discovery {
  import opened Options
  import opened Attributes
  import opened VlanRanges
  import Sorting

  // ---- What the host reports ------------------------------------------------

  /** One VLAN of a bridge port, as netlink lists it. */
  datatype PortVlan = PortVlan(vid: int, untagged: bool)

  /** What the uplink of a switchdev PF carries. */
  datatype Uplink = Uplink(vlanFiltering: bool, untaggedVlan: int, vlans: seq<int>)

  /** A PF candidate. `numaNode` is None when the kernel's text is no number;
      `mtu` and `linkSpeedMbps` are 0 when they could not be read. */
  datatype PFInfo = PFInfo(
    address: string, netName: string, vendorID: string, deviceID: string, eswitchMode: string,
    pcieRoot: string, linkType: string, numaNode: Option<int>, mtu: int, linkSpeedMbps: int,
    uplink: Option<Uplink>)

  datatype VFInfo = VFInfo(pciAddress: string, vfID: int, deviceID: string)

  /** The VLAN part of GetUplinkVlans on a filtering bridge: the member VLANs in
      ascending order, and the last one the port carries untagged (0 if none). */
  method CollectUplinkVlans(ports: seq<PortVlan>) returns (uplink: Uplink)
    ensures uplink.vlanFiltering
    ensures forall v :: v in uplink.vlans <==> exists i :: 0 <= i < |ports| && ports[i].vid == v
    ensures (forall i, j :: 0 <= i < j < |ports| ==> ports[i].vid != ports[j].vid) ==> StrictlyAscending(uplink.vlans)
    ensures (exists i :: 0 <= i < |ports| && ports[i].untagged) ==>
      exists i :: 0 <= i < |ports| && ports[i].untagged && uplink.untaggedVlan == ports[i].vid &&
        forall j :: i < j < |ports| ==> !ports[j].untagged
    ensures (forall i :: 0 <= i < |ports| ==> !ports[i].untagged) ==> uplink.untaggedVlan == 0
  {
    var vlans: seq<int> := [];
    var untaggedVlan := 0;
    for i := 0 to |ports|
      invariant |vlans| == i && forall k :: 0 <= k < i ==> vlans[k] == ports[k].vid
      invariant (forall k :: 0 <= k < i ==> !ports[k].untagged) ==> untaggedVlan == 0
      invariant (exists k :: 0 <= k < i && ports[k].untagged) ==>
        exists k :: 0 <= k < i && ports[k].untagged && untaggedVlan == ports[k].vid &&
          forall j :: k < j < i ==> !ports[j].untagged
    {
      vlans := vlans + [ports[i].vid];
      if ports[i].untagged {
        untaggedVlan := ports[i].vid;
      }
    }
    assert Sorting.Ordering((x: int, y: int) => x <= y);
    var sorted := Sorting.Sort(vlans, (x: int, y: int) => x <= y);
    forall v ensures v in sorted <==> exists i :: 0 <= i < |ports| && ports[i].vid == v {
      Sorting.SameElements(vlans, sorted, v);
      if v in vlans { var k :| 0 <= k < |vlans| && vlans[k] == v; assert ports[k].vid == v; }
      if i :| 0 <= i < |ports| && ports[i].vid == v { assert vlans[i] == v; }
    }
    if forall i, j :: 0 <= i < j < |ports| ==> ports[i].vid != ports[j].vid {
      DistinctStaysDistinct(vlans, sorted);
    }
    uplink := Uplink(true, untaggedVlan, sorted);
  }

  lemma DistinctStaysDistinct(s: seq<int>, r: seq<int>)
    requires multiset(s) == multiset(r)
    requires forall i, j :: 0 <= i < j < |s| ==> s[i] != s[j]
    ensures forall i, j :: 0 <= i < j < |r| ==> r[i] != r[j]
  {
    forall i, j | 0 <= i < j < |r| ensures r[i] != r[j] {
      CountedTwice(r, i, j);
      AtMostOnce(s, r[i]);
    }
  }

  lemma CountedTwice(r: seq<int>, i: nat, j: nat)
    requires i < j < |r|
    ensures r[i] == r[j] ==> multiset(r)[r[i]] >= 2
  {
    assert r == r[..i] + [r[i]] + r[i + 1..j] + [r[j]] + r[j + 1..];
  }

  lemma {:induction false} AtMostOnce(s: seq<int>, x: int)
    requires forall i, j :: 0 <= i < j < |s| ==> s[i] != s[j]
    ensures multiset(s)[x] <= 1
  {
    if s != [] {
      var n := |s| - 1;
      assert s == s[..n] + [s[n]];
      AtMostOnce(s[..n], x);
      if s[n] == x { assert x !in s[..n]; assert x !in multiset(s[..n]); }
    }
  }

  // ---- Names ----------------------------------------------------------------

  /** ':' and '.' become '-'. */
  function DeviceName(address: string): (name: string)
    ensures |name| == |address|
  {
    seq(|address|, i requires 0 <= i < |address| => if address[i] == ':' || address[i] == '.' then '-' else address[i])
  }

  predicate IsHex(c: char) { '0' <= c <= '9' || 'a' <= c <= 'f' || 'A' <= c <= 'F' }

  /** domain:bus:device.function, with a domain of any length. */
  predicate WellFormedAddress(a: string)
  {
    && |a| > 8
    && a[|a| - 8] == ':' && a[|a| - 5] == ':' && a[|a| - 2] == '.'
    && forall i :: 0 <= i < |a| && i != |a| - 8 && i != |a| - 5 && i != |a| - 2 ==> IsHex(a[i])
  }

  lemma DeviceNameMeans(address: string, i: nat)
    requires i < |address|
    ensures DeviceName(address)[i] == if address[i] in ":." then '-' else address[i]
  {
  }

  /** One address, and the name of its device. */
  lemma DeviceNameExample()
    ensures WellFormedAddress("0000:08:00.2") && DeviceName("0000:08:00.2") == "0000-08-00-2"
  {
  }

  /** The renaming keeps PCI addresses apart. */
  lemma DeviceNameInjective(a: string, b: string)
    requires WellFormedAddress(a) && WellFormedAddress(b)
    requires DeviceName(a) == DeviceName(b)
    ensures a == b
  {
    assert |DeviceName(a)| == |DeviceName(b)|;
    forall i | 0 <= i < |a| ensures a[i] == b[i] {
      assert DeviceName(a)[i] == DeviceName(b)[i];
    }
  }

  // ---- Attribute tables -----------------------------------------------------

  function Positive(n: int): Option<Value> { if n > 0 then Some(Num(n)) else None }

  /** NUMA affinity, -1 when the kernel's text is no number. */
  function NumaNodeOf(pf: PFInfo): int
  {
    match pf.numaNode
    case Some(n) => n
    case None => -1
  }

  /** What the PF's own netdev and topology say about both kinds of entry. */
  function CommonAttribute(pf: PFInfo, rdma: bool, k: Key): Option<Value>
  {
    match k
    case VendorID => Some(Str(pf.vendorID))
    case PFDeviceID => Some(Str(pf.deviceID))
    case EswitchMode => Some(Str(pf.eswitchMode))
    case PCIeRoot => Some(Str(pf.pcieRoot))
    case PfPciAddress => Some(Str(pf.address))
    case LinkType => Some(Str(pf.linkType))
    case RDMACapable => Some(Flag(rdma))
    case NUMANode => Some(Num(NumaNodeOf(pf)))
    case StandardNUMANode => if NumaNodeOf(pf) >= 0 then Some(Num(NumaNodeOf(pf))) else None
    case PFName => if pf.netName != "" then Some(Str(pf.netName)) else None
    case PfMTU => Positive(pf.mtu)
    case PfLinkSpeedMbps => Positive(pf.linkSpeedMbps)
    case _ => None
  }

  function PFAttribute(pf: PFInfo, numVFs: nat, rdma: bool, k: Key): Option<Value>
  {
    match k
    case DeviceID => Some(Str(pf.deviceID))
    case PciAddress | MultusDeviceID | StandardPciAddress => Some(Str(pf.address))
    case DeviceType => Some(Str(TYPE_PF))
    case NumVFs => Some(Num(numVFs))
    case _ => CommonAttribute(pf, rdma, k)
  }

  function UplinkAttribute(uplink: Option<Uplink>, k: Key): Option<Value>
  {
    if uplink.None? then None
    else
      var u := uplink.value;
      match k
      case UplinkVlanFiltering => Some(Flag(u.vlanFiltering))
      case UplinkUntaggedVlan => if u.vlanFiltering then Positive(u.untaggedVlan) else None
      case UplinkVlans =>
        if u.vlanFiltering && u.vlans != [] && |Printed(u.vlans)| <= MAX_VALUE_LENGTH then Some(Str(Printed(u.vlans)))
        else None
      case _ => None
  }

  function VFAttribute(pf: PFInfo, vf: VFInfo, rdma: bool, k: Key): Option<Value>
  {
    match k
    case DeviceID => Some(Str(vf.deviceID))
    case PciAddress | MultusDeviceID | StandardPciAddress => Some(Str(vf.pciAddress))
    case DeviceType => Some(Str(TYPE_VF))
    case VFID => Some(Num(vf.vfID))
    case UplinkVlanFiltering | UplinkUntaggedVlan | UplinkVlans => UplinkAttribute(pf.uplink, k)
    case _ => CommonAttribute(pf, rdma, k)
  }

  /** `attrs` holds what `table` says, key by key, and nothing else. */
  ghost predicate Tabulates(attrs: Attrs, table: Key -> Option<Value>)
  {
    forall k: Key :: Lookup(attrs, k) == table(k)
  }

  ghost predicate PFEntry(d: Device, pf: PFInfo, numVFs: nat, rdma: bool)
  {
    d.name == DeviceName(pf.address) && Tabulates(d.attributes, k => PFAttribute(pf, numVFs, rdma, k))
  }

  ghost predicate VFEntry(d: Device, pf: PFInfo, vf: VFInfo, rdma: bool)
  {
    d.name == DeviceName(vf.pciAddress) && Tabulates(d.attributes, k => VFAttribute(pf, vf, rdma, k))
  }

  /** The attributes that are added only when there is something to report. */
  predicate Conditional(k: Key)
  {
    k.StandardNUMANode? || k.PFName? || k.PfMTU? || k.PfLinkSpeedMbps? ||
    k.UplinkVlanFiltering? || k.UplinkUntaggedVlan? || k.UplinkVlans?
  }

  // ---- Building the entries ---------------------------------------------------

  method AddStandardNUMANode(attributes: Attrs, numaNode: int) returns (r: Attrs)
    ensures forall k: Key ::
      Lookup(r, k) == (if k.StandardNUMANode? && numaNode >= 0 then Some(Num(numaNode)) else Lookup(attributes, k))
  {
    if numaNode < 0 {
      return attributes;
    }
    r := attributes[StandardNUMANode := Num(numaNode)];
  }

  method AddPFNetdevAttributes(attributes: Attrs, pf: PFInfo) returns (r: Attrs)
    ensures forall k: Key ::
      Lookup(r, k) == (if (k.PFName? || k.PfMTU? || k.PfLinkSpeedMbps?) && CommonAttribute(pf, false, k).Some?
                       then CommonAttribute(pf, false, k) else Lookup(attributes, k))
  {
    r := attributes;
    if pf.netName != "" {
      r := r[PFName := Str(pf.netName)];
    }
    if pf.mtu > 0 {
      r := r[PfMTU := Num(pf.mtu)];
    }
    if pf.linkSpeedMbps > 0 {
      r := r[PfLinkSpeedMbps := Num(pf.linkSpeedMbps)];
    }
  }

  method AddUplinkVlanAttributes(attributes: Attrs, uplink: Option<Uplink>) returns (r: Attrs)
    requires uplink.Some? ==> NonNegative(uplink.value.vlans)
    ensures forall k: Key ::
      Lookup(r, k) == (if UplinkAttribute(uplink, k).Some? then UplinkAttribute(uplink, k) else Lookup(attributes, k))
  {
    r := attributes;
    if uplink.None? {
      return;
    }
    var u := uplink.value;
    r := r[UplinkVlanFiltering := Flag(u.vlanFiltering)];
    if !u.vlanFiltering {
      return;
    }
    if u.untaggedVlan > 0 {
      r := r[UplinkUntaggedVlan := Num(u.untaggedVlan)];
    }
    ghost var tagged := r;
    var vlans := FormatVlanRanges(u.vlans);
    RoundTrip(u.vlans);
    if vlans != "" && |vlans| <= MAX_VALUE_LENGTH {
      r := r[UplinkVlans := Str(vlans)];
    }
    forall k: Key
      ensures Lookup(r, k) == (if UplinkAttribute(uplink, k).Some? then UplinkAttribute(uplink, k)
                               else Lookup(attributes, k))
    {
      UplinkReads(attributes, u, tagged, r, k);
    }
  }

  lemma UplinkReads(attributes: Attrs, u: Uplink, tagged: Attrs, r: Attrs, k: Key)
    requires u.vlanFiltering && (Printed(u.vlans) == "" <==> u.vlans == [])
    requires var filtered := attributes[UplinkVlanFiltering := Flag(true)];
      tagged == if u.untaggedVlan > 0 then filtered[UplinkUntaggedVlan := Num(u.untaggedVlan)] else filtered
    requires r == if u.vlans != [] && |Printed(u.vlans)| <= MAX_VALUE_LENGTH
                  then tagged[UplinkVlans := Str(Printed(u.vlans))] else tagged
    ensures Lookup(r, k) == (if UplinkAttribute(Some(u), k).Some? then UplinkAttribute(Some(u), k)
                             else Lookup(attributes, k))
  {
  }

  /** The attributes every PF entry starts from. */
  method NewPFAttributes(pf: PFInfo, numVFs: nat, rdma: bool) returns (attributes: Attrs)
    ensures forall k: Key :: Lookup(attributes, k) == if Conditional(k) then None else PFAttribute(pf, numVFs, rdma, k)
  {
    attributes := map[
      VendorID := Str(pf.vendorID),
      DeviceID := Str(pf.deviceID),
      PFDeviceID := Str(pf.deviceID),
      PciAddress := Str(pf.address),
      MultusDeviceID := Str(pf.address),
      DeviceType := Str(TYPE_PF),
      NumVFs := Num(numVFs),
      EswitchMode := Str(pf.eswitchMode),
      PCIeRoot := Str(pf.pcieRoot),
      PfPciAddress := Str(pf.address),
      StandardPciAddress := Str(pf.address),
      LinkType := Str(pf.linkType),
      RDMACapable := Flag(rdma),
      NUMANode := Num(NumaNodeOf(pf))
    ];
  }

  method BuildPFDevice(pf: PFInfo, numVFs: nat, rdma: bool) returns (d: Device)
    ensures PFEntry(d, pf, numVFs, rdma)
  {
    var attributes := NewPFAttributes(pf, numVFs, rdma);
    attributes := AddStandardNUMANode(attributes, NumaNodeOf(pf));
    attributes := AddPFNetdevAttributes(attributes, pf);
    d := Device(DeviceName(pf.address), attributes);
  }

  /** The attributes every VF entry starts from. */
  method NewVFAttributes(pf: PFInfo, vf: VFInfo, rdma: bool) returns (attributes: Attrs)
    ensures forall k: Key :: Lookup(attributes, k) == if Conditional(k) then None else VFAttribute(pf, vf, rdma, k)
  {
    attributes := map[
      VendorID := Str(pf.vendorID),
      DeviceID := Str(vf.deviceID),
      PFDeviceID := Str(pf.deviceID),
      PciAddress := Str(vf.pciAddress),
      MultusDeviceID := Str(vf.pciAddress),
      DeviceType := Str(TYPE_VF),
      EswitchMode := Str(pf.eswitchMode),
      VFID := Num(vf.vfID),
      PCIeRoot := Str(pf.pcieRoot),
      PfPciAddress := Str(pf.address),
      StandardPciAddress := Str(vf.pciAddress),
      LinkType := Str(pf.linkType),
      RDMACapable := Flag(rdma),
      NUMANode := Num(NumaNodeOf(pf))
    ];
  }

  method BuildVFDevice(pf: PFInfo, vf: VFInfo, rdma: bool) returns (d: Device)
    requires pf.uplink.Some? ==> NonNegative(pf.uplink.value.vlans)
    ensures VFEntry(d, pf, vf, rdma)
  {
    var attributes := NewVFAttributes(pf, vf, rdma);
    attributes := AddStandardNUMANode(attributes, NumaNodeOf(pf));
    attributes := AddPFNetdevAttributes(attributes, pf);
    attributes := AddUplinkVlanAttributes(attributes, pf.uplink);
    d := Device(DeviceName(vf.pciAddress), attributes);
  }

  // ---- The device table -------------------------------------------------------

  /** Where an entry comes from: PF `i`, or VF `j` of PF `i`. */
  datatype Source = PFSource(i: nat) | VFSource(i: nat, j: nat)

  predicate IsSource(pfs: seq<PFInfo>, vfs: seq<seq<VFInfo>>, s: Source)
    requires |vfs| == |pfs|
  {
    match s
    case PFSource(i) => i < |pfs|
    case VFSource(i, j) => i < |pfs| && j < |vfs[i]|
  }

  function Address(pfs: seq<PFInfo>, vfs: seq<seq<VFInfo>>, s: Source): string
    requires |vfs| == |pfs| && IsSource(pfs, vfs, s)
  {
    match s
    case PFSource(i) => pfs[i].address
    case VFSource(i, j) => vfs[i][j].pciAddress
  }

  /** `d` is the entry of source `s`. `rdma` is what the host says of an address. */
  ghost predicate EntryOf(pfs: seq<PFInfo>, vfs: seq<seq<VFInfo>>, rdma: string -> bool, s: Source, d: Device)
  {
    |vfs| == |pfs| && IsSource(pfs, vfs, s) &&
    match s
    case PFSource(i) => PFEntry(d, pfs[i], |vfs[i]|, rdma(pfs[i].address))
    case VFSource(i, j) => VFEntry(d, pfs[i], vfs[i][j], rdma(vfs[i][j].pciAddress))
  }

  /** Every PCI function on the list has its own well-formed address. */
  ghost predicate DistinctAddresses(pfs: seq<PFInfo>, vfs: seq<seq<VFInfo>>)
    requires |vfs| == |pfs|
  {
    && (forall s :: IsSource(pfs, vfs, s) ==> WellFormedAddress(Address(pfs, vfs, s)))
    && (forall s, t :: IsSource(pfs, vfs, s) && IsSource(pfs, vfs, t) && s != t ==>
          Address(pfs, vfs, s) != Address(pfs, vfs, t))
  }

  ghost predicate DistinctNames(pfs: seq<PFInfo>, vfs: seq<seq<VFInfo>>)
    requires |vfs| == |pfs|
  {
    forall s, t :: IsSource(pfs, vfs, s) && IsSource(pfs, vfs, t) && s != t ==>
      DeviceName(Address(pfs, vfs, s)) != DeviceName(Address(pfs, vfs, t))
  }

  lemma NamesDistinct(pfs: seq<PFInfo>, vfs: seq<seq<VFInfo>>)
    requires |vfs| == |pfs| && DistinctAddresses(pfs, vfs)
    ensures DistinctNames(pfs, vfs)
  {
    forall s, t | IsSource(pfs, vfs, s) && IsSource(pfs, vfs, t) && s != t
      ensures DeviceName(Address(pfs, vfs, s)) != DeviceName(Address(pfs, vfs, t))
    {
      if DeviceName(Address(pfs, vfs, s)) == DeviceName(Address(pfs, vfs, t)) {
        DeviceNameInjective(Address(pfs, vfs, s), Address(pfs, vfs, t));
      }
    }
  }

  /** The table files exactly the sources in `filed`, each under its name and
      with an entry that `entry` accepts. */
  ghost predicate Files<S>(filed: set<S>, name: S -> string, entry: (S, Device) -> bool, devices: Devices)
  {
    && (forall s :: s in filed ==> name(s) in devices && entry(s, devices[name(s)]) && devices[name(s)].name == name(s))
    && (forall n :: n in devices ==> exists s :: s in filed && name(s) == n)
  }

  /** A VF that is not filed yet is filed under a name of its own. */
  lemma FileVF(pfs: seq<PFInfo>, vfs: seq<seq<VFInfo>>, rdma: string -> bool, filed: set<Source>,
               name: Source -> string, entry: (Source, Device) -> bool, devices: Devices, s: Source, d: Device)
    requires |vfs| == |pfs| && Filing(pfs, vfs, rdma, name, entry, true) && Files(filed, name, entry, devices)
    requires (forall t :: t in filed ==> IsSource(pfs, vfs, t)) && s !in filed
    requires EntryOf(pfs, vfs, rdma, s, d) && d.name == name(s)
    ensures Files(filed + {s}, name, entry, devices[d.name := d]) && |devices[d.name := d]| == |devices| + 1
  {
    FileEntry(filed, name, entry, devices, s, d);
  }

  lemma FileEntry<S>(filed: set<S>, name: S -> string, entry: (S, Device) -> bool, devices: Devices, s: S, d: Device)
    requires Files(filed, name, entry, devices)
    requires forall t :: t in filed ==> name(t) != name(s)
    requires d.name == name(s) && entry(s, d)
    ensures d.name !in devices
    ensures Files(filed + {s}, name, entry, devices[d.name := d])
  {
    var devices' := devices[d.name := d];
    forall n | n in devices' ensures exists t :: t in filed + {s} && name(t) == n {
      if n != d.name {
        var t :| t in filed && name(t) == n;
        assert t in filed + {s};
      } else {
        assert s in filed + {s};
      }
    }
  }

  function Total(vfs: seq<seq<VFInfo>>): nat
  {
    if vfs == [] then 0 else Total(vfs[..|vfs| - 1]) + |vfs[|vfs| - 1]|
  }

  /** How the sources are told apart, and which devices are entries of which
      source. `distinct` says that no name is used twice. */
  ghost predicate Filing(pfs: seq<PFInfo>, vfs: seq<seq<VFInfo>>, rdma: string -> bool,
                         name: Source -> string, entry: (Source, Device) -> bool, distinct: bool)
    requires |vfs| == |pfs|
  {
    && (forall s :: IsSource(pfs, vfs, s) ==> name(s) == DeviceName(Address(pfs, vfs, s)))
    && (forall s, d :: EntryOf(pfs, vfs, rdma, s, d) ==> entry(s, d))
    && (distinct ==> forall s, t :: IsSource(pfs, vfs, s) && IsSource(pfs, vfs, t) && s != t ==> name(s) != name(t))
  }

  /** Files the VF entries of PF `i`. */
  method AddVFDevices(pfs: seq<PFInfo>, i: nat, vfList: seq<VFInfo>, rdma: string -> bool, devices: Devices,
                      ghost vfs: seq<seq<VFInfo>>, ghost filed: set<Source>, ghost name: Source -> string,
                      ghost entry: (Source, Device) -> bool, ghost distinct: bool)
    returns (resourceList: Devices, ghost filed': set<Source>)
    requires |vfs| == |pfs| && i < |pfs| && vfs[i] == vfList
    requires pfs[i].uplink.Some? ==> NonNegative(pfs[i].uplink.value.vlans)
    requires Filing(pfs, vfs, rdma, name, entry, distinct)
    requires distinct ==> Files(filed, name, entry, devices)
    requires forall s :: s in filed ==> IsSource(pfs, vfs, s) && (s.VFSource? ==> s.i < i)
    ensures forall s :: s in filed' <==> s in filed || (s.VFSource? && s.i == i && s.j < |vfList|)
    ensures distinct ==> Files(filed', name, entry, resourceList) && |resourceList| == |devices| + |vfList|
  {
    resourceList, filed' := devices, filed;
    for j := 0 to |vfList|
      invariant forall s :: s in filed' <==> s in filed || (s.VFSource? && s.i == i && s.j < j)
      invariant distinct ==> Files(filed', name, entry, resourceList) && |resourceList| == |devices| + j
    {
      var vfDevice := BuildVFDevice(pfs[i], vfList[j], rdma(vfList[j].pciAddress));
      ghost var s := VFSource(i, j);
      assert EntryOf(pfs, vfs, rdma, s, vfDevice) && vfDevice.name == name(s);
      if distinct { FileVF(pfs, vfs, rdma, filed', name, entry, resourceList, s, vfDevice); }
      resourceList := resourceList[vfDevice.name := vfDevice];
      filed' := filed' + {s};
    }
  }

  /** Exactly the sources of the first `n` PFs are filed. */
  ghost predicate FiledUpTo(filed: set<Source>, pfs: seq<PFInfo>, vfs: seq<seq<VFInfo>>, n: nat)
    requires |vfs| == |pfs|
  {
    forall s :: s in filed <==> IsSource(pfs, vfs, s) && s.i < n
  }

  lemma TotalNext(vfs: seq<seq<VFInfo>>, i: nat)
    requires i < |vfs|
    ensures Total(vfs[..i + 1]) == Total(vfs[..i]) + |vfs[i]|
  {
    assert vfs[..i + 1][..i] == vfs[..i];
  }

  /** Files the entry of PF `i` and those of its VFs. */
  method AddPFDevices(pfs: seq<PFInfo>, i: nat, vfList: seq<VFInfo>, rdma: string -> bool, devices: Devices,
                      ghost vfs: seq<seq<VFInfo>>, ghost filed: set<Source>, ghost name: Source -> string,
                      ghost entry: (Source, Device) -> bool, ghost distinct: bool)
    returns (resourceList: Devices, ghost filed': set<Source>)
    requires |vfs| == |pfs| && i < |pfs| && vfs[i] == vfList
    requires pfs[i].uplink.Some? ==> NonNegative(pfs[i].uplink.value.vlans)
    requires Filing(pfs, vfs, rdma, name, entry, distinct)
    requires distinct ==> Files(filed, name, entry, devices)
    requires FiledUpTo(filed, pfs, vfs, i)
    ensures FiledUpTo(filed', pfs, vfs, i + 1)
    ensures distinct ==> Files(filed', name, entry, resourceList) && |resourceList| == |devices| + 1 + |vfList|
  {
    var pfDevice := BuildPFDevice(pfs[i], |vfList|, rdma(pfs[i].address));
    ghost var s := PFSource(i);
    assert EntryOf(pfs, vfs, rdma, s, pfDevice) && pfDevice.name == name(s);
    if distinct {
      assert IsSource(pfs, vfs, s);
      FileEntry(filed, name, entry, devices, s, pfDevice);
    }
    resourceList := devices[pfDevice.name := pfDevice];
    filed' := filed + {s};
    resourceList, filed' := AddVFDevices(pfs, i, vfList, rdma, resourceList, vfs, filed', name, entry, distinct);
  }

  /** The entries of the first `n` PFs and of their VFs are filed. */
  ghost predicate FiledSoFar(filed: set<Source>, pfs: seq<PFInfo>, vfs: seq<seq<VFInfo>>, name: Source -> string,
                             entry: (Source, Device) -> bool, distinct: bool, devices: Devices, n: nat)
    requires |vfs| == |pfs| && n <= |pfs|
  {
    && FiledUpTo(filed, pfs, vfs, n)
    && (distinct ==> Files(filed, name, entry, devices) && |devices| == n + Total(vfs[..n]))
  }

  method AddDevices(pfs: seq<PFInfo>, vfLists: seq<Option<seq<VFInfo>>>, rdma: string -> bool,
                    ghost vfs: seq<seq<VFInfo>>, ghost name: Source -> string, ghost entry: (Source, Device) -> bool,
                    ghost distinct: bool)
    returns (r: Result<Devices, string>, ghost filed: set<Source>)
    requires |vfs| == |vfLists| == |pfs|
    requires forall i :: 0 <= i < |pfs| && vfLists[i].Some? ==> vfs[i] == vfLists[i].value
    requires forall i :: 0 <= i < |pfs| && pfs[i].uplink.Some? ==> NonNegative(pfs[i].uplink.value.vlans)
    requires Filing(pfs, vfs, rdma, name, entry, distinct)
    ensures r.Err? <==> exists i :: 0 <= i < |pfs| && vfLists[i].None?
    ensures r.Ok? ==> forall s :: s in filed <==> IsSource(pfs, vfs, s)
    ensures r.Ok? && distinct ==> Files(filed, name, entry, r.value) && |r.value| == |pfs| + Total(vfs)
  {
    filed := {};
    var resourceList: Devices := map[];
    NoneFiled(pfs, vfs, name, entry, distinct);
    for i := 0 to |pfs|
      invariant forall k :: 0 <= k < i ==> vfLists[k].Some?
      invariant FiledSoFar(filed, pfs, vfs, name, entry, distinct, resourceList, i)
    {
      if vfLists[i].None? {
        return Err("error getting VF list"), filed;
      }
      resourceList, filed := AddNext(pfs, i, vfLists[i].value, rdma, resourceList, vfs, filed, name, entry, distinct);
    }
    AllFiled(filed, pfs, vfs, name, entry, distinct, resourceList);
    r := Ok(resourceList);
  }

  method AddNext(pfs: seq<PFInfo>, i: nat, vfList: seq<VFInfo>, rdma: string -> bool, devices: Devices,
                 ghost vfs: seq<seq<VFInfo>>, ghost filed: set<Source>, ghost name: Source -> string,
                 ghost entry: (Source, Device) -> bool, ghost distinct: bool)
    returns (resourceList: Devices, ghost filed': set<Source>)
    requires |vfs| == |pfs| && i < |pfs| && vfs[i] == vfList
    requires pfs[i].uplink.Some? ==> NonNegative(pfs[i].uplink.value.vlans)
    requires Filing(pfs, vfs, rdma, name, entry, distinct)
    requires FiledSoFar(filed, pfs, vfs, name, entry, distinct, devices, i)
    ensures FiledSoFar(filed', pfs, vfs, name, entry, distinct, resourceList, i + 1)
  {
    resourceList, filed' := AddPFDevices(pfs, i, vfList, rdma, devices, vfs, filed, name, entry, distinct);
    TotalNext(vfs, i);
  }

  lemma NoneFiled(pfs: seq<PFInfo>, vfs: seq<seq<VFInfo>>, name: Source -> string, entry: (Source, Device) -> bool,
                  distinct: bool)
    requires |vfs| == |pfs|
    ensures FiledSoFar({}, pfs, vfs, name, entry, distinct, map[], 0)
  {
  }

  lemma AllFiled(filed: set<Source>, pfs: seq<PFInfo>, vfs: seq<seq<VFInfo>>, name: Source -> string,
                 entry: (Source, Device) -> bool, distinct: bool, devices: Devices)
    requires |vfs| == |pfs| && FiledSoFar(filed, pfs, vfs, name, entry, distinct, devices, |pfs|)
    ensures forall s :: s in filed <==> IsSource(pfs, vfs, s)
    ensures distinct ==> Files(filed, name, entry, devices) && |devices| == |pfs| + Total(vfs)
  {
    assert vfs[..|pfs|] == vfs;
  }

  /** One entry per PF and per VF. `vfLists[i]` is None when the host cannot list
      the VFs of PF `i`, which ends discovery with an error. */
  method DiscoverSriovDevices(pfs: seq<PFInfo>, vfLists: seq<Option<seq<VFInfo>>>, rdma: string -> bool)
    returns (r: Result<Devices, string>)
    requires |vfLists| == |pfs|
    requires forall i :: 0 <= i < |pfs| && pfs[i].uplink.Some? ==> NonNegative(pfs[i].uplink.value.vlans)
    ensures r.Err? <==> exists i :: 0 <= i < |pfs| && vfLists[i].None?
    ensures r.Ok? && DistinctAddresses(pfs, Listed(vfLists)) ==> Discovered(pfs, Listed(vfLists), rdma, r.value)
    ensures r.Ok? && DistinctAddresses(pfs, Listed(vfLists)) ==> |r.value| == |pfs| + Total(Listed(vfLists))
  {
    ghost var vfs := Listed(vfLists);
    ghost var filed: set<Source>;
    FilingByName(pfs, vfs, rdma);
    r, filed := AddDevices(pfs, vfLists, rdma, vfs, s => NameOf(pfs, vfs, s), (s, d) => EntryOf(pfs, vfs, rdma, s, d),
      DistinctAddresses(pfs, vfs));
    if r.Ok? && DistinctAddresses(pfs, vfs) {
      FilesIsDiscovered(pfs, vfs, rdma, filed, r.value);
    }
  }

  lemma FilingByName(pfs: seq<PFInfo>, vfs: seq<seq<VFInfo>>, rdma: string -> bool)
    requires |vfs| == |pfs|
    ensures Filing(pfs, vfs, rdma, s => NameOf(pfs, vfs, s), (s, d) => EntryOf(pfs, vfs, rdma, s, d),
                   DistinctAddresses(pfs, vfs))
  {
    if DistinctAddresses(pfs, vfs) { NamesDistinct(pfs, vfs); }
  }

  lemma FilesIsDiscovered(pfs: seq<PFInfo>, vfs: seq<seq<VFInfo>>, rdma: string -> bool, filed: set<Source>,
                          devices: Devices)
    requires |vfs| == |pfs| && DistinctAddresses(pfs, vfs)
    requires forall s :: s in filed <==> IsSource(pfs, vfs, s)
    requires Files(filed, s => NameOf(pfs, vfs, s), (s, d) => EntryOf(pfs, vfs, rdma, s, d), devices)
    ensures Discovered(pfs, vfs, rdma, devices)
  {
  }

  ghost function NameOf(pfs: seq<PFInfo>, vfs: seq<seq<VFInfo>>, s: Source): string
  {
    if |vfs| == |pfs| && IsSource(pfs, vfs, s) then DeviceName(Address(pfs, vfs, s)) else ""
  }

  ghost function Listed(vfLists: seq<Option<seq<VFInfo>>>): (vfs: seq<seq<VFInfo>>)
    ensures |vfs| == |vfLists|
  {
    seq(|vfLists|, i requires 0 <= i < |vfLists| => if vfLists[i].Some? then vfLists[i].value else [])
  }

  /** The table discovery hands over, under distinct addresses: one entry per
      PF and VF, filed under its own name, and nothing else. */
  ghost predicate Discovered(pfs: seq<PFInfo>, vfs: seq<seq<VFInfo>>, rdma: string -> bool, devices: Devices)
  {
    && |vfs| == |pfs| && DistinctAddresses(pfs, vfs)
    && (forall s :: IsSource(pfs, vfs, s) ==>
          NameOf(pfs, vfs, s) in devices && EntryOf(pfs, vfs, rdma, s, devices[NameOf(pfs, vfs, s)]) &&
          devices[NameOf(pfs, vfs, s)].name == NameOf(pfs, vfs, s))
    && (forall n :: n in devices ==> exists s :: IsSource(pfs, vfs, s) && NameOf(pfs, vfs, s) == n)
  }

  // ---- What the table guarantees ----------------------------------------------

  lemma PFEntryReads(d: Device, pf: PFInfo, numVFs: nat, rdma: bool)
    requires PFEntry(d, pf, numVFs, rdma)
    ensures DeviceTypeOf(d) == TYPE_PF && DeviceNumVFs(d) == numVFs
    ensures StringAttribute(d, PciAddress) == StringAttribute(d, PfPciAddress) == Some(pf.address)
    ensures forall k :: k in d.attributes ==> Reserved(k)
  {
    var table := k => PFAttribute(pf, numVFs, rdma, k);
    assert Lookup(d.attributes, DeviceType) == table(DeviceType);
    assert Lookup(d.attributes, NumVFs) == table(NumVFs);
    assert Lookup(d.attributes, PciAddress) == table(PciAddress);
    assert Lookup(d.attributes, PfPciAddress) == table(PfPciAddress);
    forall k | k in d.attributes ensures Reserved(k) { assert Lookup(d.attributes, k) == table(k); }
  }

  lemma VFEntryReads(d: Device, pf: PFInfo, vf: VFInfo, rdma: bool)
    requires VFEntry(d, pf, vf, rdma)
    ensures DeviceTypeOf(d) == TYPE_VF
    ensures StringAttribute(d, PciAddress) == Some(vf.pciAddress)
    ensures StringAttribute(d, PfPciAddress) == Some(pf.address)
    ensures forall k :: k in d.attributes ==> Reserved(k)
  {
    var table := k => VFAttribute(pf, vf, rdma, k);
    assert Lookup(d.attributes, DeviceType) == table(DeviceType);
    assert Lookup(d.attributes, PciAddress) == table(PciAddress);
    assert Lookup(d.attributes, PfPciAddress) == table(PfPciAddress);
    forall k | k in d.attributes ensures Reserved(k) { assert Lookup(d.attributes, k) == table(k); }
  }

  lemma Tabulated(d: Device, table: Key -> Option<Value>, k: Key)
    requires Tabulates(d.attributes, table)
    ensures k in d.attributes <==> table(k).Some?
    ensures k in d.attributes ==> Some(d.attributes[k]) == table(k)
  {
    assert Lookup(d.attributes, k) == table(k);
  }

  lemma PFEntrySaysOfPF(d: Device, pf: PFInfo, numVFs: nat, rdma: bool)
    requires PFEntry(d, pf, numVFs, rdma)
    ensures SaysOfPF(d, pf, rdma)
  {
    var table := k => PFAttribute(pf, numVFs, rdma, k);
    Tabulated(d, table, PCIeRoot);
    Tabulated(d, table, LinkType);
    Tabulated(d, table, RDMACapable);
    Tabulated(d, table, NUMANode);
    Tabulated(d, table, StandardNUMANode);
    Tabulated(d, table, PFName);
    Tabulated(d, table, PfMTU);
    Tabulated(d, table, PfLinkSpeedMbps);
  }

  lemma VFEntrySaysOfPF(d: Device, pf: PFInfo, vf: VFInfo, rdma: bool)
    requires VFEntry(d, pf, vf, rdma)
    ensures SaysOfPF(d, pf, rdma)
  {
    var table := k => VFAttribute(pf, vf, rdma, k);
    Tabulated(d, table, PCIeRoot);
    Tabulated(d, table, LinkType);
    Tabulated(d, table, RDMACapable);
    Tabulated(d, table, NUMANode);
    Tabulated(d, table, StandardNUMANode);
    Tabulated(d, table, PFName);
    Tabulated(d, table, PfMTU);
    Tabulated(d, table, PfLinkSpeedMbps);
  }

  /** What a PF entry says, attribute by attribute. */
  lemma PFEntrySays(d: Device, pf: PFInfo, numVFs: nat, rdma: bool)
    requires PFEntry(d, pf, numVFs, rdma)
    ensures Says(d, DeviceType, Str("pf")) && Says(d, NumVFs, Num(numVFs)) && VFID !in d.attributes
    ensures Says(d, VendorID, Str(pf.vendorID)) && Says(d, EswitchMode, Str(pf.eswitchMode))
    ensures Says(d, DeviceID, Str(pf.deviceID)) && Says(d, PFDeviceID, Str(pf.deviceID))
    ensures Says(d, PciAddress, Str(pf.address)) && Says(d, PfPciAddress, Str(pf.address))
    ensures Says(d, StandardPciAddress, Str(pf.address)) && Says(d, MultusDeviceID, Str(pf.address))
    ensures SaysOfPF(d, pf, rdma)
    ensures UplinkVlanFiltering !in d.attributes && UplinkUntaggedVlan !in d.attributes && UplinkVlans !in d.attributes
  {
    var table := k => PFAttribute(pf, numVFs, rdma, k);
    Tabulated(d, table, DeviceType);
    Tabulated(d, table, NumVFs);
    Tabulated(d, table, VFID);
    Tabulated(d, table, VendorID);
    Tabulated(d, table, EswitchMode);
    Tabulated(d, table, DeviceID);
    Tabulated(d, table, PFDeviceID);
    PFEntryAddresses(d, pf, numVFs, rdma);
    PFEntrySaysOfPF(d, pf, numVFs, rdma);
  }

  lemma PFEntryAddresses(d: Device, pf: PFInfo, numVFs: nat, rdma: bool)
    requires PFEntry(d, pf, numVFs, rdma)
    ensures Says(d, PciAddress, Str(pf.address)) && Says(d, PfPciAddress, Str(pf.address))
    ensures Says(d, StandardPciAddress, Str(pf.address)) && Says(d, MultusDeviceID, Str(pf.address))
    ensures UplinkVlanFiltering !in d.attributes && UplinkUntaggedVlan !in d.attributes && UplinkVlans !in d.attributes
  {
    var table := k => PFAttribute(pf, numVFs, rdma, k);
    Tabulated(d, table, PciAddress);
    Tabulated(d, table, PfPciAddress);
    Tabulated(d, table, StandardPciAddress);
    Tabulated(d, table, MultusDeviceID);
    Tabulated(d, table, UplinkVlanFiltering);
    Tabulated(d, table, UplinkUntaggedVlan);
    Tabulated(d, table, UplinkVlans);
  }

  /** What a VF entry says, attribute by attribute. */
  lemma VFEntrySays(d: Device, pf: PFInfo, vf: VFInfo, rdma: bool)
    requires VFEntry(d, pf, vf, rdma)
    ensures Says(d, DeviceType, Str("vf")) && Says(d, VFID, Num(vf.vfID)) && NumVFs !in d.attributes
    ensures Says(d, VendorID, Str(pf.vendorID)) && Says(d, EswitchMode, Str(pf.eswitchMode))
    ensures Says(d, DeviceID, Str(vf.deviceID)) && Says(d, PFDeviceID, Str(pf.deviceID))
    ensures Says(d, PciAddress, Str(vf.pciAddress)) && Says(d, PfPciAddress, Str(pf.address))
    ensures Says(d, StandardPciAddress, Str(vf.pciAddress)) && Says(d, MultusDeviceID, Str(vf.pciAddress))
    ensures SaysOfPF(d, pf, rdma)
    ensures pf.uplink.None? <==> UplinkVlanFiltering !in d.attributes
    ensures pf.uplink.Some? ==> Says(d, UplinkVlanFiltering, Flag(pf.uplink.value.vlanFiltering))
    ensures UplinkUntaggedVlan in d.attributes <==>
      pf.uplink.Some? && pf.uplink.value.vlanFiltering && pf.uplink.value.untaggedVlan > 0
    ensures UplinkUntaggedVlan in d.attributes ==> Says(d, UplinkUntaggedVlan, Num(pf.uplink.value.untaggedVlan))
  {
    var table := k => VFAttribute(pf, vf, rdma, k);
    Tabulated(d, table, DeviceType);
    Tabulated(d, table, NumVFs);
    Tabulated(d, table, VFID);
    Tabulated(d, table, VendorID);
    Tabulated(d, table, EswitchMode);
    Tabulated(d, table, DeviceID);
    Tabulated(d, table, PFDeviceID);
    Tabulated(d, table, PciAddress);
    Tabulated(d, table, PfPciAddress);
    Tabulated(d, table, StandardPciAddress);
    Tabulated(d, table, MultusDeviceID);
    Tabulated(d, table, UplinkVlanFiltering);
    Tabulated(d, table, UplinkUntaggedVlan);
    VFEntrySaysOfPF(d, pf, vf, rdma);
  }

  predicate Says(d: Device, k: Key, v: Value) { k in d.attributes && d.attributes[k] == v }

  /** What both kinds of entry say of the PF. */
  predicate SaysOfPF(d: Device, pf: PFInfo, rdma: bool)
  {
    && Says(d, PCIeRoot, Str(pf.pcieRoot)) && Says(d, LinkType, Str(pf.linkType)) && Says(d, RDMACapable, Flag(rdma))
    && Says(d, NUMANode, Num(if pf.numaNode.Some? then pf.numaNode.value else -1))
    && (StandardNUMANode in d.attributes <==> pf.numaNode.Some? && pf.numaNode.value >= 0)
    && (StandardNUMANode in d.attributes ==> Says(d, StandardNUMANode, Num(pf.numaNode.value)))
    && (PFName in d.attributes <==> pf.netName != "") && (PFName in d.attributes ==> Says(d, PFName, Str(pf.netName)))
    && (PfMTU in d.attributes <==> pf.mtu > 0) && (PfMTU in d.attributes ==> Says(d, PfMTU, Num(pf.mtu)))
    && (PfLinkSpeedMbps in d.attributes <==> pf.linkSpeedMbps > 0)
    && (PfLinkSpeedMbps in d.attributes ==> Says(d, PfLinkSpeedMbps, Num(pf.linkSpeedMbps)))
  }

  // ---- Names and addresses ------------------------------------------------------

  /** The entry holds a PCI address, and is filed under the name of that address. */
  ghost predicate Filed(devices: Devices, n: string)
    requires n in devices
  {
    exists a :: WellFormedAddress(a) && DeviceName(a) == n && Says(devices[n], PciAddress, Str(a))
  }

  ghost predicate FiledByAddress(devices: Devices)
  {
    forall n :: n in devices ==> Filed(devices, n)
  }

  /** The address that an entry holds is the one that its name is made from. */
  lemma FiledHolds(devices: Devices, a: string)
    requires FiledByAddress(devices) && WellFormedAddress(a) && DeviceName(a) in devices
    ensures Says(devices[DeviceName(a)], PciAddress, Str(a))
  {
    assert Filed(devices, DeviceName(a));
    var b :| WellFormedAddress(b) && DeviceName(b) == DeviceName(a) && Says(devices[DeviceName(a)], PciAddress, Str(b));
    DeviceNameInjective(a, b);
  }

  /** After discovery that is so, and every PF and VF has its entry. */
  lemma DiscoveredIsFiled(pfs: seq<PFInfo>, vfs: seq<seq<VFInfo>>, rdma: string -> bool, devices: Devices)
    requires Discovered(pfs, vfs, rdma, devices)
    ensures FiledByAddress(devices)
    ensures forall i :: 0 <= i < |pfs| ==> WellFormedAddress(pfs[i].address) && DeviceName(pfs[i].address) in devices
    ensures forall i, j :: 0 <= i < |pfs| && 0 <= j < |vfs[i]| ==>
      WellFormedAddress(vfs[i][j].pciAddress) && DeviceName(vfs[i][j].pciAddress) in devices
  {
    forall s | IsSource(pfs, vfs, s)
      ensures WellFormedAddress(Address(pfs, vfs, s)) && DeviceName(Address(pfs, vfs, s)) in devices
      ensures Says(devices[DeviceName(Address(pfs, vfs, s))], PciAddress, Str(Address(pfs, vfs, s)))
    {
      SourceSaysAddress(pfs, vfs, rdma, devices, s);
    }
    forall n | n in devices ensures Filed(devices, n) {
      var s :| IsSource(pfs, vfs, s) && NameOf(pfs, vfs, s) == n;
      assert DeviceName(Address(pfs, vfs, s)) == n;
    }
    forall i | 0 <= i < |pfs|
      ensures WellFormedAddress(pfs[i].address) && DeviceName(pfs[i].address) in devices
    {
      assert IsSource(pfs, vfs, PFSource(i)) && Address(pfs, vfs, PFSource(i)) == pfs[i].address;
    }
    forall i, j | 0 <= i < |pfs| && 0 <= j < |vfs[i]|
      ensures WellFormedAddress(vfs[i][j].pciAddress) && DeviceName(vfs[i][j].pciAddress) in devices
    {
      assert IsSource(pfs, vfs, VFSource(i, j)) && Address(pfs, vfs, VFSource(i, j)) == vfs[i][j].pciAddress;
    }
  }

  lemma SourceSaysAddress(pfs: seq<PFInfo>, vfs: seq<seq<VFInfo>>, rdma: string -> bool, devices: Devices, s: Source)
    requires Discovered(pfs, vfs, rdma, devices) && IsSource(pfs, vfs, s)
    ensures WellFormedAddress(Address(pfs, vfs, s)) && DeviceName(Address(pfs, vfs, s)) in devices
    ensures Says(devices[DeviceName(Address(pfs, vfs, s))], PciAddress, Str(Address(pfs, vfs, s)))
  {
    var d := devices[NameOf(pfs, vfs, s)];
    assert EntryOf(pfs, vfs, rdma, s, d);
    match s {
      case PFSource(i) => PFEntrySays(d, pfs[i], |vfs[i]|, rdma(pfs[i].address));
      case VFSource(i, j) => VFEntrySays(d, pfs[i], vfs[i][j], rdma(vfs[i][j].pciAddress));
    }
  }

  /** Discovery writes reserved names only, on every device. */
  lemma DiscoveryWritesReservedOnly(pfs: seq<PFInfo>, vfs: seq<seq<VFInfo>>, rdma: string -> bool, devices: Devices,
                                    n: string, k: Key)
    requires Discovered(pfs, vfs, rdma, devices)
    requires n in devices && k in devices[n].attributes
    ensures Reserved(k)
  {
    var s :| IsSource(pfs, vfs, s) && NameOf(pfs, vfs, s) == n;
    match s {
      case PFSource(i) => PFEntryReads(devices[n], pfs[i], |vfs[i]|, rdma(pfs[i].address));
      case VFSource(i, j) => VFEntryReads(devices[n], pfs[i], vfs[i][j], rdma(vfs[i][j].pciAddress));
    }
  }

  /** The VF entries that name the PF at `address` as their parent. */
  ghost function ChildrenOf(devices: Devices, address: string): set<string>
  {
    set n | n in devices && DeviceTypeOf(devices[n]) == TYPE_VF &&
      StringAttribute(devices[n], PfPciAddress) == Some(address)
  }

  function VFNames(vfs: seq<VFInfo>): set<string>
  {
    if vfs == [] then {} else VFNames(vfs[..|vfs| - 1]) + {DeviceName(vfs[|vfs| - 1].pciAddress)}
  }

  lemma {:induction false} VFNamesHas(vfs: seq<VFInfo>, n: string)
    ensures n in VFNames(vfs) <==> exists j :: 0 <= j < |vfs| && DeviceName(vfs[j].pciAddress) == n
  {
    if vfs != [] {
      VFNamesHas(vfs[..|vfs| - 1], n);
      assert vfs[..|vfs| - 1] + [vfs[|vfs| - 1]] == vfs;
    }
  }

  lemma {:induction false} VFNamesCount(vfs: seq<VFInfo>)
    requires forall j, k :: 0 <= j < k < |vfs| ==> DeviceName(vfs[j].pciAddress) != DeviceName(vfs[k].pciAddress)
    ensures |VFNames(vfs)| == |vfs|
  {
    if vfs != [] {
      var last := |vfs| - 1;
      VFNamesCount(vfs[..last]);
      VFNamesHas(vfs[..last], DeviceName(vfs[last].pciAddress));
    }
  }

  lemma ChildSource(pfs: seq<PFInfo>, vfs: seq<seq<VFInfo>>, rdma: string -> bool, devices: Devices, i: nat, s: Source)
    requires Discovered(pfs, vfs, rdma, devices) && i < |pfs| && IsSource(pfs, vfs, s)
    ensures NameOf(pfs, vfs, s) in ChildrenOf(devices, pfs[i].address) <==> s.VFSource? && s.i == i
  {
    match s {
      case PFSource(a) =>
        PFEntryReads(devices[NameOf(pfs, vfs, s)], pfs[a], |vfs[a]|, rdma(pfs[a].address));
      case VFSource(a, b) => ChildVF(pfs, vfs, rdma, devices, i, a, b);
    }
  }

  lemma ChildVF(pfs: seq<PFInfo>, vfs: seq<seq<VFInfo>>, rdma: string -> bool, devices: Devices, i: nat, a: nat, b: nat)
    requires Discovered(pfs, vfs, rdma, devices) && i < |pfs| && IsSource(pfs, vfs, VFSource(a, b))
    ensures NameOf(pfs, vfs, VFSource(a, b)) in ChildrenOf(devices, pfs[i].address) <==> a == i
  {
    VFEntryReads(devices[NameOf(pfs, vfs, VFSource(a, b))], pfs[a], vfs[a][b], rdma(vfs[a][b].pciAddress));
    OneAddress(pfs, vfs, a, i);
  }

  lemma OneAddress(pfs: seq<PFInfo>, vfs: seq<seq<VFInfo>>, a: nat, i: nat)
    requires |vfs| == |pfs| && DistinctAddresses(pfs, vfs) && a < |pfs| && i < |pfs|
    ensures pfs[a].address == pfs[i].address <==> a == i
  {
    assert IsSource(pfs, vfs, PFSource(a)) && IsSource(pfs, vfs, PFSource(i));
    assert Address(pfs, vfs, PFSource(a)) == pfs[a].address && Address(pfs, vfs, PFSource(i)) == pfs[i].address;
  }

  /** The children of PF `i` are its VFs, under their names. */
  lemma ChildIsVF(pfs: seq<PFInfo>, vfs: seq<seq<VFInfo>>, rdma: string -> bool, devices: Devices, i: nat, n: string)
    requires Discovered(pfs, vfs, rdma, devices) && i < |pfs|
    ensures n in ChildrenOf(devices, pfs[i].address) <==>
      exists j :: 0 <= j < |vfs[i]| && DeviceName(vfs[i][j].pciAddress) == n
  {
    if n in ChildrenOf(devices, pfs[i].address) {
      var s :| IsSource(pfs, vfs, s) && NameOf(pfs, vfs, s) == n;
      ChildSource(pfs, vfs, rdma, devices, i, s);
      assert DeviceName(vfs[i][s.j].pciAddress) == n;
    }
    if j :| 0 <= j < |vfs[i]| && DeviceName(vfs[i][j].pciAddress) == n {
      ChildSource(pfs, vfs, rdma, devices, i, VFSource(i, j));
    }
  }

  lemma ChildrenAreVFs(pfs: seq<PFInfo>, vfs: seq<seq<VFInfo>>, rdma: string -> bool, devices: Devices, i: nat)
    requires Discovered(pfs, vfs, rdma, devices) && i < |pfs|
    ensures VFNames(vfs[i]) == ChildrenOf(devices, pfs[i].address)
  {
    forall n ensures n in VFNames(vfs[i]) <==> n in ChildrenOf(devices, pfs[i].address) {
      VFNamesHas(vfs[i], n);
      ChildIsVF(pfs, vfs, rdma, devices, i, n);
    }
  }

  lemma VFNamesDiffer(pfs: seq<PFInfo>, vfs: seq<seq<VFInfo>>, i: nat)
    requires |vfs| == |pfs| && DistinctAddresses(pfs, vfs) && i < |pfs|
    ensures forall j, k :: 0 <= j < k < |vfs[i]| ==>
      DeviceName(vfs[i][j].pciAddress) != DeviceName(vfs[i][k].pciAddress)
  {
    NamesDistinct(pfs, vfs);
    forall j, k | 0 <= j < k < |vfs[i]| ensures DeviceName(vfs[i][j].pciAddress) != DeviceName(vfs[i][k].pciAddress) {
      assert IsSource(pfs, vfs, VFSource(i, j)) && IsSource(pfs, vfs, VFSource(i, k));
    }
  }

  /** Every PF has an entry, and the numVFs it advertises is the number of VF
      entries that point at it. */
  lemma NumVFsCountsChildren(pfs: seq<PFInfo>, vfs: seq<seq<VFInfo>>, rdma: string -> bool, devices: Devices, i: nat)
    requires Discovered(pfs, vfs, rdma, devices) && i < |pfs|
    ensures DeviceName(pfs[i].address) in devices
    ensures DeviceNumVFs(devices[DeviceName(pfs[i].address)]) == |ChildrenOf(devices, pfs[i].address)| == |vfs[i]|
  {
    assert IsSource(pfs, vfs, PFSource(i));
    PFEntryReads(devices[NameOf(pfs, vfs, PFSource(i))], pfs[i], |vfs[i]|, rdma(pfs[i].address));
    VFNamesDiffer(pfs, vfs, i);
    VFNamesCount(vfs[i]);
    ChildrenAreVFs(pfs, vfs, rdma, devices, i);
  }

  /** A PF that some VF entry names as its parent advertises at least one VF. */
  lemma ParentHasVFs(pfs: seq<PFInfo>, vfs: seq<seq<VFInfo>>, rdma: string -> bool, devices: Devices, p: string,
                     v: string)
    requires Discovered(pfs, vfs, rdma, devices)
    requires p in devices && DeviceTypeOf(devices[p]) == TYPE_PF
    requires v in devices && DeviceTypeOf(devices[v]) == TYPE_VF
    requires StringAttribute(devices[v], PfPciAddress) == StringAttribute(devices[p], PciAddress)
    ensures DeviceNumVFs(devices[p]) > 0
  {
    var s :| IsSource(pfs, vfs, s) && NameOf(pfs, vfs, s) == p;
    match s {
      case VFSource(a, b) =>
        VFEntryReads(devices[p], pfs[a], vfs[a][b], rdma(vfs[a][b].pciAddress));
      case PFSource(i) =>
        PFEntryReads(devices[p], pfs[i], |vfs[i]|, rdma(pfs[i].address));
        NumVFsCountsChildren(pfs, vfs, rdma, devices, i);
        assert v in ChildrenOf(devices, pfs[i].address);
    }
  }

  /** A published VLAN list decodes to everything the uplink carries, and a
      list of at most six stretches of 12-bit IDs on a filtering bridge is
      always published. */
  lemma PublishedVlansAreComplete(d: Device, pf: PFInfo, vf: VFInfo, rdma: bool)
    requires VFEntry(d, pf, vf, rdma)
    requires pf.uplink.Some? && NonNegative(pf.uplink.value.vlans)
    ensures UplinkVlans in d.attributes ==>
      d.attributes[UplinkVlans].Str? && Parse(d.attributes[UplinkVlans].s) == Some(pf.uplink.value.vlans)
    ensures UplinkVlans in d.attributes <==>
      pf.uplink.value.vlanFiltering && pf.uplink.value.vlans != [] && |Printed(pf.uplink.value.vlans)| <= 64
    ensures (pf.uplink.value.vlanFiltering && pf.uplink.value.vlans != [] && TwelveBit(pf.uplink.value.vlans) &&
             |Runs(pf.uplink.value.vlans, 0)| <= 6) ==> UplinkVlans in d.attributes
  {
    var vlans := pf.uplink.value.vlans;
    var table := k => VFAttribute(pf, vf, rdma, k);
    assert Lookup(d.attributes, UplinkVlans) == table(UplinkVlans);
    RoundTrip(vlans);
    if TwelveBit(vlans) && |Runs(vlans, 0)| <= 6 { SixRunsFit(vlans); }
  }
}
