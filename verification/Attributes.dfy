/** Device attributes: the qualified names the driver knows, their values, and
    the names that belong to discovery alone. */
module Attributes {
  import opened Options

  /** One constructor per name the driver's constants define; `Unlisted` is any
      other name. Two listed names are different names. */
  datatype Key =
    | VendorID
    | DeviceID
    | PFDeviceID
    | PciAddress
    | MultusDeviceID
    | PFName
    | EswitchMode
    | VFID
    | PCIeRoot
    | PfPciAddress
    | StandardPciAddress
    | LinkType
    | RDMACapable
    | NUMANode
    | StandardNUMANode
    | DeviceType
    | NumVFs
    | PfMTU
    | PfLinkSpeedMbps
    | UplinkVlanFiltering
    | UplinkUntaggedVlan
    | UplinkVlans
    | MultusResourceName
    | InterfaceName
    | Unlisted(name: string)

  /** The names a policy may not write. */
  predicate Reserved(k: Key)
  {
    match k
    case VendorID | DeviceID | PFDeviceID | PciAddress | MultusDeviceID | PFName | EswitchMode | VFID => true
    case PCIeRoot | PfPciAddress | StandardPciAddress | LinkType | RDMACapable | NUMANode => true
    case StandardNUMANode | DeviceType | NumVFs | PfMTU | PfLinkSpeedMbps => true
    case UplinkVlanFiltering | UplinkUntaggedVlan | UplinkVlans => true
    case MultusResourceName | InterfaceName => false
    case Unlisted(_) => false
  }

  /** Of the listed names policies may write two. */
  lemma ReservedExactly(k: Key)
    ensures Reserved(k) <==> !k.Unlisted? && k != MultusResourceName && k != InterfaceName
  {
  }

  /** A DRA attribute holds one value; `Unset` is one that holds none. */
  datatype Value = Str(s: string) | Num(n: int) | Flag(b: bool) | Version(v: string) | Unset

  type Attrs = map<Key, Value>

  function Lookup(attributes: Attrs, k: Key): Option<Value>
  {
    if k in attributes then Some(attributes[k]) else None
  }

  datatype Device = Device(name: string, attributes: Attrs)

  type Devices = map<string, Device>

  const TYPE_VF := "vf"
  const TYPE_PF := "pf"

  function StringAttribute(d: Device, k: Key): Option<string>
  {
    match Lookup(d.attributes, k)
    case Some(Str(s)) => Some(s)
    case _ => None
  }

  /** The device's function type; a device without the attribute counts as a VF. */
  function DeviceTypeOf(d: Device): string
  {
    match StringAttribute(d, DeviceType)
    case Some(t) => t
    case None => TYPE_VF
  }

  function DeviceNumVFs(d: Device): int
  {
    match Lookup(d.attributes, NumVFs)
    case Some(Num(n)) => n
    case _ => 0
  }
}
