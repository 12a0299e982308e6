/** The policy controller: which devices the policies of this node select, and
    which attributes they add to each. */
module PolicyController {
  import opened Options
  import opened Attributes
  import opened Sorting

  type Labels = map<string, string>

  datatype Filter = Filter(
    deviceType: string, vendors: seq<string>, devices: seq<string>, pciAddresses: seq<string>,
    pfNames: seq<string>, pfPciAddresses: seq<string>, drivers: seq<string>, linkType: string)

  /** `selector` is the text of a label selector over DeviceAttributes objects. */
  datatype Config = Config(selector: Option<string>, filters: seq<Filter>)

  datatype Policy = Policy(name: string, configs: seq<Config>)

  datatype AttributesObject = AttributesObject(name: string, labels: Labels, attributes: Attrs)

  /** What the label-selector library makes of a selector: whether it parses,
      and which labels it matches. */
  datatype Selectors = Selectors(valid: string -> bool, matches: (string, Labels) -> bool)

  type PolicyMap = map<string, Attrs>

  // ---- Matching ---------------------------------------------------------------

  /** strings.ToLower on ASCII letters. */
  function ToLower(s: string): (r: string)
    ensures |r| == |s|
  {
    seq(|s|, i requires 0 <= i < |s| => if 'A' <= s[i] <= 'Z' then (s[i] as int + 32) as char else s[i])
  }

  function NormalizedDeviceType(f: Filter): string
  {
    if f.deviceType == "" then TYPE_VF else ToLower(f.deviceType)
  }

  function NormalizeLinkType(val: string): string
  {
    var v := ToLower(val);
    if v == "eth" || v == "ethernet" then "ethernet"
    else if v == "ib" || v == "infiniband" then "infiniband"
    else v
  }

  /** An empty list allows everything; any other list needs the attribute. */
  predicate Allows(list: seq<string>, value: Option<string>)
  {
    list == [] || (value.Some? && value.value in list)
  }

  /** Driver filtering is not implemented: `drivers` is not looked at. */
  predicate DeviceMatchesFilter(d: Device, f: Filter)
  {
    && NormalizedDeviceType(f) == DeviceTypeOf(d)
    && Allows(f.vendors, StringAttribute(d, VendorID))
    && Allows(f.devices, StringAttribute(d, DeviceID))
    && Allows(f.pciAddresses, StringAttribute(d, PciAddress))
    && Allows(f.pfNames, StringAttribute(d, PFName))
    && Allows(f.pfPciAddresses, StringAttribute(d, PfPciAddress))
    && (f.linkType == "" || StringAttribute(d, LinkType) == Some(NormalizeLinkType(f.linkType)))
  }

  predicate DeviceMatchesFilters(d: Device, filters: seq<Filter>)
  {
    if filters == [] then DeviceTypeOf(d) == TYPE_VF
    else exists f :: f in filters && DeviceMatchesFilter(d, f)
  }

  const UPPER := "ABCDEFGHIJKLMNOPQRSTUVWXYZ"
  const LOWER := "abcdefghijklmnopqrstuvwxyz"

  /** Letter by letter, and everything else as it is. */
  lemma ToLowerMeans(s: string, i: nat)
    requires i < |s|
    ensures forall k :: 0 <= k < 26 && s[i] == UPPER[k] ==> ToLower(s)[i] == LOWER[k]
    ensures s[i] !in UPPER ==> ToLower(s)[i] == s[i]
  {
    if 'A' <= s[i] <= 'Z' { assert s[i] == UPPER[s[i] as int - 65]; }
  }

  /** The two link types have two spellings each; any other is taken as it is. */
  lemma NormalizeLinkTypeMeans(val: string)
    ensures NormalizeLinkType(val) == "ethernet" <==> ToLower(val) == "eth" || ToLower(val) == "ethernet"
    ensures NormalizeLinkType(val) == "infiniband" <==> ToLower(val) == "ib" || ToLower(val) == "infiniband"
    ensures NormalizeLinkType(val) in {"ethernet", "infiniband", ToLower(val)}
  {
    assert "ethernet"[0] != "infiniband"[0] && "eth"[0] != "infiniband"[0] && "ib"[0] != "ethernet"[0];
  }

  /** `d` holds one of the strings of `list` under `k`. */
  predicate Holds(d: Device, k: Key, list: seq<string>)
  {
    k in d.attributes && d.attributes[k].Str? && d.attributes[k].s in list
  }

  /** What each part of a filter reads: which attribute answers which list, and
      that a part left empty asks for nothing. */
  lemma FilterMeans(d: Device, f: Filter)
    ensures DeviceMatchesFilter(d, f) <==>
      && (if f.deviceType == "" || ToLower(f.deviceType) == "vf" then IsVF(d)
          else Holds(d, DeviceType, [ToLower(f.deviceType)]))
      && (|f.vendors| > 0 ==> Holds(d, VendorID, f.vendors))
      && (|f.devices| > 0 ==> Holds(d, DeviceID, f.devices))
      && (|f.pciAddresses| > 0 ==> Holds(d, PciAddress, f.pciAddresses))
      && (|f.pfNames| > 0 ==> Holds(d, PFName, f.pfNames))
      && (|f.pfPciAddresses| > 0 ==> Holds(d, PfPciAddress, f.pfPciAddresses))
      && (|f.linkType| > 0 ==> Holds(d, LinkType, [NormalizeLinkType(f.linkType)]))
  {
  }

  /** A VF, or a device that does not say what it is. */
  predicate IsVF(d: Device)
  {
    DeviceType in d.attributes && d.attributes[DeviceType].Str? ==> d.attributes[DeviceType].s == "vf"
  }

  /** And of no filter at all, that it takes the VFs. */
  lemma FiltersMean(d: Device, filters: seq<Filter>)
    ensures DeviceMatchesFilters(d, filters) <==>
      (|filters| == 0 && IsVF(d)) || exists i :: 0 <= i < |filters| && DeviceMatchesFilter(d, filters[i])
  {
    if DeviceMatchesFilters(d, filters) && |filters| > 0 {
      var f :| f in filters && DeviceMatchesFilter(d, f);
    }
  }

  /** A PF that has VFs is never advertised. */
  predicate Eligible(d: Device, filters: seq<Filter>)
  {
    DeviceMatchesFilters(d, filters) && !(DeviceTypeOf(d) == TYPE_PF && DeviceNumVFs(d) > 0)
  }

  /** A device is eligible if a filter takes it and it is no PF with VFs. */
  lemma EligibleMeans(d: Device, filters: seq<Filter>)
    ensures Eligible(d, filters) <==>
      && DeviceMatchesFilters(d, filters)
      && !(Holds(d, DeviceType, ["pf"]) && NumVFs in d.attributes && d.attributes[NumVFs].Num? &&
           d.attributes[NumVFs].n > 0)
  {
  }

  // ---- Resolving attributes ---------------------------------------------------

  predicate Selected(sel: Selectors, selector: string, o: AttributesObject) { sel.matches(selector, o.labels) }

  /** `o` supplies key `k`: of the selected objects that define `k`, none has a
      later name. */
  ghost predicate Supplies(sel: Selectors, selector: string, objects: seq<AttributesObject>, o: AttributesObject,
                           k: Key)
  {
    && o in objects && Selected(sel, selector, o) && k in o.attributes
    && forall other :: other in objects && Selected(sel, selector, other) && k in other.attributes ==>
      Alphabetical(other.name, o.name)
  }

  /** Every key comes from the object with the last name that defines it; no
      selector, or one that does not parse, adds nothing. */
  ghost predicate Resolved(sel: Selectors, selector: Option<string>, objects: seq<AttributesObject>, merged: Attrs)
  {
    if selector.None? || !sel.valid(selector.value) then merged == map[]
    else
      && (forall o, k :: o in objects && Selected(sel, selector.value, o) && k in o.attributes ==> k in merged)
      && (forall k :: k in merged ==>
            exists o :: Supplies(sel, selector.value, objects, o, k) && o.attributes[k] == merged[k])
  }

  /** Key by key: what the objects that the selector matches say, and of two that
      say something, the one whose name is the later in the alphabet. */
  lemma ResolvedMeans(sel: Selectors, selector: Option<string>, objects: seq<AttributesObject>, merged: Attrs, k: Key)
    requires Resolved(sel, selector, objects, merged)
    ensures k in merged <==>
      selector.Some? && sel.valid(selector.value) &&
        exists o :: o in objects && sel.matches(selector.value, o.labels) && k in o.attributes
    ensures k in merged ==>
      exists o ::
        o in objects && sel.matches(selector.value, o.labels) && k in o.attributes && o.attributes[k] == merged[k] &&
        forall other ::
          other in objects && sel.matches(selector.value, other.labels) && k in other.attributes ==>
            Alphabetical(other.name, o.name)
  {
    if k in merged {
      var o :| Supplies(sel, selector.value, objects, o, k) && o.attributes[k] == merged[k];
      assert sel.matches(selector.value, o.labels);
      forall other | other in objects && sel.matches(selector.value, other.labels) && k in other.attributes
        ensures Alphabetical(other.name, o.name)
      {
        assert Selected(sel, selector.value, other);
      }
    }
    if selector.Some? && sel.valid(selector.value) {
      if o :| o in objects && sel.matches(selector.value, o.labels) && k in o.attributes {
        assert Selected(sel, selector.value, o);
      }
    }
  }

  method ResolveDeviceAttributes(sel: Selectors, selector: Option<string>, objects: seq<AttributesObject>)
    returns (merged: Attrs)
    ensures Resolved(sel, selector, objects, merged)
  {
    merged := map[];
    if selector.None? {
      return;
    }
    if !sel.valid(selector.value) {
      return;
    }
    var matched: seq<AttributesObject> := [];
    for i := 0 to |objects|
      invariant forall o :: o in matched <==> o in objects[..i] && Selected(sel, selector.value, o)
    {
      assert objects[..i + 1] == objects[..i] + [objects[i]];
      if sel.matches(selector.value, objects[i].labels) {
        matched := matched + [objects[i]];
      }
    }
    assert objects[..|objects|] == objects;
    var sorted := SortByName(matched, (o: AttributesObject) => o.name);
    forall o ensures o in sorted <==> o in objects && Selected(sel, selector.value, o) {
      SameElements(matched, sorted, o);
    }
    for i := 0 to |sorted|
      invariant forall o, k :: o in sorted[..i] && k in o.attributes ==> k in merged
      invariant forall k :: k in merged ==>
        exists j :: LastWith(sorted, i, k, j) && sorted[j].attributes[k] == merged[k]
    {
      ghost var before := merged;
      merged := MergeInto(merged, sorted[i].attributes);
      assert sorted[..i + 1] == sorted[..i] + [sorted[i]];
      forall k | k in merged
        ensures exists j :: LastWith(sorted, i + 1, k, j) && sorted[j].attributes[k] == merged[k]
      {
        if k in sorted[i].attributes {
          assert LastWith(sorted, i + 1, k, i);
        } else {
          var j :| LastWith(sorted, i, k, j) && sorted[j].attributes[k] == before[k];
          assert LastWith(sorted, i + 1, k, j);
        }
      }
    }
    assert sorted[..|sorted|] == sorted;
    forall k | k in merged
      ensures exists o :: Supplies(sel, selector.value, objects, o, k) && o.attributes[k] == merged[k]
    {
      var j :| LastWith(sorted, |sorted|, k, j) && sorted[j].attributes[k] == merged[k];
      LastSupplies(sel, selector.value, objects, sorted, k, j);
    }
  }

  /** Of the first `n` objects, the one at `j` is the last that defines `k`. */
  ghost predicate LastWith(sorted: seq<AttributesObject>, n: nat, k: Key, j: int)
  {
    && 0 <= j < n <= |sorted| && k in sorted[j].attributes
    && forall m :: j < m < n ==> k !in sorted[m].attributes
  }

  lemma LastSupplies(sel: Selectors, selector: string, objects: seq<AttributesObject>, sorted: seq<AttributesObject>,
                     k: Key, j: int)
    requires forall o :: o in sorted <==> o in objects && Selected(sel, selector, o)
    requires SortedByName(sorted, (o: AttributesObject) => o.name)
    requires LastWith(sorted, |sorted|, k, j)
    ensures Supplies(sel, selector, objects, sorted[j], k)
  {
    assert sorted[j] in sorted;
    forall other | other in objects && Selected(sel, selector, other) && k in other.attributes
      ensures Alphabetical(other.name, sorted[j].name)
    {
      assert other in sorted;
      var m :| 0 <= m < |sorted| && sorted[m] == other;
      if m == j { AlphabeticalTotal(other.name, other.name); }
    }
  }

  /** The keys of one object, in whatever order the map yields them. */
  method MergeInto(merged: Attrs, attributes: Attrs) returns (r: Attrs)
    ensures r == merged + attributes
  {
    r := merged;
    var rest := attributes.Keys;
    while rest != {}
      invariant rest <= attributes.Keys
      invariant forall k :: k in r <==> k in merged || (k in attributes && k !in rest)
      invariant forall k :: k in r ==> r[k] == if k in attributes && k !in rest then attributes[k] else merged[k]
    {
      var k :| k in rest;
      r := r[k := attributes[k]];
      rest := rest - {k};
    }
  }

  // ---- The policy map -----------------------------------------------------------

  /** Config `j` of policy `p` takes device `d`. */
  predicate Takes(p: Policy, j: int, d: Device)
  {
    0 <= j < |p.configs| && Eligible(d, p.configs[j].filters)
  }

  /** Config `j` of `p` takes `d`, and no config of a policy with an earlier name,
      and no earlier config of `p`, does. */
  ghost predicate FirstMatch(policies: seq<Policy>, p: Policy, j: int, d: Device)
  {
    && p in policies && Takes(p, j, d)
    && (forall i :: 0 <= i < j ==> !Takes(p, i, d))
    && (forall q, i :: q in policies && Takes(q, i, d) ==> Alphabetical(p.name, q.name))
  }

  /** A device is in the map exactly when some config takes it, with the
      attributes of its first match. Nothing here depends on the order of the
      policies, of the objects or of the devices. */
  ghost predicate IsPolicyMap(sel: Selectors, policies: seq<Policy>, objects: seq<AttributesObject>, devices: Devices,
                              m: PolicyMap)
  {
    && m.Keys <= devices.Keys
    && (forall n, p, j :: n in devices && p in policies && Takes(p, j, devices[n]) ==> n in m)
    && (forall n :: n in m ==>
          exists p, j :: FirstMatch(policies, p, j, devices[n]) && Resolved(sel, p.configs[j].selector, objects, m[n]))
  }

  /** One config against all devices, in whatever order the map yields them. */
  method MatchDevices(filters: seq<Filter>, resolvedAttrs: Attrs, devices: Devices, policyDevices: PolicyMap)
    returns (r: PolicyMap)
    ensures r == policyDevices + map n | n in devices && n !in policyDevices && Eligible(devices[n], filters) ::
      resolvedAttrs
  {
    r := policyDevices;
    var rest := devices.Keys;
    while rest != {}
      invariant rest <= devices.Keys
      invariant forall n :: n in r <==>
        n in policyDevices || (n in devices && n !in rest && Eligible(devices[n], filters))
      invariant forall n :: n in r ==> r[n] == if n in policyDevices then policyDevices[n] else resolvedAttrs
    {
      var n :| n in rest;
      rest := rest - {n};
      var device := devices[n];
      if n in r {
        continue;
      }
      if DeviceMatchesFilters(device, filters) {
        if DeviceTypeOf(device) == TYPE_PF {
          if DeviceNumVFs(device) > 0 {
            continue;
          }
        }
        r := r[n := resolvedAttrs];
      }
    }
  }

  /** Position (a, b) comes before (i, j). */
  predicate Before(a: int, b: int, i: int, j: int) { a < i || (a == i && b < j) }

  /** Of the positions before (i, j), (a, b) is the first whose config takes `d`. */
  ghost predicate FirstBefore(policies: seq<Policy>, d: Device, a: int, b: int, i: int, j: int)
  {
    && 0 <= a < |policies| && Takes(policies[a], b, d) && Before(a, b, i, j)
    && forall e, f :: 0 <= e < |policies| && Before(e, f, a, b) ==> !Takes(policies[e], f, d)
  }

  /** The map after the configs before position (i, j). */
  ghost predicate MapBefore(sel: Selectors, policies: seq<Policy>, objects: seq<AttributesObject>, devices: Devices,
                            m: PolicyMap, i: int, j: int)
  {
    && m.Keys <= devices.Keys
    && (forall n, a, b ::
          n in devices && 0 <= a < |policies| && Before(a, b, i, j) && Takes(policies[a], b, devices[n]) ==> n in m)
    && (forall n :: n in m ==>
          exists a, b ::
            FirstBefore(policies, devices[n], a, b, i, j) &&
              Resolved(sel, policies[a].configs[b].selector, objects, m[n]))
  }

  lemma NextConfig(sel: Selectors, policies: seq<Policy>, objects: seq<AttributesObject>, devices: Devices,
                   m: PolicyMap, m': PolicyMap, resolved: Attrs, i: int, j: int)
    requires 0 <= i < |policies| && 0 <= j < |policies[i].configs|
    requires MapBefore(sel, policies, objects, devices, m, i, j)
    requires Resolved(sel, policies[i].configs[j].selector, objects, resolved)
    requires m' == m + map n | n in devices && n !in m && Eligible(devices[n], policies[i].configs[j].filters) ::
      resolved
    ensures MapBefore(sel, policies, objects, devices, m', i, j + 1)
  {
    forall n, a, b | n in devices && 0 <= a < |policies| && Before(a, b, i, j + 1) && Takes(policies[a], b, devices[n])
      ensures n in m' {
      assert Before(a, b, i, j) || (a == i && b == j);
    }
    forall n | n in m'
      ensures exists a, b ::
        FirstBefore(policies, devices[n], a, b, i, j + 1) &&
          Resolved(sel, policies[a].configs[b].selector, objects, m'[n])
    {
      if n in m {
        var a, b :|
          FirstBefore(policies, devices[n], a, b, i, j) &&
            Resolved(sel, policies[a].configs[b].selector, objects, m[n]);
        assert FirstBefore(policies, devices[n], a, b, i, j + 1);
      } else {
        assert FirstBefore(policies, devices[n], i, j, i, j + 1);
      }
    }
  }

  lemma NextPolicy(sel: Selectors, policies: seq<Policy>, objects: seq<AttributesObject>, devices: Devices,
                   m: PolicyMap, i: int)
    requires 0 <= i < |policies|
    requires MapBefore(sel, policies, objects, devices, m, i, |policies[i].configs|)
    ensures MapBefore(sel, policies, objects, devices, m, i + 1, 0)
  {
    forall n, a, b | n in devices && 0 <= a < |policies| && Before(a, b, i + 1, 0) && Takes(policies[a], b, devices[n])
      ensures n in m {
      assert Before(a, b, i, |policies[i].configs|);
    }
    forall n | n in m
      ensures exists a, b ::
        FirstBefore(policies, devices[n], a, b, i + 1, 0) &&
          Resolved(sel, policies[a].configs[b].selector, objects, m[n])
    {
      var a, b :|
        FirstBefore(policies, devices[n], a, b, i, |policies[i].configs|) &&
          Resolved(sel, policies[a].configs[b].selector, objects, m[n]);
      assert FirstBefore(policies, devices[n], a, b, i + 1, 0);
    }
  }

  lemma FirstPositionIsFirstMatch(policies: seq<Policy>, sorted: seq<Policy>, d: Device, a: int, b: int)
    requires multiset(sorted) == multiset(policies) && SortedByName(sorted, (p: Policy) => p.name)
    requires FirstBefore(sorted, d, a, b, |sorted|, 0)
    ensures FirstMatch(policies, sorted[a], b, d)
  {
    SameElements(policies, sorted, sorted[a]);
    forall i | 0 <= i < b ensures !Takes(sorted[a], i, d) { assert Before(a, i, a, b); }
    forall q, i | q in policies && Takes(q, i, d) ensures Alphabetical(sorted[a].name, q.name) {
      SameElements(policies, sorted, q);
      var e :| 0 <= e < |sorted| && sorted[e] == q;
      assert !Before(e, i, a, b);
      if e == a { AlphabeticalTotal(q.name, q.name); }
    }
  }

  method GetPolicyDeviceMap(sel: Selectors, policies: seq<Policy>, objects: seq<AttributesObject>, devices: Devices)
    returns (policyDevices: PolicyMap)
    ensures IsPolicyMap(sel, policies, objects, devices, policyDevices)
  {
    policyDevices := map[];
    if |policies| == 0 {
      return;
    }
    var sorted := SortByName(policies, (p: Policy) => p.name);
    for i := 0 to |sorted|
      invariant MapBefore(sel, sorted, objects, devices, policyDevices, i, 0)
    {
      var configs := sorted[i].configs;
      for j := 0 to |configs|
        invariant MapBefore(sel, sorted, objects, devices, policyDevices, i, j)
      {
        var resolvedAttrs := ResolveDeviceAttributes(sel, configs[j].selector, objects);
        var next := MatchDevices(configs[j].filters, resolvedAttrs, devices, policyDevices);
        NextConfig(sel, sorted, objects, devices, policyDevices, next, resolvedAttrs, i, j);
        policyDevices := next;
      }
      NextPolicy(sel, sorted, objects, devices, policyDevices, i);
    }
    SortedMapIsPolicyMap(sel, policies, sorted, objects, devices, policyDevices);
  }

  lemma SortedMapIsPolicyMap(sel: Selectors, policies: seq<Policy>, sorted: seq<Policy>, objects: seq<AttributesObject>,
                             devices: Devices, m: PolicyMap)
    requires multiset(sorted) == multiset(policies) && SortedByName(sorted, (p: Policy) => p.name)
    requires MapBefore(sel, sorted, objects, devices, m, |sorted|, 0)
    ensures IsPolicyMap(sel, policies, objects, devices, m)
  {
    forall n, p, j | n in devices && p in policies && Takes(p, j, devices[n]) ensures n in m {
      SameElements(policies, sorted, p);
      var a :| 0 <= a < |sorted| && sorted[a] == p;
      assert Before(a, j, |sorted|, 0);
    }
    forall n | n in m
      ensures exists p, j ::
        FirstMatch(policies, p, j, devices[n]) && Resolved(sel, p.configs[j].selector, objects, m[n])
    {
      var a, b :|
        FirstBefore(sorted, devices[n], a, b, |sorted|, 0) &&
          Resolved(sel, sorted[a].configs[b].selector, objects, m[n]);
      FirstPositionIsFirstMatch(policies, sorted, devices[n], a, b);
    }
  }

  // ---- Order independence --------------------------------------------------------

  /** The same objects, in any order and with any repetition. */
  ghost predicate SameSet<T(!new)>(a: seq<T>, b: seq<T>)
  {
    forall x :: x in a <==> x in b
  }

  /** A name identifies an object, as in one namespace of the API server. */
  ghost predicate Named<T>(s: seq<T>, name: T -> string)
  {
    forall x, y :: x in s && y in s && name(x) == name(y) ==> x == y
  }

  lemma SuppliesUnique(sel: Selectors, selector: string, objects: seq<AttributesObject>,
                       objects': seq<AttributesObject>, o: AttributesObject, o': AttributesObject, k: Key)
    requires SameSet(objects, objects') && Named(objects, (o: AttributesObject) => o.name)
    requires Supplies(sel, selector, objects, o, k) && Supplies(sel, selector, objects', o', k)
    ensures o == o'
  {
    var name := (o: AttributesObject) => o.name;
    AlphabeticalTotal(o.name, o'.name);
    assert name(o) == name(o');
  }

  lemma Supplier(sel: Selectors, selector: Option<string>, objects: seq<AttributesObject>, merged: Attrs, k: Key)
    returns (o: AttributesObject)
    requires Resolved(sel, selector, objects, merged) && k in merged
    ensures selector.Some? && Supplies(sel, selector.value, objects, o, k) && o.attributes[k] == merged[k]
  {
    o :| Supplies(sel, selector.value, objects, o, k) && o.attributes[k] == merged[k];
  }

  lemma ResolvedAgree(sel: Selectors, selector: Option<string>, objects: seq<AttributesObject>,
                      objects': seq<AttributesObject>, a: Attrs, b: Attrs, k: Key)
    requires SameSet(objects, objects') && Named(objects, (o: AttributesObject) => o.name)
    requires Resolved(sel, selector, objects, a) && Resolved(sel, selector, objects', b)
    requires k in a
    ensures k in b && a[k] == b[k]
  {
    var o := Supplier(sel, selector, objects, a, k);
    assert o in objects';
    var o' := Supplier(sel, selector, objects', b, k);
    SuppliesUnique(sel, selector.value, objects, objects', o, o', k);
  }

  lemma ResolvedUnique(sel: Selectors, selector: Option<string>, objects: seq<AttributesObject>,
                       objects': seq<AttributesObject>, a: Attrs, b: Attrs)
    requires SameSet(objects, objects') && Named(objects, (o: AttributesObject) => o.name)
    requires Resolved(sel, selector, objects, a) && Resolved(sel, selector, objects', b)
    ensures a == b
  {
    forall k | k in a ensures k in b && a[k] == b[k] { ResolvedAgree(sel, selector, objects, objects', a, b, k); }
    forall k | k in b ensures k in a {
      SameSetNamed(objects, objects', (o: AttributesObject) => o.name); ResolvedAgree(sel, selector, objects', objects,
          b, a, k);
    }
  }

  /** The first match is unique, whatever order the policies are listed in. */
  lemma FirstMatchUnique(policies: seq<Policy>, policies': seq<Policy>, d: Device, p: Policy, j: int, p': Policy,
                         j': int)
    requires SameSet(policies, policies') && Named(policies, (p: Policy) => p.name)
    requires FirstMatch(policies, p, j, d) && FirstMatch(policies', p', j', d)
    ensures p == p' && j == j'
  {
    var name := (p: Policy) => p.name;
    AlphabeticalTotal(p.name, p'.name);
    assert name(p) == name(p');
  }

  /** One direction of order independence, for one device. */
  lemma Rearranged(sel: Selectors, policies: seq<Policy>, policies': seq<Policy>, objects: seq<AttributesObject>,
                   objects': seq<AttributesObject>, devices: Devices, m: PolicyMap, m': PolicyMap, n: string)
    requires SameSet(policies, policies') && Named(policies, (p: Policy) => p.name)
    requires SameSet(objects, objects') && Named(objects, (o: AttributesObject) => o.name)
    requires IsPolicyMap(sel, policies, objects, devices, m) && IsPolicyMap(sel, policies', objects', devices, m')
    ensures Extends(m, m', n)
  {
    if n in m {
      var p, j :| FirstMatch(policies, p, j, devices[n]) && Resolved(sel, p.configs[j].selector, objects, m[n]);
      assert p in policies' && Takes(p, j, devices[n]);
      var p', j' :|
        FirstMatch(policies', p', j', devices[n]) && Resolved(sel, p'.configs[j'].selector, objects', m'[n]);
      FirstMatchUnique(policies, policies', devices[n], p, j, p', j');
      ResolvedUnique(sel, p.configs[j].selector, objects, objects', m[n], m'[n]);
    }
  }

  predicate Extends(m: PolicyMap, m': PolicyMap, n: string) { n in m ==> n in m' && m'[n] == m[n] }

  lemma SameMaps(m: PolicyMap, m': PolicyMap)
    requires forall n :: Extends(m, m', n) && Extends(m', m, n)
    ensures m == m'
  {
    assert forall n :: n in m ==> Extends(m, m', n);
    assert forall n :: n in m' ==> Extends(m', m, n);
  }

  lemma SameSetNamed<T(!new)>(a: seq<T>, b: seq<T>, name: T -> string)
    requires SameSet(a, b) && Named(a, name)
    ensures SameSet(b, a) && Named(b, name)
  {
  }

  /** First match wins, in any order: the policy map depends on the policies
      and the DeviceAttributes objects as sets only. Any two maps that the
      controller may compute from rearranged lists, with any iteration order
      over the devices and the attribute maps, are the same map. */
  lemma OrderInvariance(sel: Selectors, policies: seq<Policy>, policies': seq<Policy>, objects: seq<AttributesObject>,
                        objects': seq<AttributesObject>, devices: Devices, m: PolicyMap, m': PolicyMap)
    requires SameSet(policies, policies') && Named(policies, (p: Policy) => p.name)
    requires SameSet(objects, objects') && Named(objects, (o: AttributesObject) => o.name)
    requires IsPolicyMap(sel, policies, objects, devices, m) && IsPolicyMap(sel, policies', objects', devices, m')
    ensures m == m'
  {
    SameSetNamed(policies, policies', (p: Policy) => p.name);
    SameSetNamed(objects, objects', (o: AttributesObject) => o.name);
    forall n ensures Extends(m, m', n) && Extends(m', m, n) {
      Rearranged(sel, policies, policies', objects, objects', devices, m, m', n);
      Rearranged(sel, policies', policies, objects', objects, devices, m', m, n);
    }
    SameMaps(m, m');
  }

  // ---- Matching looks at reserved attributes only ----------------------------------

  ghost predicate SameReserved(d: Device, e: Device)
  {
    forall k: Key :: Reserved(k) ==> Lookup(d.attributes, k) == Lookup(e.attributes, k)
  }

  lemma MatchingReadsReserved(d: Device, e: Device, filters: seq<Filter>)
    requires SameReserved(d, e)
    ensures DeviceTypeOf(d) == DeviceTypeOf(e) && DeviceNumVFs(d) == DeviceNumVFs(e)
    ensures Eligible(d, filters) <==> Eligible(e, filters)
  {
    forall k: Key | Reserved(k) ensures StringAttribute(d, k) == StringAttribute(e, k) {
      assert Lookup(d.attributes, k) == Lookup(e.attributes, k);
    }
    assert Lookup(d.attributes, NumVFs) == Lookup(e.attributes, NumVFs);
    assert Reserved(DeviceType) && Reserved(VendorID) && Reserved(DeviceID) && Reserved(PciAddress);
    assert Reserved(PFName) && Reserved(PfPciAddress) && Reserved(LinkType);
    forall f | f in filters ensures DeviceMatchesFilter(d, f) <==> DeviceMatchesFilter(e, f) {
    }
  }

  /** No feedback: the policy map computed from one table is the policy map of
      every table that agrees with it on the reserved attributes. */
  lemma PolicyMapIgnoresPolicyAttributes(sel: Selectors, policies: seq<Policy>, objects: seq<AttributesObject>,
                                         devices: Devices, devices': Devices, m: PolicyMap)
    requires devices.Keys == devices'.Keys
    requires forall n :: n in devices ==> SameReserved(devices[n], devices'[n])
    requires IsPolicyMap(sel, policies, objects, devices, m)
    ensures IsPolicyMap(sel, policies, objects, devices', m)
  {
    forall n, p, j | n in devices && p in policies ensures Takes(p, j, devices[n]) <==> Takes(p, j, devices'[n]) {
      if 0 <= j < |p.configs| { MatchingReadsReserved(devices[n], devices'[n], p.configs[j].filters); }
    }
    forall n | n in m
      ensures exists p, j ::
        FirstMatch(policies, p, j, devices'[n]) && Resolved(sel, p.configs[j].selector, objects, m[n])
    {
      var p, j :| FirstMatch(policies, p, j, devices[n]) && Resolved(sel, p.configs[j].selector, objects, m[n]);
      assert FirstMatch(policies, p, j, devices'[n]);
    }
  }

  // ---- PFs are opt-in ----------------------------------------------------------------

  /** Some filter of some policy names the PF type outright. */
  ghost predicate AsksForPF(policies: seq<Policy>)
  {
    exists p, j, f :: p in policies && 0 <= j < |p.configs| && f in p.configs[j].filters &&
      f.deviceType != "" && ToLower(f.deviceType) == TYPE_PF
  }

  /** A PF gets into the map only without VFs, and only if a filter says `pf`. */
  lemma MappedPF(sel: Selectors, policies: seq<Policy>, objects: seq<AttributesObject>, devices: Devices, m: PolicyMap,
                 n: string)
    requires IsPolicyMap(sel, policies, objects, devices, m)
    requires n in m && DeviceTypeOf(devices[n]) == TYPE_PF
    ensures DeviceNumVFs(devices[n]) <= 0
    ensures AsksForPF(policies)
  {
    var p, j :| FirstMatch(policies, p, j, devices[n]) && Resolved(sel, p.configs[j].selector, objects, m[n]);
    assert TYPE_PF[0] != TYPE_VF[0];
    var f :| f in p.configs[j].filters && DeviceMatchesFilter(devices[n], f);
    assert NormalizedDeviceType(f) == TYPE_PF;
  }
}
