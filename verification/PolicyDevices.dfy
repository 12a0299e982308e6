/** The device table of the manager: which devices are advertised, which of
    their attributes the policies own, and what was last published. */
module PolicyDevices {
  import opened Options
  import opened Attributes
  import opened PolicyController

  /** The device table, and per advertised device the keys the policies set. */
  datatype Table = Table(devices: Devices, owned: map<string, set<Key>>)

  function NonReserved(attributes: Attrs): Attrs
  {
    map k | k in attributes && !Reserved(k) :: attributes[k]
  }

  function OwnedKeys(t: Table, n: string): set<Key>
  {
    if n in t.owned then t.owned[n] else {}
  }

  /** What policies may add to device `n`. */
  function Added(policy: PolicyMap, n: string): Attrs
  {
    if n in policy then NonReserved(policy[n]) else map[]
  }

  /** Device `n` without what the policies owned, and with what they own now. */
  function Updated(t: Table, policy: PolicyMap, n: string): Device
    requires n in t.devices
  {
    t.devices[n].(attributes := (t.devices[n].attributes - OwnedKeys(t, n)) + Added(policy, n))
  }

  function Update(t: Table, policy: PolicyMap): Table
  {
    Table(
      map n | n in t.devices :: Updated(t, policy, n),
      map n | n in policy && n in t.devices :: NonReserved(policy[n]).Keys)
  }

  lemma SameUpdate(t: Table, u: Table, policy: PolicyMap)
    requires u.devices.Keys == t.devices.Keys
    requires forall n :: n in t.devices ==> Updated(u, policy, n) == Updated(t, policy, n)
    ensures Update(u, policy) == Update(t, policy)
  {
    assert forall n :: n in u.devices <==> n in t.devices;
  }

  /** What an update makes of one attribute: what the policies say now, if they may
      write it; nothing, if they said it before; else what it was. */
  lemma UpdateReads(t: Table, policy: PolicyMap, n: string, k: Key)
    requires n in t.devices
    ensures var u := Update(t, policy);
      && u.devices.Keys == t.devices.Keys && u.devices[n].name == t.devices[n].name
      && Lookup(u.devices[n].attributes, k) ==
           (if n in policy && k in policy[n] && !Reserved(k) then Some(policy[n][k])
            else if n in t.owned && k in t.owned[n] then None
            else Lookup(t.devices[n].attributes, k))
  {
    assert Update(t, policy).devices[n] == Updated(t, policy, n);
    LookupOver(t.devices[n].attributes, OwnedKeys(t, n), Added(policy, n), k);
    AddedReads(policy, n, k);
  }

  lemma LookupOver(attributes: Attrs, gone: set<Key>, added: Attrs, k: Key)
    ensures Lookup((attributes - gone) + added, k) ==
            if k in added then Some(added[k]) else if k in gone then None else Lookup(attributes, k)
  {
  }

  lemma AddedReads(policy: PolicyMap, n: string, k: Key)
    ensures k in Added(policy, n) <==> n in policy && k in policy[n] && !Reserved(k)
    ensures k in Added(policy, n) ==> Added(policy, n)[k] == policy[n][k]
  {
  }

  /** And which attributes the policies own then. */
  lemma UpdateOwns(t: Table, policy: PolicyMap, n: string, k: Key)
    requires n in t.devices
    ensures var u := Update(t, policy);
      && (n in u.owned <==> n in policy)
      && (n in policy ==> (k in u.owned[n] <==> k in policy[n] && !Reserved(k)))
  {
  }

  /** The advertised devices. */
  lemma AdvertisedReads(t: Table, n: string)
    ensures n in Advertised(t) <==> n in t.owned && n in t.devices
    ensures n in Advertised(t) ==> Advertised(t)[n] == t.devices[n]
  {
  }

  function Advertised(t: Table): Devices
  {
    map n | n in t.owned && n in t.devices :: t.devices[n]
  }

  /** Some attribute changes, or the policies name a device that was not advertised. */
  predicate Changed(t: Table, policy: PolicyMap)
  {
    Update(t, policy).devices != t.devices || !(policy.Keys <= t.owned.Keys)
  }

  predicate WellFormed(t: Table)
  {
    && t.owned.Keys <= t.devices.Keys
    && forall n :: n in t.owned ==>
      t.owned[n] <= t.devices[n].attributes.Keys && forall k :: k in t.owned[n] ==> !Reserved(k)
  }

  class Manager {
    var allocatable: Devices
    var policyAttrKeys: map<string, set<Key>>
    /** Whether a republish callback is set. */
    var callbackSet: bool
    /** The resource slice the API server last accepted. */
    var published: Devices

    predicate Valid() reads this { WellFormed(State()) }

    function State(): Table reads this { Table(allocatable, policyAttrKeys) }

    constructor (discovered: Devices)
      ensures Valid() && State() == Table(discovered, map[]) && published == map[] && !callbackSet
    {
      allocatable, policyAttrKeys, callbackSet, published := discovered, map[], false, map[];
    }

    method SetRepublishCallback()
      modifies `callbackSet
      ensures callbackSet
    {
      callbackSet := true;
    }

    method GetAdvertisedDevices() returns (result: Devices)
      ensures result == Advertised(State())
    {
      result := map[];
      var rest := policyAttrKeys.Keys;
      while rest != {}
        invariant rest <= policyAttrKeys.Keys
        invariant result == map n | n in policyAttrKeys && n in allocatable && n !in rest :: allocatable[n]
      {
        var n :| n in rest;
        rest := rest - {n};
        if n in allocatable {
          result := result[n := allocatable[n]];
        }
      }
    }

    /** PublishResources; `accepts` is the API server's answer. */
    method Republish(accepts: bool) returns (ok: bool)
      modifies `published
      ensures ok == accepts
      ensures published == if accepts then Advertised(State()) else old(published)
    {
      var advertised := GetAdvertisedDevices();
      if !accepts {
        return false;
      }
      published := advertised;
      ok := true;
    }

    method ClearPolicyAttributes(deviceName: string) returns (cleared: bool)
      modifies `allocatable, `policyAttrKeys
      ensures policyAttrKeys == old(policyAttrKeys) - {deviceName}
      ensures cleared <==> OwnedKeys(old(State()), deviceName) != {} && deviceName in allocatable
      ensures allocatable.Keys == old(allocatable).Keys
      ensures forall n :: n in allocatable ==>
        allocatable[n] == (if n == deviceName then Disowned(old(State()), n) else old(allocatable)[n])
    {
      if deviceName !in policyAttrKeys || policyAttrKeys[deviceName] == {} {
        if deviceName in allocatable { NothingOwned(State(), deviceName); }
        policyAttrKeys := policyAttrKeys - {deviceName};
        return false;
      }
      var oldKeys := policyAttrKeys[deviceName];
      if deviceName !in allocatable {
        policyAttrKeys := policyAttrKeys - {deviceName};
        return false;
      }
      var device := allocatable[deviceName];
      var attributes := device.attributes;
      var rest := oldKeys;
      while rest != {}
        invariant rest <= oldKeys
        invariant attributes == device.attributes - (oldKeys - rest)
      {
        var k :| k in rest;
        attributes := attributes - {k};
        rest := rest - {k};
      }
      allocatable := allocatable[deviceName := device.(attributes := attributes)];
      policyAttrKeys := policyAttrKeys - {deviceName};
      cleared := true;
    }

    /** Sets the policy attributes of one device, in whatever order the map yields
        them, and clears the stale ones. */
    method ApplyPolicyAttributes(attributes: Attrs, attrs: Attrs, oldKeys: set<Key>)
      returns (r: Attrs, newKeys: set<Key>, changed: bool)
      requires oldKeys <= attributes.Keys && forall k :: k in oldKeys ==> !Reserved(k)
      ensures newKeys == NonReserved(attrs).Keys
      ensures r == (attributes - oldKeys) + NonReserved(attrs)
      ensures changed <==> r != attributes
    {
      r, newKeys, changed := attributes, {}, false;
      var rest := attrs.Keys;
      while rest != {}
        invariant rest <= attrs.Keys
        invariant forall k :: k in newKeys <==> k in attrs && k !in rest && !Reserved(k)
        invariant forall k :: k in r <==> k in attributes || k in newKeys
        invariant forall k :: k in r ==> r[k] == if k in newKeys then attrs[k] else attributes[k]
        invariant changed <==> exists k :: k in newKeys && !(k in attributes && attributes[k] == attrs[k])
      {
        var k :| k in rest;
        rest := rest - {k};
        if Reserved(k) {
          continue;
        }
        newKeys := newKeys + {k};
        if !(k in r && r[k] == attrs[k]) {
          r := r[k := attrs[k]];
          changed := true;
        }
      }
      ghost var set0, changed0 := r, changed;
      rest := oldKeys;
      while rest != {}
        invariant rest <= oldKeys
        invariant forall k :: k in r <==> k in set0 && !(k in oldKeys && k !in rest && k !in newKeys)
        invariant forall k :: k in r ==> r[k] == set0[k]
        invariant changed <==> changed0 || exists k :: k in oldKeys && k !in rest && k !in newKeys
      {
        var k :| k in rest;
        rest := rest - {k};
        if k !in newKeys {
          r := r - {k};
          changed := true;
        }
      }
      ApplyResult(attributes, attrs, oldKeys, r, newKeys);
    }

    /** First loop: forget the devices the policies no longer match. */
    method ClearUnmatched(policyDevices: PolicyMap) returns (changesMade: bool)
      requires Valid()
      modifies `allocatable, `policyAttrKeys
      ensures State() == Cleared(old(State()), policyDevices)
      ensures changesMade <==>
        exists n :: n in old(policyAttrKeys) && n !in policyDevices && old(policyAttrKeys)[n] != {}
    {
      ghost var t := State();
      changesMade := false;
      var rest := policyAttrKeys.Keys;
      while rest != {}
        invariant rest <= policyAttrKeys.Keys
        invariant ClearedBut(t, policyDevices, rest, State(), changesMade)
      {
        var n :| n in rest;
        ghost var before, rest0, changed0 := State(), rest, changesMade;
        rest := rest - {n};
        if n !in policyDevices {
          var cleared := ClearPolicyAttributes(n);
          if cleared {
            changesMade := true;
          }
          ClearOne(t, policyDevices, rest0, n, before, State(), changed0, changesMade);
        }
      }
      ClearedAll(t, policyDevices, State(), changesMade);
    }

    /** Second loop: has the advertised set changed? */
    method AdvertisedSetChanged(policyDevices: PolicyMap) returns (changesMade: bool)
      requires policyAttrKeys.Keys <= policyDevices.Keys
      ensures changesMade <==> !(policyDevices.Keys <= policyAttrKeys.Keys)
    {
      SameSize(policyAttrKeys.Keys, policyDevices.Keys);
      if |policyDevices| != |policyAttrKeys| {
        return true;
      }
      var names := policyDevices.Keys;
      while names != {}
        invariant names <= policyDevices.Keys
        invariant policyDevices.Keys - names <= policyAttrKeys.Keys
      {
        var name :| name in names;
        names := names - {name};
        if name !in policyAttrKeys {
          return true;
        }
      }
      changesMade := false;
    }

    /** Third loop: set the attributes of the matched devices. */
    method ApplyMatched(policyDevices: PolicyMap) returns (changesMade: bool)
      requires Valid() && policyAttrKeys.Keys <= policyDevices.Keys
      modifies `allocatable, `policyAttrKeys
      ensures State() == Update(old(State()), policyDevices)
      ensures changesMade <==> allocatable != old(allocatable)
    {
      ghost var t := State();
      changesMade := false;
      var rest := policyDevices.Keys;
      AppliedNone(t, policyDevices);
      while rest != {}
        invariant rest <= policyDevices.Keys
        invariant AppliedBut(t, policyDevices, rest, State(), changesMade)
      {
        var n :| n in rest;
        ghost var before, rest0, changed0 := State(), rest, changesMade;
        rest := rest - {n};
        if n in allocatable {
          var device := allocatable[n];
          var oldKeys := if n in policyAttrKeys then policyAttrKeys[n] else {};
          assert device == t.devices[n] && oldKeys == OwnedKeys(t, n);
          var attributes, newKeys, changed := ApplyPolicyAttributes(device.attributes, policyDevices[n], oldKeys);
          if changed {
            changesMade := true;
          }
          allocatable := allocatable[n := device.(attributes := attributes)];
          policyAttrKeys := policyAttrKeys[n := newKeys];
        }
        ApplyOne(t, policyDevices, rest0, n, before, State(), changed0, changesMade);
      }
      AppliedAll(t, policyDevices, State(), changesMade);
    }

    method UpdatePolicyDevices(policyDevices: PolicyMap, accepts: bool) returns (ok: bool)
      requires Valid()
      modifies this
      ensures Valid()
      ensures State() == Update(old(State()), policyDevices)
      ensures callbackSet == old(callbackSet)
      ensures published == if callbackSet && Changed(old(State()), policyDevices) && accepts then Advertised(State())
                           else old(published)
      ensures ok <==> !(callbackSet && Changed(old(State()), policyDevices) && !accepts)
    {
      ghost var t := State();
      var changesMade := ClearUnmatched(policyDevices);
      ClearedWellFormed(t, policyDevices);
      if !changesMade {
        changesMade := AdvertisedSetChanged(policyDevices);
      }
      ghost var found := changesMade;
      ghost var c := State();
      var changed := ApplyMatched(policyDevices);
      if changed {
        changesMade := true;
      }
      UpdateAfterClear(t, policyDevices);
      UpdateWellFormed(t, policyDevices);
      ChangedExactly(t, policyDevices);
      if !changesMade {
        return true;
      }
      if callbackSet {
        ok := Republish(accepts);
        return;
      }
      ok := true;
    }
  }

  /** Device `n` without what the policies own. */
  function Disowned(t: Table, n: string): Device
    requires n in t.devices
  {
    t.devices[n].(attributes := t.devices[n].attributes - OwnedKeys(t, n))
  }

  /** `c` is `t` with the unmatched devices outside `rest` cleared; `changed` says
      whether one of them owned something. */
  ghost predicate ClearedBut(t: Table, policy: PolicyMap, rest: set<string>, c: Table, changed: bool)
  {
    && (forall n :: n in c.owned <==> n in t.owned && (n in rest || n in policy))
    && (forall n :: n in c.owned ==> c.owned[n] == t.owned[n])
    && c.devices.Keys == t.devices.Keys
    && (forall n :: n in c.devices ==>
          c.devices[n] == (if n in t.owned && n !in c.owned then Disowned(t, n) else t.devices[n]))
    && (changed <==> exists n :: n in t.owned && n !in c.owned && t.owned[n] != {})
  }

  lemma ClearOne(t: Table, policy: PolicyMap, rest: set<string>, n: string, c: Table, c': Table, changed: bool,
                 changed': bool)
    requires WellFormed(t) && n in rest && rest <= c.owned.Keys && n !in policy
    requires ClearedBut(t, policy, rest, c, changed)
    requires c'.owned == c.owned - {n} && c'.devices.Keys == c.devices.Keys
    requires forall m :: m in c'.devices ==> c'.devices[m] == (if m == n then Disowned(c, m) else c.devices[m])
    requires changed' <==> changed || OwnedKeys(c, n) != {}
    ensures ClearedBut(t, policy, rest - {n}, c', changed')
  {
    assert OwnedKeys(c, n) == t.owned[n];
    assert Disowned(c, n) == Disowned(t, n);
    if changed {
      var m :| m in t.owned && m !in c.owned && t.owned[m] != {};
      assert m !in c'.owned;
    } else if changed' {
      assert n !in c'.owned && t.owned[n] != {};
    } else {
      assert forall m :: m in t.owned && m !in c'.owned ==> m == n || m !in c.owned;
    }
  }

  lemma ClearedAll(t: Table, policy: PolicyMap, c: Table, changed: bool)
    requires ClearedBut(t, policy, {}, c, changed) && WellFormed(t)
    ensures c == Cleared(t, policy)
    ensures changed <==> exists n :: n in t.owned && n !in policy && t.owned[n] != {}
  {
    assert c.devices == Cleared(t, policy).devices;
    assert c.owned == Cleared(t, policy).owned;
  }

  /** `c` is `t` with the matched devices outside `rest` updated; `changed` says
      whether one of them changed. */
  ghost predicate AppliedBut(t: Table, policy: PolicyMap, rest: set<string>, c: Table, changed: bool)
  {
    && c.devices.Keys == t.devices.Keys
    && (forall n :: n in c.devices ==> c.devices[n] == (if n in rest then t.devices[n] else Updated(t, policy, n)))
    && OwnedBut(t, policy, rest, c.owned)
    && (changed <==> c.devices != t.devices)
  }

  ghost predicate OwnedBut(t: Table, policy: PolicyMap, rest: set<string>, owned: map<string, set<Key>>)
  {
    && (forall n :: n in owned <==> n in policy && (if n in rest then n in t.owned else n in t.devices))
    && (forall n :: n in owned ==> owned[n] == (if n in rest then t.owned[n] else NonReserved(policy[n]).Keys))
  }

  lemma AppliedNone(t: Table, policy: PolicyMap)
    requires WellFormed(t) && t.owned.Keys <= policy.Keys
    ensures AppliedBut(t, policy, policy.Keys, t, false)
  {
    forall n | n in t.devices && n !in policy ensures Updated(t, policy, n) == t.devices[n] { Untouched(t, policy, n); }
  }

  lemma ApplyOne(t: Table, policy: PolicyMap, rest: set<string>, n: string, c: Table, c': Table, changed: bool,
                 changed': bool)
    requires t.owned.Keys <= t.devices.Keys && n in rest && rest <= policy.Keys
    requires AppliedBut(t, policy, rest, c, changed)
    requires if n in t.devices
      then c' == Table(c.devices[n := Updated(t, policy, n)], c.owned[n := NonReserved(policy[n]).Keys]) &&
        (changed' <==> changed || Updated(t, policy, n) != t.devices[n])
      else c' == c && changed' == changed
    ensures AppliedBut(t, policy, rest - {n}, c', changed')
  {
    if n in t.devices { ApplyKnown(t, policy, rest, n, c, changed, changed'); }
  }

  lemma ApplyKnown(t: Table, policy: PolicyMap, rest: set<string>, n: string, c: Table, changed: bool, changed': bool)
    requires n in t.devices && n in rest && n in policy && AppliedBut(t, policy, rest, c, changed)
    requires changed' <==> changed || Updated(t, policy, n) != t.devices[n]
    ensures AppliedBut(t, policy, rest - {n},
                       Table(c.devices[n := Updated(t, policy, n)], c.owned[n := NonReserved(policy[n]).Keys]),
                         changed')
  {
    SetDevice(t.devices, c.devices, n, Updated(t, policy, n));
    OwnKnown(t, policy, rest, n, c.owned);
  }

  lemma OwnKnown(t: Table, policy: PolicyMap, rest: set<string>, n: string, owned: map<string, set<Key>>)
    requires n in t.devices && n in rest && n in policy && OwnedBut(t, policy, rest, owned)
    ensures OwnedBut(t, policy, rest - {n}, owned[n := NonReserved(policy[n]).Keys])
  {
  }

  lemma SetDevice(before: Devices, now: Devices, n: string, d: Device)
    requires n in before && n in now && now[n] == before[n]
    ensures now[n := d] != before <==> now != before || d != before[n]
  {
    if d == before[n] {
      assert now[n := d] == now;
    } else {
      assert now[n := d][n] != before[n];
    }
  }

  lemma AppliedAll(t: Table, policy: PolicyMap, c: Table, changed: bool)
    requires AppliedBut(t, policy, {}, c, changed)
    ensures c == Update(t, policy)
    ensures changed <==> c.devices != t.devices
  {
    assert c.devices == Update(t, policy).devices;
    assert c.owned == Update(t, policy).owned;
  }

  lemma NothingOwned(t: Table, n: string)
    requires n in t.devices && OwnedKeys(t, n) == {}
    ensures Disowned(t, n) == t.devices[n]
  {
    assert t.devices[n].attributes - {} == t.devices[n].attributes;
  }

  lemma Untouched(t: Table, policy: PolicyMap, n: string)
    requires n in t.devices && n !in policy && OwnedKeys(t, n) == {}
    ensures Updated(t, policy, n) == t.devices[n]
  {
    assert (t.devices[n].attributes - {}) + map[] == t.devices[n].attributes;
  }

  /** The table after the devices that no policy matches are cleared. */
  function Cleared(t: Table, policy: PolicyMap): Table
  {
    Table(
      map n | n in t.devices :: if n in t.owned && n !in policy then Disowned(t, n) else t.devices[n],
      map n | n in t.owned && n in policy :: t.owned[n])
  }

  lemma ClearedWellFormed(t: Table, policy: PolicyMap)
    requires WellFormed(t)
    ensures WellFormed(Cleared(t, policy))
  {
  }

  lemma UpdateAfterClear(t: Table, policy: PolicyMap)
    requires WellFormed(t)
    ensures Update(Cleared(t, policy), policy) == Update(t, policy)
  {
    var c := Cleared(t, policy);
    forall n | n in t.devices ensures Updated(c, policy, n) == Updated(t, policy, n) {
      if n !in policy { assert c.devices[n].attributes - OwnedKeys(c, n) == t.devices[n].attributes - OwnedKeys(t, n); }
    }
    SameUpdate(t, c, policy);
  }

  lemma UpdateWellFormed(t: Table, policy: PolicyMap)
    requires WellFormed(t)
    ensures WellFormed(Update(t, policy))
  {
  }

  /** A device that leaves with attributes of its own changes. */
  lemma LeavingChanges(t: Table, policy: PolicyMap, n: string, k: Key)
    requires WellFormed(t) && n in t.owned && n !in policy && k in t.owned[n]
    ensures Update(t, policy).devices[n] != t.devices[n]
  {
    assert k in t.devices[n].attributes && k !in Updated(t, policy, n).attributes;
  }

  lemma ClearedSame(t: Table, policy: PolicyMap)
    requires WellFormed(t) && forall n :: n in t.owned && n !in policy ==> t.owned[n] == {}
    ensures Cleared(t, policy).devices == t.devices
  {
    forall n | n in t.devices ensures Cleared(t, policy).devices[n] == t.devices[n] {
      if n in t.owned && n !in policy { assert t.devices[n].attributes - {} == t.devices[n].attributes; }
    }
  }

  /** The manager's three reasons to republish add up to `Changed`. */
  lemma ChangedExactly(t: Table, policy: PolicyMap)
    requires WellFormed(t)
    ensures Changed(t, policy) <==>
      ((exists n :: n in t.owned && n !in policy && t.owned[n] != {}) ||
       !(policy.Keys <= Cleared(t, policy).owned.Keys) ||
       Update(Cleared(t, policy), policy).devices != Cleared(t, policy).devices)
  {
    UpdateAfterClear(t, policy);
    if n :| n in t.owned && n !in policy && t.owned[n] != {} {
      var k :| k in t.owned[n];
      LeavingChanges(t, policy, n, k);
    } else {
      ClearedSame(t, policy);
    }
  }

  lemma ApplyResult(attributes: Attrs, attrs: Attrs, oldKeys: set<Key>, r: Attrs, newKeys: set<Key>)
    requires oldKeys <= attributes.Keys
    requires newKeys == NonReserved(attrs).Keys
    requires forall k :: k in r <==> (k in attributes || k in newKeys) && !(k in oldKeys && k !in newKeys)
    requires forall k :: k in r ==> r[k] == if k in newKeys then attrs[k] else attributes[k]
    ensures r == (attributes - oldKeys) + NonReserved(attrs)
    ensures r != attributes <==>
      ((exists k :: k in newKeys && !(k in attributes && attributes[k] == attrs[k])) || exists k ::
         k in oldKeys && k !in newKeys)
  {
  }

  lemma SameSize<T>(a: set<T>, b: set<T>)
    requires a <= b
    ensures |a| == |b| <==> b <= a
  {
    assert b == a + (b - a);
    assert |b| == |a| + |b - a|;
  }
}
