/** The store of prepared devices, its checkpoint, and the device objects that
    the network-data runner holds pointers to. */
module PodManager {
  import opened Options
  import opened Attributes
  import opened VfConfigs

  datatype NetworkData = NetworkData(interfaceName: string, ips: seq<string>, hardwareAddress: string)

  /** The part of a prepared device that never changes. */
  datatype PreparedInfo = PreparedInfo(
    claimUID: string, claimNamespace: string, claimName: string, podUID: string,
    requests: seq<string>, pool: string, device: string, cdiDeviceIDs: seq<string>,
    settings: Settings, ifName: string, pciAddress: string, multusDeviceID: string, multusResourceName: string,
    attributes: Attrs, netAttachDefConfig: string, originalDriver: string)

  /** A prepared device as it is written to disk. */
  datatype Record = Record(info: PreparedInfo, networkData: Option<NetworkData>)

  class PreparedDevice {
    const info: PreparedInfo
    var networkData: Option<NetworkData>

    constructor (info: PreparedInfo, networkData: Option<NetworkData>)
      ensures this.info == info && this.networkData == networkData
    {
      this.info, this.networkData := info, networkData;
    }

    method SetNetworkDeviceData(data: Option<NetworkData>)
      modifies `networkData
      ensures networkData == data
    {
      networkData := data;
    }
  }

  type Claims = map<string, seq<PreparedDevice>>
  type Pods = map<string, Claims>

  type ClaimRecords = map<string, seq<Record>>
  type Snapshot = map<string, ClaimRecords>

  ghost function ObjectsOf(claims: Claims): set<PreparedDevice>
  {
    set c, i | c in claims && 0 <= i < |claims[c]| :: claims[c][i]
  }

  /** Every tracked device object. */
  ghost function Objects(pods: Pods): set<PreparedDevice>
  {
    set p, c, i | p in pods && c in pods[p] && 0 <= i < |pods[p][c]| :: pods[p][c][i]
  }

  function Records(devices: seq<PreparedDevice>): (r: seq<Record>)
    reads devices
    ensures |r| == |devices|
    ensures forall i :: 0 <= i < |devices| ==> r[i] == Record(devices[i].info, devices[i].networkData)
  {
    if devices == [] then []
    else [Record(devices[0].info, devices[0].networkData)] + Records(devices[1..])
  }

  function DeepClaims(claims: Claims): ClaimRecords
    reads ObjectsOf(claims)
  {
    map c | c in claims :: Records(claims[c])
  }

  /** The deep value of memory. */
  function Deep(pods: Pods): Snapshot
    reads Objects(pods)
  {
    map p | p in pods :: DeepClaims(pods[p])
  }

  twostate lemma RecordsUnchanged(devices: seq<PreparedDevice>)
    requires forall d :: d in devices ==> d.networkData == old(d.networkData)
    ensures Records(devices) == old(Records(devices))
  {
    forall i | 0 <= i < |devices| ensures Records(devices)[i] == old(Records(devices))[i] {
      assert devices[i] in devices;
    }
  }

  twostate lemma ClaimsUnchanged(claims: Claims)
    requires forall d :: d in ObjectsOf(claims) ==> d.networkData == old(d.networkData)
    ensures DeepClaims(claims) == old(DeepClaims(claims))
  {
    forall c | c in claims ensures Records(claims[c]) == old(Records(claims[c])) {
      forall d | d in claims[c] ensures d.networkData == old(d.networkData) { assert d in ObjectsOf(claims); }
      RecordsUnchanged(claims[c]);
    }
  }

  twostate lemma DeepUnchanged(pods: Pods)
    requires forall d :: d in Objects(pods) ==> d.networkData == old(d.networkData)
    ensures Deep(pods) == old(Deep(pods))
  {
    forall p | p in pods ensures DeepClaims(pods[p]) == old(DeepClaims(pods[p])) {
      forall d | d in ObjectsOf(pods[p]) ensures d in Objects(pods) { ObjectOfPod(pods, p, d); }
      ClaimsUnchanged(pods[p]);
    }
  }

  lemma ObjectOfPod(pods: Pods, p: string, d: PreparedDevice)
    requires p in pods && d in ObjectsOf(pods[p])
    ensures d in Objects(pods)
  {
    var c, i :| c in pods[p] && 0 <= i < |pods[p][c]| && d == pods[p][c][i];
    assert pods[p][c][i] in Objects(pods);
  }

  /** The checkpoint file; None before it is first written. */
  class CheckpointStore {
    var checkpoint: Option<Snapshot>

    constructor ()
      ensures checkpoint == None
    {
      checkpoint := None;
    }

    method CreateCheckpoint(s: Snapshot, refused: bool) returns (ok: bool)
      modifies this
      ensures ok == !refused
      ensures checkpoint == if refused then old(checkpoint) else Some(s)
    {
      if !refused {
        checkpoint := Some(s);
      }
      ok := !refused;
    }
  }

  /** `pods` with `devices` stored for the claim. */
  function Stored(pods: Pods, podUID: string, claimUID: string, devices: seq<PreparedDevice>): Pods
  {
    pods[podUID := (if podUID in pods then pods[podUID] else map[])[claimUID := devices]]
  }

  /** Some pod holds the claim. */
  ghost predicate Tracked(pods: Pods, claimUID: string)
  {
    exists p :: p in pods && claimUID in pods[p]
  }

  function Flattened(claims: Claims, order: seq<string>): seq<PreparedDevice>
    requires forall c :: c in order ==> c in claims
  {
    if order == [] then [] else Flattened(claims, order[..|order| - 1]) + claims[order[|order| - 1]]
  }

  /** The devices of the claims, one claim after the other. */
  lemma {:induction false} FlattenedJoins(claims: Claims, a: seq<string>, b: seq<string>)
    requires forall c :: c in a + b ==> c in claims
    ensures (forall c :: c in a ==> c in claims) && (forall c :: c in b ==> c in claims)
    ensures Flattened(claims, a + b) == Flattened(claims, a) + Flattened(claims, b)
    ensures |b| == 1 ==> Flattened(claims, b) == claims[b[0]]
  {
    forall c | c in a || c in b ensures c in a + b { }
    if b == [] {
      assert a + b == a;
    } else {
      var init, last := b[..|b| - 1], b[|b| - 1];
      assert (a + b)[..|a + b| - 1] == a + init && (a + b)[|a + b| - 1] == last;
      FlattenedJoins(claims, a, init);
      assert Flattened(claims, a + b) == (Flattened(claims, a) + Flattened(claims, init)) + claims[last];
    }
  }

  /** What an operation does to the deep value. A claim is deleted with the pod
      that was found to hold it; network data goes to the records at `at`. */
  datatype Operation =
    | SetOp(podUID: string, claimUID: string, records: seq<Record>)
    | DeletePodOp(podUID: string)
    | DeleteClaimOp(claimUID: string, podUID: string)
    | NetworkDataOp(at: set<Position>, data: Option<NetworkData>)

  ghost function Apply(s: Snapshot, op: Operation): Snapshot
  {
    match op
    case SetOp(p, c, records) => s[p := (if p in s then s[p] else map[])[c := records]]
    case DeletePodOp(p) => s - {p}
    case DeleteClaimOp(c, p) => if p in s && c in s[p] then s - {p} else s
    case NetworkDataOp(at, data) => WithNetworkData(s, at, data)
  }

  class PodManager {
    var pods: Pods
    const store: CheckpointStore

    constructor (store: CheckpointStore, pods: Pods)
      ensures this.store == store && this.pods == pods
    {
      this.store, this.pods := store, pods;
    }

    method SyncToCheckpoint(refused: bool) returns (ok: bool)
      modifies store
      ensures ok == !refused
      ensures store.checkpoint == if refused then old(store.checkpoint) else Some(Deep(pods))
      ensures Deep(pods) == old(Deep(pods))
    {
      ok := store.CreateCheckpoint(Deep(pods), refused);
      DeepUnchanged(pods);
    }

    /** Memory keeps the entry even when the checkpoint cannot be written. */
    method Set(podUID: string, claimUID: string, devices: seq<PreparedDevice>, refused: bool) returns (ok: bool)
      modifies `pods, store
      ensures ok == !refused
      ensures pods == Stored(old(pods), podUID, claimUID, devices)
      ensures podUID in pods && claimUID in pods[podUID] && pods[podUID][claimUID] == devices
      ensures forall p, c :: p != podUID || c != claimUID ==>
        (p in pods && c in pods[p] <==> p in old(pods) && c in old(pods)[p]) &&
        (p in pods && c in pods[p] ==> pods[p][c] == old(pods)[p][c])
      ensures store.checkpoint == if refused then old(store.checkpoint) else Some(Deep(pods))
    {
      if podUID !in pods {
        pods := pods[podUID := map[]];
      }
      pods := pods[podUID := pods[podUID][claimUID := devices]];
      assert pods == Stored(old(pods), podUID, claimUID, devices);
      ok := SyncToCheckpoint(refused);
    }

    method Get(podUID: string, claimUID: string) returns (devices: seq<PreparedDevice>, found: bool)
      ensures found <==> podUID in pods && claimUID in pods[podUID]
      ensures devices == if found then pods[podUID][claimUID] else []
    {
      if podUID in pods {
        if claimUID in pods[podUID] {
          return pods[podUID][claimUID], true;
        }
        return [], false;
      }
      return [], false;
    }

    /** The devices of all the pod's claims, claim by claim in any order. */
    method GetDevicesByPodUID(podUID: string)
      returns (devices: seq<PreparedDevice>, found: bool, ghost order: seq<string>)
      ensures found <==> podUID in pods
      ensures found ==>
        (forall c :: c in order <==> c in pods[podUID]) &&
          (forall i, j :: 0 <= i < j < |order| ==> order[i] != order[j])
      ensures devices == if found then Flattened(pods[podUID], order) else []
    {
      order := [];
      if podUID !in pods {
        return [], false, order;
      }
      var claims := pods[podUID];
      devices := [];
      var rest := claims.Keys;
      while rest != {}
        invariant rest <= claims.Keys
        invariant forall c :: c in order <==> c in claims && c !in rest
        invariant forall i, j :: 0 <= i < j < |order| ==> order[i] != order[j]
        invariant devices == Flattened(claims, order)
      {
        var c :| c in rest;
        rest := rest - {c};
        devices := devices + claims[c];
        assert (order + [c])[..|order|] == order;
        order := order + [c];
      }
      found := true;
    }

    method DeletePod(podUID: string, refused: bool) returns (ok: bool)
      modifies `pods, store
      ensures ok == !refused
      ensures pods == old(pods) - {podUID}
      ensures store.checkpoint == if refused then old(store.checkpoint) else Some(Deep(pods))
    {
      pods := pods - {podUID};
      ok := SyncToCheckpoint(refused);
    }

    method GetByClaim(claimUID: string) returns (devices: seq<PreparedDevice>, found: bool)
      ensures found <==> Tracked(pods, claimUID)
      ensures found ==> exists p :: p in pods && claimUID in pods[p] && devices == pods[p][claimUID]
    {
      devices := [];
      var rest := pods.Keys;
      while rest != {}
        invariant rest <= pods.Keys
        invariant forall p :: p in pods && p !in rest ==> claimUID !in pods[p]
      {
        var p :| p in rest;
        rest := rest - {p};
        if claimUID in pods[p] {
          return pods[p][claimUID], true;
        }
      }
      found := false;
    }

    method UpdatePreparedDeviceNetworkData(device: PreparedDevice, data: Option<NetworkData>, refused: bool)
      returns (ok: bool)
      modifies device, store
      ensures ok == !refused
      ensures device.networkData == data
      ensures store.checkpoint == if refused then old(store.checkpoint) else Some(Deep(pods))
      ensures Deep(pods) == Apply(old(Deep(pods)), NetworkDataOp(Positions(pods, device), data))
    {
      ghost var before := Deep(pods);
      device.SetNetworkDeviceData(data);
      DeepAfterUpdate(pods, device, data, before);
      ok := SyncToCheckpoint(refused);
    }

    /** Removes the pod that holds the claim, with every claim it holds. */
    method DeleteClaim(claimUID: string, refused: bool) returns (ok: bool)
      modifies `pods, store
      ensures ok <==> !(Tracked(old(pods), claimUID) && refused)
      ensures Tracked(old(pods), claimUID) ==>
        exists p :: p in old(pods) && claimUID in old(pods)[p] && pods == old(pods) - {p}
      ensures !Tracked(old(pods), claimUID) ==> pods == old(pods)
      ensures store.checkpoint == if Tracked(old(pods), claimUID) && !refused then Some(Deep(pods))
                                  else old(store.checkpoint)
    {
      var podsToDelete: seq<string> := [];
      var rest := pods.Keys;
      while rest != {}
        invariant rest <= pods.Keys && podsToDelete == []
        invariant forall p :: p in pods && p !in rest ==> claimUID !in pods[p]
      {
        var p :| p in rest;
        rest := rest - {p};
        if claimUID in pods[p] {
          podsToDelete := podsToDelete + [p];
          break;
        }
      }
      if |podsToDelete| > 0 {
        assert |podsToDelete| == 1 && podsToDelete[0] in pods && claimUID in pods[podsToDelete[0]];
        assert Tracked(pods, claimUID);
        ghost var before := pods;
        for i := 0 to |podsToDelete|
          invariant pods == if i == 0 then before else before - {podsToDelete[0]}
          invariant store.checkpoint == old(store.checkpoint)
        {
          pods := pods - {podsToDelete[i]};
        }
        ok := SyncToCheckpoint(refused);
        return;
      }
      assert !Tracked(pods, claimUID);
      ok := true;
    }
  }

  // ---- Aliased pointers -------------------------------------------------------------

  datatype Position = Position(podUID: string, claimUID: string, index: nat)

  /** Where a device object is tracked. */
  ghost function Positions(pods: Pods, device: PreparedDevice): set<Position>
  {
    set p, c, i: nat | p in pods && c in pods[p] && i < |pods[p][c]| && pods[p][c][i] == device :: Position(p, c, i)
  }

  /** The network data of the records at `at` replaced; every other record kept. */
  ghost function WithNetworkData(s: Snapshot, at: set<Position>, data: Option<NetworkData>): Snapshot
  {
    map p | p in s :: map c | c in s[p] :: Replaced(s[p][c], p, c, at, data)
  }

  ghost function Replaced(records: seq<Record>, p: string, c: string, at: set<Position>,
                          data: Option<NetworkData>): (r: seq<Record>)
    ensures |r| == |records|
    ensures forall i :: 0 <= i < |r| ==>
      r[i] == if Position(p, c, i) in at then records[i].(networkData := data) else records[i]
  {
    seq(|records|, i requires 0 <= i < |records| => if Position(p, c, i) in at then records[i].(networkData := data)
                                                    else records[i])
  }

  lemma ReplacedRecords(pods: Pods, p: string, c: string, device: PreparedDevice, data: Option<NetworkData>,
                        records: seq<Record>)
    requires p in pods && c in pods[p] && |records| == |pods[p][c]| && device.networkData == data
    requires forall i :: 0 <= i < |records| ==>
      records[i].info == pods[p][c][i].info &&
        (pods[p][c][i] != device ==> records[i].networkData == pods[p][c][i].networkData)
    ensures Records(pods[p][c]) == Replaced(records, p, c, Positions(pods, device), data)
  {
    forall i: nat | i < |records| ensures Position(p, c, i) in Positions(pods, device) <==> pods[p][c][i] == device {
    }
  }

  lemma DeepAfterUpdate(pods: Pods, device: PreparedDevice, data: Option<NetworkData>, before: Snapshot)
    requires device.networkData == data
    requires before.Keys == pods.Keys
    requires forall p :: p in pods ==> before[p].Keys == pods[p].Keys
    requires forall p, c :: p in pods && c in pods[p] ==> |before[p][c]| == |pods[p][c]|
    requires forall p, c, i: nat :: p in pods && c in pods[p] && i < |pods[p][c]| ==>
      before[p][c][i].info == pods[p][c][i].info &&
      (pods[p][c][i] != device ==> before[p][c][i].networkData == pods[p][c][i].networkData)
    ensures Deep(pods) == WithNetworkData(before, Positions(pods, device), data)
  {
    var after := WithNetworkData(before, Positions(pods, device), data);
    forall p | p in pods ensures DeepClaims(pods[p]) == after[p] {
      forall c | c in pods[p] ensures Records(pods[p][c]) == after[p][c] {
        ReplacedRecords(pods, p, c, device, data, before[p][c]);
      }
    }
  }

  lemma NowhereNothing(pods: Pods, device: PreparedDevice, data: Option<NetworkData>, before: Snapshot)
    requires device !in Objects(pods)
    ensures Positions(pods, device) == {}
    ensures WithNetworkData(before, {}, data) == before
    ensures Apply(before, NetworkDataOp(Positions(pods, device), data)) == before
  {
    forall p, c, i: nat | p in pods && c in pods[p] && i < |pods[p][c]| ensures pods[p][c][i] != device {
      assert pods[p][c][i] in Objects(pods);
    }
    var after := WithNetworkData(before, {}, data);
    forall p | p in before ensures after[p] == before[p] {
      forall c | c in before[p] ensures after[p][c] == before[p][c] {
      }
    }
  }

  /** Storing, deleting a pod and deleting a claim do to the deep value what
      their operations say: they touch no device object. */
  lemma DeepStored(pods: Pods, podUID: string, claimUID: string, devices: seq<PreparedDevice>)
    ensures Deep(Stored(pods, podUID, claimUID, devices)) == Apply(Deep(pods),
                                                                   SetOp(podUID, claimUID, Records(devices)))
  {
    var after := Stored(pods, podUID, claimUID, devices);
    var expected := Apply(Deep(pods), SetOp(podUID, claimUID, Records(devices)));
    forall p | p in after ensures DeepClaims(after[p]) == expected[p] {
      if p == podUID {
        var claims := if podUID in pods then pods[podUID] else map[];
        DeepClaimsStored(claims, claimUID, devices);
        assert podUID !in pods ==> DeepClaims(claims) == map[];
      }
    }
    assert after.Keys == expected.Keys;
  }

  lemma DeepClaimsStored(claims: Claims, claimUID: string, devices: seq<PreparedDevice>)
    ensures DeepClaims(claims[claimUID := devices]) == DeepClaims(claims)[claimUID := Records(devices)]
  {
  }

  lemma DeepWithout(pods: Pods, podUID: string)
    ensures Deep(pods - {podUID}) == Apply(Deep(pods), DeletePodOp(podUID))
    ensures forall c :: podUID in pods && c in pods[podUID] ==>
      Deep(pods - {podUID}) == Apply(Deep(pods), DeleteClaimOp(c, podUID))
  {
  }

  // ---- Restart ----------------------------------------------------------------------

  ghost predicate FreshlyLoaded(devices: seq<PreparedDevice>, records: seq<Record>)
    reads devices
  {
    Records(devices) == records && forall i, j :: 0 <= i < j < |devices| ==> devices[i] != devices[j]
  }

  method LoadDevices(records: seq<Record>) returns (devices: seq<PreparedDevice>)
    ensures forall i :: 0 <= i < |devices| ==> fresh(devices[i])
    ensures FreshlyLoaded(devices, records)
  {
    devices := [];
    for i := 0 to |records|
      invariant |devices| == i && forall k :: 0 <= k < i ==> fresh(devices[k])
      invariant forall k :: 0 <= k < i ==> Record(devices[k].info, devices[k].networkData) == records[k]
      invariant forall k, l :: 0 <= k < l < i ==> devices[k] != devices[l]
    {
      var device := new PreparedDevice(records[i].info, records[i].networkData);
      devices := devices + [device];
    }
  }

  ghost predicate SameRecords(devices: seq<PreparedDevice>, records: seq<Record>)
    reads devices
  {
    |devices| == |records| && forall i :: 0 <= i < |devices| ==>
      Record(devices[i].info, devices[i].networkData) == records[i]
  }

  method LoadClaims(records: ClaimRecords) returns (claims: Claims)
    ensures forall c, i :: c in claims && 0 <= i < |claims[c]| ==> fresh(claims[c][i])
    ensures DeepClaims(claims) == records
  {
    claims := map[];
    var rest := records.Keys;
    while rest != {}
      invariant rest <= records.Keys && claims.Keys == records.Keys - rest
      invariant forall c, i :: c in claims && 0 <= i < |claims[c]| ==> fresh(claims[c][i])
      invariant forall c :: c in claims ==> SameRecords(claims[c], records[c])
    {
      var c :| c in rest;
      rest := rest - {c};
      var devices := LoadDevices(records[c]);
      claims := claims[c := devices];
    }
    forall c | c in claims ensures Records(claims[c]) == records[c] { assert SameRecords(claims[c], records[c]); }
  }

  method LoadPods(s: Snapshot) returns (pods: Pods)
    ensures forall p, c, i :: p in pods && c in pods[p] && 0 <= i < |pods[p][c]| ==> fresh(pods[p][c][i])
    ensures Deep(pods) == s
  {
    pods := map[];
    var rest := s.Keys;
    while rest != {}
      invariant rest <= s.Keys && pods.Keys == s.Keys - rest
      invariant forall p, c, i :: p in pods && c in pods[p] && 0 <= i < |pods[p][c]| ==> fresh(pods[p][c][i])
      invariant forall p :: p in pods ==> DeepClaims(pods[p]) == s[p]
    {
      var p :| p in rest;
      rest := rest - {p};
      var claims := LoadClaims(s[p]);
      pods := pods[p := claims];
    }
    assert Deep(pods) == s;
  }

  /** A restart: memory becomes the checkpoint, in new objects; without one an
      empty checkpoint is written first. */
  method NewPodManager(store: CheckpointStore, listed: bool, readable: bool, refused: bool)
    returns (r: Option<PodManager>)
    modifies store
    ensures r.Some? <==> listed && (if old(store.checkpoint).Some? then readable else !refused)
    ensures r.Some? ==> fresh(r.value) && r.value.store == store
    ensures r.Some? ==> forall d :: d in Objects(r.value.pods) ==> fresh(d)
    ensures r.Some? ==>
      Deep(r.value.pods) == (if old(store.checkpoint).Some? then old(store.checkpoint).value else map[])
    ensures r.Some? ==> store.checkpoint == Some(Deep(r.value.pods))
    ensures r.None? ==> store.checkpoint == old(store.checkpoint)
  {
    if !listed {
      return None;
    }
    if store.checkpoint.Some? {
      if !readable {
        return None;
      }
      var pods := LoadPods(store.checkpoint.value);
      var manager := new PodManager(store, pods);
      return Some(manager);
    }
    var empty: Pods := map[];
    assert Deep(empty) == map[];
    var ok := store.CreateCheckpoint(map[], refused);
    if !ok {
      return None;
    }
    var manager := new PodManager(store, empty);
    r := Some(manager);
  }
}
