/** The kubelet's calls: preparing and unpreparing resource claims, on top of the
    claim manager, the store of prepared devices, the CDI directory and the API
    server. Each call is a chain of the steps of `DraState`. */
module DraHook {
  import opened Options
  import opened Attributes
  import opened Host
  import opened PodManager
  import opened PodRuns
  import opened Resources
  import opened ClaimTransaction
  import opened ClaimRoundTrip
  import opened DraState
  import Discovery

  // ---- Chains of steps ------------------------------------------------------------

  function UIDs(claims: seq<ResourceClaim>): (r: seq<string>)
    ensures |r| == |claims| && forall i :: 0 <= i < |claims| ==> r[i] == claims[i].uid
  {
    if claims == [] then [] else UIDs(claims[..|claims| - 1]) + [claims[|claims| - 1].uid]
  }

  /** The answers by claim; for a claim that comes twice, the last one. */
  function AnswersOf<T>(claimUIDs: seq<string>, answers: seq<T>): map<string, T>
    requires |answers| == |claimUIDs|
  {
    if answers == [] then map[]
    else AnswersOf(claimUIDs[..|answers| - 1],
                   answers[..|answers| - 1])[claimUIDs[|answers| - 1] := answers[|answers| - 1]]
  }

  /** There is an answer for every claim and no other, and it is the last one given
      for it. */
  lemma {:induction false} AnswersMean<T>(claimUIDs: seq<string>, answers: seq<T>)
    requires |answers| == |claimUIDs|
    ensures forall c :: c in AnswersOf(claimUIDs, answers) <==> c in claimUIDs
    ensures forall i ::
      0 <= i < |claimUIDs| && (forall j :: i < j < |claimUIDs| ==> claimUIDs[j] != claimUIDs[i]) ==>
        claimUIDs[i] in AnswersOf(claimUIDs, answers) && AnswersOf(claimUIDs, answers)[claimUIDs[i]] == answers[i]
  {
    if answers != [] {
      var n := |answers| - 1;
      AnswersMean(claimUIDs[..n], answers[..n]);
      assert claimUIDs == claimUIDs[..n] + [claimUIDs[n]];
    }
  }

  /** The claims are prepared one by one, `starts` being the interface indices in
      between. */
  ghost predicate PrepareChain(manager: ClaimManager, claims: seq<ResourceClaim>, states: seq<View>, starts: seq<nat>,
                               replies: seq<PrepareResult>)
    reads manager.table
  {
    && |states| == |starts| == |claims| + 1 && |replies| == |claims|
    && forall i :: 0 <= i < |claims| ==> PreparesAt(manager, claims, states, starts, replies, i)
  }

  ghost predicate PreparesAt(manager: ClaimManager, claims: seq<ResourceClaim>, states: seq<View>, starts: seq<nat>,
                             replies: seq<PrepareResult>, i: nat)
    requires i < |claims| && |states| == |starts| == |claims| + 1 && |replies| == |claims|
    reads manager.table
  {
    Prepares(manager, states[i], states[i + 1], claims[i], starts[i], starts[i + 1], replies[i])
  }

  /** The claims are unprepared one by one. */
  ghost predicate UnprepareChain(manager: ClaimManager, claimUIDs: seq<string>, states: seq<View>, replies: seq<bool>)
  {
    && |states| == |claimUIDs| + 1 && |replies| == |claimUIDs|
    && forall i :: 0 <= i < |claimUIDs| ==> UnpreparesAt(manager, claimUIDs, states, replies, i)
  }

  ghost predicate UnpreparesAt(manager: ClaimManager, claimUIDs: seq<string>, states: seq<View>, replies: seq<bool>,
                               i: nat)
    requires i < |claimUIDs| && |states| == |claimUIDs| + 1 && |replies| == |claimUIDs|
  {
    Unprepares(manager, states[i], states[i + 1], claimUIDs[i], replies[i])
  }

  /** The claim was prepared in this step, not found recorded. */
  ghost predicate NewlyReady(before: View, claim: ResourceClaim, r: PrepareResult)
  {
    Settled(claim) && r.Ready? && !Entry(before.pods, claim.reservedFor[0], claim.uid)
  }

  /** The API server holds what it makes of `list`, with these answers. */
  ghost predicate StatusSent(before: View, now: View, claim: ResourceClaim, list: seq<DeviceStatus>,
                             answers: seq<Answer>)
  {
    var key := ClaimKey(claim.namespace, claim.name);
    StatusOf(now.statuses, key) == Written(StatusOf(before.statuses, key), list, answers)
  }

  /** What was sent for a newly prepared claim: `list`, which ends in the claim's
      devices. */
  ghost predicate StatusStep(manager: ClaimManager, before: View, now: View, claim: ResourceClaim, r: PrepareResult,
                             list: seq<DeviceStatus>, answers: seq<Answer>)
  {
    && |answers| == BACKOFF_STEPS && (manager.reliable ==> Accepted in answers)
    && (NewlyReady(before, claim, r) ==>
          && StatusSent(before, now, claim, list, answers)
          && EndsWith(list, manager.StatusEntries(manager.ConfigsFor(claim), claim.allocation.value.results)))
  }

  predicate EndsWith(list: seq<DeviceStatus>, end: seq<DeviceStatus>)
  {
    |end| <= |list| && list[|list| - |end|..] == end
  }

  ghost predicate StatusChain(manager: ClaimManager, claims: seq<ResourceClaim>, states: seq<View>,
                              replies: seq<PrepareResult>, lists: seq<seq<DeviceStatus>>, answers: seq<seq<Answer>>)
  {
    && |states| == |claims| + 1 && |replies| == |lists| == |answers| == |claims|
    && forall i :: 0 <= i < |claims| ==> StatusAt(manager, claims, states, replies, lists, answers, i)
  }

  ghost predicate StatusAt(manager: ClaimManager, claims: seq<ResourceClaim>, states: seq<View>,
                           replies: seq<PrepareResult>, lists: seq<seq<DeviceStatus>>, answers: seq<seq<Answer>>,
                           i: nat)
    requires i < |claims| && |states| == |claims| + 1 && |replies| == |lists| == |answers| == |claims|
  {
    StatusStep(manager, states[i], states[i + 1], claims[i], replies[i], lists[i], answers[i])
  }

  lemma StatusAtLonger(manager: ClaimManager, claims: seq<ResourceClaim>, states: seq<View>,
                       replies: seq<PrepareResult>, lists: seq<seq<DeviceStatus>>, answers: seq<seq<Answer>>,
                       claim: ResourceClaim, now: View, r: PrepareResult, list: seq<DeviceStatus>, answer: seq<Answer>,
                       i: nat)
    requires |states| == |claims| + 1 && |replies| == |lists| == |answers| == |claims| && i <= |claims|
    requires if i < |claims| then StatusAt(manager, claims, states, replies, lists, answers, i)
      else StatusStep(manager, states[i], now, claim, r, list, answer)
    ensures StatusAt(manager, claims + [claim], states + [now], replies + [r], lists + [list], answers + [answer], i)
  {
    if i < |claims| {
      assert (states + [now])[i] == states[i] && (states + [now])[i + 1] == states[i + 1] &&
        (claims + [claim])[i] == claims[i];
      assert (replies + [r])[i] == replies[i] && (lists + [list])[i] == lists[i] &&
        (answers + [answer])[i] == answers[i];
    }
  }

  lemma StatusChainNext(manager: ClaimManager, claims: seq<ResourceClaim>, states: seq<View>,
                        replies: seq<PrepareResult>, lists: seq<seq<DeviceStatus>>, answers: seq<seq<Answer>>,
                        claim: ResourceClaim, now: View, r: PrepareResult, list: seq<DeviceStatus>, answer: seq<Answer>)
    requires StatusChain(manager, claims, states, replies, lists, answers)
    requires StatusStep(manager, states[|claims|], now, claim, r, list, answer)
    ensures StatusChain(manager, claims + [claim], states + [now], replies + [r], lists + [list], answers + [answer])
  {
    forall i | 0 <= i < |claims + [claim]|
      ensures StatusAt(manager, claims + [claim], states + [now], replies + [r], lists + [list], answers + [answer], i)
    {
      if i < |claims| { assert StatusAt(manager, claims, states, replies, lists, answers, i); }
      StatusAtLonger(manager, claims, states, replies, lists, answers, claim, now, r, list, answer, i);
    }
  }

  ghost predicate AllTrue(replies: seq<bool>)
  {
    forall i :: 0 <= i < |replies| ==> replies[i]
  }

  lemma PreparesUpTo(manager: ClaimManager, claims: seq<ResourceClaim>, n: nat, states: seq<View>, starts: seq<nat>,
                     replies: seq<PrepareResult>, now: View, next: nat, r: PrepareResult)
    requires n < |claims| && PrepareChain(manager, claims[..n], states, starts, replies)
    requires Prepares(manager, states[n], now, claims[n], starts[n], next, r)
    ensures PrepareChain(manager, claims[..n + 1], states + [now], starts + [next], replies + [r])
  {
    var claims', states', starts', replies' := claims[..n + 1], states + [now], starts + [next], replies + [r];
    forall i | 0 <= i <= n ensures PreparesAt(manager, claims', states', starts', replies', i) {
      if i < n {
        assert PreparesAt(manager, claims[..n], states, starts, replies, i);
        PreparesAtLonger(manager, claims, n, states, starts, replies, now, next, r, i);
      } else {
        PreparesAtEnd(manager, claims, n, states, starts, replies, now, next, r);
      }
    }
  }

  lemma PreparesAtEnd(manager: ClaimManager, claims: seq<ResourceClaim>, n: nat, states: seq<View>, starts: seq<nat>,
                      replies: seq<PrepareResult>, now: View, next: nat, r: PrepareResult)
    requires n < |claims| && |states| == |starts| == n + 1 && |replies| == n
    requires Prepares(manager, states[n], now, claims[n], starts[n], next, r)
    ensures PreparesAt(manager, claims[..n + 1], states + [now], starts + [next], replies + [r], n)
  {
  }

  lemma PreparesAtLonger(manager: ClaimManager, claims: seq<ResourceClaim>, n: nat, states: seq<View>, starts: seq<nat>,
                         replies: seq<PrepareResult>, now: View, next: nat, r: PrepareResult, i: nat)
    requires i < n < |claims| && |states| == |starts| == n + 1 && |replies| == n
    requires PreparesAt(manager, claims[..n], states, starts, replies, i)
    ensures PreparesAt(manager, claims[..n + 1], states + [now], starts + [next], replies + [r], i)
  {
    assert (states + [now])[i] == states[i] && (states + [now])[i + 1] == states[i + 1] &&
      claims[..n + 1][i] == claims[..n][i];
    assert (starts + [next])[i] == starts[i] && (starts + [next])[i + 1] == starts[i + 1] &&
      (replies + [r])[i] == replies[i];
  }

  lemma UnprepareChainNext(manager: ClaimManager, claimUIDs: seq<string>, states: seq<View>, replies: seq<bool>,
                           c: string, now: View, ok: bool)
    requires UnprepareChain(manager, claimUIDs, states, replies)
    requires Unprepares(manager, states[|claimUIDs|], now, c, ok)
    ensures UnprepareChain(manager, claimUIDs + [c], states + [now], replies + [ok])
  {
    var claimUIDs', states', replies' := claimUIDs + [c], states + [now], replies + [ok];
    forall i | 0 <= i < |claimUIDs'| ensures UnpreparesAt(manager, claimUIDs', states', replies', i) {
      if i < |claimUIDs| {
        assert UnpreparesAt(manager, claimUIDs, states, replies, i);
        assert states'[i] == states[i] && states'[i + 1] == states[i + 1] && claimUIDs'[i] == claimUIDs[i] &&
          replies'[i] == replies[i];
      }
    }
  }

  lemma AnswersNext<T>(claimUIDs: seq<string>, answers: seq<T>, c: string, answer: T)
    requires |answers| == |claimUIDs|
    ensures AnswersOf(claimUIDs + [c], answers + [answer]) == AnswersOf(claimUIDs, answers)[c := answer]
  {
    assert (claimUIDs + [c])[..|answers|] == claimUIDs && (answers + [answer])[..|answers|] == answers;
  }

  // ---- Batches ---------------------------------------------------------------------

  datatype BatchError =
    | NoPodInfo
    | NoPreparedDevices(podUID: string)
    | DeviceGone(device: string, cleaned: bool)
    | PodSpecFailed(cleaned: bool)

  /** The pod that a batch is for: that of its first claim with one. */
  function PodOf(claims: seq<ResourceClaim>): string
  {
    if claims == [] then "" else if claims[0].reservedFor != [] then claims[0].reservedFor[0] else PodOf(claims[1..])
  }

  lemma {:induction false} PodOfMeans(claims: seq<ResourceClaim>)
    ensures forall i :: FirstWithPod(claims, i) ==> PodOf(claims) == claims[i].reservedFor[0]
    ensures (forall i :: 0 <= i < |claims| ==> claims[i].reservedFor == []) ==> PodOf(claims) == ""
  {
    if claims != [] {
      var rest := claims[1..];
      PodOfMeans(rest);
      assert forall i :: 0 < i < |claims| ==> claims[i] == rest[i - 1];
      forall i | FirstWithPod(claims, i) && i > 0 ensures PodOf(rest) == claims[i].reservedFor[0] {
        assert FirstWithPod(rest, i - 1);
      }
    }
  }

  /** The first claim of a batch that is reserved for a pod. */
  ghost predicate FirstWithPod(claims: seq<ResourceClaim>, i: int)
  {
    0 <= i < |claims| && claims[i].reservedFor != [] && forall j :: 0 <= j < i ==> claims[j].reservedFor == []
  }

  /** The PCI addresses that the table now has for the devices. */
  function AddressesOf(table: Devices, devices: seq<PreparedDevice>): seq<string>
  {
    if devices == [] then []
    else
      var last := devices[|devices| - 1].info.device;
      AddressesOf(table, devices[..|devices| - 1]) + [if last in table then PciOf(table[last]) else ""]
  }

  /** In a table that is filed by address: one address for each device, the one that
      its name is made from. */
  ghost predicate AddressedByName(addresses: seq<string>, devices: seq<PreparedDevice>)
  {
    |addresses| == |devices| && forall i :: 0 <= i < |devices| ==> AddressNames(addresses[i], devices[i].info.device)
  }

  ghost predicate AddressNames(a: string, device: string)
  {
    Discovery.WellFormedAddress(a) && Discovery.DeviceName(a) == device
  }

  lemma {:induction false} AddressesMean(table: Devices, devices: seq<PreparedDevice>)
    requires Discovery.FiledByAddress(table)
    requires forall i :: 0 <= i < |devices| ==> devices[i].info.device in table
    ensures AddressedByName(AddressesOf(table, devices), devices)
  {
    if devices != [] {
      var n := |devices| - 1;
      var before, all := AddressesOf(table, devices[..n]), AddressesOf(table, devices);
      AddressesMean(table, devices[..n]);
      AddressOf(table, devices[n].info.device);
      assert all == before + [PciOf(table[devices[n].info.device])] && |before| == n;
      forall i | 0 <= i < n ensures AddressNames(all[i], devices[i].info.device) {
        assert AddressNames(before[i], devices[..n][i].info.device);
      }
    }
  }

  /** The pod's spec has the address of every device the pod holds, and nothing else. */
  ghost predicate PodSpecByName(v: View, p: string)
  {
    && PodSpec(p) in v.specs
    && (forall c, j :: Entry(v.pods, p, c) && 0 <= j < |v.pods[p][c]| ==>
          Lists(v.specs[PodSpec(p)], v.pods[p][c][j].info.device))
    && (forall a :: a in v.specs[PodSpec(p)] ==> HeldBy(v.pods, p, a))
  }

  /** The spec has the address of the device. */
  ghost predicate Lists(spec: seq<string>, device: string)
  {
    exists a :: a in spec && AddressNames(a, device)
  }

  /** The address names a device that the pod holds. */
  ghost predicate HeldBy(pods: Pods, p: string, a: string)
  {
    exists c, j :: Entry(pods, p, c) && 0 <= j < |pods[p][c]| && AddressNames(a, pods[p][c][j].info.device)
  }

  lemma PublishedByName(manager: ClaimManager, before: View, now: View, p: string, order: seq<string>)
    requires PodPublished(manager, before, now, p, order) && Discovery.FiledByAddress(manager.table.allocatable)
    requires forall device :: !Lacks(manager.table.allocatable, before.pods, p, device)
    ensures PodSpecByName(now, p)
  {
    var table, claims := manager.table.allocatable, before.pods[p];
    var devices := Flattened(claims, order);
    forall i | 0 <= i < |devices| ensures devices[i].info.device in table {
      FlattenedHas(claims, order, i);
      var c, j :| c in claims && 0 <= j < |claims[c]| && claims[c][j] == devices[i];
      assert Entry(before.pods, p, c) && !Lacks(table, before.pods, p, devices[i].info.device);
    }
    AddressesMean(table, devices);
    ListedByName(now, p, order, AddressesOf(table, devices));
  }

  lemma ListedByName(v: View, p: string, order: seq<string>, spec: seq<string>)
    requires PodSpec(p) in v.specs && spec == v.specs[PodSpec(p)] && IsOrder(v.pods, p, order)
    requires AddressedByName(spec, Flattened(v.pods[p], order))
    ensures PodSpecByName(v, p)
  {
    var claims := v.pods[p];
    var devices := Flattened(claims, order);
    forall c, j | Entry(v.pods, p, c) && 0 <= j < |v.pods[p][c]| ensures Lists(spec, v.pods[p][c][j].info.device) {
      AllFlattened(claims, order, c, j);
      var i :| 0 <= i < |devices| && devices[i] == claims[c][j];
      assert AddressNames(spec[i], devices[i].info.device);
    }
    forall a | a in spec ensures HeldBy(v.pods, p, a) {
      var i :| 0 <= i < |spec| && spec[i] == a;
      FlattenedHas(claims, order, i);
      var c, j :| c in claims && 0 <= j < |claims[c]| && claims[c][j] == devices[i];
      assert Entry(v.pods, p, c) && AddressNames(a, v.pods[p][c][j].info.device);
    }
  }

  /** All devices of a pod, claim by claim in some order. */
  ghost predicate IsOrder(pods: Pods, podUID: string, order: seq<string>)
  {
    podUID in pods && (forall c :: c in order <==> c in pods[podUID]) && forall i, j :: 0 <= i < j < |order| ==>
      order[i] != order[j]
  }

  /** The pod's spec is written and lists the addresses of all its devices; nothing
      else changes. */
  ghost predicate PodPublished(manager: ClaimManager, before: View, now: View, podUID: string, order: seq<string>)
    reads manager.table
  {
    && IsOrder(before.pods, podUID, order)
    && now == before.(specs := before.specs[
                      PodSpec(podUID) := AddressesOf(manager.table.allocatable, Flattened(before.pods[podUID], order))])
  }

  /** The pod holds a device that the table no longer has. */
  ghost predicate Lacks(table: Devices, pods: Pods, podUID: string, device: string)
  {
    device !in table && exists c, i ::
      Entry(pods, podUID, c) && 0 <= i < |pods[podUID][c]| && pods[podUID][c][i].info.device == device
  }

  /** The history of a batch: the states after each claim, the interface indices,
      the answers; the device lists that were sent for the claims' statuses, and what
      the API server answered to each; the order in which the pod's claims are
      listed; and the states and answers of the rollback. */
  datatype History = History(
    states: seq<View>, starts: seq<nat>, replies: seq<PrepareResult>, lists: seq<seq<DeviceStatus>>,
      answers: seq<seq<Answer>>,
    order: seq<string>, undone: seq<View>, oks: seq<bool>)

  /** The batch was prepared, and then rolled back. */
  predicate RolledBackBatch(error: Option<BatchError>)
  {
    error.Some? && (error.value.DeviceGone? || error.value.PodSpecFailed?)
  }

  /** What publishing the pod of a prepared batch comes to. */
  ghost predicate Concludes(manager: ClaimManager, prepared: View, now: View, claims: seq<ResourceClaim>,
                            error: Option<BatchError>, order: seq<string>, undone: seq<View>, oks: seq<bool>)
    reads manager.table
  {
    match error
    case None =>
      && PodOf(claims) != "" && PodPublished(manager, prepared, now, PodOf(claims), order)
      && forall device :: !Lacks(manager.table.allocatable, prepared.pods, PodOf(claims), device)
    case Some(NoPodInfo) => PodOf(claims) == "" && now == prepared
    case Some(NoPreparedDevices(p)) => p == PodOf(claims) != "" && p !in prepared.pods && now == prepared
    case Some(DeviceGone(device, cleaned)) =>
      Lacks(manager.table.allocatable, prepared.pods, PodOf(claims), device) &&
        Undoes(manager, prepared, now, UIDs(claims), cleaned, undone, oks)
    case Some(PodSpecFailed(cleaned)) =>
      PodOf(claims) in prepared.pods && !manager.reliable &&
        Undoes(manager, prepared, now, UIDs(claims), cleaned, undone, oks)
  }

  ghost predicate Undoes(manager: ClaimManager, prepared: View, now: View, claimUIDs: seq<string>, cleaned: bool,
                         undone: seq<View>, oks: seq<bool>)
  {
    && UnprepareChain(manager, claimUIDs, undone, oks) && undone[0] == prepared && undone[|claimUIDs|] == now
    && (cleaned <==> AllTrue(oks))
  }

  /** What a batch comes to: its claims are prepared one by one, with the interface
      indices running on from 0, and then its pod is published. */
  ghost predicate Batch(manager: ClaimManager, before: View, now: View, claims: seq<ResourceClaim>,
                        results: map<string, PrepareResult>, error: Option<BatchError>, h: History)
    reads manager.table
  {
    if claims == [] then now == before && results == map[] && error == None
    else
      && PrepareChain(manager, claims, h.states, h.starts, h.replies) && h.states[0] == before && h.starts[0] == 0
      && StatusChain(manager, claims, h.states, h.replies, h.lists, h.answers)
      && results == AnswersOf(UIDs(claims), h.replies)
      && Concludes(manager, h.states[|claims|], now, claims, error, h.order, h.undone, h.oks)
  }

  // ---- The driver --------------------------------------------------------------------

  function KubeletDevices(devices: seq<PreparedDevice>): (r: seq<KubeletDevice>)
    reads devices
    ensures Shows(r, Records(devices))
  {
    if devices == [] then []
    else [ToKubelet(Record(devices[0].info, devices[0].networkData))] + KubeletDevices(devices[1..])
  }

  lemma WithdrawnStores(manager: ClaimManager, before: View, bound: View, now: View, claim: ResourceClaim,
                        devices: seq<PreparedDevice>, cleaned: bool)
    requires Settled(claim) && devices != [] && Prepared(devices, manager.WantsFor(claim))
    requires devices[0].info.podUID == claim.reservedFor[0]
    requires InfoKeys(devices) == manager.ClaimKeys(claim.allocation.value.results)
    requires Elsewhere(before.slots, bound.slots, devices)
    requires InfosElsewhere(before.entries, bound.entries, InfoKeys(devices))
    requires !manager.multus ==> bound.entries == before.entries
    requires bound.specs == before.specs[ClaimSpec(claim.uid) := manager.SpecOf(devices)]
    requires TornDown(manager, bound, now, claim.uid, devices, cleaned)
    ensures Confined(before.slots, now.slots, manager.WantsFor(claim))
    ensures InfosElsewhere(before.entries, now.entries, manager.ClaimKeys(claim.allocation.value.results))
    ensures SpecsElsewhere(bound.specs, now.specs, {ClaimSpec(claim.uid), PodSpec(claim.reservedFor[0])})
    ensures cleaned ==> now.entries == before.entries - manager.ClaimKeys(claim.allocation.value.results)
    ensures cleaned ==> now.specs.Keys == before.specs.Keys - {ClaimSpec(claim.uid), PodSpec(claim.reservedFor[0])}
  {
    ConfinedWhenPrepared(before.slots, bound.slots, now.slots, devices, manager.WantsFor(claim));
    WrittenThenCleaned(before.entries, bound.entries, now.entries, InfoKeys(devices));
    if cleaned { UndoneEntries(manager, claim, devices, before.entries, bound.entries, now.entries); }
  }

  lemma WithdrawnDevices(manager: ClaimManager, before: View, bound: View, now: View, claim: ResourceClaim,
                         devices: seq<PreparedDevice>, cleaned: bool)
    requires Settled(claim) && Prepared(devices, manager.WantsFor(claim))
    requires AllBound(before.slots, bound.slots, manager.host.traits, devices)
    requires cleaned ==> Restored(bound.slots, now.slots, manager.host.traits, devices, |devices|)
    requires StillUndoable(bound.slots, now.slots, manager.host.traits, devices)
    requires manager.reliable ==> (cleaned <==> Restorable(devices))
    ensures cleaned ==> AllBackAs(before.slots, now.slots, manager.host.traits, devices)
    ensures AllHeld(before.slots, now.slots, manager.host.traits, devices)
    ensures manager.reliable ==> (cleaned <==> Reversible(before.slots, manager.WantsFor(claim)))
  {
    RestorableFromStart(before.slots, bound.slots, manager.host.traits, devices, manager.WantsFor(claim));
    HeldWhenBound(before.slots, bound.slots, manager.host.traits, devices);
    HeldStays(before.slots, bound.slots, now.slots, manager.host.traits, devices);
    if cleaned { BackAtOnce(before.slots, bound.slots, now.slots, manager.host.traits, devices); }
  }

  /** Devices that were just bound for a claim, and torn down, are withdrawn. */
  lemma WithdrawnFrom(manager: ClaimManager, before: View, bound: View, now: View, claim: ResourceClaim,
                      devices: seq<PreparedDevice>, from: nat, next: nat, cleaned: bool)
    requires Settled(claim)
    requires manager.AllPrepared(before.slots, bound.slots, before.entries, bound.entries, claim, devices, from, next)
    requires bound.specs == before.specs[ClaimSpec(claim.uid) := manager.SpecOf(devices)]
    requires TornDown(manager, bound, now, claim.uid, devices, cleaned)
    ensures Withdrawn(manager, before, now, claim, devices, cleaned)
  {
    manager.BoundReads(before.slots, bound.slots, claim, devices, from, next);
    manager.OwnedBy(devices, claim);
    WithdrawnStores(manager, before, bound, now, claim, devices, cleaned);
    if DistinctResults(manager.table.allocatable, claim.allocation.value.results) {
      DistinctFor(manager, claim, devices);
      WithdrawnDevices(manager, before, bound, now, claim, devices, cleaned);
    }
  }

  /** What binding the devices of a claim comes to, before it is recorded. */
  ghost predicate Binding(manager: ClaimManager, before: View, bound: View, claim: ResourceClaim,
                          devices: seq<PreparedDevice>, from: nat, next: nat)
    requires Settled(claim)
    reads manager.table
  {
    && manager.Preparable(claim)
    && manager.AllPrepared(before.slots, bound.slots, before.entries, bound.entries, claim, devices, from, next)
    && bound == before.(slots := bound.slots, entries := bound.entries,
                        specs := before.specs[ClaimSpec(claim.uid) := manager.SpecOf(devices)])
  }

  /** What recording the devices of a claim comes to. */
  ghost predicate Recording(manager: ClaimManager, bound: View, now: View, claim: ResourceClaim,
                            devices: seq<PreparedDevice>, refused: bool, r: PrepareResult)
    requires Settled(claim)
  {
    && RecordedIn(bound, now, claim.reservedFor[0], claim.uid) && now.pods[claim.reservedFor[0]][claim.uid] == devices
    && if refused then
         && r.NotRecorded? && now.checkpoint == bound.checkpoint && now.statuses == bound.statuses
         && TornDown(manager, bound, now, claim.uid, devices, r.cleaned)
       else
         && r.Ready? && Shows(r.devices, now.memory[claim.reservedFor[0]][claim.uid])
         && now.slots == bound.slots && now.specs == bound.specs && now.entries == bound.entries
         && now.checkpoint == Some(now.memory)
         && OnlyStatus(bound.statuses, now.statuses, ClaimKey(claim.namespace, claim.name))
  }

  /** The devices were put into memory, and nothing else was done yet. */
  ghost predicate JustStored(bound: View, stored: View, claim: ResourceClaim, devices: seq<PreparedDevice>)
    requires Settled(claim)
  {
    && RecordedIn(bound, stored, claim.reservedFor[0], claim.uid)
    && stored.pods[claim.reservedFor[0]][claim.uid] == devices
    && stored == bound.(pods := stored.pods, memory := stored.memory, checkpoint := stored.checkpoint)
  }

  lemma RecordingRefused(manager: ClaimManager, bound: View, stored: View, now: View, claim: ResourceClaim,
                         devices: seq<PreparedDevice>, cleaned: bool)
    requires Settled(claim) && JustStored(bound, stored, claim, devices) && stored.checkpoint == bound.checkpoint
    requires now == stored.(slots := now.slots, specs := now.specs, entries := now.entries)
    requires TornDown(manager, stored, now, claim.uid, devices, cleaned)
    ensures Recording(manager, bound, now, claim, devices, true, NotRecorded(cleaned))
  {
  }

  lemma RecordingTaken(manager: ClaimManager, bound: View, stored: View, now: View, claim: ResourceClaim,
                       devices: seq<PreparedDevice>, prepared: seq<KubeletDevice>)
    requires Settled(claim) && JustStored(bound, stored, claim, devices) && stored.checkpoint == Some(stored.memory)
    requires now == stored.(statuses := now.statuses)
    requires OnlyStatus(stored.statuses, now.statuses, ClaimKey(claim.namespace, claim.name))
    requires Shows(prepared, stored.memory[claim.reservedFor[0]][claim.uid])
    ensures Recording(manager, bound, now, claim, devices, false, Ready(prepared))
  {
  }

  lemma RecordingPrepares(manager: ClaimManager, before: View, bound: View, now: View, claim: ResourceClaim,
                          devices: seq<PreparedDevice>, from: nat, next: nat, refused: bool, r: PrepareResult)
    requires Settled(claim) && Binding(manager, before, bound, claim, devices, from, next)
    requires Recording(manager, bound, now, claim, devices, refused, r)
    ensures PreparesNew(manager, before, now, claim, from, next, r)
  {
    if refused { WithdrawnFrom(manager, before, bound, now, claim, devices, from, next, r.cleaned); }
  }

  class Driver {
    const manager: ClaimManager
    const podManager: PodManager
    const api: ApiServer

    constructor (manager: ClaimManager, podManager: PodManager, api: ApiServer)
      ensures this.manager == manager && this.podManager == podManager && this.api == api
    {
      this.manager, this.podManager, this.api := manager, podManager, api;
    }

    ghost function Now(): View
      reads manager.host, manager.cdi, manager.infos, podManager, podManager.store, api, Objects(podManager.pods)
    {
      View(manager.host.slots, manager.cdi.specs, manager.infos.entries, podManager.pods, Deep(podManager.pods),
           podManager.store.checkpoint, api.statuses)
    }

    lemma NowTells()
      ensures Tells(Now())
    {
      forall p, c
        ensures Entry(podManager.pods, p, c) <==> p in Now().memory && c in Now().memory[p]
        ensures Entry(podManager.pods, p, c) ==> SameInfos(podManager.pods[p][c], Now().memory[p][c])
      {
        DeepTells(podManager.pods, p, c);
      }
    }

    /** Unprepares devices. */
    method TearDown(claimUID: string, devices: seq<PreparedDevice>) returns (ok: bool)
      modifies manager.host, manager.cdi, manager.infos
      ensures TornDown(manager, old(Now()), Now(), claimUID, devices, ok)
      ensures Now() == old(Now()).(slots := manager.host.slots, specs := manager.cdi.specs,
                                   entries := manager.infos.entries)
    {
      ok := manager.Unprepare(claimUID, devices);
      DeepUnchanged(podManager.pods);
    }

    /** Whether the status gets through or not makes no difference to the answer. */
    method PublishStatus(claim: ResourceClaim, answers: seq<Answer>)
      requires |answers| == BACKOFF_STEPS
      modifies api
      ensures OnlyStatus(old(api.statuses), api.statuses, ClaimKey(claim.namespace, claim.name))
      ensures StatusSent(old(Now()), Now(), claim, claim.status.devices, answers)
      ensures Now() == old(Now()).(statuses := api.statuses)
    {
      var updated := api.UpdateWithRetry(ClaimKey(claim.namespace, claim.name), claim.status, answers);
      DeepUnchanged(podManager.pods);
    }

    method Store(podUID: string, claimUID: string, devices: seq<PreparedDevice>, refused: bool) returns (ok: bool)
      modifies podManager`pods, podManager.store
      ensures ok == !refused
      ensures Now() == old(Now()).(pods := podManager.pods, memory := Deep(podManager.pods),
                                   checkpoint := podManager.store.checkpoint)
      ensures RecordedIn(old(Now()), Now(), podUID, claimUID)
      ensures podManager.pods[podUID][claimUID] == devices
      ensures Deep(podManager.pods)[podUID][claimUID] == Records(devices)
      ensures podManager.store.checkpoint == if ok then Some(Deep(podManager.pods))
                                             else old(podManager.store.checkpoint)
    {
      ghost var pods := podManager.pods;
      ok := podManager.Set(podUID, claimUID, devices, refused);
      DeepUnchanged(pods);
      DeepStored(pods, podUID, claimUID, devices);
    }

    /** Records the devices of a claim, and publishes its status; if the checkpoint
        cannot be written, the devices are unprepared again, but the record stays in
        memory. */
    method Record(claim: ResourceClaim, devices: seq<PreparedDevice>, refused: bool, answers: seq<Answer>)
      returns (r: PrepareResult)
      requires Settled(claim) && |answers| == BACKOFF_STEPS
      modifies manager.host, manager.cdi, manager.infos, podManager`pods, podManager.store, api
      ensures Recording(manager, old(Now()), Now(), claim, devices, refused, r)
      ensures unchanged(claim.status)
      ensures r.Ready? ==> StatusSent(old(Now()), Now(), claim, claim.status.devices, answers)
    {
      ghost var bound, list := Now(), claim.status.devices;
      var prepared := KubeletDevices(devices);
      var recorded := Store(claim.reservedFor[0], claim.uid, devices, refused);
      if !recorded {
        var cleaned := Withdraw(claim, devices, bound);
        return NotRecorded(cleaned);
      }
      Confirm(claim, devices, prepared, answers, bound);
      assert claim.status.devices == list;
      r := Ready(prepared);
    }

    /** The record could not be written: the devices are unprepared. */
    method Withdraw(claim: ResourceClaim, devices: seq<PreparedDevice>, ghost bound: View) returns (cleaned: bool)
      requires Settled(claim) && JustStored(bound, Now(), claim, devices) && Now().checkpoint == bound.checkpoint
      modifies manager.host, manager.cdi, manager.infos
      ensures Recording(manager, bound, Now(), claim, devices, true, NotRecorded(cleaned))
      ensures unchanged(claim.status)
    {
      ghost var stored := Now();
      cleaned := TearDown(claim.uid, devices);
      RecordingRefused(manager, bound, stored, Now(), claim, devices, cleaned);
    }

    /** The record is written: the status is published. */
    method Confirm(claim: ResourceClaim, devices: seq<PreparedDevice>, prepared: seq<KubeletDevice>,
                   answers: seq<Answer>, ghost bound: View)
      requires Settled(claim) && |answers| == BACKOFF_STEPS && JustStored(bound, Now(), claim, devices)
      requires Now().checkpoint == Some(Now().memory) && Shows(prepared, Now().memory[claim.reservedFor[0]][claim.uid])
      modifies api
      ensures Recording(manager, bound, Now(), claim, devices, false, Ready(prepared))
      ensures StatusSent(bound, Now(), claim, claim.status.devices, answers)
      ensures unchanged(claim.status)
    {
      ghost var stored := Now();
      PublishStatus(claim, answers);
      RecordingTaken(manager, bound, stored, Now(), claim, devices, prepared);
    }

    /** Prepares one claim; `refused` says whether its record can be written to the
        checkpoint, and `answers` are those of the API server to its status. */
    method PrepareResourceClaim(ifNameIndex: nat, claim: ResourceClaim, refused: bool, answers: seq<Answer>)
      returns (r: PrepareResult, ifNameIndex': nat)
      requires |answers| == BACKOFF_STEPS
      modifies manager.host, manager.cdi, manager.infos, claim.status, podManager`pods, podManager.store, api
      ensures Prepares(manager, old(Now()), Now(), claim, ifNameIndex, ifNameIndex', r)
      ensures r.NotRecorded? ==> refused
      ensures r.Ready? && refused ==> Entry(old(podManager.pods), claim.reservedFor[0], claim.uid)
      ensures NewlyReady(old(Now()), claim, r) ==>
        && StatusSent(old(Now()), Now(), claim, claim.status.devices, answers)
        && claim.status.devices ==
             old(claim.status.devices) + manager.StatusEntries(manager.ConfigsFor(claim),
                                                               claim.allocation.value.results)
    {
      ifNameIndex' := ifNameIndex;
      if |claim.reservedFor| == 0 {
        return NoPod, ifNameIndex;
      } else if |claim.reservedFor| > 1 {
        return ManyPods, ifNameIndex;
      }
      if claim.allocation.None? {
        return NotAllocated, ifNameIndex;
      }
      var preparedDevices, isAlreadyPrepared := podManager.Get(claim.reservedFor[0], claim.uid);
      DeepUnchanged(podManager.pods);
      if isAlreadyPrepared {
        DeepTells(podManager.pods, claim.reservedFor[0], claim.uid);
        return Ready(KubeletDevices(preparedDevices)), ifNameIndex;
      }
      r, ifNameIndex' := PrepareUnrecorded(ifNameIndex, claim, refused, answers);
    }

    method PrepareUnrecorded(ifNameIndex: nat, claim: ResourceClaim, refused: bool, answers: seq<Answer>)
      returns (r: PrepareResult, ifNameIndex': nat)
      requires Settled(claim) && |answers| == BACKOFF_STEPS
      modifies manager.host, manager.cdi, manager.infos, claim.status, podManager`pods, podManager.store, api
      ensures PreparesNew(manager, old(Now()), Now(), claim, ifNameIndex, ifNameIndex', r)
      ensures ifNameIndex <= ifNameIndex'
      ensures if refused then !r.Ready? else !r.NotRecorded?
      ensures r.Ready? ==>
        claim.status.devices == old(claim.status.devices) + manager.StatusEntries(manager.ConfigsFor(claim),
            claim.allocation.value.results)
      ensures r.Ready? ==> StatusSent(old(Now()), Now(), claim, claim.status.devices, answers)
    {
      ghost var before := Now();
      var prepared;
      prepared, ifNameIndex' := BindNew(ifNameIndex, claim);
      if prepared.Err? {
        return NotPrepared(prepared.error), ifNameIndex';
      }
      ghost var list := claim.status.devices;
      r := RecordBound(claim, prepared.value, refused, answers, before, ifNameIndex, ifNameIndex');
      assert claim.status.devices == list;
    }

    /** Records the devices that were bound for a claim. */
    method RecordBound(claim: ResourceClaim, devices: seq<PreparedDevice>, refused: bool, answers: seq<Answer>,
                       ghost before: View, ghost from: nat, ghost next: nat) returns (r: PrepareResult)
      requires Settled(claim) && |answers| == BACKOFF_STEPS
      requires Binding(manager, before, Now(), claim, devices, from, next)
      modifies manager.host, manager.cdi, manager.infos, podManager`pods, podManager.store, api
      ensures PreparesNew(manager, before, Now(), claim, from, next, r)
      ensures if refused then !r.Ready? else !r.NotRecorded?
      ensures r.Ready? ==> StatusSent(before, Now(), claim, claim.status.devices, answers)
      ensures unchanged(claim.status)
    {
      ghost var bound := Now();
      r := Record(claim, devices, refused, answers);
      RecordingPrepares(manager, before, bound, Now(), claim, devices, from, next, refused, r);
    }

    /** The devices of a claim are bound and published, but not recorded yet. */
    method BindNew(ifNameIndex: nat, claim: ResourceClaim)
      returns (prepared: Result<seq<PreparedDevice>, PrepareError>, ifNameIndex': nat)
      requires Settled(claim)
      modifies manager.host, manager.cdi, manager.infos, claim.status
      ensures prepared.Ok? ==> Binding(manager, old(Now()), Now(), claim, prepared.value, ifNameIndex, ifNameIndex')
      ensures prepared.Ok? ==>
        claim.status.devices == old(claim.status.devices) + manager.StatusEntries(manager.ConfigsFor(claim),
            claim.allocation.value.results)
      ensures prepared.Err? ==>
        PreparesNew(manager, old(Now()), Now(), claim, ifNameIndex, ifNameIndex', NotPrepared(prepared.error))
      ensures ifNameIndex <= ifNameIndex'
    {
      prepared, ifNameIndex' := manager.PrepareDevicesForClaim(ifNameIndex, claim);
      DeepUnchanged(podManager.pods);
    }

    /** Unprepares the devices that pod `p` holds for the claim; then the record is
        deleted. */
    method UnprepareRecorded(claimUID: string, devices: seq<PreparedDevice>, ghost p: string) returns (ok: bool)
      requires Entry(podManager.pods, p, claimUID) && devices == podManager.pods[p][claimUID]
      modifies manager.host, manager.cdi, manager.infos, podManager`pods, podManager.store
      ensures Shrunk(old(podManager.pods), podManager.pods)
      ensures podManager.store.checkpoint == old(podManager.store.checkpoint) ||
        podManager.store.checkpoint == Some(Deep(podManager.pods))
      ensures Holder(old(podManager.pods), p, claimUID) ==> Removed(manager, old(Now()), Now(), p, claimUID, ok)
    {
      ghost var before := Now();
      ok := TearDown(claimUID, devices);
      ghost var torn, done := Now(), ok;
      if ok {
        var refused := manager.Refusal();
        DeepUnchanged(podManager.pods);
        ok := Forget(claimUID, refused, p);
      }
      if Holder(before.pods, p, claimUID) { RemovedFrom(manager, before, torn, Now(), p, claimUID, done, ok); }
    }

    /** Deletes the record of a claim, with its pod. */
    method Forget(claimUID: string, refused: bool, ghost p: string) returns (ok: bool)
      requires Entry(podManager.pods, p, claimUID)
      modifies podManager`pods, podManager.store
      ensures ok == !refused
      ensures Shrunk(old(podManager.pods), podManager.pods)
      ensures podManager.store.checkpoint == if ok then Some(Deep(podManager.pods))
                                             else old(podManager.store.checkpoint)
      ensures Holder(old(podManager.pods), p, claimUID) ==> Now() == old(Now()).(
        pods := old(Now()).pods - {p}, memory := old(Now()).memory - {p},
        checkpoint := if ok then Some(old(Now()).memory - {p}) else old(Now()).checkpoint)
    {
      ghost var before, q := Now(), "";
      ok, q := DeleteHolder(claimUID, refused, p);
      if Holder(before.pods, p, claimUID) { assert q == p; }
    }

    /** Deletes the pod of some record of the claim. */
    method DeleteHolder(claimUID: string, refused: bool, ghost p: string) returns (ok: bool, ghost q: string)
      requires Entry(podManager.pods, p, claimUID)
      modifies podManager`pods, podManager.store
      ensures ok == !refused && Entry(old(podManager.pods), q, claimUID)
      ensures podManager.pods == old(podManager.pods) - {q} && Deep(podManager.pods) == old(Deep(podManager.pods)) - {q}
      ensures podManager.store.checkpoint == if ok then Some(Deep(podManager.pods))
                                             else old(podManager.store.checkpoint)
    {
      ghost var pods := podManager.pods;
      ok := podManager.DeleteClaim(claimUID, refused);
      assert Tracked(pods, claimUID);
      q :| q in pods && claimUID in pods[q] && podManager.pods == pods - {q};
      assert Entry(pods, q, claimUID);
      DeepUnchanged(pods);
      DeepWithout(pods, q);
    }

    /** Unprepares one claim. One that is not recorded is skipped. */
    method UnprepareResourceClaim(claimUID: string) returns (ok: bool)
      modifies manager.host, manager.cdi, manager.infos, podManager`pods, podManager.store
      ensures Unprepares(manager, old(Now()), Now(), claimUID, ok)
    {
      ghost var pods := podManager.pods;
      var preparedDevices, found := podManager.GetByClaim(claimUID);
      DeepUnchanged(pods);
      assert Now() == old(Now());
      if !found {
        return true;
      }
      ghost var p :| p in pods && claimUID in pods[p] && preparedDevices == pods[p][claimUID];
      assert Entry(pods, p, claimUID);
      ok := UnprepareRecorded(claimUID, preparedDevices, p);
    }

    /** Unprepares the claims one by one and answers for each. */
    method UnprepareResourceClaims(claimUIDs: seq<string>)
      returns (results: map<string, bool>, ghost states: seq<View>, ghost replies: seq<bool>)
      modifies manager.host, manager.cdi, manager.infos, podManager`pods, podManager.store
      ensures UnprepareChain(manager, claimUIDs, states, replies) && states[0] == old(Now())
      ensures states[|claimUIDs|] == Now()
      ensures results == AnswersOf(claimUIDs, replies)
    {
      results, states, replies := map[], [Now()], [];
      for i := 0 to |claimUIDs|
        invariant UnprepareChain(manager, claimUIDs[..i], states, replies) && states[0] == old(Now())
        invariant states[i] == Now()
        invariant results == AnswersOf(claimUIDs[..i], replies)
      {
        var ok := UnprepareResourceClaim(claimUIDs[i]);
        UnpreparesUpTo(manager, claimUIDs, i, states, replies, Now(), ok);
        AnswersNext(claimUIDs[..i], replies, claimUIDs[i], ok);
        assert claimUIDs[..i + 1] == claimUIDs[..i] + [claimUIDs[i]];
        results := results[claimUIDs[i] := ok];
        states, replies := states + [Now()], replies + [ok];
      }
      assert claimUIDs[..|claimUIDs|] == claimUIDs;
    }

    /** Unprepares the claims of a batch, going on after a failure. */
    method RollbackPreparedClaims(claims: seq<ResourceClaim>)
      returns (ok: bool, ghost states: seq<View>, ghost replies: seq<bool>)
      modifies manager.host, manager.cdi, manager.infos, podManager`pods, podManager.store
      ensures UnprepareChain(manager, UIDs(claims), states, replies) && states[0] == old(Now())
      ensures states[|claims|] == Now()
      ensures ok <==> AllTrue(replies)
    {
      ok, states, replies := true, [Now()], [];
      for i := 0 to |claims|
        invariant UnprepareChain(manager, UIDs(claims)[..i], states, replies) && states[0] == old(Now())
        invariant states[i] == Now()
        invariant ok <==> AllTrue(replies)
      {
        var unprepared := UnprepareResourceClaim(claims[i].uid);
        UnpreparesUpTo(manager, UIDs(claims), i, states, replies, Now(), unprepared);
        AllTrueNext(replies, unprepared);
        states, replies := states + [Now()], replies + [unprepared];
        if !unprepared {
          ok := false;
        }
      }
      assert UIDs(claims)[..|claims|] == UIDs(claims);
    }

    /** The API server's answers to a status update. */
    method StatusAnswers() returns (answers: seq<Answer>)
      ensures |answers| == BACKOFF_STEPS && (manager.reliable ==> Accepted in answers)
    {
      assert |[Accepted, Accepted, Accepted, Accepted, Accepted]| == BACKOFF_STEPS;
      answers :|
        |answers| == BACKOFF_STEPS &&
          (manager.reliable ==> answers == [Accepted, Accepted, Accepted, Accepted, Accepted]);
    }

    /** Prepares the claims one by one; the interface index is shared. */
    method PrepareAll(claims: seq<ResourceClaim>)
      returns (results: map<string, PrepareResult>, ghost states: seq<View>, ghost starts: seq<nat>,
               ghost replies: seq<PrepareResult>,
               ghost lists: seq<seq<DeviceStatus>>, ghost answers: seq<seq<Answer>>)
      modifies manager.host, manager.cdi, manager.infos, podManager`pods, podManager.store, api
      modifies set i | 0 <= i < |claims| :: claims[i].status
      ensures PrepareChain(manager, claims, states, starts, replies) && states[0] == old(Now())
      ensures states[|claims|] == Now() && starts[0] == 0
      ensures StatusChain(manager, claims, states, replies, lists, answers)
      ensures results == AnswersOf(UIDs(claims), replies)
      ensures manager.reliable ==> NoneUnrecorded(replies)
    {
      results, states, starts, replies := map[], [Now()], [0], [];
      lists, answers := [], [];
      ghost var first := Now();
      var ifNameIndex := 0;
      for i := 0 to |claims|
        invariant Underway(manager, first, Now(), claims, i, states, starts, replies, lists, answers, results,
                           ifNameIndex)
        invariant manager.reliable ==> NoneUnrecorded(replies)
      {
        var r;
        ghost var list, answer;
        r, ifNameIndex, list, answer := PrepareNext(claims, i, ifNameIndex, results, first, states, starts, replies,
                                                    lists, answers);
        results := results[claims[i].uid := r];
        states, starts, replies := states + [Now()], starts + [ifNameIndex], replies + [r];
        lists, answers := lists + [list], answers + [answer];
      }
      assert claims[..|claims|] == claims && UIDs(claims)[..|claims|] == UIDs(claims);
    }

    method PrepareNext(claims: seq<ResourceClaim>, i: nat, ifNameIndex: nat, results: map<string, PrepareResult>,
                       ghost first: View, ghost states: seq<View>, ghost starts: seq<nat>,
                       ghost replies: seq<PrepareResult>, ghost lists: seq<seq<DeviceStatus>>,
                       ghost answers: seq<seq<Answer>>)
      returns (r: PrepareResult, ifNameIndex': nat, ghost list: seq<DeviceStatus>, ghost answer: seq<Answer>)
      requires i < |claims|
      requires Underway(manager, first, Now(), claims, i, states, starts, replies, lists, answers, results, ifNameIndex)
      modifies manager.host, manager.cdi, manager.infos, claims[i].status, podManager`pods, podManager.store, api
      ensures Underway(manager, first, Now(), claims, i + 1, states + [Now()], starts + [ifNameIndex'], replies + [r],
                       lists + [list], answers + [answer], results[claims[i].uid := r], ifNameIndex')
      ensures manager.reliable ==> !r.NotRecorded?
    {
      ghost var before := Now();
      r, ifNameIndex', list, answer := PrepareAnswered(ifNameIndex, claims[i]);
      UnderwayNext(manager, first, before, Now(), claims, i, states, starts, replies, lists, answers, results,
                   ifNameIndex, ifNameIndex', r, list, answer);
    }

    /** Prepares one claim, in the environment as it is. */
    method PrepareAnswered(ifNameIndex: nat, claim: ResourceClaim)
      returns (r: PrepareResult, ifNameIndex': nat, ghost list: seq<DeviceStatus>, ghost answer: seq<Answer>)
      modifies manager.host, manager.cdi, manager.infos, claim.status, podManager`pods, podManager.store, api
      ensures Prepares(manager, old(Now()), Now(), claim, ifNameIndex, ifNameIndex', r)
      ensures StatusStep(manager, old(Now()), Now(), claim, r, list, answer)
      ensures manager.reliable ==> !r.NotRecorded?
    {
      var refused := manager.Refusal();
      var answers := StatusAnswers();
      DeepUnchanged(podManager.pods);
      r, ifNameIndex' := PrepareResourceClaim(ifNameIndex, claim, refused, answers);
      list, answer := claim.status.devices, answers;
    }

    /** Writes the spec of the pod; undoes the whole batch if that fails. */
    method PublishPod(claims: seq<ResourceClaim>)
      returns (error: Option<BatchError>, ghost order: seq<string>, ghost undone: seq<View>, ghost oks: seq<bool>)
      modifies manager.host, manager.cdi, manager.infos, podManager`pods, podManager.store
      ensures Concludes(manager, old(Now()), Now(), claims, error, order, undone, oks)
    {
      order, undone, oks := [], [], [];
      ghost var pods := podManager.pods;
      var podUID := FindPod(claims);
      var preparedDevices, found;
      preparedDevices, found, order := podManager.GetDevicesByPodUID(podUID);
      DeepUnchanged(pods);
      if podUID == "" {
        error := Some(NoPodInfo);
      } else if !found {
        error := Some(NoPreparedDevices(podUID));
      } else {
        var pciAddresses, missing := ListAddresses(preparedDevices);
        if missing.Some? {
          MissingIsLacking(manager.table.allocatable, pods, podUID, order, missing.value);
        } else {
          NothingLacks(manager.table.allocatable, pods, podUID, order);
        }
        DeepUnchanged(pods);
        ghost var prepared := Now();
        error, undone, oks := WritePodSpec(claims, podUID, pciAddresses, missing);
        Concluded(manager, prepared, Now(), claims, pciAddresses, missing, error, order, undone, oks);
      }
    }

    /** The addresses of the devices, up to one that the table no longer has. */
    method ListAddresses(devices: seq<PreparedDevice>) returns (pciAddresses: seq<string>, missing: Option<string>)
      ensures missing.None? ==> pciAddresses == AddressesOf(manager.table.allocatable, devices)
      ensures missing.None? && Discovery.FiledByAddress(manager.table.allocatable) ==>
        AddressedByName(pciAddresses, devices)
      ensures missing.None? <==> forall i :: 0 <= i < |devices| ==> devices[i].info.device in manager.table.allocatable
      ensures missing.Some? ==>
        missing.value !in manager.table.allocatable && exists i ::
          0 <= i < |devices| && devices[i].info.device == missing.value
    {
      pciAddresses := [];
      for i := 0 to |devices|
        invariant pciAddresses == AddressesOf(manager.table.allocatable, devices[..i])
        invariant forall j :: 0 <= j < i ==> devices[j].info.device in manager.table.allocatable
      {
        assert devices[..i + 1][..i] == devices[..i];
        var name := devices[i].info.device;
        if name !in manager.table.allocatable {
          return [], Some(name);
        }
        pciAddresses := pciAddresses + [PciOf(manager.table.allocatable[name])];
      }
      assert devices[..|devices|] == devices;
      if Discovery.FiledByAddress(manager.table.allocatable) { AddressesMean(manager.table.allocatable, devices); }
      missing := None;
    }

    /** Writes the pod's spec, or rolls the batch back. */
    method WritePodSpec(claims: seq<ResourceClaim>, podUID: string, pciAddresses: seq<string>, missing: Option<string>)
      returns (error: Option<BatchError>, ghost undone: seq<View>, ghost oks: seq<bool>)
      modifies manager.host, manager.cdi, manager.infos, podManager`pods, podManager.store
      ensures PodSpecStep(manager, old(Now()), Now(), claims, podUID, pciAddresses, missing, error, undone, oks)
    {
      undone, oks := [], [];
      var cleaned;
      if missing.Some? {
        cleaned, undone, oks := RollbackPreparedClaims(claims);
        return Some(DeviceGone(missing.value, cleaned)), undone, oks;
      }
      var refused := manager.Refusal();
      var written := manager.cdi.WriteSpec(PodSpec(podUID), pciAddresses, refused);
      DeepUnchanged(podManager.pods);
      if !written {
        cleaned, undone, oks := RollbackPreparedClaims(claims);
        return Some(PodSpecFailed(cleaned)), undone, oks;
      }
      error := None;
    }

    method FindPod(claims: seq<ResourceClaim>) returns (podUID: string)
      ensures podUID == PodOf(claims)
    {
      podUID := "";
      for i := 0 to |claims|
        invariant podUID == "" && PodOf(claims) == PodOf(claims[i..])
      {
        if claims[i].reservedFor != [] {
          podUID := claims[i].reservedFor[0];
          break;
        }
      }
    }

    /** Prepares a batch of claims and writes the spec of its pod. */
    method PrepareResourceClaims(claims: seq<ResourceClaim>)
      returns (results: map<string, PrepareResult>, error: Option<BatchError>, ghost h: History)
      modifies manager.host, manager.cdi, manager.infos, podManager`pods, podManager.store, api
      modifies set i | 0 <= i < |claims| :: claims[i].status
      ensures Batch(manager, old(Now()), Now(), claims, results, error, h)
      ensures error.None? && Discovery.FiledByAddress(manager.table.allocatable) ==>
        forall i :: FirstWithPod(claims, i) ==> PodSpecByName(Now(), claims[i].reservedFor[0])
      ensures manager.reliable && claims != [] ==> NoneUnrecorded(h.replies)
    {
      h := History([], [], [], [], [], [], [], []);
      if |claims| == 0 {
        DeepUnchanged(podManager.pods);
        return map[], None, h;
      }
      ghost var states, starts, replies, lists, answers, order, undone, oks;
      results, states, starts, replies, lists, answers := PrepareAll(claims);
      error, order, undone, oks := PublishPod(claims);
      h := History(states, starts, replies, lists, answers, order, undone, oks);
      PodOfMeans(claims);
      if error.None? && Discovery.FiledByAddress(manager.table.allocatable) {
        PublishedByName(manager, states[|claims|], Now(), PodOf(claims), order);
      }
    }
  }

  ghost predicate NoneUnrecorded(replies: seq<PrepareResult>)
  {
    forall i :: 0 <= i < |replies| ==> !replies[i].NotRecorded?
  }

  lemma RemovedFrom(manager: ClaimManager, before: View, torn: View, now: View, p: string, c: string, done: bool,
                    ok: bool)
    requires Entry(before.pods, p, c) && TornDown(manager, before, torn, c, before.pods[p][c], done)
    requires torn == before.(slots := torn.slots, specs := torn.specs, entries := torn.entries)
    requires if done
      then now == torn.(pods := before.pods - {p}, memory := before.memory - {p},
                        checkpoint := if ok then Some(before.memory - {p}) else before.checkpoint)
      else now == torn && !ok
    requires manager.reliable && done ==> ok
    ensures Removed(manager, before, now, p, c, ok)
  {
  }

  lemma {:induction false} AllFlattened(claims: Claims, order: seq<string>, c: string, j: nat)
    requires (forall e :: e in order ==> e in claims) && c in order && j < |claims[c]|
    ensures claims[c][j] in Flattened(claims, order)
  {
    var rest, last := order[..|order| - 1], order[|order| - 1];
    if c == last {
      assert Flattened(claims, order)[|Flattened(claims, rest)| + j] == claims[c][j];
    } else {
      assert c in rest;
      AllFlattened(claims, rest, c, j);
    }
  }

  lemma NothingLacks(table: Devices, pods: Pods, podUID: string, order: seq<string>)
    requires podUID in pods && (forall c :: c in order <==> c in pods[podUID])
    requires forall i :: 0 <= i < |Flattened(pods[podUID], order)| ==>
      Flattened(pods[podUID], order)[i].info.device in table
    ensures forall device :: !Lacks(table, pods, podUID, device)
  {
    forall c, i | Entry(pods, podUID, c) && 0 <= i < |pods[podUID][c]| ensures pods[podUID][c][i].info.device in table {
      AllFlattened(pods[podUID], order, c, i);
    }
  }

  /** What writing the pod's spec comes to. */
  ghost predicate PodSpecStep(manager: ClaimManager, before: View, now: View, claims: seq<ResourceClaim>,
                              podUID: string, pciAddresses: seq<string>, missing: Option<string>,
                              error: Option<BatchError>, undone: seq<View>, oks: seq<bool>)
  {
    match error
    case None => missing.None? && now == before.(specs := before.specs[PodSpec(podUID) := pciAddresses])
    case Some(DeviceGone(name, cleaned)) =>
      missing == Some(name) && Undoes(manager, before, now, UIDs(claims), cleaned, undone, oks)
    case Some(PodSpecFailed(cleaned)) =>
      missing.None? && !manager.reliable && Undoes(manager, before, now, UIDs(claims), cleaned, undone, oks)
    case _ => false
  }

  lemma Concluded(manager: ClaimManager, prepared: View, now: View, claims: seq<ResourceClaim>,
                  pciAddresses: seq<string>, missing: Option<string>, error: Option<BatchError>, order: seq<string>,
                  undone: seq<View>, oks: seq<bool>)
    requires PodOf(claims) != "" && IsOrder(prepared.pods, PodOf(claims), order)
    requires PodSpecStep(manager, prepared, now, claims, PodOf(claims), pciAddresses, missing, error, undone, oks)
    requires missing.None? ==>
      pciAddresses == AddressesOf(manager.table.allocatable, Flattened(prepared.pods[PodOf(claims)], order))
    requires missing.Some? ==> Lacks(manager.table.allocatable, prepared.pods, PodOf(claims), missing.value)
    requires missing.None? ==> forall device :: !Lacks(manager.table.allocatable, prepared.pods, PodOf(claims), device)
    ensures Concludes(manager, prepared, now, claims, error, order, undone, oks)
  {
  }

  lemma MissingIsLacking(table: Devices, pods: Pods, podUID: string, order: seq<string>, name: string)
    requires podUID in pods && (forall c :: c in order ==> c in pods[podUID]) && name !in table
    requires exists i ::
      0 <= i < |Flattened(pods[podUID], order)| && Flattened(pods[podUID], order)[i].info.device == name
    ensures Lacks(table, pods, podUID, name)
  {
    var i :| 0 <= i < |Flattened(pods[podUID], order)| && Flattened(pods[podUID], order)[i].info.device == name;
    FlattenedHas(pods[podUID], order, i);
    var c, j :|
      c in pods[podUID] && 0 <= j < |pods[podUID][c]| && pods[podUID][c][j] == Flattened(pods[podUID], order)[i];
    assert Entry(pods, podUID, c);
  }

  /** Where the first `n` claims of a batch have led. */
  ghost predicate Underway(manager: ClaimManager, first: View, now: View, claims: seq<ResourceClaim>, n: nat,
                           states: seq<View>, starts: seq<nat>, replies: seq<PrepareResult>,
                           lists: seq<seq<DeviceStatus>>, answers: seq<seq<Answer>>,
                           results: map<string, PrepareResult>, ifNameIndex: nat)
    requires n <= |claims|
    reads manager.table
  {
    && PrepareChain(manager, claims[..n], states, starts, replies)
    && StatusChain(manager, claims[..n], states, replies, lists, answers)
    && states[0] == first && states[n] == now && starts[0] == 0 && starts[n] == ifNameIndex
    && results == AnswersOf(UIDs(claims)[..n], replies)
  }

  lemma UnderwayNext(manager: ClaimManager, first: View, before: View, now: View, claims: seq<ResourceClaim>, n: nat,
                     states: seq<View>, starts: seq<nat>, replies: seq<PrepareResult>, lists: seq<seq<DeviceStatus>>,
                     answers: seq<seq<Answer>>, results: map<string, PrepareResult>, from: nat, next: nat,
                     r: PrepareResult, list: seq<DeviceStatus>, answer: seq<Answer>)
    requires n < |claims|
    requires Underway(manager, first, before, claims, n, states, starts, replies, lists, answers, results, from)
    requires Prepares(manager, before, now, claims[n], from, next, r)
    requires StatusStep(manager, before, now, claims[n], r, list, answer)
    ensures Underway(manager, first, now, claims, n + 1, states + [now], starts + [next], replies + [r],
                     lists + [list], answers + [answer], results[claims[n].uid := r], next)
  {
    PreparesUpTo(manager, claims, n, states, starts, replies, now, next, r);
    StatusUpTo(manager, claims, n, states, replies, lists, answers, now, r, list, answer);
    AnswersUpTo(claims, n, replies, r);
  }

  lemma StatusUpTo(manager: ClaimManager, claims: seq<ResourceClaim>, n: nat, states: seq<View>,
                   replies: seq<PrepareResult>, lists: seq<seq<DeviceStatus>>, answers: seq<seq<Answer>>, now: View,
                   r: PrepareResult, list: seq<DeviceStatus>, answer: seq<Answer>)
    requires n < |claims| && StatusChain(manager, claims[..n], states, replies, lists, answers)
    requires StatusStep(manager, states[n], now, claims[n], r, list, answer)
    ensures StatusChain(manager, claims[..n + 1], states + [now], replies + [r], lists + [list], answers + [answer])
  {
    StatusChainNext(manager, claims[..n], states, replies, lists, answers, claims[n], now, r, list, answer);
    assert claims[..n + 1] == claims[..n] + [claims[n]];
  }

  lemma AnswersUpTo(claims: seq<ResourceClaim>, n: nat, replies: seq<PrepareResult>, r: PrepareResult)
    requires n < |claims| && |replies| == n
    ensures AnswersOf(UIDs(claims)[..n + 1], replies + [r]) == AnswersOf(UIDs(claims)[..n], replies)[claims[n].uid := r]
  {
    AnswersNext(UIDs(claims)[..n], replies, claims[n].uid, r);
    assert UIDs(claims)[..n + 1] == UIDs(claims)[..n] + [claims[n].uid];
  }

  lemma UnpreparesUpTo(manager: ClaimManager, claimUIDs: seq<string>, n: nat, states: seq<View>, replies: seq<bool>,
                       now: View, ok: bool)
    requires n < |claimUIDs| && UnprepareChain(manager, claimUIDs[..n], states, replies)
    requires Unprepares(manager, states[n], now, claimUIDs[n], ok)
    ensures UnprepareChain(manager, claimUIDs[..n + 1], states + [now], replies + [ok])
  {
    UnprepareChainNext(manager, claimUIDs[..n], states, replies, claimUIDs[n], now, ok);
    assert claimUIDs[..n + 1] == claimUIDs[..n] + [claimUIDs[n]];
  }

  lemma AllTrueNext(replies: seq<bool>, ok: bool)
    ensures AllTrue(replies + [ok]) <==> AllTrue(replies) && ok
  {
    var all := replies + [ok];
    assert all[|replies|] == ok && forall i :: 0 <= i < |replies| ==> all[i] == replies[i];
  }

  lemma {:induction false} FlattenedHas(claims: Claims, order: seq<string>, i: nat)
    requires (forall c :: c in order ==> c in claims) && i < |Flattened(claims, order)|
    ensures exists c, j :: c in claims && 0 <= j < |claims[c]| && claims[c][j] == Flattened(claims, order)[i]
  {
    if order != [] {
      var rest, last := order[..|order| - 1], order[|order| - 1];
      if i < |Flattened(claims, rest)| {
        FlattenedHas(claims, rest, i);
      } else {
        var j := i - |Flattened(claims, rest)|;
        assert last in order && claims[last][j] == Flattened(claims, order)[i];
      }
    }
  }
}
