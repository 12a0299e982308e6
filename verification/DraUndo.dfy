/** What a claim's prepare has done to its devices is undone over whole runs, from
    the call that records it to the call that removes its record, whatever lies in
    between. */
module DraUndo {
  import opened Options
  import opened Host
  import opened PodManager
  import opened PodRuns
  import opened Resources
  import opened ClaimTransaction
  import opened ClaimRoundTrip
  import opened DraState
  import opened DraHook
  import opened DraBatches
  import opened DraRuns

  // ---- One step -----------------------------------------------------------------

  /** The claim is recorded, and its devices are held since `first`. */
  ghost predicate HeldIn(traits: string -> Traits, first: Slots, v: View, p: string, c: string)
  {
    Entry(v.pods, p, c) && AllHeld(first, v.slots, traits, v.pods[p][c])
  }

  /** As long as the claim is recorded, its devices are held; from then on they are
      put back, and in no other record. */
  ghost predicate HeldOrBack(traits: string -> Traits, first: Slots, v: View, p: string, c: string,
                             devices: seq<PreparedDevice>)
  {
    if Entry(v.pods, p, c) then v.pods[p][c] == devices && AllHeld(first, v.slots, traits, devices)
    else AllPutBack(first, v.slots, traits, devices) && forall q, e :: Entry(v.pods, q, e) ==>
      Apart(v.pods[q][e], devices)
  }

  ghost predicate SlotsStay(before: Slots, now: Slots, devices: seq<PreparedDevice>)
  {
    forall i :: 0 <= i < |devices| ==>
      SlotAt(now, devices[i].info.pciAddress) == SlotAt(before, devices[i].info.pciAddress)
  }

  lemma HeldAfterStay(traits: string -> Traits, first: Slots, before: Slots, now: Slots, devices: seq<PreparedDevice>)
    requires SlotsStay(before, now, devices)
    ensures AllHeld(first, before, traits, devices) ==> AllHeld(first, now, traits, devices)
    ensures AllPutBack(first, before, traits, devices) ==> AllPutBack(first, now, traits, devices)
  {
  }

  lemma HeldFromStay(traits: string -> Traits, first: Slots, before: Slots, now: Slots, devices: seq<PreparedDevice>)
    requires SlotsStay(first, before, devices) && AllHeld(before, now, traits, devices)
    ensures AllHeld(first, now, traits, devices)
  {
    forall i | 0 <= i < |devices| ensures HeldDevice(first, now, traits, devices[i].info) {
      assert HeldDevice(before, now, traits, devices[i].info);
    }
  }

  /** Preparing a claim touches no device that it does not ask for. */
  lemma PreparesElsewhere(manager: ClaimManager, before: View, now: View, claim: ResourceClaim, from: nat, next: nat,
                          r: PrepareResult, pci: string)
    requires Prepares(manager, before, now, claim, from, next, r)
    requires Settled(claim) ==> !AsksFor(manager.table.allocatable, claim, pci)
    ensures SlotAt(now.slots, pci) == SlotAt(before.slots, pci)
  {
    if Settled(claim) && !Entry(before.pods, claim.reservedFor[0], claim.uid) {
      forall i | 0 <= i < |manager.WantsFor(claim)| ensures manager.WantsFor(claim)[i].pciAddress != pci {
        WantsAsked(manager, claim, i);
      }
    }
  }

  /** So it leaves alone what other claims hold. */
  lemma PrepareHolds(manager: ClaimManager, before: View, now: View, claim: ResourceClaim, from: nat, next: nat,
                     r: PrepareResult, first: Slots, p: string, c: string)
    requires Prepares(manager, before, now, claim, from, next, r)
    requires Schedulable(manager.table.allocatable, before.pods, claim)
    requires HeldIn(manager.host.traits, first, before, p, c)
    ensures HeldIn(manager.host.traits, first, now, p, c) && now.pods[p][c] == before.pods[p][c]
  {
    EntryStays(manager, before, now, claim, from, next, r, p, c);
    if now.slots != before.slots { PreparesStay(manager, before, now, claim, from, next, r, p, c); }
    HeldAfterStay(manager.host.traits, first, before.slots, now.slots, before.pods[p][c]);
  }

  lemma EntryStays(manager: ClaimManager, before: View, now: View, claim: ResourceClaim, from: nat, next: nat,
                   r: PrepareResult, p: string, c: string)
    requires Prepares(manager, before, now, claim, from, next, r) && Entry(before.pods, p, c)
    ensures Entry(now.pods, p, c) && now.pods[p][c] == before.pods[p][c]
  {
    PreparesGrows(manager, before, now, claim, from, next, r);
    if now.pods != before.pods {
      StoredEntries(before.pods, claim.reservedFor[0], claim.uid, now.pods[claim.reservedFor[0]][claim.uid]);
    }
  }

  lemma PreparesStay(manager: ClaimManager, before: View, now: View, claim: ResourceClaim, from: nat, next: nat,
                     r: PrepareResult, p: string, c: string)
    requires Prepares(manager, before, now, claim, from, next, r)
    requires Schedulable(manager.table.allocatable, before.pods, claim)
    requires Entry(before.pods, p, c) && now.slots != before.slots
    ensures SlotsStay(before.slots, now.slots, before.pods[p][c])
  {
    assert Settled(claim) && claim.uid != c;
    assert Spared(manager.table.allocatable, claim, before.pods[p][c]);
    forall i | 0 <= i < |before.pods[p][c]|
      ensures var pci := before.pods[p][c][i].info.pciAddress; SlotAt(now.slots, pci) == SlotAt(before.slots, pci)
    {
      PreparesElsewhere(manager, before, now, claim, from, next, r, before.pods[p][c][i].info.pciAddress);
    }
  }

  /** A claim that becomes recorded is held since this very step, whether its record
      reached the checkpoint or not. */
  lemma NewIsHeld(manager: ClaimManager, before: View, now: View, claim: ResourceClaim, from: nat, next: nat,
                  r: PrepareResult)
    requires Prepares(manager, before, now, claim, from, next, r)
    requires Schedulable(manager.table.allocatable, before.pods, claim)
    requires Settled(claim) && !Entry(before.pods, claim.reservedFor[0], claim.uid)
    requires Entry(now.pods, claim.reservedFor[0], claim.uid)
    ensures HeldIn(manager.host.traits, before.slots, now, claim.reservedFor[0], claim.uid)
  {
    var devices := now.pods[claim.reservedFor[0]][claim.uid];
    if r.Ready? {
      DistinctFor(manager, claim, devices);
      HeldWhenBound(before.slots, now.slots, manager.host.traits, devices);
    }
  }

  lemma UnprepareHoldsOther(manager: ClaimManager, before: View, now: View, e: string, ok: bool, q: string,
                            first: Slots, p: string, c: string, devices: seq<PreparedDevice>)
    requires Entry(before.pods, q, e) && Removed(manager, before, now, q, e, ok) && Apart(before.pods[q][e], devices)
    requires HeldOrBack(manager.host.traits, first, before, p, c, devices)
    requires Entry(before.pods, p, c) ==> p != q
    ensures HeldOrBack(manager.host.traits, first, now, p, c, devices)
  {
    HeldAfterStay(manager.host.traits, first, before.slots, now.slots, devices);
    assert forall d, f :: Entry(now.pods, d, f) ==> Entry(before.pods, d, f);
  }

  lemma UnprepareHoldsOwn(manager: ClaimManager, before: View, now: View, p: string, c: string, ok: bool, first: Slots)
    requires HeldIn(manager.host.traits, first, before, p, c) && Removed(manager, before, now, p, c, ok)
    requires Separate(before.pods)
    ensures HeldOrBack(manager.host.traits, first, now, p, c, before.pods[p][c])
  {
    var devices := before.pods[p][c];
    if p in now.pods {
      HeldStays(first, before.slots, now.slots, manager.host.traits, devices);
    } else {
      HeldThenRestored(first, before.slots, now.slots, manager.host.traits, devices);
      forall q, e | Entry(now.pods, q, e) ensures Apart(now.pods[q][e], devices) {
        assert Entry(before.pods, q, e) && (q, e) != (p, c);
      }
    }
  }

  /** Unpreparing a claim that shares its pod with no other: its own devices stay held
      if it fails, and are put back if it succeeds; those of others are not touched. */
  lemma UnprepareHolds(manager: ClaimManager, before: View, now: View, e: string, ok: bool,
                       first: Slots, p: string, c: string, devices: seq<PreparedDevice>)
    requires Unprepares(manager, before, now, e, ok) && Separate(before.pods) && Unshared(before.pods, e)
    requires HeldOrBack(manager.host.traits, first, before, p, c, devices)
    ensures HeldOrBack(manager.host.traits, first, now, p, c, devices)
  {
    if Tracked(before.pods, e) {
      var q := HasHolder(before.pods, e);
      assert Removed(manager, before, now, q, e, ok);
      if Entry(before.pods, p, c) && (q, e) == (p, c) {
        UnprepareHoldsOwn(manager, before, now, p, c, ok, first);
      } else {
        assert OnlyClaim(before.pods, q, e);
        UnprepareHoldsOther(manager, before, now, e, ok, q, first, p, c, devices);
      }
    }
  }

  // ---- Chains of steps ----------------------------------------------------------------

  lemma {:induction false} PrepareChainHolds(manager: ClaimManager, claims: seq<ResourceClaim>, states: seq<View>,
                                             starts: seq<nat>, replies: seq<PrepareResult>, m: nat, n: nat,
                                             first: Slots, p: string, c: string)
    requires PrepareChain(manager, claims, states, starts, replies) && m <= n <= |claims|
    requires Scheduled(manager.table.allocatable, states[0].pods, claims)
    requires HeldIn(manager.host.traits, first, states[m], p, c)
    ensures HeldIn(manager.host.traits, first, states[n], p, c) && states[n].pods[p][c] == states[m].pods[p][c]
    decreases n
  {
    if m < n {
      PrepareChainHolds(manager, claims, states, starts, replies, m, n - 1, first, p, c);
      PrepareStepHolds(manager, claims, states, starts, replies, n - 1, n, first, p, c);
    }
  }

  lemma PrepareStepHolds(manager: ClaimManager, claims: seq<ResourceClaim>, states: seq<View>, starts: seq<nat>,
                         replies: seq<PrepareResult>, k: nat, k': nat, first: Slots, p: string, c: string)
    requires PrepareChain(manager, claims, states, starts, replies) && k < |claims| && k' == k + 1
    requires Scheduled(manager.table.allocatable, states[0].pods, claims)
    requires HeldIn(manager.host.traits, first, states[k], p, c)
    ensures HeldIn(manager.host.traits, first, states[k'], p, c) && states[k'].pods[p][c] == states[k].pods[p][c]
  {
    ChainStaysScheduled(manager, claims, states, starts, replies, k, k);
    assert PreparesAt(manager, claims, states, starts, replies, k);
    PrepareHolds(manager, states[k], states[k'], claims[k], starts[k], starts[k'], replies[k], first, p, c);
  }

  /** The claims before claim `k` touch no device that it asks for. */
  lemma {:induction false} ChainElsewhere(manager: ClaimManager, claims: seq<ResourceClaim>, states: seq<View>,
                                          starts: seq<nat>, replies: seq<PrepareResult>, n: nat, k: nat, pci: string)
    requires PrepareChain(manager, claims, states, starts, replies) && n <= k < |claims| && Settled(claims[k])
    requires Scheduled(manager.table.allocatable, states[0].pods, claims)
    requires AsksFor(manager.table.allocatable, claims[k], pci)
    ensures SlotAt(states[n].slots, pci) == SlotAt(states[0].slots, pci)
  {
    if n > 0 {
      ChainElsewhere(manager, claims, states, starts, replies, n - 1, k, pci);
      assert PreparesAt(manager, claims, states, starts, replies, n - 1) &&
        Unrelated(manager.table.allocatable, claims[n - 1], claims[k]);
      PreparesElsewhere(manager, states[n - 1], states[n], claims[n - 1], starts[n - 1], starts[n], replies[n - 1],
                        pci);
    }
  }

  /** A claim that a chain of prepares records is held since the start of the chain. */
  lemma {:induction false} ChainHoldsNew(manager: ClaimManager, claims: seq<ResourceClaim>, states: seq<View>,
                                         starts: seq<nat>, replies: seq<PrepareResult>, n: nat, p: string, c: string)
    requires PrepareChain(manager, claims, states, starts, replies) && n <= |claims|
    requires Scheduled(manager.table.allocatable, states[0].pods, claims)
    requires !Entry(states[0].pods, p, c) && Entry(states[n].pods, p, c)
    ensures HeldIn(manager.host.traits, states[0].slots, states[n], p, c)
    decreases n
  {
    if Entry(states[n - 1].pods, p, c) {
      ChainHoldsNew(manager, claims, states, starts, replies, n - 1, p, c);
      PrepareStepHolds(manager, claims, states, starts, replies, n - 1, n, states[0].slots, p, c);
    } else {
      StepHoldsNew(manager, claims, states, starts, replies, n - 1, p, c);
    }
  }

  lemma StepHoldsNew(manager: ClaimManager, claims: seq<ResourceClaim>, states: seq<View>, starts: seq<nat>,
                     replies: seq<PrepareResult>, k: nat, p: string, c: string)
    requires PrepareChain(manager, claims, states, starts, replies) && k < |claims|
    requires Scheduled(manager.table.allocatable, states[0].pods, claims)
    requires !Entry(states[k].pods, p, c) && Entry(states[k + 1].pods, p, c)
    ensures HeldIn(manager.host.traits, states[0].slots, states[k + 1], p, c)
  {
    var claim := claims[k];
    StepGrows(manager, claims, states, starts, replies, k);
    StoredEntries(states[k].pods, claim.reservedFor[0], claim.uid, states[k + 1].pods[claim.reservedFor[0]][claim.uid]);
    ChainStaysScheduled(manager, claims, states, starts, replies, k, k);
    assert PreparesAt(manager, claims, states, starts, replies, k);
    NewIsHeld(manager, states[k], states[k + 1], claim, starts[k], starts[k + 1], replies[k]);
    var devices := states[k + 1].pods[p][c];
    forall i | 0 <= i < |devices|
      ensures var pci := devices[i].info.pciAddress; SlotAt(states[k].slots, pci) == SlotAt(states[0].slots, pci)
    {
      WantsAsked(manager, claim, i);
      ChainElsewhere(manager, claims, states, starts, replies, k, k, devices[i].info.pciAddress);
    }
    HeldFromStay(manager.host.traits, states[0].slots, states[k].slots, states[k + 1].slots, devices);
  }

  lemma {:induction false} UnprepareChainHolds(manager: ClaimManager, claimUIDs: seq<string>, states: seq<View>,
                                               replies: seq<bool>, n: nat, first: Slots, p: string, c: string,
                                               devices: seq<PreparedDevice>)
    requires UnprepareChain(manager, claimUIDs, states, replies) && n <= |claimUIDs|
    requires Separate(states[0].pods) && AllUnshared(states[0].pods, claimUIDs)
    requires HeldOrBack(manager.host.traits, first, states[0], p, c, devices)
    ensures HeldOrBack(manager.host.traits, first, states[n], p, c, devices)
  {
    if n > 0 {
      UnprepareChainHolds(manager, claimUIDs, states, replies, n - 1, first, p, c, devices);
      UnprepareStepHolds(manager, claimUIDs, states, replies, n - 1, n, first, p, c, devices);
    }
  }

  lemma UnprepareStepHolds(manager: ClaimManager, claimUIDs: seq<string>, states: seq<View>, replies: seq<bool>, k: nat,
                           k': nat, first: Slots, p: string, c: string, devices: seq<PreparedDevice>)
    requires UnprepareChain(manager, claimUIDs, states, replies) && k < |claimUIDs| && k' == k + 1
    requires Separate(states[0].pods) && AllUnshared(states[0].pods, claimUIDs)
    requires HeldOrBack(manager.host.traits, first, states[k], p, c, devices)
    ensures HeldOrBack(manager.host.traits, first, states[k'], p, c, devices)
  {
    ChainUntracks(manager, claimUIDs, states, replies, k);
    ChainShrinks(manager, claimUIDs, states, replies, 0, k);
    ShrunkKeeps(states[0].pods, states[k].pods);
    assert UnpreparesAt(manager, claimUIDs, states, replies, k);
    UnprepareHolds(manager, states[k], states[k'], claimUIDs[k], replies[k], first, p, c, devices);
  }

  // ---- Calls --------------------------------------------------------------------------

  /** The outcome of a batch, once its claims are prepared. */
  lemma BatchEndHolds(manager: ClaimManager, before: View, now: View, claims: seq<ResourceClaim>,
                      results: map<string, PrepareResult>, error: Option<BatchError>, h: History, first: Slots,
                      p: string, c: string)
    requires Batch(manager, before, now, claims, results, error, h) && claims != []
    requires Scheduled(manager.table.allocatable, before.pods, claims) && OnePerPod(before.pods, claims)
    requires Sound(before)
    requires HeldIn(manager.host.traits, first, h.states[|claims|], p, c)
    ensures HeldOrBack(manager.host.traits, first, now, p, c, h.states[|claims|].pods[p][c])
  {
    if RolledBackBatch(error) {
      RolledBackUndoes(manager, h.states[|claims|], now, claims, error, h.order, h.undone, h.oks);
      ChainKeepsSound(manager, claims, h.states, h.starts, h.replies, |claims|);
      ChainStaysOnePerPod(manager, claims, h.states, h.starts, h.replies, |claims|);
      UnprepareChainHolds(manager, UIDs(claims), h.undone, h.oks, |claims|, first, p, c, h.states[|claims|].pods[p][c]);
    }
  }

  /** A call that finds the claim recorded and its devices held leaves them held, or
      removes the record and puts them back. */
  lemma CallHolds(manager: ClaimManager, before: View, now: View, call: Call, reply: Reply, h: History, first: Slots,
                  p: string, c: string)
    requires Answered(manager, before, now, call, reply, h) && Tells(before) && Tells(now)
    requires Orderly(before) && InOrder(manager, before, call) && (call.Crash? ==> InStep(before))
    requires HeldIn(manager.host.traits, first, before, p, c)
    ensures if Entry(now.pods, p, c)
      then SameDevices(before.pods[p][c], now.pods[p][c]) && HeldIn(manager.host.traits, first, now, p, c)
      else AllPutBack(first, now.slots, manager.host.traits, before.pods[p][c])
  {
    match call {
      case Prepare(claims) =>
        if claims != [] {
          PrepareChainHolds(manager, claims, h.states, h.starts, h.replies, 0, |claims|, first, p, c);
          BatchEndHolds(manager, before, now, claims, reply.results, reply.error, h, first, p, c);
        }
      case Unprepare(claimUIDs) =>
        UnprepareChainHolds(manager, claimUIDs, h.undone, h.oks, |claimUIDs|, first, p, c, before.pods[p][c]);
      case Late(device, data, refused) =>
      case Crash =>
        TellsSame(before, now);
        HeldSame(manager.host.traits, first, before, now, p, c);
    }
  }

  lemma HeldSame(traits: string -> Traits, first: Slots, before: View, now: View, p: string, c: string)
    requires SamePods(before.pods, now.pods) && now.slots == before.slots && HeldIn(traits, first, before, p, c)
    ensures HeldIn(traits, first, now, p, c) && SameDevices(before.pods[p][c], now.pods[p][c])
  {
    assert Entry(now.pods, p, c) && SameDevices(before.pods[p][c], now.pods[p][c]);
    forall i | 0 <= i < |now.pods[p][c]| ensures HeldDevice(first, now.slots, traits, now.pods[p][c][i].info) {
      assert HeldDevice(first, before.slots, traits, before.pods[p][c][i].info);
    }
  }

  lemma BatchHoldsNew(manager: ClaimManager, before: View, now: View, claims: seq<ResourceClaim>,
                      results: map<string, PrepareResult>, error: Option<BatchError>, h: History, p: string, c: string)
    requires Batch(manager, before, now, claims, results, error, h)
    requires Scheduled(manager.table.allocatable, before.pods, claims) && OnePerPod(before.pods, claims)
    requires Sound(before)
    requires !Entry(before.pods, p, c) && Entry(now.pods, p, c)
    ensures HeldIn(manager.host.traits, before.slots, now, p, c)
  {
    if RolledBackBatch(error) {
      RolledBackUndoes(manager, h.states[|claims|], now, claims, error, h.order, h.undone, h.oks);
      ChainShrinks(manager, UIDs(claims), h.undone, h.oks, 0, |claims|);
    }
    ChainHoldsNew(manager, claims, h.states, h.starts, h.replies, |claims|, p, c);
    BatchEndHolds(manager, before, now, claims, results, error, h, before.slots, p, c);
  }

  /** A call that records the claim: its devices are held since before the call. */
  lemma CallHoldsNew(manager: ClaimManager, before: View, now: View, call: Call, reply: Reply, h: History, p: string,
                     c: string)
    requires Answered(manager, before, now, call, reply, h) && Tells(before) && Tells(now)
    requires Orderly(before) && InOrder(manager, before, call) && (call.Crash? ==> InStep(before))
    requires !Entry(before.pods, p, c) && Entry(now.pods, p, c)
    ensures HeldIn(manager.host.traits, before.slots, now, p, c)
  {
    match call {
      case Prepare(claims) => BatchHoldsNew(manager, before, now, claims, reply.results, reply.error, h, p, c);
      case Unprepare(claimUIDs) => ChainShrinks(manager, claimUIDs, h.undone, h.oks, 0, |claimUIDs|);
      case Late(device, data, refused) =>
      case Crash => TellsSame(before, now);
    }
  }

  // ---- Runs ---------------------------------------------------------------------------

  ghost function DevicesOfClaim(v: View, p: string, c: string): seq<PreparedDevice>
  {
    if Entry(v.pods, p, c) then v.pods[p][c] else []
  }

  /** Call `i` records the claim, and it stays recorded up to state `k`. */
  ghost predicate RecordedFrom(states: seq<View>, p: string, c: string, i: nat, k: nat)
    requires i < k < |states|
  {
    !Entry(states[i].pods, p, c) && forall m :: i < m <= k ==> Entry(states[m].pods, p, c)
  }

  /** The run starts in order, the scheduler keeps its promises up to call `n`, and
      restarts find the checkpoint up to date. */
  ghost predicate OrderlyUpTo(manager: ClaimManager, states: seq<View>, calls: seq<Call>, n: nat)
    requires n <= |calls| < |states|
    reads manager.table
  {
    forall k :: 0 <= k < n ==> OrderAt(manager, states, calls, k)
  }

  ghost predicate OrderAt(manager: ClaimManager, states: seq<View>, calls: seq<Call>, k: nat)
    requires k < |calls| < |states|
    reads manager.table
  {
    InOrder(manager, states[k], calls[k]) && (calls[k].Crash? ==> InStep(states[k])) && (k == 0 ==> Orderly(states[0]))
  }

  lemma OrderlyAt(manager: ClaimManager, states: seq<View>, calls: seq<Call>, replies: seq<Reply>,
                  histories: seq<History>, k: nat)
    requires IsRun(manager, states, calls, replies, histories) && k < |calls|
    requires OrderlyUpTo(manager, states, calls, k + 1)
    ensures Orderly(states[k]) && OrderAt(manager, states, calls, k)
  {
    forall m | 0 <= m < k ensures InOrder(manager, states[m], calls[m]) && (calls[m].Crash? ==> InStep(states[m])) {
      assert OrderAt(manager, states, calls, m);
    }
    assert OrderAt(manager, states, calls, 0) && OrderAt(manager, states, calls, k);
    RunsAreOrderly(manager, states, calls, replies, histories, k);
  }

  /** One call of a run. */
  lemma RunStepHolds(manager: ClaimManager, states: seq<View>, calls: seq<Call>, replies: seq<Reply>,
                     histories: seq<History>, k: nat, first: Slots, p: string, c: string)
    requires IsRun(manager, states, calls, replies, histories) && k < |calls|
    requires OrderlyUpTo(manager, states, calls, k + 1)
    requires if Entry(states[k].pods, p, c) then HeldIn(manager.host.traits, first, states[k], p, c)
             else states[k].slots == first
    ensures Entry(states[k + 1].pods, p, c) ==> HeldIn(manager.host.traits, first, states[k + 1], p, c)
    ensures Entry(states[k].pods, p, c) ==>
      if Entry(states[k + 1].pods, p, c)
      then SameDevices(DevicesOfClaim(states[k], p, c), DevicesOfClaim(states[k + 1], p, c))
      else AllPutBack(first, states[k + 1].slots, manager.host.traits, DevicesOfClaim(states[k], p, c))
  {
    OrderlyAt(manager, states, calls, replies, histories, k);
    assert AnsweredAt(manager, states, calls, replies, histories, k) && TellsAt(states, k) && TellsAt(states, k + 1);
    if Entry(states[k].pods, p, c) {
      CallHolds(manager, states[k], states[k + 1], calls[k], replies[k], histories[k], first, p, c);
    } else if Entry(states[k + 1].pods, p, c) {
      CallHoldsNew(manager, states[k], states[k + 1], calls[k], replies[k], histories[k], p, c);
    }
  }

  /** The devices that call `i` recorded the claim with are held at state `k`. */
  ghost predicate HeldSince(manager: ClaimManager, states: seq<View>, i: nat, k: nat, p: string, c: string)
    requires i < k < |states|
  {
    && HeldIn(manager.host.traits, states[i].slots, states[k], p, c)
    && SameDevices(DevicesOfClaim(states[i + 1], p, c), DevicesOfClaim(states[k], p, c))
  }

  lemma HeldAtFirst(manager: ClaimManager, states: seq<View>, calls: seq<Call>, replies: seq<Reply>,
                    histories: seq<History>, i: nat, k: nat, n: nat, p: string, c: string)
    requires IsRun(manager, states, calls, replies, histories) && i < n <= |calls|
    requires OrderlyUpTo(manager, states, calls, n)
    requires RecordedFrom(states, p, c, i, n) && k == i + 1
    ensures HeldSince(manager, states, i, k, p, c)
  {
    RunStepHolds(manager, states, calls, replies, histories, i, states[i].slots, p, c);
  }

  lemma HeldAtNext(manager: ClaimManager, states: seq<View>, calls: seq<Call>, replies: seq<Reply>,
                   histories: seq<History>, i: nat, k: nat, k': nat, n: nat, p: string, c: string)
    requires IsRun(manager, states, calls, replies, histories) && i < k < n <= |calls|
    requires OrderlyUpTo(manager, states, calls, n)
    requires RecordedFrom(states, p, c, i, n) && HeldSince(manager, states, i, k, p, c) && k' == k + 1
    ensures HeldSince(manager, states, i, k', p, c)
  {
    RunStepHolds(manager, states, calls, replies, histories, k, states[i].slots, p, c);
    SameTwice(DevicesOfClaim(states[i + 1], p, c), DevicesOfClaim(states[k], p, c), DevicesOfClaim(states[k'], p, c));
  }

  /** As long as the claim that call `i` records stays recorded, its devices are held
      since before that call. */
  lemma {:induction false} HeldOverRuns(manager: ClaimManager, states: seq<View>, calls: seq<Call>, replies: seq<Reply>,
                                        histories: seq<History>, i: nat, k: nat, n: nat, p: string, c: string)
    requires IsRun(manager, states, calls, replies, histories) && i < k <= n <= |calls|
    requires OrderlyUpTo(manager, states, calls, n)
    requires RecordedFrom(states, p, c, i, n)
    ensures forall m :: i < m <= k ==> HeldSince(manager, states, i, m, p, c)
    decreases k
  {
    if k == i + 1 {
      HeldAtFirst(manager, states, calls, replies, histories, i, k, n, p, c);
    } else {
      HeldOverRuns(manager, states, calls, replies, histories, i, k - 1, n, p, c);
      HeldAtNext(manager, states, calls, replies, histories, i, k - 1, k, n, p, c);
    }
  }

  lemma SameTwice(devices: seq<PreparedDevice>, between: seq<PreparedDevice>, now: seq<PreparedDevice>)
    requires SameDevices(devices, between) && SameDevices(between, now)
    ensures SameDevices(devices, now)
  {
  }

  /** Undone over runs: a claim that call `i` records and whose record call `j` is the
      first to remove has then every device put back, as it was before call `i`;
      whatever other claims, late updates, failed teardowns and crashes lie between,
      and whether or not its record ever reached the checkpoint. */
  lemma UndoneOverRuns(manager: ClaimManager, states: seq<View>, calls: seq<Call>, replies: seq<Reply>,
                       histories: seq<History>, i: nat, j: nat, p: string, c: string)
    requires IsRun(manager, states, calls, replies, histories) && i < j < |calls|
    requires OrderlyUpTo(manager, states, calls, j + 1)
    requires RecordedFrom(states, p, c, i, j) && !Entry(states[j + 1].pods, p, c)
    ensures SameDevices(DevicesOfClaim(states[i + 1], p, c), DevicesOfClaim(states[j], p, c))
    ensures AllPutBack(states[i].slots, states[j + 1].slots, manager.host.traits, DevicesOfClaim(states[j], p, c))
  {
    HeldOverRuns(manager, states, calls, replies, histories, i, j, j, p, c);
    assert HeldSince(manager, states, i, j, p, c);
    RunStepHolds(manager, states, calls, replies, histories, j, states[i].slots, p, c);
  }

  /** In particular by an unprepare that is answered with success. */
  lemma UnpreparedIsPutBack(manager: ClaimManager, states: seq<View>, calls: seq<Call>, replies: seq<Reply>,
                            histories: seq<History>, i: nat, j: nat, p: string, c: string, m: nat)
    requires IsRun(manager, states, calls, replies, histories) && i < j < |calls|
    requires OrderlyUpTo(manager, states, calls, j + 1)
    requires RecordedFrom(states, p, c, i, j)
    requires calls[j].Unprepare? && m < |calls[j].claimUIDs| && calls[j].claimUIDs[m] == c
    requires m < |histories[j].oks| && histories[j].oks[m]
    ensures !Tracked(states[j + 1].pods, c)
    ensures AllPutBack(states[i].slots, states[j + 1].slots, manager.host.traits, DevicesOfClaim(states[j], p, c))
  {
    OrderlyAt(manager, states, calls, replies, histories, j);
    assert AnsweredAt(manager, states, calls, replies, histories, j);
    ChainUntracks(manager, calls[j].claimUIDs, histories[j].undone, histories[j].oks, |calls[j].claimUIDs|);
    TrackedIsEntry(states[j + 1].pods, c);
    UndoneOverRuns(manager, states, calls, replies, histories, i, j, p, c);
  }
}
