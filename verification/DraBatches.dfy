/** What a batch of calls keeps, when it succeeds, and how its interfaces are
    named. */
module DraBatches {
  import opened Options
  import opened Attributes
  import opened InterfaceNames
  import opened Host
  import opened PodManager
  import opened PodRuns
  import opened Resources
  import opened ClaimTransaction
  import opened ClaimRoundTrip
  import opened DraState
  import opened DraHook

  // ---- Preparing several claims --------------------------------------------------------

  /** Two claims of a batch have no device in common. */
  ghost predicate Unrelated(table: Devices, a: ResourceClaim, b: ResourceClaim)
  {
    Settled(a) && Settled(b) ==> a.uid != b.uid && forall pci :: AsksFor(table, a, pci) ==> !AsksFor(table, b, pci)
  }

  /** What the scheduler promises of a batch. */
  ghost predicate Scheduled(table: Devices, pods: Pods, claims: seq<ResourceClaim>)
  {
    && (forall i :: 0 <= i < |claims| ==> Schedulable(table, pods, claims[i]))
    && (forall i, j :: 0 <= i < j < |claims| ==> Unrelated(table, claims[i], claims[j]))
  }

  ghost predicate ElsewhereThan(a: ResourceClaim, b: ResourceClaim)
  {
    Settled(a) && Settled(b) ==> a.reservedFor[0] != b.reservedFor[0]
  }

  ghost predicate AloneInPod(pods: Pods, claim: ResourceClaim)
  {
    Settled(claim) ==> OnlyClaim(pods, claim.reservedFor[0], claim.uid)
  }

  /** With this batch, too, no pod gets two claims. */
  ghost predicate OnePerPod(pods: Pods, claims: seq<ResourceClaim>)
  {
    && OneClaimPerPod(pods)
    && (forall i :: 0 <= i < |claims| ==> AloneInPod(pods, claims[i]))
    && (forall i, j :: 0 <= i < j < |claims| ==> ElsewhereThan(claims[i], claims[j]))
  }

  /** Preparing a claim adds at most its own record. */
  ghost predicate Grown(manager: ClaimManager, before: Pods, now: Pods, claim: ResourceClaim)
    reads manager.table
  {
    now == before || (
      && Settled(claim) && Entry(now, claim.reservedFor[0], claim.uid)
      && !Entry(before, claim.reservedFor[0], claim.uid)
      && DevicesFor(manager, claim, now[claim.reservedFor[0]][claim.uid])
      && now == Stored(before, claim.reservedFor[0], claim.uid, now[claim.reservedFor[0]][claim.uid]))
  }

  lemma PreparesGrows(manager: ClaimManager, before: View, now: View, claim: ResourceClaim, from: nat, next: nat,
                      r: PrepareResult)
    requires Prepares(manager, before, now, claim, from, next, r)
    ensures Grown(manager, before.pods, now.pods, claim)
  {
  }

  lemma StaysSchedulable(manager: ClaimManager, before: Pods, now: Pods, a: ResourceClaim, b: ResourceClaim)
    requires Grown(manager, before, now, a) && Unrelated(manager.table.allocatable, a, b)
    requires Schedulable(manager.table.allocatable, before, b)
    ensures Schedulable(manager.table.allocatable, now, b)
  {
    if now != before {
      var devices := now[a.reservedFor[0]][a.uid];
      StoredEntries(before, a.reservedFor[0], a.uid, devices);
      if Settled(b) {
        forall i | 0 <= i < |devices| ensures !AsksFor(manager.table.allocatable, b, devices[i].info.pciAddress) {
          WantsAsked(manager, a, i);
        }
      }
    }
  }

  lemma StaysAlone(manager: ClaimManager, before: Pods, now: Pods, a: ResourceClaim, b: ResourceClaim)
    requires Grown(manager, before, now, a) && ElsewhereThan(a, b) && AloneInPod(before, b)
    ensures AloneInPod(now, b)
  {
    if now != before {
      StoredEntries(before, a.reservedFor[0], a.uid, now[a.reservedFor[0]][a.uid]);
    }
  }

  lemma StaysOnePerPod(manager: ClaimManager, before: Pods, now: Pods, a: ResourceClaim)
    requires Grown(manager, before, now, a) && OneClaimPerPod(before) && AloneInPod(before, a)
    ensures OneClaimPerPod(now)
  {
    if now != before {
      StoredEntries(before, a.reservedFor[0], a.uid, now[a.reservedFor[0]][a.uid]);
      forall c, p | Entry(now, p, c) ensures OnlyClaim(now, p, c) {
        assert Unshared(before, c);
      }
    }
  }

  /** The rest of the batch is scheduled still. */
  lemma {:induction false} ChainStaysScheduled(manager: ClaimManager, claims: seq<ResourceClaim>, states: seq<View>,
                                               starts: seq<nat>, replies: seq<PrepareResult>, n: nat, i: nat)
    requires PrepareChain(manager, claims, states, starts, replies) && n <= i < |claims|
    requires Scheduled(manager.table.allocatable, states[0].pods, claims)
    ensures Schedulable(manager.table.allocatable, states[n].pods, claims[i])
  {
    if n > 0 {
      ChainStaysScheduled(manager, claims, states, starts, replies, n - 1, i);
      StepGrows(manager, claims, states, starts, replies, n - 1);
      StaysSchedulable(manager, states[n - 1].pods, states[n].pods, claims[n - 1], claims[i]);
    }
  }

  /** Preparing a scheduled batch keeps what always holds. */
  lemma {:induction false} ChainKeepsSound(manager: ClaimManager, claims: seq<ResourceClaim>, states: seq<View>,
                                           starts: seq<nat>, replies: seq<PrepareResult>, n: nat)
    requires PrepareChain(manager, claims, states, starts, replies) && n <= |claims|
    requires Scheduled(manager.table.allocatable, states[0].pods, claims) && Sound(states[0])
    ensures Sound(states[n])
  {
    if n > 0 {
      ChainKeepsSound(manager, claims, states, starts, replies, n - 1);
      ChainStaysScheduled(manager, claims, states, starts, replies, n - 1, n - 1);
      StepKeepsSound(manager, claims, states, starts, replies, n - 1);
    }
  }

  /** And it keeps records and specs in step unless a checkpoint write failed. */
  lemma {:induction false} ChainKeepsConsistent(manager: ClaimManager, claims: seq<ResourceClaim>, states: seq<View>,
                                                starts: seq<nat>, replies: seq<PrepareResult>, n: nat)
    requires PrepareChain(manager, claims, states, starts, replies) && n <= |claims| && NoneUnrecorded(replies)
    requires Scheduled(manager.table.allocatable, states[0].pods, claims) && Consistent(states[0], manager.host.traits)
    ensures Consistent(states[n], manager.host.traits)
  {
    if n > 0 {
      ChainKeepsConsistent(manager, claims, states, starts, replies, n - 1);
      ChainStaysScheduled(manager, claims, states, starts, replies, n - 1, n - 1);
      StepKeepsConsistent(manager, claims, states, starts, replies, n - 1);
    }
  }

  lemma StepKeepsSound(manager: ClaimManager, claims: seq<ResourceClaim>, states: seq<View>, starts: seq<nat>,
                       replies: seq<PrepareResult>, i: nat)
    requires PrepareChain(manager, claims, states, starts, replies) && i < |claims|
    requires Schedulable(manager.table.allocatable, states[i].pods, claims[i]) && Sound(states[i])
    ensures Sound(states[i + 1])
  {
    assert PreparesAt(manager, claims, states, starts, replies, i);
    PreparesKeepsSound(manager, states[i], states[i + 1], claims[i], starts[i], starts[i + 1], replies[i]);
  }

  lemma StepKeepsConsistent(manager: ClaimManager, claims: seq<ResourceClaim>, states: seq<View>, starts: seq<nat>,
                            replies: seq<PrepareResult>, i: nat)
    requires PrepareChain(manager, claims, states, starts, replies) && i < |claims| && !replies[i].NotRecorded?
    requires Schedulable(manager.table.allocatable, states[i].pods, claims[i])
    requires Consistent(states[i], manager.host.traits)
    ensures Consistent(states[i + 1], manager.host.traits)
  {
    assert PreparesAt(manager, claims, states, starts, replies, i);
    PreparesKeepsConsistent(manager, states[i], states[i + 1], claims[i], starts[i], starts[i + 1], replies[i]);
  }

  lemma StepGrows(manager: ClaimManager, claims: seq<ResourceClaim>, states: seq<View>, starts: seq<nat>,
                  replies: seq<PrepareResult>, i: nat)
    requires PrepareChain(manager, claims, states, starts, replies) && i < |claims|
    ensures Grown(manager, states[i].pods, states[i + 1].pods, claims[i]) && starts[i] <= starts[i + 1]
  {
    assert PreparesAt(manager, claims, states, starts, replies, i);
    PreparesGrows(manager, states[i], states[i + 1], claims[i], starts[i], starts[i + 1], replies[i]);
  }

  lemma {:induction false} ChainStaysOnePerPod(manager: ClaimManager, claims: seq<ResourceClaim>, states: seq<View>,
                                               starts: seq<nat>, replies: seq<PrepareResult>, n: nat)
    requires PrepareChain(manager, claims, states, starts, replies) && n <= |claims|
    requires OnePerPod(states[0].pods, claims)
    ensures OneClaimPerPod(states[n].pods) && forall i :: n <= i < |claims| ==> AloneInPod(states[n].pods, claims[i])
  {
    if n > 0 {
      ChainStaysOnePerPod(manager, claims, states, starts, replies, n - 1);
      StepGrows(manager, claims, states, starts, replies, n - 1);
      StaysOnePerPod(manager, states[n - 1].pods, states[n].pods, claims[n - 1]);
      forall i | n <= i < |claims| ensures AloneInPod(states[n].pods, claims[i]) {
        StaysAlone(manager, states[n - 1].pods, states[n].pods, claims[n - 1], claims[i]);
      }
    }
  }

  // ---- Unpreparing several claims ---------------------------------------------------------

  /** No claim of the list shares its pod. */
  ghost predicate AllUnshared(pods: Pods, claimUIDs: seq<string>)
  {
    forall i :: 0 <= i < |claimUIDs| ==> Unshared(pods, claimUIDs[i])
  }

  lemma {:induction false} ChainShrinks(manager: ClaimManager, claimUIDs: seq<string>, states: seq<View>,
                                        replies: seq<bool>, m: nat, n: nat)
    requires UnprepareChain(manager, claimUIDs, states, replies) && m <= n <= |claimUIDs|
    ensures Shrunk(states[m].pods, states[n].pods)
    decreases n
  {
    if m < n {
      ChainShrinks(manager, claimUIDs, states, replies, m, n - 1);
      assert UnpreparesAt(manager, claimUIDs, states, replies, n - 1);
    }
  }

  /** Whatever pods the claims share: records stay separate, and a claim that was
      unprepared with success is recorded no more. */
  lemma {:induction false} ChainUntracks(manager: ClaimManager, claimUIDs: seq<string>, states: seq<View>,
                                         replies: seq<bool>, n: nat)
    requires UnprepareChain(manager, claimUIDs, states, replies) && n <= |claimUIDs| && Separate(states[0].pods)
    ensures Separate(states[n].pods)
    ensures forall i :: 0 <= i < n && replies[i] ==> !Tracked(states[n].pods, claimUIDs[i])
  {
    if n > 0 {
      ChainUntracks(manager, claimUIDs, states, replies, n - 1);
      assert UnpreparesAt(manager, claimUIDs, states, replies, n - 1);
      UntracksOnce(manager, states[n - 1], states[n], claimUIDs[n - 1], replies[n - 1]);
      forall i | 0 <= i < n && replies[i] ensures !Tracked(states[n].pods, claimUIDs[i]) {
        if i < n - 1 { assert !Tracked(states[n - 1].pods, claimUIDs[i]); }
      }
    }
  }

  lemma UntracksOnce(manager: ClaimManager, before: View, now: View, c: string, ok: bool)
    requires Separate(before.pods) && Unprepares(manager, before, now, c, ok)
    ensures Separate(now.pods) && (ok ==> !Tracked(now.pods, c))
    ensures forall e :: !Tracked(before.pods, e) ==> !Tracked(now.pods, e)
  {
    UnpreparesKeeps(manager, before, now, c, ok);
    ShrunkKeeps(before.pods, now.pods);
  }

  /** As long as no claim shares its pod, unpreparing keeps what always holds; and
      if all succeed, it keeps records and specs in step. */
  lemma {:induction false} ChainOfUnshared(manager: ClaimManager, claimUIDs: seq<string>, states: seq<View>,
                                           replies: seq<bool>, n: nat)
    requires UnprepareChain(manager, claimUIDs, states, replies) && n <= |claimUIDs|
    requires forall i :: 0 <= i < n ==> Unshared(states[0].pods, claimUIDs[i])
    ensures Sound(states[0]) ==> Sound(states[n])
    ensures Consistent(states[0], manager.host.traits) && (forall i :: 0 <= i < n ==> replies[i]) ==>
      Consistent(states[n], manager.host.traits)
  {
    if n > 0 {
      ChainOfUnshared(manager, claimUIDs, states, replies, n - 1);
      assert UnpreparesAt(manager, claimUIDs, states, replies, n - 1);
      ChainShrinks(manager, claimUIDs, states, replies, 0, n - 1);
      ShrunkKeeps(states[0].pods, states[n - 1].pods);
      if Sound(states[0]) { UnpreparesKeeps(manager, states[n - 1], states[n], claimUIDs[n - 1], replies[n - 1]); }
    }
  }

  /** An orphan stays one: nothing will remove its spec. */
  lemma {:induction false} OrphanStays(manager: ClaimManager, claimUIDs: seq<string>, states: seq<View>,
                                       replies: seq<bool>, m: nat, n: nat, e: string)
    requires UnprepareChain(manager, claimUIDs, states, replies) && m <= n <= |claimUIDs|
    requires Separate(states[0].pods) && Orphan(states[m], e)
    ensures Orphan(states[n], e)
    decreases n
  {
    if m < n {
      OrphanStays(manager, claimUIDs, states, replies, m, n - 1, e);
      ChainUntracks(manager, claimUIDs, states, replies, n - 1);
      assert UnpreparesAt(manager, claimUIDs, states, replies, n - 1);
      OrphanStaysOnce(manager, states[n - 1], states[n], claimUIDs[n - 1], replies[n - 1], e);
    }
  }

  lemma OrphanStaysOnce(manager: ClaimManager, before: View, now: View, c: string, ok: bool, e: string)
    requires Separate(before.pods) && Unprepares(manager, before, now, c, ok) && Orphan(before, e)
    ensures Orphan(now, e)
  {
    ShrunkKeeps(before.pods, now.pods);
    if Tracked(before.pods, c) {
      var p := HasHolder(before.pods, c);
      SpecsOfOwned(before.pods, p, c);
      assert Removed(manager, before, now, p, c, ok) && e != c;
    }
  }

  /** Exactly when a list of claims can be unprepared one by one without leaving a
      spec behind: when none of them shares its pod with another claim. */
  lemma UnprepareChainExactly(manager: ClaimManager, claimUIDs: seq<string>, states: seq<View>, replies: seq<bool>)
    requires UnprepareChain(manager, claimUIDs, states, replies) && AllTrue(replies)
    requires Consistent(states[0], manager.host.traits)
    ensures Sound(states[|claimUIDs|]) <==> AllUnshared(states[0].pods, claimUIDs)
    ensures AllUnshared(states[0].pods, claimUIDs) ==> Consistent(states[|claimUIDs|], manager.host.traits)
  {
    if AllUnshared(states[0].pods, claimUIDs) {
      ChainOfUnshared(manager, claimUIDs, states, replies, |claimUIDs|);
    } else {
      var n := FirstShared(states[0].pods, claimUIDs, |claimUIDs|);
      ChainOfUnshared(manager, claimUIDs, states, replies, n);
      var e := SharedLeavesOrphan(manager, claimUIDs, states, replies, n);
      OrphanStays(manager, claimUIDs, states, replies, n + 1, |claimUIDs|, e);
    }
  }

  lemma {:induction false} FirstShared(pods: Pods, claimUIDs: seq<string>, k: nat) returns (n: nat)
    requires k <= |claimUIDs| && exists i :: 0 <= i < k && !Unshared(pods, claimUIDs[i])
    ensures n < k && !Unshared(pods, claimUIDs[n]) && forall i :: 0 <= i < n ==> Unshared(pods, claimUIDs[i])
  {
    if exists i :: 0 <= i < k - 1 && !Unshared(pods, claimUIDs[i]) {
      n := FirstShared(pods, claimUIDs, k - 1);
    } else {
      n := k - 1;
    }
  }

  /** The first claim of the list that shares its pod takes the others' records with
      it: its pod is still as it was. */
  lemma SharedLeavesOrphan(manager: ClaimManager, claimUIDs: seq<string>, states: seq<View>, replies: seq<bool>, n: nat)
    returns (e: string)
    requires UnprepareChain(manager, claimUIDs, states, replies) && n < |claimUIDs| && replies[n]
    requires Consistent(states[0], manager.host.traits) && Consistent(states[n], manager.host.traits)
    requires !Unshared(states[0].pods, claimUIDs[n])
    requires forall i :: 0 <= i < n ==> Unshared(states[0].pods, claimUIDs[i])
    ensures Orphan(states[n + 1], e)
  {
    var c := claimUIDs[n];
    var p :| Entry(states[0].pods, p, c) && !OnlyClaim(states[0].pods, p, c);
    e :| Entry(states[0].pods, p, e) && e != c;
    PodStays(manager, claimUIDs, states, replies, n, p, c, e);
    OnePod(states[n].pods, p, c);
    TrackedIsEntry(states[n].pods, c);
    assert UnpreparesAt(manager, claimUIDs, states, replies, n);
    assert Removed(manager, states[n], states[n + 1], p, c, true);
    RemovalForgets(manager, states[n], states[n + 1], p, c, e);
  }

  /** A pod with two claims outlasts the unpreparing of claims that share no pod. */
  lemma {:induction false} PodStays(manager: ClaimManager, claimUIDs: seq<string>, states: seq<View>,
                                    replies: seq<bool>, n: nat, p: string, c: string, e: string)
    requires UnprepareChain(manager, claimUIDs, states, replies) && n <= |claimUIDs| && Separate(states[0].pods)
    requires Entry(states[0].pods, p, c) && Entry(states[0].pods, p, e) && c != e
    requires forall i :: 0 <= i < n ==> Unshared(states[0].pods, claimUIDs[i])
    ensures Entry(states[n].pods, p, c) && Entry(states[n].pods, p, e)
  {
    if n > 0 {
      PodStays(manager, claimUIDs, states, replies, n - 1, p, c, e);
      ChainUntracks(manager, claimUIDs, states, replies, n - 1);
      ChainShrinks(manager, claimUIDs, states, replies, 0, n - 1);
      assert UnpreparesAt(manager, claimUIDs, states, replies, n - 1);
      PodStaysOnce(manager, states[0].pods, states[n - 1], states[n], claimUIDs[n - 1], replies[n - 1], p, c, e);
    }
  }

  lemma PodStaysOnce(manager: ClaimManager, first: Pods, before: View, now: View, d: string, ok: bool, p: string,
                     c: string, e: string)
    requires Separate(before.pods) && Unprepares(manager, before, now, d, ok) && Shrunk(first, before.pods)
    requires Unshared(first, d)
    requires Entry(before.pods, p, c) && Entry(before.pods, p, e) && c != e
    ensures Entry(now.pods, p, c) && Entry(now.pods, p, e)
  {
    if Tracked(before.pods, d) {
      var q := HasHolder(before.pods, d);
      assert Removed(manager, before, now, q, d, ok);
      assert Entry(first, q, d) && OnlyClaim(first, q, d);
      if q == p { assert Entry(first, p, c) && Entry(first, p, e); }
    }
  }

  // ---- Batches ------------------------------------------------------------------------

  /** What always holds, with one claim per pod. */
  ghost predicate Orderly(v: View)
  {
    Sound(v) && OneClaimPerPod(v.pods)
  }

  lemma PodPublishedKeeps(manager: ClaimManager, before: View, now: View, podUID: string, order: seq<string>)
    requires PodPublished(manager, before, now, podUID, order)
    ensures Sound(before) ==> Sound(now)
    ensures Consistent(before, manager.host.traits) ==> Consistent(now, manager.host.traits)
  {
  }

  lemma UndoesKeeps(manager: ClaimManager, prepared: View, now: View, claimUIDs: seq<string>, cleaned: bool,
                    undone: seq<View>, oks: seq<bool>)
    requires Undoes(manager, prepared, now, claimUIDs, cleaned, undone, oks)
    ensures Separate(prepared.pods) ==>
      Separate(now.pods) && (cleaned ==> forall i :: 0 <= i < |claimUIDs| ==> !Tracked(now.pods, claimUIDs[i]))
    ensures Sound(prepared) && AllUnshared(prepared.pods, claimUIDs) ==> Sound(now)
    ensures OneClaimPerPod(prepared.pods) ==> OneClaimPerPod(now.pods)
  {
    if Separate(prepared.pods) { ChainUntracks(manager, claimUIDs, undone, oks, |claimUIDs|); }
    if Sound(prepared) && AllUnshared(prepared.pods, claimUIDs) {
      ChainOfUnshared(manager, claimUIDs, undone, oks, |claimUIDs|);
    }
    ChainShrinks(manager, claimUIDs, undone, oks, 0, |claimUIDs|);
    ShrunkKeeps(prepared.pods, now.pods);
  }

  /** A batch that stands: what always holds is kept, and records and specs stay in
      step unless a checkpoint write failed. */
  lemma StandingBatchKeeps(manager: ClaimManager, before: View, now: View, claims: seq<ResourceClaim>,
                           results: map<string, PrepareResult>, error: Option<BatchError>, h: History)
    requires Batch(manager, before, now, claims, results, error, h) && claims != [] && !RolledBackBatch(error)
    requires Scheduled(manager.table.allocatable, before.pods, claims)
    ensures Sound(before) ==> Sound(now)
    ensures OnePerPod(before.pods, claims) ==> OneClaimPerPod(now.pods)
    ensures Consistent(before, manager.host.traits) && NoneUnrecorded(h.replies) ==>
      Consistent(now, manager.host.traits)
  {
    var prepared := h.states[|claims|];
    if Sound(before) { ChainKeepsSound(manager, claims, h.states, h.starts, h.replies, |claims|); }
    if Consistent(before, manager.host.traits) && NoneUnrecorded(h.replies) {
      ChainKeepsConsistent(manager, claims, h.states, h.starts, h.replies, |claims|);
    }
    if OnePerPod(before.pods, claims) { ChainStaysOnePerPod(manager, claims, h.states, h.starts, h.replies, |claims|); }
    if error.None? { PodPublishedKeeps(manager, prepared, now, PodOf(claims), h.order); }
  }

  /** A batch that is rolled back completely: none of its claims is recorded any
      more. */
  lemma RolledBackBatchUntracks(manager: ClaimManager, before: View, now: View, claims: seq<ResourceClaim>,
                                results: map<string, PrepareResult>, error: Option<BatchError>, h: History)
    requires Batch(manager, before, now, claims, results, error, h) && claims != [] && RolledBackBatch(error)
    requires Scheduled(manager.table.allocatable, before.pods, claims) && Sound(before)
    ensures error.value.cleaned ==> forall i :: 0 <= i < |claims| ==> !Tracked(now.pods, claims[i].uid)
    ensures OnePerPod(before.pods, claims) ==> Orderly(now)
  {
    ChainKeepsSound(manager, claims, h.states, h.starts, h.replies, |claims|);
    UndoesKeeps(manager, h.states[|claims|], now, UIDs(claims), error.value.cleaned, h.undone, h.oks);
    if OnePerPod(before.pods, claims) { ChainStaysOnePerPod(manager, claims, h.states, h.starts, h.replies, |claims|); }
    if error.value.cleaned {
      forall i | 0 <= i < |claims| ensures !Tracked(now.pods, claims[i].uid) {
        assert UIDs(claims)[i] == claims[i].uid;
      }
    }
  }

  /** The records after the claims are prepared: those of before, and those of the
      claims that are `stored`. */
  ghost predicate RecordedBy(pods: Pods, claims: seq<ResourceClaim>, stored: seq<bool>, p: string, c: string)
    requires |stored| == |claims|
  {
    Entry(pods, p, c) || exists i :: 0 <= i < |claims| && stored[i] && ClaimOf(claims[i], p, c)
  }

  predicate ClaimOf(claim: ResourceClaim, p: string, c: string)
  {
    Settled(claim) && claim.reservedFor[0] == p && claim.uid == c
  }

  /** With these records, no claim of the batch shares its pod. */
  ghost predicate NoneShares(pods: Pods, claims: seq<ResourceClaim>, stored: seq<bool>)
    requires |stored| == |claims|
  {
    forall i, p, e ::
      0 <= i < |claims| && RecordedBy(pods, claims, stored, p, claims[i].uid) &&
        RecordedBy(pods, claims, stored, p, e) ==>
      e == claims[i].uid
  }

  /** Claim `i` is recorded after its step, if it is stored. */
  ghost predicate StoresAt(claims: seq<ResourceClaim>, states: seq<View>, stored: seq<bool>, i: nat)
    requires i < |claims| == |stored| && |states| == |claims| + 1
  {
    forall p, c :: Entry(states[i + 1].pods, p, c) <==>
      Entry(states[i].pods, p, c) || (stored[i] && ClaimOf(claims[i], p, c))
  }

  lemma {:induction false} ChainRecords(claims: seq<ResourceClaim>, states: seq<View>, stored: seq<bool>, n: nat,
                                        p: string, c: string)
    requires |stored| == |claims| && |states| == |claims| + 1 && n <= |claims|
    requires forall i :: 0 <= i < |claims| ==> StoresAt(claims, states, stored, i)
    ensures Entry(states[n].pods, p, c) <==> RecordedBy(states[0].pods, claims[..n], stored[..n], p, c)
  {
    if n > 0 {
      ChainRecords(claims, states, stored, n - 1, p, c);
      assert StoresAt(claims, states, stored, n - 1);
      assert claims[..n][n - 1] == claims[n - 1] && stored[..n][n - 1] == stored[n - 1];
      forall i | 0 <= i < n - 1 ensures claims[..n][i] == claims[..n - 1][i] && stored[..n][i] == stored[..n - 1][i] {
      }
    }
  }

  lemma UnsharedExactly(claims: seq<ResourceClaim>, states: seq<View>, stored: seq<bool>)
    requires |stored| == |claims| && |states| == |claims| + 1
    requires forall i :: 0 <= i < |claims| ==> StoresAt(claims, states, stored, i)
    ensures AllUnshared(states[|claims|].pods, UIDs(claims)) <==> NoneShares(states[0].pods, claims, stored)
  {
    assert claims[..|claims|] == claims && stored[..|claims|] == stored;
    forall p, c ensures Entry(states[|claims|].pods, p, c) <==> RecordedBy(states[0].pods, claims, stored, p, c) {
      ChainRecords(claims, states, stored, |claims|, p, c);
    }
  }

  /** The claim is in memory after this answer. */
  predicate Remembers(r: PrepareResult) { r.Ready? || r.NotRecorded? }

  function RememberedBy(replies: seq<PrepareResult>): (r: seq<bool>)
    ensures |r| == |replies| && forall i :: 0 <= i < |replies| ==> r[i] == Remembers(replies[i])
  {
    seq(|replies|, i requires 0 <= i < |replies| => Remembers(replies[i]))
  }

  lemma StepStores(manager: ClaimManager, before: View, now: View, claim: ResourceClaim, from: nat, next: nat,
                   r: PrepareResult, p: string, c: string)
    requires Prepares(manager, before, now, claim, from, next, r)
    ensures Entry(now.pods, p, c) <==> Entry(before.pods, p, c) || (Remembers(r) && ClaimOf(claim, p, c))
    ensures manager.reliable && !r.NotRecorded? ==>
      (Entry(now.pods, p, c) <==>
         Entry(before.pods, p, c) || (Settled(claim) && manager.Preparable(claim) && ClaimOf(claim, p, c)))
  {
    PreparesGrows(manager, before, now, claim, from, next, r);
    if now.pods != before.pods {
      StoredEntries(before.pods, claim.reservedFor[0], claim.uid, now.pods[claim.reservedFor[0]][claim.uid]);
    }
  }

  /** The claims that can be prepared. */
  ghost function PreparableOf(manager: ClaimManager, claims: seq<ResourceClaim>): (r: seq<bool>)
    reads manager.table
    ensures |r| == |claims|
    ensures forall i :: 0 <= i < |claims| ==> r[i] == (Settled(claims[i]) && manager.Preparable(claims[i]))
  {
    seq(|claims|, i requires 0 <= i < |claims| reads manager.table => Settled(claims[i]) &&
        manager.Preparable(claims[i]))
  }

  lemma ChainStores(manager: ClaimManager, claims: seq<ResourceClaim>, states: seq<View>, starts: seq<nat>,
                    replies: seq<PrepareResult>, i: nat)
    requires PrepareChain(manager, claims, states, starts, replies) && i < |claims|
    ensures StoresAt(claims, states, RememberedBy(replies), i)
    ensures manager.reliable && !replies[i].NotRecorded? ==> StoresAt(claims, states, PreparableOf(manager, claims), i)
  {
    assert PreparesAt(manager, claims, states, starts, replies, i);
    forall p, c
      ensures Entry(states[i + 1].pods, p, c) <==>
        Entry(states[i].pods, p, c) || (Remembers(replies[i]) && ClaimOf(claims[i], p, c))
      ensures manager.reliable && !replies[i].NotRecorded? ==>
        (Entry(states[i + 1].pods, p, c) <==>
          Entry(states[i].pods, p, c) || (PreparableOf(manager, claims)[i] && ClaimOf(claims[i], p, c)))
    {
      StepStores(manager, states[i], states[i + 1], claims[i], starts[i], starts[i + 1], replies[i], p, c);
    }
  }

  /** Which claims share their pod after the prepares, in terms of the records of
      before and of the answers; and in a reliable environment, in terms of the
      claims alone. */
  lemma PreparedUnsharedExactly(manager: ClaimManager, claims: seq<ResourceClaim>, states: seq<View>, starts: seq<nat>,
                                replies: seq<PrepareResult>)
    requires PrepareChain(manager, claims, states, starts, replies)
    ensures AllUnshared(states[|claims|].pods, UIDs(claims)) <==>
      NoneShares(states[0].pods, claims, RememberedBy(replies))
    ensures manager.reliable && NoneUnrecorded(replies) ==>
      (AllUnshared(states[|claims|].pods, UIDs(claims)) <==>
         NoneShares(states[0].pods, claims, PreparableOf(manager, claims)))
  {
    forall i | 0 <= i < |claims|
      ensures StoresAt(claims, states, RememberedBy(replies), i)
      ensures manager.reliable && NoneUnrecorded(replies) ==> StoresAt(claims, states, PreparableOf(manager, claims), i)
    {
      ChainStores(manager, claims, states, starts, replies, i);
    }
    UnsharedExactly(claims, states, RememberedBy(replies));
    if manager.reliable && NoneUnrecorded(replies) { UnsharedExactly(claims, states, PreparableOf(manager, claims)); }
  }

  /** And no spec is left behind exactly when, of the recorded claims and those that
      were answered ready, none shares its pod with a claim of the batch; with one
      claim per pod, records and specs stay in step. */
  lemma RolledBackBatchExactly(manager: ClaimManager, before: View, now: View, claims: seq<ResourceClaim>,
                               results: map<string, PrepareResult>, error: Option<BatchError>, h: History)
    requires Batch(manager, before, now, claims, results, error, h) && claims != [] && RolledBackBatch(error)
    requires Scheduled(manager.table.allocatable, before.pods, claims) && Consistent(before, manager.host.traits)
    requires NoneUnrecorded(h.replies) && error.value.cleaned
    ensures Sound(now) <==> NoneShares(before.pods, claims, RememberedBy(h.replies))
    ensures manager.reliable ==> (Sound(now) <==> NoneShares(before.pods, claims, PreparableOf(manager, claims)))
    ensures OnePerPod(before.pods, claims) ==> Consistent(now, manager.host.traits)
  {
    RolledBackUndoes(manager, h.states[|claims|], now, claims, error, h.order, h.undone, h.oks);
    ChainUndoneExactly(manager, now, claims, h.states, h.starts, h.replies, h.undone, h.oks);
    PreparedUnsharedExactly(manager, claims, h.states, h.starts, h.replies);
  }

  lemma RolledBackUndoes(manager: ClaimManager, prepared: View, now: View, claims: seq<ResourceClaim>,
                         error: Option<BatchError>, order: seq<string>, undone: seq<View>, oks: seq<bool>)
    requires Concludes(manager, prepared, now, claims, error, order, undone, oks) && RolledBackBatch(error)
    ensures Undoes(manager, prepared, now, UIDs(claims), error.value.cleaned, undone, oks)
  {
  }

  lemma ChainUndoneExactly(manager: ClaimManager, now: View, claims: seq<ResourceClaim>, states: seq<View>,
                           starts: seq<nat>, replies: seq<PrepareResult>, undone: seq<View>, oks: seq<bool>)
    requires PrepareChain(manager, claims, states, starts, replies) && NoneUnrecorded(replies)
    requires Undoes(manager, states[|claims|], now, UIDs(claims), true, undone, oks)
    requires Scheduled(manager.table.allocatable, states[0].pods, claims) && Consistent(states[0], manager.host.traits)
    ensures Sound(now) <==> AllUnshared(states[|claims|].pods, UIDs(claims))
    ensures OnePerPod(states[0].pods, claims) ==> Consistent(now, manager.host.traits)
  {
    ChainKeepsConsistent(manager, claims, states, starts, replies, |claims|);
    UndoesExactly(manager, states[|claims|], now, UIDs(claims), undone, oks);
    if OnePerPod(states[0].pods, claims) { OnePerPodUnshared(manager, claims, states, starts, replies); }
  }

  lemma UndoesExactly(manager: ClaimManager, prepared: View, now: View, claimUIDs: seq<string>, undone: seq<View>,
                      oks: seq<bool>)
    requires Undoes(manager, prepared, now, claimUIDs, true, undone, oks) && Consistent(prepared, manager.host.traits)
    ensures Sound(now) <==> AllUnshared(prepared.pods, claimUIDs)
    ensures AllUnshared(prepared.pods, claimUIDs) ==> Consistent(now, manager.host.traits)
  {
    UnprepareChainExactly(manager, claimUIDs, undone, oks);
  }

  lemma OnePerPodUnshared(manager: ClaimManager, claims: seq<ResourceClaim>, states: seq<View>, starts: seq<nat>,
                          replies: seq<PrepareResult>)
    requires PrepareChain(manager, claims, states, starts, replies) && OnePerPod(states[0].pods, claims)
    ensures AllUnshared(states[|claims|].pods, UIDs(claims))
  {
    ChainStaysOnePerPod(manager, claims, states, starts, replies, |claims|);
  }

  // ---- When calls succeed ----------------------------------------------------------------

  /** In a reliable environment the answer depends on the claim and the record
      alone: ready exactly if it is recorded or can be prepared. */
  lemma ReadyExactly(manager: ClaimManager, before: View, now: View, claim: ResourceClaim, from: nat, next: nat,
                     r: PrepareResult)
    requires Prepares(manager, before, now, claim, from, next, r) && manager.reliable && Settled(claim)
    requires !r.NotRecorded?
    ensures r.Ready? <==> Entry(before.pods, claim.reservedFor[0], claim.uid) || manager.Preparable(claim)
  {
  }

  lemma {:induction false} ChainKeepsEntries(manager: ClaimManager, claims: seq<ResourceClaim>, states: seq<View>,
                                             starts: seq<nat>, replies: seq<PrepareResult>, m: nat, n: nat, p: string,
                                             c: string)
    requires PrepareChain(manager, claims, states, starts, replies) && m <= n <= |claims| && Entry(states[m].pods, p, c)
    ensures Entry(states[n].pods, p, c) && states[n].pods[p][c] == states[m].pods[p][c]
    decreases n
  {
    if m < n {
      ChainKeepsEntries(manager, claims, states, starts, replies, m, n - 1, p, c);
      StepGrows(manager, claims, states, starts, replies, n - 1);
      if states[n].pods != states[n - 1].pods {
        var claim := claims[n - 1];
        StoredEntries(states[n - 1].pods, claim.reservedFor[0], claim.uid,
                      states[n].pods[claim.reservedFor[0]][claim.uid]);
      }
    }
  }

  /** A device that the table lacks was recorded before the batch. */
  lemma {:induction false} LackedBefore(manager: ClaimManager, claims: seq<ResourceClaim>, states: seq<View>,
                                        starts: seq<nat>, replies: seq<PrepareResult>, n: nat, p: string,
                                        device: string)
    requires PrepareChain(manager, claims, states, starts, replies) && n <= |claims|
    requires Lacks(manager.table.allocatable, states[n].pods, p, device)
    ensures Lacks(manager.table.allocatable, states[0].pods, p, device)
  {
    if n > 0 {
      StepGrows(manager, claims, states, starts, replies, n - 1);
      LackedOnce(manager, states[n - 1].pods, states[n].pods, claims[n - 1], p, device);
      LackedBefore(manager, claims, states, starts, replies, n - 1, p, device);
    }
  }

  lemma LackedOnce(manager: ClaimManager, before: Pods, now: Pods, claim: ResourceClaim, p: string, device: string)
    requires Grown(manager, before, now, claim) && Lacks(manager.table.allocatable, now, p, device)
    ensures Lacks(manager.table.allocatable, before, p, device)
  {
    if now != before {
      var devices := now[claim.reservedFor[0]][claim.uid];
      StoredEntries(before, claim.reservedFor[0], claim.uid, devices);
      var ours := OursOf(claim.allocation.value.results);
      forall i | 0 <= i < |devices| ensures devices[i].info.device in manager.table.allocatable {
        assert manager.Describes(devices[i].info, claim, SettingsOf(manager.ConfigsFor(claim), ours[i].request),
                                 ours[i]);
      }
      var c, i :| Entry(now, p, c) && 0 <= i < |now[p][c]| && now[p][c][i].info.device == device;
      assert Entry(before, p, c);
    }
  }

  lemma LacksSame(manager: ClaimManager, claims: seq<ResourceClaim>, states: seq<View>, starts: seq<nat>,
                  replies: seq<PrepareResult>, p: string, device: string)
    requires PrepareChain(manager, claims, states, starts, replies)
    ensures Lacks(manager.table.allocatable, states[|claims|].pods, p, device) <==>
      Lacks(manager.table.allocatable, states[0].pods, p, device)
  {
    if Lacks(manager.table.allocatable, states[|claims|].pods, p, device) {
      LackedBefore(manager, claims, states, starts, replies, |claims|, p, device);
    }
    if Lacks(manager.table.allocatable, states[0].pods, p, device) {
      var pods: Pods := states[0].pods;
      var e: string, i: int :| Entry(pods, p, e) && 0 <= i < |pods[p][e]| && pods[p][e][i].info.device == device;
      ChainKeepsEntries(manager, claims, states, starts, replies, 0, |claims|, p, e);
    }
  }

  /** The status of a newly prepared claim, once an attempt to write it was accepted:
      the list that was sent, whatever other writers did in between; so it is in a
      reliable environment. */
  lemma StatusIsPublished(manager: ClaimManager, claims: seq<ResourceClaim>, states: seq<View>,
                          replies: seq<PrepareResult>, lists: seq<seq<DeviceStatus>>, answers: seq<seq<Answer>>, i: nat)
    requires StatusChain(manager, claims, states, replies, lists, answers) && i < |claims|
    requires NewlyReady(states[i], claims[i], replies[i])
    requires manager.reliable || Accepted in answers[i]
    ensures StatusOf(states[i + 1].statuses, ClaimKey(claims[i].namespace, claims[i].name)) == Some(lists[i])
  {
    assert StatusAt(manager, claims, states, replies, lists, answers, i);
    AcceptedWins(StatusOf(states[i].statuses, ClaimKey(claims[i].namespace, claims[i].name)), lists[i], answers[i]);
  }

  /** The claim is recorded, or can be prepared. */
  ghost predicate Servable(manager: ClaimManager, pods: Pods, claim: ResourceClaim)
    reads manager.table
  {
    Settled(claim) && (Entry(pods, claim.reservedFor[0], claim.uid) || manager.Preparable(claim))
  }

  lemma ReadyInChain(manager: ClaimManager, claims: seq<ResourceClaim>, states: seq<View>, starts: seq<nat>,
                     replies: seq<PrepareResult>, i: nat)
    requires PrepareChain(manager, claims, states, starts, replies) && i < |claims| && manager.reliable
    requires !replies[i].NotRecorded?
    requires Servable(manager, states[0].pods, claims[i])
    ensures replies[i].Ready? && Entry(states[i + 1].pods, claims[i].reservedFor[0], claims[i].uid)
  {
    assert PreparesAt(manager, claims, states, starts, replies, i);
    if Entry(states[0].pods, claims[i].reservedFor[0], claims[i].uid) {
      ChainKeepsEntries(manager, claims, states, starts, replies, 0, i, claims[i].reservedFor[0], claims[i].uid);
    }
    ReadyExactly(manager, states[i], states[i + 1], claims[i], starts[i], starts[i + 1], replies[i]);
  }

  /** What publishing comes to when nothing is refused. */
  lemma ConcludesReliably(manager: ClaimManager, prepared: View, now: View, claims: seq<ResourceClaim>,
                          error: Option<BatchError>, order: seq<string>, undone: seq<View>, oks: seq<bool>)
    requires Concludes(manager, prepared, now, claims, error, order, undone, oks) && manager.reliable
    requires PodOf(claims) != "" && PodOf(claims) in prepared.pods
    ensures error.None? <==> forall device :: !Lacks(manager.table.allocatable, prepared.pods, PodOf(claims), device)
  {
  }

  lemma ServedInChain(manager: ClaimManager, claims: seq<ResourceClaim>, states: seq<View>, starts: seq<nat>,
                      replies: seq<PrepareResult>)
    requires PrepareChain(manager, claims, states, starts, replies) && claims != [] && manager.reliable
    requires NoneUnrecorded(replies)
    requires forall i :: 0 <= i < |claims| ==> Servable(manager, states[0].pods, claims[i])
    ensures forall i :: 0 <= i < |claims| ==> replies[i].Ready?
    ensures PodOf(claims) in states[|claims|].pods
  {
    forall i | 0 <= i < |claims| ensures replies[i].Ready? {
      ReadyInChain(manager, claims, states, starts, replies, i);
    }
    assert Servable(manager, states[0].pods, claims[0]);
    ReadyInChain(manager, claims, states, starts, replies, 0);
    ChainKeepsEntries(manager, claims, states, starts, replies, 1, |claims|, PodOf(claims), claims[0].uid);
  }

  /** In a reliable environment a batch of claims that are recorded or can be
      prepared succeeds: every answer is ready, and the pod's spec is written exactly
      if the table still has the devices that the pod held before. */
  lemma BatchSucceeds(manager: ClaimManager, before: View, now: View, claims: seq<ResourceClaim>,
                      results: map<string, PrepareResult>, error: Option<BatchError>, h: History)
    requires Batch(manager, before, now, claims, results, error, h) && claims != [] && manager.reliable
    requires NoneUnrecorded(h.replies)
    requires forall i :: 0 <= i < |claims| ==> Servable(manager, before.pods, claims[i])
    requires PodOf(claims) != ""
    ensures forall i :: 0 <= i < |claims| ==> h.replies[i].Ready?
    ensures error.None? <==> forall device :: !Lacks(manager.table.allocatable, before.pods, PodOf(claims), device)
  {
    ServedInChain(manager, claims, h.states, h.starts, h.replies);
    ConcludesReliably(manager, h.states[|claims|], now, claims, error, h.order, h.undone, h.oks);
    AllLacksSame(manager, claims, h.states, h.starts, h.replies, PodOf(claims));
  }

  lemma AllLacksSame(manager: ClaimManager, claims: seq<ResourceClaim>, states: seq<View>, starts: seq<nat>,
                     replies: seq<PrepareResult>, p: string)
    requires PrepareChain(manager, claims, states, starts, replies)
    ensures forall device :: Lacks(manager.table.allocatable, states[|claims|].pods, p, device) <==>
      Lacks(manager.table.allocatable, states[0].pods, p, device)
  {
    forall device
      ensures Lacks(manager.table.allocatable, states[|claims|].pods, p, device) <==>
        Lacks(manager.table.allocatable, states[0].pods, p, device)
    {
      LacksSame(manager, claims, states, starts, replies, p, device);
    }
  }

  // ---- Interface names -----------------------------------------------------------------------

  /** Two devices, one of each list, have the same interface name. */
  ghost predicate NamesClash(devices: seq<PreparedDevice>, others: seq<PreparedDevice>)
  {
    exists i: nat, j: nat :: i < |devices| && j < |others| && devices[i].info.ifName == others[j].info.ifName
  }

  lemma NumberedNamesClash(manager: ClaimManager, a: seq<PreparedDevice>, configured: seq<string>, from: nat, next: nat,
                           b: seq<PreparedDevice>, configured': seq<string>, from': nat, next': nat)
    requires !manager.multus && manager.Numbered(a, configured, from, next)
    requires manager.Numbered(b, configured', from', next')
    ensures NamesClash(a, b) <==> Clash(configured, from, configured', from', manager.interfacePrefix)
  {
    if i: nat, j: nat :| i < |a| && j < |b| && a[i].info.ifName == b[j].info.ifName {
      assert NameAt(configured, manager.interfacePrefix, from, i) == NameAt(configured', manager.interfacePrefix, from',
                                                                            j);
    }
    var prefix := manager.interfacePrefix;
    if i: nat, j: nat :|
      i < |configured| && j < |configured'| &&
        NameAt(configured, prefix, from, i) == NameAt(configured', prefix, from', j) {
      assert a[i].info.ifName == b[j].info.ifName;
    }
  }

  ghost function DevicesAt(pods: Pods, claim: ResourceClaim): seq<PreparedDevice>
    requires Settled(claim)
  {
    if Entry(pods, claim.reservedFor[0], claim.uid) then pods[claim.reservedFor[0]][claim.uid] else []
  }

  lemma NewlyNumbered(manager: ClaimManager, before: View, now: View, claim: ResourceClaim, from: nat, next: nat,
                      r: PrepareResult)
    requires Prepares(manager, before, now, claim, from, next, r) && NewlyReady(before, claim, r)
    ensures Entry(now.pods, claim.reservedFor[0], claim.uid)
    ensures manager.Numbered(DevicesAt(now.pods, claim), manager.ConfiguredFor(claim), from, next)
  {
  }

  lemma {:induction false} StartsAscend(manager: ClaimManager, claims: seq<ResourceClaim>, states: seq<View>,
                                        starts: seq<nat>, replies: seq<PrepareResult>, i: nat, j: nat)
    requires PrepareChain(manager, claims, states, starts, replies) && i <= j <= |claims|
    ensures starts[i] <= starts[j]
    decreases j
  {
    if i < j {
      StartsAscend(manager, claims, states, starts, replies, i, j - 1);
      StepGrows(manager, claims, states, starts, replies, j - 1);
    }
  }

  /** Two claims that are prepared one after the other, the numbers running on, as
      they do within one call: they clash exactly when a config of one names a
      numbered interface of the other, or both configs give the same name. */
  lemma NewNamesClashExactly(manager: ClaimManager, before: View, now: View, claim: ResourceClaim, from: nat, next: nat,
                             r: PrepareResult, before': View, now': View, claim': ResourceClaim, from': nat, next': nat,
                             r': PrepareResult)
    requires Prepares(manager, before, now, claim, from, next, r) && NewlyReady(before, claim, r)
    requires Prepares(manager, before', now', claim', from', next', r') && NewlyReady(before', claim', r')
    requires next <= from' && !manager.multus
    ensures NamesClash(DevicesAt(now.pods, claim), DevicesAt(now'.pods, claim')) <==>
      ConfigsClash(manager.ConfiguredFor(claim), from, manager.ConfiguredFor(claim'), from', manager.interfacePrefix)
  {
    NewlyNumbered(manager, before, now, claim, from, next, r);
    NewlyNumbered(manager, before', now', claim', from', next', r');
    RunningNamesClash(manager, DevicesAt(now.pods, claim), manager.ConfiguredFor(claim), from, next,
      DevicesAt(now'.pods, claim'), manager.ConfiguredFor(claim'), from', next');
  }

  lemma RunningNamesClash(manager: ClaimManager, a: seq<PreparedDevice>, configured: seq<string>, from: nat, next: nat,
                          b: seq<PreparedDevice>, configured': seq<string>, from': nat, next': nat)
    requires !manager.multus && manager.Numbered(a, configured, from, next)
    requires manager.Numbered(b, configured', from', next') && next <= from'
    ensures NamesClash(a, b) <==> ConfigsClash(configured, from, configured', from', manager.interfacePrefix)
  {
    NumberedNamesClash(manager, a, configured, from, next, b, configured', from', next');
    ClashExactly(configured, from, configured', from', manager.interfacePrefix);
    RunningNumbersMiss(configured, from, configured', from');
  }

  /** And within one claim, exactly when a config names one of its numbered
      interfaces, or one name is configured for two of its devices. */
  lemma OwnNamesClashExactly(manager: ClaimManager, devices: seq<PreparedDevice>, configured: seq<string>, from: nat,
                             next: nat)
    requires !manager.multus && manager.Numbered(devices, configured, from, next)
    ensures (exists i: nat, j: nat :: i < j < |devices| && devices[i].info.ifName == devices[j].info.ifName) <==>
      NumberTaken(configured, from, configured, manager.interfacePrefix) || NameRepeated(configured)
  {
    var prefix := manager.interfacePrefix;
    SelfClashExactly(configured, from, prefix);
    if i: nat, j: nat :| i < j < |devices| && devices[i].info.ifName == devices[j].info.ifName {
      assert NameAt(configured, prefix, from, i) == NameAt(configured, prefix, from, j);
    }
    if i: nat, j: nat :|
      i < j < |configured| && NameAt(configured, prefix, from, i) == NameAt(configured, prefix, from, j) {
      assert devices[i].info.ifName == devices[j].info.ifName;
    }
  }
}
