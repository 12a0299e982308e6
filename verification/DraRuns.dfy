/** Whole runs of the kubelet's calls, with late updates and restarts in between,
    and the places where the driver falls short. */
module DraRuns {
  import opened Options
  import opened InterfaceNames
  import opened Host
  import opened PodManager
  import opened PodRuns
  import opened Resources
  import opened ClaimTransaction
  import opened ClaimRoundTrip
  import opened DraState
  import opened DraHook
  import opened DraBatches

  // ---- Runs ---------------------------------------------------------------------

  /** A call of the kubelet, a late update of a device's network data, or a crash
      and restart of the driver. */
  datatype Call =
    | Prepare(claims: seq<ResourceClaim>)
    | Unprepare(claimUIDs: seq<string>)
    | Late(device: PreparedDevice, data: Option<NetworkData>, refused: bool)
    | Crash

  datatype Reply =
    | PrepareReply(results: map<string, PrepareResult>, error: Option<BatchError>)
    | UnprepareReply(answers: map<string, bool>)
    | LateReply(ok: bool)
    | Up

  /** Network data arrives for a device object, tracked or not. */
  ghost predicate Updates(before: View, now: View, device: PreparedDevice, data: Option<NetworkData>, refused: bool)
  {
    && now == before.(memory := now.memory, checkpoint := now.checkpoint)
    && now.memory == Apply(before.memory, NetworkDataOp(Positions(before.pods, device), data))
    && now.checkpoint == (if refused then before.checkpoint else Some(now.memory))
  }

  /** The driver comes up with the records of the checkpoint, in new objects. */
  ghost predicate Restarts(before: View, now: View)
  {
    && before.checkpoint.Some? && now.memory == before.checkpoint.value
    && now == before.(pods := now.pods, memory := now.memory)
  }

  /** The call goes from `before` to `now`, step by step, and the reply is its own. */
  ghost predicate Answered(manager: ClaimManager, before: View, now: View, call: Call, reply: Reply, h: History)
    reads manager.table
  {
    match (call, reply)
    case (Prepare(claims), PrepareReply(results, error)) => Batch(manager, before, now, claims, results, error, h)
    case (Unprepare(claimUIDs), UnprepareReply(answers)) =>
      && UnprepareChain(manager, claimUIDs, h.undone, h.oks) && h.undone[0] == before && h.undone[|claimUIDs|] == now
      && answers == AnswersOf(claimUIDs, h.oks)
    case (Late(device, data, refused), LateReply(ok)) => Updates(before, now, device, data, refused) && ok == !refused
    case (Crash, Up) => Restarts(before, now)
    case _ => false
  }

  ghost predicate IsRun(manager: ClaimManager, states: seq<View>, calls: seq<Call>, replies: seq<Reply>,
                        histories: seq<History>)
    reads manager.table
  {
    && |states| == |calls| + 1 && |replies| == |histories| == |calls|
    && (forall k :: 0 <= k < |states| ==> TellsAt(states, k))
    && forall k :: 0 <= k < |calls| ==> AnsweredAt(manager, states, calls, replies, histories, k)
  }

  ghost predicate TellsAt(states: seq<View>, k: nat)
    requires k < |states|
  {
    Tells(states[k])
  }

  ghost predicate AnsweredAt(manager: ClaimManager, states: seq<View>, calls: seq<Call>, replies: seq<Reply>,
                             histories: seq<History>, k: nat)
    requires k < |calls| && |states| == |calls| + 1 && |replies| == |histories| == |calls|
    reads manager.table
  {
    Answered(manager, states[k], states[k + 1], calls[k], replies[k], histories[k])
  }

  /** The checkpoint is up to date. */
  predicate InStep(v: View) { v.checkpoint == Some(v.memory) }

  /** The scheduler keeps its promises for this call, with one claim per pod. */
  ghost predicate InOrder(manager: ClaimManager, v: View, call: Call)
    reads manager.table
  {
    match call
    case Prepare(claims) => Scheduled(manager.table.allocatable, v.pods, claims) && OnePerPod(v.pods, claims)
    case _ => true
  }

  /** No teardown and no checkpoint write of this call failed. */
  ghost predicate Smooth(call: Call, reply: Reply, h: History)
  {
    match (call, reply)
    case (Prepare(_), PrepareReply(_, error)) =>
      NoneUnrecorded(h.replies) && (RolledBackBatch(error) ==> error.value.cleaned)
    case (Unprepare(_), _) => AllTrue(h.oks)
    case (Late(_, _, refused), _) => !refused
    case _ => true
  }

  // ---- What restarts and updates keep -----------------------------------------------------

  ghost predicate SameDevices(devices: seq<PreparedDevice>, others: seq<PreparedDevice>)
  {
    |devices| == |others| && forall i :: 0 <= i < |devices| ==> devices[i].info == others[i].info
  }

  ghost predicate SamePods(pods: Pods, others: Pods)
  {
    && pods.Keys == others.Keys
    && forall p, c ::
      (Entry(pods, p, c) <==> Entry(others, p, c)) && (Entry(pods, p, c) ==> SameDevices(pods[p][c], others[p][c]))
  }

  lemma TellsSame(v: View, w: View)
    requires Tells(v) && Tells(w) && v.memory == w.memory
    ensures SamePods(v.pods, w.pods)
  {
    forall p, c
      ensures Entry(v.pods, p, c) <==> Entry(w.pods, p, c)
      ensures Entry(v.pods, p, c) ==> SameDevices(v.pods[p][c], w.pods[p][c])
    {
      assert Entry(v.pods, p, c) <==> p in v.memory && c in v.memory[p];
      assert Entry(w.pods, p, c) <==> p in w.memory && c in w.memory[p];
    }
  }

  lemma SeparateSame(pods: Pods, others: Pods)
    requires SamePods(pods, others) && Separate(pods)
    ensures Separate(others)
  {
    forall p, c | Entry(others, p, c) ensures Owned(p, c, others[p][c]) {
      assert Entry(pods, p, c) && Owned(p, c, pods[p][c]) && SameDevices(pods[p][c], others[p][c]);
    }
    forall p, c, q, e | Entry(others, p, c) && Entry(others, q, e) && (p, c) != (q, e)
      ensures c != e && Apart(others[p][c], others[q][e]) {
      assert Entry(pods, p, c) && Entry(pods, q, e) && Apart(pods[p][c], pods[q][e]);
      assert SameDevices(pods[p][c], others[p][c]) && SameDevices(pods[q][e], others[q][e]);
    }
  }

  lemma TrackedSame(pods: Pods, others: Pods, c: string)
    requires SamePods(pods, others)
    ensures Tracked(pods, c) <==> Tracked(others, c)
  {
    TrackedIsEntry(pods, c);
    TrackedIsEntry(others, c);
    if p :| Entry(pods, p, c) { assert Entry(others, p, c); }
    if p :| Entry(others, p, c) { assert Entry(pods, p, c); }
  }

  lemma SoundSame(v: View, w: View)
    requires SamePods(v.pods, w.pods) && w.specs == v.specs && Sound(v)
    ensures Sound(w)
  {
    SeparateSame(v.pods, w.pods);
    forall c | ClaimSpec(c) in w.specs ensures Tracked(w.pods, c) { TrackedSame(v.pods, w.pods, c); }
  }

  lemma ConsistentSame(v: View, w: View, traits: string -> Traits)
    requires SamePods(v.pods, w.pods) && w.specs == v.specs && w.slots == v.slots && Consistent(v, traits)
    ensures Consistent(w, traits)
  {
    SoundSame(v, w);
    forall c | Tracked(w.pods, c) ensures ClaimSpec(c) in w.specs { TrackedSame(v.pods, w.pods, c); }
    forall p, c | Entry(w.pods, p, c) ensures AllCarry(w.slots, traits, w.pods[p][c]) {
      assert Entry(v.pods, p, c) && AllCarry(v.slots, traits, v.pods[p][c]) && SameDevices(v.pods[p][c], w.pods[p][c]);
    }
  }

  lemma OnePerPodSame(pods: Pods, others: Pods)
    requires SamePods(pods, others) && OneClaimPerPod(pods)
    ensures OneClaimPerPod(others)
  {
    forall c ensures Unshared(others, c) { assert Unshared(pods, c); }
  }

  /** A restart on a checkpoint that is up to date keeps everything: the records are
      in new objects, and say the same. */
  lemma RestartKeeps(before: View, now: View, traits: string -> Traits)
    requires Tells(before) && Tells(now) && Restarts(before, now) && InStep(before)
    ensures Sound(before) ==> Sound(now)
    ensures OneClaimPerPod(before.pods) ==> OneClaimPerPod(now.pods)
    ensures Consistent(before, traits) ==> Consistent(now, traits)
  {
    TellsSame(before, now);
    if Sound(before) { SoundSame(before, now); }
    if OneClaimPerPod(before.pods) { OnePerPodSame(before.pods, now.pods); }
    if Consistent(before, traits) { ConsistentSame(before, now, traits); }
  }

  /** A restart on any checkpoint: specs are left without a record exactly for the
      claims that have one, and that the checkpoint does not. */
  lemma RestartOrphansExactly(before: View, now: View, c: string)
    requires Tells(now) && Restarts(before, now)
    ensures Orphan(now, c) <==> ClaimSpec(c) in before.specs && !Recorded(before.checkpoint.value, c)
  {
    TrackedIsEntry(now.pods, c);
    if p :| p in now.memory && c in now.memory[p] { assert Entry(now.pods, p, c); }
  }

  // ---- What a call keeps ----------------------------------------------------------------

  lemma CallStaysOrderly(manager: ClaimManager, before: View, now: View, call: Call, reply: Reply, h: History)
    requires Answered(manager, before, now, call, reply, h) && Tells(before) && Tells(now)
    requires Orderly(before) && InOrder(manager, before, call) && (call.Crash? ==> InStep(before))
    ensures Orderly(now)
  {
    match call {
      case Prepare(claims) =>
        if claims != [] {
          if RolledBackBatch(reply.error) {
            RolledBackBatchUntracks(manager, before, now, claims, reply.results, reply.error, h);
          } else {
            StandingBatchKeeps(manager, before, now, claims, reply.results, reply.error, h);
          }
        }
      case Unprepare(claimUIDs) =>
        ChainOfUnshared(manager, claimUIDs, h.undone, h.oks, |claimUIDs|);
        ChainShrinks(manager, claimUIDs, h.undone, h.oks, 0, |claimUIDs|);
        ShrunkKeeps(before.pods, now.pods);
      case Late(device, data, refused) =>
      case Crash => RestartKeeps(before, now, manager.host.traits);
    }
  }

  lemma CallStaysConsistent(manager: ClaimManager, before: View, now: View, call: Call, reply: Reply, h: History)
    requires Answered(manager, before, now, call, reply, h) && Tells(before) && Tells(now)
    requires OneClaimPerPod(before.pods) && Consistent(before, manager.host.traits) && InStep(before)
    requires InOrder(manager, before, call) && Smooth(call, reply, h)
    ensures Consistent(now, manager.host.traits)
  {
    match call {
      case Prepare(claims) =>
        if claims != [] {
          if RolledBackBatch(reply.error) {
            RolledBackBatchExactly(manager, before, now, claims, reply.results, reply.error, h);
          } else {
            StandingBatchKeeps(manager, before, now, claims, reply.results, reply.error, h);
          }
        }
      case Unprepare(claimUIDs) => ChainOfUnshared(manager, claimUIDs, h.undone, h.oks, |claimUIDs|);
      case Late(device, data, refused) =>
      case Crash => RestartKeeps(before, now, manager.host.traits);
    }
  }

  // ---- The checkpoint stays up to date ------------------------------------------------------

  lemma {:induction false} PreparesInStep(manager: ClaimManager, claims: seq<ResourceClaim>, states: seq<View>,
                                          starts: seq<nat>, replies: seq<PrepareResult>, n: nat)
    requires PrepareChain(manager, claims, states, starts, replies) && n <= |claims| && InStep(states[0])
    requires NoneUnrecorded(replies)
    ensures InStep(states[n])
  {
    if n > 0 {
      PreparesInStep(manager, claims, states, starts, replies, n - 1);
      assert PreparesAt(manager, claims, states, starts, replies, n - 1);
    }
  }

  lemma {:induction false} UnpreparesInStep(manager: ClaimManager, claimUIDs: seq<string>, states: seq<View>,
                                            replies: seq<bool>, n: nat)
    requires UnprepareChain(manager, claimUIDs, states, replies) && n <= |claimUIDs| && InStep(states[0])
    requires AllTrue(replies)
    requires Separate(states[0].pods)
    ensures InStep(states[n])
  {
    if n > 0 {
      UnpreparesInStep(manager, claimUIDs, states, replies, n - 1);
      ChainUntracks(manager, claimUIDs, states, replies, n - 1);
      assert UnpreparesAt(manager, claimUIDs, states, replies, n - 1);
      if Tracked(states[n - 1].pods, claimUIDs[n - 1]) {
        var p := HasHolder(states[n - 1].pods, claimUIDs[n - 1]);
        assert Removed(manager, states[n - 1], states[n], p, claimUIDs[n - 1], true);
      }
    }
  }

  lemma UndoesInStep(manager: ClaimManager, prepared: View, now: View, claimUIDs: seq<string>, undone: seq<View>,
                     oks: seq<bool>)
    requires Undoes(manager, prepared, now, claimUIDs, true, undone, oks) && InStep(prepared) && Separate(prepared.pods)
    ensures InStep(now)
  {
    UnpreparesInStep(manager, claimUIDs, undone, oks, |claimUIDs|);
  }

  lemma CallStaysInStep(manager: ClaimManager, before: View, now: View, call: Call, reply: Reply, h: History)
    requires Answered(manager, before, now, call, reply, h) && InStep(before) && Smooth(call, reply, h)
    requires Sound(before) && InOrder(manager, before, call)
    ensures InStep(now)
  {
    match call {
      case Prepare(claims) =>
        if claims != [] {
          PreparesInStep(manager, claims, h.states, h.starts, h.replies, |claims|);
          if RolledBackBatch(reply.error) {
            ChainKeepsSound(manager, claims, h.states, h.starts, h.replies, |claims|);
            RolledBackUndoes(manager, h.states[|claims|], now, claims, reply.error, h.order, h.undone, h.oks);
            UndoesInStep(manager, h.states[|claims|], now, UIDs(claims), h.undone, h.oks);
          }
        }
      case Unprepare(claimUIDs) => UnpreparesInStep(manager, claimUIDs, h.undone, h.oks, |claimUIDs|);
      case Late(device, data, refused) =>
      case Crash =>
    }
  }

  // ---- Whole runs --------------------------------------------------------------------------

  /** Over every run in which the scheduler keeps its promises, whatever fails: the
      records never overlap, and no spec is without its record, as long as every
      restart finds the checkpoint up to date. */
  lemma {:induction false} RunsAreOrderly(manager: ClaimManager, states: seq<View>, calls: seq<Call>,
                                          replies: seq<Reply>, histories: seq<History>, n: nat)
    requires IsRun(manager, states, calls, replies, histories) && n <= |calls| && Orderly(states[0])
    requires forall k :: 0 <= k < n ==> InOrder(manager, states[k], calls[k]) && (calls[k].Crash? ==> InStep(states[k]))
    ensures Orderly(states[n])
  {
    if n > 0 {
      RunsAreOrderly(manager, states, calls, replies, histories, n - 1);
      assert AnsweredAt(manager, states, calls, replies, histories, n - 1);
      assert TellsAt(states, n - 1) && TellsAt(states, n);
      CallStaysOrderly(manager, states[n - 1], states[n], calls[n - 1], replies[n - 1], histories[n - 1]);
    }
  }

  /** And if no teardown and no checkpoint write fails on the way, then at every point
      the checkpoint is up to date, a claim is recorded exactly if its spec is there,
      and its devices then carry the configured drivers; any other step of any
      prepare may fail, and the driver may crash and restart at any time. */
  lemma {:induction false} RecordedIffPrepared(manager: ClaimManager, states: seq<View>, calls: seq<Call>,
                                               replies: seq<Reply>, histories: seq<History>, n: nat)
    requires IsRun(manager, states, calls, replies, histories) && n <= |calls|
    requires Orderly(states[0]) && Consistent(states[0], manager.host.traits) && InStep(states[0])
    requires forall k :: 0 <= k < n ==>
      InOrder(manager, states[k], calls[k]) && Smooth(calls[k], replies[k], histories[k])
    ensures Orderly(states[n]) && Consistent(states[n], manager.host.traits) && InStep(states[n])
    ensures forall c :: ClaimSpec(c) in states[n].specs <==> Tracked(states[n].pods, c)
  {
    if n > 0 {
      RecordedIffPrepared(manager, states, calls, replies, histories, n - 1);
      assert AnsweredAt(manager, states, calls, replies, histories, n - 1);
      assert TellsAt(states, n - 1) && TellsAt(states, n);
      CallStaysOrderly(manager, states[n - 1], states[n], calls[n - 1], replies[n - 1], histories[n - 1]);
      CallStaysConsistent(manager, states[n - 1], states[n], calls[n - 1], replies[n - 1], histories[n - 1]);
      CallStaysInStep(manager, states[n - 1], states[n], calls[n - 1], replies[n - 1], histories[n - 1]);
    }
  }

  // ---- Every sequence of calls is a run ------------------------------------------------------

  lemma {:induction false} PreparesCheckpoint(manager: ClaimManager, claims: seq<ResourceClaim>, states: seq<View>,
                                              starts: seq<nat>, replies: seq<PrepareResult>, n: nat)
    requires PrepareChain(manager, claims, states, starts, replies) && n <= |claims| && states[0].checkpoint.Some?
    ensures states[n].checkpoint.Some?
  {
    if n > 0 {
      PreparesCheckpoint(manager, claims, states, starts, replies, n - 1);
      assert PreparesAt(manager, claims, states, starts, replies, n - 1);
    }
  }

  lemma {:induction false} UnpreparesCheckpoint(manager: ClaimManager, claimUIDs: seq<string>, states: seq<View>,
                                                replies: seq<bool>, n: nat)
    requires UnprepareChain(manager, claimUIDs, states, replies) && n <= |claimUIDs| && states[0].checkpoint.Some?
    ensures states[n].checkpoint.Some?
  {
    if n > 0 {
      UnpreparesCheckpoint(manager, claimUIDs, states, replies, n - 1);
      assert UnpreparesAt(manager, claimUIDs, states, replies, n - 1);
    }
  }

  /** There is a checkpoint once there was one. */
  lemma CheckpointStays(manager: ClaimManager, before: View, now: View, call: Call, reply: Reply, h: History)
    requires Answered(manager, before, now, call, reply, h) && before.checkpoint.Some?
    ensures now.checkpoint.Some?
  {
    match call {
      case Prepare(claims) =>
        if claims != [] {
          PreparesCheckpoint(manager, claims, h.states, h.starts, h.replies, |claims|);
          if RolledBackBatch(reply.error) { UnpreparesCheckpoint(manager, UIDs(claims), h.undone, h.oks, |claims|); }
        }
      case Unprepare(claimUIDs) => UnpreparesCheckpoint(manager, claimUIDs, h.undone, h.oks, |claimUIDs|);
      case Late(device, data, refused) =>
      case Crash =>
    }
  }

  ghost function StatusesOf(call: Call): set<ClaimStatus>
  {
    if call.Prepare? then set i | 0 <= i < |call.claims| :: call.claims[i].status else {}
  }

  ghost function UpdatedBy(call: Call): set<PreparedDevice>
  {
    if call.Late? then {call.device} else {}
  }

  /** One call. */
  method Handle(driver: Driver, call: Call) returns (current: Driver, reply: Reply, ghost h: History)
    requires driver.podManager.store.checkpoint.Some?
    modifies driver.manager.host, driver.manager.cdi, driver.manager.infos, driver.podManager`pods,
      driver.podManager.store, driver.api
    modifies StatusesOf(call), UpdatedBy(call)
    ensures current.manager == driver.manager && current.api == driver.api
    ensures current.podManager.store == driver.podManager.store
    ensures current.podManager == driver.podManager || fresh(current.podManager)
    ensures Answered(driver.manager, old(driver.Now()), current.Now(), call, reply, h)
  {
    current, h := driver, History([], [], [], [], [], [], [], []);
    match call {
      case Prepare(claims) =>
        var results, error;
        results, error, h := driver.PrepareResourceClaims(claims);
        reply := PrepareReply(results, error);
      case Unprepare(claimUIDs) =>
        var answers;
        ghost var undone, oks;
        answers, undone, oks := driver.UnprepareResourceClaims(claimUIDs);
        h := History([], [], [], [], [], [], undone, oks);
        reply := UnprepareReply(answers);
      case Late(device, data, refused) =>
        var ok := driver.podManager.UpdatePreparedDeviceNetworkData(device, data, refused);
        reply := LateReply(ok);
      case Crash =>
        current := Restart(driver);
        reply := Up;
    }
  }

  /** A crash and restart: the environment is the same, the records come from the
      checkpoint. */
  method Restart(driver: Driver) returns (current: Driver)
    requires driver.podManager.store.checkpoint.Some?
    modifies driver.podManager.store
    ensures fresh(current) && fresh(current.podManager)
    ensures current.manager == driver.manager && current.api == driver.api
    ensures current.podManager.store == driver.podManager.store
    ensures Restarts(old(driver.Now()), current.Now())
  {
    var podManager := NewPodManager(driver.podManager.store, true, true, false);
    current := new Driver(driver.manager, podManager.value, driver.api);
    assert Deep(podManager.value.pods) == driver.podManager.store.checkpoint.value;
  }

  lemma RunNext(manager: ClaimManager, states: seq<View>, calls: seq<Call>, replies: seq<Reply>,
                histories: seq<History>, now: View, call: Call, reply: Reply, h: History)
    requires IsRun(manager, states, calls, replies, histories) && Tells(now)
    requires Answered(manager, states[|calls|], now, call, reply, h)
    ensures IsRun(manager, states + [now], calls + [call], replies + [reply], histories + [h])
  {
    var states', calls', replies', histories' := states + [now], calls + [call], replies + [reply], histories + [h];
    forall k | 0 <= k < |states'| ensures TellsAt(states', k) {
      if k < |states| { assert TellsAt(states, k) && states'[k] == states[k]; }
    }
    forall k | 0 <= k < |calls'| ensures AnsweredAt(manager, states', calls', replies', histories', k) {
      if k < |calls| {
        assert AnsweredAt(manager, states, calls, replies, histories, k);
        assert states'[k] == states[k] && states'[k + 1] == states[k + 1];
      }
    }
  }

  /** One call, after which there still is a checkpoint. */
  method HandleNext(driver: Driver, call: Call) returns (current: Driver, reply: Reply, ghost h: History)
    requires driver.podManager.store.checkpoint.Some?
    modifies driver.manager.host, driver.manager.cdi, driver.manager.infos, driver.podManager`pods,
      driver.podManager.store, driver.api
    modifies StatusesOf(call), UpdatedBy(call)
    ensures current.manager == driver.manager && current.api == driver.api
    ensures current.podManager.store == driver.podManager.store
    ensures current.podManager == driver.podManager || fresh(current.podManager)
    ensures current.podManager.store.checkpoint.Some? && Tells(current.Now())
    ensures Answered(driver.manager, old(driver.Now()), current.Now(), call, reply, h)
  {
    ghost var before := driver.Now();
    current, reply, h := Handle(driver, call);
    current.NowTells();
    CheckpointStays(driver.manager, before, current.Now(), call, reply, h);
  }

  lemma RunUpTo(manager: ClaimManager, states: seq<View>, calls: seq<Call>, n: nat, replies: seq<Reply>,
                histories: seq<History>, now: View, reply: Reply, h: History)
    requires n < |calls| && IsRun(manager, states, calls[..n], replies, histories) && Tells(now)
    requires Answered(manager, states[n], now, calls[n], reply, h)
    ensures IsRun(manager, states + [now], calls[..n + 1], replies + [reply], histories + [h])
  {
    RunNext(manager, states, calls[..n], replies, histories, now, calls[n], reply, h);
    assert calls[..n + 1] == calls[..n] + [calls[n]];
  }

  lemma RunStart(manager: ClaimManager, v: View)
    requires Tells(v)
    ensures IsRun(manager, [v], [], [], [])
  {
  }

  /** Every sequence of calls, late updates and crashes is a run. */
  method Serve(driver: Driver, calls: seq<Call>)
    returns (current: Driver, replies: seq<Reply>, ghost states: seq<View>, ghost histories: seq<History>)
    requires driver.podManager.store.checkpoint.Some?
    modifies driver.manager.host, driver.manager.cdi, driver.manager.infos, driver.podManager`pods,
      driver.podManager.store, driver.api
    modifies set k, o | 0 <= k < |calls| && o in StatusesOf(calls[k]) :: o
    modifies set k, o | 0 <= k < |calls| && o in UpdatedBy(calls[k]) :: o
    ensures IsRun(driver.manager, states, calls, replies, histories)
    ensures states[0] == old(driver.Now()) && states[|calls|] == current.Now()
  {
    driver.NowTells();
    current, replies, states, histories := driver, [], [driver.Now()], [];
    RunStart(driver.manager, driver.Now());
    for n := 0 to |calls|
      invariant current.manager == driver.manager && current.api == driver.api
      invariant current.podManager.store == driver.podManager.store
      invariant current.podManager == driver.podManager || fresh(current.podManager)
      invariant current.podManager.store.checkpoint.Some?
      invariant IsRun(driver.manager, states, calls[..n], replies, histories)
      invariant states[0] == old(driver.Now()) && states[n] == current.Now()
    {
      var reply;
      ghost var h;
      current, reply, h := HandleNext(current, calls[n]);
      RunUpTo(driver.manager, states, calls, n, replies, histories, current.Now(), reply, h);
      replies, states, histories := replies + [reply], states + [current.Now()], histories + [h];
    }
    assert calls[..|calls|] == calls;
  }

  // ---- Where it falls short -----------------------------------------------------------------

  /** Two claims of one pod: once the first is unprepared, the unprepare of the second
      reports success and does nothing; its spec and its drivers are still there. In
      a reliable environment this happens to every such pod whose first claim can be
      restored at all. */
  method UnprepareTwoOfOnePod(driver: Driver, p: string, c: string, e: string) returns (first: bool, second: bool)
    requires Consistent(driver.Now(), driver.manager.host.traits) && Entry(driver.podManager.pods, p, c)
    requires Entry(driver.podManager.pods, p, e) && c != e
    modifies driver.manager.host, driver.manager.cdi, driver.manager.infos, driver.podManager`pods,
      driver.podManager.store
    ensures driver.manager.reliable ==> (first <==> Restorable(old(driver.podManager.pods)[p][c]))
    ensures first ==> second && Orphan(driver.Now(), e)
    ensures first ==> AllCarry(driver.manager.host.slots, driver.manager.host.traits, old(driver.podManager.pods)[p][e])
  {
    ghost var before := driver.Now();
    TrackedIsEntry(before.pods, c);
    OnePod(before.pods, p, c);
    first := driver.UnprepareResourceClaim(c);
    assert Removed(driver.manager, before, driver.Now(), p, c, first);
    ghost var between := driver.Now();
    if first { RemovalForgets(driver.manager, before, between, p, c, e); }
    second := driver.UnprepareResourceClaim(e);
  }

  /** A claim whose record cannot be written is unprepared, but the record stays in
      memory, so the next call answers that the claim is ready, however far the
      unprepare got: each device is bound still, put back, or broken off in between,
      and the spec is as it was written, or gone. If it was unprepared completely, it
      is ready without its spec, and with its devices put back. In a reliable
      environment this happens to every claim that can be prepared and undone. */
  method RetryUnrecorded(driver: Driver, claim: ResourceClaim, answers: seq<Answer>)
    returns (first: PrepareResult, second: PrepareResult)
    requires |answers| == BACKOFF_STEPS
    requires Settled(claim) && !Entry(driver.podManager.pods, claim.reservedFor[0], claim.uid)
    requires DistinctResults(driver.manager.table.allocatable, claim.allocation.value.results)
    modifies driver.manager.host, driver.manager.cdi, driver.manager.infos, claim.status
    modifies driver.podManager`pods, driver.podManager.store, driver.api
    ensures driver.manager.reliable ==>
      (first == NotRecorded(true) <==>
        driver.manager.Preparable(claim) && Reversible(old(driver.manager.host.slots), driver.manager.WantsFor(claim)))
    ensures first.NotRecorded? ==>
      && second.Ready? && Entry(driver.podManager.pods, claim.reservedFor[0], claim.uid)
      && AllHeld(old(driver.manager.host.slots), driver.manager.host.slots, driver.manager.host.traits,
                 driver.podManager.pods[claim.reservedFor[0]][claim.uid])
      && SpecLeft(driver.manager, old(driver.manager.cdi.specs), driver.manager.cdi.specs, claim,
                  driver.podManager.pods[claim.reservedFor[0]][claim.uid])
    ensures first == NotRecorded(true) ==>
      && !Consistent(driver.Now(), driver.manager.host.traits) && ClaimSpec(claim.uid) !in driver.manager.cdi.specs
      && AllBackAs(old(driver.manager.host.slots), driver.manager.host.slots, driver.manager.host.traits,
                    driver.podManager.pods[claim.reservedFor[0]][claim.uid])
  {
    ghost var before := driver.Now();
    var next;
    first, next := driver.PrepareResourceClaim(0, claim, true, answers);
    ghost var between := driver.Now();
    if first.NotRecorded? { UnrecordedLeaves(driver.manager, before, between, claim, 0, next, first); }
    second, next := driver.PrepareResourceClaim(next, claim, false, answers);
    assert first.NotRecorded? ==> driver.Now() == between;
  }

  /** The claim's spec is as it was written, or gone. */
  ghost predicate SpecLeft(manager: ClaimManager, before: map<SpecName, seq<string>>, now: map<SpecName, seq<string>>,
                           claim: ResourceClaim, devices: seq<PreparedDevice>)
    requires Settled(claim)
  {
    SpecsElsewhere(before[ClaimSpec(claim.uid) := manager.SpecOf(devices)], now,
                   {ClaimSpec(claim.uid), PodSpec(claim.reservedFor[0])})
  }

  /** What a claim leaves that was prepared and could not be recorded. */
  lemma UnrecordedLeaves(manager: ClaimManager, before: View, now: View, claim: ResourceClaim, from: nat, next: nat,
                         r: PrepareResult)
    requires Prepares(manager, before, now, claim, from, next, r) && r.NotRecorded? && Settled(claim)
    requires DistinctResults(manager.table.allocatable, claim.allocation.value.results)
    ensures Entry(now.pods, claim.reservedFor[0], claim.uid)
    ensures AllHeld(before.slots, now.slots, manager.host.traits, now.pods[claim.reservedFor[0]][claim.uid])
    ensures SpecLeft(manager, before.specs, now.specs, claim, now.pods[claim.reservedFor[0]][claim.uid])
    ensures r.cleaned ==>
      && !Consistent(now, manager.host.traits) && ClaimSpec(claim.uid) !in now.specs
      && AllBackAs(before.slots, now.slots, manager.host.traits, now.pods[claim.reservedFor[0]][claim.uid])
  {
    if r.cleaned { UnrecordedIsOutOfStep(manager, before, now, claim, from, next); }
  }

  /** Two claims of one pod that come in two calls, the second of which meets the
      first claim recorded: the numbering starts afresh and is not advanced for the
      recorded claim. They clash exactly when each has a device whose config names
      no interface, or a config of one names a numbered interface of the other, or
      both configs give the same name. In a reliable environment this happens to all
      claims that can be prepared. */
  method PrepareInTwoCalls(driver: Driver, a: ResourceClaim, b: ResourceClaim, answers: seq<Answer>)
    returns (first: PrepareResult, again: PrepareResult, second: PrepareResult)
    requires |answers| == BACKOFF_STEPS
    requires Settled(a) && Settled(b) && a.uid != b.uid
    requires !Entry(driver.podManager.pods, a.reservedFor[0], a.uid)
    requires !Entry(driver.podManager.pods, b.reservedFor[0], b.uid)
    modifies driver.manager.host, driver.manager.cdi, driver.manager.infos, a.status, b.status
    modifies driver.podManager`pods, driver.podManager.store, driver.api
    ensures driver.manager.reliable ==>
      (first.Ready? <==> driver.manager.Preparable(a)) && (second.Ready? <==> driver.manager.Preparable(b))
    ensures first.Ready? ==> again.Ready? && again.devices == first.devices
    ensures first.Ready? && second.Ready? && !driver.manager.multus ==>
      var (x, y, prefix) := (driver.manager.ConfiguredFor(a), driver.manager.ConfiguredFor(b),
                             driver.manager.interfacePrefix);
      NamesClash(DevicesAt(driver.podManager.pods, a), DevicesAt(driver.podManager.pods, b)) <==>
        ("" in x && "" in y) || ConfigsClash(x, 0, y, 0, prefix)
  {
    ghost var reached;
    first, again, reached := PrepareTwice(driver, a, answers);
    ghost var met := driver.Now();
    var next;
    second, next := driver.PrepareResourceClaim(0, b, false, answers);
    if driver.manager.reliable { ReadyExactly(driver.manager, met, driver.Now(), b, 0, next, second); }
    if first.Ready? && second.Ready? && !driver.manager.multus {
      NewlyNumbered(driver.manager, met, driver.Now(), b, 0, next, second);
      OthersDevicesStay(driver.manager, met, driver.Now(), b, 0, next, second, a);
      FreshNamesClash(driver.manager, DevicesAt(driver.podManager.pods, a), driver.manager.ConfiguredFor(a), reached,
        DevicesAt(driver.podManager.pods, b), driver.manager.ConfiguredFor(b), next);
    }
  }

  /** A new claim in one call, and again in the next, where it is found recorded. */
  method PrepareTwice(driver: Driver, claim: ResourceClaim, answers: seq<Answer>)
    returns (first: PrepareResult, again: PrepareResult, ghost reached: nat)
    requires |answers| == BACKOFF_STEPS && Settled(claim)
    requires !Entry(driver.podManager.pods, claim.reservedFor[0], claim.uid)
    modifies driver.manager.host, driver.manager.cdi, driver.manager.infos, claim.status
    modifies driver.podManager`pods, driver.podManager.store, driver.api
    ensures driver.manager.reliable ==> (first.Ready? <==> driver.manager.Preparable(claim))
    ensures first.Ready? ==> again.Ready? && again.devices == first.devices
    ensures first.Ready? ==>
      driver.manager.Numbered(DevicesAt(driver.podManager.pods, claim), driver.manager.ConfiguredFor(claim), 0, reached)
    ensures SameElse(old(driver.podManager.pods), driver.podManager.pods, claim.uid)
  {
    ghost var start := driver.podManager.pods;
    first, reached := PrepareFirst(driver, claim, answers);
    ghost var between := driver.Now();
    var next;
    again, next := driver.PrepareResourceClaim(0, claim, false, answers);
    if first.Ready? { AnsweredFromRecord(driver.manager, between, driver.Now(), claim, 0, next, again, first.devices); }
    OthersStayOut(driver.manager, between, driver.Now(), claim, 0, next, again);
    SameElseTwice(start, between.pods, driver.podManager.pods, claim.uid);
  }

  method PrepareFirst(driver: Driver, claim: ResourceClaim, answers: seq<Answer>)
    returns (r: PrepareResult, ghost reached: nat)
    requires |answers| == BACKOFF_STEPS && Settled(claim)
    requires !Entry(driver.podManager.pods, claim.reservedFor[0], claim.uid)
    modifies driver.manager.host, driver.manager.cdi, driver.manager.infos, claim.status
    modifies driver.podManager`pods, driver.podManager.store, driver.api
    ensures driver.manager.reliable ==> (r.Ready? <==> driver.manager.Preparable(claim))
    ensures r.Ready? ==>
      Entry(driver.podManager.pods, claim.reservedFor[0], claim.uid) && IsAnswer(driver.Now(), claim, r.devices)
    ensures r.Ready? ==>
      driver.manager.Numbered(DevicesAt(driver.podManager.pods, claim), driver.manager.ConfiguredFor(claim), 0, reached)
    ensures SameElse(old(driver.podManager.pods), driver.podManager.pods, claim.uid)
  {
    ghost var start := driver.Now();
    var next;
    r, next := driver.PrepareResourceClaim(0, claim, false, answers);
    reached := next;
    if driver.manager.reliable { ReadyExactly(driver.manager, start, driver.Now(), claim, 0, reached, r); }
    if r.Ready? {
      NewlyNumbered(driver.manager, start, driver.Now(), claim, 0, reached, r);
      ReadyShows(driver.manager, start, driver.Now(), claim, 0, reached, r);
    }
    OthersStayOut(driver.manager, start, driver.Now(), claim, 0, reached, r);
  }

  lemma SameElseTwice(before: Pods, between: Pods, now: Pods, uid: string)
    requires SameElse(before, between, uid) && SameElse(between, now, uid)
    ensures SameElse(before, now, uid)
  {
  }

  ghost predicate SameElse(before: Pods, now: Pods, uid: string)
  {
    forall p, c :: c != uid ==> (Entry(now, p, c) <==> Entry(before, p, c))
  }

  /** Preparing a claim records no other. */
  lemma OthersStayOut(manager: ClaimManager, before: View, now: View, claim: ResourceClaim, from: nat, next: nat,
                      r: PrepareResult)
    requires Prepares(manager, before, now, claim, from, next, r) && Settled(claim)
    ensures SameElse(before.pods, now.pods, claim.uid)
  {
    PreparesGrows(manager, before, now, claim, from, next, r);
    if now.pods != before.pods {
      StoredEntries(before.pods, claim.reservedFor[0], claim.uid, now.pods[claim.reservedFor[0]][claim.uid]);
    }
  }

  /** A claim that is ready is recorded with the devices of the answer. */
  lemma ReadyShows(manager: ClaimManager, before: View, now: View, claim: ResourceClaim, from: nat, next: nat,
                   r: PrepareResult)
    requires Prepares(manager, before, now, claim, from, next, r) && r.Ready? && Settled(claim)
    ensures Entry(now.pods, claim.reservedFor[0], claim.uid) && IsAnswer(now, claim, r.devices)
  {
  }

  ghost predicate IsAnswer(v: View, claim: ResourceClaim, devices: seq<KubeletDevice>)
    requires Settled(claim)
  {
    var p, c := claim.reservedFor[0], claim.uid;
    p in v.memory && c in v.memory[p] && Shows(devices, v.memory[p][c])
  }

  /** And is answered again with the same devices. */
  lemma AnsweredFromRecord(manager: ClaimManager, before: View, now: View, claim: ResourceClaim, from: nat, next: nat,
                           r: PrepareResult, devices: seq<KubeletDevice>)
    requires Prepares(manager, before, now, claim, from, next, r) && Settled(claim)
    requires Entry(before.pods, claim.reservedFor[0], claim.uid) && IsAnswer(before, claim, devices)
    ensures r.Ready? && r.devices == devices && now == before
  {
    assert IsAnswer(before, claim, r.devices);
  }

  lemma OthersDevicesStay(manager: ClaimManager, before: View, now: View, claim: ResourceClaim, from: nat, next: nat,
                          r: PrepareResult, other: ResourceClaim)
    requires Prepares(manager, before, now, claim, from, next, r) && Settled(claim) && Settled(other)
    requires other.uid != claim.uid
    ensures DevicesAt(now.pods, other) == DevicesAt(before.pods, other)
  {
    PreparesGrows(manager, before, now, claim, from, next, r);
    if now.pods != before.pods {
      StoredKeepsOthers(before.pods, claim, now.pods[claim.reservedFor[0]][claim.uid], other);
    }
  }

  lemma StoredKeepsOthers(pods: Pods, claim: ResourceClaim, devices: seq<PreparedDevice>, other: ResourceClaim)
    requires Settled(claim) && Settled(other) && other.uid != claim.uid
    ensures DevicesAt(Stored(pods, claim.reservedFor[0], claim.uid, devices), other) == DevicesAt(pods, other)
  {
    StoredEntries(pods, claim.reservedFor[0], claim.uid, devices);
  }

  /** Two claims whose numbers both start at 0. */
  lemma FreshNamesClash(manager: ClaimManager, a: seq<PreparedDevice>, x: seq<string>, reached: nat,
                        b: seq<PreparedDevice>, y: seq<string>, next: nat)
    requires !manager.multus && manager.Numbered(a, x, 0, reached) && manager.Numbered(b, y, 0, next)
    ensures NamesClash(a, b) <==> ("" in x && "" in y) || ConfigsClash(x, 0, y, 0, manager.interfacePrefix)
  {
    NumberedNamesClash(manager, a, x, 0, reached, b, y, 0, next);
    ClashExactly(x, 0, y, 0, manager.interfacePrefix);
    NumberedClashExactly(x, 0, y, 0, manager.interfacePrefix);
  }
}
