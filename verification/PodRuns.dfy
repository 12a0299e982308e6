/** The store of prepared devices over whole runs: operations with failing or
    succeeding checkpoint writes, late updates through aliased pointers, crashes
    and restarts. */
module PodRuns {
  import opened Options
  import opened PodManager

  // ---- Runs of operations -------------------------------------------------------------

  /** Deep memory and the checkpoint file. */
  datatype Disk = Disk(memory: Snapshot, checkpoint: Snapshot)

  /** An operation whose checkpoint write the disk takes or refuses, or a crash
      followed by a restart. */
  datatype Event = Done(op: Operation, refused: bool) | Restarted

  predicate Writes(s: Snapshot, op: Operation)
  {
    op.DeleteClaimOp? ==> op.podUID in s && op.claimUID in s[op.podUID]
  }

  ghost function After(d: Disk, e: Event): Disk
  {
    match e
    case Restarted => Disk(d.checkpoint, d.checkpoint)
    case Done(op, refused) =>
      var memory := Apply(d.memory, op);
      Disk(memory, if Writes(d.memory, op) && !refused then memory else d.checkpoint)
  }

  ghost function Run(d: Disk, events: seq<Event>): Disk
  {
    if events == [] then d else After(Run(d, events[..|events| - 1]), events[|events| - 1])
  }

  /** How many events there are up to the last one that left memory and disk in
      step: a write that was taken, or a restart. */
  ghost function LastSync(d: Disk, events: seq<Event>): (n: nat)
    ensures n <= |events|
  {
    if events == [] then 0
    else
      var before := events[..|events| - 1];
      var e := events[|events| - 1];
      if e.Restarted? || (!e.refused && Writes(Run(d, before).memory, e.op)) then |events| else LastSync(d, before)
  }

  /** Crash refinement: over any interleaving of operations, refused writes and
      restarts, the checkpoint is the deep value memory had at the last
      successful sync, and that is what a restart brings back. */
  lemma {:induction false} CheckpointIsLastSync(d: Disk, events: seq<Event>)
    requires d.memory == d.checkpoint
    ensures Run(d, events).checkpoint == Run(d, events[..LastSync(d, events)]).memory
    ensures Run(d, events + [Restarted]).memory == Run(d, events[..LastSync(d, events)]).memory
  {
    assert (events + [Restarted])[..|events|] == events;
    if events != [] {
      var before := events[..|events| - 1];
      CheckpointIsLastSync(d, before);
      var n := LastSync(d, events);
      if n < |events| {
        assert events[..n] == before[..n];
      } else {
        assert events[..n] == events;
      }
    } else {
      assert events[..LastSync(d, events)] == events;
    }
  }

  predicate Recorded(s: Snapshot, claimUID: string)
  {
    exists p :: p in s && claimUID in s[p]
  }

  /** No resurrection: once a claim is in neither memory nor checkpoint, no run
      of operations that does not store it again brings it back, whatever network
      data arrives late for its devices and however often the driver restarts. */
  lemma {:induction false} DeletedStaysDeleted(d: Disk, events: seq<Event>, claimUID: string)
    requires !Recorded(d.memory, claimUID) && !Recorded(d.checkpoint, claimUID)
    requires forall e :: e in events && e.Done? && e.op.SetOp? ==> e.op.claimUID != claimUID
    ensures !Recorded(Run(d, events).memory, claimUID) && !Recorded(Run(d, events).checkpoint, claimUID)
  {
    if events != [] {
      var last := events[|events| - 1];
      assert events == events[..|events| - 1] + [last];
      DeletedStaysDeleted(d, events[..|events| - 1], claimUID);
      var before := Run(d, events[..|events| - 1]);
      if last.Done? { ApplyAddsNothing(before.memory, last.op, claimUID); }
    }
  }

  lemma ApplyAddsNothing(s: Snapshot, op: Operation, claimUID: string)
    requires !Recorded(s, claimUID) && (op.SetOp? ==> op.claimUID != claimUID)
    ensures !Recorded(Apply(s, op), claimUID)
  {
    var after := Apply(s, op);
    forall p | p in after ensures claimUID !in after[p] {
      if p in s { assert claimUID !in s[p]; }
    }
  }

  /** Deleting a claim forgets every other claim of its pod: the others are all
      still there exactly when the pod held no other claim. */
  lemma DeleteClaimKeepsOthers(s: Snapshot, claimUID: string, podUID: string)
    requires podUID in s && claimUID in s[podUID]
    requires forall p, q, c :: p in s && q in s && c in s[p] && c in s[q] ==> p == q
    ensures var after := Apply(s, DeleteClaimOp(claimUID, podUID));
      && !Recorded(after, claimUID)
      && ((forall c :: c != claimUID ==> (Recorded(after, c) <==> Recorded(s, c))) <==> s[podUID].Keys == {claimUID})
  {
    var after := Apply(s, DeleteClaimOp(claimUID, podUID));
    if s[podUID].Keys != {claimUID} {
      var c :| c in s[podUID] && c != claimUID;
      assert Recorded(s, c) && !Recorded(after, c);
    } else {
      forall c | c != claimUID && Recorded(s, c) ensures Recorded(after, c) {
        var p :| p in s && c in s[p];
        assert p != podUID && p in after;
      }
    }
  }

  /** The event leaves memory and disk in step: a write that was taken, or a
      restart. */
  ghost predicate Syncs(d: Disk, e: Event)
  {
    e.Restarted? || (!e.refused && Writes(d.memory, e.op))
  }

  /** A restart comes before anything is written. */
  ghost predicate RestartsUnsynced(d: Disk, events: seq<Event>)
    decreases |events|
  {
    events != [] && (events[0].Restarted? || (!Syncs(d, events[0]) && RestartsUnsynced(After(d, events[0]),
        events[1..])))
  }

  ghost predicate BackAt(d: Disk, events: seq<Event>, claimUID: string, n: nat)
    requires n <= |events|
  {
    Recorded(Run(d, events[..n]).memory, claimUID)
  }

  predicate NotSetAgain(events: seq<Event>, claimUID: string)
  {
    forall e :: e in events && e.Done? && e.op.SetOp? ==> e.op.claimUID != claimUID
  }

  lemma {:induction false} RunFromFirst(d: Disk, e: Event, rest: seq<Event>)
    ensures Run(d, [e] + rest) == Run(After(d, e), rest)
  {
    if rest == [] {
      assert [e] + rest == [e] && [e][..0] == [];
    } else {
      RunFromFirst(d, e, rest[..|rest| - 1]);
      assert ([e] + rest)[..|rest|] == [e] + rest[..|rest| - 1];
    }
  }

  lemma BackAtLater(d: Disk, events: seq<Event>, claimUID: string, n: nat)
    requires 0 < n <= |events|
    ensures BackAt(d, events, claimUID, n) <==> BackAt(After(d, events[0]), events[1..], claimUID, n - 1)
  {
    RunFromFirst(d, events[0], events[1..][..n - 1]);
    assert events[..n] == [events[0]] + events[1..][..n - 1];
  }

  lemma NeverBack(d: Disk, events: seq<Event>, claimUID: string)
    requires !Recorded(d.memory, claimUID) && !Recorded(d.checkpoint, claimUID) && NotSetAgain(events, claimUID)
    ensures forall n :: 0 <= n <= |events| ==> !BackAt(d, events, claimUID, n)
  {
    forall n | 0 <= n <= |events| ensures !BackAt(d, events, claimUID, n) {
      DeletedStaysDeleted(d, events[..n], claimUID);
    }
  }

  /** Exactly when a claim that has left memory comes back, in a run that does not
      store it again: when the checkpoint still has it, because its deletion could
      not be written, and a restart comes before anything else is. */
  lemma {:induction false} DeletedReturnsExactly(d: Disk, events: seq<Event>, claimUID: string)
    requires !Recorded(d.memory, claimUID) && NotSetAgain(events, claimUID)
    ensures (exists n :: 0 <= n <= |events| && BackAt(d, events, claimUID, n)) <==>
      Recorded(d.checkpoint, claimUID) && RestartsUnsynced(d, events)
    decreases |events|
  {
    assert !BackAt(d, events, claimUID, 0);
    if !Recorded(d.checkpoint, claimUID) {
      NeverBack(d, events, claimUID);
    } else if events != [] {
      var e, rest, next := events[0], events[1..], After(d, events[0]);
      assert e in events;
      forall n | 1 <= n <= |events| ensures BackAt(d, events, claimUID, n) <==> BackAt(next, rest, claimUID, n - 1) {
        BackAtLater(d, events, claimUID, n);
      }
      if e.Restarted? {
        assert BackAt(next, rest, claimUID, 0) && BackAt(d, events, claimUID, 1);
      } else {
        ApplyAddsNothing(d.memory, e.op, claimUID);
        if Syncs(d, e) {
          NeverBack(next, rest, claimUID);
        } else {
          DeletedReturnsExactly(next, rest, claimUID);
          if m :| 0 <= m <= |rest| && BackAt(next, rest, claimUID, m) { assert BackAt(d, events, claimUID, m + 1); }
        }
      }
    }
  }

  // ---- Runs over the heap -------------------------------------------------------------

  /** A call of the manager, or a crash and restart. The objects of a Set and of an
      update may be any, tracked or not, in any number of places. */
  datatype Command =
    | Set(podUID: string, claimUID: string, devices: seq<PreparedDevice>, refused: bool)
    | DeletePod(podUID: string, refused: bool)
    | DeleteClaim(claimUID: string, refused: bool)
    | Update(device: PreparedDevice, data: Option<NetworkData>, refused: bool)
    | Restart

  /** What the objects of an update are at. */
  ghost predicate EventOf(pods: Pods, command: Command, records: seq<Record>, e: Event)
  {
    match command
    case Set(p, c, _, refused) => e == Done(SetOp(p, c, records), refused)
    case DeletePod(p, refused) => e == Done(DeletePodOp(p), refused)
    case DeleteClaim(c, refused) =>
      e.Done? && e.refused == refused && e.op.DeleteClaimOp? && e.op.claimUID == c &&
      (Tracked(pods, c) ==> e.op.podUID in pods && c in pods[e.op.podUID])
    case Update(device, data, refused) => e == Done(NetworkDataOp(Positions(pods, device), data), refused)
    case Restart => e == Restarted
  }

  ghost function DiskOf(manager: PodManager): Disk
    reads manager, manager.store, Objects(manager.pods)
  {
    Disk(Deep(manager.pods), if manager.store.checkpoint.Some? then manager.store.checkpoint.value else map[])
  }

  ghost function Touched(command: Command): set<PreparedDevice>
  {
    if command.Update? then {command.device} else {}
  }

  /** One command is one event of a run. */
  method Execute(manager: PodManager, command: Command) returns (current: PodManager, ghost e: Event)
    requires manager.store.checkpoint.Some?
    modifies manager`pods, manager.store, Touched(command)
    ensures current.store == manager.store && current.store.checkpoint.Some?
    ensures current == manager || fresh(current)
    ensures EventOf(old(manager.pods), command, if command.Set? then Records(command.devices) else [], e)
    ensures DiskOf(current) == After(old(DiskOf(manager)), e)
  {
    ghost var pods, memory := manager.pods, Deep(manager.pods);
    current := manager;
    match command {
      case Set(podUID, claimUID, devices, refused) =>
        var ok := manager.Set(podUID, claimUID, devices, refused);
        DeepUnchanged(pods);
        DeepStored(pods, podUID, claimUID, devices);
        e := Done(SetOp(podUID, claimUID, Records(devices)), refused);
      case DeletePod(podUID, refused) =>
        var ok := manager.DeletePod(podUID, refused);
        DeepUnchanged(pods);
        DeepWithout(pods, podUID);
        e := Done(DeletePodOp(podUID), refused);
      case DeleteClaim(claimUID, refused) =>
        var ok := manager.DeleteClaim(claimUID, refused);
        DeepUnchanged(pods);
        ghost var podUID := "";
        if Tracked(pods, claimUID) {
          podUID :| podUID in pods && claimUID in pods[podUID] && manager.pods == pods - {podUID};
          DeepWithout(pods, podUID);
        }
        e := Done(DeleteClaimOp(claimUID, podUID), refused);
      case Update(device, data, refused) =>
        var ok := manager.UpdatePreparedDeviceNetworkData(device, data, refused);
        e := Done(NetworkDataOp(Positions(pods, device), data), refused);
      case Restart =>
        var restarted := NewPodManager(manager.store, true, true, false);
        current := restarted.value;
        e := Restarted;
    }
  }

  /** Every sequence of calls and restarts, whatever the objects and whatever
      writes are refused, does to memory and disk what its run of events says. */
  method ExecuteAll(manager: PodManager, commands: seq<Command>) returns (current: PodManager, ghost events: seq<Event>)
    requires manager.store.checkpoint.Some?
    modifies manager`pods, manager.store, set c | c in commands && c.Update? :: c.device
    ensures |events| == |commands| && current.store == manager.store
    ensures DiskOf(current) == Run(old(DiskOf(manager)), events)
  {
    current, events := manager, [];
    for n := 0 to |commands|
      invariant |events| == n && current.store == manager.store && current.store.checkpoint.Some?
      invariant current == manager || fresh(current)
      invariant DiskOf(current) == Run(old(DiskOf(manager)), events)
    {
      ghost var e;
      current, e := Execute(current, commands[n]);
      assert (events + [e])[..n] == events;
      events := events + [e];
    }
  }

  /** A late update: the claim is deleted while a pointer to one of its devices is
      still queued, and the network data arrives afterwards. Memory does not get
      the claim back; the checkpoint has it no more if either write was taken, and
      is what it was if neither was. */
  method DeleteThenLateUpdate(manager: PodManager, podUID: string, claimUID: string, device: PreparedDevice,
                              data: Option<NetworkData>, refused: bool, refused': bool)
    requires podUID in manager.pods && claimUID in manager.pods[podUID] && device in manager.pods[podUID][claimUID]
    requires forall p :: p in manager.pods && p != podUID ==>
      claimUID !in manager.pods[p] && device !in ObjectsOf(manager.pods[p])
    modifies manager, manager.store, device
    ensures manager.pods == old(manager.pods) - {podUID} && !Tracked(manager.pods, claimUID)
    ensures Deep(manager.pods) == old(Deep(manager.pods)) - {podUID}
    ensures manager.store.checkpoint == if refused && refused' then old(manager.store.checkpoint)
                                        else Some(Deep(manager.pods))
  {
    ghost var pods := manager.pods;
    var deleted := manager.DeleteClaim(claimUID, refused);
    assert manager.pods == pods - {podUID};
    DeepUnchanged(pods);
    DeepWithout(pods, podUID);
    LateIsNothing(manager, device, data, refused');
  }

  /** An update of a device that is not tracked changes no record. */
  method LateIsNothing(manager: PodManager, device: PreparedDevice, data: Option<NetworkData>, refused: bool)
    requires device !in Objects(manager.pods)
    modifies manager.store, device
    ensures Deep(manager.pods) == old(Deep(manager.pods))
    ensures manager.store.checkpoint == if refused then old(manager.store.checkpoint) else Some(Deep(manager.pods))
  {
    NowhereNothing(manager.pods, device, data, Deep(manager.pods));
    var updated := manager.UpdatePreparedDeviceNetworkData(device, data, refused);
  }
}
