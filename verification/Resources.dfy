/** Resource claims, their status, and the API server that keeps it. */
module Resources {
  import opened Options
  import opened PodManager
  import opened VfConfigs

  /** The number of attempts of the retry loop. */
  const BACKOFF_STEPS := 5

  datatype ClaimKey = ClaimKey(namespace: string, name: string)

  datatype StatusKey = StatusKey(driver: string, pool: string, device: string)

  /** One entry of a claim's status. `data` stands for the JSON of config and CNI
      result. */
  datatype DeviceStatus = DeviceStatus(key: StatusKey, networkData: Option<NetworkData>, data: string)

  /** The device list in a claim's status, as one in-memory copy of the claim has it. */
  class ClaimStatus {
    var devices: seq<DeviceStatus>

    constructor (devices: seq<DeviceStatus>)
      ensures this.devices == devices
    {
      this.devices := devices;
    }
  }

  /** One allocated device of a claim. */
  datatype AllocationResult = AllocationResult(request: string, driver: string, pool: string, device: string)

  datatype Allocation = Allocation(results: seq<AllocationResult>, configs: seq<DeviceConfig>)

  /** A claim; `reservedFor` are the UIDs of the pods it is reserved for. */
  datatype ResourceClaim = ResourceClaim(
    uid: string, namespace: string, name: string, reservedFor: seq<string>, allocation: Option<Allocation>,
      status: ClaimStatus)

  /** The API server's answer to a status update. After a conflict another writer
      has changed the claim; `theirs` is the device list it wrote, if it wrote one,
      and `fetched` says whether the fresh claim could be read. */
  datatype Answer = Accepted | Conflict(theirs: Option<seq<DeviceStatus>>, fetched: bool) | Refused

  /** What the API server holds for a claim after some attempts to write `devices`. */
  function Written(status: Option<seq<DeviceStatus>>, devices: seq<DeviceStatus>,
                   answers: seq<Answer>): Option<seq<DeviceStatus>>
    decreases |answers|
  {
    if answers == [] then status
    else
      match answers[0]
      case Accepted => Some(devices)
      case Conflict(theirs, _) => Written(if theirs.Some? then theirs else status, devices, answers[1..])
      case Refused => Written(status, devices, answers[1..])
  }

  /** Once an attempt is accepted, the claim has the original list, whatever other
      writers wrote in between. */
  lemma {:induction false} AcceptedWins(status: Option<seq<DeviceStatus>>, devices: seq<DeviceStatus>,
                                        answers: seq<Answer>)
    requires Accepted in answers
    ensures Written(status, devices, answers) == Some(devices)
    decreases |answers|
  {
    if !answers[0].Accepted? {
      assert Accepted in answers[1..];
      AcceptedWins(if answers[0].Conflict? && answers[0].theirs.Some? then answers[0].theirs
                   else status, devices, answers[1..]);
    }
  }

  /** What the last other writer wrote is lost exactly when a later attempt is
      accepted, unless it wrote the same list. */
  lemma TheirsIsLost(status: Option<seq<DeviceStatus>>, devices: seq<DeviceStatus>, theirs: seq<DeviceStatus>,
                     fetched: bool, rest: seq<Answer>)
    requires forall a :: a in rest ==> !a.Conflict?
    ensures Written(status, devices, [Conflict(Some(theirs), fetched)] + rest) != Some(theirs) <==>
      Accepted in rest && devices != theirs
  {
    assert ([Conflict(Some(theirs), fetched)] + rest)[1..] == rest;
    if Accepted in rest {
      AcceptedWins(Some(theirs), devices, rest);
    } else {
      forall a | a in rest ensures a.Refused? { assert !a.Conflict?; }
      NobodyWrote(Some(theirs), devices, rest);
    }
  }

  /** Without an accepted attempt and without another writer, nothing changes. */
  lemma {:induction false} NobodyWrote(status: Option<seq<DeviceStatus>>, devices: seq<DeviceStatus>,
                                       answers: seq<Answer>)
    requires forall a :: a in answers ==> a.Refused? || (a.Conflict? && a.theirs.None?)
    ensures Written(status, devices, answers) == status
    decreases |answers|
  {
    if answers != [] {
      assert answers[0] in answers;
      NobodyWrote(status, devices, answers[1..]);
    }
  }

  function StatusOf(statuses: map<ClaimKey, seq<DeviceStatus>>, key: ClaimKey): Option<seq<DeviceStatus>>
  {
    if key in statuses then Some(statuses[key]) else None
  }

  /** The claim statuses the API server holds. */
  class ApiServer {
    var statuses: map<ClaimKey, seq<DeviceStatus>>

    constructor (statuses: map<ClaimKey, seq<DeviceStatus>>)
      ensures this.statuses == statuses
    {
      this.statuses := statuses;
    }

    method UpdateStatus(key: ClaimKey, devices: seq<DeviceStatus>, answer: Answer) returns (ok: bool)
      modifies this
      ensures ok <==> answer.Accepted?
      ensures StatusOf(statuses, key) == Written(StatusOf(old(statuses), key), devices, [answer])
      ensures forall k :: k != key ==> StatusOf(statuses, k) == StatusOf(old(statuses), k)
    {
      if answer.Accepted? {
        statuses := statuses[key := devices];
      } else if answer.Conflict? && answer.theirs.Some? {
        statuses := statuses[key := answer.theirs.value];
      }
      ok := answer.Accepted?;
    }

    /** Up to five attempts. After a conflict the fresh claim, if it can be
        fetched, is retried with the original device list copied in; so whatever
        other writers wrote in between, what is written is the original list, or
        nothing. */
    method UpdateWithRetry(key: ClaimKey, claim: ClaimStatus, answers: seq<Answer>) returns (ok: bool)
      requires |answers| == BACKOFF_STEPS
      modifies this
      ensures ok <==> Accepted in answers
      ensures StatusOf(statuses, key) == Written(StatusOf(old(statuses), key), claim.devices, answers)
      ensures forall k :: k != key ==> StatusOf(statuses, k) == StatusOf(old(statuses), k)
    {
      var originalDevices := claim.devices;
      var current := claim;
      for attempt := 0 to BACKOFF_STEPS
        invariant current.devices == originalDevices == claim.devices
        invariant Accepted !in answers[..attempt]
        invariant Written(StatusOf(statuses, key), claim.devices,
                          answers[attempt..]) == Written(StatusOf(old(statuses), key), claim.devices, answers)
        invariant forall k :: k != key ==> StatusOf(statuses, k) == StatusOf(old(statuses), k)
      {
        assert answers[..attempt + 1] == answers[..attempt] + [answers[attempt]];
        assert answers[attempt..][1..] == answers[attempt + 1..];
        var updated := UpdateStatus(key, current.devices, answers[attempt]);
        if updated {
          assert answers[attempt] in answers;
          return true;
        }
        if answers[attempt].Conflict? && answers[attempt].fetched {
          var freshClaim := new ClaimStatus(if key in statuses then statuses[key] else []);
          freshClaim.devices := originalDevices;
          current := freshClaim;
        }
      }
      assert answers[..BACKOFF_STEPS] == answers;
      ok := false;
    }
  }
}
