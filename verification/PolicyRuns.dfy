/** Reconciling over whole runs: discovery fills the table once, then every
    reconcile matches the table as the earlier ones left it, edits it in place
    and republishes when it sees a change. */
module PolicyRuns {
  import opened Options
  import opened Attributes
  import opened Discovery
  import opened PolicyController
  import opened PolicyDevices
  import opened Sorting

  // ---- One reconcile ------------------------------------------------------------

  datatype ReconcileError = NodeUnavailable | ListFailed | UpdateFailed

  /** Reconcile. `nodeMatches` says which policies select this node; `found` and
      `listed` are the API server's answers to the reads, `accepts` to the
      publication; the ghost result is the policy map. */
  method Reconcile(manager: Manager, sel: Selectors, nodeMatches: Policy -> bool, policies: seq<Policy>,
                   objects: seq<AttributesObject>, found: bool, listed: bool, accepts: bool)
    returns (r: Result<(), ReconcileError>, ghost m: PolicyMap)
    requires manager.Valid()
    modifies manager
    ensures manager.Valid() && manager.callbackSet == old(manager.callbackSet)
    ensures !(found && listed) ==>
      r.Err? && manager.State() == old(manager.State()) && manager.published == old(manager.published)
    ensures found && listed ==>
      && IsPolicyMap(sel, Matching(nodeMatches, policies), objects, old(manager.State()).devices, m)
      && manager.State() == Update(old(manager.State()), m)
      && manager.published == (if old(manager.callbackSet) && Changed(old(manager.State()), m) && accepts
                               then Advertised(manager.State()) else old(manager.published))
      && (r.Ok? <==> !(old(manager.callbackSet) && Changed(old(manager.State()), m) && !accepts))
    ensures found && listed ==> MapOfNode(sel, nodeMatches, policies, objects, old(manager.State()).devices, m)
  {
    m := map[];
    if !found {
      return Err(NodeUnavailable), m;
    }
    if !listed {
      return Err(ListFailed), m;
    }
    var matchingPolicies: seq<Policy> := [];
    for i := 0 to |policies|
      invariant matchingPolicies == Matching(nodeMatches, policies[..i])
    {
      assert policies[..i + 1][..i] == policies[..i];
      if nodeMatches(policies[i]) {
        matchingPolicies := matchingPolicies + [policies[i]];
      }
    }
    assert policies[..|policies|] == policies;
    var policyDevices := GetPolicyDeviceMap(sel, matchingPolicies, objects, manager.allocatable);
    m := policyDevices;
    MatchingMaps(sel, nodeMatches, policies, objects, manager.allocatable, m);
    var ok := manager.UpdatePolicyDevices(policyDevices, accepts);
    r := if ok then Ok(()) else Err(UpdateFailed);
  }

  function Matching(nodeMatches: Policy -> bool, policies: seq<Policy>): seq<Policy>
  {
    if policies == [] then []
    else
      var last := policies[|policies| - 1];
      Matching(nodeMatches, policies[..|policies| - 1]) + if nodeMatches(last) then [last] else []
  }

  /** The policies that select this node, in their order, as often as listed. */
  lemma {:induction false} MatchingHas(nodeMatches: Policy -> bool, policies: seq<Policy>, p: Policy)
    ensures p in Matching(nodeMatches, policies) <==> p in policies && nodeMatches(p)
    ensures multiset(Matching(nodeMatches, policies))[p] == if nodeMatches(p) then multiset(policies)[p] else 0
  {
    if policies != [] {
      var last := policies[|policies| - 1];
      MatchingHas(nodeMatches, policies[..|policies| - 1], p);
      assert policies == policies[..|policies| - 1] + [last];
    }
  }

  lemma {:induction false} MatchingKeepsOrder(nodeMatches: Policy -> bool, a: seq<Policy>, b: seq<Policy>)
    ensures Matching(nodeMatches, a + b) == Matching(nodeMatches, a) + Matching(nodeMatches, b)
  {
    if b == [] {
      assert a + b == a;
    } else {
      var init, last := b[..|b| - 1], b[|b| - 1];
      MatchingKeepsOrder(nodeMatches, a, init);
      assert (a + b)[..|a + b| - 1] == a + init && (a + b)[|a + b| - 1] == last;
      assert Matching(nodeMatches, a + b) ==
        (Matching(nodeMatches, a) + Matching(nodeMatches, init)) + if nodeMatches(last) then [last] else [];
    }
  }

  /** Of the policies for this node, config `j` of `p` is the first to take `d`. */
  ghost predicate FirstForNode(nodeMatches: Policy -> bool, policies: seq<Policy>, p: Policy, j: int, d: Device)
  {
    && p in policies && nodeMatches(p) && Takes(p, j, d)
    && (forall i :: 0 <= i < j ==> !Takes(p, i, d))
    && (forall q, i :: q in policies && nodeMatches(q) && Takes(q, i, d) ==> Alphabetical(p.name, q.name))
  }

  /** A device is in the map exactly when a policy for this node takes it, with the
      attributes that the first such policy asks for. */
  ghost predicate MapOfNode(sel: Selectors, nodeMatches: Policy -> bool, policies: seq<Policy>,
                            objects: seq<AttributesObject>, devices: Devices, m: PolicyMap)
  {
    && (forall n ::
          n in m <==> n in devices && exists p, j :: p in policies && nodeMatches(p) && Takes(p, j, devices[n]))
    && (forall n :: n in m && n in devices ==>
          exists p, j ::
            FirstForNode(nodeMatches, policies, p, j, devices[n]) &&
              Resolved(sel, p.configs[j].selector, objects, m[n]))
  }

  lemma MatchingMaps(sel: Selectors, nodeMatches: Policy -> bool, policies: seq<Policy>,
                     objects: seq<AttributesObject>, devices: Devices, m: PolicyMap)
    requires IsPolicyMap(sel, Matching(nodeMatches, policies), objects, devices, m)
    ensures MapOfNode(sel, nodeMatches, policies, objects, devices, m)
  {
    var matching := Matching(nodeMatches, policies);
    forall p ensures p in matching <==> p in policies && nodeMatches(p) { MatchingHas(nodeMatches, policies, p); }
    forall n | n in m
      ensures exists p, j ::
        FirstForNode(nodeMatches, policies, p, j, devices[n]) && Resolved(sel, p.configs[j].selector, objects, m[n])
    {
      var p, j :| FirstMatch(matching, p, j, devices[n]) && Resolved(sel, p.configs[j].selector, objects, m[n]);
      assert FirstForNode(nodeMatches, policies, p, j, devices[n]);
    }
    forall n ensures n in m <==>
      n in devices && exists p, j :: p in policies && nodeMatches(p) && Takes(p, j, devices[n])
    {
      if n in m {
        var p, j :| FirstForNode(nodeMatches, policies, p, j, devices[n]);
      }
      if n in devices && exists p, j :: p in policies && nodeMatches(p) && Takes(p, j, devices[n]) {
        var p, j :| p in policies && nodeMatches(p) && Takes(p, j, devices[n]);
        assert p in matching;
      }
    }
  }

  // ---- History independence -------------------------------------------------------

  ghost predicate ReservedOnly(discovered: Devices)
  {
    forall n, k :: n in discovered && k in discovered[n].attributes ==> Reserved(k)
  }

  /** The table that one update makes of discovery's own. */
  function FromScratch(discovered: Devices, policy: PolicyMap): Table
  {
    Update(Table(discovered, map[]), policy)
  }

  lemma UpdatedTwice(discovered: Devices, p: PolicyMap, q: PolicyMap, n: string)
    requires ReservedOnly(discovered) && n in discovered
    ensures Updated(FromScratch(discovered, p), q, n) == Updated(Table(discovered, map[]), q, n)
  {
    var t := FromScratch(discovered, p);
    var attributes := discovered[n].attributes;
    assert t.devices[n].attributes == (attributes - {}) + Added(p, n);
    assert OwnedKeys(t, n) == Added(p, n).Keys;
    assert ((attributes - {}) + Added(p, n)) - Added(p, n).Keys == attributes - {};
  }

  lemma UpdateForgets(discovered: Devices, p: PolicyMap, q: PolicyMap)
    requires ReservedOnly(discovered)
    ensures Update(FromScratch(discovered, p), q) == FromScratch(discovered, q)
  {
    forall n | n in discovered
      ensures Updated(FromScratch(discovered, p), q, n) == Updated(Table(discovered, map[]), q, n)
    {
      UpdatedTwice(discovered, p, q, n);
    }
    SameUpdate(Table(discovered, map[]), FromScratch(discovered, p), q);
  }

  /** The in-place edits of a whole run of updates. */
  function Run(discovered: Devices, policies: seq<PolicyMap>): Table
  {
    if policies == [] then Table(discovered, map[])
    else Update(Run(discovered, policies[..|policies| - 1]), policies[|policies| - 1])
  }

  /** History independence: after any run of updates the table is what the last
      policy map alone makes of the discovered devices. */
  lemma {:induction false} HistoryIndependence(discovered: Devices, policies: seq<PolicyMap>)
    requires ReservedOnly(discovered) && policies != []
    ensures Run(discovered, policies) == FromScratch(discovered, policies[|policies| - 1])
  {
    var earlier := policies[..|policies| - 1];
    if earlier != [] {
      HistoryIndependence(discovered, earlier);
      UpdateForgets(discovered, earlier[|earlier| - 1], policies[|policies| - 1]);
    }
  }

  /** What that table holds: each device has its discovery attributes and exactly
      the non-reserved attributes of its entry in the policy map; the devices in
      the map are the advertised ones, and the keys they own are those added. */
  lemma FromScratchReads(discovered: Devices, policy: PolicyMap, n: string)
    requires ReservedOnly(discovered) && n in discovered
    ensures var t := FromScratch(discovered, policy);
      && t.devices.Keys == discovered.Keys && t.devices[n].name == discovered[n].name
      && (n in Advertised(t) <==> n in policy)
      && (n in policy ==> Advertised(t)[n] == t.devices[n])
      && (forall k :: k in discovered[n].attributes ==>
            Lookup(t.devices[n].attributes, k) == Some(discovered[n].attributes[k]))
      && (forall k :: k !in discovered[n].attributes ==>
            Lookup(t.devices[n].attributes, k) == (if n in policy && k in policy[n] && !Reserved(k)
                                                   then Some(policy[n][k]) else None))
      && (n in policy ==> forall k :: k in t.owned[n] <==> k in policy[n] && !Reserved(k))
  {
    var t := FromScratch(discovered, policy);
    assert t.devices[n].attributes == (discovered[n].attributes - {}) + Added(policy, n);
    assert forall k :: k in Added(policy, n) <==> n in policy && k in policy[n] && !Reserved(k);
  }

  lemma FromScratchKeepsReserved(discovered: Devices, policy: PolicyMap, n: string)
    requires ReservedOnly(discovered) && n in discovered
    ensures SameReserved(discovered[n], FromScratch(discovered, policy).devices[n])
  {
    FromScratchReads(discovered, policy, n);
  }

  // ---- Exact change detection -------------------------------------------------------

  /** A second identical update changes no table, and republishes only if the
      policy map names a device that does not exist. */
  lemma UpdateIsIdempotent(t: Table, policy: PolicyMap)
    requires WellFormed(t)
    ensures Update(Update(t, policy), policy) == Update(t, policy)
    ensures Changed(Update(t, policy), policy) <==> !(policy.Keys <= t.devices.Keys)
  {
    var u := Update(t, policy);
    forall n | n in t.devices ensures Updated(u, policy, n) == Updated(t, policy, n) {
      UpdatedAgain(t, policy, n);
    }
    SameUpdate(t, u, policy);
  }

  lemma UpdatedAgain(t: Table, policy: PolicyMap, n: string)
    requires n in t.devices
    ensures Updated(Update(t, policy), policy, n) == Updated(t, policy, n)
  {
    var u := Update(t, policy);
    var kept := t.devices[n].attributes - OwnedKeys(t, n);
    var added := Added(policy, n);
    assert OwnedKeys(u, n) == added.Keys;
    assert u.devices[n].attributes == kept + added;
    assert (kept + added) - added.Keys + added == kept + added;
  }

  /** A change always shows in the advertised devices. */
  lemma ChangeShows(t: Table, policy: PolicyMap)
    requires WellFormed(t) && policy.Keys <= t.devices.Keys && Changed(t, policy)
    ensures Advertised(Update(t, policy)) != Advertised(t)
  {
    var u := Update(t, policy);
    if !(policy.Keys <= t.owned.Keys) {
      var n :| n in policy && n !in t.owned;
      assert n in Advertised(u) && n !in Advertised(t);
    } else {
      assert u.devices.Keys == t.devices.Keys;
      var n :| n in t.devices && u.devices[n] != t.devices[n];
      if n in policy {
        assert Advertised(u)[n] == u.devices[n] && Advertised(t)[n] == t.devices[n];
      } else {
        if n !in t.owned { Untouched(t, policy, n); }
        assert n in Advertised(t) && n !in Advertised(u);
      }
    }
  }

  /** When nothing changes, the advertised devices stay exactly if none is
      dropped. */
  lemma QuietDropShows(t: Table, policy: PolicyMap)
    requires WellFormed(t) && policy.Keys <= t.devices.Keys && !Changed(t, policy)
    ensures Advertised(t) != Advertised(Update(t, policy)) <==> exists n :: n in t.owned && n !in policy
  {
    var u := Update(t, policy);
    assert u.owned.Keys == policy.Keys;
    if n :| n in t.owned && n !in policy {
      assert n in Advertised(t) && n !in Advertised(u);
    } else {
      assert t.owned.Keys == u.owned.Keys;
      assert Advertised(t) == Advertised(u);
    }
  }

  /** The slice after one update that starts in step with the table. */
  function PublishedAfter(t: Table, policy: PolicyMap, accepts: bool): Devices
  {
    if Changed(t, policy) && accepts then Advertised(Update(t, policy)) else Advertised(t)
  }

  /** Exactly when the published slice falls behind an update: if the update
      changes something, when the publication is refused; if not, when it drops a
      device, which then owned nothing. */
  lemma StaleAfterUpdate(t: Table, policy: PolicyMap, accepts: bool)
    requires WellFormed(t) && policy.Keys <= t.devices.Keys
    ensures PublishedAfter(t, policy, accepts) != Advertised(Update(t, policy)) <==>
      if Changed(t, policy) then !accepts else exists n :: n in t.owned && n !in policy
  {
    if Changed(t, policy) {
      ChangeShows(t, policy);
    } else {
      QuietDropShows(t, policy);
    }
  }

  lemma DroppedOwnersChange(t: Table, policy: PolicyMap)
    requires WellFormed(t)
    requires forall n :: n in t.owned ==> t.owned[n] != {}
    ensures (exists n :: n in t.owned && n !in policy) ==> Changed(t, policy)
  {
    ChangedExactly(t, policy);
    if n :| n in t.owned && n !in policy { assert t.owned[n] != {}; }
  }

  /** The gap is real: a device matched by a policy without attributes, then by
      no policy, stays published. */
  lemma DropWithoutAttributesStaysPublished(n: string, d: Device)
    ensures var t := FromScratch(map[n := d], map[n := map[]]);
      !Changed(t, map[]) && n in Advertised(t) && Advertised(Update(t, map[])) == map[]
  {
    var t := FromScratch(map[n := d], map[n := map[]]);
    assert NonReserved(map[]).Keys == {};
    assert t.owned == map[n := {}];
    Untouched(t, map[], n);
    assert Update(t, map[]).devices == t.devices;
  }

  // ---- Runs of reconciles -----------------------------------------------------------

  datatype Request = Request(policies: seq<Policy>, objects: seq<AttributesObject>, accepts: bool)

  datatype World = World(table: Table, published: Devices)

  /** One reconcile with a republish callback. The map is computed from the
      table as it stands, policy attributes and all. */
  ghost predicate Reconciles(sel: Selectors, w: World, request: Request, m: PolicyMap, w': World)
  {
    && IsPolicyMap(sel, request.policies, request.objects, w.table.devices, m)
    && w'.table == Update(w.table, m)
    && w'.published == if Changed(w.table, m) && request.accepts then Advertised(w'.table) else w.published
  }

  /** A run from discovery; `maps[i]` is the policy map of request `i`. */
  ghost predicate Trace(sel: Selectors, discovered: Devices, requests: seq<Request>, maps: seq<PolicyMap>,
                        worlds: seq<World>)
  {
    && |maps| == |requests| && |worlds| == |requests| + 1
    && worlds[0] == World(Table(discovered, map[]), map[])
    && forall i :: 0 <= i < |requests| ==> ReconcilesAt(sel, requests, maps, worlds, i)
  }

  ghost predicate ReconcilesAt(sel: Selectors, requests: seq<Request>, maps: seq<PolicyMap>, worlds: seq<World>, i: nat)
    requires i < |requests| == |maps| && |worlds| == |requests| + 1
  {
    Reconciles(sel, worlds[i], requests[i], maps[i], worlds[i + 1])
  }

  /** A call of Reconcile with the API server's answers. */
  datatype Visit = Visit(nodeMatches: Policy -> bool, policies: seq<Policy>, objects: seq<AttributesObject>,
                         found: bool, listed: bool, accepts: bool)

  /** The visits whose reads succeed, with the policies that select the node. */
  function RequestsOf(visits: seq<Visit>): seq<Request>
  {
    if visits == [] then []
    else
      var last := visits[|visits| - 1];
      RequestsOf(visits[..|visits| - 1]) +
        if last.found && last.listed
        then [Request(Matching(last.nodeMatches, last.policies), last.objects, last.accepts)] else []
  }

  lemma TraceNext(sel: Selectors, discovered: Devices, requests: seq<Request>, maps: seq<PolicyMap>, worlds: seq<World>,
                  request: Request, m: PolicyMap, w: World)
    requires Trace(sel, discovered, requests, maps, worlds) && Reconciles(sel, worlds[|requests|], request, m, w)
    ensures Trace(sel, discovered, requests + [request], maps + [m], worlds + [w])
  {
    var requests', maps', worlds' := requests + [request], maps + [m], worlds + [w];
    forall i | 0 <= i < |requests'| ensures ReconcilesAt(sel, requests', maps', worlds', i) {
      if i < |requests| {
        assert ReconcilesAt(sel, requests, maps, worlds, i);
        assert worlds'[i] == worlds[i] && worlds'[i + 1] == worlds[i + 1] && requests'[i] == requests[i] &&
          maps'[i] == maps[i];
      }
    }
  }

  ghost function WorldOf(manager: Manager): World
    reads manager
  {
    World(manager.State(), manager.published)
  }

  method ReconcileOnce(manager: Manager, sel: Selectors, v: Visit) returns (ghost m: PolicyMap)
    requires manager.Valid() && manager.callbackSet
    modifies manager
    ensures manager.Valid() && manager.callbackSet
    ensures if v.found && v.listed
      then Reconciles(sel, old(WorldOf(manager)), Request(Matching(v.nodeMatches, v.policies), v.objects, v.accepts), m,
                      WorldOf(manager))
      else WorldOf(manager) == old(WorldOf(manager))
  {
    var r;
    r, m := Reconcile(manager, sel, v.nodeMatches, v.policies, v.objects, v.found, v.listed, v.accepts);
  }

  /** Every sequence of reconciles of a manager with a republish callback is a run
      of this kind; a reconcile whose reads fail is none. */
  method ReconcileAll(discovered: Devices, sel: Selectors, visits: seq<Visit>)
    returns (manager: Manager, ghost maps: seq<PolicyMap>, ghost worlds: seq<World>)
    ensures Trace(sel, discovered, RequestsOf(visits), maps, worlds)
    ensures WorldOf(manager) == worlds[|RequestsOf(visits)|]
  {
    manager := new Manager(discovered);
    manager.SetRepublishCallback();
    maps, worlds := [], [WorldOf(manager)];
    for n := 0 to |visits|
      invariant fresh(manager) && manager.Valid() && manager.callbackSet
      invariant Trace(sel, discovered, RequestsOf(visits[..n]), maps, worlds)
      invariant WorldOf(manager) == worlds[|RequestsOf(visits[..n])|]
    {
      assert visits[..n + 1][..n] == visits[..n];
      ghost var m := ReconcileOnce(manager, sel, visits[n]);
      if visits[n].found && visits[n].listed {
        TraceNext(sel, discovered, RequestsOf(visits[..n]), maps, worlds,
          Request(Matching(visits[n].nodeMatches, visits[n].policies), visits[n].objects, visits[n].accepts), m,
            WorldOf(manager));
        maps, worlds := maps + [m], worlds + [WorldOf(manager)];
      } else {
        assert RequestsOf(visits[..n + 1]) == RequestsOf(visits[..n]);
      }
    }
    assert visits[..|visits|] == visits;
  }

  lemma Edits(sel: Selectors, w: World, request: Request, m: PolicyMap, w': World)
    requires Reconciles(sel, w, request, m, w')
    ensures w'.table == Update(w.table, m)
  {
  }

  /** The table over a run is the run of the in-place edits alone. */
  lemma {:induction false} TraceRuns(sel: Selectors, discovered: Devices, requests: seq<Request>, maps: seq<PolicyMap>,
                                     worlds: seq<World>, i: nat)
    requires Trace(sel, discovered, requests, maps, worlds) && i <= |requests|
    ensures worlds[i].table == Run(discovered, maps[..i])
  {
    if i > 0 {
      TraceRuns(sel, discovered, requests, maps, worlds, i - 1);
      assert maps[..i][..i - 1] == maps[..i - 1];
      assert ReconcilesAt(sel, requests, maps, worlds, i - 1);
      Edits(sel, worlds[i - 1], requests[i - 1], maps[i - 1], worlds[i]);
    }
  }

  /** No feedback, over any run: although each map is computed from the edited
      table, it is the map of the raw discovery result, and the table is what it
      makes of the raw discovery result. */
  lemma FeedbackFree(sel: Selectors, discovered: Devices, requests: seq<Request>, maps: seq<PolicyMap>,
                     worlds: seq<World>, i: nat)
    requires ReservedOnly(discovered) && Trace(sel, discovered, requests, maps, worlds) && i < |requests|
    ensures worlds[i + 1].table == FromScratch(discovered, maps[i])
    ensures IsPolicyMap(sel, requests[i].policies, requests[i].objects, discovered, maps[i])
  {
    TraceRuns(sel, discovered, requests, maps, worlds, i);
    TraceRuns(sel, discovered, requests, maps, worlds, i + 1);
    HistoryIndependence(discovered, maps[..i + 1]);
    assert ReconcilesAt(sel, requests, maps, worlds, i);
    MatchedAsDiscovered(sel, discovered, maps[..i], requests[i], maps[i]);
  }

  lemma MatchedAsDiscovered(sel: Selectors, discovered: Devices, before: seq<PolicyMap>, request: Request, m: PolicyMap)
    requires ReservedOnly(discovered)
    requires IsPolicyMap(sel, request.policies, request.objects, Run(discovered, before).devices, m)
    ensures IsPolicyMap(sel, request.policies, request.objects, discovered, m)
  {
    if before != [] {
      var last := before[|before| - 1];
      HistoryIndependence(discovered, before);
      forall n | n in discovered ensures SameReserved(FromScratch(discovered, last).devices[n], discovered[n]) {
        FromScratchKeepsReserved(discovered, last, n);
      }
      PolicyMapIgnoresPolicyAttributes(sel, request.policies, request.objects, FromScratch(discovered, last).devices,
                                       discovered, m);
    }
  }

  /** Reconciling again with the same API objects, listed in any order, computes
      the same map, changes nothing and publishes nothing. */
  lemma ReconcileIsIdempotent(sel: Selectors, discovered: Devices, requests: seq<Request>, maps: seq<PolicyMap>,
                              worlds: seq<World>, i: nat)
    requires ReservedOnly(discovered) && Trace(sel, discovered, requests, maps, worlds) && i + 1 < |requests|
    requires SameSet(requests[i].policies, requests[i + 1].policies)
    requires Named(requests[i].policies, (p: Policy) => p.name)
    requires SameSet(requests[i].objects, requests[i + 1].objects)
    requires Named(requests[i].objects, (o: AttributesObject) => o.name)
    ensures maps[i + 1] == maps[i] && !Changed(worlds[i + 1].table, maps[i + 1])
    ensures worlds[i + 2] == worlds[i + 1]
  {
    FeedbackFree(sel, discovered, requests, maps, worlds, i);
    FeedbackFree(sel, discovered, requests, maps, worlds, i + 1);
    OrderInvariance(sel, requests[i].policies, requests[i + 1].policies, requests[i].objects, requests[i + 1].objects,
      discovered, maps[i], maps[i + 1]);
    assert ReconcilesAt(sel, requests, maps, worlds, i + 1);
    UpdateIsIdempotent(Table(discovered, map[]), maps[i]);
  }

  /** A publication that failed is not made up for by the next reconcile of the
      same objects, listed in any order: the slice stays what it was. If it was in
      step before, it is out of date afterwards exactly when the objects ask for
      anything different at all. */
  lemma FailedPublicationIsNotRetried(sel: Selectors, discovered: Devices, requests: seq<Request>, maps: seq<PolicyMap>,
                                      worlds: seq<World>, i: nat)
    requires ReservedOnly(discovered) && Trace(sel, discovered, requests, maps, worlds) && i + 1 < |requests|
    requires SameSet(requests[i].policies, requests[i + 1].policies)
    requires Named(requests[i].policies, (p: Policy) => p.name)
    requires SameSet(requests[i].objects, requests[i + 1].objects)
    requires Named(requests[i].objects, (o: AttributesObject) => o.name)
    requires !requests[i].accepts
    ensures worlds[i + 2].published == worlds[i].published
    ensures worlds[i].published == Advertised(worlds[i].table) ==>
      (worlds[i + 2].published != Advertised(worlds[i + 2].table) <==>
        Changed(worlds[i].table, maps[i]) || exists n :: n in worlds[i].table.owned && n !in maps[i])
  {
    ReconcileIsIdempotent(sel, discovered, requests, maps, worlds, i);
    assert ReconcilesAt(sel, requests, maps, worlds, i);
    TableWellFormed(sel, discovered, requests, maps, worlds, i);
    FeedbackFree(sel, discovered, requests, maps, worlds, i);
    StaleAfterUpdate(worlds[i].table, maps[i], false);
  }

  /** Every advertised device owns at least one policy attribute. */
  predicate AllOwn(m: PolicyMap)
  {
    forall n :: n in m ==> NonReserved(m[n]).Keys != {}
  }

  /** Over every run in which every advertised device owns an attribute and every
      publication is accepted, the published slice is the advertised set. */
  lemma {:induction false} PublishedIsAdvertised(sel: Selectors, discovered: Devices, requests: seq<Request>,
                                                 maps: seq<PolicyMap>, worlds: seq<World>, i: nat)
    requires ReservedOnly(discovered) && Trace(sel, discovered, requests, maps, worlds) && i <= |requests|
    requires forall j :: 0 <= j < i ==> requests[j].accepts && AllOwn(maps[j])
    ensures worlds[i].published == Advertised(worlds[i].table)
  {
    if i == 0 {
      assert Advertised(worlds[0].table) == map[];
    } else {
      PublishedIsAdvertised(sel, discovered, requests, maps, worlds, i - 1);
      assert ReconcilesAt(sel, requests, maps, worlds, i - 1);
      var t := worlds[i - 1].table;
      TableIsOwned(sel, discovered, requests, maps, worlds, i - 1);
      StaleAfterUpdate(t, maps[i - 1], true);
      DroppedOwnersChange(t, maps[i - 1]);
    }
  }

  /** Reconcile `k` published: it changed something, and the API server accepted. */
  ghost predicate Publishes(requests: seq<Request>, maps: seq<PolicyMap>, worlds: seq<World>, k: nat)
    requires k < |requests| == |maps| && |worlds| == |requests| + 1
  {
    requests[k].accepts && Changed(worlds[k].table, maps[k])
  }

  /** How many of the first `i` reconciles there are up to the last one that
      published. */
  ghost function LastPublication(requests: seq<Request>, maps: seq<PolicyMap>, worlds: seq<World>, i: nat): (j: nat)
    requires i <= |requests| == |maps| && |worlds| == |requests| + 1
    ensures j <= i
  {
    if i == 0 || Publishes(requests, maps, worlds, i - 1) then i else LastPublication(requests, maps, worlds, i - 1)
  }

  lemma {:induction false} LastPublicationIs(requests: seq<Request>, maps: seq<PolicyMap>, worlds: seq<World>, i: nat)
    requires i <= |requests| == |maps| && |worlds| == |requests| + 1
    ensures var j := LastPublication(requests, maps, worlds, i);
      && (j > 0 ==> Publishes(requests, maps, worlds, j - 1))
      && forall k :: j <= k < i ==> !Publishes(requests, maps, worlds, k)
  {
    if i > 0 && !Publishes(requests, maps, worlds, i - 1) { LastPublicationIs(requests, maps, worlds, i - 1); }
  }

  /** Over every run, whatever publications fail, the published slice is what was
      advertised right after the last reconcile that published; none before the
      first. */
  lemma {:induction false} PublishedIsLast(sel: Selectors, discovered: Devices, requests: seq<Request>,
                                           maps: seq<PolicyMap>, worlds: seq<World>, i: nat)
    requires Trace(sel, discovered, requests, maps, worlds) && i <= |requests|
    ensures worlds[i].published == Advertised(worlds[LastPublication(requests, maps, worlds, i)].table)
  {
    if i == 0 {
      assert Advertised(worlds[0].table) == map[];
    } else {
      PublishedStep(sel, discovered, requests, maps, worlds, i - 1);
      if !Publishes(requests, maps, worlds, i - 1) { PublishedIsLast(sel, discovered, requests, maps, worlds, i - 1); }
    }
  }

  lemma PublishedStep(sel: Selectors, discovered: Devices, requests: seq<Request>, maps: seq<PolicyMap>,
                      worlds: seq<World>, i: nat)
    requires Trace(sel, discovered, requests, maps, worlds) && i < |requests|
    ensures worlds[i + 1].published == if Publishes(requests, maps, worlds, i) then Advertised(worlds[i + 1].table)
                                       else worlds[i].published
  {
    assert ReconcilesAt(sel, requests, maps, worlds, i);
  }

  lemma TableWellFormed(sel: Selectors, discovered: Devices, requests: seq<Request>, maps: seq<PolicyMap>,
                        worlds: seq<World>, i: nat)
    requires ReservedOnly(discovered) && Trace(sel, discovered, requests, maps, worlds) && i <= |requests|
    ensures WellFormed(worlds[i].table) && worlds[i].table.devices.Keys == discovered.Keys
  {
    if i > 0 {
      FeedbackFree(sel, discovered, requests, maps, worlds, i - 1);
      UpdateWellFormed(Table(discovered, map[]), maps[i - 1]);
    }
  }

  lemma TableIsOwned(sel: Selectors, discovered: Devices, requests: seq<Request>, maps: seq<PolicyMap>,
                     worlds: seq<World>, i: nat)
    requires ReservedOnly(discovered) && Trace(sel, discovered, requests, maps, worlds) && i <= |requests|
    requires forall j :: 0 <= j < i ==> AllOwn(maps[j])
    ensures WellFormed(worlds[i].table)
    ensures forall n :: n in worlds[i].table.owned ==> worlds[i].table.owned[n] != {}
  {
    if i > 0 {
      FeedbackFree(sel, discovered, requests, maps, worlds, i - 1);
      UpdateWellFormed(Table(discovered, map[]), maps[i - 1]);
    }
  }

  // ---- Addresses ------------------------------------------------------------------

  /** After discovery and any run of reconciles, every entry of the table still is
      filed under the name of the PCI address it holds, and every VF and PF that was
      found has its entry. */
  lemma TableStaysFiled(pfs: seq<PFInfo>, vfs: seq<seq<VFInfo>>, rdma: string -> bool, sel: Selectors,
                        discovered: Devices, requests: seq<Request>, maps: seq<PolicyMap>, worlds: seq<World>, i: nat)
    requires Discovered(pfs, vfs, rdma, discovered)
    requires Trace(sel, discovered, requests, maps, worlds) && i <= |requests|
    ensures FiledByAddress(worlds[i].table.devices) && worlds[i].table.devices.Keys == discovered.Keys
  {
    forall n, k | n in discovered && k in discovered[n].attributes ensures Reserved(k) {
      DiscoveryWritesReservedOnly(pfs, vfs, rdma, discovered, n, k);
    }
    DiscoveredIsFiled(pfs, vfs, rdma, discovered);
    TableWellFormed(sel, discovered, requests, maps, worlds, i);
    RunIsFiled(sel, discovered, requests, maps, worlds, i);
  }

  lemma RunIsFiled(sel: Selectors, discovered: Devices, requests: seq<Request>, maps: seq<PolicyMap>,
                   worlds: seq<World>, i: nat)
    requires ReservedOnly(discovered) && FiledByAddress(discovered)
    requires Trace(sel, discovered, requests, maps, worlds) && i <= |requests|
    ensures FiledByAddress(worlds[i].table.devices)
  {
    if i > 0 {
      FeedbackFree(sel, discovered, requests, maps, worlds, i - 1);
      var devices := FromScratch(discovered, maps[i - 1]).devices;
      FromScratchIsFiled(discovered, maps[i - 1]);
      assert worlds[i].table.devices == devices;
      forall n | n in worlds[i].table.devices ensures Filed(worlds[i].table.devices, n) { assert Filed(devices, n); }
    }
  }

  lemma FromScratchIsFiled(discovered: Devices, policy: PolicyMap)
    requires ReservedOnly(discovered) && FiledByAddress(discovered)
    ensures FiledByAddress(FromScratch(discovered, policy).devices)
  {
    forall n | n in discovered ensures Filed(FromScratch(discovered, policy).devices, n) {
      FromScratchReads(discovered, policy, n);
      assert Filed(discovered, n);
      var a :| WellFormedAddress(a) && DeviceName(a) == n && Says(discovered[n], PciAddress, Str(a));
      assert Says(FromScratch(discovered, policy).devices[n], PciAddress, Str(a));
    }
  }

  /** So the entry of VF `j` of PF `k` holds the address of that VF, at any point. */
  lemma TableHoldsVF(pfs: seq<PFInfo>, vfs: seq<seq<VFInfo>>, rdma: string -> bool, sel: Selectors,
                     discovered: Devices, requests: seq<Request>, maps: seq<PolicyMap>, worlds: seq<World>, i: nat,
                     k: nat, j: nat)
    requires Discovered(pfs, vfs, rdma, discovered)
    requires Trace(sel, discovered, requests, maps, worlds) && i <= |requests|
    requires k < |pfs| && j < |vfs[k]|
    ensures var n := DeviceName(vfs[k][j].pciAddress);
      n in worlds[i].table.devices && Says(worlds[i].table.devices[n], PciAddress, Str(vfs[k][j].pciAddress))
  {
    TableStaysFiled(pfs, vfs, rdma, sel, discovered, requests, maps, worlds, i);
    DiscoveredIsFiled(pfs, vfs, rdma, discovered);
    FiledHolds(worlds[i].table.devices, vfs[k][j].pciAddress);
  }

  // ---- A PF and its VFs --------------------------------------------------------------

  /** Mutual exclusion, end to end: after discovery and any run of reconciles, no
      advertised VF names an advertised PF as its parent, and a PF is advertised
      only if a filter of the last request asks for PFs. */
  lemma PFExcludesVFs(pfs: seq<PFInfo>, vfs: seq<seq<VFInfo>>, rdma: string -> bool, sel: Selectors,
                      discovered: Devices, requests: seq<Request>, maps: seq<PolicyMap>, worlds: seq<World>, i: nat,
                      p: string)
    requires Discovered(pfs, vfs, rdma, discovered)
    requires Trace(sel, discovered, requests, maps, worlds) && i <= |requests|
    requires p in Advertised(worlds[i].table) && DeviceTypeOf(Advertised(worlds[i].table)[p]) == TYPE_PF
    ensures i > 0 && AsksForPF(requests[i - 1].policies)
    ensures forall v :: v in Advertised(worlds[i].table) && DeviceTypeOf(Advertised(worlds[i].table)[v]) == TYPE_VF ==>
      StringAttribute(Advertised(worlds[i].table)[v], PfPciAddress) != StringAttribute(Advertised(worlds[i].table)[p],
          PciAddress)
  {
    forall n, k | n in discovered && k in discovered[n].attributes ensures Reserved(k) {
      DiscoveryWritesReservedOnly(pfs, vfs, rdma, discovered, n, k);
    }
    FeedbackFree(sel, discovered, requests, maps, worlds, i - 1);
    var table := worlds[i].table;
    SameReadings(discovered, maps[i - 1], p);
    MappedPF(sel, requests[i - 1].policies, requests[i - 1].objects, discovered, maps[i - 1], p);
    forall v | v in Advertised(table) && DeviceTypeOf(Advertised(table)[v]) == TYPE_VF
      ensures StringAttribute(Advertised(table)[v], PfPciAddress) != StringAttribute(Advertised(table)[p], PciAddress)
    {
      SameReadings(discovered, maps[i - 1], v);
      if StringAttribute(discovered[v], PfPciAddress) == StringAttribute(discovered[p], PciAddress) {
        ParentHasVFs(pfs, vfs, rdma, discovered, p, v);
      }
    }
  }

  /** And neither do a PF and its VFs ever stand together in the published slice,
      whatever publications fail. */
  lemma PublishedPFExcludesVFs(pfs: seq<PFInfo>, vfs: seq<seq<VFInfo>>, rdma: string -> bool, sel: Selectors,
                               discovered: Devices, requests: seq<Request>, maps: seq<PolicyMap>, worlds: seq<World>,
                               i: nat, p: string)
    requires Discovered(pfs, vfs, rdma, discovered)
    requires Trace(sel, discovered, requests, maps, worlds) && i <= |requests|
    requires p in worlds[i].published && DeviceTypeOf(worlds[i].published[p]) == TYPE_PF
    ensures var j := LastPublication(requests, maps, worlds, i); j > 0 && AsksForPF(requests[j - 1].policies)
    ensures forall v :: v in worlds[i].published && DeviceTypeOf(worlds[i].published[v]) == TYPE_VF ==>
      StringAttribute(worlds[i].published[v], PfPciAddress) != StringAttribute(worlds[i].published[p], PciAddress)
  {
    PublishedIsLast(sel, discovered, requests, maps, worlds, i);
    PFExcludesVFs(pfs, vfs, rdma, sel, discovered, requests, maps, worlds, LastPublication(requests, maps, worlds, i),
                  p);
  }

  lemma SameReadings(discovered: Devices, policy: PolicyMap, n: string)
    requires ReservedOnly(discovered) && n in discovered
    ensures var d := FromScratch(discovered, policy).devices[n];
      DeviceTypeOf(d) == DeviceTypeOf(discovered[n]) &&
      StringAttribute(d, PfPciAddress) == StringAttribute(discovered[n], PfPciAddress) &&
      StringAttribute(d, PciAddress) == StringAttribute(discovered[n], PciAddress)
  {
    FromScratchKeepsReserved(discovered, policy, n);
    MatchingReadsReserved(discovered[n], FromScratch(discovered, policy).devices[n], []);
    assert Reserved(PfPciAddress) && Reserved(PciAddress);
  }
}
