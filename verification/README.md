# SR-IOV DRA driver: a Dafny model

This project models the core of the SR-IOV driver for dynamic resource allocation and
proves what it keeps, in Dafny. `dafny verify dfyconfig.toml` checks all of it.

What is modelled, file by file:

- `VlanRanges.dfy`: the printer of VLAN lists, with a decoder of its own as the
  reference; round trip, minimality, and the 64-character bound.
- `Discovery.dfy`: the table of devices that discovery builds from PFs and VFs.
- `Sorting.dfy`, `PolicyController.dfy`: sorting by name, the resolution of
  DeviceAttributes objects, and the first-match policy map. Loops over Go maps pick
  their next key from a set, so the results hold for every iteration order.
- `PolicyDevices.dfy`, `PolicyRuns.dfy`: the manager that edits the shared attribute maps
  in place, and whole runs of reconciles. Matching reads the maps that the manager
  edits; the runs prove that this feedback does no harm.
- `VfConfigs.dfy`: merging opaque configs per request, with their precedence.
- `Host.dfy`: driver binding as short runs of system calls, any of which may be refused.
- `InterfaceNames.dfy`: how a claim's interfaces are named, and exactly when two names
  clash.
- `ClaimTransaction.dfy`, `ClaimRoundTrip.dfy`: preparing and unpreparing a claim over the
  host, the device-info files and the CDI directory, with compensation at every failure
  point, and the round trip with retries.
- `PodManager.dfy`, `PodRuns.dfy`: the two-level store of prepared devices over heap
  objects and its checkpoint; whole runs of calls, late updates through aliased pointers,
  refused writes and restarts.
- `Resources.dfy`, `Nri.dfy`: claim statuses, the API server with the conflict retry and
  other writers, and the network-data runner (grouping, index, persistence before
  publication).
- `DraState.dfy`: all that the kubelet's calls keep, as one value; what one prepare and
  one unprepare do to it, and the invariants they preserve.
- `DraHook.dfy`: the kubelet's calls as methods over the objects; each is proved to be a
  chain of such steps.
- `DraBatches.dfy`: the laws of chains and batches: what they keep, when they succeed,
  what a rollback leaves, and how interfaces are named across claims.
- `DraRuns.dfy`: runs of calls, late updates and crashes; every sequence of them is such
  a run. Then the places where the driver falls short.
- `DraUndo.dfy`: over such runs, what a claim's prepare has done to its devices is undone
  by the call that removes its record, whatever lies in between.

Code that changes state is modelled as classes and methods with loops; their contracts
equate the new state with a function or predicate whose laws are lemmas. The environment
may refuse any operation: below the claim manager the refusal is a parameter (`refused`,
`at: Step`, `accepts`, `answers`), from there on it is a nondeterministic choice, except
that the driver's own checkpoint write and status update stay parameters. With
`ClaimManager.reliable` nothing is refused, which gives the clauses that say when an
operation must succeed.

A function that code and contracts share is pinned down in plain terms by a lemma of its
own, as literals, map and sequence operations (`FilterMeans`, `DpdkDrivers`, `VFEntrySays`
and the like); the main methods also promise their result in such terms, without those
functions: `Reconcile` in terms of the node selector, `PrepareDevicesForClaim` in terms of
PCI addresses and the device names made from them, `UpdateNetworkDeviceData` in terms of
the updates that were persisted.

Where the code does less than its comments or callers suggest, the code is modelled and
the exact limit is proved:

- An update that drops only devices without policy attributes does not republish, and
  one whose publication is refused leaves the slice behind (`StaleAfterUpdate`, an
  if-and-only-if over both answers; `DropWithoutAttributesStaysPublished`).
- A failed publication is not made up for by the next identical reconcile; the slice then
  is out of date exactly when the objects ask for anything different
  (`FailedPublicationIsNotRetried`). What is published is always what was advertised
  after the last reconcile that published (`PublishedIsLast`).
- `Override` never copies `AddVhostMount` and `NetAttachDefNamespace`, so neither is ever
  taken from a config (`MergedSettings`), and no prepare ever mounts the vhost devices.
- A device that started on `uio_pci_generic` or `igb_uio` can never be put back, because
  the module loader knows neither (`RestorePossible`, `PrepareThenUnprepare`).
- A bind that fails after the unbind is not compensated (`FailedBindLeaves`, for every
  target and refusal; `RefusedBindLosesDriver`); a rolled-back prepare leaves that one
  device in exactly that state. A prepare that is tried again takes what it finds for the
  original driver, and the real one is lost for good unless the failure was harmless
  (`RebindAfterFailure`, an if-and-only-if; `SecondBindForgetsDriver`;
  `PrepareAgainThenUnprepare` for the whole claim).
- A restore that is refused the clearing of the driver override, and then tried again,
  leaves the override set for good (`OverrideLeftExactly`, `RetryLeavesOverride`); at the
  first attempt bind and restore leave none (`BindThenRestore`).
- `DeleteClaim` removes the whole pod (`DeleteClaimKeepsOthers`). Records and specs stay
  sound exactly when the claim was the only one of its pod (`RemovalExactly`,
  `UnprepareChainExactly` and `RolledBackBatchExactly` for lists of claims); later claims
  of the pod are skipped (`UnprepareTwoOfOnePod`).
- A claim that left memory comes back exactly when its deletion could not be written and
  a restart comes before the next write (`DeletedReturnsExactly`). A restart leaves specs
  behind exactly for the claims that the checkpoint lacks (`RestartOrphansExactly`).
- `Set` keeps its entry in memory when the checkpoint cannot be written, so the next call
  reports a claim ready whose devices were unprepared, or are halfway; without refusals
  elsewhere this happens to every claim that can be prepared and undone
  (`RetryUnrecorded`).
- The interface index restarts with every call and is not advanced for recorded claims,
  so two claims of one pod that come in two calls clash exactly when each has a device
  whose config names no interface, or by a configured name (`PrepareInTwoCalls`).
- A configured name may also be that of a numbered interface, and one config that names
  an interface may be allocated two devices; within one call, and within one claim, names
  clash exactly then (`NewNamesClashExactly`, `OwnNamesClashExactly`).

## Model

| member | source | states |
|---|---|---|
| `VlanRanges.FormatVlanRanges` | pkg/devicestate/discovery.go:408-423 | the nested loops terminate and print the maximal runs of the list, comma separated |
| `VlanRanges.RoundTrip` | pkg/devicestate/discovery.go:406-423 | for every list of non-negative IDs, decoding what is printed gives back exactly that list, and the text is empty only for the empty list |
| `VlanRanges.PrintedInjective` | pkg/devicestate/discovery.go:406-423 | two different lists never print the same |
| `VlanRanges.PrintedExample` | pkg/devicestate/discovery.go:408-423 | two lists and their texts: a range has a dash, two runs a comma |
| `VlanRanges.RunsRepresent` | pkg/devicestate/discovery.go:408-423 | the printed parts name exactly the IDs of the list |
| `VlanRanges.PrintedIsMinimal` | pkg/devicestate/discovery.go:408-423 | no list of IDs and ranges that names the same ascending IDs has fewer parts |
| `VlanRanges.SixRunsFit` | pkg/devicestate/discovery.go:384-404 | 12-bit IDs in at most six runs always fit 64 characters |
| `VlanRanges.SevenRangesDoNotFit` | pkg/devicestate/discovery.go:384-404 | seven or more ranges of four-digit IDs never fit, so six is the most that always do |
| `Sorting.Sort` | pkg/controller/resourcepolicycontroller.go:121-185 | sorts any list by a total order and keeps its elements |
| `Sorting.SortByName` | pkg/controller/resourcepolicycontroller.go:121-225 | sorts policies and objects by name, in alphabetical order: a beginning comes first, then the smaller character at the first difference |
| `Sorting.NameLeMeans` | pkg/controller/resourcepolicycontroller.go:134-136 | the comparison of names is alphabetical order, spelled out: `a` begins `b`, or has the smaller character where they first differ |
| `Discovery.CollectUplinkVlans` | pkg/host/host.go:417-465 | the list holds exactly the port's VLAN IDs, strictly ascending if they are distinct, and the untagged ID is that of the last untagged entry, 0 if none |
| `Discovery.DeviceNameInjective` | pkg/devicestate/discovery.go:185-288 | the renaming of PCI addresses into device names is injective on well-formed addresses |
| `Discovery.DeviceNameMeans` | pkg/devicestate/discovery.go:215-216 | a name is its address with a dash for each colon and dot |
| `Discovery.AddStandardNUMANode` | pkg/devicestate/discovery.go:429-436 | the standard NUMA attribute is set exactly when the node is not negative, and no other attribute changes |
| `Discovery.AddPFNetdevAttributes` | pkg/devicestate/discovery.go:361-377 | MTU, speed, name and uplink attributes appear exactly when reported |
| `Discovery.AddUplinkVlanAttributes` | pkg/devicestate/discovery.go:384-404 | the uplink attributes appear exactly under their conditions; the VLAN list only if it fits |
| `Discovery.BuildPFDevice` | pkg/devicestate/discovery.go:298-355 | a PF entry has exactly the attributes of its PF |
| `Discovery.BuildVFDevice` | pkg/devicestate/discovery.go:228-286 | a VF entry has exactly the attributes of its VF and its parent |
| `Discovery.PFEntrySays` | pkg/devicestate/discovery.go:298-355 | attribute by attribute, what the entry of a PF says and when it says nothing |
| `Discovery.VFEntrySays` | pkg/devicestate/discovery.go:228-286 | the same for the entry of a VF: what it says of itself and what of its PF |
| `Discovery.DiscoverSriovDevices` | pkg/devicestate/discovery.go:185-292 | fails exactly when some VF list cannot be read; with distinct addresses the table has one entry per PF and VF, filed under its own name, and nothing else |
| `Discovery.NamesDistinct` | pkg/devicestate/discovery.go:185-288 | distinct addresses give distinct names across PFs and VFs |
| `Discovery.DiscoveredIsFiled` | pkg/devicestate/discovery.go:185-288 | every PF and VF has an entry, and every entry holds the address that it is named after |
| `Discovery.FiledHolds` | pkg/devicestate/discovery.go:228-288 | in such a table the entry named after an address holds that address |
| `Discovery.NumVFsCountsChildren` | pkg/devicestate/discovery.go:211-286 | the numVFs of each PF is the number of VF entries that name it as their parent |
| `Discovery.ParentHasVFs` | pkg/devicestate/discovery.go:211-286 | a PF that some VF entry points at advertises at least one VF |
| `Discovery.DiscoveryWritesReservedOnly` | pkg/consts/consts.go:131-157 | discovery writes reserved keys only |
| `Discovery.PublishedVlansAreComplete` | pkg/devicestate/discovery.go:384-404 | a published VLAN attribute decodes to the full list, never a truncated one; up to six runs on a filtering bridge are always published |
| `PolicyController.ResolveDeviceAttributes` | pkg/controller/resourcepolicycontroller.go:191-225 | each key comes from the selected object with the alphabetically last name that has it |
| `PolicyController.ResolvedMeans` | pkg/controller/resourcepolicycontroller.go:186-225 | key by key, in terms of the selector and of alphabetical order: which keys there are and whose value they have |
| `PolicyController.ToLowerMeans` | pkg/controller/resourcepolicycontroller.go:299-370 | upper-case letters become the lower-case letters of the same place in the alphabet, all else stays |
| `PolicyController.NormalizeLinkTypeMeans` | pkg/controller/resourcepolicycontroller.go:299-370 | eth and ethernet are one link type, ib and infiniband another, and any other is taken as it is |
| `PolicyController.FilterMeans` | pkg/controller/resourcepolicycontroller.go:299-370 | which attribute of the device answers which list of a filter; an empty list asks for nothing, an empty type for a VF |
| `PolicyController.FiltersMean` | pkg/controller/resourcepolicycontroller.go:264-280 | filters are alternatives, and no filters take the VFs |
| `PolicyController.EligibleMeans` | pkg/controller/resourcepolicycontroller.go:143-181 | a device is eligible if a filter takes it and it is no PF that says it has VFs |
| `PolicyController.MatchDevices` | pkg/controller/resourcepolicycontroller.go:143-181 | one config adds exactly the unmatched devices its filters accept that are no PF with VFs |
| `PolicyController.GetPolicyDeviceMap` | pkg/controller/resourcepolicycontroller.go:121-185 | each device has the attributes of its first match, by alphabetically first policy name and then by config index, and is absent if none matches |
| `PolicyController.FirstMatchUnique` | pkg/controller/resourcepolicycontroller.go:121-185 | with distinct names the first match does not depend on the order of the list |
| `PolicyController.ResolvedUnique` | pkg/controller/resourcepolicycontroller.go:191-225 | nor do the resolved attributes depend on the order of the objects |
| `PolicyController.OrderInvariance` | pkg/controller/resourcepolicycontroller.go:121-225 | the policy map is the same under every order of policies, objects and map iteration |
| `PolicyController.MatchingReadsReserved` | pkg/controller/resourcepolicycontroller.go:264-370 | filters read reserved attributes only |
| `PolicyController.PolicyMapIgnoresPolicyAttributes` | pkg/controller/resourcepolicycontroller.go:109-113 | tables that agree on reserved attributes have the same policy maps |
| `PolicyController.MappedPF` | pkg/controller/resourcepolicycontroller.go:151-163 | a PF in the map has no VFs and was asked for by a filter that says pf |
| `PolicyDevices.Manager.GetAdvertisedDevices` | pkg/devicestate/state.go:518-526 | returns exactly the discovered devices that a policy owns, for every iteration order |
| `PolicyDevices.Manager.ClearPolicyAttributes` | pkg/devicestate/state.go:625-644 | removes exactly the keys the device owns, forgets the device, and reports whether there were any |
| `PolicyDevices.Manager.ApplyPolicyAttributes` | pkg/devicestate/state.go:564-606 | stale keys go, non-reserved ones come; a change is reported exactly when the attributes differ |
| `PolicyDevices.Manager.UpdatePolicyDevices` | pkg/devicestate/state.go:532-622 | the new table is the specified one, and the slice is republished exactly when the specified change happened |
| `PolicyDevices.ChangedExactly` | pkg/devicestate/state.go:536-611 | the three reasons to republish add up to: some attribute changed or some device joined |
| `PolicyDevices.UpdateAfterClear` | pkg/devicestate/state.go:536-606 | clearing first makes no difference to the resulting table |
| `PolicyDevices.UpdateReads` | pkg/devicestate/state.go:536-606 | one attribute after an update: what the policies say if they may write it, nothing if they said it before, else what it was |
| `PolicyDevices.UpdateOwns` | pkg/devicestate/state.go:536-606 | and which attributes the policies own then |
| `PolicyDevices.AdvertisedReads` | pkg/devicestate/state.go:518-526 | advertised are the discovered devices that some policy owns |
| `PolicyRuns.Reconcile` | pkg/controller/resourcepolicycontroller.go:72-116 | one reconcile applies the policy map of its requests: a device is in it exactly when a policy whose node selector matches takes it, with the attributes of the first such policy; a failed read changes nothing |
| `PolicyRuns.MatchingHas` | pkg/controller/resourcepolicycontroller.go:103-108 | the policies that are used are those whose selector matches the node, as often as they are listed |
| `PolicyRuns.MatchingKeepsOrder` | pkg/controller/resourcepolicycontroller.go:103-108 | in the order of the list |
| `PolicyRuns.MatchingMaps` | pkg/controller/resourcepolicycontroller.go:103-185 | a policy map of those policies, in terms of the policies of the cluster and the node selector alone |
| `PolicyRuns.ReconcileAll` | pkg/controller/resourcepolicycontroller.go:72-116 | every sequence of reconciles of a manager with a republish callback is a run of the kind the theorems are about |
| `PolicyRuns.HistoryIndependence` | pkg/devicestate/state.go:528-644 | after any run of updates the table is what the last policy map alone makes of the discovered devices |
| `PolicyRuns.FromScratchReads` | pkg/devicestate/state.go:528-622 | that table holds the discovery attributes plus exactly the non-reserved attributes of the map, and owns exactly those |
| `PolicyRuns.UpdateIsIdempotent` | pkg/devicestate/state.go:562-611 | an identical update changes nothing and republishes only for unknown devices |
| `PolicyRuns.StaleAfterUpdate` | pkg/devicestate/state.go:536-622 | an update that starts in step leaves the slice out of date exactly when it changes something and the publication is refused, or changes nothing and drops a device |
| `PolicyRuns.ChangeShows` | pkg/devicestate/state.go:536-611 | whatever makes an update republish is visible in the advertised devices |
| `PolicyRuns.DropWithoutAttributesStaysPublished` | pkg/devicestate/state.go:626-629 | such an update exists |
| `PolicyRuns.TraceRuns` | pkg/controller/resourcepolicycontroller.go:109-113 | the table over a run of reconciles is the run of the in-place edits alone |
| `PolicyRuns.FeedbackFree` | pkg/controller/resourcepolicycontroller.go:109-113 | over any run each map equals the one computed from raw discovery |
| `PolicyRuns.ReconcileIsIdempotent` | pkg/controller/resourcepolicycontroller.go:72-116 | reconciling the same objects again, in any order, changes and publishes nothing |
| `PolicyRuns.FailedPublicationIsNotRetried` | pkg/devicestate/state.go:608-622 | after a refused publication the same objects, in any order, do not publish again; the slice is then out of date exactly when they ask for anything different |
| `PolicyRuns.PublishedIsAdvertised` | pkg/devicestate/state.go:536-622 | published equals advertised over every run in which each advertised device owns an attribute and publishing succeeds |
| `PolicyRuns.PublishedIsLast` | pkg/devicestate/state.go:536-622 | over every run, whatever publications fail, the published slice is what was advertised after the last reconcile that changed something and was accepted |
| `PolicyRuns.PFExcludesVFs` | pkg/controller/resourcepolicycontroller.go:151-163 | after discovery and any run of reconciles a PF is never advertised together with its VFs, and only if a filter says pf |
| `PolicyRuns.PublishedPFExcludesVFs` | pkg/controller/resourcepolicycontroller.go:151-163 | nor do a PF and its VFs ever stand together in the published slice, whatever publications fail |
| `PolicyRuns.TableStaysFiled` | pkg/devicestate/state.go:528-644 | after discovery and any run of reconciles each entry is filed under the name of the PCI address it holds, and the devices are the discovered ones |
| `PolicyRuns.TableHoldsVF` | pkg/devicestate/discovery.go:211-288 | so at any point of a run the entry of a VF holds the PCI address of that VF, not that of its PF |
| `VfConfigs.VfConfig.Override` | pkg/api/virtualfunction/v1alpha1/api.go:71-84 | non-empty fields of the other config win; two fields are never copied |
| `VfConfigs.PartitionBySource` | pkg/devicestate/statehelpers.go:34-48 | splits the configs by source in order, and fails exactly for an unknown source |
| `VfConfigs.GetMapOfOpaqueDeviceConfig` | pkg/devicestate/statehelpers.go:25-85 | the configs of each request are the merged ones, and the call fails exactly for an unknown source or an undecodable config of this driver |
| `VfConfigs.MergedField` | pkg/devicestate/statehelpers.go:50-81 | a field is the last non-empty claim value, else the last class value, else the default, whatever the interleaving |
| `VfConfigs.MergedSettings` | pkg/devicestate/statehelpers.go:34-81 | this precedence for driver, interface, attachment and MAC; the vhost flag and the namespace never come from a config |
| `VfConfigs.ConfigMeans` | pkg/devicestate/statehelpers.go:25-85 | the two sources a config may have, and that a config of this driver must decode |
| `VfConfigs.LastOfClaimWins` | pkg/devicestate/statehelpers.go:25-85 | the last config of the claim that says anything of a field wins |
| `VfConfigs.LastOfClassWins` | pkg/devicestate/statehelpers.go:25-85 | where the claim says nothing, the last config of the class wins |
| `VfConfigs.NobodyWins` | pkg/devicestate/statehelpers.go:25-85 | where neither says anything, the field stays empty |
| `VfConfigs.MergedIsConfigured` | pkg/devicestate/statehelpers.go:25-85 | so each copied field of a request is what its configs say, whether any config names the request or not |
| `VfConfigs.MergedAllUnique` | pkg/devicestate/statehelpers.go:25-85 | the merged configs are determined by the claim: whatever the call returns, it is the merge of all its configs |
| `Host.Host.EnsureDpdkModuleLoaded` | pkg/host/host.go:830-886 | succeeds exactly when the missing modules load; only vfio-pci is known |
| `Host.Host.UnbindDriverByBusAndDevice` | pkg/host/host.go:609-620 | an unbound device is a success without effect |
| `Host.Host.BindDriverByBusAndDevice` | pkg/host/host.go:576-606 | follows the specified transition from every binding and every refused call, and touches only this device |
| `Host.Host.BindDefaultDriver` | pkg/host/host.go:546-571 | exactly the slot and the answer of the specified run; in plain terms, a device without driver or on vfio-pci, uio_pci_generic or igb_uio ends on the driver that the probe binds, and one on any other driver is left alone |
| `Host.Host.BindDeviceDriver` | pkg/host/host.go:507-532 | likewise, and returns the driver to restore |
| `Host.Host.RestoreDeviceDriver` | pkg/host/host.go:535-543 | exactly the slot and the answer of the specified run; in plain terms, a success ends on the original driver, or, if there was none, on the probed driver when the device was free or on one of the three DPDK drivers, and on the driver it has otherwise |
| `Host.BindEnds` | pkg/host/host.go:507-606 | a successful bind ends on its target with the override cleared, or finds nothing to bind and changes nothing |
| `Host.RestoreEnds` | pkg/host/host.go:535-606 | a successful restore ends on the original driver or the default, from any state; it leaves an override exactly if it finds the device there already with one |
| `Host.BindThenRestore` | pkg/host/host.go:507-606 | bind then restore, each with its own luck, puts the device back exactly: the driver it started with, or the probed default after a DPDK or default target, and no override unless nothing was to be bound |
| `Host.RestorePossible` | pkg/host/host.go:830-886 | without refusals a restore is possible exactly for drivers other than the two unknown DPDK ones |
| `Host.DpdkDrivers` | pkg/host/host.go:705-712 | the DPDK drivers are vfio-pci, uio_pci_generic and igb_uio; the loader knows the modules of the first only |
| `Host.FreeThenRestored` | pkg/host/host.go:507-606 | a device without driver that is bound and restored is on the probed driver after a DPDK or default target, and on the target after any other |
| `Host.FailedBindLeaves` | pkg/host/host.go:507-606 | for every target, a failed bind leaves exactly the state at which it broke off; the old driver is still bound exactly when it was refused before the unbind, or there was none to lose and none was gained |
| `Host.RefusedBindLosesDriver` | pkg/host/host.go:595-605 | a concrete bind that fails and loses the driver |
| `Host.RebindAfterFailure` | pkg/host/host.go:507-606 | after a failed bind, a successful bind and a successful restore, the device is on the driver it is to be on exactly if the failure was harmless: before the unbind, or with nothing to lose, or where the probe binds the lost driver again |
| `Host.SecondBindForgetsDriver` | pkg/host/host.go:595-605 | a concrete device that is put back to vfio-pci |
| `Host.RestoreIsIdempotent` | pkg/host/host.go:535-606 | restoring again changes nothing, whatever is refused |
| `Host.RetriedRestoreEnds` | pkg/host/host.go:535-606 | after any number of failed attempts, with any modules loaded at each, the first success puts the device back, but for an override that names its own driver |
| `Host.OverrideLeftExactly` | pkg/host/host.go:576-606 | an override is left exactly when an attempt binds the original driver and is refused the clearing of the override |
| `Host.RetryLeavesOverride` | pkg/host/host.go:595-605 | a concrete retried restore that leaves the override set |
| `Host.RestoredLate` | pkg/host/host.go:535-606 | broken attempts in between make no difference to where a restore ends, the override apart |
| `PodManager.PodManager.SyncToCheckpoint` | pkg/podmanager/podmanager.go:165-172 | the checkpoint becomes the deep value of memory, or stays |
| `PodManager.PodManager.Set` | pkg/podmanager/podmanager.go:67-76 | memory holds the entry in any case; the checkpoint only if written |
| `PodManager.PodManager.Get` | pkg/podmanager/podmanager.go:80-88 | found exactly when recorded under this pod, with its devices |
| `PodManager.PodManager.GetDevicesByPodUID` | pkg/podmanager/podmanager.go:92-104 | the devices of all claims of the pod, each claim once |
| `PodManager.FlattenedJoins` | pkg/podmanager/podmanager.go:92-105 | the devices of the claims follow one another, each claim whole |
| `PodManager.PodManager.DeletePod` | pkg/podmanager/podmanager.go:107-112 | exactly this pod goes |
| `PodManager.PodManager.GetByClaim` | pkg/podmanager/podmanager.go:115-127 | found exactly when some pod holds the claim |
| `PodManager.PodManager.UpdatePreparedDeviceNetworkData` | pkg/podmanager/podmanager.go:131-140 | exactly the records of this object change, in memory and checkpoint alike |
| `PodManager.PodManager.DeleteClaim` | pkg/podmanager/podmanager.go:144-163 | the pod that holds the claim goes, with everything it holds |
| `PodManager.DeepAfterUpdate` | pkg/types/types.go:95-101 | an update through an aliased pointer changes the deep value at the tracked positions only |
| `PodManager.DeepStored` | pkg/podmanager/podmanager.go:67-76 | storing does to the deep value what its operation says |
| `PodManager.DeepWithout` | pkg/podmanager/podmanager.go:107-163 | so do the two deletions |
| `PodManager.NewPodManager` | pkg/podmanager/podmanager.go:26-63 | a restart loads exactly the checkpoint, in new objects, or writes an empty one |
| `PodRuns.CheckpointIsLastSync` | pkg/podmanager/podmanager.go:26-76 | over any interleaving of operations, refused writes and restarts the checkpoint is memory at the last successful sync, and a restart brings back that |
| `PodRuns.DeletedStaysDeleted` | pkg/podmanager/podmanager.go:131-163 | a claim in neither memory nor checkpoint never comes back through late updates or restarts |
| `PodRuns.DeletedReturnsExactly` | pkg/podmanager/podmanager.go:26-163 | a claim that left memory comes back exactly when the checkpoint still has it and a restart comes before the next write that is taken |
| `PodRuns.Execute` | pkg/podmanager/podmanager.go:26-172 | one call or restart over the heap, with any aliasing, does to memory and checkpoint what its event says |
| `PodRuns.ExecuteAll` | pkg/podmanager/podmanager.go:26-172 | every sequence of calls and restarts over the heap is a run of such events |
| `PodRuns.DeleteClaimKeepsOthers` | pkg/podmanager/podmanager.go:144-163 | the other claims survive exactly when the pod held no other |
| `PodRuns.DeleteThenLateUpdate` | pkg/nri/nri.go:178-227 | an update that arrives after its claim was deleted leaves memory without it; the checkpoint loses it exactly if one of the two writes is taken |
| `Resources.ApiServer.UpdateWithRetry` | pkg/driver/dra_hook.go:170-201 | within five attempts, with other writers in between, the claim holds what the answers decide: the original list if any attempt is accepted |
| `Resources.AcceptedWins` | pkg/driver/dra_hook.go:170-201 | an accepted attempt writes the original list, whatever other writers wrote after a conflict |
| `Resources.TheirsIsLost` | pkg/driver/dra_hook.go:170-201 | the last other writer's list is lost exactly when a later attempt is accepted, unless it was the same |
| `Nri.GroupNetworkDataByClaim` | pkg/nri/nri.go:252-268 | each group is the naive filter of the queue by claim |
| `Nri.GroupsPartition` | pkg/nri/nri.go:252-268 | every valid item is in its own group as often as queued, and in no other |
| `Nri.GroupsKeepOrder` | pkg/nri/nri.go:252-268 | groups keep the order of the queue |
| `Nri.BuildClaimStatusDeviceIndex` | pkg/nri/nri.go:270-281 | the index lists all positions of every key in order |
| `Nri.UpdateClaimDeviceStatus` | pkg/nri/nri.go:283-313 | updating through the index is the naive scan over all entries |
| `Nri.UpdateOne` | pkg/nri/nri.go:207-229 | the status is touched only after the checkpoint write was taken |
| `Nri.UpdateClaim` | pkg/nri/nri.go:198-238 | one claim's group: its devices' last data in memory, the checkpoint all of memory if the last write was taken, no other claim's status changed, and its own status on the API server: if an update that was persisted is for one of its entries and an attempt is accepted, every entry carries the network data of the last persisted update for its device and the data string of the last that could be built; if there is no such update, or no attempt is accepted and nobody else writes, it stays |
| `Nri.UpdateNetworkDeviceData` | pkg/nri/nri.go:192-239 | the whole queue, for every order of the claims: every published status, likewise in terms of the updates that were persisted, the memory of every queued device, and the checkpoint up to date if the last write of every group was taken |
| `Nri.OutcomeShown` | pkg/nri/nri.go:206-239 | the published status, entry by entry, in terms of the updates that were persisted |
| `Nri.PublishedIsPersisted` | pkg/nri/nri.go:207-229 | a published entry carries the data of the last persisted update of its device, and none that was not persisted |
| `Nri.PublishedIsStored` | pkg/nri/nri.go:207-229 | what was published for a tracked device is what memory, and so an up-to-date checkpoint, holds for it, if its last update was the published one |
| `ClaimTransaction.ClaimManager.UnprepareDevices` | pkg/devicestate/state.go:494-515 | restores in order, stops at the first failure, touches nothing else, and leaves every device restorable |
| `ClaimTransaction.ClaimManager.CleanDeviceInfoFiles` | pkg/devicestate/deviceinfo.go:128-156 | removes exactly the claim's entries, or reports a failure |
| `ClaimTransaction.ClaimManager.SaveDeviceInfo` | pkg/devicestate/deviceinfo.go:96-125 | writes one entry; a device without address is an error |
| `ClaimTransaction.ClaimManager.SyncDeviceInfoFiles` | pkg/devicestate/deviceinfo.go:66-93 | every device's entry is on disk, or a failure is reported; others' entries stay |
| `ClaimTransaction.ClaimManager.Unprepare` | pkg/devicestate/state.go:464-491 | every part is tried; success means entries, specs and drivers are all undone |
| `ClaimTransaction.ClaimManager.BindAndEquip` | pkg/devicestate/state.go:245-326 | a failure past the bind is compensated; one in the bind leaves exactly the state at which that bind broke off |
| `ClaimTransaction.ClaimManager.ApplyConfigOnDevice` | pkg/devicestate/state.go:213-372 | what a prepared device records, and what a failure leaves of it |
| `InterfaceNames.ClashExactly` | pkg/devicestate/state.go:334-341 | two claims have an interface name in common exactly when their numbers meet, a config of one names a numbered interface of the other, or both configs give one name |
| `InterfaceNames.NumberedClashExactly` | pkg/devicestate/state.go:334-341 | numbered interfaces clash exactly when the number ranges overlap; starting at the same number, exactly when each claim has a device whose config names no interface |
| `InterfaceNames.SelfClashExactly` | pkg/devicestate/state.go:334-341 | within one claim names clash exactly when a config names a numbered interface, or one name is configured twice |
| `InterfaceNames.NamesExample` | pkg/devicestate/state.go:334-341 | three devices and their names: the numbers run on over the one that its config names |
| `InterfaceNames.ConfiguredMeetsNumbered` | pkg/devicestate/state.go:334-341 | an input that clashes inside one claim by its configured name |
| `InterfaceNames.OneNameTwoDevices` | pkg/devicestate/state.go:334-341 | one configured name for two devices clashes |
| `ClaimTransaction.ClaimManager.PrepareDevices` | pkg/devicestate/state.go:167-211 | all devices are bound and the status lists them, or those before the failure are rolled back |
| `ClaimTransaction.ClaimManager.PublishPrepared` | pkg/devicestate/state.go:141-162 | entries and spec are written, or everything is undone |
| `ClaimTransaction.ClaimManager.PrepareDevicesForClaim` | pkg/devicestate/state.go:123-165 | all or nothing, in terms of the table and the claim's configs: a failure touches no device and no device-info entry but the claim's and writes no spec; if compensated, each device is as before, put back, or where its own bind broke off, and exactly the claim's entries are gone if any file was touched, and none otherwise; in a reliable environment it succeeds exactly if the claim can be prepared; and by name, in a table filed by address: an address whose device no result of this driver names keeps its driver whatever happens, and on success the address that a result's device is named after is the one that is recorded, carries the driver that the request's configs say, and stands in the device-info entry; the claim's spec lists exactly the devices of its results |
| `ClaimTransaction.ClaimManager.OthersAreKept` | pkg/devicestate/state.go:167-234 | confinement to the claim's PCI addresses, in terms of the device names in its results |
| `ClaimTransaction.ClaimManager.AllBoundByName` | pkg/devicestate/state.go:213-372 | what is bound and recorded for each result, in terms of its device's name and of the claim's configs |
| `ClaimTransaction.ClaimManager.EntriesNamed` | pkg/devicestate/deviceinfo.go:37-125 | the device-info entry under the two Multus attributes of a result's device has its address and RDMA devices |
| `ClaimTransaction.ClaimManager.SpecNamed` | pkg/devicestate/state.go:155-162 | the claim's spec lists the devices of its results under the claim's UID, and no other |
| `ClaimTransaction.ClaimManager.SettingsSay` | pkg/devicestate/state.go:167-192 | each field of the settings that a request is prepared with is what the claim's configs say, claim before class |
| `ClaimTransaction.ClaimManager.StatusReads` | pkg/devicestate/state.go:193-205 | one status entry for each result of this driver, in order, with its pool, device and merged settings |
| `ClaimTransaction.OursMeans` | pkg/devicestate/state.go:167-183 | the results that are prepared are those of this driver, as often as listed |
| `ClaimTransaction.ClaimManager.KeysDescribed` | pkg/devicestate/deviceinfo.go:66-156 | the device-info keys of prepared devices are those the table has for the claim's results |
| `ClaimTransaction.ClaimManager.BoundReads` | pkg/devicestate/state.go:123-165 | what publication goes by, keys, addresses and owner, is that of the claim |
| `ClaimTransaction.ClaimManager.NoVhost` | pkg/devicestate/state.go:266-271 | the merged configs never ask for the vhost mount |
| `ClaimTransaction.UndoAfterFailure` | pkg/devicestate/state.go:184-192 | restoring the devices before a failure rolls the whole claim back |
| `ClaimRoundTrip.RetriedUnprepare` | pkg/devicestate/state.go:464-515 | whichever attempt succeeds first, all devices are put back, entries and specs gone |
| `ClaimRoundTrip.PrepareThenUnprepare` | pkg/devicestate/state.go:123-211 | prepare then retried unprepare puts every device back, without an override if the first attempt succeeds, leaves no spec and removes exactly the entries under the keys the table has for the claim; in a reliable environment it is possible exactly when the claim can be prepared and each device started on a driver that can be bound again |
| `ClaimRoundTrip.PrepareAgainThenUnprepare` | pkg/devicestate/state.go:123-211 | a prepare rolled back for a failed bind, a second one that succeeds, and an unprepare: the device of the bind is on the driver it is to be on exactly if the failure was harmless |
| `ClaimRoundTrip.HeldThenRestored` | pkg/devicestate/state.go:494-515 | a successful restore puts back every device that nothing but broken attempts has touched since its bind |
| `ClaimRoundTrip.DistinctResultsMeans` | pkg/devicestate/state.go:167-183 | distinct devices, in terms of the device names in the results |
| `ClaimRoundTrip.VFIsPrepared` | pkg/devicestate/state.go:213-234 | from discovery through any run of reconciles to the bind: the VF that a result names is bound and recorded at its own address, and a VF that no result names is left alone |
| `DraHook.Driver.PrepareResourceClaim` | pkg/driver/dra_hook.go:109-205 | the answer by cases and the whole new state: a recorded claim is answered with its devices without any effect; a new one is bound, published, recorded and checkpointed, or leaves what the rollback leaves, or stays in memory unprepared; its status is what the API server makes of the list that was sent; in a reliable environment it is ready exactly if it can be prepared and its record written |
| `DraHook.Driver.Record` | pkg/driver/dra_hook.go:157-168 | a claim whose record is refused is unprepared, but stays in memory |
| `DraHook.Driver.UnprepareResourceClaim` | pkg/driver/dra_hook.go:221-242 | an unknown claim is skipped; else teardown of drivers, entries and specs, then deletion of the record; in a reliable environment it succeeds exactly if the devices can be restored |
| `DraHook.Driver.UnprepareResourceClaims` | pkg/driver/dra_hook.go:207-219 | one answer per claim, each from its own step of the chain |
| `DraHook.Driver.RollbackPreparedClaims` | pkg/driver/dra_hook.go:87-107 | every claim of the batch is unprepared in turn, whatever fails |
| `DraHook.Driver.ListAddresses` | pkg/driver/dra_hook.go:60-71 | the addresses of the devices, or one that the table lacks |
| `DraHook.Driver.PublishPod` | pkg/driver/dra_hook.go:52-83 | the pod's spec lists the addresses of all its devices, or the batch is rolled back, exactly for the stated reasons |
| `DraHook.Driver.PrepareAll` | pkg/driver/dra_hook.go:28-39 | the claims are prepared in a chain of steps, the interface numbering running on from one to the next, and each status sent as the chain says |
| `DraHook.Driver.PrepareResourceClaims` | pkg/driver/dra_hook.go:20-84 | a batch is its chain of prepares, its answers, and the outcome of publishing its pod or rolling back; when it stands, the spec of its first pod has the addresses of exactly the devices that the pod holds, by name |
| `DraHook.AnswersMean` | pkg/driver/dra_hook.go:28-39 | one answer for each claim of the call, the last one given for it |
| `DraHook.PodOfMeans` | pkg/driver/dra_hook.go:41-50 | the pod of a call is that of the first claim that is reserved for one |
| `DraHook.AddressesMean` | pkg/driver/dra_hook.go:57-71 | one address for each device, the one that it is named after |
| `DraHook.PublishedByName` | pkg/driver/dra_hook.go:52-74 | the pod's spec has the address of every device the pod holds, and nothing else |
| `DraState.ShowsMeans` | pkg/types/types.go:79-94 | the kubelet is told requests, pool, device, CDI IDs and attributes of every record, in order |
| `DraState.AsksForMeans` | pkg/devicestate/state.go:167-234 | which addresses a claim asks for, in terms of its results |
| `DraState.PreparesKeepsSound` | pkg/driver/dra_hook.go:109-205 | preparing a scheduled claim keeps records apart and every spec recorded, whatever fails |
| `DraState.PreparesKeepsConsistent` | pkg/driver/dra_hook.go:109-205 | and keeps specs and records in step with the bound drivers unless the record could not be written |
| `DraState.UnrecordedIsOutOfStep` | pkg/driver/dra_hook.go:157-168 | a claim whose record could not be written, and that was unprepared, leaves records and specs out of step |
| `DraState.UnpreparesKeeps` | pkg/driver/dra_hook.go:221-242 | unpreparing a claim that shares its pod with no other keeps both invariants |
| `DraState.RemovalForgets` | pkg/podmanager/podmanager.go:156-159 | every other claim of the pod keeps its spec and its drivers, and is recorded no more |
| `DraState.RemovalExactly` | pkg/podmanager/podmanager.go:156-159 | records and specs stay sound exactly when the claim was the only one of its pod |
| `DraBatches.UnprepareChainExactly` | pkg/driver/dra_hook.go:207-242 | a list of claims is unprepared without leaving a spec behind exactly when none shares its pod with another claim |
| `DraBatches.StandingBatchKeeps` | pkg/driver/dra_hook.go:20-84 | what a batch that stands keeps |
| `DraBatches.RolledBackBatchUntracks` | pkg/driver/dra_hook.go:52-107 | after a complete rollback no claim of the batch is recorded, however the pods are shared |
| `DraBatches.RolledBackBatchExactly` | pkg/driver/dra_hook.go:52-107 | and no spec is left behind exactly when no claim of the batch shares its pod, in terms of the records before and the claims answered ready, or, in a reliable environment, those that can be prepared |
| `DraBatches.PreparedUnsharedExactly` | pkg/driver/dra_hook.go:28-39 | which claims share a pod after the prepares, from the records before and the answers |
| `DraBatches.StatusIsPublished` | pkg/driver/dra_hook.go:170-201 | the status of a newly prepared claim is the list that was sent once an attempt was accepted |
| `DraBatches.ReadyExactly` | pkg/driver/dra_hook.go:109-205 | in a reliable environment a claim is ready exactly if it is recorded or can be prepared |
| `DraBatches.BatchSucceeds` | pkg/driver/dra_hook.go:20-84 | in a reliable environment a batch of such claims is ready throughout, and its pod's spec is written exactly if the table has the devices the pod held before |
| `DraBatches.NewNamesClashExactly` | pkg/driver/dra_hook.go:28-39 | two claims prepared in one call have a name in common exactly when a config of one names a numbered interface of the other, or both give one name |
| `DraBatches.OwnNamesClashExactly` | pkg/devicestate/state.go:334-341 | the devices of one claim have a name in common exactly when a config names a numbered one, or one name is configured twice |
| `DraRuns.CallStaysOrderly` | pkg/driver/dra_hook.go:20-242 | each call, late update or restart on an up-to-date checkpoint keeps records apart and every spec recorded |
| `DraRuns.RunsAreOrderly` | pkg/driver/dra_hook.go:20-242 | so does every scheduled run with one claim per pod, whatever fails |
| `DraRuns.RecordedIffPrepared` | pkg/driver/dra_hook.go:20-242 | if moreover no teardown and no checkpoint write fails, then through every crash and restart the checkpoint is up to date, a claim is recorded exactly when its spec exists, and its devices carry the configured drivers |
| `DraRuns.Serve` | pkg/driver/dra_hook.go:20-242 | every sequence of calls, late updates and crashes is such a run |
| `DraRuns.RestartKeeps` | pkg/podmanager/podmanager.go:26-63 | a restart on an up-to-date checkpoint keeps both invariants |
| `DraRuns.RestartOrphansExactly` | pkg/podmanager/podmanager.go:26-63 | a restart on any checkpoint leaves specs without a record exactly for the claims that the checkpoint lacks |
| `DraRuns.Restart` | pkg/podmanager/podmanager.go:26-63 | a crash and restart, from any checkpoint, comes up with exactly its records, in new objects |
| `DraRuns.UnprepareTwoOfOnePod` | pkg/driver/dra_hook.go:226-229 | the second claim of a pod is skipped with success, its spec and drivers still there; in a reliable environment exactly when the first can be restored |
| `DraRuns.RetryUnrecorded` | pkg/driver/dra_hook.go:157-168 | after a refused checkpoint write the next call reports the claim ready however far it was unprepared, its devices bound, put back or halfway; if completely, records and specs are out of step; in a reliable environment that happens exactly to the claims that can be prepared and undone |
| `DraRuns.PrepareInTwoCalls` | pkg/driver/dra_hook.go:29-39 | two claims of one pod in two calls, the first met again as recorded, clash exactly when each has a device whose config names no interface, or by a configured name; in a reliable environment for all claims that can be prepared |
| `DraUndo.CallHolds` | pkg/driver/dra_hook.go:20-242 | a call leaves the devices of a recorded claim as bound or as broken attempts left them, or removes the record and puts them back |
| `DraUndo.HeldOverRuns` | pkg/driver/dra_hook.go:20-242 | so they are at every point of a run at which the claim is still recorded |
| `DraUndo.UndoneOverRuns` | pkg/driver/dra_hook.go:20-242 | over every scheduled run with one claim per pod, the call that removes the record of a claim puts every device back as it was before the call that recorded it, whatever other claims, late updates, failed teardowns and crashes lie between |
| `DraUndo.UnpreparedIsPutBack` | pkg/driver/dra_hook.go:207-242 | in particular an unprepare that is answered with success |

## Left out

- sysfs, procfs, netlink, devlink, modprobe, RDMA and VFIO lookups: their results are
  parameters, their failures refusals. The first half of discovery (reading PCI devices
  into PF descriptions) is not modelled.
- A refused operation of the environment changes nothing; torn writes are not modelled.
- CDI spec contents beyond device names and pod addresses, spec versions, device nodes,
  mounts and environment variables: they do not bear on the state kept.
- JSON, the checkpoint checksum and the rewriting of NAD configs: abstract functions.
- Label and node selectors: uninterpreted predicates.
- Backoff times: only the number of attempts is modelled.
- Attribute names are constructors of a datatype, so their spelling is not stated.
- Claim and pod UIDs name spec files of their own, so a claim UID never equals a pod UID.
- Nil claims, nil prepared devices and nil configs: the model has no nil entries.
- A discovered device always has a PCI address attribute; the dereference of a missing
  one when the pod spec is written is not modelled.
- The attribute map of a published device is a value in the model, so edits that reach a
  published slice through the shared map are not modelled.
- Data races: calls of the manager and the driver are atomic steps.
- Metadata updates of requests before the sandbox starts, CNI, health checks, controller
  watches and main: plumbing.
- The Drivers filter, which the repository does not implement either.
- PolicyController.ToLower: lower-cases ASCII letters only.
- PolicyController.OrderInvariance: assumes distinct names, as the API server guarantees within a namespace; with equal names the Go sort leaves the order open.
- Discovery.DiscoverSriovDevices: the table is characterised for distinct, well-formed addresses; with clashing ones the later entry wins and nothing is claimed.
- ClaimTransaction.ClaimManager.PrepareDevicesForClaim: the clauses by name assume a table filed by address, which `PolicyRuns.TableStaysFiled` shows of every table that discovery and any reconciles leave; the rollback clause assumes that the claim's devices are pairwise distinct, and a device whose own bind broke off is left there, as the code does not compensate that.
- ClaimRoundTrip.PrepareThenUnprepare: assumes pairwise distinct devices, which the scheduler guarantees.
- DraBatches.NewNamesClashExactly: outside Multus mode; in Multus mode the driver names no interface itself.
- DraUndo.UndoneOverRuns: one claim per pod, and restarts that find the checkpoint up to date, as for the invariants; a driver override may be left where a restore was tried again.
- DraRuns.RunsAreOrderly: one claim per pod, and restarts that find the checkpoint up to date; `DraState.RemovalExactly` and `DraRuns.RestartOrphansExactly` show what happens otherwise.
- DraRuns.RecordedIffPrepared: one claim per pod, and no failed teardown or checkpoint write; `DraRuns.RetryUnrecorded` shows what happens otherwise.
- DraRuns.Serve: the policy table does not change between the calls of a run.
