/** Driver binding through sysfs: bind, unbind, override, probe, restore. Each
    operation is a short run of system calls that stops at the first one the
    kernel refuses; `Step` says which one that is. */
module Host {
  import opened Options

  /** What sysfs says of one PCI device: the driver it is bound to ("" for none)
      and its driver override ("" for none). */
  datatype Slot = Slot(driver: string, override: string)

  /** What does not change: whether the device has a driver_override file, and
      the driver a probe without override binds ("" if none claims it). */
  datatype Traits = Traits(overridable: bool, native: string)

  /** The system call that the kernel refuses, if any. `Load` names the modules
      that cannot be loaded. */
  datatype Step =
    | Never
    | ReadCurrent
    | Load(refused: set<string>)
    | Read
    | ReadAgain
    | Unbind
    | SetOverride
    | BindOrProbe
    | ClearOverride

  predicate IsDpdkDriver(driver: string)
  {
    driver == "vfio-pci" || driver == "uio_pci_generic" || driver == "igb_uio"
  }

  /** DPDK drivers whose kernel modules the driver does not know. */
  predicate Unsupported(driver: string) { IsDpdkDriver(driver) && driver != "vfio-pci" }

  function NeededModules(driver: string): set<string>
  {
    if driver == "vfio-pci" then {"vfio", "vfio_pci"} else {}
  }

  /** The modules for `driver` are there, or can be loaded. */
  predicate ModulesLoad(driver: string, modules: set<string>, at: Step)
  {
    !Unsupported(driver) && (at.Load? ==> (NeededModules(driver) - modules) !! at.refused)
  }

  function Overriding(s: Slot, t: Traits, override: string): Slot
  {
    if t.overridable then s.(override := override) else s
  }

  /** Where binding to `driver` leaves a device, and whether it succeeds. */
  function Rebind(s: Slot, t: Traits, modules: set<string>, driver: string, at: Step): (Slot, bool)
  {
    if !ModulesLoad(driver, modules, at) || at.Read? then (s, false)
    else if s.driver != "" && s.driver == driver then (s, true)
    else if s.driver != "" && (at.ReadAgain? || at.Unbind?) then (s, false)
    else
      match at
      case SetOverride => (s.(driver := ""), false)
      case BindOrProbe => (Overriding(s.(driver := ""), t, driver), false)
      case ClearOverride => (Overriding(s.(driver := driver), t, driver), false)
      case _ => (Overriding(s.(driver := driver), t, ""), true)
  }

  /** Where binding to the default driver leaves a device: a bound driver that is
      no DPDK driver counts as the default. */
  function RebindDefault(s: Slot, t: Traits, at: Step): (Slot, bool)
  {
    if at.Read? then (s, false)
    else if s.driver != "" && !IsDpdkDriver(s.driver) then (s, true)
    else if s.driver != "" && (at.ReadAgain? || at.Unbind?) then (s, false)
    else
      match at
      case SetOverride => (s.(driver := ""), false)
      case BindOrProbe => (Overriding(s.(driver := ""), t, ""), false)
      case _ => (Overriding(s.(driver := t.native), t, ""), true)
  }

  /** Binding to a configured driver; Some is the driver to restore later. */
  function Bind(s: Slot, t: Traits, modules: set<string>, target: string, at: Step): (Slot, Option<string>)
  {
    if target == "" then (s, Some(""))
    else if at.ReadCurrent? then (s, None)
    else
      var (slot, ok) := if target == "default" then RebindDefault(s, t, at) else Rebind(s, t, modules, target, at);
      (slot, if ok then Some(s.driver) else None)
  }

  /** The refused call that breaks off a bind: `at`, or the loading of the modules
      that comes before it. */
  function FaultOf(modules: set<string>, target: string, at: Step): Step
  {
    if at.ReadCurrent? || target == "default" || ModulesLoad(target, modules, at) then at
    else Load(NeededModules(target))
  }

  /** Where a bind that breaks off at `fault` leaves a device. */
  function BrokenBind(s: Slot, t: Traits, target: string, fault: Step): Slot
  {
    match fault
    case SetOverride => s.(driver := "")
    case BindOrProbe => Overriding(s.(driver := ""), t, DriverOf(target))
    case ClearOverride => Overriding(s.(driver := target), t, target)
    case _ => s
  }

  function Restore(s: Slot, t: Traits, modules: set<string>, original: string, at: Step): (Slot, bool)
  {
    if original == "" then RebindDefault(s, t, at) else Rebind(s, t, modules, original, at)
  }

  // ---- What success leaves ----------------------------------------------------------

  /** There is nothing to do: the device is on `driver`, or, for "", on a driver that
      counts as the default. */
  predicate AlreadyOn(s: Slot, driver: string)
  {
    s.driver != "" && if driver == "" then !IsDpdkDriver(s.driver) else s.driver == driver
  }

  /** A device on `driver`, or on the default for "", without an override. */
  function Landed(s: Slot, t: Traits, driver: string): Slot
  {
    if AlreadyOn(s, driver) then s
    else Slot(if driver == "" then t.native else driver, if t.overridable then "" else s.override)
  }

  /** The driver that a configured target stands for. */
  function DriverOf(target: string): string { if target == "default" then "" else target }

  /** A device in state `s` once it is bound to `target`. */
  function BoundSlot(s: Slot, t: Traits, target: string): Slot
  {
    if target == "" then s else Landed(s, t, DriverOf(target))
  }

  /** A device in state `s` that was bound to `target` and put back: untouched if
      there was nothing to bind; else without an override, on its driver again if
      it had one, on the default after a DPDK or default target, and on the target
      after any other. */
  function BackAs(s: Slot, t: Traits, target: string): Slot
  {
    if target == "" || AlreadyOn(s, DriverOf(target)) then s
    else
      Slot(if s.driver != "" then s.driver else if target == "default" || IsDpdkDriver(target) then t.native
           else target,
           if t.overridable then "" else s.override)
  }

  /** The state of `device`; one that is not on the bus has no driver. */
  function SlotAt(slots: map<string, Slot>, device: string): Slot
  {
    if device in slots then slots[device] else Slot("", "")
  }

  class Host {
    var slots: map<string, Slot>
    var modules: set<string>
    const traits: string -> Traits

    constructor (slots: map<string, Slot>, modules: set<string>, traits: string -> Traits)
      ensures this.slots == slots && this.modules == modules && this.traits == traits
    {
      this.slots, this.modules, this.traits := slots, modules, traits;
    }

    /** The state of `device`. */
    function At(device: string): Slot
      reads this
    {
      SlotAt(slots, device)
    }

    method EnsureDpdkModuleLoaded(driver: string, at: Step) returns (ok: bool)
      modifies `modules
      ensures ok <==> ModulesLoad(driver, old(modules), at)
      ensures old(modules) <= modules <= old(modules) + NeededModules(driver)
      ensures ok ==> NeededModules(driver) <= modules
      ensures driver == "vfio-pci" && ok ==> "vfio" in modules && "vfio_pci" in modules
      ensures driver == "vfio-pci" && at.Load? && !ok ==>
        ("vfio" in at.refused && "vfio" !in old(modules)) || ("vfio_pci" in at.refused && "vfio_pci" !in old(modules))
      ensures driver == "uio_pci_generic" || driver == "igb_uio" ==> !ok
      ensures driver !in {"vfio-pci", "uio_pci_generic", "igb_uio"} ==> ok && modules == old(modules)
    {
      if !IsDpdkDriver(driver) {
        return true;
      }
      if driver != "vfio-pci" {
        return false;
      }
      var modulesNames := ["vfio", "vfio_pci"];
      assert modulesNames[0] in NeededModules(driver) && modulesNames[1] in NeededModules(driver);
      var modulesToLoad: seq<string> := [];
      for i := 0 to |modulesNames|
        invariant forall m :: m in modulesToLoad <==> m in modulesNames[..i] && m !in modules
      {
        if modulesNames[i] !in modules {
          modulesToLoad := modulesToLoad + [modulesNames[i]];
        }
      }
      assert forall m :: m in NeededModules(driver) <==> m in modulesNames[..2];
      if |modulesToLoad| == 0 {
        return true;
      }
      ok := true;
      for i := 0 to |modulesToLoad|
        invariant old(modules) <= modules <= old(modules) + NeededModules(driver)
        invariant ok <==> forall m :: m in modulesToLoad[..i] ==> !(at.Load? && m in at.refused)
        invariant ok ==> forall m :: m in modulesToLoad[..i] ==> m in modules
      {
        var m := modulesToLoad[i];
        assert m in modulesToLoad;
        if at.Load? && m in at.refused {
          ok := false;
          assert m in modulesToLoad[..i + 1];
          continue;
        }
        modules := modules + {m};
      }
      assert modulesToLoad[..|modulesToLoad|] == modulesToLoad;
    }

    /** A refused write changes nothing. */
    method Set(device: string, slot: Slot, refused: bool) returns (ok: bool)
      modifies `slots
      ensures ok == !refused
      ensures slots == if refused then old(slots) else old(slots)[device := slot]
    {
      if !refused {
        slots := slots[device := slot];
      }
      ok := !refused;
    }

    method SetDriverOverride(device: string, override: string, refused: bool) returns (ok: bool)
      modifies `slots
      ensures ok == !refused
      ensures slots == if refused then old(slots)
                       else old(slots)[device := Overriding(old(At(device)), traits(device), override)]
    {
      ok := Set(device, Overriding(At(device), traits(device), override), refused);
    }

    method UnbindDriverByBusAndDevice(device: string, at: Step) returns (ok: bool)
      modifies `slots
      ensures ok <==> !at.ReadAgain? && (old(At(device)).driver == "" || !at.Unbind?)
      ensures slots == if ok && old(At(device)).driver != "" then old(slots)[device := old(At(device)).(driver := "")]
                       else old(slots)
    {
      if at.ReadAgain? {
        return false;
      }
      if At(device).driver == "" {
        return true;
      }
      ok := Set(device, At(device).(driver := ""), at.Unbind?);
    }

    method BindDriverByBusAndDevice(device: string, driver: string, at: Step) returns (ok: bool)
      modifies `slots, `modules
      ensures ok ==> At(device).driver == driver
      ensures ok && old(At(device)).driver != driver && traits(device).overridable ==> At(device).override == ""
      ensures ok == Rebind(old(At(device)), traits(device), old(modules), driver, at).1
      ensures At(device) == Rebind(old(At(device)), traits(device), old(modules), driver, at).0
      ensures Only(device, old(slots), slots)
      ensures old(modules) <= modules <= old(modules) + NeededModules(driver)
    {
      var loaded := EnsureDpdkModuleLoaded(driver, at);
      if !loaded {
        return false;
      }
      if at.Read? {
        return false;
      }
      var curDriver := At(device).driver;
      if curDriver != "" {
        if curDriver == driver {
          return true;
        }
        var unbound := UnbindDriverByBusAndDevice(device, at);
        if !unbound {
          return false;
        }
      }
      ok := BindFree(device, driver, at);
    }

    /** Binds a device without driver, through its override. */
    method BindFree(device: string, driver: string, at: Step) returns (ok: bool)
      requires At(device).driver == ""
      modifies `slots
      ensures ok <==> !at.SetOverride? && !at.BindOrProbe? && !at.ClearOverride?
      ensures At(device) ==
        match at
        case SetOverride => old(At(device))
        case BindOrProbe => Overriding(old(At(device)), traits(device), driver)
        case _ => Overriding(old(At(device)).(driver := driver), traits(device), if ok then "" else driver)
      ensures Only(device, old(slots), slots)
    {
      ok := SetDriverOverride(device, driver, at.SetOverride?);
      if !ok {
        return;
      }
      ok := Set(device, At(device).(driver := driver), at.BindOrProbe?);
      if !ok {
        return;
      }
      ok := SetDriverOverride(device, "", at.ClearOverride?);
    }

    method BindDefaultDriver(device: string, at: Step) returns (ok: bool)
      modifies `slots
      ensures old(At(device)).driver in {"", "vfio-pci", "uio_pci_generic", "igb_uio"} && ok ==>
        At(device).driver == traits(device).native
      ensures old(At(device)).driver !in {"", "vfio-pci", "uio_pci_generic", "igb_uio"} ==>
        (ok <==> !at.Read?) && At(device) == old(At(device))
      ensures ok == RebindDefault(old(At(device)), traits(device), at).1
      ensures At(device) == RebindDefault(old(At(device)), traits(device), at).0
      ensures Only(device, old(slots), slots)
    {
      if at.Read? {
        return false;
      }
      var curDriver := At(device).driver;
      if curDriver != "" {
        if !IsDpdkDriver(curDriver) {
          return true;
        }
        var unbound := UnbindDriverByBusAndDevice(device, at);
        if !unbound {
          return false;
        }
      }
      ok := SetDriverOverride(device, "", at.SetOverride?);
      if !ok {
        return;
      }
      ok := Set(device, At(device).(driver := traits(device).native), at.BindOrProbe?);
    }

    method BindDeviceDriver(device: string, target: string, at: Step) returns (original: Option<string>)
      modifies `slots, `modules
      ensures target != "" && original.Some? ==>
        original.value == if device in old(slots) then old(slots)[device].driver else ""
      ensures target !in {"", "default"} && original.Some? ==> At(device).driver == target
      ensures original.Some? && target == "default" ==>
        (old(At(device)).driver in {"", "vfio-pci", "uio_pci_generic", "igb_uio"} ==>
           At(device).driver == traits(device).native)
      ensures target == "default" && old(At(device)).driver !in {"", "vfio-pci", "uio_pci_generic", "igb_uio"} ==>
        At(device) == old(At(device))
      ensures original == Bind(old(At(device)), traits(device), old(modules), target, at).1
      ensures At(device) == Bind(old(At(device)), traits(device), old(modules), target, at).0
      ensures Only(device, old(slots), slots)
      ensures old(modules) <= modules <= old(modules) + NeededModules(target)
      ensures target == "" ==> slots == old(slots)
    {
      if target == "" {
        return Some("");
      }
      if at.ReadCurrent? {
        return None;
      }
      var currentDriver := At(device).driver;
      var ok: bool;
      if target == "default" {
        ok := BindDefaultDriver(device, at);
      } else {
        ok := BindDriverByBusAndDevice(device, target, at);
      }
      original := if ok then Some(currentDriver) else None;
    }

    method RestoreDeviceDriver(device: string, original: string, at: Step) returns (ok: bool)
      modifies `slots, `modules
      ensures original != "" && ok ==> At(device).driver == original
      ensures original == "" && old(At(device)).driver in {"", "vfio-pci", "uio_pci_generic", "igb_uio"} && ok ==>
        At(device).driver == traits(device).native
      ensures original == "" && old(At(device)).driver !in {"", "vfio-pci", "uio_pci_generic", "igb_uio"} ==>
        At(device) == old(At(device))
      ensures ok == Restore(old(At(device)), traits(device), old(modules), original, at).1
      ensures At(device) == Restore(old(At(device)), traits(device), old(modules), original, at).0
      ensures Only(device, old(slots), slots)
      ensures old(modules) <= modules <= old(modules) + NeededModules(original)
    {
      if original == "" {
        ok := BindDefaultDriver(device, at);
      } else {
        ok := BindDriverByBusAndDevice(device, original, at);
      }
    }
  }

  /** No device but `device` is touched. */
  ghost predicate Only(device: string, before: map<string, Slot>, after: map<string, Slot>)
  {
    forall d :: d != device ==> SlotAt(after, d) == SlotAt(before, d)
  }

  // ---- Laws -------------------------------------------------------------------------

  /** A bind that succeeds ends on its target, and clears the override unless there
      was nothing to bind. */
  lemma BindEnds(s: Slot, t: Traits, modules: set<string>, target: string, at: Step)
    requires Bind(s, t, modules, target, at).1.Some?
    ensures Bind(s, t, modules, target, at).0 == BoundSlot(s, t, target)
    ensures Bind(s, t, modules, target, at).1 == Some(if target == "" then "" else s.driver)
    ensures var bound := Bind(s, t, modules, target, at).0; bound == s || !t.overridable || bound.override == ""
  {
  }

  /** A restore that succeeds ends on the original driver, or on the default if
      there was none, from any state a bind, a failed bind or a failed restore may
      have left. It leaves an override exactly if it finds the device with one,
      and there already. */
  lemma RestoreEnds(s: Slot, t: Traits, modules: set<string>, original: string, at: Step)
    requires Restore(s, t, modules, original, at).1
    ensures Restore(s, t, modules, original, at).0 == Landed(s, t, original)
    ensures t.overridable ==>
      (Restore(s, t, modules, original, at).0.override != "" <==>
        s.override != "" && s.driver != "" &&
          (if original == "" then !IsDpdkDriver(s.driver) else s.driver == original))
  {
  }

  /** Bind, then restore, each with its own luck: if both succeed the device is put
      back, the override included. It is on the driver it started with; one that
      started with none ends on the probed default if it was bound to a DPDK driver
      or to the default, and stays on the target otherwise. The override is cleared
      unless nothing was to be done. */
  lemma BindThenRestore(s: Slot, t: Traits, modules: set<string>, modules': set<string>, target: string, at: Step,
                        at': Step)
    requires target != ""
    requires Bind(s, t, modules, target, at).1.Some?
    requires Restore(Bind(s, t, modules, target, at).0, t, modules', Bind(s, t, modules, target, at).1.value, at').1
    ensures var (bound, original) := Bind(s, t, modules, target, at);
      var (end, _) := Restore(bound, t, modules', original.value, at');
      && end == BackAs(s, t, target)
      && (s.driver != "" ==> end.driver == s.driver)
      && (bound.driver == target || (target == "default" && bound.driver in {s.driver, t.native}))
      && (end == s || !t.overridable || end.override == "")
      && (bound == s || !t.overridable || bound.override == "")
      && (!IsDpdkDriver(t.native) && IsDpdkDriver(target) && s.driver == "" ==> end.driver != target)
  {
    BindEnds(s, t, modules, target, at);
    var bound := BoundSlot(s, t, target);
    RestoreEnds(bound, t, modules', s.driver, at');
    LandedBack(s, t, target);
  }

  lemma LandedBack(s: Slot, t: Traits, target: string)
    requires target != ""
    ensures Landed(BoundSlot(s, t, target), t, s.driver) == BackAs(s, t, target)
  {
  }

  /** The DPDK drivers, and those of them that the module loader does not know. */
  lemma DpdkDrivers(driver: string)
    ensures IsDpdkDriver(driver) <==> driver in {"vfio-pci", "uio_pci_generic", "igb_uio"}
    ensures Unsupported(driver) <==> driver in {"uio_pci_generic", "igb_uio"}
    ensures NeededModules("vfio-pci") == {"vfio", "vfio_pci"}
  {
    assert "vfio-pci"[0] != "uio_pci_generic"[0] && "vfio-pci"[0] != "igb_uio"[0];
  }

  /** A device without driver that is bound, and restored: after any DPDK driver or
      the default it is on the driver that the probe binds, after any other it
      stays there. */
  lemma FreeThenRestored(s: Slot, t: Traits, modules: set<string>, modules': set<string>, target: string, at: Step,
                         at': Step)
    requires s.driver == "" && target != "" && Bind(s, t, modules, target, at).1.Some?
    requires Restore(Bind(s, t, modules, target, at).0, t, modules', Bind(s, t, modules, target, at).1.value, at').1
    ensures
      var end := Restore(Bind(s, t, modules, target, at).0, t, modules', Bind(s, t, modules, target, at).1.value,
                         at').0;
      end.driver == if target in {"default", "vfio-pci", "uio_pci_generic", "igb_uio"} then t.native else target
  {
    BindThenRestore(s, t, modules, modules', target, at, at');
    DpdkDrivers(target);
  }

  /** Without refusals a restore fails exactly for the two DPDK drivers whose
      modules are unknown: a device that started on one of them cannot be put
      back. */
  lemma RestorePossible(s: Slot, t: Traits, modules: set<string>, original: string)
    ensures Restore(s, t, modules, original, Never).1 <==> !Unsupported(original)
    ensures Restore(s, t, modules, original, Never).1 <==> original !in {"uio_pci_generic", "igb_uio"}
    ensures Bind(s, t, modules, original, Never).1.Some? <==> !Unsupported(original)
  {
    assert "default"[0] != "uio_pci_generic"[0] && "default"[0] != "igb_uio"[0];
  }

  /** The steps after the old driver has been let go. */
  predicate PastUnbind(at: Step) { at.SetOverride? || at.BindOrProbe? || at.ClearOverride? }

  /** What a failed bind leaves, for every target: exactly the state at which it
      broke off, and nothing in the bind puts the old driver back. The driver is
      the old one exactly if the refused call came before the unbind, or if there
      was no driver to lose and none was gained; otherwise the device is without
      driver or on the target. */
  lemma FailedBindLeaves(s: Slot, t: Traits, modules: set<string>, target: string, at: Step)
    requires Bind(s, t, modules, target, at).1.None?
    ensures var (bound, fault) := (Bind(s, t, modules, target, at).0, FaultOf(modules, target, at));
      && bound == BrokenBind(s, t, target, fault) && Breaks(s, target, fault)
      && (bound.driver == s.driver <==> !PastUnbind(fault) || (s.driver == "" && !fault.ClearOverride?))
      && bound.driver in {s.driver, "", target}
      && (fault.BindOrProbe? ==> bound.driver == "")
  {
  }

  /** A bind that is refused at its last write but one has lost the old driver. */
  lemma RefusedBindLosesDriver(t: Traits, modules: set<string>)
    ensures var (bound, original) := Bind(Slot("mlx5_core", ""), t, modules, "vfio-pci", BindOrProbe);
      original.None? && bound.driver == ""
  {
    assert "vfio-pci"[0] != "default"[0] && "vfio-pci"[0] != "mlx5_core"[0];
  }

  /** Restoring twice is restoring once, whatever happens the second time. */
  lemma RestoreIsIdempotent(s: Slot, t: Traits, modules: set<string>, modules': set<string>, original: string, at: Step,
                            at': Step)
    requires Restore(s, t, modules, original, at).1 && !IsDpdkDriver(t.native)
    requires !t.overridable ==> s.override == ""
    ensures Restore(Restore(s, t, modules, original, at).0, t, modules', original, at').0 ==
      Restore(s, t, modules, original, at).0
  {
  }

  // ---- A bind that fails, and is tried again ------------------------------------------

  /** The failure of a bind does no harm to one that is tried after it: it came
      before the unbind; or it left the device without driver, which is how the
      device started, or the probe will bind its driver again; or it left the
      device on the target, where one without driver is to stay. */
  predicate Harmless(s: Slot, t: Traits, target: string, fault: Step)
  {
    if !PastUnbind(fault) then true
    else if fault.ClearOverride? then s.driver == "" && (!IsDpdkDriver(target) || t.native == target)
    else s.driver == "" || (t.native == s.driver && (target == "default" || IsDpdkDriver(target)))
  }

  /** A bind of this device can break off at `fault`. */
  predicate Breaks(s: Slot, target: string, fault: Step)
  {
    && target != ""
    && (PastUnbind(fault) ==> !AlreadyOn(s, DriverOf(target)))
    && (fault.ClearOverride? ==> target != "default")
  }

  /** A bind that fails is tried again with success, and then undone with success:
      the second bind takes what the first one left for the original, and the
      device ends on the driver it is to end on exactly if the failure was
      harmless. */
  lemma RebindAfterFailure(s: Slot, t: Traits, target: string, fault: Step)
    requires Breaks(s, target, fault)
    ensures BackAs(BrokenBind(s, t, target, fault), t, target).driver == BackAs(s, t, target).driver <==>
      Harmless(s, t, target, fault)
  {
  }

  /** A device on mlx5_core whose bind to vfio-pci fails at its very last write, and
      then succeeds, is "put back" to vfio-pci. */
  lemma SecondBindForgetsDriver(t: Traits)
    ensures var s := Slot("mlx5_core", "");
      Breaks(s, "vfio-pci", ClearOverride) &&
        BackAs(BrokenBind(s, t, "vfio-pci", ClearOverride), t, "vfio-pci").driver == "vfio-pci"
  {
    assert "vfio-pci"[0] != "default"[0] && "vfio-pci"[0] != "mlx5_core"[0];
  }

  // ---- Restores that are tried again --------------------------------------------------

  /** What a restore has to go by: the modules that are loaded, and its luck. */
  datatype Attempt = Attempt(modules: set<string>, at: Step)

  /** A run of restore attempts with arbitrary refusals. */
  function Restores(s: Slot, t: Traits, original: string, attempts: seq<Attempt>): Slot
  {
    if attempts == [] then s
    else
      var last := attempts[|attempts| - 1];
      Restore(Restores(s, t, original, attempts[..|attempts| - 1]), t, last.modules, original, last.at).0
  }

  /** A device that nothing but this bind and its undoing has touched: still on
      a DPDK driver, without driver, or on its default. */
  predicate Undoing(s: Slot, t: Traits) { s.driver == "" || s.driver == t.native || IsDpdkDriver(s.driver) }

  /** What attempts to restore leave of a device in state `s`, complete or not: a
      device that is there already is not touched; another one is not on a driver
      that would pass for its default, and has no override but the one it had and
      the one the restore sets. */
  predicate Attempted(s: Slot, t: Traits, original: string, now: Slot)
  {
    if AlreadyOn(s, original) then now == s
    else
      && (original == "" ==> Undoing(now, t))
      && (now.override == s.override || (t.overridable && (now.override == "" || now.override == original)))
  }

  lemma RestoreAttempts(s: Slot, t: Traits, modules: set<string>, original: string, at: Step)
    ensures Attempted(s, t, original, Restore(s, t, modules, original, at).0)
  {
  }

  lemma AttemptedTwice(s: Slot, t: Traits, original: string, between: Slot, now: Slot)
    requires Attempted(s, t, original, between) && Attempted(between, t, original, now)
    ensures Attempted(s, t, original, now)
  {
  }

  lemma {:induction false} RestoresAttempt(s: Slot, t: Traits, original: string, attempts: seq<Attempt>)
    ensures Attempted(s, t, original, Restores(s, t, original, attempts))
  {
    if attempts != [] {
      var last := attempts[|attempts| - 1];
      var before := Restores(s, t, original, attempts[..|attempts| - 1]);
      RestoresAttempt(s, t, original, attempts[..|attempts| - 1]);
      RestoreAttempts(before, t, last.modules, original, last.at);
      AttemptedTwice(s, t, original, before, Restores(s, t, original, attempts));
    }
  }

  /** A device that was bound to `target` is put back, by the first restore that
      succeeds: as by a restore at once, or with an override left that names the
      driver it is on. */
  predicate PutBack(s: Slot, t: Traits, now: Slot, target: string)
  {
    now == BackAs(s, t, target) ||
    (t.overridable && target != "" && !AlreadyOn(s, DriverOf(target)) && s.driver != "" &&
     now == Slot(s.driver, s.driver))
  }

  /** A device that was bound to `target` and, since then, touched by attempts to
      put it back alone. */
  predicate Held(s: Slot, t: Traits, now: Slot, target: string)
  {
    if target == "" then now == s else Attempted(BoundSlot(s, t, target), t, s.driver, now)
  }

  /** Restoring late is as good as restoring at once, the override apart: a bind,
      any number of broken attempts, and a restore that succeeds. */
  lemma RestoredLate(s: Slot, t: Traits, tried: Slot, target: string)
    requires target != "" && Held(s, t, tried, target)
    ensures PutBack(s, t, Landed(tried, t, s.driver), target)
  {
  }

  /** Any number of failed attempts does no harm, whatever modules come and go in
      between: the first attempt that succeeds puts the device back. */
  lemma RetriedRestoreEnds(s: Slot, t: Traits, target: string, attempts: seq<Attempt>, last: Attempt)
    requires target != ""
    requires Restore(Restores(BoundSlot(s, t, target), t, s.driver, attempts), t, last.modules, s.driver, last.at).1
    ensures PutBack(s, t, Restores(BoundSlot(s, t, target), t, s.driver, attempts + [last]), target)
  {
    var bound := BoundSlot(s, t, target);
    assert (attempts + [last])[..|attempts|] == attempts;
    RestoresAttempt(bound, t, s.driver, attempts);
    RestoreEnds(Restores(bound, t, s.driver, attempts), t, last.modules, s.driver, last.at);
    RestoredLate(s, t, Restores(bound, t, s.driver, attempts), target);
  }

  /** Attempt `i` binds the original driver, and is refused the clearing of the
      override. */
  predicate StopsAtClear(s: Slot, t: Traits, original: string, attempts: seq<Attempt>, i: nat)
    requires i < |attempts|
  {
    && attempts[i].at.ClearOverride? && ModulesLoad(original, attempts[i].modules, attempts[i].at)
    && Restores(s, t, original, attempts[..i]).driver != original
  }

  /** Exactly when an override is left on a device that was not on its original
      driver: when an attempt binds the driver and is refused the clearing of the
      override. No later attempt clears it. */
  lemma {:induction false} OverrideLeftExactly(s: Slot, t: Traits, original: string, attempts: seq<Attempt>)
    requires t.overridable && original != "" && s.driver != original
    requires Restores(s, t, original, attempts).driver == original
    ensures Restores(s, t, original, attempts).override == original || Restores(s, t, original, attempts).override == ""
    ensures Restores(s, t, original, attempts).override != "" <==>
      exists i :: 0 <= i < |attempts| && StopsAtClear(s, t, original, attempts, i)
  {
    var n := |attempts| - 1;
    var before := attempts[..n];
    forall i | 0 <= i < n
      ensures StopsAtClear(s, t, original, attempts, i) <==> StopsAtClear(s, t, original, before, i) {
      assert before[..i] == attempts[..i] && before[i] == attempts[i];
    }
    if Restores(s, t, original, before).driver == original {
      OverrideLeftExactly(s, t, original, before);
      if i :| 0 <= i < n && StopsAtClear(s, t, original, before, i) {
        assert StopsAtClear(s, t, original, attempts, i);
      }
    } else {
      NoStopBefore(s, t, original, attempts, n);
      assert StopsAtClear(s, t, original, attempts, n) <==> Restores(s, t, original, attempts).override != "";
    }
  }

  /** A device that is on its original driver stays there. */
  lemma {:induction false} NoStopBefore(s: Slot, t: Traits, original: string, attempts: seq<Attempt>, n: nat)
    requires original != "" && n <= |attempts| && Restores(s, t, original, attempts[..n]).driver != original
    ensures forall i :: 0 <= i < n ==> !StopsAtClear(s, t, original, attempts, i)
    decreases n
  {
    if n > 0 {
      assert attempts[..n][..n - 1] == attempts[..n - 1];
      NoStopBefore(s, t, original, attempts, n - 1);
    }
  }

  /** A restore that is refused at its last write and then tried again with success
      leaves the override. */
  lemma RetryLeavesOverride(modules: set<string>, native: string)
    ensures var attempts := [Attempt(modules, ClearOverride), Attempt(modules, Never)];
      Restores(Slot("vfio-pci", ""), Traits(true, native), "mlx5_core", attempts) == Slot("mlx5_core", "mlx5_core")
  {
    var attempts := [Attempt(modules, ClearOverride), Attempt(modules, Never)];
    var s, t := Slot("vfio-pci", ""), Traits(true, native);
    assert attempts[..1] == [attempts[0]] && attempts[..1][..0] == [];
    assert "mlx5_core"[0] != "vfio-pci"[0] && "mlx5_core"[0] != "uio_pci_generic"[0] && "mlx5_core"[0] != "igb_uio"[0];
    assert Restores(s, t, "mlx5_core", attempts[..1]) == Restore(s, t, modules, "mlx5_core", ClearOverride).0;
  }
}
