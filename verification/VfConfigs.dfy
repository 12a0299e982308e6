/** The configuration of a claim's requests: opaque configs from the device class
    and from the claim, merged field by field. */
module VfConfigs {
  import opened Options

  /** The fields of a VfConfig. */
  datatype Settings = Settings(
    driver: string, addVhostMount: bool, ifName: string,
    netAttachDefName: string, netAttachDefNamespace: string, mac: string)

  const DEFAULT := Settings("", false, "", "", "", "")

  function Or(a: string, b: string): string { if a != "" then a else b }

  /** Four fields are copied when set; the vhost flag and the namespace never are. */
  function Overridden(c: Settings, other: Settings): Settings
  {
    c.(driver := Or(other.driver, c.driver), ifName := Or(other.ifName, c.ifName),
       netAttachDefName := Or(other.netAttachDefName, c.netAttachDefName), mac := Or(other.mac, c.mac))
  }

  class VfConfig {
    var driver: string
    var addVhostMount: bool
    var ifName: string
    var netAttachDefName: string
    var netAttachDefNamespace: string
    var mac: string

    function View(): Settings
      reads this
    {
      Settings(driver, addVhostMount, ifName, netAttachDefName, netAttachDefNamespace, mac)
    }

    /** DefaultVfConfig. */
    constructor Default()
      ensures View() == DEFAULT
    {
      driver, addVhostMount, ifName, netAttachDefName, netAttachDefNamespace, mac := "", false, "", "", "", "";
    }

    method Override(other: Settings)
      modifies this
      ensures View() == Overridden(old(View()), other)
    {
      if other.driver != "" {
        driver := other.driver;
      }
      if other.ifName != "" {
        ifName := other.ifName;
      }
      if other.netAttachDefName != "" {
        netAttachDefName := other.netAttachDefName;
      }
      if other.mac != "" {
        mac := other.mac;
      }
    }
  }

  // ---- Opaque configs -------------------------------------------------------------

  const DRIVER_NAME := "sriovnetwork.k8snetworkplumbingwg.io"
  const FROM_CLASS := "FromClass"
  const FROM_CLAIM := "FromClaim"

  /** An opaque device configuration: whose it is, and its raw parameters. */
  datatype OpaqueParameters = OpaqueParameters(driver: string, parameters: string)

  datatype DeviceConfig = DeviceConfig(source: string, payload: Option<OpaqueParameters>, requests: seq<string>)

  /** What the decoder makes of raw parameters. */
  datatype Decoded = Undecodable | OtherKind | Vf(settings: Settings)

  datatype ConfigError = InvalidSource | NotOpaque | BadParameters | NotVfConfig

  /** The config can be used, or is another driver's. */
  predicate Acceptable(decode: string -> Decoded, c: DeviceConfig)
  {
    c.payload.Some? && (c.payload.value.driver == DRIVER_NAME ==> decode(c.payload.value.parameters).Vf?)
  }

  predicate KnownSource(c: DeviceConfig) { c.source == FROM_CLASS || c.source == FROM_CLAIM }

  /** The two sources; and that a config of this driver must decode. */
  lemma ConfigMeans(decode: string -> Decoded, c: DeviceConfig)
    ensures KnownSource(c) <==> c.source in {"FromClass", "FromClaim"}
    ensures Acceptable(decode, c) <==>
      c.payload.Some? && (c.payload.value.driver == "sriovnetwork.k8snetworkplumbingwg.io" ==>
                            decode(c.payload.value.parameters).Vf?)
  {
  }

  /** The settings `c` has for `request`, if it is this driver's and names it. */
  function SettingsFor(decode: string -> Decoded, c: DeviceConfig, request: string): Option<Settings>
  {
    if c.payload.Some? && c.payload.value.driver == DRIVER_NAME && request in c.requests then
      match decode(c.payload.value.parameters)
      case Vf(s) => Some(s)
      case _ => None
    else None
  }

  function BySource(configs: seq<DeviceConfig>, source: string): seq<DeviceConfig>
  {
    if configs == [] then []
    else
      var last := configs[|configs| - 1];
      BySource(configs[..|configs| - 1], source) + if last.source == source then [last] else []
  }

  /** The overrides for `request`, in list order; None if nothing names it. */
  function Accumulated(decode: string -> Decoded, configs: seq<DeviceConfig>, request: string): Option<Settings>
  {
    if configs == [] then None
    else
      var before := Accumulated(decode, configs[..|configs| - 1], request);
      match SettingsFor(decode, configs[|configs| - 1], request)
      case Some(s) => Some(Overridden(if before.Some? then before.value else DEFAULT, s))
      case None => before
  }

  /** The settings of every request in the map. */
  function Views(configs: map<string, VfConfig>): map<string, Settings>
    reads configs.Values
  {
    map r | r in configs :: configs[r].View()
  }

  ghost predicate OwnObjects(configs: map<string, VfConfig>)
  {
    forall r, s :: r in configs && s in configs && r != s ==> configs[r] != configs[s]
  }

  function OverriddenAt(views: map<string, Settings>, request: string, s: Settings): map<string, Settings>
  {
    views[request := Overridden(if request in views then views[request] else DEFAULT, s)]
  }

  function OverriddenAll(views: map<string, Settings>, requests: seq<string>, s: Settings): map<string, Settings>
  {
    if requests == [] then views
    else OverriddenAt(OverriddenAll(views, requests[..|requests| - 1], s), requests[|requests| - 1], s)
  }

  /** The settings of every request after the configs in list order. */
  function AccumulatedAll(decode: string -> Decoded, configs: seq<DeviceConfig>): map<string, Settings>
  {
    if configs == [] then map[]
    else
      var before := AccumulatedAll(decode, configs[..|configs| - 1]);
      var c := configs[|configs| - 1];
      if c.payload.Some? && c.payload.value.driver == DRIVER_NAME && decode(c.payload.value.parameters).Vf?
      then OverriddenAll(before, c.requests, decode(c.payload.value.parameters).settings)
      else before
  }

  method OverrideRequest(settings: Settings, request: string, configs: map<string, VfConfig>)
    returns (result: map<string, VfConfig>)
    requires OwnObjects(configs)
    modifies configs.Values
    ensures OwnObjects(result)
    ensures forall r :: r in result ==> (r in configs && result[r] == configs[r]) || fresh(result[r])
    ensures Views(result) == OverriddenAt(old(Views(configs)), request, settings)
  {
    var resultConfig: VfConfig;
    if request in configs {
      resultConfig := configs[request];
    } else {
      resultConfig := new VfConfig.Default();
    }
    resultConfig.Override(settings);
    result := configs[request := resultConfig];
  }

  /** One config's requests, in order. */
  method OverrideRequests(settings: Settings, requests: seq<string>, configs: map<string, VfConfig>)
    returns (result: map<string, VfConfig>)
    requires OwnObjects(configs)
    modifies configs.Values
    ensures OwnObjects(result)
    ensures forall r :: r in result ==> (r in configs && result[r] == configs[r]) || fresh(result[r])
    ensures Views(result) == OverriddenAll(old(Views(configs)), requests, settings)
  {
    result := configs;
    for i := 0 to |requests|
      invariant OwnObjects(result)
      invariant forall r :: r in result ==> (r in configs && result[r] == configs[r]) || fresh(result[r])
      invariant Views(result) == OverriddenAll(old(Views(configs)), requests[..i], settings)
    {
      assert requests[..i + 1][..i] == requests[..i];
      result := OverrideRequest(settings, requests[i], result);
    }
    assert requests[..|requests|] == requests;
  }

  /** Partition by source; None if some source is neither class nor claim. */
  method PartitionBySource(possibleConfigs: seq<DeviceConfig>) returns (candidates: Option<seq<DeviceConfig>>)
    ensures candidates.None? <==> exists c :: c in possibleConfigs && !KnownSource(c)
    ensures candidates.Some? ==>
      candidates.value == BySource(possibleConfigs, FROM_CLASS) + BySource(possibleConfigs, FROM_CLAIM)
  {
    var classConfigs: seq<DeviceConfig> := [];
    var claimConfigs: seq<DeviceConfig> := [];
    assert FROM_CLASS[7] != FROM_CLAIM[7];
    for i := 0 to |possibleConfigs|
      invariant forall c :: c in possibleConfigs[..i] ==> KnownSource(c)
      invariant classConfigs == BySource(possibleConfigs[..i], FROM_CLASS)
      invariant claimConfigs == BySource(possibleConfigs[..i], FROM_CLAIM)
    {
      var config := possibleConfigs[i];
      assert possibleConfigs[..i + 1][..i] == possibleConfigs[..i];
      assert possibleConfigs[..i + 1] == possibleConfigs[..i] + [config];
      if config.source == FROM_CLASS {
        classConfigs := classConfigs + [config];
      } else if config.source == FROM_CLAIM {
        claimConfigs := claimConfigs + [config];
      } else {
        assert config in possibleConfigs;
        return None;
      }
    }
    assert possibleConfigs[..|possibleConfigs|] == possibleConfigs;
    candidates := Some(classConfigs + claimConfigs);
  }

  method GetMapOfOpaqueDeviceConfig(decode: string -> Decoded, possibleConfigs: seq<DeviceConfig>)
    returns (r: Result<map<string, VfConfig>, ConfigError>)
    ensures r == Err(InvalidSource) <==> exists c :: c in possibleConfigs && !KnownSource(c)
    ensures r.Ok? <==> forall c :: c in possibleConfigs ==> KnownSource(c) && Acceptable(decode, c)
    ensures r.Ok? ==> (forall request :: request in r.value ==> fresh(r.value[request]))
    ensures r.Ok? ==> OwnObjects(r.value)
    ensures r.Ok? ==> forall request :: request in r.value <==> Merged(decode, possibleConfigs, request).Some?
    ensures r.Ok? ==>
      forall request :: request in r.value ==> Merged(decode, possibleConfigs, request) == Some(r.value[request].View())
  {
    var candidates := PartitionBySource(possibleConfigs);
    if candidates.None? {
      return Err(InvalidSource);
    }
    var candidateConfigs := candidates.value;
    CandidatesAreAll(possibleConfigs);
    var resultConfigs: map<string, VfConfig> := map[];
    for i := 0 to |candidateConfigs|
      invariant forall c :: c in candidateConfigs[..i] ==> Acceptable(decode, c)
      invariant (forall request :: request in resultConfigs ==> fresh(resultConfigs[request]))
      invariant OwnObjects(resultConfigs)
      invariant Views(resultConfigs) == AccumulatedAll(decode, candidateConfigs[..i])
    {
      var config := candidateConfigs[i];
      assert config in candidateConfigs;
      assert candidateConfigs[..i + 1][..i] == candidateConfigs[..i];
      assert candidateConfigs[..i + 1] == candidateConfigs[..i] + [config];
      if config.payload.None? {
        return Err(NotOpaque);
      }
      if config.payload.value.driver != DRIVER_NAME {
        continue;
      }
      var decoded := decode(config.payload.value.parameters);
      if decoded.Undecodable? {
        return Err(BadParameters);
      }
      if !decoded.Vf? {
        return Err(NotVfConfig);
      }
      resultConfigs := OverrideRequests(decoded.settings, config.requests, resultConfigs);
    }
    assert candidateConfigs[..|candidateConfigs|] == candidateConfigs;
    forall request
      ensures request in resultConfigs <==> Merged(decode, possibleConfigs, request).Some?
      ensures request in resultConfigs ==>
        Merged(decode, possibleConfigs, request) == Some(resultConfigs[request].View())
    {
      AccumulatedAllReads(decode, candidateConfigs, request);
      assert request in resultConfigs <==> request in Views(resultConfigs);
    }
    r := Ok(resultConfigs);
  }

  lemma {:induction false} OverriddenAllReads(views: map<string, Settings>, requests: seq<string>, s: Settings,
                                              r: string)
    ensures var after := OverriddenAll(views, requests, s);
      if r in requests then r in after && after[r] == Overridden(if r in views then views[r] else DEFAULT, s)
      else (r in after <==> r in views) && (r in after ==> after[r] == views[r])
  {
    if requests != [] {
      OverriddenAllReads(views, requests[..|requests| - 1], s, r);
      assert requests == requests[..|requests| - 1] + [requests[|requests| - 1]];
    }
  }

  lemma {:induction false} AccumulatedAllReads(decode: string -> Decoded, configs: seq<DeviceConfig>, request: string)
    ensures Accumulated(decode, configs, request) ==
      if request in AccumulatedAll(decode, configs) then Some(AccumulatedAll(decode, configs)[request]) else None
  {
    if configs != [] {
      var n := |configs| - 1;
      AccumulatedAllReads(decode, configs[..n], request);
      var c := configs[n];
      if c.payload.Some? && c.payload.value.driver == DRIVER_NAME && decode(c.payload.value.parameters).Vf? {
        OverriddenAllReads(AccumulatedAll(decode, configs[..n]), c.requests,
                           decode(c.payload.value.parameters).settings, request);
      }
    }
  }

  /** What the configs come to for `request`: class first, then claim. */
  function Merged(decode: string -> Decoded, configs: seq<DeviceConfig>, request: string): Option<Settings>
  {
    Accumulated(decode, BySource(configs, FROM_CLASS) + BySource(configs, FROM_CLAIM), request)
  }

  lemma {:induction false} BySourceHas(configs: seq<DeviceConfig>, source: string, c: DeviceConfig)
    ensures c in BySource(configs, source) <==> c in configs && c.source == source
  {
    if configs != [] {
      BySourceHas(configs[..|configs| - 1], source, c);
      assert configs == configs[..|configs| - 1] + [configs[|configs| - 1]];
    }
  }

  lemma CandidatesAreAll(configs: seq<DeviceConfig>)
    ensures forall c :: c in BySource(configs, FROM_CLASS) + BySource(configs, FROM_CLAIM) <==>
      c in configs && KnownSource(c)
  {
    forall c
      ensures c in BySource(configs, FROM_CLASS) + BySource(configs, FROM_CLAIM) <==> c in configs && KnownSource(c) {
      BySourceHas(configs, FROM_CLASS, c);
      BySourceHas(configs, FROM_CLAIM, c);
    }
  }

  // ---- Precedence -------------------------------------------------------------------

  /** Config `i` comes from `source`, is this driver's, names `request`, and sets
      the field that `get` reads. */
  predicate Sets(decode: string -> Decoded, configs: seq<DeviceConfig>, request: string, get: Settings -> string,
                 source: string, i: int)
  {
    0 <= i < |configs| && configs[i].source == source &&
    SettingsFor(decode, configs[i], request).Some? && get(SettingsFor(decode, configs[i], request).value) != ""
  }

  /** `v` is what the last config of `source` that sets the field says. */
  ghost predicate LastSays(decode: string -> Decoded, configs: seq<DeviceConfig>, request: string,
                           get: Settings -> string, source: string, v: string)
  {
    exists i ::
      Sets(decode, configs, request, get, source, i) && get(SettingsFor(decode, configs[i], request).value) == v &&
      forall j :: j > i ==> !Sets(decode, configs, request, get, source, j)
  }

  ghost predicate SomeSets(decode: string -> Decoded, configs: seq<DeviceConfig>, request: string,
                           get: Settings -> string, source: string)
  {
    exists i :: Sets(decode, configs, request, get, source, i)
  }

  /** The claim's last word, else the class's last word, else nothing, wherever
      the two kinds stand in the list. */
  ghost predicate Precedence(decode: string -> Decoded, configs: seq<DeviceConfig>, request: string,
                             get: Settings -> string, v: string)
  {
    if SomeSets(decode, configs, request, get, FROM_CLAIM) then LastSays(decode, configs, request, get, FROM_CLAIM, v)
    else if SomeSets(decode, configs, request, get, FROM_CLASS)
         then LastSays(decode, configs, request, get, FROM_CLASS, v)
    else v == ""
  }

  /** The last non-empty value of the field for `request`, in list order. */
  function LastValue(decode: string -> Decoded, configs: seq<DeviceConfig>, request: string,
                     get: Settings -> string): string
  {
    if configs == [] then ""
    else
      var before := LastValue(decode, configs[..|configs| - 1], request, get);
      match SettingsFor(decode, configs[|configs| - 1], request)
      case Some(s) => Or(get(s), before)
      case None => before
  }

  /** `get` reads one of the fields that an override copies. */
  ghost predicate Copied(get: Settings -> string)
  {
    get(DEFAULT) == "" && forall c, o :: get(Overridden(c, o)) == Or(get(o), get(c))
  }

  lemma {:induction false} AccumulatedField(decode: string -> Decoded, configs: seq<DeviceConfig>, request: string,
                                            get: Settings -> string)
    requires Copied(get)
    ensures LastValue(decode, configs, request, get) ==
      (if Accumulated(decode, configs, request).Some? then get(Accumulated(decode, configs, request).value) else "")
  {
    if configs != [] { AccumulatedField(decode, configs[..|configs| - 1], request, get); }
  }

  lemma {:induction false} LastValueOfBoth(decode: string -> Decoded, a: seq<DeviceConfig>, b: seq<DeviceConfig>,
                                           request: string, get: Settings -> string)
    ensures LastValue(decode, a + b, request, get) == Or(LastValue(decode, b, request, get),
                                                         LastValue(decode, a, request, get))
  {
    if b == [] {
      assert a + b == a;
    } else {
      LastValueOfBoth(decode, a, b[..|b| - 1], request, get);
      assert (a + b)[..|a + b| - 1] == a + b[..|b| - 1];
    }
  }

  lemma LastValueNext(decode: string -> Decoded, configs: seq<DeviceConfig>, c: DeviceConfig, request: string,
                      get: Settings -> string)
    ensures LastValue(decode, configs + [c], request, get) ==
      (match SettingsFor(decode, c, request)
       case Some(s) => Or(get(s), LastValue(decode, configs, request, get))
       case None => LastValue(decode, configs, request, get))
  {
    assert (configs + [c])[..|configs|] == configs;
  }

  lemma StaysLast(decode: string -> Decoded, configs: seq<DeviceConfig>, c: DeviceConfig, request: string,
                  get: Settings -> string, source: string, v: string)
    requires LastSays(decode, configs, request, get, source, v)
    requires !Sets(decode, configs + [c], request, get, source, |configs|)
    ensures LastSays(decode, configs + [c], request, get, source, v)
  {
    var all := configs + [c];
    var k :| Sets(decode, configs, request, get, source, k) &&
      get(SettingsFor(decode, configs[k], request).value) == v &&
      forall j :: j > k ==> !Sets(decode, configs, request, get, source, j);
    assert Sets(decode, all, request, get, source, k);
    forall j | j > k ensures !Sets(decode, all, request, get, source, j) {
      if 0 <= j < |configs| {
        assert all[j] == configs[j];
        assert !Sets(decode, configs, request, get, source, j);
      }
    }
  }

  lemma BecomesLast(decode: string -> Decoded, configs: seq<DeviceConfig>, c: DeviceConfig, request: string,
                    get: Settings -> string, source: string)
    requires Sets(decode, configs + [c], request, get, source, |configs|)
    ensures LastSays(decode, configs + [c], request, get, source, get(SettingsFor(decode, c, request).value))
  {
  }

  lemma SomeSetsNext(decode: string -> Decoded, configs: seq<DeviceConfig>, c: DeviceConfig, request: string,
                     get: Settings -> string, source: string)
    ensures SomeSets(decode, configs + [c], request, get, source) <==>
      SomeSets(decode, configs, request, get, source) || Sets(decode, configs + [c], request, get, source, |configs|)
  {
    var all := configs + [c];
    forall i | i < |configs|
      ensures Sets(decode, all, request, get, source, i) <==> Sets(decode, configs, request, get, source, i) {
    }
  }

  /** `v` is the last word of `source`, or empty if it has none. */
  ghost predicate LastWord(decode: string -> Decoded, configs: seq<DeviceConfig>, request: string,
                           get: Settings -> string, source: string, v: string)
  {
    if SomeSets(decode, configs, request, get, source)
    then v != "" && LastSays(decode, configs, request, get, source, v) else v == ""
  }

  lemma LastWordNext(decode: string -> Decoded, configs: seq<DeviceConfig>, c: DeviceConfig, request: string,
                     get: Settings -> string, source: string, v: string)
    requires LastWord(decode, configs, request, get, source, v)
    ensures var sets := Sets(decode, configs + [c], request, get, source, |configs|);
      LastWord(decode, configs + [c], request, get, source, if sets then get(SettingsFor(decode, c, request).value)
                                                            else v)
  {
    SomeSetsNext(decode, configs, c, request, get, source);
    if Sets(decode, configs + [c], request, get, source, |configs|) {
      BecomesLast(decode, configs, c, request, get, source);
    } else if SomeSets(decode, configs, request, get, source) {
      StaysLast(decode, configs, c, request, get, source, v);
    }
  }

  lemma {:induction false} LastValueSays(decode: string -> Decoded, configs: seq<DeviceConfig>, request: string,
                                         get: Settings -> string, source: string)
    ensures LastWord(decode, configs, request, get, source, LastValue(decode, BySource(configs, source), request, get))
  {
    if configs != [] {
      var n := |configs| - 1;
      var before, c := configs[..n], configs[n];
      assert configs == before + [c];
      LastValueSays(decode, before, request, get, source);
      LastWordNext(decode, before, c, request, get, source, LastValue(decode, BySource(before, source), request, get));
      if c.source == source {
        LastValueNext(decode, BySource(before, source), c, request, get);
      } else {
        assert BySource(configs, source) == BySource(before, source);
      }
    }
  }

  /** Config precedence, for every field an override copies and every
      interleaving of class and claim configs in the list. */
  lemma MergedField(decode: string -> Decoded, configs: seq<DeviceConfig>, request: string, get: Settings -> string)
    requires Copied(get)
    ensures Merged(decode, configs, request).Some? ==>
      Precedence(decode, configs, request, get, get(Merged(decode, configs, request).value))
  {
    var ofClass, ofClaim := BySource(configs, FROM_CLASS), BySource(configs, FROM_CLAIM);
    AccumulatedField(decode, ofClass + ofClaim, request, get);
    LastValueOfBoth(decode, ofClass, ofClaim, request, get);
    LastValueSays(decode, configs, request, get, FROM_CLASS);
    LastValueSays(decode, configs, request, get, FROM_CLAIM);
  }

  lemma {:induction false} AccumulatedNames(decode: string -> Decoded, configs: seq<DeviceConfig>, request: string)
    ensures Accumulated(decode, configs, request).Some? <==>
      exists c :: c in configs && SettingsFor(decode, c, request).Some?
    ensures Accumulated(decode, configs, request).Some? ==>
      Accumulated(decode, configs, request).value.addVhostMount == false &&
      Accumulated(decode, configs, request).value.netAttachDefNamespace == ""
  {
    if configs != [] {
      var n := |configs| - 1;
      AccumulatedNames(decode, configs[..n], request);
      assert configs == configs[..n] + [configs[n]];
      assert configs[n] in configs;
    }
  }

  /** The merged settings of a request: they exist exactly when a config of this
      driver names it; driver, interface name, attachment and MAC follow the
      precedence; the vhost flag and the attachment namespace are never taken
      from any config. */
  lemma MergedSettings(decode: string -> Decoded, configs: seq<DeviceConfig>, request: string)
    requires forall c :: c in configs ==> KnownSource(c)
    ensures Merged(decode, configs, request).Some? <==>
      exists c :: c in configs && SettingsFor(decode, c, request).Some?
    ensures Merged(decode, configs, request).Some? ==>
      var s := Merged(decode, configs, request).value;
      && Precedence(decode, configs, request, (c: Settings) => c.driver, s.driver)
      && Precedence(decode, configs, request, (c: Settings) => c.ifName, s.ifName)
      && Precedence(decode, configs, request, (c: Settings) => c.netAttachDefName, s.netAttachDefName)
      && Precedence(decode, configs, request, (c: Settings) => c.mac, s.mac)
      && s.addVhostMount == false && s.netAttachDefNamespace == ""
  {
    AccumulatedNames(decode, BySource(configs, FROM_CLASS) + BySource(configs, FROM_CLAIM), request);
    CandidatesAreAll(configs);
    MergedField(decode, configs, request, (c: Settings) => c.driver);
    MergedField(decode, configs, request, (c: Settings) => c.ifName);
    MergedField(decode, configs, request, (c: Settings) => c.netAttachDefName);
    MergedField(decode, configs, request, (c: Settings) => c.mac);
  }

  // ---- Precedence, config by config ---------------------------------------------------

  /** The config is this driver's, names the request, and its parameters decode to
      `s`. */
  predicate Gives(decode: string -> Decoded, c: DeviceConfig, request: string, s: Settings)
  {
    && c.payload.Some? && c.payload.value.driver == "sriovnetwork.k8snetworkplumbingwg.io"
    && request in c.requests && decode(c.payload.value.parameters) == Vf(s)
  }

  /** No config of `source` from position `i` on says anything of the field. */
  ghost predicate SilentFrom(decode: string -> Decoded, configs: seq<DeviceConfig>, request: string,
                             get: Settings -> string, source: string, i: int)
  {
    forall j, s ::
      i <= j < |configs| && 0 <= j && configs[j].source == source && Gives(decode, configs[j], request, s) ==>
      get(s) == ""
  }

  lemma SetsMeans(decode: string -> Decoded, configs: seq<DeviceConfig>, request: string, get: Settings -> string,
                  source: string, i: int, s: Settings)
    requires 0 <= i < |configs| && Gives(decode, configs[i], request, s)
    ensures Sets(decode, configs, request, get, source, i) <==> configs[i].source == source && get(s) != ""
    ensures SettingsFor(decode, configs[i], request) == Some(s)
  {
  }

  lemma SilentNeverSets(decode: string -> Decoded, configs: seq<DeviceConfig>, request: string,
                        get: Settings -> string, source: string, i: int, j: int)
    requires SilentFrom(decode, configs, request, get, source, i) && j >= i
    ensures !Sets(decode, configs, request, get, source, j)
  {
    if Sets(decode, configs, request, get, source, j) {
      var s := SettingsFor(decode, configs[j], request).value;
      assert Gives(decode, configs[j], request, s);
    }
  }

  /** The last config of the claim that says anything of a field wins, wherever it
      stands among those of the class. */
  lemma LastOfClaimWins(decode: string -> Decoded, configs: seq<DeviceConfig>, request: string, get: Settings -> string,
                        i: int, s: Settings)
    requires Copied(get) && 0 <= i < |configs| && configs[i].source == "FromClaim"
    requires Gives(decode, configs[i], request, s) && get(s) != ""
    requires SilentFrom(decode, configs, request, get, "FromClaim", i + 1)
    ensures Merged(decode, configs, request).Some? && get(Merged(decode, configs, request).value) == get(s)
  {
    SetsMeans(decode, configs, request, get, FROM_CLAIM, i, s);
    MergedNames(decode, configs, request, configs[i]);
    MergedField(decode, configs, request, get);
    forall j | j > i ensures !Sets(decode, configs, request, get, FROM_CLAIM, j) {
      SilentNeverSets(decode, configs, request, get, FROM_CLAIM, i + 1, j);
    }
  }

  /** Where the claim says nothing, the last of the class wins. */
  lemma LastOfClassWins(decode: string -> Decoded, configs: seq<DeviceConfig>, request: string, get: Settings -> string,
                        i: int, s: Settings)
    requires Copied(get) && 0 <= i < |configs| && configs[i].source == "FromClass"
    requires Gives(decode, configs[i], request, s) && get(s) != ""
    requires SilentFrom(decode, configs, request, get, "FromClass", i + 1)
    requires SilentFrom(decode, configs, request, get, "FromClaim", 0)
    ensures Merged(decode, configs, request).Some? && get(Merged(decode, configs, request).value) == get(s)
  {
    SetsMeans(decode, configs, request, get, FROM_CLASS, i, s);
    MergedNames(decode, configs, request, configs[i]);
    MergedField(decode, configs, request, get);
    forall j ensures !Sets(decode, configs, request, get, FROM_CLAIM, j) {
      if j >= 0 { SilentNeverSets(decode, configs, request, get, FROM_CLAIM, 0, j); }
    }
    forall j | j > i ensures !Sets(decode, configs, request, get, FROM_CLASS, j) {
      SilentNeverSets(decode, configs, request, get, FROM_CLASS, i + 1, j);
    }
  }

  /** Where neither says anything, the field stays empty. */
  lemma NobodyWins(decode: string -> Decoded, configs: seq<DeviceConfig>, request: string, get: Settings -> string)
    requires Copied(get) && Merged(decode, configs, request).Some?
    requires SilentFrom(decode, configs, request, get, "FromClass", 0)
    requires SilentFrom(decode, configs, request, get, "FromClaim", 0)
    ensures get(Merged(decode, configs, request).value) == ""
  {
    MergedField(decode, configs, request, get);
    forall j ensures !Sets(decode, configs, request, get, FROM_CLAIM, j) {
      if j >= 0 { SilentNeverSets(decode, configs, request, get, FROM_CLAIM, 0, j); }
    }
    forall j ensures !Sets(decode, configs, request, get, FROM_CLASS, j) {
      if j >= 0 { SilentNeverSets(decode, configs, request, get, FROM_CLASS, 0, j); }
    }
  }

  lemma MergedNames(decode: string -> Decoded, configs: seq<DeviceConfig>, request: string, c: DeviceConfig)
    requires c in configs && KnownSource(c) && SettingsFor(decode, c, request).Some?
    ensures Merged(decode, configs, request).Some?
  {
    AccumulatedNames(decode, BySource(configs, FROM_CLASS) + BySource(configs, FROM_CLAIM), request);
    CandidatesAreAll(configs);
  }

  /** The settings of every request that a config of this driver names. */
  ghost function MergedAll(decode: string -> Decoded, configs: seq<DeviceConfig>): map<string, Settings>
  {
    map c, request | c in configs && request in c.requests && Merged(decode, configs, request).Some? ::
      request := Merged(decode, configs, request).value
  }

  lemma MergedAllReads(decode: string -> Decoded, configs: seq<DeviceConfig>, request: string)
    requires forall c :: c in configs ==> KnownSource(c)
    ensures Merged(decode, configs, request) == if request in MergedAll(decode, configs)
                                                then Some(MergedAll(decode, configs)[request]) else None
    ensures request in MergedAll(decode, configs) ==>
      !MergedAll(decode, configs)[request].addVhostMount &&
        MergedAll(decode, configs)[request].netAttachDefNamespace == ""
  {
    MergedSettings(decode, configs, request);
    if Merged(decode, configs, request).Some? {
      var c :| c in configs && SettingsFor(decode, c, request).Some?;
      assert request in c.requests;
    }
  }

  lemma MergedAllUnique(decode: string -> Decoded, configs: seq<DeviceConfig>, m: map<string, Settings>)
    requires forall c :: c in configs ==> KnownSource(c)
    requires forall request :: Merged(decode, configs, request) == if request in m then Some(m[request]) else None
    ensures m == MergedAll(decode, configs)
  {
    forall request ensures request in m <==> request in MergedAll(decode, configs) {
      MergedAllReads(decode, configs, request);
    }
    forall request | request in m ensures m[request] == MergedAll(decode, configs)[request] {
      MergedAllReads(decode, configs, request);
    }
  }

  /** Config `i` is the last of `source` that says anything of the field. */
  ghost predicate SaysLast(decode: string -> Decoded, configs: seq<DeviceConfig>, request: string,
                           get: Settings -> string, source: string, i: int, s: Settings)
  {
    && 0 <= i < |configs| && configs[i].source == source
    && Gives(decode, configs[i], request, s) && get(s) != ""
    && SilentFrom(decode, configs, request, get, source, i + 1)
  }

  /** What the configs make of one field: the last word of the claim, else the last
      word of the class, else nothing. */
  ghost predicate Configured(decode: string -> Decoded, configs: seq<DeviceConfig>, request: string,
                             get: Settings -> string, v: string)
  {
    && (forall i, s {:trigger SaysLast(decode, configs, request, get, "FromClaim", i, s)} ::
          SaysLast(decode, configs, request, get, "FromClaim", i, s) ==> v == get(s))
    && (SilentFrom(decode, configs, request, get, "FromClaim", 0) ==>
          && (forall i, s {:trigger SaysLast(decode, configs, request, get, "FromClass", i, s)} ::
                SaysLast(decode, configs, request, get, "FromClass", i, s) ==> v == get(s))
          && (SilentFrom(decode, configs, request, get, "FromClass", 0) ==> v == ""))
  }

  /** The merged settings of a request, or the default settings where no config names
      it, are what the configs say. */
  lemma MergedIsConfigured(decode: string -> Decoded, configs: seq<DeviceConfig>, request: string,
                           get: Settings -> string)
    requires Copied(get) && forall c :: c in configs ==> KnownSource(c)
    ensures Configured(decode, configs, request, get,
                       if request in MergedAll(decode, configs) then get(MergedAll(decode, configs)[request]) else "")
  {
    MergedAllReads(decode, configs, request);
    forall i, s | SaysLast(decode, configs, request, get, "FromClaim", i, s)
      ensures request in MergedAll(decode, configs) && get(MergedAll(decode, configs)[request]) == get(s)
    {
      LastOfClaimWins(decode, configs, request, get, i, s);
    }
    if SilentFrom(decode, configs, request, get, "FromClaim", 0) {
      forall i, s | SaysLast(decode, configs, request, get, "FromClass", i, s)
        ensures request in MergedAll(decode, configs) && get(MergedAll(decode, configs)[request]) == get(s)
      {
        LastOfClassWins(decode, configs, request, get, i, s);
      }
      if SilentFrom(decode, configs, request, get, "FromClass", 0) && request in MergedAll(decode, configs) {
        NobodyWins(decode, configs, request, get);
      }
    }
  }

  /** The four fields that are copied. */
  lemma CopiedFields()
    ensures Copied((c: Settings) => c.driver) && Copied((c: Settings) => c.ifName)
    ensures Copied((c: Settings) => c.netAttachDefName) && Copied((c: Settings) => c.mac)
  {
  }
}
