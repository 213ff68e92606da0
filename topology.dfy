// The Cartridge topology driver (pkg/topology): the request records sent to
// the Lua side, the answer records that come back, and what the Go side makes
// of every answer. The Lua bodies run inside Tarantool and are oracles here,
// with two exceptions that are pure and modelled: the filter that keeps the
// reserved configuration sections out of reach, and the confapplier-state
// predicates behind IsCartridgeStarted and IsCartridgeConfigured.

module Topology {
  import opened Wrappers
  import opened Text
  import opened Errors
  import opened K8s

  // ----- Requests (pkg/topology/request.go) -----

  datatype JoinServerParams = JoinServerParams(uri: string, uuid: string)

  datatype EditReplicasetParams = EditReplicasetParams(
    uuid: string, alias: string, roles: seq<string>, allRw: bool, weight: int32,
    failoverPriority: seq<string>, vshardGroup: string, joinServers: seq<JoinServerParams>)

  datatype EditServerParams = EditServerParams(uri: string, uuid: string, disabled: bool, expelled: bool)

  datatype EditTopologyParams = EditTopologyParams(servers: seq<EditServerParams>,
                                                   replicasets: seq<EditReplicasetParams>)

  /** `endpoints` is a Go slice: `None` is nil, which JSON and `cmp.Equal` tell from an empty list. */
  datatype Etcd2Params = Etcd2Params(endpoints: Option<seq<string>>, username: string, password: string,
                                     lockDelay: int32, prefix: string)

  datatype StateboardParams = StateboardParams(uri: string, password: string)

  datatype FailoverParams = FailoverParams(
    mode: string, timeout: int32, stateProvider: string, fencingEnabled: bool,
    fencingTimeout: int32, fencingPause: int32,
    etcd2Params: Option<Etcd2Params>, stateboardParams: Option<StateboardParams>)

  // ----- Answers (pkg/topology/response.go) -----

  /** LuaCallResult: the `res` value and the optional Lua error of a call. */
  datatype LuaCallResult<T> = LuaCallResult(res: T, err: Option<LuaError>)

  type BooleanResult = LuaCallResult<bool>

  /** A Go (bool, error) return where the flag is meaningful next to an error. */
  datatype Checked = Checked(value: bool, err: Option<Error>)

  /** A configuration section's decoded value, compared by equality as cmp.Equal does. */
  type Section = string

  /** CartridgeConfigData; None is a nil map, which cmp.Equal tells apart from an empty one. */
  type ConfigData = Option<map<string, Section>>

  // ----- Join -----

  /** One join-server entry per advertise URI, in order, with no UUID. */
  function JoinServersOf(uris: seq<string>): (js: seq<JoinServerParams>)
    decreases |uris|
  {
    if |uris| == 0 then [] else [JoinServerParams(uris[0], "")] + JoinServersOf(uris[1..])
  }

  lemma {:induction false} JoinServersOfEntries(uris: seq<string>)
    ensures |JoinServersOf(uris)| == |uris|
    ensures forall i :: 0 <= i < |uris| ==> JoinServersOf(uris)[i] == JoinServerParams(uris[i], "")
    decreases |uris|
  {
    if |uris| > 0 {
      JoinServersOfEntries(uris[1..]);
    }
  }

  /** The `for i, uri := range advertiseURIs` loop of Join. */
  method BuildJoinServers(uris: seq<string>) returns (js: seq<JoinServerParams>)
    ensures js == JoinServersOf(uris)
  {
    js := [];
    var i := 0;
    while i < |uris|
      invariant 0 <= i <= |uris|
      invariant JoinServersOf(uris) == js + JoinServersOf(uris[i..])
    {
      assert uris[i..][1..] == uris[i + 1..];
      js := js + [JoinServerParams(uris[i], "")];
      i := i + 1;
    }
    assert uris[i..] == [];
  }

  /** The edit Join sends: one replica set carrying every parameter and the join servers. */
  function JoinRequest(alias: string, uuid: string, roles: seq<string>, weight: int32, vshardGroup: string,
                       allRw: bool, joinServers: seq<JoinServerParams>): (p: EditTopologyParams)
    ensures p.servers == [] && |p.replicasets| == 1
    ensures var rs := p.replicasets[0];
      rs.uuid == uuid && rs.alias == alias && rs.roles == roles && rs.weight == weight
      && rs.vshardGroup == vshardGroup && rs.allRw == allRw && rs.joinServers == joinServers
      && rs.failoverPriority == []
  {
    EditTopologyParams([], [EditReplicasetParams(uuid, alias, roles, allRw, weight, [], vshardGroup, joinServers)])
  }

  /** adminEditTopology: a transport or Lua error is wrapped; the flag survives a Lua error. */
  function AdminEditTopology(call: Outcome<BooleanResult>): (r: Checked)
    ensures call.Fail? ==> r == Checked(false, Some(Wrapped("unable to edit topology", call.error)))
    ensures call.Ok? ==> r.value == call.value.res
    ensures call.Ok? ==> (r.err.None? <==> call.value.err.None?)
    ensures call.Ok? && call.value.err.Some? ==> r.err.value.AsLua() == call.value.err
  {
    match call
    case Fail(e) => Checked(false, Some(Wrapped("unable to edit topology", e)))
    case Ok(LuaCallResult(res, None)) => Checked(res, None)
    case Ok(LuaCallResult(res, Some(l))) => Checked(res, Some(Wrapped("unable to edit topology", Lua(l))))
  }

  const AlreadyJoinedText := "is already joined"
  const UnknownRoleText := "can not enable unknown role"

  /** Join's mapping of the edit answer to its error. */
  function JoinError(edit: Checked): (r: Option<Error>)
    ensures edit.err.None? ==> (r.None? <==> edit.value)
    ensures edit.err.None? && !edit.value ==> r == Some(Sentinel(TopologyIsDown))
    ensures edit.err.Some? ==> r.Some?
  {
    if edit.err.None? then
      if edit.value then None else Some(Sentinel(TopologyIsDown))
    else
      var e := edit.err.value;
      var lua := e.AsLua();
      if lua.Some? && Contains(lua.value.Message(), AlreadyJoinedText) then Some(Sentinel(AlreadyJoined))
      else if lua.Some? && Contains(lua.value.Message(), UnknownRoleText) then Some(UnknownRole(lua.value))
      else Some(e)
  }

  /** The remote texts Join recognises become the sentinel or the typed error; everything else passes through. */
  lemma JoinErrorClassification(edit: Checked, l: LuaError)
    requires edit.err.Some? && edit.err.value.AsLua() == Some(l)
    ensures Contains(l.Message(), AlreadyJoinedText) ==> JoinError(edit) == Some(Sentinel(AlreadyJoined))
    ensures !Contains(l.Message(), AlreadyJoinedText) && Contains(l.Message(), UnknownRoleText) ==>
      JoinError(edit).value.AsUnknownRole() == Some(l) && JoinError(edit).value.Message() == l.Message()
    ensures !Contains(l.Message(), AlreadyJoinedText) && !Contains(l.Message(), UnknownRoleText) ==>
      JoinError(edit) == edit.err
  {
  }

  /** An error that holds no Lua error passes through Join untouched. */
  lemma JoinPassesOtherErrors(edit: Checked)
    requires edit.err.Some? && edit.err.value.AsLua().None?
    ensures JoinError(edit) == edit.err
  {
  }

  /** A Lua answer makes Join fail with AlreadyJoined exactly when its text says the server is already joined. */
  lemma JoinAlreadyJoinedIff(call: Outcome<BooleanResult>)
    requires call.Ok?
    ensures JoinError(AdminEditTopology(call)) == Some(Sentinel(AlreadyJoined))
      <==> call.value.err.Some? && Contains(call.value.err.value.Message(), AlreadyJoinedText)
  {
  }

  // ----- Weights and roles -----

  const NotInConfigText := "not in config"
  const LastStorageText := "At least one vshard-storage (default) must have weight > 0"

  /** SetWeight: the transport error as is; the Lua error mapped by its text. */
  function SetWeightError(call: Outcome<BooleanResult>): (r: Option<Error>)
    ensures r.None? <==> call.Ok? && call.value.err.None?
    ensures call.Fail? ==> r == Some(call.error)
    ensures call.Ok? && call.value.err.Some? ==>
      var l := call.value.err.value;
      r == Some(if Contains(l.Message(), NotInConfigText) then Sentinel(NotInConfig)
                else if Contains(l.Message(), LastStorageText) then Sentinel(LastStorageWeight)
                else Lua(l))
  {
    match call
    case Fail(e) => Some(e)
    case Ok(LuaCallResult(_, None)) => None
    case Ok(LuaCallResult(_, Some(l))) =>
      if Contains(l.Message(), NotInConfigText) then Some(Sentinel(NotInConfig))
      else if Contains(l.Message(), LastStorageText) then Some(Sentinel(LastStorageWeight))
      else Some(Lua(l))
  }

  /**
   * The flag of a successful weight call is ignored. The Lua message is
   * matched with the capital "At", while the sentinel's own text starts with a
   * lower-case "at": the mapping works on the Lua text, not on the sentinel's.
   */
  lemma SetWeightIgnoresFlag(call: Outcome<BooleanResult>, other: bool)
    requires call.Ok?
    ensures SetWeightError(call) == SetWeightError(Ok(LuaCallResult(other, call.value.err)))
  {
  }

  /** The edit SetReplicasetRoles sends: only the UUID and the roles. */
  function SetReplicasetRolesRequest(uuid: string, roles: seq<string>): (p: EditTopologyParams)
    ensures p.servers == [] && |p.replicasets| == 1
    ensures p.replicasets[0] == EditReplicasetParams(uuid, "", roles, false, 0, [], "", [])
  {
    EditTopologyParams([], [EditReplicasetParams(uuid, "", roles, false, 0, [], "", [])])
  }

  /** SetReplicasetRoles: the edit error as is, TopologyIsDown on a false flag. */
  function SetReplicasetRolesError(edit: Checked): (r: Option<Error>)
    ensures r.None? <==> edit.err.None? && edit.value
    ensures edit.err.Some? ==> r == edit.err
    ensures edit.err.None? && !edit.value ==> r == Some(Sentinel(TopologyIsDown))
  {
    if edit.err.Some? then edit.err
    else if !edit.value then Some(Sentinel(TopologyIsDown))
    else None
  }

  /** GetReplicasetRoles: a nil list becomes an empty one; errors are wrapped. */
  function GetReplicasetRolesAnswer(call: Outcome<Option<seq<string>>>): (r: Outcome<seq<string>>)
    ensures r.Fail? <==> call.Fail?
    ensures call.Fail? ==> r.error == Wrapped("failed to retrieve cartridge replicasets params", call.error)
    ensures call.Ok? && call.value.None? ==> r == Ok([])
    ensures call.Ok? && call.value.Some? ==> r == Ok(call.value.value)
  {
    match call
    case Fail(e) => Fail(Wrapped("failed to retrieve cartridge replicasets params", e))
    case Ok(None) => Ok([])
    case Ok(Some(roles)) => Ok(roles)
  }

  /** GetRolesHierarchy: every role with the roles it depends on. */
  function GetRolesHierarchyAnswer(call: Outcome<map<string, seq<string>>>): (r: Outcome<map<string, seq<string>>>)
    ensures r.Ok? <==> call.Ok?
    ensures r.Ok? ==> r.value == call.value
    ensures r.Fail? ==> r.error.Message() == "unable to retrieve roles hierarchy: " + call.error.Message()
  {
    match call
    case Fail(e) => Fail(Wrapped("unable to retrieve roles hierarchy", e))
    case Ok(h) => Ok(h)
  }

  // ----- Bootstrap -----

  const BootstrapFailedClass := "Bootstrapping vshard failed"
  const AlreadyBootstrappedText := "already bootstrapped"

  /** isAlreadyBootstrapped */
  predicate IsAlreadyBootstrapped(l: LuaError)
  {
    l.className == BootstrapFailedClass && Contains(l.err, AlreadyBootstrappedText)
  }

  /** BootstrapVshard: an "already bootstrapped" Lua error counts as success. */
  function BootstrapVshardError(call: Outcome<BooleanResult>): (r: Option<Error>)
    ensures call.Fail? ==> r == Some(Wrapped("unable to bootstrap cluster", call.error))
    ensures call.Ok? ==> (r.None? <==> call.value.err.None? || IsAlreadyBootstrapped(call.value.err.value))
    ensures call.Ok? && r.Some? ==> r == Some(Wrapped("unable to bootstrap cluster", Lua(call.value.err.value)))
  {
    match call
    case Fail(e) => Some(Wrapped("unable to bootstrap cluster", e))
    case Ok(LuaCallResult(_, None)) => None
    case Ok(LuaCallResult(_, Some(l))) =>
      if IsAlreadyBootstrapped(l) then None else Some(Wrapped("unable to bootstrap cluster", Lua(l)))
  }

  /** The class name decides: the same text under another class is a real failure. */
  lemma AlreadyBootstrappedNeedsClass(l: LuaError, flag: bool)
    requires l.className != BootstrapFailedClass
    ensures BootstrapVshardError(Ok(LuaCallResult(flag, Some(l)))).Some?
  {
  }

  // ----- Failover -----

  /** SetFailoverParams: the transport error or the Lua error, unwrapped. */
  function SetFailoverParamsError(call: Outcome<BooleanResult>): (r: Option<Error>)
    ensures r.None? <==> call.Ok? && call.value.err.None?
    ensures call.Fail? ==> r == Some(call.error)
    ensures call.Ok? && call.value.err.Some? ==> r == Some(Lua(call.value.err.value))
  {
    match call
    case Fail(e) => Some(e)
    case Ok(LuaCallResult(_, None)) => None
    case Ok(LuaCallResult(_, Some(l))) => Some(Lua(l))
  }

  function GetFailoverParamsAnswer(call: Outcome<FailoverParams>): (r: Outcome<FailoverParams>)
    ensures r.Ok? <==> call.Ok?
    ensures r.Ok? ==> r.value == call.value
    ensures r.Fail? ==> r.error == Wrapped("failed to retrieve cartridge failover params", call.error)
  {
    match call
    case Fail(e) => Fail(Wrapped("failed to retrieve cartridge failover params", e))
    case Ok(p) => Ok(p)
  }

  // ----- Clusterwide configuration -----

  /** The sections neither downloaded nor uploaded. */
  const ReservedSections: set<string> := {
    "auth", "auth.yml", "topology", "topology.yml", "users_acl", "users_acl.yml",
    "vshard", "vshard.yml", "vshard_groups", "vshard_groups.yml", "schema.yml"
  }

  /** The Lua filter: every section but the reserved ones. */
  function SafeConfig(cfg: map<string, Section>): (r: map<string, Section>)
    ensures forall k :: k in r <==> k in cfg && k !in ReservedSections
    ensures forall k :: k in r ==> r[k] == cfg[k]
  {
    map k | k in cfg && k !in ReservedSections :: cfg[k]
  }

  lemma SafeConfigIdempotent(cfg: map<string, Section>)
    ensures SafeConfig(SafeConfig(cfg)) == SafeConfig(cfg)
  {
  }

  /** Adding or changing a reserved section makes no difference to what is read or written. */
  lemma SafeConfigIgnoresReserved(cfg: map<string, Section>, k: string, v: Section)
    requires k in ReservedSections
    ensures SafeConfig(cfg[k := v]) == SafeConfig(cfg)
  {
  }

  /**
   * GetCartridgeConfig over the filtered configuration the Lua side returned: a
   * JSON type error (the payload was not an object) reads as an empty
   * configuration; any other error is wrapped.
   */
  function GetCartridgeConfigAnswer(call: Outcome<ConfigData>): (r: Outcome<ConfigData>)
    ensures call.Fail? && call.error.IsJsonType() ==> r == Ok(Some(map[]))
    ensures call.Fail? && !call.error.IsJsonType() ==> r == Fail(Wrapped("failed to download cartridge config", call.error))
    ensures call.Ok? ==> r == call
  {
    match call
    case Fail(e) =>
      if e.IsJsonType() then Ok(Some(map[]))
      else Fail(Wrapped("failed to download cartridge config", e))
    case Ok(cfg) => Ok(cfg)
  }

  /** What the clusterwide patch receives from ApplyCartridgeConfig. */
  function UploadedConfig(desired: ConfigData): (r: ConfigData)
    ensures r.Some? <==> desired.Some?
    ensures r.Some? ==> r.value.Keys == desired.value.Keys - ReservedSections
  {
    match desired
    case None => None
    case Some(cfg) => Some(SafeConfig(cfg))
  }

  /** ApplyCartridgeConfig: a false answer is an error of its own. */
  function ApplyCartridgeConfigError(call: Outcome<bool>): (r: Option<Error>)
    ensures r.None? <==> call == Ok(true)
    ensures call.Fail? ==> r == Some(Wrapped("failed to upload cartridge config", call.error))
    ensures call == Ok(false) ==> r == Some(Plain("failed to upload cartridge config"))
  {
    match call
    case Fail(e) => Some(Wrapped("failed to upload cartridge config", e))
    case Ok(ok) => if ok then None else Some(Plain("failed to upload cartridge config"))
  }

  /** Uploading what was downloaded sends the same sections again. */
  lemma UploadDownloadedConfig(cfg: map<string, Section>)
    ensures UploadedConfig(Some(SafeConfig(cfg))) == Some(SafeConfig(cfg))
  {
    SafeConfigIdempotent(cfg);
  }

  // ----- Instance state -----

  /** confapplier states that mean a failed start. */
  const ErrorStates: set<string> := {"InitError", "BootError", "OperationError", "ReloadError"}

  /** The Lua predicate of IsCartridgeStarted. */
  predicate Started(state: string)
  {
    state != "" && state !in ErrorStates
  }

  /** The Lua predicate of IsCartridgeConfigured. */
  predicate Configured(state: string)
  {
    state == "RolesConfigured" || state == "OperationError"
  }

  /** The answer record both state scripts return. */
  function StateResult(configuredProbe: bool, state: string): (r: BooleanResult)
    ensures r.err.None?
    ensures r.res == (if configuredProbe then Configured(state) else Started(state))
  {
    LuaCallResult(if configuredProbe then Configured(state) else Started(state), None)
  }

  /**
   * The two probes disagree on exactly one state: OperationError counts as
   * configured but not as started; RolesConfigured is both.
   */
  lemma ConfiguredButNotStarted(state: string)
    ensures Configured(state) && !Started(state) <==> state == "OperationError"
    ensures state == "RolesConfigured" ==> Configured(state) && Started(state)
  {
  }

  /** IsCartridgeStarted / IsCartridgeConfigured on the Go side: errors are wrapped, the flag kept. */
  function InstanceStateAnswer(call: Outcome<BooleanResult>): (r: Checked)
    ensures call.Fail? ==> r == Checked(false, Some(Wrapped("unable to retrieve instance state", call.error)))
    ensures call.Ok? ==> r.value == call.value.res
    ensures call.Ok? ==> (r.err.None? <==> call.value.err.None?)
  {
    match call
    case Fail(e) => Checked(false, Some(Wrapped("unable to retrieve instance state", e)))
    case Ok(LuaCallResult(res, None)) => Checked(res, None)
    case Ok(LuaCallResult(res, Some(l))) => Checked(res, Some(Wrapped("unable to retrieve instance state", Lua(l))))
  }

  /** A probe that reaches the instance reports the state predicate with no error. */
  lemma ProbeReportsState(configuredProbe: bool, state: string)
    ensures InstanceStateAnswer(Ok(StateResult(configuredProbe, state)))
      == Checked(if configuredProbe then Configured(state) else Started(state), None)
  {
  }
}
