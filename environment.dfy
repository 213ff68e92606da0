// Everything outside the operator's own code: the Kubernetes API server (gets,
// lists, writes, controller references) and the Tarantool instances reached
// through the pod-exec transport. Both are oracles. An oracle answer may depend
// on everything asked so far, so every oracle takes the number of calls already
// made as its first argument, and the Controller keeps the log of those calls.
// The pod-template hash, SHA-1 and the YAML decoder are deterministic
// parameters.

module Environment {
  import opened Wrappers
  import opened Errors
  import opened K8s
  import opened Api
  import opened Labels
  import opened Topology
  import opened Uuid
  import opened Text

  /** The labels manager every controller is built with. */
  const Manager := LabelsManager("tarantool.io")

  // ----- Objects the operator owns -----

  datatype ServicePort = ServicePort(name: string, port: int32, protocol: string)

  /**
   * The fields of a Service the cluster-wide service step manages. A nil
   * selector and an empty one compare the same way against the one-key selector
   * the step wants, so the selector is a plain map.
   */
  datatype ServiceSpec = ServiceSpec(
    selector: map<string, string>,
    publishNotReadyAddresses: bool,
    clusterIP: string,
    ports: seq<ServicePort>)

  datatype ServiceValue = ServiceValue(meta: Meta, spec: ServiceSpec)

  /** A Secret with its data read as text. */
  datatype SecretValue = SecretValue(meta: Meta, data: map<string, string>)

  datatype StatefulSetSpec = StatefulSetSpec(
    replicas: int32,
    selector: map<string, string>,
    template: PodTemplateSpec,
    volumeClaimTemplates: seq<VolumeClaim>,
    serviceName: string,
    podManagementPolicy: string,
    revisionHistoryLimit: int32,
    retainClaims: bool,
    minReadySeconds: int32,
    updateStrategy: UpdateStrategy)

  datatype StatefulSetValue = StatefulSetValue(meta: Meta, spec: StatefulSetSpec)

  /** An object sent to the API server. */
  datatype Object =
    | ClusterObject(cluster: ClusterValue)
    | RoleObject(role: RoleValue)
    | ConfigObject(config: ConfigValue)
    | ServiceObject(service: ServiceValue)
    | StatefulSetObject(statefulSet: StatefulSetValue)
    | SecretObject(secret: SecretValue)

  // ----- The call log -----

  /** One call across the operator's boundary, with the arguments that matter. */
  datatype Call =
    | GetClusterCall(key: NamespacedName)
    | GetRoleCall(key: NamespacedName)
    | GetConfigCall(key: NamespacedName)
    | GetPodCall(key: NamespacedName)
    | GetServiceCall(key: NamespacedName)
    | GetSecretCall(key: NamespacedName)
    | ListRolesCall(namespace: string, selector: Selector)
    | ListPodsCall(namespace: string, selector: Selector)
    | ListStatefulSetsCall(namespace: string, selector: Selector)
    | CreateCall(obj: Object)
    | UpdateCall(obj: Object)
    | StatusUpdateCall(obj: Object)
    | ControlObjectCall(owner: string, target: string)
    | SetOwnerReferenceCall(owner: string, target: string)
    | EditTopologyCall(pod: string, edit: EditTopologyParams)
    | SetWeightCall(pod: string, uuid: string, weight: int32)
    | GetReplicasetRolesCall(pod: string, uuid: string)
    | GetRolesHierarchyCall(pod: string)
    | BootstrapVshardCall(pod: string)
    | GetFailoverParamsCall(pod: string)
    | SetFailoverParamsCall(pod: string, params: FailoverParams)
    | GetCartridgeConfigCall(pod: string)
    | ApplyCartridgeConfigCall(pod: string, patch: ConfigData)
    | InstanceStateCall(pod: string, configuredProbe: bool)
    | InstanceUUIDCall(pod: string)
  {
    /** Calls that change something outside the operator. */
    predicate IsWrite()
    {
      CreateCall? || UpdateCall? || StatusUpdateCall? || EditTopologyCall? || SetWeightCall?
      || SetFailoverParamsCall? || ApplyCartridgeConfigCall? || BootstrapVshardCall?
    }
  }

  /** The answers of the outside world. */
  datatype World = World(
    getCluster: (nat, NamespacedName) -> Outcome<ClusterValue>,
    getRole: (nat, NamespacedName) -> Outcome<RoleValue>,
    getConfig: (nat, NamespacedName) -> Outcome<ConfigValue>,
    getPod: (nat, NamespacedName) -> Outcome<Pod>,
    getService: (nat, NamespacedName) -> Outcome<ServiceValue>,
    getSecret: (nat, NamespacedName) -> Outcome<SecretValue>,
    listRoles: (nat, string, Selector) -> Outcome<seq<RoleValue>>,
    listPods: (nat, string, Selector) -> Outcome<seq<Pod>>,
    listStatefulSets: (nat, string, Selector) -> Outcome<seq<StatefulSetValue>>,
    /** The answer to a create, an update, a status update or an owner-reference change. */
    write: (nat, Call) -> Option<Error>,
    /** ControlObject: Ok(true) when the controller reference was taken, Ok(false) when it was already held. */
    controlObject: (nat, Meta, Meta) -> Outcome<bool>,
    editTopology: (nat, Pod, EditTopologyParams) -> Outcome<BooleanResult>,
    setWeight: (nat, Pod, string, int32) -> Outcome<BooleanResult>,
    replicasetRoles: (nat, Pod, string) -> Outcome<Option<seq<string>>>,
    rolesHierarchy: (nat, Pod) -> Outcome<map<string, seq<string>>>,
    bootstrapVshard: (nat, Pod) -> Outcome<BooleanResult>,
    failoverParams: (nat, Pod) -> Outcome<FailoverParams>,
    setFailoverParams: (nat, Pod, FailoverParams) -> Outcome<BooleanResult>,
    cartridgeConfig: (nat, Pod) -> Outcome<ConfigData>,
    applyConfig: (nat, Pod, ConfigData) -> Outcome<bool>,
    /** The confapplier state of the instance, or a transport error. */
    instanceState: (nat, Pod) -> Outcome<string>,
    instanceUUID: (nat, Pod) -> Outcome<string>,
    /** utils.HashObject of a pod template. */
    hash: PodTemplateSpec -> Outcome<string>,
    sha1: seq<byte> -> Digest,
    /** yaml.Unmarshal into a configuration map; "" leaves the map nil. */
    yaml: string -> Outcome<ConfigData>)

  /** IsCartridgeStarted / IsCartridgeConfigured as the Go side sees the probe. */
  function ProbeAnswer(state: Outcome<string>, configuredProbe: bool): (r: Checked)
    ensures state.Ok? ==> r == Checked(if configuredProbe then Configured(state.value) else Started(state.value), None)
    ensures state.Fail? ==> r.err.Some? && !r.value
  {
    ProbeReportsState(configuredProbe, if state.Ok? then state.value else "");
    match state
    case Fail(e) => InstanceStateAnswer(Fail(e))
    case Ok(s) => InstanceStateAnswer(Ok(StateResult(configuredProbe, s)))
  }

  /**
   * The client, resources manager and topology a controller works with. Every
   * method asks the world and appends its call to the log; nothing else changes.
   */
  class Controller {
    const world: World
    /** Whether the controller's LeaderElection was given a Topology. */
    const electionTopology: bool
    var log: seq<Call>

    constructor (world: World, electionTopology: bool)
      ensures this.world == world && this.electionTopology == electionTopology && log == []
    {
      this.world := world;
      this.electionTopology := electionTopology;
      log := [];
    }

    method GetCluster(key: NamespacedName) returns (r: Outcome<ClusterValue>)
      modifies this
      ensures log == old(log) + [GetClusterCall(key)] && r == world.getCluster(|old(log)|, key)
    {
      r := world.getCluster(|log|, key);
      log := log + [GetClusterCall(key)];
    }

    method GetRole(key: NamespacedName) returns (r: Outcome<RoleValue>)
      modifies this
      ensures log == old(log) + [GetRoleCall(key)] && r == world.getRole(|old(log)|, key)
    {
      r := world.getRole(|log|, key);
      log := log + [GetRoleCall(key)];
    }

    method GetConfig(key: NamespacedName) returns (r: Outcome<ConfigValue>)
      modifies this
      ensures log == old(log) + [GetConfigCall(key)] && r == world.getConfig(|old(log)|, key)
    {
      r := world.getConfig(|log|, key);
      log := log + [GetConfigCall(key)];
    }

    method GetPod(key: NamespacedName) returns (r: Outcome<Pod>)
      modifies this
      ensures log == old(log) + [GetPodCall(key)] && r == world.getPod(|old(log)|, key)
    {
      r := world.getPod(|log|, key);
      log := log + [GetPodCall(key)];
    }

    method GetService(key: NamespacedName) returns (r: Outcome<ServiceValue>)
      modifies this
      ensures log == old(log) + [GetServiceCall(key)] && r == world.getService(|old(log)|, key)
    {
      r := world.getService(|log|, key);
      log := log + [GetServiceCall(key)];
    }

    method GetSecret(key: NamespacedName) returns (r: Outcome<SecretValue>)
      modifies this
      ensures log == old(log) + [GetSecretCall(key)] && r == world.getSecret(|old(log)|, key)
    {
      r := world.getSecret(|log|, key);
      log := log + [GetSecretCall(key)];
    }

    method ListRoles(namespace: string, selector: Selector) returns (r: Outcome<seq<RoleValue>>)
      modifies this
      ensures log == old(log) + [ListRolesCall(namespace, selector)]
      ensures r == world.listRoles(|old(log)|, namespace, selector)
    {
      r := world.listRoles(|log|, namespace, selector);
      log := log + [ListRolesCall(namespace, selector)];
    }

    method ListPods(namespace: string, selector: Selector) returns (r: Outcome<seq<Pod>>)
      modifies this
      ensures log == old(log) + [ListPodsCall(namespace, selector)]
      ensures r == world.listPods(|old(log)|, namespace, selector)
    {
      r := world.listPods(|log|, namespace, selector);
      log := log + [ListPodsCall(namespace, selector)];
    }

    method ListStatefulSets(namespace: string, selector: Selector) returns (r: Outcome<seq<StatefulSetValue>>)
      modifies this
      ensures log == old(log) + [ListStatefulSetsCall(namespace, selector)]
      ensures r == world.listStatefulSets(|old(log)|, namespace, selector)
    {
      r := world.listStatefulSets(|log|, namespace, selector);
      log := log + [ListStatefulSetsCall(namespace, selector)];
    }

    /** A create, update, status update or owner-reference change. */
    method Write(call: Call) returns (err: Option<Error>)
      modifies this
      ensures log == old(log) + [call] && err == world.write(|old(log)|, call)
    {
      err := world.write(|log|, call);
      log := log + [call];
    }

    method ControlObject(owner: Meta, target: Meta) returns (r: Outcome<bool>)
      modifies this
      ensures log == old(log) + [ControlObjectCall(owner.name, target.name)]
      ensures r == world.controlObject(|old(log)|, owner, target)
    {
      r := world.controlObject(|log|, owner, target);
      log := log + [ControlObjectCall(owner.name, target.name)];
    }

    // ----- Topology -----

    method EditTopology(leader: Pod, edit: EditTopologyParams) returns (r: Outcome<BooleanResult>)
      modifies this
      ensures log == old(log) + [EditTopologyCall(leader.meta.name, edit)]
      ensures r == world.editTopology(|old(log)|, leader, edit)
    {
      r := world.editTopology(|log|, leader, edit);
      log := log + [EditTopologyCall(leader.meta.name, edit)];
    }

    method SetWeight(leader: Pod, uuid: string, weight: int32) returns (r: Outcome<BooleanResult>)
      modifies this
      ensures log == old(log) + [SetWeightCall(leader.meta.name, uuid, weight)]
      ensures r == world.setWeight(|old(log)|, leader, uuid, weight)
    {
      r := world.setWeight(|log|, leader, uuid, weight);
      log := log + [SetWeightCall(leader.meta.name, uuid, weight)];
    }

    method GetReplicasetRoles(leader: Pod, uuid: string) returns (r: Outcome<Option<seq<string>>>)
      modifies this
      ensures log == old(log) + [GetReplicasetRolesCall(leader.meta.name, uuid)]
      ensures r == world.replicasetRoles(|old(log)|, leader, uuid)
    {
      r := world.replicasetRoles(|log|, leader, uuid);
      log := log + [GetReplicasetRolesCall(leader.meta.name, uuid)];
    }

    method GetRolesHierarchy(leader: Pod) returns (r: Outcome<map<string, seq<string>>>)
      modifies this
      ensures log == old(log) + [GetRolesHierarchyCall(leader.meta.name)]
      ensures r == world.rolesHierarchy(|old(log)|, leader)
    {
      r := world.rolesHierarchy(|log|, leader);
      log := log + [GetRolesHierarchyCall(leader.meta.name)];
    }

    method BootstrapVshard(leader: Pod) returns (r: Outcome<BooleanResult>)
      modifies this
      ensures log == old(log) + [BootstrapVshardCall(leader.meta.name)]
      ensures r == world.bootstrapVshard(|old(log)|, leader)
    {
      r := world.bootstrapVshard(|log|, leader);
      log := log + [BootstrapVshardCall(leader.meta.name)];
    }

    method GetFailoverParams(leader: Pod) returns (r: Outcome<FailoverParams>)
      modifies this
      ensures log == old(log) + [GetFailoverParamsCall(leader.meta.name)]
      ensures r == world.failoverParams(|old(log)|, leader)
    {
      r := world.failoverParams(|log|, leader);
      log := log + [GetFailoverParamsCall(leader.meta.name)];
    }

    method SetFailoverParams(leader: Pod, params: FailoverParams) returns (r: Outcome<BooleanResult>)
      modifies this
      ensures log == old(log) + [SetFailoverParamsCall(leader.meta.name, params)]
      ensures r == world.setFailoverParams(|old(log)|, leader, params)
    {
      r := world.setFailoverParams(|log|, leader, params);
      log := log + [SetFailoverParamsCall(leader.meta.name, params)];
    }

    method GetCartridgeConfig(leader: Pod) returns (r: Outcome<ConfigData>)
      modifies this
      ensures log == old(log) + [GetCartridgeConfigCall(leader.meta.name)]
      ensures r == world.cartridgeConfig(|old(log)|, leader)
    {
      r := world.cartridgeConfig(|log|, leader);
      log := log + [GetCartridgeConfigCall(leader.meta.name)];
    }

    /** The Lua side patches the clusterwide configuration with the non-reserved sections. */
    method ApplyCartridgeConfig(leader: Pod, desired: ConfigData) returns (r: Outcome<bool>)
      modifies this
      ensures log == old(log) + [ApplyCartridgeConfigCall(leader.meta.name, UploadedConfig(desired))]
      ensures r == world.applyConfig(|old(log)|, leader, UploadedConfig(desired))
    {
      r := world.applyConfig(|log|, leader, UploadedConfig(desired));
      log := log + [ApplyCartridgeConfigCall(leader.meta.name, UploadedConfig(desired))];
    }

    /** IsCartridgeStarted (configuredProbe false) or IsCartridgeConfigured (true). */
    method InstanceState(pod: Pod, configuredProbe: bool) returns (r: Checked)
      modifies this
      ensures log == old(log) + [InstanceStateCall(pod.meta.name, configuredProbe)]
      ensures r == ProbeAnswer(world.instanceState(|old(log)|, pod), configuredProbe)
    {
      r := ProbeAnswer(world.instanceState(|log|, pod), configuredProbe);
      log := log + [InstanceStateCall(pod.meta.name, configuredProbe)];
    }

    method GetInstanceUUID(pod: Pod) returns (r: Outcome<string>)
      modifies this
      ensures log == old(log) + [InstanceUUIDCall(pod.meta.name)]
      ensures r == world.instanceUUID(|old(log)|, pod)
    {
      r := world.instanceUUID(|log|, pod);
      log := log + [InstanceUUIDCall(pod.meta.name)];
    }
  }
}
