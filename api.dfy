// The custom resources the operator reconciles: Cluster and Role
// (apis/v1alpha2) and CartridgeConfig (apis/v1beta1). Each is a value type whose
// getters and status transforms are pure, and a class whose status the steps
// update in place; the class methods are specified by the value transforms.

module Api {
  import opened Wrappers
  import opened Text
  import opened K8s
  import opened Errors

  // ----- Cluster phases -----

  const ClusterPending := "Pending"
  const ClusterSyncingService := "SyncingService"
  const ClusterWaitingForRoles := "WaitingForRoles"
  const ClusterWaitingForLeader := "WaitingForLeader"
  const ClusterReady := "Ready"
  const ClusterUnableToBootstrap := "UnableToBootstrap"
  const ClusterFailoverConfiguring := "FailoverConfiguring"

  /** The declared cluster phases. */
  function ClusterPhases(): (ps: seq<string>)
    ensures |ps| == 7
    ensures forall i, j :: 0 <= i < j < |ps| ==> ps[i] != ps[j]
    ensures "" !in ps
  {
    [ClusterPending, ClusterSyncingService, ClusterWaitingForRoles, ClusterWaitingForLeader,
     ClusterReady, ClusterUnableToBootstrap, ClusterFailoverConfiguring]
  }

  // ----- Failover configuration (apis/v1alpha2/cluster_types.go, pkg/api/failover.go) -----

  const FailoverModeDisabled := "disabled"
  const FailoverModeEventual := "eventual"
  const FailoverModeStateful := "stateful"
  const FailoverModeRaft := "raft"
  const FailoverStateProviderETCD2 := "etcd2"
  const FailoverStateProviderStateboard := "stateboard"

  /** A reference to a key of a Secret. */
  datatype SecretRef = SecretRef(name: string, namespace: string, key: string)

  /** `endpoints` is a Go slice: `None` is the nil slice of an omitted list, distinct from an empty one. */
  datatype FailoverEtcd2 = FailoverEtcd2(
    endpoints: Option<seq<string>>,
    username: string,
    password: SecretRef,
    lockDelay: int32,
    prefix: string)

  datatype FailoverStateboard = FailoverStateboard(uri: string, password: SecretRef)

  /** `etcd2` and `stateboard` are pointers in the resource and may be nil. */
  datatype FailoverConfig = FailoverConfig(
    mode: string,
    timeout: int32,
    stateProvider: string,
    fencing: bool,
    fencingTimeout: int32,
    fencingPause: int32,
    etcd2: Option<FailoverEtcd2>,
    stateboard: Option<FailoverStateboard>)

  datatype ClusterSpec = ClusterSpec(
    domain: string,
    listenPort: int32,
    failover: FailoverConfig,
    foreignLeader: string)

  datatype ClusterStatus = ClusterStatus(phase: string, bootstrapped: bool, leader: string)

  const EmptyClusterSpec := ClusterSpec("", 0, FailoverConfig("", 0, "", false, 0, 0, None, None), "")

  datatype ClusterValue = ClusterValue(meta: Meta, spec: ClusterSpec, status: ClusterStatus)
  {
    function GetName(): string { meta.name }
    function GetNamespace(): string { meta.namespace }
    function GetDomain(): string { spec.domain }
    function GetListenPort(): int32 { spec.listenPort }
    predicate IsBootstrapped() { status.bootstrapped }
    function GetPhase(): string { status.phase }

    /**
     * GetFailoverConfig returns the address of the spec's failover block, so it is
     * never nil: the value is always there.
     */
    function GetFailoverConfig(): FailoverConfig { spec.failover }

    /** The leader used for topology calls: a foreign leader overrides the elected one. */
    function GetLeader(): (l: string)
      ensures spec.foreignLeader != "" ==> l == spec.foreignLeader
      ensures spec.foreignLeader == "" ==> l == status.leader
    {
      if spec.foreignLeader != "" then spec.foreignLeader else status.leader
    }

    /** Writes only the elected leader: a foreign leader keeps winning in GetLeader. */
    function SetLeader(leader: string): (r: ClusterValue)
      ensures r.meta == meta && r.spec == spec
      ensures r.GetPhase() == GetPhase() && r.IsBootstrapped() == IsBootstrapped()
      ensures r.status.leader == leader
      ensures spec.foreignLeader != "" ==> r.GetLeader() == GetLeader()
      ensures spec.foreignLeader == "" ==> r.GetLeader() == leader
    {
      this.(status := status.(leader := leader))
    }

    /** Sets the bootstrapped flag; nothing else changes. */
    function MarkBootstrapped(): (r: ClusterValue)
      ensures r.IsBootstrapped()
      ensures r.meta == meta && r.spec == spec
      ensures r.GetPhase() == GetPhase() && r.GetLeader() == GetLeader()
    {
      this.(status := status.(bootstrapped := true))
    }

    /** Clears the phase, keeping the bootstrapped flag and the elected leader. */
    function ResetStatus(): (r: ClusterValue)
      ensures r.GetPhase() == ""
      ensures r.IsBootstrapped() == IsBootstrapped() && r.status.leader == status.leader
      ensures r.meta == meta && r.spec == spec
    {
      this.(status := ClusterStatus("", status.bootstrapped, status.leader))
    }

    function SetPhase(phase: string): (r: ClusterValue)
      ensures r.GetPhase() == phase
      ensures r.IsBootstrapped() == IsBootstrapped() && r.status.leader == status.leader
      ensures r.meta == meta && r.spec == spec
    {
      this.(status := status.(phase := phase))
    }
  }

  /** No status transform of a Cluster ever clears the bootstrapped flag. */
  lemma BootstrappedIsSticky(c: ClusterValue, leader: string, phase: string)
    requires c.IsBootstrapped()
    ensures c.SetLeader(leader).IsBootstrapped() && c.MarkBootstrapped().IsBootstrapped()
    ensures c.ResetStatus().IsBootstrapped() && c.SetPhase(phase).IsBootstrapped()
  {
  }

  /** MarkBootstrapped, ResetStatus and SetPhase are idempotent. */
  lemma ClusterTransformsIdempotent(c: ClusterValue, phase: string)
    ensures c.MarkBootstrapped().MarkBootstrapped() == c.MarkBootstrapped()
    ensures c.ResetStatus().ResetStatus() == c.ResetStatus()
    ensures c.SetPhase(phase).SetPhase(phase) == c.SetPhase(phase)
  {
  }

  /** A *v1alpha2.Cluster. */
  class Cluster {
    var meta: Meta
    var spec: ClusterSpec
    var status: ClusterStatus

    function Value(): ClusterValue
      reads this
    {
      ClusterValue(meta, spec, status)
    }

    /** An object holding the given contents, as a client call returns it. */
    constructor (v: ClusterValue)
      ensures Value() == v
    {
      meta := v.meta;
      spec := v.spec;
      status := v.status;
    }

    /** client.Get into an existing object overwrites it completely. */
    method Load(v: ClusterValue)
      modifies this
      ensures Value() == v
    {
      meta := v.meta;
      spec := v.spec;
      status := v.status;
    }

    method SetLeader(leader: string)
      modifies this
      ensures Value() == old(Value()).SetLeader(leader)
    {
      status := status.(leader := leader);
    }

    method MarkBootstrapped()
      modifies this
      ensures Value() == old(Value()).MarkBootstrapped()
    {
      status := status.(bootstrapped := true);
    }

    method ResetStatus()
      modifies this
      ensures Value() == old(Value()).ResetStatus()
    {
      status := ClusterStatus("", status.bootstrapped, status.leader);
    }

    method SetPhase(phase: string)
      modifies this
      ensures Value() == old(Value()).SetPhase(phase)
    {
      status := status.(phase := phase);
    }
  }

  // ----- Role (apis/v1alpha2/role_types.go) -----

  const RolePending := "Pending"
  const RoleWaitingForCluster := "WaitingForCluster"
  const RoleWaitingForLeader := "WaitingForLeader"
  const RoleWaitForCartridgeReady := "WaitForCartridgeReady"
  const RoleJoining := "Joining"
  const RoleConfiguring := "Configuring"
  const RoleWaitingForBootstrap := "WaitingForBootstrap"
  const RoleConfiguringWeights := "ConfiguringWeights"
  const RoleReady := "Ready"
  const RoleConfigError := "ConfigError"

  /** The declared role phases. */
  function RolePhases(): (ps: seq<string>)
    ensures |ps| == 10
    ensures forall i, j :: 0 <= i < j < |ps| ==> ps[i] != ps[j]
    ensures "" !in ps && RoleConfigError in ps
  {
    [RolePending, RoleWaitingForCluster, RoleWaitingForLeader, RoleWaitForCartridgeReady,
     RoleJoining, RoleConfiguring, RoleWaitingForBootstrap, RoleConfiguringWeights, RoleReady,
     RoleConfigError]
  }

  const OnDeleteStrategy := "OnDelete"
  const RollingUpdateStrategy := "RollingUpdate"

  /** Rolling-update parameters of a StatefulSet update strategy. */
  datatype RollingUpdate = RollingUpdate(partition: Option<int32>, maxUnavailable: Option<string>)

  datatype UpdateStrategy = UpdateStrategy(strategyType: string, rollingUpdate: Option<RollingUpdate>)

  /** A volume claim template, compared and copied as a whole. */
  datatype VolumeClaim = VolumeClaim(name: string, body: string)

  datatype ReplicasetTemplate = ReplicasetTemplate(
    replicas: int32,
    podTemplate: PodTemplateSpec,
    volumeClaimTemplates: seq<VolumeClaim>,
    minReadySeconds: int32,
    updateStrategy: UpdateStrategy)

  datatype VShardConfig = VShardConfig(groupName: string, clusterRoles: seq<string>, weight: int32)

  datatype RoleSpec = RoleSpec(
    replicasets: int32,
    template: ReplicasetTemplate,
    allRw: bool,
    vshard: VShardConfig)

  datatype RoleStatus = RoleStatus(phase: string)

  datatype RoleValue = RoleValue(meta: Meta, spec: RoleSpec, status: RoleStatus)
  {
    function GetName(): string { meta.name }
    function GetNamespace(): string { meta.namespace }
    predicate IsAllRw() { spec.allRw }
    function GetReplicasets(): int32 { spec.replicasets }
    function GetReplicas(): int32 { spec.template.replicas }
    function GetVShardConfig(): VShardConfig { spec.vshard }
    function GetPhase(): string { status.phase }

    /**
     * "%s-%d" of the role name and the ordinal; the error result is always nil.
     * Distinct ordinals give distinct names.
     */
    function GetReplicasetName(ordinal: int): (r: (string, Option<Error>))
      ensures r.1 == None
      ensures IsPrefix(meta.name + "-", r.0)
      ensures r.0[|meta.name| + 1..] == IntToDecimal(ordinal)
    {
      (meta.name + "-" + IntToDecimal(ordinal), None)
    }

    /** The status becomes its zero value. */
    function ResetStatus(): (r: RoleValue)
      ensures r.GetPhase() == "" && r.meta == meta && r.spec == spec
    {
      this.(status := RoleStatus(""))
    }

    function SetPhase(phase: string): (r: RoleValue)
      ensures r.GetPhase() == phase && r.meta == meta && r.spec == spec
    {
      this.(status := status.(phase := phase))
    }
  }

  /** Replica-set names of one role are distinct for distinct ordinals. */
  lemma ReplicasetNamesDistinct(role: RoleValue, a: int, b: int)
    requires a != b
    ensures role.GetReplicasetName(a).0 != role.GetReplicasetName(b).0
  {
    var n := |role.meta.name| + 1;
    if role.GetReplicasetName(a).0 == role.GetReplicasetName(b).0 {
      assert role.GetReplicasetName(a).0[n..] == role.GetReplicasetName(b).0[n..];
      IntToDecimalInjective(a, b);
    }
  }

  /** A *v1alpha2.Role. */
  class Role {
    var meta: Meta
    var spec: RoleSpec
    var status: RoleStatus

    function Value(): RoleValue
      reads this
    {
      RoleValue(meta, spec, status)
    }

    constructor (v: RoleValue)
      ensures Value() == v
    {
      meta := v.meta;
      spec := v.spec;
      status := v.status;
    }

    method Load(v: RoleValue)
      modifies this
      ensures Value() == v
    {
      meta := v.meta;
      spec := v.spec;
      status := v.status;
    }

    method ResetStatus()
      modifies this
      ensures Value() == old(Value()).ResetStatus()
    {
      status := RoleStatus("");
    }

    method SetPhase(phase: string)
      modifies this
      ensures Value() == old(Value()).SetPhase(phase)
    {
      status := status.(phase := phase);
    }
  }

  // ----- CartridgeConfig (apis/v1beta1/cartridgeconfig_types.go) -----

  const CartridgeConfigWaitingForCluster := "WaitingForCluster"
  const CartridgeConfigWaitingForLeader := "WaitingForLeader"
  const CartridgeConfigApplying := "Applying"
  const CartridgeConfigReady := "Ready"

  function CartridgeConfigPhases(): (ps: seq<string>)
    ensures |ps| == 4
    ensures forall i, j :: 0 <= i < j < |ps| ==> ps[i] != ps[j]
    ensures "" !in ps
  {
    [CartridgeConfigWaitingForCluster, CartridgeConfigWaitingForLeader, CartridgeConfigApplying,
     CartridgeConfigReady]
  }

  datatype ConfigSpec = ConfigSpec(data: string)

  datatype ConfigStatus = ConfigStatus(phase: string)

  datatype ConfigValue = ConfigValue(meta: Meta, spec: ConfigSpec, status: ConfigStatus)
  {
    function GetName(): string { meta.name }
    function GetNamespace(): string { meta.namespace }
    function GetPhase(): string { status.phase }

    /** The configuration document, as the text of Spec.Data. */
    function GetData(): string { spec.data }

    function ResetStatus(): (r: ConfigValue)
      ensures r.GetPhase() == "" && r.meta == meta && r.spec == spec
    {
      this.(status := ConfigStatus(""))
    }

    function SetPhase(phase: string): (r: ConfigValue)
      ensures r.GetPhase() == phase && r.meta == meta && r.spec == spec
    {
      this.(status := status.(phase := phase))
    }
  }

  /** A *CartridgeConfig. */
  class CartridgeConfig {
    var meta: Meta
    var spec: ConfigSpec
    var status: ConfigStatus

    function Value(): ConfigValue
      reads this
    {
      ConfigValue(meta, spec, status)
    }

    constructor (v: ConfigValue)
      ensures Value() == v
    {
      meta := v.meta;
      spec := v.spec;
      status := v.status;
    }

    method Load(v: ConfigValue)
      modifies this
      ensures Value() == v
    {
      meta := v.meta;
      spec := v.spec;
      status := v.status;
    }

    method ResetStatus()
      modifies this
      ensures Value() == old(Value()).ResetStatus()
    {
      status := ConfigStatus("");
    }

    method SetPhase(phase: string)
      modifies this
      ensures Value() == old(Value()).SetPhase(phase)
    {
      status := status.(phase := phase);
    }
  }

  /** Resetting and setting phases are idempotent on roles and configs, too. */
  lemma StatusTransformsIdempotent(r: RoleValue, c: ConfigValue, phase: string)
    ensures r.ResetStatus().ResetStatus() == r.ResetStatus()
    ensures r.SetPhase(phase).SetPhase(phase) == r.SetPhase(phase)
    ensures c.ResetStatus().ResetStatus() == c.ResetStatus()
    ensures c.SetPhase(phase).SetPhase(phase) == c.SetPhase(phase)
  {
  }
}
