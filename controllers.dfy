// The three controllers (controllers/): each Reconcile builds a fresh context
// for the request and runs its fixed list of steps; the cluster controller
// also watches roles and wakes the cluster a role is waiting for.

module Controllers {
  import opened Wrappers
  import opened Errors
  import opened K8s
  import opened Api
  import opened Labels
  import opened Reconciliation
  import opened Environment
  import opened Contexts
  import opened Engine
  import CommonSteps
  import ClusterSteps
  import Election

  /** The state a pass starts from: a fresh context holding only the request. */
  function Initial(kind: Kind, request: NamespacedName): (s: State)
    ensures s.Wf() && s.kind == kind && s.obj.NoObject? && s.leader.None?
  {
    State(kind, request, NoObject, NoCluster, None)
  }

  // ----- The pipelines -----

  /** ClusterReconciler.Reconcile. */
  function ClusterPipeline(): (steps: seq<Step>)
    ensures AllFit(steps, ClusterKind) && |steps| == 17
    ensures steps[0].Info? && steps[1] == GetRequestedObject(ClusterKind)
  {
    [ Info("Reconcile cluster"),
      GetRequestedObject(ClusterKind),
      SetClusterPhase(ClusterPending),
      CheckClusterDeletion,
      ResetClusterStatus,
      SetClusterPhase(ClusterSyncingService),
      SyncClusterWideService,
      SetClusterPhase(ClusterWaitingForRoles),
      WaitForRolesPhases([RoleWaitingForBootstrap, RoleReady]),
      Info("All roles ready, we are going to bootstrap cluster"),
      SetClusterPhase(ClusterWaitingForLeader),
      GetLeader,
      Bootstrap(ClusterUnableToBootstrap),
      SetClusterPhase(ClusterFailoverConfiguring),
      ConfigureFailover,
      SetClusterPhase(ClusterReady),
      Info("Community cluster ready") ]
  }

  /** RoleReconciler.Reconcile. */
  function RolePipeline(): (steps: seq<Step>)
    ensures AllFit(steps, RoleKind) && |steps| == 22
    ensures steps[0].Info? && steps[1] == GetRequestedObject(RoleKind)
  {
    [ Info("Reconcile role"),
      GetRequestedObject(RoleKind),
      ResetRoleStatus,
      SetRolePhase(RoleWaitingForCluster),
      GetClusterByLabels,
      SetRolePhase(RolePending),
      CreateStatefulSets,
      UpdateStatefulSets,
      SetRolePhase(RoleWaitingForLeader),
      GetLeader,
      SetRolePhase(RoleWaitForCartridgeReady),
      EnsureCartridgeReady,
      SetRolePhase(RoleJoining),
      JoinInstances(RoleConfigError),
      SetRolePhase(RoleConfiguring),
      ConfigureVShardRoles,
      SetRolePhase(RoleWaitingForBootstrap),
      WaitForClusterBootstrapped,
      SetRolePhase(RoleConfiguringWeights),
      SetVShardWeights,
      SetRolePhase(RoleReady),
      Info("Role ready") ]
  }

  /** CartridgeConfigReconciler.Reconcile. */
  function ConfigPipeline(): (steps: seq<Step>)
    ensures AllFit(steps, ConfigKind) && |steps| == 12
    ensures steps[0].Info? && steps[1] == GetRequestedObject(ConfigKind)
  {
    [ Info("Reconcile Config"),
      GetRequestedObject(ConfigKind),
      ResetConfigStatus,
      SetConfigPhase(CartridgeConfigWaitingForCluster),
      GetClusterByLabels,
      WaitForClusterBootstrapped,
      SetConfigPhase(CartridgeConfigWaitingForLeader),
      GetLeader,
      SetConfigPhase(CartridgeConfigApplying),
      ConfigureCartridge,
      SetConfigPhase(CartridgeConfigReady),
      Info("CartridgeConfig ready") ]
  }

  /**
   * Whether each controller's leader election was given a Topology: the
   * cluster controller builds its election without one.
   */
  const ClusterElectionTopology := false
  const RoleElectionTopology := true
  const ConfigElectionTopology := true

  /** What a Reconcile of the given controller returns and the calls it makes. */
  function ReconcileSpec(w: World, kind: Kind, request: NamespacedName, log: seq<Call>): (r: RunOut)
  {
    match kind
    case ClusterKind => RunSpec(w, ClusterElectionTopology, ClusterPipeline(), Initial(kind, request), log)
    case RoleKind => RunSpec(w, RoleElectionTopology, RolePipeline(), Initial(kind, request), log)
    case ConfigKind => RunSpec(w, ConfigElectionTopology, ConfigPipeline(), Initial(kind, request), log)
  }

  /** Reconcile: a fresh context for the request, then the controller's steps. */
  method Reconcile(ctrl: Controller, kind: Kind, request: NamespacedName) returns (result: RunResult)
    requires ctrl.electionTopology == (kind != ClusterKind)
    modifies ctrl
    ensures var r := ReconcileSpec(ctrl.world, kind, request, old(ctrl.log));
      result == r.result && ctrl.log == r.log
  {
    var ctx := NewContext(kind, request);
    var steps := match kind
      case ClusterKind => ClusterPipeline()
      case RoleKind => RolePipeline()
      case ConfigKind => ConfigPipeline();
    result := Run(ctx, ctrl, steps);
  }

  // ----- A missing object -----

  /**
   * Every controller first fetches the requested object: when it is gone the
   * pass ends quietly without touching anything, and any other failure is
   * returned and retried after ErrorTimeout. No status is written either way.
   */
  lemma FetchFailureEndsPass(w: World, topo: bool, steps: seq<Step>, kind: Kind, request: NamespacedName, log: seq<Call>)
    requires |steps| >= 2 && steps[0].Info? && steps[1] == GetRequestedObject(kind) && AllFit(steps, kind)
    requires CommonSteps.Fetch(w, |log|, kind, request).Fail?
    ensures var e := CommonSteps.Fetch(w, |log|, kind, request).error;
      var r := RunSpec(w, topo, steps, Initial(kind, request), log);
      r.state == Initial(kind, request) && r.log == log + [CommonSteps.FetchCall(kind, request)]
      && (e.IsNotFound() ==> r.result == Finished(Result(0), None))
      && (!e.IsNotFound() ==>
            r.result == Finished(Result(ErrorTimeout), Some(Wrapped("unable to retrieve object for reconcile", e))))
  {
    var s := Initial(kind, request);
    assert steps == steps[..2] + steps[2..];
    assert steps[..2][1..] == [steps[1]] && [steps[1]][1..] == [];
    RunStepsAppend(w, topo, steps[..2], steps[2..], s, log);
  }

  /** Reconcile of an object that no longer exists makes one Get call and returns an empty result. */
  lemma DeletedObjectIsIgnored(w: World, kind: Kind, request: NamespacedName, log: seq<Call>)
    requires CommonSteps.Fetch(w, |log|, kind, request).Fail?
    requires CommonSteps.Fetch(w, |log|, kind, request).error.IsNotFound()
    ensures ReconcileSpec(w, kind, request, log)
         == RunOut(Finished(Result(0), None), Initial(kind, request), log + [CommonSteps.FetchCall(kind, request)])
  {
    match kind
    case ClusterKind => FetchFailureEndsPass(w, ClusterElectionTopology, ClusterPipeline(), kind, request, log);
    case RoleKind => FetchFailureEndsPass(w, RoleElectionTopology, RolePipeline(), kind, request, log);
    case ConfigKind => FetchFailureEndsPass(w, ConfigElectionTopology, ConfigPipeline(), kind, request, log);
  }

  // ----- The cluster controller never reaches Ready -----

  /** No step but GetLeader touches the leader, and without a Topology GetLeader only ever stores none. */
  lemma StepKeepsNoLeader(w: World, step: Step, s: State, log: seq<Call>)
    requires s.Wf() && step.Fits(s.kind) && s.leader.None?
    ensures var r := StepSpec(w, false, step, s, log);
      r.ret == NextStep() ==> r.state.leader.None?
  {
    if step.GetLeader? {
      CommonSteps.GetLeaderWithoutTopology(w, s, log);
    }
  }

  /** Without a Topology, a run of steps that went on still has no leader. */
  lemma {:induction false} RunKeepsNoLeader(w: World, steps: seq<Step>, s: State, log: seq<Call>)
    requires s.Wf() && AllFit(steps, s.kind) && s.leader.None?
    ensures var r := RunStepsSpec(w, false, steps, s, log);
      r.ret == NextStep() ==> r.state.leader.None?
    decreases |steps|
  {
    if steps != [] {
      var o := StepSpec(w, false, steps[0], s, log);
      StepKeepsNoLeader(w, steps[0], s, log);
      if !o.ret.Stops() {
        assert AllFit(steps[1..], s.kind) by {
          forall i | 0 <= i < |steps[1..]| ensures steps[1..][i].Fits(s.kind) { assert steps[1..][i] == steps[i + 1]; }
        }
        RunKeepsNoLeader(w, steps[1..], o.state, o.log);
      }
    }
  }

  /**
   * The cluster controller's election has no Topology, so it never stores a
   * leader, and ConfigureFailover, which needs one, always stops the pass:
   * the last two steps, SetPhase(Ready) among them, never run.
   */
  lemma ClusterPassNeverReachesReady(w: World, request: NamespacedName, log: seq<Call>)
    ensures var steps := ClusterPipeline();
      var s := Initial(ClusterKind, request);
      AllFit(steps[..15], ClusterKind)
      && steps[15] == SetClusterPhase(ClusterReady)
      && RunStepsSpec(w, ClusterElectionTopology, steps[..15], s, log).ret.Stops()
      && RunStepsSpec(w, ClusterElectionTopology, steps, s, log)
         == RunStepsSpec(w, ClusterElectionTopology, steps[..15], s, log)
  {
    var steps := ClusterPipeline();
    var s := Initial(ClusterKind, request);
    var a := steps[..14];
    assert steps[..15] == a + [ConfigureFailover];
    assert AllFit(a, ClusterKind);
    var o := RunStepsSpec(w, false, a, s, log);
    if !o.ret.Stops() {
      RunKeepsNoLeader(w, a, s, log);
      RunStepsSnoc(w, false, a, ConfigureFailover, s, log);
    } else {
      RunStepsAppend(w, false, a, [ConfigureFailover], s, log);
    }
    assert steps == steps[..15] + steps[15..];
    RunStepsAppend(w, false, steps[..15], steps[15..], s, log);
  }

  // ----- The role controller reaches Ready only after bootstrap -----

  /** The last steps of the role pipeline, after WaitForClusterBootstrapped. */
  function RoleTail(): (steps: seq<Step>)
    ensures AllFit(steps, RoleKind) && RolePipeline() == RolePipeline()[..17] + [WaitForClusterBootstrapped] + steps
  {
    var steps := [SetRolePhase(RoleConfiguringWeights), SetVShardWeights, SetRolePhase(RoleReady), Info("Role ready")];
    assert RolePipeline()[18..] == steps;
    assert RolePipeline() == RolePipeline()[..17] + [RolePipeline()[17]] + RolePipeline()[18..];
    steps
  }

  /** SetRolePhase, when it goes on, sets the phase and keeps the related cluster. */
  lemma SetRolePhaseStep(w: World, topo: bool, phase: string, s: State, log: seq<Call>)
    requires s.Wf() && s.kind == RoleKind
    ensures var o := StepSpec(w, topo, SetRolePhase(phase), s, log);
      !o.ret.Stops() ==>
        o.state.obj.RoleObj? && o.state.obj.role.GetPhase() == phase && o.state.RelatedCluster() == s.RelatedCluster()
  {
  }

  /** A run of steps that went on ends with the role in phase Ready and the related cluster of `s`. */
  predicate EndsReady(r: StepOut, s: State)
  {
    r.ret == NextStep() ==>
      r.state.obj.RoleObj? && r.state.obj.role.GetPhase() == RoleReady && r.state.RelatedCluster() == s.RelatedCluster()
  }

  lemma ReadyThenInfo(w: World, topo: bool, s: State, log: seq<Call>)
    requires s.Wf() && s.kind == RoleKind
    ensures EndsReady(RunStepsSpec(w, topo, [SetRolePhase(RoleReady), Info("Role ready")], s, log), s)
  {
    assert [SetRolePhase(RoleReady), Info("Role ready")] == [SetRolePhase(RoleReady)] + [Info("Role ready")];
    RunStepsCons(w, topo, SetRolePhase(RoleReady), [Info("Role ready")], s, log);
    SetRolePhaseStep(w, topo, RoleReady, s, log);
  }

  lemma WeightsThenReady(w: World, topo: bool, s: State, log: seq<Call>)
    requires s.Wf() && s.kind == RoleKind
    ensures EndsReady(RunStepsSpec(w, topo, [SetVShardWeights, SetRolePhase(RoleReady), Info("Role ready")], s, log), s)
  {
    var rest := [SetRolePhase(RoleReady), Info("Role ready")];
    assert [SetVShardWeights, SetRolePhase(RoleReady), Info("Role ready")] == [SetVShardWeights] + rest;
    RunStepsCons(w, topo, SetVShardWeights, rest, s, log);
    var o := StepSpec(w, topo, SetVShardWeights, s, log);
    if !o.ret.Stops() {
      ReadyThenInfo(w, topo, o.state, o.log);
    }
  }

  /** The tail of the role pipeline ends in phase Ready whenever it goes on, and keeps the related cluster. */
  lemma RoleTailEndsReady(w: World, topo: bool, s: State, log: seq<Call>)
    requires s.Wf() && s.kind == RoleKind
    ensures var r := RunStepsSpec(w, topo, RoleTail(), s, log);
      r.ret == NextStep() ==>
        r.state.obj.RoleObj? && r.state.obj.role.GetPhase() == RoleReady
        && r.state.RelatedCluster() == s.RelatedCluster()
  {
    var rest := [SetVShardWeights, SetRolePhase(RoleReady), Info("Role ready")];
    assert RoleTail() == [SetRolePhase(RoleConfiguringWeights)] + rest;
    RunStepsCons(w, topo, SetRolePhase(RoleConfiguringWeights), rest, s, log);
    var o := StepSpec(w, topo, SetRolePhase(RoleConfiguringWeights), s, log);
    SetRolePhaseStep(w, topo, RoleConfiguringWeights, s, log);
    if !o.ret.Stops() {
      WeightsThenReady(w, topo, o.state, o.log);
    }
  }

  /**
   * A role pass that went through every step leaves the role in phase Ready,
   * and its cluster was bootstrapped: WaitForClusterBootstrapped, and then
   * SetVShardWeights, must both have let the pass go on.
   */
  lemma RoleReadyOnlyAfterBootstrap(w: World, request: NamespacedName, log: seq<Call>)
    ensures var r := RunStepsSpec(w, RoleElectionTopology, RolePipeline(), Initial(RoleKind, request), log);
      r.ret == NextStep() ==>
        r.state.obj.RoleObj? && r.state.obj.role.GetPhase() == RoleReady
        && r.state.RelatedCluster().Some? && r.state.RelatedCluster().value.IsBootstrapped()
  {
    var P := RolePipeline();
    var s := Initial(RoleKind, request);
    var topo := RoleElectionTopology;
    var head := P[..17];
    var rest := [WaitForClusterBootstrapped] + RoleTail();
    assert P == head + rest;
    assert AllFit(head, RoleKind);
    RunStepsAppend(w, topo, head, rest, s, log);
    var o := RunStepsSpec(w, topo, head, s, log);
    if !o.ret.Stops() {
      RunStepsCons(w, topo, WaitForClusterBootstrapped, RoleTail(), o.state, o.log);
      var o1 := StepSpec(w, topo, WaitForClusterBootstrapped, o.state, o.log);
      if !o1.ret.Stops() {
        RoleTailEndsReady(w, topo, o1.state, o1.log);
      }
    }
  }

  /** GetLeader hands the related cluster back bootstrapped when it was. */
  lemma GetLeaderKeepsBootstrapped(w: World, topo: bool, s: State, log: seq<Call>)
    requires s.Wf() && s.RelatedCluster().Some? && s.RelatedCluster().value.IsBootstrapped()
    ensures var r := StepSpec(w, topo, GetLeader, s, log);
      r.state.RelatedCluster().Some? && r.state.RelatedCluster().value.IsBootstrapped()
  {
    Election.ElectionKeepsCluster(Election.Ballot(w, topo, s.RelatedCluster().value), log);
  }

  /** The config pipeline up to ConfigureCartridge, and its steps after WaitForClusterBootstrapped. */
  function ConfigGate(): (steps: seq<Step>)
    ensures AllFit(steps, ConfigKind)
    ensures ConfigPipeline()[..9] == ConfigPipeline()[..5] + [WaitForClusterBootstrapped] + steps
  {
    var steps := [SetConfigPhase(CartridgeConfigWaitingForLeader), GetLeader, SetConfigPhase(CartridgeConfigApplying)];
    assert ConfigPipeline()[6..9] == steps;
    assert ConfigPipeline()[..9] == ConfigPipeline()[..5] + [ConfigPipeline()[5]] + ConfigPipeline()[6..9];
    steps
  }

  /** From a bootstrapped cluster, the steps before ConfigureCartridge keep it bootstrapped. */
  lemma ConfigGateKeepsBootstrapped(w: World, topo: bool, s: State, log: seq<Call>)
    requires s.Wf() && s.kind == ConfigKind
    requires s.RelatedCluster().Some? && s.RelatedCluster().value.IsBootstrapped()
    ensures var r := RunStepsSpec(w, topo, ConfigGate(), s, log);
      !r.ret.Stops() ==> r.state.RelatedCluster().Some? && r.state.RelatedCluster().value.IsBootstrapped()
  {
    var applying := SetConfigPhase(CartridgeConfigApplying);
    assert ConfigGate() == [SetConfigPhase(CartridgeConfigWaitingForLeader)] + [GetLeader, applying];
    RunStepsCons(w, topo, SetConfigPhase(CartridgeConfigWaitingForLeader), [GetLeader, applying], s, log);
    var o := StepSpec(w, topo, SetConfigPhase(CartridgeConfigWaitingForLeader), s, log);
    if !o.ret.Stops() {
      LeaderThenApplying(w, topo, o.state, o.log);
    }
  }

  /** GetLeader and then SetPhase(Applying) keep a bootstrapped related cluster bootstrapped. */
  lemma LeaderThenApplying(w: World, topo: bool, s: State, log: seq<Call>)
    requires s.Wf() && s.kind == ConfigKind
    requires s.RelatedCluster().Some? && s.RelatedCluster().value.IsBootstrapped()
    ensures var r := RunStepsSpec(w, topo, [GetLeader, SetConfigPhase(CartridgeConfigApplying)], s, log);
      !r.ret.Stops() ==> r.state.RelatedCluster().Some? && r.state.RelatedCluster().value.IsBootstrapped()
  {
    var applying := SetConfigPhase(CartridgeConfigApplying);
    assert [GetLeader, applying] == [GetLeader] + [applying];
    RunStepsCons(w, topo, GetLeader, [applying], s, log);
    GetLeaderKeepsBootstrapped(w, topo, s, log);
    var o := StepSpec(w, topo, GetLeader, s, log);
    if !o.ret.Stops() {
      RunStepsCons(w, topo, applying, [], o.state, o.log);
    }
  }

  /**
   * A configuration is uploaded only once its cluster is bootstrapped: a pass
   * that reaches ConfigureCartridge has a bootstrapped related cluster, and
   * without a leader the step panics before calling the cluster.
   */
  lemma ConfigAppliedOnlyAfterBootstrap(w: World, request: NamespacedName, log: seq<Call>)
    ensures var P := ConfigPipeline();
      var s := Initial(ConfigKind, request);
      AllFit(P[..9], ConfigKind) && P[9] == ConfigureCartridge
      && var o := RunStepsSpec(w, ConfigElectionTopology, P[..9], s, log);
      (!o.ret.Stops() ==>
         o.state.RelatedCluster().Some? && o.state.RelatedCluster().value.IsBootstrapped()
         && (o.state.leader.None? ==> StepSpec(w, ConfigElectionTopology, P[9], o.state, o.log) == StepOut(Panic, o.state, o.log)))
  {
    var topo := ConfigElectionTopology;
    var head := ConfigPipelineHead();
    var gate := [WaitForClusterBootstrapped] + ConfigGate();
    RunStepsAppend(w, topo, head, gate, Initial(ConfigKind, request), log);
    var o := RunStepsSpec(w, topo, head, Initial(ConfigKind, request), log);
    if !o.ret.Stops() {
      WaitThenGate(w, topo, o.state, o.log);
    }
  }

  /** The config pipeline before WaitForClusterBootstrapped, and where ConfigureCartridge sits. */
  function ConfigPipelineHead(): (head: seq<Step>)
    ensures AllFit(head, ConfigKind)
    ensures ConfigPipeline()[..9] == head + ([WaitForClusterBootstrapped] + ConfigGate())
    ensures ConfigPipeline()[9] == ConfigureCartridge
  {
    var P := ConfigPipeline();
    assert P[..9] == P[..5] + ([P[5]] + P[6..9]);
    P[..5]
  }

  /** Past WaitForClusterBootstrapped and the gate, the related cluster is bootstrapped. */
  lemma WaitThenGate(w: World, topo: bool, s: State, log: seq<Call>)
    requires s.Wf() && s.kind == ConfigKind
    ensures AllFit([WaitForClusterBootstrapped] + ConfigGate(), ConfigKind)
    ensures var r := RunStepsSpec(w, topo, [WaitForClusterBootstrapped] + ConfigGate(), s, log);
      !r.ret.Stops() ==> r.state.RelatedCluster().Some? && r.state.RelatedCluster().value.IsBootstrapped()
  {
    RunStepsCons(w, topo, WaitForClusterBootstrapped, ConfigGate(), s, log);
    var o := StepSpec(w, topo, WaitForClusterBootstrapped, s, log);
    if !o.ret.Stops() {
      ConfigGateKeepsBootstrapped(w, topo, o.state, o.log);
    }
  }

  // ----- A cluster being deleted -----

  /** The cluster pipeline after its first four steps. */
  function ClusterPipelineHead(): (rest: seq<Step>)
    ensures AllFit(rest, ClusterKind)
    ensures ClusterPipeline() == [Info("Reconcile cluster"), GetRequestedObject(ClusterKind)]
                                 + ([SetClusterPhase(ClusterPending), CheckClusterDeletion] + rest)
  {
    var P := ClusterPipeline();
    assert P == [P[0], P[1]] + ([P[2], P[3]] + P[4..]);
    P[4..]
  }

  /** The first two cluster steps: the cluster is fetched into the context and the pass goes on. */
  lemma ClusterFetched(w: World, topo: bool, rest: seq<Step>, request: NamespacedName, log: seq<Call>)
    requires AllFit(rest, ClusterKind) && w.getCluster(|log|, request).Ok?
    ensures AllFit([Info("Reconcile cluster"), GetRequestedObject(ClusterKind)] + rest, ClusterKind)
    ensures var s := Initial(ClusterKind, request);
      var o := StepSpec(w, topo, GetRequestedObject(ClusterKind), s, log);
      && o.ret == NextStep() && o.state.Wf() && o.state.kind == ClusterKind
      && o.state.obj == ClusterObj(w.getCluster(|log|, request).value) && o.log == log + [GetClusterCall(request)]
      && RunStepsSpec(w, topo, [Info("Reconcile cluster"), GetRequestedObject(ClusterKind)] + rest, s, log)
         == RunStepsSpec(w, topo, rest, o.state, o.log)
  {
    var s := Initial(ClusterKind, request);
    var fetch := GetRequestedObject(ClusterKind);
    assert [Info("Reconcile cluster"), fetch] + rest == [Info("Reconcile cluster")] + ([fetch] + rest);
    RunStepsCons(w, topo, fetch, rest, s, log);
    RunStepsCons(w, topo, Info("Reconcile cluster"), [fetch] + rest, s, log);
  }

  /** A cluster being deleted: its phase is set to Pending, then CheckDeletion ends the pass. */
  lemma DeletingStopsAtCheck(w: World, topo: bool, rest: seq<Step>, s: State, log: seq<Call>)
    requires s.Wf() && s.kind == ClusterKind && AllFit(rest, ClusterKind)
    requires s.obj.ClusterObj? && s.obj.cluster.meta.deleting
    ensures AllFit([SetClusterPhase(ClusterPending), CheckClusterDeletion] + rest, ClusterKind)
    ensures var r := RunStepsSpec(w, topo, [SetClusterPhase(ClusterPending), CheckClusterDeletion] + rest, s, log);
      r.ret == Complete() && r.log == log && r.state.obj == ClusterObj(s.obj.cluster.SetPhase(ClusterPending))
  {
    var pending := SetClusterPhase(ClusterPending);
    assert [pending, CheckClusterDeletion] + rest == [pending] + ([CheckClusterDeletion] + rest);
    RunStepsCons(w, topo, CheckClusterDeletion, rest, StepSpec(w, topo, pending, s, log).state, log);
    RunStepsCons(w, topo, pending, [CheckClusterDeletion] + rest, s, log);
  }

  /** The steps of a pass over a cluster being deleted: fetch it, set it Pending, stop at CheckDeletion. */
  lemma DeletingClusterSteps(w: World, request: NamespacedName, log: seq<Call>)
    requires w.getCluster(|log|, request).Ok? && w.getCluster(|log|, request).value.meta.deleting
    ensures var o := RunStepsSpec(w, ClusterElectionTopology, ClusterPipeline(), Initial(ClusterKind, request), log);
      && o.ret == Complete() && o.log == log + [GetClusterCall(request)]
      && o.state.obj == ClusterObj(w.getCluster(|log|, request).value.SetPhase(ClusterPending))
  {
    var topo := ClusterElectionTopology;
    var rest := ClusterPipelineHead();
    ClusterFetched(w, topo, [SetClusterPhase(ClusterPending), CheckClusterDeletion] + rest, request, log);
    var o := StepSpec(w, topo, GetRequestedObject(ClusterKind), Initial(ClusterKind, request), log);
    DeletingStopsAtCheck(w, topo, rest, o.state, o.log);
  }

  /**
   * A cluster being deleted stops the pass at CheckDeletion with an empty
   * result, its phase set to Pending; that status is written back only while
   * the cluster still has finalizers, and nothing else is written.
   */
  lemma DeletingClusterStopsPending(w: World, request: NamespacedName, log: seq<Call>)
    requires w.getCluster(|log|, request).Ok? && w.getCluster(|log|, request).value.meta.deleting
    ensures var c := w.getCluster(|log|, request).value.SetPhase(ClusterPending);
      var r := ReconcileSpec(w, ClusterKind, request, log);
      var fetched := log + [GetClusterCall(request)];
      r.state.obj == ClusterObj(c)
      && (|c.meta.finalizers| == 0 ==> r.log == fetched && r.result == Finished(Result(0), None))
      && (|c.meta.finalizers| > 0 ==>
            r.log == fetched + [StatusUpdateCall(ClusterObject(c))]
            && r.result == (match w.write(|log| + 1, StatusUpdateCall(ClusterObject(c)))
                            case None => Finished(Result(0), None)
                            case Some(e) => Finished(Result(ErrorTimeout), Some(e))))
  {
    DeletingClusterSteps(w, request, log);
  }

  // ----- The role watch -----

  /**
   * The cluster controller's watch on roles: a role waiting for bootstrap,
   * with labels set, enqueues the cluster its cluster-name label names (the
   * empty name when the label is missing); any other role enqueues nothing.
   */
  function RoleToClusterRequests(role: RoleValue): (r: seq<NamespacedName>)
    ensures |r| <= 1
    ensures |r| == 1 <==> role.GetPhase() == RoleWaitingForBootstrap && role.meta.labels.Some?
    ensures |r| == 1 ==> r[0].namespace == role.meta.namespace
    ensures |r| == 1 ==> r[0].name == Manager.ClusterNameFromLabels(role.meta)
  {
    if role.GetPhase() == RoleWaitingForBootstrap && role.meta.labels.Some? then
      var labels := role.meta.labels.value;
      [NamespacedName(role.meta.namespace, if Manager.ClusterName() in labels then labels[Manager.ClusterName()] else "")]
    else []
  }

  /**
   * The watch wakes exactly the cluster that the role's own GetClusterByLabels
   * fetches: the same namespace and the same cluster-name label.
   */
  lemma WatchWakesTheRolesCluster(w: World, s: State, log: seq<Call>)
    requires s.Wf() && s.obj.RoleObj? && s.related.NoCluster?
    requires s.obj.role.GetPhase() == RoleWaitingForBootstrap
    requires CommonSteps.ClusterNameLabel(s.obj.role.meta).Some?
    ensures var r := CommonSteps.GetClusterByLabelsSpec(w, s, log);
      |r.log| == |log| + 1 && r.log[|log|].GetClusterCall?
      && RoleToClusterRequests(s.obj.role) == [r.log[|log|].key]
  {
  }
}
