// The steps every controller shares (pkg/reconciliation/steps/common). Each
// step is a method on the context and the controller, proved against a
// function on the abstract `State` and the call log; the properties the steps
// promise are stated on those functions.

module CommonSteps {
  import opened Wrappers
  import opened Errors
  import opened K8s
  import opened Api
  import opened Reconciliation
  import opened Environment
  import opened Election
  import opened Contexts
  import opened Utils

  // ----- Info -----

  /** InfoStep logs its message (logging is not modelled) and lets the pass go on. */
  method Info(ctx: Context, ctrl: Controller, message: string) returns (ret: StepReturn)
    ensures ret == NextStep()
  {
    ret := NextStep();
  }

  // ----- GetRequestedObject -----

  /** The Get call that fills an object of the given kind. */
  function FetchCall(kind: Kind, key: NamespacedName): Call
  {
    match kind
    case ClusterKind => GetClusterCall(key)
    case RoleKind => GetRoleCall(key)
    case ConfigKind => GetConfigCall(key)
  }

  /** The answer to FetchCall, as a requested object. */
  function Fetch(w: World, n: nat, kind: Kind, key: NamespacedName): (r: Outcome<Requested>)
    ensures r.Ok? ==> !r.value.NoObject? && r.value.OfKind(kind)
  {
    match kind
    case ClusterKind => (match w.getCluster(n, key) case Ok(c) => Ok(ClusterObj(c)) case Fail(e) => Fail(e))
    case RoleKind => (match w.getRole(n, key) case Ok(r) => Ok(RoleObj(r)) case Fail(e) => Fail(e))
    case ConfigKind => (match w.getConfig(n, key) case Ok(c) => Ok(ConfigObj(c)) case Fail(e) => Fail(e))
  }

  /** A failed Get: a missing object ends the pass quietly; anything else is an error. */
  function FetchFailure(e: Error): (r: StepReturn)
    ensures r.Stops() && r.Return?
    ensures e.IsNotFound() ==> r == Complete()
    ensures !e.IsNotFound() ==> r.res.None? && r.err == Some(Wrapped("unable to retrieve object for reconcile", e))
  {
    if e.IsNotFound() then Complete()
    else ErrorOf(Some(Wrapped("unable to retrieve object for reconcile", e)))
  }

  /**
   * GetRequestedObject: fetch the requested object into a fresh object of the
   * target kind and store it in the context.
   */
  function GetRequestedObjectSpec(w: World, s: State, log: seq<Call>, target: Kind): (r: StepOut)
    requires s.Wf()
    ensures r.state.Wf() && r.state.kind == s.kind && r.state.request == s.request && r.state.leader == s.leader
    ensures r.log == log + [FetchCall(target, s.request)]
    ensures r.ret != Panic
    ensures Fetch(w, |log|, target, s.request).Fail? ==> r.state == s && r.ret.Stops()
    ensures r.ret == NextStep() <==> Fetch(w, |log|, target, s.request).Ok? && target == s.kind
    ensures r.ret == NextStep() ==> r.state.obj == Fetch(w, |log|, target, s.request).value
  {
    var log1 := log + [FetchCall(target, s.request)];
    match Fetch(w, |log|, target, s.request)
    case Fail(e) => StepOut(FetchFailure(e), s, log1)
    case Ok(o) =>
      var (err, s1) := Stored(s, o);
      StepOut(if err.Some? then ErrorOf(err) else NextStep(), s1, log1)
  }

  /** The Get of GetRequestedObject, into a fresh object of the target kind. */
  method FetchTarget(ctrl: Controller, target: Kind, key: NamespacedName) returns (got: Outcome<Target>)
    modifies ctrl
    ensures ctrl.log == old(ctrl.log) + [FetchCall(target, key)]
    ensures got.Fail? <==> Fetch(ctrl.world, |old(ctrl.log)|, target, key).Fail?
    ensures got.Fail? ==> got.error == Fetch(ctrl.world, |old(ctrl.log)|, target, key).error
    ensures got.Ok? ==> fresh(TargetObject(got.value))
    ensures got.Ok? ==> TargetValue(got.value) == Fetch(ctrl.world, |old(ctrl.log)|, target, key).value
  {
    match target {
      case ClusterKind =>
        var r := ctrl.GetCluster(key);
        if r.Fail? {
          return Fail(r.error);
        }
        var c := new Cluster(r.value);
        got := Ok(ClusterTarget(c));
      case RoleKind =>
        var r := ctrl.GetRole(key);
        if r.Fail? {
          return Fail(r.error);
        }
        var role := new Role(r.value);
        got := Ok(RoleTarget(role));
      case ConfigKind =>
        var r := ctrl.GetConfig(key);
        if r.Fail? {
          return Fail(r.error);
        }
        var c := new CartridgeConfig(r.value);
        got := Ok(ConfigTarget(c));
    }
  }

  method GetRequestedObject(ctx: Context, ctrl: Controller, target: Kind) returns (ret: StepReturn)
    modifies ctx.Repr(), ctrl
    ensures fresh(ctx.Repr() - old(ctx.Repr()))
    ensures StepOut(ret, ctx.Abs(), ctrl.log) == GetRequestedObjectSpec(ctrl.world, old(ctx.Abs()), old(ctrl.log), target)
  {
    ghost var s0 := ctx.Abs();
    var key := ctx.Common().GetRequest();
    var got := FetchTarget(ctrl, target, key);
    assert ctx.Abs() == s0;
    if got.Fail? {
      return FetchFailure(got.error);
    }
    ghost var fetched := TargetValue(got.value);
    var err := SetRequested(ctx, got.value);
    assert (err, ctx.Abs()) == Stored(s0, fetched);
    if err.Some? {
      return ErrorOf(err);
    }
    ret := NextStep();
  }

  // ----- GetClusterByLabels -----

  /** The error for an object without a usable cluster-name label. */
  const LabelRequired := Plain(" " + Manager.ClusterName() + " label is required")

  /** The value of the cluster-name label, when the labels are set and the value is not empty. */
  function ClusterNameLabel(meta: Meta): (r: Option<string>)
    ensures r.Some? <==> meta.labels.Some? && Manager.ClusterName() in meta.labels.value
                         && meta.labels.value[Manager.ClusterName()] != ""
    ensures r.Some? ==> r.value == meta.labels.value[Manager.ClusterName()]
  {
    if meta.labels.None? then None
    else if Manager.ClusterName() !in meta.labels.value then None
    else if meta.labels.value[Manager.ClusterName()] == "" then None
    else Some(meta.labels.value[Manager.ClusterName()])
  }

  /**
   * GetClusterByLabels: a context that already has its cluster goes on;
   * otherwise the cluster named by the object's label is fetched. Every Get
   * error, NotFound included, is returned as an error.
   */
  function GetClusterByLabelsSpec(w: World, s: State, log: seq<Call>): (r: StepOut)
    requires s.Wf()
    ensures r.state.Wf() && r.state.kind == s.kind && r.state.request == s.request
    ensures r.state.obj == s.obj && r.state.leader == s.leader
    ensures s.RelatedCluster().Some? ==> r == StepOut(NextStep(), s, log)
    ensures r.ret == NextStep() ==> r.state.RelatedCluster().Some?
    ensures r.ret.Return? && r.ret.res.Some? ==> r.ret == Break(Some(LabelRequired)) && r.log == log
  {
    if !s.related.NoCluster? then StepOut(NextStep(), s, log)
    else
      match s.obj.ObjectMeta()
      case None => StepOut(Panic, s, log)
      case Some(meta) =>
        match ClusterNameLabel(meta)
        case None => StepOut(Break(Some(LabelRequired)), s, log)
        case Some(name) =>
          var key := NamespacedName(meta.namespace, name);
          var log1 := log + [GetClusterCall(key)];
          match w.getCluster(|log|, key)
          case Fail(e) => StepOut(ErrorOf(Some(e)), s, log1)
          case Ok(c) => StepOut(NextStep(), s.(related := OtherCluster(c)), log1)
  }

  /** The metadata of the requested object the context holds. */
  function RequestedMeta(ctx: Context): (m: Meta)
    reads ctx.Holder(), ctx.Common(), ctx.Repr()
    requires ctx.HasRequestedObject()
    ensures ctx.Abs().obj.ObjectMeta() == Some(m)
  {
    ctx.RequestedValue().ObjectMeta().value
  }

  method GetClusterByLabels(ctx: Context, ctrl: Controller) returns (ret: StepReturn)
    modifies ctx.Repr(), ctrl
    ensures fresh(ctx.Repr() - old(ctx.Repr()))
    ensures StepOut(ret, ctx.Abs(), ctrl.log) == GetClusterByLabelsSpec(ctrl.world, old(ctx.Abs()), old(ctrl.log))
  {
    var common := ctx.Common();
    if common.GetRelatedCluster() != null {
      return NextStep();
    }
    if !ctx.HasRequestedObject() {
      return Panic;
    }
    var meta := RequestedMeta(ctx);
    if meta.labels.None? {
      return Break(Some(LabelRequired));
    }
    var labels := meta.labels.value;
    if Manager.ClusterName() !in labels || labels[Manager.ClusterName()] == "" {
      return Break(Some(LabelRequired));
    }
    var got := ctrl.GetCluster(NamespacedName(meta.namespace, labels[Manager.ClusterName()]));
    if got.Fail? {
      return ErrorOf(Some(got.error));
    }
    var c := new Cluster(got.value);
    common.SetRelatedCluster(c);
    ret := NextStep();
  }

  // ----- GetLeader -----

  /**
   * GetLeader: run the election against the related cluster. A conflict, or
   * no available leader before bootstrap, is retried later; any other error is
   * returned; otherwise the leader, possibly none, is stored.
   */
  function GetLeaderSpec(w: World, topo: bool, s: State, log: seq<Call>): (r: StepOut)
    requires s.Wf()
    ensures r.state.Wf() && r.state.kind == s.kind && r.state.request == s.request
    ensures s.RelatedCluster().None? ==> r == StepOut(Panic, s, log)
    ensures s.RelatedCluster().Some? ==>
      var e := GetLeaderInstanceSpec(Ballot(w, topo, s.RelatedCluster().value), log);
      r.log == e.log && r.state.RelatedCluster() == Some(e.cluster)
      && (r.ret.Panic? <==> e.out.LeaderPanic?)
      && (r.ret == NextStep() <==> e.out.LeaderOut? && e.out.err.None?)
      && (r.ret == NextStep() ==> r.state.leader == e.out.leader)
      && (r.ret != NextStep() ==> r.state.leader == s.leader)
  {
    match s.RelatedCluster()
    case None => StepOut(Panic, s, log)
    case Some(c) =>
      var e := GetLeaderInstanceSpec(Ballot(w, topo, c), log);
      var s1 := s.UpdateRelated(e.cluster);
      match e.out
      case LeaderPanic => StepOut(Panic, s1, e.log)
      case LeaderOut(leader, err) =>
        if err.None? then StepOut(NextStep(), s1.(leader := leader), e.log)
        else if err.value.Is(LeaderElectionConflict) then StepOut(Requeue(ErrorTimeout), s1, e.log)
        else if err.value.Is(NoAvailableLeader) && !e.cluster.IsBootstrapped() then StepOut(Requeue(ErrorTimeout), s1, e.log)
        else StepOut(ErrorOf(err), s1, e.log)
  }

  method GetLeader(ctx: Context, ctrl: Controller) returns (ret: StepReturn)
    modifies ctx.Repr(), ctrl
    ensures ctx.Repr() == old(ctx.Repr())
    ensures StepOut(ret, ctx.Abs(), ctrl.log)
         == GetLeaderSpec(ctrl.world, ctrl.electionTopology, old(ctx.Abs()), old(ctrl.log))
  {
    var common := ctx.Common();
    var c := common.GetRelatedCluster();
    if c == null {
      return Panic;
    }
    var out := GetLeaderInstance(ctrl, c);
    RelatedUpdatedInPlace(ctx);
    if out.LeaderPanic? {
      return Panic;
    }
    if out.err.Some? {
      if out.err.value.Is(LeaderElectionConflict) {
        return Requeue(ErrorTimeout);
      }
      if out.err.value.Is(NoAvailableLeader) && !c.Value().IsBootstrapped() {
        return Requeue(ErrorTimeout);
      }
      return ErrorOf(out.err);
    }
    common.SetLeader(out.leader);
    ret := NextStep();
  }

  // ----- WaitForClusterBootstrapped -----

  /** Go on only once the related cluster exists and is bootstrapped; otherwise retry later. */
  function WaitForClusterBootstrappedSpec(s: State, log: seq<Call>): (r: StepOut)
    ensures r.state == s && r.log == log
    ensures r.ret == NextStep() <==> s.RelatedCluster().Some? && s.RelatedCluster().value.IsBootstrapped()
    ensures r.ret != NextStep() ==> r.ret == Requeue(ErrorTimeout)
  {
    match s.RelatedCluster()
    case Some(c) => StepOut(if c.IsBootstrapped() then NextStep() else Requeue(ErrorTimeout), s, log)
    case None => StepOut(Requeue(ErrorTimeout), s, log)
  }

  method WaitForClusterBootstrapped(ctx: Context, ctrl: Controller) returns (ret: StepReturn)
    ensures StepOut(ret, ctx.Abs(), ctrl.log) == WaitForClusterBootstrappedSpec(ctx.Abs(), ctrl.log)
  {
    var c := ctx.Common().GetRelatedCluster();
    if c == null || !c.Value().IsBootstrapped() {
      return Requeue(ErrorTimeout);
    }
    ret := NextStep();
  }

  // ----- Properties -----

  /** An election conflict is retried after ErrorTimeout, whatever the cluster. */
  lemma GetLeaderRequeuesOnConflict(w: World, topo: bool, s: State, log: seq<Call>)
    requires s.Wf() && s.RelatedCluster().Some?
    requires var e := GetLeaderInstanceSpec(Ballot(w, topo, s.RelatedCluster().value), log);
      e.out.LeaderOut? && e.out.err.Some? && e.out.err.value.Is(LeaderElectionConflict)
    ensures GetLeaderSpec(w, topo, s, log).ret == Requeue(ErrorTimeout)
  {
  }

  /**
   * No available leader is retried only before bootstrap; once the cluster is
   * bootstrapped it is an error, as is a leader that is not ready.
   */
  lemma GetLeaderNoLeader(w: World, topo: bool, s: State, log: seq<Call>)
    requires s.Wf() && s.RelatedCluster().Some?
    requires var e := GetLeaderInstanceSpec(Ballot(w, topo, s.RelatedCluster().value), log);
      e.out.LeaderOut? && e.out.err.Some? && e.out.err.value.Is(NoAvailableLeader)
    ensures var e := GetLeaderInstanceSpec(Ballot(w, topo, s.RelatedCluster().value), log);
      GetLeaderSpec(w, topo, s, log).ret
      == if e.cluster.IsBootstrapped() then ErrorOf(e.out.err) else Requeue(ErrorTimeout)
  {
    var e := GetLeaderInstanceSpec(Ballot(w, topo, s.RelatedCluster().value), log);
    if e.out.err.value.Is(LeaderElectionConflict) {
      IsIdentifiesOneSentinel(e.out.err.value, NoAvailableLeader, LeaderElectionConflict);
      assert false;
    }
  }

  /** A leader GetLeader stores is a running pod that is not being deleted. */
  lemma GetLeaderStoresRunningPod(w: World, topo: bool, s: State, log: seq<Call>)
    requires s.Wf()
    ensures var r := GetLeaderSpec(w, topo, s, log);
      r.ret == NextStep() && r.state.leader.Some? ==>
        IsPodRunning(r.state.leader.value) && !IsPodDeleting(r.state.leader.value)
  {
    if s.RelatedCluster().Some? {
      LeaderIsRunning(Ballot(w, topo, s.RelatedCluster().value), log);
    }
  }

  /** Without a Topology in the election, GetLeader never stores a leader. */
  lemma GetLeaderWithoutTopology(w: World, s: State, log: seq<Call>)
    requires s.Wf()
    ensures var r := GetLeaderSpec(w, false, s, log);
      r.ret == NextStep() ==> r.state.leader.None?
  {
    if s.RelatedCluster().Some? {
      NoTopologyNoLeader(Ballot(w, false, s.RelatedCluster().value), log);
    }
  }
}
