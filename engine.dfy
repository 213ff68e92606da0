// The stepped reconciler (pkg/reconciliation/reconciler.go): a pass runs its
// steps in order until one returns a result or an error, writes the requested
// object's status back, and turns what the last step returned into the result
// handed to controller-runtime.

module Engine {
  import opened Wrappers
  import opened Errors
  import opened Reconciliation
  import opened Environment
  import opened Contexts
  import CommonSteps
  import ClusterSteps
  import RoleSteps
  import CartridgeSteps

  /** Every step the three controllers are built from, with its parameters. */
  datatype Step =
    // shared steps
    | Info(message: string)
    | GetRequestedObject(target: Kind)
    | GetClusterByLabels
    | GetLeader
    | WaitForClusterBootstrapped
    // cluster steps
    | SetClusterPhase(clusterPhase: string)
    | ResetClusterStatus
    | CheckClusterDeletion
    | SyncClusterWideService
    | WaitForRolesPhases(phases: seq<string>)
    | Bootstrap(errorPhase: string)
    | ConfigureFailover
    // role steps
    | SetRolePhase(rolePhase: string)
    | ResetRoleStatus
    | CreateStatefulSets
    | UpdateStatefulSets
    | EnsureCartridgeReady
    | JoinInstances(configErrorPhase: string)
    | ConfigureVShardRoles
    | SetVShardWeights
    // cartridge-config steps
    | SetConfigPhase(configPhase: string)
    | ResetConfigStatus
    | ConfigureCartridge
  {
    /** The Go type parameters tie each step to the context of one controller. */
    predicate Fits(kind: Kind)
    {
      match this
      case Info(_) => true
      case GetRequestedObject(_) => true
      case GetClusterByLabels => true
      case GetLeader => true
      case WaitForClusterBootstrapped => true
      case SetClusterPhase(_) => kind == ClusterKind
      case ResetClusterStatus => kind == ClusterKind
      case CheckClusterDeletion => kind == ClusterKind
      case SyncClusterWideService => kind == ClusterKind
      case WaitForRolesPhases(_) => kind == ClusterKind
      case Bootstrap(_) => kind == ClusterKind
      case ConfigureFailover => kind == ClusterKind
      case SetRolePhase(_) => kind == RoleKind
      case ResetRoleStatus => kind == RoleKind
      case CreateStatefulSets => kind == RoleKind
      case UpdateStatefulSets => kind == RoleKind
      case EnsureCartridgeReady => kind == RoleKind
      case JoinInstances(_) => kind == RoleKind
      case ConfigureVShardRoles => kind == RoleKind
      case SetVShardWeights => kind == RoleKind
      case SetConfigPhase(_) => kind == ConfigKind
      case ResetConfigStatus => kind == ConfigKind
      case ConfigureCartridge => kind == ConfigKind
    }
  }

  predicate AllFit(steps: seq<Step>, kind: Kind)
  {
    forall i :: 0 <= i < |steps| ==> steps[i].Fits(kind)
  }

  /** What one step does to the state of the pass and to the call log. */
  function StepSpec(w: World, topo: bool, step: Step, s: State, log: seq<Call>): (r: StepOut)
    requires s.Wf() && step.Fits(s.kind)
    ensures r.state.Wf() && r.state.kind == s.kind
  {
    match step
    case Info(_) => StepOut(NextStep(), s, log)
    case GetRequestedObject(target) => CommonSteps.GetRequestedObjectSpec(w, s, log, target)
    case GetClusterByLabels => CommonSteps.GetClusterByLabelsSpec(w, s, log)
    case GetLeader => CommonSteps.GetLeaderSpec(w, topo, s, log)
    case WaitForClusterBootstrapped => CommonSteps.WaitForClusterBootstrappedSpec(s, log)
    case SetClusterPhase(phase) => ClusterSteps.SetClusterPhaseSpec(s, log, phase)
    case ResetClusterStatus => ClusterSteps.ResetClusterStatusSpec(s, log)
    case CheckClusterDeletion => ClusterSteps.CheckClusterDeletionSpec(s, log)
    case SyncClusterWideService => ClusterSteps.SyncClusterWideServiceSpec(w, s, log)
    case WaitForRolesPhases(phases) => ClusterSteps.WaitForRolesPhasesSpec(w, s, log, phases)
    case Bootstrap(errorPhase) => ClusterSteps.BootstrapSpec(w, s, log, errorPhase)
    case ConfigureFailover => ClusterSteps.ConfigureFailoverSpec(w, s, log)
    case SetRolePhase(phase) => RoleSteps.SetRolePhaseSpec(s, log, phase)
    case ResetRoleStatus => RoleSteps.ResetRoleStatusSpec(s, log)
    case CreateStatefulSets => RoleSteps.CreateStatefulSetsStepSpec(w, s, log)
    case UpdateStatefulSets => RoleSteps.UpdateStatefulSetsStepSpec(w, s, log)
    case EnsureCartridgeReady => RoleSteps.EnsureCartridgeReadySpec(w, s, log)
    case JoinInstances(phase) => RoleSteps.JoinInstancesSpec(w, s, log, phase)
    case ConfigureVShardRoles => RoleSteps.ConfigureVShardRolesSpec(w, s, log)
    case SetVShardWeights => RoleSteps.SetVShardWeightsSpec(w, s, log)
    case SetConfigPhase(phase) => CartridgeSteps.SetConfigPhaseSpec(s, log, phase)
    case ResetConfigStatus => CartridgeSteps.ResetConfigStatusSpec(s, log)
    case ConfigureCartridge => CartridgeSteps.ConfigureSpec(w, s, log)
  }

  /**
   * The step loop: the steps run in order and the first one that returns a
   * result or an error, or panics, ends it; a pass whose every step went on
   * ends with a nil result and a nil error.
   */
  function RunStepsSpec(w: World, topo: bool, steps: seq<Step>, s: State, log: seq<Call>): (r: StepOut)
    requires s.Wf() && AllFit(steps, s.kind)
    ensures r.state.Wf() && r.state.kind == s.kind
    ensures r.ret.Stops() || r.ret == NextStep()
    decreases |steps|
  {
    if steps == [] then StepOut(NextStep(), s, log)
    else
      var o := StepSpec(w, topo, steps[0], s, log);
      if o.ret.Stops() then o else RunStepsSpec(w, topo, steps[1..], o.state, o.log)
  }

  /**
   * Running `a` then `b` is running `a + b`: the loop goes on into `b`
   * exactly when no step of `a` stopped it.
   */
  lemma {:induction false} RunStepsAppend(w: World, topo: bool, a: seq<Step>, b: seq<Step>, s: State, log: seq<Call>)
    requires s.Wf() && AllFit(a, s.kind) && AllFit(b, s.kind)
    ensures AllFit(a + b, s.kind)
    ensures var o := RunStepsSpec(w, topo, a, s, log);
      RunStepsSpec(w, topo, a + b, s, log)
      == if o.ret.Stops() then o else RunStepsSpec(w, topo, b, o.state, o.log)
    decreases |a|
  {
    assert AllFit(a + b, s.kind) by {
      forall i | 0 <= i < |a + b|
        ensures (a + b)[i].Fits(s.kind)
      {
        if i < |a| { assert (a + b)[i] == a[i]; } else { assert (a + b)[i] == b[i - |a|]; }
      }
    }
    if a == [] {
      assert a + b == b;
    } else {
      var o := StepSpec(w, topo, a[0], s, log);
      assert (a + b)[0] == a[0];
      assert (a + b)[1..] == a[1..] + b;
      if !o.ret.Stops() {
        assert AllFit(a[1..], s.kind) by {
          forall i | 0 <= i < |a[1..]| ensures a[1..][i].Fits(s.kind) { assert a[1..][i] == a[i + 1]; }
        }
        RunStepsAppend(w, topo, a[1..], b, o.state, o.log);
      }
    }
  }

  /**
   * A run that went on to its end went on at every step: each prefix went on,
   * and so did the step after it.
   */
  lemma WentOnThrough(w: World, topo: bool, steps: seq<Step>, s: State, log: seq<Call>, i: nat)
    requires s.Wf() && AllFit(steps, s.kind) && i < |steps|
    requires !RunStepsSpec(w, topo, steps, s, log).ret.Stops()
    ensures AllFit(steps[..i], s.kind)
    ensures var o := RunStepsSpec(w, topo, steps[..i], s, log);
      !o.ret.Stops() && !StepSpec(w, topo, steps[i], o.state, o.log).ret.Stops()
  {
    assert steps == steps[..i] + steps[i..];
    assert AllFit(steps[i..], s.kind) by {
      forall j | 0 <= j < |steps[i..]| ensures steps[i..][j].Fits(s.kind) { assert steps[i..][j] == steps[i + j]; }
    }
    RunStepsAppend(w, topo, steps[..i], steps[i..], s, log);
    assert steps[i..][0] == steps[i];
  }

  // ----- UpdateStatus -----

  /** The requested object as it is sent to the status subresource. */
  function StatusObject(o: Requested): (r: Option<Object>)
    ensures r.None? <==> o.NoObject?
    ensures o.ClusterObj? ==> r == Some(ClusterObject(o.cluster))
    ensures o.RoleObj? ==> r == Some(RoleObject(o.role))
    ensures o.ConfigObj? ==> r == Some(ConfigObject(o.config))
  {
    match o
    case NoObject => None
    case ClusterObj(c) => Some(ClusterObject(c))
    case RoleObj(r) => Some(RoleObject(r))
    case ConfigObj(c) => Some(ConfigObject(c))
  }

  /**
   * The status is written back when the context holds the requested object
   * and that object is not being deleted, or still has finalizers.
   */
  predicate WritesStatus(s: State)
  {
    s.obj.ObjectMeta().Some?
    && (!s.obj.ObjectMeta().value.deleting || |s.obj.ObjectMeta().value.finalizers| > 0)
  }

  /** UpdateStatus: at most one status update, of the object the pass ends with. */
  function UpdateStatusSpec(w: World, s: State, log: seq<Call>): (r: (Option<Error>, seq<Call>))
    ensures WritesStatus(s) ==>
      var call := StatusUpdateCall(StatusObject(s.obj).value);
      r == (w.write(|log|, call), log + [call])
    ensures !WritesStatus(s) ==> r == (None, log)
  {
    if WritesStatus(s) then
      var call := StatusUpdateCall(StatusObject(s.obj).value);
      (w.write(|log|, call), log + [call])
    else (None, log)
  }

  method UpdateStatus(ctx: Context, ctrl: Controller) returns (err: Option<Error>)
    modifies ctrl
    ensures (err, ctrl.log) == UpdateStatusSpec(ctrl.world, ctx.Abs(), old(ctrl.log))
  {
    if ctx.HasRequestedObject() {
      var obj := ctx.RequestedValue();
      var meta := obj.ObjectMeta().value;
      if !meta.deleting || |meta.finalizers| > 0 {
        err := ctrl.Write(StatusUpdateCall(StatusObject(obj).value));
        return;
      }
    }
    err := None;
  }

  // ----- Run -----

  /**
   * What Reconcile hands back: a result and an error, or a panic that
   * unwinds the pass before the status is written.
   */
  datatype RunResult = Finished(res: Result, err: Option<Error>) | Panicked

  datatype RunOut = RunOut(result: RunResult, state: State, log: seq<Call>)

  /**
   * Run: the step loop, then UpdateStatus. A status-update error replaces
   * whatever the steps returned and is retried after ErrorTimeout; otherwise
   * an error without an explicit result is retried after ErrorTimeout, an
   * explicit result is kept, and a pass with neither ends with an empty result.
   */
  function RunSpec(w: World, topo: bool, steps: seq<Step>, s: State, log: seq<Call>): (r: RunOut)
    requires s.Wf() && AllFit(steps, s.kind)
    ensures var o := RunStepsSpec(w, topo, steps, s, log);
      var u := UpdateStatusSpec(w, o.state, o.log);
      r.state == o.state
      && (r.result.Panicked? <==> o.ret.Panic?)
      && (r.result.Panicked? ==> r.log == o.log)
      && (r.result.Finished? ==> r.log == u.1)
      && (r.result.Finished? && u.0.Some? ==> r.result == Finished(Result(ErrorTimeout), u.0))
      && (r.result.Finished? && u.0.None? ==>
            r.result.err == o.ret.err
            && (o.ret.res.Some? ==> r.result.res == o.ret.res.value)
            && (o.ret.res.None? && o.ret.err.Some? ==> r.result.res == Result(ErrorTimeout))
            && (o.ret == NextStep() ==> r.result == Finished(Result(0), None)))
  {
    var o := RunStepsSpec(w, topo, steps, s, log);
    if o.ret.Panic? then RunOut(Panicked, o.state, o.log)
    else
      var (updErr, log1) := UpdateStatusSpec(w, o.state, o.log);
      if updErr.Some? then RunOut(Finished(Result(ErrorTimeout), updErr), o.state, log1)
      else
        var res :=
          if o.ret.res.Some? then o.ret.res.value
          else if o.ret.err.Some? then Result(ErrorTimeout)
          else Result(0);
        RunOut(Finished(res, o.ret.err), o.state, log1)
  }

  /** One step, dispatched to its method. */
  method Execute(ctx: Context, ctrl: Controller, step: Step) returns (ret: StepReturn)
    requires step.Fits(ctx.Kind())
    modifies ctx.Repr(), ctrl
    ensures fresh(ctx.Repr() - old(ctx.Repr()))
    ensures StepOut(ret, ctx.Abs(), ctrl.log)
         == StepSpec(ctrl.world, ctrl.electionTopology, step, old(ctx.Abs()), old(ctrl.log))
  {
    match step
    case Info(message) => ret := CommonSteps.Info(ctx, ctrl, message);
    case GetRequestedObject(target) => ret := CommonSteps.GetRequestedObject(ctx, ctrl, target);
    case GetClusterByLabels => ret := CommonSteps.GetClusterByLabels(ctx, ctrl);
    case GetLeader => ret := CommonSteps.GetLeader(ctx, ctrl);
    case WaitForClusterBootstrapped => ret := CommonSteps.WaitForClusterBootstrapped(ctx, ctrl);
    case SetClusterPhase(phase) => ret := ClusterSteps.SetClusterPhase(ctx, ctrl, phase);
    case ResetClusterStatus => ret := ClusterSteps.ResetClusterStatus(ctx, ctrl);
    case CheckClusterDeletion => ret := ClusterSteps.CheckClusterDeletion(ctx, ctrl);
    case SyncClusterWideService => ret := ClusterSteps.SyncClusterWideService(ctx, ctrl);
    case WaitForRolesPhases(phases) => ret := ClusterSteps.WaitForRolesPhases(ctx, ctrl, phases);
    case Bootstrap(errorPhase) => ret := ClusterSteps.Bootstrap(ctx, ctrl, errorPhase);
    case ConfigureFailover => ret := ClusterSteps.ConfigureFailover(ctx, ctrl);
    case SetRolePhase(phase) => ret := RoleSteps.SetRolePhase(ctx, ctrl, phase);
    case ResetRoleStatus => ret := RoleSteps.ResetRoleStatus(ctx, ctrl);
    case CreateStatefulSets => ret := RoleSteps.CreateStatefulSetsStep(ctx, ctrl);
    case UpdateStatefulSets => ret := RoleSteps.UpdateStatefulSetsStep(ctx, ctrl);
    case EnsureCartridgeReady => ret := RoleSteps.EnsureCartridgeReady(ctx, ctrl);
    case JoinInstances(phase) => ret := RoleSteps.JoinInstances(ctx, ctrl, phase);
    case ConfigureVShardRoles => ret := RoleSteps.ConfigureVShardRoles(ctx, ctrl);
    case SetVShardWeights => ret := RoleSteps.SetVShardWeights(ctx, ctrl);
    case SetConfigPhase(phase) => ret := CartridgeSteps.SetConfigPhase(ctx, ctrl, phase);
    case ResetConfigStatus => ret := CartridgeSteps.ResetConfigStatus(ctx, ctrl);
    case ConfigureCartridge => ret := CartridgeSteps.Configure(ctx, ctrl);
  }

  /** The loop takes its first step, then goes on with the rest unless that step stopped it. */
  lemma RunStepsCons(w: World, topo: bool, step: Step, rest: seq<Step>, s: State, log: seq<Call>)
    requires s.Wf() && step.Fits(s.kind) && AllFit(rest, s.kind)
    ensures AllFit([step] + rest, s.kind)
    ensures var o := StepSpec(w, topo, step, s, log);
      RunStepsSpec(w, topo, [step] + rest, s, log)
      == if o.ret.Stops() then o else RunStepsSpec(w, topo, rest, o.state, o.log)
  {
    assert ([step] + rest)[0] == step && ([step] + rest)[1..] == rest;
    assert AllFit([step] + rest, s.kind) by {
      forall i | 0 <= i < |[step] + rest| ensures ([step] + rest)[i].Fits(s.kind) {
        if i > 0 { assert ([step] + rest)[i] == rest[i - 1]; }
      }
    }
  }

  /** One more step after a prefix that went on is that step on the prefix's outcome. */
  lemma RunStepsSnoc(w: World, topo: bool, a: seq<Step>, step: Step, s: State, log: seq<Call>)
    requires s.Wf() && AllFit(a, s.kind) && step.Fits(s.kind)
    requires !RunStepsSpec(w, topo, a, s, log).ret.Stops()
    ensures AllFit(a + [step], s.kind)
    ensures var o := RunStepsSpec(w, topo, a, s, log);
      RunStepsSpec(w, topo, a + [step], s, log) == StepSpec(w, topo, step, o.state, o.log)
  {
    RunStepsAppend(w, topo, a, [step], s, log);
    assert [step][1..] == [];
  }

  /** The loop's next round: the prefix one longer is the next step on the prefix's outcome. */
  lemma RunStepsNext(w: World, topo: bool, steps: seq<Step>, i: nat, s: State, log: seq<Call>)
    requires s.Wf() && AllFit(steps, s.kind) && i < |steps|
    ensures AllFit(steps[..i], s.kind) && AllFit(steps[..i + 1], s.kind)
    ensures var o := RunStepsSpec(w, topo, steps[..i], s, log);
      !o.ret.Stops() ==> RunStepsSpec(w, topo, steps[..i + 1], s, log) == StepSpec(w, topo, steps[i], o.state, o.log)
  {
    assert steps[..i + 1] == steps[..i] + [steps[i]];
    if !RunStepsSpec(w, topo, steps[..i], s, log).ret.Stops() {
      RunStepsSnoc(w, topo, steps[..i], steps[i], s, log);
    }
  }

  /** Once a prefix stopped the loop, or the steps ran out, the whole run is that prefix's. */
  lemma RunStepsDone(w: World, topo: bool, steps: seq<Step>, i: nat, s: State, log: seq<Call>)
    requires s.Wf() && AllFit(steps, s.kind) && i <= |steps|
    requires i == |steps| || RunStepsSpec(w, topo, steps[..i], s, log).ret.Stops()
    ensures AllFit(steps[..i], s.kind)
    ensures RunStepsSpec(w, topo, steps, s, log) == RunStepsSpec(w, topo, steps[..i], s, log)
  {
    assert steps == steps[..i] + steps[i..];
    assert AllFit(steps[i..], s.kind) by {
      forall j | 0 <= j < |steps[i..]| ensures steps[i..][j].Fits(s.kind) { assert steps[i..][j] == steps[i + j]; }
    }
    RunStepsAppend(w, topo, steps[..i], steps[i..], s, log);
    if i == |steps| {
      assert steps[i..] == [];
    }
  }

  /** The step loop of Run. */
  method RunSteps(ctx: Context, ctrl: Controller, steps: seq<Step>) returns (ret: StepReturn)
    requires AllFit(steps, ctx.Kind())
    modifies ctx.Repr(), ctrl
    ensures fresh(ctx.Repr() - old(ctx.Repr()))
    ensures StepOut(ret, ctx.Abs(), ctrl.log)
         == RunStepsSpec(ctrl.world, ctrl.electionTopology, steps, old(ctx.Abs()), old(ctrl.log))
  {
    ghost var s0 := ctx.Abs();
    ghost var log0 := ctrl.log;
    ret := NextStep();
    var i := 0;
    assert steps[..0] == [];
    while i < |steps| && !ret.Stops()
      invariant 0 <= i <= |steps|
      invariant fresh(ctx.Repr() - old(ctx.Repr()))
      invariant AllFit(steps[..i], s0.kind)
      invariant StepOut(ret, ctx.Abs(), ctrl.log) == RunStepsSpec(ctrl.world, ctrl.electionTopology, steps[..i], s0, log0)
      decreases |steps| - i
    {
      RunStepsNext(ctrl.world, ctrl.electionTopology, steps, i, s0, log0);
      ret := Execute(ctx, ctrl, steps[i]);
      i := i + 1;
    }
    RunStepsDone(ctrl.world, ctrl.electionTopology, steps, i, s0, log0);
  }

  /** SteppedReconciler.Run on a context of the steps' controller. */
  method Run(ctx: Context, ctrl: Controller, steps: seq<Step>) returns (result: RunResult)
    requires AllFit(steps, ctx.Kind())
    modifies ctx.Repr(), ctrl
    ensures fresh(ctx.Repr() - old(ctx.Repr()))
    ensures RunOut(result, ctx.Abs(), ctrl.log)
         == RunSpec(ctrl.world, ctrl.electionTopology, steps, old(ctx.Abs()), old(ctrl.log))
  {
    var ret := RunSteps(ctx, ctrl, steps);
    if ret.Panic? {
      return Panicked;
    }
    var updErr := UpdateStatus(ctx, ctrl);
    if updErr.Some? {
      return Finished(Result(ErrorTimeout), updErr);
    }
    if ret.res.Some? {
      result := Finished(ret.res.value, ret.err);
    } else if ret.err.Some? {
      result := Finished(Result(ErrorTimeout), ret.err);
    } else {
      result := Finished(Result(0), None);
    }
  }
}
