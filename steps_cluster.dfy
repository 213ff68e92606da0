// The steps of the cluster controller (pkg/reconciliation/steps/cluster). The
// requested object of a cluster context is also its related cluster, so the
// steps read and update the cluster through the context's requested object.

module ClusterSteps {
  import opened Wrappers
  import opened Errors
  import opened K8s
  import opened Api
  import opened Text
  import opened Topology
  import opened Reconciliation
  import opened Environment
  import opened Contexts

  // ----- SetPhase, ResetStatus, CheckDeletion -----

  /** SetPhase: the cluster's phase becomes `phase`; nothing else about it changes. */
  function SetClusterPhaseSpec(s: State, log: seq<Call>, phase: string): (r: StepOut)
    requires s.Wf()
    ensures r.log == log
    ensures r.ret.Panic? <==> !s.obj.ClusterObj?
    ensures r.ret.Panic? ==> r.state == s
    ensures !r.ret.Panic? ==>
      (r.ret == NextStep() && r.state.obj.ClusterObj?
       && r.state.obj.cluster.GetPhase() == phase
       && r.state.obj.cluster.IsBootstrapped() == s.obj.cluster.IsBootstrapped()
       && r.state.obj.cluster.meta == s.obj.cluster.meta && r.state.obj.cluster.spec == s.obj.cluster.spec
       && r.state.related == s.related && r.state.leader == s.leader)
  {
    match s.obj
    case ClusterObj(c) => StepOut(NextStep(), s.UpdateObject(ClusterObj(c.SetPhase(phase))), log)
    case _ => StepOut(Panic, s, log)
  }

  /** ResetStatus: the phase is cleared, the bootstrapped flag and the elected leader kept. */
  function ResetClusterStatusSpec(s: State, log: seq<Call>): (r: StepOut)
    requires s.Wf()
    ensures r.log == log
    ensures r.ret.Panic? <==> !s.obj.ClusterObj?
    ensures r.ret.Panic? ==> r.state == s
    ensures !r.ret.Panic? ==>
      (r.ret == NextStep() && r.state.obj.ClusterObj?
       && r.state.obj.cluster.GetPhase() == ""
       && r.state.obj.cluster.status.bootstrapped == s.obj.cluster.status.bootstrapped
       && r.state.obj.cluster.status.leader == s.obj.cluster.status.leader
       && r.state.obj.cluster.meta == s.obj.cluster.meta && r.state.obj.cluster.spec == s.obj.cluster.spec
       && r.state.related == s.related && r.state.leader == s.leader)
  {
    match s.obj
    case ClusterObj(c) => StepOut(NextStep(), s.UpdateObject(ClusterObj(c.ResetStatus())), log)
    case _ => StepOut(Panic, s, log)
  }

  /** CheckDeletion: a cluster being deleted ends the pass. */
  function CheckClusterDeletionSpec(s: State, log: seq<Call>): (r: StepOut)
    ensures r.state == s && r.log == log
    ensures r.ret.Panic? <==> !s.obj.ClusterObj?
    ensures s.obj.ClusterObj? ==> (r.ret == Complete() <==> s.obj.cluster.meta.deleting)
    ensures s.obj.ClusterObj? ==> (r.ret == NextStep() <==> !s.obj.cluster.meta.deleting)
  {
    match s.obj
    case ClusterObj(c) => StepOut(if c.meta.deleting then Complete() else NextStep(), s, log)
    case _ => StepOut(Panic, s, log)
  }

  method SetClusterPhase(ctx: Context, ctrl: Controller, phase: string) returns (ret: StepReturn)
    requires ctx.ClusterCtx?
    modifies ctx.Repr()
    ensures ctx.Repr() == old(ctx.Repr())
    ensures StepOut(ret, ctx.Abs(), ctrl.log) == SetClusterPhaseSpec(old(ctx.Abs()), old(ctrl.log), phase)
  {
    var c := ctx.cc.cluster;
    if c == null {
      return Panic;
    }
    c.SetPhase(phase);
    ret := NextStep();
  }

  method ResetClusterStatus(ctx: Context, ctrl: Controller) returns (ret: StepReturn)
    requires ctx.ClusterCtx?
    modifies ctx.Repr()
    ensures ctx.Repr() == old(ctx.Repr())
    ensures StepOut(ret, ctx.Abs(), ctrl.log) == ResetClusterStatusSpec(old(ctx.Abs()), old(ctrl.log))
  {
    var c := ctx.cc.cluster;
    if c == null {
      return Panic;
    }
    c.ResetStatus();
    ret := NextStep();
  }

  method CheckClusterDeletion(ctx: Context, ctrl: Controller) returns (ret: StepReturn)
    requires ctx.ClusterCtx?
    ensures StepOut(ret, ctx.Abs(), ctrl.log) == CheckClusterDeletionSpec(ctx.Abs(), ctrl.log)
  {
    var c := ctx.cc.cluster;
    if c == null {
      return Panic;
    }
    if c.meta.deleting {
      return Complete();
    }
    ret := NextStep();
  }

  // ----- SyncClusterWideService -----

  /** The headless service every cluster gets: all its pods, ready or not, on the listen port. */
  function DesiredServiceSpec(c: ClusterValue): (spec: ServiceSpec)
    ensures spec.selector == Manager.SelectorByClusterName(c.meta)
    ensures spec.publishNotReadyAddresses && spec.clusterIP == "None"
    ensures |spec.ports| == 2 && spec.ports[0].name != spec.ports[1].name
    ensures forall i :: 0 <= i < |spec.ports| ==> spec.ports[i].port == c.GetListenPort()
  {
    ServiceSpec(
      map[Manager.ClusterName() := c.GetName()],
      true,
      "None",
      [ServicePort("app", c.GetListenPort(), "TCP"), ServicePort("app-udp", c.GetListenPort(), "UDP")])
  }

  /** The service built when none exists yet: only its name and namespace are set. */
  function NewService(c: ClusterValue): (svc: ServiceValue)
    ensures svc.meta.name == c.GetName() && svc.meta.namespace == c.GetNamespace()
    ensures svc.spec != DesiredServiceSpec(c)
  {
    ServiceValue(Meta(c.GetName(), c.GetNamespace(), None, None, false, []), ServiceSpec(map[], false, "", []))
  }

  /**
   * The managed fields brought in line field by field; `changed` starts as
   * whether ControlObject took the reference and is set by every field that
   * differed.
   */
  method SyncServiceFields(svc: ServiceValue, c: ClusterValue, controlled: bool) returns (synced: ServiceValue, changed: bool)
    ensures synced == svc.(spec := DesiredServiceSpec(c))
    ensures changed <==> controlled || svc.spec != DesiredServiceSpec(c)
  {
    var desired := DesiredServiceSpec(c);
    synced := svc;
    changed := controlled;
    if synced.spec.selector != desired.selector {
      synced := synced.(spec := synced.spec.(selector := desired.selector));
      changed := true;
    }
    if !synced.spec.publishNotReadyAddresses {
      synced := synced.(spec := synced.spec.(publishNotReadyAddresses := true));
      changed := true;
    }
    if synced.spec.clusterIP != "None" {
      synced := synced.(spec := synced.spec.(clusterIP := "None"));
      changed := true;
    }
    if synced.spec.ports != desired.ports {
      synced := synced.(spec := synced.spec.(ports := desired.ports));
      changed := true;
    }
  }

  /** The key of the cluster-wide service: the cluster's own name and namespace. */
  function ServiceKey(c: ClusterValue): NamespacedName
  {
    NamespacedName(c.GetNamespace(), c.GetName())
  }

  /** The save after a sync: a create for a service that was not found, an update otherwise. */
  function SaveCall(created: bool, svc: ServiceValue): (call: Call)
    ensures call.IsWrite() && (call.CreateCall? <==> created) && (call.CreateCall? || call.UpdateCall?)
    ensures call.obj == ServiceObject(svc)
  {
    if created then CreateCall(ServiceObject(svc)) else UpdateCall(ServiceObject(svc))
  }

  /**
   * SyncClusterWideService: get the service (a NotFound means one is built
   * from scratch and created), take the controller reference, bring the
   * managed fields in line and save the service only when something changed.
   */
  function SyncClusterWideServiceSpec(w: World, s: State, log: seq<Call>): (r: StepOut)
    ensures r.state == s
    ensures r.ret.Panic? <==> !s.obj.ClusterObj?
    ensures s.obj.ClusterObj? ==> |r.log| > |log| && r.log[..|log| + 1] == log + [GetServiceCall(ServiceKey(s.obj.cluster))]
    ensures !r.ret.Panic? ==> r.ret == NextStep() || (r.ret.res.None? && r.ret.err.Some?)
  {
    if !s.obj.ClusterObj? then StepOut(Panic, s, log)
    else
      var c := s.obj.cluster;
      var log1 := log + [GetServiceCall(ServiceKey(c))];
      var got := w.getService(|log|, ServiceKey(c));
      if got.Fail? && !got.error.IsNotFound() then StepOut(ErrorOf(Some(got.error)), s, log1)
      else
        var svc := if got.Fail? then NewService(c) else got.value;
        var log2 := log1 + [ControlObjectCall(c.GetName(), svc.meta.name)];
        match w.controlObject(|log1|, c.meta, svc.meta)
        case Fail(e) => StepOut(ErrorOf(Some(e)), s, log2)
        case Ok(controlled) =>
          var synced := svc.(spec := DesiredServiceSpec(c));
          if !controlled && svc.spec == DesiredServiceSpec(c) then StepOut(NextStep(), s, log2)
          else
            var call := SaveCall(got.Fail?, synced);
            StepOut(ErrorOf(w.write(|log2|, call)), s, log2 + [call])
  }

  method SyncClusterWideService(ctx: Context, ctrl: Controller) returns (ret: StepReturn)
    requires ctx.ClusterCtx?
    modifies ctrl
    ensures StepOut(ret, ctx.Abs(), ctrl.log) == SyncClusterWideServiceSpec(ctrl.world, old(ctx.Abs()), old(ctrl.log))
  {
    var cluster := ctx.cc.cluster;
    if cluster == null {
      return Panic;
    }
    var c := cluster.Value();
    var got := ctrl.GetService(ServiceKey(c));
    var created := false;
    var svc: ServiceValue;
    if got.Fail? {
      if !got.error.IsNotFound() {
        return ErrorOf(Some(got.error));
      }
      created := true;
      svc := NewService(c);
    } else {
      svc := got.value;
    }
    var controlled := ctrl.ControlObject(c.meta, svc.meta);
    if controlled.Fail? {
      return ErrorOf(Some(controlled.error));
    }
    var synced, changed := SyncServiceFields(svc, c, controlled.value);
    if changed {
      var err := ctrl.Write(SaveCall(created, synced));
      if err.Some? {
        return ErrorOf(err);
      }
    }
    ret := NextStep();
  }

  /**
   * The only write SyncClusterWideService makes is its last call: a create or
   * an update of the service, carrying the managed fields.
   */
  lemma SyncServiceWritesOnlyTheService(w: World, s: State, log: seq<Call>)
    requires s.obj.ClusterObj?
    ensures var r := SyncClusterWideServiceSpec(w, s, log);
      forall i :: |log| <= i < |r.log| && r.log[i].IsWrite() ==>
        (i == |r.log| - 1 && (r.log[i].CreateCall? || r.log[i].UpdateCall?)
         && r.log[i].obj.ServiceObject? && r.log[i].obj.service.spec == DesiredServiceSpec(s.obj.cluster))
  {
    var c := s.obj.cluster;
    var log1 := log + [GetServiceCall(ServiceKey(c))];
    var got := w.getService(|log|, ServiceKey(c));
    if !(got.Fail? && !got.error.IsNotFound()) {
      var svc := if got.Fail? then NewService(c) else got.value;
      var log2 := log1 + [ControlObjectCall(c.GetName(), svc.meta.name)];
      assert forall i :: |log| <= i < |log2| ==> !log2[i].IsWrite();
    }
  }

  /** A missing service is created, named after the cluster, with the managed fields set. */
  lemma MissingServiceIsCreated(w: World, s: State, log: seq<Call>)
    requires s.obj.ClusterObj?
    requires var c := s.obj.cluster;
      w.getService(|log|, ServiceKey(c)).Fail? && w.getService(|log|, ServiceKey(c)).error.IsNotFound()
      && w.controlObject(|log| + 1, c.meta, NewService(c).meta).Ok?
    ensures var c := s.obj.cluster;
      var r := SyncClusterWideServiceSpec(w, s, log);
      |r.log| == |log| + 3 && r.log[|log| + 2] == CreateCall(ServiceObject(NewService(c).(spec := DesiredServiceSpec(c))))
  {
  }

  /** A service already in line whose reference was already held is left alone: no write at all. */
  lemma SyncedServiceIsNotWritten(w: World, s: State, log: seq<Call>)
    requires s.obj.ClusterObj?
    requires var c := s.obj.cluster;
      var got := w.getService(|log|, ServiceKey(c));
      got.Ok? && got.value.spec == DesiredServiceSpec(c) && w.controlObject(|log| + 1, c.meta, got.value.meta) == Ok(false)
    ensures var r := SyncClusterWideServiceSpec(w, s, log);
      r.ret == NextStep() && forall i :: |log| <= i < |r.log| ==> !r.log[i].IsWrite()
  {
  }

  // ----- WaitForRolesPhases -----

  /** IsAllRolesAtPhase on a listing: there is at least one role, and every role is at the phase. */
  predicate AllRolesAtPhaseSpec(roles: seq<RoleValue>, phase: string)
  {
    |roles| > 0 && forall i :: 0 <= i < |roles| ==> roles[i].GetPhase() == phase
  }

  method AllRolesAtPhase(roles: seq<RoleValue>, phase: string) returns (all: bool)
    ensures all <==> AllRolesAtPhaseSpec(roles, phase)
  {
    if |roles| == 0 {
      return false;
    }
    var i := 0;
    while i < |roles|
      invariant 0 <= i <= |roles|
      invariant forall j :: 0 <= j < i ==> roles[j].GetPhase() == phase
    {
      if roles[i].GetPhase() != phase {
        return false;
      }
      i := i + 1;
    }
    all := true;
  }

  /** The roles of a cluster: those labelled with its name, in its namespace. */
  function RolesCall(c: ClusterValue): Call
  {
    ListRolesCall(c.GetNamespace(), Manager.SelectorByClusterName(c.meta))
  }

  function RolesAnswer(w: World, c: ClusterValue, n: nat): Outcome<seq<RoleValue>>
  {
    w.listRoles(n, c.GetNamespace(), Manager.SelectorByClusterName(c.meta))
  }

  /**
   * The expected phases from `phases` on, one listing each: an error stops, a
   * phase every role is at lets the pass go on, and running out of phases
   * completes the pass.
   */
  function {:induction false} WaitFrom(w: World, c: ClusterValue, log: seq<Call>, phases: seq<string>): (r: (StepReturn, seq<Call>))
    decreases |phases|
    ensures r.0 == NextStep() || r.0 == Complete() || (r.0.Return? && r.0.res.None? && r.0.err.Some?)
    ensures |log| <= |r.1| <= |log| + |phases| && r.1[..|log|] == log
    ensures forall i :: |log| <= i < |r.1| ==> r.1[i] == RolesCall(c)
    ensures r.0 == NextStep() ==>
      (|log| < |r.1| && var n := |r.1| - 1;
       RolesAnswer(w, c, n).Ok? && AllRolesAtPhaseSpec(RolesAnswer(w, c, n).value, phases[n - |log|]))
  {
    if |phases| == 0 then (Complete(), log)
    else
      var log1 := log + [RolesCall(c)];
      match RolesAnswer(w, c, |log|)
      case Fail(e) => (ErrorOf(Some(e)), log1)
      case Ok(roles) =>
        if AllRolesAtPhaseSpec(roles, phases[0]) then (NextStep(), log1)
        else
          WaitFrom(w, c, log1, phases[1..])
  }

  /** WaitForRolesPhases: go on as soon as all roles are at one of the expected phases. */
  function WaitForRolesPhasesSpec(w: World, s: State, log: seq<Call>, phases: seq<string>): (r: StepOut)
    ensures r.state == s
    ensures r.ret.Panic? <==> !s.obj.ClusterObj?
    ensures forall i :: |log| <= i < |r.log| ==> !r.log[i].IsWrite()
  {
    match s.obj
    case ClusterObj(c) =>
      var (ret, log1) := WaitFrom(w, c, log, phases);
      StepOut(ret, s, log1)
    case _ => StepOut(Panic, s, log)
  }

  method WaitForRolesPhases(ctx: Context, ctrl: Controller, phases: seq<string>) returns (ret: StepReturn)
    requires ctx.ClusterCtx?
    modifies ctrl
    ensures StepOut(ret, ctx.Abs(), ctrl.log) == WaitForRolesPhasesSpec(ctrl.world, old(ctx.Abs()), old(ctrl.log), phases)
  {
    var cluster := ctx.cc.cluster;
    if cluster == null {
      return Panic;
    }
    var c := cluster.Value();
    ghost var final := WaitFrom(ctrl.world, c, ctrl.log, phases);
    var i := 0;
    while i < |phases|
      invariant 0 <= i <= |phases|
      invariant WaitFrom(ctrl.world, c, ctrl.log, phases[i..]) == final
      invariant cluster.Value() == c
    {
      assert phases[i..][1..] == phases[i + 1..];
      var roles := ctrl.ListRoles(c.GetNamespace(), Manager.SelectorByClusterName(c.meta));
      if roles.Fail? {
        return ErrorOf(Some(roles.error));
      }
      var all := AllRolesAtPhase(roles.value, phases[i]);
      if all {
        return NextStep();
      }
      i := i + 1;
    }
    ret := Complete();
  }

  /** The listing at n succeeded and not every role it found is at `phase`. */
  predicate PhaseMissed(w: World, c: ClusterValue, n: nat, phase: string)
  {
    RolesAnswer(w, c, n).Ok? && !AllRolesAtPhaseSpec(RolesAnswer(w, c, n).value, phase)
  }

  /**
   * The wait stops on its last listing: the pass goes on exactly when that
   * listing found every role at its phase, and returns an error exactly when
   * it failed, and then that error.
   */
  lemma {:induction false} WaitFromLastListing(w: World, c: ClusterValue, log: seq<Call>, phases: seq<string>)
    ensures var r := WaitFrom(w, c, log, phases); var k := |r.1| - |log|;
      && (r.0 == NextStep() <==>
            0 < k && RolesAnswer(w, c, |r.1| - 1).Ok? && AllRolesAtPhaseSpec(RolesAnswer(w, c, |r.1| - 1).value, phases[k - 1]))
      && (r.0.Return? && r.0.err.Some? <==> 0 < k && RolesAnswer(w, c, |r.1| - 1).Fail?)
      && (0 < k && RolesAnswer(w, c, |r.1| - 1).Fail? ==> r.0 == ErrorOf(Some(RolesAnswer(w, c, |r.1| - 1).error)))
    decreases |phases|
  {
    var r := WaitFrom(w, c, log, phases);
    if |phases| > 0 {
      var log1 := log + [RolesCall(c)];
      var a := RolesAnswer(w, c, |log|);
      if a.Ok? && !AllRolesAtPhaseSpec(a.value, phases[0]) {
        var rest := WaitFrom(w, c, log1, phases[1..]);
        assert r == rest;
        WaitFromLastListing(w, c, log1, phases[1..]);
        var k := |r.1| - |log|;
        if k == 1 {
          assert r.1 == log1;
        } else if k > 1 {
          assert phases[1..][k - 2] == phases[k - 1];
        }
      } else {
        assert r.1 == log1 && |r.1| - 1 == |log|;
      }
    }
  }

  /**
   * The wait tries the phases in order, one listing each: every listing
   * before the last succeeded and missed its phase, and the pass completes
   * exactly when every phase was tried and missed.
   */
  lemma {:induction false} WaitFromMissed(w: World, c: ClusterValue, log: seq<Call>, phases: seq<string>)
    ensures var r := WaitFrom(w, c, log, phases); var k := |r.1| - |log|;
      && (forall i :: 0 <= i < k - 1 ==> PhaseMissed(w, c, |log| + i, phases[i]))
      && (r.0 == Complete() <==> k == |phases| && forall i :: 0 <= i < k ==> PhaseMissed(w, c, |log| + i, phases[i]))
    decreases |phases|
  {
    var r := WaitFrom(w, c, log, phases);
    if |phases| > 0 {
      var log1 := log + [RolesCall(c)];
      var a := RolesAnswer(w, c, |log|);
      if a.Ok? && !AllRolesAtPhaseSpec(a.value, phases[0]) {
        var rest := WaitFrom(w, c, log1, phases[1..]);
        assert r == rest;
        WaitFromMissed(w, c, log1, phases[1..]);
        var k := |r.1| - |log|;
        forall i | 0 <= i < k
          ensures PhaseMissed(w, c, |log| + i, phases[i]) <==> i == 0 || PhaseMissed(w, c, |log1| + (i - 1), phases[1..][i - 1])
        {
          if i > 0 {
            assert phases[1..][i - 1] == phases[i];
          }
        }
      } else {
        assert r.1 == log1 && r.0 != Complete();
        assert !PhaseMissed(w, c, |log|, phases[0]);
      }
    }
  }

  /** With no role labelled for the cluster, no expected phase is ever reached. */
  lemma NoRolesNeverReady(w: World, c: ClusterValue, log: seq<Call>, phases: seq<string>)
    requires forall n :: RolesAnswer(w, c, n) == Ok([])
    ensures WaitFrom(w, c, log, phases).0 == Complete()
  {
    NoRolesNoError(w, c, log, phases);
  }

  /**
   * Roles split between the expected phases stall the cluster: with one role
   * in each of two different phases, neither phase is shared by all roles, so
   * the wait completes the pass after one listing per phase.
   */
  lemma SplitRolesComplete(w: World, c: ClusterValue, log: seq<Call>, p: string, q: string,
                           roles: seq<RoleValue>, i: nat, j: nat)
    requires p != q && i < |roles| && j < |roles|
    requires roles[i].GetPhase() == p && roles[j].GetPhase() == q
    requires RolesAnswer(w, c, |log|) == Ok(roles) && RolesAnswer(w, c, |log| + 1) == Ok(roles)
    ensures WaitFrom(w, c, log, [p, q]) == (Complete(), log + [RolesCall(c), RolesCall(c)])
  {
    assert !AllRolesAtPhaseSpec(roles, p) by { assert roles[j].GetPhase() != p; }
    assert !AllRolesAtPhaseSpec(roles, q) by { assert roles[i].GetPhase() != q; }
    var log1 := log + [RolesCall(c)];
    assert [p, q][1..] == [q];
    assert WaitFrom(w, c, log, [p, q]) == WaitFrom(w, c, log1, [q]);
    assert |log1| == |log| + 1 && [q][1..] == [];
    assert WaitFrom(w, c, log1, [q]) == WaitFrom(w, c, log1 + [RolesCall(c)], []);
    assert log1 + [RolesCall(c)] == log + [RolesCall(c), RolesCall(c)];
  }

  /** A listing that never fails never makes WaitFrom return an error. */
  lemma {:induction false} NoRolesNoError(w: World, c: ClusterValue, log: seq<Call>, phases: seq<string>)
    requires forall n :: RolesAnswer(w, c, n).Ok?
    ensures WaitFrom(w, c, log, phases).0 == NextStep() || WaitFrom(w, c, log, phases).0 == Complete()
    decreases |phases|
  {
    if |phases| > 0 {
      NoRolesNoError(w, c, log + [RolesCall(c)], phases[1..]);
    }
  }

  // ----- Bootstrap -----

  const NoRouterText := "No remotes with role \"vshard-router\" available"
  const NoStorageText := "No remotes with role \"vshard-storage\" available"

  /** A bootstrap that failed because the routers or the storages are not there yet. */
  predicate NoRemotes(e: Error)
  {
    Contains(e.Message(), NoRouterText) || Contains(e.Message(), NoStorageText)
  }

  /**
   * Bootstrap: a bootstrapped cluster goes on. Otherwise vshard is
   * bootstrapped through the leader: success marks the cluster bootstrapped,
   * missing routers or storages set the error phase and end the pass, and any
   * other failure is an error.
   */
  function BootstrapSpec(w: World, s: State, log: seq<Call>, errorPhase: string): (r: StepOut)
    requires s.Wf()
    ensures r.state.Wf() && r.state.related == s.related && r.state.leader == s.leader
    ensures r.ret.Panic? <==> !s.obj.ClusterObj? || (!s.obj.cluster.IsBootstrapped() && s.leader.None?)
    ensures r.ret.Panic? ==> r.state == s && r.log == log
    ensures !r.ret.Panic? ==>
      (r.state.obj.ClusterObj?
       && r.state.obj.cluster.meta == s.obj.cluster.meta && r.state.obj.cluster.spec == s.obj.cluster.spec)
    ensures r.ret == NextStep() <==> s.obj.ClusterObj? && r.state.obj.ClusterObj? && r.state.obj.cluster.IsBootstrapped()
    ensures r.ret == Complete() ==> r.state.obj.cluster.GetPhase() == errorPhase
    ensures s.obj.ClusterObj? && s.obj.cluster.IsBootstrapped() ==> r == StepOut(NextStep(), s, log)
  {
    if !s.obj.ClusterObj? then StepOut(Panic, s, log)
    else
      var c := s.obj.cluster;
      if c.IsBootstrapped() then StepOut(NextStep(), s, log)
      else
        match s.leader
        case None => StepOut(Panic, s, log)
        case Some(leader) =>
          var log1 := log + [BootstrapVshardCall(leader.meta.name)];
          match BootstrapVshardError(w.bootstrapVshard(|log|, leader))
          case None => StepOut(NextStep(), s.UpdateObject(ClusterObj(c.MarkBootstrapped())), log1)
          case Some(e) =>
            if NoRemotes(e) then StepOut(Complete(), s.UpdateObject(ClusterObj(c.SetPhase(errorPhase))), log1)
            else StepOut(ErrorOf(Some(e)), s, log1)
  }

  method Bootstrap(ctx: Context, ctrl: Controller, errorPhase: string) returns (ret: StepReturn)
    requires ctx.ClusterCtx?
    modifies ctx.Repr(), ctrl
    ensures ctx.Repr() == old(ctx.Repr())
    ensures StepOut(ret, ctx.Abs(), ctrl.log) == BootstrapSpec(ctrl.world, old(ctx.Abs()), old(ctrl.log), errorPhase)
  {
    var c := ctx.cc.cluster;
    if c == null {
      return Panic;
    }
    if c.Value().IsBootstrapped() {
      return NextStep();
    }
    var leader := ctx.Common().GetLeader();
    if leader.None? {
      return Panic;
    }
    var call := ctrl.BootstrapVshard(leader.value);
    var err := BootstrapVshardError(call);
    if err.Some? {
      if NoRemotes(err.value) {
        c.SetPhase(errorPhase);
        return Complete();
      }
      return ErrorOf(err);
    }
    c.MarkBootstrapped();
    ret := NextStep();
  }

  /** Every failure of the bootstrap call is reported under "unable to bootstrap cluster". */
  lemma BootstrapErrorsAreWrapped(w: World, s: State, log: seq<Call>, errorPhase: string)
    requires s.Wf()
    ensures var r := BootstrapSpec(w, s, log, errorPhase);
      r.ret.Return? && r.ret.err.Some? ==>
        r.ret.err.value.Wrapped? && r.ret.err.value.context == "unable to bootstrap cluster" && !NoRemotes(r.ret.err.value)
  {
  }

  /** An instance that answers "already bootstrapped" counts as a bootstrap. */
  lemma AlreadyBootstrappedMarksCluster(w: World, s: State, log: seq<Call>, errorPhase: string, l: LuaError, flag: bool)
    requires s.Wf() && s.obj.ClusterObj? && !s.obj.cluster.IsBootstrapped() && s.leader.Some?
    requires w.bootstrapVshard(|log|, s.leader.value) == Ok(LuaCallResult(flag, Some(l)))
    requires IsAlreadyBootstrapped(l)
    ensures var r := BootstrapSpec(w, s, log, errorPhase);
      r.ret == NextStep() && r.state.obj.cluster == s.obj.cluster.MarkBootstrapped()
  {
  }

  // ----- ConfigureFailover -----

  const Etcd2PasswordKey := "etcd2-password"
  const StateboardPasswordKey := "stateboard-password"
  const NoSuchKey := Plain("no such key")

  /** The parameters every mode sends; the provider parameters are added for stateful failover. */
  function BaseFailoverParams(cfg: FailoverConfig): (p: FailoverParams)
    ensures p.etcd2Params.None? && p.stateboardParams.None?
    ensures p.mode == cfg.mode && p.stateProvider == cfg.stateProvider && p.timeout == cfg.timeout
    ensures p.fencingEnabled == cfg.fencing && p.fencingTimeout == cfg.fencingTimeout && p.fencingPause == cfg.fencingPause
  {
    FailoverParams(cfg.mode, cfg.timeout, cfg.stateProvider, cfg.fencing, cfg.fencingTimeout, cfg.fencingPause, None, None)
  }

  /** A password read from a secret, with the secret it came from (None when no secret is named). */
  datatype Password = Password(text: string, secret: Option<SecretValue>)

  /** The key read from the secret: the reference's own key, or the provider's default. */
  function PasswordKey(ref: SecretRef, defaultKey: string): (k: string)
    ensures ref.key != "" ==> k == ref.key
    ensures ref.key == "" ==> k == defaultKey
  {
    if ref.key == "" then defaultKey else ref.key
  }

  /**
   * The password of a secret reference: an empty name means no password and
   * no read; otherwise the secret's error, or "no such key", or the value.
   */
  function ReadPasswordSpec(w: World, log: seq<Call>, ref: SecretRef, defaultKey: string): (r: (Outcome<Password>, seq<Call>))
    ensures ref.name == "" ==> r == (Ok(Password("", None)), log)
    ensures ref.name != "" ==> r.1 == log + [GetSecretCall(NamespacedName(ref.namespace, ref.name))]
    ensures r.0.Ok? && r.0.value.secret.Some? ==>
      var sec := r.0.value.secret.value;
      PasswordKey(ref, defaultKey) in sec.data && r.0.value.text == sec.data[PasswordKey(ref, defaultKey)]
  {
    if ref.name == "" then (Ok(Password("", None)), log)
    else
      var key := NamespacedName(ref.namespace, ref.name);
      var log1 := log + [GetSecretCall(key)];
      match w.getSecret(|log|, key)
      case Fail(e) => (Fail(e), log1)
      case Ok(sec) =>
        if PasswordKey(ref, defaultKey) in sec.data then (Ok(Password(sec.data[PasswordKey(ref, defaultKey)], Some(sec))), log1)
        else (Fail(NoSuchKey), log1)
  }

  method ReadPassword(ctrl: Controller, ref: SecretRef, defaultKey: string) returns (r: Outcome<Password>)
    modifies ctrl
    ensures (r, ctrl.log) == ReadPasswordSpec(ctrl.world, old(ctrl.log), ref, defaultKey)
  {
    if ref.name == "" {
      return Ok(Password("", None));
    }
    var got := ctrl.GetSecret(NamespacedName(ref.namespace, ref.name));
    if got.Fail? {
      return Fail(got.error);
    }
    var key := if ref.key == "" then defaultKey else ref.key;
    if key !in got.value.data {
      return Fail(NoSuchKey);
    }
    r := Ok(Password(got.value.data[key], Some(got.value)));
  }

  /** LoadFailoverParams: the parameters, a failure, or a nil provider block dereferenced. */
  datatype Loaded = Loaded(params: FailoverParams) | LoadFailed(error: Error) | LoadPanic

  /** The provider parameters and the password they need, before the secret is adopted. */
  function ProviderSpec(w: World, log: seq<Call>, cfg: FailoverConfig): (r: (Option<Outcome<Password>>, FailoverParams, seq<Call>))
    ensures r.0.None? <==>
      ((cfg.stateProvider == FailoverStateProviderETCD2 && cfg.etcd2.None?)
       || (cfg.stateProvider == FailoverStateProviderStateboard && cfg.stateboard.None?))
  {
    if cfg.stateProvider == FailoverStateProviderETCD2 then
      match cfg.etcd2
      case None => (None, BaseFailoverParams(cfg), log)
      case Some(e) =>
        var (pw, log1) := ReadPasswordSpec(w, log, e.password, Etcd2PasswordKey);
        var text := if pw.Ok? then pw.value.text else "";
        (Some(pw), BaseFailoverParams(cfg).(etcd2Params := Some(Etcd2Params(e.endpoints, e.username, text, e.lockDelay, e.prefix))), log1)
    else if cfg.stateProvider == FailoverStateProviderStateboard then
      match cfg.stateboard
      case None => (None, BaseFailoverParams(cfg), log)
      case Some(sb) =>
        var (pw, log1) := ReadPasswordSpec(w, log, sb.password, StateboardPasswordKey);
        var text := if pw.Ok? then pw.value.text else "";
        (Some(pw), BaseFailoverParams(cfg).(stateboardParams := Some(StateboardParams(sb.uri, text))), log1)
    else (Some(Ok(Password("", None))), BaseFailoverParams(cfg), log)
  }

  /**
   * LoadFailoverParams: the base parameters; for stateful failover also the
   * provider's, with the password read from its secret, and a secret that was
   * read is given the cluster as owner and written back.
   */
  function LoadFailoverParamsSpec(w: World, c: ClusterValue, log: seq<Call>): (r: (Loaded, seq<Call>))
    ensures c.GetFailoverConfig().mode != FailoverModeStateful ==> r == (Loaded(BaseFailoverParams(c.GetFailoverConfig())), log)
    ensures r.0.Loaded? ==>
      (r.0.params.mode == c.GetFailoverConfig().mode
       && r.0.params.stateProvider == c.GetFailoverConfig().stateProvider)
  {
    var cfg := c.GetFailoverConfig();
    if cfg.mode != FailoverModeStateful then (Loaded(BaseFailoverParams(cfg)), log)
    else
      var (pw, params, log1) := ProviderSpec(w, log, cfg);
      match pw
      case None => (LoadPanic, log1)
      case Some(Fail(e)) => (LoadFailed(e), log1)
      case Some(Ok(Password(_, None))) => (Loaded(params), log1)
      case Some(Ok(Password(_, Some(sec)))) =>
        var own := SetOwnerReferenceCall(c.GetName(), sec.meta.name);
        var log2 := log1 + [own];
        match w.write(|log1|, own)
        case Some(e) => (LoadFailed(e), log2)
        case None =>
          var update := UpdateCall(SecretObject(sec));
          var log3 := log2 + [update];
          match w.write(|log2|, update)
          case Some(e) => (LoadFailed(e), log3)
          case None => (Loaded(params), log3)
  }

  method LoadFailoverParams(ctrl: Controller, c: ClusterValue) returns (r: Loaded)
    modifies ctrl
    ensures (r, ctrl.log) == LoadFailoverParamsSpec(ctrl.world, c, old(ctrl.log))
  {
    var cfg := c.GetFailoverConfig();
    var params := BaseFailoverParams(cfg);
    if cfg.mode != FailoverModeStateful {
      return Loaded(params);
    }
    var secret: Option<SecretValue> := None;
    if cfg.stateProvider == FailoverStateProviderETCD2 {
      if cfg.etcd2.None? {
        return LoadPanic;
      }
      var e := cfg.etcd2.value;
      var pw := ReadPassword(ctrl, e.password, Etcd2PasswordKey);
      if pw.Fail? {
        return LoadFailed(pw.error);
      }
      secret := pw.value.secret;
      params := params.(etcd2Params := Some(Etcd2Params(e.endpoints, e.username, pw.value.text, e.lockDelay, e.prefix)));
    } else if cfg.stateProvider == FailoverStateProviderStateboard {
      if cfg.stateboard.None? {
        return LoadPanic;
      }
      var sb := cfg.stateboard.value;
      var pw := ReadPassword(ctrl, sb.password, StateboardPasswordKey);
      if pw.Fail? {
        return LoadFailed(pw.error);
      }
      secret := pw.value.secret;
      params := params.(stateboardParams := Some(StateboardParams(sb.uri, pw.value.text)));
    }
    if secret.Some? {
      var err := ctrl.Write(SetOwnerReferenceCall(c.GetName(), secret.value.meta.name));
      if err.Some? {
        return LoadFailed(err.value);
      }
      err := ctrl.Write(UpdateCall(SecretObject(secret.value)));
      if err.Some? {
        return LoadFailed(err.value);
      }
    }
    r := Loaded(params);
  }

  /**
   * ConfigureFailover: load the wanted parameters, read the current ones
   * from the leader, and set them only when they differ.
   */
  function ConfigureFailoverSpec(w: World, s: State, log: seq<Call>): (r: StepOut)
    ensures r.state == s
    ensures !s.obj.ClusterObj? ==> r.ret.Panic?
    ensures r.ret.Return? ==> r.ret == NextStep() || (r.ret.res.None? && r.ret.err.Some?)
    ensures r.ret == NextStep() ==> s.leader.Some? && LoadFailoverParamsSpec(w, s.obj.cluster, log).0.Loaded?
    ensures s.obj.ClusterObj? ==>
      var (loaded, log1) := LoadFailoverParamsSpec(w, s.obj.cluster, log);
      && (r.ret.Panic? <==> loaded.LoadPanic? || (loaded.Loaded? && s.leader.None?))
      && (loaded.LoadFailed? ==> r.ret == ErrorOf(Some(loaded.error)) && r.log == log1)
      && (loaded.Loaded? && s.leader.Some? ==>
            var l := s.leader.value;
            var log2 := log1 + [GetFailoverParamsCall(l.meta.name)];
            var current := GetFailoverParamsAnswer(w.failoverParams(|log1|, l));
            var setErr := SetFailoverParamsError(w.setFailoverParams(|log2|, l, loaded.params));
            && (current.Fail? ==> r.ret == ErrorOf(Some(current.error)) && r.log == log2)
            && (current.Ok? && current.value != loaded.params ==>
                  r.log == log2 + [SetFailoverParamsCall(l.meta.name, loaded.params)] && r.ret == ErrorOf(setErr))
            && (r.ret == NextStep() <==> current.Ok? && (current.value == loaded.params || setErr.None?)))
  {
    if !s.obj.ClusterObj? then StepOut(Panic, s, log)
    else
      var c := s.obj.cluster;
      var (loaded, log1) := LoadFailoverParamsSpec(w, c, log);
      match loaded
      case LoadPanic => StepOut(Panic, s, log1)
      case LoadFailed(e) => StepOut(ErrorOf(Some(e)), s, log1)
      case Loaded(params) =>
        match s.leader
        case None => StepOut(Panic, s, log1)
        case Some(leader) =>
          var log2 := log1 + [GetFailoverParamsCall(leader.meta.name)];
          match GetFailoverParamsAnswer(w.failoverParams(|log1|, leader))
          case Fail(e) => StepOut(ErrorOf(Some(e)), s, log2)
          case Ok(current) =>
            if current == params then StepOut(NextStep(), s, log2)
            else
              var log3 := log2 + [SetFailoverParamsCall(leader.meta.name, params)];
              StepOut(ErrorOf(SetFailoverParamsError(w.setFailoverParams(|log2|, leader, params))), s, log3)
  }

  method ConfigureFailover(ctx: Context, ctrl: Controller) returns (ret: StepReturn)
    requires ctx.ClusterCtx?
    modifies ctrl
    ensures StepOut(ret, ctx.Abs(), ctrl.log) == ConfigureFailoverSpec(ctrl.world, old(ctx.Abs()), old(ctrl.log))
  {
    var cluster := ctx.cc.cluster;
    if cluster == null {
      return Panic;
    }
    var loaded := LoadFailoverParams(ctrl, cluster.Value());
    if loaded.LoadPanic? {
      return Panic;
    }
    if loaded.LoadFailed? {
      return ErrorOf(Some(loaded.error));
    }
    var leader := ctx.Common().GetLeader();
    if leader.None? {
      return Panic;
    }
    var current := ctrl.GetFailoverParams(leader.value);
    var answer := GetFailoverParamsAnswer(current);
    if answer.Fail? {
      return ErrorOf(Some(answer.error));
    }
    if answer.value == loaded.params {
      return NextStep();
    }
    var answerSet := ctrl.SetFailoverParams(leader.value, loaded.params);
    ret := ErrorOf(SetFailoverParamsError(answerSet));
  }

  /** Parameters the leader already has are never set again: the step writes nothing. */
  lemma SameFailoverParamsNotSet(w: World, s: State, log: seq<Call>)
    requires s.obj.ClusterObj? && s.leader.Some?
    requires var (loaded, log1) := LoadFailoverParamsSpec(w, s.obj.cluster, log);
      loaded.Loaded? && w.failoverParams(|log1|, s.leader.value) == Ok(loaded.params)
    ensures var r := ConfigureFailoverSpec(w, s, log);
      r.ret == NextStep() && forall i :: |LoadFailoverParamsSpec(w, s.obj.cluster, log).1| <= i < |r.log| ==> !r.log[i].IsWrite()
  {
  }

  /**
   * An omitted (nil) etcd2 endpoints list is not the empty list the leader may
   * report: `cmp.Equal` tells them apart, so the parameters are set again.
   */
  lemma NilEndpointsAreSet(w: World, s: State, log: seq<Call>)
    requires s.obj.ClusterObj? && s.leader.Some?
    requires var (loaded, log1) := LoadFailoverParamsSpec(w, s.obj.cluster, log);
      && loaded.Loaded? && loaded.params.etcd2Params.Some? && loaded.params.etcd2Params.value.endpoints.None?
      && w.failoverParams(|log1|, s.leader.value)
         == Ok(loaded.params.(etcd2Params := Some(loaded.params.etcd2Params.value.(endpoints := Some([])))))
    ensures var (loaded, log1) := LoadFailoverParamsSpec(w, s.obj.cluster, log);
      var l := s.leader.value;
      ConfigureFailoverSpec(w, s, log).log
        == log1 + [GetFailoverParamsCall(l.meta.name), SetFailoverParamsCall(l.meta.name, loaded.params)]
  {
  }

  /** The parameters set on the leader are exactly the loaded ones. */
  lemma SetParamsAreLoaded(w: World, s: State, log: seq<Call>)
    requires s.obj.ClusterObj? && s.leader.Some?
    ensures var r := ConfigureFailoverSpec(w, s, log);
      forall i :: |log| <= i < |r.log| && r.log[i].SetFailoverParamsCall? ==>
        LoadFailoverParamsSpec(w, s.obj.cluster, log).0 == Loaded(r.log[i].params)
        && r.log[i].pod == s.leader.value.meta.name
  {
    LoadLogHasNoSetParams(w, s.obj.cluster, log);
  }

  /** Loading the parameters never sets them: its calls are secret reads and secret writes. */
  lemma LoadLogHasNoSetParams(w: World, c: ClusterValue, log: seq<Call>)
    ensures var r := LoadFailoverParamsSpec(w, c, log);
      |r.1| >= |log| && r.1[..|log|] == log && forall i :: |log| <= i < |r.1| ==> !r.1[i].SetFailoverParamsCall?
  {
  }

  /** With an etcd2 password in a secret, the password sent is the secret's value under the chosen key. */
  lemma Etcd2PasswordFromSecret(w: World, c: ClusterValue, log: seq<Call>)
    requires var cfg := c.GetFailoverConfig();
      cfg.mode == FailoverModeStateful && cfg.stateProvider == FailoverStateProviderETCD2 && cfg.etcd2.Some?
    requires c.GetFailoverConfig().etcd2.value.password.name != ""
    ensures var ref := c.GetFailoverConfig().etcd2.value.password;
      var r := LoadFailoverParamsSpec(w, c, log).0;
      r.Loaded? ==>
        var sec := w.getSecret(|log|, NamespacedName(ref.namespace, ref.name));
        sec.Ok? && PasswordKey(ref, Etcd2PasswordKey) in sec.value.data
        && r.params.etcd2Params == Some(Etcd2Params(c.GetFailoverConfig().etcd2.value.endpoints,
             c.GetFailoverConfig().etcd2.value.username, sec.value.data[PasswordKey(ref, Etcd2PasswordKey)],
             c.GetFailoverConfig().etcd2.value.lockDelay, c.GetFailoverConfig().etcd2.value.prefix))
  {
  }
}
