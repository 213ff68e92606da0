// The steps of the role controller (pkg/reconciliation/steps/role). A role
// context holds the requested Role; its related cluster is the Cluster named
// by the role's cluster label. The loops over replica-set ordinals,
// StatefulSets and pods are methods proved against recursive functions that
// walk the same nest.

module RoleSteps {
  import opened Wrappers
  import opened Errors
  import opened K8s
  import opened Api
  import opened Topology
  import opened Reconciliation
  import opened Environment
  import opened Contexts
  import opened Utils
  import opened Replicasets
  import opened Text
  import opened Uuid
  import Labels

  /** `log` is a prefix of `ext`. */
  predicate Extends(ext: seq<Call>, log: seq<Call>)
  {
    |log| <= |ext| && ext[..|log|] == log
  }

  /** No call made after position `from` writes anything. */
  predicate NoWritesFrom(calls: seq<Call>, from: nat)
  {
    forall i :: from <= i < |calls| ==> !calls[i].IsWrite()
  }

  // ----- SetPhase, ResetStatus -----

  /** SetPhase: the role's phase becomes `phase`; nothing else changes. */
  function SetRolePhaseSpec(s: State, log: seq<Call>, phase: string): (r: StepOut)
    requires s.Wf()
    ensures r.log == log
    ensures r.ret.Panic? <==> !s.obj.RoleObj?
    ensures r.ret.Panic? ==> r.state == s
    ensures !r.ret.Panic? ==>
      (r.ret == NextStep() && r.state.obj.RoleObj? && r.state.obj.role.GetPhase() == phase
       && r.state.obj.role.meta == s.obj.role.meta && r.state.obj.role.spec == s.obj.role.spec
       && r.state.RelatedCluster() == s.RelatedCluster() && r.state.leader == s.leader)
  {
    match s.obj
    case RoleObj(role) => StepOut(NextStep(), s.UpdateObject(RoleObj(role.SetPhase(phase))), log)
    case _ => StepOut(Panic, s, log)
  }

  /** ResetStatus: the role's status becomes its zero value. */
  function ResetRoleStatusSpec(s: State, log: seq<Call>): (r: StepOut)
    requires s.Wf()
    ensures r.log == log
    ensures r.ret.Panic? <==> !s.obj.RoleObj?
    ensures r.ret.Panic? ==> r.state == s
    ensures !r.ret.Panic? ==>
      (r.ret == NextStep() && r.state.obj.RoleObj? && r.state.obj.role.GetPhase() == ""
       && r.state.obj.role.meta == s.obj.role.meta && r.state.obj.role.spec == s.obj.role.spec
       && r.state.RelatedCluster() == s.RelatedCluster() && r.state.leader == s.leader)
  {
    match s.obj
    case RoleObj(role) => StepOut(NextStep(), s.UpdateObject(RoleObj(role.ResetStatus())), log)
    case _ => StepOut(Panic, s, log)
  }

  method SetRolePhase(ctx: Context, ctrl: Controller, phase: string) returns (ret: StepReturn)
    requires ctx.RoleCtx?
    modifies ctx.Repr()
    ensures ctx.Repr() == old(ctx.Repr())
    ensures StepOut(ret, ctx.Abs(), ctrl.log) == SetRolePhaseSpec(old(ctx.Abs()), old(ctrl.log), phase)
  {
    var role := ctx.rc.role;
    if role == null {
      return Panic;
    }
    role.SetPhase(phase);
    ret := NextStep();
  }

  method ResetRoleStatus(ctx: Context, ctrl: Controller) returns (ret: StepReturn)
    requires ctx.RoleCtx?
    modifies ctx.Repr()
    ensures ctx.Repr() == old(ctx.Repr())
    ensures StepOut(ret, ctx.Abs(), ctrl.log) == ResetRoleStatusSpec(old(ctx.Abs()), old(ctrl.log))
  {
    var role := ctx.rc.role;
    if role == null {
      return Panic;
    }
    role.ResetStatus();
    ret := NextStep();
  }

  // ----- CreateStatefulSets, UpdateStatefulSets -----

  /**
   * CreateStatefulSets: a role being deleted gets no new StatefulSets;
   * otherwise every missing replica set of the role is created.
   */
  function CreateStatefulSetsStepSpec(w: World, s: State, log: seq<Call>): (r: StepOut)
    ensures r.state == s
    ensures s.obj.RoleObj? && s.obj.role.meta.deleting ==> r == StepOut(NextStep(), s, log)
    ensures r.ret.Panic? <==> !s.obj.RoleObj? || (!s.obj.role.meta.deleting && s.RelatedCluster().None?)
    ensures r.ret.Return? ==> r.ret.res.None?
  {
    if !s.obj.RoleObj? then StepOut(Panic, s, log)
    else if s.obj.role.meta.deleting then StepOut(NextStep(), s, log)
    else if s.RelatedCluster().None? then StepOut(Panic, s, log)
    else
      var e := CreateStatefulSetsSpec(w, log, s.RelatedCluster().value.GetName(), s.obj.role);
      StepOut(ErrorOf(e.err), s, e.log)
  }

  method CreateStatefulSetsStep(ctx: Context, ctrl: Controller) returns (ret: StepReturn)
    requires ctx.RoleCtx?
    modifies ctrl
    ensures StepOut(ret, ctx.Abs(), ctrl.log) == CreateStatefulSetsStepSpec(ctrl.world, old(ctx.Abs()), old(ctrl.log))
  {
    var role := ctx.rc.role;
    if role == null {
      return Panic;
    }
    if role.meta.deleting {
      return NextStep();
    }
    var cluster := ctx.Common().GetRelatedCluster();
    if cluster == null {
      return Panic;
    }
    var err := CreateStatefulSets(ctrl, cluster.Value().GetName(), role.Value());
    ret := ErrorOf(err);
  }

  /** UpdateStatefulSets: every StatefulSet of the role is brought in line; an incomplete update stops the pass. */
  function UpdateStatefulSetsStepSpec(w: World, s: State, log: seq<Call>): (r: StepOut)
    ensures r.state == s
    ensures r.ret.Panic? <==> !s.obj.RoleObj? || s.RelatedCluster().None?
    ensures r.ret.Return? ==> r.ret.res.None?
  {
    if !s.obj.RoleObj? || s.RelatedCluster().None? then StepOut(Panic, s, log)
    else
      var u := UpdateStatefulSetsSpec(w, log, s.RelatedCluster().value.GetName(), s.obj.role);
      StepOut(if u.err.Some? || !u.updated then ErrorOf(u.err) else NextStep(), s, u.log)
  }

  method UpdateStatefulSetsStep(ctx: Context, ctrl: Controller) returns (ret: StepReturn)
    requires ctx.RoleCtx?
    modifies ctrl
    ensures StepOut(ret, ctx.Abs(), ctrl.log) == UpdateStatefulSetsStepSpec(ctrl.world, old(ctx.Abs()), old(ctrl.log))
  {
    var role := ctx.rc.role;
    if role == null {
      return Panic;
    }
    var cluster := ctx.Common().GetRelatedCluster();
    if cluster == null {
      return Panic;
    }
    var complete, err := UpdateStatefulSets(ctrl, cluster.Value().GetName(), role.Value());
    if err.Some? || !complete {
      return ErrorOf(err);
    }
    ret := NextStep();
  }

  /**
   * The step stops exactly when the update failed: an incomplete update
   * always carries its error, so the "not complete, no error" case that would
   * let the pass go on silently never happens.
   */
  lemma UpdateStepStopsIffError(w: World, s: State, log: seq<Call>)
    requires s.obj.RoleObj? && s.RelatedCluster().Some?
    ensures var u := UpdateStatefulSetsSpec(w, log, s.RelatedCluster().value.GetName(), s.obj.role);
      var r := UpdateStatefulSetsStepSpec(w, s, log);
      (r.ret == NextStep() <==> u.err.None?) && (r.ret != NextStep() ==> r.ret == ErrorOf(u.err))
  {
    UpdateNeverIncompleteWithoutError(w, log, s.RelatedCluster().value.GetName(), s.obj.role);
  }

  // ----- EnsureCartridgeReady -----

  /** A pod counted as ready: not being deleted, and its default container ready. */
  predicate CountsAsReady(pod: Pod)
  {
    !IsPodDeleting(pod) && IsPodDefaultContainerReady(pod)
  }

  /** The readyCount loop from pod i on, with its int32 counter. */
  function ReadyCountFrom(pods: seq<Pod>, i: nat, count: int32): int32
    requires i <= |pods|
    decreases |pods| - i
  {
    if i == |pods| then count
    else ReadyCountFrom(pods, i + 1, if CountsAsReady(pods[i]) then Wrap32(count + 1) else count)
  }

  /** The number of pods that count as ready. */
  function ReadyPods(pods: seq<Pod>): (n: nat)
    ensures n <= |pods|
  {
    if pods == [] then 0 else (if CountsAsReady(pods[0]) then 1 else 0) + ReadyPods(pods[1..])
  }

  /** Below 2^31 pods the int32 counter does not wrap: it holds the number of ready pods. */
  lemma {:induction false} ReadyCountFromCounts(pods: seq<Pod>, i: nat, count: int32)
    requires i <= |pods| && 0 <= count && count + (|pods| - i) < 0x8000_0000
    ensures ReadyCountFrom(pods, i, count) == count + ReadyPods(pods[i..])
    decreases |pods| - i
  {
    if i < |pods| {
      assert pods[i..][1..] == pods[i + 1..];
      ReadyCountFromCounts(pods, i + 1, if CountsAsReady(pods[i]) then Wrap32(count + 1) else count);
    }
  }

  method CountReadyPods(pods: seq<Pod>) returns (count: int32)
    ensures count == ReadyCountFrom(pods, 0, 0)
  {
    count := 0;
    var i := 0;
    while i < |pods|
      invariant 0 <= i <= |pods|
      invariant ReadyCountFrom(pods, i, count) == ReadyCountFrom(pods, 0, 0)
    {
      if CountsAsReady(pods[i]) {
        count := Wrap32(count + 1);
      }
      i := i + 1;
    }
  }

  /** The pods EnsureCartridgeReady expects: replicasets times replicas, in int32. */
  function ExpectedPods(role: RoleValue): int32
  {
    Wrap32(role.GetReplicasets() * role.GetReplicas())
  }

  /**
   * IsCartridgeReady: list the role's pods in the cluster's namespace; there
   * must be at least as many as expected, and at least as many ready.
   */
  function IsCartridgeReadySpec(w: World, c: ClusterValue, role: RoleValue, log: seq<Call>): (r: (Outcome<bool>, seq<Call>))
    ensures r.1 == log + [ListPodsCall(c.GetNamespace(), Manager.SelectorByRoleName(role.meta))]
    ensures r.0.Fail? <==> w.listPods(|log|, c.GetNamespace(), Manager.SelectorByRoleName(role.meta)).Fail?
  {
    var selector := Manager.SelectorByRoleName(role.meta);
    var log1 := log + [ListPodsCall(c.GetNamespace(), selector)];
    match w.listPods(|log|, c.GetNamespace(), selector)
    case Fail(e) => (Fail(e), log1)
    case Ok(pods) =>
      if ExpectedPods(role) > Wrap32(|pods|) then (Ok(false), log1)
      else (Ok(ReadyCountFrom(pods, 0, 0) >= ExpectedPods(role)), log1)
  }

  /** With a realistic number of pods and no overflow of the product, ready means enough ready pods listed. */
  lemma IsCartridgeReadyMeans(w: World, c: ClusterValue, role: RoleValue, log: seq<Call>)
    requires var pods := w.listPods(|log|, c.GetNamespace(), Manager.SelectorByRoleName(role.meta));
      pods.Ok? && |pods.value| < 0x8000_0000
    requires 0 <= role.GetReplicasets() * role.GetReplicas() < 0x8000_0000
    ensures var pods := w.listPods(|log|, c.GetNamespace(), Manager.SelectorByRoleName(role.meta)).value;
      IsCartridgeReadySpec(w, c, role, log).0
        == Ok(ReadyPods(pods) >= role.GetReplicasets() * role.GetReplicas())
  {
    var pods := w.listPods(|log|, c.GetNamespace(), Manager.SelectorByRoleName(role.meta)).value;
    ReadyCountFromCounts(pods, 0, 0);
    assert pods[0..] == pods;
  }

  method IsCartridgeReady(ctrl: Controller, c: ClusterValue, role: RoleValue) returns (r: Outcome<bool>)
    modifies ctrl
    ensures (r, ctrl.log) == IsCartridgeReadySpec(ctrl.world, c, role, old(ctrl.log))
  {
    var pods := ctrl.ListPods(c.GetNamespace(), Manager.SelectorByRoleName(role.meta));
    if pods.Fail? {
      return Fail(pods.error);
    }
    var expected := Wrap32(role.GetReplicasets() * role.GetReplicas());
    if expected > Wrap32(|pods.value|) {
      return Ok(false);
    }
    var count := CountReadyPods(pods.value);
    r := Ok(count >= expected);
  }

  /**
   * EnsureCartridgeReady: the step returns Error(err) both on a failure and
   * when the pods are not ready; with a nil error that is NextStep.
   */
  function EnsureCartridgeReadySpec(w: World, s: State, log: seq<Call>): (r: StepOut)
    ensures r.state == s
    ensures r.ret.Panic? <==> !s.obj.RoleObj? || s.RelatedCluster().None?
    ensures r.ret.Return? ==> r.ret.res.None?
  {
    if !s.obj.RoleObj? || s.RelatedCluster().None? then StepOut(Panic, s, log)
    else
      var (ready, log1) := IsCartridgeReadySpec(w, s.RelatedCluster().value, s.obj.role, log);
      if ready.Fail? then StepOut(ErrorOf(Some(ready.error)), s, log1)
      else StepOut(if ready.value then NextStep() else ErrorOf(None), s, log1)
  }

  /**
   * Readiness never holds the pass: with the role and its cluster present,
   * the step goes on exactly when the pods could be listed, ready or not, and
   * otherwise stops with the listing error.
   */
  lemma ReadinessNeverHoldsThePass(w: World, s: State, log: seq<Call>)
    requires s.obj.RoleObj? && s.RelatedCluster().Some?
    ensures var ready := IsCartridgeReadySpec(w, s.RelatedCluster().value, s.obj.role, log).0;
      var r := EnsureCartridgeReadySpec(w, s, log);
      (r.ret == NextStep() <==> ready.Ok?) && (ready.Fail? ==> r.ret == ErrorOf(Some(ready.error)))
  {
    ErrorOfNilIsNextStep();
  }

  method EnsureCartridgeReady(ctx: Context, ctrl: Controller) returns (ret: StepReturn)
    requires ctx.RoleCtx?
    modifies ctrl
    ensures StepOut(ret, ctx.Abs(), ctrl.log) == EnsureCartridgeReadySpec(ctrl.world, old(ctx.Abs()), old(ctrl.log))
  {
    var role := ctx.rc.role;
    var cluster := ctx.Common().GetRelatedCluster();
    if role == null || cluster == null {
      return Panic;
    }
    var ready := IsCartridgeReady(ctrl, cluster.Value(), role.Value());
    if ready.Fail? {
      return ErrorOf(Some(ready.error));
    }
    if !ready.value {
      return ErrorOf(None);
    }
    ret := NextStep();
  }

  // ----- Topology calls made by the role steps -----

  /** Topology.Join: the advertise URIs become join servers of one replica-set edit. */
  method Join(ctrl: Controller, leader: Pod, alias: string, uuid: string, roles: seq<string>, weight: int32,
              vshardGroup: string, allRw: bool, uris: seq<string>) returns (err: Option<Error>)
    modifies ctrl
    ensures var edit := JoinRequest(alias, uuid, roles, weight, vshardGroup, allRw, JoinServersOf(uris));
      ctrl.log == old(ctrl.log) + [EditTopologyCall(leader.meta.name, edit)]
      && err == JoinError(AdminEditTopology(ctrl.world.editTopology(|old(ctrl.log)|, leader, edit)))
  {
    var servers := BuildJoinServers(uris);
    var call := ctrl.EditTopology(leader, JoinRequest(alias, uuid, roles, weight, vshardGroup, allRw, servers));
    err := JoinError(AdminEditTopology(call));
  }

  /** Topology.SetReplicasetRoles. */
  method SetReplicasetRoles(ctrl: Controller, leader: Pod, uuid: string, roles: seq<string>) returns (err: Option<Error>)
    modifies ctrl
    ensures ctrl.log == old(ctrl.log) + [EditTopologyCall(leader.meta.name, SetReplicasetRolesRequest(uuid, roles))]
    ensures err == SetReplicasetRolesError(AdminEditTopology(
      ctrl.world.editTopology(|old(ctrl.log)|, leader, SetReplicasetRolesRequest(uuid, roles))))
  {
    var call := ctrl.EditTopology(leader, SetReplicasetRolesRequest(uuid, roles));
    err := SetReplicasetRolesError(AdminEditTopology(call));
  }

  // ----- JoinInstances -----

  /** What the join walk works on: the related cluster (possibly nil) and the role. */
  datatype Joining = Joining(cluster: Option<ClusterValue>, role: RoleValue)

  /** Why the join walk stopped early. */
  datatype JoinStop = JoinFailed(error: Error) | JoinPanicked | JoinConfigError

  /** The state of the join walk: an early stop, allJoined, the URIs gathered for the current replica set, the log. */
  datatype Walk = Walk(stop: Option<JoinStop>, allJoined: bool, uris: seq<string>, log: seq<Call>)

  /** The pod lookup at position n found a running pod that is not being deleted. */
  predicate PodFoundReady(w: World, n: nat, key: NamespacedName)
  {
    var got := w.getPod(n, key);
    got.Ok? && IsPodRunning(got.value) && !IsPodDeleting(got.value)
  }

  /** Every pod looked up from position `from` on was found running and not being deleted. */
  predicate PodsFoundReadyFrom(w: World, calls: seq<Call>, from: nat)
  {
    forall i :: from <= i < |calls| && calls[i].GetPodCall? ==> PodFoundReady(w, i, calls[i].key)
  }

  /**
   * What the scan of a replica set's pods promises: it extends the log with
   * reads only, never turns allJoined back on, keeps it on only when every
   * pod it looked up was found running, and panics only on a nil cluster.
   */
  predicate ScanFacts(w: World, j: Joining, log: seq<Call>, allJoined: bool, r: Walk)
  {
    Extends(r.log, log) && NoWritesFrom(r.log, |log|)
    && (r.allJoined ==> allJoined)
    && (r.stop == Some(JoinPanicked) ==> j.cluster.None?)
    && (r.stop.Some? ==> r.stop.value != JoinConfigError)
    && (r.stop.None? && r.allJoined ==> PodsFoundReadyFrom(w, r.log, |log|))
  }

  /** ScanFacts of two consecutive parts of a scan give ScanFacts of the whole. */
  lemma ScanFactsChain(w: World, j: Joining, log: seq<Call>, allJoined: bool, mid: Walk, end: Walk)
    requires ScanFacts(w, j, log, allJoined, mid) && mid.stop.None?
    requires ScanFacts(w, j, mid.log, mid.allJoined, end)
    ensures ScanFacts(w, j, log, allJoined, end)
  {
    forall i | |log| <= i < |mid.log|
      ensures end.log[i] == mid.log[i]
    {
      assert end.log[..|mid.log|][i] == mid.log[i];
    }
  }

  /**
   * The pod loop of one StatefulSet from pod p on. A missing pod, or one not
   * running or being deleted, clears allJoined and the gathered URIs and ends
   * the loop; an instance without a UUID is not joined yet and its advertise
   * URI is gathered.
   */
  function PodsFrom(w: World, j: Joining, stsName: string, p: nat, allJoined: bool, uris: seq<string>,
                    log: seq<Call>): Walk
    decreases j.role.GetReplicas() - p
  {
    if p >= j.role.GetReplicas() then Walk(None, allJoined, uris, log)
    else
      var key := NamespacedName(j.role.GetNamespace(), GetStatefulSetPodName(stsName, p));
      var log1 := log + [GetPodCall(key)];
      var got := w.getPod(|log|, key);
      if got.Fail? then
        if got.error.IsNotFound() then Walk(None, false, [], log1) else Walk(Some(JoinFailed(got.error)), allJoined, uris, log1)
      else if !IsPodRunning(got.value) || IsPodDeleting(got.value) then Walk(None, false, [], log1)
      else
        var pod := got.value;
        var log2 := log1 + [InstanceUUIDCall(pod.meta.name)];
        var uuid := w.instanceUUID(|log1|, pod);
        if uuid.Fail? then Walk(Some(JoinFailed(uuid.error)), allJoined, uris, log2)
        else if uuid.value != "" then PodsFrom(w, j, stsName, p + 1, allJoined, uris, log2)
        else if j.cluster.None? then Walk(Some(JoinPanicked), allJoined, uris, log2)
        else PodsFrom(w, j, stsName, p + 1, allJoined, uris + [GetAdvertiseURI(j.cluster.value, pod)], log2)
  }

  /** A part of the scan that only reads, and looks up no pod while allJoined stays on, keeps ScanFacts. */
  lemma ScanOfReads(w: World, j: Joining, log: seq<Call>, allJoined: bool, r: Walk, ext: seq<Call>)
    requires r.log == log + ext
    requires forall c | c in ext :: !c.IsWrite()
    requires r.allJoined ==> allJoined
    requires r.stop == Some(JoinPanicked) ==> j.cluster.None?
    requires r.stop.Some? ==> r.stop.value != JoinConfigError
    requires r.stop.None? && r.allJoined ==> forall c | c in ext :: !c.GetPodCall?
    ensures ScanFacts(w, j, log, allJoined, r)
  {
    assert r.log[..|log|] == log;
    forall i | |log| <= i < |r.log|
      ensures r.log[i] in ext
    {
      assert r.log[i] == ext[i - |log|];
    }
  }

  /** Looking up a running pod and reading its UUID keeps ScanFacts. */
  lemma ScanOfReadyPod(w: World, j: Joining, log: seq<Call>, allJoined: bool, uris: seq<string>, key: NamespacedName,
                       podName: string)
    requires PodFoundReady(w, |log|, key)
    ensures ScanFacts(w, j, log, allJoined, Walk(None, allJoined, uris, log + [GetPodCall(key)] + [InstanceUUIDCall(podName)]))
  {
    var log2 := log + [GetPodCall(key)] + [InstanceUUIDCall(podName)];
    assert log2[..|log|] == log;
    assert log2[|log|] == GetPodCall(key) && log2[|log| + 1] == InstanceUUIDCall(podName);
  }

  lemma {:induction false} PodsFromFacts(w: World, j: Joining, stsName: string, p: nat, allJoined: bool,
                                         uris: seq<string>, log: seq<Call>)
    ensures ScanFacts(w, j, log, allJoined, PodsFrom(w, j, stsName, p, allJoined, uris, log))
    decreases j.role.GetReplicas() - p
  {
    var r := PodsFrom(w, j, stsName, p, allJoined, uris, log);
    if p >= j.role.GetReplicas() {
      ScanOfReads(w, j, log, allJoined, r, []);
    } else {
      var key := NamespacedName(j.role.GetNamespace(), GetStatefulSetPodName(stsName, p));
      var got := w.getPod(|log|, key);
      if got.Fail? || !IsPodRunning(got.value) || IsPodDeleting(got.value) {
        ScanOfReads(w, j, log, allJoined, r, [GetPodCall(key)]);
      } else {
        var pod := got.value;
        var log2 := log + [GetPodCall(key)] + [InstanceUUIDCall(pod.meta.name)];
        var uuid := w.instanceUUID(|log| + 1, pod);
        if uuid.Fail? || (uuid.value == "" && j.cluster.None?) {
          ScanOfReads(w, j, log, allJoined, r, [GetPodCall(key), InstanceUUIDCall(pod.meta.name)]);
        } else {
          var uris' := if uuid.value != "" then uris else uris + [GetAdvertiseURI(j.cluster.value, pod)];
          assert r == PodsFrom(w, j, stsName, p + 1, allJoined, uris', log2);
          ScanOfReadyPod(w, j, log, allJoined, uris', key, pod.meta.name);
          PodsFromFacts(w, j, stsName, p + 1, allJoined, uris', log2);
          ScanFactsChain(w, j, log, allJoined, Walk(None, allJoined, uris', log2), r);
        }
      }
    }
  }

  /** The StatefulSet loop of one replica set from item i on; StatefulSets being deleted are skipped. */
  function ItemsFrom(w: World, j: Joining, items: seq<StatefulSetValue>, i: nat, allJoined: bool,
                     uris: seq<string>, log: seq<Call>): Walk
    requires i <= |items|
    decreases |items| - i
  {
    if i == |items| then Walk(None, allJoined, uris, log)
    else if items[i].meta.deleting then ItemsFrom(w, j, items, i + 1, allJoined, uris, log)
    else
      var r := PodsFrom(w, j, items[i].meta.name, 0, allJoined, uris, log);
      if r.stop.Some? then r
      else ItemsFrom(w, j, items, i + 1, r.allJoined, r.uris, r.log)
  }

  lemma {:induction false} ItemsFromFacts(w: World, j: Joining, items: seq<StatefulSetValue>, i: nat, allJoined: bool,
                                          uris: seq<string>, log: seq<Call>)
    requires i <= |items|
    ensures ScanFacts(w, j, log, allJoined, ItemsFrom(w, j, items, i, allJoined, uris, log))
    decreases |items| - i
  {
    if i == |items| {
      assert log[..|log|] == log;
    } else if items[i].meta.deleting {
      ItemsFromFacts(w, j, items, i + 1, allJoined, uris, log);
    } else {
      var r := PodsFrom(w, j, items[i].meta.name, 0, allJoined, uris, log);
      PodsFromFacts(w, j, items[i].meta.name, 0, allJoined, uris, log);
      if r.stop.None? {
        ItemsFromFacts(w, j, items, i + 1, r.allJoined, r.uris, r.log);
        ScanFactsChain(w, j, log, allJoined, r, ItemsFrom(w, j, items, i + 1, r.allJoined, r.uris, r.log));
      }
    }
  }

  /** A call that joins a batch of instances of the role to a replica set of it, through the leader. */
  predicate JoinWrite(role: RoleValue, leader: Option<Pod>, call: Call)
  {
    call.EditTopologyCall? && leader.Some? && call.pod == leader.value.meta.name
    && call.edit.servers == [] && |call.edit.replicasets| == 1
    && var rs := call.edit.replicasets[0];
      rs.roles == role.GetVShardConfig().clusterRoles && rs.weight == role.GetVShardConfig().weight
      && rs.vshardGroup == role.GetVShardConfig().groupName && rs.allRw == role.IsAllRw()
      && |rs.joinServers| > 0
  }

  /** Every call written from position `from` on is a join of the role. */
  predicate OnlyJoinsFrom(role: RoleValue, leader: Option<Pod>, calls: seq<Call>, from: nat)
  {
    forall i :: from <= i < |calls| && calls[i].IsWrite() ==> JoinWrite(role, leader, calls[i])
  }

  /** What a replica-set round and the ordinal loop promise. */
  predicate JoinFacts(w: World, j: Joining, leader: Option<Pod>, log: seq<Call>, allJoined: bool, r: Walk)
  {
    Extends(r.log, log) && OnlyJoinsFrom(j.role, leader, r.log, |log|)
    && (r.allJoined ==> allJoined)
    && (r.stop == Some(JoinPanicked) ==> j.cluster.None? || leader.None?)
    && (r.stop.None? && r.allJoined ==> PodsFoundReadyFrom(w, r.log, |log|))
  }

  lemma JoinFactsChain(w: World, j: Joining, leader: Option<Pod>, log: seq<Call>, allJoined: bool, mid: Walk, end: Walk)
    requires JoinFacts(w, j, leader, log, allJoined, mid) && mid.stop.None?
    requires JoinFacts(w, j, leader, mid.log, mid.allJoined, end)
    ensures JoinFacts(w, j, leader, log, allJoined, end)
  {
    forall i | |log| <= i < |mid.log|
      ensures end.log[i] == mid.log[i]
    {
      assert end.log[..|mid.log|][i] == mid.log[i];
    }
  }

  /** The edit Join sends for a batch of advertise URIs. */
  function JoinEdit(role: RoleValue, ordinal: nat, sha1: seq<byte> -> Digest, uris: seq<string>): (e: EditTopologyParams)
    ensures e.servers == [] && |e.replicasets| == 1
    ensures var rs := e.replicasets[0]; var v := role.GetVShardConfig();
      rs.uuid == GetReplicasetUUID(role.GetName(), ordinal, sha1) && rs.alias == role.GetReplicasetName(ordinal).0
      && rs.roles == v.clusterRoles && rs.weight == v.weight && rs.vshardGroup == v.groupName
      && rs.allRw == role.IsAllRw() && |rs.joinServers| == |uris| && rs.joinServers == JoinServersOf(uris)
  {
    var v := role.GetVShardConfig();
    JoinServersOfEntries(uris);
    JoinRequest(role.GetReplicasetName(ordinal).0, GetReplicasetUUID(role.GetName(), ordinal, sha1),
                v.clusterRoles, v.weight, v.groupName, role.IsAllRw(), JoinServersOf(uris))
  }

  /**
   * Joining a gathered batch: the leader must itself be a joined instance
   * (its URI is in the batch, or it reports a UUID) before the batch is joined
   * through it.
   */
  function JoinBatch(w: World, j: Joining, leader: Option<Pod>, ordinal: nat, allJoined: bool, uris: seq<string>,
                     log: seq<Call>): Walk
  {
    if leader.None? || j.cluster.None? then Walk(Some(JoinPanicked), allJoined, uris, log)
    else
      var l := leader.value;
      if GetAdvertiseURI(j.cluster.value, l) in uris then JoinThroughLeader(w, j, l, ordinal, allJoined, uris, log)
      else
        var log1 := log + [InstanceUUIDCall(l.meta.name)];
        var uuid := w.instanceUUID(|log|, l);
        if uuid.Fail? then Walk(Some(JoinFailed(uuid.error)), allJoined, uris, log1)
        else if uuid.value == "" then Walk(None, false, uris, log1)
        else JoinThroughLeader(w, j, l, ordinal, allJoined, uris, log1)
  }

  /** The Join call itself; an unknown vshard role is a configuration error. */
  function JoinThroughLeader(w: World, j: Joining, l: Pod, ordinal: nat, allJoined: bool, uris: seq<string>,
                             log: seq<Call>): Walk
  {
    var edit := JoinEdit(j.role, ordinal, w.sha1, uris);
    var log1 := log + [EditTopologyCall(l.meta.name, edit)];
    match JoinError(AdminEditTopology(w.editTopology(|log|, l, edit)))
    case None => Walk(None, allJoined, uris, log1)
    case Some(e) => Walk(Some(if e.AsUnknownRole().Some? then JoinConfigError else JoinFailed(e)), allJoined, uris, log1)
  }

  /** A part of a round whose only writes are joins, and which looks up no pod while allJoined stays on, keeps JoinFacts. */
  lemma JoinOfCalls(w: World, j: Joining, leader: Option<Pod>, log: seq<Call>, allJoined: bool, r: Walk, ext: seq<Call>)
    requires r.log == log + ext
    requires forall c | c in ext && c.IsWrite() :: JoinWrite(j.role, leader, c)
    requires r.allJoined ==> allJoined
    requires r.stop == Some(JoinPanicked) ==> j.cluster.None? || leader.None?
    requires r.stop.None? && r.allJoined ==> forall c | c in ext :: !c.GetPodCall?
    ensures JoinFacts(w, j, leader, log, allJoined, r)
  {
    assert r.log[..|log|] == log;
    forall i | |log| <= i < |r.log|
      ensures r.log[i] in ext
    {
      assert r.log[i] == ext[i - |log|];
    }
  }

  lemma JoinThroughLeaderFacts(w: World, j: Joining, l: Pod, ordinal: nat, allJoined: bool, uris: seq<string>,
                                log: seq<Call>)
    requires |uris| > 0
    ensures JoinFacts(w, j, Some(l), log, allJoined, JoinThroughLeader(w, j, l, ordinal, allJoined, uris, log))
  {
    var call := EditTopologyCall(l.meta.name, JoinEdit(j.role, ordinal, w.sha1, uris));
    assert JoinWrite(j.role, Some(l), call);
    JoinOfCalls(w, j, Some(l), log, allJoined, JoinThroughLeader(w, j, l, ordinal, allJoined, uris, log), [call]);
  }

  lemma JoinBatchFacts(w: World, j: Joining, leader: Option<Pod>, ordinal: nat, allJoined: bool, uris: seq<string>,
                       log: seq<Call>)
    requires |uris| > 0
    ensures JoinFacts(w, j, leader, log, allJoined, JoinBatch(w, j, leader, ordinal, allJoined, uris, log))
  {
    var r := JoinBatch(w, j, leader, ordinal, allJoined, uris, log);
    if leader.None? || j.cluster.None? {
      JoinOfCalls(w, j, leader, log, allJoined, r, []);
    } else {
      var l := leader.value;
      var ext := [InstanceUUIDCall(l.meta.name)];
      if GetAdvertiseURI(j.cluster.value, l) in uris {
        JoinThroughLeaderFacts(w, j, l, ordinal, allJoined, uris, log);
      } else if w.instanceUUID(|log|, l).Fail? || w.instanceUUID(|log|, l).value == "" {
        JoinOfCalls(w, j, leader, log, allJoined, r, ext);
      } else {
        var mid := Walk(None, allJoined, uris, log + ext);
        JoinOfCalls(w, j, leader, log, allJoined, mid, ext);
        JoinThroughLeaderFacts(w, j, l, ordinal, allJoined, uris, log + ext);
        JoinFactsChain(w, j, leader, log, allJoined, mid, r);
      }
    }
  }

  /** One replica set: list its StatefulSets, gather the URIs of instances not joined yet, and join them. */
  function ReplicasetJoin(w: World, j: Joining, leader: Option<Pod>, ordinal: nat, allJoined: bool, log: seq<Call>): Walk
  {
    var selector := Manager.SelectorByReplicasetOrdinal(j.role.meta, ordinal);
    var log1 := log + [ListStatefulSetsCall(j.role.GetNamespace(), selector)];
    var items := w.listStatefulSets(|log|, j.role.GetNamespace(), selector);
    if items.Fail? then Walk(Some(JoinFailed(items.error)), allJoined, [], log1)
    else
      var r := ItemsFrom(w, j, items.value, 0, allJoined, [], log1);
      if r.stop.Some? || |r.uris| == 0 then r
      else JoinBatch(w, j, leader, ordinal, r.allJoined, r.uris, r.log)
  }

  lemma ReplicasetJoinFacts(w: World, j: Joining, leader: Option<Pod>, ordinal: nat, allJoined: bool, log: seq<Call>)
    ensures JoinFacts(w, j, leader, log, allJoined, ReplicasetJoin(w, j, leader, ordinal, allJoined, log))
  {
    var selector := Manager.SelectorByReplicasetOrdinal(j.role.meta, ordinal);
    var log1 := log + [ListStatefulSetsCall(j.role.GetNamespace(), selector)];
    var items := w.listStatefulSets(|log|, j.role.GetNamespace(), selector);
    assert log1[..|log|] == log;
    var mid := Walk(None, allJoined, [], log1);
    assert JoinFacts(w, j, leader, log, allJoined, mid);
    if items.Ok? {
      var r := ItemsFrom(w, j, items.value, 0, allJoined, [], log1);
      ItemsFromFacts(w, j, items.value, 0, allJoined, [], log1);
      assert JoinFacts(w, j, leader, log1, allJoined, r);
      JoinFactsChain(w, j, leader, log, allJoined, mid, r);
      if r.stop.None? && |r.uris| > 0 {
        JoinBatchFacts(w, j, leader, ordinal, r.allJoined, r.uris, r.log);
        JoinFactsChain(w, j, leader, log, allJoined, r, JoinBatch(w, j, leader, ordinal, r.allJoined, r.uris, r.log));
      }
    }
  }

  /** The ordinal loop from `ordinal` on; the first early stop ends it. */
  function OrdinalsFrom(w: World, j: Joining, leader: Option<Pod>, ordinal: nat, allJoined: bool, log: seq<Call>): Walk
    decreases j.role.GetReplicasets() - ordinal
  {
    if ordinal >= j.role.GetReplicasets() then Walk(None, allJoined, [], log)
    else
      var r := ReplicasetJoin(w, j, leader, ordinal, allJoined, log);
      if r.stop.Some? then r
      else OrdinalsFrom(w, j, leader, ordinal + 1, r.allJoined, r.log)
  }

  lemma {:induction false} OrdinalsFromFacts(w: World, j: Joining, leader: Option<Pod>, ordinal: nat, allJoined: bool,
                                             log: seq<Call>)
    ensures JoinFacts(w, j, leader, log, allJoined, OrdinalsFrom(w, j, leader, ordinal, allJoined, log))
    decreases j.role.GetReplicasets() - ordinal
  {
    if ordinal >= j.role.GetReplicasets() {
      assert log[..|log|] == log;
    } else {
      var r := ReplicasetJoin(w, j, leader, ordinal, allJoined, log);
      ReplicasetJoinFacts(w, j, leader, ordinal, allJoined, log);
      if r.stop.None? {
        OrdinalsFromFacts(w, j, leader, ordinal + 1, r.allJoined, r.log);
        JoinFactsChain(w, j, leader, log, allJoined, r, OrdinalsFrom(w, j, leader, ordinal + 1, r.allJoined, r.log));
      }
    }
  }

  // ----- JoinInstances: what each answer decides -----

  /** The call just before position n looked up a pod and found it running and not being deleted. */
  predicate AfterReadyPod(w: World, calls: seq<Call>, n: nat)
  {
    0 < n <= |calls| && calls[n - 1].GetPodCall? && PodFoundReady(w, n - 1, calls[n - 1].key)
  }

  /**
   * The instance a UUID probe at n asks about: the pod found ready just
   * before it, or else the leader, whose probe never follows such a lookup.
   */
  function ProbedPod(w: World, leader: Option<Pod>, calls: seq<Call>, n: nat): Option<Pod>
  {
    if AfterReadyPod(w, calls, n) then Some(w.getPod(n - 1, calls[n - 1].key).value) else leader
  }

  /** The error the join step returns on the answer to the call at n; None when it carries on past it. */
  function JoinCallError(w: World, leader: Option<Pod>, calls: seq<Call>, n: nat): Option<Error>
    requires n < |calls|
  {
    match calls[n]
    case ListStatefulSetsCall(ns, selector) =>
      var a := w.listStatefulSets(n, ns, selector);
      if a.Fail? then Some(a.error) else None
    case GetPodCall(key) =>
      var got := w.getPod(n, key);
      if got.Fail? && !got.error.IsNotFound() then Some(got.error) else None
    case InstanceUUIDCall(_) =>
      var pod := ProbedPod(w, leader, calls, n);
      if pod.Some? && w.instanceUUID(n, pod.value).Fail? then Some(w.instanceUUID(n, pod.value).error) else None
    case EditTopologyCall(_, edit) =>
      if leader.Some? then JoinError(AdminEditTopology(w.editTopology(n, leader.value, edit))) else None
    case _ => None
  }

  /** The call at n is a join that failed with an unknown vshard role. */
  predicate UnknownRoleAt(w: World, leader: Option<Pod>, calls: seq<Call>, n: nat)
    requires n < |calls|
  {
    calls[n].EditTopologyCall? && JoinCallError(w, leader, calls, n).Some?
    && JoinCallError(w, leader, calls, n).value.AsUnknownRole().Some?
  }

  /** The leader's own probe at n answered that the leader has no UUID yet. */
  predicate LeaderUnjoinedAt(w: World, leader: Option<Pod>, calls: seq<Call>, n: nat)
    requires n < |calls|
  {
    calls[n].InstanceUUIDCall? && !AfterReadyPod(w, calls, n) && leader.Some?
    && w.instanceUUID(n, leader.value) == Ok("")
  }

  /** The probe at n found a ready pod with no UUID yet, whose advertise URI is u. */
  predicate GatheredAt(w: World, c: ClusterValue, calls: seq<Call>, n: nat, u: string)
    requires n < |calls|
  {
    calls[n].InstanceUUIDCall? && AfterReadyPod(w, calls, n)
    && var pod := w.getPod(n - 1, calls[n - 1].key).value;
      w.instanceUUID(n, pod) == Ok("") && u == GetAdvertiseURI(c, pod)
  }

  /** Some probe in [from, to) gathered u. */
  ghost predicate GatheredBetween(w: World, c: ClusterValue, calls: seq<Call>, from: nat, to: nat, u: string)
  {
    exists n :: from <= n < to && n < |calls| && GatheredAt(w, c, calls, n, u)
  }

  ghost predicate UrisGathered(w: World, c: ClusterValue, calls: seq<Call>, from: nat, to: nat, uris: seq<string>)
  {
    forall k :: 0 <= k < |uris| ==> GatheredBetween(w, c, calls, from, to, uris[k])
  }

  ghost predicate ServersGathered(w: World, c: ClusterValue, calls: seq<Call>, from: nat, to: nat,
                                  servers: seq<JoinServerParams>)
  {
    && |servers| > 0
    && forall k :: 0 <= k < |servers| ==> GatheredBetween(w, c, calls, from, to, servers[k].uri)
  }

  /** Every join sent from `from` on names at least one server, and only URIs that probes from `base` on, before it, gathered. */
  ghost predicate JoinsGathered(w: World, c: ClusterValue, calls: seq<Call>, base: nat, from: nat)
  {
    forall n :: from <= n < |calls| && calls[n].EditTopologyCall? ==>
      forall rs | rs in calls[n].edit.replicasets :: ServersGathered(w, c, calls, base, n, rs.joinServers)
  }

  /** No call from `from` on failed. */
  ghost predicate JoinNoFailure(w: World, leader: Option<Pod>, calls: seq<Call>, from: nat)
  {
    forall n :: from <= n < |calls| ==> JoinCallError(w, leader, calls, n).None?
  }

  /** No probe of the leader from `from` on found it without a UUID. */
  ghost predicate NoLeaderUnjoinedFrom(w: World, leader: Option<Pod>, calls: seq<Call>, from: nat)
  {
    forall n :: from <= n < |calls| ==> !LeaderUnjoinedAt(w, leader, calls, n)
  }

  /**
   * How the walk from `from` on stopped: only its last call can have
   * failed; it goes on or panics only with no failure; otherwise the last
   * call failed, the stop is the configuration error exactly when that call
   * is a join failing with an unknown vshard role, and a failure stop
   * carries that call's error.
   */
  ghost predicate JoinStopDecided(w: World, leader: Option<Pod>, calls: seq<Call>, from: nat, stop: Option<JoinStop>)
  {
    && (forall n :: from <= n < |calls| - 1 ==> JoinCallError(w, leader, calls, n).None?)
    && (stop.None? || stop == Some(JoinPanicked) ==> JoinNoFailure(w, leader, calls, from))
    && (stop.Some? && stop != Some(JoinPanicked) ==>
          && from < |calls| && JoinCallError(w, leader, calls, |calls| - 1).Some?
          && (stop == Some(JoinConfigError) <==> UnknownRoleAt(w, leader, calls, |calls| - 1))
          && (stop.value.JoinFailed? ==> JoinCallError(w, leader, calls, |calls| - 1) == Some(stop.value.error)))
  }

  /** allJoined' is allJoined, kept on exactly when every pod looked up was ready and the leader never lacked a UUID. */
  ghost predicate JoinedDecided(w: World, leader: Option<Pod>, calls: seq<Call>, from: nat, allJoined: bool,
                                allJoined': bool)
  {
    allJoined' <==> allJoined && PodsFoundReadyFrom(w, calls, from) && NoLeaderUnjoinedFrom(w, leader, calls, from)
  }

  /** What the answers decided about a part of the join walk that starts at log. */
  ghost predicate WalkDecided(w: World, j: Joining, leader: Option<Pod>, log: seq<Call>, base: nat, allJoined: bool,
                              r: Walk)
  {
    && Extends(r.log, log) && base <= |log|
    && JoinStopDecided(w, leader, r.log, |log|, r.stop)
    && (r.stop.None? ==> JoinedDecided(w, leader, r.log, |log|, allJoined, r.allJoined))
    && (j.cluster.Some? ==> JoinsGathered(w, j.cluster.value, r.log, base, |log|))
  }

  /** What the answer at n decides depends only on the calls up to n. */
  lemma JoinCallStable(w: World, leader: Option<Pod>, mid: seq<Call>, end: seq<Call>, n: nat)
    requires n < |mid| <= |end| && end[..|mid|] == mid
    ensures end[n] == mid[n] && AfterReadyPod(w, end, n) == AfterReadyPod(w, mid, n)
    ensures JoinCallError(w, leader, end, n) == JoinCallError(w, leader, mid, n)
    ensures LeaderUnjoinedAt(w, leader, end, n) == LeaderUnjoinedAt(w, leader, mid, n)
    ensures forall c, u :: GatheredAt(w, c, end, n, u) == GatheredAt(w, c, mid, n, u)
  {
    assert end[..|mid|][n] == mid[n];
    if n > 0 {
      assert end[..|mid|][n - 1] == mid[n - 1];
    }
  }

  lemma GatheredGrows(w: World, c: ClusterValue, mid: seq<Call>, end: seq<Call>, from0: nat, from: nat, to: nat,
                      to1: nat, u: string)
    requires |mid| <= |end| && end[..|mid|] == mid && from0 <= from && to <= to1
    requires GatheredBetween(w, c, mid, from, to, u)
    ensures GatheredBetween(w, c, end, from0, to1, u)
  {
    var n :| from <= n < to && n < |mid| && GatheredAt(w, c, mid, n, u);
    JoinCallStable(w, None, mid, end, n);
    assert GatheredAt(w, c, end, n, u);
  }

  lemma UrisGatheredGrows(w: World, c: ClusterValue, mid: seq<Call>, end: seq<Call>, from0: nat, from: nat, to: nat,
                          to1: nat, uris: seq<string>)
    requires |mid| <= |end| && end[..|mid|] == mid && from0 <= from && to <= to1
    requires UrisGathered(w, c, mid, from, to, uris)
    ensures UrisGathered(w, c, end, from0, to1, uris)
  {
    forall k | 0 <= k < |uris|
      ensures GatheredBetween(w, c, end, from0, to1, uris[k])
    {
      GatheredGrows(w, c, mid, end, from0, from, to, to1, uris[k]);
    }
  }

  lemma JoinStopChain(w: World, leader: Option<Pod>, log: seq<Call>, mid: seq<Call>, end: seq<Call>,
                      stop: Option<JoinStop>)
    requires |log| <= |mid| <= |end| && end[..|mid|] == mid
    requires JoinNoFailure(w, leader, mid, |log|) && JoinStopDecided(w, leader, end, |mid|, stop)
    ensures JoinStopDecided(w, leader, end, |log|, stop)
  {
    forall n | |log| <= n < |mid|
      ensures JoinCallError(w, leader, end, n).None?
    {
      JoinCallStable(w, leader, mid, end, n);
    }
  }

  lemma JoinedChain(w: World, leader: Option<Pod>, log: seq<Call>, mid: seq<Call>, end: seq<Call>,
                    a0: bool, a1: bool, a2: bool)
    requires |log| <= |mid| <= |end| && end[..|mid|] == mid
    requires JoinedDecided(w, leader, mid, |log|, a0, a1) && JoinedDecided(w, leader, end, |mid|, a1, a2)
    ensures JoinedDecided(w, leader, end, |log|, a0, a2)
  {
    forall n | |log| <= n < |mid|
      ensures end[n] == mid[n] && LeaderUnjoinedAt(w, leader, end, n) == LeaderUnjoinedAt(w, leader, mid, n)
    {
      JoinCallStable(w, leader, mid, end, n);
    }
  }

  lemma GatheredChain(w: World, c: ClusterValue, log: seq<Call>, base: nat, mid: seq<Call>, end: seq<Call>)
    requires |log| <= |mid| <= |end| && end[..|mid|] == mid
    requires JoinsGathered(w, c, mid, base, |log|) && JoinsGathered(w, c, end, base, |mid|)
    ensures JoinsGathered(w, c, end, base, |log|)
  {
    forall n, rs | |log| <= n < |mid| && end[n].EditTopologyCall? && rs in end[n].edit.replicasets
      ensures ServersGathered(w, c, end, base, n, rs.joinServers)
    {
      JoinCallStable(w, None, mid, end, n);
      forall k | 0 <= k < |rs.joinServers|
        ensures GatheredBetween(w, c, end, base, n, rs.joinServers[k].uri)
      {
        GatheredGrows(w, c, mid, end, base, base, n, n, rs.joinServers[k].uri);
      }
    }
  }

  lemma WalkDecidedChain(w: World, j: Joining, leader: Option<Pod>, log: seq<Call>, base: nat, allJoined: bool,
                         mid: Walk, end: Walk)
    requires WalkDecided(w, j, leader, log, base, allJoined, mid) && mid.stop.None?
    requires WalkDecided(w, j, leader, mid.log, base, mid.allJoined, end)
    ensures WalkDecided(w, j, leader, log, base, allJoined, end)
  {
    assert end.log[..|log|] == log by {
      assert end.log[..|mid.log|][..|log|] == end.log[..|log|];
    }
    JoinStopChain(w, leader, log, mid.log, end.log, end.stop);
    if end.stop.None? {
      JoinedChain(w, leader, log, mid.log, end.log, allJoined, mid.allJoined, end.allJoined);
    }
    if j.cluster.Some? {
      GatheredChain(w, j.cluster.value, log, base, mid.log, end.log);
    }
  }

  /** A part that starts further on decides the same from an earlier base. */
  lemma WalkDecidedWiden(w: World, j: Joining, leader: Option<Pod>, log: seq<Call>, b0: nat, b1: nat,
                         allJoined: bool, r: Walk)
    requires WalkDecided(w, j, leader, log, b1, allJoined, r) && b0 <= b1
    ensures WalkDecided(w, j, leader, log, b0, allJoined, r)
  {
    if j.cluster.Some? {
      var c := j.cluster.value;
      forall n, rs | |log| <= n < |r.log| && r.log[n].EditTopologyCall? && rs in r.log[n].edit.replicasets
        ensures ServersGathered(w, c, r.log, b0, n, rs.joinServers)
      {
        assert r.log[..|r.log|] == r.log;
        forall k | 0 <= k < |rs.joinServers|
          ensures GatheredBetween(w, c, r.log, b0, n, rs.joinServers[k].uri)
        {
          GatheredGrows(w, c, r.log, r.log, b0, b1, n, n, rs.joinServers[k].uri);
        }
      }
    }
  }

  lemma WalkDecidedEmpty(w: World, j: Joining, leader: Option<Pod>, log: seq<Call>, base: nat, allJoined: bool,
                         stop: Option<JoinStop>, uris: seq<string>)
    requires base <= |log| && (stop.None? || stop == Some(JoinPanicked))
    ensures WalkDecided(w, j, leader, log, base, allJoined, Walk(stop, allJoined, uris, log))
  {
    assert log[..|log|] == log;
  }

  /** A pod lookup that does not find a ready pod: a missing one clears allJoined, another failure stops the walk. */
  lemma PodMissingDecided(w: World, j: Joining, leader: Option<Pod>, key: NamespacedName, allJoined: bool,
                          uris: seq<string>, log: seq<Call>, base: nat)
    requires base <= |log| && !PodFoundReady(w, |log|, key)
    ensures var log1 := log + [GetPodCall(key)];
      var got := w.getPod(|log|, key);
      var r := if got.Fail? && !got.error.IsNotFound() then Walk(Some(JoinFailed(got.error)), allJoined, uris, log1)
               else Walk(None, false, [], log1);
      WalkDecided(w, j, leader, log, base, allJoined, r) && !AfterReadyPod(w, r.log, |r.log|)
  {
    var log1 := log + [GetPodCall(key)];
    assert log1[..|log|] == log;
    assert log1[|log|] == GetPodCall(key);
    assert !LeaderUnjoinedAt(w, leader, log1, |log|);
  }

  /** A ready pod's probe: a failure stops the walk; no UUID gathers its URI, or panics on a nil cluster. */
  lemma PodProbedDecided(w: World, j: Joining, leader: Option<Pod>, key: NamespacedName, pod: Pod, allJoined: bool,
                         uris: seq<string>, uris': seq<string>, log: seq<Call>, base: nat)
    requires base <= |log| && PodFoundReady(w, |log|, key) && w.getPod(|log|, key) == Ok(pod)
    ensures var log2 := log + [GetPodCall(key)] + [InstanceUUIDCall(pod.meta.name)];
      var uuid := w.instanceUUID(|log| + 1, pod);
      var stop := if uuid.Fail? then Some(JoinFailed(uuid.error))
                  else if uuid.value == "" && j.cluster.None? then Some(JoinPanicked) else None;
      && WalkDecided(w, j, leader, log, base, allJoined, Walk(stop, allJoined, uris', log2))
      && !AfterReadyPod(w, log2, |log2|)
  {
    var log2 := log + [GetPodCall(key)] + [InstanceUUIDCall(pod.meta.name)];
    var n := |log|;
    assert log2[..|log|] == log;
    assert log2[n] == GetPodCall(key) && log2[n + 1] == InstanceUUIDCall(pod.meta.name);
    assert AfterReadyPod(w, log2, n + 1) && ProbedPod(w, leader, log2, n + 1) == Some(pod);
    assert JoinCallError(w, leader, log2, n).None?;
    assert !LeaderUnjoinedAt(w, leader, log2, n) && !LeaderUnjoinedAt(w, leader, log2, n + 1);
    assert PodsFoundReadyFrom(w, log2, n);
  }

  /** The URIs gathered so far stay gathered past a ready pod's probe, and a probe with no UUID adds the pod's. */
  lemma PodProbeGathers(w: World, c: ClusterValue, key: NamespacedName, pod: Pod, uris: seq<string>, log: seq<Call>,
                        base: nat)
    requires base <= |log| && PodFoundReady(w, |log|, key) && w.getPod(|log|, key) == Ok(pod)
    requires UrisGathered(w, c, log, base, |log|, uris)
    ensures var log2 := log + [GetPodCall(key)] + [InstanceUUIDCall(pod.meta.name)];
      && UrisGathered(w, c, log2, base, |log2|, uris)
      && (w.instanceUUID(|log| + 1, pod) == Ok("") ==>
            UrisGathered(w, c, log2, base, |log2|, uris + [GetAdvertiseURI(c, pod)]))
  {
    var log2 := log + [GetPodCall(key)] + [InstanceUUIDCall(pod.meta.name)];
    var n := |log|;
    assert log2[..|log|] == log;
    UrisGatheredGrows(w, c, log, log2, base, base, |log|, |log2|, uris);
    if w.instanceUUID(n + 1, pod) == Ok("") {
      assert log2[n] == GetPodCall(key) && log2[n + 1] == InstanceUUIDCall(pod.meta.name);
      assert GatheredAt(w, c, log2, n + 1, GetAdvertiseURI(c, pod));
      var uris' := uris + [GetAdvertiseURI(c, pod)];
      forall k | 0 <= k < |uris'|
        ensures GatheredBetween(w, c, log2, base, |log2|, uris'[k])
      {
        if k == |uris| {
          assert uris'[k] == GetAdvertiseURI(c, pod);
        } else {
          assert uris'[k] == uris[k];
        }
      }
    }
  }

  lemma {:induction false} PodsDecided(w: World, j: Joining, leader: Option<Pod>, stsName: string, p: nat,
                                       allJoined: bool, uris: seq<string>, log: seq<Call>, base: nat)
    requires base <= |log| && !AfterReadyPod(w, log, |log|)
    requires j.cluster.Some? ==> UrisGathered(w, j.cluster.value, log, base, |log|, uris)
    ensures var r := PodsFrom(w, j, stsName, p, allJoined, uris, log);
      && WalkDecided(w, j, leader, log, base, allJoined, r) && !AfterReadyPod(w, r.log, |r.log|)
      && (j.cluster.Some? && r.stop.None? ==> UrisGathered(w, j.cluster.value, r.log, base, |r.log|, r.uris))
    decreases j.role.GetReplicas() - p, 1
  {
    if p >= j.role.GetReplicas() {
      WalkDecidedEmpty(w, j, leader, log, base, allJoined, None, uris);
    } else {
      var key := NamespacedName(j.role.GetNamespace(), GetStatefulSetPodName(stsName, p));
      if !PodFoundReady(w, |log|, key) {
        PodMissingDecided(w, j, leader, key, allJoined, uris, log, base);
      } else {
        var pod := w.getPod(|log|, key).value;
        var uuid := w.instanceUUID(|log| + 1, pod);
        if uuid.Ok? && (uuid.value != "" || j.cluster.Some?) {
          PodsGoOnDecided(w, j, leader, stsName, p, allJoined, uris, log, base);
        } else {
          PodProbedDecided(w, j, leader, key, pod, allJoined, uris, uris, log, base);
        }
      }
    }
  }

  /** PodsDecided past a ready pod whose probe answered and does not stop the walk. */
  lemma {:induction false} PodsGoOnDecided(w: World, j: Joining, leader: Option<Pod>, stsName: string, p: nat,
                                           allJoined: bool, uris: seq<string>, log: seq<Call>, base: nat)
    requires base <= |log| && !AfterReadyPod(w, log, |log|) && p < j.role.GetReplicas()
    requires j.cluster.Some? ==> UrisGathered(w, j.cluster.value, log, base, |log|, uris)
    requires var key := NamespacedName(j.role.GetNamespace(), GetStatefulSetPodName(stsName, p));
      && PodFoundReady(w, |log|, key)
      && var uuid := w.instanceUUID(|log| + 1, w.getPod(|log|, key).value);
        uuid.Ok? && (uuid.value != "" || j.cluster.Some?)
    ensures PodsOutcome(w, j, leader, log, base, allJoined, PodsFrom(w, j, stsName, p, allJoined, uris, log))
    decreases j.role.GetReplicas() - p, 0
  {
    var r := PodsFrom(w, j, stsName, p, allJoined, uris, log);
    var key := NamespacedName(j.role.GetNamespace(), GetStatefulSetPodName(stsName, p));
    var pod := w.getPod(|log|, key).value;
    var log2 := log + [GetPodCall(key)] + [InstanceUUIDCall(pod.meta.name)];
    var uuid := w.instanceUUID(|log| + 1, pod);
    var uris' := if uuid.value == "" then uris + [GetAdvertiseURI(j.cluster.value, pod)] else uris;
    PodProbedDecided(w, j, leader, key, pod, allJoined, uris, uris', log, base);
    if j.cluster.Some? {
      PodProbeGathers(w, j.cluster.value, key, pod, uris, log, base);
    }
    assert r == PodsFrom(w, j, stsName, p + 1, allJoined, uris', log2);
    PodsDecided(w, j, leader, stsName, p + 1, allJoined, uris', log2, base);
    PodsOutcomeChain(w, j, leader, log, base, allJoined, Walk(None, allJoined, uris', log2), r);
  }

  /** What PodsDecided states about a walk r that starts at log. */
  ghost predicate PodsOutcome(w: World, j: Joining, leader: Option<Pod>, log: seq<Call>, base: nat, allJoined: bool, r: Walk)
  {
    && WalkDecided(w, j, leader, log, base, allJoined, r) && !AfterReadyPod(w, r.log, |r.log|)
    && (j.cluster.Some? && r.stop.None? ==> UrisGathered(w, j.cluster.value, r.log, base, |r.log|, r.uris))
  }

  lemma PodsOutcomeChain(w: World, j: Joining, leader: Option<Pod>, log: seq<Call>, base: nat, allJoined: bool,
                         mid: Walk, end: Walk)
    requires WalkDecided(w, j, leader, log, base, allJoined, mid) && mid.stop.None?
    requires && WalkDecided(w, j, leader, mid.log, base, mid.allJoined, end) && !AfterReadyPod(w, end.log, |end.log|)
             && (j.cluster.Some? && end.stop.None? ==> UrisGathered(w, j.cluster.value, end.log, base, |end.log|, end.uris))
    ensures PodsOutcome(w, j, leader, log, base, allJoined, end)
  {
    WalkDecidedChain(w, j, leader, log, base, allJoined, mid, end);
  }

  lemma {:induction false} ItemsDecided(w: World, j: Joining, leader: Option<Pod>, items: seq<StatefulSetValue>,
                                        i: nat, allJoined: bool, uris: seq<string>, log: seq<Call>, base: nat)
    requires i <= |items| && base <= |log| && !AfterReadyPod(w, log, |log|)
    requires j.cluster.Some? ==> UrisGathered(w, j.cluster.value, log, base, |log|, uris)
    ensures var r := ItemsFrom(w, j, items, i, allJoined, uris, log);
      && WalkDecided(w, j, leader, log, base, allJoined, r) && !AfterReadyPod(w, r.log, |r.log|)
      && (j.cluster.Some? && r.stop.None? ==> UrisGathered(w, j.cluster.value, r.log, base, |r.log|, r.uris))
    decreases |items| - i
  {
    var r := ItemsFrom(w, j, items, i, allJoined, uris, log);
    if i == |items| {
      WalkDecidedEmpty(w, j, leader, log, base, allJoined, None, uris);
    } else if items[i].meta.deleting {
      ItemsDecided(w, j, leader, items, i + 1, allJoined, uris, log, base);
    } else {
      var r1 := PodsFrom(w, j, items[i].meta.name, 0, allJoined, uris, log);
      PodsDecided(w, j, leader, items[i].meta.name, 0, allJoined, uris, log, base);
      if r1.stop.None? {
        ItemsDecided(w, j, leader, items, i + 1, r1.allJoined, r1.uris, r1.log, base);
        WalkDecidedChain(w, j, leader, log, base, allJoined, r1, r);
      }
    }
  }

  /** The join of a batch through the leader: a failure stops the walk, as a configuration error for an unknown role. */
  lemma JoinThroughLeaderDecided(w: World, j: Joining, l: Pod, ordinal: nat, allJoined: bool, uris: seq<string>,
                                 log: seq<Call>, base: nat)
    requires base <= |log| && |uris| > 0
    requires j.cluster.Some? ==> UrisGathered(w, j.cluster.value, log, base, |log|, uris)
    ensures WalkDecided(w, j, Some(l), log, base, allJoined, JoinThroughLeader(w, j, l, ordinal, allJoined, uris, log))
  {
    var edit := JoinEdit(j.role, ordinal, w.sha1, uris);
    JoinServersOfEntries(uris);
    if j.cluster.Some? {
      JoinCallGathered(w, j.cluster.value, l, edit, uris, log, base);
    }
    JoinCallDecided(w, j, l, edit, allJoined, uris, log, base);
  }

  /** JoinThroughLeader for any edit whose servers were gathered. */
  lemma JoinCallDecided(w: World, j: Joining, l: Pod, edit: EditTopologyParams, allJoined: bool, uris: seq<string>,
                        log: seq<Call>, base: nat)
    requires base <= |log|
    requires j.cluster.Some? ==> JoinsGathered(w, j.cluster.value, log + [EditTopologyCall(l.meta.name, edit)], base, |log|)
    ensures var log1 := log + [EditTopologyCall(l.meta.name, edit)];
      var r := match JoinError(AdminEditTopology(w.editTopology(|log|, l, edit)))
               case None => Walk(None, allJoined, uris, log1)
               case Some(e) => Walk(Some(if e.AsUnknownRole().Some? then JoinConfigError else JoinFailed(e)), allJoined,
                                    uris, log1);
      WalkDecided(w, j, Some(l), log, base, allJoined, r)
  {
    var log1 := log + [EditTopologyCall(l.meta.name, edit)];
    var n := |log|;
    assert log1[..|log|] == log;
    assert log1[n] == EditTopologyCall(l.meta.name, edit);
    assert !LeaderUnjoinedAt(w, Some(l), log1, n);
  }

  /** The join call names exactly the gathered batch, which is not empty. */
  lemma JoinCallGathered(w: World, c: ClusterValue, l: Pod, edit: EditTopologyParams, uris: seq<string>,
                         log: seq<Call>, base: nat)
    requires base <= |log| && |edit.replicasets| == 1 && edit.replicasets[0].joinServers == JoinServersOf(uris)
    requires |edit.replicasets[0].joinServers| > 0
    requires UrisGathered(w, c, log, base, |log|, uris)
    ensures JoinsGathered(w, c, log + [EditTopologyCall(l.meta.name, edit)], base, |log|)
  {
    var log1 := log + [EditTopologyCall(l.meta.name, edit)];
    var n := |log|;
    JoinServersOfEntries(uris);
    UrisGatheredGrows(w, c, log, log1, base, base, |log|, n, uris);
    forall rs | rs in edit.replicasets
      ensures ServersGathered(w, c, log1, base, n, rs.joinServers)
    {
      assert rs == edit.replicasets[0];
    }
  }

  /** The leader's own probe, made when its URI is not in the batch: no UUID clears allJoined and skips the join. */
  lemma LeaderProbeDecided(w: World, j: Joining, l: Pod, allJoined: bool, uris: seq<string>, log: seq<Call>, base: nat)
    requires base <= |log| && !AfterReadyPod(w, log, |log|)
    ensures var log1 := log + [InstanceUUIDCall(l.meta.name)];
      var uuid := w.instanceUUID(|log|, l);
      var r := if uuid.Fail? then Walk(Some(JoinFailed(uuid.error)), allJoined, uris, log1)
               else Walk(None, allJoined && uuid.value != "", uris, log1);
      WalkDecided(w, j, Some(l), log, base, allJoined, r)
  {
    var log1 := log + [InstanceUUIDCall(l.meta.name)];
    var n := |log|;
    assert log1[..|log|] == log;
    assert log1[n] == InstanceUUIDCall(l.meta.name);
    assert !AfterReadyPod(w, log1, n);
    assert ProbedPod(w, Some(l), log1, n) == Some(l);
    assert PodsFoundReadyFrom(w, log1, n);
    assert LeaderUnjoinedAt(w, Some(l), log1, n) <==> w.instanceUUID(n, l) == Ok("");
  }

  lemma JoinBatchDecided(w: World, j: Joining, leader: Option<Pod>, ordinal: nat, allJoined: bool, uris: seq<string>,
                         log: seq<Call>, base: nat)
    requires base <= |log| && |uris| > 0 && !AfterReadyPod(w, log, |log|)
    requires j.cluster.Some? ==> UrisGathered(w, j.cluster.value, log, base, |log|, uris)
    ensures WalkDecided(w, j, leader, log, base, allJoined, JoinBatch(w, j, leader, ordinal, allJoined, uris, log))
  {
    var r := JoinBatch(w, j, leader, ordinal, allJoined, uris, log);
    if leader.None? || j.cluster.None? {
      WalkDecidedEmpty(w, j, leader, log, base, allJoined, Some(JoinPanicked), uris);
    } else {
      var l := leader.value;
      if GetAdvertiseURI(j.cluster.value, l) in uris {
        JoinThroughLeaderDecided(w, j, l, ordinal, allJoined, uris, log, base);
      } else {
        var log1 := log + [InstanceUUIDCall(l.meta.name)];
        var uuid := w.instanceUUID(|log|, l);
        LeaderProbeDecided(w, j, l, allJoined, uris, log, base);
        if uuid.Ok? && uuid.value != "" {
          UrisGatheredGrows(w, j.cluster.value, log, log1, base, base, |log|, |log1|, uris);
          JoinThroughLeaderDecided(w, j, l, ordinal, allJoined, uris, log1, base);
          WalkDecidedChain(w, j, leader, log, base, allJoined, Walk(None, allJoined, uris, log1), r);
        }
      }
    }
  }

  /** The listing that opens a replica set's round: a failure stops the walk. */
  lemma ListingDecided(w: World, j: Joining, leader: Option<Pod>, ns: string, selector: Labels.Selector, allJoined: bool,
                       log: seq<Call>)
    ensures var log1 := log + [ListStatefulSetsCall(ns, selector)];
      var items := w.listStatefulSets(|log|, ns, selector);
      var r := if items.Fail? then Walk(Some(JoinFailed(items.error)), allJoined, [], log1)
               else Walk(None, allJoined, [], log1);
      WalkDecided(w, j, leader, log, |log|, allJoined, r) && !AfterReadyPod(w, log1, |log1|)
  {
    var log1 := log + [ListStatefulSetsCall(ns, selector)];
    assert log1[..|log|] == log;
    assert log1[|log|] == ListStatefulSetsCall(ns, selector);
    assert !LeaderUnjoinedAt(w, leader, log1, |log|);
    assert PodsFoundReadyFrom(w, log1, |log|);
  }

  lemma ReplicasetJoinDecided(w: World, j: Joining, leader: Option<Pod>, ordinal: nat, allJoined: bool, log: seq<Call>)
    ensures WalkDecided(w, j, leader, log, |log|, allJoined, ReplicasetJoin(w, j, leader, ordinal, allJoined, log))
  {
    var r := ReplicasetJoin(w, j, leader, ordinal, allJoined, log);
    var selector := Manager.SelectorByReplicasetOrdinal(j.role.meta, ordinal);
    var log1 := log + [ListStatefulSetsCall(j.role.GetNamespace(), selector)];
    var items := w.listStatefulSets(|log|, j.role.GetNamespace(), selector);
    ListingDecided(w, j, leader, j.role.GetNamespace(), selector, allJoined, log);
    if items.Ok? {
      var mid := Walk(None, allJoined, [], log1);
      var scan := ItemsFrom(w, j, items.value, 0, allJoined, [], log1);
      ItemsDecided(w, j, leader, items.value, 0, allJoined, [], log1, |log|);
      WalkDecidedChain(w, j, leader, log, |log|, allJoined, mid, scan);
      if scan.stop.None? && |scan.uris| > 0 {
        JoinBatchDecided(w, j, leader, ordinal, scan.allJoined, scan.uris, scan.log, |log|);
        WalkDecidedChain(w, j, leader, log, |log|, allJoined, scan, r);
      }
    }
  }

  lemma {:induction false} OrdinalsDecided(w: World, j: Joining, leader: Option<Pod>, ordinal: nat, allJoined: bool,
                                           log: seq<Call>)
    ensures WalkDecided(w, j, leader, log, |log|, allJoined, OrdinalsFrom(w, j, leader, ordinal, allJoined, log))
    decreases j.role.GetReplicasets() - ordinal
  {
    if ordinal >= j.role.GetReplicasets() {
      WalkDecidedEmpty(w, j, leader, log, |log|, allJoined, None, []);
    } else {
      var r := ReplicasetJoin(w, j, leader, ordinal, allJoined, log);
      ReplicasetJoinDecided(w, j, leader, ordinal, allJoined, log);
      if r.stop.None? {
        var rest := OrdinalsFrom(w, j, leader, ordinal + 1, r.allJoined, r.log);
        OrdinalsDecided(w, j, leader, ordinal + 1, r.allJoined, r.log);
        WalkDecidedWiden(w, j, leader, r.log, |log|, |r.log|, r.allJoined, rest);
        WalkDecidedChain(w, j, leader, log, |log|, allJoined, r, rest);
      }
    }
  }

  /**
   * JoinInstances: join every instance not joined yet, replica set by replica
   * set. An unknown vshard role sets the role's configuration-error phase and
   * ends the pass; an instance that is missing or not running requeues it.
   */
  function JoinInstancesSpec(w: World, s: State, log: seq<Call>, configErrorPhase: string): (r: StepOut)
    requires s.Wf()
    ensures r.state.Wf()
    ensures r.ret != Complete() ==> r.state == s
    ensures r.ret == Complete() ==> r.state.obj.RoleObj? && r.state.obj.role.GetPhase() == configErrorPhase
  {
    if !s.obj.RoleObj? then StepOut(Panic, s, log)
    else
      var role := s.obj.role;
      var walk := OrdinalsFrom(w, Joining(s.RelatedCluster(), role), s.leader, 0, true, log);
      match walk.stop
      case Some(JoinFailed(e)) => StepOut(ErrorOf(Some(e)), s, walk.log)
      case Some(JoinPanicked) => StepOut(Panic, s, walk.log)
      case Some(JoinConfigError) => StepOut(Complete(), s.UpdateObject(RoleObj(role.SetPhase(configErrorPhase))), walk.log)
      case None => StepOut(if walk.allJoined then NextStep() else Requeue(ErrorTimeout), s, walk.log)
  }

  /**
   * The join step writes nothing but joins of the role's instances through
   * the leader, and panics only on a nil leader or cluster. Only its last
   * call can have failed: a join failing with an unknown vshard role
   * completes the pass (with the configuration-error phase), and any other
   * failure, an "already joined" answer included, is returned as the error.
   * With no failure it goes on exactly when every pod it looked up was
   * running and not being deleted and the leader never lacked a UUID, and
   * requeues otherwise. Every URI a join names was gathered by a probe that
   * found a ready pod with no UUID yet.
   */
  lemma JoinInstancesFacts(w: World, s: State, log: seq<Call>, configErrorPhase: string)
    requires s.Wf() && s.obj.RoleObj?
    ensures var r := JoinInstancesSpec(w, s, log, configErrorPhase);
      && Extends(r.log, log) && OnlyJoinsFrom(s.obj.role, s.leader, r.log, |log|)
      && (r.ret.Panic? ==> (s.leader.None? || s.RelatedCluster().None?) && JoinNoFailure(w, s.leader, r.log, |log|))
      && (r.ret == NextStep() ==> PodsFoundReadyFrom(w, r.log, |log|))
      && (forall n :: |log| <= n < |r.log| - 1 ==> JoinCallError(w, s.leader, r.log, n).None?)
      && (!r.ret.Panic? ==> (r.ret == NextStep() || r.ret == Requeue(ErrorTimeout) <==> JoinNoFailure(w, s.leader, r.log, |log|)))
      && (r.ret == Complete() <==> |log| < |r.log| && UnknownRoleAt(w, s.leader, r.log, |r.log| - 1))
      && (|log| < |r.log| && JoinCallError(w, s.leader, r.log, |r.log| - 1).Some?
          && !UnknownRoleAt(w, s.leader, r.log, |r.log| - 1) ==>
            r.ret == ErrorOf(JoinCallError(w, s.leader, r.log, |r.log| - 1)))
      && (r.ret == NextStep() || r.ret == Requeue(ErrorTimeout) ==>
            (r.ret == NextStep() <==> PodsFoundReadyFrom(w, r.log, |log|) && NoLeaderUnjoinedFrom(w, s.leader, r.log, |log|)))
      && (s.RelatedCluster().Some? ==> JoinsGathered(w, s.RelatedCluster().value, r.log, |log|, |log|))
  {
    JoinInstancesShape(w, s, log, configErrorPhase);
    JoinInstancesDecided(w, s, log, configErrorPhase);
  }

  /** The calls the join step makes, and when it panics. */
  lemma JoinInstancesShape(w: World, s: State, log: seq<Call>, configErrorPhase: string)
    requires s.Wf() && s.obj.RoleObj?
    ensures var r := JoinInstancesSpec(w, s, log, configErrorPhase);
      && Extends(r.log, log) && OnlyJoinsFrom(s.obj.role, s.leader, r.log, |log|)
      && (r.ret.Panic? ==> s.leader.None? || s.RelatedCluster().None?)
      && (r.ret == NextStep() ==> PodsFoundReadyFrom(w, r.log, |log|))
  {
    OrdinalsFromFacts(w, Joining(s.RelatedCluster(), s.obj.role), s.leader, 0, true, log);
  }

  /** What each answer decides about the outcome of the join step. */
  lemma JoinInstancesDecided(w: World, s: State, log: seq<Call>, configErrorPhase: string)
    requires s.Wf() && s.obj.RoleObj?
    ensures var r := JoinInstancesSpec(w, s, log, configErrorPhase);
      && (r.ret.Panic? ==> JoinNoFailure(w, s.leader, r.log, |log|))
      && (forall n :: |log| <= n < |r.log| - 1 ==> JoinCallError(w, s.leader, r.log, n).None?)
      && (!r.ret.Panic? ==> (r.ret == NextStep() || r.ret == Requeue(ErrorTimeout) <==> JoinNoFailure(w, s.leader, r.log, |log|)))
      && (r.ret == Complete() <==> |log| < |r.log| && UnknownRoleAt(w, s.leader, r.log, |r.log| - 1))
      && (|log| < |r.log| && JoinCallError(w, s.leader, r.log, |r.log| - 1).Some?
          && !UnknownRoleAt(w, s.leader, r.log, |r.log| - 1) ==>
            r.ret == ErrorOf(JoinCallError(w, s.leader, r.log, |r.log| - 1)))
      && (r.ret == NextStep() || r.ret == Requeue(ErrorTimeout) ==>
            (r.ret == NextStep() <==> PodsFoundReadyFrom(w, r.log, |log|) && NoLeaderUnjoinedFrom(w, s.leader, r.log, |log|)))
      && (s.RelatedCluster().Some? ==> JoinsGathered(w, s.RelatedCluster().value, r.log, |log|, |log|))
  {
    OrdinalsDecided(w, Joining(s.RelatedCluster(), s.obj.role), s.leader, 0, true, log);
    JoinOutcomeOfWalk(w, s, log, configErrorPhase);
  }

  /** How the join step's outcome reads the walk's stop and allJoined. */
  lemma JoinOutcomeOfWalk(w: World, s: State, log: seq<Call>, configErrorPhase: string)
    requires s.Wf() && s.obj.RoleObj?
    ensures var r := JoinInstancesSpec(w, s, log, configErrorPhase);
      var walk := OrdinalsFrom(w, Joining(s.RelatedCluster(), s.obj.role), s.leader, 0, true, log);
      && r.log == walk.log
      && (r.ret.Panic? <==> walk.stop == Some(JoinPanicked))
      && (r.ret == Complete() <==> walk.stop == Some(JoinConfigError))
      && (r.ret == NextStep() <==> walk.stop.None? && walk.allJoined)
      && (r.ret == Requeue(ErrorTimeout) <==> walk.stop.None? && !walk.allJoined)
      && (walk.stop.Some? && walk.stop.value.JoinFailed? ==> r.ret == ErrorOf(Some(walk.stop.value.error)))
  {
    var r := JoinInstancesSpec(w, s, log, configErrorPhase);
    var walk := OrdinalsFrom(w, Joining(s.RelatedCluster(), s.obj.role), s.leader, 0, true, log);
    if walk.stop.None? {
      assert r == StepOut(if walk.allJoined then NextStep() else Requeue(ErrorTimeout), s, walk.log);
    } else if walk.stop.value.JoinFailed? {
      assert r == StepOut(ErrorOf(Some(walk.stop.value.error)), s, walk.log);
    } else if walk.stop.value == JoinPanicked {
      assert r == StepOut(Panic, s, walk.log);
    } else {
      assert r.ret == Complete() && r.log == walk.log;
    }
  }

  method JoinPods(ctrl: Controller, j: Joining, stsName: string, allJoined0: bool, uris0: seq<string>)
    returns (stop: Option<JoinStop>, allJoined: bool, uris: seq<string>)
    modifies ctrl
    ensures Walk(stop, allJoined, uris, ctrl.log) == PodsFrom(ctrl.world, j, stsName, 0, allJoined0, uris0, old(ctrl.log))
  {
    allJoined, uris := allJoined0, uris0;
    var p: nat := 0;
    while p < j.role.GetReplicas()
      invariant PodsFrom(ctrl.world, j, stsName, p, allJoined, uris, ctrl.log)
             == PodsFrom(ctrl.world, j, stsName, 0, allJoined0, uris0, old(ctrl.log))
      decreases j.role.GetReplicas() - p
    {
      var got := ctrl.GetPod(NamespacedName(j.role.GetNamespace(), GetStatefulSetPodName(stsName, p)));
      if got.Fail? {
        if !got.error.IsNotFound() {
          return Some(JoinFailed(got.error)), allJoined, uris;
        }
        return None, false, [];
      }
      var pod := got.value;
      if !IsPodRunning(pod) || IsPodDeleting(pod) {
        return None, false, [];
      }
      var uuid := ctrl.GetInstanceUUID(pod);
      if uuid.Fail? {
        return Some(JoinFailed(uuid.error)), allJoined, uris;
      }
      if uuid.value == "" {
        if j.cluster.None? {
          return Some(JoinPanicked), allJoined, uris;
        }
        uris := uris + [GetAdvertiseURI(j.cluster.value, pod)];
      }
      p := p + 1;
    }
    stop := None;
  }

  /** The StatefulSet loop of one replica set, collecting the URIs of the pods still to join. */
  method JoinItems(ctrl: Controller, j: Joining, items: seq<StatefulSetValue>, allJoined0: bool)
    returns (stop: Option<JoinStop>, allJoined: bool, uris: seq<string>)
    modifies ctrl
    ensures Walk(stop, allJoined, uris, ctrl.log) == ItemsFrom(ctrl.world, j, items, 0, allJoined0, [], old(ctrl.log))
  {
    allJoined, uris := allJoined0, [];
    ghost var scan := ItemsFrom(ctrl.world, j, items, 0, allJoined, uris, ctrl.log);
    var i := 0;
    while i < |items|
      invariant 0 <= i <= |items|
      invariant ItemsFrom(ctrl.world, j, items, i, allJoined, uris, ctrl.log) == scan
    {
      if !items[i].meta.deleting {
        stop, allJoined, uris := JoinPods(ctrl, j, items[i].meta.name, allJoined, uris);
        if stop.Some? {
          return;
        }
      }
      i := i + 1;
    }
    stop := None;
  }

  /** The join of the collected URIs through the leader, once it is known to be in the cluster. */
  method JoinBatchThroughLeader(ctrl: Controller, j: Joining, leader: Option<Pod>, ordinal: nat, allJoined0: bool,
                                uris: seq<string>)
    returns (stop: Option<JoinStop>, allJoined: bool)
    modifies ctrl
    ensures var r := JoinBatch(ctrl.world, j, leader, ordinal, allJoined0, uris, old(ctrl.log));
      stop == r.stop && allJoined == r.allJoined && ctrl.log == r.log
  {
    allJoined := allJoined0;
    if leader.None? || j.cluster.None? {
      return Some(JoinPanicked), allJoined;
    }
    var l := leader.value;
    if GetAdvertiseURI(j.cluster.value, l) !in uris {
      var leaderUUID := ctrl.GetInstanceUUID(l);
      if leaderUUID.Fail? {
        return Some(JoinFailed(leaderUUID.error)), allJoined;
      }
      if leaderUUID.value == "" {
        return None, false;
      }
    }
    var v := j.role.GetVShardConfig();
    var alias := j.role.GetReplicasetName(ordinal).0;
    var err := Join(ctrl, l, alias, GetReplicasetUUID(j.role.GetName(), ordinal, ctrl.world.sha1),
                    v.clusterRoles, v.weight, v.groupName, j.role.IsAllRw(), uris);
    if err.Some? {
      if err.value.AsUnknownRole().Some? {
        return Some(JoinConfigError), allJoined;
      }
      return Some(JoinFailed(err.value)), allJoined;
    }
    stop := None;
  }

  method JoinReplicaset(ctrl: Controller, j: Joining, leader: Option<Pod>, ordinal: nat, allJoined0: bool)
    returns (stop: Option<JoinStop>, allJoined: bool)
    modifies ctrl
    ensures var r := ReplicasetJoin(ctrl.world, j, leader, ordinal, allJoined0, old(ctrl.log));
      stop == r.stop && allJoined == r.allJoined && ctrl.log == r.log
  {
    allJoined := allJoined0;
    var list := ctrl.ListStatefulSets(j.role.GetNamespace(), Manager.SelectorByReplicasetOrdinal(j.role.meta, ordinal));
    if list.Fail? {
      return Some(JoinFailed(list.error)), allJoined;
    }
    var uris;
    stop, allJoined, uris := JoinItems(ctrl, j, list.value, allJoined);
    if stop.Some? || |uris| == 0 {
      return;
    }
    stop, allJoined := JoinBatchThroughLeader(ctrl, j, leader, ordinal, allJoined, uris);
  }

  method JoinInstances(ctx: Context, ctrl: Controller, configErrorPhase: string) returns (ret: StepReturn)
    requires ctx.RoleCtx?
    modifies ctx.Repr(), ctrl
    ensures ctx.Repr() == old(ctx.Repr())
    ensures StepOut(ret, ctx.Abs(), ctrl.log) == JoinInstancesSpec(ctrl.world, old(ctx.Abs()), old(ctrl.log), configErrorPhase)
  {
    var role := ctx.rc.role;
    if role == null {
      return Panic;
    }
    var cluster := ctx.Common().GetRelatedCluster();
    var j := Joining(if cluster == null then None else Some(cluster.Value()), role.Value());
    var leader := ctx.Common().GetLeader();
    var stop, allJoined := JoinOrdinals(ctrl, j, leader);
    if stop.Some? {
      match stop.value {
        case JoinFailed(e) => return ErrorOf(Some(e));
        case JoinPanicked => return Panic;
        case JoinConfigError =>
          role.SetPhase(configErrorPhase);
          return Complete();
      }
    }
    if !allJoined {
      return Requeue(ErrorTimeout);
    }
    ret := NextStep();
  }

  /** The ordinal loop of JoinInstances; the first early stop ends it. */
  method JoinOrdinals(ctrl: Controller, j: Joining, leader: Option<Pod>) returns (stop: Option<JoinStop>, allJoined: bool)
    modifies ctrl
    ensures var r := OrdinalsFrom(ctrl.world, j, leader, 0, true, old(ctrl.log));
      stop == r.stop && allJoined == r.allJoined && ctrl.log == r.log
  {
    allJoined := true;
    var ordinal: nat := 0;
    while ordinal < j.role.GetReplicasets()
      invariant OrdinalsFrom(ctrl.world, j, leader, ordinal, allJoined, ctrl.log)
             == OrdinalsFrom(ctrl.world, j, leader, 0, true, old(ctrl.log))
      decreases j.role.GetReplicasets() - ordinal
    {
      stop, allJoined := JoinReplicaset(ctrl, j, leader, ordinal, allJoined);
      if stop.Some? {
        return;
      }
      ordinal := ordinal + 1;
    }
    stop := None;
  }

  // ----- ConfigureVShardRoles -----

  /** The state of the vshard-roles walk: a nil leader met, allRolesConfigured, the log. */
  datatype RolesWalk = RolesWalk(panicked: bool, configured: bool, log: seq<Call>)

  /** A call that sets the role's vshard roles on one of its replica sets, through the leader. */
  predicate RolesWrite(role: RoleValue, leader: Option<Pod>, call: Call)
  {
    call.EditTopologyCall? && leader.Some? && call.pod == leader.value.meta.name
    && |call.edit.replicasets| == 1
    && call.edit == SetReplicasetRolesRequest(call.edit.replicasets[0].uuid, role.GetVShardConfig().clusterRoles)
  }

  /** What the vshard-roles walk promises: its only writes set the role's roles, and it panics only on a nil leader. */
  predicate RolesFacts(role: RoleValue, leader: Option<Pod>, log: seq<Call>, configured: bool, r: RolesWalk)
  {
    Extends(r.log, log) && (r.configured ==> configured) && (r.panicked ==> leader.None?)
    && forall i :: |log| <= i < |r.log| && r.log[i].IsWrite() ==> RolesWrite(role, leader, r.log[i])
  }

  lemma RolesChain(role: RoleValue, leader: Option<Pod>, log: seq<Call>, configured: bool, mid: RolesWalk, end: RolesWalk)
    requires RolesFacts(role, leader, log, configured, mid)
    requires RolesFacts(role, leader, mid.log, mid.configured, end)
    ensures RolesFacts(role, leader, log, configured, end)
  {
    forall i | |log| <= i < |mid.log|
      ensures end.log[i] == mid.log[i]
    {
      assert end.log[..|mid.log|][i] == mid.log[i];
    }
  }

  lemma RolesOfCalls(role: RoleValue, leader: Option<Pod>, log: seq<Call>, configured: bool, r: RolesWalk, ext: seq<Call>)
    requires r.log == log + ext
    requires forall c | c in ext && c.IsWrite() :: RolesWrite(role, leader, c)
    requires r.configured ==> configured
    requires r.panicked ==> leader.None?
    ensures RolesFacts(role, leader, log, configured, r)
  {
    assert r.log[..|log|] == log;
    forall i | |log| <= i < |r.log|
      ensures r.log[i] in ext
    {
      assert r.log[i] == ext[i - |log|];
    }
  }

  /**
   * One StatefulSet of a replica set: read the roles hierarchy and the
   * replica set's roles, and set the role's vshard roles when they differ.
   * Every failure only marks the walk as not configured.
   */
  function RolesOfReplicaset(w: World, role: RoleValue, leader: Option<Pod>, ordinal: nat, configured: bool,
                             log: seq<Call>): RolesWalk
  {
    if leader.None? then RolesWalk(true, configured, log)
    else
      var l := leader.value;
      var log1 := log + [GetRolesHierarchyCall(l.meta.name)];
      var hierarchy := GetRolesHierarchyAnswer(w.rolesHierarchy(|log|, l));
      if hierarchy.Fail? then RolesWalk(false, false, log1)
      else ReconcileReplicasetRoles(w, role, l, GetReplicasetUUID(role.GetName(), ordinal, w.sha1), hierarchy.value,
                                    configured, log1)
  }

  /** Read the replica set's roles and set the role's vshard roles when they differ under the hierarchy. */
  function ReconcileReplicasetRoles(w: World, role: RoleValue, l: Pod, uuid: string, hierarchy: map<string, seq<string>>,
                                    configured: bool, log: seq<Call>): RolesWalk
  {
    var log1 := log + [GetReplicasetRolesCall(l.meta.name, uuid)];
    var actual := GetReplicasetRolesAnswer(w.replicasetRoles(|log|, l, uuid));
    if actual.Fail? then RolesWalk(false, false, log1)
    else
      var desired := role.GetVShardConfig().clusterRoles;
      if IsVShardRolesEquals(actual.value, desired, hierarchy) then RolesWalk(false, configured, log1)
      else
        var req := SetReplicasetRolesRequest(uuid, desired);
        var err := SetReplicasetRolesError(AdminEditTopology(w.editTopology(|log1|, l, req)));
        RolesWalk(false, configured && err.None?, log1 + [EditTopologyCall(l.meta.name, req)])
  }

  lemma ReconcileReplicasetRolesFacts(w: World, role: RoleValue, l: Pod, uuid: string, hierarchy: map<string, seq<string>>,
                                      configured: bool, log: seq<Call>)
    ensures RolesFacts(role, Some(l), log, configured, ReconcileReplicasetRoles(w, role, l, uuid, hierarchy, configured, log))
  {
    var r := ReconcileReplicasetRoles(w, role, l, uuid, hierarchy, configured, log);
    var read := GetReplicasetRolesCall(l.meta.name, uuid);
    if r.log == log + [read] {
      RolesOfCalls(role, Some(l), log, configured, r, [read]);
    } else {
      var call := EditTopologyCall(l.meta.name, SetReplicasetRolesRequest(uuid, role.GetVShardConfig().clusterRoles));
      assert RolesWrite(role, Some(l), call);
      assert r.log == log + [read, call];
      RolesOfCalls(role, Some(l), log, configured, r, [read, call]);
    }
  }

  lemma RolesOfReplicasetFacts(w: World, role: RoleValue, leader: Option<Pod>, ordinal: nat, configured: bool, log: seq<Call>)
    ensures RolesFacts(role, leader, log, configured, RolesOfReplicaset(w, role, leader, ordinal, configured, log))
  {
    var r := RolesOfReplicaset(w, role, leader, ordinal, configured, log);
    if leader.None? {
      RolesOfCalls(role, leader, log, configured, r, []);
    } else {
      var l := leader.value;
      var first := GetRolesHierarchyCall(l.meta.name);
      var hierarchy := GetRolesHierarchyAnswer(w.rolesHierarchy(|log|, l));
      if hierarchy.Fail? {
        RolesOfCalls(role, leader, log, configured, r, [first]);
      } else {
        var mid := RolesWalk(false, configured, log + [first]);
        RolesOfCalls(role, leader, log, configured, mid, [first]);
        ReconcileReplicasetRolesFacts(w, role, l, GetReplicasetUUID(role.GetName(), ordinal, w.sha1), hierarchy.value,
                                      configured, log + [first]);
        RolesChain(role, leader, log, configured, mid, r);
      }
    }
  }

  /** The StatefulSet loop of one replica set; StatefulSets being deleted are skipped. */
  function RolesItemsFrom(w: World, role: RoleValue, leader: Option<Pod>, ordinal: nat,
                          items: seq<StatefulSetValue>, i: nat, configured: bool, log: seq<Call>): RolesWalk
    requires i <= |items|
    decreases |items| - i
  {
    if i == |items| then RolesWalk(false, configured, log)
    else if items[i].meta.deleting then RolesItemsFrom(w, role, leader, ordinal, items, i + 1, configured, log)
    else
      var r := RolesOfReplicaset(w, role, leader, ordinal, configured, log);
      if r.panicked then r
      else RolesItemsFrom(w, role, leader, ordinal, items, i + 1, r.configured, r.log)
  }

  lemma {:induction false} RolesItemsFromFacts(w: World, role: RoleValue, leader: Option<Pod>, ordinal: nat,
                                               items: seq<StatefulSetValue>, i: nat, configured: bool, log: seq<Call>)
    requires i <= |items|
    ensures RolesFacts(role, leader, log, configured, RolesItemsFrom(w, role, leader, ordinal, items, i, configured, log))
    decreases |items| - i
  {
    if i == |items| {
      RolesOfCalls(role, leader, log, configured, RolesWalk(false, configured, log), []);
    } else if items[i].meta.deleting {
      RolesItemsFromFacts(w, role, leader, ordinal, items, i + 1, configured, log);
    } else {
      var r := RolesOfReplicaset(w, role, leader, ordinal, configured, log);
      RolesOfReplicasetFacts(w, role, leader, ordinal, configured, log);
      if !r.panicked {
        RolesItemsFromFacts(w, role, leader, ordinal, items, i + 1, r.configured, r.log);
        RolesChain(role, leader, log, configured, r, RolesItemsFrom(w, role, leader, ordinal, items, i + 1, r.configured, r.log));
      }
    }
  }

  /** One replica set: a listing error only marks the walk as not configured. */
  function RolesOfOrdinal(w: World, role: RoleValue, leader: Option<Pod>, ordinal: nat, configured: bool,
                          log: seq<Call>): RolesWalk
  {
    var selector := Manager.SelectorByReplicasetOrdinal(role.meta, ordinal);
    var log1 := log + [ListStatefulSetsCall(role.GetNamespace(), selector)];
    var items := w.listStatefulSets(|log|, role.GetNamespace(), selector);
    if items.Fail? then RolesWalk(false, false, log1)
    else RolesItemsFrom(w, role, leader, ordinal, items.value, 0, configured, log1)
  }

  lemma RolesOfOrdinalFacts(w: World, role: RoleValue, leader: Option<Pod>, ordinal: nat, configured: bool, log: seq<Call>)
    ensures RolesFacts(role, leader, log, configured, RolesOfOrdinal(w, role, leader, ordinal, configured, log))
  {
    var selector := Manager.SelectorByReplicasetOrdinal(role.meta, ordinal);
    var list := ListStatefulSetsCall(role.GetNamespace(), selector);
    var items := w.listStatefulSets(|log|, role.GetNamespace(), selector);
    var mid := RolesWalk(false, configured, log + [list]);
    RolesOfCalls(role, leader, log, configured, mid, [list]);
    if items.Fail? {
      RolesOfCalls(role, leader, log, configured, RolesOfOrdinal(w, role, leader, ordinal, configured, log), [list]);
    } else {
      RolesItemsFromFacts(w, role, leader, ordinal, items.value, 0, configured, log + [list]);
      RolesChain(role, leader, log, configured, mid, RolesOfOrdinal(w, role, leader, ordinal, configured, log));
    }
  }

  /** The ordinal loop; only a nil leader ends it early. */
  function RolesOrdinalsFrom(w: World, role: RoleValue, leader: Option<Pod>, ordinal: nat, configured: bool,
                             log: seq<Call>): RolesWalk
    decreases role.GetReplicasets() - ordinal
  {
    if ordinal >= role.GetReplicasets() then RolesWalk(false, configured, log)
    else
      var r := RolesOfOrdinal(w, role, leader, ordinal, configured, log);
      if r.panicked then r
      else RolesOrdinalsFrom(w, role, leader, ordinal + 1, r.configured, r.log)
  }

  lemma {:induction false} RolesOrdinalsFromFacts(w: World, role: RoleValue, leader: Option<Pod>, ordinal: nat,
                                                  configured: bool, log: seq<Call>)
    ensures RolesFacts(role, leader, log, configured, RolesOrdinalsFrom(w, role, leader, ordinal, configured, log))
    decreases role.GetReplicasets() - ordinal
  {
    if ordinal >= role.GetReplicasets() {
      RolesOfCalls(role, leader, log, configured, RolesWalk(false, configured, log), []);
    } else {
      var r := RolesOfOrdinal(w, role, leader, ordinal, configured, log);
      RolesOfOrdinalFacts(w, role, leader, ordinal, configured, log);
      if !r.panicked {
        RolesOrdinalsFromFacts(w, role, leader, ordinal + 1, r.configured, r.log);
        RolesChain(role, leader, log, configured, r, RolesOrdinalsFrom(w, role, leader, ordinal + 1, r.configured, r.log));
      }
    }
  }

  /** ConfigureVShardRoles: requeue unless every replica set was read and configured. */
  function ConfigureVShardRolesSpec(w: World, s: State, log: seq<Call>): (r: StepOut)
    ensures r.state == s
    ensures r.ret.Return? ==> r.ret == NextStep() || r.ret == Requeue(ErrorTimeout)
  {
    if !s.obj.RoleObj? then StepOut(Panic, s, log)
    else
      var walk := RolesOrdinalsFrom(w, s.obj.role, s.leader, 0, true, log);
      if walk.panicked then StepOut(Panic, s, walk.log)
      else StepOut(if walk.configured then NextStep() else Requeue(ErrorTimeout), s, walk.log)
  }

  /**
   * The step only ever sets the role's vshard roles, through the leader; it
   * panics only on a nil leader; a role with no replica sets is trivially
   * configured. Otherwise it goes on exactly when no listing, hierarchy
   * read, roles read or edit failed, and requeues after ErrorTimeout when
   * one did; every replica set of the role was listed; every roles read
   * names the UUID of the replica set whose listing came last before it,
   * and is followed by the edit of that replica set exactly when it
   * succeeded and the roles read differ from the role's under the hierarchy
   * read just before it; every edit follows such a read; and with a leader,
   * every StatefulSet found by a successful listing and not being deleted
   * had the hierarchy read and, when that succeeded, its replica set's roles
   * read under that replica set's own UUID.
   */
  lemma ConfigureVShardRolesFacts(w: World, s: State, log: seq<Call>)
    requires s.obj.RoleObj?
    ensures var r := ConfigureVShardRolesSpec(w, s, log);
      && Extends(r.log, log) && (r.ret.Panic? ==> s.leader.None?)
      && (forall i :: |log| <= i < |r.log| && r.log[i].IsWrite() ==> RolesWrite(s.obj.role, s.leader, r.log[i]))
      && (s.obj.role.GetReplicasets() <= 0 ==> r.ret == NextStep() && r.log == log)
      && (!r.ret.Panic? ==> (r.ret == NextStep() <==> RolesNoFailure(w, s.leader, r.log, |log|)))
      && (!r.ret.Panic? ==> forall o: nat :: o < s.obj.role.GetReplicasets() ==> Listed(r.log, |log|, s.obj.role, o))
      && EditsAfterReads(r.log, |log|)
      && ReadsAddressed(r.log, |log|, s.obj.role, 0, UUIDByOrdinal(w, s.obj.role))
      && (s.leader.Some? ==> ReadsDecided(w, s.leader.value, r.log, |log|, s.obj.role))
      && (s.leader.Some? ==> RolesCovered(w, r.log, |log|, s.obj.role, s.leader.value, 0))
  {
    RolesOrdinalsFromFacts(w, s.obj.role, s.leader, 0, true, log);
    RolesOrdinalsDecided(w, s.obj.role, s.leader, 0, true, log);
  }

  /** The call at position n of the vshard-roles walk failed: a listing, a hierarchy read, a roles read or a roles edit. */
  predicate RolesCallFailed(w: World, leader: Option<Pod>, c: Call, n: nat)
  {
    match c
    case ListStatefulSetsCall(ns, selector) => w.listStatefulSets(n, ns, selector).Fail?
    case GetRolesHierarchyCall(_) => leader.Some? && GetRolesHierarchyAnswer(w.rolesHierarchy(n, leader.value)).Fail?
    case GetReplicasetRolesCall(_, uuid) =>
      leader.Some? && GetReplicasetRolesAnswer(w.replicasetRoles(n, leader.value, uuid)).Fail?
    case EditTopologyCall(_, edit) =>
      leader.Some? && SetReplicasetRolesError(AdminEditTopology(w.editTopology(n, leader.value, edit))).Some?
    case _ => false
  }

  /** No call from `from` on failed. */
  ghost predicate RolesNoFailure(w: World, leader: Option<Pod>, calls: seq<Call>, from: nat)
  {
    forall n :: from <= n < |calls| ==> !RolesCallFailed(w, leader, calls[n], n)
  }

  /** The edit that sets the role's vshard roles on replica set `uuid`, through the leader. */
  function RolesEdit(role: RoleValue, l: Pod, uuid: string): Call
  {
    EditTopologyCall(l.meta.name, SetReplicasetRolesRequest(uuid, role.GetVShardConfig().clusterRoles))
  }

  /**
   * The roles read at position i goes through the leader right after a
   * successful hierarchy read, and is followed by the edit of its replica set
   * exactly when it succeeded and the roles read differ from the role's under
   * that hierarchy.
   */
  predicate ReadDecidedAt(w: World, l: Pod, calls: seq<Call>, i: nat, role: RoleValue)
  {
    && 0 < i < |calls| && calls[i].GetReplicasetRolesCall?
    && calls[i - 1] == GetRolesHierarchyCall(l.meta.name) && calls[i].pod == l.meta.name
    && var h := GetRolesHierarchyAnswer(w.rolesHierarchy(i - 1, l));
      && h.Ok?
      && var a := GetReplicasetRolesAnswer(w.replicasetRoles(i, l, calls[i].uuid));
        ((a.Ok? && !IsVShardRolesEquals(a.value, role.GetVShardConfig().clusterRoles, h.value))
         <==> (i + 1 < |calls| && calls[i + 1] == RolesEdit(role, l, calls[i].uuid)))
  }

  /** Every roles read from `from` on is decided as above. */
  ghost predicate ReadsDecided(w: World, l: Pod, calls: seq<Call>, from: nat, role: RoleValue)
  {
    forall i :: from <= i < |calls| && calls[i].GetReplicasetRolesCall? ==> from < i && ReadDecidedAt(w, l, calls, i, role)
  }

  /** The UUID of each replica set of the role, by ordinal. */
  function UUIDByOrdinal(w: World, role: RoleValue): nat -> string
  {
    o => GetReplicasetUUID(role.GetName(), o, w.sha1)
  }

  /** Every edit from `from` on comes right after a roles read. */
  ghost predicate EditsAfterReads(calls: seq<Call>, from: nat)
  {
    forall i :: from <= i < |calls| && calls[i].EditTopologyCall? ==> from < i && calls[i - 1].GetReplicasetRolesCall?
  }

  /** No call strictly between positions q and i is a listing. */
  ghost predicate NoListingBetween(calls: seq<Call>, q: nat, i: nat)
    requires i <= |calls|
  {
    forall k :: q < k < i ==> !calls[k].ListStatefulSetsCall?
  }

  /**
   * The roles read at position i names the UUID, which `uuidOf` gives, of the
   * replica set whose listing is the last listing before it from `from` on,
   * one numbered first .. replicasets - 1.
   */
  ghost predicate ReadOfLastListing(calls: seq<Call>, from: nat, i: nat, role: RoleValue, first: nat,
                                    uuidOf: nat -> string)
    requires i < |calls| && calls[i].GetReplicasetRolesCall?
  {
    exists q: nat, o: nat :: from <= q < i && first <= o < role.GetReplicasets() && IsListingOf(calls[q], role, o)
      && NoListingBetween(calls, q, i) && calls[i].uuid == uuidOf(o)
  }

  /** Every roles read from `from` on is of the replica set listed last before it. */
  ghost predicate ReadsAddressed(calls: seq<Call>, from: nat, role: RoleValue, first: nat, uuidOf: nat -> string)
  {
    forall i :: from <= i < |calls| && calls[i].GetReplicasetRolesCall? ==>
      ReadOfLastListing(calls, from, i, role, first, uuidOf)
  }

  /** No call from `from` on is a listing, and every roles read from `from` on names replica set `uuid`. */
  ghost predicate ReadsNamed(calls: seq<Call>, from: nat, uuid: string)
  {
    forall i :: from <= i < |calls| ==>
      !calls[i].ListStatefulSetsCall? && (calls[i].GetReplicasetRolesCall? ==> calls[i].uuid == uuid)
  }

  /** The decision rules of ConfigureVShardRoles over the calls from `from` on, for a walk that went from `configured` to `configured'`. */
  ghost predicate RolesDecided(w: World, leader: Option<Pod>, calls: seq<Call>, from: nat, role: RoleValue,
                               configured: bool, configured': bool)
  {
    && (configured' <==> configured && RolesNoFailure(w, leader, calls, from))
    && EditsAfterReads(calls, from)
    && (leader.Some? ==> ReadsDecided(w, leader.value, calls, from, role))
    && (leader.None? ==> forall i :: from <= i < |calls| ==> calls[i].ListStatefulSetsCall?)
  }

  /** The decision rules carry over two consecutive stretches of a growing log. */
  lemma RolesDecidedChain(w: World, leader: Option<Pod>, log: seq<Call>, mid: seq<Call>, end: seq<Call>, role: RoleValue,
                          c0: bool, c1: bool, c2: bool)
    requires |log| <= |mid| <= |end| && end[..|mid|] == mid
    requires RolesDecided(w, leader, mid, |log|, role, c0, c1)
    requires RolesDecided(w, leader, end, |mid|, role, c1, c2)
    ensures RolesDecided(w, leader, end, |log|, role, c0, c2)
  {
    forall n | 0 <= n < |mid| ensures end[n] == mid[n] {
      assert end[..|mid|][n] == mid[n];
    }
    assert RolesNoFailure(w, leader, end, |log|) <==> RolesNoFailure(w, leader, mid, |log|) && RolesNoFailure(w, leader, end, |mid|);
    if leader.Some? {
      ReadsDecidedChain(w, leader.value, log, mid, end, role);
    }
  }

  /** A read decided in a log stays decided in a longer one, unless the longer one puts an edit right after it. */
  lemma ReadDecidedGrows(w: World, l: Pod, mid: seq<Call>, end: seq<Call>, i: nat, role: RoleValue)
    requires |mid| <= |end| && end[..|mid|] == mid && ReadDecidedAt(w, l, mid, i, role)
    requires i + 1 == |mid| < |end| ==> !end[i + 1].EditTopologyCall?
    ensures ReadDecidedAt(w, l, end, i, role)
  {
    assert end[i - 1] == mid[i - 1] && end[i] == mid[i] by {
      assert end[..|mid|][i - 1] == mid[i - 1] && end[..|mid|][i] == mid[i];
    }
    if i + 1 < |mid| {
      assert end[i + 1] == mid[i + 1] by { assert end[..|mid|][i + 1] == mid[i + 1]; }
    }
  }

  /** The read rule over two stretches: a read ending the first stretch is followed in the second by no edit. */
  lemma ReadsDecidedChain(w: World, l: Pod, log: seq<Call>, mid: seq<Call>, end: seq<Call>, role: RoleValue)
    requires |log| <= |mid| <= |end| && end[..|mid|] == mid
    requires ReadsDecided(w, l, mid, |log|, role) && ReadsDecided(w, l, end, |mid|, role)
    requires EditsAfterReads(end, |mid|)
    ensures ReadsDecided(w, l, end, |log|, role)
  {
    forall i | |log| <= i < |mid| && end[i].GetReplicasetRolesCall?
      ensures |log| < i && ReadDecidedAt(w, l, end, i, role)
    {
      assert end[i] == mid[i] by { assert end[..|mid|][i] == mid[i]; }
      if i + 1 == |mid| < |end| {
        assert !end[|mid|].EditTopologyCall?;
      }
      ReadDecidedGrows(w, l, mid, end, i, role);
    }
  }

  /** Reads of one replica set over two consecutive stretches of a growing log. */
  lemma ReadsNamedChain(log: seq<Call>, mid: seq<Call>, end: seq<Call>, uuid: string)
    requires |log| <= |mid| <= |end| && end[..|mid|] == mid
    requires ReadsNamed(mid, |log|, uuid) && ReadsNamed(end, |mid|, uuid)
    ensures ReadsNamed(end, |log|, uuid)
  {
    forall i | |log| <= i < |mid| ensures end[i] == mid[i] {
      assert end[..|mid|][i] == mid[i];
    }
  }

  /**
   * Reads addressed by their last listing over two consecutive stretches of a
   * growing log: the second stretch holds its own listings.
   */
  lemma ReadsAddressedChain(log: seq<Call>, mid: seq<Call>, end: seq<Call>, role: RoleValue, first: nat, next: nat,
                            uuidOf: nat -> string)
    requires |log| <= |mid| <= |end| && end[..|mid|] == mid && first <= next
    requires ReadsAddressed(mid, |log|, role, first, uuidOf) && ReadsAddressed(end, |mid|, role, next, uuidOf)
    ensures ReadsAddressed(end, |log|, role, first, uuidOf)
  {
    forall k | 0 <= k < |mid| ensures end[k] == mid[k] {
      assert end[..|mid|][k] == mid[k];
    }
    forall i | |log| <= i < |end| && end[i].GetReplicasetRolesCall?
      ensures ReadOfLastListing(end, |log|, i, role, first, uuidOf)
    {
      if i < |mid| {
        assert mid[i] == end[i];
        assert ReadOfLastListing(mid, |log|, i, role, first, uuidOf);
        var q: nat, o: nat :| |log| <= q < i && first <= o < role.GetReplicasets() && IsListingOf(mid[q], role, o)
          && NoListingBetween(mid, q, i) && mid[i].uuid == uuidOf(o);
        assert IsListingOf(end[q], role, o) && NoListingBetween(end, q, i);
      } else {
        assert ReadOfLastListing(end, |mid|, i, role, next, uuidOf);
        var q: nat, o: nat :| |mid| <= q < i && next <= o < role.GetReplicasets() && IsListingOf(end[q], role, o)
          && NoListingBetween(end, q, i) && end[i].uuid == uuidOf(o);
        assert |log| <= q && first <= o;
      }
    }
  }

  /** A listing of replica set `ordinal` followed by reads of that replica set only: each read is of its last listing. */
  lemma NamedReadsAddressed(calls: seq<Call>, from: nat, role: RoleValue, ordinal: nat, uuidOf: nat -> string)
    requires ordinal < role.GetReplicasets()
    requires from < |calls| && IsListingOf(calls[from], role, ordinal) && ReadsNamed(calls, from + 1, uuidOf(ordinal))
    ensures ReadsAddressed(calls, from, role, ordinal, uuidOf)
  {
    forall i | from <= i < |calls| && calls[i].GetReplicasetRolesCall?
      ensures ReadOfLastListing(calls, from, i, role, ordinal, uuidOf)
    {
      assert from < i;
      assert NoListingBetween(calls, from, i);
      assert IsListingOf(calls[from], role, ordinal) && calls[i].uuid == uuidOf(ordinal);
    }
  }

  /**
   * The calls from position m on are a roles read of the replica set `uuid`,
   * then the edit exactly when the roles read succeeded and differ under the
   * hierarchy; configured' is configured, cleared by a failing read or edit.
   */
  ghost predicate RolesReadShaped(w: World, role: RoleValue, l: Pod, uuid: string, hierarchy: map<string, seq<string>>,
                                  calls: seq<Call>, m: nat, configured: bool, configured': bool)
  {
    var a := GetReplicasetRolesAnswer(w.replicasetRoles(m, l, uuid));
    && m < |calls| <= m + 2 && calls[m] == GetReplicasetRolesCall(l.meta.name, uuid)
    && (|calls| == m + 2 <==> a.Ok? && !IsVShardRolesEquals(a.value, role.GetVShardConfig().clusterRoles, hierarchy))
    && (|calls| == m + 2 ==>
          && calls[m + 1] == RolesEdit(role, l, uuid)
          && (configured' <==> configured && !RolesCallFailed(w, Some(l), calls[m + 1], m + 1)))
    && (|calls| == m + 1 ==> (configured' <==> configured && a.Ok?))
  }

  /** The shape of reconcileReplicasetRoles: the roles read, then the edit when the roles differ under the hierarchy. */
  lemma ReconcileShape(w: World, role: RoleValue, l: Pod, uuid: string, hierarchy: map<string, seq<string>>,
                       configured: bool, log: seq<Call>)
    ensures var r := ReconcileReplicasetRoles(w, role, l, uuid, hierarchy, configured, log);
      && !r.panicked && r.log[..|log|] == log
      && RolesReadShaped(w, role, l, uuid, hierarchy, r.log, |log|, configured, r.configured)
  {
    var r := ReconcileReplicasetRoles(w, role, l, uuid, hierarchy, configured, log);
    var log1 := log + [GetReplicasetRolesCall(l.meta.name, uuid)];
    assert r.log[..|log1|] == log1;
    assert r.log[..|log|] == log by { assert log1[..|log|] == log; }
  }

  /** A StatefulSet round with a leader whose hierarchy read fails makes that one call and clears the flag. */
  lemma RolesRoundHierarchyFailed(w: World, role: RoleValue, l: Pod, ordinal: nat, configured: bool, log: seq<Call>)
    requires GetRolesHierarchyAnswer(w.rolesHierarchy(|log|, l)).Fail?
    ensures var r := RolesOfReplicaset(w, role, Some(l), ordinal, configured, log);
      && !r.panicked && r.log == log + [GetRolesHierarchyCall(l.meta.name)] && !r.configured
  {
  }

  /**
   * A StatefulSet round with a leader whose hierarchy read succeeds: that
   * read, then the roles read and the edit when the roles differ.
   */
  lemma RolesRoundHierarchyRead(w: World, role: RoleValue, l: Pod, ordinal: nat, uuid: string, configured: bool,
                                log: seq<Call>)
    requires uuid == GetReplicasetUUID(role.GetName(), ordinal, w.sha1)
    requires GetRolesHierarchyAnswer(w.rolesHierarchy(|log|, l)).Ok?
    ensures var r := RolesOfReplicaset(w, role, Some(l), ordinal, configured, log);
      var n := |log|;
      && !r.panicked && n < |r.log| && r.log[..n] == log && r.log[n] == GetRolesHierarchyCall(l.meta.name)
      && RolesReadShaped(w, role, l, uuid, GetRolesHierarchyAnswer(w.rolesHierarchy(n, l)).value, r.log, n + 1, configured,
                         r.configured)
  {
    var n := |log|;
    var h := GetRolesHierarchyAnswer(w.rolesHierarchy(n, l));
    var log1 := log + [GetRolesHierarchyCall(l.meta.name)];
    var r := ReconcileReplicasetRoles(w, role, l, uuid, h.value, configured, log1);
    assert RolesOfReplicaset(w, role, Some(l), ordinal, configured, log) == r;
    ReconcileShape(w, role, l, uuid, h.value, configured, log1);
    PrefixThenCall(r.log, log, GetRolesHierarchyCall(l.meta.name));
  }

  /** A log that starts with log + [c] starts with log, and has c right after it. */
  lemma PrefixThenCall(calls: seq<Call>, log: seq<Call>, c: Call)
    requires |log| < |calls| && calls[..|log| + 1] == log + [c]
    ensures calls[..|log|] == log && calls[|log|] == c
  {
    assert calls[..|log|] == calls[..|log| + 1][..|log|];
    assert calls[|log|] == calls[..|log| + 1][|log|];
  }

  /**
   * Where the round of one StatefulSet of replica set o, begun at position p
   * with leader l, ends: after the hierarchy read when it failed, else after
   * the roles read, or after the edit when that read succeeded and the roles
   * differ under the hierarchy.
   */
  ghost function RoundEnd(w: World, role: RoleValue, l: Pod, o: nat, p: nat): (e: nat)
    ensures p < e <= p + 3
  {
    var h := GetRolesHierarchyAnswer(w.rolesHierarchy(p, l));
    if h.Fail? then p + 1
    else
      var a := GetReplicasetRolesAnswer(w.replicasetRoles(p + 1, l, GetReplicasetUUID(role.GetName(), o, w.sha1)));
      if a.Ok? && !IsVShardRolesEquals(a.value, role.GetVShardConfig().clusterRoles, h.value) then p + 3 else p + 2
  }

  /**
   * At position p the leader's roles hierarchy is read and, when that read
   * succeeds, the roles of replica set o are read right after it, under o's
   * own UUID.
   */
  ghost predicate RoundAt(w: World, calls: seq<Call>, p: nat, role: RoleValue, l: Pod, o: nat)
  {
    && p < |calls| && calls[p] == GetRolesHierarchyCall(l.meta.name)
    && (GetRolesHierarchyAnswer(w.rolesHierarchy(p, l)).Ok? ==>
          p + 1 < |calls| && calls[p + 1] == GetReplicasetRolesCall(l.meta.name, GetReplicasetUUID(role.GetName(), o, w.sha1)))
  }

  /** From position p on, the StatefulSets `items` of replica set o that are not being deleted each get their round, one after the other. */
  ghost predicate RoundsFrom(w: World, calls: seq<Call>, p: nat, role: RoleValue, l: Pod, o: nat,
                             items: seq<StatefulSetValue>)
    decreases |items|
  {
    |items| > 0 ==>
      if items[0].meta.deleting then RoundsFrom(w, calls, p, role, l, o, items[1..])
      else RoundAt(w, calls, p, role, l, o) && RoundsFrom(w, calls, RoundEnd(w, role, l, o, p), role, l, o, items[1..])
  }

  /**
   * Replica set o was listed from `from` on and, when that listing succeeded,
   * every StatefulSet it found that is not being deleted got its round right
   * after it.
   */
  ghost predicate OrdinalRolesRead(w: World, calls: seq<Call>, from: nat, role: RoleValue, l: Pod, o: nat)
  {
    exists q :: from <= q < |calls| && IsListingOf(calls[q], role, o)
      && var a := w.listStatefulSets(q, role.GetNamespace(), Manager.SelectorByReplicasetOrdinal(role.meta, o));
        a.Ok? ==> RoundsFrom(w, calls, q + 1, role, l, o, a.value)
  }

  /** Every replica set numbered first .. replicasets - 1 had its roles read. */
  ghost predicate RolesCovered(w: World, calls: seq<Call>, from: nat, role: RoleValue, l: Pod, first: nat)
  {
    forall o: nat :: first <= o < role.GetReplicasets() ==> OrdinalRolesRead(w, calls, from, role, l, o)
  }

  /** A round in a prefix of the log is a round of the whole log. */
  lemma RoundAtGrows(w: World, mid: seq<Call>, end: seq<Call>, p: nat, role: RoleValue, l: Pod, o: nat)
    requires |mid| <= |end| && end[..|mid|] == mid && RoundAt(w, mid, p, role, l, o)
    ensures RoundAt(w, end, p, role, l, o)
  {
    assert end[p] == mid[p] by { assert end[..|mid|][p] == mid[p]; }
    if p + 1 < |mid| {
      assert end[p + 1] == mid[p + 1] by { assert end[..|mid|][p + 1] == mid[p + 1]; }
    }
  }

  /** Rounds in a prefix of the log are rounds of the whole log. */
  lemma {:induction false} RoundsFromGrows(w: World, mid: seq<Call>, end: seq<Call>, p: nat, role: RoleValue, l: Pod,
                                           o: nat, items: seq<StatefulSetValue>)
    requires |mid| <= |end| && end[..|mid|] == mid && RoundsFrom(w, mid, p, role, l, o, items)
    ensures RoundsFrom(w, end, p, role, l, o, items)
    decreases |items|
  {
    if |items| > 0 {
      if items[0].meta.deleting {
        RoundsFromGrows(w, mid, end, p, role, l, o, items[1..]);
      } else {
        RoundAtGrows(w, mid, end, p, role, l, o);
        RoundsFromGrows(w, mid, end, RoundEnd(w, role, l, o, p), role, l, o, items[1..]);
      }
    }
  }

  /** A replica set whose roles were read over a prefix of the log stays so over the whole log, and from any earlier position. */
  lemma OrdinalRolesReadGrows(w: World, from: nat, later: nat, mid: seq<Call>, end: seq<Call>, role: RoleValue, l: Pod,
                              o: nat)
    requires from <= later && |mid| <= |end| && end[..|mid|] == mid && OrdinalRolesRead(w, mid, later, role, l, o)
    ensures OrdinalRolesRead(w, end, from, role, l, o)
  {
    var q :| later <= q < |mid| && IsListingOf(mid[q], role, o)
      && var a := w.listStatefulSets(q, role.GetNamespace(), Manager.SelectorByReplicasetOrdinal(role.meta, o));
        a.Ok? ==> RoundsFrom(w, mid, q + 1, role, l, o, a.value);
    assert end[q] == mid[q] by { assert end[..|mid|][q] == mid[q]; }
    var a := w.listStatefulSets(q, role.GetNamespace(), Manager.SelectorByReplicasetOrdinal(role.meta, o));
    if a.Ok? {
      RoundsFromGrows(w, mid, end, q + 1, role, l, o, a.value);
    }
  }

  /**
   * The calls of one StatefulSet round with a leader, for replica set
   * `ordinal`: they follow the decision rules, read that replica set only,
   * and form its round, which ends where RoundEnd says.
   */
  lemma RolesRoundDecided(w: World, role: RoleValue, l: Pod, ordinal: nat, configured: bool, log: seq<Call>)
    ensures var r := RolesOfReplicaset(w, role, Some(l), ordinal, configured, log);
      && !r.panicked && |log| <= |r.log| && r.log[..|log|] == log
      && RolesDecided(w, Some(l), r.log, |log|, role, configured, r.configured)
      && ReadsNamed(r.log, |log|, GetReplicasetUUID(role.GetName(), ordinal, w.sha1))
      && RoundAt(w, r.log, |log|, role, l, ordinal) && |r.log| == RoundEnd(w, role, l, ordinal, |log|)
  {
    var n := |log|;
    var r := RolesOfReplicaset(w, role, Some(l), ordinal, configured, log);
    var uuid := GetReplicasetUUID(role.GetName(), ordinal, w.sha1);
    if GetRolesHierarchyAnswer(w.rolesHierarchy(n, l)).Ok? {
      RolesRoundHierarchyRead(w, role, l, ordinal, uuid, configured, log);
    } else {
      RolesRoundHierarchyFailed(w, role, l, ordinal, configured, log);
      assert r.log[..n] == log;
    }
    RoundCallsDecided(w, role, l, uuid, n, r.log, configured, r.configured);
    RoundCallsSpan(w, role, l, ordinal, uuid, n, r.log, configured, r.configured);
  }

  /** Calls shaped as one StatefulSet round from position n follow the decision rules and read replica set `uuid` only. */
  lemma RoundCallsDecided(w: World, role: RoleValue, l: Pod, uuid: string, n: nat,
                          calls: seq<Call>, configured: bool, configured': bool)
    requires var h := GetRolesHierarchyAnswer(w.rolesHierarchy(n, l));
      && n < |calls| && calls[n] == GetRolesHierarchyCall(l.meta.name)
      && (h.Fail? ==> |calls| == n + 1 && !configured')
      && (h.Ok? ==> RolesReadShaped(w, role, l, uuid, h.value, calls, n + 1, configured, configured'))
    ensures RolesDecided(w, Some(l), calls, n, role, configured, configured')
    ensures ReadsNamed(calls, n, uuid)
  {
    RoundNoFailure(w, l, n, calls, uuid);
    RoundAddressed(n, calls, uuid);
    if n + 1 < |calls| {
      assert ReadDecidedAt(w, l, calls, n + 1, role);
    }
    forall i | n <= i < |calls| && calls[i].GetReplicasetRolesCall? ensures n < i && ReadDecidedAt(w, l, calls, i, role) {
      assert i == n + 1;
    }
  }

  /** Calls shaped as one StatefulSet round of replica set o from position n form its round and end where RoundEnd says. */
  lemma RoundCallsSpan(w: World, role: RoleValue, l: Pod, o: nat, uuid: string, n: nat,
                       calls: seq<Call>, configured: bool, configured': bool)
    requires uuid == GetReplicasetUUID(role.GetName(), o, w.sha1)
    requires var h := GetRolesHierarchyAnswer(w.rolesHierarchy(n, l));
      && n < |calls| && calls[n] == GetRolesHierarchyCall(l.meta.name)
      && (h.Fail? ==> |calls| == n + 1 && !configured')
      && (h.Ok? ==> RolesReadShaped(w, role, l, uuid, h.value, calls, n + 1, configured, configured'))
    ensures RoundAt(w, calls, n, role, l, o) && |calls| == RoundEnd(w, role, l, o, n)
  {
  }

  /** No call of a round failed exactly when the hierarchy read, the roles read and the edit, where made, succeeded. */
  lemma RoundNoFailure(w: World, l: Pod, n: nat, calls: seq<Call>, uuid: string)
    requires n < |calls| <= n + 3 && calls[n] == GetRolesHierarchyCall(l.meta.name)
    requires n + 1 < |calls| ==> calls[n + 1] == GetReplicasetRolesCall(l.meta.name, uuid)
    ensures RolesNoFailure(w, Some(l), calls, n)
        <==> && GetRolesHierarchyAnswer(w.rolesHierarchy(n, l)).Ok?
             && (n + 1 < |calls| ==> GetReplicasetRolesAnswer(w.replicasetRoles(n + 1, l, uuid)).Ok?)
             && (n + 2 < |calls| ==> !RolesCallFailed(w, Some(l), calls[n + 2], n + 2))
  {
    if RolesNoFailure(w, Some(l), calls, n) {
      assert !RolesCallFailed(w, Some(l), calls[n], n);
      if n + 1 < |calls| {
        assert !RolesCallFailed(w, Some(l), calls[n + 1], n + 1);
      }
      if n + 2 < |calls| {
        assert !RolesCallFailed(w, Some(l), calls[n + 2], n + 2);
      }
    } else {
      var k :| n <= k < |calls| && RolesCallFailed(w, Some(l), calls[k], k);
      assert k == n || k == n + 1 || k == n + 2;
    }
  }

  /** A round makes no listing, its roles read is of replica set `uuid`, and its edit comes right after that read. */
  lemma RoundAddressed(n: nat, calls: seq<Call>, uuid: string)
    requires n < |calls| <= n + 3 && calls[n].GetRolesHierarchyCall?
    requires n + 1 < |calls| ==> calls[n + 1].GetReplicasetRolesCall? && calls[n + 1].uuid == uuid
    requires n + 2 < |calls| ==> calls[n + 2].EditTopologyCall?
    ensures EditsAfterReads(calls, n) && ReadsNamed(calls, n, uuid)
  {
    forall i | n <= i < |calls|
      ensures !calls[i].ListStatefulSetsCall? && (calls[i].GetReplicasetRolesCall? ==> calls[i].uuid == uuid)
      ensures calls[i].EditTopologyCall? ==> n < i && calls[i - 1].GetReplicasetRolesCall?
    {
      assert i == n || i == n + 1 || i == n + 2;
    }
  }

  /** Replica set `o` was listed from `from` on. */
  ghost predicate Listed(calls: seq<Call>, from: nat, role: RoleValue, o: nat)
  {
    exists q :: from <= q < |calls| && IsListingOf(calls[q], role, o)
  }

  /** A listing in a prefix of the log, from some position, is a listing of the whole log from any earlier position. */
  lemma ListedGrows(from: nat, later: nat, mid: seq<Call>, end: seq<Call>, role: RoleValue, o: nat)
    requires from <= later && |mid| <= |end| && end[..|mid|] == mid && Listed(mid, later, role, o)
    ensures Listed(end, from, role, o)
  {
    var q :| later <= q < |mid| && IsListingOf(mid[q], role, o);
    assert end[q] == mid[q] by { assert end[..|mid|][q] == mid[q]; }
  }

  /**
   * The StatefulSet loop of replica set `ordinal` from item i on follows the
   * decision rules, reads that replica set only, under its own UUID, and
   * panics only without a leader; with a leader it gives every StatefulSet
   * not being deleted its round, one after the other.
   */
  lemma {:induction false} RolesItemsDecided(w: World, role: RoleValue, leader: Option<Pod>, ordinal: nat,
                                             items: seq<StatefulSetValue>, i: nat, configured: bool, log: seq<Call>)
    requires i <= |items|
    ensures var r := RolesItemsFrom(w, role, leader, ordinal, items, i, configured, log);
      && |log| <= |r.log| && r.log[..|log|] == log && (r.panicked ==> leader.None?)
      && RolesDecided(w, leader, r.log, |log|, role, configured, r.configured)
      && ReadsNamed(r.log, |log|, GetReplicasetUUID(role.GetName(), ordinal, w.sha1))
      && (leader.Some? ==> RoundsFrom(w, r.log, |log|, role, leader.value, ordinal, items[i..]))
    decreases |items| - i, 1
  {
    var r := RolesItemsFrom(w, role, leader, ordinal, items, i, configured, log);
    if i == |items| {
    } else if items[i].meta.deleting {
      RolesItemsDecided(w, role, leader, ordinal, items, i + 1, configured, log);
      assert items[i..][1..] == items[i + 1..];
    } else if leader.None? {
      assert r.log == log;
    } else {
      RolesItemsLed(w, role, leader.value, ordinal, items, i, configured, log);
    }
  }

  /** The StatefulSet loop with a leader at a StatefulSet not being deleted: its round, then the loop over the rest. */
  lemma {:induction false} RolesItemsLed(w: World, role: RoleValue, l: Pod, ordinal: nat,
                                         items: seq<StatefulSetValue>, i: nat, configured: bool, log: seq<Call>)
    requires i < |items| && !items[i].meta.deleting
    ensures var r := RolesItemsFrom(w, role, Some(l), ordinal, items, i, configured, log);
      && |log| <= |r.log| && r.log[..|log|] == log && !r.panicked
      && RolesDecided(w, Some(l), r.log, |log|, role, configured, r.configured)
      && ReadsNamed(r.log, |log|, GetReplicasetUUID(role.GetName(), ordinal, w.sha1))
      && RoundsFrom(w, r.log, |log|, role, l, ordinal, items[i..])
    decreases |items| - i, 0
  {
    var round := RolesOfReplicaset(w, role, Some(l), ordinal, configured, log);
    var r := RolesItemsFrom(w, role, Some(l), ordinal, items, i + 1, round.configured, round.log);
    RolesRoundDecided(w, role, l, ordinal, configured, log);
    assert r == RolesItemsFrom(w, role, Some(l), ordinal, items, i, configured, log);
    RolesItemsDecided(w, role, Some(l), ordinal, items, i + 1, round.configured, round.log);
    RolesItemsAfterRound(w, role, l, ordinal, configured, log, round, r);
    RoundsAfterRound(w, role, l, ordinal, items, i, log, round.log, r.log);
  }

  /** The StatefulSet loop after a round: the decision rules and reads of the rest carry over to the whole. */
  lemma RolesItemsAfterRound(w: World, role: RoleValue, l: Pod, ordinal: nat, configured: bool,
                             log: seq<Call>, round: RolesWalk, r: RolesWalk)
    requires |log| <= |round.log| && round.log[..|log|] == log
    requires RolesDecided(w, Some(l), round.log, |log|, role, configured, round.configured)
    requires ReadsNamed(round.log, |log|, GetReplicasetUUID(role.GetName(), ordinal, w.sha1))
    requires |round.log| <= |r.log| && r.log[..|round.log|] == round.log
    requires RolesDecided(w, Some(l), r.log, |round.log|, role, round.configured, r.configured)
    requires ReadsNamed(r.log, |round.log|, GetReplicasetUUID(role.GetName(), ordinal, w.sha1))
    ensures |log| <= |r.log| && r.log[..|log|] == log
    ensures RolesDecided(w, Some(l), r.log, |log|, role, configured, r.configured)
    ensures ReadsNamed(r.log, |log|, GetReplicasetUUID(role.GetName(), ordinal, w.sha1))
  {
    assert r.log[..|log|] == log by {
      assert r.log[..|round.log|][..|log|] == round.log[..|log|];
    }
    RolesDecidedChain(w, Some(l), log, round.log, r.log, role, configured, round.configured, r.configured);
    ReadsNamedChain(log, round.log, r.log, GetReplicasetUUID(role.GetName(), ordinal, w.sha1));
  }

  /** The round of item i, then the rounds of the items after it, are the rounds from item i on. */
  lemma RoundsAfterRound(w: World, role: RoleValue, l: Pod, ordinal: nat, items: seq<StatefulSetValue>, i: nat,
                         log: seq<Call>, mid: seq<Call>, end: seq<Call>)
    requires i < |items| && !items[i].meta.deleting
    requires |mid| <= |end| && end[..|mid|] == mid
    requires RoundAt(w, mid, |log|, role, l, ordinal) && |mid| == RoundEnd(w, role, l, ordinal, |log|)
    requires RoundsFrom(w, end, |mid|, role, l, ordinal, items[i + 1..])
    ensures RoundsFrom(w, end, |log|, role, l, ordinal, items[i..])
  {
    RoundAtGrows(w, mid, end, |log|, role, l, ordinal);
    assert items[i..][1..] == items[i + 1..];
  }

  /** A listing of replica set `ordinal`, then reads of that replica set only: each read is of that listing. */
  lemma ListingThenReads(w: World, role: RoleValue, ordinal: nat, from: nat, calls: seq<Call>)
    requires ordinal < role.GetReplicasets()
    requires from < |calls| && IsListingOf(calls[from], role, ordinal)
    requires ReadsNamed(calls, from + 1, GetReplicasetUUID(role.GetName(), ordinal, w.sha1))
    ensures ReadsAddressed(calls, from, role, ordinal, UUIDByOrdinal(w, role))
  {
    assert UUIDByOrdinal(w, role)(ordinal) == GetReplicasetUUID(role.GetName(), ordinal, w.sha1);
    NamedReadsAddressed(calls, from, role, ordinal, UUIDByOrdinal(w, role));
  }

  /** A listing of replica set `ordinal` followed, when it succeeded, by the rounds of what it found. */
  lemma ListingThenRounds(w: World, role: RoleValue, l: Pod, ordinal: nat, from: nat, calls: seq<Call>)
    requires from < |calls| && IsListingOf(calls[from], role, ordinal)
    requires var a := w.listStatefulSets(from, role.GetNamespace(), Manager.SelectorByReplicasetOrdinal(role.meta, ordinal));
      a.Ok? ==> RoundsFrom(w, calls, from + 1, role, l, ordinal, a.value)
    ensures OrdinalRolesRead(w, calls, from, role, l, ordinal)
  {
  }

  /**
   * One replica set: its listing, then the StatefulSet loop over what it
   * found. Every roles read is of that replica set, and with a leader every
   * StatefulSet found and not being deleted gets its round.
   */
  lemma RolesOrdinalDecided(w: World, role: RoleValue, leader: Option<Pod>, ordinal: nat, configured: bool, log: seq<Call>)
    requires ordinal < role.GetReplicasets()
    ensures var r := RolesOfOrdinal(w, role, leader, ordinal, configured, log);
      && |log| < |r.log| && r.log[..|log|] == log && IsListingOf(r.log[|log|], role, ordinal)
      && (r.panicked ==> leader.None?)
      && RolesDecided(w, leader, r.log, |log|, role, configured, r.configured)
      && ReadsAddressed(r.log, |log|, role, ordinal, UUIDByOrdinal(w, role))
      && (leader.Some? ==> OrdinalRolesRead(w, r.log, |log|, role, leader.value, ordinal))
  {
    var log1 := log + [OrdinalListing(role, ordinal)];
    var items := w.listStatefulSets(|log|, role.GetNamespace(), Manager.SelectorByReplicasetOrdinal(role.meta, ordinal));
    var r := RolesOfOrdinal(w, role, leader, ordinal, configured, log);
    if items.Ok? {
      RolesOrdinalFound(w, role, leader, ordinal, configured, log);
    } else {
      assert r.log == log1 && !r.configured;
      assert RolesCallFailed(w, leader, r.log[|log|], |log|);
      if leader.Some? {
        ListingThenRounds(w, role, leader.value, ordinal, |log|, r.log);
      }
    }
  }

  /** One replica set whose listing succeeded: the listing, then the StatefulSet loop over what it found. */
  lemma RolesOrdinalFound(w: World, role: RoleValue, leader: Option<Pod>, ordinal: nat, configured: bool, log: seq<Call>)
    requires ordinal < role.GetReplicasets()
    requires w.listStatefulSets(|log|, role.GetNamespace(), Manager.SelectorByReplicasetOrdinal(role.meta, ordinal)).Ok?
    ensures var r := RolesOfOrdinal(w, role, leader, ordinal, configured, log);
      && |log| < |r.log| && r.log[..|log|] == log && IsListingOf(r.log[|log|], role, ordinal)
      && (r.panicked ==> leader.None?)
      && RolesDecided(w, leader, r.log, |log|, role, configured, r.configured)
      && ReadsAddressed(r.log, |log|, role, ordinal, UUIDByOrdinal(w, role))
      && (leader.Some? ==> OrdinalRolesRead(w, r.log, |log|, role, leader.value, ordinal))
  {
    var log1 := log + [OrdinalListing(role, ordinal)];
    var items := w.listStatefulSets(|log|, role.GetNamespace(), Manager.SelectorByReplicasetOrdinal(role.meta, ordinal)).value;
    var r := RolesItemsFrom(w, role, leader, ordinal, items, 0, configured, log1);
    assert r == RolesOfOrdinal(w, role, leader, ordinal, configured, log);
    RolesItemsDecided(w, role, leader, ordinal, items, 0, configured, log1);
    ListingThenItems(w, role, leader, ordinal, configured, log, r.log, r.configured);
    if leader.Some? {
      assert items[0..] == items;
      ListingThenRounds(w, role, leader.value, ordinal, |log|, r.log);
    }
  }

  /** A successful listing of replica set `ordinal`, then calls following the rules of its StatefulSet loop and reading that replica set only. */
  lemma ListingThenItems(w: World, role: RoleValue, leader: Option<Pod>, ordinal: nat, configured: bool, log: seq<Call>,
                         calls: seq<Call>, configured': bool)
    requires ordinal < role.GetReplicasets()
    requires var a := w.listStatefulSets(|log|, role.GetNamespace(), Manager.SelectorByReplicasetOrdinal(role.meta, ordinal));
      && a.Ok? && |log| + 1 <= |calls| && calls[..|log| + 1] == log + [OrdinalListing(role, ordinal)]
      && RolesDecided(w, leader, calls, |log| + 1, role, configured, configured')
      && ReadsNamed(calls, |log| + 1, GetReplicasetUUID(role.GetName(), ordinal, w.sha1))
    ensures |log| < |calls| && calls[..|log|] == log && IsListingOf(calls[|log|], role, ordinal)
    ensures RolesDecided(w, leader, calls, |log|, role, configured, configured')
    ensures ReadsAddressed(calls, |log|, role, ordinal, UUIDByOrdinal(w, role))
  {
    var log1 := log + [OrdinalListing(role, ordinal)];
    assert RolesDecided(w, leader, log1, |log|, role, configured, configured) by {
      assert !RolesCallFailed(w, leader, log1[|log|], |log|);
    }
    PrefixThenCall(calls, log, OrdinalListing(role, ordinal));
    RolesDecidedChain(w, leader, log, log1, calls, role, configured, configured, configured');
    ListingThenReads(w, role, ordinal, |log|, calls);
  }

  /** The ordinal loop from `ordinal` on after a round that did not panic: the decision rules and reads of the rest carry over to the whole. */
  lemma RolesOrdinalsAfterRound(w: World, role: RoleValue, leader: Option<Pod>, ordinal: nat, configured: bool,
                                log: seq<Call>, round: RolesWalk, r: RolesWalk)
    requires ordinal < role.GetReplicasets()
    requires |log| < |round.log| && round.log[..|log|] == log && IsListingOf(round.log[|log|], role, ordinal)
    requires RolesDecided(w, leader, round.log, |log|, role, configured, round.configured)
    requires ReadsAddressed(round.log, |log|, role, ordinal, UUIDByOrdinal(w, role))
    requires |round.log| <= |r.log| && r.log[..|round.log|] == round.log
    requires RolesDecided(w, leader, r.log, |round.log|, role, round.configured, r.configured)
    requires ReadsAddressed(r.log, |round.log|, role, ordinal + 1, UUIDByOrdinal(w, role))
    requires !r.panicked ==> forall o: nat :: ordinal + 1 <= o < role.GetReplicasets() ==> Listed(r.log, |round.log|, role, o)
    requires leader.Some? ==> OrdinalRolesRead(w, round.log, |log|, role, leader.value, ordinal)
    requires leader.Some? ==> RolesCovered(w, r.log, |round.log|, role, leader.value, ordinal + 1)
    ensures |log| <= |r.log| && r.log[..|log|] == log
    ensures RolesDecided(w, leader, r.log, |log|, role, configured, r.configured)
    ensures ReadsAddressed(r.log, |log|, role, ordinal, UUIDByOrdinal(w, role))
    ensures !r.panicked ==> forall o: nat :: ordinal <= o < role.GetReplicasets() ==> Listed(r.log, |log|, role, o)
    ensures leader.Some? ==> RolesCovered(w, r.log, |log|, role, leader.value, ordinal)
  {
    assert r.log[..|log|] == log by {
      assert r.log[..|round.log|][..|log|] == round.log[..|log|];
    }
    RolesDecidedChain(w, leader, log, round.log, r.log, role, configured, round.configured, r.configured);
    ReadsAddressedChain(log, round.log, r.log, role, ordinal, ordinal + 1, UUIDByOrdinal(w, role));
    if !r.panicked {
      forall o: nat | ordinal <= o < role.GetReplicasets() ensures Listed(r.log, |log|, role, o) {
        if o == ordinal {
          assert Listed(round.log, |log|, role, o);
          ListedGrows(|log|, |log|, round.log, r.log, role, o);
        } else {
          ListedGrows(|log|, |round.log|, r.log, r.log, role, o);
        }
      }
    }
    if leader.Some? {
      RolesCoveredAfterRound(w, role, leader.value, ordinal, log, round.log, r.log);
    }
  }

  /** The replica sets covered by one round of the ordinal loop and by the rest of it are all covered by the whole. */
  lemma RolesCoveredAfterRound(w: World, role: RoleValue, l: Pod, ordinal: nat, log: seq<Call>, mid: seq<Call>,
                               end: seq<Call>)
    requires |log| <= |mid| <= |end| && end[..|mid|] == mid
    requires OrdinalRolesRead(w, mid, |log|, role, l, ordinal)
    requires RolesCovered(w, end, |mid|, role, l, ordinal + 1)
    ensures RolesCovered(w, end, |log|, role, l, ordinal)
  {
    forall o: nat | ordinal <= o < role.GetReplicasets() ensures OrdinalRolesRead(w, end, |log|, role, l, o) {
      if o == ordinal {
        OrdinalRolesReadGrows(w, |log|, |log|, mid, end, role, l, o);
      } else {
        OrdinalRolesReadGrows(w, |log|, |mid|, end, end, role, l, o);
      }
    }
  }

  /**
   * The ordinal loop of ConfigureVShardRoles from `ordinal` on follows the
   * decision rules and panics only without a leader; every roles read is of
   * the replica set listed last before it; a walk that did not panic listed
   * every replica set from `ordinal` on; and with a leader every replica set
   * from `ordinal` on had the roles of each StatefulSet its listing found read.
   */
  lemma {:induction false} RolesOrdinalsDecided(w: World, role: RoleValue, leader: Option<Pod>, ordinal: nat,
                                                configured: bool, log: seq<Call>)
    ensures var r := RolesOrdinalsFrom(w, role, leader, ordinal, configured, log);
      && |log| <= |r.log| && r.log[..|log|] == log && (r.panicked ==> leader.None?)
      && RolesDecided(w, leader, r.log, |log|, role, configured, r.configured)
      && ReadsAddressed(r.log, |log|, role, ordinal, UUIDByOrdinal(w, role))
      && (!r.panicked ==> forall o: nat :: ordinal <= o < role.GetReplicasets() ==> Listed(r.log, |log|, role, o))
      && (leader.Some? ==> RolesCovered(w, r.log, |log|, role, leader.value, ordinal))
    decreases role.GetReplicasets() - ordinal, 1
  {
    var r := RolesOrdinalsFrom(w, role, leader, ordinal, configured, log);
    if ordinal < role.GetReplicasets() {
      var round := RolesOfOrdinal(w, role, leader, ordinal, configured, log);
      RolesOrdinalDecided(w, role, leader, ordinal, configured, log);
      if round.panicked {
        assert r == round;
      } else {
        RolesOrdinalsGoOn(w, role, leader, ordinal, configured, log);
      }
    }
  }

  /** The ordinal loop after a replica set whose round did not panic: that round, then the loop from the next ordinal. */
  lemma {:induction false} RolesOrdinalsGoOn(w: World, role: RoleValue, leader: Option<Pod>, ordinal: nat,
                                             configured: bool, log: seq<Call>)
    requires ordinal < role.GetReplicasets() && !RolesOfOrdinal(w, role, leader, ordinal, configured, log).panicked
    ensures var r := RolesOrdinalsFrom(w, role, leader, ordinal, configured, log);
      && |log| <= |r.log| && r.log[..|log|] == log && (r.panicked ==> leader.None?)
      && RolesDecided(w, leader, r.log, |log|, role, configured, r.configured)
      && ReadsAddressed(r.log, |log|, role, ordinal, UUIDByOrdinal(w, role))
      && (!r.panicked ==> forall o: nat :: ordinal <= o < role.GetReplicasets() ==> Listed(r.log, |log|, role, o))
      && (leader.Some? ==> RolesCovered(w, r.log, |log|, role, leader.value, ordinal))
    decreases role.GetReplicasets() - ordinal, 0
  {
    var round := RolesOfOrdinal(w, role, leader, ordinal, configured, log);
    var r := RolesOrdinalsFrom(w, role, leader, ordinal + 1, round.configured, round.log);
    RolesOrdinalDecided(w, role, leader, ordinal, configured, log);
    RolesOrdinalsDecided(w, role, leader, ordinal + 1, round.configured, round.log);
    RolesOrdinalsAfterRound(w, role, leader, ordinal, configured, log, round, r);
    assert r == RolesOrdinalsFrom(w, role, leader, ordinal, configured, log);
  }

  method ConfigureReplicasetRoles(ctrl: Controller, role: RoleValue, leader: Option<Pod>, ordinal: nat, configured0: bool)
    returns (panicked: bool, configured: bool)
    modifies ctrl
    ensures RolesWalk(panicked, configured, ctrl.log) == RolesOfReplicaset(ctrl.world, role, leader, ordinal, configured0, old(ctrl.log))
  {
    if leader.None? {
      return true, configured0;
    }
    var l := leader.value;
    var hierarchy := ctrl.GetRolesHierarchy(l);
    var h := GetRolesHierarchyAnswer(hierarchy);
    if h.Fail? {
      return false, false;
    }
    var uuid := GetReplicasetUUID(role.GetName(), ordinal, ctrl.world.sha1);
    var actual := ctrl.GetReplicasetRoles(l, uuid);
    var a := GetReplicasetRolesAnswer(actual);
    if a.Fail? {
      return false, false;
    }
    var desired := role.GetVShardConfig().clusterRoles;
    var equal := VShardRolesEqual(a.value, desired, h.value);
    if !equal {
      var err := SetReplicasetRoles(ctrl, l, uuid, desired);
      if err.Some? {
        return false, false;
      }
    }
    return false, configured0;
  }

  /** IsVShardRolesEquals, computed through the role maps as the Go helper does. */
  method VShardRolesEqual(a: seq<string>, b: seq<string>, hierarchy: map<string, seq<string>>) returns (equal: bool)
    ensures equal <==> IsVShardRolesEquals(a, b, hierarchy)
  {
    var ma := VShardRolesToMap(a, hierarchy);
    var mb := VShardRolesToMap(b, hierarchy);
    equal := ma == mb;
  }

  method ConfigureOrdinalRoles(ctrl: Controller, role: RoleValue, leader: Option<Pod>, ordinal: nat, configured0: bool)
    returns (panicked: bool, configured: bool)
    modifies ctrl
    ensures RolesWalk(panicked, configured, ctrl.log) == RolesOfOrdinal(ctrl.world, role, leader, ordinal, configured0, old(ctrl.log))
  {
    configured := configured0;
    var list := ctrl.ListStatefulSets(role.GetNamespace(), Manager.SelectorByReplicasetOrdinal(role.meta, ordinal));
    if list.Fail? {
      return false, false;
    }
    var items := list.value;
    ghost var round := RolesItemsFrom(ctrl.world, role, leader, ordinal, items, 0, configured, ctrl.log);
    var i := 0;
    while i < |items|
      invariant 0 <= i <= |items|
      invariant RolesItemsFrom(ctrl.world, role, leader, ordinal, items, i, configured, ctrl.log) == round
    {
      if !items[i].meta.deleting {
        panicked, configured := ConfigureReplicasetRoles(ctrl, role, leader, ordinal, configured);
        if panicked {
          return;
        }
      }
      i := i + 1;
    }
    panicked := false;
  }

  method ConfigureVShardRoles(ctx: Context, ctrl: Controller) returns (ret: StepReturn)
    requires ctx.RoleCtx?
    modifies ctrl
    ensures StepOut(ret, ctx.Abs(), ctrl.log) == ConfigureVShardRolesSpec(ctrl.world, old(ctx.Abs()), old(ctrl.log))
  {
    var r := ctx.rc.role;
    if r == null {
      return Panic;
    }
    var role := r.Value();
    var leader := ctx.Common().GetLeader();
    ghost var walk := RolesOrdinalsFrom(ctrl.world, role, leader, 0, true, ctrl.log);
    var configured := true;
    var ordinal: nat := 0;
    while ordinal < role.GetReplicasets()
      invariant RolesOrdinalsFrom(ctrl.world, role, leader, ordinal, configured, ctrl.log) == walk
      decreases role.GetReplicasets() - ordinal
    {
      var panicked;
      panicked, configured := ConfigureOrdinalRoles(ctrl, role, leader, ordinal, configured);
      if panicked {
        return Panic;
      }
      ordinal := ordinal + 1;
    }
    if !configured {
      return Requeue(ErrorTimeout);
    }
    ret := NextStep();
  }

  // ----- SetVShardWeights -----

  /** The state of the weights walk: a nil leader met, the first error, the log. */
  datatype WeightsWalk = WeightsWalk(panicked: bool, err: Option<Error>, log: seq<Call>)
  {
    predicate Stopped() { panicked || err.Some? }
  }

  /** A call that sets the role's weight on a replica set, through the leader. */
  predicate WeightWrite(role: RoleValue, leader: Option<Pod>, call: Call)
  {
    call.SetWeightCall? && leader.Some? && call.pod == leader.value.meta.name
    && call.weight == role.GetVShardConfig().weight
  }

  /** What the weights walk promises: its only writes set the role's weight, and it panics only on a nil leader. */
  predicate WeightsFacts(role: RoleValue, leader: Option<Pod>, log: seq<Call>, r: WeightsWalk)
  {
    Extends(r.log, log) && (r.panicked ==> leader.None?)
    && forall i :: |log| <= i < |r.log| && r.log[i].IsWrite() ==> WeightWrite(role, leader, r.log[i])
  }

  lemma WeightsChain(role: RoleValue, leader: Option<Pod>, log: seq<Call>, mid: WeightsWalk, end: WeightsWalk)
    requires WeightsFacts(role, leader, log, mid)
    requires WeightsFacts(role, leader, mid.log, end)
    ensures WeightsFacts(role, leader, log, end)
  {
    forall i | |log| <= i < |mid.log|
      ensures end.log[i] == mid.log[i]
    {
      assert end.log[..|mid.log|][i] == mid.log[i];
    }
  }

  lemma WeightsOfCalls(role: RoleValue, leader: Option<Pod>, log: seq<Call>, r: WeightsWalk, ext: seq<Call>)
    requires r.log == log + ext
    requires forall c | c in ext && c.IsWrite() :: WeightWrite(role, leader, c)
    requires r.panicked ==> leader.None?
    ensures WeightsFacts(role, leader, log, r)
  {
    assert r.log[..|log|] == log;
    forall i | |log| <= i < |r.log|
      ensures r.log[i] in ext
    {
      assert r.log[i] == ext[i - |log|];
    }
  }

  /** The StatefulSet loop: each replica set not being deleted gets the role's weight under its UUID label. */
  function WeightsItemsFrom(w: World, role: RoleValue, leader: Option<Pod>, items: seq<StatefulSetValue>,
                            i: nat, log: seq<Call>): WeightsWalk
    requires i <= |items|
    decreases |items| - i
  {
    if i == |items| then WeightsWalk(false, None, log)
    else if items[i].meta.deleting then WeightsItemsFrom(w, role, leader, items, i + 1, log)
    else if leader.None? then WeightsWalk(true, None, log)
    else
      var l := leader.value;
      var uuid := LabelOf(items[i].meta, Manager.ReplicasetUUID());
      var weight := role.GetVShardConfig().weight;
      var log1 := log + [SetWeightCall(l.meta.name, uuid, weight)];
      var err := SetWeightError(w.setWeight(|log|, l, uuid, weight));
      if err.Some? then WeightsWalk(false, err, log1)
      else WeightsItemsFrom(w, role, leader, items, i + 1, log1)
  }

  lemma {:induction false} WeightsItemsFromFacts(w: World, role: RoleValue, leader: Option<Pod>,
                                                 items: seq<StatefulSetValue>, i: nat, log: seq<Call>)
    requires i <= |items|
    ensures WeightsFacts(role, leader, log, WeightsItemsFrom(w, role, leader, items, i, log))
    decreases |items| - i
  {
    var r := WeightsItemsFrom(w, role, leader, items, i, log);
    if i == |items| {
      WeightsOfCalls(role, leader, log, r, []);
    } else if items[i].meta.deleting {
      WeightsItemsFromFacts(w, role, leader, items, i + 1, log);
    } else if leader.None? {
      WeightsOfCalls(role, leader, log, r, []);
    } else {
      var l := leader.value;
      var uuid := LabelOf(items[i].meta, Manager.ReplicasetUUID());
      var weight := role.GetVShardConfig().weight;
      var call := SetWeightCall(l.meta.name, uuid, weight);
      var mid := WeightsWalk(false, None, log + [call]);
      if SetWeightError(w.setWeight(|log|, l, uuid, weight)).Some? {
        WeightsOfCalls(role, leader, log, r, [call]);
      } else {
        WeightsOfCalls(role, leader, log, mid, [call]);
        WeightsItemsFromFacts(w, role, leader, items, i + 1, log + [call]);
        WeightsChain(role, leader, log, mid, r);
      }
    }
  }

  /** One replica set: a listing error stops the step. */
  function WeightsOfOrdinal(w: World, role: RoleValue, leader: Option<Pod>, ordinal: nat, log: seq<Call>): WeightsWalk
  {
    var selector := Manager.SelectorByReplicasetOrdinal(role.meta, ordinal);
    var log1 := log + [ListStatefulSetsCall(role.GetNamespace(), selector)];
    var items := w.listStatefulSets(|log|, role.GetNamespace(), selector);
    if items.Fail? then WeightsWalk(false, Some(items.error), log1)
    else WeightsItemsFrom(w, role, leader, items.value, 0, log1)
  }

  lemma WeightsOfOrdinalFacts(w: World, role: RoleValue, leader: Option<Pod>, ordinal: nat, log: seq<Call>)
    ensures WeightsFacts(role, leader, log, WeightsOfOrdinal(w, role, leader, ordinal, log))
  {
    var selector := Manager.SelectorByReplicasetOrdinal(role.meta, ordinal);
    var list := ListStatefulSetsCall(role.GetNamespace(), selector);
    var items := w.listStatefulSets(|log|, role.GetNamespace(), selector);
    var mid := WeightsWalk(false, None, log + [list]);
    WeightsOfCalls(role, leader, log, mid, [list]);
    if items.Fail? {
      WeightsOfCalls(role, leader, log, WeightsOfOrdinal(w, role, leader, ordinal, log), [list]);
    } else {
      WeightsItemsFromFacts(w, role, leader, items.value, 0, log + [list]);
      WeightsChain(role, leader, log, mid, WeightsOfOrdinal(w, role, leader, ordinal, log));
    }
  }

  /** The ordinal loop; the first error or nil leader ends it. */
  function WeightsOrdinalsFrom(w: World, role: RoleValue, leader: Option<Pod>, ordinal: nat, log: seq<Call>): WeightsWalk
    decreases role.GetReplicasets() - ordinal
  {
    if ordinal >= role.GetReplicasets() then WeightsWalk(false, None, log)
    else
      var r := WeightsOfOrdinal(w, role, leader, ordinal, log);
      if r.Stopped() then r
      else WeightsOrdinalsFrom(w, role, leader, ordinal + 1, r.log)
  }

  lemma {:induction false} WeightsOrdinalsFromFacts(w: World, role: RoleValue, leader: Option<Pod>, ordinal: nat,
                                                    log: seq<Call>)
    ensures WeightsFacts(role, leader, log, WeightsOrdinalsFrom(w, role, leader, ordinal, log))
    decreases role.GetReplicasets() - ordinal
  {
    if ordinal >= role.GetReplicasets() {
      WeightsOfCalls(role, leader, log, WeightsWalk(false, None, log), []);
    } else {
      var r := WeightsOfOrdinal(w, role, leader, ordinal, log);
      WeightsOfOrdinalFacts(w, role, leader, ordinal, log);
      if !r.Stopped() {
        WeightsOrdinalsFromFacts(w, role, leader, ordinal + 1, r.log);
        WeightsChain(role, leader, log, r, WeightsOrdinalsFrom(w, role, leader, ordinal + 1, r.log));
      }
    }
  }

  /** SetVShardWeights: set the role's vshard weight on every replica set of the role. */
  function SetVShardWeightsSpec(w: World, s: State, log: seq<Call>): (r: StepOut)
    ensures r.state == s
    ensures r.ret.Return? ==> r.ret == NextStep() || (r.ret.res.None? && r.ret.err.Some?)
  {
    if !s.obj.RoleObj? then StepOut(Panic, s, log)
    else
      var walk := WeightsOrdinalsFrom(w, s.obj.role, s.leader, 0, log);
      if walk.panicked then StepOut(Panic, s, walk.log)
      else if walk.err.Some? then StepOut(ErrorOf(walk.err), s, walk.log)
      else StepOut(NextStep(), s, walk.log)
  }

  /**
   * The step only ever sets the role's weight, through the leader, and
   * panics only on a nil leader. It goes on or panics exactly when every
   * listing and weight call succeeded; an error is that of the last call,
   * the first to fail, with nothing called after it; and with a leader,
   * going on means every replica set of the role got, right after its
   * listing, the weight calls of every StatefulSet the listing found that is
   * not being deleted, each under its replica-set UUID label.
   */
  lemma SetVShardWeightsFacts(w: World, s: State, log: seq<Call>)
    requires s.obj.RoleObj?
    ensures var r := SetVShardWeightsSpec(w, s, log);
      && Extends(r.log, log) && (r.ret.Panic? ==> s.leader.None?)
      && (forall i :: |log| <= i < |r.log| && r.log[i].IsWrite() ==> WeightWrite(s.obj.role, s.leader, r.log[i]))
      && (r.ret == NextStep() || r.ret.Panic? <==> WeightsNoFailure(w, s.leader, r.log, |log|))
      && (r.ret.Return? && r.ret.err.Some? ==>
            |log| < |r.log| && r.ret.err == WeightsCallError(w, s.leader, r.log[|r.log| - 1], |r.log| - 1))
      && (r.ret == NextStep() && s.leader.Some? ==> WeightsCovered(w, r.log, |log|, s.obj.role, s.leader.value, 0))
  {
    WeightsOrdinalsFromFacts(w, s.obj.role, s.leader, 0, log);
    var walk := WeightsOrdinalsFrom(w, s.obj.role, s.leader, 0, log);
    WeightsOrdinalsSent(w, s.obj.role, s.leader, 0, log);
    if walk.err.Some? && !walk.panicked {
      assert !WeightsNoFailure(w, s.leader, walk.log, |log|) by {
        assert WeightsCallError(w, s.leader, walk.log[|walk.log| - 1], |walk.log| - 1).Some?;
      }
    } else if !walk.panicked {
      WeightsNoErrorNoFailure(w, s.leader, walk.log, |log|);
    }
  }

  /** The weight calls the leader named `name` receives for items i.. of a listing: one per StatefulSet not being deleted, under its UUID label. */
  function WeightCallsFrom(name: string, items: seq<StatefulSetValue>, i: nat, weight: int32): (r: seq<Call>)
    requires i <= |items|
    ensures |r| <= |items| - i
    ensures forall c | c in r :: c.SetWeightCall? && c.pod == name && c.weight == weight
    decreases |items| - i
  {
    if i == |items| then []
    else if items[i].meta.deleting then WeightCallsFrom(name, items, i + 1, weight)
    else [SetWeightCall(name, LabelOf(items[i].meta, Manager.ReplicasetUUID()), weight)]
         + WeightCallsFrom(name, items, i + 1, weight)
  }

  /** Item j of a listing, not being deleted, gets its weight call among those of items i... */
  lemma {:induction false} WeightCallsCoverItem(name: string, items: seq<StatefulSetValue>, i: nat, j: nat, weight: int32)
    requires i <= j < |items| && !items[j].meta.deleting
    ensures SetWeightCall(name, LabelOf(items[j].meta, Manager.ReplicasetUUID()), weight) in WeightCallsFrom(name, items, i, weight)
    decreases j - i
  {
    if i < j {
      WeightCallsCoverItem(name, items, i + 1, j, weight);
    }
  }

  /** The error the call at position n of the weights walk received, if it is a listing or a weight call. */
  function WeightsCallError(w: World, leader: Option<Pod>, c: Call, n: nat): Option<Error>
  {
    match c
    case ListStatefulSetsCall(ns, selector) =>
      var a := w.listStatefulSets(n, ns, selector);
      if a.Fail? then Some(a.error) else None
    case SetWeightCall(_, uuid, weight) =>
      if leader.Some? then SetWeightError(w.setWeight(n, leader.value, uuid, weight)) else None
    case _ => None
  }

  /** Only the last call from `from` on can have failed, and `err` is its error (None when none was made). */
  ghost predicate WeightsErrorsEnd(w: World, leader: Option<Pod>, calls: seq<Call>, from: nat, err: Option<Error>)
  {
    && (forall n :: from <= n < |calls| - 1 ==> WeightsCallError(w, leader, calls[n], n).None?)
    && err == (if from < |calls| then WeightsCallError(w, leader, calls[|calls| - 1], |calls| - 1) else None)
  }

  /** No call from `from` on failed. */
  ghost predicate WeightsNoFailure(w: World, leader: Option<Pod>, calls: seq<Call>, from: nat)
  {
    forall n :: from <= n < |calls| ==> WeightsCallError(w, leader, calls[n], n).None?
  }

  /** The listing of replica set `o` is followed, at once, by the weight calls of every StatefulSet it found. */
  ghost predicate OrdinalWeighted(w: World, calls: seq<Call>, from: nat, role: RoleValue, l: Pod, o: nat)
  {
    exists q :: from <= q < |calls| && IsListingOf(calls[q], role, o)
      && var a := w.listStatefulSets(q, role.GetNamespace(), Manager.SelectorByReplicasetOrdinal(role.meta, o));
        && a.Ok?
        && var expected := WeightCallsFrom(l.meta.name, a.value, 0, role.GetVShardConfig().weight);
          q + 1 + |expected| <= |calls| && calls[q + 1..q + 1 + |expected|] == expected
  }

  /** Every replica set numbered first .. replicasets - 1 got its weight calls. */
  ghost predicate WeightsCovered(w: World, calls: seq<Call>, from: nat, role: RoleValue, l: Pod, first: nat)
  {
    forall o: nat :: first <= o < role.GetReplicasets() ==> OrdinalWeighted(w, calls, from, role, l, o)
  }

  /** Without a leader the StatefulSet loop calls nothing, and panics exactly on a StatefulSet not being deleted. */
  lemma {:induction false} WeightsItemsNoLeader(w: World, role: RoleValue, items: seq<StatefulSetValue>, i: nat,
                                                log: seq<Call>)
    requires i <= |items|
    ensures var r := WeightsItemsFrom(w, role, None, items, i, log);
      r.log == log && r.err.None? && (r.panicked <==> exists j :: i <= j < |items| && !items[j].meta.deleting)
    decreases |items| - i
  {
    if i < |items| && items[i].meta.deleting {
      WeightsItemsNoLeader(w, role, items, i + 1, log);
    }
  }

  /** A weight call that succeeded, followed by a prefix of further weight calls of which only the last may have failed. */
  lemma SentAfterWeightCall(w: World, l: Pod, log: seq<Call>, call: Call, rest: seq<Call>, calls: seq<Call>,
                            err: Option<Error>)
    requires WeightsCallError(w, Some(l), call, |log|).None?
    requires |log| + 1 <= |calls| <= |log| + 1 + |rest| && calls == log + [call] + rest[..|calls| - |log| - 1]
    requires err.None? ==> calls == log + [call] + rest
    requires WeightsErrorsEnd(w, Some(l), calls, |log| + 1, err)
    requires |calls| == |log| + 1 ==> err.None?
    ensures |calls| <= |log| + |[call] + rest| && calls == log + ([call] + rest)[..|calls| - |log|]
    ensures err.None? ==> calls == log + ([call] + rest)
    ensures WeightsErrorsEnd(w, Some(l), calls, |log|, err)
  {
    assert ([call] + rest)[..|calls| - |log|] == [call] + rest[..|calls| - |log| - 1];
    forall n | |log| <= n < |calls| - 1 ensures WeightsCallError(w, Some(l), calls[n], n).None? {
      if n == |log| {
        assert calls[n] == call;
      }
    }
  }

  /**
   * With a leader, the StatefulSet loop sends the weight calls of items i..
   * in order and stops at the first that fails: it never panics; what it
   * logs is a prefix of those calls, all of them when no error occurred;
   * and only the last call can have failed, with the walk's error.
   */
  lemma {:induction false} WeightsItemsSent(w: World, role: RoleValue, l: Pod, items: seq<StatefulSetValue>, i: nat,
                                            log: seq<Call>)
    requires i <= |items|
    ensures var r := WeightsItemsFrom(w, role, Some(l), items, i, log);
      var expected := WeightCallsFrom(l.meta.name, items, i, role.GetVShardConfig().weight);
      && !r.panicked
      && |log| <= |r.log| <= |log| + |expected| && r.log == log + expected[..|r.log| - |log|]
      && (r.err.None? ==> r.log == log + expected)
      && WeightsErrorsEnd(w, Some(l), r.log, |log|, r.err)
    decreases |items| - i
  {
    var weight := role.GetVShardConfig().weight;
    var r := WeightsItemsFrom(w, role, Some(l), items, i, log);
    var expected := WeightCallsFrom(l.meta.name, items, i, weight);
    if i == |items| {
    } else if items[i].meta.deleting {
      WeightsItemsSent(w, role, l, items, i + 1, log);
    } else {
      var call := SetWeightCall(l.meta.name, LabelOf(items[i].meta, Manager.ReplicasetUUID()), weight);
      var log1 := log + [call];
      var rest := WeightCallsFrom(l.meta.name, items, i + 1, weight);
      assert expected == [call] + rest;
      if WeightsCallError(w, Some(l), call, |log|).Some? {
        assert r.log == log1;
        assert expected[..1] == [call];
      } else {
        assert r == WeightsItemsFrom(w, role, Some(l), items, i + 1, log1);
        WeightsItemsSent(w, role, l, items, i + 1, log1);
        SentAfterWeightCall(w, l, log, call, rest, r.log, r.err);
      }
    }
  }

  /** A successful listing of replica set `ordinal` followed by a prefix of its weight calls, the last of which alone may have failed. */
  lemma ListingThenWeights(w: World, role: RoleValue, l: Pod, ordinal: nat, log: seq<Call>, calls: seq<Call>,
                           err: Option<Error>)
    requires var a := w.listStatefulSets(|log|, role.GetNamespace(), Manager.SelectorByReplicasetOrdinal(role.meta, ordinal));
      && a.Ok?
      && var expected := WeightCallsFrom(l.meta.name, a.value, 0, role.GetVShardConfig().weight);
        && |log| < |calls| && calls[..|log| + 1] == log + [OrdinalListing(role, ordinal)]
        && (err.None? ==> calls == log + [OrdinalListing(role, ordinal)] + expected)
    requires WeightsErrorsEnd(w, Some(l), calls, |log| + 1, err)
    ensures calls[..|log|] == log && IsListingOf(calls[|log|], role, ordinal)
    ensures WeightsErrorsEnd(w, Some(l), calls, |log|, err)
    ensures err.None? ==> OrdinalWeighted(w, calls, |log|, role, l, ordinal)
  {
    var log1 := log + [OrdinalListing(role, ordinal)];
    assert calls[..|log|] == log by { assert calls[..|log1|][..|log|] == log1[..|log|]; }
    assert calls[|log|] == OrdinalListing(role, ordinal) by { assert calls[..|log1|][|log|] == log1[|log|]; }
    assert WeightsNoFailure(w, Some(l), log1, |log|);
    WeightsErrorsChain(w, Some(l), log, log1, calls, err);
    if err.None? {
      var a := w.listStatefulSets(|log|, role.GetNamespace(), Manager.SelectorByReplicasetOrdinal(role.meta, ordinal));
      var expected := WeightCallsFrom(l.meta.name, a.value, 0, role.GetVShardConfig().weight);
      assert calls[|log1|..|log1| + |expected|] == expected;
    }
  }

  /** One replica set whose listing succeeded, with a leader: the listing, then the StatefulSet loop. */
  lemma WeightsOfOrdinalLed(w: World, role: RoleValue, l: Pod, ordinal: nat, log: seq<Call>)
    requires w.listStatefulSets(|log|, role.GetNamespace(), Manager.SelectorByReplicasetOrdinal(role.meta, ordinal)).Ok?
    ensures var r := WeightsOfOrdinal(w, role, Some(l), ordinal, log);
      && |log| < |r.log| && r.log[..|log|] == log && IsListingOf(r.log[|log|], role, ordinal)
      && !r.panicked
      && WeightsErrorsEnd(w, Some(l), r.log, |log|, r.err)
      && (r.err.None? ==> OrdinalWeighted(w, r.log, |log|, role, l, ordinal))
  {
    var log1 := log + [OrdinalListing(role, ordinal)];
    var items := w.listStatefulSets(|log|, role.GetNamespace(), Manager.SelectorByReplicasetOrdinal(role.meta, ordinal)).value;
    var r := WeightsOfOrdinal(w, role, Some(l), ordinal, log);
    assert r == WeightsItemsFrom(w, role, Some(l), items, 0, log1);
    WeightsItemsSent(w, role, l, items, 0, log1);
    assert r.log[..|log1|] == log1;
    ListingThenWeights(w, role, l, ordinal, log, r.log, r.err);
  }

  /** One replica set: its listing, then, with a leader and no error, the weight calls of all it found. */
  lemma WeightsOfOrdinalSent(w: World, role: RoleValue, leader: Option<Pod>, ordinal: nat, log: seq<Call>)
    ensures var r := WeightsOfOrdinal(w, role, leader, ordinal, log);
      && |log| < |r.log| && r.log[..|log|] == log && IsListingOf(r.log[|log|], role, ordinal)
      && WeightsErrorsEnd(w, leader, r.log, |log|, r.err)
      && (r.panicked ==> leader.None? && WeightsNoFailure(w, leader, r.log, |log|))
      && (leader.Some? && !r.Stopped() ==> OrdinalWeighted(w, r.log, |log|, role, leader.value, ordinal))
  {
    var selector := Manager.SelectorByReplicasetOrdinal(role.meta, ordinal);
    var log1 := log + [ListStatefulSetsCall(role.GetNamespace(), selector)];
    var items := w.listStatefulSets(|log|, role.GetNamespace(), selector);
    var r := WeightsOfOrdinal(w, role, leader, ordinal, log);
    if items.Fail? {
      assert r.log == log1;
    } else if leader.Some? {
      WeightsOfOrdinalLed(w, role, leader.value, ordinal, log);
    } else {
      WeightsItemsNoLeader(w, role, items.value, 0, log1);
      assert r.log == log1;
    }
  }

  /** An error-free first stretch holds no failure, so the failures of the whole log are those of the second. */
  lemma WeightsErrorsChain(w: World, leader: Option<Pod>, log: seq<Call>, mid: seq<Call>, end: seq<Call>,
                           err: Option<Error>)
    requires |log| <= |mid| <= |end| && end[..|mid|] == mid
    requires WeightsNoFailure(w, leader, mid, |log|) && WeightsErrorsEnd(w, leader, end, |mid|, err)
    requires |end| == |mid| ==> err.None?
    ensures WeightsErrorsEnd(w, leader, end, |log|, err)
    ensures err.None? ==> WeightsNoFailure(w, leader, end, |log|)
  {
    forall n | |log| <= n < |mid| ensures end[n] == mid[n] {
      assert end[..|mid|][n] == mid[n];
    }
  }

  /** An error-free walk has no failed call; a walk whose errors end its log, with no error, neither. */
  lemma WeightsNoErrorNoFailure(w: World, leader: Option<Pod>, calls: seq<Call>, from: nat)
    requires WeightsErrorsEnd(w, leader, calls, from, None)
    ensures WeightsNoFailure(w, leader, calls, from)
  {
  }

  /** A replica set weighted over a prefix of the log stays so over the whole log, and from any earlier position. */
  lemma OrdinalWeightedGrows(w: World, from: nat, later: nat, mid: seq<Call>, end: seq<Call>, role: RoleValue, l: Pod,
                             o: nat)
    requires from <= later && |mid| <= |end| && end[..|mid|] == mid && OrdinalWeighted(w, mid, later, role, l, o)
    ensures OrdinalWeighted(w, end, from, role, l, o)
  {
    var q :| later <= q < |mid| && IsListingOf(mid[q], role, o)
      && var a := w.listStatefulSets(q, role.GetNamespace(), Manager.SelectorByReplicasetOrdinal(role.meta, o));
        && a.Ok?
        && var expected := WeightCallsFrom(l.meta.name, a.value, 0, role.GetVShardConfig().weight);
          q + 1 + |expected| <= |mid| && mid[q + 1..q + 1 + |expected|] == expected;
    forall k | 0 <= k < |mid| ensures end[k] == mid[k] {
      assert end[..|mid|][k] == mid[k];
    }
    var a := w.listStatefulSets(q, role.GetNamespace(), Manager.SelectorByReplicasetOrdinal(role.meta, o));
    var expected := WeightCallsFrom(l.meta.name, a.value, 0, role.GetVShardConfig().weight);
    assert q + 1 + |expected| <= |mid|;
    assert end[q + 1..q + 1 + |expected|] == mid[q + 1..q + 1 + |expected|];
  }

  /** The ordinal loop after a round that did not stop: the facts of the rest carry over to the whole. */
  lemma WeightsOrdinalsAfterRound(w: World, role: RoleValue, leader: Option<Pod>, ordinal: nat, log: seq<Call>,
                                  step: WeightsWalk, r: WeightsWalk)
    requires ordinal < role.GetReplicasets() && !step.Stopped()
    requires |log| < |step.log| && step.log[..|log|] == log
    requires WeightsErrorsEnd(w, leader, step.log, |log|, step.err)
    requires leader.Some? ==> OrdinalWeighted(w, step.log, |log|, role, leader.value, ordinal)
    requires |step.log| <= |r.log| && r.log[..|step.log|] == step.log
    requires WeightsErrorsEnd(w, leader, r.log, |step.log|, r.err)
    requires r.panicked ==> leader.None? && WeightsNoFailure(w, leader, r.log, |step.log|)
    requires leader.Some? && !r.Stopped() ==> WeightsCovered(w, r.log, |step.log|, role, leader.value, ordinal + 1)
    ensures |log| <= |r.log| && r.log[..|log|] == log
    ensures WeightsErrorsEnd(w, leader, r.log, |log|, r.err)
    ensures r.panicked ==> leader.None? && WeightsNoFailure(w, leader, r.log, |log|)
    ensures leader.Some? && !r.Stopped() ==> WeightsCovered(w, r.log, |log|, role, leader.value, ordinal)
  {
    WeightsNoErrorNoFailure(w, leader, step.log, |log|);
    assert r.log[..|log|] == log by {
      assert r.log[..|step.log|][..|log|] == step.log[..|log|];
    }
    WeightsErrorsChain(w, leader, log, step.log, r.log, r.err);
    if leader.Some? && !r.Stopped() {
      forall o: nat | ordinal <= o < role.GetReplicasets()
        ensures OrdinalWeighted(w, r.log, |log|, role, leader.value, o)
      {
        if o == ordinal {
          OrdinalWeightedGrows(w, |log|, |log|, step.log, r.log, role, leader.value, o);
        } else {
          OrdinalWeightedGrows(w, |log|, |step.log|, r.log, r.log, role, leader.value, o);
        }
      }
    }
  }

  /**
   * The ordinal loop of SetVShardWeights from `ordinal` on: only its last
   * call can have failed, and the walk's error is that call's, so the first
   * listing or weight error is returned and nothing is called after it; a
   * panic comes only without a leader and after no failure; and a walk that
   * did not stop gave every replica set from `ordinal` on the weight calls of
   * every StatefulSet its listing found.
   */
  lemma {:induction false} WeightsOrdinalsSent(w: World, role: RoleValue, leader: Option<Pod>, ordinal: nat,
                                               log: seq<Call>)
    ensures var r := WeightsOrdinalsFrom(w, role, leader, ordinal, log);
      && |log| <= |r.log| && r.log[..|log|] == log
      && WeightsErrorsEnd(w, leader, r.log, |log|, r.err)
      && (r.panicked ==> leader.None? && WeightsNoFailure(w, leader, r.log, |log|))
      && (leader.Some? && !r.Stopped() ==> WeightsCovered(w, r.log, |log|, role, leader.value, ordinal))
    decreases role.GetReplicasets() - ordinal
  {
    var r := WeightsOrdinalsFrom(w, role, leader, ordinal, log);
    if ordinal < role.GetReplicasets() {
      var step := WeightsOfOrdinal(w, role, leader, ordinal, log);
      WeightsOfOrdinalSent(w, role, leader, ordinal, log);
      if step.Stopped() {
        assert r == step;
      } else {
        assert r == WeightsOrdinalsFrom(w, role, leader, ordinal + 1, step.log);
        WeightsOrdinalsSent(w, role, leader, ordinal + 1, step.log);
        WeightsOrdinalsAfterRound(w, role, leader, ordinal, log, step, r);
      }
    }
  }

  method SetOrdinalWeights(ctrl: Controller, role: RoleValue, leader: Option<Pod>, ordinal: nat)
    returns (panicked: bool, err: Option<Error>)
    modifies ctrl
    ensures WeightsWalk(panicked, err, ctrl.log) == WeightsOfOrdinal(ctrl.world, role, leader, ordinal, old(ctrl.log))
  {
    var list := ctrl.ListStatefulSets(role.GetNamespace(), Manager.SelectorByReplicasetOrdinal(role.meta, ordinal));
    if list.Fail? {
      return false, Some(list.error);
    }
    var items := list.value;
    var weight := role.GetVShardConfig().weight;
    ghost var round := WeightsItemsFrom(ctrl.world, role, leader, items, 0, ctrl.log);
    var i := 0;
    while i < |items|
      invariant 0 <= i <= |items|
      invariant WeightsItemsFrom(ctrl.world, role, leader, items, i, ctrl.log) == round
    {
      if !items[i].meta.deleting {
        if leader.None? {
          return true, None;
        }
        var answer := ctrl.SetWeight(leader.value, LabelOf(items[i].meta, Manager.ReplicasetUUID()), weight);
        err := SetWeightError(answer);
        if err.Some? {
          return false, err;
        }
      }
      i := i + 1;
    }
    return false, None;
  }

  method SetVShardWeights(ctx: Context, ctrl: Controller) returns (ret: StepReturn)
    requires ctx.RoleCtx?
    modifies ctrl
    ensures StepOut(ret, ctx.Abs(), ctrl.log) == SetVShardWeightsSpec(ctrl.world, old(ctx.Abs()), old(ctrl.log))
  {
    var r := ctx.rc.role;
    if r == null {
      return Panic;
    }
    var role := r.Value();
    var leader := ctx.Common().GetLeader();
    ghost var walk := WeightsOrdinalsFrom(ctrl.world, role, leader, 0, ctrl.log);
    var ordinal: nat := 0;
    while ordinal < role.GetReplicasets()
      invariant WeightsOrdinalsFrom(ctrl.world, role, leader, ordinal, ctrl.log) == walk
      decreases role.GetReplicasets() - ordinal
    {
      var panicked, err := SetOrdinalWeights(ctrl, role, leader, ordinal);
      if panicked {
        return Panic;
      }
      if err.Some? {
        return ErrorOf(err);
      }
      ordinal := ordinal + 1;
    }
    ret := NextStep();
  }
}
