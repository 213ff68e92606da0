// Leader election (pkg/election/election.go): the leader is the pod all
// topology calls go to. A recorded leader is reused while it can lead; with no
// recorded leader, or a bootstrapped cluster whose leader cannot lead, the
// candidates are scanned in a fixed order and the first one able to lead is
// written into the cluster status. A cluster that is not bootstrapped never
// changes its leader: the old leader may hold configuration the others lack.

module Election {
  import opened Wrappers
  import opened Errors
  import opened K8s
  import opened Api
  import opened Labels
  import opened Utils
  import opened Topology
  import opened Environment

  // ----- CanBeLeader -----

  /**
   * The answer of CanBeLeader, or the nil-interface dereference when the
   * election was built without a Topology and a probe is needed.
   */
  datatype Verdict = Verdict(can: bool, err: Option<Error>) | NoTopology

  /** Deleting or not running: no. Otherwise the started probe before bootstrap, the configured probe after. */
  function CanBeLeaderSpec(w: World, topo: bool, log: seq<Call>, bootstrapped: bool, pod: Pod): (r: (Verdict, seq<Call>))
    ensures IsPodDeleting(pod) || !IsPodRunning(pod) ==> r == (Verdict(false, None), log)
    ensures r.0.NoTopology? <==> !IsPodDeleting(pod) && IsPodRunning(pod) && !topo
    ensures r.0.Verdict? && r.0.err.Some? ==> !r.0.can
    ensures r.0.Verdict? && r.0.can ==>
              topo && |r.1| == |log| + 1 && r.1[|log|] == InstanceStateCall(pod.meta.name, bootstrapped)
  {
    if IsPodDeleting(pod) || !IsPodRunning(pod) then (Verdict(false, None), log)
    else if !topo then (NoTopology, log)
    else
      var probe := ProbeAnswer(w.instanceState(|log|, pod), bootstrapped);
      (Verdict(probe.value, probe.err), log + [InstanceStateCall(pod.meta.name, bootstrapped)])
  }

  method CanBeLeader(ctrl: Controller, cluster: ClusterValue, pod: Pod) returns (v: Verdict)
    modifies ctrl
    ensures (v, ctrl.log) == CanBeLeaderSpec(ctrl.world, ctrl.electionTopology, old(ctrl.log), cluster.IsBootstrapped(), pod)
  {
    if IsPodDeleting(pod) || !IsPodRunning(pod) {
      return Verdict(false, None);
    }
    if !ctrl.electionTopology {
      return NoTopology;
    }
    var probe := ctrl.InstanceState(pod, cluster.IsBootstrapped());
    v := Verdict(probe.value, probe.err);
  }

  /** The pod is the one recorded as the cluster's leader. */
  predicate IsLeader(cluster: ClusterValue, pod: Pod)
  {
    pod.meta.namespace == cluster.GetNamespace() && cluster.GetLeader() == pod.meta.name
  }

  // ----- The candidate order -----

  /** The largest replica-set count among the roles, starting from 0. */
  function MaxReplicasets(roles: seq<RoleValue>): (m: int32)
    ensures m >= 0 && forall i :: 0 <= i < |roles| ==> roles[i].GetReplicasets() <= m
    ensures m == 0 || exists i :: 0 <= i < |roles| && roles[i].GetReplicasets() == m
  {
    if |roles| == 0 then 0
    else
      var m := MaxReplicasets(roles[..|roles| - 1]);
      assert forall i :: 0 <= i < |roles| - 1 ==> roles[..|roles| - 1][i] == roles[i];
      if m < roles[|roles| - 1].GetReplicasets() then roles[|roles| - 1].GetReplicasets() else m
  }

  /** The largest replica count among the roles, starting from 0. */
  function MaxReplicas(roles: seq<RoleValue>): (m: int32)
    ensures m >= 0 && forall i :: 0 <= i < |roles| ==> roles[i].GetReplicas() <= m
    ensures m == 0 || exists i :: 0 <= i < |roles| && roles[i].GetReplicas() == m
  {
    if |roles| == 0 then 0
    else
      var m := MaxReplicas(roles[..|roles| - 1]);
      assert forall i :: 0 <= i < |roles| - 1 ==> roles[..|roles| - 1][i] == roles[i];
      if m < roles[|roles| - 1].GetReplicas() then roles[|roles| - 1].GetReplicas() else m
  }

  /** A candidate: the index of the role in the listed order, a replica-set ordinal and a pod ordinal. */
  datatype Candidate = Candidate(role: nat, replicaset: nat, pod: nat)

  /** A role has a pod with these ordinals. */
  predicate Eligible(roles: seq<RoleValue>, c: Candidate)
  {
    c.role < |roles| && c.replicaset < roles[c.role].GetReplicasets() && c.pod < roles[c.role].GetReplicas()
  }

  predicate AllEligible(roles: seq<RoleValue>, cs: seq<Candidate>)
  {
    forall k :: 0 <= k < |cs| ==> Eligible(roles, cs[k])
  }

  /** The name of the candidate's pod: "<role>-<replica set>-<pod>". */
  function CandidateName(roles: seq<RoleValue>, c: Candidate): string
    requires c.role < |roles|
  {
    GetStatefulSetPodName(roles[c.role].GetReplicasetName(c.replicaset).0, c.pod)
  }

  /** The order of the scan: pod ordinal, then replica-set ordinal, then the role's place in the list. */
  predicate Before(a: Candidate, b: Candidate)
  {
    a.pod < b.pod
    || (a.pod == b.pod && a.replicaset < b.replicaset)
    || (a.pod == b.pod && a.replicaset == b.replicaset && a.role < b.role)
  }

  /** The bounds of one scan. */
  datatype Scope = Scope(roles: seq<RoleValue>, maxReplicasets: nat, maxReplicas: nat)
  {
    static function Of(roles: seq<RoleValue>): (sc: Scope)
      ensures sc.roles == roles
    {
      Scope(roles, MaxReplicasets(roles), MaxReplicas(roles))
    }
  }

  /** The candidates of one (pod, replica set) pair, from role index i on. */
  function InnerFrom(sc: Scope, pod: nat, rs: nat, i: nat): (cs: seq<Candidate>)
    ensures AllEligible(sc.roles, cs)
    decreases |sc.roles| - i
  {
    if i >= |sc.roles| then []
    else
      var c := Candidate(i, rs, pod);
      (if Eligible(sc.roles, c) then [c] else []) + InnerFrom(sc, pod, rs, i + 1)
  }

  /** The candidates of one pod ordinal, from replica-set ordinal rs on. */
  function MidFrom(sc: Scope, pod: nat, rs: nat): (cs: seq<Candidate>)
    ensures AllEligible(sc.roles, cs)
    decreases sc.maxReplicasets - rs
  {
    if rs >= sc.maxReplicasets then [] else InnerFrom(sc, pod, rs, 0) + MidFrom(sc, pod, rs + 1)
  }

  /** The candidates from pod ordinal pod on. */
  function OuterFrom(sc: Scope, pod: nat): (cs: seq<Candidate>)
    ensures AllEligible(sc.roles, cs)
    decreases sc.maxReplicas - pod
  {
    if pod >= sc.maxReplicas then [] else MidFrom(sc, pod, 0) + OuterFrom(sc, pod + 1)
  }

  /** Every candidate the scan visits, in order. */
  function Candidates(roles: seq<RoleValue>): seq<Candidate>
  {
    OuterFrom(Scope.Of(roles), 0)
  }

  // ----- The scan -----

  /** Where a scan stands: still looking, or stopped with a pod, an error or a panic. */
  datatype Search = Searching | Found(pod: Pod) | Failed(err: Error) | Panicked

  /** The environment and cluster one scan runs against. */
  datatype Ballot = Ballot(w: World, topo: bool, cluster: ClusterValue)

  /**
   * One candidate: skipped when it is the current leader or its pod is not
   * found, chosen when it can lead; any other failure ends the scan.
   */
  function TryCandidateSpec(b: Ballot, roles: seq<RoleValue>, c: Candidate, log: seq<Call>): (r: (Search, seq<Call>))
    requires c.role < |roles|
  {
    var name := CandidateName(roles, c);
    if name == b.cluster.GetLeader() then (Searching, log)
    else
      var key := NamespacedName(b.cluster.GetNamespace(), name);
      var log1 := log + [GetPodCall(key)];
      match b.w.getPod(|log|, key)
      case Fail(e) => if e.IsNotFound() then (Searching, log1) else (Failed(e), log1)
      case Ok(pod) =>
        var (v, log2) := CanBeLeaderSpec(b.w, b.topo, log1, b.cluster.IsBootstrapped(), pod);
        match v
        case NoTopology => (Panicked, log2)
        case Verdict(can, err) =>
          if err.Some? then (Failed(err.value), log2)
          else if can then (Found(pod), log2)
          else (Searching, log2)
  }

  /** The reference scan: candidates in order, stopping at the first that does not leave it searching. */
  function Scan(b: Ballot, roles: seq<RoleValue>, cs: seq<Candidate>, log: seq<Call>): (Search, seq<Call>)
    requires AllEligible(roles, cs)
  {
    if |cs| == 0 then (Searching, log)
    else
      var (s, log1) := TryCandidateSpec(b, roles, cs[0], log);
      if s.Searching? then Scan(b, roles, cs[1..], log1) else (s, log1)
  }

  // The same scan, following the three nested loops of findNewLeaderInstance.

  function SearchInner(b: Ballot, sc: Scope, pod: nat, rs: nat, i: nat, log: seq<Call>): (Search, seq<Call>)
    requires pod < sc.maxReplicas && rs < sc.maxReplicasets && i <= |sc.roles|
    decreases sc.maxReplicas - pod, sc.maxReplicasets - rs, |sc.roles| - i
  {
    if i == |sc.roles| then SearchMid(b, sc, pod, rs + 1, log)
    else
      var c := Candidate(i, rs, pod);
      if !Eligible(sc.roles, c) then SearchInner(b, sc, pod, rs, i + 1, log)
      else
        var (s, log1) := TryCandidateSpec(b, sc.roles, c, log);
        if s.Searching? then SearchInner(b, sc, pod, rs, i + 1, log1) else (s, log1)
  }

  function SearchMid(b: Ballot, sc: Scope, pod: nat, rs: nat, log: seq<Call>): (Search, seq<Call>)
    requires pod < sc.maxReplicas && rs <= sc.maxReplicasets
    decreases sc.maxReplicas - pod, sc.maxReplicasets - rs, |sc.roles| + 1
  {
    if rs == sc.maxReplicasets then SearchOuter(b, sc, pod + 1, log)
    else SearchInner(b, sc, pod, rs, 0, log)
  }

  function SearchOuter(b: Ballot, sc: Scope, pod: nat, log: seq<Call>): (Search, seq<Call>)
    requires pod <= sc.maxReplicas
    decreases sc.maxReplicas - pod, sc.maxReplicasets + 1, 0
  {
    if pod == sc.maxReplicas then (Searching, log) else SearchMid(b, sc, pod, 0, log)
  }

  /** findNewLeaderInstance: the roles of the cluster, then the scan; nobody found is ErrNoAvailableLeader. */
  function FindNewLeaderSpec(b: Ballot, log: seq<Call>): (Search, seq<Call>)
  {
    var ns := b.cluster.GetNamespace();
    var selector := Manager.SelectorByClusterName(b.cluster.meta);
    var log1 := log + [ListRolesCall(ns, selector)];
    match b.w.listRoles(|log|, ns, selector)
    case Fail(e) => (Failed(e), log1)
    case Ok(roles) =>
      var (s, log2) := SearchOuter(b, Scope.Of(roles), 0, log1);
      if s.Searching? then (Failed(Sentinel(NoAvailableLeader)), log2) else (s, log2)
  }

  // ----- Load, elect, get -----

  /** A (pod, error) pair as the election returns it, or a panic. */
  datatype LeaderOut = LeaderOut(leader: Option<Pod>, err: Option<Error>) | LeaderPanic

  /** What an election call returns, and the cluster and call log it leaves behind. */
  datatype ElectionOut = ElectionOut(out: LeaderOut, cluster: ClusterValue, log: seq<Call>)

  /** loadLeaderInstance: no recorded leader, a lookup or probe error, not ready, or the leader's pod. */
  function LoadLeaderSpec(b: Ballot, log: seq<Call>): (r: (LeaderOut, seq<Call>))
    ensures r.0.LeaderOut? ==> (r.0.err.Some? <==> r.0.leader.None?)
  {
    var c := b.cluster;
    if c.GetLeader() == "" then (LeaderOut(None, Some(Sentinel(LeaderWasNotElected))), log)
    else
      var key := NamespacedName(c.GetNamespace(), c.GetLeader());
      var log1 := log + [GetPodCall(key)];
      match b.w.getPod(|log|, key)
      case Fail(e) => (LeaderOut(None, Some(e)), log1)
      case Ok(pod) =>
        var (v, log2) := CanBeLeaderSpec(b.w, b.topo, log1, c.IsBootstrapped(), pod);
        match v
        case NoTopology => (LeaderPanic, log2)
        case Verdict(can, err) =>
          if err.Some? then (LeaderOut(None, err), log2)
          else if !can then (LeaderOut(None, Some(Sentinel(LeaderNotReady))), log2)
          else (LeaderOut(Some(pod), None), log2)
  }

  /** The status write of a new leader; a conflict is reported as ErrLeaderElectionConflict. */
  function RecordLeaderSpec(w: World, c: ClusterValue, pod: Pod, log: seq<Call>): (r: ElectionOut)
    ensures r.cluster == c.SetLeader(pod.meta.name)
    ensures r.log == log + [StatusUpdateCall(ClusterObject(c.SetLeader(pod.meta.name)))]
  {
    var updated := c.SetLeader(pod.meta.name);
    var call := StatusUpdateCall(ClusterObject(updated));
    match w.write(|log|, call)
    case Some(e) =>
      ElectionOut(LeaderOut(None, Some(if e.IsConflict() then Sentinel(LeaderElectionConflict) else e)), updated, log + [call])
    case None => ElectionOut(LeaderOut(Some(pod), None), updated, log + [call])
  }

  /** ElectLeaderInstance: find a candidate, then record it, even if the write then fails. */
  function ElectSpec(b: Ballot, log: seq<Call>): ElectionOut
  {
    var (s, log1) := FindNewLeaderSpec(b, log);
    match s
    case Panicked => ElectionOut(LeaderPanic, b.cluster, log1)
    case Failed(e) => ElectionOut(LeaderOut(None, Some(e)), b.cluster, log1)
    case Found(pod) => RecordLeaderSpec(b.w, b.cluster, pod, log1)
    case Searching => ElectionOut(LeaderOut(None, Some(Sentinel(NoAvailableLeader))), b.cluster, log1)
  }

  /**
   * GetLeaderInstance: elect when nobody was elected, or when the leader is not
   * ready and the cluster is bootstrapped; before bootstrap a leader that is not
   * ready is an error. Every other load error is dropped, with a nil leader.
   */
  function GetLeaderInstanceSpec(b: Ballot, log: seq<Call>): ElectionOut
  {
    var (out, log1) := LoadLeaderSpec(b, log);
    match out
    case LeaderPanic => ElectionOut(LeaderPanic, b.cluster, log1)
    case LeaderOut(leader, err) =>
      if err.Some? && err.value.Is(LeaderWasNotElected) then ElectSpec(b, log1)
      else if err.Some? && err.value.Is(LeaderNotReady) then
        if b.cluster.IsBootstrapped() then ElectSpec(b, log1)
        else ElectionOut(LeaderOut(None, err), b.cluster, log1)
      else ElectionOut(LeaderOut(leader, None), b.cluster, log1)
  }

  // ----- The election's methods -----

  /** The maxima over one more role. */
  lemma MaxStep(roles: seq<RoleValue>, k: nat)
    requires k < |roles|
    ensures var m := MaxReplicasets(roles[..k]);
      MaxReplicasets(roles[..k + 1]) == if m < roles[k].GetReplicasets() then roles[k].GetReplicasets() else m
    ensures var m := MaxReplicas(roles[..k]);
      MaxReplicas(roles[..k + 1]) == if m < roles[k].GetReplicas() then roles[k].GetReplicas() else m
  {
    assert roles[..k + 1][..k] == roles[..k];
  }

  method MaxCounts(roles: seq<RoleValue>) returns (maxReplicasets: int32, maxReplicas: int32)
    ensures maxReplicasets == MaxReplicasets(roles) && maxReplicas == MaxReplicas(roles)
  {
    maxReplicasets, maxReplicas := 0, 0;
    var k := 0;
    while k < |roles|
      invariant 0 <= k <= |roles|
      invariant maxReplicasets == MaxReplicasets(roles[..k]) && maxReplicas == MaxReplicas(roles[..k])
    {
      MaxStep(roles, k);
      if maxReplicasets < roles[k].GetReplicasets() {
        maxReplicasets := roles[k].GetReplicasets();
      }
      if maxReplicas < roles[k].GetReplicas() {
        maxReplicas := roles[k].GetReplicas();
      }
      k := k + 1;
    }
    assert roles[..k] == roles;
  }

  method TryCandidate(ctrl: Controller, cluster: ClusterValue, roles: seq<RoleValue>, c: Candidate) returns (s: Search)
    requires c.role < |roles|
    modifies ctrl
    ensures (s, ctrl.log) == TryCandidateSpec(Ballot(ctrl.world, ctrl.electionTopology, cluster), roles, c, old(ctrl.log))
  {
    var stsName := roles[c.role].GetReplicasetName(c.replicaset).0;
    var name := GetStatefulSetPodName(stsName, c.pod);
    if name == cluster.GetLeader() {
      return Searching;
    }
    var got := ctrl.GetPod(NamespacedName(cluster.GetNamespace(), name));
    if got.Fail? {
      return if got.error.IsNotFound() then Searching else Failed(got.error);
    }
    var v := CanBeLeader(ctrl, cluster, got.value);
    match v
    case NoTopology => s := Panicked;
    case Verdict(can, err) =>
      s := if err.Some? then Failed(err.value) else if can then Found(got.value) else Searching;
  }

  method FindNewLeaderInstance(ctrl: Controller, cluster: ClusterValue) returns (s: Search)
    modifies ctrl
    ensures (s, ctrl.log) == FindNewLeaderSpec(Ballot(ctrl.world, ctrl.electionTopology, cluster), old(ctrl.log))
  {
    var b := Ballot(ctrl.world, ctrl.electionTopology, cluster);
    var listed := ctrl.ListRoles(cluster.GetNamespace(), Manager.SelectorByClusterName(cluster.meta));
    if listed.Fail? {
      return Failed(listed.error);
    }
    var roles := listed.value;
    var maxReplicasets, maxReplicas := MaxCounts(roles);
    var sc := Scope.Of(roles);
    ghost var final := SearchOuter(b, sc, 0, ctrl.log);
    var pod := 0;
    while pod < maxReplicas as int
      invariant 0 <= pod <= sc.maxReplicas && ctrl.world == b.w && ctrl.electionTopology == b.topo
      invariant SearchOuter(b, sc, pod, ctrl.log) == final
    {
      var rs := 0;
      while rs < maxReplicasets as int
        invariant 0 <= rs <= sc.maxReplicasets && ctrl.world == b.w && ctrl.electionTopology == b.topo
        invariant SearchMid(b, sc, pod, rs, ctrl.log) == final
      {
        var i := 0;
        while i < |roles|
          invariant 0 <= i <= |roles| && ctrl.world == b.w && ctrl.electionTopology == b.topo
          invariant SearchInner(b, sc, pod, rs, i, ctrl.log) == final
        {
          if Eligible(roles, Candidate(i, rs, pod)) {
            var t := TryCandidate(ctrl, cluster, roles, Candidate(i, rs, pod));
            if !t.Searching? {
              return t;
            }
          }
          i := i + 1;
        }
        rs := rs + 1;
      }
      pod := pod + 1;
    }
    s := Failed(Sentinel(NoAvailableLeader));
  }

  method LoadLeaderInstance(ctrl: Controller, cluster: ClusterValue) returns (out: LeaderOut)
    modifies ctrl
    ensures (out, ctrl.log) == LoadLeaderSpec(Ballot(ctrl.world, ctrl.electionTopology, cluster), old(ctrl.log))
  {
    if cluster.GetLeader() == "" {
      return LeaderOut(None, Some(Sentinel(LeaderWasNotElected)));
    }
    var got := ctrl.GetPod(NamespacedName(cluster.GetNamespace(), cluster.GetLeader()));
    if got.Fail? {
      return LeaderOut(None, Some(got.error));
    }
    var v := CanBeLeader(ctrl, cluster, got.value);
    match v
    case NoTopology => out := LeaderPanic;
    case Verdict(can, err) =>
      out := if err.Some? then LeaderOut(None, err)
             else if !can then LeaderOut(None, Some(Sentinel(LeaderNotReady)))
             else LeaderOut(Some(got.value), None);
  }

  method ElectLeaderInstance(ctrl: Controller, cluster: Cluster) returns (out: LeaderOut)
    modifies ctrl, cluster
    ensures ElectionOut(out, cluster.Value(), ctrl.log)
         == ElectSpec(Ballot(ctrl.world, ctrl.electionTopology, old(cluster.Value())), old(ctrl.log))
  {
    var s := FindNewLeaderInstance(ctrl, cluster.Value());
    match s
    case Panicked => out := LeaderPanic;
    case Failed(e) => out := LeaderOut(None, Some(e));
    case Searching => out := LeaderOut(None, Some(Sentinel(NoAvailableLeader)));
    case Found(pod) =>
      cluster.SetLeader(pod.meta.name);
      var err := ctrl.Write(StatusUpdateCall(ClusterObject(cluster.Value())));
      out := if err.None? then LeaderOut(Some(pod), None)
             else LeaderOut(None, Some(if err.value.IsConflict() then Sentinel(LeaderElectionConflict) else err.value));
  }

  method GetLeaderInstance(ctrl: Controller, cluster: Cluster) returns (out: LeaderOut)
    modifies ctrl, cluster
    ensures ElectionOut(out, cluster.Value(), ctrl.log)
         == GetLeaderInstanceSpec(Ballot(ctrl.world, ctrl.electionTopology, old(cluster.Value())), old(ctrl.log))
  {
    var loaded := LoadLeaderInstance(ctrl, cluster.Value());
    if loaded.LeaderPanic? {
      return LeaderPanic;
    }
    var err := loaded.err;
    if err.Some? && err.value.Is(LeaderWasNotElected) {
      out := ElectLeaderInstance(ctrl, cluster);
    } else if err.Some? && err.value.Is(LeaderNotReady) {
      if cluster.Value().IsBootstrapped() {
        out := ElectLeaderInstance(ctrl, cluster);
      } else {
        out := LeaderOut(None, err);
      }
    } else {
      out := LeaderOut(loaded.leader, None);
    }
  }

  // ----- The candidate order, proved -----

  lemma {:induction false} InnerFromMembers(sc: Scope, pod: nat, rs: nat, i: nat)
    ensures forall c :: c in InnerFrom(sc, pod, rs, i) <==>
      Eligible(sc.roles, c) && c.pod == pod && c.replicaset == rs && i <= c.role
    decreases |sc.roles| - i
  {
    if i < |sc.roles| {
      InnerFromMembers(sc, pod, rs, i + 1);
    }
  }

  lemma {:induction false} MidFromMembers(sc: Scope, pod: nat, rs: nat)
    ensures forall c :: c in MidFrom(sc, pod, rs) <==>
      Eligible(sc.roles, c) && c.pod == pod && rs <= c.replicaset < sc.maxReplicasets
    decreases sc.maxReplicasets - rs
  {
    if rs < sc.maxReplicasets {
      InnerFromMembers(sc, pod, rs, 0);
      MidFromMembers(sc, pod, rs + 1);
    }
  }

  lemma {:induction false} OuterFromMembers(sc: Scope, pod: nat)
    ensures forall c :: c in OuterFrom(sc, pod) <==>
      Eligible(sc.roles, c) && pod <= c.pod < sc.maxReplicas && c.replicaset < sc.maxReplicasets
    decreases sc.maxReplicas - pod
  {
    if pod < sc.maxReplicas {
      MidFromMembers(sc, pod, 0);
      OuterFromMembers(sc, pod + 1);
      var m, o := MidFrom(sc, pod, 0), OuterFrom(sc, pod + 1);
      assert OuterFrom(sc, pod) == m + o;
      forall c
        ensures c in m + o <==> Eligible(sc.roles, c) && pod <= c.pod < sc.maxReplicas && c.replicaset < sc.maxReplicasets
      {
        assert c in m + o <==> c in m || c in o;
      }
    }
  }

  /** Exactly the (role, replica set, pod) triples within that role's own counts are candidates. */
  lemma CandidatesAreEligible(roles: seq<RoleValue>)
    ensures forall c :: c in Candidates(roles) <==> Eligible(roles, c)
  {
    OuterFromMembers(Scope.Of(roles), 0);
  }

  predicate InScanOrder(cs: seq<Candidate>)
  {
    forall j, k :: 0 <= j < k < |cs| ==> Before(cs[j], cs[k])
  }

  lemma OrderedAppend(a: seq<Candidate>, b: seq<Candidate>)
    requires InScanOrder(a) && InScanOrder(b)
    requires forall x, y :: x in a && y in b ==> Before(x, y)
    ensures InScanOrder(a + b)
  {
    forall j, k | 0 <= j < k < |a + b|
      ensures Before((a + b)[j], (a + b)[k])
    {
      if k < |a| {
        assert Before(a[j], a[k]);
      } else if j >= |a| {
        assert Before(b[j - |a|], b[k - |a|]);
      } else {
        assert a[j] in a && b[k - |a|] in b;
      }
    }
  }

  lemma {:induction false} InnerFromOrdered(sc: Scope, pod: nat, rs: nat, i: nat)
    ensures InScanOrder(InnerFrom(sc, pod, rs, i))
    decreases |sc.roles| - i
  {
    if i < |sc.roles| {
      InnerFromOrdered(sc, pod, rs, i + 1);
      InnerFromMembers(sc, pod, rs, i + 1);
      var c := Candidate(i, rs, pod);
      OrderedAppend(if Eligible(sc.roles, c) then [c] else [], InnerFrom(sc, pod, rs, i + 1));
    }
  }

  lemma {:induction false} MidFromOrdered(sc: Scope, pod: nat, rs: nat)
    ensures InScanOrder(MidFrom(sc, pod, rs))
    decreases sc.maxReplicasets - rs
  {
    if rs < sc.maxReplicasets {
      InnerFromOrdered(sc, pod, rs, 0);
      InnerFromMembers(sc, pod, rs, 0);
      MidFromOrdered(sc, pod, rs + 1);
      MidFromMembers(sc, pod, rs + 1);
      OrderedAppend(InnerFrom(sc, pod, rs, 0), MidFrom(sc, pod, rs + 1));
    }
  }

  lemma {:induction false} OuterFromOrdered(sc: Scope, pod: nat)
    ensures InScanOrder(OuterFrom(sc, pod))
    decreases sc.maxReplicas - pod
  {
    if pod < sc.maxReplicas {
      MidFromOrdered(sc, pod, 0);
      MidFromMembers(sc, pod, 0);
      OuterFromOrdered(sc, pod + 1);
      OuterFromMembers(sc, pod + 1);
      OrderedAppend(MidFrom(sc, pod, 0), OuterFrom(sc, pod + 1));
    }
  }

  /** Pod ordinal first, then replica-set ordinal, then the role's place in the list. */
  lemma CandidatesInScanOrder(roles: seq<RoleValue>)
    ensures InScanOrder(Candidates(roles))
  {
    OuterFromOrdered(Scope.Of(roles), 0);
  }

  /** The first pod of the first replica set of the first role is tried first. */
  lemma FirstCandidate(roles: seq<RoleValue>)
    requires |roles| > 0 && roles[0].GetReplicasets() > 0 && roles[0].GetReplicas() > 0
    ensures |Candidates(roles)| > 0 && Candidates(roles)[0] == Candidate(0, 0, 0)
  {
    CandidatesAreEligible(roles);
    CandidatesInScanOrder(roles);
    var cs := Candidates(roles);
    assert Candidate(0, 0, 0) in cs;
    var k :| 0 <= k < |cs| && cs[k] == Candidate(0, 0, 0);
    if k > 0 {
      assert Before(cs[0], cs[k]);
    }
  }

  // ----- The nested loops scan the candidate list -----

  lemma {:induction false} ScanAppend(b: Ballot, roles: seq<RoleValue>, x: seq<Candidate>, y: seq<Candidate>, log: seq<Call>)
    requires AllEligible(roles, x) && AllEligible(roles, y)
    ensures AllEligible(roles, x + y)
    ensures Scan(b, roles, x + y, log)
         == (var (s, l) := Scan(b, roles, x, log); if s.Searching? then Scan(b, roles, y, l) else (s, l))
    decreases |x|
  {
    if |x| == 0 {
      assert x + y == y;
    } else {
      assert (x + y)[1..] == x[1..] + y;
      var (s, l) := TryCandidateSpec(b, roles, x[0], log);
      if s.Searching? {
        ScanAppend(b, roles, x[1..], y, l);
      }
    }
  }

  lemma EligibleAppend(roles: seq<RoleValue>, x: seq<Candidate>, y: seq<Candidate>)
    requires AllEligible(roles, x) && AllEligible(roles, y)
    ensures AllEligible(roles, x + y)
  {
  }

  lemma ScanCons(b: Ballot, roles: seq<RoleValue>, c: Candidate, rest: seq<Candidate>, log: seq<Call>)
    requires Eligible(roles, c) && AllEligible(roles, rest)
    ensures AllEligible(roles, [c] + rest)
    ensures Scan(b, roles, [c] + rest, log)
         == (var (s, l) := TryCandidateSpec(b, roles, c, log); if s.Searching? then Scan(b, roles, rest, l) else (s, l))
  {
    assert ([c] + rest)[0] == c && ([c] + rest)[1..] == rest;
  }

  lemma {:induction false} SearchInnerIsScan(b: Ballot, sc: Scope, pod: nat, rs: nat, i: nat, log: seq<Call>)
    requires pod < sc.maxReplicas && rs < sc.maxReplicasets && i <= |sc.roles|
    ensures AllEligible(sc.roles, InnerFrom(sc, pod, rs, i) + (MidFrom(sc, pod, rs + 1) + OuterFrom(sc, pod + 1)))
    ensures SearchInner(b, sc, pod, rs, i, log)
         == Scan(b, sc.roles, InnerFrom(sc, pod, rs, i) + (MidFrom(sc, pod, rs + 1) + OuterFrom(sc, pod + 1)), log)
    decreases sc.maxReplicas - pod, sc.maxReplicasets - rs, |sc.roles| - i
  {
    var rest := MidFrom(sc, pod, rs + 1) + OuterFrom(sc, pod + 1);
    EligibleAppend(sc.roles, MidFrom(sc, pod, rs + 1), OuterFrom(sc, pod + 1));
    EligibleAppend(sc.roles, InnerFrom(sc, pod, rs, i), rest);
    if i == |sc.roles| {
      assert InnerFrom(sc, pod, rs, i) + rest == rest;
      SearchMidIsScan(b, sc, pod, rs + 1, log);
    } else {
      var c := Candidate(i, rs, pod);
      var tail := InnerFrom(sc, pod, rs, i + 1);
      if !Eligible(sc.roles, c) {
        assert InnerFrom(sc, pod, rs, i) == tail;
        SearchInnerIsScan(b, sc, pod, rs, i + 1, log);
      } else {
        EligibleAppend(sc.roles, tail, rest);
        assert InnerFrom(sc, pod, rs, i) + rest == [c] + (tail + rest);
        ScanCons(b, sc.roles, c, tail + rest, log);
        var (s, log1) := TryCandidateSpec(b, sc.roles, c, log);
        if s.Searching? {
          SearchInnerIsScan(b, sc, pod, rs, i + 1, log1);
        }
      }
    }
  }

  lemma {:induction false} SearchMidIsScan(b: Ballot, sc: Scope, pod: nat, rs: nat, log: seq<Call>)
    requires pod < sc.maxReplicas && rs <= sc.maxReplicasets
    ensures AllEligible(sc.roles, MidFrom(sc, pod, rs) + OuterFrom(sc, pod + 1))
    ensures SearchMid(b, sc, pod, rs, log) == Scan(b, sc.roles, MidFrom(sc, pod, rs) + OuterFrom(sc, pod + 1), log)
    decreases sc.maxReplicas - pod, sc.maxReplicasets - rs, |sc.roles| + 1
  {
    if rs == sc.maxReplicasets {
      assert MidFrom(sc, pod, rs) + OuterFrom(sc, pod + 1) == OuterFrom(sc, pod + 1);
      SearchOuterIsScan(b, sc, pod + 1, log);
    } else {
      assert SearchMid(b, sc, pod, rs, log) == SearchInner(b, sc, pod, rs, 0, log);
      MidSplit(sc, pod, rs);
      SearchInnerIsScan(b, sc, pod, rs, 0, log);
    }
  }

  /** The candidates from replica set rs on are those of rs, then those of the later replica sets and pods. */
  lemma MidSplit(sc: Scope, pod: nat, rs: nat)
    requires pod < sc.maxReplicas && rs < sc.maxReplicasets
    ensures MidFrom(sc, pod, rs) + OuterFrom(sc, pod + 1)
         == InnerFrom(sc, pod, rs, 0) + (MidFrom(sc, pod, rs + 1) + OuterFrom(sc, pod + 1))
  {
    var inner, mid, outer := InnerFrom(sc, pod, rs, 0), MidFrom(sc, pod, rs + 1), OuterFrom(sc, pod + 1);
    assert MidFrom(sc, pod, rs) == inner + mid;
    assert (inner + mid) + outer == inner + (mid + outer);
  }

  lemma {:induction false} SearchOuterIsScan(b: Ballot, sc: Scope, pod: nat, log: seq<Call>)
    requires pod <= sc.maxReplicas
    ensures SearchOuter(b, sc, pod, log) == Scan(b, sc.roles, OuterFrom(sc, pod), log)
    decreases sc.maxReplicas - pod, sc.maxReplicasets + 1, 0
  {
    if pod < sc.maxReplicas {
      SearchMidIsScan(b, sc, pod, 0, log);
    }
  }

  /** findNewLeaderInstance tries the candidates in the order of `Candidates`, stopping at the first decision. */
  lemma FindNewLeaderScansCandidates(b: Ballot, log: seq<Call>, roles: seq<RoleValue>)
    requires b.w.listRoles(|log|, b.cluster.GetNamespace(), Manager.SelectorByClusterName(b.cluster.meta)) == Ok(roles)
    ensures var log1 := log + [ListRolesCall(b.cluster.GetNamespace(), Manager.SelectorByClusterName(b.cluster.meta))];
      var (s, log2) := Scan(b, roles, Candidates(roles), log1);
      FindNewLeaderSpec(b, log) == if s.Searching? then (Failed(Sentinel(NoAvailableLeader)), log2) else (s, log2)
  {
    var log1 := log + [ListRolesCall(b.cluster.GetNamespace(), Manager.SelectorByClusterName(b.cluster.meta))];
    SearchOuterIsScan(b, Scope.Of(roles), 0, log1);
  }

  // ----- What a scan does -----

  /** Calls a scan may make: pod lookups other than the current leader's, and probes. */
  predicate ScanCalls(calls: seq<Call>, leader: string)
  {
    forall k :: 0 <= k < |calls| ==>
      (calls[k].GetPodCall? && calls[k].key.name != leader) || calls[k].InstanceStateCall?
  }

  predicate NoWrites(calls: seq<Call>)
  {
    forall k :: 0 <= k < |calls| ==> !calls[k].IsWrite()
  }

  lemma ScanCallsNoWrites(calls: seq<Call>, leader: string)
    requires ScanCalls(calls, leader)
    ensures NoWrites(calls)
  {
  }

  lemma ScanCallsAppend(a: seq<Call>, b: seq<Call>, leader: string)
    requires ScanCalls(a, leader) && ScanCalls(b, leader)
    ensures ScanCalls(a + b, leader)
  {
    forall k | 0 <= k < |a + b|
      ensures ((a + b)[k].GetPodCall? && (a + b)[k].key.name != leader) || (a + b)[k].InstanceStateCall?
    {
      if k >= |a| {
        assert (a + b)[k] == b[k - |a|];
      }
    }
  }

  /**
   * One candidate only looks up a pod other than the current leader and probes
   * it; a chosen pod is running, not being deleted, and was probed.
   */
  lemma TryCandidateFacts(b: Ballot, roles: seq<RoleValue>, c: Candidate, log: seq<Call>)
    requires c.role < |roles|
    ensures var (s, log1) := TryCandidateSpec(b, roles, c, log);
      |log| <= |log1| && log1[..|log|] == log && ScanCalls(log1[|log|..], b.cluster.GetLeader())
      && (s.Found? ==> b.topo && IsPodRunning(s.pod) && !IsPodDeleting(s.pod))
  {
    var (s, log1) := TryCandidateSpec(b, roles, c, log);
    var name := CandidateName(roles, c);
    if name != b.cluster.GetLeader() {
      var key := NamespacedName(b.cluster.GetNamespace(), name);
      assert (log + [GetPodCall(key)])[|log|..] == [GetPodCall(key)];
      if b.w.getPod(|log|, key).Ok? {
        var pod := b.w.getPod(|log|, key).value;
        var log2 := log + [GetPodCall(key)];
        if !IsPodDeleting(pod) && IsPodRunning(pod) && b.topo {
          assert (log2 + [InstanceStateCall(pod.meta.name, b.cluster.IsBootstrapped())])[|log|..]
              == [GetPodCall(key), InstanceStateCall(pod.meta.name, b.cluster.IsBootstrapped())];
        }
      }
    }
  }

  /** log1 continues log with scan calls only. */
  predicate ScanExtends(log: seq<Call>, log1: seq<Call>, leader: string)
  {
    |log| <= |log1| && log1[..|log|] == log && ScanCalls(log1[|log|..], leader)
  }

  lemma ScanExtendsTrans(log: seq<Call>, log1: seq<Call>, log2: seq<Call>, leader: string)
    requires ScanExtends(log, log1, leader) && ScanExtends(log1, log2, leader)
    ensures ScanExtends(log, log2, leader)
  {
    assert log2[|log|..] == log1[|log|..] + log2[|log1|..];
    ScanCallsAppend(log1[|log|..], log2[|log1|..], leader);
  }

  /** The whole scan: no writes, never the current leader, and a chosen pod can lead. */
  lemma {:induction false} ScanFacts(b: Ballot, roles: seq<RoleValue>, cs: seq<Candidate>, log: seq<Call>)
    requires AllEligible(roles, cs)
    ensures var (s, log1) := Scan(b, roles, cs, log);
      ScanExtends(log, log1, b.cluster.GetLeader())
      && (s.Found? ==> b.topo && IsPodRunning(s.pod) && !IsPodDeleting(s.pod))
    decreases |cs|
  {
    if |cs| > 0 {
      var (s, log1) := TryCandidateSpec(b, roles, cs[0], log);
      TryCandidateFacts(b, roles, cs[0], log);
      if s.Searching? {
        ScanFacts(b, roles, cs[1..], log1);
        ScanExtendsTrans(log, log1, Scan(b, roles, cs[1..], log1).1, b.cluster.GetLeader());
      }
    } else {
      assert log[|log|..] == [];
    }
  }

  /** Without a Topology no candidate is ever chosen: every running candidate panics the scan. */
  lemma ScanWithoutTopologyNeverFinds(b: Ballot, roles: seq<RoleValue>, cs: seq<Candidate>, log: seq<Call>)
    requires AllEligible(roles, cs) && !b.topo
    ensures !Scan(b, roles, cs, log).0.Found?
  {
    ScanFacts(b, roles, cs, log);
  }

  // ----- GetLeaderInstance, proved -----

  /** Kubernetes lookups and transport failures never carry the election's sentinel errors. */
  ghost predicate LookupsCarryNoSentinel(w: World)
  {
    (forall n, key, s :: w.getPod(n, key).Fail? ==> !w.getPod(n, key).error.Is(s))
    && (forall n, pod, s :: w.instanceState(n, pod).Fail? ==> !w.instanceState(n, pod).error.Is(s))
  }

  /** A recorded leader that can lead is returned as it is, with no election and no write. */
  lemma KeepsUsableLeader(b: Ballot, log: seq<Call>, pod: Pod)
    requires b.cluster.GetLeader() != ""
    requires b.w.getPod(|log|, NamespacedName(b.cluster.GetNamespace(), b.cluster.GetLeader())) == Ok(pod)
    requires CanBeLeaderSpec(b.w, b.topo, log + [GetPodCall(NamespacedName(b.cluster.GetNamespace(), b.cluster.GetLeader()))],
                             b.cluster.IsBootstrapped(), pod).0 == Verdict(true, None)
    ensures var r := GetLeaderInstanceSpec(b, log);
      r.out == LeaderOut(Some(pod), None) && r.cluster == b.cluster && NoWrites(r.log[|log|..])
  {
    var r := GetLeaderInstanceSpec(b, log);
    var key := NamespacedName(b.cluster.GetNamespace(), b.cluster.GetLeader());
    assert r.log[|log|..] == [GetPodCall(key), InstanceStateCall(pod.meta.name, b.cluster.IsBootstrapped())];
  }

  /** With no recorded leader, a new one is elected. */
  lemma ElectsWhenNoneRecorded(b: Ballot, log: seq<Call>)
    requires b.cluster.GetLeader() == ""
    ensures GetLeaderInstanceSpec(b, log) == ElectSpec(b, log)
  {
  }

  /** A bootstrapped cluster whose recorded leader cannot lead elects another one. */
  lemma BootstrappedReElects(b: Ballot, log: seq<Call>, pod: Pod)
    requires b.cluster.IsBootstrapped() && b.cluster.GetLeader() != ""
    requires b.w.getPod(|log|, NamespacedName(b.cluster.GetNamespace(), b.cluster.GetLeader())) == Ok(pod)
    requires CanBeLeaderSpec(b.w, b.topo, log + [GetPodCall(NamespacedName(b.cluster.GetNamespace(), b.cluster.GetLeader()))],
                             b.cluster.IsBootstrapped(), pod).0 == Verdict(false, None)
    ensures GetLeaderInstanceSpec(b, log) == ElectSpec(b, LoadLeaderSpec(b, log).1)
  {
  }

  /**
   * Before bootstrap the recorded leader is never replaced: the cluster value is
   * unchanged and nothing is written, whatever the environment answers.
   */
  lemma NotBootstrappedKeepsLeader(b: Ballot, log: seq<Call>)
    requires LookupsCarryNoSentinel(b.w)
    requires !b.cluster.IsBootstrapped() && b.cluster.GetLeader() != ""
    ensures var r := GetLeaderInstanceSpec(b, log);
      r.cluster == b.cluster && |log| <= |r.log| && NoWrites(r.log[|log|..])
      && (r.out.LeaderOut? && r.out.leader.Some? ==> IsPodRunning(r.out.leader.value) && !IsPodDeleting(r.out.leader.value))
  {
    var r := GetLeaderInstanceSpec(b, log);
    var key := NamespacedName(b.cluster.GetNamespace(), b.cluster.GetLeader());
    var log1 := log + [GetPodCall(key)];
    match b.w.getPod(|log|, key)
    case Fail(e) =>
      assert !e.Is(LeaderWasNotElected) && !e.Is(LeaderNotReady);
      assert r.log[|log|..] == [GetPodCall(key)];
    case Ok(pod) =>
      var (v, log2) := CanBeLeaderSpec(b.w, b.topo, log1, false, pod);
      if v.Verdict? && v.err.Some? {
        var e := b.w.instanceState(|log1|, pod).error;
        assert v.err.value == Wrapped("unable to retrieve instance state", e);
        assert !e.Is(LeaderWasNotElected) && !e.Is(LeaderNotReady);
      }
      assert r.log == LoadLeaderSpec(b, log).1 == log2;
      if v.NoTopology? || IsPodDeleting(pod) || !IsPodRunning(pod) {
        assert log2 == log1;
        assert r.log[|log|..] == [GetPodCall(key)];
      } else {
        assert log2 == log1 + [InstanceStateCall(pod.meta.name, false)];
        assert r.log[|log|..] == [GetPodCall(key), InstanceStateCall(pod.meta.name, false)];
      }
  }

  /** Before bootstrap a recorded leader that cannot lead is reported as ErrLeaderNotReady. */
  lemma NotReadyBeforeBootstrap(b: Ballot, log: seq<Call>, pod: Pod)
    requires !b.cluster.IsBootstrapped() && b.cluster.GetLeader() != ""
    requires b.w.getPod(|log|, NamespacedName(b.cluster.GetNamespace(), b.cluster.GetLeader())) == Ok(pod)
    requires CanBeLeaderSpec(b.w, b.topo, log + [GetPodCall(NamespacedName(b.cluster.GetNamespace(), b.cluster.GetLeader()))],
                             false, pod).0 == Verdict(false, None)
    ensures GetLeaderInstanceSpec(b, log).out == LeaderOut(None, Some(Sentinel(LeaderNotReady)))
  {
  }

  /** A failed lookup of the recorded leader's pod is dropped: no leader and no error. */
  lemma SwallowsLookupError(b: Ballot, log: seq<Call>)
    requires LookupsCarryNoSentinel(b.w) && b.cluster.GetLeader() != ""
    requires b.w.getPod(|log|, NamespacedName(b.cluster.GetNamespace(), b.cluster.GetLeader())).Fail?
    ensures var r := GetLeaderInstanceSpec(b, log);
      r.out == LeaderOut(None, None) && r.cluster == b.cluster
  {
    var e := b.w.getPod(|log|, NamespacedName(b.cluster.GetNamespace(), b.cluster.GetLeader())).error;
    assert !e.Is(LeaderWasNotElected) && !e.Is(LeaderNotReady);
  }

  /**
   * An elected pod is written into the status, even when the write fails; a
   * conflict becomes ErrLeaderElectionConflict and any other error is passed on.
   */
  lemma ElectionRecordsLeader(b: Ballot, log: seq<Call>, pod: Pod)
    requires FindNewLeaderSpec(b, log).0 == Found(pod)
    ensures var r := ElectSpec(b, log);
      var call := StatusUpdateCall(ClusterObject(b.cluster.SetLeader(pod.meta.name)));
      var err := b.w.write(|FindNewLeaderSpec(b, log).1|, call);
      r.cluster == b.cluster.SetLeader(pod.meta.name) && r.log == FindNewLeaderSpec(b, log).1 + [call]
      && (err.None? ==> r.out == LeaderOut(Some(pod), None))
      && (err.Some? && err.value.IsConflict() ==> r.out == LeaderOut(None, Some(Sentinel(LeaderElectionConflict))))
      && (err.Some? && !err.value.IsConflict() ==> r.out == LeaderOut(None, err))
  {
  }

  /** After a successful election of a pod of the cluster's namespace, that pod is the leader. */
  lemma ElectedIsLeader(b: Ballot, log: seq<Call>, pod: Pod)
    requires b.cluster.spec.foreignLeader == "" && pod.meta.namespace == b.cluster.GetNamespace()
    requires ElectSpec(b, log).out == LeaderOut(Some(pod), None)
    ensures IsLeader(ElectSpec(b, log).cluster, pod)
  {
    var (s, log1) := FindNewLeaderSpec(b, log);
    match s
    case Found(p) =>
      assert RecordLeaderSpec(b.w, b.cluster, p, log1).out == LeaderOut(Some(pod), None);
    case _ =>
  }

  /** The scan itself makes no write. */
  lemma {:induction false} FindNewLeaderFacts(b: Ballot, log: seq<Call>)
    ensures var (s, log1) := FindNewLeaderSpec(b, log);
      |log| < |log1| && log1[..|log|] == log && NoWrites(log1[|log|..])
      && (s.Found? ==> b.topo && IsPodRunning(s.pod) && !IsPodDeleting(s.pod))
  {
    var ns := b.cluster.GetNamespace();
    var selector := Manager.SelectorByClusterName(b.cluster.meta);
    var log1 := log + [ListRolesCall(ns, selector)];
    match b.w.listRoles(|log|, ns, selector)
    case Fail(_) =>
      assert log1[|log|..] == [ListRolesCall(ns, selector)];
    case Ok(roles) =>
      var sc := Scope.Of(roles);
      SearchOuterIsScan(b, sc, 0, log1);
      ScanFacts(b, roles, OuterFrom(sc, 0), log1);
      var (s, log2) := SearchOuter(b, sc, 0, log1);
      ScanCallsNoWrites(log2[|log1|..], b.cluster.GetLeader());
      NoWritesAppend(log, [ListRolesCall(ns, selector)], log2);
  }

  lemma NoWritesAppend(log: seq<Call>, mid: seq<Call>, end: seq<Call>)
    requires |log + mid| <= |end| && end[..|log + mid|] == log + mid
    requires NoWrites(mid) && NoWrites(end[|log + mid|..])
    ensures |log| <= |end| && end[..|log|] == log && NoWrites(end[|log|..])
  {
    assert end[|log|..] == mid + end[|log + mid|..];
    forall k | 0 <= k < |end[|log|..]|
      ensures !end[|log|..][k].IsWrite()
    {
      if k >= |mid| {
        assert end[|log|..][k] == end[|log + mid|..][k - |mid|];
      }
    }
  }

  /** Whatever pod GetLeaderInstance returns is running and not being deleted. */
  lemma LeaderIsRunning(b: Ballot, log: seq<Call>)
    ensures var r := GetLeaderInstanceSpec(b, log);
      r.out.LeaderOut? && r.out.leader.Some? ==> IsPodRunning(r.out.leader.value) && !IsPodDeleting(r.out.leader.value)
  {
    FindNewLeaderFacts(b, log);
    FindNewLeaderFacts(b, LoadLeaderSpec(b, log).1);
  }

  /**
   * Without a Topology, as the cluster controller builds its election,
   * GetLeaderInstance never returns a pod: a probe would dereference the nil
   * interface.
   */
  lemma NoTopologyNoLeader(b: Ballot, log: seq<Call>)
    requires !b.topo
    ensures var r := GetLeaderInstanceSpec(b, log);
      !(r.out.LeaderOut? && r.out.leader.Some?)
  {
    FindNewLeaderFacts(b, log);
    FindNewLeaderFacts(b, LoadLeaderSpec(b, log).1);
  }

  /**
   * The election changes at most the recorded leader: the cluster it hands
   * back has the same phase, bootstrapped flag, metadata and spec.
   */
  lemma ElectionKeepsCluster(b: Ballot, log: seq<Call>)
    ensures var c := GetLeaderInstanceSpec(b, log).cluster;
      c.IsBootstrapped() == b.cluster.IsBootstrapped() && c.GetPhase() == b.cluster.GetPhase()
      && c.meta == b.cluster.meta && c.spec == b.cluster.spec
  {
  }
}
