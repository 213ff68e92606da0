// Helpers of pkg/utils: vshard role-set comparison under the role hierarchy,
// map subset and merge, pod predicates, slice membership and pod naming.

module Utils {
  import opened Wrappers
  import opened Text
  import opened K8s

  // ---------------------------------------------------------------------------
  // vshard.go

  /** The direct dependencies of `role` in the hierarchy (a nil slice when the role is absent). */
  function Dependencies(role: string, hierarchy: map<string, seq<string>>): seq<string>
  {
    if role in hierarchy then hierarchy[role] else []
  }

  /** The listed roles together with the direct (one level) dependencies of each. */
  function ExpandedRoles(roles: seq<string>, hierarchy: map<string, seq<string>>): set<string>
  {
    (set r | r in roles) + (set r, d | r in roles && d in Dependencies(r, hierarchy) :: d)
  }

  /** VShardRolesToMap: a map holding `true` at exactly the expanded roles. */
  method VShardRolesToMap(roles: seq<string>, hierarchy: map<string, seq<string>>) returns (rmap: map<string, bool>)
    ensures rmap.Keys == ExpandedRoles(roles, hierarchy)
    ensures forall r :: r in rmap ==> rmap[r]
  {
    rmap := map[];
    var i := 0;
    while i < |roles|
      invariant 0 <= i <= |roles|
      invariant rmap.Keys == ExpandedRoles(roles[..i], hierarchy)
      invariant forall r :: r in rmap ==> rmap[r]
    {
      var role := roles[i];
      rmap := rmap[role := true];
      var deps := Dependencies(role, hierarchy);
      var j := 0;
      while j < |deps|
        invariant 0 <= j <= |deps|
        invariant rmap.Keys == ExpandedRoles(roles[..i], hierarchy) + {role} + (set d | d in deps[..j])
        invariant forall r :: r in rmap ==> rmap[r]
      {
        rmap := rmap[deps[j] := true];
        assert deps[..j + 1] == deps[..j] + [deps[j]];
        j := j + 1;
      }
      assert deps[..j] == deps;
      ExpandedRolesStep(roles, i, hierarchy);
      i := i + 1;
    }
    assert roles[..i] == roles;
  }

  lemma ExpandedRolesStep(roles: seq<string>, i: nat, hierarchy: map<string, seq<string>>)
    requires i < |roles|
    ensures ExpandedRoles(roles[..i + 1], hierarchy)
         == ExpandedRoles(roles[..i], hierarchy) + {roles[i]} + (set d | d in Dependencies(roles[i], hierarchy))
  {
    var pre, post := roles[..i], roles[..i + 1];
    assert post == pre + [roles[i]];
    forall x | x in ExpandedRoles(post, hierarchy)
      ensures x in ExpandedRoles(pre, hierarchy) + {roles[i]} + (set d | d in Dependencies(roles[i], hierarchy))
    {
      if x !in (set r | r in post) {
        var r :| r in post && x in Dependencies(r, hierarchy);
        if r != roles[i] {
          assert r in pre;
        }
      }
    }
  }

  /** IsVShardRolesEquals: the two role lists expand to the same set. */
  predicate IsVShardRolesEquals(rolesA: seq<string>, rolesB: seq<string>, hierarchy: map<string, seq<string>>)
  {
    ExpandedRoles(rolesA, hierarchy) == ExpandedRoles(rolesB, hierarchy)
  }

  /** The comparison depends only on which roles are listed, not on order or repetition. */
  lemma VShardEqualsIgnoresOrder(a: seq<string>, a': seq<string>, b: seq<string>, hierarchy: map<string, seq<string>>)
    requires forall r :: r in a <==> r in a'
    ensures IsVShardRolesEquals(a, b, hierarchy) <==> IsVShardRolesEquals(a', b, hierarchy)
  {
    assert ExpandedRoles(a, hierarchy) == ExpandedRoles(a', hierarchy);
  }

  /** A role that the hierarchy does not mention contributes only itself. */
  lemma UnlistedRoleContributesItself(role: string, hierarchy: map<string, seq<string>>)
    requires role !in hierarchy
    ensures ExpandedRoles([role], hierarchy) == {role}
  {
  }

  /** Listing a parent implies its children: ["C","C1","C2"] equals ["C"] under C -> {C1, C2}. */
  lemma ParentImpliesChildren()
    ensures IsVShardRolesEquals(["C", "C1", "C2"], ["C"], map["C" := ["C1", "C2"]])
  {
    var h := map["C" := ["C1", "C2"]];
    var ab := ExpandedRoles(["C", "C1", "C2"], h);
    assert "C1" in Dependencies("C", h) && "C2" in Dependencies("C", h);
    assert ab == {"C", "C1", "C2"};
    assert ExpandedRoles(["C"], h) == {"C", "C1", "C2"};
  }

  /** Children do not imply the parent: ["C1","C2"] differs from ["C"] under C -> {C1, C2}. */
  lemma ChildrenDoNotImplyParent()
    ensures !IsVShardRolesEquals(["C1", "C2"], ["C"], map["C" := ["C1", "C2"]])
  {
    var h := map["C" := ["C1", "C2"]];
    assert "C" in ExpandedRoles(["C"], h);
    assert "C" !in ExpandedRoles(["C1", "C2"], h);
  }

  // ---------------------------------------------------------------------------
  // cmp.go

  /**
   * IsMapSubset: false when `subset` has more entries than `superset`, otherwise
   * true when every entry of `subset` is present in `superset` with an equal value.
   */
  predicate IsMapSubset<V(==)>(superset: map<string, V>, subset: map<string, V>)
  {
    if |subset| > |superset| then false
    else forall k :: k in subset ==> k in superset && superset[k] == subset[k]
  }

  /** The length check never decides the answer: the subset relation alone does. */
  lemma IsMapSubsetMeansEntryInclusion<V>(superset: map<string, V>, subset: map<string, V>)
    ensures IsMapSubset(superset, subset) <==> (forall k :: k in subset ==> k in superset && superset[k] == subset[k])
  {
    if forall k :: k in subset ==> k in superset && superset[k] == subset[k] {
      KeysSubsetCardinality(subset.Keys, superset.Keys);
      assert |subset.Keys| == |subset| && |superset.Keys| == |superset|;
    }
  }

  lemma {:induction false} KeysSubsetCardinality<K>(a: set<K>, b: set<K>)
    requires a <= b
    ensures |a| <= |b|
    decreases a
  {
    if a != {} {
      var x :| x in a;
      KeysSubsetCardinality(a - {x}, b - {x});
    }
  }

  lemma EmptyIsMapSubset<V>(superset: map<string, V>)
    ensures IsMapSubset(superset, map[])
  {
  }

  // ---------------------------------------------------------------------------
  // maps.go

  /** The maps merged left to right: a key takes its value from the last map holding it. */
  function Merged<K, V>(ms: seq<map<K, V>>): map<K, V>
  {
    if ms == [] then map[] else Merged(ms[..|ms| - 1]) + ms[|ms| - 1]
  }

  /** MergeMaps: a fresh map built by inserting every entry of every input in order. */
  method MergeMaps<K, V>(ms: seq<map<K, V>>) returns (res: map<K, V>)
    ensures res == Merged(ms)
  {
    res := map[];
    var i := 0;
    while i < |ms|
      invariant 0 <= i <= |ms|
      invariant res == Merged(ms[..i])
    {
      var m := ms[i];
      var pending := m.Keys;
      var base := res;
      while pending != {}
        invariant pending <= m.Keys
        invariant res == base + map k | k in m.Keys - pending :: m[k]
        decreases pending
      {
        var k :| k in pending;
        res := res[k := m[k]];
        pending := pending - {k};
        assert res == base + map k | k in m.Keys - pending :: m[k];
      }
      assert (map k | k in m.Keys - pending :: m[k]) == m;
      assert ms[..i + 1][..i] == ms[..i];
      i := i + 1;
    }
    assert ms[..i] == ms;
  }

  /** The merged key set is the union of the inputs' key sets. */
  lemma {:induction false} MergedKeys<K, V>(ms: seq<map<K, V>>, k: K)
    ensures k in Merged(ms) <==> exists i :: 0 <= i < |ms| && k in ms[i]
  {
    if ms != [] {
      var pre := ms[..|ms| - 1];
      MergedKeys(pre, k);
      assert Merged(ms) == Merged(pre) + ms[|ms| - 1];
      if k in Merged(ms) && k !in ms[|ms| - 1] {
        var i :| 0 <= i < |pre| && k in pre[i];
        assert k in ms[i];
      }
      if exists i :: 0 <= i < |ms| && k in ms[i] {
        var i :| 0 <= i < |ms| && k in ms[i];
        if i < |ms| - 1 {
          assert k in pre[i];
        }
      }
    }
  }

  /** Where several inputs hold a key, the value comes from the last of them. */
  lemma {:induction false} MergedLastWins<K, V>(ms: seq<map<K, V>>, i: nat, k: K)
    requires i < |ms| && k in ms[i]
    requires forall j :: i < j < |ms| ==> k !in ms[j]
    ensures k in Merged(ms) && Merged(ms)[k] == ms[i][k]
  {
    if i < |ms| - 1 {
      var pre := ms[..|ms| - 1];
      forall j | i < j < |pre| ensures k !in pre[j] {
        assert pre[j] == ms[j];
      }
      MergedLastWins(pre, i, k);
    }
  }

  // ---------------------------------------------------------------------------
  // pods.go

  predicate IsPodDeleting(pod: Pod)
  {
    pod.meta.deleting
  }

  predicate IsPodRunning(pod: Pod)
  {
    pod.status.phase == PodRunning
  }

  /** Not running or no container statuses: false; otherwise the first container's ready flag. */
  predicate IsPodDefaultContainerReady(pod: Pod)
  {
    if !IsPodRunning(pod) then false
    else if |pod.status.containerStatuses| == 0 then false
    else pod.status.containerStatuses[0].ready
  }

  /** GetPodConditionFromList: index and value of the first condition of the type, or (-1, nil). */
  function GetPodConditionFromList(conditions: seq<PodCondition>, conditionType: string): (r: (int, Option<PodCondition>))
    ensures r.0 == -1 <==> r.1 == None
    ensures r.0 == -1 <==> forall j :: 0 <= j < |conditions| ==> conditions[j].conditionType != conditionType
    ensures r.0 != -1 ==> 0 <= r.0 < |conditions| && r.1 == Some(conditions[r.0])
                          && conditions[r.0].conditionType == conditionType
                          && forall j :: 0 <= j < r.0 ==> conditions[j].conditionType != conditionType
    decreases |conditions|
  {
    if conditions == [] then (-1, None)
    else if conditions[0].conditionType == conditionType then (0, Some(conditions[0]))
    else
      var rest := GetPodConditionFromList(conditions[1..], conditionType);
      if rest.0 == -1 then rest else (rest.0 + 1, rest.1)
  }

  /** GetPodCondition: a nil status has no conditions. */
  function GetPodCondition(status: Option<PodStatus>, conditionType: string): (r: (int, Option<PodCondition>))
    ensures status.None? ==> r == (-1, None)
  {
    match status
    case None => (-1, None)
    case Some(s) => GetPodConditionFromList(s.conditions, conditionType)
  }

  function GetPodReadyCondition(status: PodStatus): Option<PodCondition>
  {
    GetPodCondition(Some(status), PodReadyCondition).1
  }

  predicate IsPodReadyConditionTrue(status: PodStatus)
  {
    var c := GetPodReadyCondition(status);
    c.Some? && c.value.status == ConditionTrue
  }

  predicate IsPodReady(pod: Pod)
  {
    IsPodReadyConditionTrue(pod.status)
  }

  /** The pod is ready exactly when its first Ready condition has status True. */
  lemma IsPodReadyMeansFirstReadyConditionTrue(pod: Pod)
    ensures IsPodReady(pod) <==>
      exists i :: 0 <= i < |pod.status.conditions|
        && pod.status.conditions[i].conditionType == PodReadyCondition
        && pod.status.conditions[i].status == ConditionTrue
        && forall j :: 0 <= j < i ==> pod.status.conditions[j].conditionType != PodReadyCondition
  {
    var r := GetPodConditionFromList(pod.status.conditions, PodReadyCondition);
    if IsPodReady(pod) {
      assert pod.status.conditions[r.0].status == ConditionTrue;
    }
  }

  // ---------------------------------------------------------------------------
  // slice.go

  /** SliceContains: a scan from the front that stops at the first equal element. */
  function SliceContains<T(==)>(a: seq<T>, x: T): (found: bool)
    ensures found <==> x in a
    decreases |a|
  {
    if a == [] then false
    else if x == a[0] then true
    else SliceContains(a[1..], x)
  }

  // ---------------------------------------------------------------------------
  // statefulsets.go

  /** The name of the StatefulSet pod with the given ordinal: "<sts>-<ordinal>". */
  function GetStatefulSetPodName(stsName: string, ordinal: int): string
  {
    stsName + "-" + IntToDecimal(ordinal)
  }

  /** For one StatefulSet, distinct ordinals give distinct pod names, and every name starts with "<sts>-". */
  lemma PodNamesDistinct(stsName: string, a: int, b: int)
    ensures IsPrefix(stsName + "-", GetStatefulSetPodName(stsName, a))
    ensures a != b ==> GetStatefulSetPodName(stsName, a) != GetStatefulSetPodName(stsName, b)
  {
    var p := stsName + "-";
    assert GetStatefulSetPodName(stsName, a)[..|p|] == p;
    if GetStatefulSetPodName(stsName, a) == GetStatefulSetPodName(stsName, b) {
      assert GetStatefulSetPodName(stsName, a)[|p|..] == IntToDecimal(a);
      assert GetStatefulSetPodName(stsName, b)[|p|..] == IntToDecimal(b);
      IntToDecimalInjective(a, b);
    }
  }
}

// Helpers of controllers/utils/utils.go.
module ControllerUtils {
  import opened Text

  /** Every element of X occurs in Y (the nested loop of isSubset). */
  predicate IsSubsetList(xs: seq<string>, ys: seq<string>)
  {
    forall i :: 0 <= i < |xs| ==> xs[i] in ys
  }

  /** IsRolesEquals: each list is contained in the other. */
  predicate IsRolesEquals(rolesA: seq<string>, rolesB: seq<string>)
  {
    IsSubsetList(rolesA, rolesB) && IsSubsetList(rolesB, rolesA)
  }

  function Elements(xs: seq<string>): set<string>
  {
    set x | x in xs
  }

  /** Equality of role lists is equality of the sets they list, so it is symmetric and ignores order and repeats. */
  lemma IsRolesEqualsMeansSameSet(a: seq<string>, b: seq<string>)
    ensures IsRolesEquals(a, b) <==> Elements(a) == Elements(b)
    ensures IsRolesEquals(a, b) == IsRolesEquals(b, a)
  {
    if Elements(a) == Elements(b) {
      forall i | 0 <= i < |a| ensures a[i] in b {
        assert a[i] in Elements(a);
        assert a[i] in Elements(b);
      }
      forall i | 0 <= i < |b| ensures b[i] in a {
        assert b[i] in Elements(b);
        assert b[i] in Elements(a);
      }
    }
  }

  /** MakeStaticPodAddr: "{pod}.{svc}.{ns}.svc.{domain}:{port}" with port 0 read as 8081 and an empty domain as "cluster.local". */
  function MakeStaticPodAddr(pod: string, svc: string, ns: string, domain: string, port: int): string
  {
    var p := if port == 0 then 8081 else port;
    var d := if domain == "" then "cluster.local" else domain;
    pod + "." + svc + "." + ns + ".svc." + d + ":" + IntToDecimal(p)
  }

  /** Omitted settings mean the defaults: an empty domain is "cluster.local" and port 0 is 8081. */
  lemma StaticPodAddrDefaults(pod: string, svc: string, ns: string)
    ensures MakeStaticPodAddr(pod, svc, ns, "", 0) == MakeStaticPodAddr(pod, svc, ns, "cluster.local", 8081)
  {
  }
}
