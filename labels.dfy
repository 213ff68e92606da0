// Label keys and label selectors (pkg/k8s/labels_manager.go). Every key lives
// under the manager's namespace ("<namespace>/<suffix>"); selectors are the
// equality maps handed to labels.SelectorFromSet.

module Labels {
  import opened Wrappers
  import opened Text
  import opened K8s

  /** A label selector built from a set: every pair must match exactly. */
  type Selector = map<string, string>

  const ClusterNameSuffix := "cluster-name"
  const RoleNameSuffix := "role-name"
  const ReplicasetNameSuffix := "replicaset-name"
  const ReplicasetUUIDSuffix := "replicaset-uuid"
  const ReplicasetOrdinalSuffix := "replicaset-ordinal"
  const ReplicasetPodTemplateHashSuffix := "replicaset-pod-template-hash"

  /** The six suffixes, in declaration order. */
  const Suffixes := [ClusterNameSuffix, RoleNameSuffix, ReplicasetNameSuffix,
                     ReplicasetUUIDSuffix, ReplicasetOrdinalSuffix, ReplicasetPodTemplateHashSuffix]

  datatype LabelsManager = LabelsManager(namespace: string)
  {
    /** namespacedLabel: "%s/%s" of the namespace and the suffix. */
    function Key(suffix: string): (k: string)
      ensures |k| == |namespace| + 1 + |suffix|
      ensures k[..|namespace|] == namespace && k[|namespace|] == '/' && k[|namespace| + 1..] == suffix
    {
      namespace + "/" + suffix
    }

    function ClusterName(): string { Key(ClusterNameSuffix) }
    function RoleName(): string { Key(RoleNameSuffix) }
    function ReplicasetName(): string { Key(ReplicasetNameSuffix) }
    function ReplicasetUUID(): string { Key(ReplicasetUUIDSuffix) }
    function ReplicasetOrdinal(): string { Key(ReplicasetOrdinalSuffix) }
    function ReplicasetPodTemplateHash(): string { Key(ReplicasetPodTemplateHashSuffix) }

    /** getClusterNameFromLabels: the cluster-name label, or "" when absent (a nil map has no labels). */
    function ClusterNameFromLabels(meta: Meta): (name: string)
      ensures ClusterName() in meta.LabelMap() ==> name == meta.LabelMap()[ClusterName()]
      ensures ClusterName() !in meta.LabelMap() ==> name == ""
    {
      var labels := meta.LabelMap();
      if ClusterName() in labels then labels[ClusterName()] else ""
    }

    function SelectorByClusterName(cluster: Meta): (s: Selector)
      ensures s.Keys == {ClusterName()} && s[ClusterName()] == cluster.name
    {
      map[ClusterName() := cluster.name]
    }

    function SelectorByRoleName(role: Meta): (s: Selector)
      ensures s.Keys == {ClusterName(), RoleName()}
      ensures s[ClusterName()] == ClusterNameFromLabels(role) && s[RoleName()] == role.name
    {
      LabelKeysDistinct(this);
      map[ClusterName() := ClusterNameFromLabels(role), RoleName() := role.name]
    }

    /** The role selector plus the ordinal, formatted with %d. */
    function SelectorByReplicasetOrdinal(role: Meta, ordinal: int): (s: Selector)
      ensures s.Keys == SelectorByRoleName(role).Keys + {ReplicasetOrdinal()}
      ensures forall k :: k in SelectorByRoleName(role) ==> s[k] == SelectorByRoleName(role)[k]
      ensures s[ReplicasetOrdinal()] == IntToDecimal(ordinal)
    {
      LabelKeysDistinct(this);
      map[ClusterName() := ClusterNameFromLabels(role), RoleName() := role.name,
          ReplicasetOrdinal() := IntToDecimal(ordinal)]
    }

    /** The role selector plus the replica-set name. */
    function SelectorByReplicasetName(role: Meta, name: string): (s: Selector)
      ensures s.Keys == SelectorByRoleName(role).Keys + {ReplicasetName()}
      ensures forall k :: k in SelectorByRoleName(role) ==> s[k] == SelectorByRoleName(role)[k]
      ensures s[ReplicasetName()] == name
    {
      LabelKeysDistinct(this);
      map[ClusterName() := ClusterNameFromLabels(role), RoleName() := role.name,
          ReplicasetName() := name]
    }
  }

  /** Two keys of one manager are equal only when their suffixes are. */
  lemma KeyInjective(m: LabelsManager, a: string, b: string)
    requires m.Key(a) == m.Key(b)
    ensures a == b
  {
    assert a == m.Key(a)[|m.namespace| + 1..];
  }

  /** The six label keys are pairwise distinct, whatever the namespace. */
  lemma LabelKeysDistinct(m: LabelsManager)
    ensures forall i, j :: 0 <= i < j < |Suffixes| ==> m.Key(Suffixes[i]) != m.Key(Suffixes[j])
  {
    forall i, j | 0 <= i < j < |Suffixes|
      ensures m.Key(Suffixes[i]) != m.Key(Suffixes[j])
    {
      var n := |m.namespace| + 1;
      assert m.Key(Suffixes[i])[n..] == Suffixes[i] != Suffixes[j] == m.Key(Suffixes[j])[n..];
    }
  }

  /** Selectors of the same role by two different ordinals never coincide. */
  lemma OrdinalSelectorsDistinct(m: LabelsManager, role: Meta, a: int, b: int)
    requires a != b
    ensures m.SelectorByReplicasetOrdinal(role, a) != m.SelectorByReplicasetOrdinal(role, b)
  {
    if m.SelectorByReplicasetOrdinal(role, a) == m.SelectorByReplicasetOrdinal(role, b) {
      IntToDecimalInjective(a, b);
    }
  }
}
