// The replica-set manager: one StatefulSet per replica set of a role, named
// "<role>-<ordinal>", identified by a version 5 UUID derived from that name,
// and kept in line with the role's replica-set template on every reconcile.

module Replicasets {
  import opened Wrappers
  import opened Text
  import opened Errors
  import opened K8s
  import opened Api
  import opened Labels
  import opened Uuid
  import opened Utils
  import opened ControllerUtils
  import opened Strconv
  import opened Environment

  // ----- The UUID namespace -----

  /** The namespace the role controller hands to the manager. */
  const Space: Uuid := [0x86, 0x01, 0x61, 0x5b, 0xc3, 0x9f, 0x4f, 0xd9, 0xa8, 0x8b, 0x9d, 0xf6, 0x88, 0x65, 0x6c, 0xbd]
  /** Its text form, "8601615b-c39f-4fd9-a88b-9df688656cbd", written group by group. */
  const SpaceString := "8601615b" + "-" + "c39f" + "-" + "4fd9" + "-" + "a88b" + "-" + "9df688656cbd"

  lemma SpaceGroup1()
    ensures Hex(Space[..4]) == "8601615b"
  {
    assert Space[..4] == [0x86, 0x01, 0x61, 0x5b];
    assert Hex([0x86, 0x01, 0x61, 0x5b]) == "8601615b";
  }

  lemma SpaceGroup2()
    ensures Hex(Space[4..6]) == "c39f" && Hex(Space[6..8]) == "4fd9" && Hex(Space[8..10]) == "a88b"
  {
    assert Space[4..6] == [0xc3, 0x9f];
    assert Space[6..8] == [0x4f, 0xd9];
    assert Space[8..10] == [0xa8, 0x8b];
  }

  lemma SpaceGroup3()
    ensures Hex(Space[10..]) == "9df688656cbd"
  {
    assert Space[10..] == [0x9d, 0xf6, 0x88, 0x65, 0x6c, 0xbd];
    assert Hex([0x9d, 0xf6, 0x88, 0x65, 0x6c, 0xbd]) == "9df688656cbd";
  }

  lemma SpaceText()
    ensures ToString(Space) == SpaceString
  {
    SpaceGroup1();
    SpaceGroup2();
    SpaceGroup3();
  }

  /** uuid.MustParse of the namespace text succeeds and yields Space, so it never panics. */
  lemma SpaceParses()
    ensures Parse(SpaceString) == Some(Space)
  {
    SpaceText();
    ParseToString(Space);
  }

  // ----- Names and addresses -----

  /** GetReplicasetUUID: NewSHA1 over "<role>-<ordinal>", printed in canonical form. */
  function GetReplicasetUUID(roleName: string, ordinal: int, sha1: seq<byte> -> Digest): string
  {
    ToString(NewSHA1(Space, Utf8(roleName + "-" + IntToDecimal(ordinal)), sha1))
  }

  /**
   * The replica-set UUID text parses back to the version 5 UUID of
   * "<role>-<ordinal>" in the namespace, and shows version digit 5 and an
   * RFC 4122 variant digit.
   */
  lemma ReplicasetUUIDParses(roleName: string, ordinal: int, sha1: seq<byte> -> Digest)
    ensures var u := GetReplicasetUUID(roleName, ordinal, sha1);
      && Parse(u) == Some(NewSHA1(Space, Utf8(roleName + "-" + IntToDecimal(ordinal)), sha1))
      && |u| == 36 && u[14] == '5' && u[19] in {'8', '9', 'a', 'b'}
  {
    var id := NewSHA1(Space, Utf8(roleName + "-" + IntToDecimal(ordinal)), sha1);
    ParseToString(id);
    VersionAndVariantDigits(Space, Utf8(roleName + "-" + IntToDecimal(ordinal)), sha1);
  }

  /** Two replica sets get the same UUID only when SHA-1 gives their names the same leading bytes. */
  lemma ReplicasetUUIDsDiffer(roleName: string, a: int, b: int, sha1: seq<byte> -> Digest)
    requires NewSHA1(Space, Utf8(roleName + "-" + IntToDecimal(a)), sha1)
          != NewSHA1(Space, Utf8(roleName + "-" + IntToDecimal(b)), sha1)
    ensures GetReplicasetUUID(roleName, a, sha1) != GetReplicasetUUID(roleName, b, sha1)
  {
    ReplicasetUUIDParses(roleName, a, sha1);
    ReplicasetUUIDParses(roleName, b, sha1);
  }

  /** GetAdvertiseURI: "<pod>.<cluster>.<namespace>.svc.<domain>:<port>", with no defaults. */
  function GetAdvertiseURI(cluster: ClusterValue, pod: Pod): (uri: string)
  {
    pod.meta.name + "." + cluster.GetName() + "." + pod.meta.namespace + ".svc." + cluster.GetDomain()
      + ":" + IntToDecimal(cluster.GetListenPort())
  }

  /**
   * The advertise URI is the static pod address of the pod behind the cluster's
   * headless service, whenever the cluster names its domain and port.
   */
  lemma AdvertiseURIIsStaticAddress(cluster: ClusterValue, pod: Pod)
    requires cluster.GetDomain() != "" && cluster.GetListenPort() != 0
    ensures GetAdvertiseURI(cluster, pod)
         == MakeStaticPodAddr(pod.meta.name, cluster.GetName(), pod.meta.namespace, cluster.GetDomain(), cluster.GetListenPort())
  {
  }

  // ----- Labels -----

  /** A label value, "" when the map is nil or lacks the key. */
  function LabelOf(meta: Meta, key: string): (v: string)
    ensures key in meta.LabelMap() ==> v == meta.LabelMap()[key]
    ensures key !in meta.LabelMap() ==> v == ""
  {
    var labels := meta.LabelMap();
    if key in labels then labels[key] else ""
  }

  /** The six labels every StatefulSet of a replica set carries. */
  function RequiredLabels(clusterName: string, role: RoleValue, stsName: string, uuid: string, ordinal: int,
                          hash: string): map<string, string>
  {
    map[Manager.ClusterName() := clusterName, Manager.RoleName() := role.GetName(),
        Manager.ReplicasetName() := stsName, Manager.ReplicasetUUID() := uuid,
        Manager.ReplicasetOrdinal() := IntToDecimal(ordinal), Manager.ReplicasetPodTemplateHash() := hash]
  }

  /** The StatefulSet labels: the cluster label, then the role's labels, then the required ones. */
  function StatefulSetLabels(clusterName: string, role: RoleValue, stsName: string, uuid: string, ordinal: int,
                             hash: string): map<string, string>
  {
    Merged([map[Manager.ClusterName() := clusterName], role.meta.LabelMap(),
            RequiredLabels(clusterName, role, stsName, uuid, ordinal, hash)])
  }

  /** The pod-template labels: the role's pod-template labels overridden by the StatefulSet labels. */
  function PodTemplateLabels(role: RoleValue, stsLabels: map<string, string>): map<string, string>
  {
    Merged([role.spec.template.podTemplate.labels.GetOr(map[]), stsLabels])
  }

  lemma MergedTwo<K, V>(a: map<K, V>, b: map<K, V>)
    ensures Merged([a, b]) == a + b
  {
    assert [a][..0] == [];
    assert Merged([a]) == map[] + a == a;
    assert [a, b][..1] == [a];
  }

  lemma MergedThree<K, V>(a: map<K, V>, b: map<K, V>, c: map<K, V>)
    ensures Merged([a, b, c]) == a + b + c
  {
    assert [a, b, c][..2] == [a, b];
    MergedTwo(a, b);
  }

  /**
   * The StatefulSet labels hold the six required values, and every other key
   * exactly as the role's labels hold it.
   */
  lemma StatefulSetLabelsContent(clusterName: string, role: RoleValue, stsName: string, uuid: string, ordinal: int,
                                 hash: string)
    ensures var labels := StatefulSetLabels(clusterName, role, stsName, uuid, ordinal, hash);
      && labels[Manager.ClusterName()] == clusterName
      && labels[Manager.RoleName()] == role.GetName()
      && labels[Manager.ReplicasetName()] == stsName
      && labels[Manager.ReplicasetUUID()] == uuid
      && labels[Manager.ReplicasetOrdinal()] == IntToDecimal(ordinal)
      && labels[Manager.ReplicasetPodTemplateHash()] == hash
      && forall k :: k !in RequiredLabels(clusterName, role, stsName, uuid, ordinal, hash) ==>
           (k in labels <==> k in role.meta.LabelMap()) && (k in labels ==> labels[k] == role.meta.LabelMap()[k])
  {
    LabelKeysDistinct(Manager);
    MergedThree(map[Manager.ClusterName() := clusterName], role.meta.LabelMap(),
                RequiredLabels(clusterName, role, stsName, uuid, ordinal, hash));
  }

  // ----- StatefulSets -----

  const ParallelPodManagement := "Parallel"

  /** A StatefulSet the manager works on; syncing updates it in place. */
  class StatefulSet {
    var meta: Meta
    var spec: StatefulSetSpec

    function Value(): StatefulSetValue
      reads this
    {
      StatefulSetValue(meta, spec)
    }

    constructor (v: StatefulSetValue)
      ensures Value() == v
    {
      meta := v.meta;
      spec := v.spec;
    }
  }

  /**
   * The update strategy syncStatefulSet leaves, and whether it touched it: the
   * role's type; no rolling-update settings under OnDelete; the role's settings
   * under RollingUpdate; otherwise the settings as they were.
   */
  function SyncedStrategy(want: UpdateStrategy, have: UpdateStrategy): (r: (bool, UpdateStrategy))
  {
    var ru := if want.strategyType == OnDeleteStrategy then None
              else if want.strategyType == RollingUpdateStrategy then want.rollingUpdate
              else have.rollingUpdate;
    (want.strategyType != have.strategyType || ru != have.rollingUpdate, UpdateStrategy(want.strategyType, ru))
  }

  /**
   * The StatefulSet syncStatefulSet leaves, and whether any of its checks fired.
   * Each check rewrites one field only when it differs from the wanted value,
   * so afterwards every field holds the wanted value: replicas never go down,
   * the minimum ready time, the strategy and the annotations are the role's,
   * the labels and pod-template labels are the merged ones, and the template
   * is the role's when the recorded template hash differs from the current one.
   * Name, namespace, selector and the fields set at creation are kept.
   */
  function Reconciled(role: RoleValue, sts: StatefulSetValue, hash: string, labels: map<string, string>,
                      podLabels: map<string, string>): (r: (bool, StatefulSetValue))
  {
    var t := role.spec.template;
    var replicas := if t.replicas > sts.spec.replicas then t.replicas else sts.spec.replicas;
    var (strategyChanged, strategy) := SyncedStrategy(t.updateStrategy, sts.spec.updateStrategy);
    var templateStale := hash != LabelOf(sts.meta, Manager.ReplicasetPodTemplateHash());
    var template := if templateStale then t.podTemplate else sts.spec.template;
    var changed := t.replicas > sts.spec.replicas || t.minReadySeconds != sts.spec.minReadySeconds
                   || strategyChanged || templateStale || sts.meta.labels != Some(labels)
                   || template.labels != Some(podLabels) || role.meta.annotations != sts.meta.annotations;
    (changed,
     StatefulSetValue(
       sts.meta.(labels := Some(labels), annotations := role.meta.annotations),
       sts.spec.(replicas := replicas, minReadySeconds := t.minReadySeconds, updateStrategy := strategy,
                 template := template.(labels := Some(podLabels)))))
  }

  /** What a sync leaves: whether the object changed, the error, the object and the log. */
  datatype SyncOut = SyncOut(changed: bool, err: Option<Error>, sts: StatefulSetValue, log: seq<Call>)

  /** syncStatefulSet: hash the role's pod template, take control of the StatefulSet, then reconcile it. */
  function SyncSpec(w: World, log: seq<Call>, clusterName: string, role: RoleValue, sts: StatefulSetValue,
                    ordinal: int, uuid: string): (r: SyncOut)
  {
    var hash := w.hash(role.spec.template.podTemplate);
    if hash.Fail? then SyncOut(false, Some(hash.error), sts, log)
    else
      var labels := StatefulSetLabels(clusterName, role, sts.meta.name, uuid, ordinal, hash.value);
      var podLabels := PodTemplateLabels(role, labels);
      var control := w.controlObject(|log|, role.meta, sts.meta);
      var log1 := log + [ControlObjectCall(role.meta.name, sts.meta.name)];
      if control.Fail? then SyncOut(false, Some(control.error), sts, log1)
      else
        var (changed, s) := Reconciled(role, sts, hash.value, labels, podLabels);
        SyncOut(control.value || changed, None, s, log1)
  }

  /** The hash label of a reconciled StatefulSet is the template hash. */
  lemma ReconciledHashLabel(clusterName: string, role: RoleValue, sts: StatefulSetValue, ordinal: int,
                            uuid: string, hash: string)
    ensures var labels := StatefulSetLabels(clusterName, role, sts.meta.name, uuid, ordinal, hash);
      var s := Reconciled(role, sts, hash, labels, PodTemplateLabels(role, labels)).1;
      LabelOf(s.meta, Manager.ReplicasetPodTemplateHash()) == hash
  {
    StatefulSetLabelsContent(clusterName, role, sts.meta.name, uuid, ordinal, hash);
  }

  /** A sync reports a change exactly when it rewrote some field. */
  lemma ReconciledChangedIff(role: RoleValue, sts: StatefulSetValue, hash: string, labels: map<string, string>,
                             podLabels: map<string, string>)
    requires Manager.ReplicasetPodTemplateHash() in labels && labels[Manager.ReplicasetPodTemplateHash()] == hash
    ensures var (changed, s) := Reconciled(role, sts, hash, labels, podLabels);
      changed <==> s != sts
  {
    // Only the template copy can fire without leaving a trace in its own field;
    // it fires only when the hash label differs, and then the labels change.
    var (changed, s) := Reconciled(role, sts, hash, labels, podLabels);
    if changed && s == sts {
      assert false;
    }
  }

  /** Syncing a synced StatefulSet again changes nothing. */
  lemma ReconciledIdempotent(clusterName: string, role: RoleValue, sts: StatefulSetValue, ordinal: int,
                             uuid: string, hash: string)
    ensures var labels := StatefulSetLabels(clusterName, role, sts.meta.name, uuid, ordinal, hash);
      var podLabels := PodTemplateLabels(role, labels);
      var s := Reconciled(role, sts, hash, labels, podLabels).1;
      Reconciled(role, s, hash, labels, podLabels) == (false, s)
  {
    var labels := StatefulSetLabels(clusterName, role, sts.meta.name, uuid, ordinal, hash);
    var podLabels := PodTemplateLabels(role, labels);
    ReconciledHashLabel(clusterName, role, sts, ordinal, uuid, hash);
  }

  /**
   * A sync that succeeds with a controller reference already in place reports
   * no change exactly when the StatefulSet was in line with the role already,
   * and a second sync after a successful one reports no change.
   */
  lemma SyncChangedIff(w: World, log: seq<Call>, clusterName: string, role: RoleValue, sts: StatefulSetValue,
                       ordinal: int, uuid: string)
    ensures var r := SyncSpec(w, log, clusterName, role, sts, ordinal, uuid);
      && (r.err.None? ==> (r.changed <==> w.controlObject(|log|, role.meta, sts.meta) == Ok(true) || r.sts != sts))
      && (r.err.Some? ==> !r.changed && r.sts == sts)
      && (r.err.None? && w.controlObject(|r.log|, role.meta, r.sts.meta) == Ok(false) ==>
            var again := SyncSpec(w, r.log, clusterName, role, r.sts, ordinal, uuid);
            again.err.None? && !again.changed && again.sts == r.sts)
  {
    var r := SyncSpec(w, log, clusterName, role, sts, ordinal, uuid);
    var hash := w.hash(role.spec.template.podTemplate);
    if hash.Ok? {
      var labels := StatefulSetLabels(clusterName, role, sts.meta.name, uuid, ordinal, hash.value);
      StatefulSetLabelsContent(clusterName, role, sts.meta.name, uuid, ordinal, hash.value);
      ReconciledChangedIff(role, sts, hash.value, labels, PodTemplateLabels(role, labels));
      ReconciledIdempotent(clusterName, role, sts, ordinal, uuid, hash.value);
    }
  }

  /** The replica count, minimum ready time and update strategy checks of syncStatefulSet. */
  method SyncSettings(sts: StatefulSet, t: ReplicasetTemplate) returns (changed: bool)
    modifies sts
    ensures var strategy := SyncedStrategy(t.updateStrategy, old(sts.spec.updateStrategy));
      && sts.meta == old(sts.meta)
      && sts.spec == old(sts.spec).(replicas := if t.replicas > old(sts.spec.replicas) then t.replicas else old(sts.spec.replicas),
                                    minReadySeconds := t.minReadySeconds, updateStrategy := strategy.1)
      && changed == (t.replicas > old(sts.spec.replicas) || t.minReadySeconds != old(sts.spec.minReadySeconds) || strategy.0)
  {
    changed := false;
    if t.replicas > sts.spec.replicas {
      sts.spec := sts.spec.(replicas := t.replicas);
      changed := true;
    }
    if t.minReadySeconds != sts.spec.minReadySeconds {
      sts.spec := sts.spec.(minReadySeconds := t.minReadySeconds);
      changed := true;
    }
    if t.updateStrategy.strategyType != sts.spec.updateStrategy.strategyType {
      sts.spec := sts.spec.(updateStrategy := sts.spec.updateStrategy.(strategyType := t.updateStrategy.strategyType));
      changed := true;
    }
    if sts.spec.updateStrategy.strategyType == OnDeleteStrategy && sts.spec.updateStrategy.rollingUpdate.Some? {
      sts.spec := sts.spec.(updateStrategy := sts.spec.updateStrategy.(rollingUpdate := None));
      changed := true;
    }
    if sts.spec.updateStrategy.strategyType == RollingUpdateStrategy
       && t.updateStrategy.rollingUpdate != sts.spec.updateStrategy.rollingUpdate {
      sts.spec := sts.spec.(updateStrategy := sts.spec.updateStrategy.(rollingUpdate := t.updateStrategy.rollingUpdate));
      changed := true;
    }
  }

  /** The template, label and annotation checks of syncStatefulSet. */
  method SyncTemplateAndLabels(sts: StatefulSet, role: RoleValue, hash: string, labels: map<string, string>,
                               podLabels: map<string, string>) returns (changed: bool)
    modifies sts
    ensures var stale := hash != LabelOf(old(sts.meta), Manager.ReplicasetPodTemplateHash());
      var template := if stale then role.spec.template.podTemplate else old(sts.spec.template);
      && sts.meta == old(sts.meta).(labels := Some(labels), annotations := role.meta.annotations)
      && sts.spec == old(sts.spec).(template := template.(labels := Some(podLabels)))
      && changed == (stale || old(sts.meta.labels) != Some(labels) || template.labels != Some(podLabels)
                     || role.meta.annotations != old(sts.meta.annotations))
  {
    changed := false;
    if hash != LabelOf(sts.meta, Manager.ReplicasetPodTemplateHash()) {
      sts.spec := sts.spec.(template := role.spec.template.podTemplate);
      changed := true;
    }
    if sts.meta.labels != Some(labels) {
      sts.meta := sts.meta.(labels := Some(labels));
      changed := true;
    }
    if sts.spec.template.labels != Some(podLabels) {
      sts.spec := sts.spec.(template := sts.spec.template.(labels := Some(podLabels)));
      changed := true;
    }
    if role.meta.annotations != sts.meta.annotations {
      sts.meta := sts.meta.(annotations := role.meta.annotations);
      changed := true;
    }
  }

  /** syncStatefulSet, updating the StatefulSet in place. */
  method SyncStatefulSet(ctrl: Controller, clusterName: string, role: RoleValue, sts: StatefulSet, ordinal: int,
                         uuid: string) returns (changed: bool, err: Option<Error>)
    modifies ctrl, sts
    ensures SyncOut(changed, err, sts.Value(), ctrl.log)
         == SyncSpec(ctrl.world, old(ctrl.log), clusterName, role, old(sts.Value()), ordinal, uuid)
  {
    var hash := ctrl.world.hash(role.spec.template.podTemplate);
    if hash.Fail? {
      return false, Some(hash.error);
    }
    var labels := MergeMaps([map[Manager.ClusterName() := clusterName], role.meta.LabelMap(),
                             RequiredLabels(clusterName, role, sts.meta.name, uuid, ordinal, hash.value)]);
    var podLabels := MergeMaps([role.spec.template.podTemplate.labels.GetOr(map[]), labels]);
    var control := ctrl.ControlObject(role.meta, sts.meta);
    if control.Fail? {
      return false, Some(control.error);
    }
    changed := control.value;
    var settingsChanged := SyncSettings(sts, role.spec.template);
    var labelsChanged := SyncTemplateAndLabels(sts, role, hash.value, labels, podLabels);
    changed := changed || settingsChanged || labelsChanged;
    err := None;
  }

  // ----- Creating and updating the replica sets of a role -----

  /** The selector of a replica set's StatefulSet: cluster, role, replica-set name and UUID. */
  function ReplicasetSelector(clusterName: string, role: RoleValue, name: string, uuid: string): (s: Selector)
    ensures s.Keys == {Manager.ClusterName(), Manager.RoleName(), Manager.ReplicasetName(), Manager.ReplicasetUUID()}
  {
    map[Manager.ClusterName() := clusterName, Manager.RoleName() := role.GetName(),
        Manager.ReplicasetName() := name, Manager.ReplicasetUUID() := uuid]
  }

  /** The selector is part of the pod-template labels a sync gives the StatefulSet. */
  lemma SelectorInPodLabels(clusterName: string, role: RoleValue, name: string, uuid: string, ordinal: int, hash: string)
    ensures var podLabels := PodTemplateLabels(role, StatefulSetLabels(clusterName, role, name, uuid, ordinal, hash));
      var selector := ReplicasetSelector(clusterName, role, name, uuid);
      forall k :: k in selector ==> k in podLabels && podLabels[k] == selector[k]
  {
    var labels := StatefulSetLabels(clusterName, role, name, uuid, ordinal, hash);
    StatefulSetLabelsContent(clusterName, role, name, uuid, ordinal, hash);
    MergedTwo(role.spec.template.podTemplate.labels.GetOr(map[]), labels);
    LabelKeysDistinct(Manager);
  }

  /** A StatefulSet as createStatefulSet declares it, before the first sync. */
  function NewStatefulSet(clusterName: string, role: RoleValue, name: string, uuid: string): (s: StatefulSetValue)
    ensures s.meta.name == name && s.meta.namespace == role.GetNamespace()
    ensures s.spec.selector == ReplicasetSelector(clusterName, role, name, uuid)
  {
    StatefulSetValue(
      Meta(name, role.GetNamespace(), Some(map[]), None, false, []),
      StatefulSetSpec(
        role.GetReplicas(),
        ReplicasetSelector(clusterName, role, name, uuid),
        PodTemplateSpec(None, ""),  // the zero template, replaced by the role's on the first sync
        role.spec.template.volumeClaimTemplates,
        clusterName,
        ParallelPodManagement,
        1,
        true,
        0,
        UpdateStrategy("", None)))
  }

  /** The error and the log an operation leaves. */
  datatype Effect = Effect(err: Option<Error>, log: seq<Call>)

  /**
   * createStatefulSet: declare the StatefulSet, sync it and create it. The
   * error GetReplicasetName could return is always nil and is not checked here.
   */
  function CreateStatefulSetSpec(w: World, log: seq<Call>, clusterName: string, role: RoleValue, ordinal: nat): (r: Effect)
  {
    var name := role.GetReplicasetName(ordinal).0;
    var uuid := GetReplicasetUUID(role.GetName(), ordinal, w.sha1);
    var sync := SyncSpec(w, log, clusterName, role, NewStatefulSet(clusterName, role, name, uuid), ordinal, uuid);
    if sync.err.Some? then Effect(sync.err, sync.log)
    else
      var call := CreateCall(StatefulSetObject(sync.sts));
      Effect(w.write(|sync.log|, call), sync.log + [call])
  }

  /** What updateStatefulSet leaves. */
  datatype UpdateOut = UpdateOut(updated: bool, err: Option<Error>, log: seq<Call>)

  /** updateStatefulSet: sync the listed StatefulSet and write it back when the sync changed it. */
  function UpdateStatefulSetSpec(w: World, log: seq<Call>, clusterName: string, role: RoleValue, sts: StatefulSetValue,
                                 ordinal: int): (r: UpdateOut)
    ensures r.err.None? <==> r.updated
  {
    var uuid := GetReplicasetUUID(role.GetName(), ordinal, w.sha1);
    var sync := SyncSpec(w, log, clusterName, role, sts, ordinal, uuid);
    if sync.err.Some? then UpdateOut(false, sync.err, sync.log)
    else if sync.changed then
      var call := UpdateCall(StatefulSetObject(sync.sts));
      var err := w.write(|sync.log|, call);
      UpdateOut(err.None?, err, sync.log + [call])
    else UpdateOut(true, None, sync.log)
  }

  /**
   * One round of the loop of CreateStatefulSets: a replica set whose
   * StatefulSet is listed is skipped; a listing error other than NotFound
   * stops the loop; otherwise the StatefulSet is created.
   */
  function CreateStep(w: World, log: seq<Call>, clusterName: string, role: RoleValue, ordinal: nat): (r: Effect)
  {
    var selector := Manager.SelectorByReplicasetOrdinal(role.meta, ordinal);
    var list := w.listStatefulSets(|log|, role.GetNamespace(), selector);
    var log1 := log + [ListStatefulSetsCall(role.GetNamespace(), selector)];
    if list.Ok? && |list.value| > 0 then Effect(None, log1)
    else if list.Fail? && !list.error.IsNotFound() then Effect(Some(list.error), log1)
    else CreateStatefulSetSpec(w, log1, clusterName, role, ordinal)
  }

  /** The loop of CreateStatefulSets from `ordinal` on; the first error stops it. */
  function CreateLoop(w: World, log: seq<Call>, clusterName: string, role: RoleValue, ordinal: nat): (r: Effect)
    decreases role.GetReplicasets() - ordinal
  {
    if ordinal >= role.GetReplicasets() then Effect(None, log)
    else
      var step := CreateStep(w, log, clusterName, role, ordinal);
      if step.err.Some? then step else CreateLoop(w, step.log, clusterName, role, ordinal + 1)
  }

  /** CreateStatefulSets: make sure every replica set 0 .. replicasets - 1 of the role has its StatefulSet. */
  function CreateStatefulSetsSpec(w: World, log: seq<Call>, clusterName: string, role: RoleValue): Effect
  {
    CreateLoop(w, log, clusterName, role, 0)
  }

  /**
   * The loop of UpdateStatefulSets from item i on: every listed StatefulSet's
   * ordinal label is parsed and the StatefulSet updated; the first error stops
   * the loop and reports the update incomplete.
   */
  function UpdateLoop(w: World, log: seq<Call>, clusterName: string, role: RoleValue, items: seq<StatefulSetValue>,
                      i: nat, done: bool): (r: UpdateOut)
    requires i <= |items|
    decreases |items| - i
  {
    if i == |items| then UpdateOut(done, None, log)
    else
      var ordinal := ParseInt32(LabelOf(items[i].meta, Manager.ReplicasetOrdinal()));
      if ordinal.Fail? then UpdateOut(false, Some(ordinal.error), log)
      else
        var u := UpdateStatefulSetSpec(w, log, clusterName, role, items[i], ordinal.value);
        if u.err.Some? then UpdateOut(false, u.err, u.log)
        else UpdateLoop(w, u.log, clusterName, role, items, i + 1, done && u.updated)
  }

  /** UpdateStatefulSets: update every StatefulSet labelled with the role. */
  function UpdateStatefulSetsSpec(w: World, log: seq<Call>, clusterName: string, role: RoleValue): UpdateOut
  {
    var selector := Manager.SelectorByRoleName(role.meta);
    var list := w.listStatefulSets(|log|, role.GetNamespace(), selector);
    var log1 := log + [ListStatefulSetsCall(role.GetNamespace(), selector)];
    if list.Fail? then UpdateOut(false, Some(list.error), log1)
    else UpdateLoop(w, log1, clusterName, role, list.value, 0, true)
  }

  lemma {:induction false} UpdateLoopComplete(w: World, log: seq<Call>, clusterName: string, role: RoleValue,
                                              items: seq<StatefulSetValue>, i: nat)
    requires i <= |items|
    ensures var r := UpdateLoop(w, log, clusterName, role, items, i, true);
      r.err.None? <==> r.updated
    decreases |items| - i
  {
    if i < |items| {
      var ordinal := ParseInt32(LabelOf(items[i].meta, Manager.ReplicasetOrdinal()));
      if ordinal.Ok? {
        var u := UpdateStatefulSetSpec(w, log, clusterName, role, items[i], ordinal.value);
        if u.err.None? {
          UpdateLoopComplete(w, u.log, clusterName, role, items, i + 1);
        }
      }
    }
  }

  /**
   * UpdateStatefulSets reports an incomplete update exactly when it fails: it
   * never answers "not complete" without an error.
   */
  lemma UpdateNeverIncompleteWithoutError(w: World, log: seq<Call>, clusterName: string, role: RoleValue)
    ensures var r := UpdateStatefulSetsSpec(w, log, clusterName, role);
      r.err.None? <==> r.updated
  {
    var selector := Manager.SelectorByRoleName(role.meta);
    var list := w.listStatefulSets(|log|, role.GetNamespace(), selector);
    if list.Ok? {
      UpdateLoopComplete(w, log + [ListStatefulSetsCall(role.GetNamespace(), selector)], clusterName, role, list.value, 0);
    }
  }

  // ----- What the manager writes -----

  /**
   * A StatefulSet the manager writes for a role: at least the role's replicas,
   * labelled with the cluster and the role, and with pod-template labels that
   * carry the same cluster and role labels.
   */
  predicate FollowsRole(s: StatefulSetValue, clusterName: string, role: RoleValue)
  {
    && s.spec.replicas >= role.GetReplicas()
    && s.meta.labels.Some?
    && Manager.ClusterName() in s.meta.labels.value && s.meta.labels.value[Manager.ClusterName()] == clusterName
    && Manager.RoleName() in s.meta.labels.value && s.meta.labels.value[Manager.RoleName()] == role.GetName()
    && s.spec.template.labels.Some?
    && Manager.ClusterName() in s.spec.template.labels.value
    && s.spec.template.labels.value[Manager.ClusterName()] == clusterName
    && Manager.RoleName() in s.spec.template.labels.value
    && s.spec.template.labels.value[Manager.RoleName()] == role.GetName()
  }

  /** A call that is not a create or an update, or one that writes a StatefulSet following the role. */
  predicate WriteFollowsRole(c: Call, clusterName: string, role: RoleValue)
  {
    (c.CreateCall? || c.UpdateCall?) ==> c.obj.StatefulSetObject? && FollowsRole(c.obj.statefulSet, clusterName, role)
  }

  /** Every call from index `from` on writes only what follows the role. */
  predicate WritesFollowRole(calls: seq<Call>, from: nat, clusterName: string, role: RoleValue)
  {
    forall j :: from <= j < |calls| ==> WriteFollowsRole(calls[j], clusterName, role)
  }

  /** Pods of the StatefulSet match its selector: the selector is part of the pod-template labels. */
  predicate SelectsOwnPods(s: StatefulSetValue)
  {
    && s.spec.template.labels.Some?
    && forall k :: k in s.spec.selector ==>
         k in s.spec.template.labels.value && s.spec.template.labels.value[k] == s.spec.selector[k]
  }

  /** A create call for the StatefulSet of replica set `ordinal` of the role, selecting its own pods. */
  predicate CreatesReplicaset(c: Call, role: RoleValue, ordinal: nat)
  {
    && c.CreateCall?
    && c.obj.StatefulSetObject?
    && c.obj.statefulSet.meta.name == role.GetReplicasetName(ordinal).0
    && c.obj.statefulSet.meta.namespace == role.GetNamespace()
    && SelectsOwnPods(c.obj.statefulSet)
  }

  /** Every create from index `from` on makes the StatefulSet of a replica set of the role numbered `first` or more. */
  predicate CreatesReplicasetsFrom(calls: seq<Call>, from: nat, role: RoleValue, first: nat)
  {
    forall j :: from <= j < |calls| && calls[j].CreateCall? ==>
      exists o: nat :: first <= o < role.GetReplicasets() && CreatesReplicaset(calls[j], role, o)
  }

  /** Writes that follow the role over two consecutive stretches of a growing log follow it over both. */
  lemma WritesChain(log: seq<Call>, mid: seq<Call>, end: seq<Call>, clusterName: string, role: RoleValue)
    requires log <= mid <= end
    requires WritesFollowRole(mid, |log|, clusterName, role) && WritesFollowRole(end, |mid|, clusterName, role)
    ensures WritesFollowRole(end, |log|, clusterName, role)
  {
    forall j | |log| <= j < |mid| ensures end[j] == mid[j] {
      assert end[..|mid|] == mid;
    }
  }

  /** The same for creates, where the later stretch starts at a later ordinal. */
  lemma CreatesChain(log: seq<Call>, mid: seq<Call>, end: seq<Call>, role: RoleValue, first: nat, next: nat)
    requires log <= mid <= end && first <= next
    requires CreatesReplicasetsFrom(mid, |log|, role, first) && CreatesReplicasetsFrom(end, |mid|, role, next)
    ensures CreatesReplicasetsFrom(end, |log|, role, first)
  {
    forall j | |log| <= j < |end| && end[j].CreateCall?
      ensures exists o: nat :: first <= o < role.GetReplicasets() && CreatesReplicaset(end[j], role, o)
    {
      if j < |mid| {
        assert end[..|mid|] == mid;
        assert end[j] == mid[j];
      } else {
        var o: nat :| next <= o < role.GetReplicasets() && CreatesReplicaset(end[j], role, o);
      }
    }
  }

  /** A successful sync leaves a StatefulSet that follows the role, and adds no write to the log. */
  lemma SyncFollowsRole(w: World, log: seq<Call>, clusterName: string, role: RoleValue, sts: StatefulSetValue,
                        ordinal: int, uuid: string)
    ensures var r := SyncSpec(w, log, clusterName, role, sts, ordinal, uuid);
      && log <= r.log && |r.log| <= |log| + 1
      && (|r.log| > |log| ==> r.log[|log|].ControlObjectCall?)
      && (r.err.None? ==> FollowsRole(r.sts, clusterName, role))
  {
    var hash := w.hash(role.spec.template.podTemplate);
    if hash.Ok? {
      var labels := StatefulSetLabels(clusterName, role, sts.meta.name, uuid, ordinal, hash.value);
      StatefulSetLabelsContent(clusterName, role, sts.meta.name, uuid, ordinal, hash.value);
      MergedTwo(role.spec.template.podTemplate.labels.GetOr(map[]), labels);
    }
  }

  /** A freshly declared StatefulSet, once synced, keeps its name and namespace and selects its own pods. */
  lemma DeclaredSelectsOwnPods(w: World, log: seq<Call>, clusterName: string, role: RoleValue, name: string,
                               uuid: string, ordinal: int)
    ensures var sync := SyncSpec(w, log, clusterName, role, NewStatefulSet(clusterName, role, name, uuid), ordinal, uuid);
      sync.err.None? ==>
        && sync.sts.meta.name == name && sync.sts.meta.namespace == role.GetNamespace()
        && SelectsOwnPods(sync.sts)
  {
    var hash := w.hash(role.spec.template.podTemplate);
    if hash.Ok? {
      SelectorInPodLabels(clusterName, role, name, uuid, ordinal, hash.value);
    }
  }

  /** The calls a sync adds (at most one control-object call) neither write nor create. */
  lemma SyncCallsAreQuiet(log: seq<Call>, slog: seq<Call>, clusterName: string, role: RoleValue, ordinal: nat)
    requires log <= slog && |slog| <= |log| + 1
    requires |slog| > |log| ==> slog[|log|].ControlObjectCall?
    ensures WritesFollowRole(slog, |log|, clusterName, role)
    ensures CreatesReplicasetsFrom(slog, |log|, role, ordinal)
  {
  }

  /** Appending the create of a synced StatefulSet of replica set `ordinal` keeps both properties. */
  lemma CreateAfterSync(log: seq<Call>, slog: seq<Call>, sts: StatefulSetValue, clusterName: string, role: RoleValue,
                        ordinal: nat)
    requires ordinal < role.GetReplicasets()
    requires log <= slog && |slog| <= |log| + 1
    requires |slog| > |log| ==> slog[|log|].ControlObjectCall?
    requires FollowsRole(sts, clusterName, role) && SelectsOwnPods(sts)
    requires sts.meta.name == role.GetReplicasetName(ordinal).0 && sts.meta.namespace == role.GetNamespace()
    ensures var calls := slog + [CreateCall(StatefulSetObject(sts))];
      && log <= calls
      && WritesFollowRole(calls, |log|, clusterName, role)
      && CreatesReplicasetsFrom(calls, |log|, role, ordinal)
  {
    var calls := slog + [CreateCall(StatefulSetObject(sts))];
    assert CreatesReplicaset(calls[|calls| - 1], role, ordinal);
  }

  /**
   * createStatefulSet only extends the log; what it writes follows the role,
   * and what it creates is the StatefulSet of replica set `ordinal`, named
   * after it, in the role's namespace, selecting its own pods.
   */
  lemma CreatedStatefulSet(w: World, log: seq<Call>, clusterName: string, role: RoleValue, ordinal: nat)
    requires ordinal < role.GetReplicasets()
    ensures var r := CreateStatefulSetSpec(w, log, clusterName, role, ordinal);
      && log <= r.log
      && WritesFollowRole(r.log, |log|, clusterName, role)
      && CreatesReplicasetsFrom(r.log, |log|, role, ordinal)
  {
    var name := role.GetReplicasetName(ordinal).0;
    var uuid := GetReplicasetUUID(role.GetName(), ordinal, w.sha1);
    var declared := NewStatefulSet(clusterName, role, name, uuid);
    var sync := SyncSpec(w, log, clusterName, role, declared, ordinal, uuid);
    SyncFollowsRole(w, log, clusterName, role, declared, ordinal, uuid);
    if sync.err.None? {
      DeclaredSelectsOwnPods(w, log, clusterName, role, name, uuid, ordinal);
      CreateAfterSync(log, sync.log, sync.sts, clusterName, role, ordinal);
    } else {
      SyncCallsAreQuiet(log, sync.log, clusterName, role, ordinal);
    }
  }

  /** One round of the loop of CreateStatefulSets only extends the log, and what it writes and creates is as above. */
  lemma CreateStepWrites(w: World, log: seq<Call>, clusterName: string, role: RoleValue, ordinal: nat)
    requires ordinal < role.GetReplicasets()
    ensures var r := CreateStep(w, log, clusterName, role, ordinal);
      && log <= r.log
      && WritesFollowRole(r.log, |log|, clusterName, role)
      && CreatesReplicasetsFrom(r.log, |log|, role, ordinal)
  {
    var selector := Manager.SelectorByReplicasetOrdinal(role.meta, ordinal);
    var list := w.listStatefulSets(|log|, role.GetNamespace(), selector);
    var log1 := log + [ListStatefulSetsCall(role.GetNamespace(), selector)];
    if !((list.Ok? && |list.value| > 0) || (list.Fail? && !list.error.IsNotFound())) {
      CreatedStatefulSet(w, log1, clusterName, role, ordinal);
      var r := CreateStatefulSetSpec(w, log1, clusterName, role, ordinal);
      WritesChain(log, log1, r.log, clusterName, role);
      CreatesChain(log, log1, r.log, role, ordinal, ordinal);
    }
  }

  /**
   * The loop of CreateStatefulSets only extends the log; everything it writes
   * follows the role, and everything it creates is the StatefulSet of a
   * replica set of the role, selecting its own pods.
   */
  lemma {:induction false} CreateLoopWrites(w: World, log: seq<Call>, clusterName: string, role: RoleValue, ordinal: nat)
    ensures var r := CreateLoop(w, log, clusterName, role, ordinal);
      && log <= r.log
      && WritesFollowRole(r.log, |log|, clusterName, role)
      && CreatesReplicasetsFrom(r.log, |log|, role, ordinal)
    decreases role.GetReplicasets() - ordinal
  {
    var r := CreateLoop(w, log, clusterName, role, ordinal);
    if ordinal < role.GetReplicasets() {
      var step := CreateStep(w, log, clusterName, role, ordinal);
      CreateStepWrites(w, log, clusterName, role, ordinal);
      if step.err.None? {
        assert r == CreateLoop(w, step.log, clusterName, role, ordinal + 1);
        CreateLoopWrites(w, step.log, clusterName, role, ordinal + 1);
        WritesChain(log, step.log, r.log, clusterName, role);
        CreatesChain(log, step.log, r.log, role, ordinal, ordinal + 1);
      } else {
        assert r == step;
      }
    } else {
      assert r.log == log;
    }
  }


  // ----- When the manager creates -----

  /** The StatefulSet listing of replica set `o` of the role. */
  function OrdinalListing(role: RoleValue, o: int): Call
  {
    ListStatefulSetsCall(role.GetNamespace(), Manager.SelectorByReplicasetOrdinal(role.meta, o))
  }

  /** Call c is the StatefulSet listing of replica set `o`. */
  predicate IsListingOf(c: Call, role: RoleValue, o: int)
  {
    c == OrdinalListing(role, o)
  }

  /** The listing of replica set `o` at position n found no StatefulSet: an empty list, or NotFound. */
  predicate FoundMissing(w: World, n: nat, role: RoleValue, o: int)
  {
    var a := w.listStatefulSets(n, role.GetNamespace(), Manager.SelectorByReplicasetOrdinal(role.meta, o));
    (a.Ok? && |a.value| == 0) || (a.Fail? && a.error.IsNotFound())
  }

  /** The listing of replica set `o` at position n found its StatefulSet. */
  predicate FoundPresent(w: World, n: nat, role: RoleValue, o: int)
  {
    var a := w.listStatefulSets(n, role.GetNamespace(), Manager.SelectorByReplicasetOrdinal(role.meta, o));
    a.Ok? && |a.value| > 0
  }

  /** A StatefulSet listing at position n that failed with an error other than NotFound. */
  predicate ListingFailed(w: World, n: nat, c: Call)
  {
    c.ListStatefulSetsCall?
    && var a := w.listStatefulSets(n, c.namespace, c.selector);
      a.Fail? && !a.error.IsNotFound()
  }

  /** Every create from `from` on is of a replica set whose listing, two calls earlier, found nothing. */
  ghost predicate CreatesOnlyMissing(w: World, calls: seq<Call>, from: nat, role: RoleValue)
  {
    forall p :: from <= p < |calls| && calls[p].CreateCall? ==>
      from + 2 <= p
      && exists o: nat :: IsListingOf(calls[p - 2], role, o) && FoundMissing(w, p - 2, role, o)
                          && CreatesReplicaset(calls[p], role, o)
  }

  /** Every listing from `from` on that found nothing is followed by the create, unless the walk ended there with an error. */
  ghost predicate MissingCreated(w: World, calls: seq<Call>, from: nat, role: RoleValue, err: Option<Error>)
  {
    forall q, o: nat :: from <= q < |calls| && IsListingOf(calls[q], role, o) && FoundMissing(w, q, role, o) ==>
      (q + 2 < |calls| && CreatesReplicaset(calls[q + 2], role, o)) || (err.Some? && |calls| <= q + 2)
  }

  /** A listing that failed other than NotFound, or a create that failed, is the last call, and its error the walk's. */
  ghost predicate FailuresEnd(w: World, calls: seq<Call>, from: nat, err: Option<Error>)
  {
    && (forall q :: from <= q < |calls| && ListingFailed(w, q, calls[q]) ==>
          q == |calls| - 1 && err == Some(w.listStatefulSets(q, calls[q].namespace, calls[q].selector).error))
    && (forall p :: from <= p < |calls| && calls[p].CreateCall? && w.write(p, calls[p]).Some? ==>
          p == |calls| - 1 && err == w.write(p, calls[p]))
  }

  /** Replica set `o` was listed from `from` on, and found present or created right after the listing. */
  ghost predicate Settled(w: World, calls: seq<Call>, from: nat, role: RoleValue, o: nat)
  {
    exists q :: from <= q < |calls| && IsListingOf(calls[q], role, o)
                && (FoundPresent(w, q, role, o) || (q + 2 < |calls| && CreatesReplicaset(calls[q + 2], role, o)))
  }

  /** Every replica set numbered first .. replicasets - 1 is settled from `from` on. */
  ghost predicate AllPresent(w: World, calls: seq<Call>, from: nat, role: RoleValue, first: nat)
  {
    forall o: nat :: first <= o < role.GetReplicasets() ==> Settled(w, calls, from, role, o)
  }

  /** The decision rules of CreateStatefulSets, over the calls from `from` on. */
  ghost predicate CreateDecided(w: World, calls: seq<Call>, from: nat, role: RoleValue, err: Option<Error>)
  {
    CreatesOnlyMissing(w, calls, from, role) && MissingCreated(w, calls, from, role, err) && FailuresEnd(w, calls, from, err)
  }

  /** Creates over the first stretch stay justified over the whole log. */
  lemma CreatesOnlyMissingChain(w: World, log: seq<Call>, mid: seq<Call>, end: seq<Call>, role: RoleValue)
    requires |log| <= |mid| <= |end| && forall p :: 0 <= p < |mid| ==> end[p] == mid[p]
    requires CreatesOnlyMissing(w, mid, |log|, role) && CreatesOnlyMissing(w, end, |mid|, role)
    ensures CreatesOnlyMissing(w, end, |log|, role)
  {
    forall p | |log| <= p < |mid| && end[p].CreateCall?
      ensures |log| + 2 <= p
        && exists o: nat :: IsListingOf(end[p - 2], role, o) && FoundMissing(w, p - 2, role, o)
                            && CreatesReplicaset(end[p], role, o)
    {
      assert mid[p].CreateCall?;
      var o: nat :| IsListingOf(mid[p - 2], role, o) && FoundMissing(w, p - 2, role, o)
                    && CreatesReplicaset(mid[p], role, o);
      assert end[p - 2] == mid[p - 2];
    }
  }

  /** Listings that found nothing over an error-free first stretch were followed by their create there. */
  lemma MissingCreatedChain(w: World, log: seq<Call>, mid: seq<Call>, end: seq<Call>, role: RoleValue, err: Option<Error>)
    requires |log| <= |mid| <= |end| && forall p :: 0 <= p < |mid| ==> end[p] == mid[p]
    requires MissingCreated(w, mid, |log|, role, None) && MissingCreated(w, end, |mid|, role, err)
    ensures MissingCreated(w, end, |log|, role, err)
  {
    forall q, o: nat | |log| <= q < |mid| && IsListingOf(end[q], role, o) && FoundMissing(w, q, role, o)
      ensures q + 2 < |end| && CreatesReplicaset(end[q + 2], role, o)
    {
      assert IsListingOf(mid[q], role, o);
      assert end[q + 2] == mid[q + 2];
    }
  }

  /** An error-free first stretch holds no failure, so the failures of the whole log are those of the second. */
  lemma FailuresEndChain(w: World, log: seq<Call>, mid: seq<Call>, end: seq<Call>, err: Option<Error>)
    requires |log| <= |mid| <= |end| && forall p :: 0 <= p < |mid| ==> end[p] == mid[p]
    requires FailuresEnd(w, mid, |log|, None) && FailuresEnd(w, end, |mid|, err)
    ensures FailuresEnd(w, end, |log|, err)
  {
    forall q | |log| <= q < |mid|
      ensures !ListingFailed(w, q, end[q]) && !(end[q].CreateCall? && w.write(q, end[q]).Some?)
    {
      assert end[q] == mid[q];
    }
  }

  /** The decision rules hold over two consecutive stretches of a growing log when the first ended without error. */
  lemma CreateDecidedChain(w: World, log: seq<Call>, mid: seq<Call>, end: seq<Call>, role: RoleValue, err: Option<Error>)
    requires log <= mid <= end
    requires CreateDecided(w, mid, |log|, role, None) && CreateDecided(w, end, |mid|, role, err)
    ensures CreateDecided(w, end, |log|, role, err)
  {
    forall p | 0 <= p < |mid| ensures end[p] == mid[p] {
      assert end[..|mid|][p] == mid[p];
    }
    CreatesOnlyMissingChain(w, log, mid, end, role);
    MissingCreatedChain(w, log, mid, end, role, err);
    FailuresEndChain(w, log, mid, end, err);
  }

  /** A replica set settled over a prefix of the log stays settled over the whole log. */
  lemma SettledGrows(w: World, from: nat, mid: seq<Call>, end: seq<Call>, role: RoleValue, o: nat)
    requires mid <= end && Settled(w, mid, from, role, o)
    ensures Settled(w, end, from, role, o)
  {
    var q :| from <= q < |mid| && IsListingOf(mid[q], role, o)
             && (FoundPresent(w, q, role, o) || (q + 2 < |mid| && CreatesReplicaset(mid[q + 2], role, o)));
    assert end[q] == mid[q] by { assert end[..|mid|][q] == mid[q]; }
    if q + 2 < |mid| {
      assert end[q + 2] == mid[q + 2] by { assert end[..|mid|][q + 2] == mid[q + 2]; }
    }
    assert from <= q < |end| && IsListingOf(end[q], role, o);
  }

  /** A replica set settled from a later position is settled from an earlier one. */
  lemma SettledEarlier(w: World, from: nat, later: nat, calls: seq<Call>, role: RoleValue, o: nat)
    requires from <= later && Settled(w, calls, later, role, o)
    ensures Settled(w, calls, from, role, o)
  {
    var q :| later <= q < |calls| && IsListingOf(calls[q], role, o)
             && (FoundPresent(w, q, role, o) || (q + 2 < |calls| && CreatesReplicaset(calls[q + 2], role, o)));
    assert from <= q < |calls|;
  }

  /** Replica sets settled over the first stretch stay so over the whole log. */
  lemma AllPresentChain(w: World, log: seq<Call>, mid: seq<Call>, end: seq<Call>, role: RoleValue, first: nat)
    requires log <= mid <= end && first < role.GetReplicasets()
    requires Settled(w, mid, |log|, role, first)
    requires AllPresent(w, end, |mid|, role, first + 1)
    ensures AllPresent(w, end, |log|, role, first)
  {
    forall o: nat | first <= o < role.GetReplicasets() ensures Settled(w, end, |log|, role, o) {
      if o == first {
        SettledGrows(w, |log|, mid, end, role, o);
      } else {
        SettledEarlier(w, |log|, |mid|, end, role, o);
      }
    }
  }

  /** createStatefulSet after a listing that found nothing: the create is two calls on, or the sync failed first. */
  lemma CreateAfterMissing(w: World, log: seq<Call>, clusterName: string, role: RoleValue, ordinal: nat)
    requires ordinal < role.GetReplicasets()
    ensures var log1 := log + [OrdinalListing(role, ordinal)];
      var r := CreateStatefulSetSpec(w, log1, clusterName, role, ordinal);
      && log1 <= r.log && |r.log| <= |log| + 3
      && (|r.log| > |log1| ==> r.log[|log1|].ControlObjectCall?)
      && (|r.log| == |log| + 3 ==> CreatesReplicaset(r.log[|log| + 2], role, ordinal) && r.err == w.write(|log| + 2, r.log[|log| + 2]))
      && (|r.log| < |log| + 3 ==> r.err.Some?)
  {
    var log1 := log + [OrdinalListing(role, ordinal)];
    var name := role.GetReplicasetName(ordinal).0;
    var uuid := GetReplicasetUUID(role.GetName(), ordinal, w.sha1);
    var declared := NewStatefulSet(clusterName, role, name, uuid);
    var sync := SyncSpec(w, log1, clusterName, role, declared, ordinal, uuid);
    SyncFollowsRole(w, log1, clusterName, role, declared, ordinal, uuid);
    CreatedStatefulSet(w, log1, clusterName, role, ordinal);
    if sync.err.None? {
      assert |sync.log| == |log1| + 1;
      DeclaredSelectsOwnPods(w, log1, clusterName, role, name, uuid, ordinal);
    }
  }

  /** The calls of a round whose listing, at position n, found nothing follow the decision rules. */
  lemma MissingRoundDecided(w: World, calls: seq<Call>, n: nat, role: RoleValue, ordinal: nat, err: Option<Error>)
    requires n < |calls| <= n + 3 && IsListingOf(calls[n], role, ordinal) && FoundMissing(w, n, role, ordinal)
    requires |calls| > n + 1 ==> calls[n + 1].ControlObjectCall?
    requires |calls| == n + 3 ==> CreatesReplicaset(calls[n + 2], role, ordinal) && err == w.write(n + 2, calls[n + 2])
    requires |calls| < n + 3 ==> err.Some?
    ensures CreateDecided(w, calls, n, role, err)
  {
    forall p | n <= p < |calls| && calls[p].CreateCall?
      ensures n + 2 <= p
        && exists o: nat :: IsListingOf(calls[p - 2], role, o) && FoundMissing(w, p - 2, role, o)
                            && CreatesReplicaset(calls[p], role, o)
    {
      assert p == n + 2;
      assert IsListingOf(calls[p - 2], role, ordinal) && FoundMissing(w, p - 2, role, ordinal);
    }
    forall q, o: nat | n <= q < |calls| && IsListingOf(calls[q], role, o) && FoundMissing(w, q, role, o)
      ensures (q + 2 < |calls| && CreatesReplicaset(calls[q + 2], role, o)) || (err.Some? && |calls| <= q + 2)
    {
      assert q == n;
      if o != ordinal {
        OrdinalSelectorsDistinct(Manager, role.meta, o, ordinal);
      }
    }
    forall q | n <= q < |calls| ensures !ListingFailed(w, q, calls[q]) {
      if q == n {
        assert calls[q] == OrdinalListing(role, ordinal);
      }
    }
  }

  /** The calls of a round whose listing, at position n, found the StatefulSet or failed follow the decision rules. */
  lemma FoundRoundDecided(w: World, calls: seq<Call>, n: nat, role: RoleValue, ordinal: nat, err: Option<Error>)
    requires |calls| == n + 1 && IsListingOf(calls[n], role, ordinal) && !FoundMissing(w, n, role, ordinal)
    requires err == (if ListingFailed(w, n, calls[n]) then Some(w.listStatefulSets(n, calls[n].namespace, calls[n].selector).error) else None)
    ensures CreateDecided(w, calls, n, role, err)
  {
    forall q, o: nat | n <= q < |calls| && IsListingOf(calls[q], role, o)
      ensures !FoundMissing(w, q, role, o)
    {
      if o != ordinal {
        OrdinalSelectorsDistinct(Manager, role.meta, o, ordinal);
      }
    }
  }

  /** A round whose listing found nothing: the listing, then createStatefulSet. */
  lemma CreateStepMissingShape(w: World, log: seq<Call>, clusterName: string, role: RoleValue, ordinal: nat)
    requires ordinal < role.GetReplicasets() && FoundMissing(w, |log|, role, ordinal)
    ensures var r := CreateStep(w, log, clusterName, role, ordinal);
      var n := |log|;
      && log <= r.log && n < |r.log| <= n + 3 && IsListingOf(r.log[n], role, ordinal)
      && (|r.log| > n + 1 ==> r.log[n + 1].ControlObjectCall?)
      && (|r.log| == n + 3 ==> CreatesReplicaset(r.log[n + 2], role, ordinal) && r.err == w.write(n + 2, r.log[n + 2]))
      && (|r.log| < n + 3 ==> r.err.Some?)
  {
    var n := |log|;
    var log1 := log + [OrdinalListing(role, ordinal)];
    var r := CreateStep(w, log, clusterName, role, ordinal);
    assert r == CreateStatefulSetSpec(w, log1, clusterName, role, ordinal);
    CreateAfterMissing(w, log, clusterName, role, ordinal);
    assert r.log[..|log1|] == log1;
    assert r.log[..|log1|][n] == r.log[n];
    assert r.log[..n] == log1[..n];
  }

  /** A round whose listing found the StatefulSet, or failed other than NotFound: the listing alone. */
  lemma CreateStepFoundShape(w: World, log: seq<Call>, clusterName: string, role: RoleValue, ordinal: nat)
    requires !FoundMissing(w, |log|, role, ordinal)
    ensures var r := CreateStep(w, log, clusterName, role, ordinal);
      var n := |log|;
      && log <= r.log && |r.log| == n + 1 && IsListingOf(r.log[n], role, ordinal)
      && r.err == (if ListingFailed(w, n, r.log[n]) then Some(w.listStatefulSets(n, r.log[n].namespace, r.log[n].selector).error) else None)
  {
    var r := CreateStep(w, log, clusterName, role, ordinal);
    assert r.log == log + [OrdinalListing(role, ordinal)];
  }

  /** One round of the loop of CreateStatefulSets follows the decision rules, and settles its replica set. */
  lemma CreateStepDecides(w: World, log: seq<Call>, clusterName: string, role: RoleValue, ordinal: nat)
    requires ordinal < role.GetReplicasets()
    ensures var r := CreateStep(w, log, clusterName, role, ordinal);
      && log <= r.log
      && CreateDecided(w, r.log, |log|, role, r.err)
      && (r.err.None? ==> Settled(w, r.log, |log|, role, ordinal))
  {
    var n := |log|;
    var r := CreateStep(w, log, clusterName, role, ordinal);
    var calls, err := r.log, r.err;
    if FoundMissing(w, n, role, ordinal) {
      CreateStepMissingShape(w, log, clusterName, role, ordinal);
      MissingRoundDecided(w, calls, n, role, ordinal, err);
    } else {
      CreateStepFoundShape(w, log, clusterName, role, ordinal);
      FoundRoundDecided(w, calls, n, role, ordinal, err);
    }
    if err.None? {
      assert n <= n < |calls| && IsListingOf(calls[n], role, ordinal);
    }
  }

  /**
   * The loop of CreateStatefulSets from `ordinal` on creates the StatefulSet of
   * a replica set exactly when its listing found none (an empty list or
   * NotFound), and right after that listing; any other listing error, and a
   * failed create, ends the loop with that error and no later call; and when
   * the loop ends without error, every replica set from `ordinal` on was
   * listed and found present or created.
   */
  lemma {:induction false} CreateLoopDecides(w: World, log: seq<Call>, clusterName: string, role: RoleValue, ordinal: nat)
    ensures var r := CreateLoop(w, log, clusterName, role, ordinal);
      && log <= r.log
      && CreateDecided(w, r.log, |log|, role, r.err)
      && (r.err.None? ==> AllPresent(w, r.log, |log|, role, ordinal))
    decreases role.GetReplicasets() - ordinal
  {
    if ordinal < role.GetReplicasets() {
      var step := CreateStep(w, log, clusterName, role, ordinal);
      CreateStepDecides(w, log, clusterName, role, ordinal);
      if step.err.None? {
        var r := CreateLoop(w, step.log, clusterName, role, ordinal + 1);
        CreateLoopDecides(w, step.log, clusterName, role, ordinal + 1);
        CreateDecidedChain(w, log, step.log, r.log, role, r.err);
        if r.err.None? {
          AllPresentChain(w, log, step.log, r.log, role, ordinal);
        }
      }
    }
  }

  /**
   * CreateStatefulSets writes only StatefulSets that follow the role, and
   * creates only those of its replica sets; it creates one exactly when its
   * listing found none; other listing errors and failed creates end it; and
   * when it succeeds every replica set of the role is present or created.
   */
  lemma CreateStatefulSetsWrites(w: World, log: seq<Call>, clusterName: string, role: RoleValue)
    ensures var r := CreateStatefulSetsSpec(w, log, clusterName, role);
      && log <= r.log
      && WritesFollowRole(r.log, |log|, clusterName, role)
      && CreatesReplicasetsFrom(r.log, |log|, role, 0)
      && CreateDecided(w, r.log, |log|, role, r.err)
      && (r.err.None? ==> AllPresent(w, r.log, |log|, role, 0))
  {
    CreateLoopWrites(w, log, clusterName, role, 0);
    CreateLoopDecides(w, log, clusterName, role, 0);
  }

  // ----- When the manager updates -----

  /** Some call from position `from` on is an update. */
  predicate UpdatesFrom(calls: seq<Call>, from: nat)
  {
    exists j :: from <= j < |calls| && calls[j].UpdateCall?
  }

  /**
   * updateStatefulSet writes back only a StatefulSet the sync changed: an
   * update is sent exactly when the sync succeeded and reported a change,
   * that is, it took control of the StatefulSet or rewrote it; the update is
   * the last call, carries the synced StatefulSet, and its error is the
   * result's; a failed sync is returned as it is.
   */
  lemma UpdateOnlyWhenChanged(w: World, log: seq<Call>, clusterName: string, role: RoleValue, sts: StatefulSetValue,
                              ordinal: int)
    ensures var sync := SyncSpec(w, log, clusterName, role, sts, ordinal, GetReplicasetUUID(role.GetName(), ordinal, w.sha1));
      var r := UpdateStatefulSetSpec(w, log, clusterName, role, sts, ordinal);
      && (UpdatesFrom(r.log, |log|) <==> sync.err.None? && sync.changed)
      && (sync.err.None? ==> (sync.changed <==> w.controlObject(|log|, role.meta, sts.meta) == Ok(true) || sync.sts != sts))
      && (UpdatesFrom(r.log, |log|) ==>
            && r.log[|r.log| - 1] == UpdateCall(StatefulSetObject(sync.sts))
            && r.err == w.write(|r.log| - 1, r.log[|r.log| - 1]))
      && (sync.err.Some? ==> r.err == sync.err)
  {
    var uuid := GetReplicasetUUID(role.GetName(), ordinal, w.sha1);
    var sync := SyncSpec(w, log, clusterName, role, sts, ordinal, uuid);
    var r := UpdateStatefulSetSpec(w, log, clusterName, role, sts, ordinal);
    SyncFollowsRole(w, log, clusterName, role, sts, ordinal, uuid);
    SyncChangedIff(w, log, clusterName, role, sts, ordinal, uuid);
    forall j | |log| <= j < |sync.log| ensures !sync.log[j].UpdateCall? {
      assert j == |log|;
    }
    if sync.err.None? && sync.changed {
      assert r.log[|sync.log|].UpdateCall?;
    } else {
      assert r.log == sync.log;
    }
  }

  /**
   * The loop of UpdateStatefulSets stops at item k when its ordinal label
   * does not parse: from item i on it is the loop over the items before k
   * and, unless that already failed, the parse error of item k, with nothing
   * logged from item k on.
   */
  lemma {:induction false} UpdateLoopStopsAtBadOrdinal(w: World, log: seq<Call>, clusterName: string, role: RoleValue,
                                                       items: seq<StatefulSetValue>, i: nat, done: bool, k: nat)
    requires i <= k < |items|
    requires ParseInt32(LabelOf(items[k].meta, Manager.ReplicasetOrdinal())).Fail?
    ensures var before := UpdateLoop(w, log, clusterName, role, items[..k], i, done);
      UpdateLoop(w, log, clusterName, role, items, i, done)
        == if before.err.Some? then before
           else UpdateOut(false, Some(ParseInt32(LabelOf(items[k].meta, Manager.ReplicasetOrdinal())).error), before.log)
    decreases k - i
  {
    if i < k {
      assert items[..k][i] == items[i];
      var ordinal := ParseInt32(LabelOf(items[i].meta, Manager.ReplicasetOrdinal()));
      if ordinal.Ok? {
        var u := UpdateStatefulSetSpec(w, log, clusterName, role, items[i], ordinal.value);
        if u.err.None? {
          UpdateLoopStopsAtBadOrdinal(w, u.log, clusterName, role, items, i + 1, done && u.updated, k);
        }
      }
    }
  }

  /**
   * UpdateStatefulSets fails on a listed StatefulSet whose ordinal label does
   * not parse: its result is that of updating the StatefulSets listed before
   * it and then, unless one of those failed, the parse error, with no write
   * for it or any StatefulSet after it.
   */
  lemma BadOrdinalStopsUpdates(w: World, log: seq<Call>, clusterName: string, role: RoleValue, k: nat)
    requires var list := w.listStatefulSets(|log|, role.GetNamespace(), Manager.SelectorByRoleName(role.meta));
      && list.Ok? && k < |list.value|
      && ParseInt32(LabelOf(list.value[k].meta, Manager.ReplicasetOrdinal())).Fail?
    ensures var selector := Manager.SelectorByRoleName(role.meta);
      var items := w.listStatefulSets(|log|, role.GetNamespace(), selector).value;
      var before := UpdateLoop(w, log + [ListStatefulSetsCall(role.GetNamespace(), selector)], clusterName, role, items[..k], 0, true);
      var r := UpdateStatefulSetsSpec(w, log, clusterName, role);
      && r.err.Some? && !r.updated
      && r == if before.err.Some? then before
              else UpdateOut(false, Some(ParseInt32(LabelOf(items[k].meta, Manager.ReplicasetOrdinal())).error), before.log)
  {
    var selector := Manager.SelectorByRoleName(role.meta);
    var items := w.listStatefulSets(|log|, role.GetNamespace(), selector).value;
    var log1 := log + [ListStatefulSetsCall(role.GetNamespace(), selector)];
    assert UpdateStatefulSetsSpec(w, log, clusterName, role) == UpdateLoop(w, log1, clusterName, role, items, 0, true);
    UpdateLoopStopsAtBadOrdinal(w, log1, clusterName, role, items, 0, true, k);
    UpdateLoopComplete(w, log1, clusterName, role, items[..k], 0);
  }

  /** UpdateStatefulSets succeeds only when the listing succeeded and every listed ordinal label parses. */
  lemma UpdatesParseEveryOrdinal(w: World, log: seq<Call>, clusterName: string, role: RoleValue)
    ensures var list := w.listStatefulSets(|log|, role.GetNamespace(), Manager.SelectorByRoleName(role.meta));
      UpdateStatefulSetsSpec(w, log, clusterName, role).err.None? ==>
        && list.Ok?
        && forall k :: 0 <= k < |list.value| ==> ParseInt32(LabelOf(list.value[k].meta, Manager.ReplicasetOrdinal())).Ok?
  {
    var list := w.listStatefulSets(|log|, role.GetNamespace(), Manager.SelectorByRoleName(role.meta));
    if list.Ok? {
      forall k | 0 <= k < |list.value| && ParseInt32(LabelOf(list.value[k].meta, Manager.ReplicasetOrdinal())).Fail?
        ensures UpdateStatefulSetsSpec(w, log, clusterName, role).err.Some?
      {
        BadOrdinalStopsUpdates(w, log, clusterName, role, k);
      }
    }
  }

  /** updateStatefulSet only extends the log, and whatever it writes follows the role. */
  lemma UpdateWritesFollowRole(w: World, log: seq<Call>, clusterName: string, role: RoleValue, sts: StatefulSetValue,
                               ordinal: int)
    ensures var r := UpdateStatefulSetSpec(w, log, clusterName, role, sts, ordinal);
      log <= r.log && WritesFollowRole(r.log, |log|, clusterName, role)
  {
    var uuid := GetReplicasetUUID(role.GetName(), ordinal, w.sha1);
    var sync := SyncSpec(w, log, clusterName, role, sts, ordinal, uuid);
    SyncFollowsRole(w, log, clusterName, role, sts, ordinal, uuid);
    var r := UpdateStatefulSetSpec(w, log, clusterName, role, sts, ordinal);
    if sync.err.None? && sync.changed {
      assert r.log == sync.log + [UpdateCall(StatefulSetObject(sync.sts))];
    }
  }

  /** The loop of UpdateStatefulSets only extends the log, and everything it writes follows the role. */
  lemma {:induction false} UpdateLoopWrites(w: World, log: seq<Call>, clusterName: string, role: RoleValue,
                                            items: seq<StatefulSetValue>, i: nat, done: bool)
    requires i <= |items|
    ensures var r := UpdateLoop(w, log, clusterName, role, items, i, done);
      log <= r.log && WritesFollowRole(r.log, |log|, clusterName, role)
    decreases |items| - i
  {
    var r := UpdateLoop(w, log, clusterName, role, items, i, done);
    if i < |items| {
      var ordinal := ParseInt32(LabelOf(items[i].meta, Manager.ReplicasetOrdinal()));
      if ordinal.Fail? {
        assert r.log == log;
      } else {
        var u := UpdateStatefulSetSpec(w, log, clusterName, role, items[i], ordinal.value);
        UpdateWritesFollowRole(w, log, clusterName, role, items[i], ordinal.value);
        if u.err.Some? {
          assert r.log == u.log;
        } else {
          assert r == UpdateLoop(w, u.log, clusterName, role, items, i + 1, done && u.updated);
          UpdateLoopWrites(w, u.log, clusterName, role, items, i + 1, done && u.updated);
          WritesChain(log, u.log, r.log, clusterName, role);
        }
      }
    } else {
      assert r.log == log;
    }
  }

  /** Whatever UpdateStatefulSets writes follows the role. */
  lemma UpdateStatefulSetsWrites(w: World, log: seq<Call>, clusterName: string, role: RoleValue)
    ensures var r := UpdateStatefulSetsSpec(w, log, clusterName, role);
      log <= r.log && WritesFollowRole(r.log, |log|, clusterName, role)
  {
    var selector := Manager.SelectorByRoleName(role.meta);
    var list := w.listStatefulSets(|log|, role.GetNamespace(), selector);
    var log1 := log + [ListStatefulSetsCall(role.GetNamespace(), selector)];
    if list.Ok? {
      var r := UpdateLoop(w, log1, clusterName, role, list.value, 0, true);
      UpdateLoopWrites(w, log1, clusterName, role, list.value, 0, true);
      WritesChain(log, log1, r.log, clusterName, role);
    }
  }

  // ----- The manager's methods -----

  /** createStatefulSet. */
  method CreateStatefulSet(ctrl: Controller, clusterName: string, role: RoleValue, ordinal: nat) returns (err: Option<Error>)
    modifies ctrl
    ensures Effect(err, ctrl.log) == CreateStatefulSetSpec(ctrl.world, old(ctrl.log), clusterName, role, ordinal)
  {
    var name := role.GetReplicasetName(ordinal).0;
    var uuid := GetReplicasetUUID(role.GetName(), ordinal, ctrl.world.sha1);
    var sts := new StatefulSet(NewStatefulSet(clusterName, role, name, uuid));
    var _, syncErr := SyncStatefulSet(ctrl, clusterName, role, sts, ordinal, uuid);
    if syncErr.Some? {
      return syncErr;
    }
    err := ctrl.Write(CreateCall(StatefulSetObject(sts.Value())));
  }

  /** CreateStatefulSets. */
  method CreateStatefulSets(ctrl: Controller, clusterName: string, role: RoleValue) returns (err: Option<Error>)
    modifies ctrl
    ensures Effect(err, ctrl.log) == CreateStatefulSetsSpec(ctrl.world, old(ctrl.log), clusterName, role)
    ensures CreateDecided(ctrl.world, ctrl.log, |old(ctrl.log)|, role, err)
    ensures err.None? ==> AllPresent(ctrl.world, ctrl.log, |old(ctrl.log)|, role, 0)
  {
    CreateStatefulSetsWrites(ctrl.world, ctrl.log, clusterName, role);
    var ordinal: nat := 0;
    while ordinal < role.GetReplicasets()
      invariant CreateLoop(ctrl.world, ctrl.log, clusterName, role, ordinal)
             == CreateLoop(ctrl.world, old(ctrl.log), clusterName, role, 0)
      decreases role.GetReplicasets() - ordinal
    {
      ghost var step := CreateStep(ctrl.world, ctrl.log, clusterName, role, ordinal);
      var selector := Manager.SelectorByReplicasetOrdinal(role.meta, ordinal);
      var list := ctrl.ListStatefulSets(role.GetNamespace(), selector);
      if list.Ok? && |list.value| > 0 {
        assert step == Effect(None, ctrl.log);
        ordinal := ordinal + 1;
        continue;
      }
      if list.Fail? && !list.error.IsNotFound() {
        assert step == Effect(Some(list.error), ctrl.log);
        return Some(list.error);
      }
      err := CreateStatefulSet(ctrl, clusterName, role, ordinal);
      assert step == Effect(err, ctrl.log);
      if err.Some? {
        return;
      }
      ordinal := ordinal + 1;
    }
    err := None;
  }

  /** updateStatefulSet, syncing the listed StatefulSet in place. */
  method UpdateStatefulSet(ctrl: Controller, clusterName: string, role: RoleValue, sts: StatefulSet, ordinal: int)
    returns (updated: bool, err: Option<Error>)
    modifies ctrl, sts
    ensures UpdateOut(updated, err, ctrl.log)
         == UpdateStatefulSetSpec(ctrl.world, old(ctrl.log), clusterName, role, old(sts.Value()), ordinal)
    ensures var sync := SyncSpec(ctrl.world, old(ctrl.log), clusterName, role, old(sts.Value()), ordinal,
                                 GetReplicasetUUID(role.GetName(), ordinal, ctrl.world.sha1));
      UpdatesFrom(ctrl.log, |old(ctrl.log)|) <==> sync.err.None? && sync.changed
  {
    UpdateOnlyWhenChanged(ctrl.world, ctrl.log, clusterName, role, sts.Value(), ordinal);
    var uuid := GetReplicasetUUID(role.GetName(), ordinal, ctrl.world.sha1);
    var changed;
    changed, err := SyncStatefulSet(ctrl, clusterName, role, sts, ordinal, uuid);
    if err.Some? {
      return false, err;
    }
    if changed {
      err := ctrl.Write(UpdateCall(StatefulSetObject(sts.Value())));
      if err.Some? {
        return false, err;
      }
    }
    return true, None;
  }

  /** UpdateStatefulSets. */
  method UpdateStatefulSets(ctrl: Controller, clusterName: string, role: RoleValue) returns (complete: bool, err: Option<Error>)
    modifies ctrl
    ensures UpdateOut(complete, err, ctrl.log) == UpdateStatefulSetsSpec(ctrl.world, old(ctrl.log), clusterName, role)
    ensures var list := ctrl.world.listStatefulSets(|old(ctrl.log)|, role.GetNamespace(), Manager.SelectorByRoleName(role.meta));
      err.None? ==>
        && list.Ok?
        && forall k :: 0 <= k < |list.value| ==> ParseInt32(LabelOf(list.value[k].meta, Manager.ReplicasetOrdinal())).Ok?
  {
    UpdatesParseEveryOrdinal(ctrl.world, ctrl.log, clusterName, role);
    var list := ctrl.ListStatefulSets(role.GetNamespace(), Manager.SelectorByRoleName(role.meta));
    if list.Fail? {
      return false, Some(list.error);
    }
    var items := list.value;
    complete := true;
    var i := 0;
    while i < |items|
      invariant i <= |items|
      invariant UpdateLoop(ctrl.world, ctrl.log, clusterName, role, items, i, complete)
             == UpdateStatefulSetsSpec(ctrl.world, old(ctrl.log), clusterName, role)
    {
      var ordinal := ParseInt32(LabelOf(items[i].meta, Manager.ReplicasetOrdinal()));
      if ordinal.Fail? {
        return false, Some(ordinal.error);
      }
      var sts := new StatefulSet(items[i]);
      var updated;
      updated, err := UpdateStatefulSet(ctrl, clusterName, role, sts, ordinal.value);
      if err.Some? {
        return false, err;
      }
      complete := complete && updated;
      i := i + 1;
    }
    err := None;
  }
}
