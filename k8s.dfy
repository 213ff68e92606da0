// The parts of Kubernetes core objects the operator reads: object metadata,
// pods with their status, and namespaced names used as requests.

module K8s {
  import opened Wrappers

  /** A reconcile request / object key. */
  datatype NamespacedName = NamespacedName(namespace: string, name: string)

  /**
   * Object metadata. `labels` is None for a nil label map, which the Go code
   * tells apart from an empty one, and so is `annotations`; `deleting` stands for a
   * non-nil deletion timestamp.
   */
  datatype Meta = Meta(
    name: string,
    namespace: string,
    labels: Option<map<string, string>>,
    annotations: Option<map<string, string>>,
    deleting: bool,
    finalizers: seq<string>)
  {
    /** GetLabels() read as a map: a nil map reads like an empty one. */
    function LabelMap(): map<string, string>
    {
      labels.GetOr(map[])
    }
  }

  /** A Go int32. */
  type int32 = x: int | -0x8000_0000 <= x < 0x8000_0000

  /** A Go int32 conversion or int32 arithmetic result: the value modulo 2^32, read as two's complement. */
  function Wrap32(x: int): (r: int32)
    ensures -0x8000_0000 <= x < 0x8000_0000 ==> r == x
    ensures (x - r) % 0x1_0000_0000 == 0
  {
    (x + 0x8000_0000) % 0x1_0000_0000 - 0x8000_0000
  }

  /** Object metadata as a freshly declared Go struct leaves it. */
  const EmptyMeta := Meta("", "", None, None, false, [])

  /**
   * A pod template: its labels, which the operator rewrites, and the rest of the
   * template, which it only copies and hashes.
   */
  datatype PodTemplateSpec = PodTemplateSpec(labels: Option<map<string, string>>, body: string)

  datatype ContainerStatus = ContainerStatus(ready: bool)

  datatype PodCondition = PodCondition(conditionType: string, status: string)

  datatype PodStatus = PodStatus(
    phase: string,
    conditions: seq<PodCondition>,
    containerStatuses: seq<ContainerStatus>)

  datatype Pod = Pod(meta: Meta, status: PodStatus)

  const PodRunning := "Running"
  const PodReadyCondition := "Ready"
  const ConditionTrue := "True"
}
