// The per-controller contexts (internal/context): each embeds the shared
// CommonContext and holds the object the pass was started for. The engine
// sees every context through `Context`, whose footprint and abstract `State`
// are what the steps are specified against.

module Contexts {
  import opened Wrappers
  import opened Errors
  import opened K8s
  import opened Api
  import opened Reconciliation
  import opened Environment

  /** The object handed to SetRequestedObject, with its dynamic type. */
  datatype Target =
    | ClusterTarget(cluster: Cluster)
    | RoleTarget(role: Role)
    | ConfigTarget(config: CartridgeConfig)

  const WrongClusterObject := Plain("ClusterContext used with wrong k8s object")
  const WrongRoleObject := Plain("RoleContext used with wrong k8s object")
  const WrongConfigObject := Plain("CartridgeConfigContext used with wrong k8s object")

  /** The context of the cluster controller. */
  class ClusterContext {
    const common: CommonContext
    var cluster: Cluster?

    constructor (common: CommonContext)
      ensures this.common == common && cluster == null
    {
      this.common := common;
      cluster := null;
    }

    /** The cluster becomes both the requested object and the related cluster. */
    method SetCluster(c: Cluster?)
      modifies this, common
      ensures cluster == c && common.cluster == c && common.leader == old(common.leader)
    {
      cluster := c;
      common.SetRelatedCluster(c);
    }

    predicate HasRequestedObject()
      reads this
    {
      cluster != null
    }

    /** Only a Cluster is accepted; anything else is refused and nothing changes. */
    method SetRequestedObject(obj: Target) returns (err: Option<Error>)
      modifies this, common
      ensures obj.ClusterTarget? ==> err.None? && cluster == obj.cluster
      ensures obj.ClusterTarget? ==> common.cluster == obj.cluster && common.leader == old(common.leader)
      ensures !obj.ClusterTarget? ==> err == Some(WrongClusterObject)
      ensures !obj.ClusterTarget? ==> cluster == old(cluster) && unchanged(common)
    {
      if !obj.ClusterTarget? {
        return Some(WrongClusterObject);
      }
      SetCluster(obj.cluster);
      err := None;
    }

    function GetRequestedObject(): Cluster?
      reads this
    {
      cluster
    }
  }

  /** The context of the role controller; the related cluster is found separately. */
  class RoleContext {
    const common: CommonContext
    var role: Role?

    constructor (common: CommonContext)
      ensures this.common == common && role == null
    {
      this.common := common;
      role := null;
    }

    method SetRole(r: Role?)
      modifies this
      ensures role == r
    {
      role := r;
    }

    predicate HasRequestedObject()
      reads this
    {
      role != null
    }

    method SetRequestedObject(obj: Target) returns (err: Option<Error>)
      modifies this
      ensures obj.RoleTarget? ==> err.None? && role == obj.role
      ensures !obj.RoleTarget? ==> err == Some(WrongRoleObject) && role == old(role)
    {
      if !obj.RoleTarget? {
        return Some(WrongRoleObject);
      }
      SetRole(obj.role);
      err := None;
    }

    function GetRequestedObject(): Role?
      reads this
    {
      role
    }
  }

  /** The context of the cartridge-config controller. */
  class CartridgeConfigContext {
    const common: CommonContext
    var config: CartridgeConfig?

    constructor (common: CommonContext)
      ensures this.common == common && config == null
    {
      this.common := common;
      config := null;
    }

    method SetCartridgeConfig(c: CartridgeConfig?)
      modifies this
      ensures config == c
    {
      config := c;
    }

    function GetCartridgeConfig(): CartridgeConfig?
      reads this
    {
      config
    }

    predicate HasRequestedObject()
      reads this
    {
      config != null
    }

    method SetRequestedObject(obj: Target) returns (err: Option<Error>)
      modifies this
      ensures obj.ConfigTarget? ==> err.None? && config == obj.config
      ensures !obj.ConfigTarget? ==> err == Some(WrongConfigObject) && config == old(config)
    {
      if !obj.ConfigTarget? {
        return Some(WrongConfigObject);
      }
      config := obj.config;
      err := None;
    }

    function GetRequestedObject(): CartridgeConfig?
      reads this
    {
      config
    }
  }

  // ----- The abstract state of a pass -----

  datatype Kind = ClusterKind | RoleKind | ConfigKind

  /** The requested object, by value. */
  datatype Requested =
    | NoObject
    | ClusterObj(cluster: ClusterValue)
    | RoleObj(role: RoleValue)
    | ConfigObj(config: ConfigValue)
  {
    predicate OfKind(kind: Kind)
    {
      match this
      case NoObject => true
      case ClusterObj(_) => kind == ClusterKind
      case RoleObj(_) => kind == RoleKind
      case ConfigObj(_) => kind == ConfigKind
    }

    /** The object's metadata, as UpdateStatus reads it. */
    function ObjectMeta(): Option<Meta>
    {
      match this
      case NoObject => None
      case ClusterObj(c) => Some(c.meta)
      case RoleObj(r) => Some(r.meta)
      case ConfigObj(c) => Some(c.meta)
    }
  }

  /**
   * The related cluster. In the cluster controller it is the very object that
   * was requested (SetCluster stores one pointer twice), so an update through
   * either name is seen through both.
   */
  datatype Related = NoCluster | SameAsObject | OtherCluster(cluster: ClusterValue)

  datatype State = State(kind: Kind, request: NamespacedName, obj: Requested, related: Related, leader: Option<Pod>)
  {
    predicate Wf()
    {
      obj.OfKind(kind) && (related.SameAsObject? ==> obj.ClusterObj?)
    }

    function RelatedCluster(): Option<ClusterValue>
    {
      match related
      case NoCluster => None
      case SameAsObject => if obj.ClusterObj? then Some(obj.cluster) else None
      case OtherCluster(c) => Some(c)
    }

    /** The related cluster after an update in place. */
    function UpdateRelated(c: ClusterValue): (s: State)
      requires Wf() && !related.NoCluster?
      ensures s.Wf() && s.RelatedCluster() == Some(c) && s.kind == kind && s.request == request
      ensures s.leader == leader && (obj.ClusterObj? || s.obj == obj)
    {
      if related.SameAsObject? then this.(obj := ClusterObj(c)) else this.(related := OtherCluster(c))
    }

    /** The requested object after an update in place. */
    function UpdateObject(o: Requested): (s: State)
      requires Wf() && o.OfKind(kind) && (related.SameAsObject? ==> o.ClusterObj?)
      ensures s.Wf() && s.obj == o && s.kind == kind && s.request == request && s.leader == leader
      ensures s.related == related
      ensures !related.SameAsObject? ==> s.RelatedCluster() == RelatedCluster()
    {
      this.(obj := o)
    }
  }

  /** What a step returns, and the state and call log it leaves behind. */
  datatype StepOut = StepOut(ret: StepReturn, state: State, log: seq<Call>)

  /** A context of any of the three controllers, as the engine sees it. */
  datatype Context = ClusterCtx(cc: ClusterContext) | RoleCtx(rc: RoleContext) | ConfigCtx(fc: CartridgeConfigContext)
  {
    function Kind(): Kind
    {
      match this
      case ClusterCtx(_) => ClusterKind
      case RoleCtx(_) => RoleKind
      case ConfigCtx(_) => ConfigKind
    }

    function Holder(): object
    {
      match this
      case ClusterCtx(cc) => cc
      case RoleCtx(rc) => rc
      case ConfigCtx(fc) => fc
    }

    function Common(): CommonContext
    {
      match this
      case ClusterCtx(cc) => cc.common
      case RoleCtx(rc) => rc.common
      case ConfigCtx(fc) => fc.common
    }

    /** The context objects and the objects they point to. */
    function Repr(): set<object>
      reads Holder(), Common()
    {
      var related: set<object> := if Common().cluster != null then {Common().cluster} else {};
      var own: set<object> :=
        match this
        case ClusterCtx(cc) => if cc.cluster != null then {cc.cluster} else {}
        case RoleCtx(rc) => if rc.role != null then {rc.role} else {}
        case ConfigCtx(fc) => if fc.config != null then {fc.config} else {};
      {Holder(), Common()} + related + own
    }

    predicate HasRequestedObject()
      reads Holder()
    {
      match this
      case ClusterCtx(cc) => cc.HasRequestedObject()
      case RoleCtx(rc) => rc.HasRequestedObject()
      case ConfigCtx(fc) => fc.HasRequestedObject()
    }

    function RequestedValue(): Requested
      reads Repr()
    {
      match this
      case ClusterCtx(cc) => if cc.cluster != null then ClusterObj(cc.cluster.Value()) else NoObject
      case RoleCtx(rc) => if rc.role != null then RoleObj(rc.role.Value()) else NoObject
      case ConfigCtx(fc) => if fc.config != null then ConfigObj(fc.config.Value()) else NoObject
    }

    function Related(): Related
      reads Repr()
    {
      var c := Common().cluster;
      if c == null then NoCluster
      else if ClusterCtx? && cc.cluster == c then SameAsObject
      else OtherCluster(c.Value())
    }

    /** The abstract state of the pass. */
    function Abs(): (s: State)
      reads Repr()
      ensures s.Wf() && s.kind == Kind()
      ensures s.obj.NoObject? <==> !HasRequestedObject()
    {
      State(Kind(), Common().request, RequestedValue(), Related(), Common().leader)
    }
  }

  /** Changing the related cluster in place, and nothing else of the context, updates the related cluster of the state. */
  twostate lemma RelatedUpdatedInPlace(ctx: Context)
    requires ctx.Common().cluster != null
    requires unchanged(ctx.Holder(), ctx.Common())
    requires unchanged(old(ctx.Repr()) - {ctx.Common().cluster})
    ensures old(ctx.Abs()).Wf() && !old(ctx.Abs()).related.NoCluster?
    ensures ctx.Abs() == old(ctx.Abs()).UpdateRelated(ctx.Common().cluster.Value())
  {
  }

  /** A pass starts from a fresh context that holds only the request. */
  method NewContext(kind: Kind, request: NamespacedName) returns (ctx: Context)
    ensures ctx.Abs() == State(kind, request, NoObject, NoCluster, None)
    ensures fresh(ctx.Repr())
  {
    var common := new CommonContext(request);
    match kind
    case ClusterKind =>
      var cc := new ClusterContext(common);
      ctx := ClusterCtx(cc);
    case RoleKind =>
      var rc := new RoleContext(common);
      ctx := RoleCtx(rc);
    case ConfigKind =>
      var fc := new CartridgeConfigContext(common);
      ctx := ConfigCtx(fc);
  }

  // ----- Storing a fetched object -----

  /** The "used with wrong k8s object" error of a context of the given kind. */
  function WrongObject(kind: Kind): Error
  {
    match kind
    case ClusterKind => WrongClusterObject
    case RoleKind => WrongRoleObject
    case ConfigKind => WrongConfigObject
  }

  function TargetObject(t: Target): object
  {
    match t
    case ClusterTarget(c) => c
    case RoleTarget(r) => r
    case ConfigTarget(c) => c
  }

  /** The contents of a target, as a requested object. */
  function TargetValue(t: Target): (o: Requested)
    reads TargetObject(t)
    ensures !o.NoObject?
  {
    match t
    case ClusterTarget(c) => ClusterObj(c.Value())
    case RoleTarget(r) => RoleObj(r.Value())
    case ConfigTarget(c) => ConfigObj(c.Value())
  }

  /**
   * SetRequestedObject on the abstract state: an object of the context's kind
   * is stored (a cluster also becomes the related cluster); any other object is
   * refused with the context's error and nothing changes.
   */
  function Stored(s: State, o: Requested): (r: (Option<Error>, State))
    requires s.Wf() && !o.NoObject?
    ensures r.1.Wf() && r.1.kind == s.kind && r.1.request == s.request && r.1.leader == s.leader
    ensures r.0.None? <==> o.OfKind(s.kind)
    ensures r.0.Some? ==> r.0 == Some(WrongObject(s.kind)) && r.1 == s
    ensures r.0.None? ==> r.1.obj == o && r.1.RelatedCluster() == (if o.ClusterObj? then Some(o.cluster) else s.RelatedCluster())
  {
    if !o.OfKind(s.kind) then (Some(WrongObject(s.kind)), s)
    else if o.ClusterObj? then (None, s.(obj := o, related := SameAsObject))
    else (None, s.(obj := o))
  }

  /** The context's SetRequestedObject, given an object the context does not hold yet. */
  method SetRequested(ctx: Context, t: Target) returns (err: Option<Error>)
    requires TargetObject(t) !in ctx.Repr()
    modifies ctx.Holder(), ctx.Common()
    ensures ctx.Repr() <= old(ctx.Repr()) + {TargetObject(t)}
    ensures (err, ctx.Abs()) == Stored(old(ctx.Abs()), old(TargetValue(t)))
  {
    match ctx
    case ClusterCtx(cc) => err := cc.SetRequestedObject(t);
    case RoleCtx(rc) => err := rc.SetRequestedObject(t);
    case ConfigCtx(fc) => err := fc.SetRequestedObject(t);
  }
}
