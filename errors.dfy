// Go error values as the operator produces and inspects them: the package-level
// sentinels compared with errors.Is, the Lua error record decoded from Cartridge
// answers (pkg/topology/response.go), the Kubernetes API status errors
// classified by IsNotFound / IsConflict, and wrapping with a message prefix.

module Errors {
  import opened Text
  import opened Wrappers

  /** A Lua-side error as Cartridge reports it (pkg/topology/response.go). */
  datatype LuaError = LuaError(line: int, className: string, err: string, file: string, stack: string)
  {
    /** `*LuaError` formats as "<class name>: <err>". */
    function Message(): string
    {
      className + ": " + err
    }
  }

  /** Package-level error values created once with errors.New. */
  datatype Sentinel =
    | TopologyIsDown
    | AlreadyJoined
    | NotInConfig
    | LastStorageWeight
    | NoAvailableLeader
    | LeaderElectionConflict
    | LeaderNotReady
    | LeaderWasNotElected

  function SentinelMessage(s: Sentinel): string
  {
    match s
    case TopologyIsDown => "topology service is down"
    case AlreadyJoined => "already joined"
    case NotInConfig => "not in config"
    case LastStorageWeight => "at least one vshard-storage (default) must have weight > 0"
    case NoAvailableLeader => "no available leader pod"
    case LeaderElectionConflict => "race condition during leader election"
    case LeaderNotReady => "leader pod is not ready"
    case LeaderWasNotElected => "leader was not elected"
  }

  /** The reason carried by a Kubernetes API status error. */
  datatype ApiReason = NotFound | Conflict | OtherReason

  datatype Error =
    | Sentinel(sentinel: Sentinel)
    | Lua(lua: LuaError)                      // *LuaError
    | UnknownRole(unknown: LuaError)          // *UnknownRoleError, which embeds *LuaError
    | Api(reason: ApiReason, msg: string)     // a status error from the Kubernetes API
    | JsonType(msg: string)                   // *json.UnmarshalTypeError
    | Plain(msg: string)                      // errors.New / fmt.Errorf without wrapping
    | Wrapped(context: string, cause: Error)  // errors.Wrap(cause, context)
  {
    /** The text of err.Error(). */
    function Message(): string
    {
      match this
      case Sentinel(s) => SentinelMessage(s)
      case Lua(l) => l.Message()
      case UnknownRole(l) => l.Message()
      case Api(_, m) => m
      case JsonType(m) => m
      case Plain(m) => m
      case Wrapped(c, cause) => c + ": " + cause.Message()
    }

    /** errors.Is against a sentinel: the sentinel itself or anywhere down the wrap chain. */
    predicate Is(s: Sentinel)
    {
      match this
      case Sentinel(t) => t == s
      case Wrapped(_, cause) => cause.Is(s)
      case _ => false
    }

    /** errors.As into *LuaError. An *UnknownRoleError is a different type and does not match. */
    function AsLua(): Option<LuaError>
    {
      match this
      case Lua(l) => Some(l)
      case Wrapped(_, cause) => cause.AsLua()
      case _ => None
    }

    /** errors.As into *UnknownRoleError. */
    function AsUnknownRole(): Option<LuaError>
    {
      match this
      case UnknownRole(l) => Some(l)
      case Wrapped(_, cause) => cause.AsUnknownRole()
      case _ => None
    }

    /** errors.As into *json.UnmarshalTypeError. */
    predicate IsJsonType()
    {
      match this
      case JsonType(_) => true
      case Wrapped(_, cause) => cause.IsJsonType()
      case _ => false
    }

    /** The API status reason found down the wrap chain, if any. */
    function ApiReasonOf(): Option<ApiReason>
    {
      match this
      case Api(r, _) => Some(r)
      case Wrapped(_, cause) => cause.ApiReasonOf()
      case _ => None
    }

    /** apierrors.IsNotFound */
    predicate IsNotFound()
    {
      ApiReasonOf() == Some(NotFound)
    }

    /** apierrors.IsConflict */
    predicate IsConflict()
    {
      ApiReasonOf() == Some(Conflict)
    }
  }

  /** A Go (value, error) pair where the value matters only when the error is nil. */
  datatype Outcome<T> = Ok(value: T) | Fail(error: Error)

  /** Wrapping keeps every classification of the cause. */
  lemma {:induction false} WrapKeepsClassification(e: Error, context: string)
    ensures forall s :: Wrapped(context, e).Is(s) <==> e.Is(s)
    ensures Wrapped(context, e).AsLua() == e.AsLua()
    ensures Wrapped(context, e).AsUnknownRole() == e.AsUnknownRole()
    ensures Wrapped(context, e).IsNotFound() == e.IsNotFound()
    ensures Wrapped(context, e).IsConflict() == e.IsConflict()
    ensures Wrapped(context, e).Message() == context + ": " + e.Message()
  {
  }

  /** The sentinels are told apart both by identity and by their text. */
  lemma SentinelMessagesDistinct(a: Sentinel, b: Sentinel)
    requires a != b
    ensures SentinelMessage(a) != SentinelMessage(b)
  {
  }

  /** A sentinel is only ever recognised as itself. */
  lemma {:induction false} IsIdentifiesOneSentinel(e: Error, a: Sentinel, b: Sentinel)
    requires e.Is(a) && e.Is(b)
    ensures a == b
  {
    match e
    case Sentinel(_) =>
    case Wrapped(_, cause) => IsIdentifiesOneSentinel(cause, a, b);
  }
}
