// The vocabulary of the stepped reconciler (pkg/reconciliation): the result a
// controller hands back to controller-runtime, the (result, error) pair every
// step returns and the constructors steps build it with, and the context state
// every reconcile pass shares: the request, the related cluster and the leader.

module Reconciliation {
  import opened Wrappers
  import opened Errors
  import opened K8s
  import opened Api

  /** The delay, in seconds, after which a failed pass is retried. */
  const ErrorTimeout := 10

  /** ctrl.Result; only RequeueAfter is ever set by the operator (in seconds). */
  datatype Result = Result(requeueAfter: nat)

  /**
   * What a step returns: the Go pair (*Result, error), each side possibly nil,
   * or a nil-pointer dereference that unwinds the whole pass.
   */
  datatype StepReturn = Return(res: Option<Result>, err: Option<Error>) | Panic
  {
    /** The engine stops after a step that returned a result or an error, or panicked. */
    predicate Stops()
    {
      Panic? || res.Some? || err.Some?
    }
  }

  function Requeue(seconds: nat): (r: StepReturn)
    ensures r.Return? && r.Stops() && r.err.None? && r.res == Some(Result(seconds))
  {
    Return(Some(Result(seconds)), None)
  }

  /** Error(err) passes its argument through, nil included. */
  function ErrorOf(err: Option<Error>): (r: StepReturn)
    ensures r.Return? && r.res.None? && r.err == err
    ensures r.Stops() <==> err.Some?
  {
    Return(None, err)
  }

  /** Break(err): stop with an empty result, so no delay is added to the error. */
  function Break(err: Option<Error>): (r: StepReturn)
    ensures r.Return? && r.Stops() && r.res == Some(Result(0)) && r.err == err
  {
    Return(Some(Result(0)), err)
  }

  function NextStep(): (r: StepReturn)
    ensures !r.Stops() && r.Return?
  {
    Return(None, None)
  }

  function Complete(): (r: StepReturn)
    ensures r.Return? && r.Stops() && r.err.None? && r.res == Some(Result(0))
  {
    Return(Some(Result(0)), None)
  }

  /** Error(nil) is NextStep: a step that reports "not done" with a nil error lets the pass go on. */
  lemma ErrorOfNilIsNextStep()
    ensures ErrorOf(None) == NextStep()
    ensures forall e: Error :: ErrorOf(Some(e)) != NextStep() && ErrorOf(Some(e)).Stops()
  {
  }

  /** Break and Complete differ only by the error: Break(nil) is Complete. */
  lemma BreakOfNilIsComplete()
    ensures Break(None) == Complete()
    ensures forall e: Error :: Break(Some(e)) != Complete() && Break(Some(e)).res == Complete().res
  {
  }

  /**
   * CommonContext: the request being reconciled, the cluster the object belongs
   * to and the leader pod chosen for topology calls (nil as None).
   */
  class CommonContext {
    const request: NamespacedName
    var cluster: Cluster?
    var leader: Option<Pod>

    constructor (request: NamespacedName)
      ensures this.request == request && cluster == null && leader.None?
    {
      this.request := request;
      cluster := null;
      leader := None;
    }

    /** The request is fixed when the context is built. */
    function GetRequest(): (r: NamespacedName)
      ensures r == request
    {
      request
    }

    method SetRelatedCluster(c: Cluster?)
      modifies this
      ensures cluster == c && leader == old(leader)
    {
      cluster := c;
    }

    function GetRelatedCluster(): Cluster?
      reads this
    {
      cluster
    }

    method SetLeader(p: Option<Pod>)
      modifies this
      ensures leader == p && cluster == old(cluster)
    {
      leader := p;
    }

    function GetLeader(): Option<Pod>
      reads this
    {
      leader
    }
  }
}
