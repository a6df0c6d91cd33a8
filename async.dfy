/** The handle of one fetch and the callback that receives its result. */
module Async {
  import opened Wrappers
  import opened Httpc
  import opened Beerja

  /** tradier_async_operation: a weak link to the transport request. None
      when no request was ever linked (an exchange listing, a daily series). */
  class AsyncOperation {
    var httpReq: Option<HttpRequest>

    constructor ()
      ensures httpReq == None
    {
      httpReq := None;
    }

    /** Lock the weak link: a request that is no longer alive has finished,
        so there is nothing to cancel; otherwise the request decides. */
    method Cancel() returns (cancelled: bool)
      ensures httpReq.None? ==> !cancelled
      ensures httpReq.Some? && !httpReq.value.alive ==> !cancelled
      ensures httpReq.Some? && httpReq.value.alive ==> cancelled == httpReq.value.cancelAnswer
    {
      match httpReq {
        case None =>
          cancelled := false;
        case Some(r) =>
          if r.alive {
            cancelled := r.Cancel();
          } else {
            cancelled := false;
          }
      }
    }
  }

  /** One invocation of a callback: its status, the handle and the result. */
  datatype Delivery<T> = Delivery(status: Status, op: AsyncOperation, value: T)

  /** A non-null std::function callback, observed through the invocations
      it has received so far. Whether a call throws depends only on the
      status it is called with. */
  class Listener<T> {
    var received: seq<Delivery<T>>
    const throwsOnOk: bool
    const throwsOnFailure: bool

    constructor (throwsOnOk: bool, throwsOnFailure: bool)
      ensures received == []
      ensures this.throwsOnOk == throwsOnOk && this.throwsOnFailure == throwsOnFailure
    {
      received := [];
      this.throwsOnOk, this.throwsOnFailure := throwsOnOk, throwsOnFailure;
    }

    predicate Throws(status: Status)
    {
      if status == Ok then throwsOnOk else throwsOnFailure
    }

    /** The call is recorded; `threw` says whether it ended in an exception. */
    method Call(status: Status, op: AsyncOperation, value: T) returns (threw: bool)
      modifies this
      ensures received == old(received) + [Delivery(status, op, value)]
      ensures threw == Throws(status)
    {
      received := received + [Delivery(status, op, value)];
      threw := Throws(status);
    }
  }
}
