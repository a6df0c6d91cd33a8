/** The part of the HTTP transport the backend touches: a request object it
    configures and starts, and what the transport hands back on completion. */
module Httpc {
  import opened Wrappers
  import opened JsonDom

  /** The transport-level outcome of a call (httpc::status_code). */
  datatype TransportStatus = TransportOk | TransportError(code: nat)

  const HttpOk: nat := 200

  /** The HTTP status and the body. `body` is the tree jsondom::read builds
      from the raw bytes, or None when that read throws. */
  datatype Response = Response(status: nat, body: Option<Json>)

  class HttpRequest {
    /** The callback the completion handler captured, kept for the proof only. */
    ghost const callback: object
    var url: string
    var headers: map<string, string>
    var started: bool
    /** Whether something still owns the request, so that a weak reference
        to it can be locked. The transport drops it once the call is over. */
    var alive: bool
    /** What the transport answers when asked to cancel this request. */
    var cancelAnswer: bool

    constructor (ghost callback: object)
      ensures this.callback == callback
      ensures url == "" && headers == map[] && !started && alive
    {
      this.callback := callback;
      url, headers, started := "", map[], false;
      alive := true;
      cancelAnswer := *;
    }

    method SetUrl(u: string)
      modifies this`url
      ensures url == u
    {
      url := u;
    }

    method SetHeaders(h: map<string, string>)
      modifies this`headers
      ensures headers == h
    {
      headers := h;
    }

    method Start()
      modifies this`started
      ensures started
    {
      started := true;
    }

    /** The transport has finished with the request and released it. */
    method Release()
      modifies this`alive
      ensures !alive
    {
      alive := false;
    }

    method Cancel() returns (accepted: bool)
      ensures accepted == cancelAnswer
    {
      accepted := cancelAnswer;
    }
  }
}
