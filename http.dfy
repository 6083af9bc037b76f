/**
 * The parts of net/http the handlers touch: a request's method and path, and
 * a response writer's header map, status line and body.
 *
 * The body is kept as the sequence of values written to it; their encoding
 * (`{}` printed directly, everything else through the JSON encoder) is not
 * modelled.
 */
module Http {
  import opened Wrappers
  import opened Controller

  const StatusOK := 200
  const StatusInternalServerError := 500

  const ContentType := "content-type"
  const ApplicationJson := "application/json"

  datatype Request = Request(verb: string, path: string)

  /** A value written to the response body. */
  datatype Payload =
    | EmptyObject
    | Clients(clients: seq<Client>)
    | BlockReport(blocked: seq<MAC>, notBlocked: seq<MAC>)
    | UnblockReport(unblocked: seq<MAC>, notUnblocked: seq<MAC>)

  /** A response writer's state; `status` stays None until the status line is written. */
  datatype ResponseState = ResponseState(header: map<string, string>, status: Option<int>, body: seq<Payload>)

  /** `Header().Get`: the value under `key`, or the empty string. */
  function HeaderGet(s: ResponseState, key: string): string
  {
    if key in s.header then s.header[key] else ""
  }

  /** `Header().Set`. */
  function WithHeader(s: ResponseState, key: string, value: string): (r: ResponseState)
    ensures HeaderGet(r, key) == value
    ensures forall k :: k != key ==> HeaderGet(r, k) == HeaderGet(s, k)
    ensures r.status == s.status && r.body == s.body
  {
    s.(header := s.header[key := value])
  }

  /** `WriteHeader`: only the first status written reaches the client. */
  function WithStatus(s: ResponseState, code: int): (r: ResponseState)
    ensures r.status.Some?
    ensures r.status == if s.status.None? then Some(code) else s.status
    ensures r.header == s.header && r.body == s.body
  {
    if s.status.None? then s.(status := Some(code)) else s
  }

  /** `Write`: a body written before any status commits status 200. */
  function WithBody(s: ResponseState, p: Payload): (r: ResponseState)
    ensures r.body == s.body + [p]
    ensures r.status == WithStatus(s, StatusOK).status && r.header == s.header
  {
    ResponseState(s.header, WithStatus(s, StatusOK).status, s.body + [p])
  }

  class Response {
    var header: map<string, string>
    var status: Option<int>
    var body: seq<Payload>

    function State(): ResponseState
      reads this
    {
      ResponseState(header, status, body)
    }

    constructor (header: map<string, string>)
      ensures State() == ResponseState(header, None, [])
    {
      this.header := header;
      status := None;
      body := [];
    }

    method SetHeader(key: string, value: string)
      modifies this
      ensures State() == WithHeader(old(State()), key, value)
    {
      header := header[key := value];
    }

    method WriteHeader(code: int)
      modifies this
      ensures State() == WithStatus(old(State()), code)
    {
      if status.None? {
        status := Some(code);
      }
    }

    method Write(p: Payload)
      modifies this
      ensures State() == WithBody(old(State()), p)
    {
      WriteHeader(StatusOK);
      body := body + [p];
    }
  }
}
