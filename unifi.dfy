/**
 * The Caddy middleware itself: the API type with its configuration,
 * provisioning, routing, HTTP handlers and Caddyfile parsing.
 *
 * Collaborators are parameters: the controller is a `Remote` with fixed
 * answers, the cached client inventory is the result of the cache read,
 * `next` is the error the next handler returns, and `libraryStatus` stands
 * for the router library answering a request the table does not match
 * itself: Some(status) gives the status the response ends with (405 method
 * not allowed, a redirect, or 200 for the automatic OPTIONS answer, which
 * writes no status of its own), and None means the library hands the
 * request to the NotFound handler.
 */
module Unifi {
  import opened Wrappers
  import opened Controller
  import opened Http
  import opened Flow
  import Bulk
  import Routing
  import Caddyfile

  const NotFoundHeader := "not-found"

  /** A JSON success response: content type, then the payload. */
  function JsonResponse(s: ResponseState, p: Payload): (r: ResponseState)
    ensures r.body == s.body + [p] && HeaderGet(r, ContentType) == ApplicationJson
    ensures HeaderGet(r, NotFoundHeader) == HeaderGet(s, NotFoundHeader)
  {
    WithBody(WithHeader(s, ContentType, ApplicationJson), p)
  }

  /** The response of `list`: the inventory, or status 500 and no body when the cache read fails. */
  function ListResponse(s: ResponseState, cache: Option<seq<Client>>): (r: ResponseState)
    ensures cache.None? ==> r == WithStatus(s, StatusInternalServerError)
    ensures cache.Some? ==> r == JsonResponse(s, Clients(cache.value))
    ensures HeaderGet(r, NotFoundHeader) == HeaderGet(s, NotFoundHeader)
  {
    if cache.None? then WithStatus(s, StatusInternalServerError) else JsonResponse(s, Clients(cache.value))
  }

  /** The report a block or unblock request writes. */
  function Report(action: Action, ok: seq<MAC>, failed: seq<MAC>): Payload
  {
    match action
    case Block => BlockReport(ok, failed)
    case Unblock => UnblockReport(ok, failed)
  }

  /** The response of `block` and `unblock`: status 500 and no body, or the report. */
  function ControlResponse(s: ResponseState, action: Action, outcome: Outcome): (r: ResponseState)
    ensures outcome.ServerError? ==> r == WithStatus(s, StatusInternalServerError)
    ensures outcome.Partition? ==> r == JsonResponse(s, Report(action, outcome.ok, outcome.failed))
    ensures HeaderGet(r, NotFoundHeader) == HeaderGet(s, NotFoundHeader)
  {
    match outcome
    case ServerError => WithStatus(s, StatusInternalServerError)
    case Partition(ok, failed) => JsonResponse(s, Report(action, ok, failed))
  }

  /** The response to a request the table does not match. */
  function UnmatchedResponse(s: ResponseState, libraryStatus: Option<int>): (r: ResponseState)
    ensures libraryStatus.None? ==> r == WithHeader(s, NotFoundHeader, "true")
    ensures libraryStatus.Some? ==> r == WithStatus(s, libraryStatus.value)
  {
    if libraryStatus.Some? then WithStatus(s, libraryStatus.value) else WithHeader(s, NotFoundHeader, "true")
  }

  /**
   * Tries every address registered under `name`, as ApplyEach does; an
   * unknown name makes no call and leaves both lists empty.
   */
  method ApplyNamed(ses: Session, action: Action, names: NameIndex, name: string)
    returns (ok: seq<MAC>, failed: seq<MAC>)
    requires ses.authenticated
    modifies ses.remote
    ensures var macs := Resolve(names, name);
            var outs := Bulk.Outcomes(ses.remote.replies.refused, |old(ses.remote.calls)|, |macs|);
            ok == Bulk.Select(macs, outs, true) && failed == Bulk.Select(macs, outs, false)
    ensures ses.remote.calls == old(ses.remote.calls) + Bulk.Attempts(action, Resolve(names, name))
  {
    if name in names {
      ok, failed := ApplyEach(ses, action, names[name]);
    } else {
      ok, failed := [], [];
      assert Bulk.Attempts(action, []) == [];
    }
  }

  /** What serving a request leaves behind: the response and the controller's call log. */
  datatype Served = Served(response: ResponseState, calls: seq<Call>)

  /**
   * Serving a route on a response in state `s`, with the controller's log
   * holding `calls`. Only block and unblock talk to the controller, and the
   * response carries a non-empty `not-found` header exactly when it did
   * before or the table matched nothing and the router library did not
   * answer itself.
   */
  function Dispatch(route: Routing.Route, s: ResponseState, calls: seq<Call>, replies: Replies,
                    endpoint: string, username: string, password: string,
                    cache: Option<seq<Client>>, libraryStatus: Option<int>): (r: Served)
    ensures (route.NotFound? || route.handler == Routing.Index || route.handler == Routing.List) ==> r.calls == calls
    ensures (HeaderGet(r.response, NotFoundHeader) != "") <==>
              (HeaderGet(s, NotFoundHeader) != "" || (route.NotFound? && libraryStatus.None?))
  {
    match route
    case NotFound => Served(UnmatchedResponse(s, libraryStatus), calls)
    case Found(handler, name) =>
      match handler
      case Index => Served(JsonResponse(s, EmptyObject), calls)
      case List => Served(ListResponse(s, cache), calls)
      case Block =>
        var f := ControlFlow(replies, calls, endpoint, username, password, name, Block);
        Served(ControlResponse(s, Block, f.outcome), calls + f.calls)
      case Unblock =>
        var f := ControlFlow(replies, calls, endpoint, username, password, name, Unblock);
        Served(ControlResponse(s, Unblock, f.outcome), calls + f.calls)
  }

  /**
   * Tries every address once, in order, on an authenticated session; a
   * refused call goes to `failed` and the loop goes on.
   */
  method ApplyEach(ses: Session, action: Action, macs: seq<MAC>) returns (ok: seq<MAC>, failed: seq<MAC>)
    requires ses.authenticated
    modifies ses.remote
    ensures var outs := Bulk.Outcomes(ses.remote.replies.refused, |old(ses.remote.calls)|, |macs|);
            ok == Bulk.Select(macs, outs, true) && failed == Bulk.Select(macs, outs, false)
    ensures ses.remote.calls == old(ses.remote.calls) + Bulk.Attempts(action, macs)
  {
    var remote := ses.remote;
    ghost var start := remote.calls;
    ghost var outs := Bulk.Outcomes(remote.replies.refused, |start|, |macs|);
    ok, failed := [], [];
    for i := 0 to |macs|
      invariant |remote.calls| == |start| + i
      invariant remote.calls == start + Bulk.Attempts(action, macs[..i])
      invariant ok == Bulk.Select(macs[..i], outs[..i], true)
      invariant failed == Bulk.Select(macs[..i], outs[..i], false)
    {
      var accepted := ses.Apply(action, macs[i]);
      assert accepted == outs[i];
      Bulk.AttemptStep(action, macs, outs, i);
      if accepted {
        ok := ok + [macs[i]];
      } else {
        failed := failed + [macs[i]];
      }
    }
    assert macs[..|macs|] == macs && outs[..|macs|] == outs;
  }

  class API {
    var baseURL: string
    var natsURL: string
    var username: string
    var password: string
    var hasLogger: bool
    var router: Option<seq<Routing.Entry>>

    /** A zero API value, as `&API{}` gives. */
    constructor ()
      ensures Config() == Caddyfile.Empty && !hasLogger && router == None
    {
      baseURL, natsURL, username, password := "", "", "", "";
      hasLogger := false;
      router := None;
    }

    function Config(): Caddyfile.Config
      reads this
    {
      Caddyfile.Config(baseURL, natsURL, username, password)
    }

    /** Reads the Caddyfile block into the four configuration fields, in place. */
    method UnmarshalCaddyfile(segments: seq<seq<Caddyfile.Directive>>, allArgs: Caddyfile.ArgCheck)
      returns (err: Option<Caddyfile.ParseError>)
      modifies this
      ensures Caddyfile.Parsed(Config(), err) == Caddyfile.Unmarshal(old(Config()), Caddyfile.Flatten(segments), allArgs)
      ensures hasLogger == old(hasLogger) && router == old(router)
    {
      ghost var c0 := Config();
      ghost var done: seq<Caddyfile.Directive> := [];
      for i := 0 to |segments|
        invariant done == Caddyfile.Flatten(segments[..i])
        invariant Caddyfile.Unmarshal(c0, done, allArgs) == Caddyfile.Parsed(Config(), None)
        invariant hasLogger == old(hasLogger) && router == old(router)
      {
        var segment := segments[i];
        for j := 0 to |segment|
          invariant done == Caddyfile.Flatten(segments[..i]) + segment[..j]
          invariant Caddyfile.Unmarshal(c0, done, allArgs) == Caddyfile.Parsed(Config(), None)
          invariant hasLogger == old(hasLogger) && router == old(router)
        {
          var d := segment[j];
          if d.key !in Caddyfile.Keys {
            err := Some(Caddyfile.UnexpectedToken(d.key));
            Caddyfile.StopsAt(c0, segments, i, j, allArgs);
            return;
          }
          var value := allArgs(d.args);
          if value.None? {
            err := Some(Caddyfile.ArgErr(d.key));
            Caddyfile.StopsAt(c0, segments, i, j, allArgs);
            return;
          }
          Caddyfile.StepsAt(c0, segments, i, j, allArgs);
          Store(d.key, value.value);
          done := Caddyfile.Flatten(segments[..i]) + segment[..j + 1];
        }
        assert segment[..|segment|] == segment;
        Caddyfile.FlattenSnoc(segments, i);
      }
      assert segments[..|segments|] == segments;
      err := None;
    }

    /** Writes the field a directive key names, as `AllArgs` does through its target pointer. */
    method Store(key: string, value: string)
      requires key in Caddyfile.Keys
      modifies this
      ensures Config() == Caddyfile.SetField(old(Config()), key, value)
      ensures hasLogger == old(hasLogger) && router == old(router)
    {
      if key == "base_url" {
        baseURL := value;
      } else if key == "nats_url" {
        natsURL := value;
      } else if key == "username" {
        username := value;
      } else {
        password := value;
      }
    }

    /** Stores the logger and installs the route table. */
    method Provision()
      modifies this
      ensures hasLogger && router == Some(Routing.Table) && Config() == old(Config())
      ensures Validate().None?
    {
      hasLogger := true;
      RegisterRouter();
    }

    method RegisterRouter()
      modifies this
      ensures router == Some(Routing.Table)
      ensures Config() == old(Config()) && hasLogger == old(hasLogger)
    {
      router := Some(Routing.Table);
    }

    /** An error exactly when no logger is set. */
    function Validate(): (r: Option<string>)
      reads this
      ensures r.Some? <==> !hasLogger
    {
      if !hasLogger then Some("logger not initialized") else None
    }

    /**
     * Routes the request, then passes it to the next handler exactly when
     * the response carries a non-empty `not-found` header.
     */
    method ServeHTTP(rw: Response, req: Request, remote: Remote, cache: Option<seq<Client>>,
                     libraryStatus: Option<int>, next: Option<string>)
      returns (err: Option<string>, calledNext: bool)
      requires router.Some? && hasLogger
      modifies rw, remote
      ensures Served(rw.State(), remote.calls)
              == Dispatch(Routing.Lookup(router.value, req), old(rw.State()), old(remote.calls), remote.replies,
                          baseURL, username, password, cache, libraryStatus)
      ensures calledNext <==> HeaderGet(rw.State(), NotFoundHeader) != ""
      ensures calledNext <==> HeaderGet(old(rw.State()), NotFoundHeader) != ""
                              || (Routing.Lookup(router.value, req).NotFound? && libraryStatus.None?)
      ensures err == if calledNext then next else None
    {
      RouterServeHTTP(rw, req, remote, cache, libraryStatus);
      if HeaderGet(rw.State(), NotFoundHeader) == "" {
        return None, false;
      }
      return next, true;
    }

    /** The router: the matching handler, or the library's own answer, or the NotFound handler. */
    method RouterServeHTTP(rw: Response, req: Request, remote: Remote, cache: Option<seq<Client>>,
                           libraryStatus: Option<int>)
      requires router.Some?
      modifies rw, remote
      ensures Served(rw.State(), remote.calls)
              == Dispatch(Routing.Lookup(router.value, req), old(rw.State()), old(remote.calls), remote.replies,
                          baseURL, username, password, cache, libraryStatus)
    {
      var route := Routing.Lookup(router.value, req);
      match route
      case NotFound =>
        if libraryStatus.Some? {
          rw.WriteHeader(libraryStatus.value);
        } else {
          rw.SetHeader(NotFoundHeader, "true");
        }
      case Found(handler, name) =>
        match handler
        case Index => ServeIndex(rw);
        case List => ServeList(rw, cache);
        case Block => ServeBlock(rw, name, remote);
        case Unblock => ServeUnblock(rw, name, remote);
    }

    method ServeIndex(rw: Response)
      modifies rw
      ensures rw.State() == JsonResponse(old(rw.State()), EmptyObject)
    {
      rw.SetHeader(ContentType, ApplicationJson);
      rw.Write(EmptyObject);
    }

    /** Serves the cached inventory; never opens a controller session. */
    method ServeList(rw: Response, cache: Option<seq<Client>>)
      modifies rw
      ensures rw.State() == ListResponse(old(rw.State()), cache)
    {
      if cache.None? {
        rw.WriteHeader(StatusInternalServerError);
        return;
      }
      rw.SetHeader(ContentType, ApplicationJson);
      rw.Write(Clients(cache.value));
    }

    method ServeBlock(rw: Response, name: string, remote: Remote)
      modifies rw, remote
      ensures var f := ControlFlow(remote.replies, old(remote.calls), baseURL, username, password, name, Block);
              remote.calls == old(remote.calls) + f.calls && rw.State() == ControlResponse(old(rw.State()), Block, f.outcome)
    {
      ServeControl(rw, name, remote, Block);
    }

    method ServeUnblock(rw: Response, name: string, remote: Remote)
      modifies rw, remote
      ensures var f := ControlFlow(remote.replies, old(remote.calls), baseURL, username, password, name, Unblock);
              remote.calls == old(remote.calls) + f.calls && rw.State() == ControlResponse(old(rw.State()), Unblock, f.outcome)
    {
      ServeControl(rw, name, remote, Unblock);
    }

    /** The body shared by `block` and `unblock`. */
    method ServeControl(rw: Response, name: string, remote: Remote, action: Action)
      modifies rw, remote
      ensures var f := ControlFlow(remote.replies, old(remote.calls), baseURL, username, password, name, action);
              remote.calls == old(remote.calls) + f.calls && rw.State() == ControlResponse(old(rw.State()), action, f.outcome)
    {
      ghost var history := remote.calls;
      var ses, err := InitSession(remote);
      if err.Some? {
        rw.WriteHeader(StatusInternalServerError);
        return;
      }
      var names := ses.GetNames();
      if names.None? {
        rw.WriteHeader(StatusInternalServerError);
        return;
      }
      ghost var prelude := Prelude(baseURL, username, password);
      assert remote.calls == history + prelude;
      ControlFlowCompletes(remote.replies, history, baseURL, username, password, name, action);
      var ok, failed := ApplyNamed(ses, action, names.value, name);
      ghost var before := rw.State();
      rw.SetHeader(ContentType, ApplicationJson);
      rw.Write(Report(action, ok, failed));
      assert rw.State() == JsonResponse(before, Report(action, ok, failed));
    }

    /** Opens a session: Initialize, then Login only if Initialize succeeded. */
    method InitSession(remote: Remote) returns (ses: Session?, err: Option<SessionError>)
      modifies remote
      ensures var o := OpenSession(remote.replies, baseURL, username, password);
              remote.calls == old(remote.calls) + o.calls && err == o.err
      ensures err.None? <==> ses != null
      ensures ses != null ==> fresh(ses) && ses.authenticated && ses.remote == remote
    {
      ses := new Session(baseURL, username, password, remote);
      var initErr := ses.Initialize();
      if initErr.Some? {
        return null, Some(InitFailed(initErr.value));
      }
      var failure := ses.Login();
      if failure.Some? {
        return null, Some(LoginFailed(failure.value.message, failure.value.cause));
      }
      err := None;
    }
  }

  /** Builds a zero API and reads the block into it; the API comes back even with an error. */
  method ParseCaddyfile(segments: seq<seq<Caddyfile.Directive>>, allArgs: Caddyfile.ArgCheck)
    returns (a: API, err: Option<Caddyfile.ParseError>)
    ensures fresh(a) && !a.hasLogger && a.router.None?
    ensures Caddyfile.Parsed(a.Config(), err) == Caddyfile.Unmarshal(Caddyfile.Empty, Caddyfile.Flatten(segments), allArgs)
  {
    a := new API();
    err := a.UnmarshalCaddyfile(segments, allArgs);
  }
}
