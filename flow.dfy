/**
 * The request flow of the block and unblock handlers as a specification:
 * Initialize, then Login, then GetNames, then one control call per address.
 * Any failing step ends the request with a server error and nothing after it
 * is attempted.
 */
module Flow {
  import opened Wrappers
  import opened Controller
  import opened Bulk

  /** Why a session could not be opened. */
  datatype SessionError = InitFailed(cause: string) | LoginFailed(message: string, cause: string)
  {
    /** The error text: Initialize's own error, or the login message wrapped around its cause. */
    function Text(): (r: string)
      ensures LoginFailed? ==>
                |r| == |message| + 2 + |cause| && r[..|message|] == message
                && r[|message|..|message| + 2] == ": " && r[|r| - |cause|..] == cause
      ensures InitFailed? ==> r == cause
    {
      match this
      case InitFailed(c) => c
      case LoginFailed(m, c) => m + ": " + c
    }

    /**
     * The error a Login failure wraps, as `errors.Unwrap` sees it: the text
     * is the controller message and `": "` in front of it. Initialize's
     * error is returned unwrapped, so what it wraps in turn is not part of
     * the model.
     */
    function Unwrap(): (r: string)
      requires LoginFailed?
      ensures Text() == message + ": " + r
    {
      cause
    }
  }

  datatype Opened = Opened(calls: seq<Call>, err: Option<SessionError>)

  /** The calls that authenticate a session and fetch the name index, in order. */
  function Prelude(endpoint: string, username: string, password: string): seq<Call>
  {
    [Initialize(endpoint), Login(username, password), GetNames]
  }

  /** Opening a session: the calls made and the error returned, if any. */
  function OpenSession(rs: Replies, endpoint: string, username: string, password: string): (r: Opened)
    ensures 1 <= |r.calls| <= 2 && r.calls == Prelude(endpoint, username, password)[..|r.calls|]
    ensures |r.calls| == 2 <==> rs.initError.None?
    ensures r.err.None? <==> rs.initError.None? && rs.loginError.None?
    ensures rs.initError.Some? ==> r.err == Some(InitFailed(rs.initError.value))
    ensures rs.initError.None? && rs.loginError.Some? ==>
              r.err == Some(LoginFailed(rs.loginError.value.message, rs.loginError.value.cause))
  {
    if rs.initError.Some? then
      Opened([Initialize(endpoint)], Some(InitFailed(rs.initError.value)))
    else if rs.loginError.Some? then
      Opened([Initialize(endpoint), Login(username, password)],
             Some(LoginFailed(rs.loginError.value.message, rs.loginError.value.cause)))
    else
      Opened([Initialize(endpoint), Login(username, password)], None)
  }

  /**
   * A failed Login after a successful Initialize returns an error that
   * wraps the controller's cause under its message.
   */
  lemma LoginErrorWraps(rs: Replies, endpoint: string, username: string, password: string)
    requires rs.initError.None? && rs.loginError.Some?
    ensures var err := OpenSession(rs, endpoint, username, password).err;
            err.Some? && err.value.LoginFailed?
            && err.value.Unwrap() == rs.loginError.value.cause
            && err.value.Text() == rs.loginError.value.message + ": " + rs.loginError.value.cause
  {
  }

  /** The addresses registered under `name`; none when the name is unknown. */
  function Resolve(names: NameIndex, name: string): (r: seq<MAC>)
    ensures name in names ==> r == names[name]
    ensures name !in names ==> r == []
  {
    if name in names then names[name] else []
  }

  /** How a block or unblock request ends: a server error, or the two lists. */
  datatype Outcome = ServerError | Partition(ok: seq<MAC>, failed: seq<MAC>)

  datatype Trace = Trace(calls: seq<Call>, outcome: Outcome)

  /** The outcomes of the control calls for `name`, made right after the prelude. */
  function ControlOutcomes(rs: Replies, history: seq<Call>, names: NameIndex, name: string): seq<bool>
  {
    Outcomes(rs.refused, |history| + 3, |Resolve(names, name)|)
  }

  /**
   * A block or unblock request for `name` on a controller whose log holds
   * `history`: the calls it makes and how it ends.
   */
  function ControlFlow(rs: Replies, history: seq<Call>, endpoint: string, username: string,
                       password: string, name: string, action: Action): (r: Trace)
    ensures r.outcome.ServerError? <==> rs.initError.Some? || rs.loginError.Some? || rs.names.None?
    ensures rs.initError.Some? || rs.loginError.Some? ==>
              r.calls == OpenSession(rs, endpoint, username, password).calls
    ensures rs.initError.None? && rs.loginError.None? && rs.names.None? ==>
              r.calls == Prelude(endpoint, username, password)
    ensures rs.initError.None? && rs.loginError.None? && rs.names.Some? && name !in rs.names.value ==>
              r == Trace(Prelude(endpoint, username, password), Partition([], []))
  {
    var session := OpenSession(rs, endpoint, username, password);
    if session.err.Some? then Trace(session.calls, ServerError)
    else
      var prelude := session.calls + [GetNames];
      assert prelude == Prelude(endpoint, username, password);
      if rs.names.None? then Trace(prelude, ServerError)
      else
        var macs := Resolve(rs.names.value, name);
        var outs := ControlOutcomes(rs, history, rs.names.value, name);
        assert macs == [] ==> prelude + Attempts(action, macs) == prelude;
        Trace(prelude + Attempts(action, macs), Partition(Select(macs, outs, true), Select(macs, outs, false)))
  }

  /** The calls and lists of a request whose session opened and whose names were fetched. */
  lemma ControlFlowCompletes(rs: Replies, history: seq<Call>, endpoint: string, username: string,
                             password: string, name: string, action: Action)
    requires rs.initError.None? && rs.loginError.None? && rs.names.Some?
    ensures var macs := Resolve(rs.names.value, name);
            var outs := ControlOutcomes(rs, history, rs.names.value, name);
            ControlFlow(rs, history, endpoint, username, password, name, action)
              == Trace(Prelude(endpoint, username, password) + Attempts(action, macs),
                      Partition(Select(macs, outs, true), Select(macs, outs, false)))
  {
  }

  /**
   * No block or unblock call is made before Initialize, Login and GetNames
   * have all been made, in that order, and each is for the requested action.
   */
  lemma ControlOnlyAfterPrelude(rs: Replies, history: seq<Call>, endpoint: string, username: string,
                                password: string, name: string, action: Action)
    ensures var r := ControlFlow(rs, history, endpoint, username, password, name, action);
            forall i :: 0 <= i < |r.calls| && r.calls[i].Control? ==>
              3 <= i && r.calls[..3] == Prelude(endpoint, username, password) && r.calls[i].action == action
  {
    if rs.initError.None? && rs.loginError.None? && rs.names.Some? {
      ControlFlowCompletes(rs, history, endpoint, username, password, name, action);
    }
  }

  /**
   * Once the session is open and the names are fetched, every address under
   * the name is tried once, in order, whatever the earlier calls returned;
   * the success and failure lists partition those attempts.
   */
  lemma ControlFlowPartition(rs: Replies, history: seq<Call>, endpoint: string, username: string,
                             password: string, name: string, action: Action)
    requires rs.initError.None? && rs.loginError.None? && rs.names.Some?
    ensures var r := ControlFlow(rs, history, endpoint, username, password, name, action);
            var macs := Resolve(rs.names.value, name);
            r.outcome.Partition? &&
            r.calls == Prelude(endpoint, username, password) + Attempts(action, macs) &&
            Merge(r.outcome.ok, r.outcome.failed, ControlOutcomes(rs, history, rs.names.value, name)) == macs &&
            multiset(r.outcome.ok) + multiset(r.outcome.failed) == multiset(macs)
  {
    var macs := Resolve(rs.names.value, name);
    var outs := ControlOutcomes(rs, history, rs.names.value, name);
    ControlFlowCompletes(rs, history, endpoint, username, password, name, action);
    MergeSelect(macs, outs);
    PartitionCovers(macs, outs);
  }

  /**
   * The i-th address under the name lands in the success list exactly when
   * the controller accepted the i-th control call, and in the failure list
   * otherwise.
   */
  lemma ControlFlowClassifies(rs: Replies, history: seq<Call>, endpoint: string, username: string,
                              password: string, name: string, action: Action, i: int)
    requires rs.initError.None? && rs.loginError.None? && rs.names.Some?
    requires 0 <= i < |Resolve(rs.names.value, name)|
    ensures var r := ControlFlow(rs, history, endpoint, username, password, name, action);
            var mac := Resolve(rs.names.value, name)[i];
            (|history| + 3 + i !in rs.refused ==> mac in r.outcome.ok) &&
            (|history| + 3 + i in rs.refused ==> mac in r.outcome.failed)
  {
    var macs := Resolve(rs.names.value, name);
    var outs := ControlOutcomes(rs, history, rs.names.value, name);
    ControlFlowCompletes(rs, history, endpoint, username, password, name, action);
    InSelect(macs, outs, true, macs[i]);
    InSelect(macs, outs, false, macs[i]);
  }
}
