/**
 * The controller side of the middleware, seen as an oracle.
 *
 * The controller's wire protocol (initialise, login, name listing, block and
 * unblock requests) is external: `Replies` fixes what the controller answers,
 * and `Remote.calls` logs every call the middleware makes, in order, so that
 * the gating of the request flow can be stated on that log.
 */
module Controller {
  import opened Wrappers

  /** A hardware address, already normalised by the controller library. */
  type MAC = string

  /** What `GetNames` returns: each display name with the addresses registered under it. */
  type NameIndex = map<string, seq<MAC>>

  /** One record of the cached client inventory (further fields are not modelled). */
  datatype Client = Client(mac: MAC, name: string)

  datatype Action = Block | Unblock

  /** A call the middleware makes on the controller. */
  datatype Call =
    | Initialize(endpoint: string)
    | Login(username: string, password: string)
    | GetNames
    | Control(action: Action, mac: MAC)

  /** A failed login: the controller's message and the underlying error. */
  datatype LoginFailure = LoginFailure(message: string, cause: string)

  /**
   * The controller's answers. `refused` holds the positions in the
   * controller's call log at which a block or unblock call fails, so one
   * address may be refused once and accepted later.
   */
  datatype Replies = Replies(
    initError: Option<string>,
    loginError: Option<LoginFailure>,
    names: Option<NameIndex>,
    refused: set<nat>)

  /** The remote controller: fixed answers and the log of calls made on it. */
  class Remote {
    const replies: Replies
    var calls: seq<Call>

    constructor (replies: Replies)
      ensures this.replies == replies && calls == []
    {
      this.replies := replies;
      calls := [];
    }
  }

  /**
   * A controller session. A control call is only made on a session that
   * completed both Initialize and Login.
   */
  class Session {
    const endpoint: string
    const username: string
    const password: string
    const remote: Remote
    var initialized: bool
    var authenticated: bool

    constructor (endpoint: string, username: string, password: string, remote: Remote)
      ensures this.endpoint == endpoint && this.username == username && this.password == password
      ensures this.remote == remote && !initialized && !authenticated
    {
      this.endpoint := endpoint;
      this.username := username;
      this.password := password;
      this.remote := remote;
      initialized := false;
      authenticated := false;
    }

    method Initialize() returns (err: Option<string>)
      modifies this, remote
      ensures remote.calls == old(remote.calls) + [Call.Initialize(endpoint)]
      ensures err == remote.replies.initError
      ensures initialized == err.None? && authenticated == old(authenticated)
    {
      remote.calls := remote.calls + [Call.Initialize(endpoint)];
      err := remote.replies.initError;
      initialized := err.None?;
    }

    method Login() returns (failure: Option<LoginFailure>)
      requires initialized
      modifies this, remote
      ensures remote.calls == old(remote.calls) + [Call.Login(username, password)]
      ensures failure == remote.replies.loginError
      ensures authenticated == failure.None? && initialized
    {
      remote.calls := remote.calls + [Call.Login(username, password)];
      failure := remote.replies.loginError;
      authenticated := failure.None?;
    }

    method GetNames() returns (names: Option<NameIndex>)
      requires authenticated
      modifies remote
      ensures remote.calls == old(remote.calls) + [Call.GetNames]
      ensures names == remote.replies.names
    {
      remote.calls := remote.calls + [Call.GetNames];
      names := remote.replies.names;
    }

    /** Block or unblock one address; `ok` is false when the controller refuses. */
    method Apply(action: Action, mac: MAC) returns (ok: bool)
      requires authenticated
      modifies remote
      ensures remote.calls == old(remote.calls) + [Control(action, mac)]
      ensures ok <==> |old(remote.calls)| !in remote.replies.refused
    {
      ok := |remote.calls| !in remote.replies.refused;
      remote.calls := remote.calls + [Control(action, mac)];
    }
  }
}
