# unifi-api Caddy middleware: a Dafny model

This project models the Caddy HTTP middleware `unifi_api`. The middleware
serves a small JSON API in front of a UniFi network controller:

- `GET /` answers `{}`;
- `GET /list` serves the cached client inventory;
- `PUT /block/:name` and `PUT /unblock/:name` block or unblock every
  hardware address the controller has registered under a display name;
- a request the table does not match and the router library does not
  answer itself gets the `not-found: true` header and goes on to the next
  handler in Caddy's chain. With the library's default settings, a known
  path with another method gets 405, a path off by a trailing slash gets a
  redirect, and OPTIONS on a path the table has a route for gets the
  automatic `Allow` answer; none of these goes on to the next handler.

It is configured from a Caddyfile block with the keys `base_url`,
`nats_url`, `username` and `password`.

The modules follow the program's structure:

- `Controller` is the controller seen as an oracle. `Replies` fixes its
  answers: the Initialize error, the Login failure, the name index, and the
  positions in the call log at which a block or unblock call is refused.
  `Remote.calls` logs every call the middleware makes, in order. `Session`
  is the controller session with its Initialize, Login, GetNames and
  per-address Block/Unblock calls.
- `Http` holds the request (method and path) and the response writer: a
  header map, the status line where the first write wins, and the body as
  the sequence of values written to it.
- `Bulk` is the bulk block/unblock loop as a specification. `Select` keeps
  the addresses whose call had a given outcome, and `Merge` interleaves the
  two lists back. It proves that the two lists partition the attempts.
- `Flow` is the request flow of `block` and `unblock` as a specification.
  It opens the session (Initialize, then Login), fetches the names, then
  makes one control call per address. It states which calls are made and
  how the request ends.
- `Routing` holds the route table `registerRouter` installs and the lookup
  of a request in it.
- `Caddyfile` reads a directive block into the four configuration strings.
- `Unifi` holds the `API` class: its configuration fields, logger and
  router state, `Provision`, `Validate`, `ServeHTTP`, the four handlers,
  `initSession`, `UnmarshalCaddyfile` and `parseCaddyfile`. Each of its
  methods is proved against the specification functions of the modules
  above.

Collaborators are parameters:

- the controller is a `Remote` with fixed `Replies`;
- the NATS cache read in `list` is its result, an `Option<seq<Client>>`
  where None means the read failed;
- the next handler is the error it returns;
- the argument check `AllArgs` is a function from the argument list to the
  value stored, or None when the arguments do not fit;
- httprouter's own answers for requests the table does not match are
  `libraryStatus`: Some(status) when the library answers itself, with the
  status the response ends with (405, a redirect, or 200 for the automatic
  answer to OPTIONS on a path with a route, which writes no status of its
  own), None when it calls the NotFound handler.

## Model

| member | source | states |
|---|---|---|
| Unifi.API.ServeHTTP | handler.go:16-31 | The response and the controller log after routing are what `Dispatch` gives for the route the table finds. `next` is called, and its error returned, exactly when the response then carries a non-empty `not-found` header. That happens exactly when the header was already set, or the table matched nothing and the router library did not answer itself. Otherwise the result is nil. |
| Unifi.API.RouterServeHTTP | handler.go:24 | The response and the controller log after routing are what `Dispatch` gives for the route the table finds. |
| Unifi.Dispatch | handler.go:24-45 | Serving a route: an unmatched request gets the library's own answer or only the `not-found: true` header. Index, list and unmatched requests make no controller call. The `not-found` header ends up non-empty exactly when it already was, or the table matched nothing and the library did not answer itself. |
| Unifi.UnmatchedResponse | handler.go:40-42 | The NotFound handler only sets header `not-found: true`: no status and no body. |
| Unifi.API.RegisterRouter | handler.go:33-45 | Installs exactly the four-route table and changes no configuration field. |
| Routing.MatchPath | handler.go:35-38 | A fixed route matches only its own path. A `:name` route matches exactly the paths made of its prefix and one non-empty segment without `/`, and yields that segment. |
| Routing.Lookup | handler.go:33-45 | Finds an entry whose method and path pattern match the request, and yields that entry's handler and parameter. NotFound holds exactly when no entry matches. |
| Routing.LookupTable | handler.go:35-38 | Lookup in the installed table, written out route by route in registration order. |
| Routing.NamedMatch | handler.go:37-38 | A `:name` route yields `name` exactly for the path prefix + `name`, with `name` one segment. |
| Routing.TablePathsDistinct | handler.go:35-38 | No path matches two routes of the table. |
| Routing.TableRoutes | handler.go:33-45 | The table routes GET `/` to index, GET `/list` to list, PUT `/block/:name` to block and PUT `/unblock/:name` to unblock, each in both directions of the iff. |
| Unifi.API.ServeIndex | handler.go:47-50 | Sets the JSON content type and writes `{}`. |
| Unifi.API.ServeList | handler.go:52-73 | Writes status 500 and no body when the cache read fails, else the JSON inventory. It touches no controller session. |
| Unifi.ListResponse | handler.go:52-73 | 500 on a failed cache read, else content type JSON and the inventory. The `not-found` header is left as it was. |
| Unifi.JsonResponse | handler.go:48-49 | Content type `application/json`, then the payload appended to the body. |
| Unifi.ControlResponse | handler.go:76-117 | 500 and no body on a session or names failure, else the JSON report of the two lists. |
| Unifi.API.ServeBlock | handler.go:75-117 | The controller log grows by exactly the calls `ControlFlow` gives for Block, and the response is the matching report or 500. |
| Unifi.API.ServeUnblock | handler.go:119-161 | The same as ServeBlock, with Unblock calls and the `unblocked`/`not_unblocked` report. |
| Unifi.API.ServeControl | handler.go:75-117 | The shared body of block and unblock. It opens a session, fetches the names, tries every address under the name, then writes the report. A failed step writes 500 and makes no later call. |
| Unifi.ApplyNamed | handler.go:95-107 | Tries every address registered under the name, as ApplyEach does. An unknown name makes no controller call and leaves both lists empty. |
| Unifi.ApplyEach | handler.go:95-106 | Tries every address once, in order: the log grows by exactly one control call per address. The success and failure lists are the addresses whose call was accepted or refused, in input order. A refusal does not stop the loop. |
| Unifi.API.InitSession | handler.go:163-192 | The calls made and the error are those of `OpenSession`. A session comes back, authenticated and on this controller, exactly when there is no error. |
| Flow.OpenSession | handler.go:163-192 | Initialize is always called. Login is called exactly when Initialize succeeded. There is no error exactly when both succeed. The error is Initialize's own error, or the Login failure with its message. |
| Flow.SessionError.Text | handler.go:188 | The Login error text is the controller message, then `": "`, then the cause. |
| Flow.SessionError.Unwrap | handler.go:188 | For a Login failure, the error text is the controller message and `": "` followed by the wrapped error, as `%w` keeps it. |
| Flow.LoginErrorWraps | handler.go:180-188 | A Login failure after a successful Initialize returns an error whose unwrapped error is the controller's cause, and whose text is the message, `": "` and the cause. |
| Flow.Resolve | handler.go:95 | The addresses registered under the name, or none when the name is absent. |
| Flow.ControlFlow | handler.go:75-161 | The request ends in a server error exactly when Initialize, Login or GetNames fails. A session failure makes only the session calls. A names failure makes only the three prelude calls. An unknown name makes no control call and gives two empty lists. |
| Flow.ControlOnlyAfterPrelude | handler.go:76-97 | Every block or unblock call comes after Initialize, Login and GetNames, in that order, and is for the requested action. |
| Flow.ControlFlowPartition | handler.go:95-106 | Every address under the name is attempted whatever earlier calls returned. Merging the two lists by the outcomes gives back the address list, and together the two lists hold each address as often as it was tried. |
| Flow.ControlFlowClassifies | handler.go:97-105 | The i-th address lands in the success list when the controller accepted the i-th control call, and in the failure list when it refused it. |
| Bulk.CountSplit | handler.go:97-105 | Every attempt is counted as either a success or a failure, never both. |
| Bulk.Select | handler.go:93-106 | The list for one outcome has exactly as many entries as there are attempts with that outcome. |
| Bulk.Merge | handler.go:93-106 | The interleaving has one entry per attempt and holds exactly the entries of both lists. |
| Bulk.MergeSelect | handler.go:95-106 | Merging the success and failure lists by the outcomes gives back the input, so nothing is lost, added or reordered. |
| Bulk.SelectMerge | handler.go:95-106 | Splitting an interleaving by its outcomes gives back both lists. |
| Bulk.PartitionCovers | handler.go:95-106 | The two lists together hold every address as often as it appears in the input, and their lengths add up to the input length. |
| Bulk.InSelect | handler.go:97-105 | An address is in the list for an outcome exactly when some attempt on it had that outcome. |
| Bulk.Disjoint | handler.go:97-105 | For distinct addresses, no address is in both lists. |
| Controller.Session.Initialize | handler.go:170 | Logs one Initialize call for the endpoint, returns the controller's answer, and marks the session initialised exactly on success. |
| Controller.Session.Login | handler.go:180 | Logs one Login call with the credentials. The session is authenticated exactly when the controller accepts. |
| Controller.Session.GetNames | handler.go:83 | Logs one GetNames call and returns the controller's name index, or None on failure. |
| Controller.Session.Apply | handler.go:97 | Logs one block or unblock call. The result is true exactly when the controller does not refuse the call at that log position. |
| Http.WithHeader | handler.go:41 | Setting a header changes only that key, not the status or the body. |
| Http.WithStatus | handler.go:60 | Only the first status written is kept. |
| Http.WithBody | handler.go:49 | Writing a body appends it and commits status 200 if no status was written. |
| Unifi.API.UnmarshalCaddyfile | plugin.go:37-68 | The fields and the error are those of `Caddyfile.Unmarshal` over the flattened block, starting from the fields as they were. The logger and router are unchanged. |
| Unifi.API.Store | plugin.go:41-58 | A recognised key writes its own field only. |
| Caddyfile.Step | plugin.go:40-62 | An unknown key gives an unexpected-token error. A recognised key whose argument check fails gives an argument error. Otherwise the directive's own field takes the checked value and the other three fields are unchanged. |
| Caddyfile.Unmarshal | plugin.go:38-67 | Reads the directives in order and stops at the first error. An argument error names a recognised key, and an unexpected-token error names a key that is not recognised. |
| Caddyfile.UnmarshalSucceeds | plugin.go:38-67 | A block reads without error exactly when every directive has a recognised key and passes the argument check. |
| Caddyfile.ErrorStops | plugin.go:42-62 | Once an error is returned, later directives change nothing. |
| Caddyfile.ErrorAtFirstRejected | plugin.go:38-62 | An error comes from the first directive that is not accepted. The fields are what the directives before it wrote, so fields set before an error stay set. |
| Caddyfile.StopsAt | plugin.go:38-62 | A rejected directive after an error-free prefix decides the outcome of the whole block. |
| Caddyfile.StepsAt | plugin.go:41-58 | An accepted directive after an error-free prefix writes its own field. |
| Caddyfile.LastWins | plugin.go:38-60 | After an error-free block, each field holds the value of the last directive with its key, or its old value when the key does not occur. |
| Caddyfile.LastIndex | plugin.go:38-60 | The position of the last directive with a key: that directive has the key and none after it does. -1 means no directive has it. |
| Caddyfile.EmptyBlock | plugin.go:38-67 | An empty block returns no error and leaves every field unchanged. |
| Unifi.ParseCaddyfile | plugin.go:86-91 | Returns a fresh API with no logger and no router, together with the error. Its fields are what the block wrote before any error. |
| Unifi.API.constructor | plugin.go:88 | The zero API: empty fields, no logger, no router. |
| Unifi.API.Provision | plugin.go:70-76 | Sets the logger and installs the route table without touching the configuration. After it, Validate reports no error. |
| Unifi.API.Validate | plugin.go:78-84 | An error exactly when no logger is set. |

## Left out

- JSON encoding, and the encode-failure path of `list`, `block` and
  `unblock` (handler.go:66-72, 110-116). The body is the value handed to
  the encoder. So the model does not show that Go encodes an empty (nil)
  list as `null`, not `[]`.
- The NATS subscriber and its bucket and key lookup in `list`. The cache
  read is a parameter.
- The controller's wire protocol. `Replies` fixes its answers, and the
  middleware is modelled only up to the calls it makes and the answers it
  gets.
- httprouter internals: 405 Method Not Allowed, trailing-slash and
  clean-path redirects, and automatic OPTIONS answers. They are the
  `libraryStatus` parameter. The model does not claim that a request for a
  known path with another method falls through to the next handler; with
  the library's default settings it gets a 405 instead.
- The headers and bodies the router library writes when it answers itself
  (`Allow`, `Location`, the 405 error text). Only the final status is kept.
- Flow.SessionError.Unwrap: Initialize's error is returned unwrapped, so
  what `errors.Unwrap` finds inside it belongs to the controller library and
  is not modelled.
- Header key canonicalisation: header keys are used in the lower-case
  spelling the source writes.
- The next handler's own writes to the response. `next` is modelled only by
  the error it returns.
- The Caddyfile Dispenser's tokenisation. The block arrives as segments of
  directives, one per occurrence of the `unifi_api` directive.
- AllArgs: when the argument count does not fit, the library may have
  written part of the target. The model leaves the field unchanged on
  failure.
- The text of the parse errors: the library's ArgErr message, and the
  `unexepected token %q` message with Go's quoting. The model keeps the
  error kind and the offending key.
- zap logging, module registration (`init`, `CaddyModule`) and the logger
  itself. Only whether a logger is set is kept.
- Concurrent requests: each request is modelled on its own.
- Unifi.API.ServeHTTP: it requires a provisioned API (router installed,
  logger set). Caddy calls Provision and Validate before serving, and the
  source dereferences both.
