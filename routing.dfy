/**
 * The route table the middleware registers, and how a request is looked up
 * in it. `:name` in a route stands for one non-empty path segment.
 */
module Routing {
  import opened Wrappers
  import opened Http

  datatype Handler = Index | List | Block | Unblock

  /** A route path: a fixed path, or a prefix followed by the `:name` parameter. */
  datatype Pattern = Exact(path: string) | Named(prefix: string)

  datatype Entry = Entry(verb: string, pattern: Pattern, handler: Handler)

  /** A lookup result; `name` is the `:name` parameter, empty for a fixed path. */
  datatype Route = Found(handler: Handler, name: string) | NotFound

  /** The routes `registerRouter` installs. */
  const Table: seq<Entry> := [
    Entry("GET", Exact("/"), Index),
    Entry("GET", Exact("/list"), List),
    Entry("PUT", Named("/block/"), Block),
    Entry("PUT", Named("/unblock/"), Unblock)
  ]

  /** What one path segment may hold. */
  predicate IsSegment(name: string)
  {
    name != "" && '/' !in name
  }

  /** Matches a path against a pattern, yielding the `:name` parameter. */
  function MatchPath(p: Pattern, path: string): (r: Option<string>)
    ensures p.Exact? ==> (r.Some? <==> path == p.path) && (r.Some? ==> r.value == "")
    ensures p.Named? ==> (r.Some? <==> exists name :: path == p.prefix + name && IsSegment(name))
    ensures p.Named? && r.Some? ==> path == p.prefix + r.value && IsSegment(r.value)
  {
    match p
    case Exact(q) => if path == q then Some("") else None
    case Named(prefix) =>
      if |prefix| < |path| && path[..|prefix|] == prefix && IsSegment(path[|prefix|..]) then
        assert path == prefix + path[|prefix|..];
        Some(path[|prefix|..])
      else
        assert forall name :: path == prefix + name ==> path[..|prefix|] == prefix && path[|prefix|..] == name;
        None
  }

  /** The first entry of `table` whose verb and pattern match the request. */
  function Lookup(table: seq<Entry>, req: Request): (r: Route)
    ensures r.Found? ==> exists i :: 0 <= i < |table| && table[i].verb == req.verb && table[i].handler == r.handler
                                     && MatchPath(table[i].pattern, req.path) == Some(r.name)
    ensures r.NotFound? <==> forall i :: 0 <= i < |table| ==>
                               table[i].verb != req.verb || MatchPath(table[i].pattern, req.path).None?
  {
    if table == [] then NotFound
    else
      var m := MatchPath(table[0].pattern, req.path);
      if table[0].verb == req.verb && m.Some? then Found(table[0].handler, m.value)
      else
        var r := Lookup(table[1..], req);
        assert forall i :: 1 <= i < |table| ==> table[i] == table[1..][i - 1];
        r
  }

  /** Looking a request up in `Table`, entry by entry. */
  lemma LookupTable(req: Request)
    ensures Lookup(Table, req) ==
      if req.verb == "GET" && req.path == "/" then Found(Index, "")
      else if req.verb == "GET" && req.path == "/list" then Found(List, "")
      else if req.verb == "PUT" && MatchPath(Named("/block/"), req.path).Some? then
        Found(Block, MatchPath(Named("/block/"), req.path).value)
      else if req.verb == "PUT" && MatchPath(Named("/unblock/"), req.path).Some? then
        Found(Unblock, MatchPath(Named("/unblock/"), req.path).value)
      else NotFound
  {
    var t3 := [Entry("PUT", Named("/unblock/"), Unblock)];
    var t2 := [Entry("PUT", Named("/block/"), Block)] + t3;
    var t1 := [Entry("GET", Exact("/list"), List)] + t2;
    assert Table[1..] == t1 && t1[1..] == t2 && t2[1..] == t3 && t3[1..] == [];
    assert Lookup(t3, req) == if req.verb == "PUT" && MatchPath(Named("/unblock/"), req.path).Some? then
        Found(Unblock, MatchPath(Named("/unblock/"), req.path).value) else Lookup([], req);
    assert Lookup(t2, req) == if req.verb == "PUT" && MatchPath(Named("/block/"), req.path).Some? then
        Found(Block, MatchPath(Named("/block/"), req.path).value) else Lookup(t3, req);
    assert Lookup(t1, req) == if req.verb == "GET" && req.path == "/list" then Found(List, "") else Lookup(t2, req);
    assert Lookup(Table, req) == if req.verb == "GET" && req.path == "/" then Found(Index, "") else Lookup(t1, req);
  }

  /** A parameter route yields exactly the segment after its prefix. */
  lemma NamedMatch(prefix: string, path: string, name: string)
    ensures MatchPath(Named(prefix), path) == Some(name) <==> path == prefix + name && IsSegment(name)
  {
    if path == prefix + name {
      assert path[|prefix|..] == name;
    }
  }

  /** No path is matched by two routes of the table. */
  lemma TablePathsDistinct(path: string)
    ensures MatchPath(Named("/block/"), path).Some? ==> path != "/" && path != "/list" && MatchPath(Named("/unblock/"), path).None?
    ensures MatchPath(Named("/unblock/"), path).Some? ==> path != "/" && path != "/list"
  {
    if MatchPath(Named("/block/"), path).Some? {
      assert path[1] == 'b';
    }
    if MatchPath(Named("/unblock/"), path).Some? {
      assert path[1] == 'u';
    }
  }

  /**
   * The four routes of the table: GET `/`, GET `/list`, PUT `/block/:name`
   * and PUT `/unblock/:name`; every other request is not found by the table.
   */
  lemma TableRoutes(req: Request, name: string)
    ensures Lookup(Table, req) == Found(Index, "") <==> req == Request("GET", "/")
    ensures Lookup(Table, req) == Found(List, "") <==> req == Request("GET", "/list")
    ensures Lookup(Table, req) == Found(Block, name) <==> req == Request("PUT", "/block/" + name) && IsSegment(name)
    ensures Lookup(Table, req) == Found(Unblock, name) <==> req == Request("PUT", "/unblock/" + name) && IsSegment(name)
  {
    LookupTable(req);
    TablePathsDistinct(req.path);
    NamedMatch("/block/", req.path, name);
    NamedMatch("/unblock/", req.path, name);
  }
}
