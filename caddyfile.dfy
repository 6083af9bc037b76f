/**
 * The `unifi_api` Caddyfile block: directives `key args...` read into the
 * four configuration strings.
 *
 * Tokenisation is not modelled: the block arrives as segments of
 * directives, one segment per occurrence of the `unifi_api` directive. The
 * library's argument check (`AllArgs` on one target) is a parameter: it
 * yields the value to store, or None when the arguments do not fit.
 */
module Caddyfile {
  import opened Wrappers

  datatype Directive = Directive(key: string, args: seq<string>)

  datatype Config = Config(baseURL: string, natsURL: string, username: string, password: string)

  datatype ParseError = ArgErr(key: string) | UnexpectedToken(token: string)

  /** The outcome of reading a block: the configuration as left, and the error that stopped it. */
  datatype Parsed = Parsed(config: Config, err: Option<ParseError>)

  type ArgCheck = seq<string> -> Option<string>

  const Keys: set<string> := {"base_url", "nats_url", "username", "password"}

  const Empty := Config("", "", "", "")

  /** The field a key writes. */
  function Field(c: Config, key: string): string
    requires key in Keys
  {
    if key == "base_url" then c.baseURL
    else if key == "nats_url" then c.natsURL
    else if key == "username" then c.username
    else c.password
  }

  function SetField(c: Config, key: string, value: string): Config
    requires key in Keys
  {
    if key == "base_url" then c.(baseURL := value)
    else if key == "nats_url" then c.(natsURL := value)
    else if key == "username" then c.(username := value)
    else c.(password := value)
  }

  /** Whether a directive is read without error. */
  predicate Accepted(d: Directive, allArgs: ArgCheck)
  {
    d.key in Keys && allArgs(d.args).Some?
  }

  /** Reads one directive. */
  function Step(c: Config, d: Directive, allArgs: ArgCheck): (r: Result<Config, ParseError>)
    ensures d.key !in Keys ==> r == Err(UnexpectedToken(d.key))
    ensures d.key in Keys && allArgs(d.args).None? ==> r == Err(ArgErr(d.key))
    ensures r.Ok? <==> Accepted(d, allArgs)
    ensures r.Ok? ==> Field(r.value, d.key) == allArgs(d.args).value
    ensures r.Ok? && d.key != "base_url" ==> r.value.baseURL == c.baseURL
    ensures r.Ok? && d.key != "nats_url" ==> r.value.natsURL == c.natsURL
    ensures r.Ok? && d.key != "username" ==> r.value.username == c.username
    ensures r.Ok? && d.key != "password" ==> r.value.password == c.password
  {
    if d.key !in Keys then Err(UnexpectedToken(d.key))
    else
      match allArgs(d.args)
      case None => Err(ArgErr(d.key))
      case Some(v) => Ok(SetField(c, d.key, v))
  }

  /**
   * Reads directives in order, stopping at the first error. An argument
   * error names a recognised key, an unexpected-token error a key that is
   * not one.
   */
  function Unmarshal(c: Config, ds: seq<Directive>, allArgs: ArgCheck): (r: Parsed)
    ensures r.err.Some? && r.err.value.ArgErr? ==> r.err.value.key in Keys
    ensures r.err.Some? && r.err.value.UnexpectedToken? ==> r.err.value.token !in Keys
  {
    if ds == [] then Parsed(c, None)
    else
      var prev := Unmarshal(c, ds[..|ds| - 1], allArgs);
      if prev.err.Some? then prev
      else
        match Step(prev.config, ds[|ds| - 1], allArgs)
        case Ok(c') => Parsed(c', None)
        case Err(e) => Parsed(prev.config, Some(e))
  }

  /** All directives of the block, segment after segment. */
  function Flatten(segments: seq<seq<Directive>>): seq<Directive>
  {
    if segments == [] then []
    else Flatten(segments[..|segments| - 1]) + segments[|segments| - 1]
  }

  lemma {:induction false} FlattenAppend(a: seq<seq<Directive>>, b: seq<seq<Directive>>)
    ensures Flatten(a + b) == Flatten(a) + Flatten(b)
  {
    if b == [] {
      assert a + b == a;
    } else {
      var n := |b| - 1;
      FlattenAppend(a, b[..n]);
      assert (a + b)[..|a + b| - 1] == a + b[..n];
      assert (a + b)[|a + b| - 1] == b[n];
    }
  }

  lemma FlattenSnoc(segments: seq<seq<Directive>>, i: nat)
    requires i < |segments|
    ensures Flatten(segments[..i + 1]) == Flatten(segments[..i]) + segments[i]
  {
    assert segments[..i + 1][..i] == segments[..i];
  }

  /** Reading one more directive after an error-free prefix. */
  lemma UnmarshalSnoc(c: Config, ds: seq<Directive>, d: Directive, allArgs: ArgCheck)
    requires Unmarshal(c, ds, allArgs).err.None?
    ensures var prev := Unmarshal(c, ds, allArgs).config;
            Unmarshal(c, ds + [d], allArgs) ==
              match Step(prev, d, allArgs)
              case Ok(next) => Parsed(next, None)
              case Err(e) => Parsed(prev, Some(e))
  {
    assert (ds + [d])[..|ds|] == ds;
  }

  /**
   * The directives up to and including directive `j` of segment `i` come
   * first in the whole block.
   */
  lemma FlattenSplit(segments: seq<seq<Directive>>, i: nat, j: nat)
    requires i < |segments| && j < |segments[i]|
    ensures Flatten(segments) == (Flatten(segments[..i]) + segments[i][..j + 1])
                                 + (segments[i][j + 1..] + Flatten(segments[i + 1..]))
  {
    assert segments == (segments[..i] + [segments[i]]) + segments[i + 1..];
    FlattenAppend(segments[..i] + [segments[i]], segments[i + 1..]);
    FlattenAppend(segments[..i], [segments[i]]);
    assert Flatten([segments[i]]) == segments[i] by {
      assert [segments[i]][..0] == [];
    }
    assert segments[i] == segments[i][..j + 1] + segments[i][j + 1..];
  }

  /** An error at directive `j` of segment `i` is the outcome of the whole block. */
  lemma StopsInSegment(c: Config, segments: seq<seq<Directive>>, i: nat, j: nat, allArgs: ArgCheck)
    requires i < |segments| && j < |segments[i]|
    requires Unmarshal(c, Flatten(segments[..i]) + segments[i][..j + 1], allArgs).err.Some?
    ensures Unmarshal(c, Flatten(segments), allArgs)
            == Unmarshal(c, Flatten(segments[..i]) + segments[i][..j + 1], allArgs)
  {
    FlattenSplit(segments, i, j);
    ErrorStops(c, Flatten(segments[..i]) + segments[i][..j + 1], segments[i][j + 1..] + Flatten(segments[i + 1..]), allArgs);
  }

  /** An accepted directive, read after an error-free prefix, writes its field and nothing else. */
  lemma StepsAt(c: Config, segments: seq<seq<Directive>>, i: nat, j: nat, allArgs: ArgCheck)
    requires i < |segments| && j < |segments[i]|
    requires Unmarshal(c, Flatten(segments[..i]) + segments[i][..j], allArgs).err.None?
    requires Accepted(segments[i][j], allArgs)
    ensures var prev := Unmarshal(c, Flatten(segments[..i]) + segments[i][..j], allArgs).config;
            var d := segments[i][j];
            Unmarshal(c, Flatten(segments[..i]) + segments[i][..j + 1], allArgs)
              == Parsed(SetField(prev, d.key, allArgs(d.args).value), None)
  {
    var done := Flatten(segments[..i]) + segments[i][..j];
    UnmarshalSnoc(c, done, segments[i][j], allArgs);
    assert segments[i][..j + 1] == segments[i][..j] + [segments[i][j]];
    assert done + [segments[i][j]] == Flatten(segments[..i]) + segments[i][..j + 1];
  }

  /**
   * A directive that is not accepted, read after an error-free prefix,
   * decides the outcome of the whole block: the error it raises, over the
   * configuration the prefix left.
   */
  lemma StopsAt(c: Config, segments: seq<seq<Directive>>, i: nat, j: nat, allArgs: ArgCheck)
    requires i < |segments| && j < |segments[i]|
    requires Unmarshal(c, Flatten(segments[..i]) + segments[i][..j], allArgs).err.None?
    requires !Accepted(segments[i][j], allArgs)
    ensures var prev := Unmarshal(c, Flatten(segments[..i]) + segments[i][..j], allArgs).config;
            Unmarshal(c, Flatten(segments), allArgs) == Parsed(prev, Some(Step(prev, segments[i][j], allArgs).error))
  {
    var done := Flatten(segments[..i]) + segments[i][..j];
    UnmarshalSnoc(c, done, segments[i][j], allArgs);
    assert segments[i][..j + 1] == segments[i][..j] + [segments[i][j]];
    assert done + [segments[i][j]] == Flatten(segments[..i]) + segments[i][..j + 1];
    StopsInSegment(c, segments, i, j, allArgs);
  }

  /** A block whose segments hold no directive returns no error and writes no field. */
  lemma EmptyBlock(c: Config, segments: seq<seq<Directive>>, allArgs: ArgCheck)
    requires forall i :: 0 <= i < |segments| ==> segments[i] == []
    ensures Unmarshal(c, Flatten(segments), allArgs) == Parsed(c, None)
  {
    FlattenEmpty(segments);
  }

  lemma {:induction false} FlattenEmpty(segments: seq<seq<Directive>>)
    requires forall i :: 0 <= i < |segments| ==> segments[i] == []
    ensures Flatten(segments) == []
  {
    if segments != [] {
      var n := |segments| - 1;
      assert forall i :: 0 <= i < n ==> segments[..n][i] == segments[i];
      FlattenEmpty(segments[..n]);
    }
  }

  /** Reading succeeds exactly when every directive is accepted. */
  lemma {:induction false} UnmarshalSucceeds(c: Config, ds: seq<Directive>, allArgs: ArgCheck)
    ensures Unmarshal(c, ds, allArgs).err.None? <==> forall i :: 0 <= i < |ds| ==> Accepted(ds[i], allArgs)
  {
    if ds != [] {
      var n := |ds| - 1;
      UnmarshalSucceeds(c, ds[..n], allArgs);
      assert forall i :: 0 <= i < n ==> ds[..n][i] == ds[i];
    }
  }

  /** Once an error is returned, later directives are not read. */
  lemma {:induction false} ErrorStops(c: Config, ds: seq<Directive>, rest: seq<Directive>, allArgs: ArgCheck)
    requires Unmarshal(c, ds, allArgs).err.Some?
    ensures Unmarshal(c, ds + rest, allArgs) == Unmarshal(c, ds, allArgs)
  {
    if rest == [] {
      assert ds + rest == ds;
    } else {
      var n := |rest| - 1;
      ErrorStops(c, ds, rest[..n], allArgs);
      assert (ds + rest)[..|ds + rest| - 1] == ds + rest[..n];
    }
  }

  /**
   * An error comes from the first directive that is not accepted; the
   * configuration is what the directives before it wrote.
   */
  lemma {:induction false} ErrorAtFirstRejected(c: Config, ds: seq<Directive>, allArgs: ArgCheck)
    requires Unmarshal(c, ds, allArgs).err.Some?
    ensures exists i :: 0 <= i < |ds| && !Accepted(ds[i], allArgs)
              && Unmarshal(c, ds[..i], allArgs) == Parsed(Unmarshal(c, ds, allArgs).config, None)
              && Step(Unmarshal(c, ds, allArgs).config, ds[i], allArgs) == Err(Unmarshal(c, ds, allArgs).err.value)
  {
    var n := |ds| - 1;
    var prev := Unmarshal(c, ds[..n], allArgs);
    if prev.err.Some? {
      ErrorAtFirstRejected(c, ds[..n], allArgs);
      var i :| 0 <= i < n && !Accepted(ds[..n][i], allArgs)
               && Unmarshal(c, ds[..n][..i], allArgs) == Parsed(prev.config, None)
               && Step(prev.config, ds[..n][i], allArgs) == Err(prev.err.value);
      assert ds[..n][..i] == ds[..i];
    }
  }

  /** The position of the last directive with `key`, or -1. */
  function LastIndex(ds: seq<Directive>, key: string): (r: int)
    ensures -1 <= r < |ds|
    ensures r >= 0 ==> ds[r].key == key && forall j :: r < j < |ds| ==> ds[j].key != key
    ensures r == -1 ==> forall j :: 0 <= j < |ds| ==> ds[j].key != key
  {
    if ds == [] then -1
    else if ds[|ds| - 1].key == key then |ds| - 1
    else LastIndex(ds[..|ds| - 1], key)
  }

  /**
   * After a block read without error, each field holds the value of the
   * last directive with its key, or its value from before when the key
   * does not occur.
   */
  lemma {:induction false} LastWins(c: Config, ds: seq<Directive>, allArgs: ArgCheck, key: string)
    requires key in Keys
    requires Unmarshal(c, ds, allArgs).err.None?
    ensures var j := LastIndex(ds, key);
            if j < 0 then Field(Unmarshal(c, ds, allArgs).config, key) == Field(c, key)
            else allArgs(ds[j].args) == Some(Field(Unmarshal(c, ds, allArgs).config, key))
  {
    if ds != [] {
      var n := |ds| - 1;
      var prev := Unmarshal(c, ds[..n], allArgs);
      assert prev.err.None?;
      LastWins(c, ds[..n], allArgs, key);
      var next := Step(prev.config, ds[n], allArgs);
      assert next.Ok? && Unmarshal(c, ds, allArgs).config == next.value;
      if ds[n].key != key {
        assert LastIndex(ds, key) == LastIndex(ds[..n], key);
        assert Field(next.value, key) == Field(prev.config, key);
      }
    }
  }
}
