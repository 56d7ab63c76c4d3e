/** Server URLs of the generated client (`configuration.go`). */
module ServerUrl {
  import opened Wrappers
  import opened Templates
  import opened SubstitutionOrder
  import opened OrderMatters
  import opened BracedNames

  datatype Error =
    | IndexOutOfRange(index: int, last: int)
    | InvalidValue(name: string, value: string, allowed: seq<string>)
    | WrongType(key: string)

  datatype ServerVariable = ServerVariable(description: string, defaultValue: string, enumValues: seq<string>)

  datatype ServerConfiguration = ServerConfiguration(
    url: string, description: string, variables: map<string, ServerVariable>)

  // ---------------------------------------------------------------- URL

  /** The value each declared variable gets: the caller's, else the default. */
  function Chosen(server: ServerConfiguration, variables: map<string, string>): map<string, string> {
    map name | name in server.variables ::
      if name in variables then variables[name] else server.variables[name].defaultValue
  }

  /** The caller supplies this declared variable with a value outside its non-empty enumeration. */
  predicate Rejected(server: ServerConfiguration, variables: map<string, string>, name: string) {
    && name in server.variables && name in variables
    && server.variables[name].enumValues != []
    && variables[name] !in server.variables[name].enumValues
  }

  predicate SomeRejected(server: ServerConfiguration, variables: map<string, string>) {
    exists name :: name in server.variables && Rejected(server, variables, name)
  }

  predicate InRange(sc: seq<ServerConfiguration>, index: int) { 0 <= index < |sc| }

  /** What the URL depends on is free of the cases in which the traversal order shows. */
  predicate WellFormed(server: ServerConfiguration, variables: map<string, string>) {
    NoNestedBraces(server.url) && HarmlessMap(Chosen(server, variables))
  }

  /** The result of replacing the declared variables in some order. */
  ghost predicate FoldedSomehow(server: ServerConfiguration, variables: map<string, string>, url: string) {
    exists order ::
      && Enumerates(order, server.variables.Keys)
      && Enumerates(order, Chosen(server, variables).Keys)
      && url == Fold(server.url, order, Chosen(server, variables))
  }

  /** A placeholder of a declared variable gives way to the caller's value, without one to the default; any
      other text stays. */
  function Filled(t: Token, server: ServerConfiguration, variables: map<string, string>): string {
    match t
    case Lit(c) => [c]
    case Hole(n) =>
      if n !in server.variables then "{" + n + "}"
      else if n in variables then variables[n]
      else server.variables[n].defaultValue
  }

  function FilledAll(ts: seq<Token>, server: ServerConfiguration, variables: map<string, string>): string {
    if ts == [] then "" else Filled(ts[0], server, variables) + FilledAll(ts[1..], server, variables)
  }

  lemma {:induction false} SubstFills(ts: seq<Token>, server: ServerConfiguration, variables: map<string, string>)
    ensures Flatten(Subst(ts, Chosen(server, variables))) == FilledAll(ts, server, variables)
    decreases ts
  {
    if ts != [] {
      var m := Chosen(server, variables);
      SubstFills(ts[1..], server, variables);
      var head := if ts[0].Hole? && ts[0].name in m then Lits(m[ts[0].name]) else [ts[0]];
      FlattenConcat(head, Subst(ts[1..], m));
      if ts[0].Hole? && ts[0].name in m {
        FlattenLits(m[ts[0].name]);
      } else {
        FlattenCons(ts[0], []);
        assert [ts[0]] + [] == [ts[0]];
      }
    }
  }

  /** `url` is the outcome the documentation promises: all variables replaced at once, none left. */
  predicate Simultaneous(server: ServerConfiguration, variables: map<string, string>, url: string) {
    && url == FilledAll(Scan(server.url), server, variables)
    && forall name :: name in server.variables ==> !ContainsPlaceholder(url, name)
  }

  lemma FoldedIsSimultaneous(server: ServerConfiguration, variables: map<string, string>, url: string)
    requires WellFormed(server, variables) && FoldedSomehow(server, variables, url)
    ensures Simultaneous(server, variables, url)
  {
    var m := Chosen(server, variables);
    var order :| Enumerates(order, server.variables.Keys) && Enumerates(order, m.Keys)
                 && url == Fold(server.url, order, m);
    HarmlessIsSimultaneous(server.url, order, m);
    SubstFills(Scan(server.url), server, variables);
    forall name | name in server.variables
      ensures !ContainsPlaceholder(url, name)
    {
      HarmlessLeavesNone(server.url, order, m, name);
    }
  }

  /** What `URL` promises: an error for an index out of range or for a supplied value outside its variable's
      non-empty enumeration, and which; else the replacements in some order, which under the side
      conditions are all at once and leave nothing. */
  ghost predicate UrlOutcome(sc: seq<ServerConfiguration>, index: int, variables: map<string, string>, r: Result<string, Error>) {
    if !InRange(sc, index) then r == Err(IndexOutOfRange(index, |sc| - 1))
    else if SomeRejected(sc[index], variables) then
      exists name :: Rejected(sc[index], variables, name)
        && r == Err(InvalidValue(name, variables[name], sc[index].variables[name].enumValues))
    else
      && r.Ok?
      && FoldedSomehow(sc[index], variables, r.value)
      && (WellFormed(sc[index], variables) ==> Simultaneous(sc[index], variables, r.value))
  }

  /** `ServerConfigurations.URL`.  The order in which the map is traversed is arbitrary. */
  method URL(sc: seq<ServerConfiguration>, index: int, variables: map<string, string>) returns (r: Result<string, Error>)
    ensures UrlOutcome(sc, index, variables, r)
  {
    if index < 0 || |sc| <= index {
      return Err(IndexOutOfRange(index, |sc| - 1));
    }
    var server := sc[index];
    var url := server.url;
    var todo := server.variables.Keys;
    ghost var done: seq<string> := [];
    ghost var m := Chosen(server, variables);
    while todo != {}
      invariant todo <= server.variables.Keys
      invariant Enumerates(done, server.variables.Keys - todo)
      invariant forall k :: k in done ==> k in m
      invariant url == Fold(server.url, done, m)
      invariant forall k :: k in server.variables && k !in todo ==> !Rejected(server, variables, k)
      decreases todo
    {
      var name :| name in todo;
      var variable := server.variables[name];
      FoldSnoc(server.url, done, name, m);
      EnumeratesMore(done, server.variables.Keys - todo, name);
      if name in variables {
        var value := variables[name];
        var found := |variable.enumValues| == 0;
        for i := 0 to |variable.enumValues|
          invariant found <==> |variable.enumValues| == 0 || value in variable.enumValues[..i]
        {
          if value == variable.enumValues[i] {
            found := true;
          }
        }
        assert variable.enumValues[..|variable.enumValues|] == variable.enumValues;
        if !found {
          assert Rejected(server, variables, name);
          return Err(InvalidValue(name, value, variable.enumValues));
        }
        url := ReplaceAll(url, Placeholder(name), value);
      } else {
        url := ReplaceAll(url, Placeholder(name), variable.defaultValue);
      }
      assert server.variables.Keys - (todo - {name}) == (server.variables.Keys - todo) + {name};
      todo, done := todo - {name}, done + [name];
    }
    assert server.variables.Keys - todo == server.variables.Keys == m.Keys;
    assert FoldedSomehow(server, variables, url);
    if WellFormed(server, variables) {
      FoldedIsSimultaneous(server, variables, url);
    }
    return Ok(url);
  }

  /** The text before a placeholder, the value that takes its place, and the text after it. */
  lemma {:induction false} FilledAround(ts: seq<Token>, us: seq<Token>, server: ServerConfiguration, variables: map<string, string>)
    ensures FilledAll(ts + us, server, variables) == FilledAll(ts, server, variables) + FilledAll(us, server, variables)
    decreases ts
  {
    if ts == [] {
      assert ts + us == us;
    } else {
      assert (ts + us)[1..] == ts[1..] + us;
      FilledAround(ts[1..], us, server, variables);
    }
  }

  lemma FilledMiddle(ts: seq<Token>, t: Token, us: seq<Token>, server: ServerConfiguration, variables: map<string, string>)
    ensures FilledAll(ts + [t] + us, server, variables)
         == FilledAll(ts, server, variables) + Filled(t, server, variables) + FilledAll(us, server, variables)
  {
    FilledAround(ts + [t], us, server, variables);
    FilledAround(ts, [t], server, variables);
    FilledOne(t, server, variables);
  }

  lemma FilledOne(t: Token, server: ServerConfiguration, variables: map<string, string>)
    ensures FilledAll([t], server, variables) == Filled(t, server, variables)
  {
    var s := Filled(t, server, variables);
    assert [t][1..] == [];
    assert FilledAll([t], server, variables) == s + "" == s;
  }

  /** Wherever a declared variable stands in the URL, there the result has the caller's value if there is
      one, and else the default. */
  lemma EveryPlaceholderFilled(server: ServerConfiguration, variables: map<string, string>, url: string,
                               ts: seq<Token>, n: string, us: seq<Token>)
    requires Simultaneous(server, variables, url)
    requires Scan(server.url) == ts + [Hole(n)] + us && n in server.variables
    ensures url == FilledAll(ts, server, variables)
                   + (if n in variables then variables[n] else server.variables[n].defaultValue)
                   + FilledAll(us, server, variables)
  {
    FilledMiddle(ts, Hole(n), us, server, variables);
  }

  lemma ReplaceOnce(p: string, n: string, q: string, v: string)
    requires BraceFree(p) && BraceFree(n) && BraceFree(q)
    ensures ReplaceAll(p + Placeholder(n) + q, Placeholder(n), v) == p + v + q
  {
    var old_ := Placeholder(n);
    assert p + old_ + q == p + (old_ + q);
    ReplaceSkips(p, old_ + q, old_, v);
    assert (old_ + q)[..|old_|] == old_ && (old_ + q)[|old_|..] == q;
    assert q + "" == q;
    ReplaceSkips(q, "", old_, v);
    ReplaceShort("", old_, v);
  }

  lemma OrderOfOne(order: seq<string>, n: string)
    requires Enumerates(order, {n})
    ensures order == [n]
  {
    assert n in order;
    var k := if |order| > 1 then 1 else 0;
    assert order[0] in order && order[k] in order;
    assert order[0] == n && order[k] == n;
  }

  lemma FoldOfOne(server: ServerConfiguration, variables: map<string, string>, url: string, p: string, n: string, q: string)
    requires BraceFree(p) && BraceFree(n) && BraceFree(q)
    requires server.url == p + Placeholder(n) + q && server.variables.Keys == {n}
    requires FoldedSomehow(server, variables, url)
    ensures url == p + (if n in variables then variables[n] else server.variables[n].defaultValue) + q
  {
    var m := Chosen(server, variables);
    var order :| Enumerates(order, server.variables.Keys) && Enumerates(order, m.Keys) && url == Fold(server.url, order, m);
    OrderOfOne(order, n);
    assert n in server.variables && n in m;
    FoldSnoc(server.url, [], n, m);
    assert [] + [n] == [n];
    ReplaceOnce(p, n, q, m[n]);
  }

  /** Spelled out for a URL with one variable, whatever its value: `https://{r}.io` gives `https://eu.io` for
      the value `eu`, with the default if there is no value, and the error if the value is not allowed. */
  lemma OneVariable(server: ServerConfiguration, variables: map<string, string>, r: Result<string, Error>, p: string, n: string, q: string)
    requires BraceFree(p) && BraceFree(n) && BraceFree(q)
    requires server.url == p + "{" + n + "}" + q && server.variables.Keys == {n}
    requires UrlOutcome([server], 0, variables, r)
    ensures var allowed := server.variables[n].enumValues;
      r == if n !in variables then Ok(p + server.variables[n].defaultValue + q)
           else if |allowed| == 0 || variables[n] in allowed then Ok(p + variables[n] + q)
           else Err(InvalidValue(n, variables[n], allowed))
  {
    assert [server][0] == server;
    assert n in server.variables.Keys && forall k :: k in server.variables ==> k == n;
    if SomeRejected(server, variables) {
      assert Rejected(server, variables, n);
    } else {
      assert !Rejected(server, variables, n);
      assert server.url == p + Placeholder(n) + q;
      FoldOfOne(server, variables, r.value, p, n, q);
    }
  }

  /** Two traversals of the same variables give the same URL. */
  lemma UrlIndependentOfOrder(server: ServerConfiguration, variables: map<string, string>, a: string, b: string)
    requires WellFormed(server, variables)
    requires FoldedSomehow(server, variables, a) && FoldedSomehow(server, variables, b)
    ensures a == b
  {
    FoldedIsSimultaneous(server, variables, a);
    FoldedIsSimultaneous(server, variables, b);
  }

  /** Without the condition on the template the outcome does depend on the traversal order: for every
      template with nested braces there are variables for which two different URLs are possible. */
  lemma NestedUrlIsAmbiguous(url: string) returns (server: ServerConfiguration, a: string, b: string)
    requires !NoNestedBraces(url)
    ensures server.url == url && BraceFreeMap(Chosen(server, map[]))
    ensures FoldedSomehow(server, map[], a) && FoldedSomehow(server, map[], b) && a != b
  {
    var m, o1, o2 := NestedBracesMatter(url);
    server := ServerConfiguration(url, "", map k | k in m :: ServerVariable("", m[k], []));
    assert Chosen(server, map[]) == m;
    assert server.variables.Keys == m.Keys;
    a, b := Fold(url, o1, m), Fold(url, o2, m);
  }

  // ---------------------------------------------------------------- lookups in the context

  /** The dynamic type of a context value; `Other` stands for every type the client does not expect. */
  datatype CtxValue =
    | Index(index: int)
    | Indices(indices: map<string, int>)
    | Variables(variables: map<string, string>)
    | OperationVariables(operations: map<string, map<string, string>>)
    | Other

  datatype Context = Context(
    serverIndex: Option<CtxValue>, operationIndices: Option<CtxValue>,
    serverVariables: Option<CtxValue>, operationVariables: Option<CtxValue>)

  datatype Configuration = Configuration(
    servers: seq<ServerConfiguration>, operationServers: map<string, seq<ServerConfiguration>>)

  function GetServerIndex(ctx: Context): Result<int, Error> {
    if ctx.serverIndex.None? then Ok(0)
    else if ctx.serverIndex.value.Index? then Ok(ctx.serverIndex.value.index)
    else Err(WrongType("serverIndex"))
  }

  function GetServerOperationIndex(ctx: Context, endpoint: string): Result<int, Error> {
    if ctx.operationIndices.None? then GetServerIndex(ctx)
    else if !ctx.operationIndices.value.Indices? then Err(WrongType("serverOperationIndices"))
    else if endpoint in ctx.operationIndices.value.indices then Ok(ctx.operationIndices.value.indices[endpoint])
    else GetServerIndex(ctx)
  }

  /** No variables (a nil map) read like an empty map. */
  function GetServerVariables(ctx: Context): Result<map<string, string>, Error> {
    if ctx.serverVariables.None? then Ok(map[])
    else if ctx.serverVariables.value.Variables? then Ok(ctx.serverVariables.value.variables)
    else Err(WrongType("serverVariables"))
  }

  function GetServerOperationVariables(ctx: Context, endpoint: string): Result<map<string, string>, Error> {
    if ctx.operationVariables.None? then GetServerVariables(ctx)
    else if !ctx.operationVariables.value.OperationVariables? then Err(WrongType("serverOperationVariables"))
    else if endpoint in ctx.operationVariables.value.operations then
      Ok(ctx.operationVariables.value.operations[endpoint])
    else GetServerVariables(ctx)
  }

  // ---------------------------------------------------------------- the declarative reading

  predicate Present(v: Option<CtxValue>) { v.Some? }

  /** The operation has an index of its own. */
  predicate OwnIndex(ctx: Context, endpoint: string) {
    Present(ctx.operationIndices) && ctx.operationIndices.value.Indices?
    && endpoint in ctx.operationIndices.value.indices
  }

  predicate OwnVariables(ctx: Context, endpoint: string) {
    Present(ctx.operationVariables) && ctx.operationVariables.value.OperationVariables?
    && endpoint in ctx.operationVariables.value.operations
  }

  /** Some context value that the lookup consults has the wrong type. */
  predicate Mistyped(ctx: Context, endpoint: string) {
    || (Present(ctx.operationIndices) && !ctx.operationIndices.value.Indices?)
    || (!OwnIndex(ctx, endpoint) && Present(ctx.serverIndex) && !ctx.serverIndex.value.Index?)
    || (Present(ctx.operationVariables) && !ctx.operationVariables.value.OperationVariables?)
    || (!OwnVariables(ctx, endpoint) && Present(ctx.serverVariables) && !ctx.serverVariables.value.Variables?)
  }

  /** `i` is the index to use: the operation's own, else the global one, else 0. */
  predicate IndexToUse(ctx: Option<Context>, endpoint: string, i: int) {
    if ctx.None? then i == 0
    else if OwnIndex(ctx.value, endpoint) then i == ctx.value.operationIndices.value.indices[endpoint]
    else if Present(ctx.value.serverIndex) then ctx.value.serverIndex.value == Index(i)
    else i == 0
  }

  /** `vs` are the variables to use: the operation's own, else the global ones, else none. */
  predicate VariablesToUse(ctx: Option<Context>, endpoint: string, vs: map<string, string>) {
    if ctx.None? then vs == map[]
    else if OwnVariables(ctx.value, endpoint) then vs == ctx.value.operationVariables.value.operations[endpoint]
    else if Present(ctx.value.serverVariables) then ctx.value.serverVariables.value == Variables(vs)
    else vs == map[]
  }

  predicate ServersToUse(cfg: Configuration, endpoint: string, sc: seq<ServerConfiguration>) {
    if endpoint in cfg.operationServers then sc == cfg.operationServers[endpoint] else sc == cfg.servers
  }

  predicate SomeMistyped(ctx: Option<Context>, endpoint: string) { ctx.Some? && Mistyped(ctx.value, endpoint) }

  /** The declarative reading as a whole. */
  predicate ToUse(cfg: Configuration, ctx: Option<Context>, endpoint: string,
                  sc: seq<ServerConfiguration>, i: int, vs: map<string, string>) {
    ServersToUse(cfg, endpoint, sc) && IndexToUse(ctx, endpoint, i) && VariablesToUse(ctx, endpoint, vs)
  }

  /** Each lookup fails exactly when a value it consults is mistyped, and else finds what is to be used. */
  lemma LookupsRefine(ctx: Context, endpoint: string)
    ensures var i, vs := GetServerOperationIndex(ctx, endpoint), GetServerOperationVariables(ctx, endpoint);
      && (i.Err? || vs.Err? <==> Mistyped(ctx, endpoint))
      && (i.Ok? ==> IndexToUse(Some(ctx), endpoint, i.value))
      && (vs.Ok? ==> VariablesToUse(Some(ctx), endpoint, vs.value))
  {
  }

  /** If nothing is mistyped there is something to use ... */
  lemma LookupsFind(cfg: Configuration, ctx: Option<Context>, endpoint: string)
      returns (sc: seq<ServerConfiguration>, i: int, vs: map<string, string>)
    requires !SomeMistyped(ctx, endpoint)
    ensures ToUse(cfg, ctx, endpoint, sc, i, vs)
  {
    sc, i, vs := if endpoint in cfg.operationServers then cfg.operationServers[endpoint] else cfg.servers, 0, map[];
    if ctx.Some? {
      LookupsRefine(ctx.value, endpoint);
      i := GetServerOperationIndex(ctx.value, endpoint).value;
      vs := GetServerOperationVariables(ctx.value, endpoint).value;
    }
  }

  /** ... and only one thing. */
  lemma LookupsUnique(cfg: Configuration, ctx: Option<Context>, endpoint: string,
                      sc: seq<ServerConfiguration>, i: int, vs: map<string, string>,
                      sc': seq<ServerConfiguration>, j: int, ws: map<string, string>)
    requires ToUse(cfg, ctx, endpoint, sc, i, vs) && ToUse(cfg, ctx, endpoint, sc', j, ws)
    ensures sc == sc' && i == j && vs == ws
  {
  }

  /** The reading spelled out: without values in the context index 0 and no variables, with global ones those,
      with the operation's own ones those, whatever the global ones are. */
  lemma ReadingSpelledOut(cfg: Configuration, endpoint: string, other: string, i: int, j: int,
                          vs: map<string, string>, ws: map<string, string>, g: Option<CtxValue>, h: Option<CtxValue>)
    requires other != endpoint
    ensures var sc := if endpoint in cfg.operationServers then cfg.operationServers[endpoint] else cfg.servers;
      && ToUse(cfg, None, endpoint, sc, 0, map[])
      && ToUse(cfg, Some(Context(None, None, None, None)), endpoint, sc, 0, map[])
      && ToUse(cfg, Some(Context(Some(Index(i)), None, Some(Variables(vs)), None)), endpoint, sc, i, vs)
      && ToUse(cfg, Some(Context(g, Some(Indices(map[endpoint := j])), h, Some(OperationVariables(map[endpoint := ws])))),
               endpoint, sc, j, ws)
      && ToUse(cfg, Some(Context(Some(Index(i)), Some(Indices(map[other := j])), Some(Variables(vs)),
                                 Some(OperationVariables(map[other := ws])))), endpoint, sc, i, vs)
    ensures Mistyped(Context(Some(Other), None, None, None), endpoint)
    ensures Mistyped(Context(None, Some(Other), None, None), endpoint)
    ensures Mistyped(Context(None, None, Some(Other), None), endpoint)
    ensures Mistyped(Context(None, None, None, Some(Other)), endpoint)
    ensures !Mistyped(Context(g, Some(Indices(map[endpoint := j])), h, Some(OperationVariables(map[endpoint := ws]))), endpoint)
    ensures !Mistyped(Context(None, None, None, None), endpoint)
  {
  }

  /** `ServerURLWithContext`: an error for a mistyped context value, and else the URL of the servers, index
      and variables to use. */
  method ServerURLWithContext(cfg: Configuration, ctx: Option<Context>, endpoint: string) returns (r: Result<string, Error>)
    ensures SomeMistyped(ctx, endpoint) <==> r.Err? && r.error.WrongType?
    ensures forall sc, i, vs :: !SomeMistyped(ctx, endpoint) && ToUse(cfg, ctx, endpoint, sc, i, vs) ==>
              UrlOutcome(sc, i, vs, r)
  {
    var sc := if endpoint in cfg.operationServers then cfg.operationServers[endpoint] else cfg.servers;
    if ctx.None? {
      r := URL(sc, 0, map[]);
      return;
    }
    LookupsRefine(ctx.value, endpoint);
    var index := GetServerOperationIndex(ctx.value, endpoint);
    if index.Err? {
      return Err(index.error);
    }
    var variables := GetServerOperationVariables(ctx.value, endpoint);
    if variables.Err? {
      return Err(variables.error);
    }
    r := URL(sc, index.value, variables.value);
  }
}
