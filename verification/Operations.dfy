/** A whole operation of the generated client up to the request path: look up the server, build its URL,
    and put the operation's path on top. */
module Operations {
  import opened Wrappers
  import opened Templates
  import opened SubstitutionOrder
  import U = ServerUrl
  import opened PathEscape
  import opened ApiPath
  import opened Endpoints

  const EXPIRE_ENDPOINT := "SandboxAPIService.ExpireSignedPortPreviewUrl"

  /** Every placeholder of the server's URL is declared, and there are no other braces in it. */
  predicate FullyDeclared(server: U.ServerConfiguration) {
    forall t :: t in Scan(server.url) ==>
      match t case Lit(c) => !IsBrace(c) case Hole(n) => n in server.variables
  }

  lemma {:induction false} BraceFreeSubst(ts: seq<Token>, m: map<string, string>)
    requires forall k :: k in m ==> BraceFree(m[k])
    ensures BraceFree(Flatten(Subst(ts, m)))
       <==> forall t :: t in ts ==> match t case Lit(c) => !IsBrace(c) case Hole(n) => n in m
    decreases ts
  {
    if ts != [] {
      BraceFreeSubst(ts[1..], m);
      assert ts == [ts[0]] + ts[1..];
      assert ts[0] in ts && forall t :: t in ts <==> t == ts[0] || t in ts[1..];
      var head := if ts[0].Hole? && ts[0].name in m then Lits(m[ts[0].name]) else [ts[0]];
      FlattenConcat(head, Subst(ts[1..], m));
      var a, b := Flatten(head), Flatten(Subst(ts[1..], m));
      BraceFreeConcat(a, b);
      match ts[0]
      case Lit(c) =>
        FlattenCons(Lit(c), []);
        assert a == [c] && a[0] == c;
      case Hole(n) =>
        if n in m {
          FlattenLits(m[n]);
        } else {
          FlattenCons(Hole(n), []);
          assert a[0] == '{';
        }
    }
  }

  lemma BraceFreeConcat(a: string, b: string)
    ensures BraceFree(a + b) <==> BraceFree(a) && BraceFree(b)
  {
    assert forall i :: 0 <= i < |a| ==> (a + b)[i] == a[i];
    assert forall i :: 0 <= i < |b| ==> (a + b)[|a| + i] == b[i];
  }

  /** A server URL comes out brace-free exactly if all its placeholders are declared and it has no stray braces. */
  lemma UrlBraceFreeIff(server: U.ServerConfiguration, variables: map<string, string>, url: string)
    requires U.WellFormed(server, variables) && U.Simultaneous(server, variables, url)
    ensures BraceFree(url) <==> FullyDeclared(server)
  {
    U.SubstFills(Scan(server.url), server, variables);
    BraceFreeSubst(Scan(server.url), U.Chosen(server, variables));
  }

  /** `ExpireSignedPortPreviewUrlExecute` up to the request path.  It fails exactly when the lookup of the
      server's URL does; otherwise, if that URL is fully declared and all variables are brace-free, the
      path is the URL followed by the template with the escaped parameters in their segments. */
  method ExpireRequestPath(cfg: U.Configuration, ctx: Option<U.Context>,
                           sandboxIdOrName: Bytes, port: Bytes, token: Bytes) returns (r: Result<string, U.Error>)
    ensures U.SomeMistyped(ctx, EXPIRE_ENDPOINT) ==> r.Err?
    ensures forall sc, i, vs ::
      !U.SomeMistyped(ctx, EXPIRE_ENDPOINT) && U.ToUse(cfg, ctx, EXPIRE_ENDPOINT, sc, i, vs) ==>
      && (r.Err? <==> !U.InRange(sc, i) || U.SomeRejected(sc[i], vs))
      && (r.Ok? && U.WellFormed(sc[i], vs) && FullyDeclared(sc[i]) ==>
            PathOnServer(sc[i], vs, map["sandboxIdOrName" := sandboxIdOrName, "port" := port, "token" := token], r.value))
  {
    var url := U.ServerURLWithContext(cfg, ctx, EXPIRE_ENDPOINT);
    if url.Err? {
      return Err(url.error);
    }
    var path := ExpireSignedPortPreviewUrlPath(url.value, sandboxIdOrName, port, token);
    forall sc, i, vs | U.ToUse(cfg, ctx, EXPIRE_ENDPOINT, sc, i, vs) && U.UrlOutcome(sc, i, vs, url)
                       && U.WellFormed(sc[i], vs)
      ensures BraceFree(url.value) <==> FullyDeclared(sc[i])
    {
      UrlBraceFreeIff(sc[i], vs, url.value);
    }
    return Ok(path);
  }

  /** The server's URL with all its variables replaced, unchanged, and then the rendered template. */
  predicate PathOnServer(server: U.ServerConfiguration, vs: map<string, string>, v: Values, path: string) {
    path == U.FilledAll(Scan(server.url), server, vs) + Render(EXPIRE_TEMPLATE, v)
  }
}
