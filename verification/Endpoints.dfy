/** Three operations of the generated client (`api_sandbox.go`), as representatives of their kind: two or three
    parameters, in fixed places. */
module Endpoints {
  import opened Templates
  import opened SubstitutionOrder
  import opened PathEscape
  import opened ApiPath

  const EXPIRE_TEMPLATE: PathTemplate :=
    [Fixed("sandbox"), Param("sandboxIdOrName"), Fixed("ports"), Param("port"),
     Fixed("signed-preview-url"), Param("token"), Fixed("expire")]

  const TRACE_SPANS_TEMPLATE: PathTemplate :=
    [Fixed("sandbox"), Param("sandboxId"), Fixed("telemetry"), Fixed("traces"), Param("traceId")]

  const PREVIEW_TEMPLATE: PathTemplate :=
    [Fixed("sandbox"), Param("sandboxIdOrName"), Fixed("ports"), Param("port"), Fixed("preview-url")]

  lemma PortWordsOk()
    ensures SegmentOk(Fixed("sandbox")) && SegmentOk(Param("sandboxIdOrName"))
    ensures SegmentOk(Fixed("ports")) && SegmentOk(Param("port")) && SegmentOk(Fixed("preview-url"))
  {
  }

  lemma TokenWordsOk()
    ensures SegmentOk(Fixed("signed-preview-url"))
    ensures SegmentOk(Param("token")) && SegmentOk(Fixed("expire"))
  {
    PlainWord("signed-preview-url");
  }

  lemma PlainWord(w: string)
    requires forall i :: 0 <= i < |w| ==> 'a' <= w[i] <= 'z' || 'A' <= w[i] <= 'Z' || w[i] == '-'
    ensures SegmentOk(Fixed(w)) && SegmentOk(Param(w))
  {
  }

  lemma TraceWordsOk()
    ensures SegmentOk(Fixed("sandbox")) && SegmentOk(Param("sandboxId")) && SegmentOk(Fixed("telemetry"))
    ensures SegmentOk(Fixed("traces")) && SegmentOk(Param("traceId"))
  {
  }

  lemma TemplateFromSegments(t: PathTemplate)
    requires forall g :: g in t ==> SegmentOk(g)
    ensures TemplateOk(t)
  {
  }

  lemma ExpireTemplateOk()
    ensures TemplateOk(EXPIRE_TEMPLATE)
  {
    PortWordsOk();
    TokenWordsOk();
    TemplateFromSegments(EXPIRE_TEMPLATE);
  }

  lemma TraceSpansTemplateOk()
    ensures TemplateOk(TRACE_SPANS_TEMPLATE)
  {
    TraceWordsOk();
    TemplateFromSegments(TRACE_SPANS_TEMPLATE);
  }

  lemma PreviewTemplateOk()
    ensures TemplateOk(PREVIEW_TEMPLATE)
  {
    PortWordsOk();
    TemplateFromSegments(PREVIEW_TEMPLATE);
  }

  // ---------------------------------------------------------------- the templates, letter by letter

  lemma {:induction false} TextConcat(t: PathTemplate, u: PathTemplate)
    ensures TemplateText(t + u) == TemplateText(t) + TemplateText(u)
    decreases t
  {
    if t == [] {
      assert t + u == u;
    } else {
      assert (t + u)[1..] == t[1..] + u;
      TextConcat(t[1..], u);
    }
  }

  lemma Join(t: PathTemplate, u: PathTemplate, a: string, b: string, whole: string)
    requires TemplateText(t) == a && TemplateText(u) == b && a + b == whole
    ensures TemplateText(t + u) == whole
  {
    TextConcat(t, u);
  }

  lemma FixedText(x: string, text: string)
    requires "/" + x == text
    ensures TemplateText([Fixed(x)]) == text
  {
    assert [Fixed(x)][1..] == [];
    assert TemplateText([Fixed(x)]) == "/" + x + "";
  }

  lemma PairText(x: string, n: string, a: string, b: string, whole: string)
    requires "/" + x == a && "/" + ("{" + n + "}") == b && a + b == whole
    ensures TemplateText([Fixed(x)] + [Param(n)]) == whole
  {
    FixedText(x, a);
    assert [Param(n)][1..] == [];
    assert TemplateText([Param(n)]) == "/" + Placeholder(n) + "" == b;
    Join([Fixed(x)], [Param(n)], a, b, whole);
  }

  lemma SandboxText()
    ensures TemplateText([Fixed("sandbox")] + [Param("sandboxIdOrName")]) == "/sandbox/{sandboxIdOrName}"
  {
    PairText("sandbox", "sandboxIdOrName", "/sandbox", "/{sandboxIdOrName}", "/sandbox/{sandboxIdOrName}");
  }

  lemma PortText()
    ensures TemplateText([Fixed("ports")] + [Param("port")]) == "/ports/{port}"
  {
    PairText("ports", "port", "/ports", "/{port}", "/ports/{port}");
  }

  lemma TokenText()
    ensures TemplateText([Fixed("signed-preview-url")] + [Param("token")]) == "/signed-preview-url/{token}"
  {
    PairText("signed-preview-url", "token", "/signed-preview-url", "/{token}", "/signed-preview-url/{token}");
  }

  lemma SandboxIdText()
    ensures TemplateText([Fixed("sandbox")] + [Param("sandboxId")]) == "/sandbox/{sandboxId}"
  {
    PairText("sandbox", "sandboxId", "/sandbox", "/{sandboxId}", "/sandbox/{sandboxId}");
  }

  lemma TraceText()
    ensures TemplateText([Fixed("traces")] + [Param("traceId")]) == "/traces/{traceId}"
  {
    PairText("traces", "traceId", "/traces", "/{traceId}", "/traces/{traceId}");
  }

  lemma LettersPortsText()
    ensures "/sandbox/{sandboxIdOrName}" + "/ports/{port}" == "/sandbox/{sandboxIdOrName}/ports/{port}"
  {
  }

  lemma LettersPreviewEnd()
    ensures "/sandbox/{sandboxIdOrName}/ports/{port}" + "/preview-url" == "/sandbox/{sandboxIdOrName}/ports/{port}/preview-url"
  {
  }

  lemma LettersTokenEnd()
    ensures "/signed-preview-url/{token}" + "/expire" == "/signed-preview-url/{token}/expire"
  {
  }

  lemma LettersExpireEnd()
    ensures "/sandbox/{sandboxIdOrName}/ports/{port}" + "/signed-preview-url/{token}/expire" == "/sandbox/{sandboxIdOrName}/ports/{port}/signed-preview-url/{token}/expire"
  {
  }

  lemma LettersTelemetryText()
    ensures "/sandbox/{sandboxId}" + "/telemetry" == "/sandbox/{sandboxId}/telemetry"
  {
  }

  lemma LettersTraceEnd()
    ensures "/sandbox/{sandboxId}/telemetry" + "/traces/{traceId}" == "/sandbox/{sandboxId}/telemetry/traces/{traceId}"
  {
  }

  lemma PortsText(t: PathTemplate, u: PathTemplate)
    requires TemplateText(t) == "/sandbox/{sandboxIdOrName}"
    requires TemplateText(u) == "/ports/{port}"
    ensures TemplateText(t + u) == "/sandbox/{sandboxIdOrName}/ports/{port}"
  {
    LettersPortsText();
    Join(t, u, "/sandbox/{sandboxIdOrName}", "/ports/{port}", "/sandbox/{sandboxIdOrName}/ports/{port}");
  }

  lemma PreviewEnd(t: PathTemplate, u: PathTemplate)
    requires TemplateText(t) == "/sandbox/{sandboxIdOrName}/ports/{port}"
    requires TemplateText(u) == "/preview-url"
    ensures TemplateText(t + u) == "/sandbox/{sandboxIdOrName}/ports/{port}/preview-url"
  {
    LettersPreviewEnd();
    Join(t, u, "/sandbox/{sandboxIdOrName}/ports/{port}", "/preview-url", "/sandbox/{sandboxIdOrName}/ports/{port}/preview-url");
  }

  lemma TokenEnd(t: PathTemplate, u: PathTemplate)
    requires TemplateText(t) == "/signed-preview-url/{token}"
    requires TemplateText(u) == "/expire"
    ensures TemplateText(t + u) == "/signed-preview-url/{token}/expire"
  {
    LettersTokenEnd();
    Join(t, u, "/signed-preview-url/{token}", "/expire", "/signed-preview-url/{token}/expire");
  }

  lemma ExpireEnd(t: PathTemplate, u: PathTemplate)
    requires TemplateText(t) == "/sandbox/{sandboxIdOrName}/ports/{port}"
    requires TemplateText(u) == "/signed-preview-url/{token}/expire"
    ensures TemplateText(t + u) == "/sandbox/{sandboxIdOrName}/ports/{port}/signed-preview-url/{token}/expire"
  {
    LettersExpireEnd();
    Join(t, u, "/sandbox/{sandboxIdOrName}/ports/{port}", "/signed-preview-url/{token}/expire", "/sandbox/{sandboxIdOrName}/ports/{port}/signed-preview-url/{token}/expire");
  }

  lemma TelemetryText(t: PathTemplate, u: PathTemplate)
    requires TemplateText(t) == "/sandbox/{sandboxId}"
    requires TemplateText(u) == "/telemetry"
    ensures TemplateText(t + u) == "/sandbox/{sandboxId}/telemetry"
  {
    LettersTelemetryText();
    Join(t, u, "/sandbox/{sandboxId}", "/telemetry", "/sandbox/{sandboxId}/telemetry");
  }

  lemma TraceEnd(t: PathTemplate, u: PathTemplate)
    requires TemplateText(t) == "/sandbox/{sandboxId}/telemetry"
    requires TemplateText(u) == "/traces/{traceId}"
    ensures TemplateText(t + u) == "/sandbox/{sandboxId}/telemetry/traces/{traceId}"
  {
    LettersTraceEnd();
    Join(t, u, "/sandbox/{sandboxId}/telemetry", "/traces/{traceId}", "/sandbox/{sandboxId}/telemetry/traces/{traceId}");
  }

  lemma Grouped(a: Segment, b: Segment, c: Segment, d: Segment, e: Segment, f: Segment, g: Segment)
    ensures [a, b, c, d, e] == (([a] + [b]) + ([c] + [d])) + [e]
    ensures [a, b, c, d, e] == (([a] + [b]) + [c]) + ([d] + [e])
    ensures [a, b, c, d, e, f, g] == (([a] + [b]) + ([c] + [d])) + (([e] + [f]) + [g])
  {
  }

  lemma ExpireText()
    ensures TemplateText(EXPIRE_TEMPLATE) == "/sandbox/{sandboxIdOrName}/ports/{port}/signed-preview-url/{token}/expire"
  {
    SandboxText();
    PortText();
    TokenText();
    FixedText("expire", "/expire");
    var t := [Fixed("sandbox")] + [Param("sandboxIdOrName")];
    var u := [Fixed("ports")] + [Param("port")];
    var w := [Fixed("signed-preview-url")] + [Param("token")];
    PortsText(t, u);
    TokenEnd(w, [Fixed("expire")]);
    ExpireEnd(t + u, w + [Fixed("expire")]);
    Grouped(Fixed("sandbox"), Param("sandboxIdOrName"), Fixed("ports"), Param("port"),
            Fixed("signed-preview-url"), Param("token"), Fixed("expire"));
  }

  lemma PreviewText()
    ensures TemplateText(PREVIEW_TEMPLATE) == "/sandbox/{sandboxIdOrName}/ports/{port}/preview-url"
  {
    SandboxText();
    PortText();
    FixedText("preview-url", "/preview-url");
    var t := [Fixed("sandbox")] + [Param("sandboxIdOrName")];
    var u := [Fixed("ports")] + [Param("port")];
    PortsText(t, u);
    PreviewEnd(t + u, [Fixed("preview-url")]);
    var g := Fixed("preview-url");
    Grouped(Fixed("sandbox"), Param("sandboxIdOrName"), Fixed("ports"), Param("port"), g, g, g);
  }

  lemma TraceSpansText()
    ensures TemplateText(TRACE_SPANS_TEMPLATE) == "/sandbox/{sandboxId}/telemetry/traces/{traceId}"
  {
    SandboxIdText();
    FixedText("telemetry", "/telemetry");
    TraceText();
    var t := [Fixed("sandbox")] + [Param("sandboxId")];
    var u := [Fixed("traces")] + [Param("traceId")];
    TelemetryText(t, [Fixed("telemetry")]);
    TraceEnd(t + [Fixed("telemetry")], u);
    var g := Param("traceId");
    Grouped(Fixed("sandbox"), Param("sandboxId"), Fixed("telemetry"), Fixed("traces"), g, g, g);
  }

  // ---------------------------------------------------------------- the rendered paths, letter by letter

  lemma {:induction false} RenderConcat(t: PathTemplate, u: PathTemplate, v: Values)
    ensures Render(t + u, v) == Render(t, v) + Render(u, v)
    decreases t
  {
    if t == [] {
      assert t + u == u;
    } else {
      assert (t + u)[1..] == t[1..] + u;
      RenderConcat(t[1..], u, v);
    }
  }

  lemma RenderFixed(x: string, v: Values, text: string)
    requires "/" + x == text
    ensures Render([Fixed(x)], v) == text
  {
    assert [Fixed(x)][1..] == [];
    assert Render([Fixed(x)], v) == "/" + x + "";
  }

  lemma RenderParam(n: string, v: Values)
    requires n in v
    ensures Render([Param(n)], v) == "/" + Escape(v[n])
  {
    assert [Param(n)][1..] == [];
    assert Render([Param(n)], v) == "/" + Escape(v[n]) + "";
  }

  lemma RenderJoin(t: PathTemplate, u: PathTemplate, v: Values, a: string, b: string)
    requires Render(t, v) == a && Render(u, v) == b
    ensures Render(t + u, v) == a + b
  {
    RenderConcat(t, u, v);
  }

  lemma RenderPair(x: string, n: string, v: Values, lead: string)
    requires n in v && "/" + x + "/" == lead
    ensures Render([Fixed(x)] + [Param(n)], v) == lead + Escape(v[n])
  {
    RenderFixed(x, v, "/" + x);
    RenderParam(n, v);
    RenderJoin([Fixed(x)], [Param(n)], v, "/" + x, "/" + Escape(v[n]));
    Associates("/" + x, "/", Escape(v[n]));
  }

  lemma PortsRendered(v: Values)
    requires "sandboxIdOrName" in v && "port" in v
    ensures Render(([Fixed("sandbox")] + [Param("sandboxIdOrName")]) + ([Fixed("ports")] + [Param("port")]), v)
         == ("/sandbox/" + Escape(v["sandboxIdOrName"])) + ("/ports/" + Escape(v["port"]))
  {
    RenderPair("sandbox", "sandboxIdOrName", v, "/sandbox/");
    RenderPair("ports", "port", v, "/ports/");
    RenderConcat([Fixed("sandbox")] + [Param("sandboxIdOrName")], [Fixed("ports")] + [Param("port")], v);
  }

  lemma TokenRendered(v: Values)
    requires "token" in v
    ensures Render(([Fixed("signed-preview-url")] + [Param("token")]) + [Fixed("expire")], v)
         == ("/signed-preview-url/" + Escape(v["token"])) + "/expire"
  {
    RenderPair("signed-preview-url", "token", v, "/signed-preview-url/");
    RenderFixed("expire", v, "/expire");
    RenderConcat([Fixed("signed-preview-url")] + [Param("token")], [Fixed("expire")], v);
  }

  lemma ExpireRendered(v: Values)
    requires "sandboxIdOrName" in v && "port" in v && "token" in v
    ensures Render(EXPIRE_TEMPLATE, v)
         == (("/sandbox/" + Escape(v["sandboxIdOrName"])) + ("/ports/" + Escape(v["port"])))
            + (("/signed-preview-url/" + Escape(v["token"])) + "/expire")
  {
    var t := ([Fixed("sandbox")] + [Param("sandboxIdOrName")]) + ([Fixed("ports")] + [Param("port")]);
    var u := ([Fixed("signed-preview-url")] + [Param("token")]) + [Fixed("expire")];
    PortsRendered(v);
    TokenRendered(v);
    RenderConcat(t, u, v);
    Grouped(Fixed("sandbox"), Param("sandboxIdOrName"), Fixed("ports"), Param("port"),
            Fixed("signed-preview-url"), Param("token"), Fixed("expire"));
  }

  lemma PreviewRendered(v: Values)
    requires "sandboxIdOrName" in v && "port" in v
    ensures Render(PREVIEW_TEMPLATE, v)
         == (("/sandbox/" + Escape(v["sandboxIdOrName"])) + ("/ports/" + Escape(v["port"]))) + "/preview-url"
  {
    var t := ([Fixed("sandbox")] + [Param("sandboxIdOrName")]) + ([Fixed("ports")] + [Param("port")]);
    var g := Fixed("preview-url");
    PortsRendered(v);
    RenderFixed("preview-url", v, "/preview-url");
    RenderConcat(t, [g], v);
    Grouped(Fixed("sandbox"), Param("sandboxIdOrName"), Fixed("ports"), Param("port"), g, g, g);
  }

  lemma TraceSpansRendered(v: Values)
    requires "sandboxId" in v && "traceId" in v
    ensures Render(TRACE_SPANS_TEMPLATE, v)
         == ("/sandbox/" + Escape(v["sandboxId"])) + "/telemetry" + ("/traces/" + Escape(v["traceId"]))
  {
    var t := [Fixed("sandbox")] + [Param("sandboxId")];
    var u := [Fixed("traces")] + [Param("traceId")];
    var g := Param("traceId");
    RenderPair("sandbox", "sandboxId", v, "/sandbox/");
    RenderPair("traces", "traceId", v, "/traces/");
    RenderFixed("telemetry", v, "/telemetry");
    RenderConcat(t, [Fixed("telemetry")], v);
    RenderConcat(t + [Fixed("telemetry")], u, v);
    Grouped(Fixed("sandbox"), Param("sandboxId"), Fixed("telemetry"), Fixed("traces"), g, g, g);
  }

  // ---------------------------------------------------------------- the paths

  /** The path of `ExpireSignedPortPreviewUrlExecute`, for the parameters as rendered to strings. */
  method ExpireSignedPortPreviewUrlPath(base: string, sandboxIdOrName: Bytes, port: Bytes, token: Bytes) returns (path: string)
    ensures var v: Values := map["sandboxIdOrName" := sandboxIdOrName, "port" := port, "token" := token];
      && (NoNestedBraces(base) ==> path == BaseOf(base, v) + Render(EXPIRE_TEMPLATE, v))
      && (BraceFree(base) ==> path == base + Render(EXPIRE_TEMPLATE, v))
    ensures BraceFree(base) ==> path == base + ((("/sandbox/" + Escape(sandboxIdOrName)) + ("/ports/" + Escape(port)))
                                             + (("/signed-preview-url/" + Escape(token)) + "/expire"))
  {
    path := base + "/sandbox/{sandboxIdOrName}/ports/{port}/signed-preview-url/{token}/expire";
    path := ReplaceAll(path, Placeholder("sandboxIdOrName"), Escape(sandboxIdOrName));
    path := ReplaceAll(path, Placeholder("port"), Escape(port));
    path := ReplaceAll(path, Placeholder("token"), Escape(token));
    ExpireText();
    ExpireTemplateOk();
    ExpireRendered(map["sandboxIdOrName" := sandboxIdOrName, "port" := port, "token" := token]);
    Replaced3(base, EXPIRE_TEMPLATE, "sandboxIdOrName", "port", "token", sandboxIdOrName, port, token);
  }

  /** The path of `GetSandboxTraceSpansExecute`. */
  method SandboxTraceSpansPath(base: string, sandboxId: Bytes, traceId: Bytes) returns (path: string)
    ensures var v: Values := map["sandboxId" := sandboxId, "traceId" := traceId];
      && (NoNestedBraces(base) ==> path == BaseOf(base, v) + Render(TRACE_SPANS_TEMPLATE, v))
      && (BraceFree(base) ==> path == base + Render(TRACE_SPANS_TEMPLATE, v))
    ensures BraceFree(base) ==> path == base + (("/sandbox/" + Escape(sandboxId)) + "/telemetry" + ("/traces/" + Escape(traceId)))
  {
    path := base + "/sandbox/{sandboxId}/telemetry/traces/{traceId}";
    path := ReplaceAll(path, Placeholder("sandboxId"), Escape(sandboxId));
    path := ReplaceAll(path, Placeholder("traceId"), Escape(traceId));
    TraceSpansText();
    TraceSpansTemplateOk();
    TraceSpansRendered(map["sandboxId" := sandboxId, "traceId" := traceId]);
    Replaced2(base, TRACE_SPANS_TEMPLATE, "sandboxId", "traceId", sandboxId, traceId);
  }

  /** The path of `GetPortPreviewUrlExecute`. */
  method PortPreviewUrlPath(base: string, sandboxIdOrName: Bytes, port: Bytes) returns (path: string)
    ensures var v: Values := map["sandboxIdOrName" := sandboxIdOrName, "port" := port];
      && (NoNestedBraces(base) ==> path == BaseOf(base, v) + Render(PREVIEW_TEMPLATE, v))
      && (BraceFree(base) ==> path == base + Render(PREVIEW_TEMPLATE, v))
    ensures BraceFree(base) ==> path == base + ((("/sandbox/" + Escape(sandboxIdOrName)) + ("/ports/" + Escape(port))) + "/preview-url")
  {
    path := base + "/sandbox/{sandboxIdOrName}/ports/{port}/preview-url";
    path := ReplaceAll(path, Placeholder("sandboxIdOrName"), Escape(sandboxIdOrName));
    path := ReplaceAll(path, Placeholder("port"), Escape(port));
    PreviewText();
    PreviewTemplateOk();
    PreviewRendered(map["sandboxIdOrName" := sandboxIdOrName, "port" := port]);
    Replaced2(base, PREVIEW_TEMPLATE, "sandboxIdOrName", "port", sandboxIdOrName, port);
  }
}
