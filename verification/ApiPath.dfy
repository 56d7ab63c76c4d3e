/** Operation paths of the generated client (`api_sandbox.go`): a base URL, a template whose placeholders
    are whole segments, and repeated replacement by escaped parameter values. */
module ApiPath {
  import opened Wrappers
  import opened Templates
  import opened SubstitutionOrder
  import opened PathEscape

  // ---------------------------------------------------------------- path templates

  datatype Segment = Fixed(text: string) | Param(name: string)

  type PathTemplate = seq<Segment>

  /** Fixed segments and parameter names contain neither slashes nor braces. */
  predicate SegmentOk(g: Segment) {
    match g case Fixed(x) => BraceFree(x) && '/' !in x case Param(n) => BraceFree(n)
  }

  predicate TemplateOk(t: PathTemplate) {
    forall i :: 0 <= i < |t| ==> SegmentOk(t[i])
  }

  function SegmentText(g: Segment): string {
    match g case Fixed(x) => x case Param(n) => Placeholder(n)
  }

  /** The template as it is written in the client. */
  function TemplateText(t: PathTemplate): string {
    if t == [] then "" else "/" + SegmentText(t[0]) + TemplateText(t[1..])
  }

  function Params(t: PathTemplate): set<string> {
    set g | g in t && g.Param? :: g.name
  }

  type Values = map<string, Bytes>

  function Escaped(v: Values): map<string, string> {
    map n | n in v :: Escape(v[n])
  }

  function Piece(g: Segment, v: Values): string {
    match g
    case Fixed(x) => x
    case Param(n) => if n in v then Escape(v[n]) else Placeholder(n)
  }

  /** The path that is meant: every parameter in its segment, escaped. */
  function Render(t: PathTemplate, v: Values): string {
    if t == [] then "" else "/" + Piece(t[0], v) + Render(t[1..], v)
  }

  // ---------------------------------------------------------------- the tokens of a template

  function SegmentTokens(g: Segment): seq<Token> {
    match g case Fixed(x) => Lits(x) case Param(n) => [Hole(n)]
  }

  function TemplateTokens(t: PathTemplate): seq<Token> {
    if t == [] then [] else [Lit('/')] + SegmentTokens(t[0]) + TemplateTokens(t[1..])
  }

  predicate PlainTokens(ts: seq<Token>) {
    forall i :: 0 <= i < |ts| ==>
      if ts[i].Lit? then !IsBrace(ts[i].c) else BraceFree(ts[i].name)
  }

  lemma {:induction false} TemplateTokensPlain(t: PathTemplate)
    requires TemplateOk(t)
    ensures PlainTokens(TemplateTokens(t))
    decreases t
  {
    if t != [] {
      TemplateTokensPlain(t[1..]);
      assert PlainTokens([Lit('/')] + SegmentTokens(t[0]));
    }
  }

  lemma {:induction false} FlattenTemplate(t: PathTemplate)
    ensures Flatten(TemplateTokens(t)) == TemplateText(t)
    decreases t
  {
    if t != [] {
      FlattenTemplate(t[1..]);
      FlattenConcat([Lit('/')] + SegmentTokens(t[0]), TemplateTokens(t[1..]));
      FlattenCons(Lit('/'), SegmentTokens(t[0]));
      match t[0]
      case Fixed(x) => FlattenLits(x);
      case Param(n) => FlattenCons(Hole(n), []);
    }
  }

  lemma {:induction false} SubstTemplate(t: PathTemplate, v: Values)
    ensures Flatten(Subst(TemplateTokens(t), Escaped(v))) == Render(t, v)
    decreases t
  {
    if t != [] {
      SubstTemplate(t[1..], v);
      var m := Escaped(v);
      var head := [Lit('/')] + SegmentTokens(t[0]);
      SubstConcat(head, TemplateTokens(t[1..]), m);
      SubstConcat([Lit('/')], SegmentTokens(t[0]), m);
      FlattenConcat(Subst(head, m), Subst(TemplateTokens(t[1..]), m));
      FlattenConcat(Subst([Lit('/')], m), Subst(SegmentTokens(t[0]), m));
      assert Subst([Lit('/')], m) == [Lit('/')] by { assert [Lit('/')][1..] == []; }
      FlattenCons(Lit('/'), []);
      PieceOfSegment(t[0], v);
    }
  }

  lemma PieceOfSegment(g: Segment, v: Values)
    ensures Flatten(Subst(SegmentTokens(g), Escaped(v))) == Piece(g, v)
  {
    match g
    case Fixed(x) =>
      SubstLits(x, Escaped(v));
      FlattenLits(x);
    case Param(n) =>
      assert [Hole(n)][1..] == [];
      assert Subst([Hole(n)], Escaped(v)) == if n in v then Lits(Escape(v[n])) else [Hole(n)];
      if n in v { FlattenLits(Escape(v[n])); } else { FlattenCons(Hole(n), []); }
  }

  // ---------------------------------------------------------------- building a path

  lemma {:induction false} PlainKeepsUnnested(ts: seq<Token>, us: seq<Token>)
    requires PlainTokens(us)
    ensures ClosesNext(ts + us) == ClosesNext(ts)
    ensures Unnested(ts) ==> Unnested(ts + us)
    decreases |ts| + |us|
  {
    if ts != [] {
      PlainKeepsUnnested(ts[1..], us);
      assert (ts + us)[1..] == ts[1..] + us;
    } else if us != [] {
      PlainKeepsUnnested([], us[1..]);
      assert [] + us == us && [] + us[1..] == us[1..];
    }
  }

  lemma EscapedBraceFree(v: Values)
    requires forall n :: n in v ==> BraceFree(n)
    ensures BraceFreeMap(Escaped(v))
  {
    forall n | n in v
      ensures BraceFree(Escape(v[n]))
    {
      EscapedIsSegment(v[n]);
    }
  }

  /** What the parameters do to the base URL itself. */
  function BaseOf(base: string, v: Values): string {
    Flatten(Subst(Scan(base), Escaped(v)))
  }

  /** Sequential replacement by escaped values is simultaneous substitution: for all parameter values,
      in every order, and for every base URL without nested braces. */
  lemma SequentialIsSimultaneous(base: string, t: PathTemplate, v: Values, order: seq<string>)
    requires TemplateOk(t) && NoNestedBraces(base)
    requires (forall n :: n in v ==> BraceFree(n)) && Enumerates(order, v.Keys)
    ensures forall k :: k in order ==> k in Escaped(v)
    ensures Fold(base + TemplateText(t), order, Escaped(v)) == BaseOf(base, v) + Render(t, v)
  {
    var ts, us, m := Scan(base), TemplateTokens(t), Escaped(v);
    EscapedBraceFree(v);
    FlattenScan(base);
    ScanNamesOk(base);
    TemplateTokensPlain(t);
    FlattenTemplate(t);
    FlattenConcat(ts, us);
    PlainKeepsUnnested(ts, us);
    FoldIsFoldPut(ts + us, order, m);
    FoldPutIsSubst(ts + us, order, m);
    assert Restrict(m, order) == m;
    SubstConcat(ts, us, m);
    FlattenConcat(Subst(ts, m), Subst(us, m));
    SubstTemplate(t, v);
  }

  /** The parameters leave the base URL unchanged, whatever their values, exactly if it does not mention them. */
  lemma BaseUnchangedIff(base: string, names: set<string>)
    ensures (forall v: Values :: v.Keys == names ==> BaseOf(base, v) == base)
       <==> (forall n :: n in names ==> !Mentions(Scan(base), n))
  {
    FlattenScan(base);
    if forall n :: n in names ==> !Mentions(Scan(base), n) {
      forall v: Values | v.Keys == names
        ensures BaseOf(base, v) == base
      {
        SubstUnmentioned(Scan(base), Escaped(v));
      }
    } else {
      var v: Values := map n | n in names :: "";
      SubstEmptyShrinks(Scan(base), Escaped(v));
      assert v.Keys == names && BaseOf(base, v) != base;
    }
  }

  lemma {:induction false} SubstUnmentioned(ts: seq<Token>, m: map<string, string>)
    requires forall n :: n in m ==> !Mentions(ts, n)
    ensures Subst(ts, m) == ts
    decreases ts
  {
    if ts != [] {
      assert ts[0] in ts && forall tok :: tok in ts[1..] ==> tok in ts;
      assert forall n :: n in m ==> !Mentions(ts[1..], n);
      SubstUnmentioned(ts[1..], m);
      assert ts[0].Hole? ==> Mentions(ts, ts[0].name);
      assert ts == [ts[0]] + ts[1..];
    }
  }

  lemma {:induction false} SubstEmptyShrinks(ts: seq<Token>, m: map<string, string>)
    requires forall n :: n in m ==> m[n] == ""
    ensures |Flatten(Subst(ts, m))| <= |Flatten(ts)|
    ensures (exists n :: n in m && Mentions(ts, n)) ==> |Flatten(Subst(ts, m))| < |Flatten(ts)|
    decreases ts
  {
    if ts != [] {
      SubstEmptyShrinks(ts[1..], m);
      var head := if ts[0].Hole? && ts[0].name in m then [] else [ts[0]];
      assert Lits("") == [];
      assert Subst(ts, m) == head + Subst(ts[1..], m);
      FlattenConcat(head, Subst(ts[1..], m));
      assert ts == [ts[0]] + ts[1..];
      FlattenCons(ts[0], ts[1..]);
      if exists n :: n in m && Mentions(ts, n) && !Mentions(ts[1..], n) {
        var n :| n in m && Mentions(ts, n) && !Mentions(ts[1..], n);
        assert ts[0] == Hole(n);
      }
    }
  }

  lemma {:induction false} ScanBraceFree(s: string)
    requires BraceFree(s)
    ensures Scan(s) == Lits(s)
    decreases |s|
  {
    if s != "" {
      ScanBraceFree(s[1..]);
      assert Lits(s) == [Lit(s[0])] + Lits(s[1..]);
    }
  }

  lemma {:induction false} LitsUnnested(s: string)
    requires BraceFree(s)
    ensures Unnested(Lits(s))
    decreases |s|
  {
    if s != "" {
      assert Lits(s)[1..] == Lits(s[1..]);
      LitsUnnested(s[1..]);
    }
  }

  /** A brace-free base URL, such as one that the server lookup returns for brace-free servers, stays a
      prefix of the path for all parameter values, and the rest is the rendered template. */
  lemma BraceFreeBaseIsPrefix(base: string, v: Values)
    requires BraceFree(base)
    ensures NoNestedBraces(base) && BaseOf(base, v) == base
  {
    ScanBraceFree(base);
    LitsUnnested(base);
    FlattenLits(base);
    SubstLits(base, Escaped(v));
  }

  // ---------------------------------------------------------------- reading a path

  /** The parts between slashes. */
  function Split(s: string): (r: seq<string>)
    ensures |r| > 0
  {
    if s == "" then [""]
    else
      var rest := Split(s[1..]);
      if s[0] == '/' then [""] + rest else [[s[0]] + rest[0]] + rest[1..]
  }

  lemma {:induction false} SplitAt(p: string, s: string)
    requires '/' !in p
    ensures Split(p + "/" + s) == [p] + Split(s)
    decreases |p|
  {
    var whole := p + "/" + s;
    if p == "" {
      assert whole[1..] == s;
    } else {
      SplitAt(p[1..], s);
      assert whole[1..] == p[1..] + "/" + s;
      assert ([p[1..]] + Split(s))[1..] == Split(s);
      assert [p[0]] + p[1..] == p;
    }
  }

  lemma {:induction false} SplitPlain(p: string)
    requires '/' !in p
    ensures Split(p) == [p]
    decreases |p|
  {
    if p != "" {
      SplitPlain(p[1..]);
      assert [p[0]] + p[1..] == p;
    }
  }

  function Pieces(t: PathTemplate, v: Values): (r: seq<string>)
    ensures |r| == |t|
  {
    if t == [] then [] else [Piece(t[0], v)] + Pieces(t[1..], v)
  }

  lemma SplitLeadingSlash(s: string)
    ensures Split("/" + s) == [""] + Split(s)
  {
    assert ("/" + s)[1..] == s;
  }

  lemma {:induction false} SplitRender(t: PathTemplate, v: Values)
    requires TemplateOk(t) && Params(t) <= v.Keys
    ensures Split(Render(t, v)) == [""] + Pieces(t, v)
    decreases t
  {
    if t != [] {
      assert t[0] in t && Params(t[1..]) <= v.Keys;
      PieceHasNoSlash(t[0], v);
      SplitRender(t[1..], v);
      SplitPiece(t, v);
    }
  }

  lemma PieceHasNoSlash(g: Segment, v: Values)
    requires g.Fixed? ==> '/' !in g.text
    requires g.Param? ==> g.name in v
    ensures '/' !in Piece(g, v)
  {
    if g.Param? { EscapedIsSegment(v[g.name]); }
  }

  lemma SplitPiece(t: PathTemplate, v: Values)
    requires t != [] && '/' !in Piece(t[0], v)
    requires Split(Render(t[1..], v)) == [""] + Pieces(t[1..], v)
    ensures Split(Render(t, v)) == [""] + Pieces(t, v)
  {
    var p := Piece(t[0], v);
    if t[1..] == [] {
      SplitPlain(p);
      SplitLeadingSlash(p);
      assert Render(t, v) == "/" + p;
    } else {
      var rest := Render(t[1..], v);
      var more := Piece(t[1..][0], v) + Render(t[1..][1..], v);
      assert rest == "/" + more;
      SplitTwo(p, more, Pieces(t[1..], v));
      assert Render(t, v) == "/" + p + "/" + more;
    }
  }

  lemma SplitTwo(p: string, more: string, pieces: seq<string>)
    requires '/' !in p && Split("/" + more) == [""] + pieces
    ensures Split("/" + p + "/" + more) == [""] + ([p] + pieces)
  {
    SplitLeadingSlash(more);
    assert Split(more) == ([""] + Split(more))[1..] == ([""] + pieces)[1..] == pieces;
    SplitAt(p, more);
    SplitLeadingSlash(p + "/" + more);
    assert "/" + p + "/" + more == "/" + (p + "/" + more);
  }

  /** Reading the parameters back: split at the slashes, unescape the parameter segments. */
  function ReadParam(t: PathTemplate, parts: seq<string>, name: string): Option<seq<char>>
    requires |parts| == |t|
  {
    if t == [] then None
    else if t[0] == Param(name) then Unescape(parts[0])
    else ReadParam(t[1..], parts[1..], name)
  }

  lemma {:induction false} ReadPiece(t: PathTemplate, v: Values, name: string)
    requires name in Params(t) && name in v
    ensures ReadParam(t, Pieces(t, v), name) == Some(v[name])
    decreases t
  {
    if t[0] == Param(name) {
      UnescapeEscape(v[name]);
    } else {
      assert Param(name) in t[1..];
      ReadPiece(t[1..], v, name);
      assert Pieces(t, v)[1..] == Pieces(t[1..], v);
    }
  }

  /** The path determines every parameter. */
  lemma PathIsInvertible(t: PathTemplate, v: Values, name: string)
    requires TemplateOk(t) && Params(t) <= v.Keys && name in Params(t)
    ensures |Split(Render(t, v))| == |t| + 1
    ensures ReadParam(t, Split(Render(t, v))[1..], name) == Some(v[name])
  {
    SplitRender(t, v);
    assert ([""] + Pieces(t, v))[1..] == Pieces(t, v);
    ReadPiece(t, v, name);
  }

  /** Two assignments give the same path exactly if they agree on the template's parameters. */
  lemma SamePathIff(base: string, t: PathTemplate, v: Values, w: Values)
    requires TemplateOk(t) && Params(t) <= v.Keys && Params(t) <= w.Keys
    ensures base + Render(t, v) == base + Render(t, w) <==> forall n :: n in Params(t) ==> v[n] == w[n]
  {
    if base + Render(t, v) == base + Render(t, w) {
      assert (base + Render(t, v))[|base|..] == Render(t, v);
      assert (base + Render(t, w))[|base|..] == Render(t, w);
      forall n | n in Params(t)
        ensures v[n] == w[n]
      {
        PathIsInvertible(t, v, n);
        PathIsInvertible(t, w, n);
      }
    }
    if forall n :: n in Params(t) ==> v[n] == w[n] {
      RenderAgrees(t, v, w);
    }
  }

  lemma {:induction false} RenderAgrees(t: PathTemplate, v: Values, w: Values)
    requires Params(t) <= v.Keys && Params(t) <= w.Keys
    requires forall n :: n in Params(t) ==> v[n] == w[n]
    ensures Render(t, v) == Render(t, w)
    decreases t
  {
    if t != [] {
      assert t[0] in t && forall g :: g in t[1..] ==> g in t;
      assert t[0].Param? ==> t[0].name in Params(t);
      assert forall n :: n in Params(t[1..]) ==> n in Params(t);
      RenderAgrees(t[1..], v, w);
    }
  }

  // ---------------------------------------------------------------- two and three parameters

  lemma FoldUnrolled2(s: string, order: seq<string>, m: map<string, string>)
    requires |order| == 2 && order[0] in m && order[1] in m
    ensures forall k :: k in order ==> k in m
    ensures Fold(s, order, m)
         == ReplaceAll(ReplaceAll(s, Placeholder(order[0]), m[order[0]]), Placeholder(order[1]), m[order[1]])
  {
    assert order == [order[0]] + [order[1]];
    FoldSnoc(s, [order[0]], order[1], m);
    assert [order[0]][1..] == [];
  }

  lemma FoldUnrolled3(s: string, order: seq<string>, m: map<string, string>)
    requires |order| == 3 && order[0] in m && order[1] in m && order[2] in m
    ensures forall k :: k in order ==> k in m
    ensures Fold(s, order, m)
         == ReplaceAll(ReplaceAll(ReplaceAll(s, Placeholder(order[0]), m[order[0]]),
                                  Placeholder(order[1]), m[order[1]]), Placeholder(order[2]), m[order[2]])
  {
    assert order == order[..2] + [order[2]];
    FoldUnrolled2(s, order[..2], m);
    FoldSnoc(s, order[..2], order[2], m);
  }

  /** The generated code for 2 parameters. */
  lemma Replaced2(base: string, t: PathTemplate, n0: string, n1: string, x0: Bytes, x1: Bytes)
    requires TemplateOk(t) && n0 != n1
    requires BraceFree(n0) && BraceFree(n1)
    ensures var v: Values := map[n0 := x0, n1 := x1];
      var path := ReplaceAll(ReplaceAll(base + TemplateText(t), Placeholder(n0), Escape(x0)), Placeholder(n1), Escape(x1));
      && (NoNestedBraces(base) ==> path == BaseOf(base, v) + Render(t, v))
      && (BraceFree(base) ==> path == base + Render(t, v))
  {
    var v: Values := map[n0 := x0, n1 := x1];
    var order := [n0, n1];
    assert Enumerates(order, v.Keys);
    FoldUnrolled2(base + TemplateText(t), order, Escaped(v));
    if BraceFree(base) { BraceFreeBaseIsPrefix(base, v); }
    if NoNestedBraces(base) { SequentialIsSimultaneous(base, t, v, order); }
  }

  /** The generated code for 3 parameters. */
  lemma Replaced3(base: string, t: PathTemplate, n0: string, n1: string, n2: string, x0: Bytes, x1: Bytes, x2: Bytes)
    requires TemplateOk(t) && n0 != n1 && n0 != n2 && n1 != n2
    requires BraceFree(n0) && BraceFree(n1) && BraceFree(n2)
    ensures var v: Values := map[n0 := x0, n1 := x1, n2 := x2];
      var path := ReplaceAll(ReplaceAll(ReplaceAll(base + TemplateText(t), Placeholder(n0), Escape(x0)), Placeholder(n1), Escape(x1)), Placeholder(n2), Escape(x2));
      && (NoNestedBraces(base) ==> path == BaseOf(base, v) + Render(t, v))
      && (BraceFree(base) ==> path == base + Render(t, v))
  {
    var v: Values := map[n0 := x0, n1 := x1, n2 := x2];
    var order := [n0, n1, n2];
    assert Enumerates(order, v.Keys);
    FoldUnrolled3(base + TemplateText(t), order, Escaped(v));
    if BraceFree(base) { BraceFreeBaseIsPrefix(base, v); }
    if NoNestedBraces(base) { SequentialIsSimultaneous(base, t, v, order); }
  }
}
