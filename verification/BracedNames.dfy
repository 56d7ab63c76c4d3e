/** Variables whose names contain braces.  The text of such a placeholder can be split by the other
    replacements, unless it can never occur. */
module BracedNames {
  import opened Templates
  import opened SubstitutionOrder
  import opened OrderMatters

  // ---------------------------------------------------------------- scanning is the only reading

  /** A token list without nested braces is what scanning its text gives. */
  lemma {:induction false} ScanFlatten(ts: seq<Token>)
    requires NamesOk(ts) && Unnested(ts)
    ensures Scan(Flatten(ts)) == ts
    decreases ts
  {
    if ts != [] {
      var rest := Flatten(ts[1..]);
      ScanFlatten(ts[1..]);
      assert ts == [ts[0]] + ts[1..];
      FlattenCons(ts[0], ts[1..]);
      match ts[0]
      case Hole(m) => ScanAtHole(m, rest);
      case Lit(c) => if c == '{' { OpeningStays(ts[1..]); }
    }
  }

  lemma ScanAtHole(m: string, rest: string)
    requires BraceFree(m)
    ensures Scan(Placeholder(m) + rest) == [Hole(m)] + Scan(rest)
  {
    var s := Placeholder(m) + rest;
    assert s[1..] == m + "}" + rest;
    assert s[1..][..|m|] == m && s[1..][|m| + 1..] == rest;
    FirstBraceAt(s[1..], |m|);
  }

  /** If the next literal brace is not a closing one, then neither is the next brace in the text. */
  lemma {:induction false} OpeningStays(ts: seq<Token>)
    requires NamesOk(ts) && !ClosesNext(ts)
    ensures var s := Flatten(ts); FirstBrace(s) < |s| ==> s[FirstBrace(s)] == '{'
    decreases ts
  {
    if ts != [] {
      assert ts == [ts[0]] + ts[1..];
      FlattenCons(ts[0], ts[1..]);
      if ts[0].Lit? && !IsBrace(ts[0].c) { OpeningStays(ts[1..]); }
    }
  }

  // ---------------------------------------------------------------- placeholders that never occur

  /** The text of a placeholder with nested braces. */
  predicate NeverOccurs(name: string) { !NoNestedBraces(Placeholder(name)) }

  predicate Harmless(name: string) { BraceFree(name) || NeverOccurs(name) }

  lemma HeadFits(head: string, rest: string, w: string)
    requires w <= head + rest && w != "" && w[|w| - 1] == '}'
    requires head != "" && '}' !in head[..|head| - 1]
    ensures |head| <= |w| && w == head + w[|head|..] && w[|head|..] <= rest
    ensures w[|head|..] == "" || w[|head|..][|w[|head|..]| - 1] == '}'
  {
    assert (head + rest)[|w| - 1] == '}';
    assert forall i :: 0 <= i < |head| - 1 ==> (head + rest)[i] == head[..|head| - 1][i];
  }

  /** A text that ends with a closing brace ends where a token ends. */
  lemma {:induction false} WholeTokens(ts: seq<Token>, w: string) returns (k: nat)
    requires NamesOk(ts) && w <= Flatten(ts) && (w == "" || w[|w| - 1] == '}')
    ensures k <= |ts| && Flatten(ts[..k]) == w
    decreases ts
  {
    if w == "" {
      k := 0;
    } else {
      var head := Flatten([ts[0]]);
      assert ts == [ts[0]] + ts[1..];
      FlattenCons(ts[0], ts[1..]);
      TokenBraces(ts[0]);
      HeadFits(head, Flatten(ts[1..]), w);
      var j := WholeTokens(ts[1..], w[|head|..]);
      k := j + 1;
      assert ts[..k] == [ts[0]] + ts[1..][..j];
      FlattenCons(ts[0], ts[1..][..j]);
    }
  }

  lemma {:induction false} PrefixUnnested(ts: seq<Token>, k: nat)
    requires k <= |ts|
    ensures ClosesNext(ts[..k]) ==> ClosesNext(ts)
    ensures Unnested(ts) ==> Unnested(ts[..k])
    decreases k
  {
    if k > 0 {
      PrefixUnnested(ts[1..], k - 1);
      assert ts[..k][1..] == ts[1..][..k - 1];
    }
  }

  lemma NotAtStart(ts: seq<Token>, name: string)
    requires NamesOk(ts) && Unnested(ts) && NeverOccurs(name)
    ensures !(Placeholder(name) <= Flatten(ts))
  {
    var w := Placeholder(name);
    if w <= Flatten(ts) {
      assert w[|w| - 1] == '}';
      var k := WholeTokens(ts, w);
      PrefixUnnested(ts, k);
      ScanFlatten(ts[..k]);
      assert false;
    }
  }

  lemma ReplaceAfter(c: char, tail: string, rest: string, old_: string, v: string)
    requires '{' !in tail && old_ != "" && old_[0] == '{' && !(old_ <= [c] + (tail + rest))
    ensures ReplaceAll([c] + (tail + rest), old_, v) == [c] + (tail + ReplaceAll(rest, old_, v))
  {
    var s := [c] + (tail + rest);
    ReplaceHead(s, old_, v);
    assert s[1..] == tail + rest;
    ReplaceSkips(tail, rest, old_, v);
  }

  lemma Regroup(head: string, rest: string)
    requires head != ""
    ensures head + rest == [head[0]] + (head[1..] + rest)
  {
  }

  lemma ReplaceAfterToken(head: string, rest: string, old_: string, v: string)
    requires head != "" && '{' !in head[1..] && old_ != "" && old_[0] == '{' && !(old_ <= head + rest)
    ensures ReplaceAll(head + rest, old_, v) == head + ReplaceAll(rest, old_, v)
  {
    Regroup(head, rest);
    ReplaceAfter(head[0], head[1..], rest, old_, v);
    Regroup(head, ReplaceAll(rest, old_, v));
  }

  /** Replacing a placeholder that never occurs changes nothing. */
  lemma {:induction false} ReplaceNever(ts: seq<Token>, name: string, v: string)
    requires NamesOk(ts) && Unnested(ts) && NeverOccurs(name)
    ensures ReplaceAll(Flatten(ts), Placeholder(name), v) == Flatten(ts)
    decreases ts
  {
    if ts == [] {
      ReplaceShort("", Placeholder(name), v);
    } else {
      NotAtStart(ts, name);
      ReplaceNever(ts[1..], name, v);
      assert ts == [ts[0]] + ts[1..];
      FlattenCons(ts[0], ts[1..]);
      TokenBraces(ts[0]);
      ReplaceAfterToken(Flatten([ts[0]]), Flatten(ts[1..]), Placeholder(name), v);
    }
  }

  // ---------------------------------------------------------------- harmless names

  predicate HarmlessMap(m: map<string, string>) {
    forall k :: k in m ==> Harmless(k) && BraceFree(m[k])
  }

  lemma ReplaceHarmless(ts: seq<Token>, name: string, v: string)
    requires NamesOk(ts) && Unnested(ts) && Harmless(name)
    ensures ReplaceAll(Flatten(ts), Placeholder(name), v) == Flatten(Put(ts, name, v))
  {
    if BraceFree(name) {
      UnnestedNoAccident(ts, name);
      ReplaceIsPut(ts, name, v);
    } else {
      ReplaceNever(ts, name, v);
      PutAbsent(ts, name, v);
    }
  }

  lemma {:induction false} HarmlessFold(ts: seq<Token>, order: seq<string>, m: map<string, string>)
    requires forall k :: k in order ==> k in m
    requires HarmlessMap(m) && NamesOk(ts) && Unnested(ts)
    ensures Fold(Flatten(ts), order, m) == Flatten(FoldPut(ts, order, m))
    decreases order
  {
    if order != [] {
      var n := order[0];
      ReplaceHarmless(ts, n, m[n]);
      PutNamesOk(ts, n, m[n]);
      PutKeepsUnnested(ts, n, m[n]);
      HarmlessFold(Put(ts, n, m[n]), order[1..], m);
    }
  }

  /** With harmless names, brace-free values and no nested braces in the template, the replacements in any
      order are one simultaneous substitution. */
  lemma HarmlessIsSimultaneous(template: string, order: seq<string>, m: map<string, string>)
    requires Enumerates(order, m.Keys) && HarmlessMap(m) && NoNestedBraces(template)
    ensures Fold(template, order, m) == Flatten(Subst(Scan(template), m))
  {
    FlattenScan(template);
    ScanNamesOk(template);
    HarmlessFold(Scan(template), order, m);
    FoldPutIsSubst(Scan(template), order, m);
    assert Restrict(m, order) == m;
  }

  lemma {:induction false} NeverInText(ts: seq<Token>, name: string)
    requires NamesOk(ts) && Unnested(ts) && NeverOccurs(name)
    ensures !ContainsPlaceholder(Flatten(ts), name)
    decreases ts
  {
    if ts != [] {
      NeverInText(ts[1..], name);
      assert ts == [ts[0]] + ts[1..];
      FlattenCons(ts[0], ts[1..]);
      TokenBraces(ts[0]);
      NotAtStart(ts, name);
      var head, rest := Flatten([ts[0]]), Flatten(ts[1..]);
      forall i | 0 <= i <= |head + rest|
        ensures !(Placeholder(name) <= (head + rest)[i..])
      {
        if i == 0 {
          assert (head + rest)[0..] == Flatten(ts);
        } else if i < |head| {
          NotInsideToken(head, rest, name, i);
        } else {
          assert (head + rest)[i..] == rest[i - |head|..];
        }
      }
    }
  }

  /** Then no placeholder of a declared variable is left. */
  lemma HarmlessLeavesNone(template: string, order: seq<string>, m: map<string, string>, name: string)
    requires Enumerates(order, m.Keys) && HarmlessMap(m) && NoNestedBraces(template)
    requires name in m
    ensures !ContainsPlaceholder(Fold(template, order, m), name)
  {
    var ts := Scan(template);
    FlattenScan(template);
    ScanNamesOk(template);
    HarmlessFold(ts, order, m);
    FoldPutUnnested(ts, order, m);
    if BraceFree(name) {
      FoldPutIsSubst(ts, order, m);
      assert Restrict(m, order) == m;
      SubstLeavesNone(ts, m, name);
      UnnestedNoAccident(FoldPut(ts, order, m), name);
      NoMentionNoText(FoldPut(ts, order, m), name);
    } else {
      NeverInText(FoldPut(ts, order, m), name);
    }
  }

  // ---------------------------------------------------------------- harmful names

  /** All values and all names but `x` are brace-free. */
  predicate OnlyName(m: map<string, string>, x: string) {
    x in m && BraceFree(m[x]) && BraceFreeMap(m - {x})
  }

  /** With `x` as one of the names, the order is irrelevant for every template without nested braces. */
  ghost predicate SafeName(x: string) {
    forall template: string, m: map<string, string>, o1: seq<string>, o2: seq<string>
      {:trigger Fold(template, o1, m), Fold(template, o2, m), OnlyName(m, x)} ::
      NoNestedBraces(template) && OnlyName(m, x) && Enumerates(o1, m.Keys) && Enumerates(o2, m.Keys) ==>
      Fold(template, o1, m) == Fold(template, o2, m)
  }

  lemma SplitFirst(s: string, k: nat)
    requires s != "" && s[0] == '{' && k + 1 < |s|
    ensures s[k + 1] == '}' ==> s == "" + Placeholder(s[1..k + 1]) + s[k + 2..]
    ensures s == s[..k + 1] + s[k + 1..]
  {
  }

  /** Between an opening brace and a later closing one there is a placeholder with a brace-free name. */
  lemma {:induction false} InnerPlaceholder(s: string) returns (b: string, p: string, q: string)
    requires |s| >= 2 && s[0] == '{' && s[|s| - 1] == '}'
    ensures BraceFree(b) && s == p + Placeholder(b) + q
    decreases |s|
  {
    FirstBraceFound(s[1..], |s| - 2);
    var k := FirstBrace(s[1..]);
    SplitFirst(s, k);
    if s[k + 1] == '}' {
      b, p, q := s[1..k + 1], "", s[k + 2..];
      assert b == s[1..][..k];
    } else {
      b, p, q := InnerPlaceholder(s[k + 1..]);
      p := s[..k + 1] + p;
    }
  }

  lemma ReplaceWhole(old_: string, v: string)
    requires old_ != ""
    ensures ReplaceAll(old_, old_, v) == v
  {
    assert old_[..|old_|] == old_ && old_[|old_|..] == "";
  }

  /** The template is the placeholder itself: replaced first it is gone, replaced second it no longer
      matches, because a placeholder inside it has been removed. */
  lemma HarmfulName(x: string)
    requires !Harmless(x)
    ensures !SafeName(x)
  {
    var t := Placeholder(x);
    var b, p, q := InnerPlaceholder(t);
    var v := LongValue(|t|);
    var m := map[x := v, b := ""];
    var inner := ReplaceAll(t, Placeholder(b), "");
    ReplaceShrinks(p, Placeholder(b), q);
    ReplaceWhole(t, v);
    ReplaceShort(inner, t, v);
    FoldOfTwo(t, x, b, m);
    FoldOfTwo(t, b, x, m);
    NoBraceNoReplacement(v, Placeholder(b));
    assert m - {x} == map[b := ""];
    assert Enumerates([x, b], m.Keys) && Enumerates([b, x], m.Keys);
    assert OnlyName(m, x);
    assert Fold(t, [x, b], m) != Fold(t, [b, x], m);
  }

  lemma FoldOfTwo(s: string, a: string, b: string, m: map<string, string>)
    requires a in m && b in m
    ensures Fold(s, [a, b], m) == ReplaceAll(ReplaceAll(s, Placeholder(a), m[a]), Placeholder(b), m[b])
  {
    assert [a, b] == [a] + [b];
    assert [a][1..] == [];
    FoldSnoc(s, [a], b, m);
  }

  lemma NoBraceNoReplacement(s: string, old_: string)
    requires BraceFree(s) && old_ != "" && old_[0] == '{'
    ensures ReplaceAll(s, old_, "") == s
  {
    ReplaceSkips(s, "", old_, "");
    assert s + "" == s;
  }

  /** The requirement on names is exact as well: a name is harmless in all templates without nested braces
      if and only if it has no braces, or its own placeholder has nested braces and so never occurs. */
  lemma SafeNameIff(x: string)
    ensures SafeName(x) <==> Harmless(x)
  {
    if Harmless(x) {
      forall template: string, m: map<string, string>, o1: seq<string>, o2: seq<string>
        | NoNestedBraces(template) && OnlyName(m, x) && Enumerates(o1, m.Keys) && Enumerates(o2, m.Keys)
        ensures Fold(template, o1, m) == Fold(template, o2, m)
      {
        assert forall k :: k in m ==> k == x || k in m - {x};
        HarmlessIsSimultaneous(template, o1, m);
        HarmlessIsSimultaneous(template, o2, m);
      }
    } else {
      HarmfulName(x);
    }
  }

  // ---------------------------------------------------------------- both kinds exist

  lemma {:induction false} UnopenedUnnested(w: string)
    requires '{' !in w
    ensures Unnested(Lits(w))
    decreases |w|
  {
    if w != "" {
      assert Lits(w)[1..] == Lits(w[1..]);
      UnopenedUnnested(w[1..]);
    }
  }

  lemma SplitNameTokens(a: string, w: string)
    requires BraceFree(a) && '{' !in w
    ensures NoNestedBraces(Placeholder(a) + w)
  {
    var ts := [Hole(a)] + Lits(w);
    UnopenedUnnested(w);
    assert ts[1..] == Lits(w);
    FlattenCons(Hole(a), Lits(w));
    FlattenLits(w);
    ScanFlatten(ts);
  }

  /** A name with a closing brace in it, such as `x}y`, is harmful: `{x}y}` can be read in two ways. */
  lemma SplitNameIsHarmful(a: string, b: string)
    requires BraceFree(a) && BraceFree(b)
    ensures !Harmless(a + "}" + b) && !SafeName(a + "}" + b)
  {
    var x := a + "}" + b;
    SplitNameTokens(a, b + "}");
    assert Placeholder(x) == Placeholder(a) + (b + "}");
    assert x[|a|] == '}';
    SafeNameIff(x);
  }

  /** A name that is itself a placeholder is harmless, although it has braces. */
  lemma PlaceholderNameIsHarmless(b: string)
    requires BraceFree(b)
    ensures !BraceFree(Placeholder(b)) && SafeName(Placeholder(b))
  {
    var x := Placeholder(b);
    var s, rest := Placeholder(x), x + "}";
    assert s == "{" + rest && s[1..] == rest && rest[0] == '{';
    assert FirstBrace(rest) == 0;
    ScanAtHole(b, "}");
    assert "}"[1..] == "" && Scan("}") == [Lit('}')];
    var us := [Hole(b)] + [Lit('}')];
    assert Scan(s) == [Lit('{')] + us;
    assert us[1..] == [Lit('}')] && ([Lit('{')] + us)[1..] == us;
    assert ClosesNext(us[1..]) && ClosesNext(us);
    assert x[0] == '{';
    SafeNameIff(x);
  }
}
