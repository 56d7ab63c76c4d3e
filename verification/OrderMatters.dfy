/** Exactly when the order of the replacements does not matter. */
module OrderMatters {
  import opened Templates
  import opened SubstitutionOrder

  // ---------------------------------------------------------------- orders

  lemma {:induction false} Enumeration(keys: set<string>) returns (order: seq<string>)
    ensures Enumerates(order, keys)
    decreases keys
  {
    if keys == {} {
      order := [];
    } else {
      var k :| k in keys;
      var rest := Enumeration(keys - {k});
      order := [k] + rest;
      assert forall n :: n in order <==> n == k || n in rest;
    }
  }

  lemma {:induction false} ReplaceShrinks(p: string, old_: string, q: string)
    requires old_ != ""
    ensures |ReplaceAll(p + old_ + q, old_, "")| < |p + old_ + q|
    decreases |p|
  {
    var s := p + old_ + q;
    if p == "" {
      assert s[..|old_|] == old_;
      ReplaceNoLonger(s[|old_|..], old_);
    } else if s[..|old_|] == old_ {
      ReplaceNoLonger(s[|old_|..], old_);
    } else {
      ReplaceShrinks(p[1..], old_, q);
      assert s[1..] == p[1..] + old_ + q;
    }
  }

  lemma {:induction false} ReplaceNoLonger(s: string, old_: string)
    requires old_ != ""
    ensures |ReplaceAll(s, old_, "")| <= |s|
    decreases |s|
  {
    if |s| >= |old_| {
      if s[..|old_|] == old_ { ReplaceNoLonger(s[|old_|..], old_); } else { ReplaceNoLonger(s[1..], old_); }
    }
  }

  lemma {:induction false} PutAbsent(ts: seq<Token>, name: string, v: string)
    requires Hole(name) !in ts
    ensures Put(ts, name, v) == ts
    decreases ts
  {
    if ts != [] {
      assert ts[0] in ts && forall t :: t in ts[1..] ==> t in ts;
      PutAbsent(ts[1..], name, v);
      assert ts == [ts[0]] + ts[1..];
    }
  }

  /** A name that is not a placeholder of the template, but becomes one while the others are replaced,
      makes the order matter. */
  lemma FormedNameMatters(template: string, order: seq<string>, x: string, m: map<string, string>, p: string, q: string)
    requires BraceFree(x) && x in m && m[x] == "" && Hole(x) !in Scan(template)
    requires forall k :: k in order ==> k in m
    requires Fold(template, order, m) == p + Placeholder(x) + q
    ensures (forall k :: k in [x] + order ==> k in m) && (forall k :: k in order + [x] ==> k in m)
    ensures Fold(template, [x] + order, m) != Fold(template, order + [x], m)
  {
    var ts := Scan(template);
    FlattenScan(template);
    ScanNamesOk(template);
    ScanNoAccident(template, x);
    ReplaceIsPut(ts, x, "");
    PutAbsent(ts, x, "");
    assert ([x] + order)[1..] == order;
    FoldSnoc(template, order, x, m);
    ReplaceShrinks(p, Placeholder(x), q);
  }

  // ---------------------------------------------------------------- long values cannot fake short names

  lemma {:induction false} SpelledBefore(us: seq<Token>, name: string, v: string, w: string)
    requires BraceFree(v) && 0 < |w| <= |v| && w[|w| - 1] == '}'
    requires Lits(w) <= Put(us, name, v)
    ensures Lits(w) <= us
    decreases us
  {
    assert us != [];
    var tail := Put(us[1..], name, v);
    assert (Lits(v) + tail)[|w| - 1] == Lit(v[|w| - 1]) != Lits(w)[|w| - 1];
    if us[0] != Hole(name) {
      assert Put(us, name, v) == [us[0]] + tail;
      assert Lits(w)[0] == us[0];
      assert us == [us[0]] + us[1..];
      assert Lits(w) == [us[0]] + Lits(w[1..]);
      if |w| > 1 {
        assert Lits(w[1..]) == Lits(w)[1..];
        assert Lits(w[1..]) <= tail;
        SpelledBefore(us[1..], name, v, w[1..]);
      }
    }
  }

  lemma {:induction false} PutNoAccident(ts: seq<Token>, name: string, v: string, n: string)
    requires BraceFree(v) && |n| < |v| && BraceFree(n) && NoAccident(ts, n)
    ensures NoAccident(Put(ts, name, v), n)
    decreases ts
  {
    var us := Put(ts, name, v);
    assert Lits(Placeholder(n))[0] == Lit('{');
    if ts != [] {
      NoAccidentTail(ts, n);
      PutNoAccident(ts[1..], name, v, n);
      assert ts == [ts[0]] + ts[1..];
      var head := if ts[0] == Hole(name) then Lits(v) else [ts[0]];
      var tail := Put(ts[1..], name, v);
      forall i | 0 <= i <= |us|
        ensures !Accident(us[i..], n)
      {
        if |head| <= i {
          assert us[i..] == tail[i - |head|..];
        } else {
          assert us[i..][0] == head[i];
          if Accident(us[i..], n) {
            assert head == [Lit('{')] && ts[0] == Lit('{');
            assert us[0..] == us;
            assert Lits(Placeholder(n)) == [Lit('{')] + Lits(n + "}");
            assert Lits(n + "}") <= us[1..] == tail;
            SpelledBefore(ts[1..], name, v, n + "}");
            assert false;
          }
        }
      }
    }
  }

  lemma {:induction false} FoldIsFoldPutLong(ts: seq<Token>, order: seq<string>, m: map<string, string>, v: string)
    requires BraceFree(v) && NamesOk(ts)
    requires forall k :: k in order ==> k in m && m[k] == v && BraceFree(k) && |k| < |v| && NoAccident(ts, k)
    ensures Fold(Flatten(ts), order, m) == Flatten(FoldPut(ts, order, m))
    decreases order
  {
    if order != [] {
      var n := order[0];
      ReplaceIsPut(ts, n, v);
      PutNamesOk(ts, n, v);
      forall k | k in order[1..]
        ensures k in order && NoAccident(Put(ts, n, v), k)
      {
        PutNoAccident(ts, n, v, k);
      }
      FoldIsFoldPutLong(Put(ts, n, v), order[1..], m, v);
    }
  }

  // ---------------------------------------------------------------- a nested template has a formed name

  lemma {:induction false} FindNested(ts: seq<Token>) returns (i: nat)
    requires !Unnested(ts)
    ensures i < |ts| && ts[i] == Lit('{') && ClosesNext(ts[i + 1..])
    decreases ts
  {
    if ts[0] == Lit('{') && ClosesNext(ts[1..]) {
      i := 0;
    } else {
      var k := FindNested(ts[1..]);
      i := k + 1;
      assert ts[1..][k + 1..] == ts[i + 1..];
    }
  }

  lemma LitsConcat(a: string, b: string)
    ensures Lits(a + b) == Lits(a) + Lits(b)
  {
  }

  lemma {:induction false} FormedName(us: seq<Token>, m: map<string, string>, v: string) returns (x: string)
    requires ClosesNext(us) && BraceFree(v)
    requires forall t :: t in us && t.Hole? ==> t.name in m && m[t.name] == v
    ensures BraceFree(x) && Lits(x + "}") <= Subst(us, m)
    ensures |x| >= |v| || Lits(x + "}") <= us
    decreases us
  {
    assert us == [us[0]] + us[1..];
    assert us[0] in us && forall t :: t in us[1..] ==> t in us;
    if us[0] == Lit('}') {
      x := "";
      assert Lits("}") == [Lit('}')];
    } else {
      var y := FormedName(us[1..], m, v);
      var head := if us[0].Hole? then v else [us[0].c];
      x := head + y;
      LitsConcat(head, y + "}");
      assert x + "}" == head + (y + "}");
      assert us[0].Lit? ==> Lits(head) == [us[0]];
    }
  }

  function NamesOf(ts: seq<Token>): set<string> {
    set t | t in ts && t.Hole? :: t.name
  }

  /** Every placeholder gets the same value. */
  function Given(ts: seq<Token>, v: string): map<string, string> {
    map n | n in NamesOf(ts) :: v
  }

  lemma {:induction false} NamesAreShort(ts: seq<Token>, name: string)
    requires Hole(name) in ts
    ensures |name| < |Flatten(ts)|
    decreases ts
  {
    if ts[0] != Hole(name) {
      assert Hole(name) in ts[1..];
      NamesAreShort(ts[1..], name);
    }
  }

  lemma SubstSplit(ts: seq<Token>, i: nat, x: string, m: map<string, string>) returns (p: string, q: string)
    requires i < |ts| && ts[i] == Lit('{') && Lits(x + "}") <= Subst(ts[i + 1..], m)
    ensures Flatten(Subst(ts, m)) == p + Placeholder(x) + q
  {
    var tail := Subst(ts[i + 1..], m);
    assert ts == ts[..i] + ([Lit('{')] + ts[i + 1..]);
    SubstConcat(ts[..i], [Lit('{')] + ts[i + 1..], m);
    assert Subst([Lit('{')] + ts[i + 1..], m) == [Lit('{')] + tail;
    FlattenConcat(Subst(ts[..i], m), [Lit('{')] + tail);
    p := Flatten(Subst(ts[..i], m));
    q := AfterPlaceholder(tail, x);
  }

  lemma AfterPlaceholder(tail: seq<Token>, x: string) returns (q: string)
    requires Lits(x + "}") <= tail
    ensures Flatten([Lit('{')] + tail) == Placeholder(x) + q
  {
    assert Lits(Placeholder(x)) == [Lit('{')] + Lits(x + "}");
    FlattenPrefix(Placeholder(x), [Lit('{')] + tail);
    q := Flatten([Lit('{')] + tail)[|Placeholder(x)|..];
  }

  /** The names of a template, and why all of them can be given the value `v`. */
  lemma NamesReady(template: string, v: string)
    requires |template| < |v|
    ensures NamesOk(Scan(template)) && Flatten(Scan(template)) == template
    ensures forall n :: n in NamesOf(Scan(template)) ==>
              BraceFree(n) && |n| < |v| && NoAccident(Scan(template), n)
  {
    FlattenScan(template);
    ScanNamesOk(template);
    forall n | n in NamesOf(Scan(template))
      ensures BraceFree(n) && |n| < |v| && NoAccident(Scan(template), n)
    {
      assert Hole(n) in Scan(template);
      NamesAreShort(Scan(template), n);
      ScanNoAccident(template, n);
    }
  }

  /** In a nested template, giving every placeholder the same long value makes a new one appear. */
  lemma NewNameAppears(template: string, v: string) returns (x: string, p: string, q: string)
    requires !NoNestedBraces(template) && |template| < |v| && BraceFree(v)
    ensures BraceFree(x) && x !in NamesOf(Scan(template))
    ensures Flatten(Subst(Scan(template), Given(Scan(template), v))) == p + Placeholder(x) + q
  {
    var ts := Scan(template);
    NamesReady(template, v);
    var given := Given(ts, v);
    var i := FindNested(ts);
    assert forall t :: t in ts[i + 1..] ==> t in ts;
    x := FormedName(ts[i + 1..], given, v);
    if |x| < |v| { NotSpelled(template, i, x); }
    p, q := SubstSplit(ts, i, x, given);
  }

  lemma RestrictIsGiven(ts: seq<Token>, order: seq<string>, m: map<string, string>, v: string)
    requires Enumerates(order, NamesOf(ts))
    requires forall n :: n in order ==> n in m && m[n] == v
    ensures Restrict(m, order) == Given(ts, v)
  {
  }

  /** Giving every placeholder the same long value, one after the other. */
  lemma LongFold(template: string, order: seq<string>, m: map<string, string>, v: string)
    requires |template| < |v| && BraceFree(v) && Enumerates(order, NamesOf(Scan(template)))
    requires forall n :: n in order ==> n in m && m[n] == v
    ensures Fold(template, order, m) == Flatten(Subst(Scan(template), Given(Scan(template), v)))
  {
    NamesReady(template, v);
    FoldIsFoldPutLong(Scan(template), order, m, v);
    FoldPutIsSubst(Scan(template), order, m);
    RestrictIsGiven(Scan(template), order, m, v);
  }

  lemma GivenAndNew(template: string, v: string, x: string)
    requires |template| < |v| && BraceFree(v) && BraceFree(x)
    ensures BraceFreeMap(Given(Scan(template), v)[x := ""])
    ensures Given(Scan(template), v)[x := ""].Keys == NamesOf(Scan(template)) + {x}
  {
    var ts := Scan(template);
    NamesReady(template, v);
    GivenHolds(ts, v);
    var m := Given(ts, v)[x := ""];
    assert m.Keys == Given(ts, v).Keys + {x};
    forall k | k in m
      ensures BraceFree(k) && BraceFree(m[k])
    {
      if k != x { assert k in NamesOf(ts); }
    }
  }

  lemma GivenHolds(ts: seq<Token>, v: string)
    ensures Given(ts, v).Keys == NamesOf(ts)
    ensures forall n :: n in NamesOf(ts) ==> n in Given(ts, v) && Given(ts, v)[n] == v
  {
  }

  /** Nested braces really do break it: there are brace-free variables and two orders with different results. */
  lemma NestedBracesMatter(template: string) returns (m: map<string, string>, o1: seq<string>, o2: seq<string>)
    requires !NoNestedBraces(template)
    ensures BraceFreeMap(m) && Enumerates(o1, m.Keys) && Enumerates(o2, m.Keys)
    ensures Fold(template, o1, m) != Fold(template, o2, m)
  {
    var v := LongValue(|template|);
    var names := NamesOf(Scan(template));
    var x, p, q := NewNameAppears(template, v);
    m := Given(Scan(template), v)[x := ""];
    GivenAndNew(template, v, x);
    var order := Enumeration(names);
    LongFold(template, order, m, v);
    FormedNameMatters(template, order, x, m, p, q);
    EnumeratesMore(order, names, x);
    o1, o2 := [x] + order, order + [x];
  }

  function LongValue(n: nat): (v: string)
    ensures |v| > n && BraceFree(v)
  {
    seq(n + 1, _ => 'a')
  }

  lemma NotSpelled(template: string, i: nat, x: string)
    requires i < |Scan(template)| && Scan(template)[i] == Lit('{') && BraceFree(x)
    ensures !(Lits(x + "}") <= Scan(template)[i + 1..])
  {
    var ts := Scan(template);
    ScanNoAccident(template, x);
    assert ts[i..] == [Lit('{')] + ts[i + 1..];
    assert Lits(Placeholder(x)) == [Lit('{')] + Lits(x + "}");
    assert !Accident(ts[i..], x);
  }

  // ---------------------------------------------------------------- exactly

  ghost predicate OrderIndependent(template: string) {
    forall m: map<string, string>, o1: seq<string>, o2: seq<string> ::
      BraceFreeMap(m) && Enumerates(o1, m.Keys) && Enumerates(o2, m.Keys) ==>
      Fold(template, o1, m) == Fold(template, o2, m)
  }

  /** For brace-free names and values, the order is irrelevant exactly for the templates without
      nested braces. */
  lemma OrderIndependentIff(template: string)
    ensures OrderIndependent(template) <==> NoNestedBraces(template)
  {
    if NoNestedBraces(template) {
      forall m: map<string, string>, o1: seq<string>, o2: seq<string>
        | BraceFreeMap(m) && Enumerates(o1, m.Keys) && Enumerates(o2, m.Keys)
        ensures Fold(template, o1, m) == Fold(template, o2, m)
      {
        FoldIsSimultaneous(template, o1, m);
        FoldIsSimultaneous(template, o2, m);
      }
    } else {
      var m, o1, o2 := NestedBracesMatter(template);
    }
  }

  /** All variables but `a` are brace-free. */
  predicate OnlyValue(m: map<string, string>, a: string, w: string) {
    a in m && m[a] == w && BraceFree(a) && BraceFreeMap(m - {a})
  }

  /** With `w` as the value of one variable, the order is irrelevant for every template without nested braces. */
  ghost predicate SafeValue(w: string) {
    forall template: string, m: map<string, string>, a: string, o1: seq<string>, o2: seq<string>
      {:trigger Fold(template, o1, m), Fold(template, o2, m), OnlyValue(m, a, w)} ::
      NoNestedBraces(template) && OnlyValue(m, a, w) && Enumerates(o1, m.Keys) && Enumerates(o2, m.Keys) ==>
      Fold(template, o1, m) == Fold(template, o2, m)
  }

  lemma {:induction false} LastOpening(w: string) returns (p: string, q: string)
    requires '{' in w
    ensures w == p + "{" + q && '{' !in q
    decreases |w|
  {
    if '{' in w[1..] {
      var p', q' := LastOpening(w[1..]);
      p, q := [w[0]] + p', q';
    } else {
      assert w[0] == '{';
      p, q := "", w[1..];
    }
  }

  lemma {:induction false} FirstBraceFound(s: string, i: nat)
    requires i < |s| && IsBrace(s[i])
    ensures FirstBrace(s) <= i
    decreases i
  {
    if i > 0 { FirstBraceFound(s[1..], i - 1); }
  }

  /** The text up to the first brace, if that is a closing one, is a name that an opening brace in front completes. */
  lemma ClosingForms(w: string) returns (x: string, q: string)
    requires '}' in w && '{' !in w
    ensures BraceFree(x) && "{" + w == Placeholder(x) + q
  {
    var i :| 0 <= i < |w| && w[i] == '}';
    FirstBraceFound(w, i);
    var k := FirstBrace(w);
    x, q := w[..k], w[k + 1..];
    assert w == x + "}" + q;
    assert "{" + w == "{" + x + "}" + q;
  }

  /** A value with a brace forms a placeholder in a suitable template. */
  lemma BraceForms(w: string) returns (before: string, after: string, x: string, p: string, q: string)
    requires !BraceFree(w)
    ensures BraceFree(x) && before + w + after == p + Placeholder(x) + q
    ensures (before == "" && after == "}") || (before == "{" && after == "")
  {
    if '{' in w {
      var l, r := LastOpening(w);
      assert (r + "}")[|r|] == '}';
      x, q := ClosingForms(r + "}");
      before, after, p := "", "}", l;
      assert before + w + after == l + ("{" + (r + "}"));
    } else {
      x, q := ClosingForms(w);
      before, after, p := "{", "", "";
      assert before + w + after == "{" + w;
    }
  }

  lemma ScanHoleThen(a: string, after: string)
    requires BraceFree(a) && (after == "" || after == "}")
    ensures Scan(Placeholder(a) + after) == [Hole(a)] + Lits(after)
  {
    var inner := Placeholder(a) + after;
    FirstBraceAt(inner[1..], |a|);
    assert inner[1..][..|a|] == a && inner[1..][|a| + 1..] == after;
    if after == "}" {
      assert after[1..] == "" && Lits("}") == [Lit('}')];
    }
  }

  lemma ScanOpenThenHole(a: string)
    requires BraceFree(a)
    ensures Scan("{" + Placeholder(a)) == [Lit('{'), Hole(a)]
  {
    var s := "{" + Placeholder(a);
    ScanHoleThen(a, "");
    assert Placeholder(a) + "" == Placeholder(a);
    assert s[1..] == Placeholder(a);
    assert FirstBrace(s[1..]) == 0 && s[1..][0] == '{';
  }

  /** The two templates that expose a value with a brace: `{a}}` and `{{a}`. */
  lemma ExposingTemplate(before: string, after: string, a: string) returns (template: string)
    requires (before == "" && after == "}") || (before == "{" && after == "")
    requires BraceFree(a)
    ensures Scan(template) == Lits(before) + [Hole(a)] + Lits(after)
    ensures forall n :: Hole(n) in Scan(template) ==> n == a
    ensures NoNestedBraces(template)
  {
    if before == "" {
      template := Placeholder(a) + "}";
      ScanHoleThen(a, "}");
      var ts := [Hole(a), Lit('}')];
      assert Lits("}") == [Lit('}')] && Scan(template) == ts;
      assert ts[1..] == [Lit('}')] && ts[1..][1..] == [];
      assert Unnested(ts[1..]);
    } else {
      template := "{" + Placeholder(a);
      ScanOpenThenHole(a);
      var ts := [Lit('{'), Hole(a)];
      assert Lits("{") == [Lit('{')] && Scan(template) == ts;
      var us := [Hole(a)];
      assert us[1..] == [] && ts[1..] == us;
      assert Unnested(us[1..]) && !ClosesNext(us[1..]);
      assert Unnested(us) && !ClosesNext(us);
    }
  }

  /** The requirement on values is exact as well. */
  lemma SafeValueIff(w: string)
    ensures SafeValue(w) <==> BraceFree(w)
  {
    if BraceFree(w) {
      forall template: string, m: map<string, string>, a: string, o1: seq<string>, o2: seq<string>
        | NoNestedBraces(template) && OnlyValue(m, a, w) && Enumerates(o1, m.Keys) && Enumerates(o2, m.Keys)
        ensures Fold(template, o1, m) == Fold(template, o2, m)
      {
        assert forall k :: k in m ==> k == a || k in m - {a};
        FoldIsSimultaneous(template, o1, m);
        FoldIsSimultaneous(template, o2, m);
      }
    } else {
      UnsafeValue(w);
    }
  }

  lemma ReplaceInTemplate(template: string, before: string, after: string, a: string, w: string)
    requires BraceFree(a) && Scan(template) == Lits(before) + [Hole(a)] + Lits(after)
    ensures ReplaceAll(template, Placeholder(a), w) == before + w + after
  {
    FlattenScan(template);
    ScanNamesOk(template);
    ScanNoAccident(template, a);
    ReplaceIsPut(Scan(template), a, w);
    PutInMiddle(before, after, a, w);
  }

  /** Two variables, one with the value `w` and one whose placeholder `w` completes. */
  lemma TwoOrdersDiffer(template: string, a: string, w: string, x: string, p: string, q: string)
    requires BraceFree(a) && BraceFree(x) && a != x && Hole(x) !in Scan(template)
    requires ReplaceAll(template, Placeholder(a), w) == p + Placeholder(x) + q
    ensures var m := map[a := w, x := ""];
      Enumerates([x, a], m.Keys) && Enumerates([a, x], m.Keys) && Fold(template, [x, a], m) != Fold(template, [a, x], m)
  {
    var m := map[a := w, x := ""];
    assert [a][1..] == [];
    assert Fold(template, [a], m) == p + Placeholder(x) + q;
    FormedNameMatters(template, [a], x, m, p, q);
    assert [x] + [a] == [x, a] && [a] + [x] == [a, x];
  }

  lemma UnsafeValue(w: string)
    requires !BraceFree(w)
    ensures !SafeValue(w)
  {
    var before, after, x, p, q := BraceForms(w);
    var a := x + "a";
    var template := ExposingTemplate(before, after, a);
    ReplaceInTemplate(template, before, after, a, w);
    assert |a| == |x| + 1;
    TwoOrdersDiffer(template, a, w, x, p, q);
    TwoVariables(a, w, x);
    var m := map[a := w, x := ""];
    assert Fold(template, [x, a], m) != Fold(template, [a, x], m);
  }

  lemma TwoVariables(a: string, w: string, x: string)
    requires BraceFree(a) && BraceFree(x) && a != x
    ensures OnlyValue(map[a := w, x := ""], a, w)
  {
    assert map[a := w, x := ""] - {a} == map[x := ""];
  }

  lemma PutInMiddle(before: string, after: string, a: string, w: string)
    ensures Flatten(Put(Lits(before) + [Hole(a)] + Lits(after), a, w)) == before + w + after
  {
    PutConcat(Lits(before) + [Hole(a)], Lits(after), a, w);
    PutConcat(Lits(before), [Hole(a)], a, w);
    PutAbsent(Lits(before), a, w);
    PutAbsent(Lits(after), a, w);
    assert Put([Hole(a)], a, w) == Lits(w) by { assert [Hole(a)][1..] == []; }
    FlattenConcat(Lits(before) + Lits(w), Lits(after));
    FlattenConcat(Lits(before), Lits(w));
    FlattenLits(before);
    FlattenLits(w);
    FlattenLits(after);
  }

  lemma {:induction false} PutConcat(ts: seq<Token>, us: seq<Token>, name: string, v: string)
    ensures Put(ts + us, name, v) == Put(ts, name, v) + Put(us, name, v)
    decreases ts
  {
    if ts == [] {
      assert ts + us == us;
    } else {
      assert (ts + us)[1..] == ts[1..] + us;
      PutConcat(ts[1..], us, name, v);
    }
  }
}
