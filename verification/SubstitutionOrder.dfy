/** Replacing several placeholders one after the other, in whatever order a map is traversed. */
module SubstitutionOrder {
  import opened Templates

  /** The replacements of all names in `order`, one after the other. */
  function Fold(s: string, order: seq<string>, m: map<string, string>): string
    requires forall k :: k in order ==> k in m
    decreases order
  {
    if order == [] then s
    else Fold(ReplaceAll(s, Placeholder(order[0]), m[order[0]]), order[1..], m)
  }

  /** `order` lists every key exactly once. */
  ghost predicate Enumerates(order: seq<string>, keys: set<string>) {
    && (forall k :: k in order <==> k in keys)
    && (forall i, j :: 0 <= i < j < |order| ==> order[i] != order[j])
  }

  lemma EnumeratesMore(order: seq<string>, keys: set<string>, x: string)
    requires Enumerates(order, keys) && x !in keys
    ensures Enumerates([x] + order, keys + {x}) && Enumerates(order + [x], keys + {x})
  {
    assert forall n :: n in [x] + order <==> n == x || n in order;
    assert forall n :: n in order + [x] <==> n == x || n in order;
  }

  lemma {:induction false} FoldSnoc(s: string, order: seq<string>, x: string, m: map<string, string>)
    requires x in m && forall k :: k in order ==> k in m
    ensures forall k :: k in order + [x] ==> k in m
    ensures Fold(s, order + [x], m) == ReplaceAll(Fold(s, order, m), Placeholder(x), m[x])
    decreases order
  {
    if order == [] {
      assert order + [x] == [x];
      assert Fold(ReplaceAll(s, Placeholder(x), m[x]), [x][1..], m) == ReplaceAll(s, Placeholder(x), m[x]);
    } else {
      assert (order + [x])[1..] == order[1..] + [x];
      FoldSnoc(ReplaceAll(s, Placeholder(order[0]), m[order[0]]), order[1..], x, m);
    }
  }

  /** All placeholders replaced at once. */
  function Subst(ts: seq<Token>, m: map<string, string>): seq<Token> {
    if ts == [] then []
    else (if ts[0].Hole? && ts[0].name in m then Lits(m[ts[0].name]) else [ts[0]]) + Subst(ts[1..], m)
  }

  predicate BraceFreeMap(m: map<string, string>) {
    forall k :: k in m ==> BraceFree(k) && BraceFree(m[k])
  }

  // ---------------------------------------------------------------- nested braces

  /** The first brace among the literal tokens is a closing one. */
  predicate ClosesNext(ts: seq<Token>) {
    ts != [] &&
    if ts[0] == Lit('}') then true
    else if ts[0] == Lit('{') then false
    else ClosesNext(ts[1..])
  }

  /** No opening brace outside a placeholder is closed again, with or without placeholders in between. */
  predicate Unnested(ts: seq<Token>) {
    ts == [] || ((ts[0] == Lit('{') ==> !ClosesNext(ts[1..])) && Unnested(ts[1..]))
  }

  predicate NoNestedBraces(template: string) {
    Unnested(Scan(template))
  }

  lemma {:induction false} SpelledCloses(ts: seq<Token>, w: string)
    requires BraceFree(w) && Lits(w + "}") <= ts
    ensures ClosesNext(ts)
    decreases |w|
  {
    assert ts[|w|] == Lits(w + "}")[|w|] == Lit('}');
    if w != "" {
      assert ts[0] == Lits(w + "}")[0] == Lit(w[0]);
      assert Lits(w + "}")[1..] == Lits(w[1..] + "}");
      assert Lits(w[1..] + "}") <= ts[1..];
      SpelledCloses(ts[1..], w[1..]);
    }
  }

  lemma {:induction false} UnnestedNoAccident(ts: seq<Token>, name: string)
    requires Unnested(ts) && BraceFree(name)
    ensures NoAccident(ts, name)
    decreases ts
  {
    if ts != [] {
      UnnestedNoAccident(ts[1..], name);
      if Accident(ts, name) {
        assert ts[0] == Lits(Placeholder(name))[0] == Lit('{');
        assert Lits(Placeholder(name))[1..] == Lits(name + "}");
        SpelledCloses(ts[1..], name);
        assert false;
      }
    }
    forall i | 0 <= i <= |ts|
      ensures !Accident(ts[i..], name)
    {
      if i == 0 { assert ts[0..] == ts; } else { assert ts[i..] == ts[1..][i - 1..]; }
    }
  }

  lemma {:induction false} TextKeepsClosing(v: string, ts: seq<Token>)
    requires BraceFree(v)
    ensures ClosesNext(Lits(v) + ts) == ClosesNext(ts)
    ensures Unnested(ts) ==> Unnested(Lits(v) + ts)
    decreases |v|
  {
    if v == "" {
      assert Lits(v) + ts == ts;
    } else {
      TextKeepsClosing(v[1..], ts);
      assert (Lits(v) + ts)[1..] == Lits(v[1..]) + ts;
    }
  }

  lemma {:induction false} PutKeepsUnnested(ts: seq<Token>, name: string, v: string)
    requires BraceFree(v)
    ensures ClosesNext(Put(ts, name, v)) == ClosesNext(ts)
    ensures Unnested(ts) ==> Unnested(Put(ts, name, v))
    decreases ts
  {
    if ts != [] {
      PutKeepsUnnested(ts[1..], name, v);
      TextKeepsClosing(v, Put(ts[1..], name, v));
      if ts[0] != Hole(name) {
        assert ([ts[0]] + Put(ts[1..], name, v))[1..] == Put(ts[1..], name, v);
      }
    }
  }

  lemma {:induction false} PutNamesOk(ts: seq<Token>, name: string, v: string)
    requires NamesOk(ts)
    ensures NamesOk(Put(ts, name, v))
    decreases ts
  {
    if ts != [] {
      assert NamesOk(ts[1..]);
      PutNamesOk(ts[1..], name, v);
    }
  }

  // ---------------------------------------------------------------- one after the other is all at once

  lemma {:induction false} SubstConcat(ts: seq<Token>, us: seq<Token>, m: map<string, string>)
    ensures Subst(ts + us, m) == Subst(ts, m) + Subst(us, m)
    decreases ts
  {
    if ts == [] {
      assert ts + us == us;
    } else {
      assert (ts + us)[1..] == ts[1..] + us;
      SubstConcat(ts[1..], us, m);
    }
  }

  lemma {:induction false} SubstLits(v: string, m: map<string, string>)
    ensures Subst(Lits(v), m) == Lits(v)
    decreases |v|
  {
    if v != "" {
      assert Lits(v)[1..] == Lits(v[1..]);
      SubstLits(v[1..], m);
    }
  }

  /** Replacing one name first and all others then is replacing all of them. */
  lemma {:induction false} PutThenSubst(ts: seq<Token>, name: string, m: map<string, string>, rest: map<string, string>)
    requires name in m && rest.Keys <= m.Keys <= rest.Keys + {name}
    requires forall k :: k in rest ==> rest[k] == m[k]
    ensures Subst(Put(ts, name, m[name]), rest) == Subst(ts, m)
    decreases ts
  {
    if ts != [] {
      PutThenSubst(ts[1..], name, m, rest);
      var head := if ts[0] == Hole(name) then Lits(m[name]) else [ts[0]];
      SubstConcat(head, Put(ts[1..], name, m[name]), rest);
      SubstLits(m[name], rest);
      assert ts[0] != Hole(name) ==> head[1..] == [];
    }
  }

  function Restrict(m: map<string, string>, order: seq<string>): map<string, string> {
    map k | k in m && k in order :: m[k]
  }

  lemma {:induction false} SubstNothing(ts: seq<Token>, m: map<string, string>)
    requires m == map[]
    ensures Subst(ts, m) == ts
    decreases ts
  {
    if ts != [] { SubstNothing(ts[1..], m); }
  }

  /** The tokens after one replacement at a time. */
  function FoldPut(ts: seq<Token>, order: seq<string>, m: map<string, string>): seq<Token>
    requires forall k :: k in order ==> k in m
    decreases order
  {
    if order == [] then ts else FoldPut(Put(ts, order[0], m[order[0]]), order[1..], m)
  }

  /** At the level of tokens the order never matters. */
  lemma {:induction false} FoldPutIsSubst(ts: seq<Token>, order: seq<string>, m: map<string, string>)
    requires forall k :: k in order ==> k in m
    ensures FoldPut(ts, order, m) == Subst(ts, Restrict(m, order))
    decreases order
  {
    if order == [] {
      SubstNothing(ts, Restrict(m, order));
    } else {
      var n := order[0];
      FoldPutIsSubst(Put(ts, n, m[n]), order[1..], m);
      assert forall k :: k in order <==> k == n || k in order[1..];
      PutThenSubst(ts, n, Restrict(m, order), Restrict(m, order[1..]));
    }
  }

  lemma {:induction false} FoldIsFoldPut(ts: seq<Token>, order: seq<string>, m: map<string, string>)
    requires forall k :: k in order ==> k in m
    requires BraceFreeMap(m) && NamesOk(ts) && Unnested(ts)
    ensures Fold(Flatten(ts), order, m) == Flatten(FoldPut(ts, order, m))
    decreases order
  {
    if order != [] {
      var n := order[0];
      UnnestedNoAccident(ts, n);
      ReplaceIsPut(ts, n, m[n]);
      PutNamesOk(ts, n, m[n]);
      PutKeepsUnnested(ts, n, m[n]);
      FoldIsFoldPut(Put(ts, n, m[n]), order[1..], m);
    }
  }

  /** For brace-free names and values and a template without nested braces, replacing one name after
      the other, in any order, is replacing all of them at once. */
  lemma FoldIsSimultaneous(template: string, order: seq<string>, m: map<string, string>)
    requires Enumerates(order, m.Keys) && BraceFreeMap(m) && NoNestedBraces(template)
    ensures Fold(template, order, m) == Flatten(Subst(Scan(template), m))
  {
    FlattenScan(template);
    ScanNamesOk(template);
    FoldIsFoldPut(Scan(template), order, m);
    FoldPutIsSubst(Scan(template), order, m);
    assert Restrict(m, order) == m;
  }

  // ---------------------------------------------------------------- nothing is left over

  predicate Mentions(ts: seq<Token>, name: string) { Hole(name) in ts }

  lemma {:induction false} SubstLeavesNone(ts: seq<Token>, m: map<string, string>, name: string)
    ensures Mentions(Subst(ts, m), name) <==> Mentions(ts, name) && name !in m
    decreases ts
  {
    if ts != [] {
      SubstLeavesNone(ts[1..], m, name);
      assert Mentions(ts, name) <==> ts[0] == Hole(name) || Mentions(ts[1..], name);
    }
  }

  /** A string contains the placeholder text of `name`. */
  predicate ContainsPlaceholder(s: string, name: string) {
    exists i :: 0 <= i <= |s| && Placeholder(name) <= s[i..]
  }

  lemma NotInsideToken(head: string, rest: string, name: string, i: nat)
    requires 0 < i < |head| && '{' !in head[1..]
    ensures !(Placeholder(name) <= (head + rest)[i..])
  {
    assert (head + rest)[i..][0] == head[1..][i - 1];
  }

  lemma NotAtToken(ts: seq<Token>, name: string)
    requires ts != [] && NamesOk(ts) && BraceFree(name) && !Accident(ts, name) && !Mentions(ts, name)
    ensures !(Placeholder(name) <= Flatten(ts))
  {
    if Placeholder(name) <= Flatten(ts) {
      match ts[0]
      case Lit(c) => LiteralPlaceholder(ts, name);
      case Hole(m) => HeadIsPlaceholder(Flatten(ts[1..]), m, name);
    }
  }

  lemma {:induction false} NoMentionNoText(ts: seq<Token>, name: string)
    requires NamesOk(ts) && BraceFree(name) && NoAccident(ts, name) && !Mentions(ts, name)
    ensures !ContainsPlaceholder(Flatten(ts), name)
    decreases ts
  {
    if ts == [] {
      assert forall i :: 0 <= i <= 0 ==> |Flatten(ts)[i..]| == 0;
    } else {
      NoAccidentTail(ts, name);
      NoMentionNoText(ts[1..], name);
      assert ts == [ts[0]] + ts[1..];
      FlattenCons(ts[0], ts[1..]);
      TokenBraces(ts[0]);
      NotAtToken(ts, name);
      var head, rest := Flatten([ts[0]]), Flatten(ts[1..]);
      forall i | 0 <= i <= |head + rest|
        ensures !(Placeholder(name) <= (head + rest)[i..])
      {
        if i == 0 {
          assert (head + rest)[0..] == Flatten(ts);
        } else if i < |head| {
          NotInsideToken(head, rest, name, i);
        } else {
          assert (head + rest)[i..] == rest[i - |head|..];
        }
      }
    }
  }

  lemma {:induction false} FoldPutUnnested(ts: seq<Token>, order: seq<string>, m: map<string, string>)
    requires forall k :: k in order ==> k in m
    requires (forall k :: k in m ==> BraceFree(m[k])) && NamesOk(ts) && Unnested(ts)
    ensures NamesOk(FoldPut(ts, order, m)) && Unnested(FoldPut(ts, order, m))
    decreases order
  {
    if order != [] {
      PutNamesOk(ts, order[0], m[order[0]]);
      PutKeepsUnnested(ts, order[0], m[order[0]]);
      FoldPutUnnested(Put(ts, order[0], m[order[0]]), order[1..], m);
    }
  }
}
