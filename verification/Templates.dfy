/** Placeholder substitution by repeated string replacement, and the token level at which it means
    what it is meant to mean. */
module Templates {

  // ---------------------------------------------------------------- strings

  /** `strings.Replace(s, old, new, -1)`: all leftmost, non-overlapping occurrences. */
  function ReplaceAll(s: string, old_: string, new_: string): string
    requires old_ != ""
    decreases |s|
  {
    if |s| < |old_| then s
    else if s[..|old_|] == old_ then new_ + ReplaceAll(s[|old_|..], old_, new_)
    else [s[0]] + ReplaceAll(s[1..], old_, new_)
  }

  function Placeholder(name: string): (r: string)
    ensures |r| == |name| + 2
  {
    "{" + name + "}"
  }

  predicate IsBrace(c: char) { c == '{' || c == '}' }

  predicate BraceFree(s: string) { forall i :: 0 <= i < |s| ==> !IsBrace(s[i]) }

  // ---------------------------------------------------------------- tokens

  datatype Token = Lit(c: char) | Hole(name: string)

  function Lits(s: string): (r: seq<Token>)
    ensures |r| == |s| && forall i :: 0 <= i < |s| ==> r[i] == Lit(s[i])
  {
    seq(|s|, i requires 0 <= i < |s| => Lit(s[i]))
  }

  function Flatten(ts: seq<Token>): string {
    if ts == [] then ""
    else (match ts[0] case Lit(c) => [c] case Hole(n) => Placeholder(n)) + Flatten(ts[1..])
  }

  /** Position of the first brace, or the length if there is none. */
  function FirstBrace(s: string): (k: nat)
    ensures k <= |s| && BraceFree(s[..k]) && (k < |s| ==> IsBrace(s[k]))
  {
    if s == "" then 0 else if IsBrace(s[0]) then 0 else FirstBrace(s[1..]) + 1
  }

  /** A placeholder is an opening brace whose next brace is closing; everything else is literal text. */
  function Scan(s: string): seq<Token>
    decreases |s|
  {
    if s == "" then []
    else
      var rest := s[1..];
      var k := FirstBrace(rest);
      if s[0] == '{' && k < |rest| && rest[k] == '}' then [Hole(rest[..k])] + Scan(rest[k + 1..])
      else [Lit(s[0])] + Scan(rest)
  }

  lemma {:induction false} FlattenConcat(ts: seq<Token>, us: seq<Token>)
    ensures Flatten(ts + us) == Flatten(ts) + Flatten(us)
    decreases ts
  {
    if ts == [] {
      assert ts + us == us;
    } else {
      assert (ts + us)[1..] == ts[1..] + us;
      FlattenConcat(ts[1..], us);
    }
  }

  lemma {:induction false} FlattenLits(s: string)
    ensures Flatten(Lits(s)) == s
    decreases |s|
  {
    if s != "" {
      assert Lits(s)[1..] == Lits(s[1..]);
      FlattenLits(s[1..]);
    }
  }

  lemma FlattenCons(tok: Token, ts: seq<Token>)
    ensures Flatten([tok] + ts) == Flatten([tok]) + Flatten(ts)
    ensures tok.Lit? ==> Flatten([tok]) == [tok.c]
    ensures tok.Hole? ==> Flatten([tok]) == Placeholder(tok.name)
  {
    assert ([tok] + ts)[1..] == ts;
    assert [tok][1..] == [];
  }

  /** In the text of a token an opening brace can only be the first character, a closing one only the last. */
  lemma TokenBraces(t: Token)
    requires t.Hole? ==> BraceFree(t.name)
    ensures var h := Flatten([t]); h != "" && '{' !in h[1..] && '}' !in h[..|h| - 1]
  {
    FlattenCons(t, []);
    assert [t] + [] == [t];
  }

  lemma FlattenHole(s: string, k: nat, ts: seq<Token>)
    requires s != "" && s[0] == '{' && k + 1 < |s| && s[k + 1] == '}'
    requires Flatten(ts) == s[1..][k + 1..]
    ensures Flatten([Hole(s[1..][..k])] + ts) == s
  {
  }

  /** Scanning loses nothing. */
  lemma {:induction false} FlattenScan(s: string)
    ensures Flatten(Scan(s)) == s
    decreases |s|
  {
    if s != "" {
      var rest := s[1..];
      var k := FirstBrace(rest);
      if s[0] == '{' && k < |rest| && rest[k] == '}' {
        FlattenScan(rest[k + 1..]);
        FlattenHole(s, k, Scan(rest[k + 1..]));
      } else {
        FlattenScan(rest);
        FlattenCons(Lit(s[0]), Scan(rest));
      }
    }
  }

  predicate NamesOk(ts: seq<Token>) {
    forall i :: 0 <= i < |ts| && ts[i].Hole? ==> BraceFree(ts[i].name)
  }

  // ---------------------------------------------------------------- one substitution

  /** Replacing one placeholder at the level of tokens. */
  function Put(ts: seq<Token>, name: string, value: string): seq<Token> {
    if ts == [] then []
    else (if ts[0] == Hole(name) then Lits(value) else [ts[0]]) + Put(ts[1..], name, value)
  }

  /** Literal text that happens to spell the placeholder. */
  predicate Accident(ts: seq<Token>, name: string) {
    Lits(Placeholder(name)) <= ts
  }

  predicate NoAccident(ts: seq<Token>, name: string) {
    forall i :: 0 <= i <= |ts| ==> !Accident(ts[i..], name)
  }

  lemma NoAccidentTail(ts: seq<Token>, name: string)
    requires ts != [] && NoAccident(ts, name)
    ensures !Accident(ts, name) && NoAccident(ts[1..], name)
  {
    assert ts[0..] == ts;
    forall i | 0 <= i <= |ts[1..]|
      ensures !Accident(ts[1..][i..], name)
    {
      assert ts[1..][i..] == ts[i + 1..];
    }
  }

  /** A text without opening braces at the start of a flattened token list comes from literal tokens. */
  lemma {:induction false} LiteralStart(ts: seq<Token>, w: string)
    requires w <= Flatten(ts) && '{' !in w
    ensures Lits(w) <= ts
    decreases |w|
  {
    if w != "" {
      assert w[0] == Flatten(ts)[0];
      assert ts[0].Lit? && ts[0].c == w[0];
      assert w[1..] <= Flatten(ts[1..]);
      LiteralStart(ts[1..], w[1..]);
      assert Lits(w)[1..] == Lits(w[1..]);
      assert Lits(w) == [ts[0]] + Lits(w[1..]);
      assert ts == [ts[0]] + ts[1..];
    }
  }

  /** A replaced text starting with characters that cannot start the pattern keeps them. */
  lemma {:induction false} ReplaceSkips(p: string, q: string, old_: string, new_: string)
    requires old_ != "" && old_[0] !in p
    ensures ReplaceAll(p + q, old_, new_) == p + ReplaceAll(q, old_, new_)
    decreases |p|
  {
    if p == "" {
      assert p + q == q;
    } else {
      assert (p + q)[1..] == p[1..] + q;
      ReplaceSkips(p[1..], q, old_, new_);
      if |p + q| >= |old_| { assert (p + q)[..|old_|][0] == p[0]; }
      else { ReplaceShort(q, old_, new_); }
    }
  }

  lemma ReplaceShort(q: string, old_: string, new_: string)
    requires old_ != "" && |q| < |old_|
    ensures ReplaceAll(q, old_, new_) == q
  {
  }

  lemma HeadIsPlaceholder(rest: string, m: string, n: string)
    requires BraceFree(m) && BraceFree(n)
    requires Placeholder(n) <= Placeholder(m) + rest
    ensures m == n
  {
    var s := Placeholder(m) + rest;
    assert s[|m| + 1] == '}' && s[|n| + 1] == '}';
    assert |m| == |n|;
    assert s[1..|m| + 1] == m;
    assert Placeholder(n)[1..|n| + 1] == n;
  }

  lemma ReplaceAtHole(m: string, rest: string, name: string, value: string)
    requires BraceFree(m) && BraceFree(name)
    ensures ReplaceAll(Placeholder(m) + rest, Placeholder(name), value)
         == (if m == name then value else Placeholder(m)) + ReplaceAll(rest, Placeholder(name), value)
  {
    var s, old_ := Placeholder(m) + rest, Placeholder(name);
    if m == name {
      assert s[..|old_|] == old_ && s[|old_|..] == rest;
    } else {
      if old_ <= s { HeadIsPlaceholder(rest, m, name); }
      ReplaceHead(s, old_, value);
      assert s[1..] == (m + "}") + rest;
      ReplaceSkips(m + "}", rest, old_, value);
      assert [s[0]] + (m + "}") == Placeholder(m);
      assert [s[0]] + ((m + "}") + ReplaceAll(rest, old_, value)) == Placeholder(m) + ReplaceAll(rest, old_, value);
    }
  }

  lemma ReplaceAtLit(c: char, ts: seq<Token>, name: string, value: string)
    requires BraceFree(name) && !Accident([Lit(c)] + ts, name)
    ensures ReplaceAll([c] + Flatten(ts), Placeholder(name), value)
         == [c] + ReplaceAll(Flatten(ts), Placeholder(name), value)
  {
    FlattenCons(Lit(c), ts);
    var s, old_ := [c] + Flatten(ts), Placeholder(name);
    if old_ <= s { LiteralPlaceholder([Lit(c)] + ts, name); }
    ReplaceHead(s, old_, value);
    assert s[1..] == Flatten(ts);
  }

  lemma FlattenPut(ts: seq<Token>, name: string, value: string)
    requires ts != []
    ensures Flatten(Put(ts, name, value))
         == (if ts[0] == Hole(name) then value else Flatten([ts[0]])) + Flatten(Put(ts[1..], name, value))
  {
    var head := if ts[0] == Hole(name) then Lits(value) else [ts[0]];
    FlattenConcat(head, Put(ts[1..], name, value));
    FlattenLits(value);
  }

  /** String replacement of a placeholder is replacement of its tokens, on any text in which no other
      text happens to spell it. */
  lemma {:induction false} ReplaceIsPut(ts: seq<Token>, name: string, value: string)
    requires NamesOk(ts) && BraceFree(name) && NoAccident(ts, name)
    ensures ReplaceAll(Flatten(ts), Placeholder(name), value) == Flatten(Put(ts, name, value))
    decreases ts
  {
    if ts != [] {
      NoAccidentTail(ts, name);
      ReplaceIsPut(ts[1..], name, value);
      assert ts == [ts[0]] + ts[1..];
      FlattenCons(ts[0], ts[1..]);
      FlattenPut(ts, name, value);
      match ts[0]
      case Hole(m) => ReplaceAtHole(m, Flatten(ts[1..]), name, value);
      case Lit(c) => ReplaceAtLit(c, ts[1..], name, value);
    }
  }

  lemma ReplaceHead(s: string, old_: string, new_: string)
    requires s != "" && old_ != "" && !(old_ <= s)
    ensures ReplaceAll(s, old_, new_) == [s[0]] + ReplaceAll(s[1..], old_, new_)
  {
  }

  lemma LiteralPlaceholder(ts: seq<Token>, name: string)
    requires ts != [] && ts[0].Lit? && BraceFree(name) && Placeholder(name) <= Flatten(ts)
    ensures Accident(ts, name)
  {
    var w := name + "}";
    assert ts == [ts[0]] + ts[1..];
    FlattenCons(ts[0], ts[1..]);
    assert Placeholder(name) == ['{'] + w;
    PrefixTail('{', w, ts[0].c, Flatten(ts[1..]));
    LiteralStart(ts[1..], w);
    assert Lits(Placeholder(name)) == [Lit('{')] + Lits(w);
  }

  lemma PrefixTail(c: char, w: string, d: char, s: string)
    requires [c] + w <= [d] + s
    ensures c == d && w <= s
  {
    assert ([c] + w)[0] == ([d] + s)[0];
    assert ([c] + w)[1..] == w && ([d] + s)[1..] == s;
  }

  // ---------------------------------------------------------------- scanned text has no accidents

  lemma {:induction false} ScanNamesOk(s: string)
    ensures NamesOk(Scan(s))
    decreases |s|
  {
    if s != "" {
      var rest := s[1..];
      var k := FirstBrace(rest);
      if s[0] == '{' && k < |rest| && rest[k] == '}' {
        ScanNamesOk(rest[k + 1..]);
      } else {
        ScanNamesOk(rest);
      }
    }
  }

  lemma {:induction false} ScanNoAccident(s: string, name: string)
    requires BraceFree(name)
    ensures NoAccident(Scan(s), name)
    decreases |s|
  {
    if s != "" {
      var rest := s[1..];
      var k := FirstBrace(rest);
      var ts := Scan(s);
      if s[0] == '{' && k < |rest| && rest[k] == '}' {
        ScanNoAccident(rest[k + 1..], name);
        assert ts[1..] == Scan(rest[k + 1..]);
        assert Lits(Placeholder(name))[0].Lit?;
        assert !Accident(ts, name);
      } else {
        ScanNoAccident(rest, name);
        assert ts[1..] == Scan(rest);
        if Accident(ts, name) {
          SpelledByScan(s, name);
          assert false;
        }
      }
      forall i | 0 <= i <= |ts|
        ensures !Accident(ts[i..], name)
      {
        if i == 0 { assert ts[0..] == ts; } else { assert ts[i..] == ts[1..][i - 1..]; }
      }
    }
  }

  lemma {:induction false} FlattenPrefix(w: string, ts: seq<Token>)
    requires Lits(w) <= ts
    ensures w <= Flatten(ts)
  {
    assert ts == Lits(w) + ts[|w|..];
    FlattenConcat(Lits(w), ts[|w|..]);
    FlattenLits(w);
  }

  /** A spelled-out placeholder would have been scanned as one. */
  lemma SpelledByScan(s: string, name: string)
    requires s != "" && BraceFree(name) && Accident(Scan(s), name)
    ensures s[0] == '{' && FirstBrace(s[1..]) < |s[1..]| && s[1..][FirstBrace(s[1..])] == '}'
  {
    FlattenPrefix(Placeholder(name), Scan(s));
    FlattenScan(s);
    PlaceholderAt(s, name);
  }

  lemma PlaceholderAt(s: string, name: string)
    requires BraceFree(name) && Placeholder(name) <= s
    ensures s[0] == '{' && FirstBrace(s[1..]) == |name| < |s[1..]| && s[1..][|name|] == '}'
  {
    assert Placeholder(name) == "{" + (name + "}");
    PrefixTail('{', name + "}", s[0], s[1..]);
    assert s == [s[0]] + s[1..];
    ClosedAt(s[1..], name);
  }

  lemma ClosedAt(rest: string, name: string)
    requires BraceFree(name) && name + "}" <= rest
    ensures |name| < |rest| && rest[|name|] == '}' && FirstBrace(rest) == |name|
  {
    assert rest[|name|] == (name + "}")[|name|];
    assert rest[..|name|] == name;
    FirstBraceAt(rest, |name|);
  }

  lemma FirstBraceAt(s: string, n: nat)
    requires n < |s| && IsBrace(s[n]) && BraceFree(s[..n])
    ensures FirstBrace(s) == n
    decreases n
  {
  }
}
