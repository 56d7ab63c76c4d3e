/** Percent-encoding of one path segment: `url.PathEscape` and its inverse (sections 2.1 and 3.3 of RFC 3986). */
module PathEscape {
  import opened Wrappers
  import opened Templates

  /** Go strings are byte strings: each character stands for one byte. */
  type ByteChar = c: char | c as int < 0x100 witness 'a'
  type Bytes = seq<ByteChar>

  predicate IsAlphanumeric(c: char) {
    'a' <= c <= 'z' || 'A' <= c <= 'Z' || '0' <= c <= '9'
  }

  /** The bytes that are kept as they are. */
  predicate IsKept(c: char) {
    IsAlphanumeric(c) || c in "-_.~$&+:=@"
  }

  /** `unreserved` of section 2.3, and those of the characters that section 3.3 allows in a segment besides
      which Go leaves alone. */
  predicate Literal(c: char) {
    || 'A' <= c <= 'Z' || 'a' <= c <= 'z' || '0' <= c <= '9'
    || c == '-' || c == '.' || c == '_' || c == '~'
    || c == '$' || c == '&' || c == '+' || c == '=' || c == ':' || c == '@'
  }

  /** The digit that section 2.1 prescribes for 4 bits. */
  predicate UpperHex(c: char, n: int) {
    || ('0' <= c <= '9' && n == c as int - 48)
    || ('A' <= c <= 'F' && n == c as int - 55)
  }

  const HEX := "0123456789ABCDEF"

  function EscapeByte(c: ByteChar): string {
    if IsKept(c) then [c] else ['%', HEX[c as int / 16], HEX[c as int % 16]]
  }

  function Escape(s: Bytes): string {
    if s == [] then "" else EscapeByte(s[0]) + Escape(s[1..])
  }

  function HexValue(c: char): (r: Option<int>)
    ensures r.Some? ==> 0 <= r.value < 16
  {
    if '0' <= c <= '9' then Some(c as int - '0' as int)
    else if 'a' <= c <= 'f' then Some(c as int - 'a' as int + 10)
    else if 'A' <= c <= 'F' then Some(c as int - 'A' as int + 10)
    else None
  }

  function ByteAt(hi: char, lo: char): Option<ByteChar> {
    match (HexValue(hi), HexValue(lo))
    case (Some(h), Some(l)) => Some((16 * h + l) as char)
    case _ => None
  }

  /** Fails at a percent sign that is not followed by two hexadecimal digits of either case. */
  function Unescape(s: string): Option<seq<char>>
    decreases |s|
  {
    if s == "" then Some("")
    else if s[0] == '%' then
      if |s| < 3 || ByteAt(s[1], s[2]).None? then None
      else
        var rest := Unescape(s[3..]);
        if rest.None? then None else Some([ByteAt(s[1], s[2]).value] + rest.value)
    else
      var rest := Unescape(s[1..]);
      if rest.None? then None else Some([s[0]] + rest.value)
  }

  lemma HexInverse(n: int)
    requires 0 <= n < 16
    ensures HexValue(HEX[n]) == Some(n)
  {
  }

  lemma EscapedByteIsRead(c: ByteChar)
    ensures !IsKept(c) ==> ByteAt(HEX[c as int / 16], HEX[c as int % 16]) == Some(c)
  {
    HexInverse(c as int / 16);
    HexInverse(c as int % 16);
  }

  lemma KeptIsLiteral(c: char)
    ensures IsKept(c) <==> Literal(c)
  {
  }

  lemma KeptIsNotPercent(c: char)
    ensures IsKept(c) ==> c != '%' && c != '/' && !IsBrace(c)
  {
  }

  /** Unescaping undoes escaping, on every byte string. */
  lemma {:induction false} UnescapeEscape(s: Bytes)
    ensures Unescape(Escape(s)) == Some(s)
    decreases s
  {
    if s != [] {
      UnescapeEscape(s[1..]);
      EscapedByteIsRead(s[0]);
      KeptIsNotPercent(s[0]);
      var e := Escape(s);
      if IsKept(s[0]) {
        assert e[1..] == Escape(s[1..]);
      } else {
        assert e[3..] == Escape(s[1..]);
      }
      assert [s[0]] + s[1..] == s;
    }
  }

  lemma EscapeInjective(s: Bytes, t: Bytes)
    requires Escape(s) == Escape(t)
    ensures s == t
  {
    UnescapeEscape(s);
    UnescapeEscape(t);
  }

  /** Escaping at most triples the length, and exactly when no byte can be kept. */
  lemma {:induction false} EscapeLength(s: Bytes)
    ensures |s| <= |Escape(s)| <= 3 * |s|
    ensures |Escape(s)| == 3 * |s| <==> forall i :: 0 <= i < |s| ==> !Literal(s[i])
    ensures Escape(s) == s <==> forall i :: 0 <= i < |s| ==> Literal(s[i])
    decreases s
  {
    if s != [] {
      EscapeLength(s[1..]);
      var e := Escape(s);
      assert s == [s[0]] + s[1..];
      KeptIsNotPercent(s[0]);
      KeptIsLiteral(s[0]);
      if IsKept(s[0]) {
        assert e[1..] == Escape(s[1..]);
      } else {
        PercentGrows(s);
      }
    }
  }

  lemma PercentGrows(s: Bytes)
    requires s != [] && !IsKept(s[0]) && |s[1..]| <= |Escape(s[1..])|
    ensures |Escape(s)| > |s|
  {
  }

  lemma HexDigitsAreKept(n: int)
    requires 0 <= n < 16
    ensures IsAlphanumeric(HEX[n]) && !IsBrace(HEX[n]) && HEX[n] != '/'
  {
  }

  predicate IsPathChar(c: char) { Literal(c) || c == '%' }

  /** An escaped value consists of characters that a path segment may contain; in particular it contains
      neither a slash nor a brace. */
  lemma {:induction false} EscapedIsSegment(s: Bytes)
    ensures forall i :: 0 <= i < |Escape(s)| ==> IsPathChar(Escape(s)[i])
    ensures '/' !in Escape(s) && BraceFree(Escape(s))
    decreases s
  {
    if s != [] {
      EscapedIsSegment(s[1..]);
      HexDigitsAreKept(s[0] as int / 16);
      HexDigitsAreKept(s[0] as int % 16);
      KeptIsLiteral(s[0]);
      KeptIsLiteral(HEX[s[0] as int / 16]);
      KeptIsLiteral(HEX[s[0] as int % 16]);
      var head := EscapeByte(s[0]);
      assert forall i :: 0 <= i < |head| ==> IsPathChar(head[i]);
    }
    forall i | 0 <= i < |Escape(s)|
      ensures Escape(s)[i] != '/' && !IsBrace(Escape(s)[i])
    {
      KeptIsNotPercent(Escape(s)[i]);
      KeptIsLiteral(Escape(s)[i]);
    }
  }

  // ---------------------------------------------------------------- spelled out by the standard

  lemma HexIsUpper(n: int)
    requires 0 <= n < 16
    ensures UpperHex(HEX[n], n)
  {
  }

  /** A byte is written as itself exactly if it is one of the literal characters, and else as a percent sign
      and two upper-case hexadecimal digits. */
  lemma EscapedByte(c: ByteChar)
    ensures Literal(c) ==> Escape([c]) == [c]
    ensures !Literal(c) ==> |Escape([c])| == 3 && Escape([c])[0] == '%'
                            && UpperHex(Escape([c])[1], c as int / 16) && UpperHex(Escape([c])[2], c as int % 16)
  {
    KeptIsLiteral(c);
    HexIsUpper(c as int / 16);
    HexIsUpper(c as int % 16);
    assert [c][1..] == [];
    assert Escape([c]) == EscapeByte(c) + "" == EscapeByte(c);
  }

  /** Bytes are escaped one by one. */
  lemma {:induction false} EscapeConcat(s: Bytes, t: Bytes)
    ensures Escape(s + t) == Escape(s) + Escape(t)
    decreases s
  {
    if s == [] {
      assert s + t == t;
    } else {
      EscapeConcat(s[1..], t);
      assert (s + t)[1..] == s[1..] + t;
      Associates(EscapeByte(s[0]), Escape(s[1..]), Escape(t));
    }
  }

  lemma Associates(a: string, b: string, c: string)
    ensures a + (b + c) == (a + b) + c
  {
  }

  /** The grammar of section 3.3, without the characters that Go escapes although it need not. */
  predicate IsSegment(t: string)
    decreases |t|
  {
    t == ""
    || (Literal(t[0]) && IsSegment(t[1..]))
    || (t[0] == '%' && |t| >= 3 && (exists n :: 0 <= n < 16 && UpperHex(t[1], n)) && (exists n :: 0 <= n < 16 && UpperHex(t[2], n))
        && IsSegment(t[3..]))
  }

  lemma {:induction false} EscapeIsSegment(s: Bytes)
    ensures IsSegment(Escape(s))
    decreases s
  {
    if s != [] {
      EscapeIsSegment(s[1..]);
      SegmentGrows(s[0], Escape(s[1..]));
    }
  }

  lemma SegmentGrows(c: ByteChar, rest: string)
    requires IsSegment(rest)
    ensures IsSegment(EscapeByte(c) + rest)
  {
    KeptIsLiteral(c);
    HexIsUpper(c as int / 16);
    HexIsUpper(c as int % 16);
    var t := EscapeByte(c) + rest;
    if IsKept(c) {
      assert t[1..] == rest;
    } else {
      assert t[3..] == rest && t[0] == '%';
      assert UpperHex(t[1], c as int / 16) && UpperHex(t[2], c as int % 16);
    }
  }

  /** The characters that would end the segment or the path, or be read as an escape, never survive. */
  lemma Delimiters()
    ensures Escape(" ") == "%20" && Escape("?") == "%3F" && Escape("#") == "%23" && Escape("/") == "%2F"
    ensures Escape(";") == "%3B" && Escape(",") == "%2C" && Escape("%") == "%25"
  {
    EscapedHex(' ');
    EscapedHex('?');
    EscapedHex('#');
    EscapedHex('/');
    EscapedHex(';');
    EscapedHex(',');
    EscapedHex('%');
  }

  lemma EscapedHex(c: ByteChar)
    requires !Literal(c)
    ensures Escape([c]) == ['%', HEX[c as int / 16], HEX[c as int % 16]]
  {
    KeptIsLiteral(c);
    assert [c][1..] == [];
    assert Escape([c]) == EscapeByte(c) + "" == EscapeByte(c);
  }
}
