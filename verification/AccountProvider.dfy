/** Encoding and decoding of `AccountProvider` (`model_account_provider.go`).

    A JSON object is modelled after parsing: as the sequence of its members in document order, because
    `encoding/json` assigns struct fields in that order and matches their names up to letter case. */
module AccountProviders {
  import opened Wrappers

  datatype Json =
    | Null | Bool(b: bool) | Number(n: real) | String(s: string)
    | Array(items: seq<Json>) | Object(properties: map<string, Json>)

  datatype Member = Member(key: string, value: Json)

  /** What the bytes handed to the decoder contain. */
  datatype Document = Malformed | NullDocument | NotAnObject | Members(members: seq<Member>)

  datatype DecodeError = SyntaxError | TypeMismatch | MissingProperty(name: string)

  datatype Provider = Provider(name: string, displayName: string, additional: map<string, Json>)

  const NAME := "name"
  const DISPLAY := "displayName"
  const EXTRA := "AdditionalProperties"   // the Go name of a field without a tag

  // ---------------------------------------------------------------- encoding

  function Encode(p: Provider): map<string, Json> {
    map[NAME := String(p.name), DISPLAY := String(p.displayName)] + p.additional
  }

  // ---------------------------------------------------------------- field names up to letter case

  /** ASCII letters fold with their other case; the long s folds with s, the Kelvin sign with k. */
  function FoldChar(c: char): char {
    if 'a' <= c <= 'z' then (c as int - 32) as char
    else if c == '\U{017F}' then 'S'
    else if c == '\U{212A}' then 'K'
    else c
  }

  predicate Matches(key: string, field: string) {
    |key| == |field| && forall i :: 0 <= i < |key| ==> FoldChar(key[i]) == FoldChar(field[i])
  }

  /** A key that is not the field's own name, but is taken for it. */
  predicate Variant(key: string, field: string) { key != field && Matches(key, field) }

  // ---------------------------------------------------------------- decoding

  /** The last member wins. */
  function AsMap(ms: seq<Member>): map<string, Json> {
    if ms == [] then map[] else AsMap(ms[..|ms| - 1])[ms[|ms| - 1].key := ms[|ms| - 1].value]
  }

  /** The value of a string field: null members leave it alone. */
  function Field(ms: seq<Member>, field: string): string {
    if ms == [] then ""
    else
      var last := ms[|ms| - 1];
      if Matches(last.key, field) && last.value.String? then last.value.s else Field(ms[..|ms| - 1], field)
  }

  predicate FitsString(v: Json) { v.String? || v.Null? }

  predicate FitsMap(v: Json) { v.Object? || v.Null? }

  /** The member can be stored in the struct field it matches, if any. */
  predicate Fits(m: Member) {
    && (Matches(m.key, NAME) || Matches(m.key, DISPLAY) ==> FitsString(m.value))
    && (Matches(m.key, EXTRA) ==> FitsMap(m.value))
  }

  predicate AllFit(ms: seq<Member>) { forall i :: 0 <= i < |ms| ==> Fits(ms[i]) }

  function Decode(d: Document): Result<Provider, DecodeError> {
    match d
    case Malformed => Err(SyntaxError)
    case NotAnObject => Err(TypeMismatch)
    case NullDocument => Err(MissingProperty(NAME))
    case Members(ms) =>
      var all := AsMap(ms);
      if NAME !in all then Err(MissingProperty(NAME))
      else if DISPLAY !in all then Err(MissingProperty(DISPLAY))
      else if !AllFit(ms) then Err(TypeMismatch)
      else Ok(Provider(Field(ms, NAME), Field(ms, DISPLAY), all - {NAME, DISPLAY}))
  }

  // ---------------------------------------------------------------- the source's object

  class AccountProvider {
    var name: string
    var displayName: string
    var additionalProperties: map<string, Json>

    function Value(): Provider
      reads this
    {
      Provider(name, displayName, additionalProperties)
    }

    constructor (name: string, displayName: string)
      ensures Value() == Provider(name, displayName, map[])
    {
      this.name := name;
      this.displayName := displayName;
      additionalProperties := map[];
    }

    /** The extra properties are written last, in any order, and replace members of the same name. */
    method ToMap() returns (m: map<string, Json>)
      ensures m == Encode(Value())
      ensures m.Keys == {"name", "displayName"} + additionalProperties.Keys
      ensures forall k :: k in m ==>
        m[k] == if k in additionalProperties then additionalProperties[k]
                else if k == "name" then String(name) else String(displayName)
    {
      m := map[];
      m := m[NAME := String(name)];
      m := m[DISPLAY := String(displayName)];
      var todo := additionalProperties.Keys;
      while todo != {}
        invariant todo <= additionalProperties.Keys
        invariant m.Keys == {NAME, DISPLAY} + (additionalProperties.Keys - todo)
        invariant forall k :: k in m ==>
          m[k] == if k in additionalProperties && k !in todo then additionalProperties[k]
                  else if k == NAME then String(name) else String(displayName)
        decreases todo
      {
        var key :| key in todo;
        m := m[key := additionalProperties[key]];
        todo := todo - {key};
      }
    }

    /** On any error the receiver is unchanged. */
    method UnmarshalJSON(d: Document) returns (err: Option<DecodeError>)
      modifies this
      ensures Decode(d).Ok? ==> err.None? && Value() == Decode(d).value
      ensures Decode(d).Err? ==> err == Some(Decode(d).error) && Value() == old(Value())
      ensures d.Members? && HasKey(d.members, "name") && HasKey(d.members, "displayName") ==>
        (err.None? <==> forall i :: 0 <= i < |d.members| ==> !Misfit(d.members[i]))
    {
      if d.Members? { DecodeMeaning(d.members); }
      if d.Malformed? { return Some(SyntaxError); }
      if d.NotAnObject? { return Some(TypeMismatch); }
      var members := if d.Members? then d.members else [];
      var all := AsMap(members);
      var required := [NAME, DISPLAY];
      for i := 0 to |required|
        invariant forall k :: 0 <= k < i ==> required[k] in all
        invariant Value() == old(Value())
      {
        assert i == 1 ==> required[0] in all;
        if required[i] !in all { return Some(MissingProperty(required[i])); }
      }
      assert required[0] in all && required[1] in all;
      var decoded := DecodeStruct(members);
      if decoded.Err? { return Some(decoded.error); }
      name, displayName := decoded.value.0, decoded.value.1;
      var additional := all;
      additional := additional - {NAME};
      additional := additional - {DISPLAY};
      assert all - {NAME} - {DISPLAY} == all - {NAME, DISPLAY};
      additionalProperties := additional;
      return None;
    }
  }

  /** The struct decoder: member after member, reporting a type error only at the end. */
  method DecodeStruct(ms: seq<Member>) returns (r: Result<(string, string), DecodeError>)
    ensures r == if AllFit(ms) then Ok((Field(ms, NAME), Field(ms, DISPLAY))) else Err(TypeMismatch)
    ensures r.Ok? <==> forall i :: 0 <= i < |ms| ==> !Misfit(ms[i])
    ensures r.Ok? ==> LastString(ms, "name", r.value.0) && LastString(ms, "displayName", r.value.1)
  {
    MisfitsExactly(ms);
    FieldIsLastString(ms, NAME);
    FieldIsLastString(ms, DISPLAY);
    var name, displayName, failed := "", "", false;
    for i := 0 to |ms|
      invariant failed <==> !AllFit(ms[..i])
      invariant name == Field(ms[..i], NAME) && displayName == Field(ms[..i], DISPLAY)
    {
      var m := ms[i];
      assert ms[..i + 1] == ms[..i] + [m];
      assert ms[..i + 1][..i] == ms[..i];
      assert AllFit(ms[..i + 1]) <==> AllFit(ms[..i]) && Fits(m) by {
        assert AllFit(ms[..i + 1]) ==> Fits(ms[..i + 1][i]);
        assert AllFit(ms[..i + 1]) ==> forall k :: 0 <= k < i ==> Fits(ms[..i + 1][k]) && ms[..i][k] == ms[..i + 1][k];
      }
      FieldsDistinct(m.key);
      if Matches(m.key, NAME) {
        if m.value.String? { name := m.value.s; } else if !m.value.Null? { failed := true; }
      } else if Matches(m.key, DISPLAY) {
        if m.value.String? { displayName := m.value.s; } else if !m.value.Null? { failed := true; }
      } else if Matches(m.key, EXTRA) {
        if !m.value.Object? && !m.value.Null? { failed := true; }
      }
    }
    assert ms[..|ms|] == ms;
    r := if failed then Err(TypeMismatch) else Ok((name, displayName));
  }

  /** No key matches two fields. */
  lemma FieldsDistinct(key: string)
    ensures !(Matches(key, NAME) && Matches(key, DISPLAY))
    ensures !(Matches(key, NAME) && Matches(key, EXTRA)) && !(Matches(key, DISPLAY) && Matches(key, EXTRA))
  {
  }

  // ---------------------------------------------------------------- what decoding means

  predicate HasKey(ms: seq<Member>, key: string) {
    exists i :: 0 <= i < |ms| && ms[i].key == key
  }

  /** The member cannot be stored in the field that it is taken for. */
  predicate Misfit(m: Member) {
    || (Matches(m.key, "name") && (m.value.Bool? || m.value.Number? || m.value.Array? || m.value.Object?))
    || (Matches(m.key, "displayName") && (m.value.Bool? || m.value.Number? || m.value.Array? || m.value.Object?))
    || (Matches(m.key, "AdditionalProperties") && (m.value.Bool? || m.value.Number? || m.value.Array? || m.value.String?))
  }

  /** `s` is the last string that the document has for `field`, and empty if it has none. */
  predicate LastString(ms: seq<Member>, field: string, s: string) {
    || (exists j :: 0 <= j < |ms| && LastFor(ms, field, j) && ms[j].value == String(s))
    || (s == "" && forall j :: 0 <= j < |ms| ==> !(Matches(ms[j].key, field) && ms[j].value.String?))
  }

  /** The last member of string type that is taken for `field` sits at position `j`. */
  predicate LastFor(ms: seq<Member>, field: string, j: nat) {
    && j < |ms| && Matches(ms[j].key, field) && ms[j].value.String?
    && forall i :: j < i < |ms| ==> !(Matches(ms[i].key, field) && ms[i].value.String?)
  }

  predicate LastWithKey(ms: seq<Member>, i: nat) {
    i < |ms| && forall j :: i < j < |ms| ==> ms[j].key != ms[i].key
  }

  lemma {:induction false} AsMapKeys(ms: seq<Member>, k: string)
    ensures k in AsMap(ms) <==> HasKey(ms, k)
    decreases |ms|
  {
    if ms != [] {
      var n := |ms| - 1;
      AsMapKeys(ms[..n], k);
      assert forall i :: 0 <= i < n ==> ms[..n][i] == ms[i];
    }
  }

  lemma {:induction false} AsMapValue(ms: seq<Member>, i: nat)
    requires LastWithKey(ms, i)
    ensures ms[i].key in AsMap(ms) && AsMap(ms)[ms[i].key] == ms[i].value
    decreases |ms|
  {
    var n := |ms| - 1;
    if i < n {
      assert ms[n].key != ms[i].key;
      AsMapValue(ms[..n], i);
    }
  }

  lemma {:induction false} FieldIsLastString(ms: seq<Member>, field: string)
    ensures LastString(ms, field, Field(ms, field))
    decreases |ms|
  {
    if exists j: nat :: LastFor(ms, field, j) {
      var j: nat :| LastFor(ms, field, j);
      FieldIsLast(ms, field, j);
    } else {
      forall i | 0 <= i < |ms|
        ensures !(Matches(ms[i].key, field) && ms[i].value.String?)
      {
        if Matches(ms[i].key, field) && ms[i].value.String? { var j := FindLast(ms, field, i); }
      }
      FieldOfNone(ms, field);
    }
  }

  lemma {:induction false} FieldOfNone(ms: seq<Member>, field: string)
    requires forall i :: 0 <= i < |ms| ==> !(Matches(ms[i].key, field) && ms[i].value.String?)
    ensures Field(ms, field) == ""
    decreases |ms|
  {
    if ms != [] { FieldOfNone(ms[..|ms| - 1], field); }
  }

  lemma MisfitsExactly(ms: seq<Member>)
    ensures AllFit(ms) <==> forall i :: 0 <= i < |ms| ==> !Misfit(ms[i])
  {
    forall i | 0 <= i < |ms|
      ensures Fits(ms[i]) <==> !Misfit(ms[i])
    {
      FitsExactly(ms[i]);
    }
  }

  lemma FitsExactly(m: Member)
    ensures Fits(m) <==> !Misfit(m)
  {
  }

  /** Decoding spelled out: which error, and else which value. */
  lemma DecodeMeaning(ms: seq<Member>)
    ensures var r := Decode(Members(ms));
      if !HasKey(ms, "name") then r == Err(MissingProperty("name"))
      else if !HasKey(ms, "displayName") then r == Err(MissingProperty("displayName"))
      else if exists i :: 0 <= i < |ms| && Misfit(ms[i]) then r == Err(TypeMismatch)
      else
        && r.Ok?
        && LastString(ms, "name", r.value.name) && LastString(ms, "displayName", r.value.displayName)
        && (forall k :: k in r.value.additional <==> HasKey(ms, k) && k != "name" && k != "displayName")
        && (forall i :: 0 <= i < |ms| && LastWithKey(ms, i) && ms[i].key in r.value.additional ==>
              r.value.additional[ms[i].key] == ms[i].value)
    ensures Decode(Malformed) == Err(SyntaxError) && Decode(NotAnObject) == Err(TypeMismatch)
    ensures Decode(NullDocument) == Err(MissingProperty("name"))
  {
    forall k
      ensures k in AsMap(ms) <==> HasKey(ms, k)
    {
      AsMapKeys(ms, k);
    }
    forall i | 0 <= i < |ms| && LastWithKey(ms, i)
      ensures ms[i].key in AsMap(ms) && AsMap(ms)[ms[i].key] == ms[i].value
    {
      AsMapValue(ms, i);
    }
    MisfitsExactly(ms);
    FieldIsLastString(ms, NAME);
    FieldIsLastString(ms, DISPLAY);
  }

  /** Letter case spelled out for the two fields. */
  lemma MatchesSpelledOut(k: string)
    ensures Matches(k, "name") <==> |k| == 4 && k[0] in "nN" && k[1] in "aA" && k[2] in "mM" && k[3] in "eE"
    ensures Matches(k, "displayName") <==>
      && |k| == 11 && k[0] in "dD" && k[1] in "iI" && k[2] in "sS\U{017F}" && k[3] in "pP" && k[4] in "lL"
      && k[5] in "aA" && k[6] in "yY" && k[7] in "nN" && k[8] in "aA" && k[9] in "mM" && k[10] in "eE"
  {
  }

  // ---------------------------------------------------------------- the encoder's output

  /** Byte order of keys, which for valid text is the order of code points. */
  predicate Less(a: string, b: string) {
    b != "" && (a == "" || a[0] < b[0] || (a[0] == b[0] && Less(a[1..], b[1..])))
  }

  lemma {:induction false} LessTotal(a: string, b: string)
    ensures a == b || Less(a, b) || Less(b, a)
    ensures !(Less(a, b) && Less(b, a)) && (Less(a, b) ==> a != b)
    decreases |a|
  {
    if a != "" && b != "" && a[0] == b[0] {
      LessTotal(a[1..], b[1..]);
      assert a == [a[0]] + a[1..] && b == [b[0]] + b[1..];
    }
  }

  lemma {:induction false} LessTransitive(a: string, b: string, c: string)
    requires Less(a, b) && Less(b, c)
    ensures Less(a, c)
    decreases |a|
  {
    if a != "" && a[0] == b[0] && b[0] == c[0] { LessTransitive(a[1..], b[1..], c[1..]); }
  }

  /** `ms` lists the members of `m` with ascending keys, as the encoder writes maps. */
  ghost predicate Listing(ms: seq<Member>, m: map<string, Json>) {
    && (forall i, j :: 0 <= i < j < |ms| ==> Less(ms[i].key, ms[j].key))
    && (forall i :: 0 <= i < |ms| ==> ms[i].key in m && m[ms[i].key] == ms[i].value)
    && (forall k :: k in m ==> exists i :: 0 <= i < |ms| && ms[i].key == k)
  }

  lemma ListingInit(ms: seq<Member>, m: map<string, Json>)
    requires ms != [] && Listing(ms, m)
    ensures Listing(ms[..|ms| - 1], m - {ms[|ms| - 1].key})
    ensures ms[|ms| - 1].key in m && m[ms[|ms| - 1].key] == ms[|ms| - 1].value
  {
    var n := |ms| - 1;
    var rest := m - {ms[n].key};
    forall k | k in rest
      ensures exists i :: 0 <= i < n && ms[..n][i].key == k
    {
      var i :| 0 <= i < |ms| && ms[i].key == k;
      assert ms[..n][i].key == k;
    }
    forall i | 0 <= i < n
      ensures ms[..n][i].key in rest && rest[ms[..n][i].key] == ms[..n][i].value
    {
      LessTotal(ms[i].key, ms[n].key);
    }
  }

  lemma {:induction false} ListingAsMap(ms: seq<Member>, m: map<string, Json>)
    requires Listing(ms, m)
    ensures AsMap(ms) == m
    decreases ms
  {
    if ms == [] {
      assert m == map[];
    } else {
      ListingInit(ms, m);
      ListingAsMap(ms[..|ms| - 1], m - {ms[|ms| - 1].key});
    }
  }

  lemma {:induction false} LeastKey(keys: set<string>) returns (k: string)
    requires keys != {}
    ensures k in keys && forall h :: h in keys && h != k ==> Less(k, h)
    decreases keys
  {
    k :| k in keys;
    if keys != {k} {
      var l := LeastKey(keys - {k});
      LessTotal(k, l);
      if Less(k, l) {
        forall h | h in keys && h != k && h != l
          ensures Less(k, h)
        {
          LessTransitive(k, l, h);
        }
      } else {
        k := l;
      }
    }
  }

  /** Every object can be written with ascending keys. */
  lemma {:induction false} ListingExists(m: map<string, Json>) returns (ms: seq<Member>)
    ensures Listing(ms, m)
    decreases m.Keys
  {
    if m.Keys == {} {
      ms := [];
    } else {
      var k := LeastKey(m.Keys);
      var rest := m - {k};
      assert rest.Keys == m.Keys - {k};
      var tail := ListingExists(rest);
      ms := [Member(k, m[k])] + tail;
      forall h | h in m
        ensures exists i :: 0 <= i < |ms| && ms[i].key == h
      {
        if h == k {
          assert ms[0].key == h;
        } else {
          assert h in rest;
          var i :| 0 <= i < |tail| && tail[i].key == h;
          assert ms[i + 1].key == h;
        }
      }
    }
  }

  // ---------------------------------------------------------------- decoding what was encoded

  lemma {:induction false} FieldIsLast(ms: seq<Member>, field: string, j: nat)
    requires LastFor(ms, field, j)
    ensures Field(ms, field) == ms[j].value.s
    decreases ms
  {
    if j < |ms| - 1 {
      FieldIsLast(ms[..|ms| - 1], field, j);
    }
  }

  lemma {:induction false} FindLast(ms: seq<Member>, field: string, i: nat) returns (j: nat)
    requires i < |ms| && Matches(ms[i].key, field) && ms[i].value.String?
    ensures LastFor(ms, field, j) && i <= j
    decreases |ms|
  {
    var n := |ms| - 1;
    if Matches(ms[n].key, field) && ms[n].value.String? {
      j := n;
    } else {
      j := FindLast(ms[..n], field, i);
    }
  }

  /** The extra property that the decoder takes for `field` instead of the field itself: a variant of its
      name that comes after it, and after all others of the kind. */
  predicate Hijacks(extra: map<string, Json>, field: string, k: string) {
    && k in extra && Variant(k, field) && extra[k].String? && Less(field, k)
    && forall h :: h in extra && Variant(h, field) && extra[h].String? ==> !Less(k, h)
  }

  /** No extra property is decoded into `field` with a value other than `value`. */
  predicate Unhijacked(extra: map<string, Json>, field: string, value: string) {
    forall k :: k in extra && Hijacks(extra, field, k) ==> extra[k] == String(value)
  }

  predicate PropertiesFit(m: map<string, Json>) {
    forall k :: k in m ==> Fits(Member(k, m[k]))
  }

  /** What a caller can check of a value before encoding it. */
  predicate Faithful(p: Provider) {
    && NAME !in p.additional && DISPLAY !in p.additional
    && PropertiesFit(p.additional)
    && Unhijacked(p.additional, NAME, p.name) && Unhijacked(p.additional, DISPLAY, p.displayName)
  }

  lemma AscendingPositions(ms: seq<Member>, m: map<string, Json>, i: nat, l: nat)
    requires Listing(ms, m) && i < |ms| && l < |ms|
    ensures Less(ms[i].key, ms[l].key) <==> i < l
  {
    LessTotal(ms[i].key, ms[l].key);
    if i < l { assert Less(ms[i].key, ms[l].key); }
    if l < i { assert Less(ms[l].key, ms[i].key); }
  }

  lemma PositionOf(ms: seq<Member>, m: map<string, Json>, k: string) returns (i: nat)
    requires Listing(ms, m) && k in m
    ensures i < |ms| && ms[i].key == k && ms[i].value == m[k]
  {
    i :| 0 <= i < |ms| && ms[i].key == k;
  }

  /** If the field's own member is the last one read, nothing hijacks it. */
  lemma OwnMemberLast(ms: seq<Member>, m: map<string, Json>, extra: map<string, Json>, field: string, i: nat, h: string)
    requires Listing(ms, m) && LastFor(ms, field, i) && ms[i].key == field
    requires forall k :: k in extra ==> k in m && m[k] == extra[k]
    ensures !Hijacks(extra, field, h)
  {
    if Hijacks(extra, field, h) {
      var l := PositionOf(ms, m, h);
      AscendingPositions(ms, m, i, l);
      assert false;
    }
  }

  /** A string field survives exactly if no variant hijacks it with another value. */
  lemma FieldSurvivesIff(ms: seq<Member>, m: map<string, Json>, extra: map<string, Json>, field: string, value: string)
    requires Listing(ms, m) && field in m && m[field] == String(value)
    requires forall k :: k in extra ==> k in m && m[k] == extra[k]
    requires forall k :: k in m && Variant(k, field) ==> k in extra
    ensures Field(ms, field) == value <==> Unhijacked(extra, field, value)
  {
    var i := PositionOf(ms, m, field);
    var j := FindLast(ms, field, i);
    FieldIsLast(ms, field, j);
    if j == i {
      forall h | h in extra
        ensures !Hijacks(extra, field, h)
      {
        OwnMemberLast(ms, m, extra, field, i, h);
      }
    } else {
      var k := ms[j].key;
      AscendingPositions(ms, m, i, j);
      LessTotal(field, k);
      HijackerIsLast(ms, m, extra, field, j);
      forall h | h in extra && Hijacks(extra, field, h)
        ensures h == k
      {
        LessTotal(h, k);
      }
    }
  }

  lemma HijackerIsLast(ms: seq<Member>, m: map<string, Json>, extra: map<string, Json>, field: string, j: nat)
    requires Listing(ms, m) && LastFor(ms, field, j) && Variant(ms[j].key, field) && Less(field, ms[j].key)
    requires forall k :: k in extra ==> k in m && m[k] == extra[k]
    requires ms[j].key in extra
    ensures Hijacks(extra, field, ms[j].key)
  {
    forall h | h in extra && Variant(h, field) && extra[h].String?
      ensures !Less(ms[j].key, h)
    {
      var l := PositionOf(ms, m, h);
      AscendingPositions(ms, m, j, l);
    }
  }

  lemma ListingFits(ms: seq<Member>, m: map<string, Json>)
    requires Listing(ms, m)
    ensures AllFit(ms) <==> PropertiesFit(m)
  {
  }

  lemma OwnNamesFit(p: Provider)
    requires NAME !in p.additional && DISPLAY !in p.additional
    ensures PropertiesFit(Encode(p)) <==> PropertiesFit(p.additional)
  {
  }

  lemma DecodeListing(ms: seq<Member>, m: map<string, Json>)
    requires Listing(ms, m) && NAME in m && DISPLAY in m
    ensures Decode(Members(ms)) == if AllFit(ms) then Ok(Provider(Field(ms, NAME), Field(ms, DISPLAY), m - {NAME, DISPLAY}))
                                   else Err(TypeMismatch)
  {
    ListingAsMap(ms, m);
  }

  lemma OwnNamesApart(p: Provider)
    requires NAME !in p.additional && DISPLAY !in p.additional
    ensures Encode(p) - {NAME, DISPLAY} == p.additional
    ensures Encode(p)[NAME] == String(p.name) && Encode(p)[DISPLAY] == String(p.displayName)
    ensures forall k :: k in p.additional ==> k in Encode(p) && Encode(p)[k] == p.additional[k]
    ensures forall k :: k in Encode(p) && (Variant(k, NAME) || Variant(k, DISPLAY)) ==> k in p.additional
  {
  }

  lemma DecodeEncodeApart(p: Provider, ms: seq<Member>)
    requires Listing(ms, Encode(p)) && NAME !in p.additional && DISPLAY !in p.additional
    ensures Decode(Members(ms)) == Ok(p) <==>
            AllFit(ms) && Field(ms, NAME) == p.name && Field(ms, DISPLAY) == p.displayName
  {
    DecodeListing(ms, Encode(p));
    OwnNamesApart(p);
  }

  lemma DecodeEncodeClash(p: Provider, ms: seq<Member>)
    requires Listing(ms, Encode(p)) && (NAME in p.additional || DISPLAY in p.additional)
    ensures Decode(Members(ms)) != Ok(p)
  {
    DecodeListing(ms, Encode(p));
    assert Decode(Members(ms)).Ok? ==> Decode(Members(ms)).value.additional.Keys !! {NAME, DISPLAY};
  }

  /** Decoding the encoder's output gives the value back exactly for faithful values. */
  lemma DecodeEncodeIff(p: Provider, ms: seq<Member>)
    requires Listing(ms, Encode(p))
    ensures Decode(Members(ms)) == Ok(p) <==> Faithful(p)
  {
    if NAME in p.additional || DISPLAY in p.additional {
      DecodeEncodeClash(p, ms);
    } else {
      DecodeEncodeApart(p, ms);
      ListingFits(ms, Encode(p));
      OwnNamesFit(p);
      OwnNamesApart(p);
      FieldSurvivesIff(ms, Encode(p), p.additional, NAME, p.name);
      FieldSurvivesIff(ms, Encode(p), p.additional, DISPLAY, p.displayName);
    }
  }

  /** No extra property is taken for a field of the struct. */
  predicate NoVariants(extra: map<string, Json>) {
    forall k :: k in extra ==> !Variant(k, NAME) && !Variant(k, DISPLAY) && !Matches(k, EXTRA)
  }

  /** If no extra property resembles a field name, what matters is that none has a field's own name. */
  lemma DecodeEncodeWithoutVariants(p: Provider, ms: seq<Member>)
    requires Listing(ms, Encode(p)) && NoVariants(p.additional)
    ensures Decode(Members(ms)) == Ok(p) <==> NAME !in p.additional && DISPLAY !in p.additional
  {
    DecodeEncodeIff(p, ms);
    if NAME !in p.additional && DISPLAY !in p.additional {
      assert forall k :: k in p.additional ==> !Matches(k, NAME) && !Matches(k, DISPLAY);
    }
  }

  /** Without that assumption it does fail: an extra property named like the struct's own map field, up
      to letter case, makes the decoder reject what the encoder wrote. */
  lemma ExtraNamedLikeTheField(p: Provider, ms: seq<Member>, k: string)
    requires Listing(ms, Encode(p))
    requires k in p.additional && Matches(k, EXTRA) && !FitsMap(p.additional[k])
    ensures Decode(Members(ms)) == Err(TypeMismatch)
  {
    var m := Encode(p);
    DecodeListing(ms, m);
    ListingFits(ms, m);
    var member := Member(k, p.additional[k]);
    assert m[k] == member.value && !Fits(member);
  }

  lemma JsonStyleNameMatches()
    ensures Matches("additionalProperties", EXTRA)
  {
  }

  /** For instance this one. */
  lemma ProviderThatCannotBeRead() returns (p: Provider, ms: seq<Member>)
    ensures NAME !in p.additional && DISPLAY !in p.additional
    ensures Listing(ms, Encode(p)) && Decode(Members(ms)) == Err(TypeMismatch)
  {
    var k := "additionalProperties";
    p := Provider("n", "d", map[k := Bool(true)]);
    ms := ListingExists(Encode(p));
    JsonStyleNameMatches();
    FieldsDistinct(k);
    assert Matches(NAME, NAME) && Matches(DISPLAY, DISPLAY);
    ExtraNamedLikeTheField(p, ms, k);
  }

  // ---------------------------------------------------------------- encoding what was decoded

  /** The document's own member for `field` is a string, and the last string in the document that is taken
      for `field` says the same. */
  ghost predicate ReadsOwn(ms: seq<Member>, field: string) {
    && field in AsMap(ms) && AsMap(ms)[field].String?
    && forall j: nat :: LastFor(ms, field, j) ==> ms[j].value == AsMap(ms)[field]
  }

  lemma ReadsOwnIff(ms: seq<Member>, field: string)
    requires field in AsMap(ms)
    ensures AsMap(ms)[field] == String(Field(ms, field)) <==> ReadsOwn(ms, field)
  {
    if AsMap(ms)[field].String? {
      var i := MapMember(ms, field);
      assert Matches(ms[i].key, field);
      var j := FindLast(ms, field, i);
      FieldIsLast(ms, field, j);
      forall k: nat | LastFor(ms, field, k)
        ensures ms[k].value == ms[j].value
      {
        FieldIsLast(ms, field, k);
      }
    }
  }

  lemma EncodedKeys(p: Provider, m: map<string, Json>)
    requires NAME in m && DISPLAY in m && p.additional == m - {NAME, DISPLAY}
    ensures Encode(p) == m <==> m[NAME] == String(p.name) && m[DISPLAY] == String(p.displayName)
  {
    var e := Encode(p);
    assert NAME != DISPLAY;
    assert e[NAME] == String(p.name) && e[DISPLAY] == String(p.displayName);
    assert forall k :: k in m && k != NAME && k != DISPLAY ==> k in e && e[k] == p.additional[k] == m[k];
    assert e.Keys == m.Keys;
  }

  /** Re-encoding a decoded object gives the object back exactly if, for each of the two fields, its own
      member is a string and no later string taken for the field says anything else. */
  lemma EncodeDecodeIff(ms: seq<Member>)
    requires Decode(Members(ms)).Ok?
    ensures Encode(Decode(Members(ms)).value) == AsMap(ms) <==> ReadsOwn(ms, NAME) && ReadsOwn(ms, DISPLAY)
  {
    EncodedKeys(Decode(Members(ms)).value, AsMap(ms));
    ReadsOwnIff(ms, NAME);
    ReadsOwnIff(ms, DISPLAY);
  }

  lemma TwoMembers(a: Member, b: Member)
    ensures AsMap([a, b]) == map[a.key := a.value, b.key := b.value]
    ensures Matches(a.key, NAME) && !Matches(b.key, NAME) ==> Field([a, b], NAME) == if a.value.String? then a.value.s else ""
    ensures Matches(b.key, DISPLAY) && b.value.String? ==> Field([a, b], DISPLAY) == b.value.s
  {
    assert [a, b][..1] == [a] && [a][..0] == [];
    assert AsMap([a]) == map[a.key := a.value];
    assert Field([a], NAME) == if Matches(a.key, NAME) && a.value.String? then a.value.s else Field([], NAME);
  }

  /** A null is accepted for a required field, and is not encoded again. */
  lemma NullFieldIsLost() returns (ms: seq<Member>)
    ensures Decode(Members(ms)) == Ok(Provider("", "x", map[]))
    ensures AsMap(ms)[NAME] == Null && Encode(Provider("", "x", map[])) != AsMap(ms)
  {
    var a, b := Member(NAME, Null), Member(DISPLAY, String("x"));
    ms := [a, b];
    TwoMembers(a, b);
    FieldsDistinct(NAME);
    FieldsDistinct(DISPLAY);
    assert Matches(NAME, NAME) && Matches(DISPLAY, DISPLAY);
    assert Fits(a) && Fits(b);
    assert AsMap(ms) - {NAME, DISPLAY} == map[];
    assert Encode(Provider("", "x", map[]))[NAME] == String("");
  }

  /** In a document without variants of the field names and without repeated keys, the decoder reads the
      fields' own members, so the object survives exactly if both are strings rather than null. */
  lemma EncodeDecodeWithoutVariants(ms: seq<Member>)
    requires Decode(Members(ms)).Ok?
    requires forall i, j :: 0 <= i < j < |ms| ==> ms[i].key != ms[j].key
    requires forall i :: 0 <= i < |ms| ==> !Variant(ms[i].key, NAME) && !Variant(ms[i].key, DISPLAY)
    ensures var m := AsMap(ms);
      && NAME in m && DISPLAY in m
      && (Encode(Decode(Members(ms)).value) == m <==> m[NAME].String? && m[DISPLAY].String?)
  {
    EncodeDecodeIff(ms);
    OwnMember(ms, NAME);
    OwnMember(ms, DISPLAY);
  }

  lemma {:induction false} MapMember(ms: seq<Member>, key: string) returns (i: nat)
    requires key in AsMap(ms)
    ensures i < |ms| && ms[i].key == key && ms[i].value == AsMap(ms)[key]
    decreases ms
  {
    var n := |ms| - 1;
    if ms[n].key == key {
      i := n;
    } else {
      i := MapMember(ms[..n], key);
    }
  }

  lemma OwnMember(ms: seq<Member>, field: string)
    requires forall i, j :: 0 <= i < j < |ms| ==> ms[i].key != ms[j].key
    requires forall i :: 0 <= i < |ms| ==> !Variant(ms[i].key, field)
    requires field in AsMap(ms)
    ensures ReadsOwn(ms, field) <==> AsMap(ms)[field].String?
  {
    ReadsOwnIff(ms, field);
    var i := MapMember(ms, field);
    if ms[i].value.String? {
      assert LastFor(ms, field, i);
      FieldIsLast(ms, field, i);
    }
  }

  /** Variants of `name` never hijack it: they all sort before it. */
  lemma NameIsNeverHijacked(extra: map<string, Json>, k: string)
    ensures !Hijacks(extra, NAME, k)
  {
    if Variant(k, NAME) {
      LowerCaseIsLast(k, NAME);
      LessTotal(k, NAME);
    }
  }

  /** Every variant of a text without s and k sorts before it, if the text is all lower case. */
  lemma {:induction false} LowerCaseIsLast(k: string, field: string)
    requires Matches(k, field) && k != field
    requires forall i :: 0 <= i < |field| ==> 'a' <= field[i] <= 'z' && field[i] != 's' && field[i] != 'k'
    ensures Less(k, field)
    decreases |k|
  {
    assert FoldChar(k[0]) == FoldChar(field[0]);
    if k[0] == field[0] {
      assert k == [k[0]] + k[1..] && field == [field[0]] + field[1..];
      LowerCaseIsLast(k[1..], field[1..]);
    }
  }

  /** But `displayName` can be: a long s sorts after the letter s it is taken for. */
  lemma DisplayNameCanBeHijacked(value: string)
    ensures Hijacks(map["di\U{017F}playName" := String(value)], DISPLAY, "di\U{017F}playName")
  {
    var k := "di\U{017F}playName";
    LongSVariant();
    LessAt(DISPLAY, k, 2);
    LessTotal(k, k);
  }

  /** So there is a provider that is read back as a different one. */
  lemma ProviderThatIsMisread() returns (p: Provider, ms: seq<Member>)
    ensures NAME !in p.additional && DISPLAY !in p.additional
    ensures Listing(ms, Encode(p)) && Decode(Members(ms)) != Ok(p)
  {
    var k := "di\U{017F}playName";
    p := Provider("n", "d", map[k := String("other")]);
    ms := ListingExists(Encode(p));
    LongSVariant();
    FieldsDistinct(k);
    DisplayNameCanBeHijacked("other");
    DecodeEncodeIff(p, ms);
    assert !Unhijacked(p.additional, DISPLAY, p.displayName);
    assert Matches(NAME, NAME);
  }

  lemma LongSVariant()
    ensures var k := "di\U{017F}playName";
      Variant(k, DISPLAY) && k[..2] == DISPLAY[..2] && k[2] == '\U{017F}' && DISPLAY[2] == 's'
  {
  }

  /** The first difference decides. */
  lemma {:induction false} LessAt(a: string, b: string, n: nat)
    requires n < |a| && n < |b| && a[..n] == b[..n] && a[n] < b[n]
    ensures Less(a, b)
    decreases n
  {
    if n > 0 {
      assert a[0] == a[..n][0] == b[..n][0] == b[0];
      assert a[1..][..n - 1] == a[..n][1..] == b[..n][1..] == b[1..][..n - 1];
      LessAt(a[1..], b[1..], n - 1);
    }
  }
}
