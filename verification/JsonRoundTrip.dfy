/** What is printed is what is read. */
module JsonRoundTrip {
  import opened Common
  import opened Json

  predicate IsLetter(c: char) { 'a' <= c <= 'z' || 'A' <= c <= 'Z' }

  predicate IsKey(key: string) { key != "" && forall c :: c in key ==> IsLetter(c) }

  /** No character that EscapeString touches. */
  predicate Clean(v: string) { '"' !in v && '\\' !in v && '\n' !in v && '\r' !in v }

  /** The text of a number or literal. */
  predicate IsLiteral(raw: string) { raw != "" && raw[0] != ' ' && '"' !in raw && ',' !in raw && '}' !in raw }

  predicate WellFormed(f: Field) {
    IsKey(f.key) && match f.value case Text(text) => Clean(text) case Raw(raw) => IsLiteral(raw)
  }

  // ---------------------------------------------------------------- escaping

  lemma {:induction false} ReplaceAbsent(s: string, c: char, substitute: string)
    requires c !in s
    ensures Replace(s, c, substitute) == s
  {
    if s != "" { ReplaceAbsent(s[1..], c, substitute); }
  }

  /** Replacing takes the character away, unless the substitute holds it, and adds nothing but the substitute. */
  lemma {:induction false} ReplaceMembers(s: string, c: char, substitute: string, x: char)
    ensures x in Replace(s, c, substitute) <==> (x in s && x != c) || (c in s && x in substitute)
  {
    if s != "" { ReplaceMembers(s[1..], c, substitute, x); }
  }

  lemma {:induction false} ReplaceGrows(s: string, c: char, substitute: string)
    requires |substitute| >= 2
    ensures |Replace(s, c, substitute)| >= |s| + if c in s then 1 else 0
  {
    if s != "" { ReplaceGrows(s[1..], c, substitute); }
  }

  lemma EscapeClean(v: string)
    requires Clean(v)
    ensures EscapeString(v) == v
  {
    ReplaceAbsent(v, '\\', "\\\\");
    ReplaceAbsent(v, '"', "\\\"");
    ReplaceAbsent(v, '\n', "\\n");
    ReplaceAbsent(v, '\r', "");
  }

  lemma EscapeMembers(v: string)
    ensures '\n' !in EscapeString(v) && '\r' !in EscapeString(v)
    ensures '"' in EscapeString(v) <==> '"' in v
  {
    var slashes := Replace(v, '\\', "\\\\");
    var quotes := Replace(slashes, '"', "\\\"");
    var newlines := Replace(quotes, '\n', "\\n");
    ReplaceMembers(v, '\\', "\\\\", '"');
    ReplaceMembers(slashes, '"', "\\\"", '"');
    ReplaceMembers(quotes, '\n', "\\n", '"');
    ReplaceMembers(newlines, '\r', "", '"');
    ReplaceMembers(quotes, '\n', "\\n", '\n');
    ReplaceMembers(newlines, '\r', "", '\n');
    ReplaceMembers(newlines, '\r', "", '\r');
  }

  lemma EscapeIdentity(v: string)
    requires EscapeString(v) == v && '"' !in v
    ensures Clean(v)
  {
    EscapeMembers(v);
    var slashes := Replace(v, '\\', "\\\\");
    ReplaceMembers(v, '\\', "\\\\", '"');
    ReplaceMembers(v, '\\', "\\\\", '\n');
    ReplaceMembers(v, '\\', "\\\\", '\r');
    ReplaceAbsent(slashes, '"', "\\\"");
    ReplaceAbsent(slashes, '\n', "\\n");
    ReplaceAbsent(slashes, '\r', "");
    ReplaceGrows(v, '\\', "\\\\");
  }

  // ---------------------------------------------------------------- where things stand in the text

  /** Everything from the first of the fields to the closing brace. */
  function Rest(fields: seq<Field>): string { Items(fields) + "}" }

  /** The length of an item with the comma or brace after it. */
  function Width(f: Field): nat { |f.key| + |Printed(f.value)| + 4 }

  lemma Layout(fields: seq<Field>)
    requires fields != []
    ensures var s, f, n, v := Rest(fields), fields[0], |fields[0].key|, Printed(fields[0].value);
            && |s| >= Width(f)
            && s[0] == '"' && s[1..n + 1] == f.key && s[n + 1] == '"' && s[n + 2] == ':'
            && s[n + 3..n + 3 + |v|] == v
            && s[n + 3 + |v|] == (if |fields| == 1 then '}' else ',')
            && (|fields| == 1 ==> |s| == Width(f))
            && (|fields| > 1 ==> s[Width(f)..] == Rest(fields[1..]))
  {
    var f, v := fields[0], Printed(fields[0].value);
    var after := if |fields| == 1 then "}" else "," + Rest(fields[1..]);
    assert Rest(fields) == "\"" + f.key + "\":" + v + after;
  }

  lemma MatchMeans(s: string, key: string, p: nat)
    requires MatchesAt(s, Needle(key), p)
    ensures s[p] == '"' && s[p + 1 + |key|] == '"' && s[p + 2 + |key|] == ':'
    ensures forall k :: 0 <= k < |key| ==> s[p + 1 + k] == key[k]
  {
    var needle := Needle(key);
    assert s[p + 0] == needle[0];
    forall k | 0 <= k < |key| ensures s[p + 1 + k] == key[k] {
      assert s[p + (k + 1)] == needle[k + 1];
    }
    assert s[p + (|key| + 1)] == needle[|key| + 1] && s[p + (|key| + 2)] == needle[|key| + 2];
  }

  /** Two quotes around a key, the character behind the second: a match needs exactly that. */
  lemma QuotePair(s: string, key: string, p: nat, q: nat)
    requires MatchesAt(s, Needle(key), p) && IsKey(key)
    requires p < q < |s| && s[q] == '"' && forall k :: p < k < q ==> s[k] != '"'
    ensures q == p + 1 + |key| && s[p + 1..q] == key && q + 1 < |s| && s[q + 1] == ':'
  {
    MatchMeans(s, key, p);
    forall k | p < k <= p + |key| ensures s[k] != '"' {
      assert s[p + 1 + (k - p - 1)] == key[k - p - 1];
      assert key[k - p - 1] in key;
    }
  }

  /** A match at the start of an item means the item has that key. */
  lemma MatchAtItem(fields: seq<Field>, key: string)
    requires fields != [] && IsKey(key) && IsKey(fields[0].key)
    ensures MatchesAt(Rest(fields), Needle(key), 0) <==> fields[0].key == key
  {
    Layout(fields);
    var s, n := Rest(fields), |fields[0].key|;
    if fields[0].key == key {
      assert s[..n + 3] == "\"" + s[1..n + 1] + [s[n + 1]] + [s[n + 2]];
      assert s[..n + 3] == Needle(key);
      forall k | 0 <= k < n + 3 ensures s[0 + k] == Needle(key)[k] { assert s[..n + 3][k] == s[k]; }
    }
    if MatchesAt(s, Needle(key), 0) {
      forall k | 0 < k < n + 1 ensures s[k] != '"' {
        assert s[k] == s[1..n + 1][k - 1] == fields[0].key[k - 1];
        assert fields[0].key[k - 1] in fields[0].key;
      }
      QuotePair(s, key, 0, n + 1);
    }
  }

  /** The quotes of an item: two around the key, and two around the value when it is a string. */
  predicate QuoteIndex(f: Field, p: int) {
    var n, v := |f.key|, Printed(f.value);
    p == 0 || p == n + 1 || (f.value.Text? && (p == n + 3 || p == n + 2 + |v|))
  }

  lemma NoOtherQuotes(fields: seq<Field>, p: nat)
    requires fields != [] && WellFormed(fields[0])
    requires p < Width(fields[0]) && !QuoteIndex(fields[0], p)
    ensures Rest(fields)[p] != '"'
  {
    Layout(fields);
    var s, n, v := Rest(fields), |fields[0].key|, Printed(fields[0].value);
    if p <= n {
      assert s[p] == s[1..n + 1][p - 1] == fields[0].key[p - 1];
      assert fields[0].key[p - 1] in fields[0].key;
    } else if n + 3 <= p < n + 3 + |v| {
      assert s[p] == s[n + 3..n + 3 + |v|][p - n - 3] == v[p - n - 3];
      match fields[0].value
      case Text(text) =>
        EscapeClean(text);
        assert v[p - n - 3] == text[p - n - 4];
      case Raw(raw) => assert v[p - n - 3] in raw;
    }
  }

  /** The closing quote of a string value is followed by a comma or a brace, so no key ends there. */
  lemma NoMatchAtValue(fields: seq<Field>, key: string)
    requires fields != [] && WellFormed(fields[0]) && IsKey(key) && fields[0].value.Text?
    ensures !MatchesAt(Rest(fields), Needle(key), |fields[0].key| + 3)
  {
    var s, n, v := Rest(fields), |fields[0].key|, Printed(fields[0].value);
    Layout(fields);
    EscapeClean(fields[0].value.text);
    var p, q := n + 3, n + 2 + |v|;
    assert s[q] == s[n + 3..n + 3 + |v|][|v| - 1] == '"';
    forall k | p < k < q ensures s[k] != '"' { NoOtherQuotes(fields, k); }
    if MatchesAt(s, Needle(key), p) { QuotePair(s, key, p, q); }
  }

  /** Nothing inside an item looks like a key: not a value equal to the key, nor what stands between two strings. */
  lemma NoMatchInsideItem(fields: seq<Field>, key: string, p: nat)
    requires fields != [] && WellFormed(fields[0]) && IsKey(key) && 0 < p < Width(fields[0])
    ensures !MatchesAt(Rest(fields), Needle(key), p)
  {
    var s, n, v := Rest(fields), |fields[0].key|, Printed(fields[0].value);
    Layout(fields);
    if fields[0].value.Text? && p == n + 3 {
      NoMatchAtValue(fields, key);
    } else if MatchesAt(s, Needle(key), p) {
      MatchMeans(s, key, p);
      assert s[p + 1 + 0] == key[0] && key[0] in key;
      if !QuoteIndex(fields[0], p) { NoOtherQuotes(fields, p); }
    }
  }

  // ---------------------------------------------------------------- finding a field

  lemma TailChar(s: string, o: nat, a: nat)
    requires o + a < |s|
    ensures s[o..][a] == s[o + a]
  {}

  lemma MatchesShifted(s: string, o: nat, needle: string, p: nat)
    requires o + p <= |s|
    ensures MatchesAt(s, needle, o + p) <==> MatchesAt(s[o..], needle, p)
  {
    if MatchesAt(s, needle, o + p) {
      forall k | 0 <= k < |needle| ensures s[o..][p + k] == needle[k] { TailChar(s, o, p + k); }
    }
    if MatchesAt(s[o..], needle, p) {
      forall k | 0 <= k < |needle| ensures s[o + p + k] == needle[k] { TailChar(s, o, p + k); }
    }
  }

  lemma {:induction false} FindSkips(s: string, needle: string, a: nat, b: nat)
    requires a <= b <= |s| && forall p :: a <= p < b ==> !MatchesAt(s, needle, p)
    ensures Find(s, needle, a) == Find(s, needle, b)
    decreases b - a
  {
    if a < b { FindSkips(s, needle, a + 1, b); }
  }

  /** The index of the first field with the key, or the number of fields. */
  function IndexOfKey(fields: seq<Field>, key: string): (i: nat)
    ensures i <= |fields| && (i < |fields| ==> fields[i].key == key)
    ensures forall j :: 0 <= j < i ==> fields[j].key != key
  {
    if fields == [] || fields[0].key == key then 0 else 1 + IndexOfKey(fields[1..], key)
  }

  ghost predicate WellFormedBefore(fields: seq<Field>, i: nat)
    requires i <= |fields|
  {
    forall j :: 0 <= j < i ==> WellFormed(fields[j])
  }

  lemma ItemFits(s: string, o: nat, fields: seq<Field>)
    requires o <= |s| && s[o..] == Rest(fields) && fields != []
    ensures o + Width(fields[0]) <= |s|
  {
    Layout(fields);
  }

  lemma NoMatchWithin(s: string, o: nat, fields: seq<Field>, key: string, p: nat)
    requires o <= |s| && s[o..] == Rest(fields) && IsKey(key)
    requires fields != [] && WellFormed(fields[0]) && fields[0].key != key
    requires o + p <= |s| && p < Width(fields[0])
    ensures !MatchesAt(s, Needle(key), o + p)
  {
    MatchesShifted(s, o, Needle(key), p);
    if p > 0 { NoMatchInsideItem(fields, key, p); } else { MatchAtItem(fields, key); }
  }

  /** An item with another key is passed over whole. */
  lemma SkipItem(s: string, o: nat, fields: seq<Field>, key: string, to: nat)
    requires o <= |s| && s[o..] == Rest(fields) && IsKey(key)
    requires fields != [] && WellFormed(fields[0]) && fields[0].key != key && to == o + Width(fields[0])
    ensures to <= |s| && Find(s, Needle(key), o) == Find(s, Needle(key), to)
  {
    ItemFits(s, o, fields);
    forall p | o <= p < to ensures !MatchesAt(s, Needle(key), p) {
      NoMatchWithin(s, o, fields, key, p - o);
    }
    FindSkips(s, Needle(key), o, to);
  }

  lemma NeedleLength(key: string)
    ensures |Needle(key)| == |key| + 3
  {}

  lemma NotFoundAtEnd(s: string, o: nat, key: string)
    requires o <= |s| <= o + 1
    ensures Find(s, Needle(key), o) == None
  {
    NeedleLength(key);
  }

  lemma FoundHere(s: string, o: nat, fields: seq<Field>, key: string)
    requires fields != [] && fields[0].key == key && IsKey(key) && o <= |s| && s[o..] == Rest(fields)
    ensures Find(s, Needle(key), o) == Some(o)
  {
    MatchesShifted(s, o, Needle(key), 0);
    MatchAtItem(fields, key);
  }

  /** After an item stands the rest of the object. */
  lemma AfterItem(s: string, o: nat, fields: seq<Field>, to: nat)
    requires fields != [] && o <= |s| && s[o..] == Rest(fields) && to == o + Width(fields[0])
    ensures to <= |s|
    ensures if |fields| == 1 then to == |s| else s[to..] == Rest(fields[1..])
  {
    Layout(fields);
    if |fields| > 1 { assert s[to..] == s[o..][Width(fields[0])..]; }
  }

  ghost predicate FoundAt(s: string, fields: seq<Field>, key: string, pos: Option<nat>) {
    var i := IndexOfKey(fields, key);
    if i == |fields| then pos == None else pos.Some? && pos.value <= |s| && s[pos.value..] == Rest(fields[i..])
  }

  lemma FoundLater(s: string, fields: seq<Field>, key: string, pos: Option<nat>)
    requires fields != [] && fields[0].key != key && FoundAt(s, fields[1..], key, pos)
    ensures FoundAt(s, fields, key, pos)
  {
    assert fields[1 + IndexOfKey(fields[1..], key)..] == fields[1..][IndexOfKey(fields[1..], key)..];
  }

  /** Searching from the start of an item reaches the first field with the key, and nothing before it. */
  lemma {:induction false} FindField(s: string, o: nat, fields: seq<Field>, key: string)
    requires o <= |s| && s[o..] == Rest(fields) && IsKey(key)
    requires WellFormedBefore(fields, IndexOfKey(fields, key))
    ensures FoundAt(s, fields, key, Find(s, Needle(key), o))
    decreases |fields|
  {
    if fields == [] {
      NotFoundAtEnd(s, o, key);
    } else if fields[0].key == key {
      FoundHere(s, o, fields, key);
      assert fields[0..] == fields;
    } else {
      var to := o + Width(fields[0]);
      SkipItem(s, o, fields, key, to);
      AfterItem(s, o, fields, to);
      if |fields| == 1 {
        NotFoundAtEnd(s, to, key);
      } else {
        FindField(s, to, fields[1..], key);
        FoundLater(s, fields, key, Find(s, Needle(key), to));
      }
    }
  }

  // ---------------------------------------------------------------- reading its value

  /** A text up to its first quote. */
  function BeforeQuote(v: string): string { v[..Until(v, 0, {'"'})] }

  lemma {:induction false} UntilIs(s: string, i: nat, stops: set<char>, end: nat)
    requires i <= end <= |s| && (end < |s| ==> s[end] in stops) && forall k :: i <= k < end ==> s[k] !in stops
    ensures Until(s, i, stops) == end
    decreases end - i
  {
    if i < end { UntilIs(s, i + 1, stops, end); }
  }

  ghost predicate StandsAt(s: string, from: nat, part: string) {
    from + |part| <= |s| && forall k :: 0 <= k < |part| ==> s[from + k] == part[k]
  }

  lemma StandingIsSlice(s: string, from: nat, part: string, q: nat)
    requires StandsAt(s, from, part) && q <= |part|
    ensures s[from..from + q] == part[..q]
  {
    forall k | 0 <= k < q ensures s[from..from + q][k] == part[k] { assert s[from + k] == part[k]; }
  }

  lemma MiddleOfQuoted(s: string, from: nat, q: nat)
    requires from + 2 + q <= |s|
    ensures s[from..from + 2 + q][1..1 + q] == s[from + 1..from + 1 + q]
  {
    var inside, whole := s[from..from + 2 + q][1..1 + q], s[from + 1..from + 1 + q];
    forall k | 0 <= k < q ensures inside[k] == whole[k] {}
  }

  lemma ValueOfText(s: string, from: nat, inner: string)
    requires from + |inner| + 2 <= |s| && s[from] == '"' && s[from + |inner| + 1] == '"'
    requires StandsAt(s, from + 1, inner)
    ensures ValueAt(s, from).Some? && Unquoted(ValueAt(s, from).value) == BeforeQuote(inner)
  {
    var q := Until(inner, 0, {'"'});
    forall k | from + 1 <= k < from + 1 + q ensures s[k] != '"' {
      assert s[from + 1 + (k - from - 1)] == inner[k - from - 1];
    }
    UntilIs(s, from + 1, {'"'}, from + 1 + q);
    assert SkipSpaces(s, from) == from;
    var raw := s[from..from + 2 + q];
    assert ValueAt(s, from) == Some(raw);
    MiddleOfQuoted(s, from, q);
    StandingIsSlice(s, from + 1, inner, q);
  }

  lemma ValueOfLiteral(s: string, from: nat, raw: string)
    requires IsLiteral(raw) && from + |raw| < |s| && StandsAt(s, from, raw) && s[from + |raw|] in {',', '}'}
    ensures ValueAt(s, from) == Some(raw) && Unquoted(raw) == raw
  {
    assert raw[0] in raw && s[from + 0] == raw[0];
    forall k | from <= k < from + |raw| ensures s[k] !in {',', '}'} {
      assert s[from + (k - from)] == raw[k - from] && raw[k - from] in raw;
    }
    UntilIs(s, from, {',', '}'}, from + |raw|);
    assert s[from..from + |raw|] == raw;
  }

  /** What the reader makes of a printed value. */
  function ReadBack(v: Value): string {
    match v
    case Text(text) => BeforeQuote(EscapeString(text))
    case Raw(raw) => raw
  }

  lemma TailSlice(s: string, o: nat, a: nat, part: string)
    requires o + a + |part| <= |s| && s[o..][a..a + |part|] == part
    ensures StandsAt(s, o + a, part)
  {
    forall k | 0 <= k < |part| ensures s[o + a + k] == part[k] { assert s[o..][a..a + |part|][k] == s[o + a + k]; }
  }

  lemma PrintedStandsAt(s: string, o: nat, fields: seq<Field>)
    requires fields != [] && o <= |s| && s[o..] == Rest(fields)
    ensures var from, v := o + |fields[0].key| + 3, Printed(fields[0].value);
            && StandsAt(s, from, v)
            && from + |v| < |s| && s[from + |v|] in {',', '}'}
  {
    Layout(fields);
    var n, v := |fields[0].key| + 3, Printed(fields[0].value);
    TailSlice(s, o, n, v);
    TailChar(s, o, n + |v|);
  }

  lemma ReadPrinted(s: string, from: nat, value: Value)
    requires StandsAt(s, from, Printed(value))
    requires from + |Printed(value)| < |s| && s[from + |Printed(value)|] in {',', '}'}
    requires value.Raw? ==> IsLiteral(value.raw)
    ensures ValueAt(s, from).Some? && Unquoted(ValueAt(s, from).value) == ReadBack(value)
  {
    match value
    case Text(text) =>
      QuotedStandsAt(s, from, EscapeString(text));
      ValueOfText(s, from, EscapeString(text));
    case Raw(raw) =>
      ValueOfLiteral(s, from, raw);
  }

  lemma QuotedStandsAt(s: string, from: nat, inner: string)
    requires StandsAt(s, from, "\"" + inner + "\"")
    ensures from + |inner| + 2 <= |s| && s[from] == '"' && s[from + |inner| + 1] == '"' && StandsAt(s, from + 1, inner)
  {
    var v := "\"" + inner + "\"";
    assert s[from + 0] == v[0] && s[from + (|inner| + 1)] == v[|inner| + 1];
    forall k | 0 <= k < |inner| ensures s[from + 1 + k] == inner[k] {
      assert s[from + (k + 1)] == v[k + 1];
    }
  }

  ghost predicate LiteralAt(fields: seq<Field>, i: nat) {
    i < |fields| && fields[i].value.Raw? ==> IsLiteral(fields[i].value.raw)
  }

  lemma NotAtBrace(s: string, key: string)
    requires s != "" && s[0] != '"'
    ensures !MatchesAt(s, Needle(key), 0)
  {
    assert Needle(key)[0] == '"';
    assert s[0 + 0] != Needle(key)[0];
  }

  /** The opening brace starts no key. */
  lemma FindFromBrace(fields: seq<Field>, key: string)
    requires IsKey(key)
    ensures Print(fields)[1..] == Rest(fields)
    ensures Find(Print(fields), Needle(key), 0) == Find(Print(fields), Needle(key), 1)
  {
    var s := Print(fields);
    assert s[1..] == Rest(fields) && s[0] == '{';
    NotAtBrace(s, key);
    FindSkips(s, Needle(key), 0, 1);
  }

  /** The value behind the key of the first of these fields. */
  lemma ReadHere(s: string, o: nat, fields: seq<Field>, from: nat)
    requires fields != [] && LiteralAt(fields, 0) && o <= |s| && s[o..] == Rest(fields)
    requires from == o + |fields[0].key| + 3
    ensures from <= |s| && ValueAt(s, from).Some? && Unquoted(ValueAt(s, from).value) == ReadBack(fields[0].value)
  {
    PrintedStandsAt(s, o, fields);
    ReadPrinted(s, from, fields[0].value);
  }

  lemma RawValueAt(s: string, key: string, pos: nat, from: nat)
    requires Find(s, Needle(key), 0) == Some(pos) && from == pos + |Needle(key)|
    ensures from <= |s| && RawValue(s, key) == ValueAt(s, from)
  {}

  /** What the reader answers for any key, over any printed object whose fields before it are well formed. */
  lemma {:induction false} ReadField(fields: seq<Field>, key: string)
    requires IsKey(key)
    requires WellFormedBefore(fields, IndexOfKey(fields, key)) && LiteralAt(fields, IndexOfKey(fields, key))
    ensures var i, raw := IndexOfKey(fields, key), RawValue(Print(fields), key);
            if i == |fields| then raw == None else raw.Some? && Unquoted(raw.value) == ReadBack(fields[i].value)
  {
    FindFromBrace(fields, key);
    FindField(Print(fields), 1, fields, key);
    ReadFound(Print(fields), fields, key, Find(Print(fields), Needle(key), 0));
  }

  lemma ReadFound(s: string, fields: seq<Field>, key: string, pos: Option<nat>)
    requires FoundAt(s, fields, key, pos) && Find(s, Needle(key), 0) == pos
             && LiteralAt(fields, IndexOfKey(fields, key))
    ensures var i, raw := IndexOfKey(fields, key), RawValue(s, key);
            if i == |fields| then raw == None else raw.Some? && Unquoted(raw.value) == ReadBack(fields[i].value)
  {
    var i := IndexOfKey(fields, key);
    if i < |fields| {
      assert fields[i..][0] == fields[i];
      NeedleLength(key);
      var from := pos.value + |key| + 3;
      RawValueAt(s, key, pos.value, from);
      ReadHere(s, pos.value, fields[i..], from);
    }
  }

  lemma CleanReadsBack(v: string)
    ensures BeforeQuote(EscapeString(v)) == v <==> Clean(v)
  {
    var e := EscapeString(v);
    if Clean(v) {
      EscapeClean(v);
    } else if BeforeQuote(e) == v {
      assert '"' !in v;
      EscapeMembers(v);
      assert BeforeQuote(e) == e;
      EscapeIdentity(v);
    }
  }

  ghost predicate DistinctKeys(fields: seq<Field>) {
    forall i, j :: 0 <= i < j < |fields| ==> fields[i].key != fields[j].key
  }

  /** The round trip: every printed field is read back exactly, and no other key is found. */
  lemma RoundTrip(fields: seq<Field>, key: string)
    requires DistinctKeys(fields) && IsKey(key)
    requires forall f :: f in fields ==> WellFormed(f)
    ensures RawValue(Print(fields), key).Some? <==> exists f :: f in fields && f.key == key
    ensures forall f :: f in fields && f.key == key ==>
              Unquoted(RawValue(Print(fields), key).value) == match f.value case Text(t) => t case Raw(r) => r
  {
    var i := IndexOfKey(fields, key);
    assert forall j :: 0 <= j < |fields| ==> fields[j] in fields && WellFormed(fields[j]);
    ReadField(fields, key);
    forall f | f in fields && f.key == key
      ensures i < |fields| && f == fields[i] && ReadBack(f.value) == match f.value case Text(t) => t case Raw(r) => r
    {
      var j :| 0 <= j < |fields| && fields[j] == f;
      if f.value.Text? { CleanReadsBack(f.value.text); }
    }
  }

  /** A string value survives the trip exactly when EscapeString has nothing to do on it. */
  lemma RoundTripIff(fields: seq<Field>, i: nat)
    requires i < |fields| && DistinctKeys(fields) && fields[i].value.Text? && IsKey(fields[i].key)
    requires forall j :: 0 <= j < |fields| && j != i ==> WellFormed(fields[j])
    ensures var raw := RawValue(Print(fields), fields[i].key);
            raw.Some? && (Unquoted(raw.value) == fields[i].value.text <==> Clean(fields[i].value.text))
  {
    assert IndexOfKey(fields, fields[i].key) == i;
    ReadField(fields, fields[i].key);
    CleanReadsBack(fields[i].value.text);
  }
}
