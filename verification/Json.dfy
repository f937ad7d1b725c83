/** The flat JSON printer and reader of the MT4 Slave EA. */
module Json {
  import opened Common

  /** A printed value: a string to be quoted, or the text of a number or literal. */
  datatype Value = Text(text: string) | Raw(raw: string)
  datatype Field = Field(key: string, value: Value)

  // ---------------------------------------------------------------- printing

  /** StringReplace of one character by a string. */
  function Replace(s: string, c: char, substitute: string): string {
    if s == "" then "" else (if s[0] == c then substitute else [s[0]]) + Replace(s[1..], c, substitute)
  }

  function EscapeString(value: string): string {
    var slashes := Replace(value, '\\', "\\\\");
    var quotes := Replace(slashes, '"', "\\\"");
    var newlines := Replace(quotes, '\n', "\\n");
    Replace(newlines, '\r', "")
  }

  function Printed(v: Value): string {
    match v
    case Text(text) => "\"" + EscapeString(text) + "\""
    case Raw(raw) => raw
  }

  function Item(f: Field): string { "\"" + f.key + "\":" + Printed(f.value) }

  /** The items of an object, separated by commas. */
  function Items(fields: seq<Field>): string {
    if fields == [] then ""
    else if |fields| == 1 then Item(fields[0])
    else Item(fields[0]) + "," + Items(fields[1..])
  }

  function Print(fields: seq<Field>): string { "{" + Items(fields) + "}" }

  lemma {:induction false} ItemsSnoc(fields: seq<Field>, f: Field)
    ensures Items(fields + [f]) == Items(fields) + (if fields == [] then "" else ",") + Item(f)
  {
    if |fields| == 1 {
      assert (fields + [f])[1..] == [f];
    } else if fields != [] {
      assert (fields + [f])[1..] == fields[1..] + [f];
      ItemsSnoc(fields[1..], f);
    }
  }

  class JsonBuilder {
    var body: string
    var first: bool
    ghost var fields: seq<Field>

    ghost predicate Valid()
      reads this
    {
      body == Items(fields) && first == (fields == [])
    }

    constructor ()
      ensures Valid() && fields == []
    {
      body, first := "", true;
      fields := [];
    }

    method AppendKeyRaw(key: string, rawValue: string, ghost value: Value)
      requires Valid() && rawValue == Printed(value)
      modifies this
      ensures Valid() && fields == old(fields) + [Field(key, value)]
    {
      ItemsSnoc(fields, Field(key, value));
      if !first { body := body + ","; }
      body := body + "\"" + key + "\":" + rawValue;
      first := false;
      fields := fields + [Field(key, value)];
    }

    method AddString(key: string, value: string)
      requires Valid()
      modifies this
      ensures Valid() && fields == old(fields) + [Field(key, Text(value))]
    {
      AppendKeyRaw(key, "\"" + EscapeString(value) + "\"", Text(value));
    }

    /** AddNumber, AddInteger, AddBool and AddRaw, given the text they append. */
    method AddRaw(key: string, rawJson: string)
      requires Valid()
      modifies this
      ensures Valid() && fields == old(fields) + [Field(key, Raw(rawJson))]
    {
      AppendKeyRaw(key, rawJson, Raw(rawJson));
    }

    method Build() returns (json: string)
      requires Valid()
      ensures json == Print(fields)
    {
      json := "{" + body + "}";
    }
  }

  // ---------------------------------------------------------------- reading

  predicate MatchesAt(s: string, needle: string, p: nat) {
    p + |needle| <= |s| && forall k :: 0 <= k < |needle| ==> s[p + k] == needle[k]
  }

  /** StringFind: the first place at or after `from`, or none. */
  function Find(s: string, needle: string, from: nat): (pos: Option<nat>)
    requires from <= |s|
    ensures pos.Some? ==> from <= pos.value <= |s| && MatchesAt(s, needle, pos.value)
    decreases |s| - from
  {
    if MatchesAt(s, needle, from) then Some(from)
    else if from == |s| then None
    else Find(s, needle, from + 1)
  }

  lemma {:induction false} FindIsFirst(s: string, needle: string, from: nat, p: nat)
    requires from <= p <= |s| && MatchesAt(s, needle, p)
    ensures Find(s, needle, from).Some? && Find(s, needle, from).value <= p
    decreases |s| - from
  {
    if !MatchesAt(s, needle, from) { FindIsFirst(s, needle, from + 1, p); }
  }

  /** The first index at or after i whose character is in `stops`, or the length. */
  function Until(s: string, i: nat, stops: set<char>): (end: nat)
    requires i <= |s|
    ensures i <= end <= |s| && (end < |s| ==> s[end] in stops) && forall k :: i <= k < end ==> s[k] !in stops
    decreases |s| - i
  {
    if i == |s| || s[i] in stops then i else Until(s, i + 1, stops)
  }

  function SkipSpaces(s: string, i: nat): (end: nat)
    requires i <= |s|
    ensures i <= end <= |s| && (end < |s| ==> s[end] != ' ') && forall k :: i <= k < end ==> s[k] == ' '
    decreases |s| - i
  {
    if i < |s| && s[i] == ' ' then SkipSpaces(s, i + 1) else i
  }

  function Needle(key: string): string { "\"" + key + "\":" }

  /** The raw value that starts at or after `from`: a quoted string, or the text up to the next comma or brace. */
  function ValueAt(body: string, from: nat): Option<string>
    requires from <= |body|
  {
    var start := SkipSpaces(body, from);
    if start == |body| then None
    else if body[start] == '"' then
      var end := Until(body, start + 1, {'"'});
      Some(body[start..if end < |body| then end + 1 else end])
    else Some(body[start..Until(body, start, {',', '}'})])
  }

  /** What follows the first place where `"key":` stands. */
  function RawValue(body: string, key: string): Option<string> {
    var pos := Find(body, Needle(key), 0);
    if pos.None? then None else ValueAt(body, pos.value + |Needle(key)|)
  }

  function Unquoted(raw: string): string {
    if |raw| >= 2 && raw[0] == '"' then raw[1..|raw| - 1] else raw
  }

  class JsonReader {
    var body: string

    constructor (body: string)
      ensures this.body == body
    {
      this.body := body;
    }

    method FindRawValue(key: string) returns (found: bool, rawOut: string)
      ensures found == RawValue(body, key).Some?
      ensures found ==> rawOut == RawValue(body, key).value
    {
      var needle := "\"" + key + "\":";
      var pos := Find(body, needle, 0);
      if pos.None? { return false, ""; }
      found, rawOut := ScanValue(pos.value + |needle|);
    }

    method ScanValue(from: nat) returns (found: bool, rawOut: string)
      requires from <= |body|
      ensures found == ValueAt(body, from).Some?
      ensures found ==> rawOut == ValueAt(body, from).value
    {
      var start := from;
      var len := |body|;
      while start < len && body[start] == ' '
        invariant from <= start <= len
        invariant SkipSpaces(body, start) == SkipSpaces(body, from)
      {
        start := start + 1;
      }
      if start >= len { return false, ""; }
      var end;
      if body[start] == '"' {
        end := start + 1;
        while end < len && body[end] != '"'
          invariant start < end <= len
          invariant Until(body, end, {'"'}) == Until(body, start + 1, {'"'})
        {
          end := end + 1;
        }
        return true, body[start..if end < len then end + 1 else end];
      }
      end := start;
      while end < len
        invariant start <= end <= len
        invariant Until(body, end, {',', '}'}) == Until(body, start, {',', '}'})
      {
        var c := body[end];
        if c == ',' || c == '}' { break; }
        end := end + 1;
      }
      return true, body[start..end];
    }

    method HasKey(key: string) returns (found: bool)
      ensures found == RawValue(body, key).Some?
    {
      var raw;
      found, raw := FindRawValue(key);
    }

    method GetString(key: string, defaultValue: string) returns (value: string)
      ensures value == match RawValue(body, key) case Some(raw) => Unquoted(raw) case None => defaultValue
    {
      var found, raw := FindRawValue(key);
      if !found { return defaultValue; }
      if |raw| >= 2 && raw[0] == '"' { return raw[1..|raw| - 1]; }
      return raw;
    }
  }
}
