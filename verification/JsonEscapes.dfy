/** What a standard reader makes of a printed string (section 7 of RFC 8259). */
module JsonEscapes {
  import opened Common
  import opened Json

  /** The character that a backslash and this one stand for; the four hex digits of \u are left as they are. */
  function Meant(c: char): string {
    match c
    case 'n' => "\n"
    case 'r' => "\r"
    case 't' => "\t"
    case 'b' => "\U{0008}"
    case 'f' => "\U{000C}"
    case 'u' => "\\u"
    case _ => [c]
  }

  function Decoded(text: string): string {
    if text == "" then ""
    else if text[0] == '\\' && |text| > 1 then Meant(text[1]) + Decoded(text[2..])
    else [text[0]] + Decoded(text[1..])
  }

  function WithoutReturns(v: string): string {
    if v == "" then "" else (if v[0] == '\r' then "" else [v[0]]) + WithoutReturns(v[1..])
  }

  lemma {:induction false} ReplaceConcat(s: string, t: string, c: char, substitute: string)
    ensures Replace(s + t, c, substitute) == Replace(s, c, substitute) + Replace(t, c, substitute)
  {
    if s == "" {
      assert s + t == t;
    } else {
      assert (s + t)[1..] == s[1..] + t;
      ReplaceConcat(s[1..], t, c, substitute);
    }
  }

  lemma EscapeConcat(s: string, t: string)
    ensures EscapeString(s + t) == EscapeString(s) + EscapeString(t)
  {
    var s1, t1 := Replace(s, '\\', "\\\\"), Replace(t, '\\', "\\\\");
    var s2, t2 := Replace(s1, '"', "\\\""), Replace(t1, '"', "\\\"");
    var s3, t3 := Replace(s2, '\n', "\\n"), Replace(t2, '\n', "\\n");
    ReplaceConcat(s, t, '\\', "\\\\");
    ReplaceConcat(s1, t1, '"', "\\\"");
    ReplaceConcat(s2, t2, '\n', "\\n");
    ReplaceConcat(s3, t3, '\r', "");
  }

  lemma ReplaceOne(a: char, c: char, substitute: string)
    ensures Replace([a], c, substitute) == if a == c then substitute else [a]
  {
    assert Replace([a][1..], c, substitute) == "";
  }

  lemma ReplaceTwo(a: char, b: char, c: char, substitute: string)
    requires a != c && b != c
    ensures Replace([a, b], c, substitute) == [a, b]
  {
    assert [a, b][1..] == [b];
    ReplaceOne(b, c, substitute);
  }

  /** One character, printed. */
  lemma EscapeOne(a: char)
    ensures EscapeString([a]) == match a
                                 case '\\' => "\\\\"
                                 case '"' => "\\\""
                                 case '\n' => "\\n"
                                 case '\r' => ""
                                 case _ => [a]
  {
    ReplaceOne(a, '\\', "\\\\");
    if a == '\\' {
      ReplaceTwo('\\', '\\', '"', "\\\"");
      ReplaceTwo('\\', '\\', '\n', "\\n");
      ReplaceTwo('\\', '\\', '\r', "");
    } else {
      ReplaceOne(a, '"', "\\\"");
      if a == '"' {
        ReplaceTwo('\\', '"', '\n', "\\n");
        ReplaceTwo('\\', '"', '\r', "");
      } else {
        ReplaceOne(a, '\n', "\\n");
        if a == '\n' { ReplaceTwo('\\', 'n', '\r', ""); } else { ReplaceOne(a, '\r', ""); }
      }
    }
  }

  lemma DecodePair(c: char, rest: string)
    ensures Decoded(['\\', c] + rest) == Meant(c) + Decoded(rest)
  {
    assert (['\\', c] + rest)[2..] == rest;
  }

  lemma DecodePlain(c: char, rest: string)
    requires c != '\\'
    ensures Decoded([c] + rest) == [c] + Decoded(rest)
  {
    assert ([c] + rest)[1..] == rest;
  }

  /** A standard reader gets back every string that is printed, but for its carriage returns. */
  lemma {:induction false} DecodingUndoesEscaping(v: string)
    ensures Decoded(EscapeString(v)) == WithoutReturns(v)
  {
    if v != "" {
      var a, rest := v[0], v[1..];
      assert v == [a] + rest;
      EscapeConcat([a], rest);
      EscapeOne(a);
      DecodingUndoesEscaping(rest);
      match a {
        case '\\' => DecodePair('\\', EscapeString(rest));
        case '"' => DecodePair('"', EscapeString(rest));
        case '\n' => DecodePair('n', EscapeString(rest));
        case '\r' => assert "" + EscapeString(rest) == EscapeString(rest);
        case _ => DecodePlain(a, EscapeString(rest));
      }
    }
  }
}
