/** JSON string literals as `JSON.stringify` writes them (the QuoteJSONString
    and UnicodeEscape operations of ECMA-262), and a decoder for the string
    grammar of section 7 of RFC 8259.

    Dafny's `char` is a Unicode scalar value, so a string here can never hold a
    lone surrogate; the escape of lone surrogates that QuoteJSONString also
    performs therefore never applies. */
module JsonString {
  import opened Wrappers

  const HexDigits: string := "0123456789abcdef"

  /** The lower-case hexadecimal digit for `d`. */
  function HexDigit(d: int): char
    requires 0 <= d < 16
  {
    HexDigits[d]
  }

  /** The value of a hexadecimal digit of either case, as RFC 8259 accepts. */
  function HexValue(c: char): (r: Option<int>)
    ensures r.Some? ==> 0 <= r.value < 16
    ensures r.Some? <==> ('0' <= c <= '9' || 'a' <= c <= 'f' || 'A' <= c <= 'F')
  {
    if '0' <= c <= '9' then Some(c as int - '0' as int)
    else if 'a' <= c <= 'f' then Some(c as int - 'a' as int + 10)
    else if 'A' <= c <= 'F' then Some(c as int - 'A' as int + 10)
    else None
  }

  /** The number written by four hexadecimal digits, if they are digits. */
  function Hex4Value(h: string): (r: Option<int>)
    requires |h| == 4
    ensures r.Some? ==> 0 <= r.value < 0x10000
  {
    match (HexValue(h[0]), HexValue(h[1]), HexValue(h[2]), HexValue(h[3]))
    case (Some(a), Some(b), Some(c), Some(d)) => Some(((a * 16 + b) * 16 + c) * 16 + d)
    case _ => None
  }

  lemma HexDigitValue(d: int)
    requires 0 <= d < 16
    ensures HexValue(HexDigit(d)) == Some(d)
  {
  }

  /** UnicodeEscape's digits: `n` as four lower-case hexadecimal digits, most
      significant first and padded with zeros. */
  function Hex4(n: int): (h: string)
    requires 0 <= n < 0x10000
    ensures |h| == 4
  {
    var d3, n1 := n % 16, n / 16;
    var d2, n2 := n1 % 16, n1 / 16;
    var d1, d0 := n2 % 16, n2 / 16;
    [HexDigit(d0), HexDigit(d1), HexDigit(d2), HexDigit(d3)]
  }

  /** The four digits read back as the code unit. */
  lemma Hex4RoundTrip(n: int)
    requires 0 <= n < 0x10000
    ensures Hex4Value(Hex4(n)) == Some(n)
  {
    var n1 := n / 16;
    var n2 := n1 / 16;
    HexDigitValue(n % 16);
    HexDigitValue(n1 % 16);
    HexDigitValue(n2 % 16);
    HexDigitValue(n2 / 16);
  }

  /** The characters that QuoteJSONString escapes with a backslash and a
      single letter or the character itself (the table of JSON single character
      escape sequences of ECMA-262). */
  predicate IsShortEscaped(c: char) {
    c == '"' || c == '\\' || c as int in {0x08, 0x09, 0x0A, 0x0C, 0x0D}
  }

  /** The text QuoteJSONString emits for one character. */
  function EscapeChar(c: char): (e: string)
    ensures |e| > 0 && e[0] != '"'
    ensures |e| == 1 <==> (c as int >= 0x20 && c != '"' && c != '\\')
    ensures |e| == 1 ==> e == [c]
    ensures |e| > 1 ==> e[0] == '\\'
  {
    if c == '"' then "\\\""
    else if c == '\\' then "\\\\"
    else if c as int == 0x08 then "\\b"
    else if c as int == 0x09 then "\\t"
    else if c as int == 0x0A then "\\n"
    else if c as int == 0x0C then "\\f"
    else if c as int == 0x0D then "\\r"
    else if c as int < 0x20 then "\\u" + Hex4(c as int)
    else [c]
  }

  /** Characters that QuoteJSONString copies unchanged. */
  predicate IsPlain(c: char) {
    c as int >= 0x20 && c != '"' && c != '\\'
  }

  /** Text made only of plain characters. */
  predicate AllPlain(s: string) {
    s == [] || (IsPlain(s[0]) && AllPlain(s[1..]))
  }

  /** The escaped contents of a string literal, without its quotes. Escaping
      never shortens the text, and leaves its length unchanged exactly when
      no character needs escaping. */
  function EscapeBody(s: string): (e: string)
    ensures |e| >= |s|
    ensures |e| == |s| <==> AllPlain(s)
  {
    if s == [] then [] else EscapeChar(s[0]) + EscapeBody(s[1..])
  }

  /** Escaping distributes over concatenation. */
  lemma {:induction false} EscapeBodyAppend(s: string, t: string)
    ensures EscapeBody(s + t) == EscapeBody(s) + EscapeBody(t)
    decreases |s|
  {
    if s != [] {
      assert (s + t)[1..] == s[1..] + t;
      EscapeBodyAppend(s[1..], t);
    } else {
      assert s + t == t;
    }
  }

  /** Text made only of plain characters is copied unchanged. */
  lemma {:induction false} PlainIsUnescaped(s: string)
    requires AllPlain(s)
    ensures EscapeBody(s) == s
    decreases |s|
  {
    if s != [] {
      PlainIsUnescaped(s[1..]);
    }
  }

  /** QuoteJSONString: the JSON literal `JSON.stringify` produces for a string. */
  function Quote(s: string): (q: string)
    ensures |q| >= 2 && q[0] == '"' && q[|q| - 1] == '"'
  {
    "\"" + EscapeBody(s) + "\""
  }

  /** Decodes the escape sequence or plain character at the head of `s` (which
      is not the closing quote), returning it and the text after it. A raw
      control character, an unknown escape and a `\u` escape of a surrogate
      are rejected. */
  function DecodeChar(s: string): (r: Option<(char, string)>)
    requires |s| > 0 && s[0] != '"'
    ensures r.Some? ==> |r.value.1| < |s|
  {
    if s[0] == '\\' then
      if |s| < 2 then None
      else if s[1] == '"' then Some(('"', s[2..]))
      else if s[1] == '\\' then Some(('\\', s[2..]))
      else if s[1] == '/' then Some(('/', s[2..]))
      else if s[1] == 'b' then Some((0x08 as char, s[2..]))
      else if s[1] == 't' then Some((0x09 as char, s[2..]))
      else if s[1] == 'n' then Some((0x0A as char, s[2..]))
      else if s[1] == 'f' then Some((0x0C as char, s[2..]))
      else if s[1] == 'r' then Some((0x0D as char, s[2..]))
      else if s[1] == 'u' && |s| >= 6 then
        match Hex4Value(s[2..6])
        case None => None
        case Some(n) => if 0xD800 <= n < 0xE000 then None else Some((n as char, s[6..]))
      else None
    else if s[0] as int < 0x20 then None
    else Some((s[0], s[1..]))
  }

  /** Decodes the contents of a string literal up to and including its closing
      quote, returning the string and the text after the quote. */
  function UnquoteBody(s: string): (r: Option<(string, string)>)
    ensures r.Some? ==> |r.value.1| < |s|
    decreases |s|
  {
    if s == [] then None
    else if s[0] == '"' then Some(([], s[1..]))
    else
      match DecodeChar(s)
      case None => None
      case Some((c, rest)) =>
        match UnquoteBody(rest)
        case None => None
        case Some((t, after)) => Some(([c] + t, after))
  }

  /** Decodes the string literal at the head of `s`, returning the string and
      the text after the literal. */
  function Unquote(s: string): (r: Option<(string, string)>)
    ensures r.Some? ==> |r.value.1| < |s|
  {
    if |s| > 0 && s[0] == '"' then UnquoteBody(s[1..]) else None
  }

  /** The `\u` escape of a control character decodes to that character. */
  lemma UnicodeEscapeRoundTrip(c: char, tail: string)
    requires c as int < 0x20
    ensures DecodeChar("\\u" + Hex4(c as int) + tail) == Some((c, tail))
  {
    var s := "\\u" + Hex4(c as int) + tail;
    assert s[2..6] == Hex4(c as int);
    Hex4RoundTrip(c as int);
    assert s[6..] == tail;
  }

  lemma {:induction false} EscapeCharRoundTrip(c: char, tail: string)
    ensures DecodeChar(EscapeChar(c) + tail) == Some((c, tail))
  {
    var e := EscapeChar(c);
    var s := e + tail;
    if c as int < 0x20 && !IsShortEscaped(c) {
      assert e == "\\u" + Hex4(c as int);
      UnicodeEscapeRoundTrip(c, tail);
    } else if |e| == 1 {
      assert s[0] == c && s[1..] == tail;
    } else {
      assert s[2..] == tail;
    }
  }

  lemma {:induction false} UnquoteBodyRoundTrip(s: string, rest: string)
    ensures UnquoteBody(EscapeBody(s) + "\"" + rest) == Some((s, rest))
    decreases |s|
  {
    if s == [] {
      assert EscapeBody(s) + "\"" + rest == "\"" + rest;
    } else {
      var tail := EscapeBody(s[1..]) + "\"" + rest;
      assert EscapeBody(s) + "\"" + rest == EscapeChar(s[0]) + tail;
      EscapeCharRoundTrip(s[0], tail);
      UnquoteBodyRoundTrip(s[1..], rest);
      assert [s[0]] + s[1..] == s;
    }
  }

  /** Decoding the quoted form of any string gives the string back, and leaves
      whatever text followed the literal untouched. */
  lemma QuoteRoundTrip(s: string, rest: string)
    ensures Unquote(Quote(s) + rest) == Some((s, rest))
  {
    var t := Quote(s) + rest;
    assert t[1..] == EscapeBody(s) + "\"" + rest;
    UnquoteBodyRoundTrip(s, rest);
  }

  /** A quoted string on its own decodes to the string, with nothing left over. */
  lemma QuoteDecodes(s: string)
    ensures Unquote(Quote(s)) == Some((s, []))
  {
    QuoteRoundTrip(s, []);
    assert Quote(s) + [] == Quote(s);
  }

  lemma EveryQuoteDecodes()
    ensures forall s :: Unquote(Quote(s)) == Some((s, []))
  {
    forall s {
      QuoteDecodes(s);
    }
  }

  /** Distinct strings have distinct quoted forms. */
  lemma QuoteInjective(s: string, t: string)
    ensures Quote(s) == Quote(t) <==> s == t
  {
    if Quote(s) == Quote(t) {
      QuoteDecodes(s);
      QuoteDecodes(t);
    }
  }

  /** No character before U+0020 appears in escaped text: every control
      character is escaped, as section 7 of RFC 8259 requires. */
  lemma {:induction false} EscapeBodyHasNoControl(s: string)
    ensures forall i :: 0 <= i < |EscapeBody(s)| ==> EscapeBody(s)[i] as int >= 0x20
    decreases |s|
  {
    if s != [] {
      var e := EscapeChar(s[0]);
      EscapeBodyHasNoControl(s[1..]);
      assert forall i :: 0 <= i < |e| ==> e[i] as int >= 0x20 by {
        if |e| > 1 && s[0] as int < 0x20 && !IsShortEscaped(s[0]) {
          var h := Hex4(s[0] as int);
          assert forall j :: 0 <= j < 4 ==> h[j] in HexDigits;
        }
      }
    }
  }

  /** The quoted form of a string holds no raw control character. */
  lemma QuoteHasNoControl(s: string)
    ensures forall i :: 0 <= i < |Quote(s)| ==> Quote(s)[i] as int >= 0x20
  {
    EscapeBodyHasNoControl(s);
  }
}
