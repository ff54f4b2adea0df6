/** `JSON.stringify(object, null, 2)` for a flat object whose values are all
    strings (the SerializeJSONObject operation of ECMA-262 with a two-space
    gap), and a decoder for exactly that layout. */
module JsonObject {
  import opened Wrappers
  import opened JsonString

  /** One own property of the object, in insertion order. */
  datatype Field = Field(key: string, value: string)

  /** The keys of the fields, in order. */
  function Keys(fs: seq<Field>): (ks: seq<string>)
    ensures |ks| == |fs|
    ensures forall i :: 0 <= i < |fs| ==> ks[i] == fs[i].key
  {
    if fs == [] then [] else [fs[0].key] + Keys(fs[1..])
  }

  /** One property line: the indent, the quoted key, a colon and a space, and
      the quoted value. */
  function Member(f: Field): (line: string)
    ensures |line| >= 8 && line[0] == ' ' && line[1] == ' ' && line[2] == '"' && line[|line| - 1] == '"'
  {
    "  " + Quote(f.key) + ": " + Quote(f.value)
  }

  /** The property lines, separated by a comma and a line break. */
  function Members(fs: seq<Field>): (t: string)
    requires |fs| > 0
  {
    if |fs| == 1 then Member(fs[0]) else Member(fs[0]) + ",\n" + Members(fs[1..])
  }

  /** The text `JSON.stringify(object, null, 2)` returns; an object with no
      properties is written `{}`. */
  function Stringify(fs: seq<Field>): (t: string)
    ensures fs == [] ==> t == "{}"
    ensures fs != [] ==> |t| >= 4 && t[..2] == "{\n" && t[|t| - 2..] == "\n}"
  {
    if fs == [] then "{}" else "{\n" + Members(fs) + "\n}"
  }

  /** A property line holds no control character, so no line break: each
      property sits on a line of its own. */
  lemma MemberIsOneLine(f: Field)
    ensures forall i :: 0 <= i < |Member(f)| ==> Member(f)[i] as int >= 0x20
  {
    var k, v := Quote(f.key), Quote(f.value);
    QuoteHasNoControl(f.key);
    QuoteHasNoControl(f.value);
    var line := Member(f);
    assert line == "  " + k + ": " + v;
    forall i | 0 <= i < |line| ensures line[i] as int >= 0x20 {
      if i < 2 {
      } else if i < 2 + |k| {
        assert line[i] == k[i - 2];
      } else if i < 4 + |k| {
      } else {
        assert line[i] == v[i - 4 - |k|];
      }
    }
  }

  /** The number of line breaks in `s`. */
  function LineBreaks(s: string): nat
  {
    if s == [] then 0 else (if s[0] == '\n' then 1 else 0) + LineBreaks(s[1..])
  }

  lemma {:induction false} LineBreaksAppend(s: string, t: string)
    ensures LineBreaks(s + t) == LineBreaks(s) + LineBreaks(t)
    decreases |s|
  {
    if s == [] {
      assert s + t == t;
    } else {
      assert (s + t)[1..] == s[1..] + t;
      LineBreaksAppend(s[1..], t);
    }
  }

  lemma {:induction false} NoControlNoBreak(s: string)
    requires forall i :: 0 <= i < |s| ==> s[i] as int >= 0x20
    ensures LineBreaks(s) == 0
    decreases |s|
  {
    if s != [] {
      assert forall i :: 0 <= i < |s[1..]| ==> s[1..][i] == s[i + 1];
      NoControlNoBreak(s[1..]);
    }
  }

  /** The property lines of `n` fields hold exactly `n - 1` line breaks, the
      ones after the separating commas: each property takes one line. */
  lemma {:induction false} MembersLineBreaks(fs: seq<Field>)
    requires |fs| > 0
    ensures LineBreaks(Members(fs)) == |fs| - 1
    decreases |fs|
  {
    MemberIsOneLine(fs[0]);
    NoControlNoBreak(Member(fs[0]));
    if |fs| > 1 {
      LineBreaksAppend(Member(fs[0]) + ",\n", Members(fs[1..]));
      LineBreaksAppend(Member(fs[0]), ",\n");
      assert LineBreaks(",\n") == 1;
      MembersLineBreaks(fs[1..]);
    }
  }

  /** Decodes the colon, the space and the value literal that follow a key,
      returning the value and the text after it. */
  function ParseValue(s: string): (r: Option<(string, string)>)
    ensures r.Some? ==> |r.value.1| < |s|
  {
    if |s| < 2 || s[0] != ':' || s[1] != ' ' then None else Unquote(s[2..])
  }

  /** Decodes one property line at the head of `s`, returning the field and
      the text after the line. */
  function ParseMember(s: string): (r: Option<(Field, string)>)
    ensures r.Some? ==> |r.value.1| < |s|
  {
    if |s| < 2 || s[0] != ' ' || s[1] != ' ' then None
    else
      match Unquote(s[2..])
      case None => None
      case Some((k, afterKey)) =>
        match ParseValue(afterKey)
        case None => None
        case Some((v, afterValue)) => Some((Field(k, v), afterValue))
  }

  /** Decodes property lines up to the closing `\n}`, which must end the text. */
  function ParseMembers(s: string): (r: Option<seq<Field>>)
    ensures r.Some? ==> |r.value| > 0
    decreases |s|
  {
    match ParseMember(s)
    case None => None
    case Some((f, rest)) =>
      if rest == "\n}" then Some([f])
      else if |rest| >= 2 && rest[..2] == ",\n" then
        match ParseMembers(rest[2..])
        case None => None
        case Some(more) => Some([f] + more)
      else None
  }

  /** Decodes the text of a flat object of strings in the two-space layout. */
  function Parse(s: string): (r: Option<seq<Field>>)
    ensures r == Some([]) <==> s == "{}"
    ensures r.Some? && r.value != [] ==> |s| >= 2 && s[..2] == "{\n"
  {
    if s == "{}" then Some([])
    else if |s| >= 2 && s[..2] == "{\n" then ParseMembers(s[2..])
    else None
  }

  lemma ParseValueRoundTrip(v: string, tail: string)
    ensures ParseValue(": " + Quote(v) + tail) == Some((v, tail))
  {
    var s := ": " + Quote(v) + tail;
    assert s[2..] == Quote(v) + tail;
    QuoteRoundTrip(v, tail);
  }

  /** Concatenation regrouped to the right. */
  lemma Regroup(a: string, b: string, c: string, d: string)
    ensures a + b + c + d == a + (b + (c + d))
  {
  }

  /** An indented key literal followed by a well-formed value part decodes
      as that key and value. */
  lemma ParseIndented(body: string, k: string, afterKey: string, v: string, afterValue: string)
    requires Unquote(body) == Some((k, afterKey))
    requires ParseValue(afterKey) == Some((v, afterValue))
    ensures ParseMember("  " + body) == Some((Field(k, v), afterValue))
  {
    assert ("  " + body)[2..] == body;
  }

  lemma ParseMemberRoundTrip(f: Field, tail: string)
    ensures ParseMember(Member(f) + tail) == Some((f, tail))
  {
    var qk, qv := Quote(f.key), Quote(f.value);
    var afterKey := ": " + qv + tail;
    assert Member(f) == "  " + qk + ": " + qv;
    assert "  " + qk + ": " + qv == "  " + qk + (": " + qv);
    Regroup("  ", qk, ": " + qv, tail);
    assert Member(f) + tail == "  " + (qk + afterKey);
    QuoteRoundTrip(f.key, afterKey);
    ParseValueRoundTrip(f.value, tail);
    ParseIndented(qk + afterKey, f.key, afterKey, f.value, tail);
  }

  /** One property line followed by a separator and more text decodes as that
      field followed by whatever the text after the separator decodes to. */
  lemma ParseMembersStep(f: Field, rest: string)
    ensures ParseMembers(Member(f) + (",\n" + rest)) ==
      match ParseMembers(rest)
      case None => None
      case Some(more) => Some([f] + more)
  {
    var tail := ",\n" + rest;
    ParseMemberRoundTrip(f, tail);
    assert tail[..2] == ",\n";
    assert tail[2..] == rest;
    assert tail != "\n}" by { assert tail[0] == ','; }
  }

  lemma {:induction false} ParseMembersRoundTrip(fs: seq<Field>)
    requires |fs| > 0
    ensures ParseMembers(Members(fs) + "\n}") == Some(fs)
    decreases |fs|
  {
    if |fs| == 1 {
      assert Members(fs) == Member(fs[0]);
      ParseMemberRoundTrip(fs[0], "\n}");
      assert [fs[0]] == fs;
    } else {
      var rest := Members(fs[1..]) + "\n}";
      assert Members(fs) == Member(fs[0]) + ",\n" + Members(fs[1..]);
      Regroup(Member(fs[0]), ",\n", Members(fs[1..]), "\n}");
      ParseMembersStep(fs[0], rest);
      ParseMembersRoundTrip(fs[1..]);
      assert [fs[0]] + fs[1..] == fs;
    }
  }

  /** Decoding the text `Stringify` writes recovers every key and value, in
      order. */
  lemma RoundTrip(fs: seq<Field>)
    ensures Parse(Stringify(fs)) == Some(fs)
  {
    if fs != [] {
      var t := Stringify(fs);
      assert t[2..] == Members(fs) + "\n}";
      ParseMembersRoundTrip(fs);
    }
  }

  /** Two objects are written as the same text exactly when they have the same
      fields in the same order. */
  lemma StringifyInjective(fs: seq<Field>, gs: seq<Field>)
    ensures Stringify(fs) == Stringify(gs) <==> fs == gs
  {
    if Stringify(fs) == Stringify(gs) {
      RoundTrip(fs);
      RoundTrip(gs);
    }
  }
}
