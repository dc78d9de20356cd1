/**
  The JSON text of an actor's tag object, as `JSON.stringify` writes it for an
  object whose own properties are all strings, together with a decoder for that
  text. The decoder exists to prove that the encoding loses nothing: distinct tag
  sequences give distinct texts.

  A tag object is represented by its properties in the order `JSON.stringify`
  enumerates them. JSON text depends on that order, so `{a, b}` and `{b, a}` are
  different texts.
*/
module TagJson {
  import opened Wrappers

  /** One property of a tag object: (key, value). */
  type Tag = (string, string)

  /** A tag object, as its properties in enumeration order. */
  type Tags = seq<Tag>

  /** The value of a string of decimal digits. */
  function DigitsValue(k: string): nat
    requires forall i :: 0 <= i < |k| ==> '0' <= k[i] <= '9'
  {
    if |k| == 0 then 0 else DigitsValue(k[..|k| - 1]) * 10 + (k[|k| - 1] as int - '0' as int)
  }

  /**
    A key JavaScript treats as an array index: the canonical decimal form of an
    integer below 2^32 - 1. Such keys are enumerated first, in ascending order,
    whatever order the object was built in; all other keys keep insertion order.
  */
  predicate IsArrayIndex(k: string)
  {
    && 0 < |k|
    && (forall i :: 0 <= i < |k| ==> '0' <= k[i] <= '9')
    && (k[0] != '0' || |k| == 1)
    && DigitsValue(k) < 0xFFFF_FFFF
  }

  /** The lower-case hexadecimal digit for `d`. */
  function HexDigit(d: nat): (c: char)
    requires d < 16
    ensures HexValue(c) == Some(d)
  {
    if d < 10 then ('0' as int + d) as char else ('a' as int + d - 10) as char
  }

  /** The value of a hexadecimal digit of either case. */
  function HexValue(c: char): (r: Option<nat>)
    ensures r.Some? ==> r.value < 16
  {
    if '0' <= c <= '9' then Some(c as int - '0' as int)
    else if 'a' <= c <= 'f' then Some(c as int - 'a' as int + 10)
    else if 'A' <= c <= 'F' then Some(c as int - 'A' as int + 10)
    else None
  }

  /**
    How one character appears inside a JSON string literal written by
    `JSON.stringify` (the QuoteJSONString operation of ECMA-262): the two-letter
    escapes for quote, backslash, backspace, form feed, newline, carriage return
    and tab, `\u00xx` with lower-case hex for the other control characters, and
    the character itself otherwise.
  */
  function EscapeChar(c: char): (e: string)
    ensures 0 < |e|
  {
    if c == '"' then "\\\""
    else if c == '\\' then "\\\\"
    else if c as int == 0x08 then "\\b"
    else if c as int == 0x0C then "\\f"
    else if c == '\n' then "\\n"
    else if c == '\r' then "\\r"
    else if c == '\t' then "\\t"
    else if c as int < 0x20 then ['\\', 'u', '0', '0', HexDigit(c as int / 16), HexDigit(c as int % 16)]
    else [c]
  }

  /** The body of a JSON string literal for `s`, without the surrounding quotes. */
  function Escape(s: string): string
  {
    if |s| == 0 then "" else EscapeChar(s[0]) + Escape(s[1..])
  }

  /** The JSON string literal for `s`. */
  function Quoted(s: string): string
  {
    "\"" + Escape(s) + "\""
  }

  /** One `"key":"value"` member of the object text. */
  function Member(t: Tag): (m: string)
    ensures |m| >= 5 && m[0] == '"'
  {
    Quoted(t.0) + ":" + Quoted(t.1)
  }

  /** The members of a non-empty object, comma-separated, and its closing brace. */
  function MembersText(ts: Tags): string
    requires |ts| > 0
    decreases |ts|
  {
    Member(ts[0]) + (if |ts| == 1 then "}" else "," + MembersText(ts[1..]))
  }

  /** `JSON.stringify(tags)`: no whitespace, members in enumeration order. */
  function Stringify(ts: Tags): string
  {
    if |ts| == 0 then "{}" else "{" + MembersText(ts)
  }

  // ---------------------------------------------------------------------------
  // Decoding

  /** Decodes the escape sequence that follows a backslash; returns the character and what follows. */
  function Unescape(s: string): (r: Option<(char, string)>)
    ensures r.Some? ==> |r.value.1| < |s|
  {
    if |s| == 0 then None
    else if s[0] == '"' then Some(('"', s[1..]))
    else if s[0] == '\\' then Some(('\\', s[1..]))
    else if s[0] == '/' then Some(('/', s[1..]))
    else if s[0] == 'b' then Some((8 as char, s[1..]))
    else if s[0] == 'f' then Some((12 as char, s[1..]))
    else if s[0] == 'n' then Some(('\n', s[1..]))
    else if s[0] == 'r' then Some(('\r', s[1..]))
    else if s[0] == 't' then Some(('\t', s[1..]))
    else if s[0] == 'u' && |s| >= 5 then
      match (HexValue(s[1]), HexValue(s[2]), HexValue(s[3]), HexValue(s[4]))
      case (Some(a), Some(b), Some(c), Some(d)) =>
        var n := ((a * 16 + b) * 16 + c) * 16 + d;
        if n < 0xD800 || 0xE000 <= n then Some((n as char, s[5..])) else None
      case _ => None
    else None
  }

  /** Reads the body of a string literal up to its closing quote; returns the decoded text and what follows the quote. */
  function ReadChars(s: string): (r: Option<(string, string)>)
    ensures r.Some? ==> |r.value.1| < |s|
    decreases |s|
  {
    if |s| == 0 then None
    else if s[0] == '"' then Some(("", s[1..]))
    else if s[0] == '\\' then
      match Unescape(s[1..])
      case None => None
      case Some((c, rest)) =>
        match ReadChars(rest)
        case None => None
        case Some((x, after)) => Some(([c] + x, after))
    else
      match ReadChars(s[1..])
      case None => None
      case Some((x, after)) => Some(([s[0]] + x, after))
  }

  /** Reads one string literal. */
  function ReadString(s: string): (r: Option<(string, string)>)
    ensures r.Some? ==> |r.value.1| < |s|
  {
    if |s| > 0 && s[0] == '"' then ReadChars(s[1..]) else None
  }

  /** Reads one `"key":"value"` member. */
  function ReadMember(s: string): (r: Option<(Tag, string)>)
    ensures r.Some? ==> |r.value.1| < |s|
  {
    match ReadString(s)
    case None => None
    case Some((k, r1)) =>
      if |r1| > 0 && r1[0] == ':' then
        match ReadString(r1[1..])
        case None => None
        case Some((v, r2)) => Some(((k, v), r2))
      else None
  }

  /** Reads the members of a non-empty object, through its closing brace, which must end the text. */
  function ParseMembers(s: string): Option<Tags>
    decreases |s|
  {
    match ReadMember(s)
    case None => None
    case Some((t, r)) =>
      if r == "}" then Some([t])
      else if |r| > 0 && r[0] == ',' then
        match ParseMembers(r[1..])
        case None => None
        case Some(ts) => Some([t] + ts)
      else None
  }

  /** Parses the JSON text of an object whose property values are all strings. */
  function ParseObject(s: string): Option<Tags>
  {
    if s == "{}" then Some([])
    else if |s| > 0 && s[0] == '{' then ParseMembers(s[1..])
    else None
  }

  // ---------------------------------------------------------------------------
  // Round trip

  /** Reading the escape of `c` yields `c`, whatever follows it. */
  lemma ReadEscapedChar(c: char, rest: string)
    ensures ReadChars(EscapeChar(c) + rest) ==
      match ReadChars(rest)
      case None => None
      case Some((x, after)) => Some(([c] + x, after))
  {
    var s := EscapeChar(c) + rest;
    if c == '"' || c == '\\' || c as int == 0x08 || c as int == 0x0C || c == '\n' || c == '\r' || c == '\t' {
      assert s[1..] == [EscapeChar(c)[1]] + rest;
      assert Unescape(s[1..]) == Some((c, rest));
    } else if c as int < 0x20 {
      var hi, lo := c as int / 16, c as int % 16;
      assert s[1..] == ['u', '0', '0', HexDigit(hi), HexDigit(lo)] + rest;
      assert HexValue(HexDigit(hi)) == Some(hi) && HexValue(HexDigit(lo)) == Some(lo);
      assert ((0 * 16 + 0) * 16 + hi) * 16 + lo == c as int;
      assert Unescape(s[1..]) == Some((c, rest));
    } else {
      assert s[1..] == rest;
    }
  }

  /** The body of a string literal reads back as the original text, up to the closing quote. */
  lemma {:induction false} ReadEscaped(x: string, rest: string)
    ensures ReadChars(Escape(x) + "\"" + rest) == Some((x, rest))
    decreases |x|
  {
    if |x| == 0 {
      assert Escape(x) + "\"" + rest == "\"" + rest;
    } else {
      var tail := Escape(x[1..]) + "\"" + rest;
      assert Escape(x) + "\"" + rest == EscapeChar(x[0]) + tail;
      ReadEscapedChar(x[0], tail);
      ReadEscaped(x[1..], rest);
      assert [x[0]] + x[1..] == x;
    }
  }

  /** A string literal reads back as its text. */
  lemma ReadQuoted(x: string, rest: string)
    ensures ReadString(Quoted(x) + rest) == Some((x, rest))
  {
    var s := Quoted(x) + rest;
    assert s[1..] == Escape(x) + "\"" + rest;
    ReadEscaped(x, rest);
  }

  /** A member reads back as its tag. */
  lemma ReadMemberOf(t: Tag, rest: string)
    ensures ReadMember(Member(t) + rest) == Some((t, rest))
  {
    var r1 := ":" + Quoted(t.1) + rest;
    assert Member(t) + rest == Quoted(t.0) + r1;
    ReadQuoted(t.0, r1);
    assert r1[1..] == Quoted(t.1) + rest;
    ReadQuoted(t.1, rest);
  }

  /** After one member has been read, parsing continues on what follows it. */
  lemma ParseMembersStep(t: Tag, r: string)
    ensures ParseMembers(Member(t) + r) ==
      if r == "}" then Some([t])
      else if |r| > 0 && r[0] == ',' then
        match ParseMembers(r[1..])
        case None => None
        case Some(ts) => Some([t] + ts)
      else None
  {
    ReadMemberOf(t, r);
  }

  /** The member list of a non-empty object parses back to its tags. */
  lemma {:induction false} ParseMembersText(ts: Tags)
    requires |ts| > 0
    ensures ParseMembers(MembersText(ts)) == Some(ts)
    decreases |ts|
  {
    var rest := if |ts| == 1 then "}" else "," + MembersText(ts[1..]);
    assert MembersText(ts) == Member(ts[0]) + rest;
    ParseMembersStep(ts[0], rest);
    if |ts| == 1 {
      assert [ts[0]] == ts;
    } else {
      assert rest[0] == ',' && rest != "}";
      assert rest[1..] == MembersText(ts[1..]);
      ParseMembersText(ts[1..]);
      assert [ts[0]] + ts[1..] == ts;
    }
  }

  /** An object text that is not `{}` is parsed as its member list. */
  lemma ParseOpenBrace(body: string)
    requires body != "}"
    ensures ParseObject("{" + body) == ParseMembers(body)
  {
    var s := "{" + body;
    assert s[1..] == body;
    assert "{}"[1..] == "}";
  }

  /** Decoding `JSON.stringify(tags)` gives the tags back. */
  lemma StringifyRoundTrip(ts: Tags)
    ensures ParseObject(Stringify(ts)) == Some(ts)
  {
    if |ts| > 0 {
      var body := MembersText(ts);
      assert body[0] == '"';
      ParseOpenBrace(body);
      ParseMembersText(ts);
    }
  }

  /** Two tag sequences have the same JSON text exactly when they are equal, order included. */
  lemma StringifyInjective(a: Tags, b: Tags)
    ensures Stringify(a) == Stringify(b) <==> a == b
  {
    StringifyRoundTrip(a);
    StringifyRoundTrip(b);
  }
}
