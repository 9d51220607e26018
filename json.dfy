/**
 * Python's `json.dumps(value, indent=2)` for the values a `package.json` manifest is made of:
 * strings, lists and dicts. With `ensure_ascii` (the default) every character outside printable
 * ASCII, and every quote and backslash, is written as an escape, so the text is plain ASCII;
 * `json.loads`'s string decoding undoes the escapes.
 */
module Json {
  import opened Outcomes
  import opened Text

  /** A Python value `json.dumps` is given; a dict keeps its insertion order. */
  datatype Value = Str(text: string) | List(items: seq<Value>) | Dict(members: seq<Member>)
  datatype Member = Member(key: string, value: Value)

  /** The characters `json.dumps` writes unescaped inside a string, and the newline it uses
      between the lines of an indented value. */
  predicate IsPlain(c: char) { ' ' <= c <= '~' }
  predicate IsAsciiText(s: string) { forall i :: 0 <= i < |s| ==> IsPlain(s[i]) || s[i] == '\n' }

  // ----- Strings -----------------------------------------------------------------------------

  function HexDigit(d: nat): (c: char)
    requires d < 16
    ensures IsPlain(c)
  {
    if d < 10 then ('0' as int + d) as char else ('a' as int + d - 10) as char
  }

  /** `'{0:04x}'.format(n)` */
  function Hex4(n: nat): (h: string)
    requires n < 0x1_0000
    ensures |h| == 4 && IsAsciiText(h)
  {
    var m1 := n / 16;
    var m2 := m1 / 16;
    [HexDigit(m2 / 16), HexDigit(m2 % 16), HexDigit(m1 % 16), HexDigit(n % 16)]
  }

  /** How `json.dumps` writes one character of a string: the short escapes, printable ASCII as
      itself, anything else as `\uXXXX`, with a surrogate pair above the Basic Multilingual Plane. */
  function EscapeChar(c: char): (e: string)
    ensures |e| > 0 && IsAsciiText(e)
  {
    if c == '"' then "\\\""
    else if c == '\\' then "\\\\"
    else if c == '\n' then "\\n"
    else if c == '\r' then "\\r"
    else if c == '\t' then "\\t"
    else if c == '\U{8}' then "\\b"
    else if c == '\U{c}' then "\\f"
    else if IsPlain(c) then [c]
    else if c as int < 0x1_0000 then "\\u" + Hex4(c as int)
    else
      var n := c as int - 0x1_0000;
      "\\u" + Hex4(0xd800 + n / 0x400) + "\\u" + Hex4(0xdc00 + n % 0x400)
  }

  /** The escaped characters of `s`, without the surrounding quotes. */
  function Escape(s: string): (e: string)
    ensures IsAsciiText(e)
  {
    if s == [] then "" else EscapeChar(s[0]) + Escape(s[1..])
  }

  /** A string as `json.dumps` writes it. */
  function Quote(s: string): (q: string)
    ensures |q| >= 2 && q[0] == '"' && q[|q| - 1] == '"' && IsAsciiText(q)
  {
    "\"" + Escape(s) + "\""
  }

  // ----- Indented values -----------------------------------------------------------------------

  function Indent(level: nat): (s: string)
    ensures |s| == 2 * level && IsAsciiText(s)
  {
    seq(2 * level, _ => ' ')
  }

  /** `json.dumps(v, indent=2)` for a value nested `level` deep: an empty list or dict on one
      line; otherwise one entry per line, indented one level deeper, separated by ',', with
      ': ' after a key, and the closing bracket back at the value's own level. */
  function Render(v: Value, level: nat): string
  {
    match v
    case Str(t) => Quote(t)
    case List(items) =>
      if items == [] then "[]"
      else "[\n" + Indent(level + 1) + RenderItems(items, level + 1) + "\n" + Indent(level) + "]"
    case Dict(members) =>
      if members == [] then "{}"
      else "{\n" + Indent(level + 1) + RenderMembers(members, level + 1) + "\n" + Indent(level) + "}"
  }

  function RenderItems(items: seq<Value>, level: nat): string
  {
    if items == [] then ""
    else if |items| == 1 then Render(items[0], level)
    else Render(items[0], level) + ",\n" + Indent(level) + RenderItems(items[1..], level)
  }

  function RenderMembers(members: seq<Member>, level: nat): string
  {
    if members == [] then ""
    else
      var m := Quote(members[0].key) + ": " + Render(members[0].value, level);
      if |members| == 1 then m
      else m + ",\n" + Indent(level) + RenderMembers(members[1..], level)
  }

  /** `json.dumps(v, indent=2)` */
  function Dumps(v: Value): string
  {
    Render(v, 0)
  }

  lemma AsciiConcat(a: string, b: string)
    requires IsAsciiText(a) && IsAsciiText(b)
    ensures IsAsciiText(a + b)
  {
    assert forall i :: |a| <= i < |a + b| ==> (a + b)[i] == b[i - |a|];
  }

  /** With `ensure_ascii`, the whole document is printable ASCII lines. */
  lemma {:induction false} RenderIsAscii(v: Value, level: nat)
    ensures IsAsciiText(Render(v, level))
    decreases v, 1
  {
    match v
    case Str(t) =>
    case List(items) =>
      if items != [] {
        RenderItemsAscii(items, level + 1);
        AsciiConcat("[\n", Indent(level + 1));
        AsciiConcat("[\n" + Indent(level + 1), RenderItems(items, level + 1));
        AsciiConcat("[\n" + Indent(level + 1) + RenderItems(items, level + 1), "\n");
        AsciiConcat("[\n" + Indent(level + 1) + RenderItems(items, level + 1) + "\n", Indent(level));
        AsciiConcat("[\n" + Indent(level + 1) + RenderItems(items, level + 1) + "\n" + Indent(level), "]");
      }
    case Dict(members) =>
      if members != [] {
        RenderMembersAscii(members, level + 1);
        AsciiConcat("{\n", Indent(level + 1));
        AsciiConcat("{\n" + Indent(level + 1), RenderMembers(members, level + 1));
        AsciiConcat("{\n" + Indent(level + 1) + RenderMembers(members, level + 1), "\n");
        AsciiConcat("{\n" + Indent(level + 1) + RenderMembers(members, level + 1) + "\n", Indent(level));
        AsciiConcat("{\n" + Indent(level + 1) + RenderMembers(members, level + 1) + "\n" + Indent(level), "}");
      }
  }

  lemma {:induction false} RenderItemsAscii(items: seq<Value>, level: nat)
    ensures IsAsciiText(RenderItems(items, level))
    decreases items, 0
  {
    if items != [] {
      RenderIsAscii(items[0], level);
      if |items| > 1 {
        RenderItemsAscii(items[1..], level);
        var head := Render(items[0], level);
        AsciiConcat(head, ",\n");
        AsciiConcat(head + ",\n", Indent(level));
        AsciiConcat(head + ",\n" + Indent(level), RenderItems(items[1..], level));
      }
    }
  }

  lemma {:induction false} RenderMembersAscii(members: seq<Member>, level: nat)
    ensures IsAsciiText(RenderMembers(members, level))
    decreases members, 0
  {
    if members != [] {
      RenderIsAscii(members[0].value, level);
      var key := Quote(members[0].key);
      AsciiConcat(key, ": ");
      AsciiConcat(key + ": ", Render(members[0].value, level));
      var m := key + ": " + Render(members[0].value, level);
      if |members| > 1 {
        RenderMembersAscii(members[1..], level);
        AsciiConcat(m, ",\n");
        AsciiConcat(m + ",\n", Indent(level));
        AsciiConcat(m + ",\n" + Indent(level), RenderMembers(members[1..], level));
      }
    }
  }

  // ----- Decoding the escapes --------------------------------------------------------------------

  /** The value of a hexadecimal digit, either case, as `int(esc, 16)` reads it. */
  function HexValue(c: char): Option<nat>
  {
    if '0' <= c <= '9' then Some(c as int - '0' as int)
    else if 'a' <= c <= 'f' then Some(c as int - 'a' as int + 10)
    else if 'A' <= c <= 'F' then Some(c as int - 'A' as int + 10)
    else None
  }

  /** The number four hexadecimal digits spell. */
  function Hex4Value(h: string): (r: Option<nat>)
    requires |h| == 4
    ensures r.Some? ==> r.value < 0x1_0000
  {
    match (HexValue(h[0]), HexValue(h[1]), HexValue(h[2]), HexValue(h[3]))
    case (Some(a), Some(b), Some(c), Some(d)) =>
      if a < 16 && b < 16 && c < 16 && d < 16 then Some(((a * 16 + b) * 16 + c) * 16 + d) else None
    case _ => None
  }

  lemma HexDigitValue(d: nat)
    requires d < 16
    ensures HexValue(HexDigit(d)) == Some(d)
  {
  }

  lemma Hex4RoundTrip(n: nat)
    requires n < 0x1_0000
    ensures Hex4Value(Hex4(n)) == Some(n)
  {
    var m1 := n / 16;
    var m2 := m1 / 16;
    HexDigitValue(m2 / 16);
    HexDigitValue(m2 % 16);
    HexDigitValue(m1 % 16);
    HexDigitValue(n % 16);
  }

  predicate IsHighSurrogate(n: nat) { 0xd800 <= n <= 0xdbff }
  predicate IsLowSurrogate(n: nat) { 0xdc00 <= n <= 0xdfff }

  /** The character a `\u` escape at the start of `s` stands for (`s` begins after the `u`), and
      how many characters of `s` it takes: a high surrogate must be followed by `\u` and a low
      surrogate. A lone surrogate is refused, since it is no character. */
  function UnicodeEscape(s: string): (r: Option<(char, nat)>)
    ensures r.Some? ==> 4 <= r.value.1 <= |s|
  {
    if |s| < 4 then None
    else match Hex4Value(s[..4])
      case None => None
      case Some(hi) =>
        if IsLowSurrogate(hi) then None
        else if !IsHighSurrogate(hi) then Some((hi as char, 4))
        else if |s| < 10 || s[4..6] != "\\u" then None
        else match Hex4Value(s[6..10])
          case None => None
          case Some(lo) =>
            if IsLowSurrogate(lo) then Some(((0x1_0000 + (hi - 0xd800) * 0x400 + (lo - 0xdc00)) as char, 10))
            else None
  }

  /** The inverse of `Escape`: the text between the quotes with its escapes undone. Unlike the
      string decoding of `json.loads` it refuses a lone surrogate escape and accepts raw control
      characters; it is only applied to what `Escape` writes. */
  function Unescape(s: string): Option<string>
    decreases |s|
  {
    if s == [] then Some("")
    else if s[0] != '\\' then
      match Unescape(s[1..])
      case None => None
      case Some(rest) => Some([s[0]] + rest)
    else if |s| < 2 then None
    else
      var simple :=
        if s[1] == '"' then Some('"') else if s[1] == '\\' then Some('\\')
        else if s[1] == '/' then Some('/') else if s[1] == 'b' then Some('\U{8}')
        else if s[1] == 'f' then Some('\U{c}') else if s[1] == 'n' then Some('\n')
        else if s[1] == 'r' then Some('\r') else if s[1] == 't' then Some('\t')
        else None;
      if simple.Some? then
        match Unescape(s[2..])
        case None => None
        case Some(rest) => Some([simple.value] + rest)
      else if s[1] != 'u' then None
      else match UnicodeEscape(s[2..])
        case None => None
        case Some((c, n)) =>
          match Unescape(s[2 + n..])
          case None => None
          case Some(rest) => Some([c] + rest)
  }

  /** What decoding gives when one character `c` is decoded in front of `rest`. */
  function Prepend(c: char, rest: Option<string>): Option<string>
  {
    match rest
    case None => None
    case Some(r) => Some([c] + r)
  }

  lemma UnescapeShortEscape(c: char, rest: string)
    requires c in {'"', '\\', '\n', '\r', '\t', '\U{8}', '\U{c}'}
    ensures Unescape(EscapeChar(c) + rest) == Prepend(c, Unescape(rest))
  {
    var s := EscapeChar(c) + rest;
    assert |EscapeChar(c)| == 2 && s[0] == '\\';
    assert s[2..] == rest;
  }

  lemma UnescapeBmpEscape(c: char, rest: string)
    requires !IsPlain(c) && c !in {'\n', '\r', '\t', '\U{8}', '\U{c}'} && c as int < 0x1_0000
    ensures Unescape(EscapeChar(c) + rest) == Prepend(c, Unescape(rest))
  {
    var h := Hex4(c as int);
    var s := EscapeChar(c) + rest;
    assert s == "\\u" + h + rest;
    var t := s[2..];
    assert t == h + rest;
    assert t[..4] == h && t[4..] == rest;
    Hex4RoundTrip(c as int);
    assert UnicodeEscape(t) == Some((c, 4));
  }

  /** The surrogate pair of a character above the Basic Multilingual Plane combines back to it. */
  lemma SurrogatesCombine(c: char)
    requires c as int >= 0x1_0000
    ensures var n := c as int - 0x1_0000;
      var hi := 0xd800 + n / 0x400;
      var lo := 0xdc00 + n % 0x400;
      IsHighSurrogate(hi) && IsLowSurrogate(lo)
      && 0x1_0000 + (hi - 0xd800) * 0x400 + (lo - 0xdc00) == c as int
  {
  }

  lemma UnescapeSurrogatePair(c: char, rest: string)
    requires c as int >= 0x1_0000
    ensures Unescape(EscapeChar(c) + rest) == Prepend(c, Unescape(rest))
  {
    var n := c as int - 0x1_0000;
    var hv := 0xd800 + n / 0x400;
    var lv := 0xdc00 + n % 0x400;
    SurrogatesCombine(c);
    var hi := Hex4(hv);
    var lo := Hex4(lv);
    PairEscape(c);
    var s := EscapeChar(c) + rest;
    assert s == "\\u" + hi + "\\u" + lo + rest;
    PairLayout(hi, lo, rest);
    PairDecodes(hv, lv, c, s[2..]);
    UnicodeStep(s, c, 10);
  }

  /** A `\u` escape that decodes to `c` over `k` characters is followed by the rest decoded. */
  lemma UnicodeStep(s: string, c: char, k: nat)
    requires |s| >= 2 + k && s[0] == '\\' && s[1] == 'u'
    requires UnicodeEscape(s[2..]) == Some((c, k))
    ensures Unescape(s) == Prepend(c, Unescape(s[2 + k..]))
  {
  }

  /** A character above the Basic Multilingual Plane is written as its surrogate pair. */
  lemma PairEscape(c: char)
    requires c as int >= 0x1_0000
    ensures var n := c as int - 0x1_0000;
      EscapeChar(c) == "\\u" + Hex4(0xd800 + n / 0x400) + "\\u" + Hex4(0xdc00 + n % 0x400)
  {
  }

  /** Four hex digits of a high surrogate, `\u`, and four of a low one decode to their character. */
  lemma PairDecodes(hv: nat, lv: nat, c: char, t: string)
    requires IsHighSurrogate(hv) && IsLowSurrogate(lv)
    requires 0x1_0000 + (hv - 0xd800) * 0x400 + (lv - 0xdc00) == c as int
    requires |t| >= 10 && t[..4] == Hex4(hv) && t[4..6] == "\\u" && t[6..10] == Hex4(lv)
    ensures UnicodeEscape(t) == Some((c, 10))
  {
    Hex4RoundTrip(hv);
    Hex4RoundTrip(lv);
  }

  /** Where the parts of an escaped surrogate pair sit. */
  lemma PairLayout(hi: string, lo: string, rest: string)
    requires |hi| == 4 && |lo| == 4
    ensures var s := "\\u" + hi + "\\u" + lo + rest;
      && s[0] == '\\' && s[1] == 'u'
      && s[2..][..4] == hi && s[2..][4..6] == "\\u" && s[2..][6..10] == lo && s[2..][10..] == rest
      && s[12..] == rest
  {
  }

  /** Decoding one escaped character in front of any text gives that character in front of the
      decoded text. */
  lemma UnescapeChar(c: char, rest: string)
    ensures Unescape(EscapeChar(c) + rest) == Prepend(c, Unescape(rest))
  {
    if c in {'"', '\\', '\n', '\r', '\t', '\U{8}', '\U{c}'} {
      UnescapeShortEscape(c, rest);
    } else if IsPlain(c) {
      var s := EscapeChar(c) + rest;
      assert s[0] == c && s[1..] == rest;
    } else if c as int < 0x1_0000 {
      UnescapeBmpEscape(c, rest);
    } else {
      UnescapeSurrogatePair(c, rest);
    }
  }

  /** `json.loads` gives back every string `json.dumps` escaped. */
  lemma {:induction false} UnescapeEscape(s: string)
    ensures Unescape(Escape(s)) == Some(s)
  {
    if s != [] {
      UnescapeEscape(s[1..]);
      UnescapeChar(s[0], Escape(s[1..]));
      assert [s[0]] + s[1..] == s;
    }
  }
}
