/** JSON values with `JSON.stringify` and `JSON.parse` written out, so that the session
    store can persist a user record as text and read it back.  Numbers are not part of
    the value type (they are floating point in JavaScript, and no persisted or sent value
    of the model holds one).  The round trip `Parse(Stringify(v)) == Some(v)` is proved
    below.  `Parse` refuses every text outside that grammar; for the texts the model
    parses, that means a `SyntaxError`, but numeric JSON (which `JSON.parse` accepts)
    is refused as well, and a caller then treats it as corrupt. */
module Json {
  import opened Wrappers
  import opened Text

  datatype Json =
    | JNull
    | JBool(b: bool)
    | JString(str: string)
    | JArray(items: seq<Json>)
    | JObject(members: seq<Member>)

  /** One `"key": value` pair; members keep the order in which they were written. */
  datatype Member = Member(key: string, value: Json)

  /** Property access `obj[key]` on a parsed object: the last member with that key wins,
      as in an object built by `JSON.parse`. */
  function Get(members: seq<Member>, key: string): (r: Option<Json>)
    ensures r.Some? <==> exists i :: 0 <= i < |members| && members[i].key == key
    ensures r.Some? ==> exists i :: 0 <= i < |members| && members[i].key == key && r.value == members[i].value
                                    && forall j :: i < j < |members| ==> members[j].key != key
  {
    if |members| == 0 then None
    else if members[|members| - 1].key == key then Some(members[|members| - 1].value)
    else Get(members[..|members| - 1], key)
  }

  /** JavaScript truthiness of a value, as `if (v)` and `v ? … : …` test it: `null`,
      `false` and the empty string are falsy; arrays and objects, even empty ones, are
      truthy. */
  predicate IsTruthy(v: Json) {
    match v
    case JNull => false
    case JBool(b) => b
    case JString(s) => s != ""
    case JArray(_) => true
    case JObject(_) => true
  }

  // ---------------------------------------------------------------------------
  // JSON.stringify
  // ---------------------------------------------------------------------------

  function HexChar(d: nat): (c: char)
    requires d < 16
  {
    "0123456789abcdef"[d]
  }

  /** How `JSON.stringify` writes one character inside a string literal: the quote and
      the backslash escaped, five control characters by name, the other control
      characters as `\u00xx` in lower-case hexadecimal, everything else as itself. */
  function EscapeChar(c: char): string {
    if c == '"' then "\\\""
    else if c == '\\' then "\\\\"
    else if c == 8 as char then "\\b"
    else if c == 12 as char then "\\f"
    else if c == '\n' then "\\n"
    else if c == '\r' then "\\r"
    else if c == '\t' then "\\t"
    else if (c as int) < 0x20 then "\\u00" + [HexChar(c as int / 16), HexChar(c as int % 16)]
    else [c]
  }

  function Escape(s: string): string {
    if |s| == 0 then "" else EscapeChar(s[0]) + Escape(s[1..])
  }

  function Quote(s: string): string {
    "\"" + Escape(s) + "\""
  }

  /** `JSON.stringify(v)` (no indentation). */
  function Stringify(v: Json): string
    decreases v, 1
  {
    match v
    case JNull => "null"
    case JBool(b) => if b then "true" else "false"
    case JString(s) => Quote(s)
    case JArray(items) => "[" + StringifyItems(items) + "]"
    case JObject(members) => "{" + StringifyMembers(members) + "}"
  }

  function StringifyItems(xs: seq<Json>): string
    decreases xs, 0
  {
    if |xs| == 0 then "" else Stringify(xs[0]) + MoreItems(xs[1..])
  }

  function MoreItems(xs: seq<Json>): string
    decreases xs, 0
  {
    if |xs| == 0 then "" else "," + Stringify(xs[0]) + MoreItems(xs[1..])
  }

  function StringifyMembers(ms: seq<Member>): string
    decreases ms, 0
  {
    if |ms| == 0 then "" else StringifyMember(ms[0]) + MoreMembers(ms[1..])
  }

  function MoreMembers(ms: seq<Member>): string
    decreases ms, 0
  {
    if |ms| == 0 then "" else "," + StringifyMember(ms[0]) + MoreMembers(ms[1..])
  }

  function StringifyMember(m: Member): string
    decreases m, 2
  {
    Quote(m.key) + ":" + Stringify(m.value)
  }

  // ---------------------------------------------------------------------------
  // JSON.parse
  // ---------------------------------------------------------------------------

  /** The four characters JSON allows between tokens. */
  predicate IsWs(c: char) {
    c == ' ' || c == '\t' || c == '\n' || c == '\r'
  }

  function SkipWs(s: string): (r: string)
    ensures |r| <= |s|
    ensures |r| > 0 ==> !IsWs(r[0])
  {
    if |s| > 0 && IsWs(s[0]) then SkipWs(s[1..]) else s
  }

  function HexValue(c: char): Option<nat> {
    if '0' <= c <= '9' then Some(c as int - '0' as int)
    else if 'a' <= c <= 'f' then Some(c as int - 'a' as int + 10)
    else if 'A' <= c <= 'F' then Some(c as int - 'A' as int + 10)
    else None
  }

  /** The character a `\uXXXX` escape denotes.  A JavaScript string is a sequence of
      UTF-16 code units; a model character is a Unicode scalar value, so an escape
      naming a surrogate code unit is rejected here. */
  function UnicodeEscape(h: string): Option<char>
    requires |h| == 4
  {
    match (HexValue(h[0]), HexValue(h[1]), HexValue(h[2]), HexValue(h[3]))
    case (Some(a), Some(b), Some(c), Some(d)) =>
      if a < 16 && b < 16 && c < 16 && d < 16 then
        var code := ((a * 16 + b) * 16 + c) * 16 + d;
        if 0xD800 <= code <= 0xDFFF then None else Some(code as char)
      else None
    case _ => None
  }

  /** The character a two-character escape `\e` denotes, for the named escapes. */
  function NamedEscape(e: char): Option<char> {
    if e == '"' then Some('"')
    else if e == '\\' then Some('\\')
    else if e == '/' then Some('/')
    else if e == 'b' then Some(8 as char)
    else if e == 'f' then Some(12 as char)
    else if e == 'n' then Some('\n')
    else if e == 'r' then Some('\r')
    else if e == 't' then Some('\t')
    else None
  }

  function Prepend(c: char, r: Option<(string, string)>): Option<(string, string)> {
    match r
    case Some((str, rest)) => Some(([c] + str, rest))
    case None => None
  }

  /** The characters of a string literal after its opening quote, and what follows
      the closing quote.  Unescaped control characters are a syntax error. */
  function ParseStringBody(s: string): (r: Option<(string, string)>)
    ensures r.Some? ==> |r.value.1| < |s|
  {
    if |s| == 0 then None
    else if s[0] == '"' then Some(("", s[1..]))
    else if s[0] == '\\' then
      if |s| < 2 then None
      else if s[1] == 'u' then
        if |s| < 6 then None
        else match UnicodeEscape(s[2..6])
          case Some(c) => Prepend(c, ParseStringBody(s[6..]))
          case None => None
      else match NamedEscape(s[1])
        case Some(c) => Prepend(c, ParseStringBody(s[2..]))
        case None => None
    else if (s[0] as int) < 0x20 then None
    else Prepend(s[0], ParseStringBody(s[1..]))
  }

  /** One JSON value at the start of `s` (after optional white space), and the text
      after it. */
  function ParseValue(s: string): (r: Option<(Json, string)>)
    decreases |s|, 1
    ensures r.Some? ==> |r.value.1| < |s|
  {
    ParseToken(SkipWs(s))
  }

  /** One JSON value starting at the first character of `t`, chosen by that character. */
  function ParseToken(t: string): (r: Option<(Json, string)>)
    decreases |t|, 0
    ensures r.Some? ==> |r.value.1| < |t|
  {
    if |t| == 0 then None
    else if t[0] == 'n' then
      if StartsWith(t, "null") then Some((JNull, t[4..])) else None
    else if t[0] == 't' then
      if StartsWith(t, "true") then Some((JBool(true), t[4..])) else None
    else if t[0] == 'f' then
      if StartsWith(t, "false") then Some((JBool(false), t[5..])) else None
    else if t[0] == '"' then
      match ParseStringBody(t[1..])
      case Some((str, rest)) => Some((JString(str), rest))
      case None => None
    else if t[0] == '[' then
      match ParseArrayRest(t[1..])
      case Some((items, rest)) => Some((JArray(items), rest))
      case None => None
    else if t[0] == '{' then
      match ParseObjectRest(t[1..])
      case Some((members, rest)) => Some((JObject(members), rest))
      case None => None
    else None
  }

  /** The elements of an array after its `[`, up to and including the closing `]`. */
  function ParseArrayRest(s: string): (r: Option<(seq<Json>, string)>)
    decreases |s|, 3
    ensures r.Some? ==> |r.value.1| < |s|
  {
    var t := SkipWs(s);
    if |t| > 0 && t[0] == ']' then Some(([], t[1..])) else ParseElements(t)
  }

  function ParseElements(s: string): (r: Option<(seq<Json>, string)>)
    decreases |s|, 2
    ensures r.Some? ==> |r.value.1| < |s|
  {
    match ParseValue(s)
    case None => None
    case Some((v, rest)) =>
      match ParseMoreItems(rest)
      case None => None
      case Some((vs, rest')) => Some(([v] + vs, rest'))
  }

  function ParseMoreItems(s: string): (r: Option<(seq<Json>, string)>)
    decreases |s|, 3
    ensures r.Some? ==> |r.value.1| < |s|
  {
    var t := SkipWs(s);
    if |t| == 0 then None
    else if t[0] == ']' then Some(([], t[1..]))
    else if t[0] == ',' then ParseElements(t[1..])
    else None
  }

  /** The members of an object after its `{`, up to and including the closing `}`. */
  function ParseObjectRest(s: string): (r: Option<(seq<Member>, string)>)
    decreases |s|, 4
    ensures r.Some? ==> |r.value.1| < |s|
  {
    var t := SkipWs(s);
    if |t| > 0 && t[0] == '}' then Some(([], t[1..])) else ParseMembers(t)
  }

  /** One `"key": value` member. */
  function ParseMember(s: string): (r: Option<(Member, string)>)
    decreases |s|, 2
    ensures r.Some? ==> |r.value.1| < |s|
  {
    var t := SkipWs(s);
    if |t| == 0 || t[0] != '"' then None
    else match ParseStringBody(t[1..])
      case None => None
      case Some((key, rest)) =>
        var u := SkipWs(rest);
        if |u| == 0 || u[0] != ':' then None
        else match ParseValue(u[1..])
          case None => None
          case Some((v, rest')) => Some((Member(key, v), rest'))
  }

  function ParseMembers(s: string): (r: Option<(seq<Member>, string)>)
    decreases |s|, 3
    ensures r.Some? ==> |r.value.1| < |s|
  {
    match ParseMember(s)
    case None => None
    case Some((m, rest)) =>
      match ParseMoreMembers(rest)
      case None => None
      case Some((ms, rest')) => Some(([m] + ms, rest'))
  }

  function ParseMoreMembers(s: string): (r: Option<(seq<Member>, string)>)
    decreases |s|, 4
    ensures r.Some? ==> |r.value.1| < |s|
  {
    var t := SkipWs(s);
    if |t| == 0 then None
    else if t[0] == '}' then Some(([], t[1..]))
    else if t[0] == ',' then ParseMembers(t[1..])
    else None
  }

  /** `JSON.parse(s)`: one value, with nothing but white space around it; `None`
      stands for the `SyntaxError` it throws. */
  function Parse(s: string): Option<Json> {
    match ParseValue(s)
    case Some((v, rest)) => if SkipWs(rest) == "" then Some(v) else None
    case None => None
  }

  // ---------------------------------------------------------------------------
  // The round trip
  // ---------------------------------------------------------------------------

  lemma HexRoundTrip(d: nat)
    requires d < 16
    ensures HexValue(HexChar(d)) == Some(d)
  {
  }

  /** Parsing the escaped form of one character reads back that character. */
  lemma EscapeCharParse(c: char, tail: string)
    ensures ParseStringBody(EscapeChar(c) + tail) == Prepend(c, ParseStringBody(tail))
  {
    var s := EscapeChar(c) + tail;
    if c == '"' || c == '\\' || c == 8 as char || c == 12 as char || c == '\n' || c == '\r' || c == '\t' {
      assert s[0] == '\\' && s[2..] == tail;
    } else if (c as int) < 0x20 {
      var hi, lo := c as int / 16, c as int % 16;
      HexRoundTrip(hi);
      HexRoundTrip(lo);
      HexRoundTrip(0);
      assert s[0] == '\\' && s[1] == 'u';
      assert s[2..6] == ['0', '0', HexChar(hi), HexChar(lo)];
      assert s[6..] == tail;
      assert ((0 * 16 + 0) * 16 + hi) * 16 + lo == c as int;
    } else {
      assert s[0] == c && s[1..] == tail;
    }
  }

  lemma {:induction false} StringBodyRoundTrip(str: string, rest: string)
    ensures ParseStringBody(Escape(str) + "\"" + rest) == Some((str, rest))
    decreases |str|
  {
    if |str| == 0 {
      assert Escape(str) + "\"" + rest == "\"" + rest;
    } else {
      var tail := Escape(str[1..]) + "\"" + rest;
      assert Escape(str) + "\"" + rest == EscapeChar(str[0]) + tail;
      EscapeCharParse(str[0], tail);
      StringBodyRoundTrip(str[1..], rest);
      assert [str[0]] + str[1..] == str;
    }
  }

  /** A stringified value starts with a character that is not white space and cannot
      close an array or an object. */
  lemma StringifyHead(v: Json)
    ensures |Stringify(v)| > 0
    ensures !IsWs(Stringify(v)[0]) && Stringify(v)[0] != ']' && Stringify(v)[0] != '}'
  {
  }

  lemma SkipWsNoop(s: string)
    requires |s| > 0 && !IsWs(s[0])
    ensures SkipWs(s) == s
  {
  }

  /** Parsing the text `JSON.stringify` writes, followed by anything, reads back the
      same value and stops exactly where that text ends. */
  lemma {:induction false} ValueRoundTrip(v: Json, rest: string)
    ensures ParseValue(Stringify(v) + rest) == Some((v, rest))
    decreases v, 2
  {
    var s := Stringify(v) + rest;
    StringifyHead(v);
    SkipWsNoop(s);
    match v
    case JNull =>
      assert s[..4] == "null" && s[4..] == rest;
    case JBool(b) =>
      if b {
        assert s[..4] == "true" && s[4..] == rest;
      } else {
        assert s[..5] == "false" && s[5..] == rest;
      }
    case JString(str) =>
      assert s[1..] == Escape(str) + "\"" + rest;
      StringBodyRoundTrip(str, rest);
    case JArray(items) =>
      assert s[1..] == StringifyItems(items) + "]" + rest;
      ArrayRoundTrip(items, rest);
    case JObject(members) =>
      assert s[1..] == StringifyMembers(members) + "}" + rest;
      ObjectRoundTrip(members, rest);
  }

  lemma {:induction false} ArrayRoundTrip(items: seq<Json>, rest: string)
    ensures ParseArrayRest(StringifyItems(items) + "]" + rest) == Some((items, rest))
    decreases items, 1
  {
    var inner := StringifyItems(items) + "]" + rest;
    if |items| == 0 {
      assert inner == "]" + rest;
    } else {
      StringifyHead(items[0]);
      assert inner[0] == Stringify(items[0])[0];
      SkipWsNoop(inner);
      ItemsRoundTrip(items, rest);
    }
  }

  lemma {:induction false} ObjectRoundTrip(members: seq<Member>, rest: string)
    ensures ParseObjectRest(StringifyMembers(members) + "}" + rest) == Some((members, rest))
    decreases members, 1
  {
    var inner := StringifyMembers(members) + "}" + rest;
    if |members| == 0 {
      assert inner == "}" + rest;
    } else {
      assert inner == StringifyMember(members[0]) + (MoreMembers(members[1..]) + "}" + rest);
      assert inner[0] == '"';
      MembersRoundTrip(members, rest);
    }
  }

  lemma {:induction false} ItemsRoundTrip(xs: seq<Json>, rest: string)
    requires |xs| > 0
    ensures ParseElements(StringifyItems(xs) + "]" + rest) == Some((xs, rest))
    decreases xs, 0
  {
    var after := MoreItems(xs[1..]) + "]" + rest;
    assert StringifyItems(xs) + "]" + rest == Stringify(xs[0]) + after;
    ValueRoundTrip(xs[0], after);
    MoreItemsRoundTrip(xs[1..], rest);
    assert [xs[0]] + xs[1..] == xs;
  }

  lemma {:induction false} MoreItemsRoundTrip(xs: seq<Json>, rest: string)
    ensures ParseMoreItems(MoreItems(xs) + "]" + rest) == Some((xs, rest))
    decreases xs, 2
  {
    var s := MoreItems(xs) + "]" + rest;
    if |xs| == 0 {
      assert s == "]" + rest;
    } else {
      assert MoreItems(xs) == "," + StringifyItems(xs);
      assert s == "," + (StringifyItems(xs) + "]" + rest);
      assert s[1..] == StringifyItems(xs) + "]" + rest;
      ItemsRoundTrip(xs, rest);
    }
  }

  lemma {:induction false} MemberRoundTrip(m: Member, rest: string)
    ensures ParseMember(StringifyMember(m) + rest) == Some((m, rest))
    decreases m, 0
  {
    var after := ":" + Stringify(m.value) + rest;
    var s := StringifyMember(m) + rest;
    assert s == "\"" + (Escape(m.key) + "\"" + after);
    SkipWsNoop(s);
    StringBodyRoundTrip(m.key, after);
    SkipWsNoop(after);
    assert after[1..] == Stringify(m.value) + rest;
    ValueRoundTrip(m.value, rest);
  }

  lemma {:induction false} MembersRoundTrip(ms: seq<Member>, rest: string)
    requires |ms| > 0
    ensures ParseMembers(StringifyMembers(ms) + "}" + rest) == Some((ms, rest))
    decreases ms, 0
  {
    var after := MoreMembers(ms[1..]) + "}" + rest;
    assert StringifyMembers(ms) + "}" + rest == StringifyMember(ms[0]) + after;
    MemberRoundTrip(ms[0], after);
    MoreMembersRoundTrip(ms[1..], rest);
    assert [ms[0]] + ms[1..] == ms;
  }

  lemma {:induction false} MoreMembersRoundTrip(ms: seq<Member>, rest: string)
    ensures ParseMoreMembers(MoreMembers(ms) + "}" + rest) == Some((ms, rest))
    decreases ms, 2
  {
    var s := MoreMembers(ms) + "}" + rest;
    if |ms| == 0 {
      assert s == "}" + rest;
    } else {
      assert MoreMembers(ms) == "," + StringifyMembers(ms);
      assert s == "," + (StringifyMembers(ms) + "}" + rest);
      assert s[1..] == StringifyMembers(ms) + "}" + rest;
      MembersRoundTrip(ms, rest);
    }
  }

  /** `JSON.parse(JSON.stringify(v))` gives `v` back. */
  lemma RoundTrip(v: Json)
    ensures Parse(Stringify(v)) == Some(v)
  {
    ValueRoundTrip(v, "");
    assert Stringify(v) + "" == Stringify(v);
  }
}
