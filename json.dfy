/** The `.pdfmonkey.json` metadata file: `JSON.stringify({ type, id }, {}, 2)`
    when it is written and `JSON.parse` when it is read.

    `Stringify` produces exactly the layout of `JSON.stringify` with an indent
    of two spaces: members whose value is `undefined` are omitted, strings are
    quoted with the escapes JSON.stringify uses. `Parse` reads a JSON object
    whose member values are strings, with any JSON whitespace between tokens;
    duplicate keys keep the last value, as `JSON.parse` does. */
module Json {
  import opened Wrappers

  /** The `{ type, id }` object; `None` is `undefined`. */
  datatype Metadata = Metadata(resourceType: Option<string>, id: Option<string>)

  // ---------------------------------------------------------------- writing

  function HexDigit(d: nat): (c: char)
    requires d < 16
  {
    "0123456789abcdef"[d]
  }

  /** One character as JSON.stringify writes it inside a string literal. */
  function EscapeChar(c: char): string {
    if c == '"' then "\\\""
    else if c == '\\' then "\\\\"
    else if c == '\n' then "\\n"
    else if c == '\r' then "\\r"
    else if c == '\t' then "\\t"
    else if c == '\U{8}' then "\\b"
    else if c == '\U{C}' then "\\f"
    else if c < ' ' then "\\u00" + [HexDigit(c as int / 16), HexDigit(c as int % 16)]
    else [c]
  }

  function Escape(s: string): string
    decreases |s|
  {
    if s == [] then [] else EscapeChar(s[0]) + Escape(s[1..])
  }

  function Quote(s: string): string {
    "\"" + Escape(s) + "\""
  }

  function MemberBody(key: string, value: string): string {
    Quote(key) + ": " + Quote(value)
  }

  function MemberText(key: string, value: string): string {
    "  " + MemberBody(key, value)
  }

  /** The members JSON.stringify writes, in property order, `undefined` ones left out. */
  function Members(m: Metadata): (ms: seq<(string, string)>)
    ensures |ms| <= 2
  {
    (if m.resourceType.Some? then [("type", m.resourceType.value)] else [])
    + (if m.id.Some? then [("id", m.id.value)] else [])
  }

  function MembersText(ms: seq<(string, string)>): string
    decreases |ms|
  {
    if |ms| == 0 then ""
    else if |ms| == 1 then MemberText(ms[0].0, ms[0].1)
    else MemberText(ms[0].0, ms[0].1) + ",\n" + MembersText(ms[1..])
  }

  /** `JSON.stringify({ type, id }, {}, 2)`: `type` before `id`, one member per line indented
      by two spaces, an `undefined` member left out, and `{}` when both are. */
  function Stringify(m: Metadata): (r: string)
    ensures m.resourceType.None? && m.id.None? ==> r == "{}"
    ensures m.resourceType.Some? && m.id.None? ==> r == "{\n" + MemberText("type", m.resourceType.value) + "\n}"
    ensures m.resourceType.None? && m.id.Some? ==> r == "{\n" + MemberText("id", m.id.value) + "\n}"
    ensures m.resourceType.Some? && m.id.Some? ==>
      r == "{\n" + (MemberText("type", m.resourceType.value) + ",\n" + MemberText("id", m.id.value)) + "\n}"
  {
    var ms := Members(m);
    assert |ms| == 2 ==> MembersText(ms[1..]) == MemberText(ms[1].0, ms[1].1);
    if ms == [] then "{}" else "{\n" + MembersText(ms) + "\n}"
  }

  // ---------------------------------------------------------------- reading

  predicate IsWs(c: char) {
    c == ' ' || c == '\t' || c == '\n' || c == '\r'
  }

  function SkipWs(s: string): (r: string)
    ensures |r| <= |s|
    ensures r == [] || !IsWs(r[0])
    decreases |s|
  {
    if s != [] && IsWs(s[0]) then SkipWs(s[1..]) else s
  }

  function HexValue(c: char): Option<nat> {
    if '0' <= c <= '9' then Some(c as int - '0' as int)
    else if 'a' <= c <= 'f' then Some(c as int - 'a' as int + 10)
    else if 'A' <= c <= 'F' then Some(c as int - 'A' as int + 10)
    else None
  }

  /** The escape after a backslash: the character it stands for and what follows it. */
  function DecodeEscape(s: string): (r: Option<(char, string)>)
    ensures r.Some? ==> |r.value.1| < |s|
  {
    if s == [] then None
    else if s[0] == '"' then Some(('"', s[1..]))
    else if s[0] == '\\' then Some(('\\', s[1..]))
    else if s[0] == '/' then Some(('/', s[1..]))
    else if s[0] == 'b' then Some(('\U{8}', s[1..]))
    else if s[0] == 'f' then Some(('\U{C}', s[1..]))
    else if s[0] == 'n' then Some(('\n', s[1..]))
    else if s[0] == 'r' then Some(('\r', s[1..]))
    else if s[0] == 't' then Some(('\t', s[1..]))
    else if s[0] == 'u' && |s| >= 5 then
      match (HexValue(s[1]), HexValue(s[2]), HexValue(s[3]), HexValue(s[4]))
      case (Some(a), Some(b), Some(c), Some(d)) =>
        var code := 4096 * a + 256 * b + 16 * c + d;
        if code < 0xD800 || 0xE000 <= code then Some((code as char, s[5..])) else None
      case _ => None
    else None
  }

  /** A string literal whose opening quote is already consumed: its value and what follows the closing quote. */
  function ParseString(s: string): (r: Option<(string, string)>)
    ensures r.Some? ==> |r.value.1| < |s|
    decreases |s|
  {
    if s == [] then None
    else if s[0] == '"' then Some(([], s[1..]))
    else if s[0] == '\\' then
      match DecodeEscape(s[1..])
      case None => None
      case Some((c, rest)) =>
        match ParseString(rest)
        case None => None
        case Some((v, after)) => Some(([c] + v, after))
    else if s[0] < ' ' then None
    else
      match ParseString(s[1..])
      case None => None
      case Some((v, after)) => Some(([s[0]] + v, after))
  }

  /** `"key": "value"` at the start of `s` (whitespace around the colon allowed). */
  function ParseMember(s: string): (r: Option<(string, string, string)>)
    ensures r.Some? ==> |r.value.2| < |s|
  {
    if s == [] || s[0] != '"' then None
    else
      match ParseString(s[1..])
      case None => None
      case Some((key, r1)) =>
        var r2 := SkipWs(r1);
        if r2 == [] || r2[0] != ':' then None
        else
          var r3 := SkipWs(r2[1..]);
          if r3 == [] || r3[0] != '"' then None
          else
            match ParseString(r3[1..])
            case None => None
            case Some((value, r4)) => Some((key, value, r4))
  }

  /** The members of an object whose `{` is consumed and whose first member starts `s`;
      returns them with what follows the closing `}`. */
  function ParseMembers(s: string): (r: Option<(seq<(string, string)>, string)>)
    decreases |s|
  {
    match ParseMember(s)
    case None => None
    case Some((key, value, r1)) =>
      var r2 := SkipWs(r1);
      if r2 == [] then None
      else if r2[0] == '}' then Some(([(key, value)], r2[1..]))
      else if r2[0] == ',' then
        match ParseMembers(SkipWs(r2[1..]))
        case None => None
        case Some((more, after)) => Some(([(key, value)] + more, after))
      else None
  }

  /** The value of the last member named `key`, as property lookup after `JSON.parse`. */
  function Lookup(ms: seq<(string, string)>, key: string): Option<string>
    decreases |ms|
  {
    if ms == [] then None
    else if ms[|ms| - 1].0 == key then Some(ms[|ms| - 1].1)
    else Lookup(ms[..|ms| - 1], key)
  }

  /** `JSON.parse(s)` for an object of string members; `None` where `JSON.parse` would throw
      and for JSON this model does not read. */
  function Parse(s: string): (r: Option<Metadata>)
    ensures r.Some? ==> SkipWs(s) != [] && SkipWs(s)[0] == '{'
    ensures SkipWs(s) == "{}" ==> r == Some(Metadata(None, None))
  {
    var t := SkipWs(s);
    assert t == "{}" ==> t[1..] == "}" && SkipWs(t[1..]) == "}" && SkipWs(t[1..][1..]) == [];
    if t == [] || t[0] != '{' then None
    else
      var u := SkipWs(t[1..]);
      if u != [] && u[0] == '}' then
        if SkipWs(u[1..]) == [] then Some(Metadata(None, None)) else None
      else
        match ParseMembers(u)
        case None => None
        case Some((ms, after)) =>
          if SkipWs(after) == [] then Some(Metadata(Lookup(ms, "type"), Lookup(ms, "id"))) else None
  }

  // ---------------------------------------------------------------- round trip

  lemma HexRoundTrip(d: nat)
    requires d < 16
    ensures HexValue(HexDigit(d)) == Some(d)
  {
  }

  lemma EscapeCharRoundTrip(c: char, rest: string)
    ensures DecodeEscape(EscapeChar(c)[1..] + rest) == Some((c, rest)) || (EscapeChar(c) == [c] && c != '"' && c != '\\' && c >= ' ')
  {
    if c < ' ' && c != '\n' && c != '\r' && c != '\t' && c != '\U{8}' && c != '\U{C}' {
      var hi, lo := c as int / 16, c as int % 16;
      HexRoundTrip(hi);
      HexRoundTrip(lo);
      var s := EscapeChar(c)[1..] + rest;
      assert s == ['u', '0', '0', HexDigit(hi), HexDigit(lo)] + rest;
      assert s[5..] == rest;
    }
  }

  /** Reading a quoted string gives back exactly what was escaped, and stops at its closing quote. */
  lemma {:induction false} StringRoundTrip(x: string, rest: string)
    ensures ParseString(Escape(x) + "\"" + rest) == Some((x, rest))
    decreases |x|
  {
    if x == [] {
      assert Escape(x) + "\"" + rest == "\"" + rest;
    } else {
      var c := x[0];
      var tail := Escape(x[1..]) + "\"" + rest;
      StringRoundTrip(x[1..], rest);
      assert Escape(x) + "\"" + rest == EscapeChar(c) + tail;
      EscapedCharStep(c, tail, x[1..], rest);
      assert [c] + x[1..] == x;
    }
  }

  /** One escaped character in front of a readable string is read back first. */
  lemma EscapedCharStep(c: char, tail: string, v: string, rest: string)
    requires ParseString(tail) == Some((v, rest))
    ensures ParseString(EscapeChar(c) + tail) == Some(([c] + v, rest))
  {
    EscapeCharRoundTrip(c, tail);
    var s := EscapeChar(c) + tail;
    if EscapeChar(c) == [c] && c != '"' && c != '\\' && c >= ' ' {
      assert s[1..] == tail;
    } else {
      assert s[0] == '\\';
      assert s[1..] == EscapeChar(c)[1..] + tail;
    }
  }

  lemma {:induction false} SkipWsOver(w: string, t: string)
    requires forall i :: 0 <= i < |w| ==> IsWs(w[i])
    requires t == [] || !IsWs(t[0])
    ensures SkipWs(w + t) == t
    decreases |w|
  {
    if w != [] {
      assert (w + t)[1..] == w[1..] + t;
      SkipWsOver(w[1..], t);
    } else {
      assert w + t == t;
    }
  }

  /** How ParseMember reads a member, step by step. */
  lemma ParseMemberSteps(s: string, key: string, r1: string, value: string, r4: string)
    requires s != [] && s[0] == '"'
    requires ParseString(s[1..]) == Some((key, r1))
    requires SkipWs(r1) != [] && SkipWs(r1)[0] == ':'
    requires SkipWs(SkipWs(r1)[1..]) != [] && SkipWs(SkipWs(r1)[1..])[0] == '"'
    requires ParseString(SkipWs(SkipWs(r1)[1..])[1..]) == Some((value, r4))
    ensures ParseMember(s) == Some((key, value, r4))
  {
  }

  lemma QuotedThen(x: string, rest: string)
    ensures var s := Quote(x) + rest; s != [] && s[0] == '"' && ParseString(s[1..]) == Some((x, rest))
  {
    var s := Quote(x) + rest;
    assert s == "\"" + (Escape(x) + "\"" + rest);
    assert s[1..] == Escape(x) + "\"" + rest;
    StringRoundTrip(x, rest);
  }

  lemma ColonThen(r3: string)
    requires r3 != [] && r3[0] == '"'
    ensures var a := ": " + r3; SkipWs(a) == a && a[0] == ':' && SkipWs(a[1..]) == r3
  {
    var a := ": " + r3;
    assert a[1..] == " " + r3;
    SkipWsOver(" ", r3);
  }

  lemma MemberRoundTrip(key: string, value: string, rest: string)
    ensures ParseMember(MemberBody(key, value) + rest) == Some((key, value, rest))
  {
    var r3 := Quote(value) + rest;
    var afterKey := ": " + r3;
    assert MemberBody(key, value) + rest == Quote(key) + afterKey;
    QuotedThen(key, afterKey);
    QuotedThen(value, rest);
    ColonThen(r3);
    ParseMemberSteps(Quote(key) + afterKey, key, afterKey, value, rest);
  }

  lemma ParseMembersLast(s: string, key: string, value: string, r1: string)
    requires ParseMember(s) == Some((key, value, r1))
    requires SkipWs(r1) != [] && SkipWs(r1)[0] == '}'
    ensures ParseMembers(s) == Some(([(key, value)], SkipWs(r1)[1..]))
  {
  }

  lemma ParseMembersNext(s: string, key: string, value: string, r1: string, more: seq<(string, string)>, after: string)
    requires ParseMember(s) == Some((key, value, r1))
    requires SkipWs(r1) != [] && SkipWs(r1)[0] == ','
    requires ParseMembers(SkipWs(SkipWs(r1)[1..])) == Some((more, after))
    ensures ParseMembers(s) == Some(([(key, value)] + more, after))
  {
  }

  lemma LastMemberRoundTrip(key: string, value: string, tail: string)
    ensures ParseMembers(MemberBody(key, value) + ("\n}" + tail)) == Some(([(key, value)], tail))
  {
    var r1 := "\n}" + tail;
    MemberRoundTrip(key, value, r1);
    assert r1 == "\n" + ("}" + tail);
    SkipWsOver("\n", "}" + tail);
    assert SkipWs(r1)[1..] == tail;
    ParseMembersLast(MemberBody(key, value) + r1, key, value, r1);
  }

  lemma TwoMembersRoundTrip(k1: string, v1: string, k2: string, v2: string, tail: string)
    ensures ParseMembers(MemberBody(k1, v1) + (",\n  " + (MemberBody(k2, v2) + ("\n}" + tail))))
         == Some(([(k1, v1), (k2, v2)], tail))
  {
    var second := MemberBody(k2, v2) + ("\n}" + tail);
    var r1 := ",\n  " + second;
    MemberRoundTrip(k1, v1, r1);
    assert SkipWs(r1) == r1;
    MemberStartsWithQuote(k2, v2, "\n}" + tail);
    assert r1[1..] == "\n  " + second;
    SkipWsOver("\n  ", second);
    LastMemberRoundTrip(k2, v2, tail);
    ParseMembersNext(MemberBody(k1, v1) + r1, k1, v1, r1, [(k2, v2)], tail);
    assert [(k1, v1)] + [(k2, v2)] == [(k1, v1), (k2, v2)];
  }

  lemma ParseObjectSteps(s: string, body: string, ms: seq<(string, string)>)
    requires s == "{" + ("\n  " + body)
    requires body != [] && body[0] == '"'
    requires ParseMembers(body) == Some((ms, ""))
    ensures Parse(s) == Some(Metadata(Lookup(ms, "type"), Lookup(ms, "id")))
  {
    assert SkipWs(s) == s;
    assert s[1..] == "\n  " + body;
    SkipWsOver("\n  ", body);
  }

  lemma LookupMembers(m: Metadata)
    ensures Lookup(Members(m), "type") == m.resourceType
    ensures Lookup(Members(m), "id") == m.id
  {
    var ms := Members(m);
    if |ms| == 2 {
      assert ms[..1] == [("type", m.resourceType.value)];
    }
  }

  lemma ParseOneMember(k: string, v: string)
    ensures var ms := [(k, v)];
      Parse("{\n" + MembersText(ms) + "\n}") == Some(Metadata(Lookup(ms, "type"), Lookup(ms, "id")))
  {
    var ms := [(k, v)];
    var body := MemberBody(k, v) + ("\n}" + "");
    LastMemberRoundTrip(k, v, "");
    assert "{\n" + MembersText(ms) + "\n}" == "{" + ("\n  " + body);
    MemberStartsWithQuote(k, v, "\n}" + "");
    ParseObjectSteps("{\n" + MembersText(ms) + "\n}", body, ms);
  }

  lemma MemberStartsWithQuote(k: string, v: string, rest: string)
    ensures var s := MemberBody(k, v) + rest; s != [] && s[0] == '"'
  {
    var q := Quote(k);
    assert q[0] == '"';
    assert MemberBody(k, v)[0] == (q + ": ")[0] == q[0];
  }

  lemma TwoMembersLayout(b1: string, b2: string)
    ensures "{\n" + ("  " + b1 + ",\n" + ("  " + b2)) + "\n}"
         == "{" + ("\n  " + (b1 + (",\n  " + (b2 + ("\n}" + "")))))
  {
  }

  lemma ParseTwoMembers(k1: string, v1: string, k2: string, v2: string)
    ensures var ms := [(k1, v1), (k2, v2)];
      Parse("{\n" + MembersText(ms) + "\n}") == Some(Metadata(Lookup(ms, "type"), Lookup(ms, "id")))
  {
    var ms := [(k1, v1), (k2, v2)];
    var b1, b2 := MemberBody(k1, v1), MemberBody(k2, v2);
    var rest := ",\n  " + (b2 + ("\n}" + ""));
    var body := b1 + rest;
    TwoMembersRoundTrip(k1, v1, k2, v2, "");
    assert MembersText(ms) == "  " + b1 + ",\n" + ("  " + b2) by {
      assert ms[1..] == [(k2, v2)];
    }
    TwoMembersLayout(b1, b2);
    MemberStartsWithQuote(k1, v1, rest);
    ParseObjectSteps("{\n" + MembersText(ms) + "\n}", body, ms);
  }

  /** What JSON.stringify writes, JSON.parse reads back unchanged. */
  lemma ParseStringify(m: Metadata)
    ensures Parse(Stringify(m)) == Some(m)
  {
    var ms := Members(m);
    LookupMembers(m);
    if ms == [] {
      assert Stringify(m) == "{}";
      assert SkipWs("{}") == "{}";
      assert SkipWs("{}"[1..]) == "}";
    } else if |ms| == 1 {
      ParseOneMember(ms[0].0, ms[0].1);
      assert ms == [(ms[0].0, ms[0].1)];
    } else {
      ParseTwoMembers(ms[0].0, ms[0].1, ms[1].0, ms[1].1);
      assert ms == [(ms[0].0, ms[0].1), (ms[1].0, ms[1].1)];
    }
  }
}
