// The part of JSON (RFC 8259) that the agent writes and reads back: objects, strings
// and numbers, without insignificant white space (encoding/json as used by
// edge-agent/buffer.go).
module Json {
  import opened Events

  datatype Value = Num(num: Number) | Str(str: string) | Obj(members: Members)

  // The members of an object, in order.
  datatype Members = End | Member(key: string, value: Value, rest: Members)

  datatype Parsed<+T> = Fail | Got(value: T, rest: string)

  // ----- strings ------------------------------------------------------------

  function HexDigit(n: nat): char
    requires n < 16
  {
    "0123456789abcdef"[n]
  }

  function Hex4(n: nat): (s: string)
    requires n < 0x10000
    ensures |s| == 4
  {
    [HexDigit(n / 4096), HexDigit(n / 256 % 16), HexDigit(n / 16 % 16), HexDigit(n % 16)]
  }

  function UnhexDigit(c: char): (n: int)
    ensures -1 <= n < 16
  {
    if '0' <= c <= '9' then c as int - '0' as int
    else if 'a' <= c <= 'f' then c as int - 'a' as int + 10
    else if 'A' <= c <= 'F' then c as int - 'A' as int + 10
    else -1
  }

  // Go's encoder escapes what RFC 8259, section 7 requires, and the characters that
  // are unsafe inside HTML or JavaScript.
  predicate NeedsHex(c: char) {
    c < ' ' || c == '<' || c == '>' || c == '&' || c == '\U{2028}' || c == '\U{2029}'
  }

  function EscapeChar(c: char): string {
    if c == '"' then "\\\""
    else if c == '\\' then "\\\\"
    else if c == '\n' then "\\n"
    else if c == '\r' then "\\r"
    else if c == '\t' then "\\t"
    else if c == '\U{8}' then "\\b"
    else if c == '\U{c}' then "\\f"
    else if NeedsHex(c) then "\\u" + Hex4(c as int)
    else [c]
  }

  function Escape(s: string): string {
    if s == "" then "" else EscapeChar(s[0]) + Escape(s[1..])
  }

  function Quote(s: string): string {
    "\"" + Escape(s) + "\""
  }

  // Surrogate escapes, which the encoder never writes, are refused here.
  function Unhex4(s: string): Parsed<char>
  {
    if |s| < 4 then Fail
    else
      var a, b, c, d := UnhexDigit(s[0]), UnhexDigit(s[1]), UnhexDigit(s[2]), UnhexDigit(s[3]);
      if a < 0 || b < 0 || c < 0 || d < 0 then Fail
      else
        var n := a * 4096 + b * 256 + c * 16 + d;
        if 0xD800 <= n < 0xE000 then Fail else Got(n as char, s[4..])
  }

  // After a backslash.
  function ParseEscape(s: string): Parsed<char> {
    if s == "" then Fail
    else if s[0] == '"' || s[0] == '\\' || s[0] == '/' then Got(s[0], s[1..])
    else if s[0] == 'n' then Got('\n', s[1..])
    else if s[0] == 'r' then Got('\r', s[1..])
    else if s[0] == 't' then Got('\t', s[1..])
    else if s[0] == 'b' then Got('\U{8}', s[1..])
    else if s[0] == 'f' then Got('\U{c}', s[1..])
    else if s[0] == 'u' then Unhex4(s[1..])
    else Fail
  }

  // After the opening quote, up to and including the closing one.
  function ParseBody(s: string): (p: Parsed<string>)
    ensures p.Got? ==> |p.rest| < |s|
    decreases |s|
  {
    if s == "" || s[0] < ' ' then Fail
    else if s[0] == '"' then Got("", s[1..])
    else if s[0] == '\\' then
      var c := ParseEscape(s[1..]);
      if c.Fail? then Fail
      else
        var more := ParseBody(c.rest);
        if more.Fail? then Fail else Got([c.value] + more.value, more.rest)
    else
      var more := ParseBody(s[1..]);
      if more.Fail? then Fail else Got([s[0]] + more.value, more.rest)
  }

  function ParseString(s: string): (p: Parsed<string>)
    ensures p.Got? ==> |p.rest| < |s|
  {
    if s == "" || s[0] != '"' then Fail else ParseBody(s[1..])
  }

  // ----- numbers ------------------------------------------------------------

  function NumberLength(s: string): (n: nat)
    ensures n <= |s| && (forall i :: 0 <= i < n ==> IsNumberChar(s[i]))
    ensures n < |s| ==> !IsNumberChar(s[n])
  {
    if s == "" || !IsNumberChar(s[0]) then 0 else 1 + NumberLength(s[1..])
  }

  function ParseNumber(s: string): (p: Parsed<Number>)
    ensures p.Got? ==> |p.rest| < |s|
  {
    var n := NumberLength(s);
    if IsNumberText(s[..n]) then
      assert n > 0;
      Got(s[..n], s[n..])
    else Fail
  }

  // ----- values -------------------------------------------------------------

  function Print(v: Value): string
    decreases v, 0
  {
    match v
    case Num(n) => n
    case Str(s) => Quote(s)
    case Obj(End) => "{}"
    case Obj(ms) => "{" + PrintMembers(ms)
  }

  // The members and the closing brace.
  function PrintMembers(ms: Members): string
    decreases ms, 0
  {
    match ms
    case End => "}"
    case Member(k, v, rest) => Quote(k) + ":" + Print(v) + Continue(rest)
  }

  // What follows a member.
  function Continue(rest: Members): (s: string)
    ensures s != "" && (s[0] == ',' || s[0] == '}')
    decreases rest, 1
  {
    if rest.End? then "}" else "," + PrintMembers(rest)
  }

  function ParseValue(s: string): (p: Parsed<Value>)
    ensures p.Got? ==> |p.rest| < |s|
    decreases |s|, 0
  {
    if s == "" then Fail
    else if s[0] == '"' then
      var t := ParseString(s);
      if t.Fail? then Fail else Got(Str(t.value), t.rest)
    else if s[0] == '{' then
      if |s| > 1 && s[1] == '}' then Got(Obj(End), s[2..])
      else
        var ms := ParseMembers(s[1..]);
        if ms.Fail? then Fail else Got(Obj(ms.value), ms.rest)
    else
      var n := ParseNumber(s);
      if n.Fail? then Fail else Got(Num(n.value), n.rest)
  }

  // At least one member, and the closing brace.
  function ParseMembers(s: string): (p: Parsed<Members>)
    ensures p.Got? ==> p.value.Member? && |p.rest| < |s|
    decreases |s|, 1
  {
    var k := ParseString(s);
    if k.Fail? || k.rest == "" || k.rest[0] != ':' then Fail
    else
      var v := ParseValue(k.rest[1..]);
      if v.Fail? || v.rest == "" then Fail
      else if v.rest[0] == '}' then Got(Member(k.value, v.value, End), v.rest[1..])
      else if v.rest[0] == ',' then
        var more := ParseMembers(v.rest[1..]);
        if more.Fail? then Fail else Got(Member(k.value, v.value, more.value), more.rest)
      else Fail
  }

  // ----- round trip ---------------------------------------------------------

  lemma DigitRoundTrip(n: nat)
    requires n < 16
    ensures UnhexDigit(HexDigit(n)) == n
  {
  }

  lemma HexSum(n: nat)
    requires n < 0x10000
    ensures n == n / 4096 * 4096 + n / 256 % 16 * 256 + n / 16 % 16 * 16 + n % 16
  {
    assert n / 256 == n / 256 / 16 * 16 + n / 256 % 16;
    assert n / 16 == n / 16 / 16 * 16 + n / 16 % 16;
  }

  lemma HexRoundTrip(n: nat, rest: string)
    requires n < 0xD800 || 0xE000 <= n < 0x10000
    ensures Unhex4(Hex4(n) + rest) == Got(n as char, rest)
  {
    DigitRoundTrip(n / 4096);
    DigitRoundTrip(n / 256 % 16);
    DigitRoundTrip(n / 16 % 16);
    DigitRoundTrip(n % 16);
    HexSum(n);
    assert (Hex4(n) + rest)[4..] == rest;
  }

  lemma HexEscapeRoundTrip(c: char, rest: string)
    requires c as int < 0xD800
    ensures ParseEscape("u" + Hex4(c as int) + rest) == Got(c, rest)
  {
    var s := "u" + Hex4(c as int) + rest;
    assert s[1..] == Hex4(c as int) + rest;
    HexRoundTrip(c as int, rest);
  }

  lemma ShortEscapeRoundTrip(x: char, c: char, rest: string)
    requires x != 'u' && ParseEscape([x]) == Got(c, "")
    ensures ParseEscape([x] + rest) == Got(c, rest)
  {
    assert ([x] + rest)[1..] == rest;
  }

  lemma EscapeRoundTrip(c: char, rest: string)
    requires EscapeChar(c) != [c]
    ensures ParseEscape(EscapeChar(c)[1..] + rest) == Got(c, rest)
    ensures EscapeChar(c)[0] == '\\' && |EscapeChar(c)| >= 2
  {
    var e := EscapeChar(c)[1..];
    if |e| > 1 {
      assert e == "u" + Hex4(c as int);
      HexEscapeRoundTrip(c, rest);
    } else {
      assert e == [e[0]];
      ShortEscapeRoundTrip(e[0], c, rest);
    }
  }

  lemma {:induction false} BodyRoundTrip(s: string, rest: string)
    ensures ParseBody(Escape(s) + "\"" + rest) == Got(s, rest)
  {
    if s == "" {
      assert Escape(s) + "\"" + rest == "\"" + rest;
    } else {
      BodyRoundTrip(s[1..], rest);
      BodyHead(s[0], s[1..], Escape(s[1..]) + "\"" + rest, rest);
      EscapeSplit(s, rest);
      assert s == [s[0]] + s[1..];
    }
  }

  lemma EscapeSplit(s: string, rest: string)
    requires s != ""
    ensures Escape(s) + "\"" + rest == EscapeChar(s[0]) + (Escape(s[1..]) + "\"" + rest)
  {
  }

  lemma BodyHead(c: char, s: string, tail: string, rest: string)
    requires ParseBody(tail) == Got(s, rest)
    ensures ParseBody(EscapeChar(c) + tail) == Got([c] + s, rest)
  {
    var whole := EscapeChar(c) + tail;
    if EscapeChar(c) == [c] {
      PlainHead(c, whole, tail);
    } else {
      EscapeRoundTrip(c, tail);
      assert whole[1..] == EscapeChar(c)[1..] + tail;
      EscapedHead(whole, c, tail);
    }
  }

  lemma PlainHead(c: char, whole: string, tail: string)
    requires whole == [c] + tail && c >= ' ' && c != '"' && c != '\\' && ParseBody(tail).Got?
    ensures ParseBody(whole) == Got([c] + ParseBody(tail).value, ParseBody(tail).rest)
  {
    assert whole[1..] == tail;
  }

  lemma EscapedHead(whole: string, c: char, tail: string)
    requires whole != "" && whole[0] == '\\' && ParseEscape(whole[1..]) == Got(c, tail) && ParseBody(tail).Got?
    ensures ParseBody(whole) == Got([c] + ParseBody(tail).value, ParseBody(tail).rest)
  {
  }

  lemma StringRoundTrip(s: string, rest: string)
    ensures ParseString(Quote(s) + rest) == Got(s, rest)
  {
    BodyRoundTrip(s, rest);
    Requoted(Escape(s), rest);
  }

  lemma Requoted(escaped: string, rest: string)
    ensures ("\"" + escaped + "\"" + rest)[0] == '"'
    ensures ("\"" + escaped + "\"" + rest)[1..] == escaped + "\"" + rest
  {
  }

  lemma {:induction false} NumberSpan(n: string, rest: string)
    requires forall i :: 0 <= i < |n| ==> IsNumberChar(n[i])
    requires rest == "" || !IsNumberChar(rest[0])
    ensures NumberLength(n + rest) == |n|
  {
    if n == "" {
      assert n + rest == rest;
    } else {
      NumberSpan(n[1..], rest);
      assert (n + rest)[1..] == n[1..] + rest;
    }
  }

  // One member read, when its key and its value are; `printed` is the value's text.
  lemma MemberStep(k: string, v: Value, printed: string, after: string)
    requires after != "" && ParseValue(printed + after) == Got(v, after)
    ensures var p := ParseMembers(Quote(k) + (":" + (printed + after)));
            && (after[0] == '}' ==> p == Got(Member(k, v, End), after[1..]))
            && (after[0] == ',' && ParseMembers(after[1..]).Got? ==>
                  p == Got(Member(k, v, ParseMembers(after[1..]).value), ParseMembers(after[1..]).rest))
  {
    var colon := ":" + (printed + after);
    StringRoundTrip(k, colon);
    assert colon[1..] == printed + after;
  }

  lemma ParseObject(s: string, inner: string, ms: Members, rest: string)
    requires |s| > 1 && s[0] == '{' && s[1] != '}' && s[1..] == inner
    requires ParseMembers(inner) == Got(ms, rest)
    ensures ParseValue(s) == Got(Obj(ms), rest)
  {
  }

  lemma Regroup(a: string, b: string, c: string, d: string, e: string)
    ensures (a + b + c + d) + e == a + (b + (c + (d + e)))
  {
  }

  lemma NumberRoundTrip(n: Number, rest: string)
    requires rest == "" || !IsNumberChar(rest[0])
    ensures ParseValue(n + rest) == Got(Num(n), rest)
  {
    NumberChars(Begin, n);
    NumberSpan(n, rest);
    var s := n + rest;
    assert s[..|n|] == n && s[|n|..] == rest && IsNumberChar(s[0]);
  }

  // Reading back what was written, whatever follows it; a number must be followed by
  // something that is not part of a number.
  lemma {:induction false} ValueRoundTrip(v: Value, rest: string)
    requires rest == "" || !IsNumberChar(rest[0])
    ensures ParseValue(Print(v) + rest) == Got(v, rest)
    decreases v, 0
  {
    match v
    case Num(n) => NumberRoundTrip(n, rest);
    case Str(t) => StringRoundTrip(t, rest);
    case Obj(End) => assert ("{}" + rest)[2..] == rest;
    case Obj(Member(_, _, _)) =>
      MembersRoundTrip(v.members, rest);
      var inner := PrintMembers(v.members) + rest;
      DropFirst('{', PrintMembers(v.members), rest);
      ParseObject(Print(v) + rest, inner, v.members, rest);
  }

  lemma {:induction false} MembersRoundTrip(ms: Members, rest: string)
    requires ms.Member?
    ensures ParseMembers(PrintMembers(ms) + rest) == Got(ms, rest)
    ensures PrintMembers(ms)[0] == '"'
    decreases ms, 1
  {
    var Member(k, v, more) := ms;
    var end := Continue(more);
    Regroup(Quote(k), ":", Print(v), end, rest);
    ValueRoundTrip(v, end + rest);
    MemberStep(k, v, Print(v), end + rest);
    if more.Member? {
      MembersRoundTrip(more, rest);
    }
    ContinueTail(more, rest);
  }

  lemma ContinueTail(more: Members, rest: string)
    ensures (Continue(more) + rest)[1..] == (if more.End? then "" else PrintMembers(more)) + rest
  {
    DropFirst(Continue(more)[0], Continue(more)[1..], rest);
    assert Continue(more) == [Continue(more)[0]] + Continue(more)[1..];
  }

  lemma DropFirst(c: char, s: string, rest: string)
    ensures ([c] + s + rest)[1..] == s + rest
  {
  }

  // ----- one line -------------------------------------------------------------

  predicate OneLine(s: string) {
    forall i :: 0 <= i < |s| ==> s[i] != '\n'
  }

  lemma {:induction false} EscapeOneLine(s: string)
    ensures OneLine(Escape(s))
  {
    if s != "" {
      EscapeOneLine(s[1..]);
      EscapeCharOneLine(s[0]);
      JoinOneLine(EscapeChar(s[0]), Escape(s[1..]));
    }
  }

  lemma EscapeCharOneLine(c: char)
    ensures OneLine(EscapeChar(c))
  {
  }

  lemma JoinOneLine(a: string, b: string)
    requires OneLine(a) && OneLine(b)
    ensures OneLine(a + b)
  {
  }

  // However the strings inside it look, a printed value has no line break.
  lemma {:induction false} PrintOneLine(v: Value)
    ensures OneLine(Print(v))
    decreases v, 0
  {
    match v
    case Num(n) => NumberChars(Begin, n);
    case Str(s) => EscapeOneLine(s);
    case Obj(End) =>
    case Obj(ms) => MembersOneLine(ms);
  }

  lemma {:induction false} MembersOneLine(ms: Members)
    ensures OneLine(PrintMembers(ms))
    decreases ms, 1
  {
    match ms
    case End =>
    case Member(k, v, rest) =>
      EscapeOneLine(k);
      PrintOneLine(v);
      MembersOneLine(rest);
      assert OneLine(Continue(rest));
  }
}
