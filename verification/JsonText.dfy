// The text that the agent writes for an event, and other texts that it reads
// (edge-agent/buffer.go; encoding/json of Go).
module JsonText {
  import opened Wrappers
  import opened Events
  import opened Json
  import opened JsonLines

  // ----- escapes ------------------------------------------------------------------------

  predicate Special(c: char) {
    c < ' ' || c in {'"', '\\', '<', '>', '&', '\U{2028}', '\U{2029}'}
  }

  // Exactly the special characters are escaped.
  lemma PlainIff(c: char)
    ensures EscapeChar(c) == [c] <==> !Special(c)
  {
  }

  lemma ShortEscapes()
    ensures EscapeChar('"') == "\\\"" && EscapeChar('\\') == "\\\\"
    ensures EscapeChar('\n') == "\\n" && EscapeChar('\r') == "\\r" && EscapeChar('\t') == "\\t"
    ensures EscapeChar('\U{8}') == "\\b" && EscapeChar('\U{c}') == "\\f"
  {
  }

  function HexValue(s: string): int
    requires |s| == 4
  {
    4096 * UnhexDigit(s[0]) + 256 * UnhexDigit(s[1]) + 16 * UnhexDigit(s[2]) + UnhexDigit(s[3])
  }

  lemma HexDigitIs(n: nat)
    requires n < 16
    ensures HexDigit(n) == if n < 10 then ('0' as int + n) as char else ('a' as int + n - 10) as char
  {
  }

  lemma Hex4Is(n: nat)
    requires n < 0x10000
    ensures HexValue(Hex4(n)) == n
  {
    DigitRoundTrip(n / 4096);
    DigitRoundTrip(n / 256 % 16);
    DigitRoundTrip(n / 16 % 16);
    DigitRoundTrip(n % 16);
    HexSum(n);
  }

  // The other special characters become their code in four lower-case digits.
  lemma HexEscapes(c: char)
    requires Special(c) && c !in {'"', '\\', '\n', '\r', '\t', '\U{8}', '\U{c}'}
    ensures |EscapeChar(c)| == 6 && EscapeChar(c)[..2] == "\\u" && HexValue(EscapeChar(c)[2..]) == c as int
  {
    assert EscapeChar(c)[2..] == Hex4(c as int);
    Hex4Is(c as int);
  }

  lemma {:induction false} PlainText(s: string)
    requires forall i :: 0 <= i < |s| ==> !Special(s[i])
    ensures Escape(s) == s
  {
    if s != "" {
      PlainIff(s[0]);
      PlainText(s[1..]);
      assert [s[0]] + s[1..] == s;
    }
  }

  // ----- a line -------------------------------------------------------------------------

  // A name, its value, and what comes after them.
  function Pair(key: string, value: string, more: string): string {
    "\"" + key + "\":" + value + more
  }

  predicate Name(key: string) {
    forall i :: 0 <= i < |key| ==> 'a' <= key[i] <= 'z' || key[i] == '_'
  }

  lemma QuotedPair(key: string, value: string, more: string)
    ensures ("\"" + key + "\"") + ":" + value + more == Pair(key, value, more)
  {
    assert ("\"" + key + "\"") + ":" == "\"" + key + "\":";
  }

  lemma MemberText(key: string, v: Value, rest: Members)
    requires Name(key)
    ensures PrintMembers(Member(key, v, rest)) == Pair(key, Print(v), Continue(rest))
  {
    PlainText(key);
    QuotedPair(key, Print(v), Continue(rest));
  }

  lemma Names()
    ensures Name("machine_id") && Name("ts") && Name("vibration") && Name("temperature") && Name("current")
    ensures Name("score") && Name("reason") && Name("reading") && Name("agent_ts")
  {
  }

  function ReadingText(r: Reading): string {
    "{" + Pair("machine_id", Quote(r.machineId),
    "," + Pair("ts", r.ts,
    "," + Pair("vibration", r.vibration,
    "," + Pair("temperature", r.temperature,
    "," + Pair("current", r.current, "}")))))
  }

  lemma ReadingTextIs(r: Reading)
    ensures Print(ReadingJson(r)) == ReadingText(r)
  {
    Names();
    var m5 := Member("current", Num(r.current), End);
    var m4 := Member("temperature", Num(r.temperature), m5);
    var m3 := Member("vibration", Num(r.vibration), m4);
    var m2 := Member("ts", Num(r.ts), m3);
    MemberText("current", Num(r.current), End);
    MemberText("temperature", Num(r.temperature), m5);
    MemberText("vibration", Num(r.vibration), m4);
    MemberText("ts", Num(r.ts), m3);
    MemberText("machine_id", Str(r.machineId), m2);
  }

  function TailText(ev: Event): string {
    "," + Pair("reading", ReadingText(ev.reading), "," + Pair("agent_ts", ev.agentTs, "}"))
  }

  function ReasonText(ev: Event): string {
    if ev.reason == "" then TailText(ev) else "," + Pair("reason", Quote(ev.reason), TailText(ev))
  }

  lemma HeadText(id: Value, ts: Value, score: Value, m4: Members, tail: string)
    requires Continue(m4) == tail
    ensures Print(Obj(Member("machine_id", id, Member("ts", ts, Member("score", score, m4))))) ==
      "{" + Pair("machine_id", Print(id), "," + Pair("ts", Print(ts), "," + Pair("score", Print(score), tail)))
  {
    Names();
    var m3 := Member("score", score, m4);
    var m2 := Member("ts", ts, m3);
    MemberText("score", score, m4);
    MemberText("ts", ts, m3);
    MemberText("machine_id", id, m2);
  }

  // The line of an event: one object, without white space, its members in the order of
  // the struct; the reason is left out when there is none.
  lemma LineText(ev: Event)
    ensures Line(ev) ==
      "{" + Pair("machine_id", Quote(ev.machineId), "," + Pair("ts", ev.ts, "," + Pair("score", ev.score, ReasonText(ev))))
  {
    var m6 := Member("agent_ts", Num(ev.agentTs), End);
    var m5 := Member("reading", ReadingJson(ev.reading), m6);
    var m4 := if ev.reason == "" then m5 else Member("reason", Str(ev.reason), m5);
    TailTextIs(ev, m6, m5);
    ReasonTextIs(ev, m5, m4);
    EventMembers(ev, m4);
    LineWith(ev, m4, ReasonText(ev));
  }

  lemma LineWith(ev: Event, m4: Members, tail: string)
    requires Continue(m4) == tail
    requires EventJson(ev) ==
      Obj(Member("machine_id", Str(ev.machineId), Member("ts", Num(ev.ts), Member("score", Num(ev.score), m4))))
    ensures Line(ev) ==
      "{" + Pair("machine_id", Quote(ev.machineId), "," + Pair("ts", ev.ts, "," + Pair("score", ev.score, tail)))
  {
    HeadText(Str(ev.machineId), Num(ev.ts), Num(ev.score), m4, tail);
  }

  lemma EventMembers(ev: Event, m4: Members)
    requires var m5 := Member("reading", ReadingJson(ev.reading), Member("agent_ts", Num(ev.agentTs), End));
             m4 == if ev.reason == "" then m5 else Member("reason", Str(ev.reason), m5)
    ensures EventJson(ev) ==
      Obj(Member("machine_id", Str(ev.machineId), Member("ts", Num(ev.ts), Member("score", Num(ev.score), m4))))
  {
  }

  lemma ReasonTextIs(ev: Event, m5: Members, m4: Members)
    requires Continue(m5) == TailText(ev) && m4 == (if ev.reason == "" then m5 else Member("reason", Str(ev.reason), m5))
    ensures Continue(m4) == ReasonText(ev)
  {
    if ev.reason != "" {
      Names();
      MemberText("reason", Str(ev.reason), m5);
    }
  }

  lemma TailTextIs(ev: Event, m6: Members, m5: Members)
    requires m6 == Member("agent_ts", Num(ev.agentTs), End) && m5 == Member("reading", ReadingJson(ev.reading), m6)
    ensures Continue(m5) == TailText(ev)
  {
    Names();
    ReadingTextIs(ev.reading);
    MemberText("agent_ts", Num(ev.agentTs), End);
    MemberText("reading", ReadingJson(ev.reading), m6);
  }

  // ----- other texts --------------------------------------------------------------------

  // The digit of a value, in either case.
  lemma UnhexIff(c: char, n: nat)
    requires n < 16
    ensures UnhexDigit(c) == n <==>
      c as int == (if n < 10 then 0x30 + n else 0x61 + n - 10) || (n >= 10 && c as int == 0x41 + n - 10)
  {
  }

  // A slash may be escaped, hexadecimal digits may be capitals, half a surrogate pair
  // is refused.
  lemma OtherEscapes(rest: string)
    ensures ParseEscape("/" + rest) == Got('/', rest)
    ensures ParseEscape("u003C" + rest) == ParseEscape("u003c" + rest) == Got('<', rest)
    ensures ParseEscape("uD800" + rest) == Fail
  {
    HexEscape("003C", rest);
    HexEscape("003c", rest);
    HexEscape("D800", rest);
    assert ("/" + rest)[1..] == rest;
  }

  lemma HexEscape(hex: string, rest: string)
    requires |hex| == 4 && forall i :: 0 <= i < 4 ==> UnhexDigit(hex[i]) >= 0
    ensures ParseEscape("u" + hex + rest)
            == if 0xD800 <= HexValue(hex) < 0xE000 then Fail else Got(HexValue(hex) as char, rest)
  {
    var s := "u" + hex + rest;
    assert s[1..] == hex + rest && (hex + rest)[4..] == rest;
  }

  function With(ms: Members, key: string, v: Value): Members {
    match ms
    case End => Member(key, v, End)
    case Member(k, w, rest) => Member(k, w, With(rest, key, v))
  }

  // A name that occurs again takes its last value; other names do not matter.
  lemma {:induction false} LastCounts(ms: Members, key: string, v: Value, other: string)
    ensures Lookup(With(ms, key, v), other) == if other == key then Some(v) else Lookup(ms, other)
  {
    if ms.Member? {
      LastCounts(ms.rest, key, v, other);
    }
  }

  predicate SameAt(ms: Members, ns: Members, key: string) {
    Lookup(ms, key) == Lookup(ns, key)
  }

  lemma SameGets(ms: Members, ns: Members, key: string)
    requires SameAt(ms, ns, key)
    ensures GetString(ms, key) == GetString(ns, key) && GetNumber(ms, key) == GetNumber(ns, key)
    ensures GetReading(ms, key) == GetReading(ns, key)
  {
  }

  // The order of the members of an object does not matter, nor do members unknown to
  // the event.
  lemma OnlyLookups(ms: Members, ns: Members)
    requires SameAt(ms, ns, "machine_id") && SameAt(ms, ns, "ts") && SameAt(ms, ns, "score")
    requires SameAt(ms, ns, "reason") && SameAt(ms, ns, "reading") && SameAt(ms, ns, "agent_ts")
    ensures JsonEvent(Obj(ms)) == JsonEvent(Obj(ns))
  {
    SameGets(ms, ns, "machine_id");
    SameGets(ms, ns, "ts");
    SameGets(ms, ns, "score");
    SameGets(ms, ns, "reason");
    SameGets(ms, ns, "reading");
    SameGets(ms, ns, "agent_ts");
  }

  // An empty object is an event of zero values.
  lemma EmptyObject()
    ensures ParseLine("{}") == Some(Event("", "0", "0", "", Reading("", "0", "0", "0", "0"), "0"))
  {
    assert ParseValue("{}") == Got(Obj(End), "");
  }

  // A text is read line by line.
  lemma LinesRead(line: string, rest: string)
    requires '\n' !in line
    ensures TextEvents(line + "\n" + rest) == LineEvents(line) + TextEvents(rest)
  {
    assert forall i :: 0 <= i < |line| ==> line[i] in line;
    LineEndAt(line, rest);
    var text := line + "\n" + rest;
    assert text[..|line|] == line && text[|line| + 1..] == rest;
  }

  // A line that is no event, an empty one among them, is skipped; one carriage return at
  // its end is not part of it.
  lemma LineSkipped(line: string)
    requires line == "" || line[|line| - 1] != '\r'
    ensures LineEvents(line + "\r") == LineEvents(line)
    ensures line == "" || ParseLine(line).None? ==> LineEvents(line) == []
    ensures line != "" && ParseLine(line).Some? ==> LineEvents(line) == [ParseLine(line).value]
  {
    assert (line + "\r")[..|line|] == line;
  }

  // The last line needs no line break.
  lemma LastLineRead(line: string)
    requires '\n' !in line
    ensures TextEvents(line) == LineEvents(line)
  {
    if line != "" {
      NoLineEnd(line);
      assert line[..|line|] == line;
    }
  }

  lemma {:induction false} NoLineEnd(line: string)
    requires '\n' !in line
    ensures LineEnd(line) == |line|
  {
    if line != "" {
      assert line[0] in line;
      NoLineEnd(line[1..]);
    }
  }
}
