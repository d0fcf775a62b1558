// The buffer file: one JSON object per line (edge-agent/buffer.go, read and write;
// the event type of edge-agent/main.go).
module JsonLines {
  import opened Wrappers
  import opened Events
  import opened Utf8
  import opened Json

  // ----- an event as an object ------------------------------------------------

  function ReadingJson(r: Reading): Value {
    Obj(Member("machine_id", Str(r.machineId),
        Member("ts", Num(r.ts),
        Member("vibration", Num(r.vibration),
        Member("temperature", Num(r.temperature),
        Member("current", Num(r.current), End))))))
  }

  // `reason` is left out when it is empty.
  function EventJson(ev: Event): Value {
    var tail := Member("reading", ReadingJson(ev.reading), Member("agent_ts", Num(ev.agentTs), End));
    Obj(Member("machine_id", Str(ev.machineId),
        Member("ts", Num(ev.ts),
        Member("score", Num(ev.score),
        if ev.reason == "" then tail else Member("reason", Str(ev.reason), tail)))))
  }

  // The last member of that name.
  function Lookup(ms: Members, key: string): Option<Value> {
    match ms
    case End => None
    case Member(k, v, rest) =>
      var later := Lookup(rest, key);
      if later.Some? then later else if k == key then Some(v) else None
  }

  // A missing member leaves the zero value; one of the wrong type is an error.
  function GetNumber(ms: Members, key: string): Option<Number> {
    match Lookup(ms, key)
    case None => Some(ZERO)
    case Some(Num(n)) => Some(n)
    case Some(_) => None
  }

  function GetString(ms: Members, key: string): Option<string> {
    match Lookup(ms, key)
    case None => Some("")
    case Some(Str(s)) => Some(s)
    case Some(_) => None
  }

  const ZERO_READING := Reading("", ZERO, ZERO, ZERO, ZERO)

  function GetReading(ms: Members, key: string): Option<Reading> {
    match Lookup(ms, key)
    case None => Some(ZERO_READING)
    case Some(Obj(r)) =>
      var id, ts, v := GetString(r, "machine_id"), GetNumber(r, "ts"), GetNumber(r, "vibration");
      var t, c := GetNumber(r, "temperature"), GetNumber(r, "current");
      if id.Some? && ts.Some? && v.Some? && t.Some? && c.Some?
      then Some(Reading(id.value, ts.value, v.value, t.value, c.value)) else None
    case Some(_) => None
  }

  function JsonEvent(v: Value): Option<Event> {
    if !v.Obj? then None
    else
      var ms := v.members;
      var id, ts, score := GetString(ms, "machine_id"), GetNumber(ms, "ts"), GetNumber(ms, "score");
      var reason, reading, agentTs := GetString(ms, "reason"), GetReading(ms, "reading"), GetNumber(ms, "agent_ts");
      if id.Some? && ts.Some? && score.Some? && reason.Some? && reading.Some? && agentTs.Some?
      then Some(Event(id.value, ts.value, score.value, reason.value, reading.value, agentTs.value)) else None
  }

  // ----- lines ------------------------------------------------------------------

  function Line(ev: Event): string {
    Print(EventJson(ev))
  }

  function ParseLine(line: string): Option<Event> {
    var p := ParseValue(line);
    if p.Got? && p.rest == "" then JsonEvent(p.value) else None
  }

  // The text that write leaves.
  function Serialize(evs: seq<Event>): string {
    if evs == [] then "" else Line(evs[0]) + "\n" + Serialize(evs[1..])
  }

  // The scanner's buffer, which has to hold a line and its line break.
  const SCANNER_LIMIT := 1024 * 1024

  predicate Fits(ev: Event) {
    Bytes(Line(ev)) + 1 <= SCANNER_LIMIT
  }

  predicate AllFit(evs: seq<Event>) {
    forall i :: 0 <= i < |evs| ==> Fits(evs[i])
  }

  function LineEnd(text: string): (n: nat)
    ensures n <= |text| && OneLine(text[..n])
    ensures n < |text| ==> text[n] == '\n'
  {
    if text == "" || text[0] == '\n' then 0 else 1 + LineEnd(text[1..])
  }

  function AfterLine(text: string): (rest: string)
    requires text != ""
    ensures |rest| < |text|
  {
    var n := LineEnd(text);
    if n < |text| then text[n + 1..] else ""
  }

  function DropReturn(line: string): string {
    if line != "" && line[|line| - 1] == '\r' then line[..|line| - 1] else line
  }

  datatype ReadError = LineTooLong | OpenFailed

  // Empty lines and lines that are not events are skipped.
  function LineEvents(line: string): seq<Event> {
    var ev := if DropReturn(line) == "" then None else ParseLine(DropReturn(line));
    if ev.Some? then [ev.value] else []
  }

  function ReadText(text: string): Result<seq<Event>, ReadError>
    decreases |text|
  {
    if text == "" then Ok([])
    else
      var line := text[..LineEnd(text)];
      if Bytes(line) + 1 > SCANNER_LIMIT then Err(LineTooLong)
      else
        var more := ReadText(AfterLine(text));
        if more.Err? then more else Ok(LineEvents(line) + more.value)
  }

  // The events of a text, whatever the length of its lines.
  function TextEvents(text: string): seq<Event>
    decreases |text|
  {
    if text == "" then [] else LineEvents(text[..LineEnd(text)]) + TextEvents(AfterLine(text))
  }

  // Every line, event or not, fits the scanner's buffer.
  predicate TextFits(text: string)
    decreases |text|
  {
    text == "" || (Bytes(text[..LineEnd(text)]) + 1 <= SCANNER_LIMIT && TextFits(AfterLine(text)))
  }

  // ----- round trip ---------------------------------------------------------------

  // A name that does not occur again.
  lemma LookupFresh(k: string, v: Value, rest: Members)
    requires Lookup(rest, k) == None
    ensures forall key :: Lookup(Member(k, v, rest), key) == if key == k then Some(v) else Lookup(rest, key)
  {
  }

  lemma ReadingRoundTrip(r: Reading, ms: Members, key: string)
    requires Lookup(ms, key) == Some(ReadingJson(r))
    ensures GetReading(ms, key) == Some(r)
  {
    var m5 := Member("current", Num(r.current), End);
    var m4 := Member("temperature", Num(r.temperature), m5);
    var m3 := Member("vibration", Num(r.vibration), m4);
    var m2 := Member("ts", Num(r.ts), m3);
    LookupFresh("current", Num(r.current), End);
    LookupFresh("temperature", Num(r.temperature), m5);
    LookupFresh("vibration", Num(r.vibration), m4);
    LookupFresh("ts", Num(r.ts), m3);
    LookupFresh("machine_id", Str(r.machineId), m2);
  }

  lemma EventRoundTrip(ev: Event)
    ensures JsonEvent(EventJson(ev)) == Some(ev)
  {
    var m6 := Member("agent_ts", Num(ev.agentTs), End);
    var m5 := Member("reading", ReadingJson(ev.reading), m6);
    var m4 := if ev.reason == "" then m5 else Member("reason", Str(ev.reason), m5);
    var m3 := Member("score", Num(ev.score), m4);
    var m2 := Member("ts", Num(ev.ts), m3);
    var m1 := Member("machine_id", Str(ev.machineId), m2);
    LookupFresh("agent_ts", Num(ev.agentTs), End);
    LookupFresh("reading", ReadingJson(ev.reading), m6);
    LookupFresh("reason", Str(ev.reason), m5);
    LookupFresh("score", Num(ev.score), m4);
    LookupFresh("ts", Num(ev.ts), m3);
    LookupFresh("machine_id", Str(ev.machineId), m2);
    ReadingRoundTrip(ev.reading, m1, "reading");
  }

  lemma LineRoundTrip(ev: Event)
    ensures ParseLine(Line(ev)) == Some(ev)
    ensures OneLine(Line(ev))
  {
    ValueRoundTrip(EventJson(ev), "");
    assert Print(EventJson(ev)) + "" == Print(EventJson(ev));
    EventRoundTrip(ev);
    PrintOneLine(EventJson(ev));
  }

  // The first line break of a text is where it was put.
  lemma {:induction false} LineEndAt(line: string, rest: string)
    requires OneLine(line)
    ensures LineEnd(line + "\n" + rest) == |line|
  {
    if line == "" {
      assert (line + "\n" + rest)[0] == '\n';
    } else {
      LineEndAt(line[1..], rest);
      assert (line + "\n" + rest)[1..] == line[1..] + "\n" + rest;
    }
  }

  lemma LineEvent(ev: Event)
    ensures LineEvents(Line(ev)) == [ev]
  {
    LineRoundTrip(ev);
    LineClosed(ev);
  }

  lemma {:induction false} MembersClosed(ms: Members)
    ensures PrintMembers(ms) != "" && PrintMembers(ms)[|PrintMembers(ms)| - 1] == '}'
  {
    match ms
    case End =>
    case Member(k, v, rest) =>
      if rest.Member? {
        MembersClosed(rest);
      }
  }

  // A line ends in a brace, so the scanner has no carriage return to drop.
  lemma LineClosed(ev: Event)
    ensures Line(ev) != "" && Line(ev)[|Line(ev)| - 1] == '}'
  {
    ObjectClosed(EventJson(ev));
  }

  lemma ObjectClosed(v: Value)
    requires v.Obj?
    ensures Print(v) != "" && Print(v)[|Print(v)| - 1] == '}'
  {
    MembersClosed(v.members);
  }

  lemma FirstLine(ev: Event, rest: string)
    ensures var text := Line(ev) + "\n" + rest;
            TextEvents(text) == [ev] + TextEvents(rest) && (TextFits(text) <==> Fits(ev) && TextFits(rest))
  {
    var text := Line(ev) + "\n" + rest;
    LineRoundTrip(ev);
    LineEndAt(Line(ev), rest);
    LineEvent(ev);
    assert text[..|Line(ev)|] == Line(ev);
    assert text[|Line(ev)| + 1..] == rest;
  }

  // The events of the text that write left are the ones it was given, and the text can
  // be read exactly when every line fits.
  lemma {:induction false} TextOf(evs: seq<Event>)
    ensures TextEvents(Serialize(evs)) == evs && (TextFits(Serialize(evs)) <==> AllFit(evs))
  {
    if evs != [] {
      var rest := Serialize(evs[1..]);
      TextOf(evs[1..]);
      FitHead(evs);
      OneMoreLine(evs, Serialize(evs), rest);
    }
  }

  lemma OneMoreLine(evs: seq<Event>, text: string, rest: string)
    requires evs != [] && text == Line(evs[0]) + "\n" + rest && TextEvents(rest) == evs[1..]
    ensures TextEvents(text) == evs && (TextFits(text) <==> Fits(evs[0]) && TextFits(rest))
  {
    FirstLine(evs[0], rest);
    assert evs == [evs[0]] + evs[1..];
  }

  lemma FitHead(evs: seq<Event>)
    requires evs != []
    ensures AllFit(evs) <==> Fits(evs[0]) && AllFit(evs[1..])
  {
    assert forall i :: 1 <= i < |evs| ==> evs[i] == evs[1..][i - 1];
  }

  // The scanner loses everything to one line that does not fit.
  lemma {:induction false} ReadTextIs(text: string)
    ensures ReadText(text) == if TextFits(text) then Ok(TextEvents(text)) else Err(LineTooLong)
    decreases |text|
  {
    if text != "" {
      ReadTextIs(AfterLine(text));
    }
  }

  // What write left reads back as the same list, exactly when every line fits the
  // scanner's buffer; write itself does not check.
  lemma ReadBack(evs: seq<Event>)
    ensures ReadText(Serialize(evs)) == if AllFit(evs) then Ok(evs) else Err(LineTooLong)
  {
    TextOf(evs);
    ReadTextIs(Serialize(evs));
  }

  lemma {:induction false} EscapeGrows(s: string)
    ensures |Escape(s)| >= |s|
  {
    if s != "" {
      EscapeGrows(s[1..]);
    }
  }

  // Such events exist: a long enough machine id is one.
  lemma LongIdDoesNotFit(ev: Event)
    requires |ev.machineId| >= SCANNER_LIMIT
    ensures !Fits(ev)
  {
    BytesGrow(Line(ev));
    EscapeGrows(ev.machineId);
    FirstMemberShorter(EventJson(ev));
  }

  lemma FirstMemberShorter(v: Value)
    requires v.Obj? && v.members.Member?
    ensures |Print(v)| > |Print(v.members.value)|
  {
  }
}
