// The anomaly event that leaves the node (edge-agent/main.go, coap-receiver/handler.go).
module Events {

  // Characters of a JSON number.
  predicate IsNumberChar(c: char) {
    '0' <= c <= '9' || c == '-' || c == '+' || c == '.' || c == 'e' || c == 'E'
  }

  // How far into a number a text has come; the grammar is that of RFC 8259, section 6.
  datatype Scan = Begin | Minus | Zero | Whole | Point | Fraction | Exponent | ExponentSign | Power | Bad

  predicate IsDigit(c: char) {
    '0' <= c <= '9'
  }

  function After(at: Scan, c: char): Scan {
    match at
    case Begin => if c == '-' then Minus else if c == '0' then Zero else if IsDigit(c) then Whole else Bad
    case Minus => if c == '0' then Zero else if IsDigit(c) then Whole else Bad
    case Zero => if c == '.' then Point else if c == 'e' || c == 'E' then Exponent else Bad
    case Whole =>
      if IsDigit(c) then Whole else if c == '.' then Point else if c == 'e' || c == 'E' then Exponent else Bad
    case Point => if IsDigit(c) then Fraction else Bad
    case Fraction => if IsDigit(c) then Fraction else if c == 'e' || c == 'E' then Exponent else Bad
    case Exponent => if c == '+' || c == '-' then ExponentSign else if IsDigit(c) then Power else Bad
    case ExponentSign => if IsDigit(c) then Power else Bad
    case Power => if IsDigit(c) then Power else Bad
    case Bad => Bad
  }

  // Where the scan is at the end of the text.
  function Scanned(at: Scan, s: string): Scan
    decreases |s|
  {
    if s == "" then at else Scanned(After(at, s[0]), s[1..])
  }

  predicate IsNumberText(s: string) {
    var at := Scanned(Begin, s);
    at.Zero? || at.Whole? || at.Fraction? || at.Power?
  }

  lemma {:induction false} BadStays(s: string)
    ensures Scanned(Bad, s) == Bad
    decreases |s|
  {
    if s != "" {
      BadStays(s[1..]);
    }
  }

  lemma {:induction false} NumberChars(at: Scan, s: string)
    requires !Scanned(at, s).Bad?
    ensures forall i :: 0 <= i < |s| ==> IsNumberChar(s[i])
    decreases |s|
  {
    if s != "" {
      if !IsNumberChar(s[0]) {
        BadStays(s[1..]);
      }
      NumberChars(After(at, s[0]), s[1..]);
    }
  }

  // A finite float64, identified with the decimal text it was read from or is written as.
  type Number = s: string | IsNumberText(s) witness "0"

  const ZERO: Number := "0"

  datatype Reading = Reading(
    machineId: string, ts: Number, vibration: Number, temperature: Number, current: Number)

  datatype Event = Event(
    machineId: string, ts: Number, score: Number, reason: string, reading: Reading, agentTs: Number)
}
