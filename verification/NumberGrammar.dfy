// The scan of Events accepts the numbers of RFC 8259, section 6.
module NumberGrammar {
  import opened Events

  predicate AllDigits(s: string) {
    forall i :: 0 <= i < |s| ==> IsDigit(s[i])
  }

  // The length of the digits that a text begins with.
  function DigitsOf(s: string): (n: nat)
    ensures n <= |s| && AllDigits(s[..n]) && (n < |s| ==> !IsDigit(s[n]))
  {
    if s == "" || !IsDigit(s[0]) then 0 else 1 + DigitsOf(s[1..])
  }

  // exp = e [ minus / plus ] 1*DIGIT, or nothing.
  predicate Exponential(s: string) {
    s == "" ||
    ((s[0] == 'e' || s[0] == 'E') &&
     var digits := if |s| > 1 && (s[1] == '+' || s[1] == '-') then s[2..] else s[1..];
     digits != "" && AllDigits(digits))
  }

  // frac = decimal-point 1*DIGIT, or nothing; then an exponent or nothing.
  predicate Fractional(s: string) {
    if s != "" && s[0] == '.' then
      var n := DigitsOf(s[1..]);
      n > 0 && Exponential(s[1 + n..])
    else Exponential(s)
  }

  // int = zero / ( digit1-9 *DIGIT )
  predicate Unsigned(s: string) {
    var n := DigitsOf(s);
    n > 0 && (s[0] == '0' ==> n == 1) && Fractional(s[n..])
  }

  // number = [ minus ] int [ frac ] [ exp ]
  predicate IsNumber(s: string) {
    if s != "" && s[0] == '-' then Unsigned(s[1..]) else Unsigned(s)
  }

  predicate Ends(at: Scan) {
    at.Zero? || at.Whole? || at.Fraction? || at.Power?
  }

  lemma AllDigitsTail(s: string)
    requires s != ""
    ensures AllDigits(s) <==> IsDigit(s[0]) && AllDigits(s[1..])
  {
    assert forall i :: 1 <= i < |s| ==> s[i] == s[1..][i - 1];
  }

  lemma {:induction false} FromPower(s: string)
    ensures Ends(Scanned(Power, s)) <==> AllDigits(s)
  {
    if s != "" {
      AllDigitsTail(s);
      BadStays(s[1..]);
      FromPower(s[1..]);
    }
  }

  lemma FromExponentSign(s: string)
    ensures Ends(Scanned(ExponentSign, s)) <==> s != "" && AllDigits(s)
  {
    if s != "" {
      AllDigitsTail(s);
      BadStays(s[1..]);
      FromPower(s[1..]);
    }
  }

  lemma FromExponent(s: string)
    ensures Ends(Scanned(Exponent, s)) <==>
      var digits := if s != "" && (s[0] == '+' || s[0] == '-') then s[1..] else s;
      digits != "" && AllDigits(digits)
  {
    if s != "" {
      AllDigitsTail(s);
      BadStays(s[1..]);
      FromPower(s[1..]);
      FromExponentSign(s[1..]);
    }
  }

  // What may follow a complete mantissa.
  lemma FromMark(s: string)
    requires s != "" && (s[0] == 'e' || s[0] == 'E')
    ensures Ends(Scanned(Exponent, s[1..])) <==> Exponential(s)
  {
    FromExponent(s[1..]);
    if |s| > 1 {
      assert s[1..][1..] == s[2..];
    }
  }

  lemma {:induction false} FromFraction(s: string)
    ensures Ends(Scanned(Fraction, s)) <==> Exponential(s[DigitsOf(s)..])
  {
    if s != "" {
      BadStays(s[1..]);
      if IsDigit(s[0]) {
        FromFraction(s[1..]);
        assert s[DigitsOf(s)..] == s[1..][DigitsOf(s[1..])..];
      } else if s[0] == 'e' || s[0] == 'E' {
        FromMark(s);
      }
    }
  }

  lemma FromPoint(s: string)
    ensures Ends(Scanned(Point, s)) <==> DigitsOf(s) > 0 && Exponential(s[DigitsOf(s)..])
  {
    if s != "" {
      BadStays(s[1..]);
      if IsDigit(s[0]) {
        FromFraction(s[1..]);
        assert s[DigitsOf(s)..] == s[1..][DigitsOf(s[1..])..];
      }
    }
  }

  lemma FromDot(s: string)
    requires s != "" && s[0] == '.'
    ensures Ends(Scanned(Point, s[1..])) <==> Fractional(s)
  {
    FromPoint(s[1..]);
    assert s[1..][DigitsOf(s[1..])..] == s[1 + DigitsOf(s[1..])..];
  }

  lemma FromZero(s: string)
    ensures Ends(Scanned(Zero, s)) <==> DigitsOf(s) == 0 && Fractional(s)
  {
    if s != "" {
      BadStays(s[1..]);
      if s[0] == '.' {
        FromDot(s);
      } else if s[0] == 'e' || s[0] == 'E' {
        FromMark(s);
      }
    }
  }

  lemma {:induction false} FromWhole(s: string)
    ensures Ends(Scanned(Whole, s)) <==> Fractional(s[DigitsOf(s)..])
  {
    if s != "" {
      BadStays(s[1..]);
      if IsDigit(s[0]) {
        FromWhole(s[1..]);
        assert s[DigitsOf(s)..] == s[1..][DigitsOf(s[1..])..];
      } else if s[0] == '.' {
        FromDot(s);
      } else if s[0] == 'e' || s[0] == 'E' {
        FromMark(s);
      }
    }
  }

  lemma FromDigits(at: Scan, s: string)
    requires at == Begin || at == Minus
    requires s == "" || s[0] != '-'
    ensures Ends(Scanned(at, s)) <==> Unsigned(s)
  {
    if s != "" {
      BadStays(s[1..]);
      if IsDigit(s[0]) {
        FromZero(s[1..]);
        FromWhole(s[1..]);
        assert s[DigitsOf(s)..] == s[1..][DigitsOf(s[1..])..];
      }
    }
  }

  // The scan ends well on exactly the numbers of the grammar.
  lemma NumberTextIff(s: string)
    ensures IsNumberText(s) <==> IsNumber(s)
  {
    if s != "" && s[0] == '-' {
      if |s| > 1 && s[1] == '-' {
        BadStays(s[2..]);
        assert s[1..][1..] == s[2..] && Scanned(Minus, s[1..]) == Scanned(Bad, s[2..]);
      } else {
        FromDigits(Minus, s[1..]);
      }
    } else {
      FromDigits(Begin, s);
    }
  }
}
