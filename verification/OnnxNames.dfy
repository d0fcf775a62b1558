// The names that the exporter gives to tensors (ml/export_onnx.py), and why no two of
// them are spelled alike.
module OnnxNames {

  datatype Name =
    | X | Mean | Scale | Threshold | FeatureAxis
    | Centered | Z | Residual | Squared | Scores | Hit | Label
    | W(i: nat) | B(i: nat) | MM(i: nat) | Lin(i: nat) | Act(i: nat)

  function Digit(n: nat): char
    requires n < 10
  {
    "0123456789"[n]
  }

  function Digits(n: nat): (s: string)
    ensures s != ""
  {
    if n < 10 then [Digit(n)] else Digits(n / 10) + [Digit(n % 10)]
  }

  function Spell(n: Name): string {
    match n
    case X => "X"
    case Mean => "mean"
    case Scale => "scale"
    case Threshold => "threshold"
    case FeatureAxis => "feature_axis"
    case Centered => "centered"
    case Z => "z"
    case Residual => "residual"
    case Squared => "squared"
    case Scores => "scores"
    case Hit => "hit"
    case Label => "label"
    case W(i) => "w" + Digits(i)
    case B(i) => "b" + Digits(i)
    case MM(i) => "mm" + Digits(i)
    case Lin(i) => "lin" + Digits(i)
    case Act(i) => "act" + Digits(i)
  }

  lemma Spelled()
    ensures Spell(W(0)) == "w0" && Spell(B(12)) == "b12" && Spell(MM(3)) == "mm3"
    ensures Spell(Lin(7)) == "lin7" && Spell(Act(10)) == "act10"
  {
    assert Digits(12) == Digits(1) + [Digit(2)] && Digits(10) == Digits(1) + [Digit(0)];
  }

  // ----- reading a name back ------------------------------------------------------

  function DigitValue(c: char): nat {
    if '0' <= c <= '9' then c as int - '0' as int else 0
  }

  function Value(s: string): nat {
    if s == "" then 0 else 10 * Value(s[..|s| - 1]) + DigitValue(s[|s| - 1])
  }

  lemma DigitBack(n: nat)
    requires n < 10
    ensures DigitValue(Digit(n)) == n
  {
  }

  lemma {:induction false} DigitsBack(n: nat)
    ensures Value(Digits(n)) == n
  {
    DigitBack(n % 10);
    if n < 10 {
      assert [Digit(n)][..0] == "";
    } else {
      DigitsBack(n / 10);
      var s := Digits(n);
      assert s[..|s| - 1] == Digits(n / 10);
    }
  }

  // The digits of the layer number start after the letters.
  function Index(s: string, letters: nat): nat {
    if letters <= |s| then Value(s[letters..]) else 0
  }

  function Unspell(s: string): Name {
    if |s| < 2 then if s == "X" then X else Z
    else if s[0] == 'w' then W(Index(s, 1))
    else if s[0] == 'b' then B(Index(s, 1))
    else if s[0] == 'm' then if s[1] == 'm' then MM(Index(s, 2)) else Mean
    else if s[0] == 'l' then if s[1] == 'i' then Lin(Index(s, 3)) else Label
    else if s[0] == 'a' then Act(Index(s, 3))
    else if s[0] == 's' then if s[1] == 'q' then Squared else if |s| == 5 then Scale else Scores
    else if s[0] == 't' then Threshold
    else if s[0] == 'f' then FeatureAxis
    else if s[0] == 'c' then Centered
    else if s[0] == 'r' then Residual
    else Hit
  }

  lemma IndexBack(letters: string, i: nat)
    ensures Index(letters + Digits(i), |letters|) == i
  {
    DigitsBack(i);
    assert (letters + Digits(i))[|letters|..] == Digits(i);
  }

  predicate Numbered(n: Name) {
    n.W? || n.B? || n.MM? || n.Lin? || n.Act?
  }

  lemma FixedBack(n: Name)
    requires !Numbered(n)
    ensures Unspell(Spell(n)) == n
  {
  }

  // The first letters tell the kind of name.
  lemma KindBack(letters: string, d: string)
    requires d != ""
    ensures letters == "w" ==> Unspell(letters + d) == W(Index(letters + d, 1))
    ensures letters == "b" ==> Unspell(letters + d) == B(Index(letters + d, 1))
    ensures letters == "mm" ==> Unspell(letters + d) == MM(Index(letters + d, 2))
    ensures letters == "lin" ==> Unspell(letters + d) == Lin(Index(letters + d, 3))
    ensures letters == "act" ==> Unspell(letters + d) == Act(Index(letters + d, 3))
  {
    var s := letters + d;
    assert forall k :: 0 <= k < |letters| ==> s[k] == letters[k];
  }

  lemma NumberedBack(n: Name)
    requires Numbered(n)
    ensures Unspell(Spell(n)) == n
  {
    var d := Digits(n.i);
    match n
    case W(i) => KindBack("w", d); IndexBack("w", i);
    case B(i) => KindBack("b", d); IndexBack("b", i);
    case MM(i) => KindBack("mm", d); IndexBack("mm", i);
    case Lin(i) => KindBack("lin", d); IndexBack("lin", i);
    case Act(i) => KindBack("act", d); IndexBack("act", i);
  }

  lemma SpellBack(n: Name)
    ensures Unspell(Spell(n)) == n
  {
    if Numbered(n) {
      NumberedBack(n);
    } else {
      FixedBack(n);
    }
  }

  // Each spelling stands for one name, however many layers there are.
  lemma SpellInjective(a: Name, b: Name)
    requires Spell(a) == Spell(b)
    ensures a == b
  {
    SpellBack(a);
    SpellBack(b);
  }
}
