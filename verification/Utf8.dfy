// Sizes of texts in UTF-8 (RFC 3629, section 3).
module Utf8 {

  function Width(c: char): nat {
    if c as int < 0x80 then 1 else if c as int < 0x800 then 2 else if c as int < 0x10000 then 3 else 4
  }

  // Longer sequences begin at U+0080, U+0800 and U+10000.
  lemma WidthSteps()
    ensures Width('\U{7f}') == 1 && Width('\U{80}') == Width('\U{7ff}') == 2
    ensures Width('\U{800}') == Width('\U{ffff}') == 3 && Width('\U{10000}') == 4
    ensures forall c, d :: c as int <= d as int ==> 1 <= Width(c) <= Width(d) <= 4
  {
  }

  function Bytes(s: string): nat {
    if s == "" then 0 else Width(s[0]) + Bytes(s[1..])
  }

  lemma {:induction false} BytesGrow(s: string)
    ensures Bytes(s) >= |s|
  {
    if s != "" {
      BytesGrow(s[1..]);
    }
  }

  lemma {:induction false} BytesAppend(s: string, t: string)
    ensures Bytes(s + t) == Bytes(s) + Bytes(t)
  {
    if s == "" {
      assert s + t == t;
    } else {
      BytesAppend(s[1..], t);
      assert (s + t)[1..] == s[1..] + t;
    }
  }
}
