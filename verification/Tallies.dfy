// Counting over a list of concurrent processes: how much one process contributes
// is a function of its program counter.
module Tallies {

  function Total<P>(f: P -> nat, ps: seq<P>): nat {
    if ps == [] then 0 else f(ps[0]) + Total(f, ps[1..])
  }

  lemma {:induction false} TotalAppend<P>(f: P -> nat, ps: seq<P>, qs: seq<P>)
    ensures Total(f, ps + qs) == Total(f, ps) + Total(f, qs)
  {
    if ps == [] {
      assert ps + qs == qs;
    } else {
      TotalAppend(f, ps[1..], qs);
      assert (ps + qs)[1..] == ps[1..] + qs;
    }
  }

  lemma TotalSnoc<P>(f: P -> nat, ps: seq<P>, p: P)
    ensures Total(f, ps + [p]) == Total(f, ps) + f(p)
  {
    TotalAppend(f, ps, [p]);
    assert Total(f, [p][1..]) == 0;
  }

  // Replacing one process trades its contribution for that of its successor.
  lemma {:induction false} TotalUpdate<P>(f: P -> nat, ps: seq<P>, i: nat, p: P)
    requires i < |ps|
    ensures Total(f, ps[i := p]) + f(ps[i]) == Total(f, ps) + f(p)
  {
    if i == 0 {
      assert ps[i := p][1..] == ps[1..];
    } else {
      TotalUpdate(f, ps[1..], i - 1, p);
      assert ps[i := p][1..] == ps[1..][i - 1 := p];
    }
  }

  // If every process contributes no more to f than to g, so do all together.
  lemma {:induction false} TotalBelow<P>(f: P -> nat, g: P -> nat, ps: seq<P>)
    requires forall p :: p in ps ==> f(p) <= g(p)
    ensures Total(f, ps) <= Total(g, ps)
  {
    if ps != [] {
      assert ps[0] in ps;
      TotalBelow(f, g, ps[1..]);
    }
  }
}
