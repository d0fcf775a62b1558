// Python's round: to the nearest multiple, and to the even one halfway between two.
module Rounding {

  function Nearest(y: real): int {
    var f := y.Floor;
    var part := y - (f as real);
    if part < 0.5 || (part == 0.5 && f % 2 == 0) then f else f + 1
  }

  // To the nearest 1/scale.
  function Units(x: real, scale: nat): int {
    Nearest(x * (scale as real))
  }

  function Rounded(x: real, scale: nat): real
    requires scale > 0
  {
    (Units(x, scale) as real) / (scale as real)
  }

  lemma NearestMonotone(x: real, y: real)
    requires x <= y
    ensures Nearest(x) <= Nearest(y)
  {
    assert x.Floor <= y.Floor;
  }

  lemma NearestOdd(y: real)
    ensures Nearest(-y) == -Nearest(y)
  {
    var f := y.Floor;
    if (f as real) == y {
      assert (-y).Floor == -f;
    } else {
      assert (-y).Floor == -f - 1;
    }
  }

  // An even number attracts both of its halfway points, an odd one neither.
  lemma NearestAtLeast(y: real, k: int)
    ensures Nearest(y) >= k <==> if k % 2 == 0 then y >= (k as real) - 0.5 else y > (k as real) - 0.5
  {
    var f := y.Floor;
    assert f as real <= y < f as real + 1.0;
    if f < k - 1 {
      assert Nearest(y) <= k - 1 && y < (k as real) - 1.0;
    } else if f == k - 1 {
      assert f % 2 == 1 - k % 2;
    } else {
      assert Nearest(y) >= k && y >= k as real;
    }
  }

  lemma NearestAtMost(y: real, k: int)
    ensures Nearest(y) <= k <==> if k % 2 == 0 then y <= (k as real) + 0.5 else y < (k as real) + 0.5
  {
    var f := y.Floor;
    assert f as real <= y < f as real + 1.0;
    if f > k {
      assert Nearest(y) >= k + 1 && y >= (k as real) + 1.0;
    } else if f < k {
      assert Nearest(y) <= k && y < k as real;
    }
  }

  lemma Divided(a: int, b: int, scale: nat)
    requires scale > 0
    ensures a <= b <==> (a as real) / (scale as real) <= (b as real) / (scale as real)
  {
    var s := scale as real;
    var p, q := (a as real) / s, (b as real) / s;
    assert p * s == a as real && q * s == b as real;
    assert (q - p) * s == (b as real) - (a as real);
  }

  lemma ScaledOrder(x: real, y: real, s: real)
    requires x <= y && s > 0.0
    ensures x * s <= y * s
  {
  }

  lemma UnitsOf(x: real, scale: nat, a: real)
    requires a == x * (scale as real)
    ensures Units(x, scale) == Nearest(a)
  {
  }

  lemma UnitsMonotone(x: real, y: real, scale: nat)
    requires scale > 0 && x <= y
    ensures Units(x, scale) <= Units(y, scale)
  {
    var a, b := x * (scale as real), y * (scale as real);
    ScaledOrder(x, y, scale as real);
    NearestMonotone(a, b);
    UnitsOf(x, scale, a);
    UnitsOf(y, scale, b);
  }

  // Rounding keeps the order of numbers and of magnitudes.
  lemma RoundedMonotone(x: real, y: real, scale: nat)
    requires scale > 0 && x <= y
    ensures Rounded(x, scale) <= Rounded(y, scale)
  {
    UnitsMonotone(x, y, scale);
    Divided(Units(x, scale), Units(y, scale), scale);
  }

  lemma UnitsOdd(x: real, scale: nat)
    ensures Units(-x, scale) == -Units(x, scale)
  {
    assert (-x) * (scale as real) == -(x * (scale as real));
    NearestOdd(x * (scale as real));
  }

  lemma NegatedQuotient(n: int, s: real)
    requires s > 0.0
    ensures ((-n) as real) / s == -((n as real) / s)
  {
  }

  lemma RoundedOdd(x: real, scale: nat)
    requires scale > 0
    ensures Rounded(-x, scale) == -Rounded(x, scale)
  {
    UnitsOdd(x, scale);
    NegatedQuotient(Units(x, scale), scale as real);
  }

  // Reaching a multiple k/scale takes no more than half a unit below it, and for an odd
  // k more than that.
  lemma RoundedAtLeast(x: real, scale: nat, k: int)
    requires scale > 0
    ensures var y, half := x * (scale as real), (k as real) - 0.5;
            Rounded(x, scale) >= (k as real) / (scale as real) <==> if k % 2 == 0 then y >= half else y > half
  {
    NearestAtLeast(x * (scale as real), k);
    Divided(k, Units(x, scale), scale);
  }

  lemma RoundedAtMost(x: real, scale: nat, k: int)
    requires scale > 0
    ensures var y, half := x * (scale as real), (k as real) + 0.5;
            Rounded(x, scale) <= (k as real) / (scale as real) <==> if k % 2 == 0 then y <= half else y < half
  {
    NearestAtMost(x * (scale as real), k);
    Divided(Units(x, scale), k, scale);
  }

  lemma NearestWithin(y: real)
    ensures y - 0.5 <= Nearest(y) as real <= y + 0.5
  {
  }

  // A rounded number is a multiple of 1/scale, and half of that away at most.
  lemma RoundedWithin(x: real, scale: nat)
    requires scale > 0
    ensures Rounded(x, scale) * (scale as real) == Units(x, scale) as real
    ensures x * (scale as real) - 0.5 <= Rounded(x, scale) * (scale as real) <= x * (scale as real) + 0.5
  {
    NearestWithin(x * (scale as real));
    Undivided(Units(x, scale) as real, scale as real);
  }

  lemma Undivided(u: real, s: real)
    requires s > 0.0
    ensures (u / s) * s == u
  {
  }
}
