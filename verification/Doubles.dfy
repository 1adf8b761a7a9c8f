/**
  Rounding to double precision: the nearest multiple of a power of two with 53 significant bits, ties to even.
  The exponent is not bounded, so nothing overflows or becomes subnormal.
 */
module Doubles {

  const TWO_52: real := 4503599627370496.0
  const TWO_53: real := 9007199254740992.0

  /** The nearest integer, ties to even. */
  function Nearest(x: real): int {
    var down := x.Floor;
    var rest := x - down as real;
    if rest < 0.5 || (rest == 0.5 && down % 2 == 0) then down else down + 1
  }

  lemma NearestIsNear(x: real)
    ensures -0.5 <= Nearest(x) as real - x <= 0.5
    ensures Nearest(x) as real - x in {-0.5, 0.5} ==> Nearest(x) % 2 == 0
  {}

  lemma NearestMonotone(x: real, y: real)
    requires x <= y
    ensures Nearest(x) <= Nearest(y)
  {
    assert x.Floor <= y.Floor;
  }

  lemma NearestOfInteger(n: int)
    ensures Nearest(n as real) == n
  {
    assert (n as real).Floor == n;
  }

  // How often a value can be doubled, or halved, before it has 53 bits in front of the point.
  function Doublings(x: real): nat
    requires x > 0.0
  {
    (TWO_52 / x).Floor
  }

  lemma DoublingDescends(x: real)
    requires 0.0 < x < TWO_52
    ensures Doublings(2.0 * x) < Doublings(x)
  {
    var y := TWO_52 / x;
    assert y * x == TWO_52;
    assert y > 1.0;
    assert TWO_52 / (2.0 * x) == y / 2.0;
  }

  function Magnitude(x: real): (r: real)
    requires x > 0.0
    ensures r > 0.0
    decreases x < TWO_52, if x < TWO_52 then Doublings(x) else x.Floor
  {
    if x >= TWO_53 then 2.0 * Magnitude(x / 2.0)
    else if x < TWO_52 then
      DoublingDescends(x);
      Magnitude(2.0 * x) / 2.0
    else
      NearestIsNear(x);
      Nearest(x) as real
  }

  /** The double nearest to a real number. */
  function Double(x: real): real {
    if x == 0.0 then 0.0 else if x > 0.0 then Magnitude(x) else -Magnitude(-x)
  }

  // ---------------------------------------------------------------- how near it is

  function Abs(x: real): real { if x < 0.0 then -x else x }

  lemma {:induction false} MagnitudeIsNear(x: real)
    requires x > 0.0
    ensures Abs(Magnitude(x) - x) * TWO_53 <= x
    decreases x < TWO_52, if x < TWO_52 then Doublings(x) else x.Floor
  {
    if x >= TWO_53 {
      MagnitudeIsNear(x / 2.0);
    } else if x < TWO_52 {
      DoublingDescends(x);
      MagnitudeIsNear(2.0 * x);
    } else {
      NearestIsNear(x);
    }
  }

  /** The relative error is at most half a unit in the 53rd bit. */
  lemma DoubleIsNear(x: real)
    ensures Abs(Double(x) - x) * TWO_53 <= Abs(x)
  {
    if x > 0.0 {
      MagnitudeIsNear(x);
    } else if x < 0.0 {
      MagnitudeIsNear(-x);
    }
  }

  // ---------------------------------------------------------------- monotonicity

  lemma {:induction false} MagnitudeKeepsSide(x: real)
    requires x > 0.0
    ensures x <= TWO_52 ==> Magnitude(x) <= TWO_52
    ensures x >= TWO_52 ==> Magnitude(x) >= TWO_52
    ensures x <= TWO_53 ==> Magnitude(x) <= TWO_53
    ensures x >= TWO_53 ==> Magnitude(x) >= TWO_53
    decreases x < TWO_52, if x < TWO_52 then Doublings(x) else x.Floor
  {
    if x >= TWO_53 {
      MagnitudeKeepsSide(x / 2.0);
    } else if x < TWO_52 {
      DoublingDescends(x);
      MagnitudeKeepsSide(2.0 * x);
    } else {
      NearestOfInteger(4503599627370496);
      NearestOfInteger(9007199254740992);
      NearestMonotone(TWO_52, x);
      NearestMonotone(x, TWO_53);
      if x == TWO_52 { assert Nearest(x) == 4503599627370496; }
    }
  }

  lemma {:induction false} MagnitudeMonotone(x: real, y: real)
    requires 0.0 < x <= y
    ensures Magnitude(x) <= Magnitude(y)
    decreases x < TWO_52, if x < TWO_52 then Doublings(x) else x.Floor
  {
    if y < TWO_52 {
      DoublingDescends(x);
      MagnitudeMonotone(2.0 * x, 2.0 * y);
    } else if x >= TWO_53 {
      MagnitudeMonotone(x / 2.0, y / 2.0);
    } else if x < TWO_52 {
      MagnitudeKeepsSide(x);
      MagnitudeKeepsSide(y);
    } else if y >= TWO_53 {
      MagnitudeKeepsSide(x);
      MagnitudeKeepsSide(y);
    } else {
      NearestMonotone(x, y);
    }
  }

  lemma DoubleMonotone(x: real, y: real)
    requires x <= y
    ensures Double(x) <= Double(y)
  {
    if x > 0.0 {
      MagnitudeMonotone(x, y);
    } else if y < 0.0 {
      MagnitudeMonotone(-y, -x);
    }
  }

  // ---------------------------------------------------------------- particular values

  function Doubled(x: real, k: nat): real
    decreases k
  {
    if k == 0 then x else Doubled(2.0 * x, k - 1)
  }

  function Halved(x: real, k: nat): real
    decreases k
  {
    if k == 0 then x else Halved(x, k - 1) / 2.0
  }

  lemma {:induction false} DoubledGrows(x: real, k: nat)
    requires x > 0.0
    ensures Doubled(x, k) >= x
    ensures k > 0 ==> Doubled(x, k) >= 2.0 * x
    decreases k
  {
    if k > 0 { DoubledGrows(2.0 * x, k - 1); }
  }

  /** If the value doubled `k` times has 53 bits in front of the point, that is where it is rounded. */
  lemma {:induction false} MagnitudeAt(x: real, k: nat)
    requires x > 0.0 && TWO_52 <= Doubled(x, k) < TWO_53
    ensures Magnitude(x) == Halved(Nearest(Doubled(x, k)) as real, k)
    decreases k
  {
    if k > 0 {
      DoubledGrows(x, k);
      MagnitudeAt(2.0 * x, k - 1);
    }
  }

  function Power(k: nat): real {
    if k == 0 then 1.0 else 2.0 * Power(k - 1)
  }

  lemma {:induction false} DoubledIs(x: real, k: nat)
    ensures Doubled(x, k) == x * Power(k)
    decreases k
  {
    if k > 0 { DoubledIs(2.0 * x, k - 1); }
  }

  lemma {:induction false} HalvedIs(x: real, k: nat)
    ensures Halved(x, k) * Power(k) == x
    decreases k
  {
    if k > 0 { HalvedIs(x, k - 1); }
  }

  lemma {:induction false} PowerAdds(a: nat, b: nat)
    ensures Power(a + b) == Power(a) * Power(b)
  {
    if a > 0 { PowerAdds(a - 1, b); }
  }

  /** Where the value scaled to 53 bits is next to `n`, it is rounded to `n`. */
  lemma DoubleIs(x: real, k: nat, power: real, n: int)
    requires x > 0.0 && power == Power(k) && TWO_52 <= x * power < TWO_53
    requires -0.5 < n as real - x * power < 0.5
    ensures Double(x) * power == n as real
  {
    DoubledIs(x, k);
    HalvedIs(n as real, k);
    DoubledRounds(x, k, x * power, n);
  }

  lemma DoubledRounds(x: real, k: nat, scaled: real, n: int)
    requires x > 0.0 && scaled == Doubled(x, k) && TWO_52 <= scaled < TWO_53
    requires -0.5 < n as real - scaled < 0.5
    ensures Double(x) == Halved(n as real, k)
  {
    MagnitudeAt(x, k);
    NearestIsNear(scaled);
  }
}
