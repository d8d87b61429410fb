/** The decoder's rounding against its definition by IEEE 754: no float is nearer to
    the number, ties go to even significands, and only numbers beyond the last float
    overflow. */
module Rounding {
  import opened Sql
  import opened Binary64

  function Distance(x: real, y: real): real {
    if x < y then y - x else x - y
  }

  lemma DoubledDifference(x: real, y: real, k: nat)
    ensures Doubled(x - y, k) == Doubled(x, k) - Doubled(y, k)
  {
    DoubledSum(x - y, y, k);
  }

  /** `near` is no farther from y than `far`, and strictly nearer or the same unless
      the tie is `even`. */
  predicate Nearer(y: real, near: real, far: real, even: bool) {
    && Distance(y, near) <= Distance(y, far)
    && (Distance(y, near) == Distance(y, far) ==> near == far || even)
  }

  /** Scaling keeps who is nearer. */
  lemma StaysNearer(y: real, near: real, far: real, even: bool, k: nat)
    requires Nearer(y, near, far, even)
    ensures Nearer(Doubled(y, k), Doubled(near, k), Doubled(far, k), even)
  {
    DoubledOrder(y, near, k);
    DoubledOrder(y, far, k);
    DoubledDifference(y, near, k);
    DoubledDifference(near, y, k);
    DoubledDifference(y, far, k);
    DoubledDifference(far, y, k);
    DoubledOrder(Distance(y, near), Distance(y, far), k);
  }

  lemma NearestInteger(y: real, n: int)
    requires y >= 0.0
    ensures Nearer(y, Nearest(y) as real, n as real, Nearest(y) % 2 == 0)
  {
    var q := y.Floor;
    if n <= q {
      assert n as real <= q as real <= y;
    } else {
      assert n as real >= (q + 1) as real > y;
    }
  }

  /** A float with a smaller unit is below every significand of 53 bits. */
  lemma SmallerUnit(q: nat, s: nat, scale: nat)
    requires q < EXACT && s < scale
    ensures Doubled(q as real, s) < Doubled((EXACT / 2) as real, scale)
  {
    var half := (EXACT / 2) as real;
    DoubledTwice(half, scale - s, s);
    DoubledGrows(2.0 * half, scale - s - 1);
    DoubledOrder(q as real, Doubled(half, scale - s), s);
  }

  /** At the scale where rounding stops, no float is nearer than the result. */
  lemma StopsNearest(y: real, scale: nat, q: nat, s: nat)
    requires 0.0 <= y && (scale == 0 || y >= (EXACT / 2) as real) && q < EXACT
    ensures Nearer(Doubled(y, scale), Doubled(Nearest(y) as real, scale), Doubled(q as real, s), Nearest(y) % 2 == 0)
  {
    if s >= scale {
      DoublingKeepsWhole(q, s - scale);
      var m := DoubledWhole(q, s - scale);
      DoubledTwice(q as real, s - scale, scale);
      NearestInteger(y, m);
      StaysNearer(y, Nearest(y) as real, m as real, Nearest(y) % 2 == 0, scale);
    } else {
      var half := EXACT / 2;
      SmallerUnit(q, s, scale);
      DoubledOrder(y, half as real, scale);
      NearestInteger(y, half);
      StaysNearer(y, Nearest(y) as real, half as real, Nearest(y) % 2 == 0, scale);
    }
  }

  lemma {:induction false} RoundIsNearest(negative: bool, y: real, scale: nat, q: nat, s: nat)
    requires 0.0 <= y && (scale == 0 || y >= (EXACT / 2) as real) && q < EXACT
    requires Round(negative, y, scale).Some?
    ensures var f := Round(negative, y, scale).value;
            Nearer(Doubled(y, scale), Units(f), Doubled(q as real, s), f.significand % 2 == 0)
    decreases TOP + 1 - scale
  {
    if y >= EXACT as real {
      RoundIsNearest(negative, y / 2.0, scale + 1, q, s);
    } else {
      StopsNearest(y, scale, q, s);
      assert 2.0 * ((EXACT / 2) as real) == EXACT as real;
    }
  }

  /** No float is nearer to a number than the one it is rounded to, and of two that
      are equally near it is the one with an even significand. */
  lemma ToFloatIsNearest(negative: bool, magnitude: real, other: Float64)
    requires magnitude >= 0.0 && ToFloat(negative, magnitude).Some? && other.significand < EXACT
    ensures var f := ToFloat(negative, magnitude).value;
            Nearer(Doubled(magnitude, UNIT), Units(f), Units(other), f.significand % 2 == 0)
  {
    DoubledGrows(magnitude, UNIT);
    RoundIsNearest(negative, Doubled(magnitude, UNIT), 0, other.significand, other.scale);
  }

  /** Half a unit beyond the last float. */
  const LIMIT: real := EXACT as real - 0.5

  lemma BelowLimit(y: real, scale: nat)
    requires y < EXACT as real && scale < TOP
    ensures Doubled(y, scale) < Doubled(LIMIT, TOP)
  {
    DoubledTwice(LIMIT, TOP - scale, scale);
    DoubledGrows(2.0 * LIMIT, TOP - scale - 1);
    DoubledOrder(y, Doubled(LIMIT, TOP - scale), scale);
  }

  lemma NearestAtLimit(y: real)
    requires 0.0 <= y < EXACT as real
    ensures Nearest(y) < EXACT <==> y < LIMIT
  {
    var q := y.Floor;
    assert q <= EXACT - 1;
    if q == EXACT - 1 {
      assert q % 2 == 1;
    } else {
      assert q as real <= (EXACT - 2) as real;
    }
  }

  lemma {:induction false} RoundOverflows(negative: bool, y: real, scale: nat)
    requires 0.0 <= y && scale <= TOP
    ensures Round(negative, y, scale).None? <==> Doubled(y, scale) >= Doubled(LIMIT, TOP)
    decreases TOP - scale
  {
    if scale == TOP {
      DoubledOrder(y, LIMIT, TOP);
      if y < EXACT as real {
        NearestAtLimit(y);
      }
    } else if y >= EXACT as real {
      RoundOverflows(negative, y / 2.0, scale + 1);
    } else {
      BelowLimit(y, scale);
    }
  }

  /** Decoding fails exactly from half a unit beyond the last float on. */
  lemma ToFloatOverflows(negative: bool, magnitude: real)
    requires magnitude >= 0.0
    ensures ToFloat(negative, magnitude).None? <==> Doubled(magnitude, UNIT) >= Doubled(LIMIT, TOP)
  {
    DoubledGrows(magnitude, UNIT);
    RoundOverflows(negative, Doubled(magnitude, UNIT), 0);
  }
}
