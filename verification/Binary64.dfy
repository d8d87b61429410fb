/** Decimal literals and the IEEE 754 binary64 numbers that Go's decoder rounds them
    to: to nearest, ties to even, with subnormals, and an error on overflow. */
module Binary64 {
  import opened Sql

  // --------------------------------------------------------------------- scaling

  /** Doubled `k` times. */
  function Doubled(y: real, k: nat): real
    decreases k
  {
    if k == 0 then y else Doubled(2.0 * y, k - 1)
  }

  /** Times ten to the power `e`. */
  function Tens(x: real, e: int): real
    decreases if e >= 0 then e else -e
  {
    if e == 0 then x else if e > 0 then Tens(10.0 * x, e - 1) else Tens(x / 10.0, e + 1)
  }

  lemma {:induction false} DoubledSum(x: real, p: real, k: nat)
    ensures Doubled(x + p, k) == Doubled(x, k) + Doubled(p, k)
    decreases k
  {
    if k > 0 {
      DoubledSum(2.0 * x, 2.0 * p, k - 1);
    }
  }

  lemma {:induction false} DoubledGrows(x: real, k: nat)
    requires x >= 0.0
    ensures Doubled(x, k) >= x
    decreases k
  {
    if k > 0 {
      DoubledGrows(2.0 * x, k - 1);
    }
  }

  lemma DoubledOrder(x: real, y: real, k: nat)
    ensures x < y <==> Doubled(x, k) < Doubled(y, k)
    ensures x == y <==> Doubled(x, k) == Doubled(y, k)
  {
    DoubledSum(x, y - x, k);
    DoubledSum(y, x - y, k);
    if x < y {
      DoubledGrows(y - x, k);
    } else if y < x {
      DoubledGrows(x - y, k);
    }
  }

  lemma {:induction false} DoubledTwice(x: real, a: nat, b: nat)
    ensures Doubled(Doubled(x, a), b) == Doubled(x, a + b)
    decreases a
  {
    if a > 0 {
      DoubledTwice(2.0 * x, a - 1, b);
    }
  }

  /** The doubling may also come last. */
  lemma DoubledLast(x: real, k: nat)
    requires k > 0
    ensures Doubled(x, k) == 2.0 * Doubled(x, k - 1)
  {
    DoubledTwice(x, k - 1, 1);
    assert Doubled(Doubled(x, k - 1), 1) == 2.0 * Doubled(x, k - 1);
  }

  lemma {:induction false} TensSum(x: real, p: real, e: int)
    ensures Tens(x + p, e) == Tens(x, e) + Tens(p, e)
    decreases if e >= 0 then e else -e
  {
    if e > 0 {
      TensSum(10.0 * x, 10.0 * p, e - 1);
    } else if e < 0 {
      TensSum(x / 10.0, p / 10.0, e + 1);
    }
  }

  lemma {:induction false} TensSign(x: real, e: int)
    requires x >= 0.0
    ensures Tens(x, e) >= 0.0 && (Tens(x, e) == 0.0 <==> x == 0.0)
    decreases if e >= 0 then e else -e
  {
    if e > 0 {
      TensSign(10.0 * x, e - 1);
    } else if e < 0 {
      TensSign(x / 10.0, e + 1);
    }
  }

  lemma TensShift(x: real, e: int)
    ensures Tens(10.0 * x, e - 1) == Tens(x, e)
  {
  }

  // ----------------------------------------------------------------- small numbers

  function Tenth(j: nat): (p: real)
    ensures p > 0.0
  {
    if j == 0 then 1.0 else Tenth(j - 1) / 10.0
  }

  lemma Shrinks(x: real, p: real)
    requires x >= 1.0 && p > 0.0
    ensures (x + 1.0) * (p / 10.0) <= x * p
  {
    assert (x + 1.0) * (p / 10.0) == x * p / 10.0 + p / 10.0;
    assert p <= x * p;
  }

  lemma {:induction false} TenthFalls(j: nat)
    ensures (j + 1) as real * Tenth(j) <= 1.0
  {
    if j > 0 {
      TenthFalls(j - 1);
      Shrinks(j as real, Tenth(j - 1));
    }
  }

  lemma Multiply(a: real, b: real, c: real)
    requires a > b && c > 0.0
    ensures a * c > b * c
  {
  }

  lemma Below(n: real, p: real, room: real)
    requires n > 0.0 && room > 0.0 && n > 1.0 / room && n * p <= 1.0
    ensures p < room
  {
    Multiply(n, 1.0 / room, room);
    if p > room {
      Multiply(p, room, n);
    }
  }

  /** Some power of ten is as small as wanted, from any exponent on. */
  lemma SmallTenth(room: real, low: int) returns (j: nat)
    requires room > 0.0
    ensures j >= low && Tenth(j) < room
  {
    var n := (1.0 / room).Floor;
    j := Max(Max(n, low), 0);
    assert (j + 1) as real > 1.0 / room;
    TenthFalls(j);
    Below((j + 1) as real, Tenth(j), room);
  }

  lemma {:induction false} TenthIsTens(j: nat)
    ensures Tens(1.0, -(j as int)) == Tenth(j)
  {
    if j > 0 {
      TenthIsTens(j - 1);
      TensTenth(1.0, 1 - j);
    }
  }

  lemma {:induction false} TensTenth(x: real, e: int)
    requires e <= 0
    ensures Tens(x, e - 1) == Tens(x, e) / 10.0
    decreases -e
  {
    if e < 0 {
      TensTenth(x / 10.0, e + 1);
    }
  }

  lemma {:induction false} Halving(room: real, k: nat) returns (part: real)
    requires room > 0.0
    ensures part > 0.0 && Doubled(part, k) == room
    decreases k
  {
    part := room;
    if k > 0 {
      var half := Halving(room, k - 1);
      part := half / 2.0;
    }
  }

  // ---------------------------------------------------------------------- floats

  /** Significands have at most 53 bits. */
  const EXACT: int := 0x20_0000_0000_0000

  /** The smallest positive float is two to this power, negated. */
  const UNIT: nat := 1074

  /** Exponents of units go so far up. */
  const TOP: nat := 2045

  /** The number significand * 2^(scale - 1074). */
  datatype Float64 = Float64(negative: bool, significand: nat, scale: nat)

  /** The nearest integer, ties to even. */
  function Nearest(y: real): nat
    requires y >= 0.0
  {
    var q := y.Floor;
    var r := y - q as real;
    if r < 0.5 || (r == 0.5 && q % 2 == 0) then q else q + 1
  }

  /** Round `y` units of 2^(scale - 1074). */
  function Round(negative: bool, y: real, scale: nat): Option<Float64>
    requires y >= 0.0
    decreases TOP + 1 - scale
  {
    if scale > TOP then None
    else if y >= EXACT as real then Round(negative, y / 2.0, scale + 1)
    else if Nearest(y) < EXACT then Some(Float64(negative, Nearest(y), scale))
    else if scale == TOP then None
    else Some(Float64(negative, EXACT / 2, scale + 1))
  }

  /** `strconv.ParseFloat` of a sign and a magnitude; none when it overflows. */
  function ToFloat(negative: bool, magnitude: real): Option<Float64>
    requires magnitude >= 0.0
  {
    DoubledGrows(magnitude, UNIT);
    Round(negative, Doubled(magnitude, UNIT), 0)
  }

  // -------------------------------------------------------------------- decimals

  /** A literal as written: sign, digits, and the power of ten they count. */
  datatype Decimal = Decimal(negative: bool, mantissa: nat, exponent: int)

  function Magnitude(d: Decimal): (x: real)
    ensures x >= 0.0 && (x == 0.0 <==> d.mantissa == 0)
  {
    TensSign(d.mantissa as real, d.exponent);
    Tens(d.mantissa as real, d.exponent)
  }

  /** Its exact value, as PostgreSQL's `numeric` keeps it: without a negative zero. */
  function Exact(d: Decimal): real {
    if d.negative then -Magnitude(d) else Magnitude(d)
  }

  /** The float of the literal itself. */
  function LiteralFloat(d: Decimal): Option<Float64> {
    ToFloat(d.negative, Magnitude(d))
  }

  /** The float of an exact value written out. */
  function ExactFloat(r: real): Option<Float64> {
    if r < 0.0 then ToFloat(true, -r) else ToFloat(false, r)
  }

  predicate MinusZero(d: Decimal) {
    d.negative && d.mantissa == 0
  }

  /** The sign only matters to the result's sign. */
  lemma {:induction false} RoundSign(n: bool, m: bool, y: real, scale: nat)
    requires y >= 0.0
    ensures Round(n, y, scale).Some? <==> Round(m, y, scale).Some?
    ensures Round(n, y, scale).Some? ==> Round(n, y, scale).value.negative == n
    decreases TOP + 1 - scale
  {
    if scale <= TOP && y >= EXACT as real {
      RoundSign(n, m, y / 2.0, scale + 1);
    }
  }

  lemma {:induction false} DoubledZero(k: nat)
    ensures Doubled(0.0, k) == 0.0
  {
    if k > 0 {
      DoubledZero(k - 1);
    }
  }

  /** Storing a literal changes its float if and only if it is a negative zero. */
  lemma StoredFloat(d: Decimal)
    ensures ExactFloat(Exact(d)) == LiteralFloat(d) <==> !MinusZero(d)
    ensures ExactFloat(Exact(d)).Some? <==> LiteralFloat(d).Some?
  {
    DoubledZero(UNIT);
  }

  // ------------------------------------------------- every float has many decimals

  predicate Near(y: real, z: real, up: bool, room: real) {
    if up then y <= z < y + room else y - room < z <= y
  }

  /** Around any value, on one side at least, there is room for others that round to
      the same float. */
  lemma {:induction false} Room(negative: bool, y: real, scale: nat) returns (up: bool, room: real)
    requires y >= 0.0 && Round(negative, y, scale).Some?
    ensures room > 0.0 && (!up ==> room <= y)
    ensures y < EXACT as real && y == y.Floor as real ==> up
    ensures forall z: real | Near(y, z, up, room) :: z >= 0.0 && Round(negative, z, scale) == Round(negative, y, scale)
    decreases TOP + 1 - scale
  {
    if y < EXACT as real {
      var n := Nearest(y);
      up := y <= n as real;
      room := if !up then (if y < 0.25 then y else 0.25)
              else if n < EXACT then 0.25 else EXACT as real - y;
      forall z: real | Near(y, z, up, room) ensures z >= 0.0 && Round(negative, z, scale) == Round(negative, y, scale) {
        assert z < EXACT as real && Nearest(z) == n;
      }
    } else {
      var half;
      up, half := Room(negative, y / 2.0, scale + 1);
      room := 2.0 * half;
      if !up {
        assert y > EXACT as real;
        if y - EXACT as real < room {
          room := y - EXACT as real;
        }
      }
      forall z: real | Near(y, z, up, room) ensures z >= 0.0 && Round(negative, z, scale) == Round(negative, y, scale) {
        assert z >= EXACT as real && Near(y / 2.0, z / 2.0, up, half);
      }
    }
  }

  /** A number written with more digits. */
  function Digits(m: nat, k: nat): nat
    decreases k
  {
    if k == 0 then m else Digits(10 * m, k - 1)
  }

  lemma {:induction false} MoreDigits(m: nat, k: nat, e: int)
    ensures Digits(m, k) >= m && Tens(Digits(m, k) as real, e - k) == Tens(m as real, e)
    decreases k
  {
    if k > 0 {
      MoreDigits(10 * m, k - 1, e - 1);
      TensShift(m as real, e);
      assert (10 * m) as real == 10.0 * m as real;
    }
  }

  /** One more, or one less, in the last of enough digits. */
  lemma Nudge(d: Decimal, j: nat, up: bool) returns (m: Decimal)
    requires d.exponent + j >= 0 && (up || d.mantissa > 0)
    ensures Magnitude(m) == Magnitude(d) + if up then Tenth(j) else -Tenth(j)
    ensures m.negative == (d.negative && d.mantissa > 0)
  {
    var digits := Digits(d.mantissa, d.exponent + j);
    MoreDigits(d.mantissa, d.exponent + j, d.exponent);
    TenthIsTens(j);
    m := Decimal(d.negative && d.mantissa > 0, if up then digits + 1 else digits - 1, -(j as int));
    if up {
      TensSum(digits as real, 1.0, -(j as int));
    } else {
      TensSum((digits - 1) as real, 1.0, -(j as int));
    }
  }

  /** Every number that decodes shares its float with a different number. */
  lemma HasTwin(d: Decimal) returns (m: Decimal)
    requires LiteralFloat(d).Some?
    ensures Exact(m) != Exact(d) && LiteralFloat(m) == ExactFloat(Exact(d))
  {
    var sign := d.negative && d.mantissa > 0;
    var x := Magnitude(d);
    var y := Doubled(x, UNIT);
    DoubledGrows(x, UNIT);
    RoundSign(d.negative, sign, y, 0);
    var up, room := Room(sign, y, 0);
    var part := Halving(room, UNIT);
    var j := SmallTenth(part, -d.exponent);
    DoubledOrder(Tenth(j), part, UNIT);
    DoubledGrows(Tenth(j), UNIT);
    DoubledOrder(0.0, x, UNIT);
    DoubledZero(UNIT);
    m := Nudge(d, j, up);
    if up {
      DoubledSum(x, Tenth(j), UNIT);
    } else {
      DoubledSum(Magnitude(m), Tenth(j), UNIT);
    }
    assert Near(y, Doubled(Magnitude(m), UNIT), up, room);
  }

  // ------------------------------------------------------------ integers are safe

  /** Integers up to 2^53 in magnitude. */
  predicate SafeInteger(r: real) {
    r == r.Floor as real && -(EXACT as real) <= r <= EXACT as real
  }

  /** What a float stands for, in the smallest units. */
  function Units(f: Float64): real {
    Doubled(f.significand as real, f.scale)
  }

  function DoubledWhole(n: nat, k: nat): nat
    decreases k
  {
    if k == 0 then n else DoubledWhole(2 * n, k - 1)
  }

  lemma {:induction false} DoublingKeepsWhole(n: nat, k: nat)
    ensures Doubled(n as real, k) == DoubledWhole(n, k) as real
    decreases k
  {
    if k > 0 {
      DoublingKeepsWhole(2 * n, k - 1);
      assert (2 * n) as real == 2.0 * n as real;
    }
  }

  /** Rounding changes nothing. */
  ghost predicate RoundsTo(negative: bool, y: real, scale: nat)
    requires y >= 0.0
  {
    Round(negative, y, scale).Some? && Units(Round(negative, y, scale).value) == Doubled(y, scale)
  }

  lemma TwiceRoundsTo(negative: bool, y: real, scale: nat)
    requires y >= 0.0 && 2.0 * y >= EXACT as real && scale <= TOP && RoundsTo(negative, y, scale + 1)
    ensures RoundsTo(negative, 2.0 * y, scale)
  {
    assert 2.0 * y / 2.0 == y;
  }

  lemma RoundWhole(negative: bool, w: nat, scale: nat)
    requires w < EXACT && scale <= TOP
    ensures RoundsTo(negative, w as real, scale)
  {
    assert (w as real).Floor == w;
  }

  /** An integer of at most 53 bits, doubled, is rounded to itself. */
  lemma {:induction false} RoundsToItself(negative: bool, n: nat, k: nat, scale: nat)
    requires n <= EXACT && scale + k <= UNIT
    ensures Doubled(n as real, k) >= 0.0 && RoundsTo(negative, Doubled(n as real, k), scale)
    decreases k
  {
    DoublingKeepsWhole(n, k);
    var w := DoubledWhole(n, k);
    if w < EXACT {
      RoundWhole(negative, w, scale);
    } else if k > 0 {
      DoubledLast(n as real, k);
      RoundsToItself(negative, n, k - 1, scale + 1);
      TwiceRoundsTo(negative, Doubled(n as real, k - 1), scale);
    } else {
      RoundWhole(negative, EXACT / 2, scale + 1);
      TwiceRoundsTo(negative, (EXACT / 2) as real, scale);
    }
  }

  function Size(r: real): real {
    if r < 0.0 then -r else r
  }

  /** The float of a safe integer stands for exactly that integer. */
  lemma SafeIntegersAreExact(r: real, sign: bool)
    requires SafeInteger(r)
    ensures ToFloat(sign, Size(r)).Some? && ToFloat(sign, Size(r)).value.negative == sign
    ensures Units(ToFloat(sign, Size(r)).value) == Doubled(Size(r), UNIT)
  {
    var n: nat := if r < 0.0 then -r.Floor else r.Floor;
    assert n as real == Size(r);
    RoundsToItself(sign, n, UNIT, 0);
    RoundSign(sign, sign, Doubled(n as real, UNIT), 0);
  }

  /** Safe integers have different floats, and none has that of a negative zero. */
  lemma SafeIntegersDiffer(r: real, d: Decimal)
    requires SafeInteger(r) && SafeInteger(Exact(d)) && ExactFloat(r) == LiteralFloat(d)
    ensures r == Exact(d) && !MinusZero(d)
  {
    SafeIntegersAreExact(r, r < 0.0);
    SafeIntegersAreExact(Exact(d), d.negative);
    assert Size(Exact(d)) == Magnitude(d);
    DoubledOrder(Size(r), Magnitude(d), UNIT);
  }

  // ------------------------------------------------------------------- witnesses

  /** Numbers of 53 bits before the point keep them, wherever the point is. */
  lemma {:induction false} RoundShift(negative: bool, z: real, k: nat, scale: nat)
    requires (EXACT / 2) as real <= z < EXACT as real && scale + k <= TOP
    ensures Doubled(z, k) >= z && Round(negative, Doubled(z, k), scale) == Round(negative, z, scale + k)
    decreases k
  {
    if k > 0 {
      RoundShift(negative, z, k - 1, scale + 1);
      DoubledLast(z, k);
    }
  }

  /** The significand of a number in a given binade. */
  lemma InBinade(d: Decimal, z: real, k: nat)
    requires (EXACT / 2) as real <= z < EXACT as real && UNIT - 52 + k <= TOP
    requires Doubled(z, k) == Doubled(Magnitude(d), 52)
    ensures LiteralFloat(d) == Round(d.negative, z, UNIT - 52 + k)
  {
    DoubledTwice(Magnitude(d), 52, UNIT - 52);
    DoubledTwice(z, k, UNIT - 52);
    RoundShift(d.negative, z, UNIT - 52 + k, 0);
  }

  const ONE := Decimal(false, 1, 0)

  /** 1.00000000000000000001 */
  const NEARLY_ONE := Decimal(false, 100000000000000000001, -20)

  const BIG := Decimal(false, EXACT, 0)

  const NEXT := Decimal(false, EXACT + 1, 0)

  lemma Doubled13(x: real)
    ensures Doubled(x, 13) == 8192.0 * x
  {
    assert Doubled(x, 4) == 16.0 * x;
    assert Doubled(16.0 * x, 4) == 256.0 * x;
    assert Doubled(256.0 * x, 5) == 8192.0 * x;
    DoubledTwice(x, 4, 4);
    DoubledTwice(x, 8, 5);
  }

  lemma Doubled52(x: real)
    ensures Doubled(x, 52) == 4503599627370496.0 * x
  {
    Doubled13(x);
    Doubled13(8192.0 * x);
    Doubled13(67108864.0 * x);
    Doubled13(549755813888.0 * x);
    assert 8192.0 * (8192.0 * x) == 67108864.0 * x;
    assert 8192.0 * (67108864.0 * x) == 549755813888.0 * x;
    assert 8192.0 * (549755813888.0 * x) == 4503599627370496.0 * x;
    DoubledTwice(x, 13, 13);
    DoubledTwice(x, 26, 13);
    DoubledTwice(x, 39, 13);
  }

  lemma {:induction false} DigitsTwice(m: nat, a: nat, b: nat)
    ensures Digits(Digits(m, a), b) == Digits(m, a + b)
    decreases a
  {
    if a > 0 {
      DigitsTwice(10 * m, a - 1, b);
    }
  }

  lemma NearlyOneIs()
    ensures Magnitude(NEARLY_ONE) == 1.0 + 0.00000000000000000001
  {
    assert Tenth(5) == 0.00001;
    assert Tenth(10) == 0.0000000001;
    assert Tenth(15) == 0.000000000000001;
    TenthIsTens(20);
    DigitsTwice(1, 5, 5);
    DigitsTwice(1, 10, 5);
    DigitsTwice(1, 15, 5);
    assert Digits(1, 5) == 100000;
    assert Digits(100000, 5) == 10000000000;
    assert Digits(10000000000, 5) == 1000000000000000;
    assert Digits(1000000000000000, 5) == 100000000000000000000;
    MoreDigits(1, 20, 0);
    TensSum(100000000000000000000.0, 1.0, -20);
  }

  /** Beside one, a fraction in the twentieth place is lost. */
  lemma FractionIsLost()
    ensures LiteralFloat(NEARLY_ONE) == LiteralFloat(ONE) && Exact(NEARLY_ONE) != Exact(ONE)
    ensures LiteralFloat(ONE).Some?
  {
    NearlyOneIs();
    Doubled52(1.0);
    Doubled52(Magnitude(NEARLY_ONE));
    InBinade(ONE, 4503599627370496.0, 0);
    InBinade(NEARLY_ONE, 4503599627370496.0 * Magnitude(NEARLY_ONE), 0);
  }

  /** The first integer that is lost. */
  lemma IntegerIsLost()
    ensures LiteralFloat(NEXT) == LiteralFloat(BIG) && Exact(NEXT) != Exact(BIG)
    ensures LiteralFloat(BIG).Some?
  {
    DoubledTwice((EXACT / 2) as real, 1, 52);
    DoubledTwice((EXACT + 1) as real / 2.0, 1, 52);
    InBinade(BIG, (EXACT / 2) as real, 53);
    InBinade(NEXT, (EXACT + 1) as real / 2.0, 53);
  }
}
