/** The binary64 arithmetic of JavaScript numbers, as far as the decision agent's weighted
    score needs it. A value is held exactly as an integer count of 2^-55: the doubles
    nearest 0.5, 0.3 and 0.2 are such counts, so every product of an integer with one of
    them and every sum of such products is one too, and rounding to 53 significant bits,
    ties to even, is the only inexact step. */
module Binary64 {
  import Strings
  /** 2^55, the number of counts in 1. */
  const Scale: int := 36028797018963968

  /** 2^53: a significand is a natural number below this. */
  const Limit: int := 9007199254740992

  /** 0.5, and the doubles nearest 0.3 and 0.2, counted in 2^-55. */
  const Half: int := 18014398509481984
  const Point3: int := 10808639105689190
  const Point2: int := 7205759403792794

  function Abs(x: int): nat {
    if x < 0 then -x else x
  }

  /** Rounds a magnitude of at least 2^53 to 53 significant bits, one low bit at a time:
      `sticky` counts the set bits dropped earlier. The last bit decides the
      rounding, a non-zero sticky count or an odd significand breaking the tie. */
  function Drop(m: nat, sticky: nat): nat
    requires m >= Limit
    decreases m
  {
    if m >= 2 * Limit then 2 * Drop(m / 2, sticky + m % 2)
    else
      var q := m / 2;
      if m % 2 == 1 && (sticky > 0 || q % 2 == 1) then 2 * (q + 1) else 2 * q
  }

  /** The unit in the last place of the rounded magnitude. */
  function Unit(m: nat): nat
    decreases m
  {
    if m < Limit then 1 else if m < 2 * Limit then 2 else 2 * Unit(m / 2)
  }

  /** The significand the rounded magnitude is a multiple of `Unit(m)` by. */
  function Significand(m: nat, sticky: nat): nat
    requires m >= Limit
    decreases m
  {
    if m >= 2 * Limit then Significand(m / 2, sticky + m % 2)
    else
      var q := m / 2;
      if m % 2 == 1 && (sticky > 0 || q % 2 == 1) then q + 1 else q
  }

  /** A magnitude below 2^53 is exact; a larger one is rounded. */
  function RoundMagnitude(m: nat): nat {
    if m < Limit then m else Drop(m, 0)
  }

  /** Round to nearest, ties to even, symmetric in the sign. */
  function Round(x: int): int {
    if x >= 0 then RoundMagnitude(x) else var m: int := RoundMagnitude(-x); -m
  }

  /** `n * c` for an integer `n` and a double `c`. */
  function Mul(n: int, c: int): int {
    Round(n * c)
  }

  /** `x + y` for two doubles. */
  function Add(x: int, y: int): int {
    Round(x + y)
  }

  /** `x - y` for two doubles. */
  function Sub(x: int, y: int): int {
    Round(x - y)
  }

  /** The number of tenths `x.toFixed(1)` writes for a magnitude `m`: the nearest
      whole number of tenths, the larger one on a tie. */
  function Tenths1(m: nat): nat {
    (10 * m + Half) / Scale
  }

  /** `x.toFixed(1)`: a minus sign for a negative value, then the whole part, a point and
      one digit. */
  function ToFixed1(x: int): string {
    var n := Tenths1(Abs(x));
    (if x < 0 then "-" else "") + Strings.NatToString(n / 10) + "." + [Strings.DigitChar(n % 10)]
  }

  // ---------------------------------------------------------------- properties

  /** Rounding `m + f`, where the fraction `f` below the last kept bit is non-zero exactly
      when the sticky count is not zero, lands within half a unit of it. */
  lemma {:induction false} DropNearest(m: nat, sticky: nat, f: real)
    requires m >= Limit && 0.0 <= f < 1.0 && (sticky > 0 <==> f > 0.0)
    ensures -(Unit(m) as real) <= 2.0 * (Drop(m, sticky) as real - (m as real + f)) <= Unit(m) as real
    decreases m
  {
    if m >= 2 * Limit {
      var b := m % 2;
      var f' := (b as real + f) / 2.0;
      DropNearest(m / 2, sticky + b, f');
      assert m as real + f == 2.0 * ((m / 2) as real + f');
    }
  }

  /** The unit is at most 2^-52 of the magnitude. */
  lemma {:induction false} UnitBound(m: nat)
    ensures m >= Limit ==> Limit * Unit(m) <= 2 * m
    ensures m < Limit ==> Unit(m) == 1
    decreases m
  {
    if m >= 2 * Limit {
      UnitBound(m / 2);
    }
  }

  /** The significand has 53 bits, or is 2^53 when rounding carries into a new bit. */
  lemma {:induction false} SignificandBounds(m: nat, sticky: nat)
    requires m >= Limit
    ensures Limit / 2 <= Significand(m, sticky) <= Limit
    decreases m
  {
    if m >= 2 * Limit {
      SignificandBounds(m / 2, sticky + m % 2);
    }
  }

  lemma DoubleProduct(j: int, u: int)
    ensures 2 * (j * u) == j * (2 * u)
  {
  }

  /** The rounded magnitude is its significand times the unit. */
  lemma {:induction false} DropRepresentable(m: nat, sticky: nat)
    requires m >= Limit
    ensures Drop(m, sticky) == Significand(m, sticky) * Unit(m)
    decreases m
  {
    if m >= 2 * Limit {
      var h, t := m / 2, sticky + m % 2;
      DropRepresentable(h, t);
      var j, u := Significand(h, t), Unit(h);
      assert Drop(m, sticky) == 2 * Drop(h, t) && Unit(m) == 2 * u && Significand(m, sticky) == j;
      DoubleProduct(j, u);
    } else {
      assert Unit(m) == 2;
    }
  }

  /** The relative error of rounding is at most 2^-53, and a magnitude below 2^53 is
      exact. */
  lemma RoundMagnitudeError(m: nat)
    ensures Limit * Abs(RoundMagnitude(m) - m) <= m
    ensures m < Limit ==> RoundMagnitude(m) == m
  {
    if m >= Limit {
      DropNearest(m, 0, 0.0);
      UnitBound(m);
    }
  }

  /** The same bound for either sign. */
  lemma RoundError(x: int)
    ensures Limit * Abs(Round(x) - x) <= Abs(x)
    ensures Abs(x) < Limit ==> Round(x) == x
  {
    if x >= 0 {
      RoundMagnitudeError(x);
    } else {
      RoundMagnitudeError(-x);
    }
  }

  /** Rounding moves a value by at most `e` when it is at most `e · 2^53` in magnitude. */
  lemma RoundClose(x: int, e: int)
    requires -e * Limit <= x <= e * Limit
    ensures -e <= Round(x) - x <= e
  {
    RoundError(x);
  }

  lemma MulClose(n: int, c: int, e: int)
    requires -e * Limit <= n * c <= e * Limit
    ensures -e <= Mul(n, c) - n * c <= e
  {
    RoundClose(n * c, e);
  }

  lemma AddClose(x: int, y: int, e: int)
    requires -e * Limit <= x + y <= e * Limit
    ensures -e <= Add(x, y) - (x + y) <= e
  {
    RoundClose(x + y, e);
  }

  /** Every result of rounding is a double: a significand of at most 53 bits times a
      power of two, which is 1 below 2^53. */
  lemma RoundRepresentable(m: nat)
    ensures m < Limit ==> RoundMagnitude(m) == m * Unit(m)
    ensures m >= Limit ==> RoundMagnitude(m) == Significand(m, 0) * Unit(m) && Significand(m, 0) <= Limit
  {
    UnitBound(m);
    if m >= Limit {
      DropRepresentable(m, 0);
      SignificandBounds(m, 0);
    }
  }

  /** `toFixed(1)` writes the sign and then the number of tenths nearest to the
      magnitude, a tie going up, with one digit after the point. */
  lemma ToFixed1Nearest(x: int)
    ensures exists n: nat ::
      && ToFixed1(x) == (if x < 0 then "-" else "") + Strings.NatToString(n / 10) + "." + [Strings.DigitChar(n % 10)]
      && n * Scale - Half <= 10 * Abs(x) < n * Scale + Half
  {
    var n := Tenths1(Abs(x));
    assert ToFixed1(x) == (if x < 0 then "-" else "") + Strings.NatToString(n / 10) + "." + [Strings.DigitChar(n % 10)];
    assert n * Scale - Half <= 10 * Abs(x) < n * Scale + Half;
  }

  /** A difference of a double and a smaller one is never negative. */
  lemma SubNonNegative(x: int, y: int)
    requires y <= x
    ensures Sub(x, y) >= 0 && ToFixed1(Sub(x, y))[0] != '-'
  {
    var d := Strings.NatToString(Tenths1(Abs(Sub(x, y))) / 10);
    assert ToFixed1(Sub(x, y)) == d + "." + [Strings.DigitChar(Tenths1(Abs(Sub(x, y))) % 10)];
    assert '0' <= d[0] <= '9';
  }
}
