/** Amounts of top-up orders (RequestEpay and EpayNotify in controller/topup.go), over the reals. */
module TopUpAmount {

  /** decimal.IntPart: truncation toward zero. */
  function IntPart(r: real): int {
    if r >= 0.0 then r.Floor else -((-r).Floor)
  }

  /** RequestEpay's stored amount; in token display the request is in tokens, `unit` tokens to the dollar. */
  function StoredAmount(requested: int, unit: real, tokenDisplay: bool): int
    requires unit > 0.0
  {
    if tokenDisplay then IntPart(requested as real / unit) else requested
  }

  /** An order stores the dollars asked for, or the whole dollars that the tokens asked for are worth. */
  lemma StoredIs(requested: nat, unit: real, tokenDisplay: bool, stored: int)
    requires unit > 0.0 && stored == StoredAmount(requested, unit, tokenDisplay)
    ensures !tokenDisplay ==> stored == requested
    ensures tokenDisplay ==> stored as real * unit <= requested as real < (stored as real + 1.0) * unit
  {
    if tokenDisplay {
      var q := requested as real / unit;
      Requotient(requested as real, unit, q);
      ScaleBounds(stored as real, q, unit, stored as real * unit, requested as real);
      assert (stored as real + 1.0) * unit == stored as real * unit + unit;
    }
  }

  lemma ScaleBounds(k: real, q: real, unit: real, p: real, r: real)
    requires 0.0 <= k <= q < k + 1.0 && unit > 0.0 && p == k * unit && r == q * unit
    ensures 0.0 <= p <= r < p + unit
  {
    var d := k + 1.0 - q;
    assert d * unit > 0.0;
    assert d * unit == p + unit - r;
    assert (q - k) * unit >= 0.0;
  }

  lemma Requotient(r: real, unit: real, q: real)
    requires unit > 0.0 && r >= 0.0 && q == r / unit
    ensures q >= 0.0 && q * unit == r
  {
  }

  lemma WholeProduct(k: int, unit: real)
    requires unit.Floor as real == unit
    ensures (k as real * unit).Floor as real == k as real * unit
  {
    assert k as real * unit == (k * unit.Floor) as real;
  }

  lemma FloorShortfall(requested: int, p: real, unit: real)
    requires 0.0 <= p <= requested as real < p + unit
    ensures 0 <= p.Floor <= requested && requested as real - p.Floor as real < unit + 1.0
    ensures p.Floor as real == p ==> requested as real - p.Floor as real < unit
  {
  }

  /** p is what k whole units are worth, k being how many fit into the request. */
  lemma Shortfall(requested: nat, unit: real, q: real, k: int, p: real)
    requires unit > 0.0 && q >= 0.0 && q * unit == requested as real && k == q.Floor && p == k as real * unit
    ensures 0.0 <= p && 0 <= p.Floor <= requested && requested as real - p.Floor as real < unit + 1.0
    ensures unit.Floor as real == unit ==> requested as real - p.Floor as real < unit
  {
    ScaleBounds(k as real, q, unit, p, requested as real);
    FloorShortfall(requested, p, unit);
    if unit.Floor as real == unit {
      WholeProduct(k, unit);
    }
  }

  /**
    Token display: the credit never exceeds the tokens asked for and falls short by
    less than one unit plus one token; by less than one unit when the unit is whole.
   */
  lemma TokenCreditBounds(requested: nat, unit: real, stored: int, credit: int)
    requires unit > 0.0
    requires stored == StoredAmount(requested, unit, true) && credit == IntPart(stored as real * unit)
    ensures 0 <= credit <= requested
    ensures requested as real - credit as real < unit + 1.0
    ensures unit.Floor as real == unit ==> requested as real - credit as real < unit
  {
    var q := requested as real / unit;
    Requotient(requested as real, unit, q);
    assert stored == q.Floor;
    Shortfall(requested, unit, q, stored, stored as real * unit);
  }

  /** The sharper bound can fail. */
  lemma TokenCreditFractionalUnit()
    ensures var unit := 2.3; 9.0 - IntPart(StoredAmount(9, unit, true) as real * unit) as real >= unit
  {
    assert (9.0 / 2.3).Floor == 3;
    assert (3.0 * 2.3).Floor == 6;
  }

  // ---- which units meet the sharper bound -----------------------------------------------------

  function TokenCredit(requested: nat, unit: real): int
    requires unit > 0.0
  {
    IntPart(StoredAmount(requested, unit, true) as real * unit)
  }

  /** No request is short by a whole unit or more. */
  ghost predicate ShortByLessThanUnit(unit: real)
    requires unit > 0.0
  {
    forall requested: nat :: requested as real - TokenCredit(requested, unit) as real < unit
  }

  function Fraction(unit: real): real {
    unit - unit.Floor as real
  }

  /** 1/f is a whole number. */
  predicate UnitFraction(f: real)
    requires f > 0.0
  {
    (1.0 / f).Floor as real == 1.0 / f
  }

  lemma PositiveFactor(x: real, u: real)
    requires u > 0.0
    ensures x >= 0.0 <==> x * u >= 0.0
    ensures x > 0.0 <==> x * u > 0.0
  {
  }

  lemma QuotientBounds(k: real, q: real, unit: real, p: real, r: real)
    requires unit > 0.0 && p == k * unit && r == q * unit && p <= r < p + unit
    ensures k <= q < k + 1.0
  {
    PositiveFactor(q - k, unit);
    PositiveFactor(k + 1.0 - q, unit);
    assert (q - k) * unit == r - p;
    assert (k + 1.0 - q) * unit == p + unit - r;
  }

  /** With q requests' worth of units between k and k + 1, the credit is what k units are worth, rounded down. */
  lemma CreditAt(requested: nat, unit: real, k: nat, p: real)
    requires unit > 0.0 && p == k as real * unit && p <= requested as real < p + unit
    ensures TokenCredit(requested, unit) == p.Floor
  {
    var q := requested as real / unit;
    Requotient(requested as real, unit, q);
    QuotientBounds(k as real, q, unit, p, requested as real);
    assert q.Floor == k;
  }

  lemma StoredUnits(requested: nat, unit: real) returns (k: nat, p: real)
    requires unit > 0.0
    ensures p == k as real * unit && p <= requested as real < p + unit && TokenCredit(requested, unit) == p.Floor
  {
    var q := requested as real / unit;
    Requotient(requested as real, unit, q);
    k, p := q.Floor, q.Floor as real * unit;
    ScaleBounds(k as real, q, unit, p, requested as real);
  }

  lemma Split(k: int, unit: real, n: int, f: real)
    requires unit == n as real + f
    ensures k as real * unit == (k * n) as real + k as real * f
  {
    assert (k * n) as real == k as real * n as real;
  }

  /** If b parts of size f make a whole, then k of them are k / b wholes and less than one more, short by at least f. */
  lemma PartsOfWhole(k: nat, b: nat, f: real)
    requires b > 0 && f > 0.0 && b as real * f == 1.0
    ensures (k / b) as real <= k as real * f <= (k / b) as real + 1.0 - f
  {
    var c, m := k / b, k % b;
    var rest := m as real * f;
    assert k as real == c as real * b as real + m as real by {
      assert k == c * b + m;
      assert (c * b) as real == c as real * b as real;
    }
    assert k as real * f == c as real * (b as real * f) + rest;
    assert rest >= 0.0;
    var spare := b as real - 1.0 - m as real;
    assert spare * f >= 0.0;
    assert spare * f == 1.0 - f - rest;
  }

  lemma UnitFractionSuffices(requested: nat, unit: real, b: nat)
    requires unit > 0.0 && b > 0 && Fraction(unit) > 0.0 && b as real * Fraction(unit) == 1.0
    ensures requested as real - TokenCredit(requested, unit) as real < unit
  {
    var n, f := unit.Floor, Fraction(unit);
    var k, p := StoredUnits(requested, unit);
    Split(k, unit, n, f);
    PartsOfWhole(k, b, f);
    ShortInWhole(requested, p, k * n, k / b, k as real * f, n, f);
  }

  lemma ShortInWhole(requested: nat, p: real, a: int, c: int, parts: real, n: int, f: real)
    requires p == a as real + parts && c as real <= parts <= c as real + 1.0 - f && f > 0.0
    requires requested as real < p + n as real + f
    ensures requested as real - p.Floor as real < n as real + f
  {
    assert p.Floor == a + c;
    assert requested < a + c + n + 1;
  }

  /** The first multiple of the fraction past 1 gives a request that is short by more than a unit. */
  lemma OtherFractionFails(unit: real) returns (requested: nat)
    requires unit > 0.0 && Fraction(unit) > 0.0 && !UnitFraction(Fraction(unit))
    ensures requested as real - TokenCredit(requested, unit) as real >= unit
  {
    var n, f := unit.Floor, Fraction(unit);
    var b, part := BetweenParts(f);
    Split(b, unit, n, f);
    requested := b * n + n + 1;
    CreditAt(requested, unit, b, b as real * unit);
    assert (b as real * unit).Floor == b * n;
  }

  /** Some number of parts stays below 1, and one more exceeds it. */
  lemma BetweenParts(f: real) returns (b: nat, part: real)
    requires 0.0 < f < 1.0 && !UnitFraction(f)
    ensures part == b as real * f && 0.0 <= part < 1.0 < part + f
  {
    var q := 1.0 / f;
    assert q * f == 1.0;
    PositiveFactor(q, f);
    b, part := q.Floor, q.Floor as real * f;
    PositiveFactor(b as real, f);
    PartsAround(b as real, q, f, part);
  }

  lemma PartsAround(b: real, q: real, f: real, part: real)
    requires f > 0.0 && q * f == 1.0 && part == b * f && b < q < b + 1.0
    ensures part < 1.0 < part + f
  {
    var below, above := q - b, b + 1.0 - q;
    PositiveFactor(below, f);
    PositiveFactor(above, f);
    assert below * f == 1.0 - part;
    assert above * f == part + f - 1.0;
  }

  /** The credit is never short by a unit or more exactly when the unit's fraction is zero or one over a whole number. */
  lemma ShortByLessThanUnitExactlyWhen(unit: real)
    requires unit > 0.0
    ensures ShortByLessThanUnit(unit) <==> Fraction(unit) == 0.0 || UnitFraction(Fraction(unit))
  {
    var f := Fraction(unit);
    if f == 0.0 {
      forall requested: nat ensures requested as real - TokenCredit(requested, unit) as real < unit {
        TokenCreditBounds(requested, unit, StoredAmount(requested, unit, true), TokenCredit(requested, unit));
      }
    } else if UnitFraction(f) {
      var b := (1.0 / f).Floor;
      assert b as real * f == 1.0;
      forall requested: nat ensures requested as real - TokenCredit(requested, unit) as real < unit {
        UnitFractionSuffices(requested, unit, b);
      }
    } else {
      var requested := OtherFractionFails(unit);
    }
  }
}
