/** Arithmetic shared by the engine: optional values, integer powers, cost-of-living
    compounding and the floors the engine applies. Money and percentages are exact reals. */
module Money {

  datatype Option<+T> = None | Some(value: T) {
    /** The `??` operator of the source: the value when present, the default otherwise. */
    function GetOr(default: T): T {
      match this
      case Some(v) => v
      case None => default
    }
  }

  /** `Math.pow(x, n)` for a non-negative integer exponent, the only form the engine uses. */
  function Pow(x: real, n: nat): real {
    if n == 0 then 1.0 else x * Pow(x, n - 1)
  }

  /** `Math.max(a, b)` on money. */
  function Max(a: real, b: real): (r: real)
    ensures r >= a && r >= b && (r == a || r == b)
  {
    if a >= b then a else b
  }

  /** `Math.max(0, k)` on a count of years. */
  function MaxNat(k: int): (r: nat)
    ensures k >= 0 ==> r == k
    ensures k < 0 ==> r == 0
  {
    if k >= 0 then k else 0
  }

  /** The COLA helper of lib/projection.ts and lib/survivor-income.ts:
      `value * (1 + colaPct/100)^years`. */
  function Cola(value: real, colaPct: real, years: nat): (r: real)
    ensures years == 0 ==> r == value
    ensures value >= 0.0 && colaPct >= 0.0 ==> r >= value
  {
    var factor := Pow(1.0 + colaPct / 100.0, years);
    assert value >= 0.0 && colaPct >= 0.0 ==> value * factor >= value by {
      if value >= 0.0 && colaPct >= 0.0 {
        PowAtLeastOne(1.0 + colaPct / 100.0, years);
        assert value * (factor - 1.0) >= 0.0;
      }
    }
    value * factor
  }

  /** A growth factor of at least 1 compounds to at least 1. */
  lemma {:induction false} PowAtLeastOne(x: real, n: nat)
    requires x >= 1.0
    ensures Pow(x, n) >= 1.0
  {
    if n > 0 {
      PowAtLeastOne(x, n - 1);
      assert x * Pow(x, n - 1) - Pow(x, n - 1) == (x - 1.0) * Pow(x, n - 1);
    }
  }

  lemma ProductNonNegative(x: real, y: real)
    requires x >= 0.0 && y >= 0.0
    ensures x * y >= 0.0
  {
  }

  lemma {:induction false} PowNonNegative(x: real, n: nat)
    requires x >= 0.0
    ensures Pow(x, n) >= 0.0
  {
    if n > 0 {
      PowNonNegative(x, n - 1);
    }
  }

  lemma {:induction false} PowOne(n: nat)
    ensures Pow(1.0, n) == 1.0
  {
    if n > 0 {
      PowOne(n - 1);
    }
  }

  /** One more year of compounding multiplies by one more factor. */
  lemma {:induction false} PowSucc(x: real, n: nat)
    ensures Pow(x, n + 1) == Pow(x, n) * x
  {
  }

  /** A COLA rate of at least -100% never turns a non-negative amount negative. */
  lemma ColaNonNegative(value: real, colaPct: real, years: nat)
    requires value >= 0.0 && colaPct >= -100.0
    ensures Cola(value, colaPct, years) >= 0.0
  {
    PowNonNegative(1.0 + colaPct / 100.0, years);
  }

  /** With a 0% COLA the amount is flat in every year. */
  lemma ColaFlatAtZeroRate(value: real, years: nat)
    ensures Cola(value, 0.0, years) == value
  {
    PowOne(years);
  }

  /** Each further year multiplies the amount by `1 + colaPct/100`. */
  lemma ColaNextYear(value: real, colaPct: real, years: nat)
    ensures Cola(value, colaPct, years + 1) == Cola(value, colaPct, years) * (1.0 + colaPct / 100.0)
  {
    PowSucc(1.0 + colaPct / 100.0, years);
  }
}
