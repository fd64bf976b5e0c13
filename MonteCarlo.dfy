/** The need-based Monte Carlo success rate of `runMonteCarlo` (lib/monte-carlo.ts).
    Each year of retirement draws from the portfolio only what the goal needs beyond
    guaranteed income; a path fails once the portfolio cannot pay that need or turns
    negative after a bootstrapped return. The random source is a parameter: `draw(sim, y)`
    is the uniform number in [0, 1) that simulation `sim` uses in year `y`. */
module MonteCarlo {
  import opened Money
  import opened Types

  /** A percentage that is `NaN` when it is the quotient 0/0. */
  datatype Percent = Finite(value: real) | NaN

  datatype MonteCarloResult = MonteCarloResult(successRatePct: Percent, numSuccess: int, numFail: int)

  // ------------------------------------------------------------ inputs of the simulation

  /** The rows at or after the retirement age, in order. */
  function RetirementRows(rows: seq<ProjectionRow>, retirementAge: int): seq<ProjectionRow> {
    if |rows| == 0 then []
    else
      var r := rows[|rows| - 1];
      RetirementRows(rows[..|rows| - 1], retirementAge) + (if r.clientAge >= retirementAge then [r] else [])
  }

  /** What the portfolio must pay in a year: the goal beyond guaranteed income, never
      less than 0. */
  function Need(row: ProjectionRow): (r: real)
    ensures r >= 0.0
    ensures r >= row.targetGoalAnnual - row.guaranteedDollars
    ensures r == 0.0 || r == row.targetGoalAnnual - row.guaranteedDollars
  {
    Max(0.0, row.targetGoalAnnual - row.guaranteedDollars)
  }

  function Needs(rows: seq<ProjectionRow>): seq<real> {
    seq(|rows|, i requires 0 <= i < |rows| => Need(rows[i]))
  }

  /** A simulation set: starting balance, yearly needs, the pool of historical returns
      and the injected random source. */
  datatype Simulation = Simulation(start: real, needs: seq<real>, pool: seq<real>, draw: (nat, nat) -> real)

  /** Every number the random source yields is in [0, 1). */
  ghost predicate UniformSource(draw: (nat, nat) -> real) {
    forall sim: nat, y: nat :: 0.0 <= draw(sim, y) < 1.0
  }

  ghost predicate Runnable(s: Simulation) {
    |s.pool| > 0 && UniformSource(s.draw)
  }

  /** `Math.floor(u * n)`: the bootstrap index, always a valid index into the pool. */
  function ReturnIndex(u: real, n: nat): (k: nat)
    requires 0.0 <= u < 1.0 && n > 0
    ensures k < n
  {
    assert 0.0 <= u * n as real by {
      assert u * n as real >= 0.0 * n as real;
    }
    assert u * n as real < n as real by {
      assert n as real - u * n as real == (1.0 - u) * n as real;
      assert (1.0 - u) * n as real > 0.0;
    }
    (u * n as real).Floor
  }

  function YearReturn(s: Simulation, sim: nat, y: nat): real
    requires Runnable(s)
  {
    s.pool[ReturnIndex(s.draw(sim, y), |s.pool|)]
  }

  /** Pay the need, then apply the year's return. */
  function AfterYear(balance: real, need: real, returnPct: real): real {
    (balance - need) * (1.0 + returnPct / 100.0)
  }

  /** The balance of path `sim` at the start of year `y`, had every earlier year passed. */
  function BalanceAt(s: Simulation, sim: nat, y: nat): real
    requires Runnable(s) && y <= |s.needs|
  {
    if y == 0 then s.start
    else AfterYear(BalanceAt(s, sim, y - 1), s.needs[y - 1], YearReturn(s, sim, y - 1))
  }

  /** Year `y` passes when the balance covers the need and stays non-negative after the
      year's return. */
  predicate YearPasses(s: Simulation, sim: nat, y: nat)
    requires Runnable(s) && y < |s.needs|
  {
    BalanceAt(s, sim, y) >= s.needs[y] && AfterYear(BalanceAt(s, sim, y), s.needs[y], YearReturn(s, sim, y)) >= 0.0
  }

  /** A path succeeds exactly when every year passes. */
  predicate Succeeds(s: Simulation, sim: nat)
    requires Runnable(s)
  {
    forall y :: 0 <= y < |s.needs| ==> YearPasses(s, sim, y)
  }

  /** The number of successful paths among simulations `0 .. k-1`. */
  function CountSuccesses(s: Simulation, k: nat): nat
    requires Runnable(s)
  {
    if k == 0 then 0 else CountSuccesses(s, k - 1) + (if Succeeds(s, k - 1) then 1 else 0)
  }

  /** `numSuccess / numSimulations * 100`, which is 0/0 without simulations. */
  function SuccessRate(numSuccess: int, numSimulations: int): Percent {
    if numSimulations == 0 then NaN else Finite(numSuccess as real / numSimulations as real * 100.0)
  }

  function Setup(projection: ProjectionResult, historicalReturnsPct: seq<real>, draw: (nat, nat) -> real): Simulation {
    Simulation(SumOfTypes(projection.futureValuesAtRetirement),
               Needs(RetirementRows(projection.rows, projection.retirementAge)),
               historicalReturnsPct, draw)
  }

  /** The result of `runMonteCarlo`; without a simulation count it runs 1000 paths. */
  function MonteCarloOf(projection: ProjectionResult, historicalReturnsPct: seq<real>, draw: (nat, nat) -> real,
                        numSimulations: int := 1000): MonteCarloResult
    requires UniformSource(draw)
  {
    var s := Setup(projection, historicalReturnsPct, draw);
    if |RetirementRows(projection.rows, projection.retirementAge)| == 0 || |historicalReturnsPct| == 0
    then MonteCarloResult(Finite(0.0), 0, numSimulations)
    else
      var k := CountSuccesses(s, MaxNat(numSimulations));
      MonteCarloResult(SuccessRate(k, numSimulations), k, numSimulations - k)
  }

  // ------------------------------------------------------------ the simulation as written

  /** Keep the rows at or after the retirement age. */
  method FilterRetirementRows(rows: seq<ProjectionRow>, retirementAge: int) returns (kept: seq<ProjectionRow>)
    ensures kept == RetirementRows(rows, retirementAge)
  {
    kept := [];
    for i := 0 to |rows|
      invariant kept == RetirementRows(rows[..i], retirementAge)
    {
      assert rows[..i + 1][..i] == rows[..i];
      if rows[i].clientAge >= retirementAge {
        kept := kept + [rows[i]];
      }
    }
    assert rows[..|rows|] == rows;
  }

  /** One path: walk the years, stop at the first year that fails. */
  method SimulatePath(s: Simulation, sim: nat) returns (success: bool)
    requires Runnable(s)
    ensures success == Succeeds(s, sim)
  {
    var balance := s.start;
    success := true;
    var y := 0;
    while y < |s.needs|
      invariant 0 <= y <= |s.needs|
      invariant balance == BalanceAt(s, sim, y)
      invariant forall k :: 0 <= k < y ==> YearPasses(s, sim, k)
    {
      var needed := s.needs[y];
      if balance < needed {
        assert !YearPasses(s, sim, y);
        success := false;
        break;
      }
      var n := |s.pool|;
      var returnPct := s.pool[ReturnIndex(s.draw(sim, y), n)];
      assert returnPct == YearReturn(s, sim, y);
      balance := (balance - needed) * (1.0 + returnPct / 100.0);
      assert balance == AfterYear(BalanceAt(s, sim, y), s.needs[y], YearReturn(s, sim, y)) == BalanceAt(s, sim, y + 1);
      if balance < 0.0 {
        assert !YearPasses(s, sim, y);
        success := false;
        break;
      }
      assert YearPasses(s, sim, y);
      y := y + 1;
    }
  }

  /** `runMonteCarlo(projection, historicalReturnsPct, numSimulations = 1000)`. */
  method RunMonteCarlo(projection: ProjectionResult, historicalReturnsPct: seq<real>, draw: (nat, nat) -> real,
                       numSimulations: int := 1000)
    returns (result: MonteCarloResult)
    requires UniformSource(draw)
    ensures result == MonteCarloOf(projection, historicalReturnsPct, draw, numSimulations)
  {
    var retirementRows := FilterRetirementRows(projection.rows, projection.retirementAge);
    if |retirementRows| == 0 {
      return MonteCarloResult(Finite(0.0), 0, numSimulations);
    }
    var fv := projection.futureValuesAtRetirement;
    var totalFV := fv.qualified + fv.roth + fv.taxable + fv.cash + fv.insurance;
    var needed := Needs(retirementRows);
    var n := |historicalReturnsPct|;
    if n == 0 {
      return MonteCarloResult(Finite(0.0), 0, numSimulations);
    }
    var s := Simulation(totalFV, needed, historicalReturnsPct, draw);
    assert s == Setup(projection, historicalReturnsPct, draw);
    var numSuccess: nat := 0;
    var sim: nat := 0;
    while sim < numSimulations
      invariant sim <= MaxNat(numSimulations)
      invariant numSuccess == CountSuccesses(s, sim)
      decreases numSimulations - sim
    {
      var success := SimulatePath(s, sim);
      if success {
        numSuccess := numSuccess + 1;
      }
      sim := sim + 1;
    }
    var numFail := numSimulations - numSuccess;
    var successRatePct := if numSimulations == 0 then NaN else Finite(numSuccess as real / numSimulations as real * 100.0);
    result := MonteCarloResult(successRatePct, numSuccess, numFail);
  }

  // ------------------------------------------------------------ properties

  /** The retirement rows are exactly the rows at or after the retirement age, and are
      never more than the rows. */
  lemma {:induction false} RetirementRowsMembership(rows: seq<ProjectionRow>, retirementAge: int)
    ensures |RetirementRows(rows, retirementAge)| <= |rows|
    ensures forall r :: r in RetirementRows(rows, retirementAge) <==> r in rows && r.clientAge >= retirementAge
  {
    if |rows| > 0 {
      var n := |rows| - 1;
      RetirementRowsMembership(rows[..n], retirementAge);
      assert rows == rows[..n] + [rows[n]];
    }
  }

  /** Every yearly need is at least 0 and at least the goal less guaranteed income. */
  lemma NeedsNonNegative(rows: seq<ProjectionRow>)
    ensures |Needs(rows)| == |rows|
    ensures forall y :: 0 <= y < |rows| ==>
      Needs(rows)[y] >= 0.0 && Needs(rows)[y] >= rows[y].targetGoalAnnual - rows[y].guaranteedDollars
  {
  }

  lemma {:induction false} CountSuccessesBounded(s: Simulation, k: nat)
    requires Runnable(s)
    ensures CountSuccesses(s, k) <= k
  {
    if k > 0 {
      CountSuccessesBounded(s, k - 1);
    }
  }

  /** Successes and failures add up to the number of simulations, successes are between
      0 and the number of simulations, and with at least one simulation the rate is a
      percentage in [0, 100]; without retirement rows or returns nothing succeeds. */
  lemma ResultCounts(projection: ProjectionResult, historicalReturnsPct: seq<real>, numSimulations: int, draw: (nat, nat) -> real)
    requires UniformSource(draw)
    ensures var r := MonteCarloOf(projection, historicalReturnsPct, draw, numSimulations);
      && r.numSuccess + r.numFail == numSimulations
      && 0 <= r.numSuccess <= MaxNat(numSimulations)
      && (numSimulations > 0 ==> r.successRatePct.Finite? && 0.0 <= r.successRatePct.value <= 100.0)
      && (|RetirementRows(projection.rows, projection.retirementAge)| == 0 || |historicalReturnsPct| == 0 ==>
            r == MonteCarloResult(Finite(0.0), 0, numSimulations))
  {
    var s := Setup(projection, historicalReturnsPct, draw);
    if |RetirementRows(projection.rows, projection.retirementAge)| > 0 && |historicalReturnsPct| > 0 {
      var k := CountSuccesses(s, MaxNat(numSimulations));
      CountSuccessesBounded(s, MaxNat(numSimulations));
      if numSimulations > 0 {
        RateWithin(k, numSimulations);
      }
    }
  }

  /** Without a simulation count every call accounts for 1000 paths. */
  lemma DefaultThousandPaths(projection: ProjectionResult, historicalReturnsPct: seq<real>, draw: (nat, nat) -> real)
    requires UniformSource(draw)
    ensures var r := MonteCarloOf(projection, historicalReturnsPct, draw);
      && r.numSuccess + r.numFail == 1000
      && 0 <= r.numSuccess <= 1000
      && r.successRatePct.Finite? && 0.0 <= r.successRatePct.value <= 100.0
  {
    ResultCounts(projection, historicalReturnsPct, 1000, draw);
  }

  lemma RateWithin(k: nat, n: int)
    requires 0 < n && k <= n
    ensures 0.0 <= k as real / n as real * 100.0 <= 100.0
  {
    var q := k as real / n as real;
    assert q * n as real == k as real;
    assert (1.0 - q) * n as real >= 0.0;
    assert q * n as real >= 0.0;
  }

  predicate NoNeedsAndNoRuin(s: Simulation) {
    s.start >= 0.0
    && (forall y :: 0 <= y < |s.needs| ==> s.needs[y] == 0.0)
    && (forall i :: 0 <= i < |s.pool| ==> s.pool[i] >= -100.0)
  }

  lemma {:induction false} BalanceStaysNonNegative(s: Simulation, sim: nat, y: nat)
    requires Runnable(s) && NoNeedsAndNoRuin(s) && y <= |s.needs|
    ensures BalanceAt(s, sim, y) >= 0.0
  {
    if y > 0 {
      BalanceStaysNonNegative(s, sim, y - 1);
      var b := BalanceAt(s, sim, y - 1);
      var r := YearReturn(s, sim, y - 1);
      assert r >= -100.0;
      assert 1.0 + r / 100.0 >= 0.0;
      ProductNonNegative(b - 0.0, 1.0 + r / 100.0);
    }
  }

  /** With a non-negative start, no needs and no return below -100%, every path
      succeeds. */
  lemma NoNeedsAlwaysSucceeds(s: Simulation, sim: nat)
    requires Runnable(s) && NoNeedsAndNoRuin(s)
    ensures Succeeds(s, sim)
  {
    forall y | 0 <= y < |s.needs| ensures YearPasses(s, sim, y) {
      BalanceStaysNonNegative(s, sim, y);
      BalanceStaysNonNegative(s, sim, y + 1);
      assert s.needs[y] == 0.0;
      assert BalanceAt(s, sim, y + 1) == AfterYear(BalanceAt(s, sim, y), s.needs[y], YearReturn(s, sim, y));
    }
  }

  lemma {:induction false} AllSucceedCount(s: Simulation, k: nat)
    requires Runnable(s) && NoNeedsAndNoRuin(s)
    ensures CountSuccesses(s, k) == k
  {
    if k > 0 {
      AllSucceedCount(s, k - 1);
      NoNeedsAlwaysSucceeds(s, k - 1);
    }
  }

  /** ... so every simulation is a success and the rate is 100%. */
  lemma NoNeedsFullSuccess(projection: ProjectionResult, historicalReturnsPct: seq<real>, numSimulations: int, draw: (nat, nat) -> real)
    requires UniformSource(draw) && numSimulations > 0
    requires |RetirementRows(projection.rows, projection.retirementAge)| > 0 && |historicalReturnsPct| > 0
    requires NoNeedsAndNoRuin(Setup(projection, historicalReturnsPct, draw))
    ensures MonteCarloOf(projection, historicalReturnsPct, draw, numSimulations)
         == MonteCarloResult(Finite(100.0), numSimulations, 0)
  {
    AllSucceedCount(Setup(projection, historicalReturnsPct, draw), numSimulations);
    var n := numSimulations as real;
    assert n / n == 1.0;
  }

  lemma {:induction false} FirstFailureUpTo(s: Simulation, sim: nat, y: nat)
    requires Runnable(s) && y < |s.needs| && !YearPasses(s, sim, y)
    ensures exists f :: 0 <= f <= y && !YearPasses(s, sim, f) && forall k :: 0 <= k < f ==> YearPasses(s, sim, k)
  {
    if !(forall k :: 0 <= k < y ==> YearPasses(s, sim, k)) {
      var k :| 0 <= k < y && !YearPasses(s, sim, k);
      FirstFailureUpTo(s, sim, k);
    }
  }

  /** Every path starts at the sum of the five future values; a path that fails has a
      first failing year, every year before it passing. */
  lemma FirstFailingYear(projection: ProjectionResult, historicalReturnsPct: seq<real>, draw: (nat, nat) -> real, sim: nat)
    requires UniformSource(draw) && |historicalReturnsPct| > 0
    requires !Succeeds(Setup(projection, historicalReturnsPct, draw), sim)
    ensures BalanceAt(Setup(projection, historicalReturnsPct, draw), sim, 0) == SumOfTypes(projection.futureValuesAtRetirement)
    ensures var s := Setup(projection, historicalReturnsPct, draw);
      exists y :: 0 <= y < |s.needs| && !YearPasses(s, sim, y) && forall k :: 0 <= k < y ==> YearPasses(s, sim, k)
  {
    var s := Setup(projection, historicalReturnsPct, draw);
    var y :| 0 <= y < |s.needs| && !YearPasses(s, sim, y);
    FirstFailureUpTo(s, sim, y);
  }
}
