/** The year-by-year projection of `runProjection` (lib/projection.ts:177-449): the
    fixed inputs prepared before the year loop, the balances the loop carries, one row
    per plan year, and the properties of the rows. */
module Projection {
  import opened Money
  import opened Types
  import opened PrimeUtils
  import opened Accounts
  import opened Income

  // ------------------------------------------------------------ before the year loop

  /** What the year loop reads and never changes. */
  datatype Engine = Engine(
    state: CalculatorState,
    primeOptions: seq<AnnuityPrimeInputs>,
    ownerAgg: ByType<ByOwner<Aggregate>>,
    fv: ByType<real>,
    fvByOwner: ByType<ByOwner<real>>)

  /** Years of accumulation before retirement, on the client's ages. */
  function AccumulationYears(state: CalculatorState): nat {
    YearsToRetirement(state.client.currentAge, state.client.projectedRetirementAge)
  }

  /** Future value of a category on a path: the conversion path deducts premiums. */
  function PathFutureValue(state: CalculatorState, usePrime: bool, t: AccountType): real {
    FutureValue(AggregateOf(state.accounts, t, None), Deduction(state.annuityPrimeOptions, usePrime, t, None),
                AccumulationYears(state))
  }

  function PathFutureValueByOwner(state: CalculatorState, usePrime: bool, t: AccountType, o: Owner): real {
    FutureValue(AggregateOf(state.accounts, t, Some(o)), Deduction(state.annuityPrimeOptions, usePrime, t, Some(o)),
                AccumulationYears(state))
  }

  /** The engine's inputs as `runProjection` computes them on either path. */
  function Prepare(state: CalculatorState, usePrime: bool): Engine {
    Engine(state,
           if usePrime then state.annuityPrimeOptions else [],
           TabulateOwners((t, o) => AggregateOf(state.accounts, t, Some(o))),
           Tabulate(t => PathFutureValue(state, usePrime, t)),
           TabulateOwners((t, o) => PathFutureValueByOwner(state, usePrime, t, o)))
  }

  // ------------------------------------------------------------ the carried balances

  /** The fifteen running balances: five per category and ten per (category, owner). */
  datatype Balances = Balances(total: ByType<real>, owners: ByType<ByOwner<real>>)

  const NoDraws := AccountDraws(ByType(0.0, 0.0, 0.0, 0.0, 0.0), TabulateOwners((t, o) => 0.0))

  function ClientAgeAt(e: Engine, yearIndex: nat): int {
    e.state.client.currentAge + yearIndex
  }

  function SpouseAgeAt(e: Engine, yearIndex: nat): int {
    if e.state.hasSpouse then e.state.spouse.currentAge + yearIndex else 0
  }

  /** Draws happen in the years the client is at or past the retirement age. */
  predicate Retired(e: Engine, yearIndex: nat) {
    ClientAgeAt(e, yearIndex) >= e.state.client.projectedRetirementAge
  }

  /** A bucket's draw: its balance times its weighted distribution rate. */
  function OwnerDraw(balance: real, g: Aggregate): real {
    balance * (g.distributionPct / 100.0)
  }

  /** A bucket after its draw: withdraw, then grow, floored at 0. */
  function AfterDraw(balance: real, g: Aggregate): real {
    Max(0.0, (balance - OwnerDraw(balance, g)) * (1.0 + g.growthPct / 100.0))
  }

  /** Per-category totals as the sums of the client and spouse entries. */
  function OwnerSums(owners: ByType<ByOwner<real>>): (r: ByType<real>)
    ensures forall t :: r.Get(t) == owners.Get(t).client + owners.Get(t).spouse
  {
    Tabulate(t => owners.Get(t).client + owners.Get(t).spouse)
  }

  /** The year's draws: zero before retirement, per-owner draws and their sums after. */
  function Draws(e: Engine, bal: Balances, retired: bool): AccountDraws {
    if retired then
      var owners := TabulateOwners((t, o) => OwnerDraw(bal.owners.Get(t).Get(o), e.ownerAgg.Get(t).Get(o)));
      AccountDraws(OwnerSums(owners), owners)
    else NoDraws
  }

  /** The balances carried into the next year: unchanged before retirement; after,
      every bucket drawn and grown, and the category totals replaced by the owner sums. */
  function NextBalances(e: Engine, bal: Balances, retired: bool): Balances {
    if retired then
      var owners := TabulateOwners((t, o) => AfterDraw(bal.owners.Get(t).Get(o), e.ownerAgg.Get(t).Get(o)));
      Balances(OwnerSums(owners), owners)
    else bal
  }

  /** The balances at the start of plan year `yearIndex`. */
  function BalancesAt(e: Engine, yearIndex: nat): Balances {
    if yearIndex == 0 then Balances(e.fv, e.fvByOwner)
    else NextBalances(e, BalancesAt(e, yearIndex - 1), Retired(e, yearIndex - 1))
  }

  // ------------------------------------------------------------ one row

  /** The inflation-adjusted annual income goal. */
  function TargetGoal(client: ClientInfo, yearIndex: nat): real {
    client.currentMonthlyIncomeGoal * 12.0 * Pow(1.0 + client.inflationForIncomeGoalPct / 100.0, yearIndex)
  }

  /** Guaranteed income as a percentage of the annual total, 0 without a positive total. */
  function GuaranteedPct(guaranteed: real, annual: real): real {
    if annual > 0.0 then guaranteed / annual * 100.0 else 0.0
  }

  /** A row from the year's income streams, draws and opening portfolio. */
  function MakeRow(yearIndex: nat, clientAge: int, spouseAge: int, earnedClient: real, earnedSpouse: real,
                   ssClient: real, ssSpouse: real, pension: Split, annuities: Split, rental: Split,
                   prime: real, draws: AccountDraws, target: real, portfolio: real): ProjectionRow
  {
    var earned := earnedClient + earnedSpouse;
    var ss := ssClient + ssSpouse;
    var annual := earned + ss + pension.total + annuities.total + rental.total + prime + SumOfTypes(draws.total);
    var guaranteed := ss + pension.total + annuities.total + rental.total + prime;
    ProjectionRow(yearIndex, clientAge, spouseAge, earned, earnedClient, earnedSpouse, ss, ssClient, ssSpouse,
                  pension.total, annuities.total, rental.total,
                  pension.client + annuities.client + rental.client,
                  pension.spouse + annuities.spouse + rental.spouse,
                  prime, draws, annual, annual / 12.0, target, guaranteed, GuaranteedPct(guaranteed, annual), portfolio)
  }

  function SpouseSocialSecurity(state: CalculatorState, spouseAge: int): real {
    if state.hasSpouse then SocialSecurityIncome(state.guaranteedIncome.socialSecuritySpouse, spouseAge) else 0.0
  }

  /** Plan year `yearIndex`, opened with the balances `bal`. */
  function RowAt(e: Engine, yearIndex: nat, bal: Balances): ProjectionRow {
    var state := e.state;
    var gi := state.guaranteedIncome;
    var clientAge := ClientAgeAt(e, yearIndex);
    var spouseAge := SpouseAgeAt(e, yearIndex);
    MakeRow(yearIndex, clientAge, spouseAge,
            EarnedClient(state.income, clientAge, yearIndex, state.client.currentAge),
            EarnedSpouse(state.income, state.hasSpouse, spouseAge, yearIndex),
            SocialSecurityIncome(gi.socialSecurityClient, clientAge),
            SpouseSocialSecurity(state, spouseAge),
            StreamsIncome(PensionSources(gi.pensions), clientAge, spouseAge),
            StreamsIncome(PensionSources(gi.annuities), clientAge, spouseAge),
            StreamsIncome(RentalSources(gi.rentals), clientAge, spouseAge),
            PrimeIncome(e.primeOptions, clientAge, spouseAge),
            Draws(e, bal, Retired(e, yearIndex)),
            TargetGoal(state.client, yearIndex),
            SumOfTypes(bal.total))
  }

  /** The first `n` rows: row `i` is plan year `i` opened with that year's balances. */
  function Rows(e: Engine, n: nat): seq<ProjectionRow> {
    seq(n, (i: int) requires 0 <= i => RowAt(e, i, BalancesAt(e, i)))
  }

  /** One row per age from the current age through the plan age. */
  function RowCount(state: CalculatorState): nat {
    MaxNat(state.client.projectedPlanAge - state.client.currentAge + 1)
  }

  /** The result of `runProjection(state, usePrime)`. */
  function Project(state: CalculatorState, usePrime: bool): ProjectionResult {
    var e := Prepare(state, usePrime);
    ProjectionResult(Rows(e, RowCount(state)), e.fv, state.client.projectedRetirementAge)
  }

  // ------------------------------------------------------------ the engine as written

  /** The body of the year loop. */
  method YearRow(e: Engine, yearIndex: nat, bal: Balances) returns (row: ProjectionRow, next: Balances)
    ensures row == RowAt(e, yearIndex, bal)
    ensures next == NextBalances(e, bal, Retired(e, yearIndex))
  {
    var state := e.state;
    var gi := state.guaranteedIncome;
    var colaPct := state.income.colaPct;
    var clientAge := state.client.currentAge + yearIndex;
    var spouseAge := if state.hasSpouse then state.spouse.currentAge + yearIndex else 0;

    var earnedIncomeClient := 0.0;
    if clientAge < state.income.client.stopWorkingAge {
      earnedIncomeClient := Cola(state.income.client.currentIncomeAnnual, colaPct, yearIndex);
    }
    var earnedIncomeSpouse := 0.0;
    if state.hasSpouse && spouseAge < state.income.spouse.stopWorkingAge {
      earnedIncomeSpouse := Cola(state.income.spouse.currentIncomeAnnual, colaPct, yearIndex);
    }
    var side := SumSideIncome(state.income.sideIncomeEntries, colaPct, clientAge, yearIndex, state.client.currentAge);
    earnedIncomeClient := earnedIncomeClient + side;
    assert clientAge == ClientAgeAt(e, yearIndex) && spouseAge == SpouseAgeAt(e, yearIndex);
    assert earnedIncomeClient == EarnedClient(state.income, clientAge, yearIndex, state.client.currentAge);
    assert earnedIncomeSpouse == EarnedSpouse(state.income, state.hasSpouse, spouseAge, yearIndex);

    var ssClient := 0.0;
    if clientAge >= gi.socialSecurityClient.startAge {
      ssClient := Cola(gi.socialSecurityClient.monthlyBenefit * 12.0, gi.socialSecurityClient.colaPct,
                       clientAge - gi.socialSecurityClient.startAge);
    }
    var ssSpouse := 0.0;
    if state.hasSpouse && spouseAge >= gi.socialSecuritySpouse.startAge {
      ssSpouse := Cola(gi.socialSecuritySpouse.monthlyBenefit * 12.0, gi.socialSecuritySpouse.colaPct,
                       spouseAge - gi.socialSecuritySpouse.startAge);
    }
    assert ssClient == SocialSecurityIncome(gi.socialSecurityClient, clientAge);
    assert ssSpouse == SpouseSocialSecurity(state, spouseAge);

    var pension := CollectStreams(PensionSources(gi.pensions), clientAge, spouseAge);
    var annuities := CollectStreams(PensionSources(gi.annuities), clientAge, spouseAge);
    var rental := CollectStreams(RentalSources(gi.rentals), clientAge, spouseAge);
    var prime := PrimeIncome(e.primeOptions, clientAge, spouseAge);

    var retired := clientAge >= state.client.projectedRetirementAge;
    assert retired == Retired(e, yearIndex);
    var draws := Draws(e, bal, retired);
    next := NextBalances(e, bal, retired);

    row := MakeRow(yearIndex, clientAge, spouseAge, earnedIncomeClient, earnedIncomeSpouse, ssClient, ssSpouse,
                   pension, annuities, rental, prime, draws, TargetGoal(state.client, yearIndex), SumOfTypes(bal.total));
  }

  /** The part of `runProjection` before the year loop: premium deductions, future
      values and the per-owner aggregates. */
  method PrepareEngine(state: CalculatorState, usePrime: bool) returns (e: Engine)
    ensures e == Prepare(state, usePrime)
  {
    var retirementAge := state.client.projectedRetirementAge;
    var primeDeductions := PrimeDeductionsByType(state.annuityPrimeOptions, usePrime);
    var primeDeductionsByOwner := PrimeDeductionsByTypeAndOwner(state.annuityPrimeOptions, usePrime);
    var fv := FutureValuesAtRetirement(state, retirementAge, primeDeductions);
    var aggByOwner := AggregateByTypeAndOwner(state.accounts);
    var fvByOwner := FutureValuesByTypeAndOwner(state, retirementAge, primeDeductionsByOwner);
    var primeOptions := if usePrime then state.annuityPrimeOptions else [];
    e := Engine(state, primeOptions, aggByOwner, fv, fvByOwner);
    var p := Prepare(state, usePrime);
    ByTypeOwnerExtensional(aggByOwner, p.ownerAgg);
    ByTypeExtensional(fv, p.fv);
    ByTypeOwnerExtensional(fvByOwner, p.fvByOwner);
  }

  /** The year loop of `runProjection`: one row per age from the current age through
      the plan age, each year opened with the balances the previous one left. */
  method ProjectRows(e: Engine) returns (rows: seq<ProjectionRow>)
    ensures rows == Rows(e, RowCount(e.state))
  {
    // ages currentAge..projectedPlanAge, that is, year indices below RowCount
    var count := RowCount(e.state);
    var bal := Balances(e.fv, e.fvByOwner);
    rows := [];
    for yearIndex := 0 to count
      invariant RowsSoFar(e, yearIndex, rows, bal)
    {
      rows, bal := AppendYear(e, yearIndex, rows, bal);
    }
  }

  /** One pass of the year loop: the year's row appended and the balances moved on. */
  method AppendYear(e: Engine, yearIndex: nat, rows: seq<ProjectionRow>, bal: Balances)
      returns (rows': seq<ProjectionRow>, bal': Balances)
    requires RowsSoFar(e, yearIndex, rows, bal)
    ensures RowsSoFar(e, yearIndex + 1, rows', bal')
  {
    var row, next := YearRow(e, yearIndex, bal);
    RowsStep(e, yearIndex, rows, bal, row, next);
    rows' := rows + [row];
    bal' := next;
  }

  /** The loop state after `yearIndex` years: the rows so far and the balances that open
      the next year. */
  predicate RowsSoFar(e: Engine, yearIndex: nat, rows: seq<ProjectionRow>, bal: Balances) {
    rows == Rows(e, yearIndex) && bal == BalancesAt(e, yearIndex)
  }

  /** One more year appends that year's row and moves the balances on by one year. */
  lemma RowsStep(e: Engine, yearIndex: nat, rows: seq<ProjectionRow>, bal: Balances, row: ProjectionRow, next: Balances)
    requires RowsSoFar(e, yearIndex, rows, bal)
    requires row == RowAt(e, yearIndex, bal) && next == NextBalances(e, bal, Retired(e, yearIndex))
    ensures RowsSoFar(e, yearIndex + 1, rows + [row], next)
  {
    var longer := Rows(e, yearIndex + 1);
    forall i | 0 <= i < yearIndex + 1 ensures (rows + [row])[i] == longer[i] {
      if i < yearIndex {
        assert (rows + [row])[i] == rows[i];
      }
    }
  }

  /** `runProjection`: the rows on the chosen path, the future values at retirement
      (computed once more for the result) and the retirement age. */
  method RunProjection(state: CalculatorState, usePrime: bool) returns (result: ProjectionResult)
    ensures result == Project(state, usePrime)
  {
    var e := PrepareEngine(state, usePrime);
    var rows := ProjectRows(e);
    var primeDeductions := PrimeDeductionsByType(state.annuityPrimeOptions, usePrime);
    var fvAtRetirement := FutureValuesAtRetirement(state, state.client.projectedRetirementAge, primeDeductions);
    ByTypeExtensional(fvAtRetirement, e.fv);
    result := ProjectionResult(rows, fvAtRetirement, state.client.projectedRetirementAge);
  }

  // ------------------------------------------------------------ properties of the rows

  /** There are `n` rows and row `i` is plan year `i` opened with that year's balances. */
  lemma RowsShape(e: Engine, n: nat)
    ensures |Rows(e, n)| == n
    ensures forall i :: 0 <= i < n ==> Rows(e, n)[i] == RowAt(e, i, BalancesAt(e, i))
  {
  }

  /** One row per age from the current age through the plan age (none when the plan
      age is below the current age); row `i` is year `i` at client age `currentAge + i`
      and at spouse age `spouse.currentAge + i`, or 0 without a spouse. */
  lemma ProjectionRowsAndAges(state: CalculatorState, usePrime: bool)
    ensures var rows := Project(state, usePrime).rows;
      && (state.client.projectedPlanAge >= state.client.currentAge ==>
            |rows| == state.client.projectedPlanAge - state.client.currentAge + 1)
      && (state.client.projectedPlanAge < state.client.currentAge ==> |rows| == 0)
      && forall i :: 0 <= i < |rows| ==>
           rows[i].yearIndex == i
           && rows[i].clientAge == state.client.currentAge + i
           && rows[i].spouseAge == (if state.hasSpouse then state.spouse.currentAge + i else 0)
  {
    var e := Prepare(state, usePrime);
    var rows := Project(state, usePrime).rows;
    assert |rows| == RowCount(state);
    forall i | 0 <= i < |rows|
      ensures rows[i].yearIndex == i
      ensures rows[i].clientAge == state.client.currentAge + i
      ensures rows[i].spouseAge == (if state.hasSpouse then state.spouse.currentAge + i else 0)
    {
      RowFields(e, i, BalancesAt(e, i));
    }
  }

  /** A row carries its year index and the two ages of that year. */
  lemma RowFields(e: Engine, yearIndex: nat, bal: Balances)
    ensures RowAt(e, yearIndex, bal).yearIndex == yearIndex
    ensures RowAt(e, yearIndex, bal).clientAge == ClientAgeAt(e, yearIndex)
    ensures RowAt(e, yearIndex, bal).spouseAge == SpouseAgeAt(e, yearIndex)
  {
  }

  /** Before retirement every draw is 0; in every year each category's draw is its
      client draw plus its spouse draw. */
  lemma DrawRules(e: Engine, bal: Balances, retired: bool)
    ensures !retired ==> forall t :: Draws(e, bal, retired).total.Get(t) == 0.0
    ensures !retired ==> forall t, o :: Draws(e, bal, retired).byOwner.Get(t).Get(o) == 0.0
    ensures forall t :: Draws(e, bal, retired).total.Get(t)
                     == Draws(e, bal, retired).byOwner.Get(t).client + Draws(e, bal, retired).byOwner.Get(t).spouse
    ensures retired ==> forall t, o :: Draws(e, bal, retired).byOwner.Get(t).Get(o)
                                    == bal.owners.Get(t).Get(o) * (e.ownerAgg.Get(t).Get(o).distributionPct / 100.0)
  {
    if !retired {
      var d := Draws(e, bal, retired);
      assert d == NoDraws;
      forall t, o ensures d.total.Get(t) == 0.0 && d.byOwner.Get(t).Get(o) == 0.0 {
        assert d.byOwner.Get(t).Get(o) == 0.0;
        match t
        case Qualified =>
        case Roth =>
        case Taxable =>
        case Cash =>
        case Insurance =>
      }
    }
  }

  /** Every row of the projection obeys the draw rules, with the client age of the row. */
  lemma ProjectionDraws(state: CalculatorState, usePrime: bool)
    ensures var rows := Project(state, usePrime).rows;
      forall i :: 0 <= i < |rows| ==>
        (rows[i].clientAge < state.client.projectedRetirementAge ==>
           forall t, o :: rows[i].accountDraws.total.Get(t) == 0.0 && rows[i].accountDraws.byOwner.Get(t).Get(o) == 0.0)
        && forall t :: rows[i].accountDraws.total.Get(t)
                    == rows[i].accountDraws.byOwner.Get(t).client + rows[i].accountDraws.byOwner.Get(t).spouse
  {
    var e := Prepare(state, usePrime);
    RowsShape(e, RowCount(state));
    var rows := Project(state, usePrime).rows;
    forall i | 0 <= i < |rows|
      ensures (rows[i].clientAge < state.client.projectedRetirementAge ==>
                 forall t, o :: rows[i].accountDraws.total.Get(t) == 0.0 && rows[i].accountDraws.byOwner.Get(t).Get(o) == 0.0)
      ensures forall t :: rows[i].accountDraws.total.Get(t)
                       == rows[i].accountDraws.byOwner.Get(t).client + rows[i].accountDraws.byOwner.Get(t).spouse
    {
      DrawRules(e, BalancesAt(e, i), Retired(e, i));
    }
  }

  /** After a retirement year every bucket is at least 0, whatever the distribution rate
      (even above 100%) or the growth rate, and each category total is the sum of its
      two buckets; before retirement the balances are carried unchanged. */
  lemma NextBalancesFloor(e: Engine, bal: Balances, retired: bool)
    ensures retired ==> forall t, o :: NextBalances(e, bal, retired).owners.Get(t).Get(o) >= 0.0
    ensures retired ==> forall t :: NextBalances(e, bal, retired).total.Get(t)
                                 == NextBalances(e, bal, retired).owners.Get(t).client + NextBalances(e, bal, retired).owners.Get(t).spouse
    ensures !retired ==> NextBalances(e, bal, retired) == bal
  {
  }

  predicate OwnersNonNegative(bal: Balances) {
    forall t, o :: bal.owners.Get(t).Get(o) >= 0.0
  }

  /** From non-negative future values the per-owner balances stay non-negative in every
      year. */
  lemma {:induction false} BalancesStayNonNegative(e: Engine, yearIndex: nat)
    requires forall t, o :: e.fvByOwner.Get(t).Get(o) >= 0.0
    ensures OwnersNonNegative(BalancesAt(e, yearIndex))
  {
    if yearIndex > 0 {
      BalancesStayNonNegative(e, yearIndex - 1);
      NextBalancesFloor(e, BalancesAt(e, yearIndex - 1), Retired(e, yearIndex - 1));
    }
  }

  /** Once a retirement year has passed, the per-category balances opening each later
      year are the sums of the per-owner balances. */
  lemma TotalsAreOwnerSumsAfterRetirement(e: Engine, yearIndex: nat)
    requires yearIndex > 0 && Retired(e, yearIndex - 1)
    ensures forall t :: BalancesAt(e, yearIndex).total.Get(t)
                     == BalancesAt(e, yearIndex).owners.Get(t).client + BalancesAt(e, yearIndex).owners.Get(t).spouse
  {
    NextBalancesFloor(e, BalancesAt(e, yearIndex - 1), Retired(e, yearIndex - 1));
  }

  /** Until the first retirement year the balances are the future values at retirement,
      so the opening portfolio of each such year is their sum. */
  lemma {:induction false} BalancesBeforeRetirement(e: Engine, yearIndex: nat)
    requires forall j :: 0 <= j < yearIndex ==> !Retired(e, j)
    ensures BalancesAt(e, yearIndex) == Balances(e.fv, e.fvByOwner)
  {
    if yearIndex > 0 {
      BalancesBeforeRetirement(e, yearIndex - 1);
    }
  }

  /** The totals of a row: the annual total adds earned income, Social Security,
      pensions, other annuities, rental, the conversion payout and the five draws; the
      monthly total is a twelfth of it; guaranteed dollars leave out earned income and
      draws; the per-owner pension/annuity/rental amounts add up to the three streams. */
  lemma RowTotals(e: Engine, yearIndex: nat, bal: Balances)
    ensures var r := RowAt(e, yearIndex, bal);
      && r.earnedIncome == r.earnedIncomeClient + r.earnedIncomeSpouse
      && r.socialSecurity == r.socialSecurityClient + r.socialSecuritySpouse
      && r.annualTotal == r.earnedIncome + r.socialSecurity + r.pension + r.otherAnnuities + r.rental
                          + r.guaranteedFromPrime + SumOfTypes(r.accountDraws.total)
      && r.monthlyTotal * 12.0 == r.annualTotal
      && r.guaranteedDollars == r.socialSecurity + r.pension + r.otherAnnuities + r.rental + r.guaranteedFromPrime
      && r.pensionOtherRentalClient + r.pensionOtherRentalSpouse == r.pension + r.otherAnnuities + r.rental
      && r.portfolioTotalAtStartOfYear == SumOfTypes(bal.total)
  {
    var gi := e.state.guaranteedIncome;
    var c := ClientAgeAt(e, yearIndex);
    var s := SpouseAgeAt(e, yearIndex);
    StreamsSplitByOwner(PensionSources(gi.pensions), c, s);
    StreamsSplitByOwner(PensionSources(gi.annuities), c, s);
    StreamsSplitByOwner(RentalSources(gi.rentals), c, s);
  }

  /** Dividing `0 <= g <= a` by a positive `a`. */
  lemma ShareWithin(g: real, a: real)
    requires 0.0 <= g <= a && a > 0.0
    ensures 0.0 <= g / a * 100.0 <= 100.0
  {
    var q := g / a;
    assert q * a == g;
    assert (1.0 - q) * a >= 0.0;
    assert q * a >= 0.0;
  }

  /** The guaranteed percentage is 0 without a positive annual total, and lies in
      [0, 100] when every income component and every draw is non-negative. */
  lemma GuaranteedPctBounds(e: Engine, yearIndex: nat, bal: Balances)
    ensures var r := RowAt(e, yearIndex, bal);
      && (r.annualTotal <= 0.0 ==> r.guaranteedPct == 0.0)
      && (r.earnedIncome >= 0.0 && r.socialSecurity >= 0.0 && r.pension >= 0.0 && r.otherAnnuities >= 0.0
          && r.rental >= 0.0 && r.guaranteedFromPrime >= 0.0 && SumOfTypes(r.accountDraws.total) >= 0.0
          ==> 0.0 <= r.guaranteedPct <= 100.0)
  {
    var r := RowAt(e, yearIndex, bal);
    RowTotals(e, yearIndex, bal);
    if r.annualTotal > 0.0 && r.guaranteedDollars >= 0.0 && r.guaranteedDollars <= r.annualTotal {
      ShareWithin(r.guaranteedDollars, r.annualTotal);
    }
  }

  /** The goal starts at twelve monthly goals and grows by one inflation factor a year. */
  lemma TargetGoalGrowth(client: ClientInfo, yearIndex: nat)
    ensures TargetGoal(client, 0) == client.currentMonthlyIncomeGoal * 12.0
    ensures TargetGoal(client, yearIndex + 1)
         == TargetGoal(client, yearIndex) * (1.0 + client.inflationForIncomeGoalPct / 100.0)
  {
    PowSucc(1.0 + client.inflationForIncomeGoalPct / 100.0, yearIndex);
  }

  /** On the current path no option pays in any year and no premium is deducted: every
      future value is the undeducted accumulation. On the conversion path each category
      starts from its balance less its premium total. */
  lemma PathsAndPremiums(state: CalculatorState)
    ensures forall i :: 0 <= i < |Project(state, false).rows| ==> Project(state, false).rows[i].guaranteedFromPrime == 0.0
    ensures forall t :: Project(state, false).futureValuesAtRetirement.Get(t)
                     == Compound(AggregateOf(state.accounts, t, None).balance, AggregateOf(state.accounts, t, None).contributions,
                                 AggregateOf(state.accounts, t, None).growthPct, AccumulationYears(state))
    ensures forall t :: Project(state, true).futureValuesAtRetirement.Get(t)
                     == FutureValue(AggregateOf(state.accounts, t, None), PremiumTotal(state.annuityPrimeOptions, t, None),
                                    AccumulationYears(state))
  {
    var e := Prepare(state, false);
    RowsShape(e, RowCount(state));
  }

  /** The spouse's buckets accumulate for the client's years to retirement: the spouse's
      own ages do not enter the per-owner future values. */
  lemma SpouseBucketsUseClientYears(state: CalculatorState, usePrime: bool, spouse: SpouseInfo)
    ensures Prepare(state.(spouse := spouse), usePrime).fvByOwner == Prepare(state, usePrime).fvByOwner
    ensures forall t :: Prepare(state, usePrime).fvByOwner.Get(t).spouse
                     == FutureValue(AggregateOf(state.accounts, t, Some(Spouse)),
                                    Deduction(state.annuityPrimeOptions, usePrime, t, Some(Spouse)),
                                    YearsToRetirement(state.client.currentAge, state.client.projectedRetirementAge))
  {
    var p := Prepare(state, usePrime);
    var q := Prepare(state.(spouse := spouse), usePrime);
    ByTypeOwnerExtensional(q.fvByOwner, p.fvByOwner);
  }

  /** The first row opens with the sum of the five future values at retirement. */
  lemma FirstRowPortfolio(state: CalculatorState, usePrime: bool)
    requires |Project(state, usePrime).rows| > 0
    ensures Project(state, usePrime).rows[0].portfolioTotalAtStartOfYear
         == SumOfTypes(Project(state, usePrime).futureValuesAtRetirement)
  {
    RowsShape(Prepare(state, usePrime), RowCount(state));
  }
}
