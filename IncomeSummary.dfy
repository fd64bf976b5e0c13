/** The computations behind the income summary table
    (components/CurrentIncomeSummary.tsx): the post-tax view of a projection row, the
    choice of the four tax rates, and the current balance per account category. */
module IncomeSummary {
  import opened Money
  import opened Types
  import opened Accounts
  import opened Projection

  /** The four rates of the post-tax view, in percent. */
  datatype TaxRates = TaxRates(earnedPct: real, ssPct: real, pensionOtherPct: real, accountsPct: real)

  /** What `applyTax` returns. */
  datatype PostTaxRow = PostTaxRow(
    earnedIncome: real,
    socialSecurity: real,
    pensionOther: real,
    combinedDraws: real,
    annualTotal: real,
    monthlyTotal: real,
    guaranteedPct: real,
    guaranteedDollars: real)

  /** An amount after a tax of `pct` percent. */
  function PostTax(value: real, pct: real): real {
    value * (1.0 - pct / 100.0)
  }

  /** `applyTax`: earned income, Social Security, the pension/annuity/rental/payout group
      and the combined draws each after their own rate. */
  function ApplyTax(row: ProjectionRow, rates: TaxRates): (r: PostTaxRow)
    ensures r.annualTotal == r.earnedIncome + r.socialSecurity + r.pensionOther + r.combinedDraws
    ensures r.guaranteedDollars == r.socialSecurity + r.pensionOther
    ensures r.monthlyTotal * 12.0 == r.annualTotal
    ensures r.annualTotal > 0.0 ==> r.guaranteedPct * r.annualTotal == r.guaranteedDollars * 100.0
    ensures r.annualTotal <= 0.0 ==> r.guaranteedPct == 0.0
  {
    var earned := PostTax(row.earnedIncome, rates.earnedPct);
    var ss := PostTax(row.socialSecurity, rates.ssPct);
    var pensionOnly := PostTax(row.pension + row.otherAnnuities + row.rental, rates.pensionOtherPct);
    var annuityGuaranteed := PostTax(row.guaranteedFromPrime, rates.pensionOtherPct);
    var pensionOther := pensionOnly + annuityGuaranteed;
    var draws := row.accountDraws.total.qualified + row.accountDraws.total.roth + row.accountDraws.total.taxable
                 + row.accountDraws.total.cash + row.accountDraws.total.insurance;
    var drawsPostTax := PostTax(draws, rates.accountsPct);
    var annualTotal := earned + ss + pensionOther + drawsPostTax;
    var guaranteedDollars := ss + pensionOther;
    PostTaxRow(earned, ss, pensionOther, drawsPostTax, annualTotal, annualTotal / 12.0,
               GuaranteedPct(guaranteedDollars, annualTotal), guaranteedDollars)
  }

  /** With all four rates 0 the post-tax view of a projection row repeats the row's own
      annual total, monthly total, guaranteed dollars and guaranteed percentage. */
  lemma ZeroTaxIsIdentity(e: Engine, yearIndex: nat, bal: Balances)
    ensures var row := RowAt(e, yearIndex, bal);
      var v := ApplyTax(row, TaxRates(0.0, 0.0, 0.0, 0.0));
      && v.annualTotal == row.annualTotal
      && v.monthlyTotal == row.monthlyTotal
      && v.guaranteedDollars == row.guaranteedDollars
      && v.guaranteedPct == row.guaranteedPct
      && v.earnedIncome == row.earnedIncome
      && v.combinedDraws == SumOfTypes(row.accountDraws.total)
  {
    RowTotals(e, yearIndex, bal);
  }

  /** One rate for every stream takes exactly that share off the row's annual total and
      guaranteed dollars. */
  lemma UniformRateScalesTotals(e: Engine, yearIndex: nat, bal: Balances, pct: real)
    ensures var row := RowAt(e, yearIndex, bal);
      var v := ApplyTax(row, TaxRates(pct, pct, pct, pct));
      v.annualTotal == PostTax(row.annualTotal, pct) && v.guaranteedDollars == PostTax(row.guaranteedDollars, pct)
  {
    RowTotals(e, yearIndex, bal);
    UniformRateScalesRow(RowAt(e, yearIndex, bal), pct);
  }

  /** The same for any row whose totals are sums of its streams as the engine forms them. */
  lemma UniformRateScalesRow(row: ProjectionRow, pct: real)
    requires row.annualTotal == row.earnedIncome + row.socialSecurity + row.pension + row.otherAnnuities + row.rental
                                + row.guaranteedFromPrime + SumOfTypes(row.accountDraws.total)
    requires row.guaranteedDollars == row.socialSecurity + row.pension + row.otherAnnuities + row.rental + row.guaranteedFromPrime
    ensures var v := ApplyTax(row, TaxRates(pct, pct, pct, pct));
      v.annualTotal == PostTax(row.annualTotal, pct) && v.guaranteedDollars == PostTax(row.guaranteedDollars, pct)
  {
    PostTaxAdds(row.pension + row.otherAnnuities + row.rental, row.guaranteedFromPrime, pct);
    PostTaxAdds(row.socialSecurity, row.pension + row.otherAnnuities + row.rental + row.guaranteedFromPrime, pct);
    PostTaxAdds(row.earnedIncome, row.guaranteedDollars, pct);
    PostTaxAdds(row.earnedIncome + row.guaranteedDollars, SumOfTypes(row.accountDraws.total), pct);
  }

  /** Taxing at one rate distributes over a sum. */
  lemma PostTaxAdds(x: real, y: real, pct: real)
    ensures PostTax(x + y, pct) == PostTax(x, pct) + PostTax(y, pct)
  {
    var k := 1.0 - pct / 100.0;
    assert (x + y) * k == x * k + y * k;
  }

  lemma TaxedPart(x: real, pct: real)
    requires x >= 0.0 && 0.0 <= pct <= 100.0
    ensures 0.0 <= PostTax(x, pct) <= x
  {
    var k := 1.0 - pct / 100.0;
    assert 0.0 <= k <= 1.0;
    assert x * (1.0 - k) >= 0.0;
    assert x * k >= 0.0;
  }

  /** With rates in [0, 100] and non-negative streams, tax never raises a total nor
      makes it negative, and the guaranteed percentage is 0 without a positive total. */
  lemma TaxNeverRaisesTotal(row: ProjectionRow, rates: TaxRates)
    requires 0.0 <= rates.earnedPct <= 100.0 && 0.0 <= rates.ssPct <= 100.0
    requires 0.0 <= rates.pensionOtherPct <= 100.0 && 0.0 <= rates.accountsPct <= 100.0
    requires row.earnedIncome >= 0.0 && row.socialSecurity >= 0.0 && row.guaranteedFromPrime >= 0.0
    requires row.pension + row.otherAnnuities + row.rental >= 0.0 && SumOfTypes(row.accountDraws.total) >= 0.0
    ensures var v := ApplyTax(row, rates);
      && 0.0 <= v.annualTotal
         <= row.earnedIncome + row.socialSecurity + row.pension + row.otherAnnuities + row.rental
            + row.guaranteedFromPrime + SumOfTypes(row.accountDraws.total)
      && 0.0 <= v.guaranteedDollars <= v.annualTotal
      && (v.annualTotal <= 0.0 ==> v.guaranteedPct == 0.0)
  {
    TaxedPart(row.earnedIncome, rates.earnedPct);
    TaxedPart(row.socialSecurity, rates.ssPct);
    TaxedPart(row.pension + row.otherAnnuities + row.rental, rates.pensionOtherPct);
    TaxedPart(row.guaranteedFromPrime, rates.pensionOtherPct);
    TaxedPart(SumOfTypes(row.accountDraws.total), rates.accountsPct);
  }

  // ------------------------------------------------------------ choosing the rates

  /** The first element's rate, if there is a first element and it has one. */
  function FirstPensionRate(ps: seq<PensionOrAnnuityIncome>): Option<real> {
    if |ps| > 0 then ps[0].taxRatePct else None
  }

  function FirstRentalRate(rs: seq<RentalIncome>): Option<real> {
    if |rs| > 0 then rs[0].taxRatePct else None
  }

  /** `a ?? b` on optional rates. */
  function OrElse(a: Option<real>, b: Option<real>): Option<real> {
    if a.Some? then a else b
  }

  /** The `taxRates` memo: the income rate for earned income, the mean of the two Social
      Security rates, the first rate found among the first pension, the first annuity
      and the first rental, and the accounts rate; an absent rate counts as 0. */
  function SelectTaxRates(income: IncomeInputs, gi: GuaranteedIncomeInputs, accountsTaxRatePct: Option<real>): (r: TaxRates)
    ensures r.pensionOtherPct == 0.0
            || (|gi.pensions| > 0 && gi.pensions[0].taxRatePct == Some(r.pensionOtherPct))
            || (|gi.annuities| > 0 && gi.annuities[0].taxRatePct == Some(r.pensionOtherPct))
            || (|gi.rentals| > 0 && gi.rentals[0].taxRatePct == Some(r.pensionOtherPct))
  {
    var ssClient := gi.socialSecurityClient.taxRatePct.GetOr(0.0);
    var ssSpouse := gi.socialSecuritySpouse.taxRatePct.GetOr(0.0);
    var pensionOther := OrElse(FirstPensionRate(gi.pensions), OrElse(FirstPensionRate(gi.annuities), FirstRentalRate(gi.rentals)));
    TaxRates(income.taxRatePct.GetOr(0.0), (ssClient + ssSpouse) / 2.0, pensionOther.GetOr(0.0), accountsTaxRatePct.GetOr(0.0))
  }

  /** The Social Security rate lies between the two owners' rates (absent ones as 0);
      the pension/other rate is the first pension's when it has one, else the first
      annuity's, else the first rental's, else 0. */
  lemma TaxRateSelection(income: IncomeInputs, gi: GuaranteedIncomeInputs, accountsTaxRatePct: Option<real>)
    ensures var r := SelectTaxRates(income, gi, accountsTaxRatePct);
      var a := gi.socialSecurityClient.taxRatePct.GetOr(0.0);
      var b := gi.socialSecuritySpouse.taxRatePct.GetOr(0.0);
      && r.ssPct * 2.0 == a + b
      && (a <= b ==> a <= r.ssPct <= b) && (b <= a ==> b <= r.ssPct <= a)
      && (|gi.pensions| > 0 && gi.pensions[0].taxRatePct.Some? ==> r.pensionOtherPct == gi.pensions[0].taxRatePct.value)
      && ((|gi.pensions| == 0 || gi.pensions[0].taxRatePct.None?) && |gi.annuities| > 0 && gi.annuities[0].taxRatePct.Some? ==>
            r.pensionOtherPct == gi.annuities[0].taxRatePct.value)
      && ((|gi.pensions| == 0 || gi.pensions[0].taxRatePct.None?) && (|gi.annuities| == 0 || gi.annuities[0].taxRatePct.None?)
          && |gi.rentals| > 0 && gi.rentals[0].taxRatePct.Some? ==>
            r.pensionOtherPct == gi.rentals[0].taxRatePct.value)
      && (FirstPensionRate(gi.pensions).None? && FirstPensionRate(gi.annuities).None? && FirstRentalRate(gi.rentals).None? ==>
            r.pensionOtherPct == 0.0)
      && r.earnedPct == income.taxRatePct.GetOr(0.0) && r.accountsPct == accountsTaxRatePct.GetOr(0.0)
  {
  }

  // ------------------------------------------------------------ current balances

  /** `accountsCurrentByType`: each account's balance added to its category. */
  method AccountsCurrentByType(accounts: seq<AccountBucket>) returns (totals: ByType<real>)
    ensures forall t :: totals.Get(t) == Total(accounts, t, None, Balance)
  {
    totals := ByType(0.0, 0.0, 0.0, 0.0, 0.0);
    for i := 0 to |accounts|
      invariant forall t :: totals.Get(t) == Total(accounts[..i], t, None, Balance)
    {
      var acc := accounts[i];
      assert accounts[..i + 1][..i] == accounts[..i];
      totals := totals.Set(acc.kind, totals.Get(acc.kind) + acc.balance);
    }
    assert accounts[..|accounts|] == accounts;
  }

  /** The sum of every account balance. */
  function AllBalances(accounts: seq<AccountBucket>): real {
    if |accounts| == 0 then 0.0 else AllBalances(accounts[..|accounts| - 1]) + accounts[|accounts| - 1].balance
  }

  /** The current balance of a category is the balance the projection aggregates for it. */
  function CurrentByType(accounts: seq<AccountBucket>): (r: ByType<real>)
    ensures forall t :: r.Get(t) == AggregateOf(accounts, t, None).balance
  {
    Tabulate(t => Total(accounts, t, None, Balance))
  }

  /** `accountsCurrentTotal`: the five category totals added up. */
  function AccountsCurrentTotal(totals: ByType<real>): (r: real)
    ensures (forall t :: totals.Get(t) >= 0.0) ==> forall t :: 0.0 <= totals.Get(t) <= r
  {
    assert (forall t :: totals.Get(t) >= 0.0) ==> forall t :: 0.0 <= totals.Get(t) <= SumOfTypes(totals) by {
      if forall t :: totals.Get(t) >= 0.0 {
        assert totals.Get(Qualified) >= 0.0 && totals.Get(Roth) >= 0.0 && totals.Get(Taxable) >= 0.0;
        assert totals.Get(Cash) >= 0.0 && totals.Get(Insurance) >= 0.0;
      }
    }
    SumOfTypes(totals)
  }

  /** The current total is the sum of all account balances: every account belongs to
      exactly one category. */
  lemma {:induction false} CurrentTotalIsAllBalances(accounts: seq<AccountBucket>)
    ensures AccountsCurrentTotal(CurrentByType(accounts)) == AllBalances(accounts)
  {
    if |accounts| > 0 {
      CurrentTotalIsAllBalances(accounts[..|accounts| - 1]);
    }
  }
}
