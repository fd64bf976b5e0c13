/** The income streams of one projection year (lib/projection.ts:217-295): earned and
    side income, Social Security, pensions, annuities and rentals gated by their
    owner's age and COLA-compounded from their start age, and the annuity-conversion
    payout, which is flat. */
module Income {
  import opened Money
  import opened Types
  import opened PrimeUtils

  // ------------------------------------------------------------ pensions, annuities, rentals

  /** What the engine reads of a pension, an annuity or a rental. */
  datatype Source = Source(amount: real, startAge: int, endAge: Option<int>, colaPct: real, owner: Option<Owner>)

  function PensionSource(p: PensionOrAnnuityIncome): Source {
    Source(p.amount, p.startAge, p.endAge, p.colaPct, p.owner)
  }

  function RentalSource(r: RentalIncome): Source {
    Source(r.amount, r.startAge, r.endAge, r.colaPct, r.owner)
  }

  function PensionSources(ps: seq<PensionOrAnnuityIncome>): seq<Source> {
    seq(|ps|, i requires 0 <= i < |ps| => PensionSource(ps[i]))
  }

  function RentalSources(rs: seq<RentalIncome>): seq<Source> {
    seq(|rs|, i requires 0 <= i < |rs| => RentalSource(rs[i]))
  }

  /** The age a source is gated on: the spouse's for a spouse-owned source, the
      client's for any other. */
  function SourceAge(s: Source, clientAge: int, spouseAge: int): int {
    OwnerAge(OwnerOf(s.owner), clientAge, spouseAge)
  }

  /** A source pays from its start age through its end age, both inclusive; without
      an end age it pays for life. */
  predicate Pays(s: Source, ownerAge: int) {
    ownerAge >= s.startAge && (s.endAge.None? || ownerAge <= s.endAge.value)
  }

  /** The annual amount of a source at the owner's age: twelve monthly amounts,
      COLA-compounded for the years since its start. */
  function StreamAmount(s: Source, ownerAge: int): real {
    if Pays(s, ownerAge) then Cola(s.amount * 12.0, s.colaPct, ownerAge - s.startAge) else 0.0
  }

  /** A year's income from a list of sources, in total and attributed to each owner. */
  datatype Split = Split(total: real, client: real, spouse: real)

  function StreamsIncome(sources: seq<Source>, clientAge: int, spouseAge: int): Split {
    if |sources| == 0 then Split(0.0, 0.0, 0.0)
    else
      var s := sources[|sources| - 1];
      var acc := StreamsIncome(sources[..|sources| - 1], clientAge, spouseAge);
      var amt := StreamAmount(s, SourceAge(s, clientAge, spouseAge));
      if OwnerOf(s.owner) == Spouse then Split(acc.total + amt, acc.client, acc.spouse + amt)
      else Split(acc.total + amt, acc.client + amt, acc.spouse)
  }

  /** One of the pension, annuity and rental loops of the year loop. */
  method CollectStreams(sources: seq<Source>, clientAge: int, spouseAge: int) returns (income: Split)
    ensures income == StreamsIncome(sources, clientAge, spouseAge)
  {
    var total, client, spouse := 0.0, 0.0, 0.0;
    for i := 0 to |sources|
      invariant Split(total, client, spouse) == StreamsIncome(sources[..i], clientAge, spouseAge)
    {
      var s := sources[i];
      assert sources[..i + 1][..i] == sources[..i];
      var ownerAge := if s.owner == Some(Spouse) then spouseAge else clientAge;
      var pastStart := ownerAge >= s.startAge;
      var beforeEnd := s.endAge.None? || ownerAge <= s.endAge.value;
      if pastStart && beforeEnd {
        var amt := Cola(s.amount * 12.0, s.colaPct, ownerAge - s.startAge);
        total := total + amt;
        if s.owner == Some(Spouse) {
          spouse := spouse + amt;
        } else {
          client := client + amt;
        }
      }
    }
    assert sources[..|sources|] == sources;
    income := Split(total, client, spouse);
  }

  /** Every amount is attributed to exactly one owner. */
  lemma {:induction false} StreamsSplitByOwner(sources: seq<Source>, clientAge: int, spouseAge: int)
    ensures StreamsIncome(sources, clientAge, spouseAge).total
         == StreamsIncome(sources, clientAge, spouseAge).client + StreamsIncome(sources, clientAge, spouseAge).spouse
  {
    if |sources| > 0 {
      StreamsSplitByOwner(sources[..|sources| - 1], clientAge, spouseAge);
    }
  }

  predicate NonNegativeSources(sources: seq<Source>) {
    forall i :: 0 <= i < |sources| ==> sources[i].amount >= 0.0 && sources[i].colaPct >= -100.0
  }

  /** Non-negative amounts and COLA rates of at least -100% give non-negative income. */
  lemma {:induction false} StreamsNonNegative(sources: seq<Source>, clientAge: int, spouseAge: int)
    requires NonNegativeSources(sources)
    ensures StreamsIncome(sources, clientAge, spouseAge).client >= 0.0
    ensures StreamsIncome(sources, clientAge, spouseAge).spouse >= 0.0
    ensures StreamsIncome(sources, clientAge, spouseAge).total >= 0.0
  {
    if |sources| > 0 {
      var n := |sources| - 1;
      var s := sources[n];
      assert NonNegativeSources(sources[..n]) by {
        forall i | 0 <= i < n ensures sources[..n][i] == sources[i] {}
      }
      StreamsNonNegative(sources[..n], clientAge, spouseAge);
      var age := SourceAge(s, clientAge, spouseAge);
      if Pays(s, age) {
        ColaNonNegative(s.amount * 12.0, s.colaPct, age - s.startAge);
      }
    }
  }

  /** A source pays nothing before its start age or after its end age; in two
      consecutive paying years the amount grows by exactly one COLA factor; and in its
      first year it pays twelve monthly amounts. */
  lemma StreamGating(s: Source, ownerAge: int)
    ensures ownerAge < s.startAge ==> StreamAmount(s, ownerAge) == 0.0
    ensures s.endAge.Some? && ownerAge > s.endAge.value ==> StreamAmount(s, ownerAge) == 0.0
    ensures Pays(s, ownerAge) && Pays(s, ownerAge + 1) ==>
              StreamAmount(s, ownerAge + 1) == StreamAmount(s, ownerAge) * (1.0 + s.colaPct / 100.0)
    ensures Pays(s, s.startAge) ==> StreamAmount(s, s.startAge) == s.amount * 12.0
  {
    if Pays(s, ownerAge) && Pays(s, ownerAge + 1) {
      ColaNextYear(s.amount * 12.0, s.colaPct, ownerAge - s.startAge);
    }
  }

  // ------------------------------------------------------------ Social Security

  /** One Social Security benefit at its owner's age. */
  function SocialSecurityIncome(ss: SocialSecurity, age: int): (r: real)
    ensures age < ss.startAge ==> r == 0.0
    ensures age >= ss.startAge && ss.monthlyBenefit >= 0.0 && ss.colaPct >= 0.0 ==> r >= ss.monthlyBenefit * 12.0
  {
    if age >= ss.startAge then Cola(ss.monthlyBenefit * 12.0, ss.colaPct, age - ss.startAge) else 0.0
  }

  /** Nothing before the start age, twelve monthly benefits at it, then one COLA factor
      per year. */
  lemma SocialSecurityRules(ss: SocialSecurity, age: int)
    ensures age < ss.startAge ==> SocialSecurityIncome(ss, age) == 0.0
    ensures SocialSecurityIncome(ss, ss.startAge) == ss.monthlyBenefit * 12.0
    ensures age >= ss.startAge ==>
              SocialSecurityIncome(ss, age + 1) == SocialSecurityIncome(ss, age) * (1.0 + ss.colaPct / 100.0)
  {
    if age >= ss.startAge {
      ColaNextYear(ss.monthlyBenefit * 12.0, ss.colaPct, age - ss.startAge);
    }
  }

  // ------------------------------------------------------------ earned and side income

  /** A side-income entry pays while the client's age is within its (inclusive) range,
      COLA-compounded from the plan year in which it starts. */
  function SideAmount(side: SideIncomeEntry, colaPct: real, clientAge: int, yearIndex: nat, startAge: int): real {
    if clientAge >= side.startAge && clientAge <= side.endAge
    then Cola(side.amount, colaPct, MaxNat(yearIndex - (side.startAge - startAge)))
    else 0.0
  }

  function SideIncome(entries: seq<SideIncomeEntry>, colaPct: real, clientAge: int, yearIndex: nat, startAge: int): real {
    if |entries| == 0 then 0.0
    else
      SideIncome(entries[..|entries| - 1], colaPct, clientAge, yearIndex, startAge)
        + SideAmount(entries[|entries| - 1], colaPct, clientAge, yearIndex, startAge)
  }

  /** The side-income loop of the year loop. */
  method SumSideIncome(entries: seq<SideIncomeEntry>, colaPct: real, clientAge: int, yearIndex: nat, startAge: int)
    returns (total: real)
    ensures total == SideIncome(entries, colaPct, clientAge, yearIndex, startAge)
  {
    total := 0.0;
    for i := 0 to |entries|
      invariant total == SideIncome(entries[..i], colaPct, clientAge, yearIndex, startAge)
    {
      var side := entries[i];
      assert entries[..i + 1][..i] == entries[..i];
      if clientAge >= side.startAge && clientAge <= side.endAge {
        total := total + Cola(side.amount, colaPct, MaxNat(yearIndex - (side.startAge - startAge)));
      }
    }
    assert entries[..|entries|] == entries;
  }

  /** A plan year's side income counts entries whose range holds the client's age and
      no other. */
  lemma {:induction false} SideIncomeOutsideRanges(entries: seq<SideIncomeEntry>, colaPct: real, clientAge: int, yearIndex: nat, startAge: int)
    requires forall i :: 0 <= i < |entries| ==> clientAge < entries[i].startAge || clientAge > entries[i].endAge
    ensures SideIncome(entries, colaPct, clientAge, yearIndex, startAge) == 0.0
  {
    if |entries| > 0 {
      SideIncomeOutsideRanges(entries[..|entries| - 1], colaPct, clientAge, yearIndex, startAge);
    }
  }

  /** In the year the client reaches an entry's start age, the entry pays its amount
      uncompounded. */
  lemma SideAmountAtStart(side: SideIncomeEntry, colaPct: real, yearIndex: nat, startAge: int)
    requires side.startAge <= side.endAge && side.startAge == startAge + yearIndex
    ensures SideAmount(side, colaPct, startAge + yearIndex, yearIndex, startAge) == side.amount
  {
  }

  /** The client's earned income: salary (with the plan COLA) before the stop-working
      age, plus side income, which is not cut off at that age. */
  function EarnedClient(income: IncomeInputs, clientAge: int, yearIndex: nat, startAge: int): real {
    (if clientAge < income.client.stopWorkingAge then Cola(income.client.currentIncomeAnnual, income.colaPct, yearIndex) else 0.0)
      + SideIncome(income.sideIncomeEntries, income.colaPct, clientAge, yearIndex, startAge)
  }

  /** The spouse's salary, when there is a spouse, before the spouse's stop-working age. */
  function EarnedSpouse(income: IncomeInputs, hasSpouse: bool, spouseAge: int, yearIndex: nat): real {
    if hasSpouse && spouseAge < income.spouse.stopWorkingAge
    then Cola(income.spouse.currentIncomeAnnual, income.colaPct, yearIndex)
    else 0.0
  }

  /** At or after the stop-working ages only side income remains. */
  lemma EarnedAfterStopping(income: IncomeInputs, hasSpouse: bool, clientAge: int, spouseAge: int, yearIndex: nat, startAge: int)
    requires clientAge >= income.client.stopWorkingAge
    ensures EarnedClient(income, clientAge, yearIndex, startAge)
         == SideIncome(income.sideIncomeEntries, income.colaPct, clientAge, yearIndex, startAge)
    ensures spouseAge >= income.spouse.stopWorkingAge || !hasSpouse ==> EarnedSpouse(income, hasSpouse, spouseAge, yearIndex) == 0.0
  {
  }

  // ------------------------------------------------------------ annuity-conversion payout

  /** The age an option's income start is compared with: the spouse's for a
      spouse-owned option, the client's otherwise ("joint" included). */
  function PrimeAge(opt: AnnuityPrimeInputs, clientAge: int, spouseAge: int): int {
    OwnerAge(PrimeOwnerOf(opt.owner), clientAge, spouseAge)
  }

  /** The filter of the payout sum: started, and a positive payout. The premium and
      the validity check are not consulted. */
  predicate PrimePays(opt: AnnuityPrimeInputs, clientAge: int, spouseAge: int) {
    PrimeAge(opt, clientAge, spouseAge) >= opt.incomeStartAge && AnnualPayout(opt) > 0.0
  }

  /** `guaranteedFromPrime`: the flat payouts of the options that pay this year. */
  function PrimeIncome(options: seq<AnnuityPrimeInputs>, clientAge: int, spouseAge: int): (r: real)
    ensures r >= 0.0
  {
    if |options| == 0 then 0.0
    else
      var opt := options[|options| - 1];
      PrimeIncome(options[..|options| - 1], clientAge, spouseAge) + (if PrimePays(opt, clientAge, spouseAge) then AnnualPayout(opt) else 0.0)
  }

  /** As both owners age the payout sum never drops: an option, once started, pays the
      same flat amount every later year. */
  lemma {:induction false} PrimeIncomeMonotone(options: seq<AnnuityPrimeInputs>, clientAge: int, spouseAge: int, laterClientAge: int, laterSpouseAge: int)
    requires clientAge <= laterClientAge && spouseAge <= laterSpouseAge
    ensures PrimeIncome(options, clientAge, spouseAge) <= PrimeIncome(options, laterClientAge, laterSpouseAge)
  {
    if |options| > 0 {
      PrimeIncomeMonotone(options[..|options| - 1], clientAge, spouseAge, laterClientAge, laterSpouseAge);
    }
  }

  predicate AllStarted(options: seq<AnnuityPrimeInputs>, clientAge: int, spouseAge: int) {
    forall i :: 0 <= i < |options| ==> PrimeAge(options[i], clientAge, spouseAge) >= options[i].incomeStartAge
  }

  /** Once every option has started the payout sum is the same in every later year:
      there is no COLA on it. */
  lemma {:induction false} PrimeIncomeFlatOnceStarted(options: seq<AnnuityPrimeInputs>, clientAge: int, spouseAge: int, laterClientAge: int, laterSpouseAge: int)
    requires AllStarted(options, clientAge, spouseAge)
    requires clientAge <= laterClientAge && spouseAge <= laterSpouseAge
    ensures PrimeIncome(options, laterClientAge, laterSpouseAge) == PrimeIncome(options, clientAge, spouseAge)
  {
    if |options| > 0 {
      var n := |options| - 1;
      assert AllStarted(options[..n], clientAge, spouseAge) by {
        forall i | 0 <= i < n ensures options[..n][i] == options[i] {}
      }
      PrimeIncomeFlatOnceStarted(options[..n], clientAge, spouseAge, laterClientAge, laterSpouseAge);
      assert PrimeAge(options[n], clientAge, spouseAge) >= options[n].incomeStartAge;
    }
  }

  /** An option pays from its owner's start age whatever its premium: one without a
      positive premium is invalid yet still counted when its payout is positive. */
  lemma PrimePaysWithoutPremium(opt: AnnuityPrimeInputs, clientAge: int, spouseAge: int)
    requires opt.premiumAmount <= 0.0 && AnnualPayout(opt) > 0.0
    requires PrimeAge(opt, clientAge, spouseAge) >= opt.incomeStartAge
    ensures !IsValid(opt)
    ensures PrimeIncome([opt], clientAge, spouseAge) == AnnualPayout(opt)
  {
    assert [opt][..0] == [];
  }

  /** A joint option starts on the client's age, not the spouse's. */
  lemma JointOptionUsesClientAge(opt: AnnuityPrimeInputs, clientAge: int, spouseAge: int)
    requires opt.owner == PrimeJoint
    ensures PrimePays(opt, clientAge, spouseAge) <==> clientAge >= opt.incomeStartAge && AnnualPayout(opt) > 0.0
  {
  }
}
