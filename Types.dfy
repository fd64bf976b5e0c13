/** The calculator's input snapshot and the projection's output records
    (lib/types.ts and lib/projection-types.ts). Fields the engine never reads are not
    part of the model: the display-only ones (names, ids, labels, carrier, display
    mode) and the inputs read only by display code or by the data-entry forms: an
    option's `benefitOption` and `migaTermYears`, an annuity's current `balance`, and the
    state's `clientTaxRateAssumptionPct` and `distributionRateAssumptionPct`. */
module Types {
  import opened Money

  datatype AccountType = Qualified | Roth | Taxable | Cash | Insurance

  /** The order in which the engine walks the categories. */
  const AllTypes: seq<AccountType> := [Qualified, Roth, Taxable, Cash, Insurance]

  function TypeIndex(t: AccountType): (k: nat)
    ensures k < |AllTypes| && AllTypes[k] == t
  {
    match t
    case Qualified => 0
    case Roth => 1
    case Taxable => 2
    case Cash => 3
    case Insurance => 4
  }

  /** Owner of an account or an income source ("client" | "spouse"). */
  datatype Owner = Client | Spouse

  const AllOwners: seq<Owner> := [Client, Spouse]

  function OwnerIndex(o: Owner): (k: nat)
    ensures k < |AllOwners| && AllOwners[k] == o
  {
    match o
    case Client => 0
    case Spouse => 1
  }

  /** A record with one entry per account category (`Record<AccountType, T>`). */
  datatype ByType<T> = ByType(qualified: T, roth: T, taxable: T, cash: T, insurance: T) {
    function Get(t: AccountType): T {
      match t
      case Qualified => qualified
      case Roth => roth
      case Taxable => taxable
      case Cash => cash
      case Insurance => insurance
    }

    function Set(t: AccountType, v: T): (r: ByType<T>)
      ensures r.Get(t) == v
      ensures forall u :: u != t ==> r.Get(u) == Get(u)
    {
      match t
      case Qualified => this.(qualified := v)
      case Roth => this.(roth := v)
      case Taxable => this.(taxable := v)
      case Cash => this.(cash := v)
      case Insurance => this.(insurance := v)
    }
  }

  /** A record with one entry per owner (`Record<Owner, T>`). */
  datatype ByOwner<T> = ByOwner(client: T, spouse: T) {
    function Get(o: Owner): T {
      match o
      case Client => client
      case Spouse => spouse
    }

    function Set(o: Owner, v: T): (r: ByOwner<T>)
      ensures r.Get(o) == v
      ensures forall p :: p != o ==> r.Get(p) == Get(p)
    {
      match o
      case Client => this.(client := v)
      case Spouse => this.(spouse := v)
    }
  }

  /** The record whose entry for each category is `f` of that category. */
  function Tabulate<T>(f: AccountType -> T): (r: ByType<T>)
    ensures forall t :: r.Get(t) == f(t)
  {
    ByType(f(Qualified), f(Roth), f(Taxable), f(Cash), f(Insurance))
  }

  /** The record whose entry for each (category, owner) is `f` of that pair. */
  function TabulateOwners<T>(f: (AccountType, Owner) -> T): (r: ByType<ByOwner<T>>)
    ensures forall t, o :: r.Get(t).Get(o) == f(t, o)
  {
    var r := Tabulate(t => ByOwner(f(t, Client), f(t, Spouse)));
    assert forall t, o :: r.Get(t).Get(o) == f(t, o) by {
      forall t, o ensures r.Get(t).Get(o) == f(t, o) {
        assert r.Get(t) == ByOwner(f(t, Client), f(t, Spouse));
      }
    }
    r
  }

  /** The sum of the five per-category amounts. */
  function SumOfTypes(b: ByType<real>): real {
    b.qualified + b.roth + b.taxable + b.cash + b.insurance
  }

  lemma ByTypeExtensional<T>(x: ByType<T>, y: ByType<T>)
    requires forall t :: x.Get(t) == y.Get(t)
    ensures x == y
  {
    assert x.Get(Qualified) == y.Get(Qualified) && x.Get(Roth) == y.Get(Roth);
    assert x.Get(Taxable) == y.Get(Taxable) && x.Get(Cash) == y.Get(Cash);
    assert x.Get(Insurance) == y.Get(Insurance);
  }

  lemma ByTypeOwnerExtensional<T>(x: ByType<ByOwner<T>>, y: ByType<ByOwner<T>>)
    requires forall t, o :: x.Get(t).Get(o) == y.Get(t).Get(o)
    ensures x == y
  {
    forall t ensures x.Get(t) == y.Get(t) {
      assert x.Get(t).Get(Client) == y.Get(t).Get(Client);
      assert x.Get(t).Get(Spouse) == y.Get(t).Get(Spouse);
    }
    ByTypeExtensional(x, y);
  }

  // ---------------------------------------------------------------- inputs

  datatype ClientInfo = ClientInfo(
    currentAge: int,
    projectedRetirementAge: int,
    projectedPlanAge: int,
    currentMonthlyIncomeGoal: real,
    inflationForIncomeGoalPct: real)

  datatype SpouseInfo = SpouseInfo(
    currentAge: int,
    projectedRetirementAge: int,
    projectedPlanAge: int)

  datatype SideIncomeEntry = SideIncomeEntry(amount: real, startAge: int, endAge: int)

  datatype Employment = Employment(currentIncomeAnnual: real, stopWorkingAge: int)

  datatype IncomeInputs = IncomeInputs(
    colaPct: real,
    taxRatePct: Option<real>,
    client: Employment,
    spouse: Employment,
    sideIncomeEntries: seq<SideIncomeEntry>)

  datatype SocialSecurity = SocialSecurity(
    monthlyBenefit: real,
    startAge: int,
    colaPct: real,
    taxRatePct: Option<real>)

  /** A pension or an annuity-income source (`PensionOrAnnuityIncome`). */
  datatype PensionOrAnnuityIncome = PensionOrAnnuityIncome(
    amount: real,
    startAge: int,
    endAge: Option<int>,
    survivorPct: Option<real>,
    colaPct: real,
    taxRatePct: Option<real>,
    owner: Option<Owner>)

  datatype RentalIncome = RentalIncome(
    amount: real,
    startAge: int,
    endAge: Option<int>,
    colaPct: real,
    taxRatePct: Option<real>,
    owner: Option<Owner>)

  datatype GuaranteedIncomeInputs = GuaranteedIncomeInputs(
    socialSecurityClient: SocialSecurity,
    socialSecuritySpouse: SocialSecurity,
    pensions: seq<PensionOrAnnuityIncome>,
    annuities: seq<PensionOrAnnuityIncome>,
    rentals: seq<RentalIncome>)

  datatype AccountBucket = AccountBucket(
    kind: AccountType,
    owner: Option<Owner>,
    balance: real,
    contributions: real,
    growthRatePct: real,
    distributionRatePct: real,
    taxRatePct: real)

  /** Owner of an annuity-conversion option ("client" | "spouse" | "joint"). */
  datatype PrimeOwnerOption = PrimeClient | PrimeSpouse | PrimeJoint

  /** FIA pays a flat amount; MYGA pays a rate on the premium. */
  datatype PrimeProductType = FIA | MYGA

  /** An annuity-conversion ("ALIGN") option. */
  datatype AnnuityPrimeInputs = AnnuityPrimeInputs(
    premiumAmount: real,
    referencedAccountType: AccountType,
    incomeStartAge: int,
    productType: Option<PrimeProductType>,
    payoutAmount: Option<real>,
    migaRatePct: Option<real>,
    owner: PrimeOwnerOption)

  datatype CalculatorState = CalculatorState(
    hasSpouse: bool,
    client: ClientInfo,
    spouse: SpouseInfo,
    accountsTaxRatePct: Option<real>,
    income: IncomeInputs,
    guaranteedIncome: GuaranteedIncomeInputs,
    accounts: seq<AccountBucket>,
    annuityPrimeOptions: seq<AnnuityPrimeInputs>)

  /** Any account or income owner other than "spouse" is the client's. */
  function OwnerOf(owner: Option<Owner>): Owner {
    if owner == Some(Spouse) then Spouse else Client
  }

  /** Any option owner other than "spouse", "joint" included, is the client's. */
  function PrimeOwnerOf(owner: PrimeOwnerOption): Owner {
    if owner == PrimeSpouse then Spouse else Client
  }

  /** The age against which a source's start and end ages are compared. */
  function OwnerAge(o: Owner, clientAge: int, spouseAge: int): int {
    match o
    case Client => clientAge
    case Spouse => spouseAge
  }

  // ---------------------------------------------------------------- outputs

  /** Draws per category, in total and per owner, as the engine pushes them. */
  datatype AccountDraws = AccountDraws(total: ByType<real>, byOwner: ByType<ByOwner<real>>)

  /** One plan year, with the fields `runProjection` pushes. */
  datatype ProjectionRow = ProjectionRow(
    yearIndex: nat,
    clientAge: int,
    spouseAge: int,
    earnedIncome: real,
    earnedIncomeClient: real,
    earnedIncomeSpouse: real,
    socialSecurity: real,
    socialSecurityClient: real,
    socialSecuritySpouse: real,
    pension: real,
    otherAnnuities: real,
    rental: real,
    pensionOtherRentalClient: real,
    pensionOtherRentalSpouse: real,
    guaranteedFromPrime: real,
    accountDraws: AccountDraws,
    annualTotal: real,
    monthlyTotal: real,
    targetGoalAnnual: real,
    guaranteedDollars: real,
    guaranteedPct: real,
    portfolioTotalAtStartOfYear: real)

  datatype ProjectionResult = ProjectionResult(
    rows: seq<ProjectionRow>,
    futureValuesAtRetirement: ByType<real>,
    retirementAge: int)
}
