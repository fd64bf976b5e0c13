/** Account aggregation, annuity-premium deductions and future values at retirement
    (lib/projection.ts:23-174). */
module Accounts {
  import opened Money
  import opened Types

  // ------------------------------------------------------------ aggregation

  datatype RateKind = Growth | Distribution

  /** What a pass over the accounts adds up: a balance, a contribution, or a
      balance-weighted rate numerator. */
  datatype Measure = Balance | Contributions | Weighted(rate: RateKind)

  function RateOf(a: AccountBucket, k: RateKind): real {
    match k
    case Growth => a.growthRatePct
    case Distribution => a.distributionRatePct
  }

  function MeasureOf(a: AccountBucket, m: Measure): real {
    match m
    case Balance => a.balance
    case Contributions => a.contributions
    case Weighted(k) => a.balance * RateOf(a, k)
  }

  /** The account belongs to category `t` and, when an owner is given, to that owner. */
  predicate Matches(a: AccountBucket, t: AccountType, o: Option<Owner>) {
    a.kind == t && (o.None? || OwnerOf(a.owner) == o.value)
  }

  /** Sum of a measure over the accounts of a category (and owner). */
  function Total(accounts: seq<AccountBucket>, t: AccountType, o: Option<Owner>, m: Measure): real {
    if |accounts| == 0 then 0.0
    else
      var a := accounts[|accounts| - 1];
      Total(accounts[..|accounts| - 1], t, o, m) + (if Matches(a, t, o) then MeasureOf(a, m) else 0.0)
  }

  /** A balance-weighted rate: numerator over total balance, 0 without a positive balance. */
  function WeightedRate(weighted: real, balance: real): real {
    if balance > 0.0 then weighted / balance else 0.0
  }

  /** Aggregated category (or category and owner) as the engine keeps it. */
  datatype Aggregate = Aggregate(balance: real, contributions: real, growthPct: real, distributionPct: real)

  const NoAccounts := Aggregate(0.0, 0.0, 0.0, 0.0)

  function AggregateOf(accounts: seq<AccountBucket>, t: AccountType, o: Option<Owner>): Aggregate {
    var b := Total(accounts, t, o, Balance);
    Aggregate(b, Total(accounts, t, o, Contributions),
              WeightedRate(Total(accounts, t, o, Weighted(Growth)), b),
              WeightedRate(Total(accounts, t, o, Weighted(Distribution)), b))
  }

  function RateOfAggregate(g: Aggregate, k: RateKind): real {
    match k
    case Growth => g.growthPct
    case Distribution => g.distributionPct
  }

  /** `agg[a.type] += v`. */
  function AddToTypeBucket(sums: ByType<real>, a: AccountBucket, v: real): (r: ByType<real>)
    ensures forall t :: r.Get(t) == sums.Get(t) + (if Matches(a, t, None) then v else 0.0)
  {
    sums.Set(a.kind, sums.Get(a.kind) + v)
  }

  /** Adding one more account's measure to its category keeps every category equal to
      its total over the accounts seen so far. */
  lemma TypeBucketStep(accounts: seq<AccountBucket>, i: nat, sums: ByType<real>, m: Measure, v: real)
    requires i < |accounts| && v == MeasureOf(accounts[i], m)
    requires forall t :: sums.Get(t) == Total(accounts[..i], t, None, m)
    ensures forall t :: AddToTypeBucket(sums, accounts[i], v).Get(t) == Total(accounts[..i + 1], t, None, m)
  {
    assert accounts[..i + 1][..i] == accounts[..i];
  }

  /** First pass of `aggregateAccountsByType`: balances, contributions and weighted
      numerators per category. */
  method SumByType(accounts: seq<AccountBucket>)
    returns (balance: ByType<real>, contributions: ByType<real>, weightedGrowth: ByType<real>, weightedDist: ByType<real>)
    ensures forall t :: balance.Get(t) == Total(accounts, t, None, Balance)
    ensures forall t :: contributions.Get(t) == Total(accounts, t, None, Contributions)
    ensures forall t :: weightedGrowth.Get(t) == Total(accounts, t, None, Weighted(Growth))
    ensures forall t :: weightedDist.Get(t) == Total(accounts, t, None, Weighted(Distribution))
  {
    var zero := ByType(0.0, 0.0, 0.0, 0.0, 0.0);
    balance, contributions, weightedGrowth, weightedDist := zero, zero, zero, zero;
    for i := 0 to |accounts|
      invariant forall t :: balance.Get(t) == Total(accounts[..i], t, None, Balance)
      invariant forall t :: contributions.Get(t) == Total(accounts[..i], t, None, Contributions)
      invariant forall t :: weightedGrowth.Get(t) == Total(accounts[..i], t, None, Weighted(Growth))
      invariant forall t :: weightedDist.Get(t) == Total(accounts[..i], t, None, Weighted(Distribution))
    {
      var a := accounts[i];
      TypeBucketStep(accounts, i, balance, Balance, a.balance);
      TypeBucketStep(accounts, i, contributions, Contributions, a.contributions);
      TypeBucketStep(accounts, i, weightedGrowth, Weighted(Growth), a.balance * a.growthRatePct);
      TypeBucketStep(accounts, i, weightedDist, Weighted(Distribution), a.balance * a.distributionRatePct);
      balance := AddToTypeBucket(balance, a, a.balance);
      contributions := AddToTypeBucket(contributions, a, a.contributions);
      weightedGrowth := AddToTypeBucket(weightedGrowth, a, a.balance * a.growthRatePct);
      weightedDist := AddToTypeBucket(weightedDist, a, a.balance * a.distributionRatePct);
    }
    assert accounts[..|accounts|] == accounts;
  }

  /** `aggregateAccountsByType`: the first pass above, then one pass per category
      dividing the weighted numerators by a positive balance. */
  method AggregateAccountsByType(accounts: seq<AccountBucket>) returns (agg: ByType<Aggregate>)
    ensures forall t :: agg.Get(t) == AggregateOf(accounts, t, None)
  {
    var balance, contributions, weightedGrowth, weightedDist := SumByType(accounts);
    agg := ByType(NoAccounts, NoAccounts, NoAccounts, NoAccounts, NoAccounts);
    for k := 0 to |AllTypes|
      invariant forall j :: 0 <= j < k ==> agg.Get(AllTypes[j]) == AggregateOf(accounts, AllTypes[j], None)
    {
      var t := AllTypes[k];
      var entry := Aggregate(balance.Get(t), contributions.Get(t), 0.0, 0.0);
      if balance.Get(t) > 0.0 {
        entry := entry.(growthPct := weightedGrowth.Get(t) / balance.Get(t),
                        distributionPct := weightedDist.Get(t) / balance.Get(t));
      }
      agg := agg.Set(t, entry);
    }
    forall t ensures agg.Get(t) == AggregateOf(accounts, t, None) {
      assert AllTypes[TypeIndex(t)] == t;
    }
  }

  /** `agg[a.type][owner] += v` for the owner the account is attributed to. */
  function AddToOwnerBucket(sums: ByType<ByOwner<real>>, a: AccountBucket, v: real): (r: ByType<ByOwner<real>>)
    ensures forall t, o :: r.Get(t).Get(o) == sums.Get(t).Get(o) + (if Matches(a, t, Some(o)) then v else 0.0)
  {
    var owner := OwnerOf(a.owner);
    var b := sums.Get(a.kind);
    sums.Set(a.kind, b.Set(owner, b.Get(owner) + v))
  }

  /** Adding one more account's measure to its (category, owner) cell keeps the cells
      equal to the totals over the accounts seen so far. */
  lemma OwnerBucketStep(accounts: seq<AccountBucket>, i: nat, sums: ByType<ByOwner<real>>, m: Measure, v: real)
    requires i < |accounts| && v == MeasureOf(accounts[i], m)
    requires forall t, o :: sums.Get(t).Get(o) == Total(accounts[..i], t, Some(o), m)
    ensures forall t, o :: AddToOwnerBucket(sums, accounts[i], v).Get(t).Get(o)
                        == Total(accounts[..i + 1], t, Some(o), m)
  {
    assert accounts[..i + 1][..i] == accounts[..i];
  }

  /** First pass of `aggregateByTypeAndOwner`: balances, contributions and weighted
      numerators per (category, owner); an account whose owner is not "spouse" counts
      as the client's. */
  method SumByTypeAndOwner(accounts: seq<AccountBucket>)
    returns (balance: ByType<ByOwner<real>>, contributions: ByType<ByOwner<real>>,
             weightedGrowth: ByType<ByOwner<real>>, weightedDist: ByType<ByOwner<real>>)
    ensures forall t, o :: balance.Get(t).Get(o) == Total(accounts, t, Some(o), Balance)
    ensures forall t, o :: contributions.Get(t).Get(o) == Total(accounts, t, Some(o), Contributions)
    ensures forall t, o :: weightedGrowth.Get(t).Get(o) == Total(accounts, t, Some(o), Weighted(Growth))
    ensures forall t, o :: weightedDist.Get(t).Get(o) == Total(accounts, t, Some(o), Weighted(Distribution))
  {
    var z := ByOwner(0.0, 0.0);
    var zero := ByType(z, z, z, z, z);
    balance, contributions, weightedGrowth, weightedDist := zero, zero, zero, zero;
    for i := 0 to |accounts|
      invariant forall t, o :: balance.Get(t).Get(o) == Total(accounts[..i], t, Some(o), Balance)
      invariant forall t, o :: contributions.Get(t).Get(o) == Total(accounts[..i], t, Some(o), Contributions)
      invariant forall t, o :: weightedGrowth.Get(t).Get(o) == Total(accounts[..i], t, Some(o), Weighted(Growth))
      invariant forall t, o :: weightedDist.Get(t).Get(o) == Total(accounts[..i], t, Some(o), Weighted(Distribution))
    {
      var a := accounts[i];
      OwnerBucketStep(accounts, i, balance, Balance, a.balance);
      OwnerBucketStep(accounts, i, contributions, Contributions, a.contributions);
      OwnerBucketStep(accounts, i, weightedGrowth, Weighted(Growth), a.balance * a.growthRatePct);
      OwnerBucketStep(accounts, i, weightedDist, Weighted(Distribution), a.balance * a.distributionRatePct);
      balance := AddToOwnerBucket(balance, a, a.balance);
      contributions := AddToOwnerBucket(contributions, a, a.contributions);
      weightedGrowth := AddToOwnerBucket(weightedGrowth, a, a.balance * a.growthRatePct);
      weightedDist := AddToOwnerBucket(weightedDist, a, a.balance * a.distributionRatePct);
    }
    assert accounts[..|accounts|] == accounts;
  }

  /** `aggregateByTypeAndOwner`: the first pass above, then one pass per (category,
      owner) dividing the weighted numerators by a positive balance. */
  method AggregateByTypeAndOwner(accounts: seq<AccountBucket>) returns (agg: ByType<ByOwner<Aggregate>>)
    ensures forall t, o :: agg.Get(t).Get(o) == AggregateOf(accounts, t, Some(o))
  {
    var balance, contributions, weightedGrowth, weightedDist := SumByTypeAndOwner(accounts);
    var none := ByOwner(NoAccounts, NoAccounts);
    agg := ByType(none, none, none, none, none);
    for k := 0 to |AllTypes|
      invariant forall j, o :: 0 <= j < k ==> agg.Get(AllTypes[j]).Get(o) == AggregateOf(accounts, AllTypes[j], Some(o))
    {
      var t := AllTypes[k];
      var row := ByOwner(NoAccounts, NoAccounts);
      for m := 0 to |AllOwners|
        invariant forall n :: 0 <= n < m ==> row.Get(AllOwners[n]) == AggregateOf(accounts, t, Some(AllOwners[n]))
      {
        var o := AllOwners[m];
        var bal := balance.Get(t).Get(o);
        var entry := Aggregate(bal, contributions.Get(t).Get(o), 0.0, 0.0);
        if bal > 0.0 {
          entry := entry.(growthPct := weightedGrowth.Get(t).Get(o) / bal,
                          distributionPct := weightedDist.Get(t).Get(o) / bal);
        }
        row := row.Set(o, entry);
      }
      forall o ensures row.Get(o) == AggregateOf(accounts, t, Some(o)) {
        assert AllOwners[OwnerIndex(o)] == o;
      }
      agg := agg.Set(t, row);
    }
    forall t, o ensures agg.Get(t).Get(o) == AggregateOf(accounts, t, Some(o)) {
      assert AllTypes[TypeIndex(t)] == t;
    }
  }

  /** Every category total is the client part plus the spouse part. */
  lemma {:induction false} TotalSplitsByOwner(accounts: seq<AccountBucket>, t: AccountType, m: Measure)
    ensures Total(accounts, t, None, m) == Total(accounts, t, Some(Client), m) + Total(accounts, t, Some(Spouse), m)
  {
    if |accounts| > 0 {
      TotalSplitsByOwner(accounts[..|accounts| - 1], t, m);
    }
  }

  /** Per category, the aggregated balance and contribution are the sums of the
      per-owner aggregates. */
  lemma CategoryIsSumOfOwners(accounts: seq<AccountBucket>, t: AccountType)
    ensures AggregateOf(accounts, t, None).balance
         == AggregateOf(accounts, t, Some(Client)).balance + AggregateOf(accounts, t, Some(Spouse)).balance
    ensures AggregateOf(accounts, t, None).contributions
         == AggregateOf(accounts, t, Some(Client)).contributions + AggregateOf(accounts, t, Some(Spouse)).contributions
  {
    TotalSplitsByOwner(accounts, t, Balance);
    TotalSplitsByOwner(accounts, t, Contributions);
  }

  /** Accounts outside the category (or owner) contribute nothing. */
  lemma {:induction false} TotalWithoutMatches(accounts: seq<AccountBucket>, t: AccountType, o: Option<Owner>, m: Measure)
    requires forall j :: 0 <= j < |accounts| ==> !Matches(accounts[j], t, o)
    ensures Total(accounts, t, o, m) == 0.0
  {
    if |accounts| > 0 {
      TotalWithoutMatches(accounts[..|accounts| - 1], t, o, m);
    }
  }

  predicate RatesWithin(accounts: seq<AccountBucket>, t: AccountType, o: Option<Owner>, k: RateKind, lo: real, hi: real) {
    forall j :: 0 <= j < |accounts| && Matches(accounts[j], t, o) ==>
      accounts[j].balance >= 0.0 && lo <= RateOf(accounts[j], k) <= hi
  }

  lemma RatesWithinPrefix(accounts: seq<AccountBucket>, n: nat, t: AccountType, o: Option<Owner>, k: RateKind, lo: real, hi: real)
    requires n <= |accounts| && RatesWithin(accounts, t, o, k, lo, hi)
    ensures RatesWithin(accounts[..n], t, o, k, lo, hi)
  {
    forall j | 0 <= j < n && Matches(accounts[..n][j], t, o)
      ensures accounts[..n][j].balance >= 0.0 && lo <= RateOf(accounts[..n][j], k) <= hi
    {
      assert accounts[..n][j] == accounts[j];
    }
  }

  /** Sum over the matching accounts of `balance * (rate - c)`: how far the weighted
      numerator lies above `c` times the total balance. */
  function Spread(accounts: seq<AccountBucket>, t: AccountType, o: Option<Owner>, k: RateKind, c: real): real {
    if |accounts| == 0 then 0.0
    else
      var a := accounts[|accounts| - 1];
      Spread(accounts[..|accounts| - 1], t, o, k, c) + (if Matches(a, t, o) then SpreadTerm(a, k, c) else 0.0)
  }

  function SpreadTerm(a: AccountBucket, k: RateKind, c: real): real {
    a.balance * (RateOf(a, k) - c)
  }

  /** The weighted numerator is `c` times the total balance plus the spread about `c`. */
  lemma {:induction false} SpreadIdentity(accounts: seq<AccountBucket>, t: AccountType, o: Option<Owner>, k: RateKind, c: real)
    ensures Total(accounts, t, o, Weighted(k)) == c * Total(accounts, t, o, Balance) + Spread(accounts, t, o, k, c)
  {
    if |accounts| > 0 {
      SpreadIdentity(accounts[..|accounts| - 1], t, o, k, c);
    }
  }

  /** With non-negative balances and every rate at least `lo`, the spread about `lo` is
      non-negative. */
  lemma {:induction false} SpreadAboveLow(accounts: seq<AccountBucket>, t: AccountType, o: Option<Owner>, k: RateKind, lo: real, hi: real)
    requires RatesWithin(accounts, t, o, k, lo, hi)
    ensures Spread(accounts, t, o, k, lo) >= 0.0
  {
    if |accounts| > 0 {
      var n := |accounts| - 1;
      var a := accounts[n];
      RatesWithinPrefix(accounts, n, t, o, k, lo, hi);
      SpreadAboveLow(accounts[..n], t, o, k, lo, hi);
      if Matches(a, t, o) {
        assert a.balance >= 0.0 && lo <= RateOf(a, k);
        ProductNonNegative(a.balance, RateOf(a, k) - lo);
        assert SpreadTerm(a, k, lo) >= 0.0;
      }
    }
  }

  /** With non-negative balances and every rate at most `hi`, the spread about `hi` is
      not positive. */
  lemma {:induction false} SpreadBelowHigh(accounts: seq<AccountBucket>, t: AccountType, o: Option<Owner>, k: RateKind, lo: real, hi: real)
    requires RatesWithin(accounts, t, o, k, lo, hi)
    ensures Spread(accounts, t, o, k, hi) <= 0.0
  {
    if |accounts| > 0 {
      var n := |accounts| - 1;
      var a := accounts[n];
      RatesWithinPrefix(accounts, n, t, o, k, lo, hi);
      SpreadBelowHigh(accounts[..n], t, o, k, lo, hi);
      if Matches(a, t, o) {
        assert a.balance >= 0.0 && RateOf(a, k) <= hi;
        ProductNonNegative(a.balance, hi - RateOf(a, k));
        assert SpreadTerm(a, k, hi) <= 0.0;
      }
    }
  }

  /** The weighted numerator lies between `lo` and `hi` times the total balance. */
  lemma WeightedTotalWithin(accounts: seq<AccountBucket>, t: AccountType, o: Option<Owner>, k: RateKind, lo: real, hi: real)
    requires RatesWithin(accounts, t, o, k, lo, hi)
    ensures lo * Total(accounts, t, o, Balance) <= Total(accounts, t, o, Weighted(k)) <= hi * Total(accounts, t, o, Balance)
  {
    SpreadIdentity(accounts, t, o, k, lo);
    SpreadIdentity(accounts, t, o, k, hi);
    SpreadAboveLow(accounts, t, o, k, lo, hi);
    SpreadBelowHigh(accounts, t, o, k, lo, hi);
  }

  /** The balance-weighted rate of a category lies between the smallest and the largest
      rate of its accounts when the category holds money, and is 0 when it holds none.
      Balances 100 and 300 at 4% and 8% give 7% (see `WeightedRateExample`). */
  lemma WeightedRateWithin(accounts: seq<AccountBucket>, t: AccountType, o: Option<Owner>, k: RateKind, lo: real, hi: real)
    requires RatesWithin(accounts, t, o, k, lo, hi)
    ensures AggregateOf(accounts, t, o).balance > 0.0 ==> lo <= RateOfAggregate(AggregateOf(accounts, t, o), k) <= hi
    ensures AggregateOf(accounts, t, o).balance <= 0.0 ==> RateOfAggregate(AggregateOf(accounts, t, o), k) == 0.0
  {
    RateIsWeightedRate(accounts, t, o, k);
    var b := Total(accounts, t, o, Balance);
    var w := Total(accounts, t, o, Weighted(k));
    if b > 0.0 {
      WeightedTotalWithin(accounts, t, o, k, lo, hi);
      QuotientWithin(w, b, lo, hi);
    }
  }

  /** The aggregate's balance is the category total, and its rate the weighted rate. */
  lemma RateIsWeightedRate(accounts: seq<AccountBucket>, t: AccountType, o: Option<Owner>, k: RateKind)
    ensures AggregateOf(accounts, t, o).balance == Total(accounts, t, o, Balance)
    ensures RateOfAggregate(AggregateOf(accounts, t, o), k)
         == WeightedRate(Total(accounts, t, o, Weighted(k)), Total(accounts, t, o, Balance))
  {
  }

  /** Dividing `lo * b <= w <= hi * b` by a positive `b`. */
  lemma QuotientWithin(w: real, b: real, lo: real, hi: real)
    requires b > 0.0 && lo * b <= w <= hi * b
    ensures lo <= w / b <= hi
  {
    var q := w / b;
    assert q * b == w;
    assert (q - lo) * b >= 0.0;
    assert (hi - q) * b >= 0.0;
  }

  lemma WeightedRateExample()
    ensures AggregateOf([AccountBucket(Qualified, None, 100.0, 0.0, 4.0, 0.0, 0.0),
                         AccountBucket(Qualified, Some(Spouse), 300.0, 0.0, 8.0, 0.0, 0.0)],
                        Qualified, None).growthPct == 7.0
  {
    var accounts := [AccountBucket(Qualified, None, 100.0, 0.0, 4.0, 0.0, 0.0),
                     AccountBucket(Qualified, Some(Spouse), 300.0, 0.0, 8.0, 0.0, 0.0)];
    assert accounts[..1][..0] == [];
    assert Total(accounts, Qualified, None, Balance) == 400.0;
    assert Total(accounts, Qualified, None, Weighted(Growth)) == 2800.0;
  }

  // ------------------------------------------------------------ deductions

  /** The option draws its premium from this (category, owner) bucket. */
  predicate Deducts(opt: AnnuityPrimeInputs, t: AccountType, o: Option<Owner>) {
    opt.premiumAmount > 0.0 && opt.referencedAccountType == t &&
    (o.None? || PrimeOwnerOf(opt.owner) == o.value)
  }

  /** Sum of the positive premiums drawn from a category (and owner). */
  function PremiumTotal(options: seq<AnnuityPrimeInputs>, t: AccountType, o: Option<Owner>): real {
    if |options| == 0 then 0.0
    else
      var opt := options[|options| - 1];
      PremiumTotal(options[..|options| - 1], t, o) + (if Deducts(opt, t, o) then opt.premiumAmount else 0.0)
  }

  predicate AnyDeducts(options: seq<AnnuityPrimeInputs>, t: AccountType, o: Option<Owner>) {
    exists j :: 0 <= j < |options| && Deducts(options[j], t, o)
  }

  /** The deduction the engine applies to a bucket: the premium total on the
      conversion path, nothing on the current path. */
  function Deduction(options: seq<AnnuityPrimeInputs>, usePrime: bool, t: AccountType, o: Option<Owner>): real {
    if usePrime then PremiumTotal(options, t, o) else 0.0
  }

  /** `map.get(key) ?? 0`. */
  function Lookup<K>(m: map<K, real>, key: K): real {
    if key in m then m[key] else 0.0
  }

  lemma {:induction false} PremiumTotalWithoutMatches(options: seq<AnnuityPrimeInputs>, t: AccountType, o: Option<Owner>)
    requires !AnyDeducts(options, t, o)
    ensures PremiumTotal(options, t, o) == 0.0
  {
    if |options| > 0 {
      var n := |options| - 1;
      assert !AnyDeducts(options[..n], t, o) by {
        forall j | 0 <= j < n ensures !Deducts(options[..n][j], t, o) {
          assert options[..n][j] == options[j];
        }
      }
      PremiumTotalWithoutMatches(options[..n], t, o);
    }
  }

  /** Deductions are sums of positive premiums, so never negative. */
  lemma {:induction false} PremiumTotalNonNegative(options: seq<AnnuityPrimeInputs>, t: AccountType, o: Option<Owner>)
    ensures PremiumTotal(options, t, o) >= 0.0
  {
    if |options| > 0 {
      PremiumTotalNonNegative(options[..|options| - 1], t, o);
    }
  }

  /** A category's deduction is its client deduction plus its spouse deduction: every
      option is charged to exactly one owner. */
  lemma {:induction false} PremiumTotalSplitsByOwner(options: seq<AnnuityPrimeInputs>, t: AccountType)
    ensures PremiumTotal(options, t, None) == PremiumTotal(options, t, Some(Client)) + PremiumTotal(options, t, Some(Spouse))
  {
    if |options| > 0 {
      PremiumTotalSplitsByOwner(options[..|options| - 1], t);
    }
  }

  /** A "joint" option's premium is charged to the client's bucket, never the spouse's. */
  lemma JointPremiumChargedToClient(options: seq<AnnuityPrimeInputs>, opt: AnnuityPrimeInputs)
    requires opt.owner == PrimeJoint && opt.premiumAmount > 0.0
    ensures PremiumTotal(options + [opt], opt.referencedAccountType, Some(Client))
         == PremiumTotal(options, opt.referencedAccountType, Some(Client)) + opt.premiumAmount
    ensures PremiumTotal(options + [opt], opt.referencedAccountType, Some(Spouse))
         == PremiumTotal(options, opt.referencedAccountType, Some(Spouse))
  {
    assert (options + [opt])[..|options|] == options;
  }

  /** `primeDeductionsByType`: the premium of every option with a positive premium is
      added to its category's entry; nothing at all on the current path. */
  method PrimeDeductionsByType(options: seq<AnnuityPrimeInputs>, usePrime: bool) returns (m: map<AccountType, real>)
    ensures !usePrime ==> m == map[]
    ensures forall t :: t in m <==> usePrime && AnyDeducts(options, t, None)
    ensures forall t :: Lookup(m, t) == Deduction(options, usePrime, t, None)
  {
    m := map[];
    if !usePrime || |options| == 0 {
      return;
    }
    for i := 0 to |options|
      invariant forall t :: t in m <==> AnyDeducts(options[..i], t, None)
      invariant forall t :: t in m ==> m[t] == PremiumTotal(options[..i], t, None)
    {
      var opt := options[i];
      assert options[..i + 1][..i] == options[..i];
      assert forall j :: 0 <= j < i ==> options[..i + 1][j] == options[..i][j];
      if opt.premiumAmount > 0.0 {
        var prev := Lookup(m, opt.referencedAccountType);
        if opt.referencedAccountType !in m {
          PremiumTotalWithoutMatches(options[..i], opt.referencedAccountType, None);
        }
        m := m[opt.referencedAccountType := prev + opt.premiumAmount];
      }
      assert forall t :: Deducts(opt, t, None) == (opt.premiumAmount > 0.0 && t == opt.referencedAccountType);
      assert forall t :: AnyDeducts(options[..i + 1], t, None) == (AnyDeducts(options[..i], t, None) || Deducts(options[..i + 1][i], t, None));
    }
    assert options[..|options|] == options;
    forall t ensures Lookup(m, t) == Deduction(options, usePrime, t, None) {
      if t !in m {
        PremiumTotalWithoutMatches(options, t, None);
      }
    }
  }

  /** `primeDeductionsByTypeAndOwner`: as above, keyed by (category, owner), where an
      option owned by anyone but the spouse is charged to the client. */
  method PrimeDeductionsByTypeAndOwner(options: seq<AnnuityPrimeInputs>, usePrime: bool)
    returns (m: map<(AccountType, Owner), real>)
    ensures !usePrime ==> m == map[]
    ensures forall t, o :: (t, o) in m <==> usePrime && AnyDeducts(options, t, Some(o))
    ensures forall t, o :: Lookup(m, (t, o)) == Deduction(options, usePrime, t, Some(o))
  {
    m := map[];
    if !usePrime || |options| == 0 {
      return;
    }
    for i := 0 to |options|
      invariant forall t, o :: (t, o) in m <==> AnyDeducts(options[..i], t, Some(o))
      invariant forall t, o :: (t, o) in m ==> m[(t, o)] == PremiumTotal(options[..i], t, Some(o))
    {
      var opt := options[i];
      assert options[..i + 1][..i] == options[..i];
      assert forall j :: 0 <= j < i ==> options[..i + 1][j] == options[..i][j];
      if opt.premiumAmount > 0.0 {
        var key := (opt.referencedAccountType, PrimeOwnerOf(opt.owner));
        var prev := Lookup(m, key);
        if key !in m {
          PremiumTotalWithoutMatches(options[..i], key.0, Some(key.1));
        }
        m := m[key := prev + opt.premiumAmount];
      }
      assert forall t, o :: (Deducts(opt, t, Some(o)) ==
        (opt.premiumAmount > 0.0 && t == opt.referencedAccountType && o == PrimeOwnerOf(opt.owner)));
      assert forall t, o :: (AnyDeducts(options[..i + 1], t, Some(o)) ==
        (AnyDeducts(options[..i], t, Some(o)) || Deducts(options[..i + 1][i], t, Some(o))));
    }
    assert options[..|options|] == options;
    forall t, o ensures Lookup(m, (t, o)) == Deduction(options, usePrime, t, Some(o)) {
      if (t, o) !in m {
        PremiumTotalWithoutMatches(options, t, Some(o));
      }
    }
  }

  // ------------------------------------------------------------ future values

  /** One accumulation year: contribution first, then a full year of growth. */
  function Grow(balance: real, contribution: real, growthPct: real): real {
    (balance + contribution) * (1.0 + growthPct / 100.0)
  }

  /** `balance := (balance + c) * (1 + g/100)` applied `years` times. */
  function Compound(balance: real, contribution: real, growthPct: real, years: nat): real {
    if years == 0 then balance else Grow(Compound(balance, contribution, growthPct, years - 1), contribution, growthPct)
  }

  /** The balance a bucket starts accumulating from: a positive deduction is taken off
      and the result floored at 0; otherwise the balance is kept as it is. */
  function StartingBalance(balance: real, deduction: real): real {
    if deduction > 0.0 then Max(0.0, balance - deduction) else balance
  }

  /** Years of accumulation, counted on the client's ages for every bucket. */
  function YearsToRetirement(currentAge: int, retirementAge: int): nat {
    MaxNat(retirementAge - currentAge)
  }

  function FutureValue(g: Aggregate, deduction: real, years: nat): real {
    Compound(StartingBalance(g.balance, deduction), g.contributions, g.growthPct, years)
  }

  /** Accumulation of one bucket: the year loop of the two future-value functions. */
  method Accumulate(start: real, contribution: real, growthPct: real, years: nat) returns (balance: real)
    ensures balance == Compound(start, contribution, growthPct, years)
  {
    balance := start;
    var g := growthPct / 100.0;
    for y := 0 to years
      invariant balance == Compound(start, contribution, growthPct, y)
    {
      balance := (balance + contribution) * (1.0 + g);
    }
  }

  /** `futureValuesAtRetirement`: per category, deduct, then accumulate for the client's
      years to retirement. */
  method FutureValuesAtRetirement(state: CalculatorState, retirementAge: int, deductions: map<AccountType, real>)
    returns (fv: ByType<real>)
    ensures forall t :: fv.Get(t) == FutureValue(AggregateOf(state.accounts, t, None), Lookup(deductions, t),
                                                 YearsToRetirement(state.client.currentAge, retirementAge))
  {
    var agg := AggregateAccountsByType(state.accounts);
    var years := YearsToRetirement(state.client.currentAge, retirementAge);
    fv := ByType(0.0, 0.0, 0.0, 0.0, 0.0);
    for k := 0 to |AllTypes|
      invariant forall j :: 0 <= j < k ==>
        fv.Get(AllTypes[j]) == FutureValue(AggregateOf(state.accounts, AllTypes[j], None), Lookup(deductions, AllTypes[j]), years)
    {
      var t := AllTypes[k];
      var balance := agg.Get(t).balance;
      var deduct := Lookup(deductions, t);
      if deduct > 0.0 {
        balance := Max(0.0, balance - deduct);
      }
      balance := Accumulate(balance, agg.Get(t).contributions, agg.Get(t).growthPct, years);
      fv := fv.Set(t, balance);
    }
    forall t ensures fv.Get(t) == FutureValue(AggregateOf(state.accounts, t, None), Lookup(deductions, t), years) {
      assert AllTypes[TypeIndex(t)] == t;
    }
  }

  /** `futureValuesByTypeAndOwner`: per (category, owner), deduct that owner's premiums,
      then accumulate. The client's years to retirement are used for the spouse's
      buckets too. */
  method FutureValuesByTypeAndOwner(state: CalculatorState, retirementAge: int, deductions: map<(AccountType, Owner), real>)
    returns (fv: ByType<ByOwner<real>>)
    ensures forall t, o :: fv.Get(t).Get(o) == FutureValue(AggregateOf(state.accounts, t, Some(o)), Lookup(deductions, (t, o)),
                                                           YearsToRetirement(state.client.currentAge, retirementAge))
  {
    var agg := AggregateByTypeAndOwner(state.accounts);
    var years := YearsToRetirement(state.client.currentAge, retirementAge);
    var z := ByOwner(0.0, 0.0);
    fv := ByType(z, z, z, z, z);
    for k := 0 to |AllTypes|
      invariant forall j, o :: 0 <= j < k ==>
        fv.Get(AllTypes[j]).Get(o)
          == FutureValue(AggregateOf(state.accounts, AllTypes[j], Some(o)), Lookup(deductions, (AllTypes[j], o)), years)
    {
      var t := AllTypes[k];
      var row := ByOwner(0.0, 0.0);
      for m := 0 to |AllOwners|
        invariant forall n :: 0 <= n < m ==>
          row.Get(AllOwners[n]) == FutureValue(AggregateOf(state.accounts, t, Some(AllOwners[n])), Lookup(deductions, (t, AllOwners[n])), years)
      {
        var o := AllOwners[m];
        var balance := agg.Get(t).Get(o).balance;
        var deduct := Lookup(deductions, (t, o));
        if deduct > 0.0 {
          balance := Max(0.0, balance - deduct);
        }
        balance := Accumulate(balance, agg.Get(t).Get(o).contributions, agg.Get(t).Get(o).growthPct, years);
        row := row.Set(o, balance);
      }
      forall o ensures row.Get(o) == FutureValue(AggregateOf(state.accounts, t, Some(o)), Lookup(deductions, (t, o)), years) {
        assert AllOwners[OwnerIndex(o)] == o;
      }
      fv := fv.Set(t, row);
    }
    forall t, o ensures fv.Get(t).Get(o) == FutureValue(AggregateOf(state.accounts, t, Some(o)), Lookup(deductions, (t, o)), years) {
      assert AllTypes[TypeIndex(t)] == t;
    }
  }

  /** Without contributions, accumulation is plain compound growth. */
  lemma {:induction false} CompoundWithoutContribution(balance: real, growthPct: real, years: nat)
    ensures Compound(balance, 0.0, growthPct, years) == balance * Pow(1.0 + growthPct / 100.0, years)
  {
    if years > 0 {
      CompoundWithoutContribution(balance, growthPct, years - 1);
    }
  }

  /** Non-negative balances and contributions stay non-negative under any growth rate
      of at least -100%. */
  lemma {:induction false} CompoundNonNegative(balance: real, contribution: real, growthPct: real, years: nat)
    requires balance >= 0.0 && contribution >= 0.0 && growthPct >= -100.0
    ensures Compound(balance, contribution, growthPct, years) >= 0.0
  {
    if years > 0 {
      CompoundNonNegative(balance, contribution, growthPct, years - 1);
      var b := Compound(balance, contribution, growthPct, years - 1);
      assert (b + contribution) * (1.0 + growthPct / 100.0) >= 0.0;
    }
  }

  /** One more year of accumulation is one more `Grow` step on top. */
  lemma CompoundOneMoreYear(balance: real, contribution: real, growthPct: real, years: nat)
    ensures Compound(balance, contribution, growthPct, years + 1)
         == Grow(Compound(balance, contribution, growthPct, years), contribution, growthPct)
  {
  }

  /** The starting value: the balance less a positive deduction, floored at 0; the
      balance unchanged otherwise. Zero years leave the starting value as the future value. */
  lemma FutureValueStart(g: Aggregate, deduction: real)
    ensures deduction > 0.0 ==> FutureValue(g, deduction, 0) == Max(0.0, g.balance - deduction)
    ensures deduction > 0.0 ==> FutureValue(g, deduction, 0) >= 0.0
    ensures deduction <= 0.0 ==> FutureValue(g, deduction, 0) == g.balance
  {
  }
}
