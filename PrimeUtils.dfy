/** Effective payout and validity of an annuity-conversion option (lib/prime-utils.ts). */
module PrimeUtils {
  import opened Money
  import opened Types

  /** True for a MYGA option that carries a positive guaranteed rate. */
  predicate PaysRateOnPremium(opt: AnnuityPrimeInputs) {
    opt.productType == Some(MYGA) && opt.migaRatePct.Some? && opt.migaRatePct.value > 0.0
  }

  /** Effective annual payout: premium times rate for a MYGA option with a positive
      rate, the stored flat payout (0 when absent) for everything else. */
  function AnnualPayout(opt: AnnuityPrimeInputs): (r: real)
    ensures PaysRateOnPremium(opt) ==> r * 100.0 == opt.premiumAmount * opt.migaRatePct.value
    ensures !PaysRateOnPremium(opt) ==> r == opt.payoutAmount.GetOr(0.0)
  {
    if PaysRateOnPremium(opt) then opt.premiumAmount * (opt.migaRatePct.value / 100.0)
    else opt.payoutAmount.GetOr(0.0)
  }

  /** An option is valid when it has a positive premium and a positive payout. */
  predicate IsValid(opt: AnnuityPrimeInputs)
    ensures IsValid(opt) <==>
              opt.premiumAmount > 0.0 && (PaysRateOnPremium(opt) || opt.payoutAmount.GetOr(0.0) > 0.0)
  {
    assert PaysRateOnPremium(opt) && opt.premiumAmount > 0.0 ==> AnnualPayout(opt) > 0.0 by {
      if PaysRateOnPremium(opt) && opt.premiumAmount > 0.0 {
        assert opt.premiumAmount * (opt.migaRatePct.value / 100.0) > 0.0;
      }
    }
    if opt.premiumAmount <= 0.0 then false else AnnualPayout(opt) > 0.0
  }

  /** Validity is exactly "premium > 0 and payout > 0". */
  lemma ValidIffPositivePremiumAndPayout(opt: AnnuityPrimeInputs)
    ensures IsValid(opt) <==> opt.premiumAmount > 0.0 && AnnualPayout(opt) > 0.0
  {
  }

  /** A valid option pays; an option without a positive premium is never valid,
      whatever its product type. */
  lemma ValidityConsequences(opt: AnnuityPrimeInputs)
    ensures IsValid(opt) ==> AnnualPayout(opt) > 0.0
    ensures opt.premiumAmount <= 0.0 ==> !IsValid(opt)
  {
  }

  /** A MYGA option whose rate is absent or not positive falls back to the flat payout. */
  lemma MygaWithoutRateUsesFlatPayout(opt: AnnuityPrimeInputs)
    requires opt.productType == Some(MYGA)
    requires opt.migaRatePct.None? || opt.migaRatePct.value <= 0.0
    ensures AnnualPayout(opt) == opt.payoutAmount.GetOr(0.0)
  {
  }

  /** The payout is a function of the product fields alone: the start age, the owner
      and the source account do not change it, so it is the same in every year. */
  lemma PayoutIndependentOfTimingAndOwner(opt: AnnuityPrimeInputs, age: int, owner: PrimeOwnerOption, t: AccountType)
    ensures AnnualPayout(opt.(incomeStartAge := age, owner := owner, referencedAccountType := t)) == AnnualPayout(opt)
  {
  }

  /** A MYGA payout never exceeds the premium while the rate is at most 100%. */
  lemma MygaPayoutBoundedByPremium(opt: AnnuityPrimeInputs)
    requires PaysRateOnPremium(opt) && opt.migaRatePct.value <= 100.0 && opt.premiumAmount >= 0.0
    ensures 0.0 <= AnnualPayout(opt) <= opt.premiumAmount
  {
    var k := opt.migaRatePct.value / 100.0;
    assert 0.0 < k <= 1.0;
    assert AnnualPayout(opt) == opt.premiumAmount * k;
    assert opt.premiumAmount * k <= opt.premiumAmount * 1.0 by {
      assert opt.premiumAmount * (1.0 - k) >= 0.0;
    }
    assert opt.premiumAmount * k >= 0.0;
  }

  /** Premium 0 with a flat payout of 500 is invalid; MYGA premium 10000 at 5% pays 500
      and is valid. */
  lemma ValidityExamples()
    ensures !IsValid(AnnuityPrimeInputs(0.0, Qualified, 65, Some(FIA), Some(500.0), None, PrimeClient))
    ensures AnnualPayout(AnnuityPrimeInputs(10000.0, Qualified, 65, Some(MYGA), None, Some(5.0), PrimeClient)) == 500.0
    ensures IsValid(AnnuityPrimeInputs(10000.0, Qualified, 65, Some(MYGA), None, Some(5.0), PrimeClient))
  {
  }
}
