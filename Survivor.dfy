/** Pension, annuity and rental income of a year in which the client may have died
    (lib/survivor-income.ts): client-owned pensions and annuities fall to their
    survivor percentage from the death age on; spouse-owned ones and all rentals are
    paid in full. */
module Survivor {
  import opened Money
  import opened Types
  import opened Income
  import opened Projection

  /** The survivor percentage, 100 when absent. */
  function SurvivorPct(p: PensionOrAnnuityIncome): real {
    p.survivorPct.GetOr(100.0)
  }

  /** One pension's or annuity's amount in the year: gated and COLA-compounded as in
      the projection, then scaled by its survivor percentage when it is not the
      spouse's and the client has died. */
  function SurvivorShare(p: PensionOrAnnuityIncome, clientAge: int, spouseAge: int, afterDeath: bool): real {
    var s := PensionSource(p);
    var amt := StreamAmount(s, SourceAge(s, clientAge, spouseAge));
    if p.owner == Some(Spouse) then amt
    else if afterDeath then amt * (SurvivorPct(p) / 100.0)
    else amt
  }

  function SurvivorSum(ps: seq<PensionOrAnnuityIncome>, clientAge: int, spouseAge: int, afterDeath: bool): real {
    if |ps| == 0 then 0.0
    else SurvivorSum(ps[..|ps| - 1], clientAge, spouseAge, afterDeath) + SurvivorShare(ps[|ps| - 1], clientAge, spouseAge, afterDeath)
  }

  /** `getSurvivorPensionAnnuityRental`. The plan COLA in `income` is read by the
      source but takes no part in the result; a missing spouse age is the client's. */
  function SurvivorIncome(gi: GuaranteedIncomeInputs, income: IncomeInputs, clientAge: int, deathAge: int, spouseAge: Option<int>): real {
    var s := spouseAge.GetOr(clientAge);
    var afterDeath := clientAge >= deathAge;
    SurvivorSum(gi.pensions, clientAge, s, afterDeath) + SurvivorSum(gi.annuities, clientAge, s, afterDeath)
      + StreamsIncome(RentalSources(gi.rentals), clientAge, s).total
  }

  /** The pension and annuity loops: skip what does not pay, else add the full or the
      survivor amount. */
  method AddSurvivorShares(ps: seq<PensionOrAnnuityIncome>, clientAge: int, spouseAge: int, afterDeath: bool, start: real)
    returns (total: real)
    ensures total == start + SurvivorSum(ps, clientAge, spouseAge, afterDeath)
  {
    total := start;
    for i := 0 to |ps|
      invariant total == start + SurvivorSum(ps[..i], clientAge, spouseAge, afterDeath)
    {
      var p := ps[i];
      assert ps[..i + 1][..i] == ps[..i];
      var ownerAge := if p.owner == Some(Spouse) then spouseAge else clientAge;
      var pastStart := ownerAge >= p.startAge;
      var beforeEnd := p.endAge.None? || ownerAge <= p.endAge.value;
      if !pastStart || !beforeEnd {
        continue;
      }
      var amt := Cola(p.amount * 12.0, p.colaPct, ownerAge - p.startAge);
      if p.owner == Some(Spouse) {
        total := total + amt;
      } else if afterDeath {
        total := total + amt * (p.survivorPct.GetOr(100.0) / 100.0);
      } else {
        total := total + amt;
      }
    }
    assert ps[..|ps|] == ps;
  }

  /** The rental loop: every paying rental in full. */
  method AddRentals(rs: seq<RentalIncome>, clientAge: int, spouseAge: int, start: real) returns (total: real)
    ensures total == start + StreamsIncome(RentalSources(rs), clientAge, spouseAge).total
  {
    total := start;
    ghost var sources := RentalSources(rs);
    for i := 0 to |rs|
      invariant total == start + StreamsIncome(sources[..i], clientAge, spouseAge).total
    {
      var r := rs[i];
      assert sources[..i + 1][..i] == sources[..i];
      assert sources[i] == RentalSource(r);
      var ownerAge := if r.owner == Some(Spouse) then spouseAge else clientAge;
      var pastStart := ownerAge >= r.startAge;
      var beforeEnd := r.endAge.None? || ownerAge <= r.endAge.value;
      if !pastStart || !beforeEnd {
        continue;
      }
      var amt := Cola(r.amount * 12.0, r.colaPct, ownerAge - r.startAge);
      total := total + amt;
    }
    assert sources[..|rs|] == sources;
  }

  method GetSurvivorPensionAnnuityRental(gi: GuaranteedIncomeInputs, income: IncomeInputs, clientAge: int, deathAge: int,
                                         spouseAge: Option<int>)
    returns (total: real)
    ensures total == SurvivorIncome(gi, income, clientAge, deathAge, spouseAge)
  {
    var afterDeath := clientAge >= deathAge;
    var effectiveSpouseAge := spouseAge.GetOr(clientAge);
    total := AddSurvivorShares(gi.pensions, clientAge, effectiveSpouseAge, afterDeath, 0.0);
    total := AddSurvivorShares(gi.annuities, clientAge, effectiveSpouseAge, afterDeath, total);
    total := AddRentals(gi.rentals, clientAge, effectiveSpouseAge, total);
  }

  // ------------------------------------------------------------ properties

  /** While the client is alive each source pays its projection amount. */
  lemma {:induction false} SurvivorSumBeforeDeath(ps: seq<PensionOrAnnuityIncome>, clientAge: int, spouseAge: int)
    ensures SurvivorSum(ps, clientAge, spouseAge, false) == StreamsIncome(PensionSources(ps), clientAge, spouseAge).total
  {
    if |ps| > 0 {
      var n := |ps| - 1;
      assert PensionSources(ps)[..n] == PensionSources(ps[..n]);
      SurvivorSumBeforeDeath(ps[..n], clientAge, spouseAge);
    }
  }

  /** Before the death age, with the spouse age of the row, the survivor total is the
      row's pension plus other annuities plus rental. */
  lemma BeforeDeathMatchesProjection(state: CalculatorState, usePrime: bool, deathAge: int, i: nat)
    requires i < |Project(state, usePrime).rows|
    requires Project(state, usePrime).rows[i].clientAge < deathAge
    ensures var r := Project(state, usePrime).rows[i];
      SurvivorIncome(state.guaranteedIncome, state.income, r.clientAge, deathAge, Some(r.spouseAge))
        == r.pension + r.otherAnnuities + r.rental
  {
    var e := Prepare(state, usePrime);
    RowsShape(e, RowCount(state));
    var c := ClientAgeAt(e, i);
    var s := SpouseAgeAt(e, i);
    SurvivorSumBeforeDeath(state.guaranteedIncome.pensions, c, s);
    SurvivorSumBeforeDeath(state.guaranteedIncome.annuities, c, s);
  }

  predicate SurvivorInputsBounded(ps: seq<PensionOrAnnuityIncome>) {
    forall i :: 0 <= i < |ps| ==>
      ps[i].amount >= 0.0 && ps[i].colaPct >= -100.0 && 0.0 <= SurvivorPct(ps[i]) <= 100.0
  }

  /** With survivor percentages in [0, 100] and non-negative amounts, a source pays no
      more after the death than before it, and never less than 0. */
  lemma SurvivorShareBounds(p: PensionOrAnnuityIncome, clientAge: int, spouseAge: int)
    requires p.amount >= 0.0 && p.colaPct >= -100.0 && 0.0 <= SurvivorPct(p) <= 100.0
    ensures 0.0 <= SurvivorShare(p, clientAge, spouseAge, true) <= SurvivorShare(p, clientAge, spouseAge, false)
  {
    var s := PensionSource(p);
    var age := SourceAge(s, clientAge, spouseAge);
    var amt := StreamAmount(s, age);
    if Pays(s, age) {
      ColaNonNegative(s.amount * 12.0, s.colaPct, age - s.startAge);
    }
    assert amt >= 0.0;
    var k := SurvivorPct(p) / 100.0;
    assert 0.0 <= k <= 1.0;
    assert amt * k <= amt * 1.0 by {
      assert amt * (1.0 - k) >= 0.0;
    }
    assert amt * k >= 0.0;
  }

  lemma {:induction false} SurvivorSumBounds(ps: seq<PensionOrAnnuityIncome>, clientAge: int, spouseAge: int)
    requires SurvivorInputsBounded(ps)
    ensures SurvivorSum(ps, clientAge, spouseAge, true) <= SurvivorSum(ps, clientAge, spouseAge, false)
  {
    if |ps| > 0 {
      var n := |ps| - 1;
      assert SurvivorInputsBounded(ps[..n]) by {
        forall i | 0 <= i < n ensures ps[..n][i] == ps[i] {}
      }
      SurvivorSumBounds(ps[..n], clientAge, spouseAge);
      SurvivorShareBounds(ps[n], clientAge, spouseAge);
    }
  }

  /** For the same ages, the total at or after the death age is at most the total
      before it. */
  lemma PostDeathAtMostPreDeath(gi: GuaranteedIncomeInputs, income: IncomeInputs, clientAge: int, deathAge: int, laterDeathAge: int,
                                spouseAge: Option<int>)
    requires SurvivorInputsBounded(gi.pensions) && SurvivorInputsBounded(gi.annuities)
    requires clientAge >= deathAge && clientAge < laterDeathAge
    ensures SurvivorIncome(gi, income, clientAge, deathAge, spouseAge) <= SurvivorIncome(gi, income, clientAge, laterDeathAge, spouseAge)
  {
    var s := spouseAge.GetOr(clientAge);
    SurvivorSumBounds(gi.pensions, clientAge, s);
    SurvivorSumBounds(gi.annuities, clientAge, s);
  }

  /** One source's survivor amount does not depend on the death when it is the
      spouse's. */
  lemma SpouseShareUnaffected(p: PensionOrAnnuityIncome, clientAge: int, spouseAge: int)
    requires p.owner == Some(Spouse)
    ensures SurvivorShare(p, clientAge, spouseAge, true) == SurvivorShare(p, clientAge, spouseAge, false)
    ensures SurvivorShare(p, clientAge, spouseAge, true) == StreamAmount(PensionSource(p), spouseAge)
  {
  }

  /** The full amounts of the spouse-owned sources. */
  function SpouseOwnedSum(ps: seq<PensionOrAnnuityIncome>, clientAge: int, spouseAge: int): real {
    if |ps| == 0 then 0.0
    else
      var p := ps[|ps| - 1];
      SpouseOwnedSum(ps[..|ps| - 1], clientAge, spouseAge) + (if p.owner == Some(Spouse) then SurvivorShare(p, clientAge, spouseAge, false) else 0.0)
  }

  /** The amounts of the other sources: full before the death, scaled after it. */
  function OtherOwnedSum(ps: seq<PensionOrAnnuityIncome>, clientAge: int, spouseAge: int, afterDeath: bool): real {
    if |ps| == 0 then 0.0
    else
      var p := ps[|ps| - 1];
      OtherOwnedSum(ps[..|ps| - 1], clientAge, spouseAge, afterDeath) + (if p.owner != Some(Spouse) then SurvivorShare(p, clientAge, spouseAge, afterDeath) else 0.0)
  }

  /** In any household the survivor sum is the spouse's sources in full plus the other
      sources at their survivor percentages, so the spouse's part is the same on both
      sides of the death. */
  lemma {:induction false} SurvivorSumSplitsByOwner(ps: seq<PensionOrAnnuityIncome>, clientAge: int, spouseAge: int, afterDeath: bool)
    ensures SurvivorSum(ps, clientAge, spouseAge, afterDeath)
         == SpouseOwnedSum(ps, clientAge, spouseAge) + OtherOwnedSum(ps, clientAge, spouseAge, afterDeath)
  {
    if |ps| > 0 {
      var n := |ps| - 1;
      SurvivorSumSplitsByOwner(ps[..n], clientAge, spouseAge, afterDeath);
      if ps[n].owner == Some(Spouse) {
        SpouseShareUnaffected(ps[n], clientAge, spouseAge);
      }
    }
  }

  predicate AllSpouseOwned(ps: seq<PensionOrAnnuityIncome>) {
    forall i :: 0 <= i < |ps| ==> ps[i].owner == Some(Spouse)
  }

  lemma {:induction false} NoOtherSources(ps: seq<PensionOrAnnuityIncome>, clientAge: int, spouseAge: int, afterDeath: bool)
    requires AllSpouseOwned(ps)
    ensures OtherOwnedSum(ps, clientAge, spouseAge, afterDeath) == 0.0
  {
    if |ps| > 0 {
      var n := |ps| - 1;
      assert AllSpouseOwned(ps[..n]) by {
        forall i | 0 <= i < n ensures ps[..n][i] == ps[i] {}
      }
      NoOtherSources(ps[..n], clientAge, spouseAge, afterDeath);
      assert ps[n].owner == Some(Spouse);
    }
  }

  /** When every source is the spouse's, the death changes nothing. */
  lemma SpouseOwnedUnaffected(ps: seq<PensionOrAnnuityIncome>, clientAge: int, spouseAge: int)
    requires AllSpouseOwned(ps)
    ensures SurvivorSum(ps, clientAge, spouseAge, true) == SurvivorSum(ps, clientAge, spouseAge, false)
  {
    SurvivorSumSplitsByOwner(ps, clientAge, spouseAge, true);
    SurvivorSumSplitsByOwner(ps, clientAge, spouseAge, false);
    NoOtherSources(ps, clientAge, spouseAge, true);
    NoOtherSources(ps, clientAge, spouseAge, false);
  }

  /** Without a spouse age the spouse's sources are gated on the client's age. */
  lemma MissingSpouseAgeIsClientAge(gi: GuaranteedIncomeInputs, income: IncomeInputs, clientAge: int, deathAge: int)
    ensures SurvivorIncome(gi, income, clientAge, deathAge, None) == SurvivorIncome(gi, income, clientAge, deathAge, Some(clientAge))
  {
  }

  /** When every pension and annuity is the spouse's, neither the death age nor the plan
      COLA changes anything: spouse-owned sources and rentals are paid in full on both
      sides of the death. */
  lemma DeathOnlyReducesClientSources(gi: GuaranteedIncomeInputs, income: IncomeInputs, otherIncome: IncomeInputs,
                                      clientAge: int, deathAge: int, otherDeathAge: int, spouseAge: Option<int>)
    requires AllSpouseOwned(gi.pensions) && AllSpouseOwned(gi.annuities)
    ensures SurvivorIncome(gi, income, clientAge, deathAge, spouseAge) == SurvivorIncome(gi, otherIncome, clientAge, otherDeathAge, spouseAge)
  {
    var s := spouseAge.GetOr(clientAge);
    SpouseOwnedUnaffected(gi.pensions, clientAge, s);
    SpouseOwnedUnaffected(gi.annuities, clientAge, s);
  }

  /** A household with a client pension of 1000 a month at a 50% survivor share and a
      spouse pension of 500 a month, neither with a COLA: after the client's death the
      client pension pays 6000 and the spouse pension still 6000. */
  lemma MixedHouseholdExample(ss: SocialSecurity, income: IncomeInputs)
    ensures var c := PensionOrAnnuityIncome(1000.0, 65, None, Some(50.0), 0.0, None, Some(Client));
      var sp := PensionOrAnnuityIncome(500.0, 60, None, Some(0.0), 0.0, None, Some(Spouse));
      var gi := GuaranteedIncomeInputs(ss, ss, [c, sp], [], []);
      SurvivorIncome(gi, income, 70, 68, Some(66)) == 12000.0 && SurvivorIncome(gi, income, 70, 75, Some(66)) == 18000.0
  {
    var c := PensionOrAnnuityIncome(1000.0, 65, None, Some(50.0), 0.0, None, Some(Client));
    var sp := PensionOrAnnuityIncome(500.0, 60, None, Some(0.0), 0.0, None, Some(Spouse));
    ColaFlatAtZeroRate(12000.0, 5);
    ColaFlatAtZeroRate(6000.0, 6);
    assert StreamAmount(PensionSource(c), 70) == 12000.0;
    assert StreamAmount(PensionSource(sp), 66) == 6000.0;
    assert SurvivorShare(c, 70, 66, true) == 6000.0;
    assert SurvivorShare(sp, 70, 66, true) == 6000.0;
    assert SurvivorShare(c, 70, 66, false) == 12000.0;
    assert [c, sp][..1] == [c];
    assert [c][..0] == [];
    assert SurvivorSum([c], 70, 66, true) == 6000.0;
    assert SurvivorSum([c], 70, 66, false) == 12000.0;
    assert SurvivorSum([c, sp], 70, 66, true) == 12000.0;
    assert SurvivorSum([c, sp], 70, 66, false) == 18000.0;
  }

  /** A client pension of 1000 a month with a 50% survivor share and no COLA pays 6000
      a year after the client's death instead of 12000. */
  lemma HalfSurvivorExample(ss: SocialSecurity, income: IncomeInputs)
    ensures var p := PensionOrAnnuityIncome(1000.0, 65, None, Some(50.0), 0.0, None, Some(Client));
      var gi := GuaranteedIncomeInputs(ss, ss, [p], [], []);
      SurvivorIncome(gi, income, 70, 68, None) == 6000.0 && SurvivorIncome(gi, income, 70, 75, None) == 12000.0
  {
    var p := PensionOrAnnuityIncome(1000.0, 65, None, Some(50.0), 0.0, None, Some(Client));
    ColaFlatAtZeroRate(12000.0, 5);
    assert StreamAmount(PensionSource(p), 70) == 12000.0;
    assert [p][..0] == [];
  }
}
