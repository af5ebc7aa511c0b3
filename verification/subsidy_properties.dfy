/** Properties of the subsidy evaluator: the age rule, each gate with its
    boundaries, the amount tables and the 3.0-over-2.0 relation. */
module SubsidyProperties {
  import opened Types
  import opened Subsidy

  /* ---------------------------------------------------------------------- */
  /* Age                                                                    */
  /* ---------------------------------------------------------------------- */

  /** The age is exactly the number of anniversaries reached: an applicant has
      turned n by the application date if and only if n is at most the age. */
  lemma AgeIsCompletedYears(birth: Date, application: Date, n: int)
    ensures HasTurned(birth, application, n) <==> n <= AgeAt(birth, application)
  {
  }

  /** The age is the year difference, less one exactly when the application's
      month and day come strictly before the birth month and day. */
  lemma AgeFromYearDifference(birth: Date, application: Date)
    ensures var before := application.month < birth.month
                          || (application.month == birth.month && application.day < birth.day);
            AgeAt(birth, application)
              == application.year - birth.year - (if before then 1 else 0)
  {
  }

  /** One day short of the 25th birthday the age is 24; on the birthday it is 25. */
  lemma AgeOnBirthdayBoundary()
    ensures AgeAt(Date(2000, 6, 15), Date(2025, 6, 14)) == 24
    ensures AgeAt(Date(2000, 6, 15), Date(2025, 6, 15)) == 25
  {
  }

  /** An application on or after the birth date gives a non-negative age. */
  lemma AgeNonNegative(birth: Date, application: Date)
    requires DateLe(birth, application)
    ensures AgeAt(birth, application) >= 0
  {
  }

  /* ---------------------------------------------------------------------- */
  /* Gates                                                                  */
  /* ---------------------------------------------------------------------- */

  function AgeOf(form: CalculationForm): int {
    AgeAt(form.birthDate, form.firstApplicationDate)
  }

  /** From 45 on the form is rejected with the age message, whatever the stage,
      income tier or cycle count. */
  lemma AgeCeilingRejects(form: CalculationForm)
    requires AgeOf(form) >= AgeCeiling
    ensures CalculateSubsidy(form) == SubsidyResult(0, 0, AgeOf(form), false, Some(AgeCeilingMessage))
  {
  }

  /** Aged 40 to 44 with more than three cycles: rejected with the band message. */
  lemma ReducedBandRejects(form: CalculationForm)
    requires ReducedBandAge <= AgeOf(form) < AgeCeiling
    requires form.treatmentCount > ReducedBandMaxCycles
    ensures CalculateSubsidy(form) == SubsidyResult(0, 0, AgeOf(form), false, Some(ReducedBandMessage))
  {
  }

  /** Below 40 with more than six cycles: rejected with the six-cycle message. */
  lemma MaxCyclesRejects(form: CalculationForm)
    requires AgeOf(form) < ReducedBandAge
    requires form.treatmentCount > MaxCycles
    ensures CalculateSubsidy(form) == SubsidyResult(0, 0, AgeOf(form), false, Some(MaxCyclesMessage))
  {
  }

  /** Every rejection sets both amounts to 0 and carries a non-empty message. */
  lemma RejectionZeroesAmounts(form: CalculationForm)
    requires !CalculateSubsidy(form).eligible
    ensures CalculateSubsidy(form).subsidy2_0 == 0 && CalculateSubsidy(form).subsidy3_0 == 0
    ensures CalculateSubsidy(form).message.Some? && |CalculateSubsidy(form).message.value| > 0
  {
  }

  /** An accepted form is under 45, has at most six cycles, and at most three
      from age 40 on; and it carries no message. */
  lemma EligibleWithinLimits(form: CalculationForm)
    requires CalculateSubsidy(form).eligible
    ensures AgeOf(form) < AgeCeiling
    ensures form.treatmentCount <= MaxCycles
    ensures AgeOf(form) >= ReducedBandAge ==> form.treatmentCount <= ReducedBandMaxCycles
    ensures CalculateSubsidy(form).message == None
  {
  }

  /** The band boundaries: 39 belongs to the six-cycle band, 40 starts the
      three-cycle band, and 44 still passes the age gate. */
  lemma BandBoundaries(form: CalculationForm)
    ensures AgeOf(form) == 39 ==>
              (CalculateSubsidy(form).eligible <==> form.treatmentCount <= 6)
    ensures AgeOf(form) == 40 ==>
              (CalculateSubsidy(form).eligible <==> form.treatmentCount <= 3)
    ensures AgeOf(form) == 44 && form.treatmentCount <= 3 ==> CalculateSubsidy(form).eligible
    ensures AgeOf(form) == 45 ==> !CalculateSubsidy(form).eligible
  {
  }

  /** The verdict does not depend on stage or income tier. */
  lemma VerdictIgnoresStageAndIncome(f: CalculationForm, g: CalculationForm)
    requires f.birthDate == g.birthDate && f.firstApplicationDate == g.firstApplicationDate
    requires f.treatmentCount == g.treatmentCount
    ensures CalculateSubsidy(f).eligible == CalculateSubsidy(g).eligible
    ensures CalculateSubsidy(f).message == CalculateSubsidy(g).message
  {
  }

  /** Fields the evaluator never reads: the first-application flag and the
      transfer date. */
  lemma UnreadFieldsIgnored(form: CalculationForm, isFirstApplication: bool, transferDate: Option<Date>)
    ensures CalculateSubsidy(form)
            == CalculateSubsidy(form.(isFirstApplication := isFirstApplication, transferDate := transferDate))
  {
  }

  /* ---------------------------------------------------------------------- */
  /* Amounts                                                                */
  /* ---------------------------------------------------------------------- */

  /** Low income: the 2.0 amount depends on the stage alone, not on the cycle
      count or the age; the 3.0 amount is 20000 more. */
  lemma LowIncomeFlat(form: CalculationForm)
    requires form.isLowIncome && CalculateSubsidy(form).eligible
    ensures CalculateSubsidy(form).subsidy2_0
              == Table2_0(LowIncome, form.stage, FirstCycle)
              == Table2_0(LowIncome, form.stage, LaterCycle)
    ensures CalculateSubsidy(form).subsidy2_0
              == match form.stage
                 case Full => 150000
                 case EggOnly => 90000
                 case EmbryoOnly => 60000
    ensures CalculateSubsidy(form).subsidy3_0 == CalculateSubsidy(form).subsidy2_0 + 20000
  {
  }

  /** General tier: the 2.0 amount is the first-cycle figure when the count is
      1 and the later-cycle figure otherwise. */
  lemma GeneralTwoTier(form: CalculationForm)
    requires !form.isLowIncome && CalculateSubsidy(form).eligible
    ensures var first := form.treatmentCount == 1;
            CalculateSubsidy(form).subsidy2_0
              == match form.stage
                 case Full => if first then 100000 else 60000
                 case EggOnly => if first then 70000 else 40000
                 case EmbryoOnly => if first then 30000 else 20000
    ensures CalculateSubsidy(form).subsidy3_0
              == CalculateSubsidy(form).subsidy2_0 + (if form.treatmentCount == 1 then 20000 else 10000)
  {
  }

  /** An accepted form always gets a positive 2.0 amount, a strictly larger
      3.0 amount, and at most 170000 under 3.0. */
  lemma ThreeExceedsTwo(form: CalculationForm)
    requires CalculateSubsidy(form).eligible
    ensures 0 < CalculateSubsidy(form).subsidy2_0 < CalculateSubsidy(form).subsidy3_0 <= 170000
    ensures 10000 <= CalculateSubsidy(form).subsidy3_0 - CalculateSubsidy(form).subsidy2_0 <= 20000
  {
  }

  /** Whatever the verdict, neither amount is negative and 3.0 never falls
      below 2.0. */
  lemma AmountsOrdered(form: CalculationForm)
    ensures 0 <= CalculateSubsidy(form).subsidy2_0 <= CalculateSubsidy(form).subsidy3_0 <= 170000
  {
  }

  /** Of two accepted forms that differ only in the cycle count, the one on its
      first cycle gets at least as much under both schemes. */
  lemma FirstCycleGetsMost(f: CalculationForm, count: int)
    requires f.treatmentCount == 1
    requires CalculateSubsidy(f).eligible && CalculateSubsidy(f.(treatmentCount := count)).eligible
    ensures CalculateSubsidy(f.(treatmentCount := count)).subsidy2_0 <= CalculateSubsidy(f).subsidy2_0
    ensures CalculateSubsidy(f.(treatmentCount := count)).subsidy3_0 <= CalculateSubsidy(f).subsidy3_0
  {
  }

}
