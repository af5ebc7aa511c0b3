/** The subsidy evaluator: age in completed years, the three eligibility gates
    in the order the code applies them, the 2.0 amount table and the 3.0 bonus. */
module Subsidy {
  import opened Types

  /* ---------------------------------------------------------------------- */
  /* Thresholds and rejection messages                                       */
  /* ---------------------------------------------------------------------- */

  /** Applicants must be younger than this at the first application. */
  const AgeCeiling: int := 45
  /** From this age on the reduced cycle limit applies. */
  const ReducedBandAge: int := 40
  /** Cycle limit for applicants aged 40 to 44. */
  const ReducedBandMaxCycles: int := 3
  /** Cycle limit for everyone else. */
  const MaxCycles: int := 6

  const AgeCeilingMessage: string := "申請人年齡需未滿45歲"
  const ReducedBandMessage: string := "40歲至44歲者，補助上限為3次"
  const MaxCyclesMessage: string := "補助上限為6次"

  /** The three messages are distinct, so a message identifies the gate. */
  lemma MessagesDistinct()
    ensures AgeCeilingMessage != ReducedBandMessage
    ensures AgeCeilingMessage != MaxCyclesMessage
    ensures ReducedBandMessage != MaxCyclesMessage
  {
  }

  /* ---------------------------------------------------------------------- */
  /* Age                                                                    */
  /* ---------------------------------------------------------------------- */

  /** Calendar order on dates: by year, then month, then day. */
  predicate DateLe(a: Date, b: Date) {
    a.year < b.year
    || (a.year == b.year && (a.month < b.month || (a.month == b.month && a.day <= b.day)))
  }

  /** The n-th anniversary of a birth date. */
  function Anniversary(birth: Date, n: int): Date {
    Date(birth.year + n, birth.month, birth.day)
  }

  /** Someone born on `birth` has turned `n` by `on`. */
  predicate HasTurned(birth: Date, on: Date, n: int) {
    DateLe(Anniversary(birth, n), on)
  }

  /** Age in completed years: the year difference, less one when the
      application's month and day come strictly before the birth month and day.
      The result is the last anniversary reached by the application date. */
  function AgeAt(birth: Date, application: Date): (age: int)
    ensures HasTurned(birth, application, age)
    ensures !HasTurned(birth, application, age + 1)
  {
    var years := application.year - birth.year;
    var m := application.month - birth.month;
    if m < 0 || (m == 0 && application.day < birth.day) then years - 1 else years
  }

  /* ---------------------------------------------------------------------- */
  /* Eligibility                                                            */
  /* ---------------------------------------------------------------------- */

  /** The cycle limit of an age band: 3 from age 40 on, 6 below. */
  function CycleLimit(age: int): (limit: int)
    ensures limit == MaxCycles || limit == ReducedBandMaxCycles
    ensures limit <= MaxCycles
  {
    if age >= ReducedBandAge then ReducedBandMaxCycles else MaxCycles
  }

  /** The first gate that rejects an applicant of this age and cycle count,
      checked in the order the code checks them; None when all gates pass. */
  function Rejection(age: int, treatmentCount: int): (reason: Option<string>)
    ensures reason == None <==> age < AgeCeiling && treatmentCount <= CycleLimit(age)
    ensures age >= AgeCeiling ==> reason == Some(AgeCeilingMessage)
  {
    if age >= AgeCeiling then Some(AgeCeilingMessage)
    else if age >= ReducedBandAge && treatmentCount > ReducedBandMaxCycles then Some(ReducedBandMessage)
    else if treatmentCount > MaxCycles then Some(MaxCyclesMessage)
    else None
  }

  /* ---------------------------------------------------------------------- */
  /* Amount tables                                                          */
  /* ---------------------------------------------------------------------- */

  datatype IncomeTier = LowIncome | General
  datatype CycleTier = FirstCycle | LaterCycle

  function TierOf(isLowIncome: bool): IncomeTier {
    if isLowIncome then LowIncome else General
  }

  /** A cycle is the first exactly when the count is 1. */
  function CycleTierOf(treatmentCount: int): CycleTier {
    if treatmentCount == 1 then FirstCycle else LaterCycle
  }

  /** The 2.0 amounts as a lookup over every income tier, stage and cycle tier. */
  function Table2_0(tier: IncomeTier, stage: TreatmentStage, cycle: CycleTier): int {
    match (tier, stage, cycle)
    case (LowIncome, Full, FirstCycle) => 150000
    case (LowIncome, Full, LaterCycle) => 150000
    case (LowIncome, EggOnly, FirstCycle) => 90000
    case (LowIncome, EggOnly, LaterCycle) => 90000
    case (LowIncome, EmbryoOnly, FirstCycle) => 60000
    case (LowIncome, EmbryoOnly, LaterCycle) => 60000
    case (General, Full, FirstCycle) => 100000
    case (General, Full, LaterCycle) => 60000
    case (General, EggOnly, FirstCycle) => 70000
    case (General, EggOnly, LaterCycle) => 40000
    case (General, EmbryoOnly, FirstCycle) => 30000
    case (General, EmbryoOnly, LaterCycle) => 20000
  }

  /** The 3.0 bonus over the 2.0 amount, per income tier and cycle tier. */
  function Bonus3_0(tier: IncomeTier, cycle: CycleTier): int {
    match (tier, cycle)
    case (LowIncome, FirstCycle) => 20000
    case (LowIncome, LaterCycle) => 20000
    case (General, FirstCycle) => 20000
    case (General, LaterCycle) => 10000
  }

  /** The 2.0 amount, as the code's branch chain computes it. */
  function Amount2_0(isLowIncome: bool, stage: TreatmentStage, isFirst: bool): (s2: int)
    ensures s2 == Table2_0(TierOf(isLowIncome), stage, if isFirst then FirstCycle else LaterCycle)
  {
    if isLowIncome then
      if stage == Full then 150000
      else if stage == EggOnly then 90000
      else 60000
    else
      if stage == Full then (if isFirst then 100000 else 60000)
      else if stage == EggOnly then (if isFirst then 70000 else 40000)
      else (if isFirst then 30000 else 20000)
  }

  /** The 3.0 amount: the 2.0 amount plus 20000 for low income, and for the
      general tier plus 20000 on the first cycle and 10000 afterwards. */
  function Amount3_0(isLowIncome: bool, stage: TreatmentStage, isFirst: bool): (s3: int)
    ensures s3 == Amount2_0(isLowIncome, stage, isFirst)
                  + Bonus3_0(TierOf(isLowIncome), if isFirst then FirstCycle else LaterCycle)
  {
    var s2 := Amount2_0(isLowIncome, stage, isFirst);
    if isLowIncome then s2 + 20000
    else s2 + (if isFirst then 20000 else 10000)
  }

  /* ---------------------------------------------------------------------- */
  /* The evaluator                                                          */
  /* ---------------------------------------------------------------------- */

  /** Evaluates a form. A rejected form gets both amounts 0 and the message of
      the first gate that failed; an accepted one gets the table amounts and no
      message. `isFirstApplication` and `transferDate` play no part. */
  function CalculateSubsidy(form: CalculationForm): (r: SubsidyResult)
    ensures r.age == AgeAt(form.birthDate, form.firstApplicationDate)
    ensures r.eligible <==> r.age < AgeCeiling && form.treatmentCount <= CycleLimit(r.age)
    ensures !r.eligible ==>
              r.subsidy2_0 == 0 && r.subsidy3_0 == 0
              && r.message == Rejection(r.age, form.treatmentCount) && r.message.Some?
    ensures r.eligible ==>
              var tier := TierOf(form.isLowIncome);
              var cycle := CycleTierOf(form.treatmentCount);
              r.message == None
              && r.subsidy2_0 == Table2_0(tier, form.stage, cycle)
              && r.subsidy3_0 == Table2_0(tier, form.stage, cycle) + Bonus3_0(tier, cycle)
  {
    var age := AgeAt(form.birthDate, form.firstApplicationDate);
    match Rejection(age, form.treatmentCount)
    case Some(reason) =>
      SubsidyResult(0, 0, age, false, Some(reason))
    case None =>
      var isFirst := form.treatmentCount == 1;
      SubsidyResult(
        Amount2_0(form.isLowIncome, form.stage, isFirst),
        Amount3_0(form.isLowIncome, form.stage, isFirst),
        age, true, None)
  }
}
