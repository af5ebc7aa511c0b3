/** Data model of the subsidy calculator: the applicant form, the treatment stage
    and the history record stored after each calculation. */
module Types {

  /** Optional value, used for the message that only a rejected result carries
      and for the transfer date the form may leave empty. */
  datatype Option<+T> = None | Some(value: T)

  /** The three mutually exclusive treatment stages the form offers. */
  datatype TreatmentStage =
    | Full        // egg retrieval through embryo transfer
    | EggOnly     // egg retrieval only, transfer impossible for a specific reason
    | EmbryoOnly  // embryo transfer only, from previously stored material

  /** A calendar date already split into year, month and day. Any triple is
      accepted; nothing checks that the month or the day exists. Only
      differences of months are used, so the numbering base does not matter. */
  datatype Date = Date(year: int, month: int, day: int)

  /** The applicant form. `isFirstApplication` and `transferDate` are collected
      but never read by the evaluator. */
  datatype CalculationForm = CalculationForm(
    birthDate: Date,
    isLowIncome: bool,
    isFirstApplication: bool,
    treatmentCount: int,
    stage: TreatmentStage,
    firstApplicationDate: Date,
    transferDate: Option<Date>)

  /** What the evaluator returns: the two subsidy amounts, the age at the first
      application, the verdict and, for a rejection, its reason. */
  datatype SubsidyResult = SubsidyResult(
    subsidy2_0: int,
    subsidy3_0: int,
    age: int,
    eligible: bool,
    message: Option<string>)

  /** One history entry: an identifier and a timestamp supplied from outside,
      a copy of the form and the evaluated fields. */
  datatype CalculationResult = CalculationResult(
    id: string,
    timestamp: int,
    formData: CalculationForm,
    subsidy2_0: int,
    subsidy3_0: int,
    ageAtApplication: int,
    isEligible: bool,
    message: Option<string>)
}
