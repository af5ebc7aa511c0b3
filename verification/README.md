# IVF subsidy calculator — Dafny model

A model of the rules engine behind a calculator for a fertility-treatment
(IVF) subsidy programme, with proofs about it. The engine is `calculateSubsidy`.
It takes an applicant form: birth date, income tier, cycle count, treatment stage
and first-application date. It returns the applicant's age, a verdict, a
rejection message, and two amounts: "2.0" (the older scheme) and "3.0" (the
current one). The model also covers the calculator's history list. Each
calculation is stored newest first, and the list keeps at most ten entries.

Files:

- `types.dfy` (module `Types`): the treatment stage (three cases), dates as
  `(year, month, day)` triples, the form, the evaluator's result and the
  history entry.
- `subsidy.dfy` (module `Subsidy`): age in completed years, the three gates in
  the code's order, the 2.0 amounts, the 3.0 bonus and `CalculateSubsidy`.
  The amounts are written twice: once as the code's `if` chain, and once as
  lookup tables keyed by income tier, stage and cycle tier. The two are proved
  equal.
- `subsidy_properties.dfy` (module `SubsidyProperties`): one lemma per
  property: the age rule, each gate and its boundaries, the amount tables, and
  3.0 exceeding 2.0.
- `history.dfy` (module `History`): prepend-and-truncate, a run of saves, the
  history entry built from the evaluator's output, and that entry agreeing with the evaluator.

Where the description of the system and the code disagree, the model follows
the code:

- The 3.0 amount is the 2.0 amount plus a bonus. There is no separate 3.0
  table keyed by age band and a three-way cycle grouping.
- The result has no transfer-limit field.
- "First cycle" means `treatmentCount == 1`. The form's `isFirstApplication`
  flag and transfer date are never read (`UnreadFieldsIgnored`).
- Both amounts are always computed. No date cutover picks one of the two schemes.

Behaviour at the edges, modelled as the code has it:

- An application date before the birth date gives a negative age. That form
  passes the age gates. `AgeNonNegative` shows the age is non-negative
  whenever the application is on or after the birth date.
- A cycle count of 0 or below passes every gate and is priced as a later cycle.
  The input control only offers 1 to 6.

## Model

| member | source | states |
|---|---|---|
| Subsidy.AgeAt | constants.ts:9-14 | the age is the last anniversary reached: the applicant has turned `age` by the application date but not `age + 1` |
| Subsidy.Rejection | constants.ts:16-29 | no gate rejects exactly when age < 45 and the count is within its band's limit (3 from 40 on, 6 below); from 45 on the message is the age-ceiling message |
| Subsidy.Amount2_0 | constants.ts:31-46 | the code's 2.0 branch chain agrees with the 2.0 lookup table for every tier, stage and first/later cycle |
| Subsidy.Amount3_0 | constants.ts:48-56 | the 3.0 amount is the 2.0 amount plus the tabled bonus: 20000 for low income, 20000/10000 for the general tier's first/later cycle |
| Subsidy.CalculateSubsidy | constants.ts:5-59 | the age is the completed-years age; the verdict is accepted exactly when age < 45 and the count is within the band limit; a rejection has zero amounts and the first failing gate's message; an acceptance has no message and the tabled 2.0 and 3.0 amounts |
| Subsidy.MessagesDistinct | constants.ts:18-28 | the three rejection messages are pairwise different, so the message identifies the gate |
| SubsidyProperties.AgeIsCompletedYears | constants.ts:10-14 | the applicant has turned n by the application date if and only if n is at most the computed age |
| SubsidyProperties.AgeFromYearDifference | constants.ts:10-14 | the age is the year difference, less one exactly when the application month/day is strictly before the birth month/day |
| SubsidyProperties.AgeOnBirthdayBoundary | constants.ts:10-14 | born 2000-06-15: age 24 on 2025-06-14 and 25 on 2025-06-15 |
| SubsidyProperties.AgeNonNegative | constants.ts:10-14 | an application on or after the birth date gives an age of at least 0 |
| SubsidyProperties.AgeCeilingRejects | constants.ts:17-19 | from age 45 the result is rejected with both amounts 0 and the age message, whatever the stage, income or count |
| SubsidyProperties.ReducedBandRejects | constants.ts:24-26 | aged 40 to 44 with more than 3 cycles: rejected, amounts 0, the 40-to-44 message |
| SubsidyProperties.MaxCyclesRejects | constants.ts:27-29 | under 40 with more than 6 cycles: rejected, amounts 0, the six-cycle message |
| SubsidyProperties.RejectionZeroesAmounts | constants.ts:17-29 | every rejection has both amounts 0 and a non-empty message |
| SubsidyProperties.EligibleWithinLimits | constants.ts:17-58 | an accepted form is under 45, has at most 6 cycles and at most 3 from age 40, and carries no message |
| SubsidyProperties.BandBoundaries | constants.ts:17-29 | at 39 the form is accepted exactly up to 6 cycles; at 40 exactly up to 3; at 44 with at most 3 cycles it is accepted; at 45 it is rejected |
| SubsidyProperties.VerdictIgnoresStageAndIncome | constants.ts:17-29 | verdict and message depend only on the dates and the cycle count |
| SubsidyProperties.UnreadFieldsIgnored | constants.ts:31-32 | changing the first-application flag or the transfer date never changes the result |
| SubsidyProperties.LowIncomeFlat | constants.ts:38-53 | low income, accepted: 2.0 is the table's low-income entry for the stage, the same for first and later cycles (150000/90000/60000), independent of count and age; 3.0 is 20000 more |
| SubsidyProperties.GeneralTwoTier | constants.ts:42-56 | general tier, accepted: 2.0 is Full 100000/60000, EggOnly 70000/40000, EmbryoOnly 30000/20000 for count 1 versus otherwise; 3.0 adds 20000 on count 1, else 10000 |
| SubsidyProperties.ThreeExceedsTwo | constants.ts:51-58 | accepted: 0 < 2.0 < 3.0 <= 170000, and the gap is between 10000 and 20000 |
| SubsidyProperties.AmountsOrdered | constants.ts:17-58 | for every form, 0 <= 2.0 <= 3.0 <= 170000 |
| SubsidyProperties.FirstCycleGetsMost | constants.ts:32-56 | for two accepted forms differing only in count, the first cycle gets at least as much as any other under both schemes |
| History.SaveHistory | App.tsx:33-39 | the new list has min(old length + 1, 10) entries; the new entry is first; the rest is the old list's first min(length, 9) entries in order |
| History.SaveHistoryFullDropsOldest | App.tsx:35 | on a list of 10, the oldest entry is dropped and every other entry moves back one place |
| History.SaveHistoryBelowCapKeepsAll | App.tsx:35 | on a list of fewer than 10, the result is the new entry followed by the whole old list |
| History.SaveAllKeepsMostRecent | App.tsx:33-39 | after any run of saves, the list holds the saved entries newest first, then the earlier list, cut at 10 |
| History.SaveAllBounded | App.tsx:35 | starting from at most 10 entries, no run of saves ever holds more than 10 |
| History.MakeResult | App.tsx:41-53 | the entry carries a copy of the form, the given id and time, and the evaluator's age; accepted entries have 0 < 2.0 < 3.0 and no message; rejected ones have zero amounts and a message |
| History.HandleCalculate | App.tsx:41-56 | the current result carries the form, the given id and time, and exactly the evaluator's amounts, age, verdict and message; it heads the updated history, which keeps the old entries in order, stays within 10 if it was, and keeps every entry in agreement with the evaluator if all were |
| History.ReloadReproduces | App.tsx:42-53 | the entry copies the evaluator's output unchanged: re-evaluating its stored form gives back its amounts, age, verdict and message |
| History.SavedEntriesAgree | App.tsx:33-56 | saving entries that agree with the evaluator keeps every entry of the history in agreement |

## Left out

- Parsing date strings with `new Date(...)` (constants.ts:6-7) is not
  modelled. Dates arrive as `(year, month, day)` triples. The JavaScript 0-based
  month cancels out, because only the difference of months is used.
- Subsidy.AgeAt: matches the code's age only for dates that exist in the
  calendar. The date picker offers days 01 to 31 in every month, so a string
  such as `2025-02-31` can reach the evaluator. There `new Date` rolls it into
  the next month or gives an invalid date, depending on the engine. The model
  instead computes on the raw triple, and no date is checked for validity.
- Time zones are not modelled. `new Date("YYYY-MM-DD")` parses as UTC, but the
  code reads the local year, month and day. West of UTC both dates shift back a
  day, and that can change the age at month ends. The model assumes the local
  date equals the entered date.
- Writing the history to `localStorage`, and reading and JSON-parsing it at
  start-up (App.tsx:22-31, 36), are I/O. `SaveAllKeepsMostRecent` takes the
  starting list as a parameter.
- The entry id from `Math.random` and the timestamp from `Date.now`
  (App.tsx:45-46) are nondeterministic. They are parameters of `MakeResult`.
- React state hooks, rendering, scrolling and `setTimeout` (App.tsx:57-68 and
  the markup), and the date-picker component, are presentation only. Setting
  the current result and saving it (App.tsx:55-56) are `HandleCalculate`.
- A "clear history" operation does not exist in App.tsx, so it is not modelled.
- Limiting the cycle count to 1..6 is left to the input control (App.tsx:156).
  The evaluator's own gates are modelled for every integer count.
- The evaluator is a pure function, so evaluating the same form twice gives
  the same result by construction. No lemma states this.
