/** The calculation history: building a history entry from the evaluator's
    output and the newest-first list capped at ten entries. Persistence of the
    list, the entry identifier and the timestamp are supplied from outside. */
module History {
  import opened Types
  import opened Subsidy

  /** The history keeps at most this many entries. */
  const HistoryCap: nat := 10

  function Min(a: int, b: int): int {
    if a <= b then a else b
  }

  /* ---------------------------------------------------------------------- */
  /* Saving one entry                                                       */
  /* ---------------------------------------------------------------------- */

  /** Prepends the new entry and keeps the first ten. */
  function SaveHistory<T>(prev: seq<T>, res: T): (updated: seq<T>)
    ensures |updated| == Min(|prev| + 1, HistoryCap)
    ensures updated[0] == res
    ensures updated[1..] == prev[..Min(|prev|, HistoryCap - 1)]
  {
    ([res] + prev)[..Min(|prev| + 1, HistoryCap)]
  }

  /** On a full history the oldest entry is dropped and every other entry
      moves back by one place. */
  lemma SaveHistoryFullDropsOldest<T>(prev: seq<T>, res: T)
    requires |prev| == HistoryCap
    ensures |SaveHistory(prev, res)| == HistoryCap
    ensures SaveHistory(prev, res) == [res] + prev[..HistoryCap - 1]
    ensures forall i :: 0 <= i < HistoryCap - 1 ==> SaveHistory(prev, res)[i + 1] == prev[i]
  {
  }

  /** Below the cap nothing is dropped: the new entry followed by all of `prev`. */
  lemma SaveHistoryBelowCapKeepsAll<T>(prev: seq<T>, res: T)
    requires |prev| < HistoryCap
    ensures SaveHistory(prev, res) == [res] + prev
  {
  }

  /* ---------------------------------------------------------------------- */
  /* Saving many entries                                                    */
  /* ---------------------------------------------------------------------- */

  /** The history after saving `rs` in order, `rs[0]` first. */
  function SaveAll<T>(h: seq<T>, rs: seq<T>): seq<T>
    decreases |rs|
  {
    if |rs| == 0 then h else SaveAll(SaveHistory(h, rs[0]), rs[1..])
  }

  /** After any run of saves the history holds the most recent entries, newest
      first, followed by what was there before, cut at ten. */
  lemma {:induction false} SaveAllKeepsMostRecent<T>(h: seq<T>, rs: seq<T>)
    requires |h| <= HistoryCap || |rs| > 0
    ensures |SaveAll(h, rs)| == Min(|rs| + |h|, HistoryCap)
    ensures forall i :: 0 <= i < |SaveAll(h, rs)| ==>
              SaveAll(h, rs)[i] == if i < |rs| then rs[|rs| - 1 - i] else h[i - |rs|]
    decreases |rs|
  {
    if |rs| > 0 {
      var h' := SaveHistory(h, rs[0]);
      var rs' := rs[1..];
      SaveAllKeepsMostRecent(h', rs');
      assert SaveAll(h, rs) == SaveAll(h', rs');
      forall i | 0 <= i < |SaveAll(h, rs)|
        ensures SaveAll(h, rs)[i] == if i < |rs| then rs[|rs| - 1 - i] else h[i - |rs|]
      {
        if i < |rs'| {
          assert rs'[|rs'| - 1 - i] == rs[|rs| - 1 - i];
        } else if i == |rs'| {
          assert h'[0] == rs[0];
        } else {
          assert h'[1..][i - |rs|] == h'[i - |rs'|];
        }
      }
    }
  }

  /** Starting from at most ten entries, no run of saves ever holds more. */
  lemma {:induction false} SaveAllBounded<T>(h: seq<T>, rs: seq<T>)
    requires |h| <= HistoryCap
    ensures |SaveAll(h, rs)| <= HistoryCap
    decreases |rs|
  {
    if |rs| > 0 {
      SaveAllBounded(SaveHistory(h, rs[0]), rs[1..]);
    }
  }

  /* ---------------------------------------------------------------------- */
  /* Calculating and recording                                              */
  /* ---------------------------------------------------------------------- */

  /** The history entry for a form: the evaluator's output copied field by
      field next to a copy of the form, under the given identifier and time. */
  function MakeResult(form: CalculationForm, id: string, timestamp: int): (entry: CalculationResult)
    ensures entry.formData == form && entry.id == id && entry.timestamp == timestamp
    ensures entry.ageAtApplication == AgeAt(form.birthDate, form.firstApplicationDate)
    ensures entry.isEligible ==> 0 < entry.subsidy2_0 < entry.subsidy3_0 && entry.message == None
    ensures !entry.isEligible ==> entry.subsidy2_0 == 0 && entry.subsidy3_0 == 0 && entry.message.Some?
  {
    var r := CalculateSubsidy(form);
    CalculationResult(id, timestamp, form, r.subsidy2_0, r.subsidy3_0, r.age, r.eligible, r.message)
  }

  /** One press of the calculate button: the new current result and the
      updated history, which starts with that result. */
  function HandleCalculate(form: CalculationForm, id: string, timestamp: int, history: seq<CalculationResult>)
    : (out: (CalculationResult, seq<CalculationResult>))
    ensures out.0.formData == form && out.0.id == id && out.0.timestamp == timestamp
    ensures AgreesWithEvaluator(out.0)
    ensures |out.1| > 0 && out.1[0] == out.0
    ensures out.1[1..] == history[..Min(|history|, HistoryCap - 1)]
    ensures |history| <= HistoryCap ==> |out.1| <= HistoryCap
    ensures (forall e <- history :: AgreesWithEvaluator(e)) ==> forall e <- out.1 :: AgreesWithEvaluator(e)
  {
    var current := MakeResult(form, id, timestamp);
    (current, SaveHistory(history, current))
  }

  /** The evaluated fields of an entry agree with the evaluator. */
  predicate AgreesWithEvaluator(entry: CalculationResult) {
    var r := CalculateSubsidy(entry.formData);
    entry.subsidy2_0 == r.subsidy2_0 && entry.subsidy3_0 == r.subsidy3_0
    && entry.ageAtApplication == r.age && entry.isEligible == r.eligible
    && entry.message == r.message
  }

  /** An entry copies the evaluator's output unchanged: evaluating its stored
      form again gives back its figures, age, verdict and message. */
  lemma ReloadReproduces(form: CalculationForm, id: string, timestamp: int)
    ensures AgreesWithEvaluator(MakeResult(form, id, timestamp))
  {
  }

  /** Saving entries that agree with the evaluator onto a history whose
      entries agree leaves a history whose entries all agree. */
  lemma {:induction false} SavedEntriesAgree(h: seq<CalculationResult>, entries: seq<CalculationResult>)
    requires forall i :: 0 <= i < |h| ==> AgreesWithEvaluator(h[i])
    requires forall i :: 0 <= i < |entries| ==> AgreesWithEvaluator(entries[i])
    ensures forall i :: 0 <= i < |SaveAll(h, entries)| ==> AgreesWithEvaluator(SaveAll(h, entries)[i])
  {
    if |entries| > 0 || |h| <= HistoryCap {
      SaveAllKeepsMostRecent(h, entries);
    } else {
      assert SaveAll(h, entries) == h;
    }
  }
}
