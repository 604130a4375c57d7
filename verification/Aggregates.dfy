/** Archiving changes nothing that the billing, despatch and status tables are made from. */
module Aggregates {
  import opened Collections
  import opened LondonTime
  import opened Schema
  import opened Rates
  import opened FactBilling
  import FtBillingTable
  import LetterDespatch
  import StatusFacts
  import opened Archive

  /** Two views that hold the same rows of normal and team keys, in any order. */
  ghost predicate SameRealRows(view: seq<ViewRow>, view': seq<ViewRow>) {
    multiset(Filter(view, IsReal)) == multiset(Filter(view', IsReal))
  }

  lemma SameMembers(view: seq<ViewRow>, view': seq<ViewRow>, r: ViewRow)
    requires SameRealRows(view, view') && IsReal(r)
    ensures r in view <==> r in view'
  {
    var a, b := Filter(view, IsReal), Filter(view', IsReal);
    FilterContains(view, IsReal, r);
    FilterContains(view', IsReal, r);
    assert (r in a <==> r in multiset(a)) && (r in b <==> r in multiset(b));
  }

  lemma SameSums(view: seq<ViewRow>, view': seq<ViewRow>, f: ViewRow -> int)
    requires SameRealRows(view, view') && forall r :: !IsReal(r) ==> f(r) == 0
    ensures Sum(view, f) == Sum(view', f)
  {
    SumOverFilter(view, IsReal, f);
    SumOverFilter(view', IsReal, f);
    SumPermutation(Filter(view, IsReal), Filter(view', IsReal), f);
  }

  // ---------------------------------------------------------------- daily billing data

  lemma BillableIsReal(r: ViewRow, w: Window)
    requires 1 <= w.day && Billable(r, w)
    ensures IsReal(r)
  {
  }

  lemma SameBillable(view: seq<ViewRow>, view': seq<ViewRow>, w: Window)
    requires 1 <= w.day && SameRealRows(view, view')
    ensures forall r | Billable(r, w) :: r in view <==> r in view'
    ensures forall k :: Sum(view, UnitsOfKey(w, k)) == Sum(view', UnitsOfKey(w, k))
    ensures forall k :: Sum(view, CountOfKey(w, k)) == Sum(view', CountOfKey(w, k))
  {
    hide Billable, Sum, SameRealRows, IsReal;
    forall r | Billable(r, w) ensures r in view <==> r in view' {
      BillableIsReal(r, w);
      SameMembers(view, view', r);
    }
    forall r: ViewRow | !IsReal(r) ensures !Billable(r, w) {
      if Billable(r, w) {
        BillableIsReal(r, w);
      }
    }
    forall k
      ensures Sum(view, UnitsOfKey(w, k)) == Sum(view', UnitsOfKey(w, k))
      ensures Sum(view, CountOfKey(w, k)) == Sum(view', CountOfKey(w, k))
    {
      SameSums(view, view', UnitsOfKey(w, k));
      SameSums(view, view', CountOfKey(w, k));
    }
  }

  lemma DataWithin(data: seq<BillingDatum>, data': seq<BillingDatum>, view: seq<ViewRow>, view': seq<ViewRow>,
                   w: Window, d: BillingDatum)
    requires 1 <= w.day && SameRealRows(view, view')
    requires IsBillingData(data, view, w) && IsBillingData(data', view', w) && d in data
    ensures d in data'
  {
    hide Billable, Sum, SameRealRows, DatumKeyOf;
    SameBillable(view, view', w);
    var r :| r in view && Billable(r, w) && DatumKeyOf(r) == d.key;
    var d' :| d' in data' && d'.key == d.key;
    assert d'.billableUnits == Sum(view', UnitsOfKey(w, d.key));
  }

  lemma BillingDataHasNoDuplicates(data: seq<BillingDatum>, view: seq<ViewRow>, w: Window)
    requires 1 <= w.day && IsBillingData(data, view, w)
    ensures NoDuplicates(data)
  {
    hide Billable, Sum;
  }

  /** The day's billing data are the same rows, perhaps in another order. */
  lemma SameBillingData(view: seq<ViewRow>, view': seq<ViewRow>, w: Window)
    requires 1 <= w.day && SameRealRows(view, view')
    ensures multiset(FetchBillingDataForDay(view, w)) == multiset(FetchBillingDataForDay(view', w))
  {
    hide FetchBillingDataForDay, IsBillingData, SameRealRows;
    var data, data' := FetchBillingDataForDay(view, w), FetchBillingDataForDay(view', w);
    FetchedData(view, w);
    FetchedData(view', w);
    BillingDataHasNoDuplicates(data, view, w);
    BillingDataHasNoDuplicates(data', view', w);
    SameRealRowsSymmetric(view, view');
    forall d ensures d in data <==> d in data' {
      if d in data { DataWithin(data, data', view, view', w, d); }
      if d in data' { DataWithin(data', data, view', view, w, d); }
    }
    SameRowsSameMultiset(data, data');
  }

  lemma SameRealRowsSymmetric(view: seq<ViewRow>, view': seq<ViewRow>)
    requires SameRealRows(view, view')
    ensures SameRealRows(view', view)
  {
  }

  // ---------------------------------------------------------------- ft_billing

  lemma SameHasBillable(view: seq<ViewRow>, view': seq<ViewRow>, w: Window, rates: RateTables, k: FtBillingKey)
    requires 1 <= w.day && SameRealRows(view, view')
    ensures FtBillingTable.HasBillable(view, w, rates, k) <==> FtBillingTable.HasBillable(view', w, rates, k)
  {
    hide Billable, FtBillingTable.FactKeyOf, SameRealRows;
    SameBillable(view, view', w);
  }

  lemma SameFactSums(view: seq<ViewRow>, view': seq<ViewRow>, w: Window, rates: RateTables, k: FtBillingKey)
    requires 1 <= w.day && SameRealRows(view, view')
    ensures Sum(view, FtBillingTable.UnitsOfFact(w, rates, k)) == Sum(view', FtBillingTable.UnitsOfFact(w, rates, k))
    ensures Sum(view, FtBillingTable.CountOfFact(w, rates, k)) == Sum(view', FtBillingTable.CountOfFact(w, rates, k))
  {
    hide Billable, FtBillingTable.FactKeyOf, SameRealRows, IsReal;
    forall r: ViewRow | !IsReal(r) ensures !Billable(r, w) {
      if Billable(r, w) {
        BillableIsReal(r, w);
      }
    }
    SameSums(view, view', FtBillingTable.UnitsOfFact(w, rates, k));
    SameSums(view, view', FtBillingTable.CountOfFact(w, rates, k));
  }

  lemma SameCollisions(view: seq<ViewRow>, view': seq<ViewRow>, w: Window, rates: RateTables)
    requires 1 <= w.day && SameRealRows(view, view')
    ensures (exists r, r' :: r in view && r' in view && Billable(r, w) && Billable(r', w)
                          && FtBillingTable.SheetCountsShareRate(r, r', rates, w.day))
       <==> (exists r, r' :: r in view' && r' in view' && Billable(r, w) && Billable(r', w)
                          && FtBillingTable.SheetCountsShareRate(r, r', rates, w.day))
  {
    hide Billable, FtBillingTable.SheetCountsShareRate, SameRealRows;
    SameBillable(view, view', w);
  }

  /** Writing the day's facts ends in the same way. */
  lemma SameResult(table: FtBilling, view: seq<ViewRow>, view': seq<ViewRow>, w: Window, rates: RateTables)
    requires 1 <= w.day && SameRealRows(view, view')
    ensures FtBillingTable.UpdatedFacts(table, FetchBillingDataForDay(view, w), rates, w.day).1
         == FtBillingTable.UpdatedFacts(table, FetchBillingDataForDay(view', w), rates, w.day).1
  {
    hide FetchBillingDataForDay, IsBillingData, SameRealRows, Billable, RepeatsKey, FtBillingTable.SheetCountsShareRate,
         FtBillingTable.BillingRecords, FtBillingTable.RateOf, Upsert;
    var data, data' := FetchBillingDataForDay(view, w), FetchBillingDataForDay(view', w);
    SameBillingData(view, view', w);
    SameElements(data, data');
    FtBillingTable.BillingRecordsAre(data, rates, w.day);
    FtBillingTable.BillingRecordsAre(data', rates, w.day);
    FetchedData(view, w);
    FetchedData(view', w);
    var records := FtBillingTable.BillingRecords(data, rates, w.day);
    var records' := FtBillingTable.BillingRecords(data', rates, w.day);
    if records.Some? && records'.Some? {
      FtBillingTable.KeyRepeatsIff(view, w, rates, data, records.value);
      FtBillingTable.KeyRepeatsIff(view', w, rates, data', records'.value);
      SameCollisions(view, view', w, rates);
    }
  }

  lemma SameElements<T>(p: seq<T>, q: seq<T>)
    requires multiset(p) == multiset(q)
    ensures forall x :: x in p <==> x in q
    ensures p == [] <==> q == []
  {
    assert forall x :: x in p <==> x in multiset(p);
    assert forall x :: x in q <==> x in multiset(q);
    assert |multiset(p)| == |p| && |multiset(q)| == |q|;
  }

  /** Writing the day's facts has the same effect on the table. */
  lemma SameUpdatedFacts(table: FtBilling, view: seq<ViewRow>, view': seq<ViewRow>, w: Window, rates: RateTables)
    requires 1 <= w.day && SameRealRows(view, view')
    ensures FtBillingTable.UpdatedFacts(table, FetchBillingDataForDay(view, w), rates, w.day)
         == FtBillingTable.UpdatedFacts(table, FetchBillingDataForDay(view', w), rates, w.day)
  {
    hide FetchBillingDataForDay, SameRealRows, Billable, Sum, FtBillingTable.HasBillable;
    SameResult(table, view, view', w, rates);
    var (after, result) := FtBillingTable.UpdatedFacts(table, FetchBillingDataForDay(view, w), rates, w.day);
    var (after', result') := FtBillingTable.UpdatedFacts(table, FetchBillingDataForDay(view', w), rates, w.day);
    if result.Updated? {
      SameUpsertedFacts(table, view, view', w, rates, after, after');
    }
  }

  lemma SameUpsertedFacts(table: FtBilling, view: seq<ViewRow>, view': seq<ViewRow>, w: Window, rates: RateTables,
                          after: FtBilling, after': FtBilling)
    requires 1 <= w.day && SameRealRows(view, view')
    requires FtBillingTable.UpdatedFacts(table, FetchBillingDataForDay(view, w), rates, w.day)
          == (after, FtBillingTable.Updated)
    requires FtBillingTable.UpdatedFacts(table, FetchBillingDataForDay(view', w), rates, w.day)
          == (after', FtBillingTable.Updated)
    ensures after == after'
  {
    hide FetchBillingDataForDay, SameRealRows, Billable, Sum, FtBillingTable.HasBillable, FtBillingTable.UpdatedFacts;
    FtBillingTable.UpsertedFacts(table, view, w, rates);
    FtBillingTable.UpsertedFacts(table, view', w, rates);
    forall k ensures (k in after <==> k in after') && (k in after ==> after[k] == after'[k]) {
      SameHasBillable(view, view', w, rates, k);
      SameFactSums(view, view', w, rates, k);
    }
  }

  // ---------------------------------------------------------------- ft_notification_status

  lemma CountedIsReal(r: ViewRow, w: StatusFacts.StatusWindow)
    requires 1 <= w.day && StatusFacts.Counted(r, w)
    ensures IsReal(r)
  {
  }

  lemma SameOccurs(view: seq<ViewRow>, view': seq<ViewRow>, w: StatusFacts.StatusWindow, k: StatusFacts.StatusKey)
    requires 1 <= w.day && SameRealRows(view, view')
    ensures StatusFacts.Occurs(view, w, k) ==> StatusFacts.Occurs(view', w, k)
    ensures Sum(view, StatusFacts.CountOfKey(w, k)) == Sum(view', StatusFacts.CountOfKey(w, k))
  {
    hide StatusFacts.Counted, IsReal, SameRealRows;
    if r :| r in view && StatusFacts.Counted(r, w) && StatusFacts.KeyOfGroup(StatusFacts.GroupOf(r), w) == k {
      CountedIsReal(r, w);
      SameMembers(view, view', r);
    }
    forall r: ViewRow | !IsReal(r) ensures !StatusFacts.Counted(r, w) {
      if StatusFacts.Counted(r, w) {
        CountedIsReal(r, w);
      }
    }
    SameSums(view, view', StatusFacts.CountOfKey(w, k));
  }

  lemma SameStatusFacts(table: StatusFacts.StatusTable, view: seq<ViewRow>, view': seq<ViewRow>,
                        w: StatusFacts.StatusWindow)
    requires 1 <= w.day && SameRealRows(view, view')
    ensures StatusFacts.AfterStatusUpdate(table, view, w) == StatusFacts.AfterStatusUpdate(table, view', w)
  {
    hide StatusFacts.AfterStatusUpdate, StatusFacts.Occurs, SameRealRows, Sum;
    var after, after' := StatusFacts.AfterStatusUpdate(table, view, w), StatusFacts.AfterStatusUpdate(table, view', w);
    SameRealRowsSymmetric(view, view');
    forall k ensures (k in after <==> k in after') && (k in after ==> after[k] == after'[k]) {
      StatusFacts.StatusUpdateIsExact(table, view, w, k);
      StatusFacts.StatusUpdateIsExact(table, view', w, k);
      SameOccurs(view, view', w, k);
      SameOccurs(view', view, w, k);
    }
  }

  // ---------------------------------------------------------------- the letter-despatch facts

  function LettersOf(t: Tables, despatches: LetterDespatch.Despatches, day: Date): seq<LetterDespatch.LetterRow> {
    LetterDespatch.LetterNotifications(t.live, t.history, despatches, day)
  }

  /** The same rows in the two tables together give the same letters. */
  lemma SameLetters(t: Tables, t': Tables, despatches: LetterDespatch.Despatches, day: Date)
    requires multiset(View(t)) == multiset(View(t'))
    ensures multiset(LettersOf(t, despatches, day)) == multiset(LettersOf(t', despatches, day))
  {
    hide LetterDespatch.LetterNotifications, LetterDespatch.DespatchedOn, LetterDespatch.LetterOf;
    LetterDespatch.LettersAre(t.live, t.history, despatches, day);
    LetterDespatch.LettersAre(t'.live, t'.history, despatches, day);
    SameElements(View(t), View(t'));
    SameRowsSameMultiset(LettersOf(t, despatches, day), LettersOf(t', despatches, day));
  }

  /** Deleting test notifications does change the letters of a day, which are counted whatever
      their key: exactly when one of the deleted ones was despatched on that day. */
  lemma TestBatchKeepsLettersIff(t: Tables, step: Step, despatches: LetterDespatch.Despatches, day: Date)
    requires UniqueIds(View(t)) && Allowed(t, step) && step.TestBatch?
    ensures multiset(LettersOf(AfterStep(t, step), despatches, day)) == multiset(LettersOf(t, despatches, day))
       <==> forall r | r in step.batch :: !LetterDespatch.DespatchedOn(despatches, r.id, day)
  {
    hide LetterDespatch.LetterNotifications, LetterDespatch.DespatchedOn, HasId, Filter, UniqueIds;
    var after := AfterStep(t, step);
    var letters, letters' := LettersOf(t, despatches, day), LettersOf(after, despatches, day);
    LetterDespatch.LettersAre(t.live, t.history, despatches, day);
    LetterDespatch.LettersAre(after.live, after.history, despatches, day);
    ViewHasUniqueIds(t);
    StepRows(t, step);
    if forall r | r in step.batch :: !LetterDespatch.DespatchedOn(despatches, r.id, day) {
      forall l ensures l in letters <==> l in letters' {
        assert forall r | r in View(t) && LetterDespatch.DespatchedOn(despatches, r.id, day) :: r in View(after);
      }
      SameRowsSameMultiset(letters, letters');
    } else {
      var r :| r in step.batch && LetterDespatch.DespatchedOn(despatches, r.id, day);
      DeletedIdIsGone(t, step, r);
      assert LetterDespatch.LetterOf(r) in letters;
      assert LetterDespatch.LetterOf(r) !in letters';
      assert LetterDespatch.LetterOf(r) in multiset(letters);
    }
  }

  lemma DeletedIdIsGone(t: Tables, step: Step, r: ViewRow)
    requires UniqueIds(View(t)) && Allowed(t, step) && step.TestBatch? && r in step.batch
    ensures r in View(t) && forall r' | r' in View(AfterStep(t, step)) :: r'.id != r.id
  {
    hide HasId, Filter;
    ViewHasUniqueIds(t);
    StepRows(t, step);
    forall r' | r' in View(AfterStep(t, step)) ensures r'.id != r.id {
      assert r' in View(t);
      if r'.id == r.id {
        SameIdSameRow(View(t), r, r');
        HistoryHasId(t, r');
      }
    }
  }

  lemma HistoryHasId(t: Tables, r: ViewRow)
    ensures r in t.history ==> HasId(t.history, r.id)
  {
  }

  /** No batch brings a row into the two tables together. */
  lemma StepOnlyRemoves(t: Tables, step: Step)
    requires UniqueIds(View(t)) && Allowed(t, step)
    ensures forall r | r in View(AfterStep(t, step)) :: r in View(t)
  {
    hide HasId, Filter, UniqueIds, Without, InsertOrSkip;
    ViewHasUniqueIds(t);
    StepRows(t, step);
    if step.ArchiveBatch? {
      ArchiveKeepsViewIff(t, step.batch);
      SameElements(View(AfterStep(t, step)), View(t));
    }
  }

  lemma FewerLetters(t: Tables, t': Tables, despatches: LetterDespatch.Despatches, day: Date)
    requires forall r | r in View(t') :: r in View(t)
    ensures multiset(LettersOf(t', despatches, day)) <= multiset(LettersOf(t, despatches, day))
  {
    hide LetterDespatch.LetterNotifications, LetterDespatch.DespatchedOn, LetterDespatch.LetterOf;
    LetterDespatch.LettersAre(t.live, t.history, despatches, day);
    LetterDespatch.LettersAre(t'.live, t'.history, despatches, day);
    forall l
      ensures multiset(LettersOf(t', despatches, day))[l] <= multiset(LettersOf(t, despatches, day))[l]
    {
      NoDuplicatesMultiplicity(LettersOf(t', despatches, day), l);
      NoDuplicatesMultiplicity(LettersOf(t, despatches, day), l);
      if l in LettersOf(t', despatches, day) {
        var r :| r in View(t') && LetterDespatch.DespatchedOn(despatches, r.id, day) && LetterDespatch.LetterOf(r) == l;
        assert r in View(t);
      }
    }
  }

  /** The step deletes a test letter that was despatched on the day. */
  ghost predicate DeletesDespatched(step: Step, despatches: LetterDespatch.Despatches, day: Date) {
    step.TestBatch? && exists r :: r in step.batch && LetterDespatch.DespatchedOn(despatches, r.id, day)
  }

  lemma StepKeepsLettersIff(t: Tables, step: Step, despatches: LetterDespatch.Despatches, day: Date)
    requires UniqueIds(View(t)) && Allowed(t, step)
    ensures multiset(LettersOf(AfterStep(t, step), despatches, day)) == multiset(LettersOf(t, despatches, day))
       <==> !DeletesDespatched(step, despatches, day)
  {
    hide HasId, Filter, UniqueIds, LetterDespatch.DespatchedOn, LettersOf;
    if step.TestBatch? {
      TestBatchKeepsLettersIff(t, step, despatches, day);
    } else {
      ViewHasUniqueIds(t);
      StepRows(t, step);
      ArchiveKeepsViewIff(t, step.batch);
      SameLetters(AfterStep(t, step), t, despatches, day);
    }
  }

  /** The letters of a despatch day are the same after any run of batches of any tasks, if and only
      if no test deletion of the run took one that was despatched on that day. */
  lemma {:induction false} RunKeepsLettersIff(t: Tables, steps: seq<Step>, despatches: LetterDespatch.Despatches,
                                              day: Date)
    requires UniqueIds(View(t)) && IsRun(t, steps)
    ensures multiset(LettersOf(AfterRun(t, steps), despatches, day)) <= multiset(LettersOf(t, despatches, day))
    ensures multiset(LettersOf(AfterRun(t, steps), despatches, day)) == multiset(LettersOf(t, despatches, day))
       <==> forall step | step in steps :: !DeletesDespatched(step, despatches, day)
  {
    hide UniqueIds, Allowed, AfterStep, View, LettersOf, DeletesDespatched;
    if steps == [] {
    } else {
      var front, last := steps[..|steps| - 1], steps[|steps| - 1];
      assert steps == front + [last];
      var before := AfterRun(t, front);
      RunKeepsLettersIff(t, front, despatches, day);
      RunKeepsRealRows(t, front);
      StepOnlyRemoves(before, last);
      FewerLetters(before, AfterStep(before, last), despatches, day);
      StepKeepsLettersIff(before, last, despatches, day);
    }
  }

  // ---------------------------------------------------------------- over any run

  /** Over any run of archiving and test-deletion batches of any tasks, the nightly update and the
      rebuild of any day, and the status update of any window, would do exactly what they would
      have done before the run. */
  lemma AggregatesSurviveArchival(t: Tables, steps: seq<Step>, facts: FtBilling, w: Window, rates: RateTables,
                                  statusFacts: StatusFacts.StatusTable, sw: StatusFacts.StatusWindow)
    requires UniqueIds(View(t)) && IsRun(t, steps) && 1 <= w.day && 1 <= sw.day
    ensures var after := AfterRun(t, steps);
            && multiset(FetchBillingDataForDay(View(after), w)) == multiset(FetchBillingDataForDay(View(t), w))
            && FtBillingTable.AfterNightlyUpdate(facts, View(after), w.day, rates)
               == FtBillingTable.AfterNightlyUpdate(facts, View(t), w.day, rates)
            && FtBillingTable.AfterRebuild(facts, View(after), w, rates)
                == FtBillingTable.AfterRebuild(facts, View(t), w, rates)
            && StatusFacts.AfterStatusUpdate(statusFacts, View(after), sw)
                == StatusFacts.AfterStatusUpdate(statusFacts, View(t), sw)
  {
    hide FetchBillingDataForDay, StatusFacts.AfterStatusUpdate, FtBillingTable.UpdatedFacts, AfterRun, View, IsRun;
    var after := AfterRun(t, steps);
    RunKeepsRealRows(t, steps);
    SameBillingData(View(after), View(t), w);
    SameUpdatedFacts(facts, View(after), View(t), Window(w.day, None), rates);
    SameUpdatedFacts(FtBillingTable.WithoutWindow(facts, w), View(after), View(t), w, rates);
    SameStatusFacts(statusFacts, View(after), View(t), sw);
  }

  /** Over any run of batches that deletes no test letter of the day, the letter-despatch update of
      the day does exactly what it would have done before the run. */
  lemma DespatchFactsSurviveArchival(t: Tables, steps: seq<Step>, facts: LetterDespatch.Facts,
                                     despatches: LetterDespatch.Despatches, rates: RateTables, day: Date)
    requires UniqueIds(View(t)) && IsRun(t, steps) && 1 <= day
    requires forall step | step in steps :: !DeletesDespatched(step, despatches, day)
    ensures LetterDespatch.UpdatedDespatchFacts(facts, LettersOf(AfterRun(t, steps), despatches, day), despatches,
        rates, day)
         == LetterDespatch.UpdatedDespatchFacts(facts, LettersOf(t, despatches, day), despatches, rates, day)
  {
    hide LetterDespatch.UpdatedDespatchFacts, AfterRun, View, IsRun, DeletesDespatched;
    var after := AfterRun(t, steps);
    RunKeepsLettersIff(t, steps, despatches, day);
    LetterDespatch.UpdateIgnoresOrder(facts, LettersOf(after, despatches, day), LettersOf(t, despatches, day),
        despatches, rates, day);
  }
}
