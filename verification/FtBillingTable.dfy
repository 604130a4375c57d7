/** Writing the facts of a day into ft_billing: the nightly upsert and the rebuild command. */
module FtBillingTable {
  import opened Collections
  import opened LondonTime
  import opened Schema
  import opened Rates
  import opened Allowance
  import opened FactBilling

  // ---------------------------------------------------------------- from billing data to rows

  function RateOf(k: DatumKey, rates: RateTables, day: Date): Option<real>
    requires 1 <= day
  {
    GetRate(rates, k.notificationType, day, None, k.letterPageCount, k.postage)
  }

  function FactKey(k: DatumKey, rate: real, day: Date): FtBillingKey {
    FtBillingKey(day, k.templateId, k.serviceId, k.notificationType, k.sentBy, k.rateMultiplier, k.international,
        rate, k.postage)
  }

  /** create_billing_record */
  function BillingRecord(d: BillingDatum, rate: real, day: Date): FtBillingRow {
    Entry(FactKey(d.key, rate, day), FtBillingValue(d.billableUnits, d.notificationsSent))
  }

  /** The records to insert. None stands for the exception raised when a rate is missing. */
  function BillingRecords(data: seq<BillingDatum>, rates: RateTables, day: Date): Option<seq<FtBillingRow>>
    requires 1 <= day
  {
    if data == [] then Some([])
    else
      match (BillingRecords(data[..|data| - 1], rates, day), RateOf(data[|data| - 1].key, rates, day))
      case (Some(rows), Some(rate)) => Some(rows + [BillingRecord(data[|data| - 1], rate, day)])
      case _ => None
  }

  lemma {:induction false} BillingRecordsAre(data: seq<BillingDatum>, rates: RateTables, day: Date)
    requires 1 <= day
    ensures BillingRecords(data, rates, day).None? <==> exists d :: d in data && RateOf(d.key, rates, day).None?
    ensures BillingRecords(data, rates, day).Some? ==>
              var rows := BillingRecords(data, rates, day).value;
              && |rows| == |data|
              && forall i | 0 <= i < |data| ::
                   && RateOf(data[i].key, rates, day).Some?
                   && rows[i] == BillingRecord(data[i], RateOf(data[i].key, rates, day).value, day)
  {
    hide RateOf;
    if data == [] {
    } else {
      assert data == data[..|data| - 1] + [data[|data| - 1]];
      BillingRecordsAre(data[..|data| - 1], rates, day);
    }
  }

  /** Two letters of one group of letters, with different sheet counts at the same rate. */
  predicate SheetCountsShareRate(r: ViewRow, r': ViewRow, rates: RateTables, day: Date)
    requires 1 <= day
  {
    && r.notificationType == r'.notificationType == Letter
    && r.billableUnits != r'.billableUnits
    && DatumKeyOf(r).(letterPageCount := None) == DatumKeyOf(r').(letterPageCount := None)
    && RateOf(DatumKeyOf(r), rates, day) == RateOf(DatumKeyOf(r'), rates, day)
  }

  lemma SameFactKey(r: ViewRow, r': ViewRow, rates: RateTables, day: Date, rate: real, rate': real)
    requires 1 <= day
    requires RateOf(DatumKeyOf(r), rates, day) == Some(rate) && RateOf(DatumKeyOf(r'), rates, day) == Some(rate')
    ensures DatumKeyOf(r) != DatumKeyOf(r') && FactKey(DatumKeyOf(r), rate, day) == FactKey(DatumKeyOf(r'), rate', day)
       <==> SheetCountsShareRate(r, r', rates, day)
  {
    hide RateOf;
  }

  /** When one insert meets the same key twice: the key of a letter fact holds the rate but not
      the sheet count, so two sheet counts of one group that share a rate collide. */
  lemma KeyRepeatsIff(view: seq<ViewRow>, w: Window, rates: RateTables, data: seq<BillingDatum>,
                      rows: seq<FtBillingRow>)
    requires 1 <= w.day && IsBillingData(data, view, w) && BillingRecords(data, rates, w.day) == Some(rows)
    ensures RepeatsKey(rows)
       <==> exists r, r' :: r in view && r' in view && Billable(r, w) && Billable(r', w)
                         && SheetCountsShareRate(r, r', rates, w.day)
  {
    hide RateOf, Billable, Sum, BillingRecords, SheetCountsShareRate, DatumKeyOf;
    BillingRecordsAre(data, rates, w.day);
    if RepeatsKey(rows) {
      var i, j :| 0 <= i < j < |rows| && rows[i].key == rows[j].key;
      assert data[i] in data && data[j] in data;
      var r :| r in view && Billable(r, w) && DatumKeyOf(r) == data[i].key;
      var r' :| r' in view && Billable(r', w) && DatumKeyOf(r') == data[j].key;
      SameFactKey(r, r', rates, w.day, rows[i].key.rate, rows[j].key.rate);
    }
    forall r, r' | r in view && r' in view && Billable(r, w) && Billable(r', w)
        && SheetCountsShareRate(r, r', rates, w.day)
      ensures RepeatsKey(rows)
    {
      var i := RowOf(view, w, rates, data, rows, r);
      var j := RowOf(view, w, rates, data, rows, r');
      SameFactKey(r, r', rates, w.day, rows[i].key.rate, rows[j].key.rate);
      if i < j { assert rows[i].key == rows[j].key; } else { assert rows[j].key == rows[i].key; }
    }
  }

  /** Each billable notification is counted in one of the records. */
  lemma RowOf(view: seq<ViewRow>, w: Window, rates: RateTables, data: seq<BillingDatum>, rows: seq<FtBillingRow>,
              r: ViewRow)
      returns (i: nat)
    requires 1 <= w.day && IsBillingData(data, view, w) && BillingRecords(data, rates, w.day) == Some(rows)
    requires r in view && Billable(r, w)
    ensures i < |rows| == |data| && data[i].key == DatumKeyOf(r)
    ensures FactKeyOf(r, rates, w.day) == Some(rows[i].key)
    ensures RateOf(DatumKeyOf(r), rates, w.day) == Some(rows[i].key.rate)
    ensures rows[i].key == FactKey(DatumKeyOf(r), rows[i].key.rate, w.day)
  {
    hide RateOf, Billable, Sum, BillingRecords, DatumKeyOf;
    BillingRecordsAre(data, rates, w.day);
    var d :| d in data && d.key == DatumKeyOf(r);
    i :| 0 <= i < |data| && data[i] == d;
  }

  // ---------------------------------------------------------------- what the facts of a day should be

  /** The fact that one notification belongs to, priced on its own. */
  function FactKeyOf(r: ViewRow, rates: RateTables, day: Date): Option<FtBillingKey>
    requires 1 <= day
  {
    match RateOf(DatumKeyOf(r), rates, day)
    case Some(rate) => Some(FactKey(DatumKeyOf(r), rate, day))
    case None => None
  }

  function UnitsOfFact(w: Window, rates: RateTables, k: FtBillingKey): ViewRow -> int
    requires 1 <= w.day
  {
    (r: ViewRow) => if Billable(r, w) && FactKeyOf(r, rates, w.day) == Some(k) then BilledUnits(r) else 0
  }

  function CountOfFact(w: Window, rates: RateTables, k: FtBillingKey): ViewRow -> int
    requires 1 <= w.day
  {
    (r: ViewRow) => if Billable(r, w) && FactKeyOf(r, rates, w.day) == Some(k) then 1 else 0
  }

  ghost predicate HasBillable(view: seq<ViewRow>, w: Window, rates: RateTables, k: FtBillingKey)
    requires 1 <= w.day
  {
    exists r :: r in view && Billable(r, w) && FactKeyOf(r, rates, w.day) == Some(k)
  }

  predicate InWindow(w: Window, k: FtBillingKey) {
    k.bstDate == w.day && InServices(w.services, k.serviceId)
  }

  /** The table holds exactly the billable notifications of the window, added up by fact. */
  ghost predicate FactsAreExact(table: FtBilling, view: seq<ViewRow>, w: Window, rates: RateTables)
    requires 1 <= w.day
  {
    forall k | InWindow(w, k) ::
      && (k in table <==> HasBillable(view, w, rates, k))
      && (k in table ==> table[k].billableUnits == Sum(view, UnitsOfFact(w, rates, k)))
      && (k in table ==> table[k].notificationsSent == Sum(view, CountOfFact(w, rates, k)))
  }

  /** The notifications of a record's group are those of its fact. */
  lemma GroupOfRow(view: seq<ViewRow>, w: Window, rates: RateTables, data: seq<BillingDatum>,
                   rows: seq<FtBillingRow>, i: nat)
    requires 1 <= w.day && IsBillingData(data, view, w) && BillingRecords(data, rates, w.day) == Some(rows)
    requires !RepeatsKey(rows) && i < |rows|
    ensures |rows| == |data|
    ensures forall r | r in view && Billable(r, w) ::
        DatumKeyOf(r) == data[i].key <==> FactKeyOf(r, rates, w.day) == Some(rows[i].key)
    ensures HasBillable(view, w, rates, rows[i].key) && InWindow(w, rows[i].key)
  {
    hide RateOf, Billable, Sum, BillingRecords, DatumKeyOf;
    BillingRecordsAre(data, rates, w.day);
    forall r | r in view && Billable(r, w)
      ensures DatumKeyOf(r) == data[i].key <==> FactKeyOf(r, rates, w.day) == Some(rows[i].key)
    {
      var j := RowOf(view, w, rates, data, rows, r);
      if i < j { assert rows[i].key != rows[j].key; } else if j < i { assert rows[j].key != rows[i].key; }
    }
    assert data[i] in data;
    var r :| r in view && Billable(r, w) && DatumKeyOf(r) == data[i].key;
    BillableIsInServices(r, w);
  }

  /** The records of the fetched data are the facts of the notifications priced one by one. */
  lemma RecordsAreTheFacts(view: seq<ViewRow>, w: Window, rates: RateTables, data: seq<BillingDatum>,
                           rows: seq<FtBillingRow>)
    requires 1 <= w.day && IsBillingData(data, view, w) && BillingRecords(data, rates, w.day) == Some(rows)
    requires !RepeatsKey(rows)
    ensures forall k :: HasBillable(view, w, rates, k) <==> exists i :: 0 <= i < |rows| && rows[i].key == k
    ensures forall i | 0 <= i < |rows| ::
              && InWindow(w, rows[i].key)
              && rows[i].value.billableUnits == Sum(view, UnitsOfFact(w, rates, rows[i].key))
              && rows[i].value.notificationsSent == Sum(view, CountOfFact(w, rates, rows[i].key))
  {
    hide RateOf, Billable, Sum, BillingRecords, FactKeyOf, DatumKeyOf, InWindow, RepeatsKey;
    BillingRecordsAre(data, rates, w.day);
    forall r | r in view && Billable(r, w)
      ensures exists i :: 0 <= i < |rows| && FactKeyOf(r, rates, w.day) == Some(rows[i].key)
    {
      var i := RowOf(view, w, rates, data, rows, r);
    }
    forall i | 0 <= i < |rows|
      ensures HasBillable(view, w, rates, rows[i].key) && InWindow(w, rows[i].key)
      ensures rows[i].value.billableUnits == Sum(view, UnitsOfFact(w, rates, rows[i].key))
      ensures rows[i].value.notificationsSent == Sum(view, CountOfFact(w, rates, rows[i].key))
    {
      GroupOfRow(view, w, rates, data, rows, i);
      SameTotals(view, w, rates, data[i].key, rows[i].key);
      assert data[i] in data;
    }
  }

  lemma BillableIsInServices(r: ViewRow, w: Window)
    requires 1 <= w.day && Billable(r, w)
    ensures InServices(w.services, r.serviceId) && DatumKeyOf(r).serviceId == r.serviceId
  {
  }

  lemma SameTotals(view: seq<ViewRow>, w: Window, rates: RateTables, dk: DatumKey, k: FtBillingKey)
    requires 1 <= w.day
    requires forall r | r in view && Billable(r, w) :: DatumKeyOf(r) == dk <==> FactKeyOf(r, rates, w.day) == Some(k)
    ensures Sum(view, UnitsOfKey(w, dk)) == Sum(view, UnitsOfFact(w, rates, k))
    ensures Sum(view, CountOfKey(w, dk)) == Sum(view, CountOfFact(w, rates, k))
  {
    hide Billable, FactKeyOf;
    SumEqual(view, UnitsOfKey(w, dk), UnitsOfFact(w, rates, k));
    SumEqual(view, CountOfKey(w, dk), CountOfFact(w, rates, k));
  }

  // ---------------------------------------------------------------- writing the facts

  /** NoData and the errors end without a commit. */
  datatype UpdateResult = Updated | NoData | RateMissing | KeyRepeated

  /** delete_billing_data_for_day deletes for all services when the list is None, or empty. */
  predicate Deleted(w: Window, k: FtBillingKey) {
    k.bstDate == w.day && (w.services.None? || w.services.value == {} || k.serviceId in w.services.value)
  }

  function WithoutWindow(table: FtBilling, w: Window): FtBilling {
    map k | k in table && !Deleted(w, k) :: table[k]
  }

  /** update_ft_billing on a table: the table after it, and how it ended. */
  function UpdatedFacts(table: FtBilling, data: seq<BillingDatum>, rates: RateTables, day: Date)
      : (FtBilling, UpdateResult)
    requires 1 <= day
  {
    if data == [] then (table, NoData)
    else
      match BillingRecords(data, rates, day)
      case None => (table, RateMissing)
      case Some(rows) => if RepeatsKey(rows) then (table, KeyRepeated) else (Upsert(table, rows), Updated)
  }

  /** create_or_update_ft_billing_for_day, on what is committed. */
  function AfterNightlyUpdate(committed: FtBilling, view: seq<ViewRow>, day: Date, rates: RateTables)
      : (FtBilling, UpdateResult)
    requires 1 <= day
  {
    UpdatedFacts(committed, FetchBillingDataForDay(view, Window(day, None)), rates, day)
  }

  /** rebuild_ft_billing_for_day, on what is committed. The deletion is committed only together
      with an insert. */
  function AfterRebuild(committed: FtBilling, view: seq<ViewRow>, w: Window, rates: RateTables)
      : (FtBilling, UpdateResult)
    requires 1 <= w.day
  {
    var (table, result) := UpdatedFacts(WithoutWindow(committed, w), FetchBillingDataForDay(view, w), rates, w.day);
    if result.Updated? then (table, Updated) else (committed, result)
  }

  class FtBillingStore {
    var session: FtBilling    // what the open transaction sees
    var committed: FtBilling

    method DeleteBillingDataForDay(w: Window) returns (deleted: nat)
      modifies this
      ensures committed == old(committed) && session == WithoutWindow(old(session), w)
      ensures forall k :: k in session <==>
                && k in old(session)
                && !(k.bstDate == w.day
                     && (w.services == None || w.services == Some({}) || k.serviceId in w.services.value))
      ensures deleted == |old(session)| - |session|
    {
      var doomed := set k | k in session && Deleted(w, k);
      deleted := |doomed|;
      assert WithoutWindow(session, w).Keys == session.Keys - doomed;
      session := WithoutWindow(session, w);
    }

    method UpdateFtBilling(data: seq<BillingDatum>, day: Date, rates: RateTables) returns (result: UpdateResult)
      requires 1 <= day
      modifies this
      ensures (session, result) == UpdatedFacts(old(session), data, rates, day)
      ensures committed == if result.Updated? then session else old(committed)
    {
      if data == [] {
        return NoData;
      }
      var records := BillingRecords(data, rates, day);
      if records.None? {
        return RateMissing;
      }
      if RepeatsKey(records.value) {
        return KeyRepeated;
      }
      session := Upsert(session, records.value);
      committed := session;
      return Updated;
    }

    /** The end of the application context: what is not committed is rolled back. */
    method Teardown()
      modifies this
      ensures session == committed == old(committed)
    {
      session := committed;
    }

    method CreateOrUpdateFtBillingForDay(view: seq<ViewRow>, day: Date, rates: RateTables)
        returns (result: UpdateResult)
      requires 1 <= day && session == committed
      modifies this
      ensures session == committed && (committed, result) == AfterNightlyUpdate(old(committed), view, day, rates)
    {
      var data := FetchBillingDataForDay(view, Window(day, None));
      result := UpdateFtBilling(data, day, rates);
      Teardown();
    }

    method RebuildFtBillingForDay(view: seq<ViewRow>, w: Window, rates: RateTables) returns (result: UpdateResult)
      requires 1 <= w.day && session == committed
      modifies this
      ensures session == committed && (committed, result) == AfterRebuild(old(committed), view, w, rates)
    {
      var deleted := DeleteBillingDataForDay(w);
      var data := FetchBillingDataForDay(view, w);
      result := UpdateFtBilling(data, w.day, rates);
      Teardown();
    }
  }

  ghost predicate AnyBillable(view: seq<ViewRow>, w: Window)
    requires 1 <= w.day
  {
    exists r :: r in view && Billable(r, w)
  }

  /** Some billable notification of the window has no rate. */
  ghost predicate LacksRate(view: seq<ViewRow>, w: Window, rates: RateTables)
    requires 1 <= w.day
  {
    exists r :: r in view && Billable(r, w) && FactKeyOf(r, rates, w.day).None?
  }

  /** Two letters of the window would be stored under one key. */
  ghost predicate Collides(view: seq<ViewRow>, w: Window, rates: RateTables)
    requires 1 <= w.day
  {
    exists r, r' :: r in view && r' in view && Billable(r, w) && Billable(r', w)
        && SheetCountsShareRate(r, r', rates, w.day)
  }

  /** No data means no billable notification. */
  lemma NoDataIff(view: seq<ViewRow>, w: Window)
    requires 1 <= w.day
    ensures FetchBillingDataForDay(view, w) == [] <==> !AnyBillable(view, w)
  {
    hide FetchBillingDataForDay, Billable, Sum;
    FetchedData(view, w);
    var data := FetchBillingDataForDay(view, w);
    if data == [] {
    } else {
      assert data[0] in data;
    }
  }

  lemma RecordsFailIff(view: seq<ViewRow>, w: Window, rates: RateTables)
    requires 1 <= w.day
    ensures BillingRecords(FetchBillingDataForDay(view, w), rates, w.day).None? <==> LacksRate(view, w, rates)
  {
    hide FetchBillingDataForDay, Billable, Sum, BillingRecords, RateOf, DatumKeyOf;
    var data := FetchBillingDataForDay(view, w);
    FetchedData(view, w);
    BillingRecordsAre(data, rates, w.day);
    forall r | r in view && Billable(r, w) && FactKeyOf(r, rates, w.day).None?
      ensures exists d :: d in data && RateOf(d.key, rates, w.day).None?
    {
      var d :| d in data && d.key == DatumKeyOf(r);
    }
    forall d | d in data && RateOf(d.key, rates, w.day).None? ensures LacksRate(view, w, rates) {
      var r :| r in view && Billable(r, w) && DatumKeyOf(r) == d.key;
      assert FactKeyOf(r, rates, w.day).None?;
    }
  }

  /** How a write ends, told from the notifications and the rates alone. */
  lemma UpdateEndsIn(table: FtBilling, view: seq<ViewRow>, w: Window, rates: RateTables)
    requires 1 <= w.day
    ensures var result := UpdatedFacts(table, FetchBillingDataForDay(view, w), rates, w.day).1;
            && (result.NoData? <==> !AnyBillable(view, w))
            && (result.RateMissing? <==> LacksRate(view, w, rates))
            && (result.KeyRepeated? <==> !LacksRate(view, w, rates) && Collides(view, w, rates))
  {
    hide FetchBillingDataForDay, BillingRecords, RepeatsKey, Upsert, AnyBillable, LacksRate, Collides;
    NoDataIff(view, w);
    RecordsFailIff(view, w, rates);
    FailuresAreBillable(view, w, rates);
    if BillingRecords(FetchBillingDataForDay(view, w), rates, w.day).Some? {
      RecordsCollideIff(view, w, rates);
    }
  }

  lemma FailuresAreBillable(view: seq<ViewRow>, w: Window, rates: RateTables)
    requires 1 <= w.day
    ensures LacksRate(view, w, rates) || Collides(view, w, rates) ==> AnyBillable(view, w)
  {
    hide Billable, FactKeyOf, SheetCountsShareRate;
  }

  lemma RecordsCollideIff(view: seq<ViewRow>, w: Window, rates: RateTables)
    requires 1 <= w.day && BillingRecords(FetchBillingDataForDay(view, w), rates, w.day).Some?
    ensures RepeatsKey(BillingRecords(FetchBillingDataForDay(view, w), rates, w.day).value)
       <==> Collides(view, w, rates)
  {
    hide FetchBillingDataForDay, Billable, Sum, BillingRecords, RepeatsKey, SheetCountsShareRate, FactKeyOf;
    var data := FetchBillingDataForDay(view, w);
    FetchedData(view, w);
    KeyRepeatsIff(view, w, rates, data, BillingRecords(data, rates, w.day).value);
  }

  /** One successful write into a table: the fetched facts, and nothing else changed. */
  lemma UpsertedFacts(table: FtBilling, view: seq<ViewRow>, w: Window, rates: RateTables)
    requires 1 <= w.day
    requires UpdatedFacts(table, FetchBillingDataForDay(view, w), rates, w.day).1.Updated?
    ensures var after := UpdatedFacts(table, FetchBillingDataForDay(view, w), rates, w.day).0;
            forall k ::
              && (k in after <==> k in table || HasBillable(view, w, rates, k))
              && (HasBillable(view, w, rates, k) ==>
                    InWindow(w, k)
                    && after[k].billableUnits == Sum(view, UnitsOfFact(w, rates, k))
                    && after[k].notificationsSent == Sum(view, CountOfFact(w, rates, k)))
              && (k in table && !HasBillable(view, w, rates, k) ==> after[k] == table[k])
  {
    hide FetchBillingDataForDay, Billable, Sum, BillingRecords, RepeatsKey, HasBillable, Upsert;
    var data := FetchBillingDataForDay(view, w);
    FetchedData(view, w);
    var rows := BillingRecords(data, rates, w.day).value;
    RecordsAreTheFacts(view, w, rates, data, rows);
    forall k
      ensures k in Upsert(table, rows) <==> k in table || HasBillable(view, w, rates, k)
      ensures HasBillable(view, w, rates, k) ==>
                InWindow(w, k)
                && Upsert(table, rows)[k].billableUnits == Sum(view, UnitsOfFact(w, rates, k))
                && Upsert(table, rows)[k].notificationsSent == Sum(view, CountOfFact(w, rates, k))
      ensures k in table && !HasBillable(view, w, rates, k) ==> Upsert(table, rows)[k] == table[k]
    {
      if HasBillable(view, w, rates, k) {
        var i :| 0 <= i < |rows| && rows[i].key == k;
        UpsertWrites(table, rows, i);
      } else {
        UpsertKeepsOthers(table, rows, k);
      }
    }
  }

  /** A rebuild that finds a billable notification, a rate for each, and no collision leaves exactly
      the day's billable notifications, grouped by fact, whatever was there before, and changes
      nothing outside its day and services. */
  lemma RebuildIsExact(committed: FtBilling, view: seq<ViewRow>, w: Window, rates: RateTables)
    requires 1 <= w.day && AnyBillable(view, w) && !LacksRate(view, w, rates) && !Collides(view, w, rates)
    ensures AfterRebuild(committed, view, w, rates).1 == Updated
    ensures FactsAreExact(AfterRebuild(committed, view, w, rates).0, view, w, rates)
    ensures forall k | !InWindow(w, k) ::
              && (k in AfterRebuild(committed, view, w, rates).0 <==> k in committed)
              && (k in committed ==> AfterRebuild(committed, view, w, rates).0[k] == committed[k])
  {
    hide FetchBillingDataForDay, Billable, Sum, UpdatedFacts, HasBillable, LacksRate, Collides;
    UpdateEndsIn(WithoutWindow(committed, w), view, w, rates);
    UpsertedFacts(WithoutWindow(committed, w), view, w, rates);
    WritesOnlyWithServices(view, w);
  }

  /** A rebuild for an empty list of services finds nothing to write. */
  lemma WritesOnlyWithServices(view: seq<ViewRow>, w: Window)
    requires 1 <= w.day && AnyBillable(view, w)
    ensures w.services != Some({})
  {
  }

  /** A rebuild that does not write changes nothing: its deletion is rolled back. */
  lemma RebuildRollsBackIff(committed: FtBilling, view: seq<ViewRow>, w: Window, rates: RateTables)
    requires 1 <= w.day
    ensures AfterRebuild(committed, view, w, rates).1 != Updated
       <==> !AnyBillable(view, w) || LacksRate(view, w, rates) || Collides(view, w, rates)
    ensures AfterRebuild(committed, view, w, rates).1 != Updated
         ==> AfterRebuild(committed, view, w, rates).0 == committed
  {
    hide FetchBillingDataForDay, UpdatedFacts, LacksRate, Collides, AnyBillable;
    UpdateEndsIn(WithoutWindow(committed, w), view, w, rates);
  }

  /** What the rebuild promises, and exactly when it keeps it: if every billable notification has a
      rate and none collide, the facts are exact unless the day has no billable notification but
      still holds facts. In that case the deletion is rolled back, and the old facts stay. */
  lemma RebuildKeepsItsPromiseIff(committed: FtBilling, view: seq<ViewRow>, w: Window, rates: RateTables)
    requires 1 <= w.day && !LacksRate(view, w, rates) && !Collides(view, w, rates)
    ensures FactsAreExact(AfterRebuild(committed, view, w, rates).0, view, w, rates)
       <==> AnyBillable(view, w) || (forall k | k in committed :: !InWindow(w, k))
  {
    hide FetchBillingDataForDay, Billable, Sum, UpdatedFacts, LacksRate, Collides;
    if AnyBillable(view, w) {
      RebuildIsExact(committed, view, w, rates);
    } else {
      RebuildRollsBackIff(committed, view, w, rates);
      NothingBillable(view, w, rates);
    }
  }

  /** A fact whose notification no longer counts survives the rebuild of its day. */
  lemma StaleFactSurvivesRebuild(k: FtBillingKey, v: FtBillingValue, rates: RateTables)
    requires 1 <= k.bstDate
    ensures AfterRebuild(map[k := v], [], Window(k.bstDate, None), rates) == (map[k := v], NoData)
    ensures !FactsAreExact(map[k := v], [], Window(k.bstDate, None), rates)
  {
    NoDataIff([], Window(k.bstDate, None));
    assert InWindow(Window(k.bstDate, None), k) && k in map[k := v];
  }

  /** The nightly upsert never deletes, so, with rates and without collisions, it makes the day exact
      if and only if every fact that the day already has is still the fact of some billable
      notification. */
  lemma NightlyUpdateIsExactIff(committed: FtBilling, view: seq<ViewRow>, day: Date, rates: RateTables)
    requires 1 <= day && !LacksRate(view, Window(day, None), rates) && !Collides(view, Window(day, None), rates)
    ensures FactsAreExact(AfterNightlyUpdate(committed, view, day, rates).0, view, Window(day, None), rates)
       <==> forall k | k in committed && k.bstDate == day :: HasBillable(view, Window(day, None), rates, k)
    ensures forall k: FtBillingKey | k.bstDate != day ::
              && (k in AfterNightlyUpdate(committed, view, day, rates).0 <==> k in committed)
              && (k in committed ==> AfterNightlyUpdate(committed, view, day, rates).0[k] == committed[k])
  {
    hide FetchBillingDataForDay, Billable, Sum, Upsert, RepeatsKey, BillingRecords, HasBillable, LacksRate, Collides;
    var w := Window(day, None);
    UpdateEndsIn(committed, view, w, rates);
    if AnyBillable(view, w) {
      UpsertedFacts(committed, view, w, rates);
    } else {
      NothingBillable(view, w, rates);
    }
  }

  lemma NothingBillable(view: seq<ViewRow>, w: Window, rates: RateTables)
    requires 1 <= w.day && !AnyBillable(view, w)
    ensures forall k :: !HasBillable(view, w, rates, k)
  {
    hide Billable, FactKeyOf;
  }

  /** Running the update again on the same notifications changes nothing. */
  lemma NightlyUpdateIsIdempotent(committed: FtBilling, view: seq<ViewRow>, day: Date, rates: RateTables)
    requires 1 <= day
    ensures var once := AfterNightlyUpdate(committed, view, day, rates);
            AfterNightlyUpdate(once.0, view, day, rates) == once
  {
    hide FetchBillingDataForDay, RepeatsKey, BillingRecords, Upsert;
    var data := FetchBillingDataForDay(view, Window(day, None));
    var (once, result) := AfterNightlyUpdate(committed, view, day, rates);
    if result.Updated? {
      var rows := BillingRecords(data, rates, day).value;
      UpsertTwice(committed, rows);
    }
  }

  // ---------------------------------------------------------------- one rate per date

  /** A write, with the rate tables as it read them. */
  datatype Write =
    | Nightly(view: seq<ViewRow>, day: Date, rates: RateTables)
    | Rebuild(view: seq<ViewRow>, window: Window, rates: RateTables)

  /** Every write reads the same SMS rates, in an order of its own that is newest first. */
  ghost predicate ValidWrite(write: Write, rates: RateTables) {
    && IsReadingOf(write.rates, rates)
    && match write
       case Nightly(_, day, _) => 1 <= day
       case Rebuild(_, w, _) => 1 <= w.day
  }

  ghost function AfterWrite(table: FtBilling, write: Write, rates: RateTables): FtBilling
    requires ValidWrite(write, rates)
  {
    match write
    case Nightly(view, day, read) => AfterNightlyUpdate(table, view, day, read).0
    case Rebuild(view, w, read) => AfterRebuild(table, view, w, read).0
  }

  /** Every SMS fact carries a rate that was newest at the start of its day. */
  ghost predicate SmsFactsHaveTheNewestRate(table: FtBilling, rates: RateTables) {
    forall k | k in table && k.notificationType == Sms :: 1 <= k.bstDate && IsNewestSmsRate(rates, k.bstDate, k.rate)
  }

  ghost function AfterWrites(table: FtBilling, writes: seq<Write>, rates: RateTables): FtBilling
    requires forall write | write in writes :: ValidWrite(write, rates)
  {
    if writes == [] then table
    else AfterWrite(AfterWrites(table, writes[..|writes| - 1], rates), writes[|writes| - 1], rates)
  }

  lemma BillableFactHasTheRate(view: seq<ViewRow>, w: Window, read: RateTables, rates: RateTables, k: FtBillingKey)
    requires 1 <= w.day && HasBillable(view, w, read, k) && k.notificationType == Sms && IsReadingOf(read, rates)
    ensures 1 <= k.bstDate && IsNewestSmsRate(rates, k.bstDate, k.rate)
  {
    hide IsNewestSmsRate, GetRate, Billable, NewestFirst;
    var r :| r in view && Billable(r, w) && FactKeyOf(r, read, w.day) == Some(k);
    SmsDatumsAreCommon(r);
    SmsRateIsTheNewest(read, w.day);
    ReadingsHaveTheSameNewest(rates, read, w.day, k.rate);
  }

  lemma SmsDatumsAreCommon(r: ViewRow)
    ensures DatumKeyOf(r).notificationType == Sms
         ==> DatumKeyOf(r).letterPageCount == None && DatumKeyOf(r).postage == "none"
  {
  }

  lemma WriteKeepsRates(table: FtBilling, write: Write, rates: RateTables)
    requires ValidWrite(write, rates) && SmsFactsHaveTheNewestRate(table, rates)
    ensures SmsFactsHaveTheNewestRate(AfterWrite(table, write, rates), rates)
  {
    hide FetchBillingDataForDay, Billable, Sum, Upsert, RepeatsKey, BillingRecords, HasBillable, IsNewestSmsRate,
         IsReadingOf;
    var w := match write case Nightly(_, day, _) => Window(day, None) case Rebuild(_, w, _) => w;
    var before := match write case Nightly(_, _, _) => table case Rebuild(_, w, _) => WithoutWindow(table, w);
    var (after, result) := UpdatedFacts(before, FetchBillingDataForDay(write.view, w), write.rates, w.day);
    if result.Updated? {
      UpsertedFacts(before, write.view, w, write.rates);
      forall k | k in after && k.notificationType == Sms
        ensures 1 <= k.bstDate && IsNewestSmsRate(rates, k.bstDate, k.rate)
      {
        if HasBillable(write.view, w, write.rates, k) {
          BillableFactHasTheRate(write.view, w, write.rates, rates, k);
        }
      }
    }
  }

  /** Over any run of nightly updates and rebuilds, each of which reads the rate table in its own
      order, every SMS fact has a rate that was newest at the start of its day. */
  lemma {:induction false} WritesKeepRates(table: FtBilling, writes: seq<Write>, rates: RateTables)
    requires forall write | write in writes :: ValidWrite(write, rates)
    requires SmsFactsHaveTheNewestRate(table, rates)
    ensures SmsFactsHaveTheNewestRate(AfterWrites(table, writes, rates), rates)
  {
    hide AfterWrite, SmsFactsHaveTheNewestRate, ValidWrite;
    if writes == [] {
    } else {
      WritesKeepRates(table, writes[..|writes| - 1], rates);
      WriteKeepsRates(AfterWrites(table, writes[..|writes| - 1], rates), writes[|writes| - 1], rates);
    }
  }

  /** The assumption of the usage queries holds in every run: as long as the rate table stays the
      same, and the newest rate of the date is unique, facts written by any mix of nightly
      updates and rebuilds have costs that do not depend on the order in which the database
      visits them. */
  lemma CostsAreDeterminedInEveryRun(writes: seq<Write>, rates: RateTables, scan: seq<FtBillingRow>, limit: int,
                                     date: Date)
    requires forall write | write in writes :: ValidWrite(write, rates)
    requires 1 <= date ==> OneNewestSmsRate(rates, date)
    requires forall r | r in scan :: r.key in AfterWrites(map[], writes, rates) && r.key.notificationType == Sms
    ensures CostIsDetermined(scan, limit, date)
  {
    hide AfterWrites, IsNewestSmsRate, ValidWrite;
    WritesKeepRates(map[], writes, rates);
    var day := Filter(scan, OnDate(date));
    forall x, y | x in day && y in day ensures x.key.rate == y.key.rate {
      FilterContains(scan, OnDate(date), x);
      FilterContains(scan, OnDate(date), y);
    }
  }

  // Where the newest rate is not unique, the assumption can fail.

  ghost predicate IsRunOfWrites(writes: seq<Write>, rates: RateTables) {
    forall write | write in writes :: ValidWrite(write, rates)
  }

  /** SMS facts of the table, in an order in which the window function may visit them. */
  ghost predicate IsSmsScan(scan: seq<FtBillingRow>, table: FtBilling) {
    && SortedByDate(scan) && NoDuplicates(scan)
    && forall r | r in scan :: r.key in table && r.value == table[r.key] && r.key.notificationType == Sms
  }

  /** A text message delivered on the given day. */
  function Text(day: Date): ViewRow
    requires 1 <= day
  {
    ViewRow(1, None, None, 1, 1, Normal, Sms, LondonMidnight(day), Some("mmg"), 1, false, Some(1), Delivered, None, "")
  }

  function TextFact(day: Date, rate: real): FtBillingKey
    requires 1 <= day
  {
    FactKey(DatumKeyOf(Text(day)), rate, day)
  }

  lemma TextIsBillable(day: Date)
    requires 1 <= day
    ensures Billable(Text(day), Window(day, None)) && BilledUnits(Text(day)) == 1
    ensures var k := DatumKeyOf(Text(day));
            && k.notificationType == Sms && k.letterPageCount == None && k.postage == "none" && k.rateMultiplier == 1
  {
    MidnightsIncrease(day, day + 1);
  }

  lemma TextDoesNotCollide(day: Date, read: RateTables)
    requires 1 <= day
    ensures !Collides([Text(day)], Window(day, None), read)
  {
    hide Billable, RateOf;
  }

  lemma TotalsOfOne(r: ViewRow, f: ViewRow -> int)
    ensures Sum([r], f) == f(r)
  {
    assert [r][..0] == [];
  }

  /** A nightly update that reads a rate for the text writes its fact at this rate. */
  lemma OneTextUpdate(table: FtBilling, day: Date, read: RateTables, rate: real)
    requires 1 <= day && GetRate(read, Sms, day, None, None, "none") == Some(rate)
    ensures AfterNightlyUpdate(table, [Text(day)], day, read).0
         == table[TextFact(day, rate) := FtBillingValue(1, 1)]
  {
    hide FetchBillingDataForDay, UpdatedFacts, Billable, GetRate, Sum, Text, Collides, BilledUnits, DatumKeyOf;
    var r, view, w, k := Text(day), [Text(day)], Window(day, None), TextFact(day, rate);
    TextIsBillable(day);
    TextDoesNotCollide(day, read);
    assert FactKeyOf(r, read, day) == Some(k);
    assert AnyBillable(view, w) && !LacksRate(view, w, read) by {
      assert r in view;
    }
    UpdateEndsIn(table, view, w, read);
    UpsertedFacts(table, view, w, read);
    TotalsOfOne(r, UnitsOfFact(w, read, k));
    TotalsOfOne(r, CountOfFact(w, read, k));
    var after := UpdatedFacts(table, FetchBillingDataForDay(view, w), read, day).0;
    assert forall k' :: HasBillable(view, w, read, k') <==> k' == k;
    assert after == table[k := FtBillingValue(1, 1)];
  }

  /** Two nightly updates of one day, which read rates that started together in different orders,
      leave facts at both rates; and then the cost of the day can depend on their order. */
  lemma TwoReadingsLeaveTwoRates(rates: RateTables, day: Date) returns (writes: seq<Write>, scan: seq<FtBillingRow>)
    requires 1 <= day && NewestFirst(rates) && !OneNewestSmsRate(rates, day)
    ensures |writes| == 2 && forall write | write in writes :: write.Nightly? && write.view == [Text(day)]
    ensures IsRunOfWrites(writes, rates) && IsSmsScan(scan, AfterWrites(map[], writes, rates))
    ensures forall k | k in AfterWrites(map[], writes, rates) :: exists r :: r in scan && r.key == k
    ensures !CostIsDetermined(scan, 1, day)
  {
    hide GetRate, IsNewestSmsRate, NewestFirst, AfterNightlyUpdate, Text, TextFact, LondonMidnight;
    var x, y :| IsNewestSmsRate(rates, day, x) && IsNewestSmsRate(rates, day, y) && x != y;
    var p := ReadingThatFinds(rates, day, x);
    var q := ReadingThatFinds(rates, day, y);
    var first, second := Nightly([Text(day)], day, p), Nightly([Text(day)], day, q);
    writes := [first, second];
    OneTextUpdate(map[], day, p, x);
    OneTextUpdate(map[TextFact(day, x) := FtBillingValue(1, 1)], day, q, y);
    TwoWrites(map[], first, second, rates);
    TextFacts(day, x, y);
    scan := [Entry(TextFact(day, x), FtBillingValue(1, 1)), Entry(TextFact(day, y), FtBillingValue(1, 1))];
    TwoRatesAreUndetermined(scan[0], scan[1], day);
  }

  lemma TwoWrites(table: FtBilling, first: Write, second: Write, rates: RateTables)
    requires ValidWrite(first, rates) && ValidWrite(second, rates)
    ensures AfterWrites(table, [first, second], rates) == AfterWrite(AfterWrite(table, first, rates), second, rates)
  {
    hide AfterWrite, ValidWrite;
    assert [first][..0] == [] && AfterWrites(table, [], rates) == table;
    assert AfterWrites(table, [first], rates) == AfterWrite(table, first, rates);
    assert [first, second][..1] == [first];
  }

  lemma TextFacts(day: Date, x: real, y: real)
    requires 1 <= day
    ensures var k, k' := TextFact(day, x), TextFact(day, y);
            && k.bstDate == k'.bstDate == day && k.rate == x && k'.rate == y
            && k.rateMultiplier == k'.rateMultiplier == 1 && k.notificationType == k'.notificationType == Sms
  {
  }

  lemma TwoRatesAreUndetermined(a: FtBillingRow, b: FtBillingRow, day: Date)
    requires a.key.bstDate == b.key.bstDate == day && Units(a) == Units(b) == 1 && a.key.rate != b.key.rate
    ensures !CostIsDetermined([a, b], 1, day)
  {
    hide Units, Sum;
    SumSnoc([a], b, UnitsBefore(day));
    SumSnoc([], a, UnitsBefore(day));
    SumSnoc([a], b, UnitsUpTo(day));
    SumSnoc([], a, UnitsUpTo(day));
    SumOfNothing(UnitsBefore(day));
    SumOfNothing(UnitsUpTo(day));
    assert [] + [a] == [a] && [a] + [b] == [a, b];
    FilterAll([a, b], OnDate(day));
    assert a in [a, b] && b in [a, b];
  }

  /** The assumption that the usage queries document, over all runs with one rate table: the cost of a
      date is determined by the facts, whatever was written and in whatever order the rate table
      was read, if and only if the newest rate of the date is unique. */
  lemma CostsAreDeterminedInEveryRunIff(rates: RateTables, date: Date)
    requires 1 <= date && NewestFirst(rates)
    ensures (forall writes, scan, limit |
               IsRunOfWrites(writes, rates) && IsSmsScan(scan, AfterWrites(map[], writes, rates)) ::
                 CostIsDetermined(scan, limit, date))
       <==> OneNewestSmsRate(rates, date)
  {
    hide AfterWrites, ValidWrite, CostIsDetermined, OneNewestSmsRate, NewestFirst, SortedByDate;
    if OneNewestSmsRate(rates, date) {
      forall writes, scan, limit | IsRunOfWrites(writes, rates) && IsSmsScan(scan, AfterWrites(map[], writes, rates))
        ensures CostIsDetermined(scan, limit, date)
      {
        CostsAreDeterminedInEveryRun(writes, rates, scan, limit, date);
      }
    } else {
      var writes, scan := TwoReadingsLeaveTwoRates(rates, date);
    }
  }
}
