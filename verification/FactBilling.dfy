/** ft_billing: the facts of a day, made from the notifications of that day. */
module FactBilling {
  import opened Collections
  import opened LondonTime
  import opened Schema
  import opened Rates
  import opened Allowance

  // ---------------------------------------------------------------- the billable notifications of a day

  /** Which statuses are billed, per notification type. */
  predicate BillableStatus(t: NotificationType, status: Status) {
    match t
    case Sms => status in {Sending, Sent, Delivered, Pending, TemporaryFailure, PermanentFailure}
    case Email => status in {Sending, Delivered, TemporaryFailure, PermanentFailure}
    case Letter => status in {Sending, Delivered, ReturnedLetter}
    case Messagebox => false
  }

  /** The notifications that a call looks at: a day, for some services or (None) for all. */
  datatype Window = Window(day: Date, services: Option<set<ServiceId>>)

  predicate InServices(services: Option<set<ServiceId>>, s: ServiceId) {
    services.None? || s in services.value
  }

  predicate Billable(r: ViewRow, w: Window)
    requires 1 <= w.day
  {
    && BillableStatus(r.notificationType, r.status)
    && r.keyType in {Normal, Team}
    && LondonMidnight(w.day) <= r.createdAt < LondonMidnight(w.day + 1)
    && InServices(w.services, r.serviceId)
  }

  datatype DatumKey = DatumKey(
    templateId: TemplateId,
    serviceId: ServiceId,
    notificationType: NotificationType,
    sentBy: string,
    rateMultiplier: nat,
    international: bool,
    letterPageCount: Option<nat>,
    postage: string)

  datatype BillingDatum = BillingDatum(key: DatumKey, billableUnits: nat, notificationsSent: nat)

  /** The GROUP BY columns and the literals of _email_query, _sms_query and _letter_query. */
  function DatumKeyOf(r: ViewRow): DatumKey {
    match r.notificationType
    case Email => DatumKey(r.templateId, r.serviceId, Email, "ses", 0, false, None, "none")
    case Letter => DatumKey(r.templateId, r.serviceId, Letter, "dvla", r.rateMultiplier.GetOr(1), r.international,
                            Some(r.billableUnits), r.postage.GetOr("none"))
    case t => DatumKey(r.templateId, r.serviceId, t, r.sentBy.GetOr("unknown"), r.rateMultiplier.GetOr(1),
                       r.international, None, "none")
  }

  /** What a notification adds to billable_units: emails have the literal 0. */
  function BilledUnits(r: ViewRow): nat {
    if r.notificationType == Email then 0 else r.billableUnits
  }

  function InQuery(t: NotificationType, w: Window): ViewRow -> bool
    requires 1 <= w.day
  {
    (r: ViewRow) => r.notificationType == t && Billable(r, w)
  }

  function UnitsInGroup(t: NotificationType, w: Window, k: DatumKey): ViewRow -> int
    requires 1 <= w.day
  {
    (r: ViewRow) => if InQuery(t, w)(r) && DatumKeyOf(r) == k then BilledUnits(r) else 0
  }

  function CountInGroup(t: NotificationType, w: Window, k: DatumKey): ViewRow -> int
    requires 1 <= w.day
  {
    (r: ViewRow) => if InQuery(t, w)(r) && DatumKeyOf(r) == k then 1 else 0
  }

  lemma GroupSumsAreNatural(view: seq<ViewRow>, t: NotificationType, w: Window, k: DatumKey)
    requires 1 <= w.day
    ensures Sum(view, UnitsInGroup(t, w, k)) >= 0 && Sum(view, CountInGroup(t, w, k)) >= 0
  {
    forall r: ViewRow ensures UnitsInGroup(t, w, k)(r) >= 0 && CountInGroup(t, w, k)(r) >= 0 {
      assert BilledUnits(r) >= 0;
      assert InQuery(t, w)(r) || !InQuery(t, w)(r);
    }
    SumNonNegative(view, UnitsInGroup(t, w, k));
    SumNonNegative(view, CountInGroup(t, w, k));
  }

  function DatumFor(view: seq<ViewRow>, t: NotificationType, w: Window, k: DatumKey): BillingDatum
    requires 1 <= w.day
  {
    GroupSumsAreNatural(view, t, w, k);
    BillingDatum(k, Sum(view, UnitsInGroup(t, w, k)), Sum(view, CountInGroup(t, w, k)))
  }

  /** _query_for_billing_data, over the rows of notifications_all_time_view in some order. */
  function QueryForBillingData(view: seq<ViewRow>, t: NotificationType, w: Window): seq<BillingDatum>
    requires 1 <= w.day
  {
    MapSeq(Distinct(MapSeq(Filter(view, InQuery(t, w)), DatumKeyOf)), (k: DatumKey) => DatumFor(view, t, w, k))
  }

  /** fetch_billing_data_for_day */
  function FetchBillingDataForDay(view: seq<ViewRow>, w: Window): seq<BillingDatum>
    requires 1 <= w.day
  {
    QueryForBillingData(view, Sms, w) + QueryForBillingData(view, Email, w) + QueryForBillingData(view, Letter, w)
  }

  function UnitsOfKey(w: Window, k: DatumKey): ViewRow -> int
    requires 1 <= w.day
  {
    (r: ViewRow) => if Billable(r, w) && DatumKeyOf(r) == k then BilledUnits(r) else 0
  }

  function CountOfKey(w: Window, k: DatumKey): ViewRow -> int
    requires 1 <= w.day
  {
    (r: ViewRow) => if Billable(r, w) && DatumKeyOf(r) == k then 1 else 0
  }

  lemma QueriedData(view: seq<ViewRow>, t: NotificationType, w: Window)
    requires 1 <= w.day
    ensures var data := QueryForBillingData(view, t, w);
            && (forall i, j | 0 <= i < j < |data| :: data[i].key != data[j].key)
            && (forall d | d in data :: d == DatumFor(view, t, w, d.key) && d.key.notificationType == t)
            && (forall d | d in data :: exists r :: r in view && InQuery(t, w)(r) && DatumKeyOf(r) == d.key)
            && (forall r | r in view && InQuery(t, w)(r) :: exists d :: d in data && d.key == DatumKeyOf(r))
  {
    hide Billable, DatumKeyOf, Sum, BilledUnits;
    var rows := Filter(view, InQuery(t, w));
    var keys := Distinct(MapSeq(rows, DatumKeyOf));
    var data := QueryForBillingData(view, t, w);
    forall d | d in data
      ensures d == DatumFor(view, t, w, d.key) && d.key.notificationType == t
      ensures exists r :: r in view && InQuery(t, w)(r) && DatumKeyOf(r) == d.key
    {
      var i :| 0 <= i < |data| && data[i] == d;
      assert keys[i] in keys;
      DistinctOfMapped(rows, DatumKeyOf, keys[i]);
      var r :| r in rows && DatumKeyOf(r) == keys[i];
      FilterContains(view, InQuery(t, w), r);
      DatumKeyHasType(r);
    }
    forall r | r in view && InQuery(t, w)(r) ensures exists d :: d in data && d.key == DatumKeyOf(r) {
      FilterContains(view, InQuery(t, w), r);
      DistinctOfMapped(rows, DatumKeyOf, DatumKeyOf(r));
      assert DatumKeyOf(r) in keys;
      var i :| 0 <= i < |keys| && keys[i] == DatumKeyOf(r);
      assert data[i] in data;
    }
  }

  lemma DatumKeyHasType(r: ViewRow)
    ensures DatumKeyOf(r).notificationType == r.notificationType
  {
  }

  lemma SameGroup(view: seq<ViewRow>, t: NotificationType, w: Window, k: DatumKey)
    requires 1 <= w.day && k.notificationType == t
    ensures Sum(view, UnitsInGroup(t, w, k)) == Sum(view, UnitsOfKey(w, k))
    ensures Sum(view, CountInGroup(t, w, k)) == Sum(view, CountOfKey(w, k))
  {
    hide Billable, Sum, DatumKeyOf;
    forall r: ViewRow ensures UnitsInGroup(t, w, k)(r) == UnitsOfKey(w, k)(r)
                           && CountInGroup(t, w, k)(r) == CountOfKey(w, k)(r) {
      DatumKeyHasType(r);
      assert InQuery(t, w)(r) <==> r.notificationType == t && Billable(r, w);
    }
    SumEqual(view, UnitsInGroup(t, w, k), UnitsOfKey(w, k));
    SumEqual(view, CountInGroup(t, w, k), CountOfKey(w, k));
  }

  /** The day's billing data: one datum for each group of billable notifications, with the
      totals of the group. */
  ghost predicate IsBillingData(data: seq<BillingDatum>, view: seq<ViewRow>, w: Window)
    requires 1 <= w.day
  {
    && (forall i, j | 0 <= i < j < |data| :: data[i].key != data[j].key)
    && (forall d | d in data :: d.billableUnits == Sum(view, UnitsOfKey(w, d.key))
                             && d.notificationsSent == Sum(view, CountOfKey(w, d.key)))
    && (forall d | d in data :: exists r :: r in view && Billable(r, w) && DatumKeyOf(r) == d.key)
    && (forall r | r in view && Billable(r, w) :: exists d :: d in data && d.key == DatumKeyOf(r))
  }

  /** What one query finds, in terms of the notifications that are billed. */
  lemma QueriedGroups(view: seq<ViewRow>, t: NotificationType, w: Window)
    requires 1 <= w.day
    ensures var data := QueryForBillingData(view, t, w);
            && (forall i, j | 0 <= i < j < |data| :: data[i].key != data[j].key)
            && (forall d | d in data ::
                  && d.key.notificationType == t
                  && d.billableUnits == Sum(view, UnitsOfKey(w, d.key))
                  && d.notificationsSent == Sum(view, CountOfKey(w, d.key))
                  && exists r :: r in view && Billable(r, w) && DatumKeyOf(r) == d.key)
            && (forall r | r in view && Billable(r, w) && r.notificationType == t ::
                  exists d :: d in data && d.key == DatumKeyOf(r))
  {
    hide QueryForBillingData, Billable, Sum, DatumKeyOf;
    QueriedData(view, t, w);
    var data := QueryForBillingData(view, t, w);
    forall d | d in data
      ensures d.billableUnits == Sum(view, UnitsOfKey(w, d.key))
           && d.notificationsSent == Sum(view, CountOfKey(w, d.key))
      ensures exists r :: r in view && Billable(r, w) && DatumKeyOf(r) == d.key
    {
      SameGroup(view, t, w, d.key);
      var r :| r in view && InQuery(t, w)(r) && DatumKeyOf(r) == d.key;
      assert Billable(r, w);
    }
    forall r | r in view && Billable(r, w) && r.notificationType == t
      ensures exists d :: d in data && d.key == DatumKeyOf(r)
    {
      assert InQuery(t, w)(r);
    }
  }

  lemma FetchedData(view: seq<ViewRow>, w: Window)
    requires 1 <= w.day
    ensures IsBillingData(FetchBillingDataForDay(view, w), view, w)
  {
    hide QueryForBillingData, Billable, Sum, DatumKeyOf;
    QueriedGroups(view, Sms, w);
    QueriedGroups(view, Email, w);
    QueriedGroups(view, Letter, w);
    var a := QueryForBillingData(view, Sms, w);
    var b := QueryForBillingData(view, Email, w);
    var c := QueryForBillingData(view, Letter, w);
    var data: seq<BillingDatum> := a + b + c;
    assert forall d :: d in data <==> d in a || d in b || d in c;
    forall r | r in view && Billable(r, w) ensures exists d :: d in data && d.key == DatumKeyOf(r) {
      BilledTypes(r, w);
      var queried := if r.notificationType == Sms then a else if r.notificationType == Email then b else c;
      var d: BillingDatum :| d in queried && d.key == DatumKeyOf(r);
      assert d in data;
    }
    KeysApart(a, b);
    KeysApart(a + b, c);
  }

  lemma KeysApart(a: seq<BillingDatum>, b: seq<BillingDatum>)
    requires forall i, j | 0 <= i < j < |a| :: a[i].key != a[j].key
    requires forall i, j | 0 <= i < j < |b| :: b[i].key != b[j].key
    requires forall d, d' | d in a && d' in b :: d.key.notificationType != d'.key.notificationType
    ensures forall i, j | 0 <= i < j < |a + b| :: (a + b)[i].key != (a + b)[j].key
  {
    forall i, j | 0 <= i < j < |a + b| ensures (a + b)[i].key != (a + b)[j].key {
      if i < |a| <= j {
        assert a[i] in a && b[j - |a|] in b;
      }
    }
  }

  lemma BilledTypes(r: ViewRow, w: Window)
    requires 1 <= w.day && Billable(r, w)
    ensures r.notificationType in {Sms, Email, Letter}
  {
  }

  // ---------------------------------------------------------------- nothing is lost by grouping

  function BilledUnitsIn(w: Window): ViewRow -> int
    requires 1 <= w.day
  {
    (r: ViewRow) => if Billable(r, w) then BilledUnits(r) else 0
  }

  function CountIn(w: Window): ViewRow -> int
    requires 1 <= w.day
  {
    (r: ViewRow) => if Billable(r, w) then 1 else 0
  }

  function DatumUnits(d: BillingDatum): int { d.billableUnits }

  function DatumCount(d: BillingDatum): int { d.notificationsSent }

  function KeysOf(data: seq<BillingDatum>): seq<DatumKey> { MapSeq(data, (d: BillingDatum) => d.key) }

  lemma {:induction false} DataAsGroups(data: seq<BillingDatum>, view: seq<ViewRow>, w: Window)
    requires 1 <= w.day
    requires forall d | d in data :: d.billableUnits == Sum(view, UnitsOfKey(w, d.key))
                                  && d.notificationsSent == Sum(view, CountOfKey(w, d.key))
    ensures Sum(data, DatumUnits) == GroupTotal(view, DatumKeyOf, BilledUnitsIn(w), KeysOf(data))
    ensures Sum(data, DatumCount) == GroupTotal(view, DatumKeyOf, CountIn(w), KeysOf(data))
  {
    if data == [] {
    } else {
      var front, last := data[..|data| - 1], data[|data| - 1];
      DataAsGroups(front, view, w);
      assert KeysOf(data)[..|data| - 1] == KeysOf(front);
      assert last in data;
      GroupSums(view, w, last.key);
    }
  }

  lemma GroupSums(view: seq<ViewRow>, w: Window, k: DatumKey)
    requires 1 <= w.day
    ensures Sum(view, UnitsOfKey(w, k)) == Sum(view, Only(DatumKeyOf, BilledUnitsIn(w), k))
    ensures Sum(view, CountOfKey(w, k)) == Sum(view, Only(DatumKeyOf, CountIn(w), k))
  {
    hide Billable, DatumKeyOf;
    forall r: ViewRow ensures UnitsOfKey(w, k)(r) == Only(DatumKeyOf, BilledUnitsIn(w), k)(r)
                           && CountOfKey(w, k)(r) == Only(DatumKeyOf, CountIn(w), k)(r) {
      assert BilledUnitsIn(w)(r) == if Billable(r, w) then BilledUnits(r) else 0;
      assert CountIn(w)(r) == if Billable(r, w) then 1 else 0;
    }
    SumEqual(view, UnitsOfKey(w, k), Only(DatumKeyOf, BilledUnitsIn(w), k));
    SumEqual(view, CountOfKey(w, k), Only(DatumKeyOf, CountIn(w), k));
  }

  /** Every billable notification of the window is counted once, with its units. */
  lemma FetchConserves(view: seq<ViewRow>, w: Window)
    requires 1 <= w.day
    ensures Sum(FetchBillingDataForDay(view, w), DatumUnits) == Sum(view, BilledUnitsIn(w))
    ensures Sum(FetchBillingDataForDay(view, w), DatumCount) == Sum(view, CountIn(w))
  {
    hide FetchBillingDataForDay, Billable, Sum, DatumKeyOf;
    var data := FetchBillingDataForDay(view, w);
    FetchedData(view, w);
    DataAsGroups(data, view, w);
    var keys := KeysOf(data);
    forall r | r in view && Billable(r, w) ensures DatumKeyOf(r) in keys {
      var d :| d in data && d.key == DatumKeyOf(r);
      var i :| 0 <= i < |data| && data[i] == d;
      assert keys[i] == DatumKeyOf(r);
    }
    GroupTotalConserved(view, DatumKeyOf, BilledUnitsIn(w), keys);
    GroupTotalConserved(view, DatumKeyOf, CountIn(w), keys);
  }
}
