/** The nightly billing task: which days it reprocesses, and that they share out the
    notifications between them. */
module Reporting {
  import opened Collections
  import opened LondonTime
  import opened Schema
  import opened FactBilling

  /** The days counting back from day_start. */
  function ReprocessedDays(dayStart: Date, nDays: nat): seq<Date> {
    seq(nDays, i => dayStart - i)
  }

  datatype BillingTask =
    | CreateOrUpdateFtBillingForDay(processDay: Date)
    | CreateOrUpdateFtBillingLetterDespatchForDay(processDay: Date)

  /** create_nightly_billing queues a billing and a letter-despatch task for each of n_days days:
      these tasks and no others, and none of them twice. */
  method CreateNightlyBilling(dayStart: Date, nDays: nat) returns (queued: seq<BillingTask>)
    ensures |queued| == 2 * nDays && NoDuplicates(queued)
    ensures forall day :: CreateOrUpdateFtBillingForDay(day) in queued <==> day in ReprocessedDays(dayStart, nDays)
    ensures forall day ::
        CreateOrUpdateFtBillingLetterDespatchForDay(day) in queued <==> day in ReprocessedDays(dayStart, nDays)
    ensures forall i | 0 <= i < |queued| :: queued[i].processDay == ReprocessedDays(dayStart, nDays)[i / 2]
  {
    queued := [];
    for i := 0 to nDays
      invariant |queued| == 2 * i && NoDuplicates(queued)
      invariant forall k | 0 <= k < |queued| :: queued[k].processDay == dayStart - k / 2
      invariant forall k | 0 <= k < i :: queued[2 * k] == CreateOrUpdateFtBillingForDay(dayStart - k)
      invariant forall k | 0 <= k < i :: queued[2 * k + 1] == CreateOrUpdateFtBillingLetterDespatchForDay(dayStart - k)
    {
      var processDay := dayStart - i;
      queued := queued + [CreateOrUpdateFtBillingForDay(processDay)];
      queued := queued + [CreateOrUpdateFtBillingLetterDespatchForDay(processDay)];
    }
    forall day | day in ReprocessedDays(dayStart, nDays)
      ensures CreateOrUpdateFtBillingForDay(day) in queued && CreateOrUpdateFtBillingLetterDespatchForDay(day) in queued
    {
      var k :| 0 <= k < nDays && ReprocessedDays(dayStart, nDays)[k] == day;
      assert queued[2 * k] == CreateOrUpdateFtBillingForDay(day);
      assert queued[2 * k + 1] == CreateOrUpdateFtBillingLetterDespatchForDay(day);
    }
    forall task | task in queued ensures task.processDay in ReprocessedDays(dayStart, nDays) {
      var k :| 0 <= k < |queued| && queued[k] == task;
      assert ReprocessedDays(dayStart, nDays)[k / 2] == task.processDay;
    }
  }

  /** What makes a notification billable, whatever its day. */
  predicate BillableOnItsDay(r: ViewRow) {
    BillableStatus(r.notificationType, r.status) && r.keyType in {Normal, Team}
  }

  /** The window of a day holds the billable notifications of that London date. */
  lemma BillableOnLondonDate(r: ViewRow, day: Date)
    requires DAY <= r.createdAt && 1 <= day
    ensures Billable(r, Window(day, None)) <==> BillableOnItsDay(r) && LondonDate(r.createdAt) == day
  {
    LondonDaysTile(r.createdAt, day);
  }

  /** Each notification that is billable falls into exactly one of the reprocessed days, if its
      London date is among the last n_days, and into none otherwise. */
  lemma EachNotificationHasOneDay(r: ViewRow, dayStart: Date, nDays: nat, i: nat)
    requires DAY <= r.createdAt && nDays <= dayStart && i < nDays
    ensures Billable(r, Window(ReprocessedDays(dayStart, nDays)[i], None))
       <==> BillableOnItsDay(r) && i == dayStart - LondonDate(r.createdAt)
  {
    BillableOnLondonDate(r, dayStart - i);
  }

  function DateOfRow(r: ViewRow): Date {
    if DAY <= r.createdAt then LondonDate(r.createdAt) else 0
  }

  /** Billable notifications whose London date is one of the reprocessed days. */
  function CountInDays(dayStart: Date, nDays: nat): ViewRow -> int {
    (r: ViewRow) => if BillableOnItsDay(r) && dayStart - nDays < DateOfRow(r) <= dayStart then 1 else 0
  }

  /** The counts of the reprocessed days, added up. */
  function CountOfDays(view: seq<ViewRow>, days: seq<Date>): int
    requires forall day | day in days :: 1 <= day
  {
    if days == [] then 0
    else
      var earlier, last := days[..|days| - 1], days[|days| - 1];
      assert last in days && forall day | day in earlier :: day in days;
      CountOfDays(view, earlier) + Sum(view, CountIn(Window(last, None)))
  }

  lemma {:induction false} CountOfDaysAsGroups(view: seq<ViewRow>, dayStart: Date, nDays: nat, k: nat)
    requires k <= nDays <= dayStart && forall r | r in view :: DAY <= r.createdAt
    ensures CountOfDays(view, ReprocessedDays(dayStart, k))
         == GroupTotal(view, DateOfRow, CountInDays(dayStart, nDays), ReprocessedDays(dayStart, k))
  {
    hide Billable, BillableOnItsDay, LondonDate;
    if k == 0 {
    } else {
      var day := dayStart - (k - 1);
      CountOfDaysAsGroups(view, dayStart, nDays, k - 1);
      assert ReprocessedDays(dayStart, k)[..k - 1] == ReprocessedDays(dayStart, k - 1);
      forall r | r in view
        ensures CountIn(Window(day, None))(r) == Only(DateOfRow, CountInDays(dayStart, nDays), day)(r)
      {
        BillableOnLondonDate(r, day);
        assert DateOfRow(r) == LondonDate(r.createdAt);
        assert CountInDays(dayStart, nDays)(r)
            == if BillableOnItsDay(r) && dayStart - nDays < DateOfRow(r) <= dayStart then 1 else 0;
      }
      SumEqual(view, CountIn(Window(day, None)), Only(DateOfRow, CountInDays(dayStart, nDays), day));
    }
  }

  /** Reprocessing loses no notification and counts none twice: the facts of the reprocessed days
      count exactly the billable notifications of those London dates. */
  lemma ReprocessedDaysPartition(view: seq<ViewRow>, dayStart: Date, nDays: nat)
    requires nDays <= dayStart && forall r | r in view :: DAY <= r.createdAt
    ensures CountOfDays(view, ReprocessedDays(dayStart, nDays)) == Sum(view, CountInDays(dayStart, nDays))
  {
    hide BillableOnItsDay, LondonDate, CountOfDays, Sum, GroupTotal;
    var days := ReprocessedDays(dayStart, nDays);
    CountOfDaysAsGroups(view, dayStart, nDays, nDays);
    forall r | r in view && CountInDays(dayStart, nDays)(r) != 0 ensures DateOfRow(r) in days {
      assert days[dayStart - DateOfRow(r)] == DateOfRow(r);
    }
    GroupTotalConserved(view, DateOfRow, CountInDays(dayStart, nDays), days);
  }
}
