/** ft_notification_status: how many notifications of a day, service and type have each status. */
module StatusFacts {
  import opened Collections
  import opened LondonTime
  import opened Schema

  /** What one call looks at. */
  datatype StatusWindow = StatusWindow(day: Date, notificationType: NotificationType, serviceId: ServiceId)

  /** The primary key of ft_notification_status. A notification without a job is stored under the
      nil id, which is no job's id. */
  datatype StatusKey = StatusKey(
    bstDate: Date,
    templateId: TemplateId,
    serviceId: ServiceId,
    jobId: Option<JobId>,
    notificationType: NotificationType,
    keyType: KeyType,
    status: Status)

  type StatusTable = map<StatusKey, int>

  predicate Counted(r: ViewRow, w: StatusWindow)
    requires 1 <= w.day
  {
    && LondonMidnight(w.day) <= r.createdAt < LondonMidnight(w.day + 1)
    && r.notificationType == w.notificationType
    && r.serviceId == w.serviceId
    && r.keyType in {Normal, Team}
  }

  function IsCounted(w: StatusWindow): ViewRow -> bool
    requires 1 <= w.day
  {
    (r: ViewRow) => Counted(r, w)
  }

  datatype StatusGroup = StatusGroup(templateId: TemplateId, jobId: Option<JobId>, keyType: KeyType, status: Status)

  function GroupOf(r: ViewRow): StatusGroup { StatusGroup(r.templateId, r.jobId, r.keyType, r.status) }

  function One(r: ViewRow): int { 1 }

  function KeyOfGroup(g: StatusGroup, w: StatusWindow): StatusKey {
    StatusKey(w.day, g.templateId, w.serviceId, g.jobId, w.notificationType, g.keyType, g.status)
  }

  /** The grouped query: one row for each group, with its count. */
  function StatusRows(view: seq<ViewRow>, w: StatusWindow): seq<(StatusKey, int)>
    requires 1 <= w.day
  {
    var rows := Filter(view, IsCounted(w));
    MapSeq(Distinct(MapSeq(rows, GroupOf)), (g: StatusGroup) => (KeyOfGroup(g, w), Sum(rows, Only(GroupOf, One, g))))
  }

  /** INSERT ... SELECT: None if a row violates the primary key. */
  function InsertAll(table: StatusTable, rows: seq<(StatusKey, int)>): Option<StatusTable> {
    if rows == [] then Some(table)
    else
      var (k, count) := rows[|rows| - 1];
      match InsertAll(table, rows[..|rows| - 1])
      case None => None
      case Some(before) => if k in before then None else Some(before[k := count])
  }

  predicate InWindow(k: StatusKey, w: StatusWindow) {
    k.bstDate == w.day && k.notificationType == w.notificationType && k.serviceId == w.serviceId
  }

  function WithoutWindow(table: StatusTable, w: StatusWindow): StatusTable {
    map k | k in table && !InWindow(k, w) :: table[k]
  }

  /** What is committed after update_fact_notification_status: a failed insert rolls back the
      deletion too. */
  function AfterStatusUpdate(table: StatusTable, view: seq<ViewRow>, w: StatusWindow): StatusTable
    requires 1 <= w.day
  {
    InsertAll(WithoutWindow(table, w), StatusRows(view, w)).GetOr(table)
  }

  class StatusStore {
    var facts: StatusTable

    /** Whether the insert succeeded; if it did not, the transaction is rolled back. */
    method UpdateFactNotificationStatus(view: seq<ViewRow>, w: StatusWindow) returns (committed: bool)
      requires 1 <= w.day
      modifies this
      ensures facts == AfterStatusUpdate(old(facts), view, w)
      ensures committed <==> InsertAll(WithoutWindow(old(facts), w), StatusRows(view, w)).Some?
    {
      var before := facts;
      facts := WithoutWindow(facts, w);
      var inserted := InsertAll(facts, StatusRows(view, w));
      match inserted
      case None =>
        facts := before;
        committed := false;
      case Some(table) =>
        facts := table;
        committed := true;
    }
  }

  // ---------------------------------------------------------------- the rows of the query

  function CountOfKey(w: StatusWindow, k: StatusKey): ViewRow -> int
    requires 1 <= w.day
  {
    (r: ViewRow) => if Counted(r, w) && KeyOfGroup(GroupOf(r), w) == k then 1 else 0
  }

  lemma {:induction false} CountOverFilter(view: seq<ViewRow>, w: StatusWindow, g: StatusGroup)
    requires 1 <= w.day
    ensures Sum(Filter(view, IsCounted(w)), Only(GroupOf, One, g)) == Sum(view, CountOfKey(w, KeyOfGroup(g, w)))
  {
    hide Counted;
    if view == [] {
    } else {
      var front, last := view[..|view| - 1], view[|view| - 1];
      CountOverFilter(front, w, g);
      assert view == front + [last];
      FilterSnoc(front, last, IsCounted(w));
      SumSnoc(front, last, CountOfKey(w, KeyOfGroup(g, w)));
      SumSnoc(Filter(front, IsCounted(w)), last, Only(GroupOf, One, g));
      assert IsCounted(w)(last) == Counted(last, w) && One(last) == 1;
    }
  }

  predicate HasKey(rows: seq<(StatusKey, int)>, k: StatusKey) {
    exists i :: 0 <= i < |rows| && rows[i].0 == k
  }

  /** A notification of the window is counted under this key. */
  ghost predicate Occurs(view: seq<ViewRow>, w: StatusWindow, k: StatusKey)
    requires 1 <= w.day
  {
    exists r :: r in view && Counted(r, w) && KeyOfGroup(GroupOf(r), w) == k
  }

  /** One row of the query. */
  lemma StatusRow(view: seq<ViewRow>, w: StatusWindow, i: nat)
    requires 1 <= w.day && i < |StatusRows(view, w)|
    ensures StatusRows(view, w)[i].1 == Sum(view, CountOfKey(w, StatusRows(view, w)[i].0))
    ensures InWindow(StatusRows(view, w)[i].0, w) && Occurs(view, w, StatusRows(view, w)[i].0)
  {
    hide Sum, Counted, Filter, Distinct, CountOfKey, Only;
    var counted := Filter(view, IsCounted(w));
    var groups := Distinct(MapSeq(counted, GroupOf));
    var g := groups[i];
    assert g in groups;
    CountOverFilter(view, w, g);
    DistinctOfMapped(counted, GroupOf, g);
    var r :| r in counted && GroupOf(r) == g;
    FilterContains(view, IsCounted(w), r);
  }

  lemma RowOfCounted(view: seq<ViewRow>, w: StatusWindow, r: ViewRow) returns (i: nat)
    requires 1 <= w.day && r in view && Counted(r, w)
    ensures i < |StatusRows(view, w)| && StatusRows(view, w)[i].0 == KeyOfGroup(GroupOf(r), w)
  {
    hide Sum, Counted, Filter, Distinct;
    var counted := Filter(view, IsCounted(w));
    var groups := Distinct(MapSeq(counted, GroupOf));
    FilterContains(view, IsCounted(w), r);
    DistinctOfMapped(counted, GroupOf, GroupOf(r));
    i :| 0 <= i < |groups| && groups[i] == GroupOf(r);
  }

  /** The query returns each key once, with the number of its notifications, and only the keys
      of the window that have one. */
  lemma StatusRowsAre(view: seq<ViewRow>, w: StatusWindow)
    requires 1 <= w.day
    ensures var rows := StatusRows(view, w);
            && (forall i, j | 0 <= i < j < |rows| :: rows[i].0 != rows[j].0)
            && (forall i | 0 <= i < |rows| ::
                rows[i].1 == Sum(view, CountOfKey(w, rows[i].0)) && InWindow(rows[i].0, w))
            && (forall k :: HasKey(rows, k) <==> Occurs(view, w, k))
  {
    hide Sum, Counted, StatusRows, CountOfKey;
    var rows := StatusRows(view, w);
    forall i | 0 <= i < |rows|
      ensures rows[i].1 == Sum(view, CountOfKey(w, rows[i].0)) && InWindow(rows[i].0, w)
      ensures Occurs(view, w, rows[i].0)
    {
      StatusRow(view, w, i);
    }
    forall r | r in view && Counted(r, w) ensures HasKey(rows, KeyOfGroup(GroupOf(r), w)) {
      var i := RowOfCounted(view, w, r);
    }
    StatusKeysAreDistinct(view, w);
  }

  lemma StatusKeysAreDistinct(view: seq<ViewRow>, w: StatusWindow)
    requires 1 <= w.day
    ensures var rows := StatusRows(view, w);
            forall i, j | 0 <= i < j < |rows| :: rows[i].0 != rows[j].0
  {
    hide Sum, Counted, Filter, Distinct, Only;
  }

  // ---------------------------------------------------------------- the insert

  predicate KeysAreNew(table: StatusTable, rows: seq<(StatusKey, int)>) {
    && (forall i, j | 0 <= i < j < |rows| :: rows[i].0 != rows[j].0)
    && (forall i | 0 <= i < |rows| :: rows[i].0 !in table)
  }

  lemma KeysSnoc(table: StatusTable, front: seq<(StatusKey, int)>, row: (StatusKey, int))
    ensures KeysAreNew(table, front + [row]) <==> KeysAreNew(table, front) && row.0 !in table && !HasKey(front, row.0)
    ensures forall k :: HasKey(front + [row], k) <==> HasKey(front, k) || row.0 == k
  {
    var rows := front + [row];
    assert forall i | 0 <= i < |front| :: rows[i] == front[i];
    assert rows[|front|] == row;
    forall k ensures HasKey(rows, k) <==> HasKey(front, k) || row.0 == k {
      if i :| 0 <= i < |front| && front[i].0 == k {
        assert rows[i].0 == k;
      }
    }
  }

  /** An insert succeeds exactly when its keys are new and distinct; then it adds its rows. */
  lemma {:induction false} InsertedRows(table: StatusTable, rows: seq<(StatusKey, int)>)
    ensures InsertAll(table, rows).Some? <==> KeysAreNew(table, rows)
    ensures InsertAll(table, rows).Some? ==>
              var after := InsertAll(table, rows).value;
              && (forall k :: k in after <==> k in table || HasKey(rows, k))
              && (forall k | k in table :: after[k] == table[k])
              && (forall i | 0 <= i < |rows| :: rows[i].0 in after && after[rows[i].0] == rows[i].1)
  {
    hide KeysAreNew, HasKey;
    if rows == [] {
      NoRowsNoKeys(table);
    } else {
      var front := rows[..|rows| - 1];
      InsertedRows(table, front);
      KeysSnoc(table, front, rows[|rows| - 1]);
      assert rows == front + [rows[|rows| - 1]];
      forall i | 0 <= i < |front| ensures front[i].0 == rows[i].0 && HasKey(front, front[i].0) {
        IndexHasKey(front, i);
      }
    }
  }

  lemma NoRowsNoKeys(table: StatusTable)
    ensures KeysAreNew(table, []) && forall k :: !HasKey([], k)
  {
  }

  lemma IndexHasKey(rows: seq<(StatusKey, int)>, i: nat)
    requires i < |rows|
    ensures HasKey(rows, rows[i].0)
  {
  }

  /** After the deletion the insert never meets a row that is already there. */
  lemma InsertNeverConflicts(table: StatusTable, view: seq<ViewRow>, w: StatusWindow)
    requires 1 <= w.day
    ensures InsertAll(WithoutWindow(table, w), StatusRows(view, w)).Some?
  {
    hide StatusRows, InsertAll, Counted, Sum;
    StatusRowsAre(view, w);
    InsertedRows(WithoutWindow(table, w), StatusRows(view, w));
  }

  // ---------------------------------------------------------------- the facts are exact

  /** Whatever was there before, the facts of the day, service and type become the counts of its
      notifications by template, job, key type and status. All other facts stay. */
  lemma StatusUpdateIsExact(table: StatusTable, view: seq<ViewRow>, w: StatusWindow, k: StatusKey)
    requires 1 <= w.day
    ensures var after := AfterStatusUpdate(table, view, w);
            && (InWindow(k, w) ==>
                  && (k in after <==> Occurs(view, w, k))
                  && (k in after ==> after[k] == Sum(view, CountOfKey(w, k))))
            && (!InWindow(k, w) ==> (k in after <==> k in table) && (k in after ==> after[k] == table[k]))
  {
    hide StatusRows, InsertAll, Counted, Sum;
    StatusRowsAre(view, w);
    InsertNeverConflicts(table, view, w);
    var rows := StatusRows(view, w);
    InsertedRows(WithoutWindow(table, w), rows);
    if HasKey(rows, k) {
      var i :| 0 <= i < |rows| && rows[i].0 == k;
    }
  }

  /** The notification counts towards the fact: it was created on the fact's London date, not with a test key, and
      has the fact's template, service, job, type, key type and status. */
  ghost predicate CountsTowards(r: ViewRow, k: StatusKey) {
    && DAY <= r.createdAt && LondonDate(r.createdAt) == k.bstDate
    && r.keyType != Test && r.keyType == k.keyType
    && r.templateId == k.templateId && r.serviceId == k.serviceId && r.jobId == k.jobId
    && r.notificationType == k.notificationType && r.status == k.status
  }

  ghost function OneIfCounts(k: StatusKey): ViewRow -> int {
    (r: ViewRow) => if CountsTowards(r, k) then 1 else 0
  }

  lemma CountedByColumns(r: ViewRow, w: StatusWindow, k: StatusKey)
    requires 1 <= w.day && InWindow(k, w)
    ensures Counted(r, w) && KeyOfGroup(GroupOf(r), w) == k <==> CountsTowards(r, k)
  {
    hide LondonMidnight, LondonDate;
    OnLondonDate(r.createdAt, w.day);
  }

  /** The facts told from the columns of the notifications: after the update, a fact of the day, type and service is
      there exactly if some notification counts towards it, and it is the number of those
      notifications; and every other fact is as it was. */
  lemma StatusFactsInColumns(table: StatusTable, view: seq<ViewRow>, w: StatusWindow, k: StatusKey)
    requires 1 <= w.day
    ensures var after := AfterStatusUpdate(table, view, w);
            if k.bstDate == w.day && k.notificationType == w.notificationType && k.serviceId == w.serviceId then
              && (k in after <==> exists r :: r in view && CountsTowards(r, k))
              && (k in after ==> after[k] == Sum(view, OneIfCounts(k)))
            else (k in after <==> k in table) && (k in table ==> after[k] == table[k])
  {
    hide AfterStatusUpdate, Counted, Sum, CountsTowards;
    StatusUpdateIsExact(table, view, w, k);
    if InWindow(k, w) {
      forall r: ViewRow
        ensures Counted(r, w) && KeyOfGroup(GroupOf(r), w) == k <==> CountsTowards(r, k)
        ensures CountOfKey(w, k)(r) == OneIfCounts(k)(r)
      {
        CountedByColumns(r, w, k);
      }
      SumEqual(view, CountOfKey(w, k), OneIfCounts(k));
    }
  }

  lemma OccursIgnoresOrder(view: seq<ViewRow>, view': seq<ViewRow>, w: StatusWindow, k: StatusKey)
    requires 1 <= w.day && multiset(view) == multiset(view')
    ensures Occurs(view, w, k) <==> Occurs(view', w, k)
  {
    hide Counted;
    if r :| r in view && Counted(r, w) && KeyOfGroup(GroupOf(r), w) == k {
      assert r in multiset(view');
    }
    if r :| r in view' && Counted(r, w) && KeyOfGroup(GroupOf(r), w) == k {
      assert r in multiset(view);
    }
  }

  /** Two views with the same rows, in any order, give the same facts. */
  lemma StatusUpdateIgnoresOrder(table: StatusTable, view: seq<ViewRow>, view': seq<ViewRow>, w: StatusWindow)
    requires 1 <= w.day && multiset(view) == multiset(view')
    ensures AfterStatusUpdate(table, view, w) == AfterStatusUpdate(table, view', w)
  {
    hide AfterStatusUpdate, Counted, Sum, Occurs;
    var after, after' := AfterStatusUpdate(table, view, w), AfterStatusUpdate(table, view', w);
    forall k ensures (k in after <==> k in after') && (k in after ==> after[k] == after'[k]) {
      StatusUpdateIsExact(table, view, w, k);
      StatusUpdateIsExact(table, view', w, k);
      OccursIgnoresOrder(view, view', w, k);
      SumPermutation(view, view', CountOfKey(w, k));
    }
  }

  /** Running the update again changes nothing. */
  lemma StatusUpdateIsIdempotent(table: StatusTable, view: seq<ViewRow>, w: StatusWindow)
    requires 1 <= w.day
    ensures AfterStatusUpdate(AfterStatusUpdate(table, view, w), view, w) == AfterStatusUpdate(table, view, w)
  {
    hide AfterStatusUpdate, Counted, Sum, Occurs;
    var once := AfterStatusUpdate(table, view, w);
    var twice := AfterStatusUpdate(once, view, w);
    forall k ensures (k in twice <==> k in once) && (k in once ==> twice[k] == once[k]) {
      StatusUpdateIsExact(table, view, w, k);
      StatusUpdateIsExact(once, view, w, k);
    }
  }

  /** Without its deletion a second run would fail, unless there is nothing to count. */
  lemma DeletionMakesRunsRepeatable(table: StatusTable, view: seq<ViewRow>, w: StatusWindow)
    requires 1 <= w.day
    ensures InsertAll(AfterStatusUpdate(table, view, w), StatusRows(view, w)).None?
       <==> exists r :: r in view && Counted(r, w)
  {
    hide StatusRows, InsertAll, Counted, Sum, AfterStatusUpdate;
    var rows := StatusRows(view, w);
    StatusRowsAre(view, w);
    InsertedRows(AfterStatusUpdate(table, view, w), rows);
    forall i | 0 <= i < |rows| ensures rows[i].0 in AfterStatusUpdate(table, view, w) {
      IndexHasKey(rows, i);
      StatusUpdateIsExact(table, view, w, rows[i].0);
    }
    forall r | r in view && Counted(r, w) ensures rows != [] {
      assert Occurs(view, w, KeyOfGroup(GroupOf(r), w));
      assert HasKey(rows, KeyOfGroup(GroupOf(r), w));
    }
    if rows != [] {
      IndexHasKey(rows, 0);
      assert Occurs(view, w, rows[0].0);
    }
  }

  // ---------------------------------------------------------------- the counts add up

  function CountIn(w: StatusWindow): ViewRow -> int
    requires 1 <= w.day
  {
    (r: ViewRow) => if Counted(r, w) then 1 else 0
  }

  function KeyIn(w: StatusWindow): ViewRow -> StatusKey {
    (r: ViewRow) => KeyOfGroup(GroupOf(r), w)
  }

  function CountOf(row: (StatusKey, int)): int { row.1 }

  function KeysOf(rows: seq<(StatusKey, int)>): seq<StatusKey> { MapSeq(rows, (row: (StatusKey, int)) => row.0) }

  lemma {:induction false} RowsAsGroups(view: seq<ViewRow>, w: StatusWindow, rows: seq<(StatusKey, int)>)
    requires 1 <= w.day
    requires forall i | 0 <= i < |rows| :: rows[i].1 == Sum(view, CountOfKey(w, rows[i].0))
    ensures Sum(rows, CountOf) == GroupTotal(view, KeyIn(w), CountIn(w), KeysOf(rows))
  {
    hide Counted;
    if rows == [] {
    } else {
      var front, k := rows[..|rows| - 1], rows[|rows| - 1].0;
      RowsAsGroups(view, w, front);
      assert KeysOf(rows)[..|rows| - 1] == KeysOf(front);
      forall r: ViewRow ensures CountOfKey(w, k)(r) == Only(KeyIn(w), CountIn(w), k)(r) {
        assert CountIn(w)(r) == if Counted(r, w) then 1 else 0;
      }
      SumEqual(view, CountOfKey(w, k), Only(KeyIn(w), CountIn(w), k));
    }
  }

  /** The inserted counts add up to the notifications of the window: none is lost or counted twice. */
  lemma StatusCountsAddUp(view: seq<ViewRow>, w: StatusWindow)
    requires 1 <= w.day
    ensures Sum(StatusRows(view, w), CountOf) == |Filter(view, IsCounted(w))|
  {
    hide StatusRows, Counted, Sum, GroupTotal, Filter;
    var rows := StatusRows(view, w);
    StatusRowsAre(view, w);
    RowsAsGroups(view, w, rows);
    var keys := KeysOf(rows);
    forall r | r in view && Counted(r, w) ensures KeyIn(w)(r) in keys {
      assert Occurs(view, w, KeyOfGroup(GroupOf(r), w));
      var i :| 0 <= i < |rows| && rows[i].0 == KeyOfGroup(GroupOf(r), w);
      assert keys[i] == KeyIn(w)(r);
    }
    GroupTotalConserved(view, KeyIn(w), CountIn(w), keys);
    CountedTotal(view, w);
  }

  lemma {:induction false} CountedTotal(view: seq<ViewRow>, w: StatusWindow)
    requires 1 <= w.day
    ensures Sum(view, CountIn(w)) == |Filter(view, IsCounted(w))|
  {
    hide Counted;
    if view == [] {
    } else {
      CountedTotal(view[..|view| - 1], w);
    }
  }
}
