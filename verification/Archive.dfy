/** Moving old notifications to notification_history, in batches, and deleting old test
    notifications. */
module Archive {
  import opened Collections
  import opened LondonTime
  import opened Schema

  /** The arguments of one chain of deletion tasks. */
  datatype Purge = Purge(serviceId: ServiceId, notificationType: NotificationType, before: Instant)

  predicate InScope(r: ViewRow, p: Purge) {
    r.serviceId == p.serviceId && r.notificationType == p.notificationType && r.createdAt < p.before
  }

  /** Letters that are still on their way stay where they are. */
  predicate Archivable(r: ViewRow, p: Purge) {
    && InScope(r, p)
    && r.keyType in {Normal, Team}
    && (r.notificationType == Letter ==> r.status !in {PendingVirusCheck, Created, Sending})
  }

  predicate Disposable(r: ViewRow, p: Purge) {
    InScope(r, p) && r.keyType == Test
  }

  function IsArchivable(p: Purge): ViewRow -> bool { (r: ViewRow) => Archivable(r, p) }

  function IsDisposable(p: Purge): ViewRow -> bool { (r: ViewRow) => Disposable(r, p) }

  function IsLeft(p: Purge): ViewRow -> bool { (r: ViewRow) => !Archivable(r, p) && !Disposable(r, p) }

  const QUERY_LIMIT := 50000

  const LETTER_LIMIT := 5000

  /** How many rows one batch takes at most. */
  function LimitFor(t: NotificationType, queryLimit: nat): nat {
    if t == Letter then Min(queryLimit, LETTER_LIMIT) else queryLimit
  }

  // ---------------------------------------------------------------- the tables

  ghost predicate UniqueIds(s: seq<ViewRow>) {
    forall i, j | 0 <= i < j < |s| :: s[i].id != s[j].id
  }

  predicate HasId(s: seq<ViewRow>, id: NotificationId) {
    exists i :: 0 <= i < |s| && s[i].id == id
  }

  function NotIn(batch: seq<ViewRow>): ViewRow -> bool { (r: ViewRow) => !HasId(batch, r.id) }

  /** DELETE ... WHERE id IN (...) */
  function Without(s: seq<ViewRow>, batch: seq<ViewRow>): seq<ViewRow> { Filter(s, NotIn(batch)) }

  /** INSERT ... ON CONFLICT DO NOTHING */
  function InsertOrSkip(history: seq<ViewRow>, batch: seq<ViewRow>): seq<ViewRow> {
    if batch == [] then history
    else
      var earlier := InsertOrSkip(history, batch[..|batch| - 1]);
      if HasId(earlier, batch[|batch| - 1].id) then earlier else earlier + [batch[|batch| - 1]]
  }

  datatype Tables = Tables(live: seq<ViewRow>, history: seq<ViewRow>)

  /** notifications_all_time_view, a UNION ALL of the two tables. */
  function View(t: Tables): seq<ViewRow> { t.live + t.history }

  function AfterArchive(t: Tables, batch: seq<ViewRow>): Tables {
    Tables(Without(t.live, batch), InsertOrSkip(t.history, batch))
  }

  function AfterDisposal(t: Tables, batch: seq<ViewRow>): Tables {
    Tables(Without(t.live, batch), t.history)
  }

  /** What ORDER BY created_at LIMIT may return: as many candidates as the limit allows, none of
      them newer than one that is left out. */
  ghost predicate IsOldestBatch(batch: seq<ViewRow>, candidates: seq<ViewRow>, limit: nat) {
    && multiset(batch) <= multiset(candidates)
    && |batch| == Min(limit, |candidates|)
    && forall r, r' | r in batch && r' in multiset(candidates) - multiset(batch) :: r.createdAt <= r'.createdAt
  }

  lemma {:induction false} OldestExists(s: seq<ViewRow>) returns (k: nat)
    requires s != []
    ensures k < |s| && forall j | 0 <= j < |s| :: s[k].createdAt <= s[j].createdAt
  {
    if |s| == 1 {
      k := 0;
    } else {
      k := OldestExists(s[..|s| - 1]);
      if s[|s| - 1].createdAt < s[k].createdAt {
        k := |s| - 1;
      }
    }
  }

  ghost predicate NoneNewer(taken: seq<ViewRow>, rest: seq<ViewRow>) {
    forall i, j | 0 <= i < |taken| && 0 <= j < |rest| :: taken[i].createdAt <= rest[j].createdAt
  }

  lemma TakeNext(taken: seq<ViewRow>, rest: seq<ViewRow>, k: nat)
    requires NoneNewer(taken, rest) && k < |rest|
    requires forall j | 0 <= j < |rest| :: rest[k].createdAt <= rest[j].createdAt
    ensures NoneNewer(taken + [rest[k]], rest[..k] + rest[k + 1..])
    ensures multiset(taken + [rest[k]]) + multiset(rest[..k] + rest[k + 1..]) == multiset(taken) + multiset(rest)
  {
    SplitAt(rest, k);
  }

  lemma TakenIsOldest(batch: seq<ViewRow>, rest: seq<ViewRow>, candidates: seq<ViewRow>, limit: nat)
    requires multiset(batch) + multiset(rest) == multiset(candidates)
    requires NoneNewer(batch, rest) && |batch| <= limit && (rest == [] || |batch| == limit)
    ensures IsOldestBatch(batch, candidates, limit)
  {
    assert multiset(candidates) - multiset(batch) == multiset(rest);
    assert |multiset(candidates)| == |batch| + |rest|;
  }

  /** The database may break ties between equal creation times in any way. */
  method TakeOldest(candidates: seq<ViewRow>, limit: nat) returns (batch: seq<ViewRow>)
    ensures IsOldestBatch(batch, candidates, limit)
  {
    batch := [];
    var rest := candidates;
    while rest != [] && |batch| < limit
      invariant multiset(batch) + multiset(rest) == multiset(candidates)
      invariant NoneNewer(batch, rest) && |batch| <= limit
      decreases |rest|
    {
      ghost var oldest := OldestExists(rest);
      var k :| 0 <= k < |rest| && forall j | 0 <= j < |rest| :: rest[k].createdAt <= rest[j].createdAt;
      TakeNext(batch, rest, k);
      batch, rest := batch + [rest[k]], rest[..k] + rest[k + 1..];
    }
    TakenIsOldest(batch, rest, candidates, limit);
  }

  // ---------------------------------------------------------------- one batch

  lemma UniqueRows(s: seq<ViewRow>)
    requires UniqueIds(s)
    ensures NoDuplicates(s)
  {
  }

  lemma SameIdSameRow(s: seq<ViewRow>, r: ViewRow, r': ViewRow)
    requires UniqueIds(s) && r in s && r' in s && r.id == r'.id
    ensures r == r'
  {
    var i :| 0 <= i < |s| && s[i] == r;
    var j :| 0 <= j < |s| && s[j] == r';
  }

  lemma RepeatedRow(s: seq<ViewRow>, i: nat, j: nat)
    requires i < j < |s|
    ensures s[i] == s[j] ==> multiset(s)[s[i]] >= 2
  {
    assert s == s[..j] + s[j..];
    assert s[i] in s[..j] && s[j] in s[j..];
  }

  lemma UniqueWhenDistinct(s: seq<ViewRow>)
    requires forall r, r' | r in s && r' in s && r.id == r'.id :: r == r'
    requires forall x :: multiset(s)[x] <= 1
    ensures UniqueIds(s)
  {
    forall i, j | 0 <= i < j < |s| ensures s[i].id != s[j].id {
      RepeatedRow(s, i, j);
      assert s[i] in s && s[j] in s;
    }
  }

  lemma SubsetKeepsUniqueIds(s: seq<ViewRow>, part: seq<ViewRow>)
    requires UniqueIds(s) && multiset(part) <= multiset(s)
    ensures UniqueIds(part) && forall r | r in part :: r in s
  {
    UniqueRows(s);
    forall r | r in part ensures r in s {
      assert r in multiset(part);
    }
    forall x ensures multiset(part)[x] <= 1 {
      NoDuplicatesMultiplicity(s, x);
    }
    forall r, r' | r in part && r' in part && r.id == r'.id ensures r == r' {
      SameIdSameRow(s, r, r');
    }
    UniqueWhenDistinct(part);
  }

  /** Deleting the ids of a batch deletes the rows of the batch, and no other. */
  lemma WithoutBatch(s: seq<ViewRow>, batch: seq<ViewRow>)
    requires UniqueIds(s) && multiset(batch) <= multiset(s)
    ensures multiset(Without(s, batch)) == multiset(s) - multiset(batch)
    ensures forall r | r in s :: HasId(batch, r.id) <==> r in batch
    ensures UniqueIds(Without(s, batch))
  {
    SubsetKeepsUniqueIds(s, batch);
    forall r | r in s ensures HasId(batch, r.id) <==> r in batch {
      if HasId(batch, r.id) {
        var i :| 0 <= i < |batch| && batch[i].id == r.id;
        SameIdSameRow(s, r, batch[i]);
      }
    }
    UniqueRows(s);
    UniqueRows(batch);
    forall x ensures multiset(Without(s, batch))[x] == (multiset(s) - multiset(batch))[x] {
      FilterMultiplicity(s, NotIn(batch), x);
      NoDuplicatesMultiplicity(s, x);
      NoDuplicatesMultiplicity(batch, x);
    }
    SubsetKeepsUniqueIds(s, Without(s, batch));
  }

  lemma FilterIsPart(s: seq<ViewRow>, keep: ViewRow -> bool)
    ensures multiset(Filter(s, keep)) <= multiset(s)
  {
    forall x ensures multiset(Filter(s, keep))[x] <= multiset(s)[x] {
      FilterMultiplicity(s, keep, x);
    }
  }

  lemma HasIdAppend(s: seq<ViewRow>, t: seq<ViewRow>, id: NotificationId)
    ensures HasId(s + t, id) <==> HasId(s, id) || HasId(t, id)
  {
    if i :| 0 <= i < |s| && s[i].id == id {
      assert (s + t)[i].id == id;
    }
    if i :| 0 <= i < |t| && t[i].id == id {
      assert (s + t)[|s| + i].id == id;
    }
  }

  lemma HasIdFilter(s: seq<ViewRow>, keep: ViewRow -> bool, id: NotificationId)
    ensures HasId(Filter(s, keep), id) <==> exists r :: r in s && keep(r) && r.id == id
    ensures HasId(Filter(s, keep), id) ==> HasId(s, id)
  {
    var part := Filter(s, keep);
    if i :| 0 <= i < |part| && part[i].id == id {
      FilterContains(s, keep, part[i]);
      assert part[i] in part;
    }
    if r :| r in s && keep(r) && r.id == id {
      FilterContains(s, keep, r);
      var i :| 0 <= i < |part| && part[i] == r;
    }
  }

  /** With distinct ids, the insert adds the rows whose id is not in the history yet. */
  lemma {:induction false} InsertedAre(history: seq<ViewRow>, batch: seq<ViewRow>)
    requires UniqueIds(batch)
    ensures InsertOrSkip(history, batch) == history + Filter(batch, NotIn(history))
  {
    if batch == [] {
    } else {
      var front, last := batch[..|batch| - 1], batch[|batch| - 1];
      InsertedAre(history, front);
      assert batch == front + [last];
      FilterSnoc(front, last, NotIn(history));
      HasIdAppend(history, Filter(front, NotIn(history)), last.id);
      HasIdFilter(front, NotIn(history), last.id);
      assert !HasId(front, last.id);
    }
  }

  /** After a batch, the candidates are those that the batch left out. */
  lemma CandidatesLeft(live: seq<ViewRow>, eligible: ViewRow -> bool, batch: seq<ViewRow>)
    requires UniqueIds(live) && multiset(batch) <= multiset(Filter(live, eligible))
    ensures multiset(batch) <= multiset(live)
    ensures Filter(Without(live, batch), eligible) == Without(Filter(live, eligible), batch)
    ensures |Filter(Without(live, batch), eligible)| == |Filter(live, eligible)| - |batch|
  {
    var candidates := Filter(live, eligible);
    FilterIsPart(live, eligible);
    SubsetKeepsUniqueIds(live, candidates);
    WithoutBatch(candidates, batch);
    var both := (r: ViewRow) => eligible(r) && NotIn(batch)(r);
    FilterTwice(live, NotIn(batch), eligible, both);
    FilterTwice(live, eligible, NotIn(batch), both);
    assert |multiset(Without(candidates, batch))| == |candidates| - |batch|;
  }

  // ---------------------------------------------------------------- the rows of a batch and a chain, by their columns

  /** Past retention: what the statements that archive and delete ask of a row in common. */
  ghost predicate PastRetention(r: ViewRow, p: Purge) {
    r.serviceId == p.serviceId && r.notificationType == p.notificationType && r.createdAt < p.before
  }

  /** The letters with a normal or team key that have not been sent yet, which no batch may move. */
  predicate Protected(r: ViewRow) {
    r.notificationType == Letter && r.keyType != Test && r.status in {PendingVirusCheck, Created, Sending}
  }

  /** The batch holds rows that are past retention and of the right kind, and if such a row is left out
      although it is there, the batch is full and holds no newer row. */
  ghost predicate TakesOldest(batch: seq<ViewRow>, live: seq<ViewRow>, p: Purge, test: bool, limit: nat) {
    && |batch| <= limit
    && (forall r | r in batch :: r in live && PastRetention(r, p) && (r.keyType == Test <==> test) && !Protected(r))
    && forall r | r in live && r !in batch && PastRetention(r, p) && (r.keyType == Test <==> test) && !Protected(r) ::
         |batch| == limit && forall taken | taken in batch :: taken.createdAt <= r.createdAt
  }

  lemma OldestBatchTakes(batch: seq<ViewRow>, live: seq<ViewRow>, eligible: ViewRow -> bool, limit: nat)
    requires IsOldestBatch(batch, Filter(live, eligible), limit)
    ensures |batch| <= limit && forall r | r in batch :: r in live && eligible(r)
    ensures forall r | r in live && eligible(r) && r !in batch ::
              |batch| == limit && forall taken | taken in batch :: taken.createdAt <= r.createdAt
  {
    var candidates := Filter(live, eligible);
    forall r | r in batch ensures r in live && eligible(r) {
      assert r in multiset(batch);
      FilterContains(live, eligible, r);
    }
    forall r | r in live && eligible(r) && r !in batch
      ensures |batch| == limit && forall taken | taken in batch :: taken.createdAt <= r.createdAt
    {
      FilterContains(live, eligible, r);
      assert r in multiset(candidates) - multiset(batch);
      assert |multiset(candidates) - multiset(batch)| > 0;
    }
  }

  /** A batch of the archiving statement, by the columns of its rows. */
  lemma ArchiveBatchInColumns(batch: seq<ViewRow>, live: seq<ViewRow>, p: Purge, limit: nat)
    requires IsOldestBatch(batch, Filter(live, IsArchivable(p)), limit)
    ensures TakesOldest(batch, live, p, false, limit)
  {
    OldestBatchTakes(batch, live, IsArchivable(p), limit);
  }

  /** A batch of the test deletion, by the columns of its rows. */
  lemma TestBatchInColumns(batch: seq<ViewRow>, live: seq<ViewRow>, p: Purge, limit: nat)
    requires IsOldestBatch(batch, Filter(live, IsDisposable(p)), limit)
    ensures TakesOldest(batch, live, p, true, limit)
  {
    OldestBatchTakes(batch, live, IsDisposable(p), limit);
  }

  /** What archival promises: the live rows that stay are those of another service or type, those that are
      not older than the limit, and normal and team letters that have not been sent; and the rows
      that go are in the history, unless they had a test key or their id was there already. */
  ghost predicate IsArchived(before: Tables, after: Tables, p: Purge) {
    && (forall r :: r in after.live <==>
          && r in before.live
          && (|| r.serviceId != p.serviceId || r.notificationType != p.notificationType || p.before <= r.createdAt
              || (r.notificationType == Letter && r.keyType != Test
                  && r.status in {PendingVirusCheck, Created, Sending})))
    && forall r :: r in after.history <==>
         || r in before.history
         || (r in before.live && r !in after.live && r.keyType != Test && !HasId(before.history, r.id))
  }

  /** What the deletion of test notifications promises. */
  ghost predicate IsRidOfTests(before: seq<ViewRow>, after: seq<ViewRow>, p: Purge) {
    forall r :: r in after <==>
      && r in before
      && (|| r.serviceId != p.serviceId || r.notificationType != p.notificationType || p.before <= r.createdAt
          || r.keyType != Test)
  }

  /** A chain that leaves the rows of the filter, and archives those of the other, does what it promises. */
  lemma ChainInColumns(before: Tables, after: Tables, p: Purge)
    requires after.live == Filter(before.live, IsLeft(p))
    requires multiset(after.history)
          == multiset(before.history) + multiset(Filter(Filter(before.live, IsArchivable(p)), NotIn(before.history)))
    ensures IsArchived(before, after, p)
  {
    hide HasId;
    var archivable := Filter(before.live, IsArchivable(p));
    var moved := Filter(archivable, NotIn(before.history));
    forall r
      ensures r in after.live <==> r in before.live && IsLeft(p)(r)
      ensures r in after.history <==>
              r in before.history || (r in before.live && Archivable(r, p) && !HasId(before.history, r.id))
    {
      FilterContains(before.live, IsLeft(p), r);
      FilterContains(before.live, IsArchivable(p), r);
      FilterContains(archivable, NotIn(before.history), r);
      NotInIs(before.history, r);
      assert r in after.history <==> r in multiset(after.history);
      assert r in multiset(moved) <==> r in moved;
    }
  }

  lemma TestChainInColumns(before: seq<ViewRow>, p: Purge)
    ensures IsRidOfTests(before, Filter(before, NotDisposable(p)), p)
  {
    forall r ensures r in Filter(before, NotDisposable(p)) <==> r in before && !Disposable(r, p) {
      FilterContains(before, NotDisposable(p), r);
    }
  }

  // ---------------------------------------------------------------- the stores and the tasks

  class NotificationStore {
    var live: seq<ViewRow>
    var history: seq<ViewRow>

    ghost function Now(): Tables
      reads this
    {
      Tables(live, history)
    }

    method InsertNotificationHistoryDeleteNotifications(p: Purge, queryLimit: nat)
        returns (count: nat, ghost batch: seq<ViewRow>)
      modifies this
      ensures IsOldestBatch(batch, Filter(old(live), IsArchivable(p)), queryLimit) && count == |batch|
      ensures TakesOldest(batch, old(live), p, false, queryLimit)
      ensures Now() == AfterArchive(old(Now()), batch)
    {
      var archive := TakeOldest(Filter(live, IsArchivable(p)), queryLimit);
      ArchiveBatchInColumns(archive, live, p, queryLimit);
      history := InsertOrSkip(history, archive);
      live := Without(live, archive);
      return |archive|, archive;
    }

    method MoveNotificationsToNotificationHistory(p: Purge, queryLimit: nat)
        returns (count: nat, ghost batch: seq<ViewRow>)
      modifies this
      ensures IsOldestBatch(batch, Filter(old(live), IsArchivable(p)), LimitFor(p.notificationType, queryLimit))
      ensures TakesOldest(batch, old(live), p, false, if p.notificationType == Letter then Min(queryLimit, 5000)
                                                      else queryLimit)
      ensures count == |batch| && Now() == AfterArchive(old(Now()), batch)
    {
      var limit := queryLimit;
      if p.notificationType == Letter {
        limit := Min(limit, LETTER_LIMIT);
      }
      count, batch := InsertNotificationHistoryDeleteNotifications(p, limit);
    }

    method DeleteTestNotifications(p: Purge, queryLimit: nat) returns (count: nat, ghost batch: seq<ViewRow>)
      modifies this
      ensures IsOldestBatch(batch, Filter(old(live), IsDisposable(p)), LimitFor(p.notificationType, queryLimit))
      ensures TakesOldest(batch, old(live), p, true, if p.notificationType == Letter then Min(queryLimit, 5000)
                                                     else queryLimit)
      ensures count == |batch| && Now() == AfterDisposal(old(Now()), batch)
    {
      var limit := queryLimit;
      if p.notificationType == Letter {
        limit := Min(limit, LETTER_LIMIT);
      }
      var deleted := TakeOldest(Filter(live, IsDisposable(p)), limit);
      TestBatchInColumns(deleted, live, p, limit);
      live := Without(live, deleted);
      return |deleted|, deleted;
    }

    /** The chain of tasks that one archival task starts: each that moved something queues
        another one, and the first that did not queues the deletion of the test notifications. */
    method DeleteNotificationsForServiceAndType(p: Purge) returns (tasks: nat, testTasks: nat)
      requires UniqueIds(live)
      modifies this
      ensures live == Filter(old(live), IsLeft(p))
      ensures IsArchived(old(Now()), Now(), p)
      ensures multiset(history)
           == multiset(old(history)) + multiset(Filter(Filter(old(live), IsArchivable(p)), NotIn(old(history))))
      ensures tasks == CeilDiv(|Filter(old(live), IsArchivable(p))|, LimitFor(p.notificationType, QUERY_LIMIT)) + 1
      ensures testTasks == CeilDiv(|Filter(old(live), IsDisposable(p))|, LimitFor(p.notificationType, QUERY_LIMIT)) + 1
      decreases |Filter(live, IsArchivable(p))|
    {
      hide Disposable, Archivable, UniqueIds, HasId, IsArchived, IsRidOfTests, TakesOldest, Without, InsertOrSkip,
           NotIn, LimitFor;
      OneMoreTask(|Filter(live, IsArchivable(p))|, p.notificationType);
      var count, batch := MoveNotificationsToNotificationHistory(p, QUERY_LIMIT);
      ArchiveProgress(old(Now()), p, batch);
      if count > 0 {
        tasks, testTasks := DeleteNotificationsForServiceAndType(p);
        tasks := tasks + 1;
      } else {
        NoneEligible(live, IsArchivable(p));
        FilterEqual(live, IsLeft(p), NotDisposable(p));
        tasks := 1;
        testTasks := DeleteTestNotificationsForServiceAndType(p);
      }
      ChainInColumns(old(Now()), Now(), p);
    }

    method DeleteTestNotificationsForServiceAndType(p: Purge) returns (tasks: nat)
      requires UniqueIds(live)
      modifies this
      ensures live == Filter(old(live), NotDisposable(p)) && history == old(history)
      ensures IsRidOfTests(old(live), live, p)
      ensures tasks == CeilDiv(|Filter(old(live), IsDisposable(p))|, LimitFor(p.notificationType, QUERY_LIMIT)) + 1
      decreases |Filter(live, IsDisposable(p))|
    {
      hide Disposable, UniqueIds, HasId, NotIn, Filter, Without, IsRidOfTests, TakesOldest;
      OneMoreTask(|Filter(live, IsDisposable(p))|, p.notificationType);
      var count, batch := DeleteTestNotifications(p, QUERY_LIMIT);
      DisposalProgress(old(live), p, batch);
      if count > 0 {
        tasks := DeleteTestNotificationsForServiceAndType(p);
        tasks := tasks + 1;
      } else {
        NoneEligible(live, IsDisposable(p));
        FilterAll(live, NotDisposable(p));
        tasks := 1;
      }
      TestChainInColumns(old(live), p);
    }
  }

  function NotDisposable(p: Purge): ViewRow -> bool { (r: ViewRow) => !Disposable(r, p) }

  /** Sizes under the limits of the tasks: a full batch is one task less. */
  lemma OneMoreTask(candidates: nat, t: NotificationType)
    ensures LimitFor(t, QUERY_LIMIT) == if t == Letter then 5000 else 50000
    ensures candidates > 0 ==>
              CeilDiv(candidates, LimitFor(t, QUERY_LIMIT))
              == CeilDiv(candidates - Min(LimitFor(t, QUERY_LIMIT), candidates), LimitFor(t, QUERY_LIMIT)) + 1
    ensures CeilDiv(0, LimitFor(t, QUERY_LIMIT)) == 0
  {
  }

  /** Rows that are not eligible are untouched by a batch of eligible rows. */
  lemma OthersStay(live: seq<ViewRow>, eligible: ViewRow -> bool, batch: seq<ViewRow>, other: ViewRow -> bool)
    requires UniqueIds(live) && multiset(batch) <= multiset(Filter(live, eligible))
    requires forall r :: other(r) ==> !eligible(r)
    ensures Filter(Without(live, batch), other) == Filter(live, other)
  {
    FilterIsPart(live, eligible);
    SubsetKeepsUniqueIds(live, Filter(live, eligible));
    WithoutBatch(live, batch);
    forall r | r in live && other(r) ensures NotIn(batch)(r) {
      FilterContains(live, eligible, r);
      assert r in batch ==> r in multiset(batch) && r in multiset(Filter(live, eligible));
    }
    FilterTwice(live, NotIn(batch), other, other);
  }

  /** The live rows that a whole chain leaves are the same before and after each of its batches. */
  lemma ArchiveProgress(t: Tables, p: Purge, batch: seq<ViewRow>)
    requires UniqueIds(t.live)
    requires IsOldestBatch(batch, Filter(t.live, IsArchivable(p)), LimitFor(p.notificationType, QUERY_LIMIT))
    ensures var after := AfterArchive(t, batch);
            && UniqueIds(after.live)
            && Filter(after.live, IsLeft(p)) == Filter(t.live, IsLeft(p))
            && Filter(after.live, IsDisposable(p)) == Filter(t.live, IsDisposable(p))
            && |Filter(after.live, IsArchivable(p))| == |Filter(t.live, IsArchivable(p))| - |batch|
            && multiset(after.history) + multiset(Filter(Filter(after.live, IsArchivable(p)), NotIn(after.history)))
               == multiset(t.history) + multiset(Filter(Filter(t.live, IsArchivable(p)), NotIn(t.history)))
  {
    hide Archivable, Disposable, Filter, InsertOrSkip, NotIn, LimitFor, HasId;
    FilterIsPart(t.live, IsArchivable(p));
    SubsetKeepsUniqueIds(t.live, Filter(t.live, IsArchivable(p)));
    CandidatesLeft(t.live, IsArchivable(p), batch);
    WithoutBatch(t.live, batch);
    OthersStay(t.live, IsArchivable(p), batch, IsLeft(p));
    ArchivableIsNotDisposable(p);
    OthersStay(t.live, IsArchivable(p), batch, IsDisposable(p));
    HistoryProgress(t.history, Filter(t.live, IsArchivable(p)), batch);
  }

  lemma ArchivableIsNotDisposable(p: Purge)
    ensures forall r :: Disposable(r, p) ==> !Archivable(r, p)
  {
  }

  /** What a batch adds to the history and what later batches will add, together. */
  lemma HistoryProgress(history: seq<ViewRow>, candidates: seq<ViewRow>, batch: seq<ViewRow>)
    requires multiset(batch) <= multiset(candidates)
    requires UniqueIds(candidates)
    ensures var after := InsertOrSkip(history, batch);
            multiset(after) + multiset(Filter(Without(candidates, batch), NotIn(after)))
            == multiset(history) + multiset(Filter(candidates, NotIn(history)))
  {
    SubsetKeepsUniqueIds(candidates, batch);
    InsertedAre(history, batch);
    WithoutBatch(candidates, batch);
    var after := InsertOrSkip(history, batch);
    var later := Without(candidates, batch);
    forall r | r in later ensures NotIn(after)(r) == NotIn(history)(r) {
      FilterContains(candidates, NotIn(batch), r);
      HasIdAppend(history, Filter(batch, NotIn(history)), r.id);
      HasIdFilter(batch, NotIn(history), r.id);
    }
    FilterEqual(later, NotIn(after), NotIn(history));
    forall x
      ensures multiset(Filter(batch, NotIn(history)))[x] + multiset(Filter(later, NotIn(history)))[x]
           == multiset(Filter(candidates, NotIn(history)))[x]
    {
      FilterMultiplicity(batch, NotIn(history), x);
      FilterMultiplicity(later, NotIn(history), x);
      FilterMultiplicity(candidates, NotIn(history), x);
    }
    assert multiset(Filter(batch, NotIn(history))) + multiset(Filter(later, NotIn(history)))
        == multiset(Filter(candidates, NotIn(history)));
  }

  lemma DisposalProgress(live: seq<ViewRow>, p: Purge, batch: seq<ViewRow>)
    requires UniqueIds(live)
    requires IsOldestBatch(batch, Filter(live, IsDisposable(p)), LimitFor(p.notificationType, QUERY_LIMIT))
    ensures UniqueIds(Without(live, batch))
    ensures Filter(Without(live, batch), NotDisposable(p)) == Filter(live, NotDisposable(p))
    ensures |Filter(Without(live, batch), IsDisposable(p))| == |Filter(live, IsDisposable(p))| - |batch|
  {
    hide Disposable;
    CandidatesLeft(live, IsDisposable(p), batch);
    WithoutBatch(live, batch);
    OthersStay(live, IsDisposable(p), batch, NotDisposable(p));
  }

  lemma NoneEligible(s: seq<ViewRow>, keep: ViewRow -> bool)
    requires Filter(s, keep) == []
    ensures forall r | r in s :: !keep(r)
  {
    forall r | r in s ensures !keep(r) {
      FilterContains(s, keep, r);
    }
  }

  // ---------------------------------------------------------------- what one batch keeps

  lemma ViewAfterArchive(t: Tables, batch: seq<ViewRow>)
    requires UniqueIds(t.live) && multiset(batch) <= multiset(t.live)
    ensures multiset(View(AfterArchive(t, batch)))
         == multiset(t.live) - multiset(batch) + multiset(t.history) + multiset(Filter(batch, NotIn(t.history)))
  {
    hide HasId, NotIn, Filter, Without, InsertOrSkip, UniqueIds;
    WithoutBatch(t.live, batch);
    SubsetKeepsUniqueIds(t.live, batch);
    InsertedAre(t.history, batch);
  }

  lemma Cancel(rest: multiset<ViewRow>, a: multiset<ViewRow>, b: multiset<ViewRow>)
    ensures rest + a == rest + b <==> a == b
  {
    if rest + a == rest + b {
      forall x ensures a[x] == b[x] {
        assert (rest + a)[x] == (rest + b)[x];
      }
    }
  }

  lemma SkippedIff(history: seq<ViewRow>, batch: seq<ViewRow>)
    ensures multiset(Filter(batch, NotIn(history))) == multiset(batch)
       <==> forall r | r in batch :: !HasId(history, r.id)
  {
    hide HasId;
    if forall r | r in batch :: !HasId(history, r.id) {
      FilterAll(batch, NotIn(history));
    } else {
      var r :| r in batch && HasId(history, r.id);
      FilterMultiplicity(batch, NotIn(history), r);
      assert r in multiset(batch);
    }
  }

  /** A batch changes no row of the combined view, if and only if none of its ids is in the
      history already: such a row is skipped by the insert, and then deleted. */
  lemma ArchiveKeepsViewIff(t: Tables, batch: seq<ViewRow>)
    requires UniqueIds(t.live) && multiset(batch) <= multiset(t.live)
    ensures multiset(View(AfterArchive(t, batch))) == multiset(View(t))
       <==> forall r | r in batch :: !HasId(t.history, r.id)
  {
    hide HasId, NotIn, Filter, AfterArchive, UniqueIds;
    ViewAfterArchive(t, batch);
    SkippedIff(t.history, batch);
    var rest := multiset(t.live) - multiset(batch) + multiset(t.history);
    assert multiset(View(t)) == rest + multiset(batch);
    Cancel(rest, multiset(Filter(batch, NotIn(t.history))), multiset(batch));
  }

  /** Whatever the history held before, no id disappears from the two tables together. */
  lemma ArchiveKeepsIds(t: Tables, batch: seq<ViewRow>, id: NotificationId)
    requires UniqueIds(t.live) && multiset(batch) <= multiset(t.live)
    ensures HasId(View(AfterArchive(t, batch)), id) <==> HasId(View(t), id)
  {
    SubsetKeepsUniqueIds(t.live, batch);
    InsertedAre(t.history, batch);
    HasIdAppend(t.live, t.history, id);
    HasIdAppend(Without(t.live, batch), InsertOrSkip(t.history, batch), id);
    HasIdAppend(t.history, Filter(batch, NotIn(t.history)), id);
    HasIdFilter(t.live, NotIn(batch), id);
    HasIdFilter(batch, NotIn(t.history), id);
    if HasId(t.live, id) {
      var i :| 0 <= i < |t.live| && t.live[i].id == id;
      assert t.live[i] in t.live;
    }
    if HasId(batch, id) {
      var i :| 0 <= i < |batch| && batch[i].id == id;
      assert batch[i] in batch;
    }
  }

  // ---------------------------------------------------------------- runs of batches

  /** One committed batch of any chain of tasks, with any limit. */
  datatype Step =
    | ArchiveBatch(purge: Purge, limit: nat, batch: seq<ViewRow>)
    | TestBatch(purge: Purge, limit: nat, batch: seq<ViewRow>)

  function Eligible(step: Step): ViewRow -> bool {
    match step
    case ArchiveBatch(p, _, _) => IsArchivable(p)
    case TestBatch(p, _, _) => IsDisposable(p)
  }

  ghost predicate Allowed(t: Tables, step: Step) {
    IsOldestBatch(step.batch, Filter(t.live, Eligible(step)), step.limit)
  }

  function AfterStep(t: Tables, step: Step): Tables {
    match step
    case ArchiveBatch(_, _, batch) => AfterArchive(t, batch)
    case TestBatch(_, _, batch) => AfterDisposal(t, batch)
  }

  function AfterRun(t: Tables, steps: seq<Step>): Tables {
    if steps == [] then t else AfterStep(AfterRun(t, steps[..|steps| - 1]), steps[|steps| - 1])
  }

  ghost predicate IsRun(t: Tables, steps: seq<Step>) {
    steps != [] ==>
      && IsRun(t, steps[..|steps| - 1])
      && Allowed(AfterRun(t, steps[..|steps| - 1]), steps[|steps| - 1])
  }

  function IsReal(r: ViewRow): bool { r.keyType != Test }

  lemma StepRows(t: Tables, step: Step)
    requires UniqueIds(t.live) && Allowed(t, step)
    ensures multiset(step.batch) <= multiset(Filter(t.live, Eligible(step))) <= multiset(t.live)
    ensures UniqueIds(AfterStep(t, step).live)
    ensures forall r | r in step.batch :: r in t.live && Eligible(step)(r)
    ensures forall r :: r in AfterStep(t, step).live <==> r in t.live && r !in step.batch
  {
    hide Archivable, Disposable, Filter, InsertOrSkip, HasId, UniqueIds, NotIn;
    FilterIsPart(t.live, Eligible(step));
    WithoutBatch(t.live, step.batch);
    forall r | r in step.batch ensures r in t.live && Eligible(step)(r) {
      assert r in multiset(step.batch);
      FilterContains(t.live, Eligible(step), r);
    }
    forall r ensures r in Without(t.live, step.batch) <==> r in t.live && r !in step.batch {
      FilterContains(t.live, NotIn(step.batch), r);
      NotInIs(step.batch, r);
    }
  }

  /** Each batch of a run takes the oldest rows of its kind, by their columns, and no other row leaves the
      live table. */
  lemma StepInColumns(t: Tables, step: Step)
    requires UniqueIds(t.live) && Allowed(t, step)
    ensures TakesOldest(step.batch, t.live, step.purge, step.TestBatch?, step.limit)
    ensures forall r :: r in AfterStep(t, step).live <==> r in t.live && r !in step.batch
  {
    hide TakesOldest, Filter, AfterStep, IsOldestBatch;
    match step {
      case ArchiveBatch(p, limit, batch) => ArchiveBatchInColumns(batch, t.live, p, limit);
      case TestBatch(p, limit, batch) => TestBatchInColumns(batch, t.live, p, limit);
    }
    StepRows(t, step);
  }

  /** Over any run of batches, a row leaves the live table only when it is past the retention of a purge of
      the run for its service and type, and not a letter on its way. */
  lemma {:induction false} OnlyOldRowsLeave(t: Tables, steps: seq<Step>, r: ViewRow)
    requires UniqueIds(View(t)) && IsRun(t, steps)
    requires r in t.live && r !in AfterRun(t, steps).live
    ensures exists step :: step in steps && r.serviceId == step.purge.serviceId
                        && r.notificationType == step.purge.notificationType && r.createdAt < step.purge.before
                        && (r.keyType == Test <==> step.TestBatch?)
    ensures !Protected(r)
  {
    hide UniqueIds, Allowed, AfterStep, Protected, View;
    if steps == [] {
    } else {
      var before, step := AfterRun(t, steps[..|steps| - 1]), steps[|steps| - 1];
      if r in before.live {
        RunKeepsRealRows(t, steps[..|steps| - 1]);
        ViewHasUniqueIds(before);
        StepInColumns(before, step);
        assert step in steps;
      } else {
        OnlyOldRowsLeave(t, steps[..|steps| - 1], r);
      }
    }
  }

  lemma NotInIs(batch: seq<ViewRow>, r: ViewRow)
    ensures NotIn(batch)(r) <==> !HasId(batch, r.id)
  {
  }

  lemma ViewHasUniqueIds(t: Tables)
    requires UniqueIds(View(t))
    ensures UniqueIds(t.live)
    ensures forall r | r in t.live :: !HasId(t.history, r.id)
  {
    assert forall i | 0 <= i < |t.live| :: t.live[i] == View(t)[i];
    forall r | r in t.live ensures !HasId(t.history, r.id) {
      var i :| 0 <= i < |t.live| && t.live[i] == r;
      assert forall j | 0 <= j < |t.history| :: t.history[j] == View(t)[|t.live| + j];
    }
  }

  /** No id is ever in both tables, and a batch leaves the rows of the real keys as they are. */
  lemma StepKeepsRealRows(t: Tables, step: Step)
    requires UniqueIds(View(t)) && Allowed(t, step)
    ensures UniqueIds(View(AfterStep(t, step)))
    ensures multiset(Filter(View(AfterStep(t, step)), IsReal)) == multiset(Filter(View(t), IsReal))
    ensures t.history <= AfterStep(t, step).history
  {
    hide Archivable, Disposable, Filter, UniqueIds, HasId, NotIn;
    var after := AfterStep(t, step);
    ViewHasUniqueIds(t);
    StepRows(t, step);
    if step.ArchiveBatch? {
      ArchiveKeepsViewIff(t, step.batch);
      FilterPermutation(View(after), View(t), IsReal);
      SubsetKeepsUniqueIds(t.live, step.batch);
      InsertedAre(t.history, step.batch);
    } else {
      WithoutBatch(t.live, step.batch);
      DisposableIsNotReal(step.purge);
      OthersStay(t.live, Eligible(step), step.batch, IsReal);
      FilterAppend(t.live, t.history, IsReal);
      FilterAppend(after.live, t.history, IsReal);
    }
    assert multiset(View(after)) <= multiset(View(t));
    SubsetKeepsUniqueIds(View(t), View(after));
  }

  lemma DisposableIsNotReal(p: Purge)
    ensures forall r :: IsReal(r) ==> !Disposable(r, p)
  {
  }

  lemma StepKeepsProtected(t: Tables, step: Step, r: ViewRow)
    requires UniqueIds(t.live) && Allowed(t, step) && r in t.live && Protected(r)
    ensures r in AfterStep(t, step).live
  {
    hide Filter, InsertOrSkip, HasId, UniqueIds, NotIn, IsOldestBatch;
    StepRows(t, step);
  }

  /** Over any run of batches of any tasks: no id is in both tables, all rows of normal and team
      keys are still there with every column that the view has, history rows never change, and
      letters that are still on their way have not moved. */
  lemma {:induction false} RunKeepsRealRows(t: Tables, steps: seq<Step>)
    requires UniqueIds(View(t)) && IsRun(t, steps)
    ensures UniqueIds(View(AfterRun(t, steps)))
    ensures multiset(Filter(View(AfterRun(t, steps)), IsReal)) == multiset(Filter(View(t), IsReal))
    ensures t.history <= AfterRun(t, steps).history
    ensures forall r | r in t.live && Protected(r) :: r in AfterRun(t, steps).live
  {
    hide Filter, UniqueIds, Allowed, AfterStep, Protected, View;
    if steps == [] {
    } else {
      var before, step := AfterRun(t, steps[..|steps| - 1]), steps[|steps| - 1];
      RunKeepsRealRows(t, steps[..|steps| - 1]);
      StepKeepsRealRows(before, step);
      ViewHasUniqueIds(before);
      forall r | r in before.live && Protected(r) ensures r in AfterStep(before, step).live {
        StepKeepsProtected(before, step, r);
      }
    }
  }

  /** Only test notifications disappear: a row that a run removes from the view had a test key. */
  lemma OnlyTestRowsVanish(t: Tables, steps: seq<Step>, r: ViewRow)
    requires UniqueIds(View(t)) && IsRun(t, steps)
    requires r in View(t) && r !in View(AfterRun(t, steps))
    ensures r.keyType == Test
  {
    hide Filter, UniqueIds, AfterRun, IsRun, View;
    RunKeepsRealRows(t, steps);
    FilterContains(View(t), IsReal, r);
    FilterContains(View(AfterRun(t, steps)), IsReal, r);
    var before, after := Filter(View(t), IsReal), Filter(View(AfterRun(t, steps)), IsReal);
    assert (r in before <==> r in multiset(before)) && (r in after <==> r in multiset(after));
  }

  /** The purges of a run without test deletions leave the whole view as it was. */
  lemma {:induction false} ArchivingRunKeepsView(t: Tables, steps: seq<Step>)
    requires UniqueIds(View(t)) && IsRun(t, steps) && forall step | step in steps :: step.ArchiveBatch?
    ensures UniqueIds(View(AfterRun(t, steps)))
    ensures multiset(View(AfterRun(t, steps))) == multiset(View(t))
  {
    hide Filter, UniqueIds, View, HasId;
    if steps == [] {
    } else {
      var before, step := AfterRun(t, steps[..|steps| - 1]), steps[|steps| - 1];
      assert step in steps;
      ArchivingRunKeepsView(t, steps[..|steps| - 1]);
      ViewHasUniqueIds(before);
      StepRows(before, step);
      ArchiveKeepsViewIff(before, step.batch);
      StepKeepsRealRows(before, step);
    }
  }

  /** A whole chain of tasks leaves no eligible row, and keeps the rows of the real keys. The
      conditions on `after` are what DeleteNotificationsForServiceAndType ensures. */
  lemma ChainKeepsRealRows(t: Tables, after: Tables, p: Purge)
    requires UniqueIds(View(t)) && after.live == Filter(t.live, IsLeft(p))
    requires multiset(after.history)
          == multiset(t.history) + multiset(Filter(Filter(t.live, IsArchivable(p)), NotIn(t.history)))
    ensures forall r | r in after.live && PastRetention(r, p) :: Protected(r)
    ensures multiset(Filter(View(after), IsReal)) == multiset(Filter(View(t), IsReal))
  {
    hide Archivable, Disposable, UniqueIds, HasId, Filter;
    ViewHasUniqueIds(t);
    var moved := Filter(t.live, IsArchivable(p));
    forall r | r in moved ensures NotIn(t.history)(r) {
      FilterContains(t.live, IsArchivable(p), r);
    }
    FilterAll(moved, NotIn(t.history));
    ChainInColumns(t, after, p);
    forall r ensures multiset(Filter(View(after), IsReal))[r] == multiset(Filter(View(t), IsReal))[r] {
      DisposableIsNotReal(p);
      FilterMultiplicity(View(after), IsReal, r);
      FilterMultiplicity(View(t), IsReal, r);
      FilterMultiplicity(t.live, IsLeft(p), r);
      FilterMultiplicity(t.live, IsArchivable(p), r);
      assert multiset(View(after))[r] == multiset(after.live)[r] + multiset(after.history)[r];
      assert multiset(View(t))[r] == multiset(t.live)[r] + multiset(t.history)[r];
    }
    assert multiset(Filter(View(after), IsReal)) == multiset(Filter(View(t), IsReal));
  }
}
