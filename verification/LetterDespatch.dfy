/** ft_billing_letter_despatch: the facts of the letters despatched on a day. */
module LetterDespatch {
  import opened Collections
  import opened LondonTime
  import opened Schema
  import opened Rates

  datatype CostThreshold = Sorted | Unsorted

  /** A row of notifications_letter_despatch; the notification id is its key. */
  datatype Despatch = Despatch(despatchedOn: Option<Date>, costThreshold: CostThreshold)

  type Despatches = map<NotificationId, Despatch>

  /** The columns of a letter that the query keeps. */
  datatype LetterRow = LetterRow(id: NotificationId, postage: Option<string>, billableUnits: nat)

  function LetterOf(r: ViewRow): LetterRow { LetterRow(r.id, r.postage, r.billableUnits) }

  predicate DespatchedOn(despatches: Despatches, id: NotificationId, day: Date) {
    id in despatches && despatches[id].despatchedOn == Some(day)
  }

  function IsDespatched(despatches: Despatches, day: Date): ViewRow -> bool {
    (r: ViewRow) => DespatchedOn(despatches, r.id, day)
  }

  /** letter_notifications_cte: the UNION of the letters found in the two tables. */
  function LetterNotifications(live: seq<ViewRow>, history: seq<ViewRow>, despatches: Despatches,
                               day: Date): seq<LetterRow>
  {
    Distinct(MapSeq(Filter(live, IsDespatched(despatches, day)), LetterOf)
           + MapSeq(Filter(history, IsDespatched(despatches, day)), LetterOf))
  }

  datatype GroupKey = GroupKey(postage: Option<string>, pageCount: nat, costThreshold: CostThreshold)

  function GroupOf(despatches: Despatches): LetterRow -> GroupKey {
    (l: LetterRow) => GroupKey(l.postage, l.billableUnits,
                               if l.id in despatches then despatches[l.id].costThreshold else Sorted)
  }

  function One(l: LetterRow): int { 1 }

  datatype DespatchDatum = DespatchDatum(group: GroupKey, notificationsSent: int)

  /** The grouped counts. */
  function DespatchData(letters: seq<LetterRow>, despatches: Despatches): seq<DespatchDatum> {
    MapSeq(Distinct(MapSeq(letters, GroupOf(despatches))),
           (g: GroupKey) => DespatchDatum(g, Sum(letters, Only(GroupOf(despatches), One, g))))
  }

  datatype FactKey = FactKey(
    bstDate: Date,
    postage: string,
    costThreshold: CostThreshold,
    rate: real,
    billableUnits: nat)

  type Facts = map<FactKey, int>

  type DespatchRow = Entry<FactKey, int>

  /** The key that the counts of a group are stored under. None stands for the exceptions: no
      rate applies, or the letter has no postage, which the table requires. */
  function KeyOfGroup(g: GroupKey, rates: RateTables, day: Date): Option<FactKey>
    requires 1 <= day
  {
    match g.postage
    case None => None
    case Some(postage) =>
      match GetRate(rates, Letter, day, None, Some(g.pageCount), postage)
      case None => None
      case Some(rate) => Some(FactKey(day, postage, g.costThreshold, rate, g.pageCount))
  }

  /** The rows to insert, if no exception stops them. */
  function DespatchRecords(data: seq<DespatchDatum>, rates: RateTables, day: Date): Option<seq<DespatchRow>>
    requires 1 <= day
  {
    if data == [] then Some([])
    else
      match (DespatchRecords(data[..|data| - 1], rates, day), KeyOfGroup(data[|data| - 1].group, rates, day))
      case (Some(rows), Some(key)) => Some(rows + [Entry(key, data[|data| - 1].notificationsSent)])
      case _ => None
  }

  function KeysIn(rows: seq<DespatchRow>): set<FactKey> { set i | 0 <= i < |rows| :: rows[i].key }

  predicate Stale(k: FactKey, day: Date, rows: seq<DespatchRow>) {
    k.bstDate == day && k !in KeysIn(rows)
  }

  function WithoutStale(facts: Facts, day: Date, rows: seq<DespatchRow>): Facts {
    map k | k in facts && !Stale(k, day, rows) :: facts[k]
  }

  /** The table after update_ft_billing_letter_despatch, with the two counts it returns. */
  function UpdatedDespatchFacts(facts: Facts, letters: seq<LetterRow>, despatches: Despatches, rates: RateTables,
                                day: Date)
    : Option<(Facts, nat, nat)>
    requires 1 <= day
  {
    match DespatchRecords(DespatchData(letters, despatches), rates, day)
    case None => None
    case Some(rows) =>
      Some((Upsert(WithoutStale(facts, day, rows), rows), |rows|, |set k | k in facts && Stale(k, day, rows)|))
  }

  class DespatchStore {
    var facts: Facts

    /** update_ft_billing_letter_despatch: the facts written and the stale facts deleted, or
        None if an exception stops it before it writes. */
    method UpdateFtBillingLetterDespatch(live: seq<ViewRow>, history: seq<ViewRow>, despatches: Despatches,
                                         rates: RateTables, day: Date) returns (result: Option<(nat, nat)>)
      requires 1 <= day
      modifies this
      ensures var updated := UpdatedDespatchFacts(old(facts), LetterNotifications(live, history, despatches, day),
                                                  despatches, rates, day);
              && facts == (if updated.Some? then updated.value.0 else old(facts))
              && result == (if updated.Some? then Some((updated.value.1, updated.value.2)) else None)
    {
      var letters := LetterNotifications(live, history, despatches, day);
      var records := DespatchRecords(DespatchData(letters, despatches), rates, day);
      if records.None? {
        return None;
      }
      var rows := records.value;
      var deleted := |set k | k in facts && Stale(k, day, rows)|;
      facts := WithoutStale(facts, day, rows);
      if rows != [] {
        facts := Upsert(facts, rows);
      }
      return Some((|rows|, deleted));
    }
  }

  // ---------------------------------------------------------------- the facts are exact

  /** The fact of one letter, priced on its own. */
  function FactOf(l: LetterRow, despatches: Despatches, rates: RateTables, day: Date): Option<FactKey>
    requires 1 <= day
  {
    KeyOfGroup(GroupOf(despatches)(l), rates, day)
  }

  function CountOfFact(despatches: Despatches, rates: RateTables, day: Date, k: FactKey): LetterRow -> int
    requires 1 <= day
  {
    (l: LetterRow) => if FactOf(l, despatches, rates, day) == Some(k) then 1 else 0
  }

  /** The facts of the day are the counts of its letters by fact, and nothing more. */
  ghost predicate FactsAreExact(facts: Facts, letters: seq<LetterRow>, despatches: Despatches, rates: RateTables,
                                day: Date)
    requires 1 <= day
  {
    forall k: FactKey | k.bstDate == day ::
      && (k in facts <==> exists l :: l in letters && FactOf(l, despatches, rates, day) == Some(k))
      && (k in facts ==> facts[k] == Sum(letters, CountOfFact(despatches, rates, day, k)))
  }

  /** An exception stops the update when some group has no fact to be stored under. */
  lemma {:induction false} DespatchRecordsMissing(data: seq<DespatchDatum>, rates: RateTables, day: Date)
    requires 1 <= day
    ensures DespatchRecords(data, rates, day).None? <==> exists d :: d in data && KeyOfGroup(d.group, rates, day).None?
  {
    hide KeyOfGroup;
    if data == [] {
    } else {
      assert data == data[..|data| - 1] + [data[|data| - 1]];
      DespatchRecordsMissing(data[..|data| - 1], rates, day);
    }
  }

  lemma {:induction false} DespatchRecordsAre(data: seq<DespatchDatum>, rates: RateTables, day: Date)
    requires 1 <= day && DespatchRecords(data, rates, day).Some?
    ensures var rows := DespatchRecords(data, rates, day).value;
            && |rows| == |data|
            && forall i | 0 <= i < |data| :: Some(rows[i].key) == KeyOfGroup(data[i].group, rates, day)
                                          && rows[i].value == data[i].notificationsSent
  {
    hide KeyOfGroup;
    if data == [] {
    } else {
      DespatchRecordsAre(data[..|data| - 1], rates, day);
    }
  }

  lemma DespatchDataAre(letters: seq<LetterRow>, despatches: Despatches)
    ensures var data := DespatchData(letters, despatches);
            && (forall i, j | 0 <= i < j < |data| :: data[i].group != data[j].group)
            && (forall d | d in data :: d.notificationsSent == Sum(letters, Only(GroupOf(despatches), One, d.group)))
            && (forall d | d in data :: exists l :: l in letters && GroupOf(despatches)(l) == d.group)
            && (forall l | l in letters :: exists i :: 0 <= i < |data| && data[i].group == GroupOf(despatches)(l))
  {
    hide Sum;
    var all := MapSeq(letters, GroupOf(despatches));
    var groups := Distinct(all);
    var data := DespatchData(letters, despatches);
    forall d | d in data ensures exists l :: l in letters && GroupOf(despatches)(l) == d.group {
      var i :| 0 <= i < |data| && data[i] == d;
      assert groups[i] in all;
      var j :| 0 <= j < |all| && all[j] == groups[i];
      assert letters[j] in letters;
    }
    forall l | l in letters ensures exists i :: 0 <= i < |data| && data[i].group == GroupOf(despatches)(l) {
      var j :| 0 <= j < |letters| && letters[j] == l;
      assert all[j] in groups;
      var i :| 0 <= i < |groups| && groups[i] == all[j];
      assert data[i].group == groups[i];
    }
  }

  /** Different groups never share a fact, since the key holds everything that they group by. */
  lemma GroupsHaveTheirOwnFacts(g: GroupKey, g': GroupKey, rates: RateTables, day: Date)
    requires 1 <= day && KeyOfGroup(g, rates, day).Some? && KeyOfGroup(g, rates, day) == KeyOfGroup(g', rates, day)
    ensures g == g' && KeyOfGroup(g, rates, day).value.bstDate == day
  {
  }

  /** The records are the facts of the letters. */
  lemma RecordsAreTheFacts(letters: seq<LetterRow>, despatches: Despatches, rates: RateTables, day: Date,
                           rows: seq<DespatchRow>)
    requires 1 <= day && DespatchRecords(DespatchData(letters, despatches), rates, day) == Some(rows)
    ensures !RepeatsKey(rows)
    ensures forall i | 0 <= i < |rows| ::
              && rows[i].key.bstDate == day
              && rows[i].value == Sum(letters, CountOfFact(despatches, rates, day, rows[i].key))
              && exists l :: l in letters && FactOf(l, despatches, rates, day) == Some(rows[i].key)
    ensures forall l | l in letters ::
        exists i :: 0 <= i < |rows| && FactOf(l, despatches, rates, day) == Some(rows[i].key)
  {
    hide Sum, DespatchData, DespatchRecords, KeyOfGroup, GroupOf;
    var data := DespatchData(letters, despatches);
    DespatchDataAre(letters, despatches);
    DespatchRecordsAre(data, rates, day);
    forall a, b | 0 <= a < b < |rows| ensures rows[a].key != rows[b].key {
      if rows[a].key == rows[b].key {
        GroupsHaveTheirOwnFacts(data[a].group, data[b].group, rates, day);
      }
    }
    forall i | 0 <= i < |rows|
      ensures rows[i].key.bstDate == day
           && rows[i].value == Sum(letters, CountOfFact(despatches, rates, day, rows[i].key))
      ensures exists l :: l in letters && FactOf(l, despatches, rates, day) == Some(rows[i].key)
    {
      var k := rows[i].key;
      assert data[i] in data;
      GroupsHaveTheirOwnFacts(data[i].group, data[i].group, rates, day);
      var l :| l in letters && GroupOf(despatches)(l) == data[i].group;
      forall l | l in letters
        ensures Only(GroupOf(despatches), One, data[i].group)(l) == CountOfFact(despatches, rates, day, k)(l)
      {
        assert One(l) == 1;
        if FactOf(l, despatches, rates, day) == Some(k) {
          GroupsHaveTheirOwnFacts(data[i].group, GroupOf(despatches)(l), rates, day);
        }
      }
      SumEqual(letters, Only(GroupOf(despatches), One, data[i].group), CountOfFact(despatches, rates, day, k));
    }
  }

  /** What the update leaves at one key: the key's own row if it has one, the old fact if the key
      is of another day, and nothing otherwise. */
  lemma UpdatedAt(facts: Facts, day: Date, rows: seq<DespatchRow>, k: FactKey)
    requires !RepeatsKey(rows)
    requires forall i | 0 <= i < |rows| :: rows[i].key.bstDate == day
    ensures var after := Upsert(WithoutStale(facts, day, rows), rows);
            && (forall i | 0 <= i < |rows| && rows[i].key == k :: k in after && after[k] == rows[i].value)
            && (k !in KeysIn(rows) ==> (k in after <==> k in facts && k.bstDate != day))
            && (k !in KeysIn(rows) && k in after ==> after[k] == facts[k])
  {
    hide Upsert;
    var kept := WithoutStale(facts, day, rows);
    forall i | 0 <= i < |rows| && rows[i].key == k
      ensures k in Upsert(kept, rows) && Upsert(kept, rows)[k] == rows[i].value
    {
      UpsertWrites(kept, rows, i);
    }
    if k !in KeysIn(rows) {
      UpsertKeepsOthers(kept, rows, k);
    }
  }

  /** The two counts that the update returns. */
  lemma ReportedCounts(facts: Facts, day: Date, rows: seq<DespatchRow>)
    requires !RepeatsKey(rows)
    requires forall i | 0 <= i < |rows| :: rows[i].key.bstDate == day
    ensures var after := Upsert(WithoutStale(facts, day, rows), rows);
            && |rows| == |set k | k in after && k.bstDate == day|
            && |set k | k in facts && Stale(k, day, rows)| == |set k | k in facts && k.bstDate == day && k !in after|
  {
    hide Upsert, WithoutStale;
    var after := Upsert(WithoutStale(facts, day, rows), rows);
    forall k: FactKey ensures k in after && k.bstDate == day <==> k in KeysIn(rows) {
      UpdatedAt(facts, day, rows, k);
    }
    assert (set k | k in facts && k.bstDate == day && k !in after) == (set k | k in facts && Stale(k, day, rows));
    assert (set k | k in after && k.bstDate == day) == KeysIn(rows);
    CardinalityOfKeys(rows);
  }

  lemma UpdatedFactsAreExact(facts: Facts, letters: seq<LetterRow>, despatches: Despatches, rates: RateTables,
                             day: Date, rows: seq<DespatchRow>)
    requires 1 <= day && DespatchRecords(DespatchData(letters, despatches), rates, day) == Some(rows)
    ensures FactsAreExact(Upsert(WithoutStale(facts, day, rows), rows), letters, despatches, rates, day)
  {
    hide Sum, DespatchData, DespatchRecords, FactOf, Upsert, WithoutStale;
    var after := Upsert(WithoutStale(facts, day, rows), rows);
    RecordsAreTheFacts(letters, despatches, rates, day, rows);
    forall k: FactKey | k.bstDate == day
      ensures k in after <==> exists l :: l in letters && FactOf(l, despatches, rates, day) == Some(k)
      ensures k in after ==> after[k] == Sum(letters, CountOfFact(despatches, rates, day, k))
    {
      UpdatedAt(facts, day, rows, k);
      if k in KeysIn(rows) {
        var i :| 0 <= i < |rows| && rows[i].key == k;
      }
    }
  }

  /** The update makes the day's facts exactly the counts of its letters, whatever was there
      before, and leaves every other day alone. It reports how many facts the day has now, and
      how many of the old facts of the day are gone. */
  lemma DespatchUpdateIsExact(facts: Facts, letters: seq<LetterRow>, despatches: Despatches, rates: RateTables,
                              day: Date)
    requires 1 <= day && UpdatedDespatchFacts(facts, letters, despatches, rates, day).Some?
    ensures var (after, created, deleted) := UpdatedDespatchFacts(facts, letters, despatches, rates, day).value;
            && FactsAreExact(after, letters, despatches, rates, day)
            && (forall k: FactKey | k.bstDate != day ::
                (k in after <==> k in facts) && (k in facts ==> after[k] == facts[k]))
            && created == |set k | k in after && k.bstDate == day|
            && deleted == |set k | k in facts && k.bstDate == day && k !in after|
  {
    hide Sum, DespatchData, DespatchRecords, FactOf, Upsert, WithoutStale, FactsAreExact, Stale, CountOfFact;
    var rows := DespatchRecords(DespatchData(letters, despatches), rates, day).value;
    UpdatedFactsAreExact(facts, letters, despatches, rates, day, rows);
    RecordsAreTheFacts(letters, despatches, rates, day, rows);
    ReportedCounts(facts, day, rows);
    forall k: FactKey | k.bstDate != day
      ensures var after := Upsert(WithoutStale(facts, day, rows), rows);
              (k in after <==> k in facts) && (k in facts ==> after[k] == facts[k])
    {
      UpdatedAt(facts, day, rows, k);
    }
  }

  lemma {:induction false} CardinalityOfKeys(rows: seq<DespatchRow>)
    requires !RepeatsKey(rows)
    ensures |KeysIn(rows)| == |rows|
  {
    if rows == [] {
    } else {
      var front := rows[..|rows| - 1];
      CardinalityOfKeys(front);
      assert KeysIn(rows) == KeysIn(front) + {rows[|rows| - 1].key};
    }
  }

  lemma UpdateTwice(facts: Facts, day: Date, rows: seq<DespatchRow>)
    requires !RepeatsKey(rows)
    requires forall i | 0 <= i < |rows| :: rows[i].key.bstDate == day
    ensures var after := Upsert(WithoutStale(facts, day, rows), rows);
            Upsert(WithoutStale(after, day, rows), rows) == after && (set k | k in after && Stale(k, day, rows)) == {}
  {
    hide Upsert, WithoutStale;
    var after := Upsert(WithoutStale(facts, day, rows), rows);
    var again := Upsert(WithoutStale(after, day, rows), rows);
    forall k: FactKey
      ensures (k in again <==> k in after) && (k in after ==> again[k] == after[k])
      ensures k in after ==> !Stale(k, day, rows)
    {
      UpdatedAt(facts, day, rows, k);
      UpdatedAt(after, day, rows, k);
      if k in KeysIn(rows) {
        var i :| 0 <= i < |rows| && rows[i].key == k;
      }
    }
    assert again == after;
  }

  /** Running the update again changes nothing and deletes nothing. */
  lemma DespatchUpdateIsIdempotent(facts: Facts, letters: seq<LetterRow>, despatches: Despatches, rates: RateTables,
                                   day: Date)
    requires 1 <= day && UpdatedDespatchFacts(facts, letters, despatches, rates, day).Some?
    ensures var (after, created, _) := UpdatedDespatchFacts(facts, letters, despatches, rates, day).value;
            UpdatedDespatchFacts(after, letters, despatches, rates, day) == Some((after, created, 0))
  {
    hide Sum, DespatchData, DespatchRecords, FactOf, Upsert, WithoutStale, Stale, CountOfFact;
    var rows := DespatchRecords(DespatchData(letters, despatches), rates, day).value;
    RecordsAreTheFacts(letters, despatches, rates, day, rows);
    UpdateTwice(facts, day, rows);
  }

  /** The update fails exactly when one of the letters has no rate or no postage. */
  lemma UpdateFailsIff(facts: Facts, letters: seq<LetterRow>, despatches: Despatches, rates: RateTables, day: Date)
    requires 1 <= day
    ensures UpdatedDespatchFacts(facts, letters, despatches, rates, day).None?
       <==> exists l :: l in letters && FactOf(l, despatches, rates, day).None?
  {
    hide Sum, DespatchData, DespatchRecords, KeyOfGroup, GroupOf;
    var data := DespatchData(letters, despatches);
    DespatchDataAre(letters, despatches);
    DespatchRecordsMissing(data, rates, day);
    forall l | l in letters && FactOf(l, despatches, rates, day).None?
      ensures exists d :: d in data && KeyOfGroup(d.group, rates, day).None?
    {
      var i :| 0 <= i < |data| && data[i].group == GroupOf(despatches)(l);
      assert data[i] in data;
    }
    forall d | d in data && KeyOfGroup(d.group, rates, day).None?
      ensures exists l :: l in letters && FactOf(l, despatches, rates, day).None?
    {
      var l :| l in letters && GroupOf(despatches)(l) == d.group;
    }
  }

  /** The letters may come in any order. */
  lemma UpdateIgnoresOrder(facts: Facts, letters: seq<LetterRow>, letters': seq<LetterRow>, despatches: Despatches,
                           rates: RateTables, day: Date)
    requires 1 <= day && multiset(letters) == multiset(letters')
    ensures UpdatedDespatchFacts(facts, letters, despatches, rates, day)
         == UpdatedDespatchFacts(facts, letters', despatches, rates, day)
  {
    hide Sum, DespatchData, DespatchRecords, FactOf, UpdatedDespatchFacts;
    UpdateFailsIff(facts, letters, despatches, rates, day);
    UpdateFailsIff(facts, letters', despatches, rates, day);
    assert forall l :: l in letters <==> l in multiset(letters);
    assert forall l :: l in letters' <==> l in multiset(letters');
    var result, result' := UpdatedDespatchFacts(facts, letters, despatches, rates, day),
                           UpdatedDespatchFacts(facts, letters', despatches, rates, day);
    if result.Some? {
      SameFacts(facts, letters, letters', despatches, rates, day);
    }
  }

  lemma SameFacts(facts: Facts, letters: seq<LetterRow>, letters': seq<LetterRow>, despatches: Despatches,
                  rates: RateTables, day: Date)
    requires 1 <= day && multiset(letters) == multiset(letters')
    requires UpdatedDespatchFacts(facts, letters, despatches, rates, day).Some?
    requires UpdatedDespatchFacts(facts, letters', despatches, rates, day).Some?
    ensures UpdatedDespatchFacts(facts, letters, despatches, rates, day)
         == UpdatedDespatchFacts(facts, letters', despatches, rates, day)
  {
    hide Sum, FactOf, UpdatedDespatchFacts;
    DespatchUpdateIsExact(facts, letters, despatches, rates, day);
    DespatchUpdateIsExact(facts, letters', despatches, rates, day);
    var (after, created, deleted) := UpdatedDespatchFacts(facts, letters, despatches, rates, day).value;
    var (after', created', deleted') := UpdatedDespatchFacts(facts, letters', despatches, rates, day).value;
    assert forall l :: l in letters <==> l in multiset(letters);
    assert forall l :: l in letters' <==> l in multiset(letters');
    forall k: FactKey ensures (k in after <==> k in after') && (k in after ==> after[k] == after'[k]) {
      SumPermutation(letters, letters', CountOfFact(despatches, rates, day, k));
    }
    assert after == after';
  }

  // ---------------------------------------------------------------- what the counts add up to

  function SentOf(d: DespatchDatum): int { d.notificationsSent }

  lemma {:induction false} DataAsGroups(letters: seq<LetterRow>, despatches: Despatches, data: seq<DespatchDatum>)
    requires forall d | d in data :: d.notificationsSent == Sum(letters, Only(GroupOf(despatches), One, d.group))
    ensures Sum(data, SentOf)
         == GroupTotal(letters, GroupOf(despatches), One, MapSeq(data, (d: DespatchDatum) => d.group))
  {
    if data == [] {
    } else {
      var front := data[..|data| - 1];
      DataAsGroups(letters, despatches, front);
      var groups := MapSeq(data, (d: DespatchDatum) => d.group);
      assert groups[..|data| - 1] == MapSeq(front, (d: DespatchDatum) => d.group);
      assert data[|data| - 1] in data;
    }
  }

  lemma {:induction false} SumOfOnes(letters: seq<LetterRow>)
    ensures Sum(letters, One) == |letters|
  {
    if letters == [] {
    } else {
      SumOfOnes(letters[..|letters| - 1]);
    }
  }

  lemma SentIsLetterCount(letters: seq<LetterRow>, despatches: Despatches)
    ensures Sum(DespatchData(letters, despatches), SentOf) == |letters|
  {
    hide Sum, DespatchData;
    var data := DespatchData(letters, despatches);
    DespatchDataAre(letters, despatches);
    DataAsGroups(letters, despatches, data);
    var groups := MapSeq(data, (d: DespatchDatum) => d.group);
    forall l | l in letters ensures GroupOf(despatches)(l) in groups {
      var i :| 0 <= i < |data| && data[i].group == GroupOf(despatches)(l);
      assert groups[i] == data[i].group;
    }
    GroupTotalConserved(letters, GroupOf(despatches), One, groups);
    SumOfOnes(letters);
  }

  lemma {:induction false} DistinctLength<T(!new)>(s: seq<T>)
    ensures |Distinct(s)| <= |s|
    ensures |Distinct(s)| == |s| <==> NoDuplicates(s)
  {
    if s == [] {
    } else {
      var front, last := s[..|s| - 1], s[|s| - 1];
      DistinctLength(front);
      assert s == front + [last];
      if NoDuplicates(s) {
        assert last !in front;
      } else if NoDuplicates(front) {
        assert last in front;
      }
    }
  }

  /** The despatch records of the day whose notification is in one of the tables. */
  ghost function DespatchedIds(live: seq<ViewRow>, history: seq<ViewRow>, despatches: Despatches,
                               day: Date): set<NotificationId>
  {
    set id | id in despatches && despatches[id].despatchedOn == Some(day)
          && exists r :: r in live + history && r.id == id
  }

  /** A notification found in both tables has the same postage and sheet count in both. */
  ghost predicate TablesAgree(live: seq<ViewRow>, history: seq<ViewRow>, despatches: Despatches, day: Date) {
    forall r, r' | r in live + history && r' in live + history && r.id == r'.id
        && DespatchedOn(despatches, r.id, day) ::
      LetterOf(r) == LetterOf(r')
  }

  lemma LettersAre(live: seq<ViewRow>, history: seq<ViewRow>, despatches: Despatches, day: Date)
    ensures NoDuplicates(LetterNotifications(live, history, despatches, day))
    ensures forall l :: l in LetterNotifications(live, history, despatches, day)
                   <==> exists r :: r in live + history && DespatchedOn(despatches, r.id, day) && LetterOf(r) == l
  {
    var a := Filter(live, IsDespatched(despatches, day));
    var b := Filter(history, IsDespatched(despatches, day));
    var letters := MapSeq(a, LetterOf) + MapSeq(b, LetterOf);
    forall l | l in letters
      ensures exists r :: r in live + history && DespatchedOn(despatches, r.id, day) && LetterOf(r) == l
    {
      var i :| 0 <= i < |letters| && letters[i] == l;
      var r := if i < |a| then a[i] else b[i - |a|];
      FilterContains(live, IsDespatched(despatches, day), r);
      FilterContains(history, IsDespatched(despatches, day), r);
    }
    forall r | r in live + history && DespatchedOn(despatches, r.id, day) ensures LetterOf(r) in letters {
      FilterContains(live, IsDespatched(despatches, day), r);
      FilterContains(history, IsDespatched(despatches, day), r);
      if r in a {
        var i :| 0 <= i < |a| && a[i] == r;
        assert letters[i] == LetterOf(r);
      } else {
        var i :| 0 <= i < |b| && b[i] == r;
        assert letters[|a| + i] == LetterOf(r);
      }
    }
  }

  function IdOf(l: LetterRow): NotificationId { l.id }

  lemma SameElement<T>(s: seq<T>, i: nat, j: nat)
    requires NoDuplicates(s) && i < |s| && j < |s| && s[i] == s[j]
    ensures i == j
  {
  }

  /** The ids of the letters are the despatched ids that have a notification. */
  lemma IdsOfLetters(live: seq<ViewRow>, history: seq<ViewRow>, despatches: Despatches, day: Date,
                     letters: seq<LetterRow>)
    requires forall l ::
        l in letters <==> exists r :: r in live + history && DespatchedOn(despatches, r.id, day) && LetterOf(r) == l
    ensures forall id :: id in DespatchedIds(live, history, despatches, day) <==> id in MapSeq(letters, IdOf)
  {
    var ids := MapSeq(letters, IdOf);
    forall id | id in ids ensures id in DespatchedIds(live, history, despatches, day) {
      var i :| 0 <= i < |ids| && ids[i] == id;
      assert letters[i] in letters;
      var r :| r in live + history && DespatchedOn(despatches, r.id, day) && LetterOf(r) == letters[i];
      assert IdOf(LetterOf(r)) == r.id;
    }
    forall id | id in DespatchedIds(live, history, despatches, day) ensures id in ids {
      var r :| r in live + history && r.id == id;
      assert DespatchedOn(despatches, r.id, day);
      assert LetterOf(r) in letters;
      var i :| 0 <= i < |letters| && letters[i] == LetterOf(r);
      assert ids[i] == id;
    }
  }

  /** The sent counts add up to the day's despatch records that have a notification, if and only
      if no notification is found twice with different postage or sheet count. */
  lemma SentAddsUpToDespatchesIff(live: seq<ViewRow>, history: seq<ViewRow>, despatches: Despatches, day: Date)
    ensures var sent := Sum(DespatchData(LetterNotifications(live, history, despatches, day), despatches), SentOf);
            && sent >= |DespatchedIds(live, history, despatches, day)|
            && (sent == |DespatchedIds(live, history, despatches, day)|
                <==> TablesAgree(live, history, despatches, day))
  {
    hide LetterNotifications, DespatchData, Sum, TablesAgree, DespatchedIds, Distinct, MapSeq, NoDuplicates,
         DespatchedOn;
    var letters := LetterNotifications(live, history, despatches, day);
    LettersAre(live, history, despatches, day);
    SentIsLetterCount(letters, despatches);
    var ids := MapSeq(letters, IdOf);
    IdsOfLetters(live, history, despatches, day, letters);
    AgreementIsUniqueness(live, history, despatches, day, letters);
    MapSeqLength(letters, IdOf);
    DistinctLength(ids);
    DistinctCardinality(ids, DespatchedIds(live, history, despatches, day));
  }

  lemma DistinctCardinality<T(!new)>(s: seq<T>, elements: set<T>)
    requires forall x :: x in elements <==> x in s
    ensures |elements| == |Distinct(s)|
  {
    NoDuplicatesCardinality(Distinct(s));
    assert elements == (set x | x in Distinct(s));
  }

  lemma MapSeqLength<T, U>(s: seq<T>, f: T -> U)
    ensures |MapSeq(s, f)| == |s|
  {
  }

  lemma AgreementIsUniqueness(live: seq<ViewRow>, history: seq<ViewRow>, despatches: Despatches, day: Date,
                              letters: seq<LetterRow>)
    requires NoDuplicates(letters)
    requires forall l ::
        l in letters <==> exists r :: r in live + history && DespatchedOn(despatches, r.id, day) && LetterOf(r) == l
    ensures NoDuplicates(MapSeq(letters, IdOf)) <==> TablesAgree(live, history, despatches, day)
  {
    var ids := MapSeq(letters, IdOf);
    if TablesAgree(live, history, despatches, day) {
      forall i, j | 0 <= i < j < |ids| ensures ids[i] != ids[j] {
        assert letters[i] in letters && letters[j] in letters;
        var r :| r in live + history && DespatchedOn(despatches, r.id, day) && LetterOf(r) == letters[i];
        var r' :| r' in live + history && DespatchedOn(despatches, r'.id, day) && LetterOf(r') == letters[j];
      }
    }
    if NoDuplicates(ids) {
      forall r, r' | r in live + history && r' in live + history && r.id == r'.id && DespatchedOn(despatches, r.id, day)
        ensures LetterOf(r) == LetterOf(r')
      {
        assert LetterOf(r) in letters && LetterOf(r') in letters;
        var i :| 0 <= i < |letters| && letters[i] == LetterOf(r);
        var j :| 0 <= j < |letters| && letters[j] == LetterOf(r');
        assert IdOf(letters[i]) == r.id && IdOf(letters[j]) == r'.id;
        SameElement(ids, i, j);
      }
    }
  }

  // ---------------------------------------------------------------- the facts in the columns of the tables

  /** The row is a letter of the day, and the fact has its postage, its sheet count, the cost threshold of its
      despatch record, and the rate of the day for this postage and sheet count. */
  ghost predicate IsFactOf(k: FactKey, r: ViewRow, despatches: Despatches, rates: RateTables, day: Date)
    requires 1 <= day
  {
    && r.id in despatches && despatches[r.id].despatchedOn == Some(day)
    && k.bstDate == day && r.postage == Some(k.postage) && k.billableUnits == r.billableUnits
    && k.costThreshold == despatches[r.id].costThreshold
    && IsLetterRateOfDay(rates, day, r.billableUnits, k.postage, k.rate)
  }

  /** The ids of the letters that a fact counts. */
  ghost function IdsOfFact(k: FactKey, live: seq<ViewRow>, history: seq<ViewRow>, despatches: Despatches,
                           rates: RateTables, day: Date): set<NotificationId>
    requires 1 <= day
  {
    set id | id in despatches && exists r :: r in live + history && r.id == id
                                          && IsFactOf(k, r, despatches, rates, day)
  }

  lemma FactByColumns(r: ViewRow, despatches: Despatches, rates: RateTables, day: Date, k: FactKey)
    requires 1 <= day && NewestFirst(rates) && DespatchedOn(despatches, r.id, day)
    ensures FactOf(LetterOf(r), despatches, rates, day) == Some(k) <==> IsFactOf(k, r, despatches, rates, day)
  {
    hide GetRate, IsLetterRateOfDay, NewestFirst;
    LetterRateInColumns(rates, day, None, r.billableUnits, k.postage, k.rate);
  }

  ghost function IsLetterOf(k: FactKey, despatches: Despatches, rates: RateTables, day: Date): LetterRow -> bool
    requires 1 <= day
  {
    (l: LetterRow) => FactOf(l, despatches, rates, day) == Some(k)
  }

  /** Counting different letters that have different ids is counting ids. */
  lemma {:induction false} LettersAsIds(letters: seq<LetterRow>, counts: LetterRow -> bool, count: LetterRow -> int)
    requires NoDuplicates(letters) && forall l | l in letters :: count(l) == if counts(l) then 1 else 0
    requires forall l, l' | l in letters && l' in letters && counts(l) && counts(l') && l.id == l'.id :: l == l'
    ensures Sum(letters, count) == |set l | l in letters && counts(l) :: l.id|
  {
    hide Sum;
    if letters == [] {
      NoLetters(counts, count);
    } else {
      var front, last := letters[..|letters| - 1], letters[|letters| - 1];
      assert letters == front + [last] && last !in front;
      LettersAsIds(front, counts, count);
      SumSnoc(front, last, count);
      OneMoreId(front, last, counts);
    }
  }

  lemma NoLetters(counts: LetterRow -> bool, count: LetterRow -> int)
    ensures Sum([], count) == 0 == |set l | l in [] && counts(l) :: l.id|
  {
  }

  lemma OneMoreId(front: seq<LetterRow>, last: LetterRow, counts: LetterRow -> bool)
    requires last !in front
    requires forall l | l in front && counts(l) && counts(last) && l.id == last.id :: l == last
    ensures var fewer := set l | l in front && counts(l) :: l.id;
            |set l | l in front + [last] && counts(l) :: l.id| == |fewer| + if counts(last) then 1 else 0
  {
    var fewer := set l | l in front && counts(l) :: l.id;
    var ids := set l | l in front + [last] && counts(l) :: l.id;
    assert forall l :: l in front + [last] <==> l in front || l == last;
    assert ids == if counts(last) then fewer + {last.id} else fewer;
  }

  /** A fact holds the postage and the sheet count, so that its letters have different ids. */
  lemma LettersOfFact(k: FactKey, despatches: Despatches, rates: RateTables, day: Date, l: LetterRow)
    requires 1 <= day && FactOf(l, despatches, rates, day) == Some(k)
    ensures l == LetterRow(l.id, Some(k.postage), k.billableUnits)
  {
  }

  lemma CountInColumns(live: seq<ViewRow>, history: seq<ViewRow>, despatches: Despatches, rates: RateTables, day: Date,
                       k: FactKey)
    requires 1 <= day && NewestFirst(rates)
    ensures var letters := LetterNotifications(live, history, despatches, day);
            && Sum(letters, CountOfFact(despatches, rates, day, k))
               == |IdsOfFact(k, live, history, despatches, rates, day)|
            && ((exists l :: l in letters && FactOf(l, despatches, rates, day) == Some(k))
                <==> exists r :: r in live + history && IsFactOf(k, r, despatches, rates, day))
  {
    hide Sum, LetterNotifications, FactOf, NewestFirst, IsLetterRateOfDay;
    var letters := LetterNotifications(live, history, despatches, day);
    LettersAre(live, history, despatches, day);
    forall l | l in letters && FactOf(l, despatches, rates, day) == Some(k)
      ensures exists r :: r in live + history && LetterOf(r) == l && IsFactOf(k, r, despatches, rates, day)
      ensures l == LetterRow(l.id, Some(k.postage), k.billableUnits)
    {
      var r :| r in live + history && DespatchedOn(despatches, r.id, day) && LetterOf(r) == l;
      FactByColumns(r, despatches, rates, day, k);
      LettersOfFact(k, despatches, rates, day, l);
    }
    forall r | r in live + history && IsFactOf(k, r, despatches, rates, day)
      ensures LetterOf(r) in letters && FactOf(LetterOf(r), despatches, rates, day) == Some(k)
    {
      FactByColumns(r, despatches, rates, day, k);
    }
    LettersAsIds(letters, IsLetterOf(k, despatches, rates, day), CountOfFact(despatches, rates, day, k));
    var ids := set l | l in letters && IsLetterOf(k, despatches, rates, day)(l) :: l.id;
    assert ids == IdsOfFact(k, live, history, despatches, rates, day);
  }

  /** The despatch facts told from the two tables, the despatch records and the rates alone: the update fails
      if and only if a letter of the day has no fact to be counted in, and otherwise the day has just
      the facts of its letters, each with the number of different letters that it is the fact of. */
  lemma DespatchFactsInColumns(facts: Facts, live: seq<ViewRow>, history: seq<ViewRow>, despatches: Despatches,
                               rates: RateTables, day: Date)
    requires 1 <= day && NewestFirst(rates)
    ensures var updated := UpdatedDespatchFacts(facts, LetterNotifications(live, history, despatches, day), despatches,
                                                rates, day);
            && (updated.None? <==>
                  exists r :: r in live + history && r.id in despatches && despatches[r.id].despatchedOn == Some(day)
                           && forall k :: !IsFactOf(k, r, despatches, rates, day))
            && (updated.Some? ==>
                  forall k: FactKey | k.bstDate == day ::
                    && (k in updated.value.0
                        <==> exists r :: r in live + history && IsFactOf(k, r, despatches, rates, day))
                    && (k in updated.value.0
                        ==> updated.value.0[k] == |IdsOfFact(k, live, history, despatches, rates, day)|))
  {
    hide Sum, LetterNotifications, FactOf, NewestFirst, UpdatedDespatchFacts, IsFactOf, IdsOfFact;
    var letters := LetterNotifications(live, history, despatches, day);
    UpdateFailsIff(facts, letters, despatches, rates, day);
    LettersAre(live, history, despatches, day);
    forall r | r in live + history && DespatchedOn(despatches, r.id, day)
      ensures FactOf(LetterOf(r), despatches, rates, day).None? <==> forall k :: !IsFactOf(k, r, despatches, rates, day)
    {
      forall k
        ensures FactOf(LetterOf(r), despatches, rates, day) == Some(k) <==> IsFactOf(k, r, despatches, rates, day)
      {
        FactByColumns(r, despatches, rates, day, k);
      }
    }
    var updated := UpdatedDespatchFacts(facts, letters, despatches, rates, day);
    if updated.Some? {
      DespatchUpdateIsExact(facts, letters, despatches, rates, day);
      var after := updated.value.0;
      forall k: FactKey | k.bstDate == day
        ensures k in after <==> exists r :: r in live + history && IsFactOf(k, r, despatches, rates, day)
        ensures k in after ==> after[k] == |IdsOfFact(k, live, history, despatches, rates, day)|
      {
        CountInColumns(live, history, despatches, rates, day, k);
      }
    }
  }
}
