/** What the rows of the annual and the monthly report say, in the columns of the facts of ft_billing. */
module UsageReports {
  import opened Collections
  import opened LondonTime
  import opened Schema
  import opened Allowance
  import opened Usage

  // ---------------------------------------------------------------- one fact, as it is reported

  /** What a fact is charged by: texts by their units, times the rate multiplier; emails by their units; letters
      by the letter. */
  ghost function ChargeableUnits(f: FtBillingRow): int {
    match f.key.notificationType
    case Sms => f.value.billableUnits * f.key.rateMultiplier
    case Email => f.value.billableUnits
    case _ => f.value.notificationsSent
  }

  /** The usage row keeps the columns of the fact, and splits what it is charged by into a free part, for texts
      only, and a part that costs the rate of the fact, but nothing for emails. */
  ghost predicate Reports(u: UsageRow, f: FtBillingRow) {
    && u.bstDate == f.key.bstDate && u.postage == f.key.postage && u.rate == f.key.rate
    && u.notificationType == f.key.notificationType && u.notificationsSent == f.value.notificationsSent
    && u.chargeableUnits == ChargeableUnits(f)
    && u.freeAllowanceUsed + u.chargedUnits == u.chargeableUnits && u.freeAllowanceUsed >= 0 && u.chargedUnits >= 0
    && (u.notificationType != Sms ==> u.freeAllowanceUsed == 0)
    && u.cost == if u.notificationType == Email then 0.0 else u.chargedUnits as real * u.rate
  }

  ghost predicate ReportEach(usage: seq<UsageRow>, facts: seq<FtBillingRow>) {
    |usage| == |facts| && forall i | 0 <= i < |facts| :: Reports(usage[i], facts[i])
  }

  lemma TextsAreReported(scan: seq<FtBillingRow>, limit: int)
    requires forall i | 0 <= i < |scan| :: scan[i].key.notificationType == Sms
    ensures ReportEach(UsageForServiceSms(scan, limit), scan)
  {
    hide Sum;
    forall i | 0 <= i < |scan| ensures Reports(UsageForServiceSms(scan, limit)[i], scan[i]) {
      assert Units(scan[i]) >= 0;
    }
  }

  lemma EmailsAreReported(facts: seq<FtBillingRow>)
    requires forall i | 0 <= i < |facts| :: facts[i].key.notificationType == Email
    ensures ReportEach(MapSeq(facts, EmailUsage), facts)
  {
    assert forall i | 0 <= i < |facts| :: Reports(EmailUsage(facts[i]), facts[i]);
  }

  lemma LettersAreReported(facts: seq<FtBillingRow>)
    requires forall i | 0 <= i < |facts| :: facts[i].key.notificationType == Letter
    ensures ReportEach(MapSeq(facts, LetterUsage), facts)
  {
    assert forall i | 0 <= i < |facts| :: Reports(LetterUsage(facts[i]), facts[i]);
  }

  // ---------------------------------------------------------------- the rows of a report

  /** The group of a fact is that of every usage row that reports it, and says its type and rate. */
  ghost predicate GroupsAlike<K(!new)>(key: UsageRow -> K, group: FtBillingRow -> K) {
    && (forall u, f | Reports(u, f) :: key(u) == group(f))
    && (forall f, f' | group(f) == group(f') ::
          f.key.notificationType == f'.key.notificationType && f.key.rate == f'.key.rate)
  }

  lemma {:induction false} SameSum<K(!new)>(usage: seq<UsageRow>, facts: seq<FtBillingRow>, key: UsageRow -> K,
                                      group: FtBillingRow -> K, g: UsageRow -> int, h: FtBillingRow -> int, k: K)
    requires ReportEach(usage, facts) && GroupsAlike(key, group) && forall u, f | Reports(u, f) :: g(u) == h(f)
    ensures Sum(usage, Only(key, g, k)) == Sum(facts, Only(group, h, k))
  {
    hide Reports;
    if usage == [] {
    } else {
      SameSum(usage[..|usage| - 1], facts[..|facts| - 1], key, group, g, h, k);
      var u, f := usage[|usage| - 1], facts[|facts| - 1];
      assert Reports(u, f);
    }
  }

  /** Within a group the charged units cost the one rate of the group. */
  lemma GroupCost<K(!new)>(usage: seq<UsageRow>, facts: seq<FtBillingRow>, key: UsageRow -> K,
                     group: FtBillingRow -> K, one: FtBillingRow)
    requires ReportEach(usage, facts) && GroupsAlike(key, group)
    ensures SumReal(usage, OnlyReal(key, Cost, group(one)))
         == if one.key.notificationType == Email then 0.0
            else Sum(usage, Only(key, Charged, group(one))) as real * one.key.rate
    ensures Sum(usage, Only(key, FreeUsed, group(one))) + Sum(usage, Only(key, Charged, group(one)))
         == Sum(usage, Only(key, Chargeable, group(one)))
    ensures Sum(usage, Only(key, FreeUsed, group(one))) >= 0 && Sum(usage, Only(key, Charged, group(one))) >= 0
    ensures one.key.notificationType != Sms ==> Sum(usage, Only(key, FreeUsed, group(one))) == 0
  {
    hide Sum, SumReal, GroupsAlike, Reports;
    var k, rate := group(one), if one.key.notificationType == Email then 0.0 else one.key.rate;
    forall u | u in usage
      ensures OnlyReal(key, Cost, k)(u) == Only(key, Charged, k)(u) as real * rate
      ensures Only(key, FreeUsed, k)(u) >= 0 && Only(key, Charged, k)(u) >= 0
      ensures Only(key, Chargeable, k)(u) == Only(key, FreeUsed, k)(u) + Only(key, Charged, k)(u)
      ensures one.key.notificationType != Sms ==> Only(key, FreeUsed, k)(u) == 0
    {
      var i :| 0 <= i < |usage| && usage[i] == u;
      OneRowCost(u, facts[i], key, group, one);
    }
    SumRealScaled(usage, Only(key, Charged, k), OnlyReal(key, Cost, k), rate);
    SumOfTwo(usage, Only(key, FreeUsed, k), Only(key, Charged, k), Only(key, Chargeable, k));
    SumNonNegative(usage, Only(key, FreeUsed, k));
    SumNonNegative(usage, Only(key, Charged, k));
    if one.key.notificationType != Sms {
      SumScaled(usage, Only(key, FreeUsed, k), Only(key, FreeUsed, k), 0);
    }
  }

  lemma OneRowCost<K(!new)>(u: UsageRow, f: FtBillingRow, key: UsageRow -> K, group: FtBillingRow -> K,
                      one: FtBillingRow)
    requires Reports(u, f) && GroupsAlike(key, group)
    ensures var k, rate := group(one), if one.key.notificationType == Email then 0.0 else one.key.rate;
            && OnlyReal(key, Cost, k)(u) == Only(key, Charged, k)(u) as real * rate
            && Only(key, FreeUsed, k)(u) >= 0 && Only(key, Charged, k)(u) >= 0
            && Only(key, Chargeable, k)(u) == Only(key, FreeUsed, k)(u) + Only(key, Charged, k)(u)
            && (one.key.notificationType != Sms ==> Only(key, FreeUsed, k)(u) == 0)
  {
  }

  /** The row adds up the facts of its group, which has a fact that is reported; what it charges splits into a
      free part, for texts only, and a part that costs the rate of the group. */
  ghost predicate AddsUpGroup<K(!new)>(row: RollUpRow<K>, facts: seq<FtBillingRow>, group: FtBillingRow -> K,
                                     one: FtBillingRow)
  {
    && one in facts && group(one) == row.key
    && row.notificationsSent == Sum(facts, Only(group, SentOf, row.key))
    && row.chargeableUnits == Sum(facts, Only(group, (f: FtBillingRow) => ChargeableUnits(f), row.key))
    && row.freeAllowanceUsed + row.chargedUnits == row.chargeableUnits
    && row.freeAllowanceUsed >= 0 && row.chargedUnits >= 0
    && (one.key.notificationType != Sms ==> row.freeAllowanceUsed == 0)
    && row.cost == if one.key.notificationType == Email then 0.0 else row.chargedUnits as real * one.key.rate
  }

  lemma VisitedFacts(visited: seq<FtBillingRow>, facts: seq<FtBillingRow>, t: NotificationType, f: FtBillingRow)
    requires multiset(visited) == multiset(Filter(facts, OfType(t)))
    ensures f in visited <==> f in facts && f.key.notificationType == t
  {
    hide Filter;
    FilterContains(facts, OfType(t), f);
    assert f in visited <==> f in multiset(visited);
    assert f in Filter(facts, OfType(t)) <==> f in multiset(Filter(facts, OfType(t)));
  }

  /** The facts of one type are all that add to a group of the type. */
  lemma SumOfType<K(!new)>(visited: seq<FtBillingRow>, facts: seq<FtBillingRow>, t: NotificationType,
                     key: UsageRow -> K, group: FtBillingRow -> K, h: FtBillingRow -> int, one: FtBillingRow)
    requires multiset(visited) == multiset(Filter(facts, OfType(t)))
    requires GroupsAlike(key, group) && one.key.notificationType == t
    ensures Sum(visited, Only(group, h, group(one))) == Sum(facts, Only(group, h, group(one)))
  {
    hide Filter, Sum;
    SumPermutation(visited, Filter(facts, OfType(t)), Only(group, h, group(one)));
    SumOverFilter(facts, OfType(t), Only(group, h, group(one)));
  }

  lemma GroupAddsUp<K(!new)>(usage: seq<UsageRow>, visited: seq<FtBillingRow>, facts: seq<FtBillingRow>,
                       t: NotificationType, key: UsageRow -> K, group: FtBillingRow -> K, one: FtBillingRow)
    requires ReportEach(usage, visited) && GroupsAlike(key, group)
    requires multiset(visited) == multiset(Filter(facts, OfType(t)))
    requires one in facts && one.key.notificationType == t
    ensures AddsUpGroup(RollUpGroup(usage, key, group(one)), facts, group, one)
  {
    hide Filter, Sum, SumReal, GroupsAlike, ReportEach;
    var charges := (f: FtBillingRow) => ChargeableUnits(f);
    assert (forall u, f | Reports(u, f) :: SentIn(u) == SentOf(f))
        && (forall u, f | Reports(u, f) :: Chargeable(u) == charges(f));
    SameSum(usage, visited, key, group, SentIn, SentOf, group(one));
    SameSum(usage, visited, key, group, Chargeable, charges, group(one));
    SumOfType(visited, facts, t, key, group, SentOf, one);
    SumOfType(visited, facts, t, key, group, charges, one);
    GroupCost(usage, visited, key, group, one);
  }

  /** The rows of one notification type. */
  lemma GroupsOfType<K(!new)>(usage: seq<UsageRow>, visited: seq<FtBillingRow>, facts: seq<FtBillingRow>,
                        t: NotificationType, key: UsageRow -> K, group: FtBillingRow -> K)
    requires ReportEach(usage, visited) && GroupsAlike(key, group)
    requires multiset(visited) == multiset(Filter(facts, OfType(t)))
    ensures forall row | row in RollUp(usage, key) ::
              exists one: FtBillingRow :: one.key.notificationType == t && AddsUpGroup(row, facts, group, one)
    ensures forall one | one in facts && one.key.notificationType == t ::
              exists row :: row in RollUp(usage, key) && row.key == group(one)
  {
    hide Filter, AddsUpGroup, RollUpGroup, GroupsAlike, Reports;
    var keys, report := Distinct(MapSeq(usage, key)), RollUp(usage, key);
    forall row | row in report
      ensures exists one: FtBillingRow :: one.key.notificationType == t && AddsUpGroup(row, facts, group, one)
    {
      var i :| 0 <= i < |report| && report[i] == row;
      assert keys[i] in keys;
      DistinctOfMapped(usage, key, keys[i]);
      var j :| 0 <= j < |usage| && key(usage[j]) == keys[i];
      var one := visited[j];
      SameGroup(usage[j], one, key, group);
      assert one in visited;
      VisitedFacts(visited, facts, t, one);
      GroupAddsUp(usage, visited, facts, t, key, group, one);
    }
    forall one | one in facts && one.key.notificationType == t
      ensures exists row :: row in report && row.key == group(one)
    {
      VisitedFacts(visited, facts, t, one);
      var j :| 0 <= j < |visited| && visited[j] == one;
      SameGroup(usage[j], one, key, group);
      assert usage[j] in usage;
      DistinctOfMapped(usage, key, group(one));
      var i :| 0 <= i < |keys| && keys[i] == group(one);
      assert report[i].key == group(one) by {
        GroupKey(usage, key, keys[i]);
      }
      assert report[i] in report;
    }
  }

  lemma SameGroup<K(!new)>(u: UsageRow, f: FtBillingRow, key: UsageRow -> K, group: FtBillingRow -> K)
    requires Reports(u, f) && GroupsAlike(key, group)
    ensures key(u) == group(f)
  {
  }

  lemma GroupKey<K(!new)>(usage: seq<UsageRow>, key: UsageRow -> K, k: K)
    ensures RollUpGroup(usage, key, k).key == k
  {
  }

  /** Each row of a report, whatever it groups by, adds up the facts of its group; and each fact, but a text of a
      service without an allowance, is in a group of the report. */
  lemma ReportedGroups<K(!new)>(facts: seq<FtBillingRow>, v: Visit, allowance: Option<int>, key: UsageRow -> K,
                          group: FtBillingRow -> K)
    requires IsVisitOf(v, facts) && GroupsAlike(key, group) && KeepsType(key)
    ensures forall row | row in Report(v, allowance, key) :: exists one :: AddsUpGroup(row, facts, group, one)
    ensures forall one | one in facts && one.key.notificationType in {Sms, Email, Letter}
                      && (one.key.notificationType == Sms ==> allowance.Some?) ::
              exists row :: row in Report(v, allowance, key) && row.key == group(one)
    ensures forall row | row in Report(v, allowance, key) && allowance.None? ::
              exists one: FtBillingRow :: one.key.notificationType != Sms && AddsUpGroup(row, facts, group, one)
    ensures NoDuplicates(Report(v, allowance, key))
    ensures forall row, row' | row in Report(v, allowance, key) && row' in Report(v, allowance, key)
                            && row.key == row'.key :: row == row'
  {
    hide Filter, AddsUpGroup, RollUp, RollUpGroup, GroupsAlike, Reports, IsOrderingOf, KeepsType, UsageForServiceSms,
         OnlyType;
    var sms, email, letter :=
      FetchUsageForServiceSms(v.sms, allowance), MapSeq(v.email, EmailUsage), MapSeq(v.letter, LetterUsage);
    UsageKeepsType(v, facts, allowance);
    UnionDropsNoGroup(sms, email, letter, key);
    VisitedSms(v, facts);
    VisitedAreOfType(v.sms, facts, Sms);
    VisitedAreOfType(v.email, facts, Email);
    VisitedAreOfType(v.letter, facts, Letter);
    EmailsAreReported(v.email);
    LettersAreReported(v.letter);
    GroupsOfType(email, v.email, facts, Email, key, group);
    GroupsOfType(letter, v.letter, facts, Letter, key, group);
    if allowance.Some? {
      TextsAreReported(v.sms, allowance.value);
      GroupsOfType(sms, v.sms, facts, Sms, key, group);
    } else {
      NoRollUp(key);
    }
    var report := Report(v, allowance, key);
    assert report == RollUp(sms, key) + RollUp(email, key) + RollUp(letter, key);
    assert forall row :: row in report <==>
        row in RollUp(sms, key) || row in RollUp(email, key) || row in RollUp(letter, key);
    RollUpByKey(sms, key, Sms);
    RollUpByKey(email, key, Email);
    RollUpByKey(letter, key, Letter);
    DifferentTypes(sms, email, letter, key);
  }

  /** A row is that of its key, which is the key of some usage row. */
  lemma RollUpByKey<K(!new)>(usage: seq<UsageRow>, key: UsageRow -> K, t: NotificationType)
    ensures forall row | row in RollUp(usage, key) :: row == RollUpGroup(usage, key, row.key)
    ensures OnlyType(usage, t) ==>
              forall row | row in RollUp(usage, key) ::
                exists u: UsageRow :: u.notificationType == t && key(u) == row.key
  {
    hide RollUpGroup;
    RollUpKeys(usage, key);
    var keys, report := Distinct(MapSeq(usage, key)), RollUp(usage, key);
    forall row | row in report ensures row == RollUpGroup(usage, key, row.key) {
      var i :| 0 <= i < |report| && report[i] == row;
      GroupKey(usage, key, keys[i]);
    }
  }

  lemma DifferentTypes<K(!new)>(sms: seq<UsageRow>, email: seq<UsageRow>, letter: seq<UsageRow>, key: UsageRow -> K)
    requires OnlyType(sms, Sms) && OnlyType(email, Email) && OnlyType(letter, Letter) && KeepsType(key)
    ensures forall row, row' | row in RollUp(sms, key) && row' in RollUp(email, key) :: row.key != row'.key
    ensures forall row, row' | row in RollUp(sms, key) && row' in RollUp(letter, key) :: row.key != row'.key
    ensures forall row, row' | row in RollUp(email, key) && row' in RollUp(letter, key) :: row.key != row'.key
  {
    hide RollUp, RollUpGroup, OnlyType;
    RollUpByKey(sms, key, Sms);
    RollUpByKey(email, key, Email);
    RollUpByKey(letter, key, Letter);
  }

  lemma NoRollUp<K(!new)>(key: UsageRow -> K)
    ensures RollUp([], key) == []
  {
  }

  // ---------------------------------------------------------------- the annual report

  ghost function AnnualGroup(): FtBillingRow -> AnnualKey {
    (f: FtBillingRow) => AnnualKey(f.key.notificationType, f.key.rate)
  }

  /** The annual report has one row for each type and rate of the facts, except for the texts of a service
      without an allowance, and each row is what the facts of its type and rate add up to. */
  lemma AnnualRowsAre(facts: seq<FtBillingRow>, v: Visit, allowance: Option<int>)
    requires IsVisitOf(v, facts)
    ensures var report := FetchUsageForServiceAnnual(v, allowance);
            && (forall row | row in report :: exists one :: AddsUpGroup(row, facts, AnnualGroup(), one))
            && (forall f | f in facts && f.key.notificationType in {Sms, Email, Letter}
                        && (f.key.notificationType == Sms ==> allowance.Some?) ::
                  exists row :: row in report && row.key == AnnualKey(f.key.notificationType, f.key.rate))
            && (forall i, j | 0 <= i < j < |report| :: report[i].key != report[j].key)
  {
    hide Report, AddsUpGroup, IsVisitOf;
    assert GroupsAlike(AnnualKeyOf, AnnualGroup()) && KeepsType(AnnualKeyOf);
    ReportedGroups(facts, v, allowance, AnnualKeyOf, AnnualGroup());
    var report := FetchUsageForServiceAnnual(v, allowance);
    forall i, j | 0 <= i < j < |report| ensures report[i].key != report[j].key {
      assert report[i] in report && report[j] in report;
    }
  }

  // ---------------------------------------------------------------- the monthly report

  /** The fact belongs to the row of the monthly report: the same type, rate and postage, and a date of the
      row's month. */
  ghost predicate InMonth(f: FtBillingRow, k: MonthlyKey)
    requires 1 <= k.month.1 <= 12
  {
    && f.key.notificationType == k.notificationType && f.key.rate == k.rate && f.key.postage == k.postage
    && MonthStart(k.month.0, k.month.1) <= f.key.bstDate < MonthStart(k.month.0, k.month.1 + 1)
  }

  ghost function SentInMonth(k: MonthlyKey): FtBillingRow -> int
    requires 1 <= k.month.1 <= 12
  {
    (f: FtBillingRow) => if InMonth(f, k) then f.value.notificationsSent else 0
  }

  ghost function ChargeableInMonth(k: MonthlyKey): FtBillingRow -> int
    requires 1 <= k.month.1 <= 12
  {
    (f: FtBillingRow) => if InMonth(f, k) then ChargeableUnits(f) else 0
  }

  ghost function MonthlyGroup(): FtBillingRow -> MonthlyKey {
    (f: FtBillingRow) =>
      MonthlyKey(f.key.notificationType, f.key.rate, f.key.postage,
                 if 1 <= f.key.bstDate then MonthOf(f.key.bstDate) else (0, 0))
  }

  lemma MonthlyGroupIs(f: FtBillingRow, k: MonthlyKey)
    requires 1 <= f.key.bstDate && 1 <= k.month.1 <= 12
    ensures MonthlyGroup()(f) == k <==> InMonth(f, k)
  {
    hide MonthOf, MonthStart;
    MonthOfIs(f.key.bstDate, k.month.0, k.month.1);
  }

  /** The row holds what the facts of just this month, type, rate and postage add up to. What they are charged by
      splits into a free part, for texts only, and a part that costs the rate. */
  ghost predicate IsMonthlyRow(row: RollUpRow<MonthlyKey>, facts: seq<FtBillingRow>) {
    && 1 <= row.key.month.1 <= 12
    && (exists f :: f in facts && InMonth(f, row.key))
    && row.notificationsSent == Sum(facts, SentInMonth(row.key))
    && row.chargeableUnits == Sum(facts, ChargeableInMonth(row.key))
    && row.freeAllowanceUsed + row.chargedUnits == row.chargeableUnits
    && row.freeAllowanceUsed >= 0 && row.chargedUnits >= 0
    && (row.key.notificationType != Sms ==> row.freeAllowanceUsed == 0)
    && row.cost == if row.key.notificationType == Email then 0.0 else row.chargedUnits as real * row.key.rate
  }

  lemma GroupIsMonth(row: RollUpRow<MonthlyKey>, facts: seq<FtBillingRow>, one: FtBillingRow)
    requires AddsUpGroup(row, facts, MonthlyGroup(), one) && forall f | f in facts :: 1 <= f.key.bstDate
    ensures IsMonthlyRow(row, facts)
  {
    hide Sum, MonthOf, InMonth, MonthStart, ChargeableUnits, MonthlyGroup;
    GroupOfOne(row, facts, one);
    forall f | f in facts ensures MonthlyGroup()(f) == row.key <==> InMonth(f, row.key) {
      MonthlyGroupIs(f, row.key);
    }
    SumEqual(facts, Only(MonthlyGroup(), SentOf, row.key), SentInMonth(row.key));
    SumEqual(facts, Only(MonthlyGroup(), (f: FtBillingRow) => ChargeableUnits(f), row.key),
             ChargeableInMonth(row.key));
  }

  /** The monthly report has rows for just the types, rates, postages and months of the facts, except for the
      texts of a service without an allowance, and each row is what its facts add up to. */
  lemma MonthlyRowsAre(facts: seq<FtBillingRow>, v: Visit, allowance: Option<int>)
    requires IsVisitOf(v, facts) && forall f | f in facts :: 1 <= f.key.bstDate
    ensures forall row | row in FetchUsageForServiceByMonth(v, allowance) ::
              IsMonthlyRow(row, facts) && (row.key.notificationType == Sms ==> allowance.Some?)
    ensures forall f | f in facts && f.key.notificationType in {Sms, Email, Letter}
                    && (f.key.notificationType == Sms ==> allowance.Some?) ::
              exists row :: row in FetchUsageForServiceByMonth(v, allowance) && 1 <= row.key.month.1 <= 12
                         && InMonth(f, row.key)
    ensures var report := FetchUsageForServiceByMonth(v, allowance);
            forall i, j | 0 <= i < j < |report| :: report[i].key != report[j].key
  {
    hide Filter, Report, IsVisitOf, Sum, MonthOf, InMonth, AddsUpGroup, IsMonthlyRow, GroupsAlike, KeepsType;
    var report := FetchUsageForServiceByMonth(v, allowance);
    MonthlyGroupsAlike();
    ReportedGroups(facts, v, allowance, MonthlyKeyOf, MonthlyGroup());
    forall i, j | 0 <= i < j < |report| ensures report[i].key != report[j].key {
      assert report[i] in report && report[j] in report;
    }
    forall row | row in report ensures IsMonthlyRow(row, facts) && (row.key.notificationType == Sms ==> allowance.Some?)
    {
      var one :| AddsUpGroup(row, facts, MonthlyGroup(), one)
              && (allowance.None? ==> one.key.notificationType != Sms);
      GroupIsMonth(row, facts, one);
      GroupOfOne(row, facts, one);
    }
    forall f | f in facts && f.key.notificationType in {Sms, Email, Letter}
        && (f.key.notificationType == Sms ==> allowance.Some?)
      ensures exists row :: row in report && 1 <= row.key.month.1 <= 12 && InMonth(f, row.key)
    {
      var row :| row in report && row.key == MonthlyGroup()(f);
      assert IsMonthlyRow(row, facts);
      MonthlyRowHasMonth(row, facts);
      MonthlyGroupIs(f, row.key);
    }
  }

  lemma MonthlyRowHasMonth(row: RollUpRow<MonthlyKey>, facts: seq<FtBillingRow>)
    requires IsMonthlyRow(row, facts)
    ensures 1 <= row.key.month.1 <= 12
  {
  }

  lemma GroupOfOne(row: RollUpRow<MonthlyKey>, facts: seq<FtBillingRow>, one: FtBillingRow)
    requires AddsUpGroup(row, facts, MonthlyGroup(), one)
    ensures row.key.notificationType == one.key.notificationType && row.key.rate == one.key.rate
    ensures 1 <= one.key.bstDate ==> 1 <= row.key.month.1 <= 12
  {
    hide MonthOf, MonthStart, ChargeableUnits;
    if 1 <= one.key.bstDate {
      MonthOfIs(one.key.bstDate, 1, 1);
    }
  }

  lemma MonthlyGroupsAlike()
    ensures GroupsAlike(MonthlyKeyOf, MonthlyGroup()) && KeepsType(MonthlyKeyOf)
  {
    hide MonthOf;
  }

  // ---------------------------------------------------------------- what a month is charged

  /** The charged units of the rows for texts of a month. */
  ghost function ChargedInMonth(year: int, month: int): RollUpRow<MonthlyKey> -> int {
    (row: RollUpRow<MonthlyKey>) =>
      if row.key.notificationType == Sms && row.key.month == (year, month) then row.chargedUnits else 0
  }

  ghost function ChargedIn(year: int, month: int): UsageRow -> int {
    (u: UsageRow) =>
      if MonthlyKeyOf(u).notificationType == Sms && MonthlyKeyOf(u).month == (year, month) then u.chargedUnits else 0
  }

  lemma MonthMeasures(year: int, month: int)
    ensures Measures(MonthlyKeyOf, ChargedInMonth(year, month), ChargedIn(year, month))
  {
    hide Sum, SumReal, MonthlyKeyOf;
    forall usage: seq<UsageRow>, k: MonthlyKey
      ensures ChargedInMonth(year, month)(RollUpGroup(usage, MonthlyKeyOf, k))
           == Sum(usage, Only(MonthlyKeyOf, ChargedIn(year, month), k))
    {
      if k.notificationType == Sms && k.month == (year, month) {
        SumEqual(usage, Only(MonthlyKeyOf, Charged, k), Only(MonthlyKeyOf, ChargedIn(year, month), k));
      } else {
        var none := Only(MonthlyKeyOf, ChargedIn(year, month), k);
        SumScaled(usage, none, none, 0);
      }
    }
  }

  lemma OtherTypesAreNotCharged(usage: seq<UsageRow>, t: NotificationType, year: int, month: int)
    requires OnlyType(usage, t) && t != Sms
    ensures Sum(RollUp(usage, MonthlyKeyOf), ChargedInMonth(year, month)) == 0
  {
    hide RollUp, RollUpGroup, Sum;
    RollUpByKey(usage, MonthlyKeyOf, t);
    SumScaled(RollUp(usage, MonthlyKeyOf), ChargedInMonth(year, month), ChargedInMonth(year, month), 0);
  }

  lemma MonthInUsage(usage: seq<UsageRow>, year: int, month: int)
    requires OnlyType(usage, Sms) && 1 <= month <= 12 && forall u | u in usage :: 1 <= u.bstDate
    ensures Sum(usage, ChargedIn(year, month))
         == Sum(usage, ChargedBetween(MonthStart(year, month), MonthStart(year, month + 1) - 1))
  {
    hide Sum, MonthOf, MonthStart;
    forall u | u in usage
      ensures ChargedIn(year, month)(u) == ChargedBetween(MonthStart(year, month), MonthStart(year, month + 1) - 1)(u)
    {
      MonthOfIs(u.bstDate, year, month);
    }
    SumEqual(usage, ChargedIn(year, month), ChargedBetween(MonthStart(year, month), MonthStart(year, month + 1) - 1));
  }

  /** What the monthly report charges for the texts of a month, over all rates: how far the units up to the end
      of the month exceed the allowance, less how far the units before it do; whatever the order in which the
      report visits the facts. */
  lemma MonthIsCharged(facts: seq<FtBillingRow>, v: Visit, limit: int, year: int, month: int)
    requires IsVisitOf(v, facts) && 1 <= month <= 12 && forall f | f in facts :: 1 <= f.key.bstDate
    ensures var texts, start, next := Filter(facts, OfType(Sms)), MonthStart(year, month), MonthStart(year, month + 1);
            Sum(FetchUsageForServiceByMonth(v, Some(limit)), ChargedInMonth(year, month))
            == Max(Sum(texts, UnitsUpTo(next - 1)) - Max(limit, 0), 0)
             - Max(Sum(texts, UnitsBefore(start)) - Max(limit, 0), 0)
  {
    hide Sum, RollUp, Filter, UsageForServiceSms, MonthStart, OnlyType, MonthlyKeyOf, ChargedInMonth, ChargedIn,
         Measures;
    var sms, email, letter :=
      UsageForServiceSms(v.sms, limit), MapSeq(v.email, EmailUsage), MapSeq(v.letter, LetterUsage);
    MonthlyGroupsAlike();
    UsageKeepsType(v, facts, Some(limit));
    UnionDropsNoGroup(sms, email, letter, MonthlyKeyOf);
    SumAppend(RollUp(sms, MonthlyKeyOf) + RollUp(email, MonthlyKeyOf), RollUp(letter, MonthlyKeyOf),
              ChargedInMonth(year, month));
    SumAppend(RollUp(sms, MonthlyKeyOf), RollUp(email, MonthlyKeyOf), ChargedInMonth(year, month));
    OtherTypesAreNotCharged(email, Email, year, month);
    OtherTypesAreNotCharged(letter, Letter, year, month);
    MonthMeasures(year, month);
    RollUpTotal(sms, MonthlyKeyOf, ChargedInMonth(year, month), ChargedIn(year, month));
    TextDatesAre(v.sms, facts, limit);
    MonthInUsage(sms, year, month);
    MonthLengths(year, month);
    ChargedInRange(v.sms, limit, MonthStart(year, month), MonthStart(year, month + 1) - 1);
    SumPermutation(v.sms, Filter(facts, OfType(Sms)), UnitsUpTo(MonthStart(year, month + 1) - 1));
    SumPermutation(v.sms, Filter(facts, OfType(Sms)), UnitsBefore(MonthStart(year, month)));
  }

  lemma TextDatesAre(scan: seq<FtBillingRow>, facts: seq<FtBillingRow>, limit: int)
    requires multiset(scan) == multiset(Filter(facts, OfType(Sms))) && forall f | f in facts :: 1 <= f.key.bstDate
    ensures forall u | u in UsageForServiceSms(scan, limit) :: 1 <= u.bstDate
  {
    hide Sum, Filter;
    VisitedAreOfType(scan, facts, Sms);
    TextsAreReported(scan, limit);
    forall u | u in UsageForServiceSms(scan, limit) ensures 1 <= u.bstDate {
      var i :| 0 <= i < |scan| && UsageForServiceSms(scan, limit)[i] == u;
      VisitedFacts(scan, facts, Sms, scan[i]);
      assert scan[i] in scan;
    }
  }
}
