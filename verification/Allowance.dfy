/** How the yearly free SMS allowance is spent, row by row, by the usage queries. */
module Allowance {
  import opened Collections
  import opened LondonTime
  import opened Schema

  // ---------------------------------------------------------------- the single-service query

  function Units(r: FtBillingRow): int { r.value.billableUnits * r.key.rateMultiplier }

  datatype UsageRow = UsageRow(
    bstDate: Date,
    postage: string,
    notificationsSent: nat,
    chargeableUnits: int,
    rate: real,
    notificationType: NotificationType,
    cost: real,
    freeAllowanceUsed: int,
    chargedUnits: int)

  function SmsUsage(r: FtBillingRow, limit: int, usedBefore: int): UsageRow {
    var remaining := Max(limit - usedBefore, 0);
    var charged := Max(Units(r) - remaining, 0);
    UsageRow(r.key.bstDate, r.key.postage, r.value.notificationsSent, Units(r), r.key.rate, r.key.notificationType,
             charged as real * r.key.rate, Min(remaining, Units(r)), charged)
  }

  /** _fetch_usage_for_service_sms over the service's SMS rows of the year, in the order in
      which the window function visits them. The window's frame ends before the current row. */
  function UsageForServiceSms(scan: seq<FtBillingRow>, limit: int): seq<UsageRow> {
    seq(|scan|, i requires 0 <= i < |scan| => SmsUsage(scan[i], limit, Sum(scan[..i], Units)))
  }

  /** The inner join with annual_billing: without an allowance row there is no usage row. */
  function FetchUsageForServiceSms(scan: seq<FtBillingRow>, allowance: Option<int>): seq<UsageRow> {
    match allowance
    case None => []
    case Some(limit) => UsageForServiceSms(scan, limit)
  }

  /** ORDER BY bst_date, with ties in any order. */
  ghost predicate SortedByDate(scan: seq<FtBillingRow>) {
    forall i, j | 0 <= i <= j < |scan| :: scan[i].key.bstDate <= scan[j].key.bstDate
  }

  /** Another order in which the window function may visit the same rows. */
  ghost predicate IsOrderingOf(scan: seq<FtBillingRow>, rows: seq<FtBillingRow>) {
    SortedByDate(scan) && multiset(scan) == multiset(rows)
  }

  function Charged(u: UsageRow): int { u.chargedUnits }

  function FreeUsed(u: UsageRow): int { u.freeAllowanceUsed }

  function Cost(u: UsageRow): real { u.cost }

  function UsageDate(u: UsageRow): Date { u.bstDate }

  function ChargedOn(date: Date): UsageRow -> int {
    (u: UsageRow) => if u.bstDate == date then u.chargedUnits else 0
  }

  function CostOn(date: Date): UsageRow -> real {
    (u: UsageRow) => if u.bstDate == date then u.cost else 0.0
  }

  function UnitsBefore(date: Date): FtBillingRow -> int {
    (r: FtBillingRow) => if r.key.bstDate < date then Units(r) else 0
  }

  function UnitsUpTo(date: Date): FtBillingRow -> int {
    (r: FtBillingRow) => if r.key.bstDate <= date then Units(r) else 0
  }

  function OnDate(date: Date): FtBillingRow -> bool {
    (r: FtBillingRow) => r.key.bstDate == date
  }

  lemma UnitsAreNonNegative(scan: seq<FtBillingRow>)
    ensures Sum(scan, Units) >= 0
  {
    SumNonNegative(scan, Units);
  }

  /** The usage of all rows but the last does not depend on the last. */
  lemma UsageOfSnoc(front: seq<FtBillingRow>, last: FtBillingRow, limit: int)
    ensures UsageForServiceSms(front + [last], limit)
         == UsageForServiceSms(front, limit) + [SmsUsage(last, limit, Sum(front, Units))]
    ensures Units(last) >= 0 && Sum(front, Units) >= 0
  {
    var scan := front + [last];
    assert forall i | 0 <= i <= |front| :: scan[..i] == front[..i];
    assert scan[..|front|] == front;
    UnitsAreNonNegative(front);
  }

  lemma UsageOfNothing(limit: int)
    ensures UsageForServiceSms([], limit) == []
  {
  }

  lemma SumOfNothing<T>(f: T -> int)
    ensures Sum([], f) == 0
  {
  }

  /** Allowance conservation: each row splits into a free and a charged part, and the year uses
      up the allowance before it charges anything, whatever the order of the rows. */
  lemma {:induction false} AllowanceConserved(scan: seq<FtBillingRow>, limit: int)
    ensures var usage := UsageForServiceSms(scan, limit);
            && (forall u | u in usage :: u.freeAllowanceUsed >= 0 && u.chargedUnits >= 0
                                      && u.freeAllowanceUsed + u.chargedUnits == u.chargeableUnits)
            && Sum(usage, Charged) == Max(Sum(scan, Units) - Max(limit, 0), 0)
            && Sum(usage, FreeUsed) == Min(Max(limit, 0), Sum(scan, Units))
  {
    hide UsageForServiceSms, Units, Sum;
    UsageOfNothing(limit);
    if scan == [] {
      SumOfNothing(Charged);
      SumOfNothing(FreeUsed);
      SumOfNothing(Units);
    } else {
      var front, last := scan[..|scan| - 1], scan[|scan| - 1];
      AllowanceConserved(front, limit);
      assert scan == front + [last];
      UsageOfSnoc(front, last, limit);
      var usage, u := UsageForServiceSms(front, limit), SmsUsage(last, limit, Sum(front, Units));
      SumSnoc(usage, u, Charged);
      SumSnoc(usage, u, FreeUsed);
      SumSnoc(front, last, Units);
    }
  }

  /** No row of a sorted scan is later than its last row. */
  lemma LastIsLatest(front: seq<FtBillingRow>, last: FtBillingRow)
    requires SortedByDate(front + [last])
    ensures SortedByDate(front) && forall r | r in front :: r.key.bstDate <= last.key.bstDate
  {
    var scan := front + [last];
    assert forall i | 0 <= i < |front| :: scan[i] == front[i];
    assert scan[|front|] == last;
  }

  /** Before the last row of a scan, all units lie up to its date. */
  lemma UnitsOfFront(front: seq<FtBillingRow>, last: FtBillingRow, date: Date)
    requires SortedByDate(front + [last])
    ensures last.key.bstDate <= date ==> Sum(front, UnitsUpTo(date)) == Sum(front, Units)
    ensures last.key.bstDate < date ==> Sum(front, UnitsBefore(date)) == Sum(front, Units)
  {
    hide Units, Sum, SortedByDate;
    LastIsLatest(front, last);
    if last.key.bstDate <= date {
      SumEqual(front, UnitsUpTo(date), Units);
    }
    if last.key.bstDate < date {
      SumEqual(front, UnitsBefore(date), Units);
    }
  }

  function ChargedBetween(start: Date, end: Date): UsageRow -> int {
    (u: UsageRow) => if start <= u.bstDate <= end then u.chargedUnits else 0
  }

  /** What a range of dates is charged: how far the units up to its end exceed the allowance, less
      how far the units before its start do. */
  lemma {:induction false} ChargedInRange(scan: seq<FtBillingRow>, limit: int, start: Date, end: Date)
    requires SortedByDate(scan) && start <= end
    ensures Sum(UsageForServiceSms(scan, limit), ChargedBetween(start, end))
         == Max(Sum(scan, UnitsUpTo(end)) - Max(limit, 0), 0) - Max(Sum(scan, UnitsBefore(start)) - Max(limit, 0), 0)
  {
    hide UsageForServiceSms, Units, Sum, SortedByDate;
    UsageOfNothing(limit);
    if scan == [] {
      SumOfNothing(ChargedBetween(start, end));
      SumOfNothing(UnitsUpTo(end));
      SumOfNothing(UnitsBefore(start));
    } else {
      var front, last := scan[..|scan| - 1], scan[|scan| - 1];
      assert scan == front + [last];
      LastIsLatest(front, last);
      ChargedInRange(front, limit, start, end);
      UsageOfSnoc(front, last, limit);
      SumSnoc(UsageForServiceSms(front, limit), SmsUsage(last, limit, Sum(front, Units)), ChargedBetween(start, end));
      SumSnoc(front, last, UnitsUpTo(end));
      SumSnoc(front, last, UnitsBefore(start));
      UnitsOfFront(front, last, start);
      UnitsOfFront(front, last, end);
    }
  }

  /** With units up to and before a date, what that date is charged. */
  lemma ChargedOnDate(scan: seq<FtBillingRow>, limit: int, date: Date)
    requires SortedByDate(scan)
    ensures Sum(UsageForServiceSms(scan, limit), ChargedOn(date))
         == Max(Sum(scan, UnitsUpTo(date)) - Max(limit, 0), 0) - Max(Sum(scan, UnitsBefore(date)) - Max(limit, 0), 0)
  {
    hide UsageForServiceSms, Units, Sum, SortedByDate;
    ChargedInRange(scan, limit, date, date);
    SumEqual(UsageForServiceSms(scan, limit), ChargedOn(date), ChargedBetween(date, date));
  }

  /** So the units charged on a date do not depend on how the ties of that date are ordered. */
  lemma ChargedOnDateIsDetermined(scan: seq<FtBillingRow>, other: seq<FtBillingRow>, limit: int, date: Date)
    requires SortedByDate(scan) && IsOrderingOf(other, scan)
    ensures Sum(UsageForServiceSms(scan, limit), ChargedOn(date))
         == Sum(UsageForServiceSms(other, limit), ChargedOn(date))
  {
    hide Units, UsageForServiceSms, Sum;
    ChargedOnDate(scan, limit, date);
    ChargedOnDate(other, limit, date);
    SumPermutation(scan, other, UnitsUpTo(date));
    SumPermutation(scan, other, UnitsBefore(date));
  }

  // ---------------------------------------------------------------- when the cost is determined

  /** What a run of rows costs when `allowance` units are left before it. */
  function CostOf(rows: seq<FtBillingRow>, allowance: int): real {
    SumReal(UsageForServiceSms(rows, allowance), Cost)
  }

  function CostOnDate(scan: seq<FtBillingRow>, limit: int, date: Date): real {
    SumReal(UsageForServiceSms(scan, limit), CostOn(date))
  }

  lemma {:induction false} CostAppend(s: seq<FtBillingRow>, t: seq<FtBillingRow>, allowance: int)
    ensures CostOf(s + t, allowance) == CostOf(s, allowance) + CostOf(t, Max(allowance - Sum(s, Units), 0))
  {
    hide Units, CostOf, SmsUsage;
    var left := Max(allowance - Sum(s, Units), 0);
    if t == [] {
      assert s + t == s;
      CostOfNothing(left);
    } else {
      var front, last := t[..|t| - 1], t[|t| - 1];
      assert t == front + [last] && s + t == s + front + [last];
      CostAppend(s, front, allowance);
      CostSnoc(s + front, last, allowance);
      CostSnoc(front, last, left);
      SumAppend(s, front, Units);
      UnitsAreNonNegative(s);
      UnitsAreNonNegative(front);
      CostDependsOnRemainder(last, allowance, Sum(s, Units) + Sum(front, Units), left, Sum(front, Units));
    }
  }

  /** The last row is charged with what the rows before it left of the allowance. */
  lemma CostSnoc(front: seq<FtBillingRow>, last: FtBillingRow, allowance: int)
    ensures CostOf(front + [last], allowance)
         == CostOf(front, allowance) + SmsUsage(last, allowance, Sum(front, Units)).cost
    ensures Units(last) >= 0 && Sum(front, Units) >= 0
  {
    hide UsageForServiceSms, Units, SmsUsage;
    UsageOfSnoc(front, last, allowance);
    SumRealSnoc(UsageForServiceSms(front, allowance), SmsUsage(last, allowance, Sum(front, Units)), Cost);
  }

  function BeforeDate(date: Date): FtBillingRow -> bool {
    (r: FtBillingRow) => r.key.bstDate < date
  }

  function AfterDate(date: Date): FtBillingRow -> bool {
    (r: FtBillingRow) => r.key.bstDate > date
  }

  /** The rows of a sorted scan come before, on and after a date, in this order. */
  lemma {:induction false} SplitByDate(scan: seq<FtBillingRow>, date: Date)
    requires SortedByDate(scan)
    ensures scan == Filter(scan, BeforeDate(date)) + Filter(scan, OnDate(date)) + Filter(scan, AfterDate(date))
  {
    hide SortedByDate, Filter;
    if scan == [] {
      FilterNone(scan, BeforeDate(date));
      FilterNone(scan, OnDate(date));
      FilterNone(scan, AfterDate(date));
    } else {
      var front, last := scan[..|scan| - 1], scan[|scan| - 1];
      assert scan == front + [last];
      LastIsLatest(front, last);
      SplitByDate(front, date);
      FilterSnoc(front, last, BeforeDate(date));
      FilterSnoc(front, last, OnDate(date));
      FilterSnoc(front, last, AfterDate(date));
      if last.key.bstDate <= date {
        FilterNone(front, AfterDate(date));
      }
      if last.key.bstDate < date {
        FilterNone(front, OnDate(date));
      }
    }
  }

  lemma {:induction false} UnitsByDate(scan: seq<FtBillingRow>, date: Date)
    ensures Sum(Filter(scan, BeforeDate(date)), Units) == Sum(scan, UnitsBefore(date))
    ensures Sum(scan, UnitsBefore(date)) + Sum(Filter(scan, OnDate(date)), Units) == Sum(scan, UnitsUpTo(date))
  {
    hide Units, Sum, Filter;
    if scan == [] {
      FilterNone(scan, BeforeDate(date));
      FilterNone(scan, OnDate(date));
      SumOfNothing(Units);
      SumOfNothing(UnitsBefore(date));
      SumOfNothing(UnitsUpTo(date));
    } else {
      var front, last := scan[..|scan| - 1], scan[|scan| - 1];
      assert scan == front + [last];
      UnitsByDate(front, date);
      FilterSnoc(front, last, BeforeDate(date));
      FilterSnoc(front, last, OnDate(date));
      SumSnoc(Filter(front, BeforeDate(date)), last, Units);
      SumSnoc(Filter(front, OnDate(date)), last, Units);
      SumSnoc(front, last, UnitsBefore(date));
      SumSnoc(front, last, UnitsUpTo(date));
    }
  }

  lemma CostOnDateSnoc(front: seq<FtBillingRow>, last: FtBillingRow, limit: int, date: Date)
    ensures CostOnDate(front + [last], limit, date)
         == CostOnDate(front, limit, date)
          + if last.key.bstDate == date then SmsUsage(last, limit, Sum(front, Units)).cost else 0.0
  {
    hide UsageForServiceSms, Units;
    UsageOfSnoc(front, last, limit);
    SumRealSnoc(UsageForServiceSms(front, limit), SmsUsage(last, limit, Sum(front, Units)), CostOn(date));
  }

  /** A row's cost depends on the allowance only through what remains of it. */
  lemma CostDependsOnRemainder(r: FtBillingRow, limit: int, used: int, limit': int, used': int)
    requires Max(limit - used, 0) == Max(limit' - used', 0)
    ensures SmsUsage(r, limit, used).cost == SmsUsage(r, limit', used').cost
  {
  }

  /** The cost of a date is the cost of its rows alone, from the allowance that is left. */
  lemma {:induction false} CostOnDateIsCostOfDay(scan: seq<FtBillingRow>, limit: int, date: Date)
    requires SortedByDate(scan)
    ensures CostOnDate(scan, limit, date)
         == CostOf(Filter(scan, OnDate(date)), Max(limit - Sum(scan, UnitsBefore(date)), 0))
  {
    hide UsageForServiceSms, Units, CostOf, SmsUsage;
    if scan == [] {
      CostOnDateOfNothing(limit, date);
      CostOfNothing(Max(limit, 0));
    } else {
      var front, last := scan[..|scan| - 1], scan[|scan| - 1];
      assert scan == front + [last];
      CostOnDateIsCostOfDay(front, limit, date);
      CostOnDateSnoc(front, last, limit, date);
      if last.key.bstDate < date {
        FilterNone(scan, OnDate(date));
        FilterNone(front, OnDate(date));
        CostOfNothing(Max(limit - Sum(scan, UnitsBefore(date)), 0));
        CostOfNothing(Max(limit - Sum(front, UnitsBefore(date)), 0));
      } else if last.key.bstDate == date {
        var day, left := Filter(front, OnDate(date)), Max(limit - Sum(front, UnitsBefore(date)), 0);
        UnitsByDate(front, date);
        SumEqual(front, UnitsUpTo(date), Units);
        CostSnoc(day, last, left);
        CostDependsOnRemainder(last, limit, Sum(front, Units), left, Sum(day, Units));
      }
    }
  }

  lemma CostOnDateOfNothing(limit: int, date: Date)
    ensures CostOnDate([], limit, date) == 0.0
  {
  }

  lemma CostOfNothing(allowance: int)
    ensures CostOf([], allowance) == 0.0
  {
  }

  /** Two rows with units at different rates. */
  ghost predicate HasTwoRates(rows: seq<FtBillingRow>) {
    exists x, y :: x in rows && y in rows && Units(x) > 0 && Units(y) > 0 && x.key.rate != y.key.rate
  }

  /** The condition under which the cost of a date cannot depend on the order of its rows: they
      have one rate, or the allowance does not run out strictly within the date. */
  ghost predicate CostIsDetermined(rows: seq<FtBillingRow>, limit: int, date: Date) {
    || !HasTwoRates(Filter(rows, OnDate(date)))
    || Max(limit, 0) <= Sum(rows, UnitsBefore(date))
    || Sum(rows, UnitsUpTo(date)) <= Max(limit, 0)
  }

  function FullCost(r: FtBillingRow): real { Units(r) as real * r.key.rate }

  /** With no allowance left, every unit is charged at its own rate. */
  lemma {:induction false} CostWithoutAllowance(rows: seq<FtBillingRow>)
    ensures CostOf(rows, 0) == SumReal(rows, FullCost)
  {
    if rows == [] {
    } else {
      var front, last := rows[..|rows| - 1], rows[|rows| - 1];
      assert rows == front + [last];
      CostWithoutAllowance(front);
      CostSnoc(front, last, 0);
    }
  }

  /** With enough allowance left, nothing is charged. */
  lemma {:induction false} CostWithinAllowance(rows: seq<FtBillingRow>, allowance: int)
    requires Sum(rows, Units) <= allowance
    ensures CostOf(rows, allowance) == 0.0
  {
    hide Units, CostOf;
    CostOfNothing(allowance);
    if rows == [] {
    } else {
      var front, last := rows[..|rows| - 1], rows[|rows| - 1];
      assert rows == front + [last];
      CostSnoc(front, last, allowance);
      CostWithinAllowance(front, allowance);
    }
  }

  /** With one rate, the cost is that rate times the units charged. */
  lemma {:induction false} CostAtOneRate(rows: seq<FtBillingRow>, allowance: int, rate: real)
    requires forall r | r in rows && Units(r) > 0 :: r.key.rate == rate
    ensures CostOf(rows, allowance) == Sum(UsageForServiceSms(rows, allowance), Charged) as real * rate
  {
    hide Units, CostOf, UsageForServiceSms, SmsUsage, Sum;
    CostOfNothing(allowance);
    UsageOfNothing(allowance);
    if rows == [] {
      SumOfNothing(Charged);
    } else {
      var front, last := rows[..|rows| - 1], rows[|rows| - 1];
      assert rows == front + [last] && last in rows;
      CostAtOneRate(front, allowance, rate);
      CostSnoc(front, last, allowance);
      UsageOfSnoc(front, last, allowance);
      var u := SmsUsage(last, allowance, Sum(front, Units));
      RowAtOneRate(last, allowance, Sum(front, Units), rate);
      SumSnoc(UsageForServiceSms(front, allowance), u, Charged);
      Distribute(Sum(UsageForServiceSms(front, allowance), Charged), u.chargedUnits, rate);
    }
  }

  lemma RowAtOneRate(r: FtBillingRow, allowance: int, used: int, rate: real)
    requires Units(r) > 0 ==> r.key.rate == rate
    ensures SmsUsage(r, allowance, used).cost == SmsUsage(r, allowance, used).chargedUnits as real * rate
  {
    hide Units;
    if Units(r) <= 0 {
      assert SmsUsage(r, allowance, used).chargedUnits == 0;
    }
  }

  lemma Distribute(a: int, b: int, rate: real)
    ensures (a + b) as real * rate == a as real * rate + b as real * rate
  {
    assert (a + b) as real == a as real + b as real;
  }

  /** The cost of the rows of a day is the same in every order if the condition holds. */
  lemma DayCostIsDetermined(p: seq<FtBillingRow>, q: seq<FtBillingRow>, allowance: int)
    requires multiset(p) == multiset(q) && allowance >= 0
    requires !HasTwoRates(p) || allowance == 0 || Sum(p, Units) <= allowance
    ensures CostOf(p, allowance) == CostOf(q, allowance)
  {
    hide Units, CostOf, UsageForServiceSms, Sum;
    SumPermutation(p, q, Units);
    if allowance == 0 {
      CostWithoutAllowance(p);
      CostWithoutAllowance(q);
      SumRealPermutation(p, q, FullCost);
    } else if Sum(p, Units) <= allowance {
      CostWithinAllowance(p, allowance);
      CostWithinAllowance(q, allowance);
    } else {
      var rate := if exists x :: x in p && Units(x) > 0 then (var x :| x in p && Units(x) > 0; x.key.rate) else 0.0;
      forall r | r in q ensures r in p {
        assert r in multiset(q);
      }
      CostAtOneRate(p, allowance, rate);
      CostAtOneRate(q, allowance, rate);
      AllowanceConserved(p, allowance);
      AllowanceConserved(q, allowance);
    }
  }

  /** Swapping two rows at different rates changes the cost when the allowance runs out
      between them. */
  lemma SwapChangesCost(x: FtBillingRow, y: FtBillingRow, allowance: int)
    requires Units(x) > 0 && Units(y) > 0 && x.key.rate != y.key.rate
    requires 0 < allowance < Units(x) + Units(y)
    ensures CostOf([x, y], allowance) != CostOf([y, x], allowance)
  {
    CostOfPair(x, y, allowance);
    CostOfPair(y, x, allowance);
    var a, b := x.key.rate, y.key.rate;
    var first, second := Max(Units(x) - allowance, 0), Max(Units(x) - Max(allowance - Units(y), 0), 0);
    var total := Units(x) + Units(y) - allowance;
    assert first < second;
    assert CostOf([x, y], allowance) == first as real * a + (total - first) as real * b;
    assert CostOf([y, x], allowance) == second as real * a + (total - second) as real * b;
    PairCostsDiffer(first, second, total, a, b);
  }

  lemma CostOfPair(x: FtBillingRow, y: FtBillingRow, allowance: int)
    requires allowance >= 0
    ensures CostOf([x, y], allowance)
         == Max(Units(x) - allowance, 0) as real * x.key.rate
          + Max(Units(y) - Max(allowance - Units(x), 0), 0) as real * y.key.rate
  {
    CostOfOne(x, allowance);
    CostOfOne(y, Max(allowance - Units(x), 0));
    assert [x, y] == [x] + [y];
    SumOfOne(x);
    CostAppend([x], [y], allowance);
  }

  lemma CostOfOne(x: FtBillingRow, allowance: int)
    requires allowance >= 0
    ensures CostOf([x], allowance) == Max(Units(x) - allowance, 0) as real * x.key.rate
  {
    assert [] + [x] == [x];
    CostOfNothing(allowance);
    CostSnoc([], x, allowance);
  }

  lemma SumOfOne(x: FtBillingRow)
    ensures Sum([x], Units) == Units(x)
  {
    assert [x][..0] == [];
  }

  lemma PairCostsDiffer(first: int, second: int, total: int, a: real, b: real)
    requires first < second && a != b
    ensures first as real * a + (total - first) as real * b != second as real * a + (total - second) as real * b
  {
    var d := (second - first) as real;
    assert d > 0.0;
    assert d * (a - b) != 0.0;
    Distribute(first, second - first, a);
    Distribute(total - second, second - first, b);
  }

  lemma CostOfThree(before: seq<FtBillingRow>, day: seq<FtBillingRow>, after: seq<FtBillingRow>, limit: int)
    ensures CostOf(before + day + after, limit)
         == CostOf(before, limit) + CostOf(day, Max(limit - Sum(before, Units), 0))
          + CostOf(after, Max(limit - Sum(before, Units) - Sum(day, Units), 0))
  {
    hide Units, CostOf, Sum;
    CostAppend(before + day, after, limit);
    CostAppend(before, day, limit);
    SumAppend(before, day, Units);
  }

  /** Rows around two orders of the same rows keep their costs apart. */
  lemma BetweenRows(before: seq<FtBillingRow>, p: seq<FtBillingRow>, q: seq<FtBillingRow>, after: seq<FtBillingRow>,
                    allowance: int)
    requires multiset(p) == multiset(q)
    requires CostOf(p, Max(allowance - Sum(before, Units), 0)) != CostOf(q, Max(allowance - Sum(before, Units), 0))
    ensures CostOf(before + p + after, allowance) != CostOf(before + q + after, allowance)
  {
    hide Units, CostOf, Sum;
    SumPermutation(p, q, Units);
    CostOfThree(before, p, after, allowance);
    CostOfThree(before, q, after, allowance);
  }

  /** Two orders of x, y and the others, with different costs. */
  ghost predicate Disagree(p: seq<FtBillingRow>, q: seq<FtBillingRow>, x: FtBillingRow, y: FtBillingRow,
                           others: seq<FtBillingRow>, allowance: int) {
    && multiset(p) == multiset{x, y} + multiset(others) == multiset(q)
    && CostOf(p, allowance) != CostOf(q, allowance)
  }

  lemma PutFirst(z: FtBillingRow, p: seq<FtBillingRow>, q: seq<FtBillingRow>, x: FtBillingRow, y: FtBillingRow,
                 rest: seq<FtBillingRow>, allowance: int)
    requires Units(z) < allowance && Disagree(p, q, x, y, rest, allowance - Units(z))
    ensures Disagree([z] + p, [z] + q, x, y, rest + [z], allowance)
  {
    hide Units, CostOf, Sum;
    SumOfOne(z);
    BetweenRows([z], p, q, [], allowance);
    assert [z] + p + [] == [z] + p && [z] + q + [] == [z] + q;
  }

  lemma PutLast(z: FtBillingRow, p: seq<FtBillingRow>, q: seq<FtBillingRow>, x: FtBillingRow, y: FtBillingRow,
                rest: seq<FtBillingRow>, allowance: int)
    requires allowance >= 0 && Disagree(p, q, x, y, rest, allowance)
    ensures Disagree(p + [z], q + [z], x, y, rest + [z], allowance)
  {
    hide Units, CostOf;
    BetweenRows([], p, q, [z], allowance);
    assert [] + p + [z] == p + [z] && [] + q + [z] == q + [z];
  }

  lemma PutPairFirst(x: FtBillingRow, y: FtBillingRow, z: FtBillingRow, rest: seq<FtBillingRow>, allowance: int)
    requires Units(x) > 0 && Units(z) > 0 && x.key.rate != z.key.rate
    requires 0 < allowance < Units(x) + Units(z)
    ensures Disagree([x, z] + ([y] + rest), [z, x] + ([y] + rest), x, y, rest + [z], allowance)
  {
    hide Units, CostOf;
    SwapChangesCost(x, z, allowance);
    BetweenRows([], [x, z], [z, x], [y] + rest, allowance);
    assert [] + [x, z] + ([y] + rest) == [x, z] + ([y] + rest);
    assert [] + [z, x] + ([y] + rest) == [z, x] + ([y] + rest);
  }

  /** If the allowance runs out strictly within rows that hold two rates, two orders of the
      rows have different costs. */
  lemma {:induction false} OrdersWithDifferentCosts(x: FtBillingRow, y: FtBillingRow, others: seq<FtBillingRow>,
                                                    allowance: int)
      returns (p: seq<FtBillingRow>, q: seq<FtBillingRow>)
    requires Units(x) > 0 && Units(y) > 0 && x.key.rate != y.key.rate
    requires 0 < allowance < Units(x) + Units(y) + Sum(others, Units)
    ensures Disagree(p, q, x, y, others, allowance)
    decreases |others|
  {
    hide Units, CostOf, Disagree, Sum;
    if others == [] {
      p, q := OrdersOfTwo(x, y, allowance);
    } else {
      var rest, z := others[..|others| - 1], others[|others| - 1];
      assert others == rest + [z];
      SumSnoc(rest, z, Units);
      UnitsAreNonNegative(rest);
      if Units(z) < allowance {
        p, q := OrdersWithDifferentCosts(x, y, rest, allowance - Units(z));
        PutFirst(z, p, q, x, y, rest, allowance);
        p, q := [z] + p, [z] + q;
      } else if allowance < Units(x) + Units(y) + Sum(rest, Units) {
        p, q := OrdersWithDifferentCosts(x, y, rest, allowance);
        PutLast(z, p, q, x, y, rest, allowance);
        p, q := p + [z], q + [z];
      } else if x.key.rate != z.key.rate {
        PutPairFirst(x, y, z, rest, allowance);
        p, q := [x, z] + ([y] + rest), [z, x] + ([y] + rest);
      } else {
        PutPairFirst(y, x, z, rest, allowance);
        p, q := [y, z] + ([x] + rest), [z, y] + ([x] + rest);
        DisagreeSymmetric(p, q, x, y, others, allowance);
      }
    }
  }

  lemma DisagreeSymmetric(p: seq<FtBillingRow>, q: seq<FtBillingRow>, x: FtBillingRow, y: FtBillingRow,
                          others: seq<FtBillingRow>, allowance: int)
    requires Disagree(p, q, y, x, others, allowance)
    ensures Disagree(p, q, x, y, others, allowance)
  {
    hide CostOf;
  }

  lemma OrdersOfTwo(x: FtBillingRow, y: FtBillingRow, allowance: int)
      returns (p: seq<FtBillingRow>, q: seq<FtBillingRow>)
    requires Units(x) > 0 && Units(y) > 0 && x.key.rate != y.key.rate
    requires 0 < allowance < Units(x) + Units(y) + Sum([], Units)
    ensures Disagree(p, q, x, y, [], allowance)
  {
    hide Units, CostOf;
    p, q := [x, y], [y, x];
    SwapChangesCost(x, y, allowance);
  }

  lemma TakeOneOut(rows: seq<FtBillingRow>, x: FtBillingRow) returns (others: seq<FtBillingRow>)
    requires x in rows
    ensures multiset(rows) == multiset{x} + multiset(others)
    ensures Sum(rows, Units) == Units(x) + Sum(others, Units)
  {
    hide Units, Sum;
    var i :| 0 <= i < |rows| && rows[i] == x;
    others := rows[..i] + rows[i + 1..];
    SplitAt(rows, i);
    SumPermutation(rows, others + [x], Units);
    SumSnoc(others, x, Units);
  }

  lemma TakeTwoOut(rows: seq<FtBillingRow>, x: FtBillingRow, y: FtBillingRow) returns (others: seq<FtBillingRow>)
    requires x in rows && y in rows && x != y
    ensures multiset(rows) == multiset{x, y} + multiset(others)
    ensures Sum(rows, Units) == Units(x) + Units(y) + Sum(others, Units)
  {
    hide Units, Sum;
    var without := TakeOneOut(rows, x);
    assert y in multiset(rows);
    assert y in multiset(without);
    others := TakeOneOut(without, y);
  }

  /** The cost charged on a date is the same in every order of the rows, under the condition. */
  lemma CostOnDateIsDetermined(scan: seq<FtBillingRow>, other: seq<FtBillingRow>, limit: int, date: Date)
    requires SortedByDate(scan) && IsOrderingOf(other, scan) && CostIsDetermined(scan, limit, date)
    ensures CostOnDate(scan, limit, date) == CostOnDate(other, limit, date)
  {
    hide Units, CostOf, CostOnDate, Sum, Filter, UsageForServiceSms;
    CostOnDateIsCostOfDay(scan, limit, date);
    CostOnDateIsCostOfDay(other, limit, date);
    SumPermutation(scan, other, UnitsBefore(date));
    FilterPermutation(scan, other, OnDate(date));
    UnitsByDate(scan, date);
    UnitsAreNonNegative(Filter(scan, BeforeDate(date)));
    DayCostIsDetermined(Filter(scan, OnDate(date)), Filter(other, OnDate(date)),
                        Max(limit - Sum(scan, UnitsBefore(date)), 0));
  }

  /** The cost of the rows whose date is in a set of dates. */
  function CostIn(inside: Date -> bool): UsageRow -> real {
    (u: UsageRow) => if inside(u.bstDate) then u.cost else 0.0
  }

  lemma {:induction false} GroupedCostsAgree(scan: seq<FtBillingRow>, other: seq<FtBillingRow>, limit: int,
                                             inside: Date -> bool, dates: seq<Date>)
    requires forall date | date in dates && inside(date) ::
        CostOnDate(scan, limit, date) == CostOnDate(other, limit, date)
    ensures GroupTotalReal(UsageForServiceSms(scan, limit), UsageDate, CostIn(inside), dates)
         == GroupTotalReal(UsageForServiceSms(other, limit), UsageDate, CostIn(inside), dates)
  {
    hide UsageForServiceSms;
    if dates == [] {
    } else {
      GroupedCostsAgree(scan, other, limit, inside, dates[..|dates| - 1]);
      var date := dates[|dates| - 1];
      assert date in dates;
      CostOnDateAsGroup(UsageForServiceSms(scan, limit), inside, date);
      CostOnDateAsGroup(UsageForServiceSms(other, limit), inside, date);
    }
  }

  lemma {:induction false} CostOnDateAsGroup(usage: seq<UsageRow>, inside: Date -> bool, date: Date)
    ensures SumReal(usage, OnlyReal(UsageDate, CostIn(inside), date))
         == if inside(date) then SumReal(usage, CostOn(date)) else 0.0
  {
    if usage == [] {
    } else {
      CostOnDateAsGroup(usage[..|usage| - 1], inside, date);
    }
  }

  /** Two orders whose dates cost the same have the same cost in a set of dates. */
  lemma RegionCostsAgree(scan: seq<FtBillingRow>, other: seq<FtBillingRow>, limit: int, inside: Date -> bool)
    requires multiset(scan) == multiset(other)
    requires forall date | inside(date) :: CostOnDate(scan, limit, date) == CostOnDate(other, limit, date)
    ensures SumReal(UsageForServiceSms(scan, limit), CostIn(inside))
         == SumReal(UsageForServiceSms(other, limit), CostIn(inside))
  {
    hide CostOnDate, SumReal, GroupTotalReal;
    var all := MapSeq(scan, (r: FtBillingRow) => r.key.bstDate);
    var dates := Distinct(all);
    forall r | r in scan ensures r.key.bstDate in dates {
      var i :| 0 <= i < |scan| && scan[i] == r;
      assert all[i] == r.key.bstDate;
    }
    forall r | r in other ensures r in scan {
      assert r in multiset(other);
    }
    GroupedCostsAgree(scan, other, limit, inside, dates);
    UsageDatesAre(scan, limit, dates);
    UsageDatesAre(other, limit, dates);
    GroupTotalRealConserved(UsageForServiceSms(scan, limit), UsageDate, CostIn(inside), dates);
    GroupTotalRealConserved(UsageForServiceSms(other, limit), UsageDate, CostIn(inside), dates);
  }

  lemma UsageDatesAre(scan: seq<FtBillingRow>, limit: int, dates: seq<Date>)
    requires forall r | r in scan :: r.key.bstDate in dates
    ensures forall u | u in UsageForServiceSms(scan, limit) :: UsageDate(u) in dates
  {
    var usage := UsageForServiceSms(scan, limit);
    forall u | u in usage ensures UsageDate(u) in dates {
      var i :| 0 <= i < |usage| && usage[i] == u;
      assert scan[i] in scan;
    }
  }

  /** The cost of the dates of a range, and of the other dates. */
  function Between(start: Date, end: Date): Date -> bool { (date: Date) => start <= date <= end }

  function Outside(start: Date, end: Date): Date -> bool { (date: Date) => !(start <= date <= end) }

  function CostOfRange(scan: seq<FtBillingRow>, limit: int, start: Date, end: Date): real {
    SumReal(UsageForServiceSms(scan, limit), CostIn(Between(start, end)))
  }

  lemma {:induction false} RangeAndRest(usage: seq<UsageRow>, start: Date, end: Date)
    ensures SumReal(usage, CostIn(Between(start, end))) + SumReal(usage, CostIn(Outside(start, end)))
         == SumReal(usage, Cost)
  {
    if usage == [] {
    } else {
      RangeAndRest(usage[..|usage| - 1], start, end);
    }
  }

  /** Where the condition fails, two orders of the date's rows give the year different costs, and
      all other dates the same. */
  lemma UndeterminedDate(scan: seq<FtBillingRow>, limit: int, date: Date)
      returns (p: seq<FtBillingRow>, q: seq<FtBillingRow>)
    requires SortedByDate(scan) && !CostIsDetermined(scan, limit, date)
    ensures IsOrderingOf(p, scan) && IsOrderingOf(q, scan)
    ensures CostOf(p, limit) != CostOf(q, limit)
    ensures forall other | other != date :: CostOnDate(p, limit, other) == CostOnDate(q, limit, other)
  {
    hide Units, CostOf, Sum, Filter, UsageForServiceSms, CostOnDate;
    var before := Filter(scan, BeforeDate(date));
    var day := Filter(scan, OnDate(date));
    var after := Filter(scan, AfterDate(date));
    SplitByDate(scan, date);
    UnitsByDate(scan, date);
    UnitsAreNonNegative(before);
    var x, y :| x in day && y in day && Units(x) > 0 && Units(y) > 0 && x.key.rate != y.key.rate;
    var others := TakeTwoOut(day, x, y);
    var left := Max(limit - Sum(before, Units), 0);
    var pd, qd := OrdersWithDifferentCosts(x, y, others, left);
    p, q := before + pd + after, before + qd + after;
    ReorderDay(scan, date, pd);
    ReorderDay(scan, date, qd);
    BetweenRows(before, pd, qd, after, limit);
    DayRowsAreOnDate(scan, date, pd);
    DayRowsAreOnDate(scan, date, qd);
    forall other | other != date ensures CostOnDate(p, limit, other) == CostOnDate(q, limit, other) {
      OtherDatesAgree(before, pd, qd, after, limit, date, other);
    }
  }

  lemma DayRowsAreOnDate(scan: seq<FtBillingRow>, date: Date, day: seq<FtBillingRow>)
    requires multiset(day) == multiset(Filter(scan, OnDate(date)))
    ensures forall r | r in day :: r.key.bstDate == date
  {
    hide Filter;
    forall r | r in day ensures r.key.bstDate == date {
      assert r in multiset(day);
      FilterContains(scan, OnDate(date), r);
    }
  }

  /** The order of one date's rows has no effect on another date. */
  lemma OtherDatesAgree(before: seq<FtBillingRow>, p: seq<FtBillingRow>, q: seq<FtBillingRow>, after: seq<FtBillingRow>,
                        limit: int, date: Date, other: Date)
    requires SortedByDate(before + p + after) && SortedByDate(before + q + after) && multiset(p) == multiset(q)
    requires (forall r | r in p :: r.key.bstDate == date) && (forall r | r in q :: r.key.bstDate == date)
          && other != date
    ensures CostOnDate(before + p + after, limit, other) == CostOnDate(before + q + after, limit, other)
  {
    hide Units, CostOf, CostOnDate, Sum, Filter, UsageForServiceSms, SortedByDate;
    CostOnDateIsCostOfDay(before + p + after, limit, other);
    CostOnDateIsCostOfDay(before + q + after, limit, other);
    assert multiset(before + p + after) == multiset(before + q + after);
    SumPermutation(before + p + after, before + q + after, UnitsBefore(other));
    FilterAppend(before + p, after, OnDate(other));
    FilterAppend(before, p, OnDate(other));
    FilterAppend(before + q, after, OnDate(other));
    FilterAppend(before, q, OnDate(other));
    FilterNone(p, OnDate(other));
    FilterNone(q, OnDate(other));
  }

  lemma ReorderDay(scan: seq<FtBillingRow>, date: Date, day: seq<FtBillingRow>)
    requires SortedByDate(scan) && multiset(day) == multiset(Filter(scan, OnDate(date)))
    ensures IsOrderingOf(Filter(scan, BeforeDate(date)) + day
                       + Filter(scan, AfterDate(date)), scan)
  {
    SplitByDate(scan, date);
    var before := Filter(scan, BeforeDate(date));
    var after := Filter(scan, AfterDate(date));
    var d := Filter(scan, OnDate(date));
    assert before == scan[..|before|];
    assert after == scan[|before| + |d|..];
    forall r | r in before ensures r.key.bstDate < date { FilterContains(scan, BeforeDate(date), r); }
    forall r | r in after ensures r.key.bstDate > date { FilterContains(scan, AfterDate(date), r); }
    DayRowsAreOnDate(scan, date, day);
    SortedConcat(before, day, after, date);
  }

  lemma SortedConcat(before: seq<FtBillingRow>, day: seq<FtBillingRow>, after: seq<FtBillingRow>, date: Date)
    requires SortedByDate(before) && SortedByDate(after)
    requires forall r | r in before :: r.key.bstDate < date
    requires forall r | r in day :: r.key.bstDate == date
    requires forall r | r in after :: r.key.bstDate > date
    ensures SortedByDate(before + day + after)
  {
  }

  /** The assumption that the query documents, made exact, for any range of dates. The cost of the
      range is the same in every order that the database may choose if and only if no date of
      the range on which the allowance runs out strictly within the date holds rows at two
      rates. */
  lemma RangeCostIsDetermined(scan: seq<FtBillingRow>, limit: int, start: Date, end: Date)
    requires SortedByDate(scan)
    ensures (forall other | IsOrderingOf(other, scan) ::
               CostOfRange(other, limit, start, end) == CostOfRange(scan, limit, start, end))
       <==> (forall date | start <= date <= end :: CostIsDetermined(scan, limit, date))
  {
    hide CostIsDetermined, SortedByDate, UsageForServiceSms, CostOnDate;
    if forall date | start <= date <= end :: CostIsDetermined(scan, limit, date) {
      forall other | IsOrderingOf(other, scan)
        ensures CostOfRange(other, limit, start, end) == CostOfRange(scan, limit, start, end)
      {
        forall date | Between(start, end)(date)
          ensures CostOnDate(scan, limit, date) == CostOnDate(other, limit, date)
        {
          CostOnDateIsDetermined(scan, other, limit, date);
        }
        RegionCostsAgree(scan, other, limit, Between(start, end));
      }
    } else {
      var date :| start <= date <= end && !CostIsDetermined(scan, limit, date);
      var p, q := UndeterminedDate(scan, limit, date);
      RegionCostsAgree(p, q, limit, Outside(start, end));
      RangeAndRest(UsageForServiceSms(p, limit), start, end);
      RangeAndRest(UsageForServiceSms(q, limit), start, end);
      assert CostOfRange(p, limit, start, end) != CostOfRange(q, limit, start, end);
      assert IsOrderingOf(p, scan) && IsOrderingOf(q, scan);
    }
  }

  /** The same for the whole year. */
  lemma YearCostIsDetermined(scan: seq<FtBillingRow>, limit: int)
    requires SortedByDate(scan)
    ensures (forall other | IsOrderingOf(other, scan) :: CostOf(other, limit) == CostOf(scan, limit))
       <==> (forall date :: CostIsDetermined(scan, limit, date))
  {
    hide CostIsDetermined, SortedByDate, UsageForServiceSms, CostOnDate;
    if forall date :: CostIsDetermined(scan, limit, date) {
      forall other | IsOrderingOf(other, scan) ensures CostOf(other, limit) == CostOf(scan, limit) {
        var all := (date: Date) => true;
        forall date ensures CostOnDate(scan, limit, date) == CostOnDate(other, limit, date) {
          CostOnDateIsDetermined(scan, other, limit, date);
        }
        RegionCostsAgree(scan, other, limit, all);
        SumRealEqual(UsageForServiceSms(scan, limit), CostIn(all), Cost);
        SumRealEqual(UsageForServiceSms(other, limit), CostIn(all), Cost);
      }
    } else {
      var date :| !CostIsDetermined(scan, limit, date);
      var p, q := UndeterminedDate(scan, limit, date);
      assert IsOrderingOf(p, scan) && IsOrderingOf(q, scan);
    }
  }
}
