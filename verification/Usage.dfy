/** The usage reports built on ft_billing: the all-services query, and the annual and monthly
    roll-ups of one service. */
module Usage {
  import opened Collections
  import opened LondonTime
  import opened Schema
  import opened Allowance

  // ---------------------------------------------------------------- all services at once

  datatype AllServicesRow = AllServicesRow(
    serviceId: ServiceId,
    bstDate: Date,
    freeAllowance: Option<int>,
    freeAllowanceLeft: int,
    chargeableUnits: int,
    cost: real,
    chargedUnits: int)

  function AllServicesSmsRow(r: FtBillingRow, allowance: Option<int>, usedBefore: int): AllServicesRow {
    // GREATEST ignores NULL, so a service without an allowance row has nothing remaining.
    var remaining := match allowance
                     case Some(limit) => Max(limit - usedBefore, 0)
                     case None => 0;
    var charged := Max(Units(r) - remaining, 0);
    AllServicesRow(r.key.serviceId, r.key.bstDate, allowance, Max(remaining - Units(r), 0), Units(r),
                   charged as real * r.key.rate, charged)
  }

  function UnitsOfService(s: ServiceId): FtBillingRow -> int {
    (r: FtBillingRow) => if r.key.serviceId == s then Units(r) else 0
  }

  function OfService(s: ServiceId): FtBillingRow -> bool {
    (r: FtBillingRow) => r.key.serviceId == s
  }

  function AllowanceOf(allowances: map<ServiceId, int>, s: ServiceId): Option<int> {
    if s in allowances then Some(allowances[s]) else None
  }

  /** _fetch_usage_for_all_services_sms_query over the SMS rows of the year of every service.
      The window is partitioned by service. */
  function AllServicesSms(scan: seq<FtBillingRow>, allowances: map<ServiceId, int>): seq<AllServicesRow> {
    seq(|scan|, i requires 0 <= i < |scan| =>
      var s := scan[i].key.serviceId;
      AllServicesSmsRow(scan[i], AllowanceOf(allowances, s), Sum(scan[..i], UnitsOfService(s))))
  }

  function RowOfService(s: ServiceId): AllServicesRow -> bool {
    (row: AllServicesRow) => row.serviceId == s
  }

  function InRange(start: Date, end: Date): AllServicesRow -> bool {
    (row: AllServicesRow) => start <= row.bstDate <= end
  }

  function ServiceRowInRange(s: ServiceId, start: Date, end: Date): AllServicesRow -> bool {
    (row: AllServicesRow) => row.serviceId == s && start <= row.bstDate <= end
  }

  datatype ServiceUsage = ServiceUsage(
    freeAllowance: Option<int>,
    freeAllowanceLeft: int,
    chargeableUnits: int,
    chargedUnits: int,
    cost: real)

  /** max over the rows of a group, ignoring NULL. */
  function MaxFreeAllowance(rows: seq<AllServicesRow>): Option<int> {
    if rows == [] then None
    else
      match (MaxFreeAllowance(rows[..|rows| - 1]), rows[|rows| - 1].freeAllowance)
      case (Some(a), Some(b)) => Some(Max(a, b))
      case (None, b) => b
      case (a, None) => a
  }

  function MinAllowanceLeft(rows: seq<AllServicesRow>): int
    requires rows != []
  {
    if |rows| == 1 then rows[0].freeAllowanceLeft
    else Min(MinAllowanceLeft(rows[..|rows| - 1]), rows[|rows| - 1].freeAllowanceLeft)
  }

  function ChargeableOf(row: AllServicesRow): int { row.chargeableUnits }

  function ChargedOf(row: AllServicesRow): int { row.chargedUnits }

  function CostOfRow(row: AllServicesRow): real { row.cost }

  /** fetch_usage_for_all_services_sms: the group of one service, if any of its rows is in range. */
  function FetchUsageForAllServicesSms(
      scan: seq<FtBillingRow>, allowances: map<ServiceId, int>, s: ServiceId, start: Date, end: Date)
    : Option<ServiceUsage>
  {
    var rows := Filter(AllServicesSms(scan, allowances), ServiceRowInRange(s, start, end));
    if rows == [] then None
    else Some(ServiceUsage(MaxFreeAllowance(rows), MinAllowanceLeft(rows), Sum(rows, ChargeableOf),
                           Sum(rows, ChargedOf), SumReal(rows, CostOfRow)))
  }

  /** The rows of one service, as if it were alone in the query. */
  function RowsOfService(mine: seq<FtBillingRow>, allowance: Option<int>): seq<AllServicesRow> {
    seq(|mine|, i requires 0 <= i < |mine| => AllServicesSmsRow(mine[i], allowance, Sum(mine[..i], Units)))
  }

  lemma RowsOfServiceSnoc(front: seq<FtBillingRow>, last: FtBillingRow, allowance: Option<int>)
    ensures RowsOfService(front + [last], allowance)
         == RowsOfService(front, allowance) + [AllServicesSmsRow(last, allowance, Sum(front, Units))]
  {
    var scan := front + [last];
    assert forall i | 0 <= i <= |front| :: scan[..i] == front[..i];
    assert scan[..|front|] == front;
  }

  lemma AllServicesSnoc(front: seq<FtBillingRow>, last: FtBillingRow, allowances: map<ServiceId, int>)
    ensures var s := last.key.serviceId;
            AllServicesSms(front + [last], allowances)
            == AllServicesSms(front, allowances)
             + [AllServicesSmsRow(last, AllowanceOf(allowances, s), Sum(front, UnitsOfService(s)))]
  {
    var scan := front + [last];
    assert forall i | 0 <= i <= |front| :: scan[..i] == front[..i];
    assert scan[..|front|] == front;
  }

  lemma {:induction false} UnitsOfServiceByFilter(scan: seq<FtBillingRow>, s: ServiceId)
    ensures Sum(scan, UnitsOfService(s)) == Sum(Filter(scan, OfService(s)), Units)
  {
    hide Units;
    if scan == [] {
    } else {
      var front, last := scan[..|scan| - 1], scan[|scan| - 1];
      UnitsOfServiceByFilter(front, s);
      SumSnoc(Filter(front, OfService(s)), last, Units);
    }
  }

  /** PARTITION BY: the other services do not disturb a service's window. */
  lemma {:induction false} PartitionIsTheServiceAlone(scan: seq<FtBillingRow>, allowances: map<ServiceId, int>,
                                                      s: ServiceId)
    ensures Filter(AllServicesSms(scan, allowances), RowOfService(s))
         == RowsOfService(Filter(scan, OfService(s)), AllowanceOf(allowances, s))
  {
    if scan == [] {
    } else {
      var front, last := scan[..|scan| - 1], scan[|scan| - 1];
      assert scan == front + [last];
      PartitionIsTheServiceAlone(front, allowances, s);
      PartitionStep(front, last, allowances, s);
    }
  }

  lemma PartitionStep(front: seq<FtBillingRow>, last: FtBillingRow, allowances: map<ServiceId, int>, s: ServiceId)
    requires Filter(AllServicesSms(front, allowances), RowOfService(s))
          == RowsOfService(Filter(front, OfService(s)), AllowanceOf(allowances, s))
    ensures Filter(AllServicesSms(front + [last], allowances), RowOfService(s))
         == RowsOfService(Filter(front + [last], OfService(s)), AllowanceOf(allowances, s))
  {
    hide AllServicesSms, RowsOfService, Units, Sum, Filter;
    AllServicesSnoc(front, last, allowances);
    FilterSnoc(front, last, OfService(s));
    var own := last.key.serviceId;
    FilterSnoc(AllServicesSms(front, allowances),
               AllServicesSmsRow(last, AllowanceOf(allowances, own), Sum(front, UnitsOfService(own))), RowOfService(s));
    if own == s {
      UnitsOfServiceByFilter(front, s);
      RowsOfServiceSnoc(Filter(front, OfService(s)), last, AllowanceOf(allowances, s));
    }
  }

  // What the single-service query gives for a range of dates.

  function ChargeableBetween(start: Date, end: Date): UsageRow -> int {
    (u: UsageRow) => if start <= u.bstDate <= end then u.chargeableUnits else 0
  }

  /** The two formulations agree row by row. */
  lemma SameRow(r: FtBillingRow, limit: int, used: int)
    ensures var row, u := AllServicesSmsRow(r, Some(limit), used), SmsUsage(r, limit, used);
            && row.bstDate == u.bstDate && row.chargeableUnits == u.chargeableUnits
            && row.chargedUnits == u.chargedUnits && row.cost == u.cost
            && row.freeAllowance == Some(limit) && row.serviceId == r.key.serviceId
    ensures used >= 0 && Units(r) >= 0 ==>
            AllServicesSmsRow(r, Some(limit), used).freeAllowanceLeft == Max(Max(limit, 0) - used - Units(r), 0)
  {
    hide Units;
  }

  lemma {:induction false} RangeSumsAgree(mine: seq<FtBillingRow>, limit: int, start: Date, end: Date)
    ensures var rows, usage := Filter(RowsOfService(mine, Some(limit)), InRange(start, end)),
        UsageForServiceSms(mine, limit);
            && Sum(rows, ChargeableOf) == Sum(usage, ChargeableBetween(start, end))
            && Sum(rows, ChargedOf) == Sum(usage, ChargedBetween(start, end))
            && SumReal(rows, CostOfRow) == SumReal(usage, CostIn(Between(start, end)))
  {
    hide Units, RowsOfService, UsageForServiceSms, AllServicesSmsRow, SmsUsage, Sum, SumReal, Filter;
    if mine == [] {
      RangeSumsOfNothing(limit, start, end);
    } else {
      var front, last := mine[..|mine| - 1], mine[|mine| - 1];
      assert mine == front + [last];
      RangeSumsAgree(front, limit, start, end);
      RangeSumsStep(front, last, limit, start, end);
    }
  }

  lemma RangeSumsOfNothing(limit: int, start: Date, end: Date)
    ensures var rows, usage := Filter(RowsOfService([], Some(limit)), InRange(start, end)),
        UsageForServiceSms([], limit);
            && rows == []
            && Sum(rows, ChargeableOf) == Sum(usage, ChargeableBetween(start, end))
            && Sum(rows, ChargedOf) == Sum(usage, ChargedBetween(start, end))
            && SumReal(rows, CostOfRow) == SumReal(usage, CostIn(Between(start, end)))
  {
  }

  lemma RangeSumsStep(front: seq<FtBillingRow>, last: FtBillingRow, limit: int, start: Date, end: Date)
    ensures var before, after := Filter(RowsOfService(front, Some(limit)), InRange(start, end)),
                                 Filter(RowsOfService(front + [last], Some(limit)), InRange(start, end));
            && Sum(after, ChargeableOf) - Sum(before, ChargeableOf)
               == Sum(UsageForServiceSms(front + [last], limit), ChargeableBetween(start, end))
                - Sum(UsageForServiceSms(front, limit), ChargeableBetween(start, end))
            && Sum(after, ChargedOf) - Sum(before, ChargedOf)
               == Sum(UsageForServiceSms(front + [last], limit), ChargedBetween(start, end))
                - Sum(UsageForServiceSms(front, limit), ChargedBetween(start, end))
            && SumReal(after, CostOfRow) - SumReal(before, CostOfRow)
               == SumReal(UsageForServiceSms(front + [last], limit), CostIn(Between(start, end)))
                - SumReal(UsageForServiceSms(front, limit), CostIn(Between(start, end)))
  {
    hide Units, RowsOfService, UsageForServiceSms, AllServicesSmsRow, SmsUsage, Sum, SumReal, Filter;
    var row, u := AllServicesSmsRow(last, Some(limit), Sum(front, Units)), SmsUsage(last, limit, Sum(front, Units));
    SameRow(last, limit, Sum(front, Units));
    UsageDateOf(last, limit, Sum(front, Units));
    RowsOfServiceSnoc(front, last, Some(limit));
    UsageOfSnoc(front, last, limit);
    var rows, usage := RowsOfService(front, Some(limit)), UsageForServiceSms(front, limit);
    FilterSnoc(rows, row, InRange(start, end));
    var before := Filter(rows, InRange(start, end));
    SumSnoc(before, row, ChargeableOf);
    SumSnoc(before, row, ChargedOf);
    SumRealSnoc(before, row, CostOfRow);
    SumSnoc(usage, u, ChargeableBetween(start, end));
    SumSnoc(usage, u, ChargedBetween(start, end));
    SumRealSnoc(usage, u, CostIn(Between(start, end)));
  }

  lemma UsageDateOf(r: FtBillingRow, limit: int, used: int)
    ensures SmsUsage(r, limit, used).bstDate == r.key.bstDate
  {
  }

  lemma {:induction false} RowsInRange(mine: seq<FtBillingRow>, limit: int, start: Date, end: Date)
    ensures Filter(RowsOfService(mine, Some(limit)), InRange(start, end)) == []
       <==> forall r | r in mine :: !(start <= r.key.bstDate <= end)
  {
    hide Units, RowsOfService, AllServicesSmsRow, Filter;
    if mine == [] {
      RangeSumsOfNothing(limit, start, end);
    } else {
      var front, last := mine[..|mine| - 1], mine[|mine| - 1];
      assert mine == front + [last];
      RowsInRange(front, limit, start, end);
      RowsInRangeSnoc(front, last, limit, start, end);
    }
  }

  lemma RowsInRangeSnoc(front: seq<FtBillingRow>, last: FtBillingRow, limit: int, start: Date, end: Date)
    ensures var row := AllServicesSmsRow(last, Some(limit), Sum(front, Units));
            var before := Filter(RowsOfService(front, Some(limit)), InRange(start, end));
            Filter(RowsOfService(front + [last], Some(limit)), InRange(start, end))
            == if start <= last.key.bstDate <= end then before + [row] else before
  {
    hide Units, RowsOfService, AllServicesSmsRow, Filter;
    RowsOfServiceSnoc(front, last, Some(limit));
    SameRow(last, limit, Sum(front, Units));
    UsageDateOf(last, limit, Sum(front, Units));
    FilterSnoc(RowsOfService(front, Some(limit)), AllServicesSmsRow(last, Some(limit), Sum(front, Units)),
        InRange(start, end));
  }

  /** The least allowance left in the range is what is left after its last row. */
  lemma {:induction false} AllowanceLeftInRange(mine: seq<FtBillingRow>, limit: int, start: Date, end: Date)
    requires SortedByDate(mine)
    ensures var rows := Filter(RowsOfService(mine, Some(limit)), InRange(start, end));
            && (rows != [] ==> MinAllowanceLeft(rows) == Max(Max(limit, 0) - Sum(mine, UnitsUpTo(end)), 0))
            && (rows != [] ==> MaxFreeAllowance(rows) == Some(limit))
  {
    hide Units, RowsOfService, AllServicesSmsRow, Filter, MinAllowanceLeft, MaxFreeAllowance;
    if mine == [] {
      RangeSumsOfNothing(limit, start, end);
    } else {
      var front, last := mine[..|mine| - 1], mine[|mine| - 1];
      assert mine == front + [last];
      AllowanceLeftInRange(front, limit, start, end);
      RowsInRangeSnoc(front, last, limit, start, end);
      RowsInRange(front, limit, start, end);
      NonNegativeUnits(front, last);
      SameRow(last, limit, Sum(front, Units));
      SumSnoc(front, last, UnitsUpTo(end));
      if last.key.bstDate <= end {
        SumEqual(front, UnitsUpTo(end), Units);
      }
      MinAndMaxSnoc(Filter(RowsOfService(front, Some(limit)), InRange(start, end)),
                    AllServicesSmsRow(last, Some(limit), Sum(front, Units)));
    }
  }

  lemma NonNegativeUnits(front: seq<FtBillingRow>, last: FtBillingRow)
    ensures Sum(front, Units) >= 0 && Units(last) >= 0
  {
    UnitsAreNonNegative(front);
  }

  lemma MinAndMaxSnoc(rows: seq<AllServicesRow>, row: AllServicesRow)
    ensures MinAllowanceLeft(rows + [row])
         == if rows == [] then row.freeAllowanceLeft else Min(MinAllowanceLeft(rows), row.freeAllowanceLeft)
    ensures (rows == [] || MaxFreeAllowance(rows) == row.freeAllowance)
         ==> MaxFreeAllowance(rows + [row]) == row.freeAllowance
  {
    assert (rows + [row])[..|rows|] == rows;
  }

  /** What the all-services report says of a service, in the terms of the single-service query over
      the same rows in the same order. */
  lemma AllServicesAsSingleService(
      scan: seq<FtBillingRow>, allowances: map<ServiceId, int>, s: ServiceId, start: Date, end: Date)
    requires s in allowances && SortedByDate(Filter(scan, OfService(s)))
    ensures var mine, limit := Filter(scan, OfService(s)), allowances[s];
            var usage := FetchUsageForServiceSms(mine, Some(limit));
            FetchUsageForAllServicesSms(scan, allowances, s, start, end)
            == if forall r | r in mine :: !(start <= r.key.bstDate <= end) then None
               else Some(ServiceUsage(Some(limit),
                                      Max(Max(limit, 0) - Sum(mine, UnitsUpTo(end)), 0),
                                      Sum(usage, ChargeableBetween(start, end)),
                                      Sum(usage, ChargedBetween(start, end)),
                                      SumReal(usage, CostIn(Between(start, end)))))
  {
    hide Units, RowsOfService, AllServicesSms, UsageForServiceSms, Sum, SumReal, Filter;
    var mine, limit := Filter(scan, OfService(s)), allowances[s];
    PartitionIsTheServiceAlone(scan, allowances, s);
    FilterTwice(AllServicesSms(scan, allowances), RowOfService(s), InRange(start, end),
                ServiceRowInRange(s, start, end));
    RangeSumsAgree(mine, limit, start, end);
    RowsInRange(mine, limit, start, end);
    AllowanceLeftInRange(mine, limit, start, end);
  }

  lemma {:induction false} ChargeableIsUnits(mine: seq<FtBillingRow>, limit: int, start: Date, end: Date)
    ensures Sum(UsageForServiceSms(mine, limit), ChargeableBetween(start, end)) == Sum(mine, UnitsBetween(start, end))
  {
    hide Units, UsageForServiceSms;
    UsageOfNothing(limit);
    if mine == [] {
    } else {
      var front, last := mine[..|mine| - 1], mine[|mine| - 1];
      assert mine == front + [last];
      ChargeableIsUnits(front, limit, start, end);
      UsageOfSnoc(front, last, limit);
      SumSnoc(UsageForServiceSms(front, limit), SmsUsage(last, limit, Sum(front, Units)),
              ChargeableBetween(start, end));
      SumSnoc(front, last, UnitsBetween(start, end));
    }
  }

  /** The units of a range, and the units that it is charged, are the same in every order. */
  lemma RangeUnitsAreDetermined(mine: seq<FtBillingRow>, other: seq<FtBillingRow>, limit: int, start: Date, end: Date)
    requires SortedByDate(mine) && IsOrderingOf(other, mine)
    ensures var u, v := UsageForServiceSms(mine, limit), UsageForServiceSms(other, limit);
            && Sum(u, ChargeableBetween(start, end)) == Sum(v, ChargeableBetween(start, end))
            && Sum(u, ChargedBetween(start, end)) == Sum(v, ChargedBetween(start, end))
  {
    hide Units, UsageForServiceSms, Sum, SortedByDate;
    ChargeableIsUnits(mine, limit, start, end);
    ChargeableIsUnits(other, limit, start, end);
    SumPermutation(mine, other, UnitsBetween(start, end));
    if start <= end {
      ChargedInRange(mine, limit, start, end);
      ChargedInRange(other, limit, start, end);
      SumPermutation(mine, other, UnitsUpTo(end));
      SumPermutation(mine, other, UnitsBefore(start));
    } else {
      NothingChargedBackwards(UsageForServiceSms(mine, limit), start, end);
      NothingChargedBackwards(UsageForServiceSms(other, limit), start, end);
    }
  }

  lemma {:induction false} NothingChargedBackwards(usage: seq<UsageRow>, start: Date, end: Date)
    requires end < start
    ensures Sum(usage, ChargedBetween(start, end)) == 0
  {
    if usage == [] {
    } else {
      NothingChargedBackwards(usage[..|usage| - 1], start, end);
    }
  }

  /** The all-services report agrees with the single-service query on every range of dates, for a
      service that has an allowance for the year, although the database breaks the ties of the
      two queries independently: in the rows it reports, the allowance, the allowance left after
      the range, the units and the charged units. */
  lemma AllServicesAgreesWithSingleService(
      scan: seq<FtBillingRow>, other: seq<FtBillingRow>, allowances: map<ServiceId, int>, s: ServiceId,
      start: Date, end: Date)
    requires s in allowances && SortedByDate(Filter(scan, OfService(s)))
          && IsOrderingOf(other, Filter(scan, OfService(s)))
    ensures var limit, usage := allowances[s], FetchUsageForServiceSms(other, Some(allowances[s]));
            var report := FetchUsageForAllServicesSms(scan, allowances, s, start, end);
            && (report.None? <==> forall r | r in other :: !(start <= r.key.bstDate <= end))
            && (report.Some? ==>
                  && report.value.freeAllowance == Some(limit)
                  && report.value.freeAllowanceLeft == Max(Max(limit, 0) - Sum(other, UnitsUpTo(end)), 0)
                  && report.value.chargeableUnits == Sum(usage, ChargeableBetween(start, end))
                  && report.value.chargedUnits == Sum(usage, ChargedBetween(start, end)))
  {
    hide Units, FetchUsageForAllServicesSms, UsageForServiceSms, Sum, SumReal, Filter, SortedByDate;
    var mine := Filter(scan, OfService(s));
    AllServicesAsSingleService(scan, allowances, s, start, end);
    RangeUnitsAreDetermined(mine, other, allowances[s], start, end);
    SumPermutation(mine, other, UnitsUpTo(end));
    assert forall r :: (r in mine <==> r in multiset(mine)) && (r in other <==> r in multiset(other));
  }

  /** The costs of the two queries agree in every order of the rows if and only if no date of the
      range on which the allowance runs out strictly within the date holds rows at two rates. */
  lemma AllServicesCostAgreesIff(
      scan: seq<FtBillingRow>, allowances: map<ServiceId, int>, s: ServiceId, start: Date, end: Date)
    requires s in allowances && SortedByDate(Filter(scan, OfService(s)))
    requires exists r :: r in Filter(scan, OfService(s)) && start <= r.key.bstDate <= end
    ensures FetchUsageForAllServicesSms(scan, allowances, s, start, end).Some?
    ensures var mine, limit := Filter(scan, OfService(s)), allowances[s];
            var report := FetchUsageForAllServicesSms(scan, allowances, s, start, end);
            (forall other | IsOrderingOf(other, mine) ::
               report.value.cost == SumReal(FetchUsageForServiceSms(other, Some(limit)), CostIn(Between(start, end))))
            <==> (forall date | start <= date <= end :: CostIsDetermined(mine, limit, date))
  {
    hide FetchUsageForAllServicesSms, UsageForServiceSms, SumReal, Filter, SortedByDate, CostIsDetermined;
    var mine, limit := Filter(scan, OfService(s)), allowances[s];
    AllServicesAsSingleService(scan, allowances, s, start, end);
    RangeCostIsDetermined(mine, limit, start, end);
    assert forall other ::
        CostOfRange(other, limit, start, end)
            == SumReal(FetchUsageForServiceSms(other, Some(limit)), CostIn(Between(start, end)));
  }

  function UnitsBetween(start: Date, end: Date): FtBillingRow -> int {
    (r: FtBillingRow) => if start <= r.key.bstDate <= end then Units(r) else 0
  }

  function FullCostBetween(start: Date, end: Date): FtBillingRow -> real {
    (r: FtBillingRow) => if start <= r.key.bstDate <= end then FullCost(r) else 0.0
  }

  lemma {:induction false} ChargedWithoutAllowance(mine: seq<FtBillingRow>, start: Date, end: Date)
    ensures var rows := Filter(RowsOfService(mine, None), InRange(start, end));
            && Sum(rows, ChargeableOf) == Sum(mine, UnitsBetween(start, end))
            && Sum(rows, ChargedOf) == Sum(mine, UnitsBetween(start, end))
            && SumReal(rows, CostOfRow) == SumReal(mine, FullCostBetween(start, end))
  {
    hide Units, RowsOfService, Sum, SumReal, Filter;
    if mine == [] {
      NoRowsWithoutAllowance();
      NothingInNoRows(start, end);
    } else {
      var front, last := mine[..|mine| - 1], mine[|mine| - 1];
      assert mine == front + [last];
      ChargedWithoutAllowance(front, start, end);
      RowsOfServiceSnoc(front, last, None);
      UnitsAreNonNegative([last]);
      SumOfOne(last);
      var row := AllServicesSmsRow(last, None, Sum(front, Units));
      var rows := Filter(RowsOfService(front, None), InRange(start, end));
      FilterSnoc(RowsOfService(front, None), row, InRange(start, end));
      SumSnoc(rows, row, ChargeableOf);
      SumSnoc(rows, row, ChargedOf);
      SumRealSnoc(rows, row, CostOfRow);
      SumSnoc(front, last, UnitsBetween(start, end));
      SumRealSnoc(front, last, FullCostBetween(start, end));
    }
  }

  lemma NothingInNoRows(start: Date, end: Date)
    ensures Filter([], InRange(start, end)) == []
    ensures Sum([], ChargeableOf) == Sum([], ChargedOf) == Sum([], UnitsBetween(start, end)) == 0
    ensures SumReal([], CostOfRow) == SumReal([], FullCostBetween(start, end)) == 0.0
  {
  }

  lemma NoRowsWithoutAllowance()
    ensures RowsOfService([], None) == []
  {
  }

  /** Without an allowance row the single-service query shows no SMS usage at all, while the
      all-services report charges every unit at its rate. They agree, in the units, the charged
      units and the cost, exactly when there is nothing to charge. */
  lemma WithoutAllowanceTheyAgreeOnlyOnNothing(
      scan: seq<FtBillingRow>, allowances: map<ServiceId, int>, s: ServiceId, start: Date, end: Date)
    requires s !in allowances
    ensures var mine := Filter(scan, OfService(s));
            var nothing := ServiceUsage(None, 0, 0, 0, 0.0);
            var report := FetchUsageForAllServicesSms(scan, allowances, s, start, end).GetOr(nothing);
            && FetchUsageForServiceSms(mine, AllowanceOf(allowances, s)) == []
            && report.chargeableUnits == report.chargedUnits == Sum(mine, UnitsBetween(start, end))
            && report.cost == SumReal(mine, FullCostBetween(start, end))
            && (report.chargeableUnits == 0 && report.chargedUnits == 0 && report.cost == 0.0
                <==> forall r | r in mine && start <= r.key.bstDate <= end :: Units(r) == 0)
  {
    hide Units, RowsOfService, AllServicesSms, Filter, Sum, SumReal;
    var mine := Filter(scan, OfService(s));
    PartitionIsTheServiceAlone(scan, allowances, s);
    FilterTwice(AllServicesSms(scan, allowances), RowOfService(s), InRange(start, end),
                ServiceRowInRange(s, start, end));
    ChargedWithoutAllowance(mine, start, end);
    NothingInNoRows(start, end);
    NoUnitsBetween(mine, start, end);
    if forall r | r in mine && start <= r.key.bstDate <= end :: Units(r) == 0 {
      NoCostBetween(mine, start, end);
    }
  }

  lemma {:induction false} NoCostBetween(mine: seq<FtBillingRow>, start: Date, end: Date)
    requires forall r | r in mine && start <= r.key.bstDate <= end :: Units(r) == 0
    ensures SumReal(mine, FullCostBetween(start, end)) == 0.0
  {
    hide Units;
    if mine == [] {
    } else {
      assert mine[|mine| - 1] in mine;
      NoCostBetween(mine[..|mine| - 1], start, end);
    }
  }

  lemma {:induction false} NoUnitsBetween(mine: seq<FtBillingRow>, start: Date, end: Date)
    ensures Sum(mine, UnitsBetween(start, end)) >= 0
    ensures Sum(mine, UnitsBetween(start, end)) == 0
       <==> forall r | r in mine && start <= r.key.bstDate <= end :: Units(r) == 0
  {
    hide Units;
    if mine == [] {
    } else {
      var front, last := mine[..|mine| - 1], mine[|mine| - 1];
      assert mine == front + [last];
      NoUnitsBetween(front, start, end);
      UnitsAreNonNegative([last]);
      SumOfOne(last);
    }
  }

  // ---------------------------------------------------------------- annual and monthly roll-ups

  /** _fetch_usage_for_service_email */
  function EmailUsage(r: FtBillingRow): UsageRow {
    UsageRow(r.key.bstDate, r.key.postage, r.value.notificationsSent, r.value.billableUnits, r.key.rate,
             r.key.notificationType, 0.0, 0, r.value.billableUnits)
  }

  /** _fetch_usage_for_service_letter: charged by the letter, since the sheets are in the rate. */
  function LetterUsage(r: FtBillingRow): UsageRow {
    UsageRow(r.key.bstDate, r.key.postage, r.value.notificationsSent, r.value.notificationsSent, r.key.rate,
             r.key.notificationType, r.value.notificationsSent as real * r.key.rate, 0, r.value.notificationsSent)
  }

  datatype AnnualKey = AnnualKey(notificationType: NotificationType, rate: real)

  datatype MonthlyKey = MonthlyKey(notificationType: NotificationType, rate: real, postage: string, month: (int, int))

  function AnnualKeyOf(u: UsageRow): AnnualKey { AnnualKey(u.notificationType, u.rate) }

  function MonthlyKeyOf(u: UsageRow): MonthlyKey {
    // A Python date is never before day 1.
    MonthlyKey(u.notificationType, u.rate, u.postage, if 1 <= u.bstDate then MonthOf(u.bstDate) else (0, 0))
  }

  datatype RollUpRow<K> = RollUpRow(
    key: K,
    notificationsSent: int,
    chargeableUnits: int,
    cost: real,
    freeAllowanceUsed: int,
    chargedUnits: int)

  function SentIn(u: UsageRow): int { u.notificationsSent }

  function Chargeable(u: UsageRow): int { u.chargeableUnits }

  function RollUpGroup<K(==)>(usage: seq<UsageRow>, key: UsageRow -> K, k: K): RollUpRow<K> {
    RollUpRow(k, Sum(usage, Only(key, SentIn, k)), Sum(usage, Only(key, Chargeable, k)),
              SumReal(usage, OnlyReal(key, Cost, k)), Sum(usage, Only(key, FreeUsed, k)),
              Sum(usage, Only(key, Charged, k)))
  }

  /** GROUP BY key. */
  function RollUp<K(==,!new)>(usage: seq<UsageRow>, key: UsageRow -> K): seq<RollUpRow<K>> {
    MapSeq(Distinct(MapSeq(usage, key)), (k: K) => RollUpGroup(usage, key, k))
  }

  /** The UNION of the three notification types, each grouped on its own. */
  function FetchUsage<K(==,!new)>(sms: seq<UsageRow>, email: seq<UsageRow>, letter: seq<UsageRow>, key: UsageRow -> K)
    : seq<RollUpRow<K>>
  {
    Distinct(RollUp(sms, key) + RollUp(email, key) + RollUp(letter, key))
  }

  ghost predicate OnlyType(usage: seq<UsageRow>, t: NotificationType) {
    forall u | u in usage :: u.notificationType == t
  }

  /** A key that tells the notification types apart. */
  ghost predicate KeepsType<K(!new)>(key: UsageRow -> K) {
    forall u, v :: key(u) == key(v) ==> u.notificationType == v.notificationType
  }

  lemma RollUpKeys<K(!new)>(usage: seq<UsageRow>, key: UsageRow -> K)
    ensures NoDuplicates(RollUp(usage, key))
    ensures forall row | row in RollUp(usage, key) :: exists u :: u in usage && key(u) == row.key
  {
    var all := MapSeq(usage, key);
    var keys := Distinct(all);
    forall row | row in RollUp(usage, key) ensures exists u :: u in usage && key(u) == row.key {
      var i :| 0 <= i < |keys| && RollUp(usage, key)[i] == row;
      assert keys[i] in all;
      var j :| 0 <= j < |all| && all[j] == keys[i];
      assert usage[j] in usage && key(usage[j]) == row.key;
    }
  }

  /** The UNION removes duplicate rows, but no two groups are duplicates of each other. */
  lemma UnionDropsNoGroup<K(!new)>(sms: seq<UsageRow>, email: seq<UsageRow>, letter: seq<UsageRow>, key: UsageRow -> K)
    requires OnlyType(sms, Sms) && OnlyType(email, Email) && OnlyType(letter, Letter) && KeepsType(key)
    ensures FetchUsage(sms, email, letter, key) == RollUp(sms, key) + RollUp(email, key) + RollUp(letter, key)
  {
    RollUpKeys(sms, key);
    RollUpKeys(email, key);
    RollUpKeys(letter, key);
    var all := RollUp(sms, key) + RollUp(email, key) + RollUp(letter, key);
    ApartByType(sms, email, key, Sms, Email);
    ApartByType(sms, letter, key, Sms, Letter);
    ApartByType(email, letter, key, Email, Letter);
    DisjointConcat(RollUp(sms, key), RollUp(email, key));
    DisjointConcat(RollUp(sms, key) + RollUp(email, key), RollUp(letter, key));
    DistinctOfNoDuplicates(all);
  }

  lemma ApartByType<K(!new)>(a: seq<UsageRow>, b: seq<UsageRow>, key: UsageRow -> K, t: NotificationType,
                      t': NotificationType)
    requires OnlyType(a, t) && OnlyType(b, t') && t != t' && KeepsType(key)
    ensures forall row | row in RollUp(a, key) :: row !in RollUp(b, key)
  {
    hide RollUp;
    RollUpKeys(a, key);
    RollUpKeys(b, key);
    forall row | row in RollUp(a, key) ensures row !in RollUp(b, key) {
      var u :| u in a && key(u) == row.key;
      assert forall v | v in b :: key(v) != row.key;
    }
  }

  lemma DisjointConcat<T(!new)>(a: seq<T>, b: seq<T>)
    requires NoDuplicates(a) && NoDuplicates(b) && forall x | x in a :: x !in b
    ensures NoDuplicates(a + b)
  {
    forall i, j | 0 <= i < j < |a + b| ensures (a + b)[i] != (a + b)[j] {
      if i < |a| <= j {
        assert a[i] in a && b[j - |a|] in b;
      }
    }
  }

  function RollUpCost<K>(row: RollUpRow<K>): real { row.cost }

  /** A column of the roll-up, and the usage column that it adds up. */
  ghost predicate Measures<K(!new)>(key: UsageRow -> K, m: RollUpRow<K> -> int, f: UsageRow -> int) {
    forall usage: seq<UsageRow>, k: K :: m(RollUpGroup(usage, key, k)) == Sum(usage, Only(key, f, k))
  }

  lemma {:induction false} RollUpOfKeys<K(!new)>(usage: seq<UsageRow>, key: UsageRow -> K, keys: seq<K>,
                                           m: RollUpRow<K> -> int, f: UsageRow -> int)
    requires Measures(key, m, f)
    ensures Sum(MapSeq(keys, (k: K) => RollUpGroup(usage, key, k)), m) == GroupTotal(usage, key, f, keys)
  {
    if keys == [] {
    } else {
      var front := keys[..|keys| - 1];
      var rows := MapSeq(keys, (k: K) => RollUpGroup(usage, key, k));
      RollUpOfKeys(usage, key, front, m, f);
      assert rows[..|rows| - 1] == MapSeq(front, (k: K) => RollUpGroup(usage, key, k));
    }
  }

  /** A roll-up adds up to the rows it was made from, whatever it groups by. */
  lemma RollUpTotal<K(!new)>(usage: seq<UsageRow>, key: UsageRow -> K, m: RollUpRow<K> -> int, f: UsageRow -> int)
    requires Measures(key, m, f)
    ensures Sum(RollUp(usage, key), m) == Sum(usage, f)
  {
    var keys := Distinct(MapSeq(usage, key));
    forall u | u in usage ensures key(u) in keys {
      var i :| 0 <= i < |usage| && usage[i] == u;
      assert MapSeq(usage, key)[i] == key(u);
    }
    RollUpOfKeys(usage, key, keys, m, f);
    GroupTotalConserved(usage, key, f, keys);
  }

  lemma {:induction false} RollUpCostOfKeys<K(!new)>(usage: seq<UsageRow>, key: UsageRow -> K, keys: seq<K>)
    ensures SumReal(MapSeq(keys, (k: K) => RollUpGroup(usage, key, k)), RollUpCost<K>)
         == GroupTotalReal(usage, key, Cost, keys)
  {
    if keys == [] {
    } else {
      var front := keys[..|keys| - 1];
      var rows := MapSeq(keys, (k: K) => RollUpGroup(usage, key, k));
      RollUpCostOfKeys(usage, key, front);
      assert rows[..|rows| - 1] == MapSeq(front, (k: K) => RollUpGroup(usage, key, k));
    }
  }

  lemma RollUpCostTotal<K(!new)>(usage: seq<UsageRow>, key: UsageRow -> K)
    ensures SumReal(RollUp(usage, key), RollUpCost<K>) == SumReal(usage, Cost)
  {
    var keys := Distinct(MapSeq(usage, key));
    forall u | u in usage ensures key(u) in keys {
      var i :| 0 <= i < |usage| && usage[i] == u;
      assert MapSeq(usage, key)[i] == key(u);
    }
    RollUpCostOfKeys(usage, key, keys);
    GroupTotalRealConserved(usage, key, Cost, keys);
  }

  datatype Totals = Totals(notificationsSent: int, chargeableUnits: int, cost: real, freeAllowanceUsed: int,
      chargedUnits: int)

  function UsageTotals(usage: seq<UsageRow>): Totals {
    Totals(Sum(usage, SentIn), Sum(usage, Chargeable), SumReal(usage, Cost), Sum(usage, FreeUsed), Sum(usage, Charged))
  }

  function RollUpSent<K>(row: RollUpRow<K>): int { row.notificationsSent }

  function RollUpChargeable<K>(row: RollUpRow<K>): int { row.chargeableUnits }

  function RollUpFree<K>(row: RollUpRow<K>): int { row.freeAllowanceUsed }

  function RollUpCharged<K>(row: RollUpRow<K>): int { row.chargedUnits }

  function ReportTotals<K>(rows: seq<RollUpRow<K>>): Totals {
    Totals(Sum(rows, RollUpSent<K>), Sum(rows, RollUpChargeable<K>), SumReal(rows, RollUpCost<K>),
           Sum(rows, RollUpFree<K>), Sum(rows, RollUpCharged<K>))
  }

  lemma RollUpTotals<K(!new)>(usage: seq<UsageRow>, key: UsageRow -> K)
    ensures ReportTotals(RollUp(usage, key)) == UsageTotals(usage)
  {
    hide RollUp, Sum, SumReal;
    RollUpTotal(usage, key, RollUpSent<K>, SentIn);
    RollUpTotal(usage, key, RollUpChargeable<K>, Chargeable);
    RollUpTotal(usage, key, RollUpFree<K>, FreeUsed);
    RollUpTotal(usage, key, RollUpCharged<K>, Charged);
    RollUpCostTotal(usage, key);
  }

  /** Grouped by any key that keeps the notification types apart, the report adds up to the
      usage rows it was made from. */
  lemma ReportConserved<K(!new)>(sms: seq<UsageRow>, email: seq<UsageRow>, letter: seq<UsageRow>, key: UsageRow -> K)
    requires OnlyType(sms, Sms) && OnlyType(email, Email) && OnlyType(letter, Letter) && KeepsType(key)
    ensures ReportTotals(FetchUsage(sms, email, letter, key)) == UsageTotals(sms + email + letter)
  {
    hide RollUp, Sum, SumReal, FetchUsage;
    UnionDropsNoGroup(sms, email, letter, key);
    RollUpTotals(sms, key);
    RollUpTotals(email, key);
    RollUpTotals(letter, key);
    ReportTotalsAppend(RollUp(sms, key), RollUp(email, key));
    ReportTotalsAppend(RollUp(sms, key) + RollUp(email, key), RollUp(letter, key));
    UsageTotalsAppend(sms, email);
    UsageTotalsAppend(sms + email, letter);
  }

  function Add(a: Totals, b: Totals): Totals {
    Totals(a.notificationsSent + b.notificationsSent, a.chargeableUnits + b.chargeableUnits, a.cost + b.cost,
           a.freeAllowanceUsed + b.freeAllowanceUsed, a.chargedUnits + b.chargedUnits)
  }

  lemma ReportTotalsAppend<K>(a: seq<RollUpRow<K>>, b: seq<RollUpRow<K>>)
    ensures ReportTotals(a + b) == Add(ReportTotals(a), ReportTotals(b))
  {
    hide Sum, SumReal;
    SumAppend(a, b, RollUpSent<K>);
    SumAppend(a, b, RollUpChargeable<K>);
    SumAppend(a, b, RollUpFree<K>);
    SumAppend(a, b, RollUpCharged<K>);
    SumRealAppend(a, b, RollUpCost<K>);
  }

  lemma UsageTotalsAppend(a: seq<UsageRow>, b: seq<UsageRow>)
    ensures UsageTotals(a + b) == Add(UsageTotals(a), UsageTotals(b))
  {
    hide Sum, SumReal;
    SumAppend(a, b, SentIn);
    SumAppend(a, b, Chargeable);
    SumAppend(a, b, FreeUsed);
    SumAppend(a, b, Charged);
    SumRealAppend(a, b, Cost);
  }

  function SentOf(r: FtBillingRow): int { r.value.notificationsSent }

  function BillableOf(r: FtBillingRow): int { r.value.billableUnits }

  function LetterCostOf(r: FtBillingRow): real { r.value.notificationsSent as real * r.key.rate }

  lemma {:induction false} SmsTotalsDetermined(scan: seq<FtBillingRow>, limit: int)
    ensures Sum(UsageForServiceSms(scan, limit), Chargeable) == Sum(scan, Units)
    ensures Sum(UsageForServiceSms(scan, limit), SentIn) == Sum(scan, SentOf)
  {
    hide Units, UsageForServiceSms;
    if scan == [] {
      UsageOfNothing(limit);
    } else {
      var front, last := scan[..|scan| - 1], scan[|scan| - 1];
      assert scan == front + [last];
      SmsTotalsDetermined(front, limit);
      UsageOfSnoc(front, last, limit);
      SumSnoc(UsageForServiceSms(front, limit), SmsUsage(last, limit, Sum(front, Units)), Chargeable);
      SumSnoc(UsageForServiceSms(front, limit), SmsUsage(last, limit, Sum(front, Units)), SentIn);
    }
  }

  lemma UsageTotalsSnoc(front: seq<UsageRow>, u: UsageRow)
    ensures UsageTotals(front + [u])
         == Add(UsageTotals(front),
                Totals(u.notificationsSent, u.chargeableUnits, u.cost, u.freeAllowanceUsed, u.chargedUnits))
  {
    hide Sum, SumReal;
    SumSnoc(front, u, SentIn);
    SumSnoc(front, u, Chargeable);
    SumSnoc(front, u, FreeUsed);
    SumSnoc(front, u, Charged);
    SumRealSnoc(front, u, Cost);
  }

  lemma {:induction false} EmailTotals(rows: seq<FtBillingRow>)
    ensures UsageTotals(MapSeq(rows, EmailUsage))
         == Totals(Sum(rows, SentOf), Sum(rows, BillableOf), 0.0, 0, Sum(rows, BillableOf))
  {
    if rows == [] {
    } else {
      var front, last := rows[..|rows| - 1], rows[|rows| - 1];
      EmailTotals(front);
      assert MapSeq(rows, EmailUsage) == MapSeq(front, EmailUsage) + [EmailUsage(last)];
      UsageTotalsSnoc(MapSeq(front, EmailUsage), EmailUsage(last));
    }
  }

  lemma {:induction false} LetterTotals(rows: seq<FtBillingRow>)
    ensures UsageTotals(MapSeq(rows, LetterUsage))
         == Totals(Sum(rows, SentOf), Sum(rows, SentOf), SumReal(rows, LetterCostOf), 0, Sum(rows, SentOf))
  {
    if rows == [] {
    } else {
      var front, last := rows[..|rows| - 1], rows[|rows| - 1];
      LetterTotals(front);
      assert MapSeq(rows, LetterUsage) == MapSeq(front, LetterUsage) + [LetterUsage(last)];
      UsageTotalsSnoc(MapSeq(front, LetterUsage), LetterUsage(last));
    }
  }

  // The reports of one service and year, from its facts.

  function OfType(t: NotificationType): FtBillingRow -> bool {
    (r: FtBillingRow) => r.key.notificationType == t
  }

  /** The facts as one report visits them, each type in an order of its own. */
  datatype Visit = Visit(sms: seq<FtBillingRow>, email: seq<FtBillingRow>, letter: seq<FtBillingRow>)

  ghost predicate IsVisitOf(v: Visit, facts: seq<FtBillingRow>) {
    && IsOrderingOf(v.sms, Filter(facts, OfType(Sms)))
    && multiset(v.email) == multiset(Filter(facts, OfType(Email)))
    && multiset(v.letter) == multiset(Filter(facts, OfType(Letter)))
  }

  function Report<K(==,!new)>(v: Visit, allowance: Option<int>, key: UsageRow -> K): seq<RollUpRow<K>> {
    FetchUsage(FetchUsageForServiceSms(v.sms, allowance), MapSeq(v.email, EmailUsage), MapSeq(v.letter, LetterUsage),
               key)
  }

  /** fetch_usage_for_service_annual */
  function FetchUsageForServiceAnnual(v: Visit, allowance: Option<int>): seq<RollUpRow<AnnualKey>> {
    Report(v, allowance, AnnualKeyOf)
  }

  /** fetch_usage_for_service_by_month, on the facts as they are after its refresh of today. */
  function FetchUsageForServiceByMonth(v: Visit, allowance: Option<int>): seq<RollUpRow<MonthlyKey>> {
    Report(v, allowance, MonthlyKeyOf)
  }

  function SmsCost(scan: seq<FtBillingRow>, allowance: Option<int>): real {
    match allowance
    case None => 0.0
    case Some(limit) => CostOf(scan, limit)
  }

  function SmsTotals(sms: seq<FtBillingRow>, allowance: Option<int>, smsCost: real): Totals {
    match allowance
    case None => Totals(0, 0, smsCost, 0, 0)
    case Some(limit) =>
      Totals(Sum(sms, SentOf), Sum(sms, Units), smsCost, Min(Max(limit, 0), Sum(sms, Units)),
             Max(Sum(sms, Units) - Max(limit, 0), 0))
  }

  /** What the facts add up to, for texts that cost so much: emails are free, and letters are charged
      by the letter. */
  function FactTotals(facts: seq<FtBillingRow>, allowance: Option<int>, smsCost: real): Totals {
    var email, letter := Filter(facts, OfType(Email)), Filter(facts, OfType(Letter));
    Add(Add(SmsTotals(Filter(facts, OfType(Sms)), allowance, smsCost),
            Totals(Sum(email, SentOf), Sum(email, BillableOf), 0.0, 0, Sum(email, BillableOf))),
        Totals(Sum(letter, SentOf), Sum(letter, SentOf), SumReal(letter, LetterCostOf), 0, Sum(letter, SentOf)))
  }

  lemma TotalsWithAllowance(scan: seq<FtBillingRow>, sms: seq<FtBillingRow>, limit: int)
    requires multiset(scan) == multiset(sms)
    ensures UsageTotals(UsageForServiceSms(scan, limit)) == SmsTotals(sms, Some(limit), CostOf(scan, limit))
  {
    hide Units, UsageForServiceSms, Sum, SumReal, Max, Min;
    AllowanceConserved(scan, limit);
    SmsTotalsDetermined(scan, limit);
    SumPermutation(scan, sms, Units);
    SumPermutation(scan, sms, SentOf);
  }

  lemma SmsTotalsAre(scan: seq<FtBillingRow>, sms: seq<FtBillingRow>, allowance: Option<int>)
    requires multiset(scan) == multiset(sms)
    ensures UsageTotals(FetchUsageForServiceSms(scan, allowance)) == SmsTotals(sms, allowance, SmsCost(scan, allowance))
  {
    match allowance
    case None =>
    case Some(limit) =>
      hide SmsTotals, UsageTotals, CostOf;
      TotalsWithAllowance(scan, sms, limit);
  }

  lemma UsageKeepsType(v: Visit, facts: seq<FtBillingRow>, allowance: Option<int>)
    requires IsVisitOf(v, facts)
    ensures OnlyType(FetchUsageForServiceSms(v.sms, allowance), Sms)
    ensures OnlyType(MapSeq(v.email, EmailUsage), Email)
    ensures OnlyType(MapSeq(v.letter, LetterUsage), Letter)
  {
    hide Filter;
    VisitedAreOfType(v.sms, facts, Sms);
    VisitedAreOfType(v.email, facts, Email);
    VisitedAreOfType(v.letter, facts, Letter);
    assert forall i | 0 <= i < |v.email| :: EmailUsage(v.email[i]).notificationType == Email;
    assert forall i | 0 <= i < |v.letter| :: LetterUsage(v.letter[i]).notificationType == Letter;
  }

  lemma VisitedAreOfType(rows: seq<FtBillingRow>, facts: seq<FtBillingRow>, t: NotificationType)
    requires multiset(rows) == multiset(Filter(facts, OfType(t)))
    ensures forall i | 0 <= i < |rows| :: rows[i].key.notificationType == t
  {
    hide Filter;
    forall i | 0 <= i < |rows| ensures rows[i].key.notificationType == t {
      assert rows[i] in multiset(rows);
      FilterContains(facts, OfType(t), rows[i]);
    }
  }

  /** Whatever a report groups by, and however it visits the facts, its columns add up to what the
      facts themselves add up to. The order matters to the cost of the texts only. */
  lemma ReportAddsUpToFacts<K(!new)>(facts: seq<FtBillingRow>, v: Visit, allowance: Option<int>, key: UsageRow -> K)
    requires IsVisitOf(v, facts) && KeepsType(key)
    ensures ReportTotals(Report(v, allowance, key)) == FactTotals(facts, allowance, SmsCost(v.sms, allowance))
  {
    hide UsageTotals, ReportTotals, FetchUsage, FetchUsageForServiceSms, Sum, SumReal, Filter, SmsTotals, SmsCost,
         IsOrderingOf, KeepsType, OnlyType;
    var sms, email, letter :=
      FetchUsageForServiceSms(v.sms, allowance), MapSeq(v.email, EmailUsage), MapSeq(v.letter, LetterUsage);
    UsageKeepsType(v, facts, allowance);
    ReportConserved(sms, email, letter, key);
    UsageTotalsAppend(sms, email);
    UsageTotalsAppend(sms + email, letter);
    VisitedSms(v, facts);
    SmsTotalsAre(v.sms, Filter(facts, OfType(Sms)), allowance);
    EmailTotals(v.email);
    LetterTotals(v.letter);
    SumPermutation(v.email, Filter(facts, OfType(Email)), SentOf);
    SumPermutation(v.email, Filter(facts, OfType(Email)), BillableOf);
    SumPermutation(v.letter, Filter(facts, OfType(Letter)), SentOf);
    SumRealPermutation(v.letter, Filter(facts, OfType(Letter)), LetterCostOf);
  }

  lemma VisitedSms(v: Visit, facts: seq<FtBillingRow>)
    requires IsVisitOf(v, facts)
    ensures SortedByDate(v.sms) && multiset(v.sms) == multiset(Filter(facts, OfType(Sms)))
  {
  }

  /** The annual and the monthly report of the same facts have the same totals in every column but
      the cost, although the database visits the rows of the two reports in different orders. */
  lemma AnnualAndMonthlyAgree(facts: seq<FtBillingRow>, annual: Visit, monthly: Visit, allowance: Option<int>)
    requires IsVisitOf(annual, facts) && IsVisitOf(monthly, facts)
    ensures ReportTotals(FetchUsageForServiceAnnual(annual, allowance)).(cost := 0.0)
         == ReportTotals(FetchUsageForServiceByMonth(monthly, allowance)).(cost := 0.0)
  {
    hide ReportTotals, Report, Sum, SumReal, Filter, IsVisitOf;
    ReportAddsUpToFacts(facts, annual, allowance, AnnualKeyOf);
    ReportAddsUpToFacts(facts, monthly, allowance, MonthlyKeyOf);
  }

  /** They have the same totals in every column, in every order of the rows, if and only if the
      service has no allowance for the year, or no date on which the allowance runs out strictly
      within the date holds texts at two rates. */
  lemma AnnualAndMonthlyCostsAgreeIff(facts: seq<FtBillingRow>, annual: Visit, allowance: Option<int>)
    requires IsVisitOf(annual, facts)
    ensures (forall monthly | IsVisitOf(monthly, facts) ::
               ReportTotals(FetchUsageForServiceAnnual(annual, allowance))
               == ReportTotals(FetchUsageForServiceByMonth(monthly, allowance)))
       <==> (allowance.None? || forall date :: CostIsDetermined(annual.sms, allowance.value, date))
  {
    hide ReportTotals, Report, Sum, SumReal, Filter, IsVisitOf, CostIsDetermined, CostOf, IsOrderingOf, SortedByDate;
    forall monthly | IsVisitOf(monthly, facts)
      ensures ReportTotals(FetchUsageForServiceAnnual(annual, allowance))
              == ReportTotals(FetchUsageForServiceByMonth(monthly, allowance))
         <==> SmsCost(annual.sms, allowance) == SmsCost(monthly.sms, allowance)
    {
      ReportAddsUpToFacts(facts, annual, allowance, AnnualKeyOf);
      ReportAddsUpToFacts(facts, monthly, allowance, MonthlyKeyOf);
    }
    if allowance.Some? {
      VisitedSms(annual, facts);
      YearCostIsDetermined(annual.sms, allowance.value);
      forall monthly | IsVisitOf(monthly, facts) ensures IsOrderingOf(monthly.sms, annual.sms) {
        VisitsAreOrderings(facts, annual, monthly);
      }
      forall other | IsOrderingOf(other, annual.sms) ensures IsVisitOf(annual.(sms := other), facts) {
        OrderingsAreVisits(facts, annual, other);
      }
      assert forall other :: annual.(sms := other).sms == other;
    }
  }

  lemma VisitsAreOrderings(facts: seq<FtBillingRow>, v: Visit, v': Visit)
    requires IsVisitOf(v, facts) && IsVisitOf(v', facts)
    ensures IsOrderingOf(v'.sms, v.sms)
  {
  }

  lemma OrderingsAreVisits(facts: seq<FtBillingRow>, v: Visit, other: seq<FtBillingRow>)
    requires IsVisitOf(v, facts) && IsOrderingOf(other, v.sms)
    ensures IsVisitOf(v.(sms := other), facts)
  {
  }
}
