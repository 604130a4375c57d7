/** The billing facts of a day, told from the columns of the notifications and the rates alone, and
    what the usage queries then report of the notifications themselves. */
module FactColumns {
  import opened Collections
  import opened LondonTime
  import opened Schema
  import opened Rates
  import opened Allowance
  import opened Usage
  import opened FactBilling
  import opened FtBillingTable

  // ---------------------------------------------------------------- which fact a notification belongs to

  /** The notification is billed on the day of the window: it was created on that London date, not with
      a test key, for one of the services, and has a status that is billed for its type. */
  ghost predicate IsBilled(r: ViewRow, w: Window) {
    && DAY <= r.createdAt && LondonDate(r.createdAt) == w.day
    && r.keyType != Test
    && (w.services == None || r.serviceId in w.services.value)
    && match r.notificationType
       case Sms => r.status in {Sending, Sent, Delivered, Pending, TemporaryFailure, PermanentFailure}
       case Email => r.status in {Sending, Delivered, TemporaryFailure, PermanentFailure}
       case Letter => r.status in {Sending, Delivered, ReturnedLetter}
       case Messagebox => false
  }

  /** The column, or the literal that COALESCE puts in its place. */
  ghost predicate Coalesced<T(!new)>(column: Option<T>, literal: T, x: T) {
    column == Some(x) || (column == None && x == literal)
  }

  /** The columns of a billed notification that a fact repeats, and the rate it is billed at. */
  ghost predicate IsFactOf(k: FtBillingKey, r: ViewRow, w: Window, rates: RateTables)
    requires 1 <= w.day
  {
    && k.bstDate == w.day && k.templateId == r.templateId && k.serviceId == r.serviceId
    && k.notificationType == r.notificationType
    && match r.notificationType
       case Sms =>
         && Coalesced(r.sentBy, "unknown", k.provider) && Coalesced(r.rateMultiplier, 1, k.rateMultiplier)
         && k.international == r.international && k.postage == "none"
         && IsSmsRateOfDay(rates, w.day, k.rate)
       case Letter =>
         && k.provider == "dvla" && Coalesced(r.rateMultiplier, 1, k.rateMultiplier)
         && k.international == r.international && Coalesced(r.postage, "none", k.postage)
         && IsLetterRateOfDay(rates, w.day, r.billableUnits, k.postage, k.rate)
       case _ =>
         k.provider == "ses" && k.rateMultiplier == 0 && !k.international && k.postage == "none" && k.rate == 0.0
  }

  ghost predicate IsBilledAs(r: ViewRow, w: Window, rates: RateTables, k: FtBillingKey)
    requires 1 <= w.day
  {
    IsBilled(r, w) && IsFactOf(k, r, w, rates)
  }

  ghost predicate OnTheDay(k: FtBillingKey, w: Window) {
    k.bstDate == w.day && (w.services == None || k.serviceId in w.services.value)
  }

  /** The units of the notifications of a fact, none for emails. */
  ghost function UnitsBilledAs(w: Window, rates: RateTables, k: FtBillingKey): ViewRow -> int
    requires 1 <= w.day
  {
    (r: ViewRow) => if IsBilledAs(r, w, rates, k) && k.notificationType != Email then r.billableUnits else 0
  }

  ghost function CountBilledAs(w: Window, rates: RateTables, k: FtBillingKey): ViewRow -> int
    requires 1 <= w.day
  {
    (r: ViewRow) => if IsBilledAs(r, w, rates, k) then 1 else 0
  }

  ghost predicate SomeBilledAs(view: seq<ViewRow>, w: Window, rates: RateTables, k: FtBillingKey)
    requires 1 <= w.day
  {
    exists r :: r in view && IsBilledAs(r, w, rates, k)
  }

  /** The value of a fact is the sum over exactly the notifications that are billed as this fact. */
  ghost predicate HasTotals(v: FtBillingValue, view: seq<ViewRow>, w: Window, rates: RateTables, k: FtBillingKey)
    requires 1 <= w.day
  {
    && v.billableUnits == Sum(view, UnitsBilledAs(w, rates, k))
    && v.notificationsSent == Sum(view, CountBilledAs(w, rates, k))
  }

  /** The day's facts of the table are those of the notifications, with their totals. */
  ghost predicate FactsMatch(table: FtBilling, view: seq<ViewRow>, w: Window, rates: RateTables)
    requires 1 <= w.day
  {
    forall k | OnTheDay(k, w) ::
      && (k in table <==> SomeBilledAs(view, w, rates, k))
      && (k in table ==> HasTotals(table[k], view, w, rates, k))
  }

  /** Outside the day and the services, the table is as it was. */
  ghost predicate SameElsewhere(after: FtBilling, before: FtBilling, w: Window) {
    forall k | !OnTheDay(k, w) :: (k in after <==> k in before) && (k in before ==> after[k] == before[k])
  }

  lemma BilledByColumns(r: ViewRow, w: Window)
    requires 1 <= w.day
    ensures Billable(r, w) <==> IsBilled(r, w)
  {
    hide LondonDate, LondonMidnight;
    OnLondonDate(r.createdAt, w.day);
  }

  lemma FactByColumns(r: ViewRow, w: Window, rates: RateTables, k: FtBillingKey)
    requires 1 <= w.day && NewestFirst(rates) && r.notificationType != Messagebox
    ensures FactKeyOf(r, rates, w.day) == Some(k) <==> IsFactOf(k, r, w, rates)
  {
    hide GetRate, IsSmsRateOfDay, IsLetterRateOfDay, NewestFirst, LondonMidnight;
    match r.notificationType
    case Sms => SmsRateInColumns(rates, w.day, k.rate);
    case Letter => LetterRateInColumns(rates, w.day, None, r.billableUnits, k.postage, k.rate);
    case _ => EmailsAreFree(rates, w.day);
  }

  lemma EmailsAreFree(rates: RateTables, date: Date)
    requires 1 <= date
    ensures GetRate(rates, Email, date, None, None, "none") == Some(0.0)
  {
  }

  /** The fact that the write gives to a billed notification is the one that its columns name. */
  lemma BilledAsByColumns(r: ViewRow, w: Window, rates: RateTables, k: FtBillingKey)
    requires 1 <= w.day && NewestFirst(rates)
    ensures Billable(r, w) && FactKeyOf(r, rates, w.day) == Some(k) <==> IsBilledAs(r, w, rates, k)
  {
    hide FactKeyOf, IsFactOf, NewestFirst;
    BilledByColumns(r, w);
    if IsBilled(r, w) {
      FactByColumns(r, w, rates, k);
    }
  }

  lemma TotalsByColumns(view: seq<ViewRow>, w: Window, rates: RateTables, k: FtBillingKey)
    requires 1 <= w.day && NewestFirst(rates)
    ensures HasBillable(view, w, rates, k) <==> SomeBilledAs(view, w, rates, k)
    ensures Sum(view, UnitsOfFact(w, rates, k)) == Sum(view, UnitsBilledAs(w, rates, k))
    ensures Sum(view, CountOfFact(w, rates, k)) == Sum(view, CountBilledAs(w, rates, k))
  {
    hide FactKeyOf, Billable, IsBilled, IsFactOf, NewestFirst, Sum;
    forall r: ViewRow
      ensures Billable(r, w) && FactKeyOf(r, rates, w.day) == Some(k) <==> IsBilledAs(r, w, rates, k)
      ensures UnitsOfFact(w, rates, k)(r) == UnitsBilledAs(w, rates, k)(r)
      ensures CountOfFact(w, rates, k)(r) == CountBilledAs(w, rates, k)(r)
    {
      BilledAsByColumns(r, w, rates, k);
      if IsBilledAs(r, w, rates, k) {
        SameType(r, w, rates, k);
      }
    }
    SumEqual(view, UnitsOfFact(w, rates, k), UnitsBilledAs(w, rates, k));
    SumEqual(view, CountOfFact(w, rates, k), CountBilledAs(w, rates, k));
  }

  lemma SameType(r: ViewRow, w: Window, rates: RateTables, k: FtBillingKey)
    requires 1 <= w.day && IsBilledAs(r, w, rates, k)
    ensures k.notificationType == r.notificationType && OnTheDay(k, w)
  {
    hide IsSmsRateOfDay, IsLetterRateOfDay;
  }

  /** Exact facts are facts that match the notifications in every column. */
  lemma ExactByColumns(table: FtBilling, view: seq<ViewRow>, w: Window, rates: RateTables)
    requires 1 <= w.day && NewestFirst(rates)
    ensures FactsAreExact(table, view, w, rates) <==> FactsMatch(table, view, w, rates)
  {
    hide Sum, HasBillable, SomeBilledAs, NewestFirst, UnitsOfFact, CountOfFact, UnitsBilledAs, CountBilledAs;
    forall k
      ensures InWindow(w, k) <==> OnTheDay(k, w)
      ensures HasBillable(view, w, rates, k) <==> SomeBilledAs(view, w, rates, k)
      ensures Sum(view, UnitsOfFact(w, rates, k)) == Sum(view, UnitsBilledAs(w, rates, k))
      ensures Sum(view, CountOfFact(w, rates, k)) == Sum(view, CountBilledAs(w, rates, k))
    {
      TotalsByColumns(view, w, rates, k);
    }
  }

  // ---------------------------------------------------------------- what the writes do

  /** Two letters with different sheet counts would be stored as one fact. */
  ghost predicate SheetCountsMeet(view: seq<ViewRow>, w: Window, rates: RateTables)
    requires 1 <= w.day
  {
    exists r, r', k: FtBillingKey ::
      && r in view && r' in view && r.billableUnits != r'.billableUnits && k.notificationType == Letter
      && IsBilledAs(r, w, rates, k) && IsBilledAs(r', w, rates, k)
  }

  /** Some billed notification is not stored as any fact, because no rate has started for it. */
  ghost predicate SomeUnpriced(view: seq<ViewRow>, w: Window, rates: RateTables)
    requires 1 <= w.day
  {
    exists r :: r in view && IsBilled(r, w) && forall k :: !IsFactOf(k, r, w, rates)
  }

  lemma UnpricedByColumns(view: seq<ViewRow>, w: Window, rates: RateTables)
    requires 1 <= w.day && NewestFirst(rates)
    ensures AnyBillable(view, w) <==> exists r :: r in view && IsBilled(r, w)
    ensures LacksRate(view, w, rates) <==> SomeUnpriced(view, w, rates)
  {
    hide FactKeyOf, Billable, IsBilled, IsFactOf, NewestFirst;
    forall r | r in view
      ensures Billable(r, w) <==> IsBilled(r, w)
      ensures IsBilled(r, w) ==> (FactKeyOf(r, rates, w.day).None? <==> forall k :: !IsFactOf(k, r, w, rates))
    {
      BilledByColumns(r, w);
      if IsBilled(r, w) {
        forall k ensures FactKeyOf(r, rates, w.day) == Some(k) <==> IsFactOf(k, r, w, rates) {
          BilledAsByColumns(r, w, rates, k);
        }
      }
    }
  }

  lemma MeetingByColumns(view: seq<ViewRow>, w: Window, rates: RateTables)
    requires 1 <= w.day && NewestFirst(rates) && !LacksRate(view, w, rates)
    ensures Collides(view, w, rates) <==> SheetCountsMeet(view, w, rates)
  {
    hide FactKeyOf, Billable, IsBilled, IsFactOf, NewestFirst, SheetCountsShareRate;
    if Collides(view, w, rates) {
      var r, r' :| r in view && r' in view && Billable(r, w) && Billable(r', w)
                && SheetCountsShareRate(r, r', rates, w.day);
      MeetingLetters(r, r', w, rates);
      var k := FactKeyOf(r, rates, w.day).value;
      BilledAsByColumns(r, w, rates, k);
      BilledAsByColumns(r', w, rates, k);
      SameType(r, w, rates, k);
    }
    if SheetCountsMeet(view, w, rates) {
      var r, r', k: FtBillingKey :|
          && r in view && r' in view && r.billableUnits != r'.billableUnits && k.notificationType == Letter
          && IsBilledAs(r, w, rates, k) && IsBilledAs(r', w, rates, k);
      BilledAsByColumns(r, w, rates, k);
      BilledAsByColumns(r', w, rates, k);
      SameType(r, w, rates, k);
      SameType(r', w, rates, k);
      LettersOfOneKey(r, r', rates, w.day);
    }
  }

  lemma MeetingLetters(r: ViewRow, r': ViewRow, w: Window, rates: RateTables)
    requires 1 <= w.day && SheetCountsShareRate(r, r', rates, w.day) && FactKeyOf(r, rates, w.day).Some?
    ensures FactKeyOf(r, rates, w.day) == FactKeyOf(r', rates, w.day)
    ensures r.billableUnits != r'.billableUnits && r.notificationType == Letter
  {
    hide RateOf;
  }

  lemma LettersOfOneKey(r: ViewRow, r': ViewRow, rates: RateTables, day: Date)
    requires 1 <= day && r.billableUnits != r'.billableUnits && r.notificationType == r'.notificationType == Letter
    requires FactKeyOf(r, rates, day).Some? && FactKeyOf(r, rates, day) == FactKeyOf(r', rates, day)
    ensures SheetCountsShareRate(r, r', rates, day)
  {
    hide RateOf;
  }

  /** How a write must end, by the columns: without data if nothing is billed, with an error if a billed
      notification has no rate or if the sheet counts of two letters meet in one fact. */
  ghost function Ending(view: seq<ViewRow>, w: Window, rates: RateTables): UpdateResult
    requires 1 <= w.day
  {
    if forall r | r in view :: !IsBilled(r, w) then NoData
    else if SomeUnpriced(view, w, rates) then RateMissing
    else if SheetCountsMeet(view, w, rates) then KeyRepeated
    else Updated
  }

  lemma EndingByColumns(table: FtBilling, view: seq<ViewRow>, w: Window, rates: RateTables)
    requires 1 <= w.day && NewestFirst(rates)
    ensures UpdatedFacts(table, FetchBillingDataForDay(view, w), rates, w.day).1 == Ending(view, w, rates)
  {
    hide UpdatedFacts, FetchBillingDataForDay, IsBilled, AnyBillable, LacksRate, Collides, SomeUnpriced,
         SheetCountsMeet, NewestFirst;
    UpdateEndsIn(table, view, w, rates);
    UnpricedByColumns(view, w, rates);
    if !LacksRate(view, w, rates) {
      MeetingByColumns(view, w, rates);
    }
  }

  lemma FailureChangesNothing(table: FtBilling, data: seq<BillingDatum>, rates: RateTables, day: Date)
    requires 1 <= day
    ensures UpdatedFacts(table, data, rates, day).1 != Updated ==> UpdatedFacts(table, data, rates, day).0 == table
  {
  }

  /** A rebuild ends as the columns say. If it ends Updated, the facts of the day match the billed
      notifications, whatever was there, and the rest of the table is as it was; in every other
      case nothing changes. */
  lemma RebuildMatchesNotifications(committed: FtBilling, view: seq<ViewRow>, w: Window, rates: RateTables)
    requires 1 <= w.day && NewestFirst(rates)
    ensures var (after, result) := AfterRebuild(committed, view, w, rates);
            && result == Ending(view, w, rates)
            && (result == Updated ==> FactsMatch(after, view, w, rates) && SameElsewhere(after, committed, w))
            && (result != Updated ==> after == committed)
  {
    hide UpdatedFacts, FetchBillingDataForDay, Ending, FactsMatch, FactsAreExact, AnyBillable, LacksRate, Collides,
         NewestFirst;
    EndingByColumns(WithoutWindow(committed, w), view, w, rates);
    RebuildRollsBackIff(committed, view, w, rates);
    var (after, result) := AfterRebuild(committed, view, w, rates);
    if result.Updated? {
      RebuildIsExact(committed, view, w, rates);
      ExactByColumns(after, view, w, rates);
    }
  }

  /** A nightly update ends as the columns say. If it ends Updated, each fact that a billed notification
      has is in the table with its totals, and all other facts, also those of the day, are as
      they were; so the day matches exactly if each of its old facts is that of a billed
      notification. In every other case nothing changes. */
  lemma NightlyUpdateMatchesNotifications(committed: FtBilling, view: seq<ViewRow>, day: Date, rates: RateTables)
    requires 1 <= day && NewestFirst(rates)
    ensures var w := Window(day, None);
            var (after, result) := AfterNightlyUpdate(committed, view, day, rates);
            && result == Ending(view, w, rates)
            && (result == Updated ==>
                  forall k ::
                    && (k in after <==> k in committed || SomeBilledAs(view, w, rates, k))
                    && (SomeBilledAs(view, w, rates, k) ==> k.bstDate == day && HasTotals(after[k], view, w, rates, k))
                    && (k in committed && !SomeBilledAs(view, w, rates, k) ==> after[k] == committed[k]))
            && (result == Updated ==>
                  (FactsMatch(after, view, w, rates)
                   <==> forall k | k in committed && k.bstDate == day :: SomeBilledAs(view, w, rates, k)))
            && (result != Updated ==> after == committed)
  {
    hide UpdatedFacts, FetchBillingDataForDay, Ending, SomeBilledAs, HasBillable, Sum, UnitsOfFact, CountOfFact,
         UnitsBilledAs, CountBilledAs, NewestFirst;
    var w := Window(day, None);
    EndingByColumns(committed, view, w, rates);
    FailureChangesNothing(committed, FetchBillingDataForDay(view, w), rates, day);
    var (after, result) := AfterNightlyUpdate(committed, view, day, rates);
    if result.Updated? {
      UpsertedFacts(committed, view, w, rates);
      forall k
        ensures HasBillable(view, w, rates, k) <==> SomeBilledAs(view, w, rates, k)
        ensures Sum(view, UnitsOfFact(w, rates, k)) == Sum(view, UnitsBilledAs(w, rates, k))
        ensures Sum(view, CountOfFact(w, rates, k)) == Sum(view, CountBilledAs(w, rates, k))
      {
        TotalsByColumns(view, w, rates, k);
      }
    }
  }

  // ---------------------------------------------------------------- what the usage queries report of the texts

  /** The chargeable units of the texts that a service is billed for on a day: the parts of each, times
      its rate multiplier, which is 1 if it has none. */
  ghost function TextUnits(s: ServiceId, w: Window): ViewRow -> int {
    (r: ViewRow) =>
      if r.notificationType == Sms && r.serviceId == s && IsBilled(r, w)
      then r.billableUnits * (if r.rateMultiplier == None then 1 else r.rateMultiplier.value)
      else 0
  }

  /** The rows of the scan on the given date are the SMS facts of the service, each once. */
  ghost predicate ScansDay(scan: seq<FtBillingRow>, table: FtBilling, s: ServiceId, date: Date) {
    && NoDuplicates(scan)
    && forall f: FtBillingRow | f.key.bstDate == date ::
         f in scan
         <==> f.key in table && table[f.key] == f.value && f.key.serviceId == s && f.key.notificationType == Sms
  }

  /** A billed text of the service, and its fact. */
  ghost function FactOfText(w: Window, rates: RateTables): ViewRow -> Option<FtBillingKey>
    requires 1 <= w.day
  {
    (r: ViewRow) => FactKeyOf(r, rates, w.day)
  }

  ghost function IsText(s: ServiceId, w: Window): ViewRow -> bool {
    (r: ViewRow) => r.notificationType == Sms && r.serviceId == s && IsBilled(r, w)
  }

  lemma TextOfFact(r: ViewRow, w: Window, rates: RateTables, s: ServiceId, k: FtBillingKey)
    requires 1 <= w.day && NewestFirst(rates) && k.notificationType == Sms && k.serviceId == s
    ensures Only(FactOfText(w, rates), TextUnits(s, w), Some(k))(r) == UnitsBilledAs(w, rates, k)(r) * k.rateMultiplier
  {
    hide IsBilled, FactKeyOf, IsSmsRateOfDay, IsLetterRateOfDay, NewestFirst, Billable;
    BilledAsByColumns(r, w, rates, k);
    BilledByColumns(r, w);
  }

  /** The units of a fact, times its multiplier, are those of its texts. */
  lemma FactAddsUp(view: seq<ViewRow>, w: Window, rates: RateTables, s: ServiceId, f: FtBillingRow)
    requires 1 <= w.day && NewestFirst(rates) && HasTotals(f.value, view, w, rates, f.key)
    requires f.key.notificationType == Sms && f.key.serviceId == s
    ensures Units(f)
         == Sum(Filter(view, IsText(s, w)), Only(FactOfText(w, rates), TextUnits(s, w), Some(f.key)))
  {
    hide IsBilled, FactOfText, Sum, NewestFirst;
    var k := f.key;
    forall r | r in view
      ensures Only(FactOfText(w, rates), TextUnits(s, w), Some(k))(r)
           == UnitsBilledAs(w, rates, k)(r) * k.rateMultiplier
    {
      TextOfFact(r, w, rates, s, k);
    }
    SumScaled(view, UnitsBilledAs(w, rates, k), Only(FactOfText(w, rates), TextUnits(s, w), Some(k)), k.rateMultiplier);
    SumOverFilter(view, IsText(s, w), Only(FactOfText(w, rates), TextUnits(s, w), Some(k)));
  }

  function KeyOfFact(f: FtBillingRow): Option<FtBillingKey> { Some(f.key) }

  /** The units of some facts, as groups of texts. */
  lemma {:induction false} FactsAsGroups(view: seq<ViewRow>, w: Window, rates: RateTables,
                                         s: ServiceId, facts: seq<FtBillingRow>)
    requires 1 <= w.day && NewestFirst(rates)
    requires forall f | f in facts :: f.key.notificationType == Sms && f.key.serviceId == s
                                   && HasTotals(f.value, view, w, rates, f.key)
    ensures Sum(facts, Units)
         == GroupTotal(Filter(view, IsText(s, w)), FactOfText(w, rates), TextUnits(s, w), MapSeq(facts, KeyOfFact))
  {
    hide IsBilled, FactOfText, Sum, NewestFirst, HasTotals, Units, TextUnits, Filter, Only;
    if facts == [] {
      SumOfNothing(Units);
    } else {
      var front, last := facts[..|facts| - 1], facts[|facts| - 1];
      assert facts == front + [last];
      FactsAsGroups(view, w, rates, s, front);
      SumSnoc(front, last, Units);
      assert last in facts;
      FactAddsUp(view, w, rates, s, last);
      var keys := MapSeq(facts, KeyOfFact);
      assert keys[..|front|] == MapSeq(front, KeyOfFact) && keys[|front|] == Some(last.key);
    }
  }

  /** Facts with different keys that are all the facts of the texts have all the units of the texts. */
  lemma FactsHoldTheTexts(table: FtBilling, view: seq<ViewRow>, w: Window, rates: RateTables, s: ServiceId,
                          facts: seq<FtBillingRow>)
    requires 1 <= w.day && NewestFirst(rates) && FactsMatch(table, view, w, rates)
    requires w.services == None || s in w.services.value
    requires ScansDay(facts, table, s, w.day) && forall f | f in facts :: f.key.bstDate == w.day
    requires Ending(view, w, rates) != RateMissing
    ensures Sum(facts, Units) == Sum(view, TextUnits(s, w))
  {
    hide IsBilled, Sum, NewestFirst, HasTotals, Units, TextUnits, IsFactOf, FactKeyOf;
    var texts, keys := Filter(view, IsText(s, w)), MapSeq(facts, KeyOfFact);
    FactsAsGroups(view, w, rates, s, facts);
    KeysDiffer(facts, table, s, w.day);
    forall r | r in texts ensures FactOfText(w, rates)(r) in keys {
      FilterContains(view, IsText(s, w), r);
      var k := FactOfPricedText(view, w, rates, s, r);
      var f := Entry(k, table[k]);
      assert f in facts;
      var i :| 0 <= i < |facts| && facts[i] == f;
      assert keys[i] == KeyOfFact(f) == Some(k);
    }
    GroupTotalConserved(texts, FactOfText(w, rates), TextUnits(s, w), keys);
    NoTextNoUnits(view, s, w);
    SumOverFilter(view, IsText(s, w), TextUnits(s, w));
  }

  lemma KeysDiffer(facts: seq<FtBillingRow>, table: FtBilling, s: ServiceId, date: Date)
    requires ScansDay(facts, table, s, date) && forall f | f in facts :: f.key.bstDate == date
    ensures NoDuplicates(MapSeq(facts, KeyOfFact))
  {
    var keys := MapSeq(facts, KeyOfFact);
    forall i, j | 0 <= i < j < |keys| ensures keys[i] != keys[j] {
      assert facts[i] in facts && facts[j] in facts && facts[i] != facts[j];
      assert keys[i] == KeyOfFact(facts[i]) && keys[j] == KeyOfFact(facts[j]);
    }
  }

  lemma NoTextNoUnits(view: seq<ViewRow>, s: ServiceId, w: Window)
    ensures forall r :: !IsText(s, w)(r) ==> TextUnits(s, w)(r) == 0
  {
    hide IsBilled;
  }

  lemma FactOfPricedText(view: seq<ViewRow>, w: Window, rates: RateTables, s: ServiceId, r: ViewRow)
      returns (k: FtBillingKey)
    requires 1 <= w.day && NewestFirst(rates) && Ending(view, w, rates) != RateMissing
    requires r in view && IsText(s, w)(r)
    ensures FactKeyOf(r, rates, w.day) == Some(k) && IsBilledAs(r, w, rates, k) && SomeBilledAs(view, w, rates, k)
    ensures k.bstDate == w.day && k.serviceId == s && k.notificationType == Sms
  {
    hide IsBilled, FactKeyOf, IsSmsRateOfDay, IsLetterRateOfDay, NewestFirst;
    assert !SomeUnpriced(view, w, rates);
    k :| IsFactOf(k, r, w, rates);
    BilledAsByColumns(r, w, rates, k);
  }

  /** The units of a scan on one date are those of its rows on the date. */
  lemma UnitsOfDay(scan: seq<FtBillingRow>, table: FtBilling, s: ServiceId, date: Date)
    requires ScansDay(scan, table, s, date)
    ensures var facts := Filter(scan, OnDate(date));
            && ScansDay(facts, table, s, date) && (forall f | f in facts :: f.key.bstDate == date)
            && Sum(scan, UnitsBetween(date, date)) == Sum(facts, Units)
  {
    hide Sum, Units, Filter;
    var facts := Filter(scan, OnDate(date));
    forall f ensures f in facts <==> f in scan && f.key.bstDate == date {
      FilterContains(scan, OnDate(date), f);
    }
    FilterNoDuplicates(scan, OnDate(date));
    SumOverFilter(scan, OnDate(date), UnitsBetween(date, date));
    SumEqual(facts, UnitsBetween(date, date), Units);
  }

  lemma DayAddsUp(table: FtBilling, view: seq<ViewRow>, w: Window, rates: RateTables, s: ServiceId,
                  scan: seq<FtBillingRow>)
    requires 1 <= w.day && NewestFirst(rates) && FactsMatch(table, view, w, rates)
    requires Ending(view, w, rates) != RateMissing
    requires (w.services == None || s in w.services.value) && ScansDay(scan, table, s, w.day)
    ensures Sum(scan, UnitsBetween(w.day, w.day)) == Sum(view, TextUnits(s, w))
  {
    hide Sum, Units, NewestFirst, FactsMatch, Ending, ScansDay;
    UnitsOfDay(scan, table, s, w.day);
    FactsHoldTheTexts(table, view, w, rates, s, Filter(scan, OnDate(w.day)));
  }

  /** Chargeable units are reported once and whole, whether or not the service has an allowance. */
  lemma {:induction false} ChargeableOfRows(mine: seq<FtBillingRow>, allowance: Option<int>, start: Date,
                                            end: Date)
    ensures Sum(Filter(RowsOfService(mine, allowance), InRange(start, end)), ChargeableOf)
         == Sum(mine, UnitsBetween(start, end))
    ensures Filter(RowsOfService(mine, allowance), InRange(start, end)) == []
       <==> forall r | r in mine :: !(start <= r.key.bstDate <= end)
  {
    hide Units, RowsOfService, AllServicesSmsRow, Sum, Filter;
    if mine == [] {
      NoRowsOfService(allowance, start, end);
    } else {
      var front, last := mine[..|mine| - 1], mine[|mine| - 1];
      assert mine == front + [last];
      ChargeableOfRows(front, allowance, start, end);
      RowsOfServiceSnoc(front, last, allowance);
      var rows, row := RowsOfService(front, allowance), AllServicesSmsRow(last, allowance, Sum(front, Units));
      RowKeepsUnits(last, allowance, Sum(front, Units));
      FilterSnoc(rows, row, InRange(start, end));
      SumSnoc(Filter(rows, InRange(start, end)), row, ChargeableOf);
      SumSnoc(front, last, UnitsBetween(start, end));
      assert (forall r | r in mine :: !(start <= r.key.bstDate <= end))
        <==> (forall r | r in front :: !(start <= r.key.bstDate <= end)) && !(start <= last.key.bstDate <= end);
    }
  }

  lemma NoRowsOfService(allowance: Option<int>, start: Date, end: Date)
    ensures Filter(RowsOfService([], allowance), InRange(start, end)) == []
    ensures Sum<AllServicesRow>([], ChargeableOf) == Sum<FtBillingRow>([], UnitsBetween(start, end)) == 0
  {
    assert RowsOfService([], allowance) == [];
  }

  lemma RowKeepsUnits(r: FtBillingRow, allowance: Option<int>, used: int)
    ensures AllServicesSmsRow(r, allowance, used).bstDate == r.key.bstDate
         && AllServicesSmsRow(r, allowance, used).chargeableUnits == Units(r)
  {
  }

  lemma ChargeableInReport(scan: seq<FtBillingRow>, allowances: map<ServiceId, int>, s: ServiceId, start: Date,
                           end: Date)
    ensures var report := FetchUsageForAllServicesSms(scan, allowances, s, start, end);
            var mine := Filter(scan, OfService(s));
            && (report.None? <==> forall r | r in mine :: !(start <= r.key.bstDate <= end))
            && (report.Some? ==> report.value.chargeableUnits == Sum(mine, UnitsBetween(start, end)))
  {
    hide Units, RowsOfService, AllServicesSms, Sum, SumReal, Filter;
    PartitionIsTheServiceAlone(scan, allowances, s);
    FilterTwice(AllServicesSms(scan, allowances), RowOfService(s), InRange(start, end),
                ServiceRowInRange(s, start, end));
    ChargeableOfRows(Filter(scan, OfService(s)), AllowanceOf(allowances, s), start, end);
  }

  /** From the notifications to the reports. Once the facts of a day match its notifications, the
      chargeable units that both usage queries report for the day are those of the day's billed
      texts, each counted with its own rate multiplier; and the all-services report has a row for
      the service exactly if a text of it was billed. */
  lemma ReportedUnitsAreTheTexts(table: FtBilling, view: seq<ViewRow>, w: Window, rates: RateTables, s: ServiceId,
                                 scan: seq<FtBillingRow>, limit: int, all: seq<FtBillingRow>,
                                 allowances: map<ServiceId, int>)
    requires 1 <= w.day && NewestFirst(rates) && FactsMatch(table, view, w, rates)
    requires Ending(view, w, rates) != RateMissing && (w.services == None || s in w.services.value)
    requires ScansDay(scan, table, s, w.day) && ScansDay(Filter(all, OfService(s)), table, s, w.day)
    ensures Sum(UsageForServiceSms(scan, limit), ChargeableBetween(w.day, w.day)) == Sum(view, TextUnits(s, w))
    ensures var report := FetchUsageForAllServicesSms(all, allowances, s, w.day, w.day);
            && (report.Some? <==> exists r :: r in view && IsText(s, w)(r))
            && (report.Some? ==> report.value.chargeableUnits == Sum(view, TextUnits(s, w)))
  {
    hide Sum, Units, NewestFirst, FactsMatch, Ending, ScansDay, IsText, TextUnits, UsageForServiceSms,
         FetchUsageForAllServicesSms;
    ChargeableIsUnits(scan, limit, w.day, w.day);
    DayAddsUp(table, view, w, rates, s, scan);
    DayAddsUp(table, view, w, rates, s, Filter(all, OfService(s)));
    ChargeableInReport(all, allowances, s, w.day, w.day);
    TextsHaveFacts(table, view, w, rates, s, Filter(all, OfService(s)));
  }

  lemma TextsHaveFacts(table: FtBilling, view: seq<ViewRow>, w: Window, rates: RateTables, s: ServiceId,
                       scan: seq<FtBillingRow>)
    requires 1 <= w.day && NewestFirst(rates) && FactsMatch(table, view, w, rates)
    requires Ending(view, w, rates) != RateMissing && (w.services == None || s in w.services.value)
    requires ScansDay(scan, table, s, w.day)
    ensures (exists f :: f in scan && f.key.bstDate == w.day) <==> exists r :: r in view && IsText(s, w)(r)
  {
    hide IsBilled, HasTotals, NewestFirst, Ending, IsSmsRateOfDay, IsLetterRateOfDay;
    if f :| f in scan && f.key.bstDate == w.day {
      assert SomeBilledAs(view, w, rates, f.key);
      var r :| r in view && IsBilledAs(r, w, rates, f.key);
      assert IsText(s, w)(r);
    }
    if r :| r in view && IsText(s, w)(r) {
      var k := FactOfPricedText(view, w, rates, s, r);
      assert Entry(k, table[k]) in scan;
    }
  }

  /** The write ends Updated, and leaves no fact of the day that no billed notification has. */
  ghost predicate EndsExact(committed: FtBilling, write: Write)
    requires 1 <= WindowOf(write).day
  {
    match write
    case Nightly(view, day, rates) =>
      && AfterNightlyUpdate(committed, view, day, rates).1 == Updated
      && forall k | k in committed && k.bstDate == day :: SomeBilledAs(view, Window(day, None), rates, k)
    case Rebuild(view, w, rates) => AfterRebuild(committed, view, w, rates).1 == Updated
  }

  ghost function WindowOf(write: Write): Window {
    match write
    case Nightly(_, day, _) => Window(day, None)
    case Rebuild(_, w, _) => w
  }

  ghost function Written(committed: FtBilling, write: Write): FtBilling
    requires 1 <= WindowOf(write).day
  {
    match write
    case Nightly(view, day, rates) => AfterNightlyUpdate(committed, view, day, rates).0
    case Rebuild(view, w, rates) => AfterRebuild(committed, view, w, rates).0
  }

  /** A nightly update or a rebuild that ends so is what the usage queries report of its day. */
  lemma WrittenTextsAreReported(committed: FtBilling, write: Write, s: ServiceId, scan: seq<FtBillingRow>, limit: int,
                                all: seq<FtBillingRow>, allowances: map<ServiceId, int>)
    requires 1 <= WindowOf(write).day && NewestFirst(write.rates) && EndsExact(committed, write)
    requires var w := WindowOf(write); w.services == None || s in w.services.value
    requires ScansDay(scan, Written(committed, write), s, WindowOf(write).day)
    requires ScansDay(Filter(all, OfService(s)), Written(committed, write), s, WindowOf(write).day)
    ensures var w, day := WindowOf(write), WindowOf(write).day;
            var report := FetchUsageForAllServicesSms(all, allowances, s, day, day);
            && Sum(UsageForServiceSms(scan, limit), ChargeableBetween(day, day)) == Sum(write.view, TextUnits(s, w))
            && (report.Some? <==> exists r :: r in write.view && IsText(s, w)(r))
            && (report.Some? ==> report.value.chargeableUnits == Sum(write.view, TextUnits(s, w)))
  {
    hide AfterNightlyUpdate, AfterRebuild, SomeBilledAs, ScansDay, Sum, FactsMatch, HasTotals, Filter, IsBilled,
         NewestFirst, UsageForServiceSms, FetchUsageForAllServicesSms;
    match write {
      case Nightly(view, day, rates) => NightlyUpdateMatchesNotifications(committed, view, day, rates);
      case Rebuild(view, w, rates) => RebuildMatchesNotifications(committed, view, w, rates);
    }
    ReportedUnitsAreTheTexts(Written(committed, write), write.view, WindowOf(write), write.rates, s, scan, limit, all,
                             allowances);
  }

  // ---------------------------------------------------------------- a year of texts

  /** The chargeable units of the service's texts that are billed on the dates of a range. */
  ghost function TextUnitsBetween(s: ServiceId, start: Date, end: Date): ViewRow -> int {
    (r: ViewRow) =>
      if DAY <= r.createdAt && start <= LondonDate(r.createdAt) <= end
      then TextUnits(s, Window(LondonDate(r.createdAt), None))(r)
      else 0
  }

  lemma OneMoreDate(r: ViewRow, s: ServiceId, start: Date, end: Date)
    requires start <= end
    ensures TextUnitsBetween(s, start, end)(r)
         == TextUnitsBetween(s, start, end - 1)(r) + TextUnits(s, Window(end, None))(r)
  {
    hide LondonDate;
  }

  lemma OneMoreDateOfFacts(scan: seq<FtBillingRow>, start: Date, end: Date)
    requires start <= end
    ensures Sum(scan, UnitsBetween(start, end))
         == Sum(scan, UnitsBetween(start, end - 1)) + Sum(scan, UnitsBetween(end, end))
  {
    hide Units, Sum;
    SumOfTwo(scan, UnitsBetween(start, end - 1), UnitsBetween(end, end), UnitsBetween(start, end));
  }

  lemma {:induction false} DatesAddUp(table: FtBilling, view: seq<ViewRow>, rates: RateTables, s: ServiceId,
                                      scan: seq<FtBillingRow>, start: Date, end: Date)
    requires 1 <= start <= end + 1 && NewestFirst(rates)
    requires forall date | start <= date <= end :: FactsMatch(table, view, Window(date, None), rates)
    requires forall date | start <= date <= end :: Ending(view, Window(date, None), rates) != RateMissing
    requires forall date | start <= date <= end :: ScansDay(scan, table, s, date)
    ensures Sum(scan, UnitsBetween(start, end)) == Sum(view, TextUnitsBetween(s, start, end))
    decreases end - start
  {
    hide Units, Sum, TextUnits, TextUnitsBetween, UnitsBetween, FactsMatch, Ending, NewestFirst, ScansDay;
    if start == end + 1 {
      NothingBetween(scan, view, s, start, end);
    } else {
      DatesAddUp(table, view, rates, s, scan, start, end - 1);
      DayAddsUp(table, view, Window(end, None), rates, s, scan);
      OneMoreDateOfFacts(scan, start, end);
      forall r | r in view
        ensures TextUnitsBetween(s, start, end)(r)
             == TextUnitsBetween(s, start, end - 1)(r) + TextUnits(s, Window(end, None))(r)
      {
        OneMoreDate(r, s, start, end);
      }
      SumOfTwo(view, TextUnitsBetween(s, start, end - 1), TextUnits(s, Window(end, None)),
               TextUnitsBetween(s, start, end));
    }
  }

  lemma NothingBetween(scan: seq<FtBillingRow>, view: seq<ViewRow>, s: ServiceId, start: Date, end: Date)
    requires end < start
    ensures Sum(scan, UnitsBetween(start, end)) == 0 && Sum(view, TextUnitsBetween(s, start, end)) == 0
  {
    hide Units, LondonDate;
    SumScaled(scan, UnitsBetween(start, end), UnitsBetween(start, end), 0);
    SumScaled(view, TextUnitsBetween(s, start, end), TextUnitsBetween(s, start, end), 0);
  }

  /** What a service is charged for a range of dates, such as a financial year, told from its texts: once
      the facts of every date match the notifications, the charged units of its usage are those of
      its billed texts beyond the free allowance, in whatever order the facts are visited. */
  lemma RangeChargesTheTexts(table: FtBilling, view: seq<ViewRow>, rates: RateTables, s: ServiceId,
                             scan: seq<FtBillingRow>, limit: int, start: Date, end: Date)
    requires 1 <= start <= end + 1 && NewestFirst(rates)
    requires forall date | start <= date <= end :: FactsMatch(table, view, Window(date, None), rates)
    requires forall date | start <= date <= end :: Ending(view, Window(date, None), rates) != RateMissing
    requires forall date | start <= date <= end :: ScansDay(scan, table, s, date)
    requires forall f | f in scan :: start <= f.key.bstDate <= end
    ensures Sum(UsageForServiceSms(scan, limit), Charged)
         == Max(Sum(view, TextUnitsBetween(s, start, end)) - Max(limit, 0), 0)
  {
    hide Units, Sum, TextUnitsBetween, UsageForServiceSms, FactsMatch, Ending, NewestFirst, ScansDay;
    AllowanceConserved(scan, limit);
    DatesAddUp(table, view, rates, s, scan, start, end);
    SumEqual(scan, UnitsBetween(start, end), Units);
  }
}
