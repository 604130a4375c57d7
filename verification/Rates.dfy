/** Looking up the rate of a day. */
module Rates {
  import opened Collections
  import opened LondonTime
  import opened Schema

  datatype Rate = Rate(validFrom: Instant, rate: real, notificationType: NotificationType)

  datatype LetterRate = LetterRate(startDate: Instant, crown: bool, sheetCount: nat, postClass: string, rate: real)

  datatype RateTables = RateTables(nonLetter: seq<Rate>, letter: seq<LetterRate>)

  /** get_rates_for_billing orders both tables newest first; ties may come in any order. */
  ghost predicate NewestFirst(rates: RateTables) {
    && (forall i, j | 0 <= i <= j < |rates.nonLetter| :: rates.nonLetter[j].validFrom <= rates.nonLetter[i].validFrom)
    && (forall i, j | 0 <= i <= j < |rates.letter| :: rates.letter[j].startDate <= rates.letter[i].startDate)
  }

  predicate RateApplies(r: Rate, t: NotificationType, startOfDay: Instant) {
    t == r.notificationType && startOfDay >= r.validFrom
  }

  predicate LetterRateApplies(r: LetterRate, startOfDay: Instant, crown: bool, pageCount: nat, postClass: string) {
    startOfDay >= r.startDate && crown == r.crown && pageCount == r.sheetCount && postClass == r.postClass
  }

  function FirstRate(rates: seq<Rate>, t: NotificationType, startOfDay: Instant): Option<real> {
    if rates == [] then None
    else if RateApplies(rates[0], t, startOfDay) then Some(rates[0].rate)
    else FirstRate(rates[1..], t, startOfDay)
  }

  function FirstLetterRate(rates: seq<LetterRate>, startOfDay: Instant, crown: bool, pageCount: nat,
                           postClass: string): Option<real>
  {
    if rates == [] then None
    else if LetterRateApplies(rates[0], startOfDay, crown, pageCount, postClass) then Some(rates[0].rate)
    else FirstLetterRate(rates[1..], startOfDay, crown, pageCount, postClass)
  }

  /** get_rate. None stands for the exception raised when no rate applies. */
  function GetRate(rates: RateTables, t: NotificationType, date: Date, crown: Option<bool>,
                   pageCount: Option<nat>, postClass: string): Option<real>
    requires 1 <= date
  {
    var startOfDay := LondonMidnight(date);
    match t
    case Letter =>
      (match pageCount
       case Some(0) => Some(0.0)
       case Some(n) => FirstLetterRate(rates.letter, startOfDay, crown.GetOr(false) || true, n, postClass)
       case None => None)
    case Sms => FirstRate(rates.nonLetter, t, startOfDay)
    case _ => Some(0.0)
  }

  /** The crown argument is replaced by `crown or True`, so that it never has an effect, also
      when it says that the service is not a crown service. */
  lemma CrownHasNoEffect(rates: RateTables, t: NotificationType, date: Date, crown: Option<bool>, crown': Option<bool>,
                         pageCount: Option<nat>, postClass: string)
    requires 1 <= date
    ensures GetRate(rates, t, date, crown, pageCount, postClass)
         == GetRate(rates, t, date, crown', pageCount, postClass)
  {
  }

  lemma {:induction false} FirstRateIsNewest(rates: seq<Rate>, t: NotificationType, startOfDay: Instant)
    requires forall i, j | 0 <= i <= j < |rates| :: rates[j].validFrom <= rates[i].validFrom
    ensures var found := FirstRate(rates, t, startOfDay);
            && (found.None? <==> forall r | r in rates :: !RateApplies(r, t, startOfDay))
            && (found.Some? ==> exists r :: r in rates && RateApplies(r, t, startOfDay) && r.rate == found.value
                                 && forall r' | r' in rates && RateApplies(r', t, startOfDay) ::
                                     r'.validFrom <= r.validFrom)
  {
    if rates == [] {
    } else {
      assert rates == [rates[0]] + rates[1..];
      if RateApplies(rates[0], t, startOfDay) {
        assert rates[0] in rates;
        forall r' | r' in rates ensures r'.validFrom <= rates[0].validFrom {
          var j :| 0 <= j < |rates| && rates[j] == r';
        }
      } else {
        FirstRateIsNewest(rates[1..], t, startOfDay);
      }
    }
  }

  lemma {:induction false} FirstLetterRateIsNewest(rates: seq<LetterRate>, startOfDay: Instant, crown: bool, n: nat,
                                                   postClass: string)
    requires forall i, j | 0 <= i <= j < |rates| :: rates[j].startDate <= rates[i].startDate
    ensures var found := FirstLetterRate(rates, startOfDay, crown, n, postClass);
            && (found.None? <==> forall r | r in rates :: !LetterRateApplies(r, startOfDay, crown, n, postClass))
            && (found.Some? ==> exists r ::
                r in rates && LetterRateApplies(r, startOfDay, crown, n, postClass) && r.rate == found.value
                                 && forall r' | r' in rates && LetterRateApplies(r', startOfDay, crown, n, postClass) ::
                                      r'.startDate <= r.startDate)
  {
    if rates == [] {
    } else {
      assert rates == [rates[0]] + rates[1..];
      if LetterRateApplies(rates[0], startOfDay, crown, n, postClass) {
        assert rates[0] in rates;
        forall r' | r' in rates ensures r'.startDate <= rates[0].startDate {
          var j :| 0 <= j < |rates| && rates[j] == r';
        }
      } else {
        FirstLetterRateIsNewest(rates[1..], startOfDay, crown, n, postClass);
      }
    }
  }

  predicate Started(r: Rate, startOfDay: Instant) {
    r.notificationType == Sms && r.validFrom <= startOfDay
  }

  /** A rate with the greatest start that is not after the London midnight of the day. */
  ghost predicate IsNewestSmsRate(rates: RateTables, date: Date, rate: real)
    requires 1 <= date
  {
    exists r :: r in rates.nonLetter && Started(r, LondonMidnight(date)) && r.rate == rate
             && forall r' | r' in rates.nonLetter && Started(r', LondonMidnight(date)) :: r'.validFrom <= r.validFrom
  }

  /** Scanning newest first finds such a rate, and fails only if no rate has started. */
  lemma SmsRateIsTheNewest(rates: RateTables, date: Date)
    requires 1 <= date && NewestFirst(rates)
    ensures var found := GetRate(rates, Sms, date, None, None, "none");
            && (found.None? <==> forall r | r in rates.nonLetter && r.notificationType == Sms ::
                LondonMidnight(date) < r.validFrom)
            && (found.Some? ==> IsNewestSmsRate(rates, date, found.value))
  {
    var midnight := LondonMidnight(date);
    FirstRateIsNewest(rates.nonLetter, Sms, midnight);
    assert forall r | r in rates.nonLetter :: RateApplies(r, Sms, midnight) <==> Started(r, midnight);
  }

  lemma LetterRateIsTheNewest(rates: RateTables, date: Date, crown: Option<bool>, pageCount: nat, postClass: string)
    requires 1 <= date && NewestFirst(rates) && pageCount != 0
    ensures var found := GetRate(rates, Letter, date, crown, Some(pageCount), postClass);
            var midnight := LondonMidnight(date);
            && (found.None? <==> forall r | r in rates.letter ::
                !LetterRateApplies(r, midnight, true, pageCount, postClass))
            && (found.Some? ==> exists r ::
                r in rates.letter && LetterRateApplies(r, midnight, true, pageCount, postClass)
                                 && r.rate == found.value
                                 && forall r' | r' in rates.letter
                                     && LetterRateApplies(r', midnight, true, pageCount, postClass) ::
                                      r'.startDate <= r.startDate)
  {
    FirstLetterRateIsNewest(rates.letter, LondonMidnight(date), true, pageCount, postClass);
  }

  /** The newest rate of the day is unique: rates that start together do not differ. */
  ghost predicate OneNewestSmsRate(rates: RateTables, date: Date)
    requires 1 <= date
  {
    forall x, y | IsNewestSmsRate(rates, date, x) && IsNewestSmsRate(rates, date, y) :: x == y
  }

  /** The same rows, read in another order that is newest first. */
  ghost predicate IsReadingOf(again: RateTables, rates: RateTables) {
    NewestFirst(again) && multiset(again.nonLetter) == multiset(rates.nonLetter)
  }

  /** Every reading of the table has the same newest rates. */
  lemma ReadingsHaveTheSameNewest(rates: RateTables, again: RateTables, date: Date, rate: real)
    requires 1 <= date && multiset(again.nonLetter) == multiset(rates.nonLetter)
    ensures IsNewestSmsRate(rates, date, rate) <==> IsNewestSmsRate(again, date, rate)
  {
    hide LondonMidnight;
    SameRates(rates, again);
  }

  lemma {:induction false} FirstRateAt(rates: seq<Rate>, t: NotificationType, startOfDay: Instant, i: nat)
    requires i < |rates| && RateApplies(rates[i], t, startOfDay)
    requires forall j | 0 <= j < i :: !RateApplies(rates[j], t, startOfDay)
    ensures FirstRate(rates, t, startOfDay) == Some(rates[i].rate)
  {
    if i == 0 {
    } else {
      FirstRateAt(rates[1..], t, startOfDay, i - 1);
    }
  }

  lemma {:induction false} PositionOfFirst(rates: seq<Rate>, t: NotificationType, startOfDay: Instant) returns (i: nat)
    requires exists r :: r in rates && RateApplies(r, t, startOfDay)
    ensures i < |rates| && RateApplies(rates[i], t, startOfDay)
    ensures forall j | 0 <= j < i :: !RateApplies(rates[j], t, startOfDay)
  {
    if RateApplies(rates[0], t, startOfDay) {
      i := 0;
    } else {
      assert rates == [rates[0]] + rates[1..];
      i := PositionOfFirst(rates[1..], t, startOfDay);
      i := i + 1;
    }
  }

  lemma EarlierIsNewer(rates: RateTables, i: nat, j: nat)
    requires NewestFirst(rates) && i <= j < |rates.nonLetter|
    ensures rates.nonLetter[j].validFrom <= rates.nonLetter[i].validFrom
  {
  }

  /** Rates that start together may be read in either order. */
  lemma SwapSameStart(rates: RateTables, i: nat, j: nat)
    requires NewestFirst(rates) && i < |rates.nonLetter| && j < |rates.nonLetter|
    requires rates.nonLetter[i].validFrom == rates.nonLetter[j].validFrom
    ensures IsReadingOf(rates.(nonLetter := rates.nonLetter[i := rates.nonLetter[j]][j := rates.nonLetter[i]]), rates)
  {
  }

  /** If two rates are newest, the table has a reading that finds either. */
  lemma ReadingThatFinds(rates: RateTables, date: Date, rate: real) returns (again: RateTables)
    requires 1 <= date && NewestFirst(rates) && IsNewestSmsRate(rates, date, rate)
    ensures IsReadingOf(again, rates) && GetRate(again, Sms, date, None, None, "none") == Some(rate)
  {
    hide LondonMidnight, NewestFirst;
    var all, midnight := rates.nonLetter, LondonMidnight(date);
    var r :| r in all && Started(r, midnight) && r.rate == rate
          && forall r' | r' in all && Started(r', midnight) :: r'.validFrom <= r.validFrom;
    assert RateApplies(r, Sms, midnight);
    var i := PositionOfFirst(all, Sms, midnight);
    var j :| 0 <= j < |all| && all[j] == r;
    assert all[i] in all && Started(all[i], midnight);
    EarlierIsNewer(rates, i, j);
    again := rates.(nonLetter := all[i := all[j]][j := all[i]]);
    SwapSameStart(rates, i, j);
    FirstRateAt(again.nonLetter, Sms, midnight, i);
  }

  /** The SMS rate of a date is the same in every reading of the rate table if and only if its
      newest rate is unique. */
  lemma SmsRateIsDeterminedIff(rates: RateTables, date: Date)
    requires 1 <= date && NewestFirst(rates)
    ensures (forall again | IsReadingOf(again, rates) ::
               GetRate(again, Sms, date, None, None, "none") == GetRate(rates, Sms, date, None, None, "none"))
       <==> OneNewestSmsRate(rates, date)
  {
    hide GetRate, IsNewestSmsRate, NewestFirst, LondonMidnight;
    SmsRateIsTheNewest(rates, date);
    if OneNewestSmsRate(rates, date) {
      forall again | IsReadingOf(again, rates)
        ensures GetRate(again, Sms, date, None, None, "none") == GetRate(rates, Sms, date, None, None, "none")
      {
        SmsRateIsTheNewest(again, date);
        SameRates(rates, again);
        forall x: real ensures IsNewestSmsRate(rates, date, x) <==> IsNewestSmsRate(again, date, x) {
          ReadingsHaveTheSameNewest(rates, again, date, x);
        }
      }
    } else {
      var x, y :| IsNewestSmsRate(rates, date, x) && IsNewestSmsRate(rates, date, y) && x != y;
      var p := ReadingThatFinds(rates, date, x);
      var q := ReadingThatFinds(rates, date, y);
    }
  }

  lemma SameRates(rates: RateTables, again: RateTables)
    requires multiset(again.nonLetter) == multiset(rates.nonLetter)
    ensures forall r :: r in rates.nonLetter <==> r in again.nonLetter
  {
    forall r ensures r in rates.nonLetter <==> r in again.nonLetter {
      assert r in multiset(rates.nonLetter) <==> r in multiset(again.nonLetter);
    }
  }

  // ---------------------------------------------------------------- the rate in the columns of the tables

  /** The row at position i is an SMS rate that has started by the instant. */
  ghost predicate SmsRateStarted(rates: RateTables, i: int, t: Instant) {
    && 0 <= i < |rates.nonLetter|
    && rates.nonLetter[i].notificationType == Sms
    && rates.nonLetter[i].validFrom <= t
  }

  /** The rate of the newest SMS row that has started when the London day begins; of rows that start
      together, the first one read. */
  ghost predicate IsSmsRateOfDay(rates: RateTables, date: Date, rate: real)
    requires 1 <= date
  {
    exists i :: SmsRateStarted(rates, i, LondonMidnight(date)) && rates.nonLetter[i].rate == rate
        && forall j | SmsRateStarted(rates, j, LondonMidnight(date)) ::
             || rates.nonLetter[j].validFrom < rates.nonLetter[i].validFrom
             || (rates.nonLetter[j].validFrom == rates.nonLetter[i].validFrom && i <= j)
  }

  /** The row at position i is a crown rate for the sheet count and postage that has started by the
      instant. */
  ghost predicate LetterRateStarted(rates: RateTables, i: int, t: Instant, sheets: nat, postage: string) {
    && 0 <= i < |rates.letter|
    && rates.letter[i].crown && rates.letter[i].sheetCount == sheets && rates.letter[i].postClass == postage
    && rates.letter[i].startDate <= t
  }

  /** The rate of a letter: nothing without sheets, and otherwise that of the newest row for its sheet
      count and postage that has started when the London day begins. */
  ghost predicate IsLetterRateOfDay(rates: RateTables, date: Date, sheets: nat, postage: string, rate: real)
    requires 1 <= date
  {
    if sheets == 0 then rate == 0.0
    else
      exists i ::
        && LetterRateStarted(rates, i, LondonMidnight(date), sheets, postage) && rates.letter[i].rate == rate
        && forall j | LetterRateStarted(rates, j, LondonMidnight(date), sheets, postage) ::
             || rates.letter[j].startDate < rates.letter[i].startDate
             || (rates.letter[j].startDate == rates.letter[i].startDate && i <= j)
  }

  /** The rate that get_rate finds for a text message, in the columns of the rates table. */
  lemma SmsRateInColumns(rates: RateTables, date: Date, rate: real)
    requires 1 <= date && NewestFirst(rates)
    ensures GetRate(rates, Sms, date, None, None, "none") == Some(rate) <==> IsSmsRateOfDay(rates, date, rate)
  {
    hide LondonMidnight;
    var all, midnight := rates.nonLetter, LondonMidnight(date);
    assert forall j | 0 <= j < |all| :: RateApplies(all[j], Sms, midnight) <==> SmsRateStarted(rates, j, midnight);
    if exists j :: SmsRateStarted(rates, j, midnight) {
      var j :| SmsRateStarted(rates, j, midnight);
      assert all[j] in all;
      var i := PositionOfFirst(all, Sms, midnight);
      FirstRateAt(all, Sms, midnight, i);
      assert SmsRateStarted(rates, i, midnight);
    } else {
      FirstRateIsNewest(all, Sms, midnight);
    }
  }

  lemma {:induction false} FirstLetterRateAt(rates: seq<LetterRate>, startOfDay: Instant, crown: bool, n: nat,
                                             postClass: string, i: nat)
    requires i < |rates| && LetterRateApplies(rates[i], startOfDay, crown, n, postClass)
    requires forall j | 0 <= j < i :: !LetterRateApplies(rates[j], startOfDay, crown, n, postClass)
    ensures FirstLetterRate(rates, startOfDay, crown, n, postClass) == Some(rates[i].rate)
  {
    if i == 0 {
    } else {
      FirstLetterRateAt(rates[1..], startOfDay, crown, n, postClass, i - 1);
    }
  }

  lemma {:induction false} PositionOfFirstLetter(rates: seq<LetterRate>, startOfDay: Instant, crown: bool, n: nat,
                                                 postClass: string) returns (i: nat)
    requires exists r :: r in rates && LetterRateApplies(r, startOfDay, crown, n, postClass)
    ensures i < |rates| && LetterRateApplies(rates[i], startOfDay, crown, n, postClass)
    ensures forall j | 0 <= j < i :: !LetterRateApplies(rates[j], startOfDay, crown, n, postClass)
  {
    if LetterRateApplies(rates[0], startOfDay, crown, n, postClass) {
      i := 0;
    } else {
      assert rates == [rates[0]] + rates[1..];
      i := PositionOfFirstLetter(rates[1..], startOfDay, crown, n, postClass);
      i := i + 1;
    }
  }

  /** The rate that get_rate finds for a letter, in the columns of letter_rates. */
  lemma LetterRateInColumns(rates: RateTables, date: Date, crown: Option<bool>, sheets: nat, postage: string,
                            rate: real)
    requires 1 <= date && NewestFirst(rates)
    ensures GetRate(rates, Letter, date, crown, Some(sheets), postage) == Some(rate)
       <==> IsLetterRateOfDay(rates, date, sheets, postage, rate)
  {
    hide LondonMidnight;
    if sheets != 0 {
      var all, midnight := rates.letter, LondonMidnight(date);
      assert forall j | 0 <= j < |all| ::
          LetterRateApplies(all[j], midnight, true, sheets, postage)
          <==> LetterRateStarted(rates, j, midnight, sheets, postage);
      if exists j :: LetterRateStarted(rates, j, midnight, sheets, postage) {
        var j :| LetterRateStarted(rates, j, midnight, sheets, postage);
        assert all[j] in all;
        var i := PositionOfFirstLetter(all, midnight, true, sheets, postage);
        FirstLetterRateAt(all, midnight, true, sheets, postage, i);
        assert LetterRateStarted(rates, i, midnight, sheets, postage);
      } else {
        FirstLetterRateIsNewest(all, midnight, true, sheets, postage);
      }
    }
  }
}
