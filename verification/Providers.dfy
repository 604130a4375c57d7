/** The priorities of the SMS providers: pushed apart when one is slow, and pulled back to their
    resting points. */
module Providers {
  import opened Collections
  import opened LondonTime
  import opened Schema

  type Identifier = string

  datatype Provider = Provider(
    priority: int,
    notificationType: NotificationType,
    active: bool,
    version: nat,
    updatedAt: Option<Instant>)

  /** A row of provider_details_history; the identifier and the version are its key. */
  datatype HistoryRow = HistoryRow(identifier: Identifier, provider: Provider)

  type Table = map<Identifier, Provider>

  datatype State = State(providers: Table, history: seq<HistoryRow>)

  const AMOUNT := 10

  /** get_alternative_sms_provider; None is the ValueError. */
  function GetAlternativeSmsProvider(identifier: Identifier): Option<Identifier> {
    if identifier == "spryng" then Some("firetext")
    else if identifier in {"firetext", "mmg"} then Some("spryng")
    else None
  }

  function ActiveSms(providers: Table): set<Identifier> {
    set i | i in providers && providers[i].notificationType == Sms && providers[i].active
  }

  /** Some active provider was updated less than the threshold ago. */
  predicate ChangedLately(providers: Table, now: Instant, threshold: int) {
    exists i :: i in ActiveSms(providers) && providers[i].updatedAt.Some?
        && providers[i].updatedAt.value > now - threshold
  }

  /** _get_sms_providers_for_update */
  function GetSmsProvidersForUpdate(providers: Table, now: Instant, threshold: int): set<Identifier> {
    if ChangedLately(providers, now, threshold) then {} else ActiveSms(providers)
  }

  function Adjusted(p: Provider, priority: int, now: Instant): Provider {
    p.(priority := priority, version := p.version + 1, updatedAt := Some(now))
  }

  /** A provider's new values, and a history row with the same values. */
  function Record(s: State, i: Identifier, p: Provider): State {
    State(s.providers[i := p], s.history + [HistoryRow(i, p)])
  }

  /** _adjust_provider_priority */
  function Adjust(s: State, i: Identifier, priority: int, now: Instant): State
    requires i in s.providers
  {
    Record(s, i, Adjusted(s.providers[i], priority, now))
  }

  /** A user's update of a provider: the keys that the request holds. */
  function ManuallyUpdated(p: Provider, priority: Option<int>, active: Option<bool>, now: Instant): Provider {
    p.(priority := priority.GetOr(p.priority), active := active.GetOr(p.active),
       version := p.version + 1, updatedAt := Some(now))
  }

  datatype Failure = ValueError | KeyError

  /** dao_reduce_sms_provider_priority; an exception rolls everything back. */
  function Reduced(s: State, identifier: Identifier, threshold: int, now: Instant): Result<State, Failure> {
    var active := GetSmsProvidersForUpdate(s.providers, now, threshold);
    if |active| < 2 then Ok(s)
    else
      match GetAlternativeSmsProvider(identifier)
      case None => Err(ValueError)
      case Some(other) =>
        if identifier !in active || other !in active then Err(KeyError)
        else
          var lower := Max(0, s.providers[identifier].priority - AMOUNT);
          var higher := Min(100, s.providers[other].priority + AMOUNT);
          Ok(Adjust(Adjust(s, identifier, lower, now), other, higher, now))
  }

  /** What a reduction commits. */
  function AfterReduction(s: State, identifier: Identifier, threshold: int, now: Instant): State {
    match Reduced(s, identifier, threshold, now)
    case Ok(s') => s'
    case Err(_) => s
  }

  /** One step of at most ten points towards the target. */
  function Tended(priority: int, target: int): int {
    if priority > target then Max(target, priority - AMOUNT) else Min(target, priority + AMOUNT)
  }

  /** Which providers a tending round changes. */
  function AwayFromRest(providers: Table, resting: map<Identifier, int>, chosen: set<Identifier>): set<Identifier> {
    set i | i in chosen && i in providers && i in resting && providers[i].priority != resting[i]
  }

  function TendedTable(providers: Table, resting: map<Identifier, int>, chosen: set<Identifier>, now: Instant): Table {
    map i | i in providers ::
      if i in AwayFromRest(providers, resting, chosen)
      then Adjusted(providers[i], Tended(providers[i].priority, resting[i]), now)
      else providers[i]
  }

  lemma TendNone(providers: Table, resting: map<Identifier, int>, now: Instant)
    ensures TendedTable(providers, resting, {}, now) == providers && AwayFromRest(providers, resting, {}) == {}
  {
  }

  /** Tending the given providers, and then one more. */
  lemma TendOneMore(providers: Table, resting: map<Identifier, int>, done: set<Identifier>, i: Identifier,
                    now: Instant)
    requires i in providers && i in resting && i !in done
    ensures var tended := TendedTable(providers, resting, done, now);
            && i in tended && tended[i] == providers[i]
            && TendedTable(providers, resting, done + {i}, now)
               == if providers[i].priority == resting[i] then tended
                  else tended[i := Adjusted(providers[i], Tended(providers[i].priority, resting[i]), now)]
    ensures AwayFromRest(providers, resting, done + {i})
         == AwayFromRest(providers, resting, done) + if providers[i].priority == resting[i] then {} else {i}
    ensures i !in AwayFromRest(providers, resting, done)
  {
  }

  class ProviderStore {
    var providers: Table
    var history: seq<HistoryRow>

    function Now(): State
      reads this
    {
      State(providers, history)
    }

    method UpdateProviderDetailsWithoutCommit(i: Identifier, now: Instant)
      requires i in providers
      modifies this
      ensures providers
           == old(providers)[i := old(providers)[i].(version := old(providers)[i].version + 1, updatedAt := Some(now))]
      ensures history == old(history) + [HistoryRow(i, providers[i])]
    {
      providers := providers[i := providers[i].(version := providers[i].version + 1)];
      providers := providers[i := providers[i].(updatedAt := Some(now))];
      history := history + [HistoryRow(i, providers[i])];
    }

    method AdjustProviderPriority(i: Identifier, priority: int, now: Instant)
      requires i in providers
      modifies this
      ensures Now() == Adjust(old(Now()), i, priority, now)
    {
      providers := providers[i := providers[i].(priority := priority)];
      UpdateProviderDetailsWithoutCommit(i, now);
    }

    /** update_provider_details */
    method UpdateProviderDetails(i: Identifier, priority: Option<int>, active: Option<bool>, now: Instant)
      requires i in providers
      modifies this
      ensures Now() == Record(old(Now()), i, ManuallyUpdated(old(providers)[i], priority, active, now))
    {
      if priority.Some? {
        providers := providers[i := providers[i].(priority := priority.value)];
      }
      if active.Some? {
        providers := providers[i := providers[i].(active := active.value)];
      }
      UpdateProviderDetailsWithoutCommit(i, now);
    }

    method DaoReduceSmsProviderPriority(identifier: Identifier, threshold: int, now: Instant)
        returns (failure: Option<Failure>)
      modifies this
      ensures match Reduced(old(Now()), identifier, threshold, now)
              case Ok(s) => failure.None? && Now() == s
              case Err(e) => failure == Some(e) && Now() == old(Now())
    {
      var active := GetSmsProvidersForUpdate(providers, now, threshold);
      if |active| < 2 {
        return None;
      }
      var other := GetAlternativeSmsProvider(identifier);
      if other.None? {
        return Some(ValueError);
      }
      if identifier !in active || other.value !in active {
        return Some(KeyError);
      }
      var lower := Max(0, providers[identifier].priority - AMOUNT);
      var higher := Min(100, providers[other.value].priority + AMOUNT);
      AdjustProviderPriority(identifier, lower, now);
      AdjustProviderPriority(other.value, higher, now);
      return None;
    }

    /** The providers that one round changes, each once, in the order in which it visits them. A
        provider without a resting point is a KeyError, which rolls the round back. */
    method DaoAdjustProviderPriorityBackToRestingPoints(resting: map<Identifier, int>, now: Instant)
        returns (failure: Option<Failure>, ghost changed: seq<Identifier>)
      modifies this
      ensures var chosen := GetSmsProvidersForUpdate(old(providers), now, 15 * MINUTE);
              if chosen <= resting.Keys then
                && failure.None?
                && providers == TendedTable(old(providers), resting, chosen, now)
                && NoDuplicates(changed)
                && (forall i :: i in changed <==> i in AwayFromRest(old(providers), resting, chosen))
                && (forall k | 0 <= k < |changed| :: changed[k] in providers)
                && history == old(history) + RowsFor(changed, providers)
              else
                failure == Some(KeyError) && providers == old(providers) && history == old(history)
    {
      hide TendedTable, AwayFromRest, ChangedLately;
      var before, rowsBefore := providers, history;
      var chosen := GetSmsProvidersForUpdate(providers, now, 15 * MINUTE);
      changed, failure := [], None;
      TendNone(before, resting, now);
      assert chosen - chosen == {};
      var rest := chosen;
      while rest != {}
        invariant rest <= chosen && chosen - rest <= resting.Keys
        invariant providers == TendedTable(before, resting, chosen - rest, now)
        invariant NoDuplicates(changed)
        invariant forall i :: i in changed <==> i in AwayFromRest(before, resting, chosen - rest)
        invariant forall k | 0 <= k < |changed| :: changed[k] in providers
        invariant history == rowsBefore + RowsFor(changed, providers)
      {
        var i :| i in rest;
        if i !in resting {
          providers, history := before, rowsBefore;
          return Some(KeyError), changed;
        }
        ghost var done := chosen - rest;
        TendOneMore(before, resting, done, i, now);
        var target := resting[i];
        var current := providers[i].priority;
        rest := rest - {i};
        assert chosen - rest == done + {i};
        if current != target {
          var priority := if current > target then Max(target, current - AMOUNT) else Min(target, current + AMOUNT);
          ghost var previous := providers;
          AdjustProviderPriority(i, priority, now);
          RowsForSnoc(changed, previous, i, providers[i]);
          changed := changed + [i];
        }
      }
      assert chosen - rest == chosen;
    }
  }

  function RowsFor(changed: seq<Identifier>, providers: Table): seq<HistoryRow>
    requires forall k | 0 <= k < |changed| :: changed[k] in providers
  {
    seq(|changed|, k requires 0 <= k < |changed| => HistoryRow(changed[k], providers[changed[k]]))
  }

  lemma RowsForSnoc(changed: seq<Identifier>, providers: Table, i: Identifier, p: Provider)
    requires i !in changed && forall k | 0 <= k < |changed| :: changed[k] in providers
    ensures forall k | 0 <= k < |changed + [i]| :: (changed + [i])[k] in providers[i := p]
    ensures RowsFor(changed + [i], providers[i := p]) == RowsFor(changed, providers) + [HistoryRow(i, p)]
  {
    assert forall k | 0 <= k < |changed| :: changed[k] in changed;
  }

  // ---------------------------------------------------------------- tending

  function Distance(a: int, b: int): nat { if a < b then b - a else a - b }

  /** A priority after some rounds of tending. */
  function TendedTimes(priority: int, target: int, rounds: nat): int {
    if rounds == 0 then priority else Tended(TendedTimes(priority, target, rounds - 1), target)
  }

  /** Each round takes ten points off the distance, and never overshoots. */
  lemma {:induction false} TendingApproaches(priority: int, target: int, rounds: nat)
    ensures Distance(TendedTimes(priority, target, rounds), target)
         == Max(0, Distance(priority, target) - AMOUNT * rounds)
    ensures Min(priority, target) <= TendedTimes(priority, target, rounds) <= Max(priority, target)
  {
    if rounds == 0 {
    } else {
      TendingApproaches(priority, target, rounds - 1);
    }
  }

  /** A tending round that the guard lets through, on all active providers. */
  function TendRound(providers: Table, resting: map<Identifier, int>, now: Instant): Table {
    TendedTable(providers, resting, ActiveSms(providers), now)
  }

  /** The tables after successive effective rounds. */
  function TendRounds(providers: Table, resting: map<Identifier, int>, times: seq<Instant>): Table {
    if times == [] then providers
    else TendRound(TendRounds(providers, resting, times[..|times| - 1]), resting, times[|times| - 1])
  }

  predicate AtRest(providers: Table, resting: map<Identifier, int>) {
    forall i | i in ActiveSms(providers) && i in resting :: providers[i].priority == resting[i]
  }

  lemma RoundTendsEach(providers: Table, resting: map<Identifier, int>, now: Instant)
    requires ActiveSms(providers) <= resting.Keys
    ensures var after := TendRound(providers, resting, now);
            && after.Keys == providers.Keys && ActiveSms(after) == ActiveSms(providers)
            && forall i | i in providers :: after[i].priority
                 == if i in ActiveSms(providers) then Tended(providers[i].priority, resting[i])
                    else providers[i].priority
  {
  }

  lemma {:induction false} RoundsTendEach(providers: Table, resting: map<Identifier, int>, times: seq<Instant>)
    requires ActiveSms(providers) <= resting.Keys
    ensures var after := TendRounds(providers, resting, times);
            && after.Keys == providers.Keys && ActiveSms(after) == ActiveSms(providers)
            && forall i | i in providers :: after[i].priority
                 == if i in ActiveSms(providers)
                    then TendedTimes(providers[i].priority, resting[i], |times|)
                    else providers[i].priority
  {
    if times == [] {
    } else {
      hide TendRound, ActiveSms;
      RoundsTendEach(providers, resting, times[..|times| - 1]);
      RoundTendsEach(TendRounds(providers, resting, times[..|times| - 1]), resting, times[|times| - 1]);
      ActiveAreProviders(providers);
    }
  }

  /** How far the furthest of the given providers is from its resting point. */
  function FurthestOf(providers: Table, resting: map<Identifier, int>, ids: seq<Identifier>): nat
    requires forall k | 0 <= k < |ids| :: ids[k] in providers && ids[k] in resting
  {
    if ids == [] then 0
    else
      var i := ids[|ids| - 1];
      Max(FurthestOf(providers, resting, ids[..|ids| - 1]), Distance(providers[i].priority, resting[i]))
  }

  lemma {:induction false} FurthestIs(providers: Table, resting: map<Identifier, int>, ids: seq<Identifier>, bound: int)
    requires forall k | 0 <= k < |ids| :: ids[k] in providers && ids[k] in resting
    ensures FurthestOf(providers, resting, ids) <= bound
       <==> 0 <= bound && forall k | 0 <= k < |ids| :: Distance(providers[ids[k]].priority, resting[ids[k]]) <= bound
  {
    if ids == [] {
    } else {
      FurthestIs(providers, resting, ids[..|ids| - 1], bound);
    }
  }

  lemma ActiveAreProviders(providers: Table)
    ensures ActiveSms(providers) <= providers.Keys
  {
  }

  /** From any priorities, and for any number of providers, tending reaches all the resting points
      after one round for every ten points, begun or full, of the furthest provider: not
      earlier, and never past them. */
  lemma TendingReachesRestExactly(providers: Table, resting: map<Identifier, int>, ids: seq<Identifier>,
                                  times: seq<Instant>)
    requires ActiveSms(providers) <= resting.Keys && forall i :: i in ids <==> i in ActiveSms(providers)
    ensures forall k | 0 <= k < |ids| :: ids[k] in providers && ids[k] in resting
    ensures AtRest(TendRounds(providers, resting, times), resting)
       <==> |times| >= CeilDiv(FurthestOf(providers, resting, ids), AMOUNT)
  {
    hide TendRounds, ActiveSms;
    ActiveAreProviders(providers);
    assert forall k | 0 <= k < |ids| :: ids[k] in ids;
    RoundsTendEach(providers, resting, times);
    FurthestIs(providers, resting, ids, AMOUNT * |times|);
    var after := TendRounds(providers, resting, times);
    forall i | i in ActiveSms(providers)
      ensures after[i].priority == resting[i] <==> Distance(providers[i].priority, resting[i]) <= AMOUNT * |times|
    {
      TendingApproaches(providers[i].priority, resting[i], |times|);
    }
  }

  // ---------------------------------------------------------------- two active providers

  /** Two providers are active, with priorities from 0 to 100 that add up to 100. */
  predicate Balanced(providers: Table, a: Identifier, b: Identifier) {
    && a != b && ActiveSms(providers) == {a, b}
    && 0 <= providers[a].priority <= 100 && 0 <= providers[b].priority <= 100
    && providers[a].priority + providers[b].priority == 100
  }

  lemma ReduceKeepsBalance(s: State, a: Identifier, b: Identifier, identifier: Identifier, threshold: int, now: Instant)
    requires Balanced(s.providers, a, b) && Reduced(s, identifier, threshold, now).Ok?
    ensures Balanced(Reduced(s, identifier, threshold, now).value.providers, a, b)
  {
    hide ChangedLately;
    var after := Reduced(s, identifier, threshold, now).value.providers;
    assert ActiveSms(after) == ActiveSms(s.providers);
  }

  lemma TendKeepsBalance(providers: Table, a: Identifier, b: Identifier, resting: map<Identifier, int>,
                         chosen: set<Identifier>, now: Instant)
    requires Balanced(providers, a, b) && (chosen == {} || chosen == {a, b})
    requires a in resting && b in resting && resting[a] + resting[b] == 100 && 0 <= resting[a] <= 100
    ensures Balanced(TendedTable(providers, resting, chosen, now), a, b)
  {
    assert ActiveSms(TendedTable(providers, resting, chosen, now)) == ActiveSms(providers);
  }

  /** One automatic call, or a user's update. The order in which a tending round visits the
      providers that it changes is up to the database. */
  datatype Step =
    | Reduce(identifier: Identifier, threshold: int, now: Instant)
    | Tend(changed: seq<Identifier>, now: Instant)
    | Manual(identifier: Identifier, priority: Option<int>, active: Option<bool>, now: Instant)

  ghost predicate Allowed(s: State, resting: map<Identifier, int>, step: Step) {
    match step
    case Reduce(_, _, _) => true
    case Tend(changed, now) =>
      && NoDuplicates(changed)
      && forall i :: i in changed <==>
           i in AwayFromRest(s.providers, resting, GetSmsProvidersForUpdate(s.providers, now, 15 * MINUTE))
    case Manual(i, _, _, _) => i in s.providers
  }

  /** What is committed: a call that its guard stops, or that raises, changes nothing. */
  ghost function AfterStep(s: State, resting: map<Identifier, int>, step: Step): State
    requires Allowed(s, resting, step)
  {
    match step
    case Reduce(identifier, threshold, now) => AfterReduction(s, identifier, threshold, now)
    case Tend(changed, now) =>
      var chosen := GetSmsProvidersForUpdate(s.providers, now, 15 * MINUTE);
      if chosen <= resting.Keys then
        var tended := TendedTable(s.providers, resting, chosen, now);
        assert forall k | 0 <= k < |changed| :: changed[k] in changed;
        State(tended, s.history + RowsFor(changed, tended))
      else s
    case Manual(i, priority, active, now) => Record(s, i, ManuallyUpdated(s.providers[i], priority, active, now))
  }

  ghost predicate IsRun(s: State, resting: map<Identifier, int>, steps: seq<Step>) {
    steps != [] ==>
      && IsRun(s, resting, steps[..|steps| - 1])
      && Allowed(AfterRun(s, resting, steps[..|steps| - 1]), resting, steps[|steps| - 1])
  }

  ghost function AfterRun(s: State, resting: map<Identifier, int>, steps: seq<Step>): State {
    if steps == [] then s
    else
      var before := AfterRun(s, resting, steps[..|steps| - 1]);
      if Allowed(before, resting, steps[|steps| - 1]) then AfterStep(before, resting, steps[|steps| - 1]) else before
  }

  lemma {:induction false} RunKeepsBalance(s: State, a: Identifier, b: Identifier, resting: map<Identifier, int>,
                                           steps: seq<Step>)
    requires Balanced(s.providers, a, b) && IsRun(s, resting, steps)
    requires a in resting && b in resting && resting[a] + resting[b] == 100 && 0 <= resting[a] <= 100
    requires forall step | step in steps :: !step.Manual?
    ensures Balanced(AfterRun(s, resting, steps).providers, a, b)
  {
    hide Balanced, Reduced, TendedTable, ChangedLately, Allowed;
    if steps == [] {
    } else {
      var before, step := AfterRun(s, resting, steps[..|steps| - 1]), steps[|steps| - 1];
      assert step in steps && forall step' | step' in steps[..|steps| - 1] :: step' in steps;
      RunKeepsBalance(s, a, b, resting, steps[..|steps| - 1]);
      match step
      case Reduce(identifier, threshold, now) =>
        if Reduced(before, identifier, threshold, now).Ok? {
          ReduceKeepsBalance(before, a, b, identifier, threshold, now);
        }
      case Tend(_, now) =>
        BalancedAreActive(before.providers, a, b);
        var chosen := GetSmsProvidersForUpdate(before.providers, now, 15 * MINUTE);
        TendKeepsBalance(before.providers, a, b, resting, chosen, now);
    }
  }

  /** With two active providers whose resting points add up to 100, any mix of reductions and
      tending keeps each priority between 0 and 100, and their sum at 100. */
  lemma TwoProvidersStayBalanced(s: State, a: Identifier, b: Identifier, resting: map<Identifier, int>,
                                 steps: seq<Step>)
    requires a != b && SendsTexts(s.providers, a) && SendsTexts(s.providers, b)
    requires forall i | SendsTexts(s.providers, i) :: i == a || i == b
    requires 0 <= s.providers[a].priority <= 100 && s.providers[a].priority + s.providers[b].priority == 100
    requires a in resting && b in resting && resting[a] + resting[b] == 100 && 0 <= resting[a] <= 100
    requires IsRun(s, resting, steps) && forall step | step in steps :: !step.Manual?
    ensures var after := AfterRun(s, resting, steps).providers;
            && SendsTexts(after, a) && SendsTexts(after, b) && (forall i | SendsTexts(after, i) :: i == a || i == b)
            && 0 <= after[a].priority <= 100 && 0 <= after[b].priority <= 100
            && after[a].priority + after[b].priority == 100
  {
    hide IsRun, AfterRun;
    assert forall i :: SendsTexts(s.providers, i) <==> i in ActiveSms(s.providers);
    assert ActiveSms(s.providers) == {a, b};
    RunKeepsBalance(s, a, b, resting, steps);
    var after := AfterRun(s, resting, steps).providers;
    assert forall i :: SendsTexts(after, i) <==> i in ActiveSms(after);
  }

  lemma BalancedAreActive(providers: Table, a: Identifier, b: Identifier)
    requires Balanced(providers, a, b)
    ensures ActiveSms(providers) == {a, b}
  {
  }

  // ---------------------------------------------------------------- tending in a run

  /** The times of those tending calls of a run that the guard lets through. */
  ghost function EffectiveTimes(s: State, resting: map<Identifier, int>, steps: seq<Step>): seq<Instant> {
    if steps == [] then []
    else
      var front, last := steps[..|steps| - 1], steps[|steps| - 1];
      var earlier := EffectiveTimes(s, resting, front);
      if ChangedLately(AfterRun(s, resting, front).providers, last.now, 15 * MINUTE) then earlier
      else earlier + [last.now]
  }

  lemma TendStepIsRound(s: State, resting: map<Identifier, int>, step: Step)
    requires step.Tend? && Allowed(s, resting, step) && ActiveSms(s.providers) <= resting.Keys
    ensures AfterStep(s, resting, step).providers
         == if ChangedLately(s.providers, step.now, 15 * MINUTE) then s.providers
            else TendRound(s.providers, resting, step.now)
  {
    hide ChangedLately, NoDuplicates;
    assert TendedTable(s.providers, resting, {}, step.now) == s.providers;
  }

  /** A run of tending calls is as many effective rounds as calls that the guard lets through. */
  lemma {:induction false} TendingRunIsRounds(s: State, resting: map<Identifier, int>, steps: seq<Step>)
    requires ActiveSms(s.providers) <= resting.Keys && IsRun(s, resting, steps)
    requires forall step | step in steps :: step.Tend?
    ensures AfterRun(s, resting, steps).providers
         == TendRounds(s.providers, resting, EffectiveTimes(s, resting, steps))
    ensures ActiveSms(AfterRun(s, resting, steps).providers) == ActiveSms(s.providers)
  {
    hide ActiveSms, Allowed, AfterStep, ChangedLately, TendRound;
    if steps == [] {
    } else {
      var front, last := steps[..|steps| - 1], steps[|steps| - 1];
      assert last in steps && forall step | step in front :: step in steps;
      TendingRunIsRounds(s, resting, front);
      TendStepIsRound(AfterRun(s, resting, front), resting, last);
      var earlier := EffectiveTimes(s, resting, front);
      assert (earlier + [last.now])[..|earlier|] == earlier;
      RoundsTendEach(s.providers, resting, EffectiveTimes(s, resting, steps));
    }
  }

  /** In every run of tending calls, all providers are at rest at the end if and only if the guard
      let through at least one call for every ten points, begun or full, of the furthest one. */
  lemma TendingRunReachesRestExactly(s: State, resting: map<Identifier, int>, ids: seq<Identifier>, steps: seq<Step>)
    requires ActiveSms(s.providers) <= resting.Keys && forall i :: i in ids <==> i in ActiveSms(s.providers)
    requires IsRun(s, resting, steps) && forall step | step in steps :: step.Tend?
    ensures forall k | 0 <= k < |ids| :: ids[k] in s.providers && ids[k] in resting
    ensures AtRest(AfterRun(s, resting, steps).providers, resting)
       <==> |EffectiveTimes(s, resting, steps)| >= CeilDiv(FurthestOf(s.providers, resting, ids), AMOUNT)
  {
    hide ActiveSms, IsRun, AfterRun, EffectiveTimes, AtRest;
    TendingRunIsRounds(s, resting, steps);
    TendingReachesRestExactly(s.providers, resting, ids, EffectiveTimes(s, resting, steps));
  }

  /** No active provider was updated after the given time. */
  predicate UntouchedAfter(providers: Table, t: Instant) {
    forall i | i in ActiveSms(providers) && providers[i].updatedAt.Some? :: providers[i].updatedAt.value <= t
  }

  lemma TendTouchesNow(s: State, resting: map<Identifier, int>, step: Step, t: Instant)
    requires step.Tend? && Allowed(s, resting, step) && UntouchedAfter(s.providers, t) && t <= step.now
    ensures UntouchedAfter(AfterStep(s, resting, step).providers, step.now)
  {
    hide ChangedLately, NoDuplicates;
    var after := AfterStep(s, resting, step).providers;
    forall i | i in ActiveSms(after) && after[i].updatedAt.Some? ensures after[i].updatedAt.value <= step.now {
      assert i in ActiveSms(s.providers);
    }
  }

  /** The guard lets every call through when they are fifteen minutes apart, and nothing was changed
      in the fifteen minutes before the first. */
  lemma {:induction false} SpacedCallsTakeEffect(s: State, resting: map<Identifier, int>, steps: seq<Step>)
    requires IsRun(s, resting, steps) && forall step | step in steps :: step.Tend?
    requires steps != [] ==> UntouchedAfter(s.providers, steps[0].now - 15 * MINUTE)
    requires forall k | 0 < k < |steps| :: steps[k - 1].now + 15 * MINUTE <= steps[k].now
    ensures |EffectiveTimes(s, resting, steps)| == |steps|
    ensures steps != [] ==> UntouchedAfter(AfterRun(s, resting, steps).providers, steps[|steps| - 1].now)
  {
    hide ActiveSms, Allowed, AfterStep;
    if steps == [] {
    } else {
      var front, last := steps[..|steps| - 1], steps[|steps| - 1];
      assert last in steps && forall step | step in front :: step in steps;
      SpacedCallsTakeEffect(s, resting, front);
      TendTouchesNow(AfterRun(s, resting, front), resting, last, last.now - 15 * MINUTE);
    }
  }

  // ---------------------------------------------------------------- any number of active providers

  function PrioritySum(providers: Table, ids: seq<Identifier>): int
    requires forall k | 0 <= k < |ids| :: ids[k] in providers
  {
    if ids == [] then 0 else PrioritySum(providers, ids[..|ids| - 1]) + providers[ids[|ids| - 1]].priority
  }

  lemma {:induction false} SumAfterUpdate(providers: Table, ids: seq<Identifier>, i: Identifier, p: Provider)
    requires NoDuplicates(ids) && i in providers && forall k | 0 <= k < |ids| :: ids[k] in providers
    ensures PrioritySum(providers[i := p], ids)
         == PrioritySum(providers, ids) + if i in ids then p.priority - providers[i].priority else 0
  {
    if ids == [] {
    } else {
      SumAfterUpdate(providers, ids[..|ids| - 1], i, p);
      assert ids == ids[..|ids| - 1] + [ids[|ids| - 1]];
    }
  }

  function Lowered(p: Provider, now: Instant): Provider { Adjusted(p, Max(0, p.priority - AMOUNT), now) }

  function Raised(p: Provider, now: Instant): Provider { Adjusted(p, Min(100, p.priority + AMOUNT), now) }

  /** Which provider takes over from which. */
  ghost predicate TakesOver(other: Identifier, identifier: Identifier) {
    || (identifier == "spryng" && other == "firetext")
    || (identifier == "firetext" && other == "spryng")
    || (identifier == "mmg" && other == "spryng")
  }

  ghost predicate SendsTexts(providers: Table, i: Identifier) {
    i in providers && providers[i].notificationType == Sms && providers[i].active
  }

  /** No active SMS provider was updated less than the threshold ago. */
  ghost predicate Quiet(providers: Table, threshold: int, now: Instant) {
    forall i | SendsTexts(providers, i) && providers[i].updatedAt != None ::
      providers[i].updatedAt.value + threshold <= now
  }

  /** The guard lets the call through, and the provider and the one that takes over from it are active. */
  ghost predicate ReductionTakesEffect(providers: Table, identifier: Identifier, threshold: int, now: Instant) {
    && Quiet(providers, threshold, now)
    && SendsTexts(providers, identifier) && exists other :: TakesOver(other, identifier) && SendsTexts(providers, other)
  }

  lemma EffectIs(providers: Table, identifier: Identifier, threshold: int, now: Instant)
    ensures forall i :: SendsTexts(providers, i) <==> i in ActiveSms(providers)
    ensures Quiet(providers, threshold, now) <==> !ChangedLately(providers, now, threshold)
    ensures forall other :: TakesOver(other, identifier) <==> GetAlternativeSmsProvider(identifier) == Some(other)
    ensures ReductionTakesEffect(providers, identifier, threshold, now)
       <==> var other := GetAlternativeSmsProvider(identifier);
            && !ChangedLately(providers, now, threshold)
            && other.Some? && identifier in ActiveSms(providers) && other.value in ActiveSms(providers)
  {
    forall other ensures TakesOver(other, identifier) <==> GetAlternativeSmsProvider(identifier) == Some(other) {
      NamesDiffer();
    }
  }

  /** The state after a call that takes effect: two providers change, one after the other. */
  function AfterEffect(s: State, identifier: Identifier, now: Instant): State
    requires GetAlternativeSmsProvider(identifier).Some?
    requires identifier in s.providers && GetAlternativeSmsProvider(identifier).value in s.providers
  {
    var other := GetAlternativeSmsProvider(identifier).value;
    var between := Record(s, identifier, Lowered(s.providers[identifier], now));
    Record(between, other, Raised(s.providers[other], now))
  }

  /** A reduction changes something if and only if its guard lets it through, and the provider and
      its alternative are both active. */
  lemma ReductionChangesIff(s: State, identifier: Identifier, threshold: int, now: Instant)
    ensures AfterReduction(s, identifier, threshold, now) != s
       <==> ReductionTakesEffect(s.providers, identifier, threshold, now)
    ensures ReductionTakesEffect(s.providers, identifier, threshold, now) ==>
              && identifier in s.providers && GetAlternativeSmsProvider(identifier).value in s.providers
              && identifier != GetAlternativeSmsProvider(identifier).value
              && AfterReduction(s, identifier, threshold, now) == AfterEffect(s, identifier, now)
  {
    hide ChangedLately, ActiveSms, ReductionTakesEffect;
    ActiveAreProviders(s.providers);
    EffectIs(s.providers, identifier, threshold, now);
    if ReductionTakesEffect(s.providers, identifier, threshold, now) {
      var other := GetAlternativeSmsProvider(identifier).value;
      NamesDiffer();
      assert |{identifier, other}| == 2;
      SubsetCardinality({identifier, other}, ActiveSms(s.providers));
      assert |AfterEffect(s, identifier, now).history| == |s.history| + 2;
    }
  }

  lemma SubsetCardinality<T>(part: set<T>, whole: set<T>)
    requires part <= whole
    ensures |part| <= |whole|
  {
    assert whole == part + (whole - part);
  }

  /** A reduction keeps the sum of the active priorities if and only if it does not take effect, or
      the two clamps cut off the same amount: the reduced provider has as much left to lose, up to
      ten, as the other one has to gain. */
  lemma ReductionKeepsSumIff(s: State, ids: seq<Identifier>, identifier: Identifier, threshold: int, now: Instant)
    requires NoDuplicates(ids) && forall i :: i in ids <==> i in ActiveSms(s.providers)
    ensures forall k | 0 <= k < |ids| ::
        ids[k] in s.providers && ids[k] in AfterReduction(s, identifier, threshold, now).providers
    ensures ReductionTakesEffect(s.providers, identifier, threshold, now) ==>
        identifier in s.providers && GetAlternativeSmsProvider(identifier).value in s.providers
    ensures PrioritySum(AfterReduction(s, identifier, threshold, now).providers, ids) == PrioritySum(s.providers, ids)
       <==> (ReductionTakesEffect(s.providers, identifier, threshold, now) ==>
               var other := GetAlternativeSmsProvider(identifier).value;
               Min(AMOUNT, s.providers[identifier].priority) == Min(AMOUNT, 100 - s.providers[other].priority))
  {
    hide ChangedLately, PrioritySum, AfterReduction, NoDuplicates, ActiveSms, ReductionTakesEffect;
    ReductionChangesIff(s, identifier, threshold, now);
    EffectIs(s.providers, identifier, threshold, now);
    ActiveAreProviders(s.providers);
    assert forall k | 0 <= k < |ids| :: ids[k] in ids;
    if ReductionTakesEffect(s.providers, identifier, threshold, now) {
      var other := GetAlternativeSmsProvider(identifier).value;
      var p, q := Lowered(s.providers[identifier], now), Raised(s.providers[other], now);
      SumAfterUpdate(s.providers, ids, identifier, p);
      SumAfterUpdate(s.providers[identifier := p], ids, other, q);
    }
  }

  function Example(priority: int): Provider { Provider(priority, Sms, true, 1, None) }

  /** With three active providers the sum can leave 100. */
  lemma ThreeProvidersLeaveTheSum(now: Instant)
    ensures var ids := ["spryng", "firetext", "mmg"];
            var before := map["spryng" := Example(5), "firetext" := Example(20), "mmg" := Example(75)];
            && PrioritySum(before, ids) == 100
            && Reduced(State(before, []), "spryng", 5 * MINUTE, now).Ok?
            && (forall i | i in ids :: i in Reduced(State(before, []), "spryng", 5 * MINUTE, now).value.providers)
            && PrioritySum(Reduced(State(before, []), "spryng", 5 * MINUTE, now).value.providers, ids) == 105
  {
    var before := map["spryng" := Example(5), "firetext" := Example(20), "mmg" := Example(75)];
    var names := {"spryng", "firetext", "mmg"};
    NamesDiffer();
    assert ActiveSms(before) == names;
    var after := Reduced(State(before, []), "spryng", 5 * MINUTE, now).value.providers;
    assert after["spryng"].priority == 0 && after["firetext"].priority == 30 && after["mmg"].priority == 75;
    SumOfThree(before, "spryng", "firetext", "mmg");
    SumOfThree(after, "spryng", "firetext", "mmg");
  }

  lemma NamesDiffer()
    ensures "spryng" != "firetext" && "spryng" != "mmg" && "firetext" != "mmg"
  {
    assert |"spryng"| == 6 && |"firetext"| == 8 && |"mmg"| == 3;
  }

  lemma SumOfThree(providers: Table, a: Identifier, b: Identifier, c: Identifier)
    requires a in providers && b in providers && c in providers
    ensures PrioritySum(providers, [a, b, c]) == providers[a].priority + providers[b].priority + providers[c].priority
  {
    assert PrioritySum(providers, []) == 0;
    assert [a][..0] == [];
    assert PrioritySum(providers, [a]) == providers[a].priority;
    assert [a, b][..1] == [a];
    assert PrioritySum(providers, [a, b]) == providers[a].priority + providers[b].priority;
    assert [a, b, c][..2] == [a, b];
  }

  // ---------------------------------------------------------------- versions and history

  /** The last history row of a provider. */
  function Latest(history: seq<HistoryRow>, i: Identifier): Option<Provider> {
    if history == [] then None
    else if history[|history| - 1].identifier == i then Some(history[|history| - 1].provider)
    else Latest(history[..|history| - 1], i)
  }

  lemma LatestSnoc(history: seq<HistoryRow>, row: HistoryRow, i: Identifier)
    ensures Latest(history + [row], i) == if row.identifier == i then Some(row.provider) else Latest(history, i)
  {
    assert (history + [row])[..|history|] == history;
  }

  /** The versions of a provider go up by one from row to row; so the key of the history, the
      identifier with the version, is never used twice. */
  ghost predicate VersionsCount(history: seq<HistoryRow>) {
    forall k | 0 <= k < |history| ::
      var earlier := Latest(history[..k], history[k].identifier);
      earlier.Some? ==> history[k].provider.version == earlier.value.version + 1
  }

  /** The latest history row of a provider is the provider as it is. */
  ghost predicate HistoryMatches(s: State) {
    && VersionsCount(s.history)
    && forall i | Latest(s.history, i).Some? :: i in s.providers && s.providers[i] == Latest(s.history, i).value
  }

  lemma RecordKeepsHistory(s: State, i: Identifier, p: Provider)
    requires HistoryMatches(s) && i in s.providers && p.version == s.providers[i].version + 1
    ensures HistoryMatches(Record(s, i, p))
    ensures |Record(s, i, p).history| == |s.history| + 1
  {
    hide Latest;
    var s' := Record(s, i, p);
    var row := HistoryRow(i, p);
    forall i' ensures Latest(s'.history, i') == if i' == i then Some(row.provider) else Latest(s.history, i') {
      LatestSnoc(s.history, row, i');
    }
    assert s'.history[..|s.history|] == s.history;
    assert forall k | 0 <= k < |s.history| :: s'.history[..k] == s.history[..k];
  }

  lemma ReduceKeepsHistory(s: State, identifier: Identifier, threshold: int, now: Instant)
    requires HistoryMatches(s) && Reduced(s, identifier, threshold, now).Ok?
    ensures HistoryMatches(Reduced(s, identifier, threshold, now).value)
    ensures |Reduced(s, identifier, threshold, now).value.history| == |s.history|
         || |Reduced(s, identifier, threshold, now).value.history| == |s.history| + 2
  {
    hide ChangedLately, HistoryMatches, ActiveSms;
    var active := GetSmsProvidersForUpdate(s.providers, now, threshold);
    if |active| >= 2 {
      ActiveAreProviders(s.providers);
      var other := GetAlternativeSmsProvider(identifier).value;
      var lower := Max(0, s.providers[identifier].priority - AMOUNT);
      var higher := Min(100, s.providers[other].priority + AMOUNT);
      var after := Adjust(s, identifier, lower, now);
      RecordKeepsHistory(s, identifier, Adjusted(s.providers[identifier], lower, now));
      RecordKeepsHistory(after, other, Adjusted(after.providers[other], higher, now));
    }
  }

  /** The same rows as adjusting the visited providers one after the other. */
  lemma {:induction false} TendKeepsHistory(s: State, resting: map<Identifier, int>, changed: seq<Identifier>,
                                            chosen: set<Identifier>, now: Instant)
    requires HistoryMatches(s) && NoDuplicates(changed) && chosen <= s.providers.Keys && chosen <= resting.Keys
    requires forall i | i in changed :: i in AwayFromRest(s.providers, resting, chosen)
    requires forall i | i in AwayFromRest(s.providers, resting, chosen) :: i in changed
    ensures forall k | 0 <= k < |changed| :: changed[k] in TendedTable(s.providers, resting, chosen, now)
    ensures var tended := TendedTable(s.providers, resting, chosen, now);
            HistoryMatches(State(tended, s.history + RowsFor(changed, tended)))
  {
    hide HistoryMatches;
    assert forall k | 0 <= k < |changed| :: changed[k] in changed;
    var tended := TendedTable(s.providers, resting, chosen, now);
    if changed == [] {
      assert tended == s.providers;
      assert s.history + RowsFor(changed, tended) == s.history;
    } else {
      var front, i := changed[..|changed| - 1], changed[|changed| - 1];
      var fewer := AwayFromRest(s.providers, resting, chosen) - {i};
      FrontIsFewer(s.providers, resting, changed, chosen);
      TendKeepsHistory(s, resting, front, fewer, now);
      var before := TendedTable(s.providers, resting, fewer, now);
      assert before[i] == s.providers[i];
      RowsForSnoc(front, before, i, tended[i]);
      assert tended == before[i := tended[i]];
      RecordKeepsHistory(State(before, s.history + RowsFor(front, before)), i, tended[i]);
      assert changed == front + [i];
      assert s.history + RowsFor(changed, tended) == s.history + RowsFor(front, before) + [HistoryRow(i, tended[i])];
    }
  }

  lemma FrontIsFewer(providers: Table, resting: map<Identifier, int>, changed: seq<Identifier>, chosen: set<Identifier>)
    requires changed != [] && NoDuplicates(changed)
    requires forall i :: i in changed <==> i in AwayFromRest(providers, resting, chosen)
    ensures var front, i := changed[..|changed| - 1], changed[|changed| - 1];
            var fewer := AwayFromRest(providers, resting, chosen) - {i};
            && NoDuplicates(front) && fewer <= chosen
            && AwayFromRest(providers, resting, fewer) == fewer
            && forall j :: j in front <==> j in fewer
  {
    var front, i := changed[..|changed| - 1], changed[|changed| - 1];
    assert changed == front + [i];
  }

  /** In every run of automatic calls and manual updates the latest history row of a provider is the
      provider as it is, and versions never repeat. */
  lemma {:induction false} HistoryMatchesInEveryRun(s: State, resting: map<Identifier, int>, steps: seq<Step>)
    requires HistoryMatches(s) && IsRun(s, resting, steps)
    ensures HistoryMatches(AfterRun(s, resting, steps))
  {
    hide HistoryMatches, ChangedLately, Reduced, TendedTable, AwayFromRest;
    if steps == [] {
    } else {
      var before, step := AfterRun(s, resting, steps[..|steps| - 1]), steps[|steps| - 1];
      HistoryMatchesInEveryRun(s, resting, steps[..|steps| - 1]);
      match step
      case Reduce(identifier, threshold, now) =>
        if Reduced(before, identifier, threshold, now).Ok? {
          ReduceKeepsHistory(before, identifier, threshold, now);
        }
      case Tend(changed, now) =>
        var chosen := GetSmsProvidersForUpdate(before.providers, now, 15 * MINUTE);
        ActiveAreProviders(before.providers);
        if chosen <= resting.Keys {
          TendKeepsHistory(before, resting, changed, chosen, now);
        }
      case Manual(i, priority, active, now) =>
        RecordKeepsHistory(before, i, ManuallyUpdated(before.providers[i], priority, active, now));
    }
  }

  // ---------------------------------------------------------------- how far apart adjustments are

  /** Some active provider was updated at the given time or later. */
  predicate TouchedSince(providers: Table, t: Instant) {
    exists i :: i in ActiveSms(providers) && providers[i].updatedAt.Some? && providers[i].updatedAt.value >= t
  }

  lemma EffectiveReduce(s: State, resting: map<Identifier, int>, step: Step)
    requires step.Reduce? && Allowed(s, resting, step) && AfterStep(s, resting, step) != s
    ensures !ChangedLately(s.providers, step.now, step.threshold)
    ensures TouchedSince(AfterStep(s, resting, step).providers, step.now)
  {
    hide ChangedLately, Reduced, ActiveSms, ReductionTakesEffect;
    ReductionChangesIff(s, step.identifier, step.threshold, step.now);
    EffectIs(s.providers, step.identifier, step.threshold, step.now);
    var other := GetAlternativeSmsProvider(step.identifier).value;
    ActiveAreProviders(s.providers);
    StillActive(s.providers, step.identifier, Lowered(s.providers[step.identifier], step.now));
    var between := s.providers[step.identifier := Lowered(s.providers[step.identifier], step.now)];
    StillActive(between, other, Raised(between[other], step.now));
    assert AfterStep(s, resting, step).providers[other].updatedAt == Some(step.now);
  }

  lemma StillActive(providers: Table, i: Identifier, p: Provider)
    requires i in providers && p.notificationType == providers[i].notificationType && p.active == providers[i].active
    ensures ActiveSms(providers[i := p]) == ActiveSms(providers)
  {
  }

  lemma HasMember<T>(s: seq<T>)
    ensures s == [] || exists x :: x in s
  {
    if s != [] {
      assert s[0] in s;
    }
  }

  lemma AtRestNothingChanges(s: State, resting: map<Identifier, int>, step: Step)
    requires step.Tend? && Allowed(s, resting, step)
    requires AwayFromRest(s.providers, resting, GetSmsProvidersForUpdate(s.providers, step.now, 15 * MINUTE)) == {}
    ensures AfterStep(s, resting, step) == s
  {
    HasMember(step.changed);
    var chosen := GetSmsProvidersForUpdate(s.providers, step.now, 15 * MINUTE);
    assert TendedTable(s.providers, resting, chosen, step.now) == s.providers;
  }

  lemma EffectiveTend(s: State, resting: map<Identifier, int>, step: Step)
    requires step.Tend? && Allowed(s, resting, step) && AfterStep(s, resting, step) != s
    ensures !ChangedLately(s.providers, step.now, 15 * MINUTE)
    ensures TouchedSince(AfterStep(s, resting, step).providers, step.now)
  {
    hide ChangedLately;
    var chosen := GetSmsProvidersForUpdate(s.providers, step.now, 15 * MINUTE);
    if AwayFromRest(s.providers, resting, chosen) == {} {
      AtRestNothingChanges(s, resting, step);
    }
    var i :| i in AwayFromRest(s.providers, resting, chosen);
    var tended := TendedTable(s.providers, resting, chosen, step.now);
    assert tended[i].updatedAt == Some(step.now) && i in ActiveSms(tended);
  }

  /** An automatic adjustment happens only if every active SMS provider was last updated at least
      its threshold earlier; and it leaves one that is updated now. */
  lemma AdjustmentNeedsQuiet(s: State, resting: map<Identifier, int>, step: Step)
    requires !step.Manual? && Allowed(s, resting, step) && AfterStep(s, resting, step) != s
    ensures forall i | i in ActiveSms(s.providers) && s.providers[i].updatedAt.Some? ::
              s.providers[i].updatedAt.value + (if step.Reduce? then step.threshold else 15 * MINUTE) <= step.now
    ensures TouchedSince(AfterStep(s, resting, step).providers, step.now)
  {
    hide AfterStep, ActiveSms, Allowed;
    if step.Reduce? {
      EffectiveReduce(s, resting, step);
    } else {
      EffectiveTend(s, resting, step);
    }
  }

  /** A manual update that deactivates no provider leaves a trace of the earlier change, or one of
      its own. */
  lemma ManualKeepsTouched(s: State, resting: map<Identifier, int>, step: Step, t: Instant)
    requires step.Manual? && Allowed(s, resting, step) && TouchedSince(s.providers, t) && t <= step.now
    requires step.active != Some(false)
    ensures TouchedSince(AfterStep(s, resting, step).providers, t)
  {
    var after := AfterStep(s, resting, step).providers;
    var i :| i in ActiveSms(s.providers) && s.providers[i].updatedAt.Some? && s.providers[i].updatedAt.value >= t;
    assert i in ActiveSms(after) && after[i].updatedAt.Some? && after[i].updatedAt.value >= t;
  }

  lemma StepKeepsTouched(s: State, resting: map<Identifier, int>, step: Step, t: Instant)
    requires Allowed(s, resting, step) && TouchedSince(s.providers, t) && t <= step.now
    requires step.Manual? ==> step.active != Some(false)
    ensures TouchedSince(AfterStep(s, resting, step).providers, t)
  {
    hide AfterStep, Allowed, ActiveSms;
    if step.Manual? {
      ManualKeepsTouched(s, resting, step, t);
    } else if AfterStep(s, resting, step) != s {
      AdjustmentNeedsQuiet(s, resting, step);
    }
  }

  lemma {:induction false} TouchedInRun(s: State, resting: map<Identifier, int>, steps: seq<Step>, t: Instant)
    requires IsRun(s, resting, steps) && TouchedSince(s.providers, t)
    requires forall step | step in steps :: t <= step.now && (step.Manual? ==> step.active != Some(false))
    ensures TouchedSince(AfterRun(s, resting, steps).providers, t)
  {
    hide AfterStep, Allowed, TouchedSince;
    if steps == [] {
    } else {
      var front, last := steps[..|steps| - 1], steps[|steps| - 1];
      assert last in steps && forall step | step in front :: step in steps;
      TouchedInRun(s, resting, front, t);
      StepKeepsTouched(AfterRun(s, resting, front), resting, last, t);
    }
  }

  /** In every run, two automatic adjustments lie at least the threshold of the later one apart,
      whatever calls lie between them, and whatever manual updates that deactivate no provider. */
  lemma AdjustmentsAreFarApart(s: State, resting: map<Identifier, int>, first: Step, between: seq<Step>, last: Step)
    requires !first.Manual? && Allowed(s, resting, first) && AfterStep(s, resting, first) != s
    requires IsRun(AfterStep(s, resting, first), resting, between)
    requires forall step | step in between :: first.now <= step.now && (step.Manual? ==> step.active != Some(false))
    requires !last.Manual?
    requires var before := AfterRun(AfterStep(s, resting, first), resting, between);
             Allowed(before, resting, last) && AfterStep(before, resting, last) != before
    ensures last.now >= first.now + if last.Reduce? then last.threshold else 15 * MINUTE
  {
    hide AfterStep, Allowed, ActiveSms, IsRun, AfterRun;
    AdjustmentNeedsQuiet(s, resting, first);
    TouchedInRun(AfterStep(s, resting, first), resting, between, first.now);
    var before := AfterRun(AfterStep(s, resting, first), resting, between);
    AdjustmentNeedsQuiet(before, resting, last);
    ActiveAreProviders(before.providers);
    var i :| i in ActiveSms(before.providers) && before.providers[i].updatedAt.Some?
        && before.providers[i].updatedAt.value >= first.now;
  }

  // ---------------------------------------------------------------- one check for slow delivery

  /** An entry of is_delivery_slow_for_providers, and when the loop of the check comes to it. */
  datatype Report = Report(identifier: Identifier, slow: bool, reachedAt: Instant)

  /** All of the reported providers are slow, or none is. */
  predicate AllAlike(reports: seq<Report>) {
    reports != [] && forall k | 0 <= k < |reports| :: reports[k].slow == reports[0].slow
  }

  /** The loop of the check; an exception ends it. */
  function AfterReports(s: State, reports: seq<Report>): (State, Option<Failure>)
    decreases |reports|
  {
    if reports == [] then (s, None)
    else if !reports[0].slow then AfterReports(s, reports[1..])
    else
      match Reduced(s, reports[0].identifier, 5 * MINUTE, reports[0].reachedAt)
      case Err(e) => (s, Some(e))
      case Ok(s') => AfterReports(s', reports[1..])
  }

  function AfterCheck(s: State, reports: seq<Report>): (State, Option<Failure>) {
    if AllAlike(reports) then (s, None) else AfterReports(s, reports)
  }

  /** switch_current_sms_provider_on_slow_delivery */
  method SwitchCurrentSmsProviderOnSlowDelivery(store: ProviderStore, reports: seq<Report>)
      returns (failure: Option<Failure>)
    modifies store
    ensures (store.Now(), failure) == AfterCheck(old(store.Now()), reports)
  {
    hide Reduced;
    failure := None;
    if AllAlike(reports) {
      return;
    }
    var i := 0;
    while i < |reports| && failure.None?
      invariant 0 <= i <= |reports|
      invariant failure.None? ==> AfterReports(store.Now(), reports[i..]) == AfterReports(old(store.Now()), reports)
      invariant failure.Some? ==> (store.Now(), failure) == AfterReports(old(store.Now()), reports)
      decreases |reports| - i
    {
      assert reports[i..][1..] == reports[i + 1..];
      if reports[i].slow {
        failure := store.DaoReduceSmsProviderPriority(reports[i].identifier, 5 * MINUTE, reports[i].reachedAt);
      }
      i := i + 1;
    }
  }

  lemma {:induction false} BlockedReportsDoNothing(s: State, reports: seq<Report>, t: Instant)
    requires TouchedSince(s.providers, t)
    requires forall k | 0 <= k < |reports| :: reports[k].reachedAt < t + 5 * MINUTE
    ensures AfterReports(s, reports) == (s, None)
  {
    if reports == [] {
    } else {
      assert ChangedLately(s.providers, reports[0].reachedAt, 5 * MINUTE) by {
        var i :| i in ActiveSms(s.providers) && s.providers[i].updatedAt.Some? && s.providers[i].updatedAt.value >= t;
      }
      BlockedReportsDoNothing(s, reports[1..], t);
    }
  }

  /** The call raises: its guard lets it through, but the provider is unknown, or it or the one that takes over
      from it is not active. */
  ghost predicate ReductionRaises(providers: Table, identifier: Identifier, threshold: int, now: Instant) {
    && Quiet(providers, threshold, now)
    && (exists i, i' :: i != i' && SendsTexts(providers, i) && SendsTexts(providers, i'))
    && (SendsTexts(providers, identifier) ==>
          !exists other :: TakesOver(other, identifier) && SendsTexts(providers, other))
  }

  lemma ReductionRaisesIff(s: State, identifier: Identifier, threshold: int, now: Instant)
    ensures Reduced(s, identifier, threshold, now).Err? <==> ReductionRaises(s.providers, identifier, threshold, now)
  {
    hide ChangedLately, ActiveSms, TakesOver, Quiet, SendsTexts;
    EffectIs(s.providers, identifier, threshold, now);
    AtLeastTwo(ActiveSms(s.providers));
  }

  lemma AtLeastTwo<T>(s: set<T>)
    ensures |s| >= 2 <==> exists x, y :: x != y && x in s && y in s
  {
    if |s| >= 2 {
      var x :| x in s;
      assert |s - {x}| >= 1;
      var y :| y in s - {x};
    }
    if x, y :| x != y && x in s && y in s {
      SubsetCardinality({x, y}, s);
    }
  }

  /** The report for which the check acts: the first slow one whose call takes effect, if no earlier slow one
      raises. */
  ghost predicate ActsOn(s: State, reports: seq<Report>, k: int) {
    && 0 <= k < |reports| && reports[k].slow
    && ReductionTakesEffect(s.providers, reports[k].identifier, 5 * MINUTE, reports[k].reachedAt)
    && forall e | 0 <= e < k && reports[e].slow ::
         && !ReductionTakesEffect(s.providers, reports[e].identifier, 5 * MINUTE, reports[e].reachedAt)
         && !ReductionRaises(s.providers, reports[e].identifier, 5 * MINUTE, reports[e].reachedAt)
  }

  /** The first slow report whose call raises, if no earlier slow one takes effect. */
  ghost predicate RaisesOn(s: State, reports: seq<Report>, k: int) {
    && 0 <= k < |reports| && reports[k].slow
    && ReductionRaises(s.providers, reports[k].identifier, 5 * MINUTE, reports[k].reachedAt)
    && forall e | 0 <= e < k && reports[e].slow ::
         && !ReductionTakesEffect(s.providers, reports[e].identifier, 5 * MINUTE, reports[e].reachedAt)
         && !ReductionRaises(s.providers, reports[e].identifier, 5 * MINUTE, reports[e].reachedAt)
  }

  lemma OnRest(s: State, reports: seq<Report>, k: nat)
    requires reports != []
    ensures var r := reports[0];
            var passes := !r.slow
                       || !(ReductionTakesEffect(s.providers, r.identifier, 5 * MINUTE, r.reachedAt)
                            || ReductionRaises(s.providers, r.identifier, 5 * MINUTE, r.reachedAt));
            && (ActsOn(s, reports, k + 1) <==> passes && ActsOn(s, reports[1..], k))
            && (RaisesOn(s, reports, k + 1) <==> passes && RaisesOn(s, reports[1..], k))
  {
    hide ReductionTakesEffect, ReductionRaises;
    var rest := reports[1..];
    assert forall e | 0 <= e < |rest| :: rest[e] == reports[e + 1];
    assert forall e | 0 < e < |reports| :: reports[e] == rest[e - 1];
  }

  /** What the loop does, for a check that takes less than five minutes. */
  lemma {:induction false} ReportsActOn(s: State, reports: seq<Report>, start: Instant)
    requires forall k | 0 <= k < |reports| :: start <= reports[k].reachedAt < start + 5 * MINUTE
    ensures forall k | ActsOn(s, reports, k) ::
              AfterReports(s, reports).0 == AfterReduction(s, reports[k].identifier, 5 * MINUTE, reports[k].reachedAt)
    ensures (forall k :: !ActsOn(s, reports, k)) ==> AfterReports(s, reports).0 == s
    ensures AfterReports(s, reports).1.Some? <==> exists k :: RaisesOn(s, reports, k)
  {
    hide Reduced, ActiveSms, ChangedLately, ReductionTakesEffect, ReductionRaises;
    if reports == [] {
    } else {
      var r, rest := reports[0], reports[1..];
      ReductionChangesIff(s, r.identifier, 5 * MINUTE, r.reachedAt);
      ReductionRaisesIff(s, r.identifier, 5 * MINUTE, r.reachedAt);
      assert forall k | 0 <= k < |rest| :: rest[k] == reports[k + 1];
      var passes := r.slow ==> Reduced(s, r.identifier, 5 * MINUTE, r.reachedAt) == Ok(s);
      forall k: int | k > 0
        ensures ActsOn(s, reports, k) <==> passes && ActsOn(s, rest, k - 1)
        ensures RaisesOn(s, reports, k) <==> passes && RaisesOn(s, rest, k - 1)
      {
        OnRest(s, reports, k - 1);
      }
      forall k: nat
        ensures passes && ActsOn(s, rest, k) ==> ActsOn(s, reports, k + 1)
        ensures passes && RaisesOn(s, rest, k) ==> RaisesOn(s, reports, k + 1)
      {
        OnRest(s, reports, k);
      }
      if !passes {
        assert ActsOn(s, reports, 0) || RaisesOn(s, reports, 0);
        if Reduced(s, r.identifier, 5 * MINUTE, r.reachedAt).Ok? {
          EffectiveReduce(s, map[], Reduce(r.identifier, 5 * MINUTE, r.reachedAt));
          BlockedReportsDoNothing(Reduced(s, r.identifier, 5 * MINUTE, r.reachedAt).value, rest, r.reachedAt);
        }
      } else {
        ReportsActOn(s, rest, start);
        assert !ActsOn(s, reports, 0) && !RaisesOn(s, reports, 0);
      }
    }
  }

  /** When a check that takes less than five minutes acts: never if all reports are slow, or none is; otherwise
      its result is that of the one report that it acts on, and nothing changes if there is no such
      report. So it changes something, and it raises, exactly if some provider is slow, another is
      not, and there is a report to act on, or to raise for. */
  lemma OneReductionPerCheck(s: State, reports: seq<Report>, start: Instant)
    requires forall k | 0 <= k < |reports| :: start <= reports[k].reachedAt < start + 5 * MINUTE
    ensures var split := exists i, j :: 0 <= i < |reports| && 0 <= j < |reports| && reports[i].slow && !reports[j].slow;
            && (!split ==> AfterCheck(s, reports) == (s, None))
            && (split ==> forall k | ActsOn(s, reports, k) ::
                  AfterCheck(s, reports).0
                  == AfterReduction(s, reports[k].identifier, 5 * MINUTE, reports[k].reachedAt))
            && (AfterCheck(s, reports).0 != s <==> split && exists k :: ActsOn(s, reports, k))
            && (AfterCheck(s, reports).1.Some? <==> split && exists k :: RaisesOn(s, reports, k))
  {
    hide ReductionTakesEffect, ReductionRaises, AfterReports, AfterReduction;
    ReportsActOn(s, reports, start);
    if k :| ActsOn(s, reports, k) {
      ReductionChangesIff(s, reports[k].identifier, 5 * MINUTE, reports[k].reachedAt);
    }
    if reports == [] {
      assert AfterReports(s, reports).1.None?;
    }
  }
}
