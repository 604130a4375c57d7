/** How the status of a text message, an email or a Messagebox message changes: by sending it, by
    the providers' receipts, and by the nightly timeout. */
module Receipts {
  import opened Collections
  import opened LondonTime
  import opened Schema

  datatype Notification = Notification(
    notificationType: NotificationType,
    status: Status,
    sentBy: Option<string>,
    international: bool,
    countryRecordsDelivery: bool,   // what the billing rates say of the phone prefix
    reference: Option<string>,
    createdAt: Instant)

  type Table = map<NotificationId, Notification>

  /** `sending` holds a token for every send that has passed its check, and so has loaded the status
      "created", and has not completed. */
  datatype State = State(notifications: Table, sending: multiset<NotificationId>)

  /** The statuses that update_notification_status_by_id still changes. */
  predicate Open(status: Status) { status in {Created, Sending, Pending, Sent, PendingVirusCheck} }

  // ---------------------------------------------------------------- the providers' codes

  datatype Client = Firetext | Mmg | Spryng | Berichtenbox(name: string)

  /** client_name.lower() */
  function SentByOf(client: Client): string {
    match client
    case Firetext => "firetext"
    case Mmg => "mmg"
    case Spryng => "spryng"
    case Berichtenbox(name) => name
  }

  /** The status of a code; None is the KeyError. */
  function ResponseOf(client: Client, code: string): Option<Status> {
    match client
    case Firetext =>
      if code == "0" then Some(Delivered) else if code == "1" then Some(PermanentFailure)
      else if code == "2" then Some(Pending) else None
    case Mmg =>
      if code == "2" then Some(PermanentFailure) else if code == "3" then Some(Delivered)
      else if code == "4" then Some(TemporaryFailure) else if code == "5" then Some(PermanentFailure) else None
    case Spryng => if code == "10" then Some(Delivered) else if code == "20" then Some(PermanentFailure) else None
    case Berichtenbox(_) =>
      if code == "10" then Some(Delivered) else if code == "20" then Some(PermanentFailure) else None
  }

  /** get_message_status_and_reason_from_firetext_code; None is the KeyError. */
  function FiretextCode(code: string): Option<Status> {
    if code in {"000", "102", "103", "104", "302", "900"} then Some(TemporaryFailure)
    else if code in {"101", "201", "301", "401"} then Some(PermanentFailure)
    else None
  }

  datatype SesType = Permanent | Temporary | Delivery

  function SesStatus(t: SesType): Status {
    match t
    case Permanent => PermanentFailure
    case Temporary => TemporaryFailure
    case Delivery => Delivered
  }

  // ---------------------------------------------------------------- one notification

  /** An empty string counts as no value. */
  predicate IsSet(s: Option<string>) { s.Some? && s.value != "" }

  /** _decide_permanent_temporary_failure */
  function DecidePermanentTemporaryFailure(status: Status, n: Notification, detail: Option<string>): Status {
    if n.sentBy == Some("firetext") && status == PermanentFailure then
      if IsSet(detail) && FiretextCode(detail.value).Some? then FiretextCode(detail.value).value
      else if n.status == Pending then TemporaryFailure
      else status
    else status
  }

  /** Receipts for text messages to countries that record no delivery mean nothing. */
  predicate Ignored(n: Notification) {
    n.notificationType == Sms && n.international && !n.countryRecordsDelivery
  }

  function WithSentBy(n: Notification, sentBy: Option<string>): Notification {
    if !IsSet(n.sentBy) && IsSet(sentBy) then n.(sentBy := sentBy) else n
  }

  /** update_notification_status_by_id, on the notification that it finds. */
  function Updated(n: Notification, status: Status, sentBy: Option<string>, detail: Option<string>): Notification {
    if !Open(n.status) || Ignored(n) then n
    else
      var named := WithSentBy(n, sentBy);
      named.(status := DecidePermanentTemporaryFailure(status, named, detail))
  }

  /** process_sms_client_response and process_messagebox_client_response: an unknown code is a
      technical failure, without its detail. */
  function AfterReceipt(n: Notification, client: Client, code: string, detail: Option<string>): Notification {
    match ResponseOf(client, code)
    case Some(status) => Updated(n, status, Some(SentByOf(client)), detail)
    case None => Updated(n, TechnicalFailure, Some(SentByOf(client)), None)
  }

  /** process_ses_results, on the notification that it finds. */
  function AfterSes(n: Notification, t: SesType): Notification {
    if n.status !in {Sending, Pending} then n else n.(status := SesStatus(t))
  }

  /** update_notification_to_sending. The row was loaded before the provider was called: its guard
      looks at the status loaded then, and only the columns that it sets are written. */
  function AfterSend(n: Notification, loaded: Status, provider: string): Notification {
    var named := n.(sentBy := Some(provider));
    if Completed(loaded) then named else named.(status := if n.international then Sent else Sending)
  }

  predicate TimesOut(n: Notification, cutoff: Instant) {
    n.createdAt < cutoff && n.status in {Sending, Pending} && n.notificationType in {Sms, Email}
  }

  function TimedOut(n: Notification): Notification { n.(status := TemporaryFailure) }

  function TimingOut(notifications: Table, cutoff: Instant): set<NotificationId> {
    set id | id in notifications && TimesOut(notifications[id], cutoff)
  }

  function WithTimedOut(notifications: Table, ids: set<NotificationId>): Table {
    map id | id in notifications :: if id in ids then TimedOut(notifications[id]) else notifications[id]
  }

  function WithReference(notifications: Table, reference: string): set<NotificationId> {
    set id | id in notifications && notifications[id].reference == Some(reference)
  }

  /** Texts and emails older than the cutoff that were still sending or pending are temporary failures; every
      other notification is as it was. */
  ghost predicate HaveTimedOut(before: Table, after: Table, cutoff: Instant) {
    && after.Keys == before.Keys
    && forall id | id in before ::
         var n := before[id];
         after[id] == if n.createdAt < cutoff && (n.status == Sending || n.status == Pending)
                         && (n.notificationType == Sms || n.notificationType == Email)
                      then n.(status := TemporaryFailure) else n
  }

  lemma TimeoutInColumns(notifications: Table, cutoff: Instant)
    ensures HaveTimedOut(notifications, WithTimedOut(notifications, TimingOut(notifications, cutoff)), cutoff)
  {
  }

  // ---------------------------------------------------------------- the imperative form

  const TIMEOUT_LIMIT := 100000

  class NotificationTable {
    var notifications: Table

    /** Whether the notification was updated. */
    method UpdateNotificationStatusById(id: NotificationId, status: Status, sentBy: Option<string>,
                                        detail: Option<string>)
        returns (updated: bool)
      modifies this
      ensures updated
           <==> id in old(notifications) && Open(old(notifications)[id].status) && !Ignored(old(notifications)[id])
      ensures notifications == if id in old(notifications)
                               then old(notifications)[id := Updated(old(notifications)[id], status, sentBy, detail)]
                               else old(notifications)
    {
      if id !in notifications {
        return false;
      }
      var n := notifications[id];
      assert notifications == notifications[id := n];
      if n.status !in {Created, Sending, Pending, Sent, PendingVirusCheck} {
        return false;
      }
      if n.notificationType == Sms && n.international && !n.countryRecordsDelivery {
        return false;
      }
      if !IsSet(n.sentBy) && IsSet(sentBy) {
        n := n.(sentBy := sentBy);
      }
      n := n.(status := DecidePermanentTemporaryFailure(status, n, detail));
      notifications := notifications[id := n];
      return true;
    }

    method UpdateNotificationToSending(id: NotificationId, loaded: Status, provider: string)
      requires id in notifications
      modifies this
      ensures notifications == old(notifications)[id := AfterSend(old(notifications)[id], loaded, provider)]
      ensures notifications[id].sentBy == Some(provider)
      ensures notifications[id].status
           == if loaded in {Created, Sending, Pending, PendingVirusCheck, VirusScanFailed}
              then (if old(notifications)[id].international then Sent else Sending)
              else old(notifications)[id].status
    {
      notifications := notifications[id := notifications[id].(sentBy := Some(provider))];
      if !Completed(loaded) {
        if notifications[id].international {
          notifications := notifications[id := notifications[id].(status := Sent)];
        } else {
          notifications := notifications[id := notifications[id].(status := Sending)];
        }
      }
    }

    /** The start of send_sms_to_provider and send_email_to_provider: whether the send goes on. */
    method BeginSend(id: NotificationId, serviceActive: bool) returns (goesOn: bool)
      requires id in notifications
      modifies this
      ensures goesOn <==> serviceActive && old(notifications)[id].status == Created
      ensures notifications == if serviceActive then old(notifications)
                               else old(notifications)[id := old(notifications)[id].(status := TechnicalFailure)]
    {
      if !serviceActive {
        notifications := notifications[id := notifications[id].(status := TechnicalFailure)];
        return false;
      }
      return notifications[id].status == Created;
    }

    /** process_ses_results: the notification is looked up by its reference, which must be its own,
        checked, and then updated by that reference. */
    method ProcessSesResults(reference: string, result: SesType) returns (updated: bool)
      modifies this
      ensures updated <==> exists id :: id in old(notifications) && WithReference(old(notifications), reference) == {id}
                                     && old(notifications)[id].status in {Sending, Pending}
      ensures notifications.Keys == old(notifications).Keys
      ensures forall id | id in old(notifications) ::
                notifications[id] == if WithReference(old(notifications), reference) == {id}
                                     then AfterSes(old(notifications)[id], result) else old(notifications)[id]
    {
      var found := WithReference(notifications, reference);
      if |found| != 1 {
        NotAlone(found);
        return false;
      }
      var id :| id in found;
      Alone(found, id);
      if notifications[id].status !in {Sending, Pending} {
        return false;
      }
      notifications := map i | i in notifications ::
        if i in found then notifications[i].(status := SesStatus(result)) else notifications[i];
      return true;
    }

    /** Any of the notifications that have timed out, up to the limit. */
    method DaoTimeoutNotifications(cutoff: Instant, limit: nat) returns (ids: set<NotificationId>)
      modifies this
      ensures ids <= TimingOut(old(notifications), cutoff)
           && |ids| == Min(limit, |TimingOut(old(notifications), cutoff)|)
      ensures notifications == WithTimedOut(old(notifications), ids)
    {
      ids := {};
      var rest := TimingOut(notifications, cutoff);
      while rest != {} && |ids| < limit
        invariant ids !! rest && ids + rest == TimingOut(notifications, cutoff) && |ids| <= limit
        invariant notifications == old(notifications)
        decreases rest
      {
        var id :| id in rest;
        ids, rest := ids + {id}, rest - {id};
      }
      assert |ids + rest| == |ids| + |rest|;
      notifications := WithTimedOut(notifications, ids);
    }

    /** timeout_notifications: calls until one finds nothing. Exactly the notifications that had
        timed out get the new status, in one call for each full batch, one for a rest, and one
        that finds nothing. */
    method TimeoutNotifications(cutoff: Instant) returns (calls: nat)
      modifies this
      ensures notifications == WithTimedOut(old(notifications), TimingOut(old(notifications), cutoff))
      ensures calls == CeilDiv(|TimingOut(old(notifications), cutoff)|, 100_000) + 1
      ensures HaveTimedOut(old(notifications), notifications, cutoff)
    {
      hide TimesOut, TimingOut, WithTimedOut, HaveTimedOut;
      var all := TimingOut(notifications, cutoff);
      ghost var done: set<NotificationId> := {};
      var more := true;
      calls := 0;
      NothingDoneYet(notifications);
      TimeoutInColumns(notifications, cutoff);
      while more
        invariant done <= all && notifications == WithTimedOut(old(notifications), done)
        invariant more ==> |done| == Min(|all|, calls * TIMEOUT_LIMIT)
        invariant more && calls > 0 ==> (calls - 1) * TIMEOUT_LIMIT < |all|
        invariant !more ==> done == all && calls == CeilDiv(|all|, TIMEOUT_LIMIT) + 1
        decreases more, |all| - |done|
      {
        var ids := DaoTimeoutNotifications(cutoff, TIMEOUT_LIMIT);
        NextBatch(old(notifications), done, ids, cutoff);
        done := done + ids;
        calls := calls + 1;
        more := ids != {};
      }
    }
  }

  lemma NotAlone(found: set<NotificationId>)
    requires |found| != 1
    ensures forall id :: found != {id}
  {
  }

  lemma Alone(found: set<NotificationId>, id: NotificationId)
    requires |found| == 1 && id in found
    ensures found == {id}
  {
    assert |found - {id}| == 0;
  }

  lemma NothingDoneYet(notifications: Table)
    ensures WithTimedOut(notifications, {}) == notifications
  {
  }

  lemma BatchTimesOut(start: Table, done: set<NotificationId>, cutoff: Instant)
    requires done <= TimingOut(start, cutoff)
    ensures TimingOut(WithTimedOut(start, done), cutoff) == TimingOut(start, cutoff) - done
  {
  }

  lemma TimedOutTwice(start: Table, done: set<NotificationId>, ids: set<NotificationId>)
    ensures WithTimedOut(WithTimedOut(start, done), ids) == WithTimedOut(start, done + ids)
  {
  }

  lemma DisjointParts(whole: set<NotificationId>, part: set<NotificationId>, other: set<NotificationId>)
    requires part <= whole && other <= whole - part
    ensures |whole - part| == |whole| - |part| && |part + other| == |part| + |other|
    ensures |part| == |whole| ==> part == whole
  {
    assert whole == part + (whole - part);
  }

  /** A batch leaves the rest of the timed-out notifications for the next calls. */
  lemma NextBatch(start: Table, done: set<NotificationId>, ids: set<NotificationId>, cutoff: Instant)
    requires done <= TimingOut(start, cutoff) && ids <= TimingOut(WithTimedOut(start, done), cutoff)
    ensures |TimingOut(WithTimedOut(start, done), cutoff)| == |TimingOut(start, cutoff)| - |done|
    ensures done + ids <= TimingOut(start, cutoff) && |done + ids| == |done| + |ids|
    ensures WithTimedOut(WithTimedOut(start, done), ids) == WithTimedOut(start, done + ids)
    ensures |done| == |TimingOut(start, cutoff)| ==> done == TimingOut(start, cutoff)
  {
    hide TimingOut, WithTimedOut, TimesOut;
    BatchTimesOut(start, done, cutoff);
    TimedOutTwice(start, done, ids);
    DisjointParts(TimingOut(start, cutoff), done, ids);
  }

  // ---------------------------------------------------------------- steps

  datatype Step =
    | SendBegins(id: NotificationId, serviceActive: bool)
    | SendCompletes(id: NotificationId, provider: string)
    | SendFails(id: NotificationId)
    | RetriesRunOut(id: NotificationId)
    | Receipt(id: NotificationId, client: Client, code: string, detail: Option<string>)
    | SesReceipt(reference: string, result: SesType)
    | Timeout(cutoff: Instant, ids: set<NotificationId>)

  ghost predicate Enabled(s: State, step: Step) {
    match step
    case SendBegins(id, _) => id in s.notifications && s.notifications[id].notificationType in {Sms, Email}
    case SendCompletes(id, _) => id in s.sending && id in s.notifications
    case SendFails(id) => id in s.sending
    case RetriesRunOut(_) => true
    case Receipt(_, _, _, _) => true
    case SesReceipt(_, _) => true
    case Timeout(cutoff, ids) => ids <= TimingOut(s.notifications, cutoff)
  }

  /** One notification after a step. */
  ghost function NotificationAfter(s: State, step: Step, id: NotificationId): Notification
    requires Enabled(s, step) && id in s.notifications
  {
    var n := s.notifications[id];
    match step
    case SendBegins(id', active) => if id == id' && !active then n.(status := TechnicalFailure) else n
    case SendCompletes(id', provider) => if id == id' then AfterSend(n, Created, provider) else n
    case SendFails(_) => n
    case RetriesRunOut(id') => if id == id' then Updated(n, TechnicalFailure, None, None) else n
    case Receipt(id', client, code, detail) => if id == id' then AfterReceipt(n, client, code, detail) else n
    case SesReceipt(reference, result) =>
      // none or several notifications with the reference end in an exception
      if WithReference(s.notifications, reference) == {id} then AfterSes(n, result) else n
    case Timeout(cutoff, ids) => if id in ids then TimedOut(n) else n
  }

  /** The send goes on to the provider only from the status "created". */
  ghost function SendingAfter(s: State, step: Step): multiset<NotificationId>
    requires Enabled(s, step)
  {
    match step
    case SendBegins(id, active) =>
      if active && s.notifications[id].status == Created then s.sending + multiset{id} else s.sending
    case SendCompletes(id, _) => s.sending - multiset{id}
    case SendFails(id) => s.sending - multiset{id}
    case _ => s.sending
  }

  ghost function After(s: State, step: Step): State
    requires Enabled(s, step)
  {
    State(map id | id in s.notifications :: NotificationAfter(s, step, id), SendingAfter(s, step))
  }

  ghost predicate IsRun(s: State, steps: seq<Step>) {
    steps != [] ==>
      && IsRun(s, steps[..|steps| - 1])
      && Enabled(AfterRun(s, steps[..|steps| - 1]), steps[|steps| - 1])
  }

  ghost function AfterRun(s: State, steps: seq<Step>): State {
    if steps == [] then s
    else
      var before := AfterRun(s, steps[..|steps| - 1]);
      if Enabled(before, steps[|steps| - 1]) then After(before, steps[|steps| - 1]) else before
  }

  /** The calls are steps: each receipt, SES notice, batch of a timeout, and retry that runs out can be the next
      step of every state, and does to the table what its call does. */
  lemma CallsAreSteps(s: State, id: NotificationId)
    ensures forall client, code, detail ::
              && Enabled(s, Receipt(id, client, code, detail))
              && After(s, Receipt(id, client, code, detail)).notifications
                 == if id in s.notifications
                    then s.notifications[id := AfterReceipt(s.notifications[id], client, code, detail)]
                    else s.notifications
    ensures forall reference, result ::
              && Enabled(s, SesReceipt(reference, result))
              && (id in s.notifications ==>
                    After(s, SesReceipt(reference, result)).notifications[id]
                    == if WithReference(s.notifications, reference) == {id}
                       then AfterSes(s.notifications[id], result) else s.notifications[id])
    ensures forall cutoff, ids | ids <= TimingOut(s.notifications, cutoff) ::
              && Enabled(s, Timeout(cutoff, ids))
              && After(s, Timeout(cutoff, ids)).notifications == WithTimedOut(s.notifications, ids)
    ensures Enabled(s, RetriesRunOut(id))
         && (id in s.notifications ==>
               After(s, RetriesRunOut(id)).notifications
               == s.notifications[id := Updated(s.notifications[id], TechnicalFailure, None, None)])
  {
    hide Open, Ignored, DecidePermanentTemporaryFailure, ResponseOf, TimesOut, Updated, TimedOut;
  }

  /** So are sends: one can begin for each text and email, and goes on from "created" for an active service only;
      an outstanding one can complete or fail. */
  lemma SendsAreSteps(s: State, id: NotificationId)
    ensures id in s.notifications && s.notifications[id].notificationType in {Sms, Email} ==>
              var n := s.notifications[id];
              && Enabled(s, SendBegins(id, true)) && Enabled(s, SendBegins(id, false))
              && After(s, SendBegins(id, true))
                 == s.(sending := if n.status == Created then s.sending + multiset{id} else s.sending)
              && After(s, SendBegins(id, false))
                 == s.(notifications := s.notifications[id := n.(status := TechnicalFailure)])
    ensures id in s.notifications && id in s.sending ==>
              && Enabled(s, SendFails(id)) && After(s, SendFails(id)) == s.(sending := s.sending - multiset{id})
              && forall provider ::
                   && Enabled(s, SendCompletes(id, provider))
                   && After(s, SendCompletes(id, provider))
                      == State(s.notifications[id := AfterSend(s.notifications[id], Created, provider)],
                               s.sending - multiset{id})
  {
    hide AfterSend;
  }

  // ---------------------------------------------------------------- when the first final status wins

  /** The two ways in which a final status is overwritten: an inactive service's send begins, or an
      outstanding send of the notification completes. */
  predicate Overwrites(step: Step, id: NotificationId, status: Status) {
    || (step.SendBegins? && step.id == id && !step.serviceActive && status != TechnicalFailure)
    || (step.SendCompletes? && step.id == id)
  }

  /** Exactly when one step changes a final status. */
  lemma FinalStatusChangesIff(s: State, step: Step, id: NotificationId)
    requires Enabled(s, step) && id in s.notifications && !Open(s.notifications[id].status)
    ensures After(s, step).notifications[id].status != s.notifications[id].status
       <==> Overwrites(step, id, s.notifications[id].status)
  {
    hide DecidePermanentTemporaryFailure, ResponseOf, TimesOut, Ignored, SendingAfter;
    if step.Timeout? {
      OpenWhenTimingOut(s.notifications, step.cutoff);
    }
  }

  lemma OpenWhenTimingOut(notifications: Table, cutoff: Instant)
    ensures forall id | id in TimingOut(notifications, cutoff) :: id in notifications && Open(notifications[id].status)
  {
  }

  /** A service that was deactivated after a message was delivered turns it into a failure, when
      the send task runs once more. */
  lemma InactiveServiceOverwritesDelivered(n: Notification, id: NotificationId)
    requires n.status == Delivered && n.notificationType in {Sms, Email}
    ensures var s := State(map[id := n], multiset{});
            && Enabled(s, SendBegins(id, false))
            && After(s, SendBegins(id, false)).notifications[id].status == TechnicalFailure
  {
  }

  /** A final status without an outstanding send survives a step for an active service; and it gets
      no new send, since a send begins from "created". */
  lemma FinalSurvivesStep(s: State, step: Step, id: NotificationId)
    requires Enabled(s, step) && id in s.notifications && !Open(s.notifications[id].status) && id !in s.sending
    requires step.SendBegins? ==> step.serviceActive
    ensures After(s, step).notifications[id].status == s.notifications[id].status
    ensures id !in After(s, step).sending
  {
    hide NotificationAfter;
    FinalStatusChangesIff(s, step, id);
  }

  /** No step belongs to an inactive service. */
  ghost predicate ActiveServices(steps: seq<Step>) {
    forall step | step in steps :: step.SendBegins? ==> step.serviceActive
  }

  /** The first final status wins over every run of sends, receipts and timeouts for active
      services, for notifications of every type, if no send of the notification is outstanding. */
  lemma {:induction false} FirstFinalStatusWins(s: State, steps: seq<Step>, id: NotificationId)
    requires IsRun(s, steps) && ActiveServices(steps)
    requires id in s.notifications && !Open(s.notifications[id].status) && id !in s.sending
    ensures var after := AfterRun(s, steps);
            && id in after.notifications && id !in after.sending
            && after.notifications[id].status == s.notifications[id].status
  {
    hide NotificationAfter, SendingAfter, Enabled, Open;
    if steps == [] {
    } else {
      var front, step := steps[..|steps| - 1], steps[|steps| - 1];
      assert step in steps && forall step' | step' in front :: step' in steps;
      FirstFinalStatusWins(s, front, id);
      FinalSurvivesStep(AfterRun(s, front), step, id);
    }
  }

  /** An outstanding send that completes reopens the notification, whatever its receipt said. */
  lemma OutstandingSendReopens(s: State, id: NotificationId, provider: string)
    requires id in s.sending && id in s.notifications && !Open(s.notifications[id].status)
    ensures IsRun(s, [SendCompletes(id, provider)]) && ActiveServices([SendCompletes(id, provider)])
    ensures AfterRun(s, [SendCompletes(id, provider)]).notifications[id].status
         == if s.notifications[id].international then Sent else Sending
  {
    var steps := [SendCompletes(id, provider)];
    assert steps[..0] == [] && IsRun(s, []) && AfterRun(s, steps[..0]) == s;
  }

  /** So the final status is safe in all runs for active services if and only if no send of the
      notification is outstanding. */
  lemma FinalStatusIsSafeIff(s: State, id: NotificationId)
    requires id in s.notifications && !Open(s.notifications[id].status)
    ensures (forall steps | IsRun(s, steps) && ActiveServices(steps) ::
               id in AfterRun(s, steps).notifications
               && AfterRun(s, steps).notifications[id].status == s.notifications[id].status)
       <==> id !in s.sending
  {
    hide IsRun, AfterRun, ActiveServices, After;
    if id in s.sending {
      OutstandingSendReopens(s, id, "");
    } else {
      forall steps | IsRun(s, steps) && ActiveServices(steps)
        ensures id in AfterRun(s, steps).notifications
        ensures AfterRun(s, steps).notifications[id].status == s.notifications[id].status
      {
        FirstFinalStatusWins(s, steps, id);
      }
    }
  }

  /** The run that loses a receipt: it arrives while the provider's reply to the send is awaited. */
  lemma ReceiptBeforeCompletionIsLost(n: Notification, id: NotificationId)
    requires n.notificationType == Sms && n.status == Created && !n.international
    ensures var s := State(map[id := n], multiset{});
            var s1 := After(s, SendBegins(id, true));
            var s2 := After(s1, Receipt(id, Spryng, "10", None));
            && Enabled(s2, SendCompletes(id, "spryng"))
            && s2.notifications[id].status == Delivered
            && After(s2, SendCompletes(id, "spryng")).notifications[id].status == Sending
  {
  }

  // ---------------------------------------------------------------- who sent it

  /** A sender once known is overwritten by no receipt and no timeout: only the completion of a
      send writes it again. */
  lemma SentByChangesIff(s: State, step: Step, id: NotificationId)
    requires Enabled(s, step) && id in s.notifications && IsSet(s.notifications[id].sentBy)
    ensures After(s, step).notifications[id].sentBy != s.notifications[id].sentBy
       <==> step.SendCompletes? && step.id == id && Some(step.provider) != s.notifications[id].sentBy
  {
    hide DecidePermanentTemporaryFailure, Open;
  }

  lemma {:induction false} SentByIsKept(s: State, steps: seq<Step>, id: NotificationId)
    requires IsRun(s, steps) && id in s.notifications && IsSet(s.notifications[id].sentBy)
    requires forall step | step in steps :: !(step.SendCompletes? && step.id == id)
    ensures id in AfterRun(s, steps).notifications
    ensures AfterRun(s, steps).notifications[id].sentBy == s.notifications[id].sentBy
  {
    hide NotificationAfter, SendingAfter, Enabled;
    if steps == [] {
    } else {
      var front, step := steps[..|steps| - 1], steps[|steps| - 1];
      assert step in steps && forall step' | step' in front :: step' in steps;
      SentByIsKept(s, front, id);
      SentByChangesIff(AfterRun(s, front), step, id);
    }
  }

  // ---------------------------------------------------------------- what a receipt does

  /** A receipt settles an open notification, unless it is Firetext's "pending". */
  lemma ReceiptSettlesUnlessPending(n: Notification, client: Client, code: string, detail: Option<string>)
    requires Open(n.status) && !Ignored(n)
    ensures Open(AfterReceipt(n, client, code, detail).status) <==> client == Firetext && code == "2"
    ensures AfterReceipt(n, client, code, detail).status
         in {Delivered, PermanentFailure, TemporaryFailure, TechnicalFailure, Pending}
  {
    hide FiretextCode;
    if IsSet(detail) {
      FiretextCodesFail(detail.value);
    }
  }

  lemma FiretextCodesFail(code: string)
    ensures FiretextCode(code).Some? ==> FiretextCode(code).value in {TemporaryFailure, PermanentFailure}
  {
  }

  /** Firetext's declined receipt: a known detail decides; without one the failure is temporary if
      and only if the notification was pending before. */
  lemma FiretextDeclined(n: Notification, detail: Option<string>)
    requires Open(n.status) && !Ignored(n)
    ensures var after := AfterReceipt(n, Firetext, "1", detail);
            var known := IsSet(detail) && FiretextCode(detail.value).Some?;
            if IsSet(n.sentBy) && n.sentBy != Some("firetext") then after.status == PermanentFailure
            else if known then after.status == FiretextCode(detail.value).value
            else after.status == if n.status == Pending then TemporaryFailure else PermanentFailure
  {
    hide FiretextCode;
  }

  /** So Firetext's pair of receipts, pending and then declined, ends in a temporary failure, where
      the declined receipt alone is a permanent one. */
  lemma FiretextPendingThenDeclined(n: Notification, detail: Option<string>)
    requires n.status in {Created, Sending} && !Ignored(n) && n.sentBy in {None, Some("firetext")}
    requires IsSet(detail) ==> FiretextCode(detail.value).None?
    ensures AfterReceipt(AfterReceipt(n, Firetext, "2", None), Firetext, "1", detail).status == TemporaryFailure
    ensures AfterReceipt(n, Firetext, "1", detail).status == PermanentFailure
  {
    hide FiretextCode;
  }

  // ---------------------------------------------------------------- what every receipt means

  ghost predicate MeansDelivered(client: Client, code: string) {
    || (client.Firetext? && code == "0") || (client.Mmg? && code == "3")
    || (client.Spryng? && code == "10") || (client.Berichtenbox? && code == "10")
  }

  ghost predicate MeansDeclined(client: Client, code: string) {
    || (client.Firetext? && code == "1") || (client.Mmg? && code in {"2", "5"})
    || (client.Spryng? && code == "20") || (client.Berichtenbox? && code == "20")
  }

  ghost predicate MeansPending(client: Client, code: string) { client.Firetext? && code == "2" }

  ghost predicate MeansFailedForNow(client: Client, code: string) { client.Mmg? && code == "4" }

  /** Who a notification counts as sent by when a receipt of the client is processed: its own sender if it has
      one, and otherwise the client. */
  ghost predicate CountsAsSentBy(n: Notification, client: Client, sender: Option<string>) {
    if n.sentBy != None && n.sentBy != Some("") then sender == n.sentBy
    else
      match client
      case Firetext => sender == Some("firetext")
      case Mmg => sender == Some("mmg")
      case Spryng => sender == Some("spryng")
      case Berichtenbox(name) => sender == if name == "" then n.sentBy else Some(name)
  }

  /** Firetext's reasons that are temporary, and those that are not. */
  const TEMPORARY_REASONS := {"000", "102", "103", "104", "302", "900"}
  const PERMANENT_REASONS := {"101", "201", "301", "401"}

  /** A declined message may still fail for now only, if it counts as sent by Firetext: a known reason decides,
      and without one whether it was pending before. */
  ghost predicate IsTemporary(n: Notification, sender: Option<string>, detail: Option<string>) {
    && sender == Some("firetext")
    && if exists reason :: detail == Some(reason) && reason in TEMPORARY_REASONS + PERMANENT_REASONS
       then detail.value in TEMPORARY_REASONS
       else n.status == Pending
  }

  lemma ReasonsAre(detail: Option<string>)
    ensures IsSet(detail) && FiretextCode(detail.value).Some?
       <==> exists reason :: detail == Some(reason) && reason in TEMPORARY_REASONS + PERMANENT_REASONS
    ensures IsSet(detail) && FiretextCode(detail.value).Some? ==>
              FiretextCode(detail.value).value
              == if detail.value in TEMPORARY_REASONS then TemporaryFailure else PermanentFailure
  {
  }

  lemma CodesMean(client: Client, code: string)
    ensures ResponseOf(client, code) == Some(Delivered) <==> MeansDelivered(client, code)
    ensures ResponseOf(client, code) == Some(PermanentFailure) <==> MeansDeclined(client, code)
    ensures ResponseOf(client, code) == Some(TemporaryFailure) <==> MeansFailedForNow(client, code)
    ensures ResponseOf(client, code) == Some(Pending) <==> MeansPending(client, code)
    ensures ResponseOf(client, code).Some?
         ==> ResponseOf(client, code).value in {Delivered, PermanentFailure, TemporaryFailure, Pending}
  {
  }

  /** What a receipt makes of an open notification, for every client, code and reason: each of the five results has
      just the receipts that mean it, and a code that the client does not use is a technical failure. */
  lemma ReceiptMeans(n: Notification, client: Client, code: string, detail: Option<string>)
    requires Open(n.status) && !Ignored(n)
    ensures var after := AfterReceipt(n, client, code, detail);
            && CountsAsSentBy(n, client, after.sentBy)
            && after == n.(status := after.status, sentBy := after.sentBy)
            && (after.status == Delivered <==> MeansDelivered(client, code))
            && (after.status == Pending <==> MeansPending(client, code))
            && (after.status == TemporaryFailure <==>
                  || MeansFailedForNow(client, code)
                  || (MeansDeclined(client, code) && IsTemporary(n, after.sentBy, detail)))
            && (after.status == PermanentFailure
                <==> MeansDeclined(client, code) && !IsTemporary(n, after.sentBy, detail))
            && (after.status == TechnicalFailure <==>
                  && !MeansDelivered(client, code) && !MeansPending(client, code)
                  && !MeansFailedForNow(client, code) && !MeansDeclined(client, code))
  {
    hide FiretextCode, ResponseOf, MeansDelivered, MeansDeclined, MeansPending, MeansFailedForNow;
    ReasonsAre(detail);
    CodesMean(client, code);
  }

  /** What Amazon's notice makes of an email: it settles one that is sending or pending, and changes no other. */
  lemma SesMeans(n: Notification, t: SesType)
    ensures var after := AfterSes(n, t);
            if n.status == Sending || n.status == Pending then
              && after == n.(status := after.status)
              && (after.status == Delivered <==> t.Delivery?)
              && (after.status == PermanentFailure <==> t.Permanent?)
              && (after.status == TemporaryFailure <==> t.Temporary?)
            else after == n
  {
  }
}
