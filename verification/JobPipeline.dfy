/** Bulk jobs: from a file of rows to one notification for each row, by way of tasks that may be
    lost, repeated or retried. */
module JobPipeline {
  import opened Collections
  import opened LondonTime
  import Schema

  type JobId = Schema.JobId
  type NotificationId = Schema.NotificationId

  datatype JobStatus =
    | Pending | InProgress | Finished | FinishedAllNotificationsCreated | SendingLimitsExceeded
    | Scheduled | Cancelled | Error

  /** A job; its file has notificationCount rows, numbered from 0. */
  datatype Job = Job(
    status: JobStatus,
    notificationCount: nat,
    scheduledFor: Option<Instant>,
    processingStarted: Option<Instant>,
    processingFinished: Option<Instant>)

  /** A row of a job's file. */
  datatype RowRef = RowRef(job: JobId, row: nat)

  /** The arguments of a save task: the id the notification will have, and its row. */
  datatype RowTask = RowTask(id: NotificationId, ref: RowRef)

  datatype Task =
    | ProcessJob(job: JobId)
    | ProcessIncompleteJobs(jobs: set<JobId>)
    | ShatterJobRows(rows: seq<RowTask>)
    | Save(row: RowTask, retries: nat)

  /** A task that is running, between two of its database or queue calls. */
  datatype Worker =
    | Sending(job: JobId, rows: seq<nat>)     // process_job, process_incomplete_job: the rows still to be queued
    | Resuming(job: JobId)                    // process_incomplete_jobs, before it gets to this job
    | Marking(job: JobId)                     // the sweep found all rows
    | Repairing(job: JobId)                   // the sweep found some rows
    | Refilling(job: JobId, rows: seq<nat>)   // the missing rows still to be queued

  /** `notifications` has the id as its primary key; `issued` records the ids made so far. */
  datatype State = State(
    jobs: map<JobId, Job>,
    notifications: map<NotificationId, RowRef>,
    issued: map<NotificationId, RowRef>,
    tasks: multiset<Task>,
    workers: multiset<Worker>)

  const INITIAL := State(map[], map[], map[], multiset{}, multiset{})

  const MAX_RETRIES := 5

  // ---------------------------------------------------------------- queries

  function IdsOfJob(s: State, j: JobId): set<NotificationId> {
    set id | id in s.notifications && s.notifications[id].job == j
  }

  predicate Created(s: State, ref: RowRef) {
    exists id :: id in s.notifications && s.notifications[id] == ref
  }

  function AllRows(n: nat): seq<nat> { seq(n, i => i) }

  function NotCreated(s: State, j: JobId): nat -> bool {
    (row: nat) => !Created(s, RowRef(j, row))
  }

  /** find_missing_row_for_job */
  function MissingRows(s: State, j: JobId, size: nat): seq<nat> { Filter<nat>(AllRows(size), NotCreated(s, j)) }

  function RowsOfJob(s: State, j: JobId): set<nat> {
    set id | id in IdsOfJob(s, j) :: s.notifications[id].row
  }

  ghost function MaxOf(rows: set<nat>): (r: nat)
    requires rows != {}
    ensures r in rows && forall row | row in rows :: row <= r
  {
    var row :| row in rows;
    if rows == {row} then row
    else
      assert rows - {row} != {};
      var other := MaxOf(rows - {row});
      assert forall x | x in rows :: x == row || x in rows - {row};
      if other < row then row else other
  }

  /** The row number of dao_get_last_notification_added_for_job_id, or -1. */
  ghost function LastRow(s: State, j: JobId): int {
    if RowsOfJob(s, j) == {} then -1 else MaxOf(RowsOfJob(s, j))
  }

  ghost function RowsAfter(last: int): nat -> bool {
    (row: nat) => row > last
  }

  /** The rows that process_incomplete_job queues. */
  ghost function RowsToResume(s: State, j: JobId, n: nat): seq<nat>
  {
    Filter<nat>(AllRows(n), RowsAfter(LastRow(s, j)))
  }

  predicate FinishedLately(job: Job, now: Instant) {
    && job.status == Finished && job.processingFinished.Some?
    && now - 24 * 60 * MINUTE < job.processingFinished.value < now - 20 * MINUTE
  }

  /** The inner join of find_jobs_with_missing_rows: a job has a row only if it has a notification. */
  function SweptJobs(s: State, now: Instant): set<JobId> {
    set j | j in s.jobs && FinishedLately(s.jobs[j], now) && IdsOfJob(s, j) != {}
  }

  function JobsWithAllRows(s: State, now: Instant): set<JobId> {
    set j | j in SweptJobs(s, now) && |IdsOfJob(s, j)| == s.jobs[j].notificationCount
  }

  function JobsWithMissingRows(s: State, now: Instant): set<JobId> {
    SweptJobs(s, now) - JobsWithAllRows(s, now)
  }

  predicate IsDue(job: Job, now: Instant) {
    job.status == Scheduled && job.scheduledFor.Some? && job.scheduledFor.value < now
  }

  function DueJobs(jobs: map<JobId, Job>, now: Instant): set<JobId> {
    set j | j in jobs && IsDue(jobs[j], now)
  }

  predicate HalfAnHourAgo(t: Option<Instant>, now: Instant) {
    t.Some? && now - 35 * MINUTE <= t.value <= now - 30 * MINUTE
  }

  predicate IsOverdue(job: Job, now: Instant) {
    || (job.status == InProgress && HalfAnHourAgo(job.processingStarted, now))
    || (job.status == Pending && HalfAnHourAgo(job.scheduledFor, now))
  }

  function OverdueJobs(jobs: map<JobId, Job>, now: Instant): set<JobId> {
    set j | j in jobs && IsOverdue(jobs[j], now)
  }

  function WithStatus(jobs: map<JobId, Job>, changed: set<JobId>, status: JobStatus): map<JobId, Job> {
    map j | j in jobs :: if j in changed then jobs[j].(status := status) else jobs[j]
  }

  function Restarted(jobs: map<JobId, Job>, changed: set<JobId>, now: Instant): map<JobId, Job> {
    map j | j in jobs ::
        if j in changed then jobs[j].(status := InProgress, processingStarted := Some(now)) else jobs[j]
  }

  // ---------------------------------------------------------------- steps

  datatype Step =
    | CreateJob(job: JobId, count: nat, scheduledFor: Option<Instant>)
    | RunScheduledJobs(now: Instant)
    | CancelJob(job: JobId)
    | CancelLetterJob(job: JobId)
    | StartJob(job: JobId, now: Instant, active: bool, withinLimits: bool)
    | QueueRows(worker: Worker, ids: seq<NotificationId>)
    | CompleteJob(worker: Worker, now: Instant)
    | Stop(worker: Worker)
    | RunShatter(rows: seq<RowTask>)
    | RunSave(row: RowTask, retries: nat, databaseFails: bool)
    | CheckJobStatus(now: Instant)
    | StartIncomplete(jobs: set<JobId>, now: Instant)
    | ResumeJob(job: JobId)
    | Sweep(now: Instant)
    | MarkJob(job: JobId)
    | FindMissing(job: JobId)
    | QueueMissing(worker: Worker, id: NotificationId)
    | Redeliver(task: Task)
    | Lose(task: Task)

  ghost predicate AreFresh(s: State, ids: seq<NotificationId>) {
    NoDuplicates(ids) && forall id | id in ids :: id !in s.issued
  }

  /** What must hold for a step to be taken. */
  ghost predicate Enabled(s: State, step: Step) {
    match step
    case CreateJob(j, _, _) => j !in s.jobs
    case RunScheduledJobs(_) => true
    case CancelJob(j) => j in s.jobs && s.jobs[j].status == Scheduled
    case CancelLetterJob(j) => j in s.jobs && s.jobs[j].status == FinishedAllNotificationsCreated
    case StartJob(j, _, _, _) => ProcessJob(j) in s.tasks && j in s.jobs
    case QueueRows(w, ids) => w in s.workers && w.Sending? && 0 < |ids| <= |w.rows| && AreFresh(s, ids)
    case CompleteJob(w, _) => w in s.workers && w.Sending? && w.rows == [] && w.job in s.jobs
    case Stop(w) => w in s.workers
    case RunShatter(rows) => ShatterJobRows(rows) in s.tasks
    case RunSave(row, retries, _) => Save(row, retries) in s.tasks
    case CheckJobStatus(_) => true
    case StartIncomplete(js, _) => ProcessIncompleteJobs(js) in s.tasks && js <= s.jobs.Keys
    case ResumeJob(j) => Resuming(j) in s.workers && j in s.jobs
    case Sweep(_) => true
    case MarkJob(j) => Marking(j) in s.workers && j in s.jobs
    case FindMissing(j) => Repairing(j) in s.workers && j in s.jobs
    case QueueMissing(w, id) => w in s.workers && w.Refilling? && w.rows != [] && id !in s.issued
    case Redeliver(t) => t in s.tasks
    case Lose(t) => t in s.tasks
  }

  function RowTasks(j: JobId, rows: seq<nat>, ids: seq<NotificationId>): seq<RowTask>
    requires |ids| <= |rows|
  {
    seq(|ids|, i requires 0 <= i < |ids| => RowTask(ids[i], RowRef(j, rows[i])))
  }

  function Issue(issued: map<NotificationId, RowRef>, rows: seq<RowTask>): map<NotificationId, RowRef> {
    if rows == [] then issued else Issue(issued, rows[..|rows| - 1])[rows[|rows| - 1].id := rows[|rows| - 1].ref]
  }

  function SavesOf(rows: seq<RowTask>): multiset<Task> {
    multiset(MapSeq(rows, (row: RowTask) => Save(row, 0)))
  }

  /** save_sms, save_email, save_letter: the insert fails if it violates the primary key or the
      unique constraint on job and row, or for another reason. */
  predicate SaveSucceeds(s: State, row: RowTask, databaseFails: bool) {
    !databaseFails && row.id !in s.notifications && !Created(s, row.ref)
  }

  /** handle_exception looks the id up, and retries up to a limit if it is not there. */
  predicate SaveIsRetried(s: State, row: RowTask, retries: nat, databaseFails: bool) {
    !SaveSucceeds(s, row, databaseFails) && row.id !in s.notifications && retries < MAX_RETRIES
  }

  function StartedJob(job: Job, now: Instant, active: bool, withinLimits: bool): Job {
    if job.status != Pending then job
    else if !active then job.(status := Cancelled, processingStarted := Some(now))
    else if !withinLimits then
      job.(status := SendingLimitsExceeded, processingStarted := Some(now), processingFinished := Some(now))
    else job.(status := InProgress, processingStarted := Some(now))
  }

  /** process_job goes on to the rows of the file. */
  predicate StartsSending(job: Job, active: bool, withinLimits: bool) {
    job.status == Pending && active && withinLimits
  }

  function CreatedJob(count: nat, scheduledFor: Option<Instant>): Job {
    Job(if scheduledFor.Some? then Scheduled else Pending, count, scheduledFor, None, None)
  }

  ghost function JobsAfter(s: State, step: Step): map<JobId, Job>
    requires Enabled(s, step)
  {
    match step
    case CreateJob(j, count, scheduledFor) => s.jobs[j := CreatedJob(count, scheduledFor)]
    case RunScheduledJobs(now) => WithStatus(s.jobs, DueJobs(s.jobs, now), Pending)
    case CancelJob(j) => s.jobs[j := s.jobs[j].(status := Cancelled)]
    case CancelLetterJob(j) => s.jobs[j := s.jobs[j].(status := Cancelled)]
    case StartJob(j, now, active, withinLimits) => s.jobs[j := StartedJob(s.jobs[j], now, active, withinLimits)]
    case CompleteJob(w, now) => s.jobs[w.job := s.jobs[w.job].(status := Finished, processingFinished := Some(now))]
    case CheckJobStatus(now) => WithStatus(s.jobs, OverdueJobs(s.jobs, now), Error)
    case StartIncomplete(js, now) => Restarted(s.jobs, js, now)
    case MarkJob(j) => s.jobs[j := s.jobs[j].(status := FinishedAllNotificationsCreated)]
    case _ => s.jobs
  }

  function NotificationsAfter(s: State, step: Step): map<NotificationId, RowRef> {
    if step.RunSave? && SaveSucceeds(s, step.row, step.databaseFails) then s.notifications[step.row.id := step.row.ref]
    else s.notifications
  }

  ghost function IssuedAfter(s: State, step: Step): map<NotificationId, RowRef>
    requires Enabled(s, step)
  {
    match step
    case QueueRows(w, ids) => Issue(s.issued, RowTasks(w.job, w.rows, ids))
    case QueueMissing(w, id) => s.issued[id := RowRef(w.job, w.rows[0])]
    case _ => s.issued
  }

  /** The tasks that a step takes off the queue. */
  function Taken(step: Step): multiset<Task> {
    match step
    case StartJob(j, _, _, _) => multiset{ProcessJob(j)}
    case RunShatter(rows) => multiset{ShatterJobRows(rows)}
    case RunSave(row, retries, _) => multiset{Save(row, retries)}
    case StartIncomplete(js, _) => multiset{ProcessIncompleteJobs(js)}
    case Lose(t) => multiset{t}
    case _ => multiset{}
  }

  /** The tasks that a step queues. */
  ghost function Queued(s: State, step: Step): multiset<Task>
    requires Enabled(s, step)
  {
    match step
    case CreateJob(j, _, scheduledFor) => if scheduledFor.None? then multiset{ProcessJob(j)} else multiset{}
    case RunScheduledJobs(now) => multiset(set j | j in DueJobs(s.jobs, now) :: ProcessJob(j))
    case QueueRows(w, ids) => multiset{ShatterJobRows(RowTasks(w.job, w.rows, ids))}
    case RunShatter(rows) => SavesOf(rows)
    case RunSave(row, retries, databaseFails) =>
      if SaveIsRetried(s, row, retries, databaseFails) then multiset{Save(row, retries + 1)} else multiset{}
    case CheckJobStatus(now) =>
      if OverdueJobs(s.jobs, now) != {} then multiset{ProcessIncompleteJobs(OverdueJobs(s.jobs, now))} else multiset{}
    case QueueMissing(w, id) => multiset{Save(RowTask(id, RowRef(w.job, w.rows[0])), 0)}
    case Redeliver(t) => multiset{t}
    case _ => multiset{}
  }

  /** The workers that a step moves on or ends. */
  function Ended(step: Step): multiset<Worker> {
    match step
    case QueueRows(w, _) => multiset{w}
    case CompleteJob(w, _) => multiset{w}
    case Stop(w) => multiset{w}
    case ResumeJob(j) => multiset{Resuming(j)}
    case MarkJob(j) => multiset{Marking(j)}
    case FindMissing(j) => multiset{Repairing(j)}
    case QueueMissing(w, _) => multiset{w}
    case _ => multiset{}
  }

  ghost function Started(s: State, step: Step): multiset<Worker>
    requires Enabled(s, step)
  {
    match step
    case StartJob(j, _, active, withinLimits) =>
      if StartsSending(s.jobs[j], active, withinLimits)
      then multiset{Sending(j, AllRows(s.jobs[j].notificationCount))}
      else multiset{}
    case QueueRows(w, ids) => multiset{Sending(w.job, w.rows[|ids|..])}
    case StartIncomplete(js, _) => multiset(set j | j in js :: Resuming(j))
    case ResumeJob(j) => multiset{Sending(j, RowsToResume(s, j, s.jobs[j].notificationCount))}
    case Sweep(now) =>
      multiset(set j | j in JobsWithAllRows(s, now) :: Marking(j))
            + multiset(set j | j in JobsWithMissingRows(s, now) :: Repairing(j))
    case FindMissing(j) => multiset{Refilling(j, MissingRows(s, j, s.jobs[j].notificationCount))}
    case QueueMissing(w, _) => multiset{Refilling(w.job, w.rows[1..])}
    case _ => multiset{}
  }

  ghost function After(s: State, step: Step): State
    requires Enabled(s, step)
  {
    State(JobsAfter(s, step), NotificationsAfter(s, step), IssuedAfter(s, step),
          s.tasks - Taken(step) + Queued(s, step), s.workers - Ended(step) + Started(s, step))
  }

  ghost predicate IsRun(s: State, steps: seq<Step>) {
    steps != [] ==>
      && IsRun(s, steps[..|steps| - 1])
      && Enabled(AfterRun(s, steps[..|steps| - 1]), steps[|steps| - 1])
  }

  ghost function AfterRun(s: State, steps: seq<Step>): State {
    if steps == [] then s
    else
      var before := AfterRun(s, steps[..|steps| - 1]);
      if Enabled(before, steps[|steps| - 1]) then After(before, steps[|steps| - 1]) else before
  }

  // ---------------------------------------------------------------- the invariant

  predicate RefersToRow(s: State, ref: RowRef) {
    ref.job in s.jobs && ref.row < s.jobs[ref.job].notificationCount
  }

  /** The id was made for this row, which its job has. */
  predicate RowTaskOk(s: State, t: RowTask) {
    t.id in s.issued && s.issued[t.id] == t.ref && RefersToRow(s, t.ref)
  }

  predicate TaskOk(s: State, t: Task) {
    match t
    case ProcessJob(j) => j in s.jobs
    case ProcessIncompleteJobs(js) => js <= s.jobs.Keys
    case ShatterJobRows(rows) => forall i | 0 <= i < |rows| :: RowTaskOk(s, rows[i])
    case Save(row, retries) => RowTaskOk(s, row) && retries <= MAX_RETRIES
  }

  /** Every row of the job has a notification, and the job has a row. */
  predicate AllCreated(s: State, j: JobId) {
    && j in s.jobs
    && s.jobs[j].notificationCount > 0
    && forall row: nat | row < s.jobs[j].notificationCount :: Created(s, RowRef(j, row))
  }

  predicate RowsOk(s: State, j: JobId, rows: seq<nat>) {
    j in s.jobs && forall i | 0 <= i < |rows| :: rows[i] < s.jobs[j].notificationCount
  }

  predicate WorkerOk(s: State, w: Worker) {
    match w
    case Sending(j, rows) => RowsOk(s, j, rows)
    case Resuming(j) => j in s.jobs
    case Marking(j) => AllCreated(s, j)
    case Repairing(j) => j in s.jobs
    case Refilling(j, rows) => RowsOk(s, j, rows)
  }

  /** The constraint uq_notifications_job_row_number: a row has at most one notification. */
  ghost predicate OnePerRow(s: State) {
    forall id, id' | id in s.notifications && id' in s.notifications && s.notifications[id] == s.notifications[id'] ::
        id == id'
  }

  ghost predicate NotificationsOk(s: State) {
    && (forall id | id in s.notifications :: RowTaskOk(s, RowTask(id, s.notifications[id])))
    && OnePerRow(s)
  }

  ghost predicate Inv(s: State) {
    && NotificationsOk(s)
    && (forall t | t in s.tasks :: TaskOk(s, t))
    && (forall w | w in s.workers :: WorkerOk(s, w))
    && (forall j | j in s.jobs && s.jobs[j].status == FinishedAllNotificationsCreated :: AllCreated(s, j))
  }

  /** No job loses rows, no id changes its row, and no notification disappears. */
  ghost predicate Grows(s: State, s': State) {
    && (forall j | j in s.jobs :: j in s'.jobs && s'.jobs[j].notificationCount == s.jobs[j].notificationCount)
    && (forall id | id in s.issued :: id in s'.issued && s'.issued[id] == s.issued[id])
    && (forall id | id in s.notifications :: id in s'.notifications && s'.notifications[id] == s.notifications[id])
  }

  lemma RowTaskStaysOk(s: State, s': State, t: RowTask)
    requires Grows(s, s') && RowTaskOk(s, t)
    ensures RowTaskOk(s', t)
  {
  }

  lemma CreatedStays(s: State, s': State, ref: RowRef)
    requires Grows(s, s') && Created(s, ref)
    ensures Created(s', ref)
  {
    var id :| id in s.notifications && s.notifications[id] == ref;
    assert s'.notifications[id] == ref;
  }

  lemma AllCreatedStays(s: State, s': State, j: JobId)
    requires Grows(s, s') && AllCreated(s, j)
    ensures AllCreated(s', j)
  {
    hide Created;
    forall row: nat | row < s'.jobs[j].notificationCount ensures Created(s', RowRef(j, row)) {
      CreatedStays(s, s', RowRef(j, row));
    }
  }

  lemma TaskStaysOk(s: State, s': State, t: Task)
    requires Grows(s, s') && TaskOk(s, t)
    ensures TaskOk(s', t)
  {
  }

  lemma WorkerStaysOk(s: State, s': State, w: Worker)
    requires Grows(s, s') && WorkerOk(s, w)
    ensures WorkerOk(s', w)
  {
    hide AllCreated;
    if w.Marking? {
      AllCreatedStays(s, s', w.job);
    }
  }

  /** What a step has to show: nothing is lost, and whatever is new is in order. */
  lemma KeepsInv(s: State, s': State)
    requires Inv(s) && Grows(s, s') && NotificationsOk(s')
    requires forall t | t in s'.tasks :: t in s.tasks || TaskOk(s', t)
    requires forall w | w in s'.workers :: w in s.workers || WorkerOk(s', w)
    requires forall j | j in s'.jobs && s'.jobs[j].status == FinishedAllNotificationsCreated ::
               (j in s.jobs && s.jobs[j].status == FinishedAllNotificationsCreated) || AllCreated(s', j)
    ensures Inv(s')
  {
    hide TaskOk, WorkerOk, AllCreated, Grows;
    forall t | t in s'.tasks ensures TaskOk(s', t) {
      if t in s.tasks { TaskStaysOk(s, s', t); }
    }
    forall w | w in s'.workers ensures WorkerOk(s', w) {
      if w in s.workers { WorkerStaysOk(s, s', w); }
    }
    forall j | j in s'.jobs && s'.jobs[j].status == FinishedAllNotificationsCreated ensures AllCreated(s', j) {
      if j in s.jobs && s.jobs[j].status == FinishedAllNotificationsCreated { AllCreatedStays(s, s', j); }
    }
  }

  lemma NotificationsStayOk(s: State, s': State)
    requires NotificationsOk(s) && Grows(s, s') && s'.notifications == s.notifications
    ensures NotificationsOk(s')
  {
    forall id | id in s'.notifications ensures RowTaskOk(s', RowTask(id, s'.notifications[id])) {
      RowTaskStaysOk(s, s', RowTask(id, s.notifications[id]));
    }
  }

  // ---------------------------------------------------------------- counting rows

  /** The row numbers of a file. */
  ghost function RowNumbers(n: nat): (rows: set<nat>)
    ensures forall row: nat :: row in rows <==> row < n
    ensures |rows| == n
  {
    if n == 0 then {} else RowNumbers(n - 1) + {n - 1}
  }

  /** Ids of one job have different rows, so a job has as many rows as notifications. */
  lemma {:induction false} RowsOfIds(notifications: map<NotificationId, RowRef>, ids: set<NotificationId>)
    requires forall id | id in ids :: id in notifications
    requires forall id, id' | id in ids && id' in ids && notifications[id].row == notifications[id'].row :: id == id'
    ensures |set id | id in ids :: notifications[id].row| == |ids|
  {
    var rows := set id | id in ids :: notifications[id].row;
    if ids == {} {
      assert rows == {};
    } else {
      var id :| id in ids;
      RowsOfIds(notifications, ids - {id});
      var fewer := set id' | id' in ids - {id} :: notifications[id'].row;
      assert rows == fewer + {notifications[id].row};
    }
  }

  lemma RowsOfJobAre(s: State, j: JobId)
    requires NotificationsOk(s) && j in s.jobs
    ensures |RowsOfJob(s, j)| == |IdsOfJob(s, j)|
    ensures forall row: nat :: row in RowsOfJob(s, j) <==> Created(s, RowRef(j, row))
    ensures RowsOfJob(s, j) <= RowNumbers(s.jobs[j].notificationCount)
  {
    RowsOfIds(s.notifications, IdsOfJob(s, j));
    forall row: nat ensures row in RowsOfJob(s, j) <==> Created(s, RowRef(j, row)) {
      if id :| id in s.notifications && s.notifications[id] == RowRef(j, row) {
        assert id in IdsOfJob(s, j);
      }
    }
  }

  /** The pigeonhole: the count of notifications reaches the size of the file if and only if every
      row has its notification. */
  lemma CountIsCompleteness(s: State, j: JobId)
    requires NotificationsOk(s) && j in s.jobs
    ensures |IdsOfJob(s, j)| <= s.jobs[j].notificationCount
    ensures |IdsOfJob(s, j)| == s.jobs[j].notificationCount
       <==> RowsOfJob(s, j) == RowNumbers(s.jobs[j].notificationCount)
    ensures IdsOfJob(s, j) != {} && |IdsOfJob(s, j)| == s.jobs[j].notificationCount <==> AllCreated(s, j)
  {
    hide Created, NotificationsOk, RowsOfJob, IdsOfJob;
    var n := s.jobs[j].notificationCount;
    var all := RowNumbers(n);
    RowsOfJobAre(s, j);
    SubsetCardinality(RowsOfJob(s, j), all);
    if AllCreated(s, j) {
      assert RowsOfJob(s, j) == all;
    }
    if RowsOfJob(s, j) == all {
      forall row: nat | row < n ensures Created(s, RowRef(j, row)) {
        assert row in all;
      }
    }
    assert IdsOfJob(s, j) == {} <==> |IdsOfJob(s, j)| == 0;
  }

  lemma {:induction false} SubsetCardinality(part: set<nat>, whole: set<nat>)
    requires part <= whole
    ensures |part| <= |whole|
    ensures |part| == |whole| <==> part == whole
  {
    assert whole == part + (whole - part);
  }

  // ---------------------------------------------------------------- each step keeps the invariant

  lemma {:induction false} IssuedAre(issued: map<NotificationId, RowRef>, rows: seq<RowTask>)
    requires forall i, k | 0 <= i < k < |rows| :: rows[i].id != rows[k].id
    requires forall i | 0 <= i < |rows| :: rows[i].id !in issued
    ensures var after := Issue(issued, rows);
            && (forall id | id in issued :: id in after && after[id] == issued[id])
            && (forall i | 0 <= i < |rows| :: rows[i].id in after && after[rows[i].id] == rows[i].ref)
  {
    if rows == [] {
    } else {
      IssuedAre(issued, rows[..|rows| - 1]);
    }
  }

  /** Ids are only added. */
  lemma IdsAreKept(s: State, step: Step)
    requires Enabled(s, step)
    ensures forall id | id in s.issued :: id in IssuedAfter(s, step) && IssuedAfter(s, step)[id] == s.issued[id]
    ensures step.QueueRows? ==>
              var rows := RowTasks(step.worker.job, step.worker.rows, step.ids);
              forall i | 0 <= i < |rows| ::
                  rows[i].id in IssuedAfter(s, step) && IssuedAfter(s, step)[rows[i].id] == rows[i].ref
  {
    if step.QueueRows? {
      IssuedAre(s.issued, RowTasks(step.worker.job, step.worker.rows, step.ids));
    }
  }

  /** Jobs keep their size. */
  lemma JobsAreKept(s: State, step: Step)
    requires Enabled(s, step)
    ensures forall j | j in s.jobs ::
              j in JobsAfter(s, step) && JobsAfter(s, step)[j].notificationCount == s.jobs[j].notificationCount
  {
    hide AreFresh, IsDue, IsOverdue;
  }

  /** Only MarkJob marks a job as having all its notifications. */
  lemma MarkedJobs(s: State, step: Step, j: JobId)
    requires Enabled(s, step) && j in JobsAfter(s, step)
          && JobsAfter(s, step)[j].status == FinishedAllNotificationsCreated
    ensures step == MarkJob(j) || (j in s.jobs && s.jobs[j].status == FinishedAllNotificationsCreated)
  {
    hide AreFresh, IsDue, IsOverdue;
  }

  lemma StepGrows(s: State, step: Step)
    requires Enabled(s, step)
    ensures Grows(s, After(s, step))
  {
    hide JobsAfter, IssuedAfter, Queued, Taken, Started, Ended, Created, Enabled;
    JobsAreKept(s, step);
    IdsAreKept(s, step);
  }

  lemma SaveKeepsNotificationsOk(s: State, step: Step)
    requires Inv(s) && Enabled(s, step) && step.RunSave?
    ensures NotificationsOk(After(s, step))
  {
    hide Queued, Taken, Started, Ended, WorkerOk, AllCreated;
    var s' := After(s, step);
    assert TaskOk(s, Save(step.row, step.retries));
    StepGrows(s, step);
    forall id | id in s'.notifications ensures RowTaskOk(s', RowTask(id, s'.notifications[id])) {
      if id in s.notifications {
        RowTaskStaysOk(s, s', RowTask(id, s.notifications[id]));
      }
    }
  }

  lemma StepKeepsNotificationsOk(s: State, step: Step)
    requires Inv(s) && Enabled(s, step)
    ensures NotificationsOk(After(s, step))
  {
    hide JobsAfter, IssuedAfter, Queued, Taken, Started, Ended, WorkerOk, TaskOk, AllCreated, Grows, Enabled,
         NotificationsOk;
    if step.RunSave? {
      SaveKeepsNotificationsOk(s, step);
    } else {
      StepGrows(s, step);
      NotificationsStayOk(s, After(s, step));
    }
  }

  lemma SavesAreOk(s: State, rows: seq<RowTask>)
    requires TaskOk(s, ShatterJobRows(rows))
    ensures forall t | t in SavesOf(rows) :: TaskOk(s, t)
  {
    var saves := MapSeq(rows, (row: RowTask) => Save(row, 0));
    forall t | t in SavesOf(rows) ensures TaskOk(s, t) {
      assert t in multiset(saves);
      var i :| 0 <= i < |saves| && saves[i] == t;
    }
  }

  /** The tasks that name jobs only. */
  lemma JobTasksAreOk(s: State, step: Step)
    requires Enabled(s, step) && (step.CreateJob? || step.RunScheduledJobs? || step.CheckJobStatus?)
    ensures forall t | t in Queued(s, step) :: TaskOk(After(s, step), t)
  {
    hide Started, Ended, Taken, IsDue, IsOverdue, NotificationsAfter, IssuedAfter;
  }

  lemma QueuedMessageIsOk(s: State, step: Step)
    requires Inv(s) && Enabled(s, step) && step.QueueRows?
    ensures TaskOk(After(s, step), ShatterJobRows(RowTasks(step.worker.job, step.worker.rows, step.ids)))
  {
    hide Queued, Started, Ended, Taken, JobsAfter, IssuedAfter, AreFresh, AllCreated, NotificationsOk;
    assert WorkerOk(s, step.worker);
    JobsAreKept(s, step);
    IdsAreKept(s, step);
  }

  lemma OldTaskIsOk(s: State, step: Step, t: Task)
    requires Inv(s) && Enabled(s, step) && t in s.tasks
    ensures TaskOk(After(s, step), t)
  {
    hide After, Enabled, TaskOk;
    StepGrows(s, step);
    TaskStaysOk(s, After(s, step), t);
  }

  lemma RetriedOnlyBelowLimit(s: State, step: Step)
    requires step.RunSave?
    ensures SaveIsRetried(s, step.row, step.retries, step.databaseFails) ==> step.retries < MAX_RETRIES
  {
    hide SaveSucceeds;
  }

  lemma RetriedIsOk(s: State, row: RowTask, retries: nat)
    requires TaskOk(s, Save(row, retries)) && retries < MAX_RETRIES
    ensures TaskOk(s, Save(row, retries + 1))
  {
  }

  /** The tasks that a step queues are in order. */
  lemma QueuedAreOk(s: State, step: Step)
    requires Inv(s) && Enabled(s, step)
    ensures forall t | t in Queued(s, step) :: TaskOk(After(s, step), t)
  {
    hide Inv, After, TaskOk, SavesOf, RowTasks, AreFresh, SaveSucceeds, DueJobs, OverdueJobs, SaveIsRetried;
    match step
    case CreateJob(_, _, _) => JobTasksAreOk(s, step);
    case RunScheduledJobs(_) => JobTasksAreOk(s, step);
    case QueueRows(w, ids) => QueuedMessageIsOk(s, step);
    case RunShatter(rows) =>
      OldTaskIsOk(s, step, ShatterJobRows(rows));
      SavesAreOk(After(s, step), rows);
    case RunSave(row, retries, _) =>
      OldTaskIsOk(s, step, Save(row, retries));
      RetriedOnlyBelowLimit(s, step);
      if retries < MAX_RETRIES {
        RetriedIsOk(After(s, step), row, retries);
      }
    case CheckJobStatus(_) => JobTasksAreOk(s, step);
    case QueueMissing(w, id) => RefilledIsOk(s, step);
    case Redeliver(t) => OldTaskIsOk(s, step, t);
    case _ =>
  }

  lemma RefilledIsOk(s: State, step: Step)
    requires Inv(s) && Enabled(s, step) && step.QueueMissing?
    ensures TaskOk(After(s, step), Save(RowTask(step.id, RowRef(step.worker.job, step.worker.rows[0])), 0))
  {
    hide AllCreated, NotificationsOk, Queued, Taken, Started, Ended;
    assert WorkerOk(s, step.worker);
  }

  lemma RowsToWorkOnAreOk(s: State, j: JobId)
    requires j in s.jobs
    ensures RowsOk(s, j, AllRows(s.jobs[j].notificationCount))
    ensures RowsOk(s, j, MissingRows(s, j, s.jobs[j].notificationCount))
    ensures RowsOk(s, j, RowsToResume(s, j, s.jobs[j].notificationCount))
  {
    hide Created, LastRow;
    var n := s.jobs[j].notificationCount;
    var missing, resumed := MissingRows(s, j, n), RowsToResume(s, j, n);
    forall i | 0 <= i < |missing| ensures missing[i] < n {
      FilterContains<nat>(AllRows(n), NotCreated(s, j), missing[i]);
      assert missing[i] in missing;
    }
    forall i | 0 <= i < |resumed| ensures resumed[i] < n {
      FilterContains<nat>(AllRows(n), RowsAfter(LastRow(s, j)), resumed[i]);
      assert resumed[i] in resumed;
    }
  }

  lemma SweptAreOk(s: State, now: Instant)
    requires Inv(s)
    ensures forall j | j in JobsWithAllRows(s, now) :: AllCreated(s, j)
    ensures forall j | j in JobsWithMissingRows(s, now) :: j in s.jobs
  {
    hide AllCreated, NotificationsOk, IdsOfJob, FinishedLately;
    forall j | j in JobsWithAllRows(s, now) ensures AllCreated(s, j) {
      CountIsCompleteness(s, j);
    }
  }

  lemma RestIsOk(s: State, w: Worker, k: nat)
    requires Inv(s) && w in s.workers && (w.Sending? || w.Refilling?) && k <= |w.rows|
    ensures RowsOk(s, w.job, w.rows[k..])
  {
    assert WorkerOk(s, w);
  }

  lemma SweepStartsOk(s: State, step: Step)
    requires Inv(s) && Enabled(s, step) && step.Sweep?
    ensures forall w | w in Started(s, step) :: WorkerOk(s, w)
  {
    hide Inv, AllCreated, JobsWithAllRows, JobsWithMissingRows;
    SweptAreOk(s, step.now);
  }

  lemma ResumedExist(s: State, step: Step)
    requires Enabled(s, step) && step.StartIncomplete?
    ensures forall w | w in Started(s, step) :: WorkerOk(s, w)
  {
  }

  /** The workers that a step starts or moves on are in order. */
  lemma StartedAreOk(s: State, step: Step)
    requires Inv(s) && Enabled(s, step)
    ensures forall w | w in Started(s, step) :: WorkerOk(s, w)
  {
    hide Inv, RowsOk, AllRows, RowsToResume, MissingRows, AreFresh, AllCreated, JobsWithAllRows, JobsWithMissingRows,
         StartedJob;
    match step
    case StartJob(j, _, _, _) => RowsToWorkOnAreOk(s, j);
    case QueueRows(w, ids) => RestIsOk(s, w, |ids|);
    case StartIncomplete(_, _) => ResumedExist(s, step);
    case ResumeJob(j) => RowsToWorkOnAreOk(s, j);
    case Sweep(_) => SweepStartsOk(s, step);
    case FindMissing(j) => RowsToWorkOnAreOk(s, j);
    case QueueMissing(w, _) => RestIsOk(s, w, 1);
    case _ =>
  }

  /** Every step keeps the invariant, whatever was lost, repeated or retried before. */
  lemma StepKeepsInv(s: State, step: Step)
    requires Inv(s) && Enabled(s, step)
    ensures Grows(s, After(s, step)) && Inv(After(s, step))
  {
    hide JobsAfter, IssuedAfter, NotificationsAfter, Queued, Taken, Started, Ended, WorkerOk, TaskOk, AllCreated,
         Grows, Enabled,
         NotificationsOk;
    var s' := After(s, step);
    StepGrows(s, step);
    StepKeepsNotificationsOk(s, step);
    QueuedAreOk(s, step);
    StartedAreOk(s, step);
    forall w | w in s'.workers ensures w in s.workers || WorkerOk(s', w) {
      if w !in s.workers { WorkerStaysOk(s, s', w); }
    }
    forall j | j in s'.jobs && s'.jobs[j].status == FinishedAllNotificationsCreated
      ensures (j in s.jobs && s.jobs[j].status == FinishedAllNotificationsCreated) || AllCreated(s', j)
    {
      MarkedJobs(s, step, j);
      if step == MarkJob(j) {
        MarkedIsComplete(s, j);
        AllCreatedStays(s, s', j);
      }
    }
    KeepsInv(s, s');
  }

  lemma MarkedIsComplete(s: State, j: JobId)
    requires Inv(s) && Enabled(s, MarkJob(j))
    ensures AllCreated(s, j)
  {
    assert WorkerOk(s, Marking(j));
  }

  lemma {:induction false} RunKeepsInv(s: State, steps: seq<Step>)
    requires Inv(s) && IsRun(s, steps)
    ensures Inv(AfterRun(s, steps)) && Grows(s, AfterRun(s, steps))
  {
    hide Inv, After, Enabled;
    if steps == [] {
    } else {
      RunKeepsInv(s, steps[..|steps| - 1]);
      StepKeepsInv(AfterRun(s, steps[..|steps| - 1]), steps[|steps| - 1]);
    }
  }

  // ---------------------------------------------------------------- what "finished" means

  /** In every run, a job that is marked as having all its notifications has exactly one for each
      of the rows 0 to n - 1, and at least one; and no job ever has two for a row. */
  lemma FinishedMeansComplete(steps: seq<Step>, j: JobId)
    requires IsRun(INITIAL, steps)
    ensures var s := AfterRun(INITIAL, steps);
            && OnePerRow(s)
            && (j in s.jobs && s.jobs[j].status == FinishedAllNotificationsCreated ==>
                  && s.jobs[j].notificationCount > 0
                  && |IdsOfJob(s, j)| == s.jobs[j].notificationCount
                  && RowsOfJob(s, j) == RowNumbers(s.jobs[j].notificationCount))
  {
    hide IsRun, AfterRun, AllCreated, RowsOfJob, IdsOfJob, Created;
    RunKeepsInv(INITIAL, steps);
    var s := AfterRun(INITIAL, steps);
    if j in s.jobs && s.jobs[j].status == FinishedAllNotificationsCreated {
      CountIsCompleteness(s, j);
      assert AllCreated(s, j);
      CompleteHasRows(s, j);
    }
  }

  /** In every run a save task has been retried at most five times. */
  lemma RetriesAreBounded(steps: seq<Step>, row: RowTask, retries: nat)
    requires IsRun(INITIAL, steps) && Save(row, retries) in AfterRun(INITIAL, steps).tasks
    ensures retries <= 5
  {
    hide IsRun, AfterRun, WorkerOk, AllCreated, NotificationsOk;
    InitialInv();
    RunKeepsInv(INITIAL, steps);
    assert TaskOk(AfterRun(INITIAL, steps), Save(row, retries));
  }

  lemma CompleteHasRows(s: State, j: JobId)
    requires AllCreated(s, j)
    ensures s.jobs[j].notificationCount > 0
  {
  }

  /** What the sweep finds: a lately finished job is in the first list if all its rows are there,
      in the second if some but not all are, and in neither if it has no notification at all, so
      that such a job is neither marked nor repaired. */
  lemma SweepFinds(s: State, now: Instant, j: JobId)
    requires Inv(s) && j in s.jobs
    ensures j in JobsWithAllRows(s, now) <==> FinishedLately(s.jobs[j], now) && AllCreated(s, j)
    ensures j in JobsWithMissingRows(s, now)
       <==> (FinishedLately(s.jobs[j], now) && RowsOfJob(s, j) != {}
             && MissingRows(s, j, s.jobs[j].notificationCount) != [])
    ensures j !in JobsWithAllRows(s, now) && j !in JobsWithMissingRows(s, now) && FinishedLately(s.jobs[j], now)
       <==> FinishedLately(s.jobs[j], now) && RowsOfJob(s, j) == {}
  {
    hide FinishedLately, AllCreated, Created, MissingRows, RowsOfJob, IdsOfJob;
    CountIsCompleteness(s, j);
    RowsOfJobAre(s, j);
    MissingIsComplement(s, j);
    assert (IdsOfJob(s, j) == {}) == (RowsOfJob(s, j) == {}) by {
      assert |RowsOfJob(s, j)| == |IdsOfJob(s, j)|;
    }
    var n := s.jobs[j].notificationCount;
    if MissingRows(s, j, n) == [] {
      assert RowsOfJob(s, j) == RowNumbers(n);
    } else {
      var row := MissingRows(s, j, n)[0];
      assert row in MissingRows(s, j, n) && row in RowNumbers(n) && row !in RowsOfJob(s, j);
    }
  }

  /** The job finished more than 20 minutes and less than a day before the instant. */
  ghost predicate FinishedBefore(job: Job, now: Instant) {
    && job.status == Finished && job.processingFinished != None
    && job.processingFinished.value + 20 * MINUTE < now < job.processingFinished.value + 24 * HOUR
  }

  /** What the sweep starts: one repair for a job that finished in this time if some of its rows have a
      notification and some have none; one marking if it has rows and all have a notification; and
      nothing for any other job. It changes nothing else. */
  lemma SweepStarts(s: State, now: Instant, j: JobId)
    requires Inv(s) && j in s.jobs
    ensures var after, all := After(s, Sweep(now)), RowNumbers(s.jobs[j].notificationCount);
            && after == s.(workers := after.workers)
            && after.workers[Repairing(j)]
               == s.workers[Repairing(j)]
                + (if FinishedBefore(s.jobs[j], now) && {} < RowsOfJob(s, j) < all then 1 else 0)
            && after.workers[Marking(j)]
               == s.workers[Marking(j)]
                + (if FinishedBefore(s.jobs[j], now) && {} < RowsOfJob(s, j) == all then 1 else 0)
            && (forall w: Worker | !w.Repairing? && !w.Marking? :: after.workers[w] == s.workers[w])
  {
    hide Inv, FinishedBefore, RowsOfJob, JobsWithAllRows, JobsWithMissingRows, RowNumbers, After;
    SweepLists(s, now, j);
    SweepIs(s, now);
    StartedBySweep(s, now);
    var marked := set j' | j' in JobsWithAllRows(s, now) :: Marking(j');
    var repaired := set j' | j' in JobsWithMissingRows(s, now) :: Repairing(j');
    assert Marking(j) in marked <==> j in JobsWithAllRows(s, now);
    assert Repairing(j) in repaired <==> j in JobsWithMissingRows(s, now);
  }

  lemma SweepQueuesNothing(s: State, now: Instant)
    ensures Taken(Sweep(now)) == Queued(s, Sweep(now)) == multiset{} && Ended(Sweep(now)) == multiset{}
  {
  }

  lemma SweepIs(s: State, now: Instant)
    ensures After(s, Sweep(now)) == s.(workers := s.workers + Started(s, Sweep(now)))
  {
    hide Started, Taken, Queued, Ended;
    SweepQueuesNothing(s, now);
    NothingTaken(s.tasks, multiset{});
    NothingTaken(s.workers, Started(s, Sweep(now)));
  }

  lemma NothingTaken<T>(m: multiset<T>, more: multiset<T>)
    ensures m - multiset{} + more == m + more && m + multiset{} == m
  {
  }

  lemma StartedBySweep(s: State, now: Instant)
    ensures Started(s, Sweep(now))
         == multiset(set j | j in JobsWithAllRows(s, now) :: Marking(j))
          + multiset(set j | j in JobsWithMissingRows(s, now) :: Repairing(j))
  {
    hide JobsWithAllRows, JobsWithMissingRows;
  }

  lemma SweepLists(s: State, now: Instant, j: JobId)
    requires Inv(s) && j in s.jobs
    ensures var all := RowNumbers(s.jobs[j].notificationCount);
            && (j in JobsWithAllRows(s, now) <==> FinishedBefore(s.jobs[j], now) && {} < RowsOfJob(s, j) == all)
            && (j in JobsWithMissingRows(s, now) <==> FinishedBefore(s.jobs[j], now) && {} < RowsOfJob(s, j) < all)
  {
    hide AllCreated, Created, RowsOfJob, IdsOfJob, NotificationsOk, TaskOk, WorkerOk;
    RowsOfJobAre(s, j);
    CountIsCompleteness(s, j);
    assert RowsOfJob(s, j) == {} <==> |RowsOfJob(s, j)| == 0;
    assert IdsOfJob(s, j) == {} <==> |IdsOfJob(s, j)| == 0;
    assert FinishedLately(s.jobs[j], now) <==> FinishedBefore(s.jobs[j], now);
  }

  /** The repair queues exactly the rows without a notification, each once, in file order. */
  lemma MissingIsComplement(s: State, j: JobId)
    requires Inv(s) && j in s.jobs
    ensures var missing := MissingRows(s, j, s.jobs[j].notificationCount);
            && (forall row: nat :: row in missing <==> row < s.jobs[j].notificationCount && row !in RowsOfJob(s, j))
            && (forall i, k | 0 <= i < k < |missing| :: missing[i] < missing[k])
  {
    hide Created, RowsOfJob;
    var n := s.jobs[j].notificationCount;
    RowsOfJobAre(s, j);
    forall row: nat ensures row in MissingRows(s, j, n) <==> row < n && row !in RowsOfJob(s, j) {
      FilterContains<nat>(AllRows(n), NotCreated(s, j), row);
      assert row < n ==> AllRows(n)[row] == row;
    }
    FilteredRowsAscend(NotCreated(s, j), n);
    var missing := MissingRows(s, j, n);
    assert missing == Filter<nat>(AllRows(n), NotCreated(s, j));
    assert forall i, k | 0 <= i < k < |missing| :: missing[i] < missing[k];
  }

  lemma AllRowsSnoc(n: nat)
    requires n > 0
    ensures AllRows(n) == AllRows(n - 1) + [n - 1]
  {
  }

  lemma {:induction false} FilteredRowsAscend(keep: nat -> bool, n: nat)
    ensures var rows := Filter<nat>(AllRows(n), keep);
            && (forall i | 0 <= i < |rows| :: rows[i] < n)
            && (forall i, k | 0 <= i < k < |rows| :: rows[i] < rows[k])
  {
    hide AllRows, Filter;
    if n > 0 {
      AllRowsSnoc(n);
      FilterSnoc<nat>(AllRows(n - 1), n - 1, keep);
      FilteredRowsAscend(keep, n - 1);
    } else {
      NoRows(keep);
    }
  }

  lemma NoRows(keep: nat -> bool)
    ensures AllRows(0) == [] && Filter<nat>(AllRows(0), keep) == []
  {
  }

  lemma AllRowsLength(n: nat)
    ensures |AllRows(n)| == n
  {
  }

  lemma {:induction false} RowsAfterAreSuffix(last: int, n: nat)
    requires -1 <= last
    ensures |AllRows(n)| == n
    ensures Filter<nat>(AllRows(n), RowsAfter(last)) == if last < n then AllRows(n)[last + 1..] else []
  {
    hide AllRows, Filter;
    AllRowsLength(n);
    if n > 0 {
      AllRowsSnoc(n);
      FilterSnoc<nat>(AllRows(n - 1), n - 1, RowsAfter(last));
      RowsAfterAreSuffix(last, n - 1);
      if n - 1 > last {
        assert (AllRows(n - 1) + [n - 1])[last + 1..] == AllRows(n - 1)[last + 1..] + [n - 1];
      }
    } else {
      NoRows(RowsAfter(last));
    }
  }

  /** Resuming queues exactly the rows above the highest one created, in file order: none of
      them has a notification, and every row that is missing but not queued lies below it. */
  lemma ResumeQueuesTheRest(s: State, j: JobId)
    requires Inv(s) && j in s.jobs
    ensures var n, last := s.jobs[j].notificationCount, LastRow(s, j);
            && -1 <= last < n
            && RowsToResume(s, j, n) == AllRows(n)[last + 1..]
            && (last >= 0 ==> last in RowsOfJob(s, j))
            && forall row | row in RowsOfJob(s, j) :: row <= last
  {
    hide RowsOfJob, Created;
    RowsOfJobAre(s, j);
    RowsAfterAreSuffix(LastRow(s, j), s.jobs[j].notificationCount);
    if LastRow(s, j) >= 0 {
      assert LastRow(s, j) in RowNumbers(s.jobs[j].notificationCount);
    }
  }

  // ---------------------------------------------------------------- without losses every row is created

  predicate TaskCovers(t: Task, ref: RowRef) {
    match t
    case ShatterJobRows(rows) => exists i :: 0 <= i < |rows| && rows[i].ref == ref
    case Save(row, _) => row.ref == ref
    case _ => false
  }

  predicate WorkerCovers(w: Worker, ref: RowRef) {
    match w
    case Sending(j, rows) => j == ref.job && ref.row in rows
    case Refilling(j, rows) => j == ref.job && ref.row in rows
    case Repairing(j) => j == ref.job
    case _ => false
  }

  /** The row has its notification, or some task or worker will still try to make it. */
  ghost predicate Covered(s: State, ref: RowRef) {
    || Created(s, ref)
    || (exists t :: t in s.tasks && TaskCovers(t, ref))
    || (exists w :: w in s.workers && WorkerCovers(w, ref))
  }

  /** Nothing is lost: no task disappears, no worker stops before it has queued its rows, and no
      insert fails for another reason than a constraint. Tasks may still run many times, late and
      in any order. */
  predicate Lossless(step: Step) {
    && !step.Lose?
    && (step.Stop? ==> step.worker.Refilling? && step.worker.rows == [])
    && (step.RunSave? ==> !step.databaseFails)
  }

  lemma SavedIsCreated(s: State, step: Step)
    requires Inv(s) && Enabled(s, step) && step.RunSave? && !step.databaseFails
    ensures Created(After(s, step), step.row.ref)
  {
    hide AllCreated, WorkerOk, JobsAfter, Queued, Taken, Started, Ended, IssuedAfter;
    assert TaskOk(s, Save(step.row, step.retries));
    var s' := After(s, step);
    if step.row.id in s.notifications {
      assert RowTaskOk(s, RowTask(step.row.id, s.notifications[step.row.id]));
      assert s'.notifications[step.row.id] == step.row.ref;
    } else if Created(s, step.row.ref) {
      var id :| id in s.notifications && s.notifications[id] == step.row.ref;
      assert s'.notifications[id] == step.row.ref;
    } else {
      assert s'.notifications[step.row.id] == step.row.ref;
    }
  }

  lemma SavesCover(rows: seq<RowTask>, i: nat)
    requires i < |rows|
    ensures Save(rows[i], 0) in SavesOf(rows) && TaskCovers(Save(rows[i], 0), rows[i].ref)
  {
    var saves := MapSeq(rows, (row: RowTask) => Save(row, 0));
    assert saves[i] in multiset(saves);
  }

  /** Running a task that covers a row leaves the row covered. */
  lemma TaskHandsOn(s: State, step: Step, t: Task, ref: RowRef)
    requires Inv(s) && Enabled(s, step) && Lossless(step) && t in s.tasks && TaskCovers(t, ref)
    ensures Covered(After(s, step), ref)
  {
    hide Inv, JobsAfter, IssuedAfter, NotificationsAfter, Started, Ended, Created, SavesOf, AllRows, IsDue, IsOverdue;
    var s' := After(s, step);
    if t !in Taken(step) {
      assert t in s'.tasks;
    } else if step.RunSave? {
      SavedIsCreated(s, step);
    } else if step.RunShatter? {
      var i :| 0 <= i < |step.rows| && step.rows[i].ref == ref;
      SavesCover(step.rows, i);
      assert Save(step.rows[i], 0) in s'.tasks;
    }
  }

  lemma QueuedRowIsCovered(s: State, step: Step, ref: RowRef)
    requires Enabled(s, step) && step.QueueRows? && WorkerCovers(step.worker, ref)
    ensures Covered(After(s, step), ref)
  {
    hide JobsAfter, IssuedAfter, NotificationsAfter, Created, AreFresh;
    var s', w := After(s, step), step.worker;
    var i :| 0 <= i < |w.rows| && w.rows[i] == ref.row;
    if i < |step.ids| {
      var rows := RowTasks(w.job, w.rows, step.ids);
      assert rows[i].ref == ref;
      assert ShatterJobRows(rows) in s'.tasks && TaskCovers(ShatterJobRows(rows), ref);
    } else {
      assert w.rows[|step.ids|..][i - |step.ids|] == ref.row;
      assert Sending(w.job, w.rows[|step.ids|..]) in s'.workers;
    }
  }

  lemma RefillHandsOn(s: State, step: Step)
    requires Enabled(s, step) && step.QueueMissing?
    ensures step.worker.Refilling? && step.worker.rows != []
    ensures Save(RowTask(step.id, RowRef(step.worker.job, step.worker.rows[0])), 0) in After(s, step).tasks
    ensures Refilling(step.worker.job, step.worker.rows[1..]) in After(s, step).workers
  {
    hide JobsAfter, IssuedAfter, NotificationsAfter, Taken, Ended, AreFresh;
  }

  lemma RefilledRowIsCovered(s: State, step: Step, ref: RowRef)
    requires Enabled(s, step) && step.QueueMissing? && WorkerCovers(step.worker, ref)
    ensures Covered(After(s, step), ref)
  {
    hide Enabled, After, Created;
    var s', w := After(s, step), step.worker;
    RefillHandsOn(s, step);
    if w.rows[0] == ref.row {
      assert TaskCovers(Save(RowTask(step.id, RowRef(w.job, w.rows[0])), 0), ref);
    } else {
      assert w.rows == [w.rows[0]] + w.rows[1..];
      assert WorkerCovers(Refilling(w.job, w.rows[1..]), ref);
    }
  }

  lemma MissingRowIsFound(s: State, ref: RowRef)
    requires RefersToRow(s, ref) && !Created(s, ref)
    ensures ref.row in MissingRows(s, ref.job, s.jobs[ref.job].notificationCount)
  {
    hide Created;
    var n := s.jobs[ref.job].notificationCount;
    FilterContains<nat>(AllRows(n), NotCreated(s, ref.job), ref.row);
    assert AllRows(n)[ref.row] == ref.row;
  }

  lemma FindHandsOn(s: State, j: JobId)
    requires Enabled(s, FindMissing(j))
    ensures Refilling(j, MissingRows(s, j, s.jobs[j].notificationCount)) in After(s, FindMissing(j)).workers
    ensures After(s, FindMissing(j)).notifications == s.notifications
  {
    hide JobsAfter, IssuedAfter, Queued, Taken, MissingRows;
  }

  lemma FoundRowIsCovered(s: State, ref: RowRef)
    requires Enabled(s, FindMissing(ref.job)) && RefersToRow(s, ref)
    ensures Covered(After(s, FindMissing(ref.job)), ref)
  {
    hide After, MissingRows;
    FindHandsOn(s, ref.job);
    var after := After(s, FindMissing(ref.job));
    if !Created(s, ref) {
      MissingRowIsFound(s, ref);
      assert WorkerCovers(Refilling(ref.job, MissingRows(s, ref.job, s.jobs[ref.job].notificationCount)), ref);
    } else {
      assert Created(after, ref);
    }
  }

  lemma WorkerHandsOn(s: State, step: Step, w: Worker, ref: RowRef)
    requires Inv(s) && Enabled(s, step) && Lossless(step) && w in s.workers && WorkerCovers(w, ref)
          && RefersToRow(s, ref)
    ensures Covered(After(s, step), ref)
  {
    hide Inv, JobsAfter, IssuedAfter, NotificationsAfter, Started, Queued, Taken, Created, AreFresh;
    if w !in Ended(step) {
      assert w in After(s, step).workers;
    } else if step.QueueRows? {
      QueuedRowIsCovered(s, step, ref);
    } else if step.QueueMissing? {
      RefilledRowIsCovered(s, step, ref);
    } else if step.FindMissing? {
      FoundRowIsCovered(s, ref);
    }
  }

  lemma StepKeepsCovered(s: State, step: Step, ref: RowRef)
    requires Inv(s) && Enabled(s, step) && Lossless(step) && RefersToRow(s, ref) && Covered(s, ref)
    ensures Covered(After(s, step), ref)
  {
    hide Inv, After, Enabled, Created, TaskCovers, WorkerCovers, Grows;
    if Created(s, ref) {
      StepKeepsInv(s, step);
      CreatedStays(s, After(s, step), ref);
    } else if t :| t in s.tasks && TaskCovers(t, ref) {
      TaskHandsOn(s, step, t, ref);
    } else {
      var w :| w in s.workers && WorkerCovers(w, ref);
      WorkerHandsOn(s, step, w, ref);
    }
  }

  lemma {:induction false} LosslessRunKeepsCovered(s: State, steps: seq<Step>, ref: RowRef)
    requires Inv(s) && IsRun(s, steps) && forall step | step in steps :: Lossless(step)
    requires RefersToRow(s, ref) && Covered(s, ref)
    ensures Covered(AfterRun(s, steps), ref)
  {
    hide Inv, After, Enabled, Covered, Lossless;
    if steps == [] {
    } else {
      var front, last := steps[..|steps| - 1], steps[|steps| - 1];
      assert last in steps && forall step | step in front :: step in steps;
      LosslessRunKeepsCovered(s, front, ref);
      RunKeepsInv(s, front);
      StepKeepsCovered(AfterRun(s, front), last, ref);
    }
  }

  predicate Mentions(t: Task, j: JobId) {
    match t
    case ProcessJob(j') => j' == j
    case ProcessIncompleteJobs(js) => j in js
    case ShatterJobRows(rows) => exists i :: 0 <= i < |rows| && rows[i].ref.job == j
    case Save(row, _) => row.ref.job == j
  }

  /** No work for the job is left. */
  ghost predicate Settled(s: State, j: JobId) {
    (forall t | t in s.tasks :: !Mentions(t, j)) && (forall w | w in s.workers :: w.job != j)
  }

  lemma SettledRowsAreCreated(s: State, ref: RowRef)
    requires Settled(s, ref.job) && Covered(s, ref)
    ensures Created(s, ref)
  {
    hide Created;
    forall t | t in s.tasks ensures !TaskCovers(t, ref) {
      assert !Mentions(t, ref.job);
    }
  }

  /** Liveness in the form of safety: once the sweep has found a job with missing rows, and from
      then on nothing is lost, then whatever the order of the steps and however often tasks
      run, when no work is left no row is missing, and the next sweep would mark the job. */
  lemma SweptJobGetsAllRows(s: State, steps: seq<Step>, j: JobId, now: Instant)
    requires Inv(s) && Repairing(j) in s.workers && IsRun(s, steps) && forall step | step in steps :: Lossless(step)
    requires Settled(AfterRun(s, steps), j)
    ensures var after := AfterRun(s, steps);
            && j in s.jobs && j in after.jobs
            && MissingRows(after, j, after.jobs[j].notificationCount) == []
            && (after.jobs[j].notificationCount > 0 && FinishedLately(after.jobs[j], now)
                ==> j in JobsWithAllRows(after, now))
  {
    hide Inv, IsRun, AfterRun, Created, FinishedLately, MissingRows, JobsWithAllRows, IdsOfJob, Settled;
    RunKeepsInv(s, steps);
    RepairingJobExists(s, j);
    var after := AfterRun(s, steps);
    var n := after.jobs[j].notificationCount;
    forall row: nat | row < n ensures Created(after, RowRef(j, row)) {
      assert WorkerCovers(Repairing(j), RowRef(j, row));
      LosslessRunKeepsCovered(s, steps, RowRef(j, row));
      SettledRowsAreCreated(after, RowRef(j, row));
    }
    NoneMissing(after, j);
    SweepFinds(after, now, j);
  }

  lemma RepairingJobExists(s: State, j: JobId)
    requires Inv(s) && Repairing(j) in s.workers
    ensures j in s.jobs
  {
    assert WorkerOk(s, Repairing(j));
  }

  lemma NoneMissing(s: State, j: JobId)
    requires j in s.jobs && forall row: nat | row < s.jobs[j].notificationCount :: Created(s, RowRef(j, row))
    ensures MissingRows(s, j, s.jobs[j].notificationCount) == []
  {
    hide Created;
    FilterNone<nat>(AllRows(s.jobs[j].notificationCount), NotCreated(s, j));
  }

  /** A run can be continued by any step that is enabled after it. */
  lemma RunSnoc(s: State, steps: seq<Step>, step: Step)
    requires IsRun(s, steps) && Enabled(AfterRun(s, steps), step)
    ensures IsRun(s, steps + [step]) && AfterRun(s, steps + [step]) == After(AfterRun(s, steps), step)
  {
    hide Enabled, After;
    assert (steps + [step])[..|steps|] == steps;
  }

  /** The same for a job that has just been started: without losses all its rows are created. */
  lemma StartedJobGetsAllRows(s: State, steps: seq<Step>, j: JobId)
    requires Inv(s) && j in s.jobs && Sending(j, AllRows(s.jobs[j].notificationCount)) in s.workers
    requires IsRun(s, steps) && (forall step | step in steps :: Lossless(step)) && Settled(AfterRun(s, steps), j)
    ensures var after := AfterRun(s, steps);
            j in after.jobs && RowsOfJob(after, j) == RowNumbers(after.jobs[j].notificationCount)
  {
    hide Inv, IsRun, AfterRun, Created, RowsOfJob, NotificationsOk, Settled;
    RunKeepsInv(s, steps);
    var after := AfterRun(s, steps);
    var n := after.jobs[j].notificationCount;
    forall row: nat | row < n ensures Created(after, RowRef(j, row)) {
      assert AllRows(n)[row] == row;
      assert WorkerCovers(Sending(j, AllRows(n)), RowRef(j, row));
      LosslessRunKeepsCovered(s, steps, RowRef(j, row));
      SettledRowsAreCreated(after, RowRef(j, row));
    }
    InvHasNotificationsOk(after);
    RowsOfJobAre(after, j);
    assert RowsOfJob(after, j) == RowNumbers(n);
  }

  lemma InvHasNotificationsOk(s: State)
    requires Inv(s)
    ensures NotificationsOk(s)
  {
  }

  // ---------------------------------------------------------------- a job cancelled in time

  /** Nothing has been done for the job, or is about to be. */
  ghost predicate Untouched(s: State, j: JobId) {
    && IdsOfJob(s, j) == {}
    && (forall t | t in s.tasks :: !Mentions(t, j))
    && (forall w | w in s.workers :: w.job != j)
  }

  ghost predicate ScheduledAreUntouched(s: State) {
    forall j | j in s.jobs && s.jobs[j].status == Scheduled :: Untouched(s, j)
  }

  lemma UntouchedIds(s: State, s': State, j: JobId)
    requires IdsOfJob(s, j) == {}
    requires forall id | id in s'.notifications && id !in s.notifications :: s'.notifications[id].job != j
    requires forall id | id in s'.notifications && id in s.notifications :: s'.notifications[id] == s.notifications[id]
    ensures IdsOfJob(s', j) == {}
  {
    if id :| id in IdsOfJob(s', j) {
      assert id in IdsOfJob(s, j);
    }
  }

  predicate IsIdle(job: Job) { job.status in {Scheduled, Cancelled} }

  lemma UntouchedNotifications(s: State, step: Step, j: JobId)
    requires Enabled(s, step) && Untouched(s, j)
    ensures IdsOfJob(After(s, step), j) == {}
  {
    hide JobsAfter, IssuedAfter, Queued, Taken, Started, Ended, Created;
    if step.RunSave? {
      assert !Mentions(Save(step.row, step.retries), j);
    }
    UntouchedIds(s, After(s, step), j);
  }

  lemma ShatteredTasks(rows: seq<RowTask>, j: JobId)
    requires !Mentions(ShatterJobRows(rows), j)
    ensures forall t | t in SavesOf(rows) :: !Mentions(t, j)
  {
    var saves := MapSeq(rows, (row: RowTask) => Save(row, 0));
    forall t | t in SavesOf(rows) ensures !Mentions(t, j) {
      assert t in multiset(saves);
      var i :| 0 <= i < |saves| && saves[i] == t;
    }
  }

  lemma UntouchedTasks(s: State, step: Step, j: JobId)
    requires Enabled(s, step) && Untouched(s, j) && j in s.jobs && IsIdle(s.jobs[j])
    requires step.RunScheduledJobs? ==> !IsDue(s.jobs[j], step.now)
    ensures forall t | t in Queued(s, step) :: !Mentions(t, j)
  {
    hide IdsOfJob, HalfAnHourAgo, Created, SavesOf, AreFresh, IsDue, IsOverdue, DueJobs, OverdueJobs, RowTasks,
         Mentions, SaveIsRetried, SaveSucceeds;
    match step
    case CreateJob(j', _, _) => OtherTasks(j', 0, RowTask(0, RowRef(j', 0)), j);
    case RunScheduledJobs(_) => UntouchedBySchedule(s, step, j);
    case QueueRows(w, ids) => OtherRows(w.job, w.rows, ids, j);
    case RunShatter(rows) => ShatteredTasks(rows, j);
    case RunSave(row, retries, _) =>
      SaveMentions(row, retries, j);
      SaveMentions(row, retries + 1, j);
    case CheckJobStatus(_) => UntouchedByCheck(s, step, j);
    case QueueMissing(w, id) => OtherTasks(w.job, 0, RowTask(id, RowRef(w.job, w.rows[0])), j);
    case _ =>
  }

  lemma OtherTasks(j': JobId, retries: nat, row: RowTask, j: JobId)
    requires j' != j && row.ref.job == j'
    ensures !Mentions(ProcessJob(j'), j) && !Mentions(Save(row, retries), j)
  {
  }

  lemma SaveMentions(row: RowTask, retries: nat, j: JobId)
    ensures Mentions(Save(row, retries), j) <==> row.ref.job == j
  {
  }

  lemma UntouchedBySchedule(s: State, step: Step, j: JobId)
    requires step.RunScheduledJobs? && Enabled(s, step) && j in s.jobs && !IsDue(s.jobs[j], step.now)
    ensures forall t | t in Queued(s, step) :: !Mentions(t, j)
  {
    hide IsDue;
  }

  lemma UntouchedByCheck(s: State, step: Step, j: JobId)
    requires step.CheckJobStatus? && Enabled(s, step) && j in s.jobs && IsIdle(s.jobs[j])
    ensures forall t | t in Queued(s, step) :: !Mentions(t, j)
  {
    hide HalfAnHourAgo;
  }

  lemma OtherRows(j': JobId, rows: seq<nat>, ids: seq<NotificationId>, j: JobId)
    requires j' != j && |ids| <= |rows|
    ensures !Mentions(ShatterJobRows(RowTasks(j', rows, ids)), j)
  {
  }

  lemma UntouchedWorkers(s: State, step: Step, j: JobId)
    requires Enabled(s, step) && Untouched(s, j) && j in s.jobs && IsIdle(s.jobs[j])
    ensures forall w | w in Started(s, step) :: w.job != j
  {
    hide IdsOfJob, HalfAnHourAgo, RowsToResume, MissingRows, AllRows, Created, AreFresh;
    match step
    case StartJob(j', _, _, _) => assert !Mentions(ProcessJob(j'), j);
    case StartIncomplete(js, _) => assert !Mentions(ProcessIncompleteJobs(js), j);
    case _ =>
  }

  lemma UntouchedStatus(s: State, step: Step, j: JobId)
    requires Enabled(s, step) && Untouched(s, j) && j in s.jobs && IsIdle(s.jobs[j])
    requires step.RunScheduledJobs? ==> !IsDue(s.jobs[j], step.now)
    ensures j in JobsAfter(s, step)
    ensures JobsAfter(s, step)[j].status == if step == CancelJob(j) then Cancelled else s.jobs[j].status
  {
    hide IdsOfJob, HalfAnHourAgo, AreFresh, IsDue;
    match step
    case StartJob(j', _, _, _) => assert !Mentions(ProcessJob(j'), j);
    case StartIncomplete(js, _) => assert !Mentions(ProcessIncompleteJobs(js), j);
    case _ =>
  }

  /** A step for other jobs does nothing for this one. */
  lemma UntouchedStays(s: State, step: Step, j: JobId)
    requires Enabled(s, step) && Untouched(s, j) && j in s.jobs && IsIdle(s.jobs[j])
    requires step.RunScheduledJobs? ==> !IsDue(s.jobs[j], step.now)
    ensures Untouched(After(s, step), j) && j in After(s, step).jobs
    ensures After(s, step).jobs[j].status == if step == CancelJob(j) then Cancelled else s.jobs[j].status
  {
    hide IdsOfJob, Enabled, Mentions, IsDue, IsIdle, JobsAfter, NotificationsAfter, IssuedAfter, Queued, Taken,
         Started, Ended;
    UntouchedNotifications(s, step, j);
    UntouchedTasks(s, step, j);
    UntouchedWorkers(s, step, j);
    UntouchedStatus(s, step, j);
  }

  lemma WorkerJobExists(s: State, w: Worker)
    requires WorkerOk(s, w)
    ensures w.job in s.jobs
  {
  }

  lemma NewJobIsUntouched(s: State, j: JobId)
    requires Inv(s) && j !in s.jobs
    ensures Untouched(s, j)
  {
    hide AllCreated;
    forall t | t in s.tasks ensures !Mentions(t, j) {
      assert TaskOk(s, t);
    }
    forall w | w in s.workers ensures w.job != j {
      assert WorkerOk(s, w);
      WorkerJobExists(s, w);
    }
    forall id | id in s.notifications ensures s.notifications[id].job != j {
      assert RowTaskOk(s, RowTask(id, s.notifications[id]));
    }
  }

  /** The scheduled jobs after a step were scheduled before it, or have just been created. */
  lemma ScheduledBefore(s: State, step: Step, j: JobId)
    requires Enabled(s, step) && j in JobsAfter(s, step) && JobsAfter(s, step)[j].status == Scheduled
    ensures (step.CreateJob? && step.job == j) || (j in s.jobs && s.jobs[j].status == Scheduled)
    ensures step.RunScheduledJobs? ==> !IsDue(s.jobs[j], step.now)
    ensures step != CancelJob(j)
  {
    hide AreFresh, IsDue, IsOverdue;
  }

  lemma ScheduledStayUntouched(s: State, step: Step)
    requires Inv(s) && Enabled(s, step) && ScheduledAreUntouched(s)
    ensures ScheduledAreUntouched(After(s, step))
  {
    hide Inv, Enabled, Untouched, IsDue, JobsAfter, NotificationsAfter, IssuedAfter, Queued, Taken, Started, Ended;
    forall j | j in After(s, step).jobs && After(s, step).jobs[j].status == Scheduled
      ensures Untouched(After(s, step), j)
    {
      ScheduledBefore(s, step, j);
      if step.CreateJob? && step.job == j {
        CreatedJobIsUntouched(s, step);
      } else {
        UntouchedStays(s, step, j);
      }
    }
  }

  lemma ScheduledQueuesNothing(s: State, step: Step)
    requires step.CreateJob? && Enabled(s, step) && JobsAfter(s, step)[step.job].status == Scheduled
    ensures Queued(s, step) == multiset{} && Started(s, step) == multiset{}
         && NotificationsAfter(s, step) == s.notifications
  {
  }

  lemma CreatedJobIsUntouched(s: State, step: Step)
    requires Inv(s) && step.CreateJob? && Enabled(s, step) && JobsAfter(s, step)[step.job].status == Scheduled
    ensures Untouched(After(s, step), step.job)
  {
    hide Inv, Mentions, JobsAfter, NotificationsAfter, IssuedAfter, Queued, Started, Taken, Ended, IdsOfJob;
    NewJobIsUntouched(s, step.job);
    ScheduledQueuesNothing(s, step);
    UntouchedIds(s, After(s, step), step.job);
  }

  lemma {:induction false} RunKeepsScheduledUntouched(s: State, steps: seq<Step>)
    requires Inv(s) && ScheduledAreUntouched(s) && IsRun(s, steps)
    ensures ScheduledAreUntouched(AfterRun(s, steps))
  {
    hide Inv, After, Enabled, ScheduledAreUntouched;
    if steps == [] {
    } else {
      RunKeepsScheduledUntouched(s, steps[..|steps| - 1]);
      RunKeepsInv(s, steps[..|steps| - 1]);
      ScheduledStayUntouched(AfterRun(s, steps[..|steps| - 1]), steps[|steps| - 1]);
    }
  }

  lemma {:induction false} CancelledStaysUntouched(s: State, steps: seq<Step>, j: JobId)
    requires Inv(s) && IsRun(s, steps) && j in s.jobs && s.jobs[j].status == Cancelled && Untouched(s, j)
    ensures var after := AfterRun(s, steps);
            j in after.jobs && after.jobs[j].status == Cancelled && Untouched(after, j)
  {
    hide Inv, After, Enabled, Untouched;
    if steps == [] {
    } else {
      CancelledStaysUntouched(s, steps[..|steps| - 1], j);
      UntouchedStays(AfterRun(s, steps[..|steps| - 1]), steps[|steps| - 1], j);
    }
  }

  /** A job that is cancelled while it is scheduled is never started, whatever else happens before
      or after: it stays cancelled, and no row of it ever gets a notification. */
  lemma CancelledInTimeNeverSends(before: seq<Step>, j: JobId, later: seq<Step>)
    requires IsRun(INITIAL, before) && Enabled(AfterRun(INITIAL, before), CancelJob(j))
    requires IsRun(After(AfterRun(INITIAL, before), CancelJob(j)), later)
    ensures var s := AfterRun(After(AfterRun(INITIAL, before), CancelJob(j)), later);
            j in s.jobs && s.jobs[j].status == Cancelled && RowsOfJob(s, j) == {}
  {
    hide Inv, IsRun, AfterRun, After, Mentions;
    var s := AfterRun(INITIAL, before);
    InitialInv();
    RunKeepsInv(INITIAL, before);
    RunKeepsScheduledUntouched(INITIAL, before);
    UntouchedStays(s, CancelJob(j), j);
    StepKeepsInv(s, CancelJob(j));
    CancelledStaysUntouched(After(s, CancelJob(j)), later, j);
  }

  lemma InitialInv()
    ensures Inv(INITIAL) && ScheduledAreUntouched(INITIAL)
  {
  }

  // ---------------------------------------------------------------- the scheduled tasks

  class JobStore {
    var jobs: map<JobId, Job>
    var notifications: map<NotificationId, RowRef>
    var issued: map<NotificationId, RowRef>
    var tasks: multiset<Task>

    function Now(): State
      reads this
    {
      State(jobs, notifications, issued, tasks, multiset{})
    }

    method SetStatus(changed: set<JobId>, status: JobStatus)
      requires changed <= jobs.Keys
      modifies this`jobs
      ensures jobs == WithStatus(old(jobs), changed, status)
    {
      var rest := changed;
      while rest != {}
        invariant rest <= changed && jobs == WithStatus(old(jobs), changed - rest, status)
      {
        var j :| j in rest;
        jobs := jobs[j := jobs[j].(status := status)];
        rest := rest - {j};
      }
    }

    method DaoSetScheduledJobsToPending(now: Instant) returns (due: set<JobId>)
      modifies this`jobs
      ensures due == DueJobs(old(jobs), now) && jobs == WithStatus(old(jobs), due, Pending)
    {
      due := DueJobs(jobs, now);
      SetStatus(due, Pending);
    }

    method QueueProcessJobs(due: set<JobId>)
      modifies this`tasks
      ensures tasks == old(tasks) + multiset(set j | j in due :: ProcessJob(j))
    {
      var rest := due;
      while rest != {}
        invariant rest <= due
        invariant tasks == old(tasks) + multiset(set j | j in due - rest :: ProcessJob(j))
      {
        var j :| j in rest;
        ghost var before := set j | j in due - rest :: ProcessJob(j);
        tasks := tasks + multiset{ProcessJob(j)};
        rest := rest - {j};
        assert (set j | j in due - rest :: ProcessJob(j)) == before + {ProcessJob(j)};
      }
      assert (set j | j in due - rest :: ProcessJob(j)) == (set j | j in due :: ProcessJob(j));
    }

    method RunScheduledJobs(now: Instant)
      modifies this`jobs, this`tasks
      ensures jobs == JobsAfter(old(Now()), Step.RunScheduledJobs(now))
      ensures tasks == old(tasks) + Queued(old(Now()), Step.RunScheduledJobs(now))
    {
      var due := DaoSetScheduledJobsToPending(now);
      QueueProcessJobs(due);
    }

    method CheckJobStatus(now: Instant)
      modifies this`jobs, this`tasks
      ensures jobs == JobsAfter(old(Now()), Step.CheckJobStatus(now))
      ensures tasks == old(tasks) + Queued(old(Now()), Step.CheckJobStatus(now))
    {
      var overdue := OverdueJobs(jobs, now);
      SetStatus(overdue, Error);
      if overdue != {} {
        tasks := tasks + multiset{ProcessIncompleteJobs(overdue)};
      }
    }

    /** process_job up to the reading of the file: whether it goes on to send the rows. */
    method StartProcessing(j: JobId, now: Instant, active: bool, withinLimits: bool) returns (sends: bool)
      requires j in jobs
      modifies this`jobs
      ensures jobs == old(jobs)[j := StartedJob(old(jobs)[j], now, active, withinLimits)]
      ensures sends == StartsSending(old(jobs)[j], active, withinLimits)
    {
      if jobs[j].status != Pending {
        assert jobs == jobs[j := jobs[j]];
        return false;
      }
      jobs := jobs[j := jobs[j].(status := InProgress)];
      jobs := jobs[j := jobs[j].(processingStarted := Some(now))];
      if !active {
        jobs := jobs[j := jobs[j].(status := Cancelled)];
        return false;
      }
      if !withinLimits {
        jobs := jobs[j := jobs[j].(status := SendingLimitsExceeded)];
        jobs := jobs[j := jobs[j].(processingFinished := Some(now))];
        return false;
      }
      return true;
    }

    /** The first loop of process_incomplete_jobs. */
    method RestartJobs(changed: set<JobId>, now: Instant)
      requires changed <= jobs.Keys
      modifies this`jobs
      ensures jobs == Restarted(old(jobs), changed, now)
    {
      var rest := changed;
      while rest != {}
        invariant rest <= changed && jobs == Restarted(old(jobs), changed - rest, now)
      {
        var j :| j in rest;
        jobs := jobs[j := jobs[j].(status := InProgress, processingStarted := Some(now))];
        rest := rest - {j};
      }
    }

    /** A save task: the insert, and handle_exception if it fails. */
    method RunSaveTask(row: RowTask, retries: nat, databaseFails: bool)
      requires Save(row, retries) in tasks
      modifies this`notifications, this`tasks
      ensures notifications == NotificationsAfter(old(Now()), RunSave(row, retries, databaseFails))
      ensures tasks == old(tasks) - multiset{Save(row, retries)}
                     + if SaveIsRetried(old(Now()), row, retries, databaseFails)
                       then multiset{Save(row, retries + 1)} else multiset{}
    {
      hide SaveSucceeds;
      if SaveSucceeds(Now(), row, databaseFails) {
        notifications := notifications[row.id := row.ref];
        tasks := tasks - multiset{Save(row, retries)};
      } else {
        tasks := tasks - multiset{Save(row, retries)};
        if row.id !in notifications && retries < MAX_RETRIES {
          tasks := tasks + multiset{Save(row, retries + 1)};
        }
      }
    }

    /** The first loop of check_for_missing_rows_in_completed_jobs. */
    method MarkCompletedJobs(now: Instant) returns (missing: set<JobId>)
      modifies this`jobs
      ensures jobs == WithStatus(old(jobs), JobsWithAllRows(old(Now()), now), FinishedAllNotificationsCreated)
      ensures missing == JobsWithMissingRows(old(Now()), now)
    {
      missing := JobsWithMissingRows(Now(), now);
      SetStatus(JobsWithAllRows(Now(), now), FinishedAllNotificationsCreated);
    }

    /** The repair of one job: a new save task for each of its missing rows. */
    method QueueMissingRows(j: JobId, ids: seq<NotificationId>) returns (queued: seq<RowTask>)
      requires j in jobs && |ids| == |MissingRows(Now(), j, jobs[j].notificationCount)| && AreFresh(Now(), ids)
      modifies this`issued, this`tasks
      ensures queued == RowTasks(j, MissingRows(old(Now()), j, jobs[j].notificationCount), ids)
      ensures tasks == old(tasks) + SavesOf(queued) && issued == Issue(old(issued), queued)
    {
      hide MissingRows, Issue, SavesOf, AreFresh;
      queued := [];
      NothingQueued(issued);
      var missing := MissingRows(Now(), j, jobs[j].notificationCount);
      for i := 0 to |missing|
        invariant queued == RowTasks(j, missing, ids)[..i]
        invariant tasks == old(tasks) + SavesOf(queued) && issued == Issue(old(issued), queued)
      {
        var row := RowTask(ids[i], RowRef(j, missing[i]));
        issued := issued[row.id := row.ref];
        tasks := tasks + multiset{Save(row, 0)};
        QueuedSnoc(old(issued), queued, row);
        assert RowTasks(j, missing, ids)[..i + 1] == queued + [row];
        queued := queued + [row];
      }
    }
  }

  lemma NothingQueued(issued: map<NotificationId, RowRef>)
    ensures SavesOf([]) == multiset{} && Issue(issued, []) == issued
  {
  }

  lemma QueuedSnoc(issued: map<NotificationId, RowRef>, rows: seq<RowTask>, row: RowTask)
    ensures SavesOf(rows + [row]) == SavesOf(rows) + multiset{Save(row, 0)}
    ensures Issue(issued, rows + [row]) == Issue(issued, rows)[row.id := row.ref]
  {
    var save := (row: RowTask) => Save(row, 0);
    assert MapSeq(rows + [row], save) == MapSeq(rows, save) + [Save(row, 0)];
    assert (rows + [row])[..|rows|] == rows;
  }
}
