/** Runs of the job pipeline that exist: every job can be settled without a loss, and the messages
    of process_job are steps of the pipeline. */
module JobRuns {
  import opened Collections
  import opened LondonTime
  import opened JobPipeline
  import Shatter

  // ---------------------------------------------------------------- totals over a multiset

  ghost function Pick<T>(m: multiset<T>): (x: T)
    requires m != multiset{}
    ensures x in m
  {
    var x :| x in m;
    x
  }

  ghost function Total<T>(m: multiset<T>, weight: T -> nat): nat
    decreases |m|
  {
    if m == multiset{} then 0 else weight(Pick(m)) + Total(m - multiset{Pick(m)}, weight)
  }

  lemma {:induction false} TotalRemove<T>(m: multiset<T>, weight: T -> nat, x: T)
    requires x in m
    ensures Total(m, weight) == weight(x) + Total(m - multiset{x}, weight)
    decreases |m|
  {
    var y := Pick(m);
    if x == y {
    } else {
      TotalRemove(m - multiset{y}, weight, x);
      TotalRemove(m - multiset{x}, weight, y);
      assert m - multiset{y} - multiset{x} == m - multiset{x} - multiset{y};
    }
  }

  lemma TotalOne<T>(x: T, weight: T -> nat)
    ensures Total(multiset{x}, weight) == weight(x) && Total(multiset{}, weight) == 0
  {
    TotalRemove(multiset{x}, weight, x);
    assert multiset{x} - multiset{x} == multiset{};
  }

  lemma {:induction false} TotalUnion<T>(m: multiset<T>, other: multiset<T>, weight: T -> nat)
    ensures Total(m + other, weight) == Total(m, weight) + Total(other, weight)
    decreases |other|
  {
    if other == multiset{} {
      assert m + other == m;
    } else {
      var x := Pick(other);
      TotalUnion(m, other - multiset{x}, weight);
      TotalRemove(m + other, weight, x);
      assert m + other - multiset{x} == m + (other - multiset{x});
    }
  }

  lemma TotalDifference<T>(m: multiset<T>, part: multiset<T>, weight: T -> nat)
    requires part <= m
    ensures Total(m - part, weight) == Total(m, weight) - Total(part, weight)
  {
    TotalUnion(m - part, part, weight);
    assert m - part + part == m;
  }

  lemma {:induction false} TotalNothing<T>(m: multiset<T>, weight: T -> nat)
    requires forall x | x in m :: weight(x) == 0
    ensures Total(m, weight) == 0
    decreases |m|
  {
    if m == multiset{} {
    } else {
      var x := Pick(m);
      TotalNothing(m - multiset{x}, weight);
    }
  }

  lemma {:induction false} FilterLength<T>(s: seq<T>, keep: T -> bool)
    ensures |Filter(s, keep)| <= |s|
  {
    if s == [] {
    } else {
      FilterLength(s[..|s| - 1], keep);
    }
  }

  // ---------------------------------------------------------------- the work left for a job

  const ATTEMPTS := MAX_RETRIES + 1

  /** An upper bound for the steps that a task still stands for, with all that comes from it. */
  function TaskWork(j: JobId, n: nat): Task -> nat {
    (t: Task) =>
      if !Mentions(t, j) then 0
      else
        match t
        case ProcessJob(_) => 2 + 8 * n
        case ProcessIncompleteJobs(_) => 3 + 8 * n
        case ShatterJobRows(rows) => 1 + ATTEMPTS * |rows|
        case Save(_, retries) => if retries <= MAX_RETRIES then ATTEMPTS - retries else 1
  }

  function WorkerWork(j: JobId, n: nat): Worker -> nat {
    (w: Worker) =>
      if w.job != j then 0
      else
        match w
        case Sending(_, rows) => 1 + 8 * |rows|
        case Resuming(_) => 2 + 8 * n
        case Marking(_) => 1
        case Repairing(_) => 2 + 7 * n
        case Refilling(_, rows) => 1 + 7 * |rows|
  }

  ghost function Work(s: State, j: JobId): nat
    requires j in s.jobs
  {
    var n := s.jobs[j].notificationCount;
    Total(s.tasks, TaskWork(j, n)) + Total(s.workers, WorkerWork(j, n))
  }

  lemma TakenIsThere(s: State, step: Step)
    requires Enabled(s, step)
    ensures Taken(step) <= s.tasks && Ended(step) <= s.workers
  {
    hide Enabled, Taken, Ended;
    TakenTasks(s, step);
    EndedWorkers(s, step);
  }

  lemma TakenTasks(s: State, step: Step)
    requires Enabled(s, step)
    ensures Taken(step) <= s.tasks
  {
    hide AreFresh;
  }

  lemma EndedWorkers(s: State, step: Step)
    requires Enabled(s, step)
    ensures Ended(step) <= s.workers
  {
    hide AreFresh;
  }

  /** How a step changes the work for a job: what it queues and starts, less what it takes and ends. */
  ghost function Change(s: State, step: Step, j: JobId): int
    requires Enabled(s, step) && j in s.jobs
  {
    var n := s.jobs[j].notificationCount;
    Total(Queued(s, step), TaskWork(j, n)) + Total(Started(s, step), WorkerWork(j, n))
    - Total(Taken(step), TaskWork(j, n)) - Total(Ended(step), WorkerWork(j, n))
  }

  lemma WorkAfter(s: State, step: Step, j: JobId)
    requires Inv(s) && Enabled(s, step) && j in s.jobs
    ensures j in After(s, step).jobs && Work(After(s, step), j) == Work(s, j) + Change(s, step, j)
  {
    hide Inv, Enabled, Total, Taken, Ended, Queued, Started, JobsAfter, NotificationsAfter, IssuedAfter;
    var n := s.jobs[j].notificationCount;
    StepKeepsInv(s, step);
    TakenIsThere(s, step);
    TotalDifference(s.tasks, Taken(step), TaskWork(j, n));
    TotalDifference(s.workers, Ended(step), WorkerWork(j, n));
    TotalUnion(s.tasks - Taken(step), Queued(s, step), TaskWork(j, n));
    TotalUnion(s.workers - Ended(step), Started(s, step), WorkerWork(j, n));
  }

  /** The step runs a task of the job, or moves one of its workers on. */
  predicate Serves(step: Step, j: JobId) {
    match step
    case StartJob(j', _, _, _) => j' == j
    case QueueRows(w, _) => w.job == j
    case CompleteJob(w, _) => w.job == j
    case Stop(w) => w.job == j
    case RunShatter(rows) => Mentions(ShatterJobRows(rows), j)
    case RunSave(row, _, _) => row.ref.job == j
    case StartIncomplete(js, _) => j in js
    case ResumeJob(j') => j' == j
    case MarkJob(j') => j' == j
    case FindMissing(j') => j' == j
    case QueueMissing(w, _) => w.job == j
    case _ => false
  }

  /** The step may bring new work for the job from outside: a task delivered again, or a scheduled
      check of all jobs. */
  predicate BringsWork(step: Step, j: JobId) {
    match step
    case Redeliver(t) => Mentions(t, j)
    case Sweep(_) => true
    case CheckJobStatus(_) => true
    case RunScheduledJobs(_) => true
    case _ => false
  }

  function Serving(step: Step, j: JobId): nat { if Serves(step, j) then 1 else 0 }

  // ---------------------------------------------------------------- one step

  lemma TasksStay(s: State, step: Step)
    requires Enabled(s, step)
    requires step.CompleteJob? || step.Stop? || step.MarkJob? || step.ResumeJob? || step.FindMissing?
    ensures Taken(step) == Queued(s, step) == multiset{}
  {
    hide Enabled;
  }

  lemma WorkersStay(s: State, step: Step)
    requires Enabled(s, step) && (step.RunShatter? || step.RunSave?)
    ensures Ended(step) == Started(s, step) == multiset{}
  {
    hide Enabled;
  }

  lemma StartWork(s: State, step: Step, j: JobId)
    requires Enabled(s, step) && j in s.jobs && step.StartJob?
    ensures Change(s, step, j) + Serving(step, j) <= 0
  {
    hide Total, AllRows, StartsSending;
    var n, n' := s.jobs[j].notificationCount, s.jobs[step.job].notificationCount;
    AllRowsLength(n');
    TotalOne(ProcessJob(step.job), TaskWork(j, n));
    TotalOne(Sending(step.job, AllRows(n')), WorkerWork(j, n));
  }

  lemma RestartStarts(s: State, step: Step)
    requires Enabled(s, step) && step.StartIncomplete?
    ensures Taken(step) == multiset{ProcessIncompleteJobs(step.jobs)}
    ensures Started(s, step) == multiset(set j | j in step.jobs :: Resuming(j))
    ensures Queued(s, step) == multiset{} && Ended(step) == multiset{}
  {
    hide Enabled;
  }

  lemma RestartWork(s: State, step: Step, j: JobId)
    requires Enabled(s, step) && j in s.jobs && step.StartIncomplete?
    ensures Change(s, step, j) + Serving(step, j) <= 0
  {
    hide Total, Enabled, Taken, Started, Queued, Ended;
    RestartStarts(s, step);
    var n := s.jobs[j].notificationCount;
    TotalOne(ProcessIncompleteJobs(step.jobs), TaskWork(j, n));
    TotalOne(Marking(j), WorkerWork(j, n));
    var resuming := multiset(set j' | j' in step.jobs :: Resuming(j'));
    if j in step.jobs {
      assert Resuming(j) in resuming;
      TotalRemove(resuming, WorkerWork(j, n), Resuming(j));
      TotalNothing(resuming - multiset{Resuming(j)}, WorkerWork(j, n));
    } else {
      TotalNothing(resuming, WorkerWork(j, n));
    }
  }

  lemma MentionsSnoc(front: seq<RowTask>, last: RowTask, j: JobId)
    ensures Mentions(ShatterJobRows(front + [last]), j) <==> Mentions(ShatterJobRows(front), j) || last.ref.job == j
  {
    var rows := front + [last];
    assert rows[|front|] == last && forall i | 0 <= i < |front| :: rows[i] == front[i];
  }

  lemma {:induction false} WorkOfSaves(rows: seq<RowTask>, j: JobId, n: nat)
    ensures Total(SavesOf(rows), TaskWork(j, n))
         <= if Mentions(ShatterJobRows(rows), j) then ATTEMPTS * |rows| else 0
  {
    hide Total, SavesOf;
    NothingQueued(map[]);
    if rows == [] {
      TotalOne(ProcessJob(j), TaskWork(j, n));
    } else {
      var front, last := rows[..|rows| - 1], rows[|rows| - 1];
      assert rows == front + [last];
      WorkOfSaves(front, j, n);
      MentionsSnoc(front, last, j);
      QueuedSnoc(map[], front, last);
      TotalUnion(SavesOf(front), multiset{Save(last, 0)}, TaskWork(j, n));
      TotalOne(Save(last, 0), TaskWork(j, n));
    }
  }

  lemma ShatterWork(s: State, step: Step, j: JobId)
    requires Enabled(s, step) && j in s.jobs && step.RunShatter?
    ensures Change(s, step, j) + Serving(step, j) <= 0
  {
    hide Total, SavesOf, Mentions, Enabled, Ended, Started;
    WorkersStay(s, step);
    var n := s.jobs[j].notificationCount;
    TotalOne(ShatterJobRows(step.rows), TaskWork(j, n));
    TotalOne(Marking(j), WorkerWork(j, n));
    WorkOfSaves(step.rows, j, n);
  }

  lemma SaveWork(s: State, step: Step, j: JobId)
    requires Inv(s) && Enabled(s, step) && j in s.jobs && step.RunSave?
    ensures Change(s, step, j) + Serving(step, j) <= 0
  {
    hide Total, WorkerOk, AllCreated, NotificationsOk, SaveSucceeds, Ended, Started;
    WorkersStay(s, step);
    var n := s.jobs[j].notificationCount;
    assert TaskOk(s, Save(step.row, step.retries));
    TotalOne(Save(step.row, step.retries), TaskWork(j, n));
    TotalOne(Save(step.row, step.retries + 1), TaskWork(j, n));
    TotalOne(Marking(j), WorkerWork(j, n));
  }

  lemma RowTasksMention(j: JobId, rows: seq<nat>, ids: seq<NotificationId>)
    requires 0 < |ids| <= |rows|
    ensures |RowTasks(j, rows, ids)| == |ids|
    ensures forall j' :: Mentions(ShatterJobRows(RowTasks(j, rows, ids)), j') <==> j' == j
  {
    assert RowTasks(j, rows, ids)[0].ref.job == j;
  }

  lemma QueueWork(s: State, step: Step, j: JobId)
    requires Enabled(s, step) && j in s.jobs && step.QueueRows?
    ensures Change(s, step, j) + Serving(step, j) <= 0
  {
    hide Total, AreFresh, RowTasks, Mentions;
    var w, ids, n := step.worker, step.ids, s.jobs[j].notificationCount;
    RowTasksMention(w.job, w.rows, ids);
    TotalOne(w, WorkerWork(j, n));
    TotalOne(ShatterJobRows(RowTasks(w.job, w.rows, ids)), TaskWork(j, n));
    TotalOne(Sending(w.job, w.rows[|ids|..]), WorkerWork(j, n));
  }

  lemma RefillWork(s: State, step: Step, j: JobId)
    requires Enabled(s, step) && j in s.jobs && step.QueueMissing?
    ensures Change(s, step, j) + Serving(step, j) <= 0
  {
    hide Total;
    var w, n := step.worker, s.jobs[j].notificationCount;
    TotalOne(w, WorkerWork(j, n));
    TotalOne(Save(RowTask(step.id, RowRef(w.job, w.rows[0])), 0), TaskWork(j, n));
    TotalOne(Refilling(w.job, w.rows[1..]), WorkerWork(j, n));
    TotalOne(ProcessJob(j), TaskWork(j, n));
  }

  /** The steps that end a worker without starting another. */
  lemma EndWork(s: State, step: Step, j: JobId)
    requires Enabled(s, step) && j in s.jobs && (step.CompleteJob? || step.Stop? || step.MarkJob?)
    ensures Change(s, step, j) + Serving(step, j) <= 0
  {
    hide Total, Enabled, TaskWork, Mentions, Taken, Queued;
    TasksStay(s, step);
    var n := s.jobs[j].notificationCount;
    var w := if step.MarkJob? then Marking(step.job) else step.worker;
    assert Ended(step) == multiset{w} && Started(s, step) == multiset{};
    TotalOne(ProcessJob(j), TaskWork(j, n));
    TotalOne(w, WorkerWork(j, n));
  }

  lemma ResumeWork(s: State, step: Step, j: JobId)
    requires Enabled(s, step) && j in s.jobs && step.ResumeJob?
    ensures Change(s, step, j) + Serving(step, j) <= 0
  {
    hide Total, AllRows, LastRow, Taken, Queued;
    TasksStay(s, step);
    var j', n, n' := step.job, s.jobs[j].notificationCount, s.jobs[step.job].notificationCount;
    AllRowsLength(n');
    FilterLength<nat>(AllRows(n'), RowsAfter(LastRow(s, j')));
    TotalOne(ProcessJob(j), TaskWork(j, n));
    TotalOne(Resuming(j'), WorkerWork(j, n));
    TotalOne(Sending(j', RowsToResume(s, j', n')), WorkerWork(j, n));
  }

  lemma RepairWork(s: State, step: Step, j: JobId)
    requires Enabled(s, step) && j in s.jobs && step.FindMissing?
    ensures Change(s, step, j) + Serving(step, j) <= 0
  {
    hide Total, AllRows, Created, Taken, Queued;
    TasksStay(s, step);
    var j', n, n' := step.job, s.jobs[j].notificationCount, s.jobs[step.job].notificationCount;
    AllRowsLength(n');
    FilterLength<nat>(AllRows(n'), NotCreated(s, j'));
    TotalOne(ProcessJob(j), TaskWork(j, n));
    TotalOne(Repairing(j'), WorkerWork(j, n));
    TotalOne(Refilling(j', MissingRows(s, j', n')), WorkerWork(j, n));
  }

  /** A step that has nothing to do with the job. */
  lemma OtherWork(s: State, step: Step, j: JobId)
    requires Enabled(s, step) && j in s.jobs && !BringsWork(step, j)
    requires step.CreateJob? || step.CancelJob? || step.CancelLetterJob? || step.Redeliver?
    ensures Change(s, step, j) + Serving(step, j) <= 0
  {
    hide Total, Mentions;
    var n := s.jobs[j].notificationCount;
    TotalOne(Marking(j), WorkerWork(j, n));
    var t := if step.Redeliver? then step.task else ProcessJob(step.job);
    TotalOne(t, TaskWork(j, n));
    assert !step.Redeliver? ==> (Mentions(t, j) <==> step.job == j) by {
      ProcessMentions(step, j);
    }
  }

  lemma ProcessMentions(step: Step, j: JobId)
    ensures step.CreateJob? || step.CancelJob? || step.CancelLetterJob? ==>
              (Mentions(ProcessJob(step.job), j) <==> step.job == j)
  {
  }

  /** Without new work from outside, no step that loses nothing adds to the work for a job, and each
      step that serves the job takes some away. */
  lemma StepsLowerWork(s: State, step: Step, j: JobId)
    requires Inv(s) && Enabled(s, step) && Lossless(step) && j in s.jobs && !BringsWork(step, j)
    ensures j in After(s, step).jobs && Work(After(s, step), j) <= Work(s, j) - Serving(step, j)
  {
    hide Inv, Enabled, After, Work, Change, Serving, BringsWork;
    WorkAfter(s, step, j);
    match step
    case StartJob(_, _, _, _) => StartWork(s, step, j);
    case QueueRows(_, _) => QueueWork(s, step, j);
    case RunShatter(_) => ShatterWork(s, step, j);
    case RunSave(_, _, _) => SaveWork(s, step, j);
    case StartIncomplete(_, _) => RestartWork(s, step, j);
    case ResumeJob(_) => ResumeWork(s, step, j);
    case FindMissing(_) => RepairWork(s, step, j);
    case QueueMissing(_, _) => RefillWork(s, step, j);
    case CompleteJob(_, _) => EndWork(s, step, j);
    case Stop(_) => EndWork(s, step, j);
    case MarkJob(_) => EndWork(s, step, j);
    case Sweep(_) => ScheduledBringsWork(step, j);
    case CheckJobStatus(_) => ScheduledBringsWork(step, j);
    case RunScheduledJobs(_) => ScheduledBringsWork(step, j);
    case _ => OtherWork(s, step, j);
  }

  lemma ScheduledBringsWork(step: Step, j: JobId)
    ensures step.Sweep? || step.CheckJobStatus? || step.RunScheduledJobs? ==> BringsWork(step, j)
  {
  }

  // ---------------------------------------------------------------- work that is left can be done

  lemma {:induction false} AboveAll(ids: set<nat>) returns (bound: nat)
    ensures forall id | id in ids :: id < bound
  {
    if ids == {} {
      bound := 0;
    } else {
      var id :| id in ids;
      bound := AboveAll(ids - {id});
      bound := Max(bound, id + 1);
      assert forall x | x in ids :: x == id || x in ids - {id};
    }
  }

  /** New ids can always be made. */
  lemma FreshIds(s: State, count: nat) returns (ids: seq<NotificationId>)
    ensures |ids| == count && AreFresh(s, ids)
  {
    var bound := AboveAll(s.issued.Keys);
    ids := seq(count, i => bound + i);
  }

  /** A step that serves the job, can be taken, and loses nothing. */
  ghost predicate CanServe(s: State, step: Step, j: JobId) {
    Enabled(s, step) && Lossless(step) && Serves(step, j)
  }

  lemma TaskCanRun(s: State, j: JobId, t: Task) returns (step: Step)
    requires Inv(s) && t in s.tasks && Mentions(t, j)
    ensures CanServe(s, step, j)
  {
    hide WorkerOk, NotificationsOk, AllCreated;
    assert TaskOk(s, t);
    match t
    case ProcessJob(_) => step := StartJob(j, 0, true, true);
    case ProcessIncompleteJobs(js) => step := StartIncomplete(js, 0);
    case ShatterJobRows(rows) => step := RunShatter(rows);
    case Save(row, retries) => step := RunSave(row, retries, false);
  }

  lemma SendingCanGoOn(s: State, j: JobId, rows: seq<nat>) returns (step: Step)
    requires Sending(j, rows) in s.workers && j in s.jobs
    ensures CanServe(s, step, j)
  {
    hide AreFresh;
    if rows == [] {
      step := CompleteJob(Sending(j, rows), 0);
    } else {
      var ids := FreshIds(s, |rows|);
      step := QueueRows(Sending(j, rows), ids);
    }
  }

  lemma RefillingCanGoOn(s: State, j: JobId, rows: seq<nat>) returns (step: Step)
    requires Refilling(j, rows) in s.workers
    ensures CanServe(s, step, j)
  {
    hide AreFresh;
    if rows == [] {
      step := Stop(Refilling(j, rows));
    } else {
      var ids := FreshIds(s, 1);
      IsFresh(s, ids);
      step := QueueMissing(Refilling(j, rows), ids[0]);
    }
  }

  lemma WorkerCanGoOn(s: State, w: Worker) returns (step: Step)
    requires Inv(s) && w in s.workers
    ensures CanServe(s, step, w.job)
  {
    hide TaskOk, NotificationsOk, WorkerOk, AreFresh;
    WorkerJobExists(s, w);
    match w
    case Resuming(j) => step := ResumeJob(j);
    case Repairing(j) => step := FindMissing(j);
    case Marking(j) => step := MarkJob(j);
    case Sending(j, rows) => step := SendingCanGoOn(s, j, rows);
    case Refilling(j, rows) => step := RefillingCanGoOn(s, j, rows);
  }

  lemma IsFresh(s: State, ids: seq<NotificationId>)
    requires AreFresh(s, ids) && ids != []
    ensures ids[0] !in s.issued
  {
    assert ids[0] in ids;
  }

  /** As long as work is left for a job, some step that loses nothing serves it. */
  lemma StepThatServes(s: State, j: JobId) returns (step: Step)
    requires Inv(s) && !Settled(s, j)
    ensures CanServe(s, step, j)
  {
    hide Inv, CanServe;
    if t :| t in s.tasks && Mentions(t, j) {
      step := TaskCanRun(s, j, t);
    } else {
      var w :| w in s.workers && w.job == j;
      step := WorkerCanGoOn(s, w);
    }
  }

  lemma ServingNeedsWork(s: State, step: Step, j: JobId)
    requires CanServe(s, step, j)
    ensures !Settled(s, j)
  {
    hide AreFresh;
    match step
    case StartJob(_, _, _, _) => assert Mentions(ProcessJob(j), j);
    case RunShatter(rows) => assert Mentions(ShatterJobRows(rows), j);
    case RunSave(row, retries, _) => assert Mentions(Save(row, retries), j);
    case StartIncomplete(js, _) => assert Mentions(ProcessIncompleteJobs(js), j);
    case ResumeJob(_) => assert Resuming(j).job == j;
    case MarkJob(_) => assert Marking(j).job == j;
    case FindMissing(_) => assert Repairing(j).job == j;
    case _ =>
  }

  lemma ServesBringsNothing(step: Step, j: JobId)
    ensures Serves(step, j) ==> !BringsWork(step, j)
  {
    hide Mentions;
  }

  // ---------------------------------------------------------------- every run settles the job

  /** How many steps of a run serve the job. */
  function Served(steps: seq<Step>, j: JobId): nat {
    if steps == [] then 0 else Served(steps[..|steps| - 1], j) + Serving(steps[|steps| - 1], j)
  }

  lemma {:induction false} ServedLowersWork(s: State, steps: seq<Step>, j: JobId)
    requires Inv(s) && j in s.jobs && IsRun(s, steps)
    requires forall step | step in steps :: Lossless(step) && !BringsWork(step, j)
    ensures j in AfterRun(s, steps).jobs && Work(AfterRun(s, steps), j) + Served(steps, j) <= Work(s, j)
  {
    hide Inv, Enabled, After, Lossless, BringsWork, Serving, Work;
    if steps == [] {
    } else {
      var front, last := steps[..|steps| - 1], steps[|steps| - 1];
      assert last in steps && forall step | step in front :: step in steps;
      ServedLowersWork(s, front, j);
      RunKeepsInv(s, front);
      StepsLowerWork(AfterRun(s, front), last, j);
    }
  }

  /** Termination, whatever the order of the steps: a run that loses nothing, and that gets no new
      work for a job from outside, serves the job at most as often as its work says; and the job is
      settled at the end if and only if no step that loses nothing can serve it any more. So a run
      that goes on serving the job, in any way, settles it. */
  lemma EveryRunSettles(s: State, steps: seq<Step>, j: JobId)
    requires Inv(s) && j in s.jobs && IsRun(s, steps)
    requires forall step | step in steps :: Lossless(step) && !BringsWork(step, j)
    ensures Served(steps, j) <= Work(s, j)
    ensures Settled(AfterRun(s, steps), j) <==> forall step :: !CanServe(AfterRun(s, steps), step, j)
  {
    hide Inv, IsRun, AfterRun, Lossless, BringsWork, CanServe, Settled, Work, Served;
    ServedLowersWork(s, steps, j);
    RunKeepsInv(s, steps);
    var after := AfterRun(s, steps);
    if Settled(after, j) {
      forall step ensures !CanServe(after, step, j) {
        if CanServe(after, step, j) { ServingNeedsWork(after, step, j); }
      }
    } else {
      var step := StepThatServes(after, j);
    }
  }

  // ---------------------------------------------------------------- every job can be settled

  lemma {:induction false} RunCons(s: State, step: Step, rest: seq<Step>)
    requires Enabled(s, step) && IsRun(After(s, step), rest)
    ensures IsRun(s, [step] + rest) && AfterRun(s, [step] + rest) == AfterRun(After(s, step), rest)
  {
    hide Enabled, After;
    if rest == [] {
      assert [step] + rest == [] + [step];
      RunSnoc(s, [], step);
    } else {
      var front, last := rest[..|rest| - 1], rest[|rest| - 1];
      RunCons(s, step, front);
      RunSnoc(s, [step] + front, last);
      assert [step] + rest == [step] + front + [last];
    }
  }

  /** From every state that can occur, whatever work is left for a job, a run that loses nothing
      settles it. */
  lemma {:induction false} EveryJobCanSettle(s: State, j: JobId) returns (steps: seq<Step>)
    requires Inv(s) && j in s.jobs
    ensures IsRun(s, steps) && (forall step | step in steps :: Lossless(step))
    ensures Settled(AfterRun(s, steps), j)
    decreases Work(s, j)
  {
    hide Inv, Enabled, After, Settled, Lossless, Work, Serves, BringsWork;
    if Settled(s, j) {
      steps := [];
    } else {
      var step := StepThatServes(s, j);
      ServesBringsNothing(step, j);
      StepsLowerWork(s, step, j);
      StepKeepsInv(s, step);
      var rest := EveryJobCanSettle(After(s, step), j);
      RunCons(s, step, rest);
      steps := [step] + rest;
    }
  }

  /** The missing rows of a swept job, however many they are, can be reduced to none. */
  lemma SweptJobCanComplete(s: State, j: JobId) returns (steps: seq<Step>)
    requires Inv(s) && Repairing(j) in s.workers
    ensures IsRun(s, steps) && forall step | step in steps :: Lossless(step)
    ensures var after := AfterRun(s, steps);
            Settled(after, j) && j in after.jobs && MissingRows(after, j, after.jobs[j].notificationCount) == []
  {
    hide Inv, IsRun, AfterRun, Lossless, Settled;
    RepairingJobExists(s, j);
    steps := EveryJobCanSettle(s, j);
    SweptJobGetsAllRows(s, steps, j, 0);
  }

  // ---------------------------------------------------------------- the messages of process_job

  /** The task holds the rows of the message, in order. */
  predicate Carries(t: Task, j: JobId, message: seq<nat>) {
    && t.ShatterJobRows? && |t.rows| == |message|
    && forall i | 0 <= i < |message| :: t.rows[i].ref == RowRef(j, message[i])
  }

  lemma OneMessage(s: State, j: JobId, rows: seq<nat>, ids: seq<NotificationId>)
    requires Sending(j, rows) in s.workers && 0 < |ids| <= |rows| && AreFresh(s, ids)
    ensures var step := QueueRows(Sending(j, rows), ids);
            && Enabled(s, step)
            && Carries(ShatterJobRows(RowTasks(j, rows, ids)), j, rows[..|ids|])
            && After(s, step).tasks == s.tasks + multiset{ShatterJobRows(RowTasks(j, rows, ids))}
            && After(s, step).workers == s.workers - multiset{Sending(j, rows)} + multiset{Sending(j, rows[|ids|..])}
            && After(s, step).jobs == s.jobs
  {
  }

  lemma NextMessage(messages: seq<seq<nat>>, rows: seq<nat>)
    requires messages != [] && Shatter.Flatten(messages) <= rows
    ensures var front, last := messages[..|messages| - 1], messages[|messages| - 1];
            var sent := |Shatter.Flatten(front)|;
            && Shatter.Flatten(front) <= rows && sent + |last| == |Shatter.Flatten(messages)| <= |rows|
            && rows[sent..][..|last|] == last && rows[sent..][|last|..] == rows[sent + |last|..]
  {
  }

  lemma Replaced(workers: multiset<Worker>, first: Worker, second: Worker, third: Worker)
    requires first in workers
    ensures workers - multiset{first} + multiset{second} - multiset{second} + multiset{third}
         == workers - multiset{first} + multiset{third}
  {
  }

  /** The worker has sent the messages: their tasks are queued, and it has the rest of its rows. */
  ghost predicate HasSent(s: State, after: State, j: JobId, rows: seq<nat>, messages: seq<seq<nat>>,
                          queued: seq<Task>)
  {
    && |queued| == |messages| && (forall i | 0 <= i < |messages| :: Carries(queued[i], j, messages[i]))
    && Shatter.Flatten(messages) <= rows
    && after.jobs == s.jobs && after.tasks == s.tasks + multiset(queued)
    && after.workers
       == s.workers - multiset{Sending(j, rows)} + multiset{Sending(j, rows[|Shatter.Flatten(messages)|..])}
  }

  lemma SendOneMore(s: State, before: State, j: JobId, rows: seq<nat>, messages: seq<seq<nat>>, queued: seq<Task>)
      returns (step: Step, task: Task)
    requires Sending(j, rows) in s.workers && messages != [] && messages[|messages| - 1] != []
    requires HasSent(s, before, j, rows, messages[..|messages| - 1], queued) && Shatter.Flatten(messages) <= rows
    ensures Enabled(before, step) && HasSent(s, After(before, step), j, rows, messages, queued + [task])
  {
    hide Enabled, After, AreFresh, Carries, RowTasks, Shatter.Flatten;
    var front, last := messages[..|messages| - 1], messages[|messages| - 1];
    NextMessage(messages, rows);
    var rest := rows[|Shatter.Flatten(front)|..];
    var ids := FreshIds(before, |last|);
    OneMessage(before, j, rest, ids);
    Replaced(s.workers, Sending(j, rows), Sending(j, rest), Sending(j, rest[|last|..]));
    step, task := QueueRows(Sending(j, rest), ids), ShatterJobRows(RowTasks(j, rest, ids));
    OneMoreCarries(queued, task, j, messages);
  }

  lemma OneMoreCarries(queued: seq<Task>, task: Task, j: JobId, messages: seq<seq<nat>>)
    requires messages != [] && |queued| == |messages| - 1 && Carries(task, j, messages[|messages| - 1])
    requires forall i | 0 <= i < |queued| :: Carries(queued[i], j, messages[..|messages| - 1][i])
    ensures forall i | 0 <= i < |messages| :: Carries((queued + [task])[i], j, messages[i])
    ensures multiset(queued + [task]) == multiset(queued) + multiset{task}
  {
    hide Carries;
    forall i | 0 <= i < |messages| ensures Carries((queued + [task])[i], j, messages[i]) {
      if i < |queued| {
        assert messages[..|messages| - 1][i] == messages[i];
      }
    }
  }

  /** Messages that hold the rows of a worker in order, up to some row, are steps of the worker. */
  lemma {:induction false} MessagesAreSteps(s: State, j: JobId, rows: seq<nat>, messages: seq<seq<nat>>)
      returns (steps: seq<Step>, queued: seq<Task>)
    requires Sending(j, rows) in s.workers
    requires (forall m | m in messages :: m != []) && Shatter.Flatten(messages) <= rows
    ensures IsRun(s, steps) && HasSent(s, AfterRun(s, steps), j, rows, messages, queued)
  {
    hide Enabled, After, HasSent;
    if messages == [] {
      steps, queued := [], [];
      NothingSent(s, j, rows);
    } else {
      var front, last := messages[..|messages| - 1], messages[|messages| - 1];
      assert last in messages && forall m | m in front :: m in messages;
      NextMessage(messages, rows);
      steps, queued := MessagesAreSteps(s, j, rows, front);
      var step, task := SendOneMore(s, AfterRun(s, steps), j, rows, messages, queued);
      RunSnoc(s, steps, step);
      steps, queued := steps + [step], queued + [task];
    }
  }

  lemma NothingSent(s: State, j: JobId, rows: seq<nat>)
    requires Sending(j, rows) in s.workers
    ensures HasSent(s, s, j, rows, [], [])
  {
    assert rows[0..] == rows;
    assert s.workers - multiset{Sending(j, rows)} + multiset{Sending(j, rows)} == s.workers;
  }

  /** process_job, whatever the queue replies: a run that starts the job, queues the messages of
      the recursive subdivision, and completes the job if they hold all its rows, or else stops. */
  lemma ProcessJobIsARun(s: State, j: JobId, broker: Shatter.Broker<nat>, attempts: nat, batches: seq<seq<nat>>,
                         size: nat, now: Instant)
      returns (steps: seq<Step>, queued: seq<Task>)
    requires ProcessJob(j) in s.tasks && j in s.jobs && s.jobs[j].status == Pending
    requires Shatter.AreBatches(batches, size) && size >= 1
    requires Shatter.Flatten(batches) == AllRows(s.jobs[j].notificationCount)
    ensures var sent := Shatter.ShatterAll(broker, attempts, batches);
            var after := AfterRun(s, steps);
            && IsRun(s, steps)
            && |queued| == |sent.messages| && (forall i | 0 <= i < |queued| :: Carries(queued[i], j, sent.messages[i]))
            && after.tasks == s.tasks - multiset{ProcessJob(j)} + multiset(queued)
            && after.workers == s.workers
            && j in after.jobs && after.jobs[j].status == if sent.outcome.Done? then Finished else InProgress
  {
    hide Enabled, After, Carries, AllRows, HasSent, IsRun, AfterRun;
    hide Shatter.ShatterAll, Shatter.AreBatches, Shatter.Flatten;
    var rows, sent := AllRows(s.jobs[j].notificationCount), Shatter.ShatterAll(broker, attempts, batches);
    Shatter.BatchesAreNotEmpty(batches, size);
    Shatter.FileIsSound(broker, attempts, batches);
    SoundMessages(sent, broker, rows);
    var start := StartJob(j, now, true, true);
    StartSends(s, j, now);
    var began := After(s, start);
    var sends: seq<Step>;
    sends, queued := MessagesAreSteps(began, j, rows, sent.messages);
    RunCons(s, start, sends);
    var before, rest := AfterRun(began, sends), rows[|Shatter.Flatten(sent.messages)|..];
    var last := if sent.outcome.Done? then CompleteJob(Sending(j, rest), now) else Stop(Sending(j, rest));
    WorkerIsAtTheRest(began, before, j, rows, sent.messages, queued);
    LastStep(before, j, rest, sent.outcome.Done?, now);
    RunSnoc(s, [start] + sends, last);
    steps := [start] + sends + [last];
    WorkerIsGone(s, began, before, j, rows, sent.messages, queued);
  }

  lemma WorkerIsAtTheRest(s: State, after: State, j: JobId, rows: seq<nat>, messages: seq<seq<nat>>, queued: seq<Task>)
    requires HasSent(s, after, j, rows, messages, queued) && j in s.jobs
    ensures Sending(j, rows[|Shatter.Flatten(messages)|..]) in after.workers
    ensures j in after.jobs && after.jobs[j] == s.jobs[j]
    ensures |queued| == |messages| && (forall i | 0 <= i < |messages| :: Carries(queued[i], j, messages[i]))
  {
    hide Carries, Shatter.Flatten;
  }

  /** Without the worker, the tasks are what has changed. */
  lemma WorkerIsGone(s: State, began: State, after: State, j: JobId, rows: seq<nat>, messages: seq<seq<nat>>,
                     queued: seq<Task>)
    requires HasSent(began, after, j, rows, messages, queued)
    requires ProcessJob(j) in s.tasks && began.tasks == s.tasks - multiset{ProcessJob(j)}
    requires began.workers == s.workers + multiset{Sending(j, rows)}
    ensures after.tasks == s.tasks - multiset{ProcessJob(j)} + multiset(queued)
    ensures after.workers - multiset{Sending(j, rows[|Shatter.Flatten(messages)|..])} == s.workers
  {
    hide Carries, Shatter.Flatten;
  }

  lemma SoundMessages(sent: Shatter.Queued<nat>, broker: Shatter.Broker<nat>, rows: seq<nat>)
    requires Shatter.IsSoundFor(sent, broker, rows)
    ensures (forall m | m in sent.messages :: m != []) && Shatter.Flatten(sent.messages) <= rows
    ensures sent.outcome.Done? ==> rows[|Shatter.Flatten(sent.messages)|..] == []
  {
    hide Shatter.Accepted;
  }

  lemma StartSends(s: State, j: JobId, now: Instant)
    requires ProcessJob(j) in s.tasks && j in s.jobs && s.jobs[j].status == Pending
    ensures var start := StartJob(j, now, true, true);
            && Enabled(s, start) && j in After(s, start).jobs && After(s, start).jobs[j].status == InProgress
            && After(s, start).tasks == s.tasks - multiset{ProcessJob(j)}
            && After(s, start).workers == s.workers + multiset{Sending(j, AllRows(s.jobs[j].notificationCount))}
  {
    hide AllRows;
  }

  lemma LastStep(s: State, j: JobId, rest: seq<nat>, done: bool, now: Instant)
    requires Sending(j, rest) in s.workers && j in s.jobs && (done ==> rest == [])
    ensures var step := if done then CompleteJob(Sending(j, rest), now) else Stop(Sending(j, rest));
            && Enabled(s, step) && j in After(s, step).jobs
            && After(s, step).tasks == s.tasks && After(s, step).workers == s.workers - multiset{Sending(j, rest)}
            && After(s, step).jobs[j].status == if done then Finished else s.jobs[j].status
  {
  }
}
