/** From the creation of a job to the mark that all its notifications are there: what each step does to
    a job, in the columns of the job, and runs that take a job through all of them. */
module JobLifecycle {
  import opened Collections
  import opened LondonTime
  import opened JobPipeline
  import opened JobRuns

  // ---------------------------------------------------------------- what the steps do to a job

  /** All that the state holds of one job: its columns, the tasks that name it, and its workers. */
  ghost predicate Holds(s: State, j: JobId, job: Job, tasks: multiset<Task>, workers: multiset<Worker>) {
    && j in s.jobs && s.jobs[j] == job
    && (forall t | Mentions(t, j) :: s.tasks[t] == tasks[t])
    && (forall w: Worker | w.job == j :: s.workers[w] == workers[w])
  }

  /** A new job that is to be sent later waits, and no task is queued for it. */
  lemma CreatedForLater(s: State, j: JobId, n: nat, at: Instant)
    requires Inv(s) && j !in s.jobs
    ensures Enabled(s, CreateJob(j, n, Some(at)))
    ensures Holds(After(s, CreateJob(j, n, Some(at))), j, Job(Scheduled, n, Some(at), None, None), multiset{},
                  multiset{})
  {
    hide Inv, Mentions, IdsOfJob;
    NewJobIsUntouched(s, j);
  }

  /** A new job that is to be sent at once has its task in the queue. */
  lemma CreatedForNow(s: State, j: JobId, n: nat)
    requires Inv(s) && j !in s.jobs
    ensures Enabled(s, CreateJob(j, n, None))
    ensures Holds(After(s, CreateJob(j, n, None)), j, Job(Pending, n, None, None, None), multiset{ProcessJob(j)},
                  multiset{})
  {
    hide Inv, IdsOfJob;
    NewJobIsUntouched(s, j);
  }

  /** The time of a scheduled job has come. */
  ghost predicate Due(job: Job, now: Instant) {
    job.status == Scheduled && job.scheduledFor != None && job.scheduledFor.value < now
  }

  /** The scheduled run queues one task for a scheduled job exactly if its time has come, and leaves every
      other job as it is. */
  lemma ScheduleStarts(s: State, now: Instant, j: JobId, job: Job, tasks: multiset<Task>, workers: multiset<Worker>)
    requires Holds(s, j, job, tasks, workers)
    ensures Holds(After(s, Step.RunScheduledJobs(now)), j, if Due(job, now) then job.(status := Pending) else job,
                  if Due(job, now) then tasks + multiset{ProcessJob(j)} else tasks, workers)
  {
    var after := After(s, Step.RunScheduledJobs(now));
    assert IsDue(job, now) <==> Due(job, now);
    forall t | Mentions(t, j)
      ensures after.tasks[t] == (if Due(job, now) then tasks + multiset{ProcessJob(j)} else tasks)[t]
    {
    }
  }

  /** The job has been in progress, or waited since its time, for 30 to 35 minutes. */
  ghost predicate Stuck(job: Job, now: Instant) {
    || (job.status == InProgress && job.processingStarted != None
        && job.processingStarted.value + 30 * MINUTE <= now <= job.processingStarted.value + 35 * MINUTE)
    || (job.status == Pending && job.scheduledFor != None
        && job.scheduledFor.value + 30 * MINUTE <= now <= job.scheduledFor.value + 35 * MINUTE)
  }

  /** The check of the jobs' status makes errors of the jobs that are stuck, and queues one task that resumes
      them all; it leaves every other job as it is. */
  lemma CheckRestarts(s: State, now: Instant, j: JobId, job: Job, tasks: multiset<Task>, workers: multiset<Worker>)
      returns (stuck: set<JobId>)
    requires Holds(s, j, job, tasks, workers)
    ensures forall j' :: j' in stuck <==> j' in s.jobs && Stuck(s.jobs[j'], now)
    ensures Holds(After(s, Step.CheckJobStatus(now)), j, if Stuck(job, now) then job.(status := Error) else job,
                  if Stuck(job, now) then tasks + multiset{ProcessIncompleteJobs(stuck)} else tasks, workers)
    ensures stuck != {} ==> After(s, Step.CheckJobStatus(now)).tasks == s.tasks + multiset{ProcessIncompleteJobs(stuck)}
    ensures stuck == {} ==> After(s, Step.CheckJobStatus(now)).tasks == s.tasks
  {
    hide After, Stuck, IsOverdue, Mentions;
    stuck := OverdueJobs(s.jobs, now);
    forall j' | j' in s.jobs ensures j' in stuck <==> Stuck(s.jobs[j'], now) {
      StuckIsOverdue(s.jobs[j'], now);
    }
    CheckIs(s, now);
    forall t | Mentions(t, j)
      ensures After(s, Step.CheckJobStatus(now)).tasks[t]
           == (if Stuck(job, now) then tasks + multiset{ProcessIncompleteJobs(stuck)} else tasks)[t]
    {
      ResumingNames(stuck, j);
    }
  }

  lemma StuckIsOverdue(job: Job, now: Instant)
    ensures IsOverdue(job, now) <==> Stuck(job, now)
  {
  }

  lemma ResumingNames(jobs: set<JobId>, j: JobId)
    ensures Mentions(ProcessIncompleteJobs(jobs), j) <==> j in jobs
  {
  }

  lemma CheckQueues(s: State, now: Instant)
    ensures var step, stuck := Step.CheckJobStatus(now), OverdueJobs(s.jobs, now);
            && Taken(step) == multiset{} && Ended(step) == Started(s, step) == multiset{}
            && Queued(s, step) == if stuck != {} then multiset{ProcessIncompleteJobs(stuck)} else multiset{}
  {
    hide OverdueJobs;
  }

  lemma CheckIs(s: State, now: Instant)
    ensures var stuck := OverdueJobs(s.jobs, now);
            After(s, Step.CheckJobStatus(now))
            == s.(jobs := WithStatus(s.jobs, stuck, Error),
                  tasks := s.tasks + if stuck != {} then multiset{ProcessIncompleteJobs(stuck)} else multiset{})
  {
    hide OverdueJobs, WithStatus, Taken, Queued, Started, Ended;
    CheckQueues(s, now);
    NothingTaken(s.tasks, Queued(s, Step.CheckJobStatus(now)));
    NothingTaken(s.workers, multiset{});
  }

  lemma StartIs(s: State, now: Instant, j: JobId)
    requires ProcessJob(j) in s.tasks && j in s.jobs && s.jobs[j].status == Pending
    ensures Enabled(s, StartJob(j, now, true, true))
    ensures After(s, StartJob(j, now, true, true))
         == s.(jobs := s.jobs[j := s.jobs[j].(status := InProgress, processingStarted := Some(now))],
               tasks := s.tasks - multiset{ProcessJob(j)},
               workers := s.workers + multiset{Sending(j, AllRows(s.jobs[j].notificationCount))})
  {
    hide Taken, Queued, Started, Ended, AllRows;
    StartDecides(s, now, j, true, true);
    NothingTaken(s.tasks - multiset{ProcessJob(j)}, multiset{});
    NothingTaken(s.workers, multiset{Sending(j, AllRows(s.jobs[j].notificationCount))});
  }

  /** A task that starts a pending job sets its worker to all rows of the file. */
  lemma StartSendsAll(s: State, now: Instant, j: JobId, job: Job, tasks: multiset<Task>, workers: multiset<Worker>)
    requires Holds(s, j, job, tasks, workers) && ProcessJob(j) in tasks && job.status == Pending
    ensures Enabled(s, StartJob(j, now, true, true))
    ensures Holds(After(s, StartJob(j, now, true, true)), j,
                  job.(status := InProgress, processingStarted := Some(now)), tasks - multiset{ProcessJob(j)},
                  workers + multiset{Sending(j, AllRows(job.notificationCount))})
  {
    hide AllRows, After, Enabled;
    assert Mentions(ProcessJob(j), j) && ProcessJob(j) in s.tasks;
    StartIs(s, now, j);
  }

  /** What the start of process_job decides: only a pending job is touched; it is cancelled for an inactive
      service, stopped by the limits, and otherwise in progress with a worker for all its rows. */
  lemma StartDecides(s: State, now: Instant, j: JobId, active: bool, withinLimits: bool)
    requires ProcessJob(j) in s.tasks && j in s.jobs
    ensures var step, job := StartJob(j, now, active, withinLimits), s.jobs[j];
            var sends := job.status == Pending && active && withinLimits;
            && Enabled(s, step)
            && JobsAfter(s, step)
               == s.jobs[j := if job.status != Pending then job
                              else if !active then job.(status := Cancelled, processingStarted := Some(now))
                              else if !withinLimits
                              then Job(SendingLimitsExceeded, job.notificationCount, job.scheduledFor, Some(now),
                                       Some(now))
                              else job.(status := InProgress, processingStarted := Some(now))]
            && Started(s, step) == (if sends then multiset{Sending(j, AllRows(job.notificationCount))} else multiset{})
            && Taken(step) == multiset{ProcessJob(j)} && Queued(s, step) == multiset{} && Ended(step) == multiset{}
  {
    hide AllRows;
  }

  lemma RestartIs(s: State, now: Instant, stuck: set<JobId>)
    requires ProcessIncompleteJobs(stuck) in s.tasks && stuck <= s.jobs.Keys
    ensures Enabled(s, StartIncomplete(stuck, now))
    ensures After(s, StartIncomplete(stuck, now))
         == s.(jobs := Restarted(s.jobs, stuck, now), tasks := s.tasks - multiset{ProcessIncompleteJobs(stuck)},
               workers := s.workers + multiset(set j | j in stuck :: Resuming(j)))
  {
    hide Taken, Queued, Started, Ended, Restarted;
    RestartStarts(s, StartIncomplete(stuck, now));
    NothingTaken(s.workers, multiset(set j | j in stuck :: Resuming(j)));
    NothingTaken(s.tasks - multiset{ProcessIncompleteJobs(stuck)}, multiset{});
  }

  /** A task that resumes jobs sets each in progress again, and goes on to resume it. */
  lemma RestartResumes(s: State, now: Instant, stuck: set<JobId>, j: JobId, job: Job, tasks: multiset<Task>,
                       workers: multiset<Worker>)
    requires Holds(s, j, job, tasks, workers) && ProcessIncompleteJobs(stuck) in s.tasks && j in stuck
    requires stuck <= s.jobs.Keys
    ensures Enabled(s, StartIncomplete(stuck, now))
    ensures Holds(After(s, StartIncomplete(stuck, now)), j,
                  job.(status := InProgress, processingStarted := Some(now)),
                  tasks - multiset{ProcessIncompleteJobs(stuck)}, workers + multiset{Resuming(j)})
  {
    hide Mentions, After, Enabled, Restarted;
    ResumingNames(stuck, j);
    var resuming := set j' | j' in stuck :: Resuming(j');
    RestartIs(s, now, stuck);
    RestartedJob(s.jobs, stuck, now, j);
    forall w: Worker | w.job == j ensures multiset(resuming)[w] == multiset{Resuming(j)}[w] {
      assert w in resuming <==> w == Resuming(j);
    }
  }

  lemma RestartedJob(jobs: map<JobId, Job>, changed: set<JobId>, now: Instant, j: JobId)
    requires j in jobs && j in changed
    ensures j in Restarted(jobs, changed, now)
         && Restarted(jobs, changed, now)[j] == jobs[j].(status := InProgress, processingStarted := Some(now))
  {
  }

  /** The worker that sends all rows that it has in one message is done with them. */
  lemma QueueSendsAll(s: State, j: JobId, job: Job, tasks: multiset<Task>, workers: multiset<Worker>, rows: seq<nat>,
                      ids: seq<NotificationId>)
    requires Holds(s, j, job, tasks, workers) && Sending(j, rows) in workers && 0 < |ids| == |rows| && AreFresh(s, ids)
    ensures Enabled(s, QueueRows(Sending(j, rows), ids))
    ensures Holds(After(s, QueueRows(Sending(j, rows), ids)), j, job,
                  tasks + multiset{ShatterJobRows(RowTasks(j, rows, ids))},
                  workers - multiset{Sending(j, rows)} + multiset{Sending(j, [])})
  {
    hide AreFresh, RowTasks, Mentions, After, Enabled;
    assert rows[|ids|..] == [];
    RowTasksMention(j, rows, ids);
    assert Sending(j, rows).job == j && Sending(j, rows) in s.workers;
    OneMessage(s, j, rows, ids);
  }

  /** A worker without rows left completes its job. */
  lemma CompleteFinishes(s: State, now: Instant, j: JobId, job: Job, tasks: multiset<Task>, workers: multiset<Worker>)
    requires Holds(s, j, job, tasks, workers) && Sending(j, []) in workers
    ensures Enabled(s, CompleteJob(Sending(j, []), now))
    ensures Holds(After(s, CompleteJob(Sending(j, []), now)), j,
                  job.(status := Finished, processingFinished := Some(now)), tasks,
                  workers - multiset{Sending(j, [])})
  {
    hide Mentions;
    assert Sending(j, []).job == j;
  }

  /** A job that the sweep found complete is marked. */
  lemma MarkMarks(s: State, j: JobId, job: Job, tasks: multiset<Task>, workers: multiset<Worker>)
    requires Holds(s, j, job, tasks, workers) && Marking(j) in workers
    ensures Enabled(s, MarkJob(j))
    ensures Holds(After(s, MarkJob(j)), j, job.(status := FinishedAllNotificationsCreated), tasks,
                  workers - multiset{Marking(j)})
  {
    hide Mentions;
    assert Marking(j).job == j;
  }

  lemma ResumeStarts(s: State, j: JobId)
    requires Resuming(j) in s.workers && j in s.jobs
    ensures var step := ResumeJob(j);
            && Enabled(s, step) && Taken(step) == Queued(s, step) == multiset{}
            && Ended(step) == multiset{Resuming(j)}
            && Started(s, step) == multiset{Sending(j, RowsToResume(s, j, s.jobs[j].notificationCount))}
  {
    hide RowsToResume;
  }

  lemma ResumeIs(s: State, j: JobId)
    requires Resuming(j) in s.workers && j in s.jobs
    ensures Enabled(s, ResumeJob(j))
    ensures After(s, ResumeJob(j))
         == s.(workers := s.workers - multiset{Resuming(j)}
                          + multiset{Sending(j, RowsToResume(s, j, s.jobs[j].notificationCount))})
  {
    hide RowsToResume, Taken, Queued, Ended, Started;
    ResumeStarts(s, j);
    NothingTaken(s.tasks, multiset{});
  }

  /** A worker that resumes a job goes on to the rows above its highest row with a notification. */
  lemma ResumeSendsTheRest(s: State, j: JobId, job: Job, tasks: multiset<Task>, workers: multiset<Worker>)
    requires Holds(s, j, job, tasks, workers) && Resuming(j) in workers
    ensures Enabled(s, ResumeJob(j)) && After(s, ResumeJob(j)).notifications == s.notifications
    ensures Holds(After(s, ResumeJob(j)), j, job, tasks,
                  workers - multiset{Resuming(j)} + multiset{Sending(j, RowsToResume(s, j, job.notificationCount))})
  {
    hide Mentions, RowsToResume, After, Enabled;
    assert Resuming(j).job == j && Resuming(j) in s.workers;
    ResumeIs(s, j);
  }

  // ---------------------------------------------------------------- what the sweep leads to

  ghost predicate AllLossless(steps: seq<Step>) { forall step | step in steps :: Lossless(step) }

  /** One more step at the start of a run that loses nothing. */
  lemma LosslessCons(s: State, step: Step, rest: seq<Step>)
    requires Enabled(s, step) && Lossless(step) && IsRun(After(s, step), rest) && AllLossless(rest)
    ensures IsRun(s, [step] + rest) && AllLossless([step] + rest)
    ensures AfterRun(s, [step] + rest) == AfterRun(After(s, step), rest)
  {
    hide Enabled, After, IsRun, AfterRun, Lossless;
    RunCons(s, step, rest);
  }

  /** A job that finished in the time that the sweep looks at, with some rows created and some not: a run
      that begins with the sweep, and loses nothing, leaves no row missing. */
  lemma SweptJobIsRepaired(s: State, now: Instant, j: JobId) returns (steps: seq<Step>)
    requires Inv(s) && j in s.jobs && FinishedBefore(s.jobs[j], now)
    requires {} < RowsOfJob(s, j) < RowNumbers(s.jobs[j].notificationCount)
    ensures steps != [] && steps[0] == Sweep(now) && IsRun(s, steps) && AllLossless(steps)
    ensures var after := AfterRun(s, steps);
            Settled(after, j) && j in after.jobs && MissingRows(after, j, after.jobs[j].notificationCount) == []
  {
    hide Inv, FinishedBefore, After, IsRun, AfterRun, RowsOfJob, RowNumbers, Settled, MissingRows;
    SweepStarts(s, now, j);
    StepKeepsInv(s, Sweep(now));
    var rest := SweptJobCanComplete(After(s, Sweep(now)), j);
    LosslessCons(s, Sweep(now), rest);
    steps := [Sweep(now)] + rest;
  }

  /** With all rows created, the run that begins with the sweep marks the job. */
  lemma SweptJobIsMarked(s: State, now: Instant, j: JobId) returns (steps: seq<Step>)
    requires Inv(s) && j in s.jobs && FinishedBefore(s.jobs[j], now)
    requires {} < RowsOfJob(s, j) == RowNumbers(s.jobs[j].notificationCount)
    ensures steps == [Sweep(now), MarkJob(j)] && IsRun(s, steps) && AllLossless(steps)
    ensures Holds(AfterRun(s, steps), j, s.jobs[j].(status := FinishedAllNotificationsCreated), s.tasks, s.workers)
    ensures AfterRun(s, steps).notifications == s.notifications
  {
    hide Inv, FinishedBefore, After, Mentions, RowsOfJob, RowNumbers, IsRun, AfterRun;
    SweepStarts(s, now, j);
    var swept := After(s, Sweep(now));
    MarkMarks(swept, j, s.jobs[j], swept.tasks, swept.workers);
    MarkAddsNothing(swept, j);
    EmptyRun(After(swept, MarkJob(j)));
    LosslessCons(swept, MarkJob(j), []);
    assert [MarkJob(j)] + [] == [MarkJob(j)];
    LosslessCons(s, Sweep(now), [MarkJob(j)]);
    steps := [Sweep(now), MarkJob(j)];
    assert steps == [Sweep(now)] + [MarkJob(j)];
  }

  lemma EmptyRun(s: State)
    ensures IsRun(s, []) && AfterRun(s, []) == s
  {
  }

  lemma MarkAddsNothing(s: State, j: JobId)
    requires Enabled(s, MarkJob(j))
    ensures After(s, MarkJob(j)).notifications == s.notifications
  {
    hide JobsAfter, IssuedAfter, Queued, Taken, Started, Ended;
  }

  // ---------------------------------------------------------------- the whole way of a job

  /** All that is left of the job's work are its rows on their way to be saved. */
  ghost predicate OnlySaves(s: State, j: JobId) {
    && (forall t | t in s.tasks && Mentions(t, j) :: t.ShatterJobRows? || t.Save?)
    && (forall w | w in s.workers :: w.job != j)
  }

  lemma SavesAreSaves(rows: seq<RowTask>)
    ensures forall t | t in SavesOf(rows) :: t.Save?
  {
    var saves := MapSeq(rows, (row: RowTask) => Save(row, 0));
    forall t | t in SavesOf(rows) ensures t.Save? {
      assert t in multiset(saves);
      var i :| 0 <= i < |saves| && saves[i] == t;
    }
  }

  lemma OnlySavingServes(s: State, step: Step, j: JobId)
    requires OnlySaves(s, j) && CanServe(s, step, j)
    ensures step.RunShatter? || step.RunSave?
  {
    hide AreFresh, Lossless;
    match step
    case StartJob(_, _, _, _) => assert Mentions(ProcessJob(j), j);
    case ResumeJob(_) => assert Resuming(j).job == j;
    case MarkJob(_) => assert Marking(j).job == j;
    case FindMissing(_) => assert Repairing(j).job == j;
    case _ =>
  }

  lemma SavingQueuesSaves(s: State, step: Step)
    requires Enabled(s, step) && (step.RunShatter? || step.RunSave?)
    ensures forall t | t in Queued(s, step) :: t.Save?
    ensures JobsAfter(s, step) == s.jobs
  {
    hide SavesOf, SaveIsRetried;
    if step.RunShatter? {
      SavesAreSaves(step.rows);
    }
  }

  /** Saving rows leaves all jobs as they are. */
  lemma SavingChangesNoJob(s: State, step: Step, j: JobId)
    requires OnlySaves(s, j) && CanServe(s, step, j)
    ensures OnlySaves(After(s, step), j) && After(s, step).jobs == s.jobs
  {
    hide Lossless, Serves, Mentions, JobsAfter, NotificationsAfter, IssuedAfter, Queued, Started, Ended, Taken, Enabled;
    OnlySavingServes(s, step, j);
    WorkersStay(s, step);
    SavingQueuesSaves(s, step);
  }

  lemma {:induction false} SettleBySaving(s: State, j: JobId) returns (steps: seq<Step>)
    requires Inv(s) && j in s.jobs && OnlySaves(s, j)
    ensures IsRun(s, steps) && AllLossless(steps)
    ensures Settled(AfterRun(s, steps), j) && AfterRun(s, steps).jobs == s.jobs
    decreases Work(s, j)
  {
    hide Inv, Enabled, After, Settled, Lossless, Work, Serves, BringsWork, OnlySaves, IsRun, AfterRun;
    EmptyRun(s);
    if Settled(s, j) {
      steps := [];
    } else {
      var step := StepThatServes(s, j);
      ServesBringsNothing(step, j);
      StepsLowerWork(s, step, j);
      StepKeepsInv(s, step);
      SavingChangesNoJob(s, step, j);
      var rest := SettleBySaving(After(s, step), j);
      LosslessCons(s, step, rest);
      steps := [step] + rest;
    }
  }

  /** From the start of a pending job: a run in which all its rows are queued, the job is completed, and
      everything is saved. */
  lemma PendingJobCanFinish(s: State, j: JobId, job: Job, start: Instant, finish: Instant) returns (steps: seq<Step>)
    requires Inv(s) && Holds(s, j, job, multiset{ProcessJob(j)}, multiset{})
    requires job.status == Pending && job.notificationCount > 0
    ensures IsRun(s, steps) && AllLossless(steps)
    ensures var after := AfterRun(s, steps);
            && Settled(after, j) && j in after.jobs
            && after.jobs[j] == job.(status := Finished, processingStarted := Some(start),
                                     processingFinished := Some(finish))
            && RowsOfJob(after, j) == RowNumbers(job.notificationCount)
  {
    hide Inv, Enabled, After, Settled, OnlySaves, IsRun, AfterRun, AllRows, RowsOfJob, RowNumbers, AreFresh, Mentions,
         Lossless, RowTasks;
    var rows := AllRows(job.notificationCount);
    AllRowsLength(job.notificationCount);
    var a := StartJob(j, start, true, true);
    StartSendsAll(s, start, j, job, multiset{ProcessJob(j)}, multiset{});
    StepKeepsInv(s, a);
    var s1 := After(s, a);
    var begun := job.(status := InProgress, processingStarted := Some(start));
    var ids := FreshIds(s1, |rows|);
    var b := QueueRows(Sending(j, rows), ids);
    HeldWorkers(s1, j, begun, multiset{}, multiset{Sending(j, rows)});
    QueueSendsAll(s1, j, begun, multiset{}, multiset{Sending(j, rows)}, rows, ids);
    StepKeepsInv(s1, b);
    var s2 := After(s1, b);
    var tasks := multiset{ShatterJobRows(RowTasks(j, rows, ids))};
    assert multiset{} + tasks == tasks;
    var c := CompleteJob(Sending(j, []), finish);
    CompleteFinishes(s2, finish, j, begun, tasks, multiset{Sending(j, [])});
    StepKeepsInv(s2, c);
    var s3 := After(s2, c);
    OnlySavesLeft(s3, j, begun.(status := Finished, processingFinished := Some(finish)), tasks);
    var rest := SettleBySaving(s3, j);
    SimpleStepsAreLossless(a, b, c);
    LosslessCons(s2, c, rest);
    LosslessCons(s1, b, [c] + rest);
    LosslessCons(s, a, [b] + ([c] + rest));
    StartedJobGetsAllRows(s1, [b] + ([c] + rest), j);
    steps := [a] + ([b] + ([c] + rest));
  }

  lemma HeldWorkers(s: State, j: JobId, job: Job, tasks: multiset<Task>, workers: multiset<Worker>)
    requires Holds(s, j, job, tasks, workers)
    ensures forall w: Worker | w.job == j && w in workers :: w in s.workers
  {
    hide Mentions;
  }

  lemma OnlySavesLeft(s: State, j: JobId, job: Job, tasks: multiset<Task>)
    requires Holds(s, j, job, tasks, multiset{})
    requires forall t | t in tasks :: t.ShatterJobRows?
    ensures OnlySaves(s, j)
  {
    hide Mentions;
    forall t | t in s.tasks && Mentions(t, j) ensures t.ShatterJobRows? {
      assert t in tasks;
    }
  }

  lemma SimpleStepsAreLossless(a: Step, b: Step, c: Step)
    requires a.StartJob? && b.QueueRows? && c.CompleteJob?
    ensures Lossless(a) && Lossless(b) && Lossless(c)
  {
  }

  lemma Associative<T>(a: seq<T>, b: seq<T>, last: T)
    ensures a + (b + [last]) == (a + b) + [last]
  {
  }

  lemma {:induction false} RunAppend(s: State, first: seq<Step>, second: seq<Step>)
    requires IsRun(s, first) && IsRun(AfterRun(s, first), second)
    ensures IsRun(s, first + second) && AfterRun(s, first + second) == AfterRun(AfterRun(s, first), second)
  {
    hide Enabled, After;
    if second == [] {
      assert first + second == first;
    } else {
      var front, last := second[..|second| - 1], second[|second| - 1];
      RunAppend(s, first, front);
      RunSnoc(s, first + front, last);
      assert second == front + [last];
      Associative(first, front, last);
    }
  }

  /** The whole way of a scheduled job: from every state, a new job can be created for later, made pending
      once its time has come, sent, completed, and marked by a sweep more than 20 minutes and less
      than a day after that, with one notification for each of its rows and no work left. */
  lemma JobCanFinish(s: State, j: JobId, n: nat, at: Instant, start: Instant, finish: Instant, sweep: Instant)
      returns (steps: seq<Step>)
    requires Inv(s) && j !in s.jobs && n > 0 && at < start
    requires finish + 20 * MINUTE < sweep < finish + 24 * HOUR
    ensures |steps| >= 2 && steps[0] == CreateJob(j, n, Some(at)) && steps[1] == Step.RunScheduledJobs(start)
    ensures IsRun(s, steps) && AllLossless(steps)
    ensures var after := AfterRun(s, steps);
            && j in after.jobs
            && after.jobs[j] == Job(FinishedAllNotificationsCreated, n, Some(at), Some(start), Some(finish))
            && RowsOfJob(after, j) == RowNumbers(n) && Settled(after, j)
  {
    hide Inv, Enabled, After, IsRun, AfterRun, RowsOfJob, RowNumbers, Mentions;
    var a, b := CreateJob(j, n, Some(at)), Step.RunScheduledJobs(start);
    CreatedForLater(s, j, n, at);
    StepKeepsInv(s, a);
    var s1, job := After(s, a), Job(Scheduled, n, Some(at), None, None);
    ScheduleStarts(s1, start, j, job, multiset{}, multiset{});
    ScheduleIsEnabled(s1, start);
    StepKeepsInv(s1, b);
    assert multiset{} + multiset{ProcessJob(j)} == multiset{ProcessJob(j)};
    var s2 := After(s1, b);
    var sends := PendingJobCanFinish(s2, j, job.(status := Pending), start, finish);
    RunKeepsInv(s2, sends);
    var s3 := AfterRun(s2, sends);
    assert 0 in RowNumbers(n);
    var marks := SweptJobIsMarked(s3, sweep, j);
    RunAppend(s2, sends, marks);
    AppendLossless(sends, marks);
    LosslessCons(s1, b, sends + marks);
    LosslessCons(s, a, [b] + (sends + marks));
    steps := [a] + ([b] + (sends + marks));
    SameRows(s3, AfterRun(s3, marks), j);
    SettledAsHeld(s3, AfterRun(s3, marks), j, s3.jobs[j].(status := FinishedAllNotificationsCreated));
  }

  lemma ScheduleIsEnabled(s: State, now: Instant)
    ensures Enabled(s, Step.RunScheduledJobs(now)) && Lossless(Step.RunScheduledJobs(now))
    ensures forall j, n, at :: Lossless(CreateJob(j, n, at))
  {
  }

  lemma AppendLossless(first: seq<Step>, second: seq<Step>)
    requires AllLossless(first) && AllLossless(second)
    ensures AllLossless(first + second)
  {
    hide Lossless;
  }

  lemma SameRows(s: State, s': State, j: JobId)
    requires s'.notifications == s.notifications
    ensures RowsOfJob(s', j) == RowsOfJob(s, j)
  {
  }

  lemma SettledAsHeld(s: State, s': State, j: JobId, job: Job)
    requires Settled(s, j) && Holds(s', j, job, s.tasks, s.workers)
    ensures Settled(s', j)
  {
    hide Mentions;
    forall t | t in s'.tasks ensures !Mentions(t, j) {
      assert Mentions(t, j) ==> s'.tasks[t] == s.tasks[t];
    }
  }

  /** The same for a job that is sent at once, up to its completion. */
  lemma NewJobCanFinish(s: State, j: JobId, n: nat, start: Instant, finish: Instant) returns (steps: seq<Step>)
    requires Inv(s) && j !in s.jobs && n > 0
    ensures steps != [] && steps[0] == CreateJob(j, n, None) && IsRun(s, steps) && AllLossless(steps)
    ensures var after := AfterRun(s, steps);
            && Settled(after, j) && j in after.jobs
            && after.jobs[j] == Job(Finished, n, None, Some(start), Some(finish))
            && RowsOfJob(after, j) == RowNumbers(n)
  {
    hide Inv, Enabled, After, IsRun, AfterRun, RowsOfJob, RowNumbers, Mentions, Settled;
    var a := CreateJob(j, n, None);
    CreatedForNow(s, j, n);
    StepKeepsInv(s, a);
    var rest := PendingJobCanFinish(After(s, a), j, Job(Pending, n, None, None, None), start, finish);
    ScheduleIsEnabled(s, start);
    LosslessCons(s, a, rest);
    steps := [a] + rest;
  }

  /** The way of a job that got stuck: from every state, a run that begins with the check of the jobs' status
      makes an error of it, resumes it, and creates every row above the highest one that it had. */
  lemma StuckJobGoesOn(s: State, now: Instant, j: JobId) returns (steps: seq<Step>)
    requires Inv(s) && j in s.jobs && Stuck(s.jobs[j], now)
    ensures steps != [] && steps[0] == Step.CheckJobStatus(now) && IsRun(s, steps) && AllLossless(steps)
    ensures var after := AfterRun(s, steps);
            && Settled(after, j)
            && forall row: nat | row < s.jobs[j].notificationCount ::
                 row in RowsOfJob(after, j) || exists last :: last in RowsOfJob(s, j) && row < last
  {
    hide Inv, Enabled, After, IsRun, AfterRun, RowsOfJob, Mentions, Settled, Stuck, Covered, RowsToResume, Created,
         Lossless, WorkerCovers;
    var job, a := s.jobs[j], Step.CheckJobStatus(now);
    var stuck := CheckRestarts(s, now, j, job, s.tasks, s.workers);
    ResumingIsLossless(s, now, stuck, j);
    StepKeepsInv(s, a);
    var s1, failed := After(s, a), job.(status := Error);
    var b := StartIncomplete(stuck, now);
    RestartResumes(s1, now, stuck, j, failed, s1.tasks, s1.workers);
    StepKeepsInv(s1, b);
    var s2, again := After(s1, b), failed.(status := InProgress, processingStarted := Some(now));
    ResumeSendsTheRest(s2, j, again, s2.tasks, s2.workers);
    StepKeepsInv(s2, ResumeJob(j));
    var s3 := After(s2, ResumeJob(j));
    var rest := EveryJobCanSettle(s3, j);
    LosslessCons(s2, ResumeJob(j), rest);
    LosslessCons(s1, b, [ResumeJob(j)] + rest);
    LosslessCons(s, a, [b] + ([ResumeJob(j)] + rest));
    steps := [a] + ([b] + ([ResumeJob(j)] + rest));
    HeldWorkers(s2, j, again, s1.tasks - multiset{ProcessIncompleteJobs(stuck)}, s1.workers + multiset{Resuming(j)});
    CheckAddsNothing(s, now, stuck);
    SameRows(s, s2, j);
    RunKeepsInv(s, steps);
    RowsStay(s, AfterRun(s, steps), j);
    forall row: nat | row < job.notificationCount && row !in RowsOfJob(AfterRun(s3, rest), j)
      ensures exists last :: last in RowsOfJob(s, j) && row < last
    {
      ResumedRowIsCreated(s2, s3, rest, j, row);
    }
  }

  lemma ResumingIsLossless(s: State, now: Instant, stuck: set<JobId>, j: JobId)
    ensures Enabled(s, Step.CheckJobStatus(now))
    ensures Lossless(Step.CheckJobStatus(now)) && Lossless(StartIncomplete(stuck, now)) && Lossless(ResumeJob(j))
  {
  }

  lemma CheckAddsNothing(s: State, now: Instant, stuck: set<JobId>)
    requires Enabled(After(s, Step.CheckJobStatus(now)), StartIncomplete(stuck, now))
    ensures After(After(s, Step.CheckJobStatus(now)), StartIncomplete(stuck, now)).notifications == s.notifications
  {
    hide JobsAfter, IssuedAfter, Queued, Taken, Started, Ended, Enabled;
  }

  /** A row above the highest one that the job had when it was resumed is created in the end. */
  lemma ResumedRowIsCreated(s: State, s': State, rest: seq<Step>, j: JobId, row: nat)
    requires Inv(s) && Inv(s') && j in s.jobs && j in s'.jobs && row < s.jobs[j].notificationCount
    requires s'.jobs[j].notificationCount == s.jobs[j].notificationCount
    requires Sending(j, RowsToResume(s, j, s.jobs[j].notificationCount)) in s'.workers
    requires IsRun(s', rest) && AllLossless(rest) && Settled(AfterRun(s', rest), j)
    ensures row in RowsOfJob(AfterRun(s', rest), j) || exists last :: last in RowsOfJob(s, j) && row <= last
  {
    hide Inv, IsRun, AfterRun, RowsOfJob, Settled, Lossless, AllRows, RowsToResume, LastRow, Created, Covered,
         WorkerCovers;
    if forall last | last in RowsOfJob(s, j) :: last < row {
      var rows := RowsToResume(s, j, s.jobs[j].notificationCount);
      RowIsResumed(s, j, row);
      SendingCovers(j, rows, row);
      CoveredByWorker(s', Sending(j, rows), RowRef(j, row));
      LosslessRunKeepsCovered(s', rest, RowRef(j, row));
      SettledRowsAreCreated(AfterRun(s', rest), RowRef(j, row));
      CreatedIsARow(AfterRun(s', rest), j, row);
    }
  }

  lemma SendingCovers(j: JobId, rows: seq<nat>, row: nat)
    requires row in rows
    ensures WorkerCovers(Sending(j, rows), RowRef(j, row))
  {
  }

  lemma CoveredByWorker(s: State, w: Worker, ref: RowRef)
    requires w in s.workers && WorkerCovers(w, ref)
    ensures Covered(s, ref)
  {
  }

  lemma RowsStay(s: State, s': State, j: JobId)
    requires Grows(s, s')
    ensures RowsOfJob(s, j) <= RowsOfJob(s', j)
  {
    forall row | row in RowsOfJob(s, j) ensures row in RowsOfJob(s', j) {
      var id :| id in IdsOfJob(s, j) && s.notifications[id].row == row;
      assert id in IdsOfJob(s', j);
    }
  }

  lemma RowIsResumed(s: State, j: JobId, row: nat)
    requires j in s.jobs && row < s.jobs[j].notificationCount
    requires forall last | last in RowsOfJob(s, j) :: last < row
    ensures row in RowsToResume(s, j, s.jobs[j].notificationCount)
  {
    hide RowsOfJob, Filter, AllRows;
    var n, last := s.jobs[j].notificationCount, LastRow(s, j);
    assert last < row;
    AllRowsHold(n, row);
    FilterContains<nat>(AllRows(n), RowsAfter(last), row);
  }

  lemma AllRowsHold(n: nat, row: nat)
    requires row < n
    ensures row in AllRows(n)
  {
    assert AllRows(n)[row] == row;
  }

  lemma CreatedIsARow(s: State, j: JobId, row: nat)
    requires Created(s, RowRef(j, row))
    ensures row in RowsOfJob(s, j)
  {
    var id :| id in s.notifications && s.notifications[id] == RowRef(j, row);
    assert id in IdsOfJob(s, j);
  }

  // ---------------------------------------------------------------- losses and repetitions

  /** The row is the only one of its job, and its save task is all that is left of it. */
  ghost predicate OneTaskLeft(s: State, row: RowTask) {
    && Inv(s) && row.ref.job in s.jobs && s.jobs[row.ref.job].notificationCount == 1
    && RowsOfJob(s, row.ref.job) == {} && (forall w | w in s.workers :: w.job != row.ref.job)
    && s.tasks == multiset{Save(row, 0)}
  }

  /** Why nothing may be lost: such a state can be, and if the task is lost, the job is settled with its row
      missing. */
  lemma LostTaskLosesItsRow(j: JobId, id: NotificationId) returns (s: State)
    ensures var row := RowTask(id, RowRef(j, 0));
            && OneTaskLeft(s, row) && Enabled(s, Lose(Save(row, 0)))
            && Settled(After(s, Lose(Save(row, 0))), j) && RowsOfJob(After(s, Lose(Save(row, 0))), j) == {}
  {
    hide After, Enabled, Inv, RowsOfJob;
    var row := RowTask(id, RowRef(j, 0));
    s := State(map[j := Job(InProgress, 1, None, Some(0), None)], map[], map[id := row.ref], multiset{Save(row, 0)},
               multiset{});
    OneTaskIsOk(s, row);
    LoseIs(s, Save(row, 0));
    SameRows(s, After(s, Lose(Save(row, 0))), j);
  }

  lemma OneTaskIsOk(s: State, row: RowTask)
    requires s == State(map[row.ref.job := Job(InProgress, 1, None, Some(0), None)], map[], map[row.id := row.ref],
                        multiset{Save(row, 0)}, multiset{}) && row.ref.row == 0
    ensures OneTaskLeft(s, row)
  {
  }

  lemma LoseTakes(s: State, t: Task)
    requires t in s.tasks
    ensures Enabled(s, Lose(t)) && Taken(Lose(t)) == multiset{t} && Queued(s, Lose(t)) == multiset{}
    ensures Ended(Lose(t)) == Started(s, Lose(t)) == multiset{}
  {
  }

  lemma LoseIs(s: State, t: Task)
    requires t in s.tasks
    ensures Enabled(s, Lose(t)) && After(s, Lose(t)) == s.(tasks := s.tasks - multiset{t})
  {
    hide Taken, Queued, Ended, Started;
    LoseTakes(s, t);
    NothingTaken(s.tasks - multiset{t}, multiset{});
    NothingTaken(s.workers, multiset{});
  }

  lemma SaveIs(s: State, row: RowTask, retries: nat)
    requires Save(row, retries) in s.tasks && (row.id in s.notifications || !Created(s, row.ref))
    ensures Enabled(s, RunSave(row, retries, false))
    ensures After(s, RunSave(row, retries, false))
         == s.(notifications := if row.id in s.notifications then s.notifications
                                else s.notifications[row.id := row.ref],
               tasks := s.tasks - multiset{Save(row, retries)})
  {
    hide Created, Started, Ended, Queued, Taken;
    var step, rest := RunSave(row, retries, false), s.tasks - multiset{Save(row, retries)};
    WorkersStay(s, step);
    SaveTakesAndQueues(s, row, retries);
    NothingTaken(s.workers, multiset{});
    NothingTaken(rest, multiset{});
  }

  lemma SaveTakesAndQueues(s: State, row: RowTask, retries: nat)
    requires Save(row, retries) in s.tasks && (row.id in s.notifications || !Created(s, row.ref))
    ensures Enabled(s, RunSave(row, retries, false))
    ensures Taken(RunSave(row, retries, false)) == multiset{Save(row, retries)}
    ensures Queued(s, RunSave(row, retries, false)) == multiset{}
  {
    hide Created;
  }

  /** A save that fails for another reason than its id is queued once more, with one retry more, up to five;
      nothing else changes. */
  lemma FailedSaveIsRetried(s: State, row: RowTask, retries: nat)
    requires Save(row, retries) in s.tasks
    ensures var step := RunSave(row, retries, true);
            && Enabled(s, step)
            && After(s, step)
               == s.(tasks := s.tasks - multiset{Save(row, retries)}
                              + if row.id !in s.notifications && retries < 5
                                then multiset{Save(row, retries + 1)} else multiset{})
  {
    hide Created, Started, Ended;
    WorkersStay(s, RunSave(row, retries, true));
    NothingTaken(s.workers, multiset{});
  }

  lemma RedeliverIs(s: State, t: Task)
    requires t in s.tasks
    ensures Enabled(s, Redeliver(t)) && After(s, Redeliver(t)) == s.(tasks := s.tasks + multiset{t})
  {
    NothingTaken(s.tasks, multiset{t});
    NothingTaken(s.workers, multiset{});
  }

  /** A save task that is delivered twice can run twice: the first run creates the notification, and the second
      changes nothing and queues nothing. */
  lemma DeliveredTwiceSavesOnce(s: State, row: RowTask, retries: nat)
    requires Inv(s) && Save(row, retries) in s.tasks && !Created(s, row.ref)
    ensures var t, save := Save(row, retries), RunSave(row, retries, false);
            var twice := After(s, Redeliver(t));
            && Enabled(twice, save) && Enabled(After(twice, save), save)
            && After(twice, save).notifications == s.notifications[row.id := row.ref]
            && After(After(twice, save), save)
               == s.(notifications := s.notifications[row.id := row.ref], tasks := s.tasks - multiset{t})
  {
    hide Inv, After, Enabled, Created;
    var t, save := Save(row, retries), RunSave(row, retries, false);
    RedeliverIs(s, t);
    var twice := After(s, Redeliver(t));
    NewIdIsUnused(s, row, retries);
    assert twice.notifications == s.notifications;
    SameNotifications(s, twice, row.ref);
    SaveIs(twice, row, retries);
    SaveIs(After(twice, save), row, retries);
  }

  lemma NewIdIsUnused(s: State, row: RowTask, retries: nat)
    requires Inv(s) && Save(row, retries) in s.tasks && !Created(s, row.ref)
    ensures row.id !in s.notifications
  {
    hide AllCreated, WorkerOk;
    assert TaskOk(s, Save(row, retries));
    assert row.id in s.notifications ==> RowTaskOk(s, RowTask(row.id, s.notifications[row.id]));
  }

  lemma SameNotifications(s: State, s': State, ref: RowRef)
    requires s'.notifications == s.notifications
    ensures Created(s', ref) == Created(s, ref)
  {
  }

  lemma CancelQueuesNothing(s: State, j: JobId)
    requires Enabled(s, CancelLetterJob(j))
    ensures var step := CancelLetterJob(j);
            Taken(step) == Queued(s, step) == multiset{} && Ended(step) == Started(s, step) == multiset{}
  {
    hide Enabled;
  }

  /** A finished letter job that is cancelled keeps its notifications, and only its status changes. */
  lemma CancelledLetterJob(s: State, j: JobId)
    requires j in s.jobs && s.jobs[j].status == FinishedAllNotificationsCreated
    ensures Enabled(s, CancelLetterJob(j))
    ensures After(s, CancelLetterJob(j)) == s.(jobs := s.jobs[j := s.jobs[j].(status := Cancelled)])
  {
    hide Taken, Queued, Ended, Started;
    CancelQueuesNothing(s, j);
    NothingTaken(s.tasks, multiset{});
    NothingTaken(s.workers, multiset{});
  }
}
