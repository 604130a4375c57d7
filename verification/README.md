# A verified model of notifications-api

notifications-api sends text messages, emails and letters for services, bills them, and keeps
their history. This project models four of its parts as Dafny programs and proves what they
promise, for all inputs, all orders in which the database may return rows, and all runs.

* **Billing** (`LondonTime`, `Rates`, `Allowance`, `Usage`, `UsageReports`, `FactBilling`,
  `FtBillingTable`, `FactColumns`, `Reporting`, `LetterDespatch`, `StatusFacts`). Tables are maps
  from their primary key, query results are sequences. The window function that spends the free SMS
  allowance is modelled as it is written, over a scan in date order with ties in any order; grouping,
  UNION, upsert and delete-then-insert are functions on tables, and the methods that write are
  methods of a class. `FactColumns` and `UsageReports` state what is written and what is reported in
  the columns of the notifications, the rates and the facts, without the functions that compute it.
* **Archival** (`Archive`, `Aggregates`). The live table and the history are sequences of rows; a
  batch takes the oldest eligible rows, with ties broken in any way; a chain of tasks queues
  itself until nothing is left. `Aggregates` proves that billing, despatch and status facts come
  out the same after any run of batches.
* **Bulk jobs** (`Shatter`, `JobPipeline`, `JobRuns`, `JobLifecycle`). Rows are batched, halved when
  a message is too large, and saved by tasks that may be lost, repeated, delayed or retried.
  `JobPipeline` is a state machine with one step for each call that commits or queues, together with
  the reads that it depends on: the start of process_job reads the status and commits in one step, and
  check_job_status selects and writes all its jobs in one. Its theorems hold for every run.
  `JobRuns` shows that runs end: work that is served runs out, every job can be finished without a
  loss, and the batching of `Shatter` is a run of the machine. `JobLifecycle` states what each step
  does in the columns of a job, and takes a job all the way from its creation to its mark.
* **Providers and receipts** (`Providers`, `Receipts`). The controller that moves the priorities
  of the SMS providers under time guards, and the status of a message under sends, receipts,
  timeouts and failures, both over every run.

`Collections` holds sums, filters and groupings, and `Schema` the columns that are shared. Dates
count days, instants count microseconds. Money and rates are of type `real`.

Where something promised does not hold as it stands, the model keeps the code as it is, and the
exact condition is proved:

* The usage queries assume one rate for each date. What they need is less: the cost is independent
  of the order of rows if and only if no date on which the allowance runs out has two rates
  (`Allowance.YearCostIsDetermined`). Over all runs with a fixed rate table it holds for a date if
  and only if the newest rate of the date is unique
  (`FtBillingTable.CostsAreDeterminedInEveryRunIff`).
* The annual and the monthly report break ties independently too. All other columns agree in every
  order; the costs do if and only if no date on which the allowance runs out has two rates
  (`Usage.AnnualAndMonthlyCostsAgreeIff`).
* Rebuilding a day on which no billable notification is left does not remove its facts: the update
  returns before it commits, and the deletion is rolled back
  (`FtBillingTable.RebuildKeepsItsPromiseIff`). A deletion for an empty list of services deletes
  for all services.
* The nightly upsert leaves facts that no notification supports any more
  (`FtBillingTable.NightlyUpdateIsExactIff`).
* The key of a letter fact holds the rate but not the sheet count, so two sheet counts with one
  rate make the insert fail (`FtBillingTable.KeyRepeatsIff`).
* `crown or True` ignores a crown argument that is false (`Rates.CrownHasNoEffect`).
* The all-services report and the single-service query differ for a service without an allowance
  row, unless it has no units (`Usage.WithoutAllowanceTheyAgreeOnlyOnNothing`).
* The costs of those two queries, which break ties independently, agree in every order only under
  the same condition (`Usage.AllServicesCostAgreesIff`).
* Two functions disagree about the current financial year in the first London hour of 1 April
  (`LondonTime.CurrentFinancialYearAgrees`).
* The docstring of the archiving query says that its rows have no specified order; the query
  orders them by creation time, and the model follows the query.
* Letter-despatch facts count test letters, so deleting test notifications can change them
  (`Aggregates.RunKeepsLettersIff`).
* A finished job without any notification is in neither list of the sweep
  (`JobPipeline.SweepFinds`).
* With three active providers a reduction can leave the sum of 100
  (`Providers.ReductionKeepsSumIff`).
* The send of an inactive service overwrites a final status (`Receipts.FinalStatusChangesIff`).
* The completion of a send looks at the status that was loaded before the provider was called, so
  it overwrites a receipt that arrived in between (`Receipts.ReceiptBeforeCompletionIsLost`). The
  first final status is safe if and only if no send is outstanding
  (`Receipts.FinalStatusIsSafeIff`).

## Model

| member | source | states |
|---|---|---|
| `LondonTime.LondonDaysTile` | app/utils.py:81-88 | an instant has a given London date exactly when it lies between that date's midnight in UTC and the next one |
| `LondonTime.MidnightReadsMidnight` | app/utils.py:81-88 | the London wall clock reads midnight at the UTC instant returned for a date, and at no other instant |
| `LondonTime.MidnightsOrdered` | app/utils.py:81-88 | a London day lasts 23 hours on the last Sunday of March, 25 on the last Sunday of October and 24 on every other day |
| `LondonTime.MidnightsIncrease` | app/utils.py:81-88 | midnights of later days are later, by at least 23 hours a day |
| `LondonTime.AprilFoolsIsInSummerTime` | app/dao/date_util.py:37-46 | 1 April starts in summer time every year, one hour before midnight UTC |
| `LondonTime.FinancialYearDatesAre` | app/dao/date_util.py:23-26 | the dates of a financial year run from 1 April to the day before the next 1 April |
| `LondonTime.FinancialYearsTile` | app/dao/date_util.py:19-20 | every instant lies in the financial year that is chosen for it, up to its last microsecond, and in no other |
| `LondonTime.FinancialYearOfLondonDate` | app/dao/fact_billing_dao.py:44-46 | the year chosen for a start date, through its London midnight, is the one whose dates contain it |
| `LondonTime.CurrentFinancialYearAgrees` | app/dao/date_util.py:29-34 | choosing the current year by the UTC month disagrees with choosing it by the instant exactly in the first London hour of 1 April |
| `LondonTime.MonthOfIs` | app/dao/fact_billing_dao.py:323 | the month that a date is truncated to is the one that it lies in, and no other |
| `LondonTime.MonthLengths` | app/dao/fact_billing_dao.py:323 | the months of a year follow each other with their 28 to 31 days and fill the year |
| `LondonTime.EndsOfMonths` | app/dao/date_util.py:37-46 | 1 April is the day after the last of March, and the clocks go by the last days of March and October |
| `LondonTime.ClocksIn2018` | tests/app/test_utils.py:45-64 | the days around the clock changes of 2018 start when the calendar of that year says; the tests give those of the spring |
| `Allowance.AllowanceConserved` | app/dao/fact_billing_dao.py:427-456 | each row splits into a free and a charged part; free units used add up to min(allowance, total) and charged units to max(total - allowance, 0), in any order of the rows |
| `Allowance.ChargedOnDate` | app/dao/fact_billing_dao.py:427-478 | the units charged on a date are what the units up to it exceed the allowance by, less what the units before it do |
| `Allowance.ChargedOnDateIsDetermined` | app/dao/fact_billing_dao.py:423-478 | units charged on a date do not depend on how the rows of one date are ordered |
| `Allowance.CostOnDateIsDetermined` | app/dao/fact_billing_dao.py:423-478 | nor does the cost charged on a date, under the condition CostIsDetermined |
| `Allowance.YearCostIsDetermined` | app/dao/fact_billing_dao.py:423-425 | the cost of the year is the same in every order of the rows that the dates allow, if and only if no date on which the allowance is spent in part has two rates: the exact form of the assumption of one rate a day |
| `Allowance.RangeCostIsDetermined` | app/dao/fact_billing_dao.py:423-478 | the same for the cost of any range of dates |
| `Allowance.UndeterminedDate` | app/dao/fact_billing_dao.py:423-425 | where the condition fails, two orders of one date give the year different costs and every other date the same |
| `Allowance.OrdersWithDifferentCosts` | app/dao/fact_billing_dao.py:423-425 | when the condition fails, two orders of the date's rows with different costs are given |
| `Usage.PartitionIsTheServiceAlone` | app/dao/fact_billing_dao.py:94-110 | partitioning the window by service gives each service the rows it would have on its own |
| `Usage.AllServicesAgreesWithSingleService` | app/dao/fact_billing_dao.py:44-164 | on any range of dates the all-services report has the allowance, the allowance left after the range, the units and the charged units of the single-service query, although each query breaks ties of a date in its own way |
| `Usage.AllServicesCostAgreesIff` | app/dao/fact_billing_dao.py:44-164 | the costs of the two queries agree in every order of the rows if and only if no date of the range on which the allowance is spent in part has two rates |
| `Usage.WithoutAllowanceTheyAgreeOnlyOnNothing` | app/dao/fact_billing_dao.py:86-164 | without an allowance row for the year the report charges all units at their rates and the single-service query shows nothing; in units, charged units and cost they agree exactly when the service has no units in range |
| `Usage.UnionDropsNoGroup` | app/dao/fact_billing_dao.py:258-278 | the UNION of the three notification types, which removes duplicates, removes no group |
| `Usage.ReportConserved` | app/dao/fact_billing_dao.py:258-278 | a report grouped by any key that keeps the types apart adds up to the usage rows below it in every column |
| `Usage.ReportAddsUpToFacts` | app/dao/fact_billing_dao.py:352-478 | whatever a report groups by and however it visits the facts, its columns add up to those of the texts, emails and letters in ft_billing: texts less the allowance, emails free, letters charged by the letter |
| `Usage.AnnualAndMonthlyAgree` | app/dao/fact_billing_dao.py:241-349 | the annual and the monthly report of the same facts have equal totals in every column but the cost, in whatever orders the two visit their rows |
| `Usage.AnnualAndMonthlyCostsAgreeIff` | app/dao/fact_billing_dao.py:241-349 | their totals agree in every column, in every order, if and only if the service has no allowance for the year or no date on which it is spent in part has two rates |
| `UsageReports.ReportedGroups` | app/dao/fact_billing_dao.py:258-278 | each row of a report adds up the facts of its group, of which there is one; it splits what they are charged by into a free part, for texts only, and a part that costs the rate; no two rows have a key in common and no group is missing |
| `UsageReports.AnnualRowsAre` | app/dao/fact_billing_dao.py:241-284 | the annual report has one such row for each type and rate of the facts |
| `UsageReports.MonthlyRowsAre` | app/dao/fact_billing_dao.py:317-349 | the monthly report has one row for each type, rate, postage and calendar month of the facts, which holds what the facts of just this month add up to |
| `UsageReports.MonthIsCharged` | app/dao/fact_billing_dao.py:317-349 | what the report charges for the texts of a month is how far the units up to its end exceed the allowance, less how far those before it do, in every order of the facts |
| `Rates.SmsRateIsTheNewest` | app/dao/fact_billing_dao.py:639-670 | the SMS rate is the one with the greatest start not after London midnight, and is missing only if none has started |
| `Rates.LetterRateIsTheNewest` | app/dao/fact_billing_dao.py:652-666 | the letter rate is the newest started one for the sheet count and postage |
| `Rates.SmsRateInColumns` | app/dao/fact_billing_dao.py:633-670 | the rate found for a text is that of the newest row for SMS that has started when the London day begins, the first one read if several start together; told from the columns of the table, in both directions |
| `Rates.LetterRateInColumns` | app/dao/fact_billing_dao.py:633-670 | the same for a letter: the newest crown row for its sheet count and postage, and nothing without sheets |
| `Rates.CrownHasNoEffect` | app/dao/fact_billing_dao.py:655-656 | the crown argument never has an effect, also when it is false |
| `Rates.SmsRateIsDeterminedIff` | app/dao/fact_billing_dao.py:633-670 | the SMS rate of a date is the same in every reading of the table, newest first, if and only if the rates that started last do not differ |
| `FactBilling.FetchedData` | app/dao/fact_billing_dao.py:496-630 | the day's data hold each group of billable notifications once, with its units and its count, and no other group |
| `FactBilling.FetchConserves` | app/dao/fact_billing_dao.py:496-630 | the data of a day add up to the units and the number of its billable notifications |
| `FtBillingTable.KeyRepeatsIff` | app/dao/fact_billing_dao.py:675-731 | one insert meets a key twice exactly when two letters of one group with different sheet counts have one rate |
| `FtBillingTable.RecordsAreTheFacts` | app/dao/fact_billing_dao.py:675-695 | the records made from the groups are the facts of the notifications priced one by one |
| `FtBillingTable.FtBillingStore.DeleteBillingDataForDay` | app/dao/fact_billing_dao.py:481-493 | deletes the day's facts of the given services, or of all services if the list is empty or missing, and returns how many they were |
| `FtBillingTable.FtBillingStore.UpdateFtBilling` | app/dao/fact_billing_dao.py:675-731 | inserts or updates the records and commits; with no data it returns without a commit |
| `FtBillingTable.FtBillingStore.CreateOrUpdateFtBillingForDay` | app/celery/reporting_tasks.py:66-84 | the nightly update of a day, up to what is committed |
| `FtBillingTable.FtBillingStore.RebuildFtBillingForDay` | app/commands.py:324-337 | the rebuild of a day, up to what is committed |
| `FtBillingTable.UpdateEndsIn` | app/dao/fact_billing_dao.py:675-731 | how a write ends, told from the notifications and rates: no data without a billable one, an error if one has no rate, an error if two letters collide, and otherwise a commit |
| `FtBillingTable.RebuildIsExact` | app/commands.py:324-337 | with a billable notification, a rate for each and no collision, a rebuild leaves exactly the grouped billable notifications of its day and services, and changes nothing else |
| `FtBillingTable.RebuildRollsBackIff` | app/commands.py:324-337 | in exactly the other cases it changes nothing |
| `FtBillingTable.RebuildKeepsItsPromiseIff` | app/commands.py:324-337 | with rates and without collisions the rebuilt facts are exact, unless the day has facts but no billable notification left |
| `FtBillingTable.StaleFactSurvivesRebuild` | app/dao/fact_billing_dao.py:675-677 | a fact whose notifications are all gone survives a rebuild of its day, because its deletion is rolled back |
| `FtBillingTable.NightlyUpdateIsExactIff` | app/dao/fact_billing_dao.py:675-731 | with rates and without collisions the nightly update makes a day exact if and only if each fact it finds still has a billable notification; other days stay |
| `FtBillingTable.NightlyUpdateIsIdempotent` | app/dao/fact_billing_dao.py:720-731 | a second nightly update with the same notifications changes nothing |
| `FtBillingTable.WritesKeepRates` | app/dao/fact_billing_dao.py:675-695 | over any run of updates and rebuilds, each of which reads the rate table in its own order, every SMS fact has a rate that was newest at the start of its day |
| `FtBillingTable.TwoReadingsLeaveTwoRates` | app/dao/fact_billing_dao.py:633-695 | where two newest rates differ, two nightly updates of a day that read them in different orders leave facts at both, and the cost of the day depends on their order |
| `FtBillingTable.CostsAreDeterminedInEveryRunIff` | app/dao/fact_billing_dao.py:423-425 | over all runs with one rate table, however it is read, the cost of a date is determined by the facts if and only if the newest rate of the date is unique |
| `FtBillingTable.CostsAreDeterminedInEveryRun` | app/dao/fact_billing_dao.py:423-425 | so, where the newest rate of a date is unique, the facts of every run satisfy the condition under which its cost does not depend on the order of the rows |
| `FactColumns.BilledAsByColumns` | app/dao/fact_billing_dao.py:528-623 | the fact that a write gives to a notification, in columns alone: it is billed on its London date, by its key type and a status of its type, and the fact repeats its own columns, coalesced, or the literals for emails and letters, at the newest started rate |
| `FactColumns.EndingByColumns` | app/dao/fact_billing_dao.py:675-731 | how a write ends, in columns alone: nothing billed, a billed notification without a rate, two sheet counts that meet in one fact, or a commit |
| `FactColumns.RebuildMatchesNotifications` | app/commands.py:324-337 | a rebuild that ends Updated leaves in its window exactly the facts of the billed notifications, each with the sums over just those that have its columns, and everything else as it was; otherwise nothing changes |
| `FactColumns.NightlyUpdateMatchesNotifications` | app/celery/reporting_tasks.py:66-84 | the same for the nightly update, which also keeps the old facts of the day: so the day matches exactly if and only if each of those has a billed notification |
| `FactColumns.ReportedUnitsAreTheTexts` | app/dao/fact_billing_dao.py:428 | once the facts of a day match, the chargeable units that the single-service query and the all-services report give for it are the sum over the billed texts of billable units times rate multiplier, 1 if missing; the report has a row exactly if there is a text |
| `FactColumns.WrittenTextsAreReported` | app/dao/fact_billing_dao.py:95 | so do the units reported after a nightly update or rebuild that ends Updated with exact facts: the write and the usage queries agree on the notifications |
| `FactColumns.RangeChargesTheTexts` | app/dao/fact_billing_dao.py:427-456 | over a range of days that match, such as a financial year, a service is charged exactly the units of its billed texts beyond the free allowance |
| `Reporting.CreateNightlyBilling` | app/celery/reporting_tasks.py:34-52 | queues a billing and a letter-despatch task for each of the days counting back from the first one, in this order, none twice and no others |
| `Reporting.EachNotificationHasOneDay` | app/celery/reporting_tasks.py:33-41 | a billable notification falls into exactly the reprocessed day that is its London date |
| `Reporting.ReprocessedDaysPartition` | app/celery/reporting_tasks.py:33-41 | the facts of the reprocessed days count each billable notification of those dates exactly once |
| `LetterDespatch.DespatchStore.UpdateFtBillingLetterDespatch` | app/dao/fact_billing_dao.py:734-841 | deletes the stale facts of the day, writes the new ones and returns both counts, or raises before it writes |
| `LetterDespatch.UpdateFailsIff` | app/dao/fact_billing_dao.py:781-801 | it raises exactly when some letter of the day has no rate or no postage |
| `LetterDespatch.DespatchUpdateIsExact` | app/dao/fact_billing_dao.py:803-841 | afterwards the day's facts are exactly the group counts, whatever was there; other days stay; the two counts are those of the facts that exist and of the facts that are gone |
| `LetterDespatch.DespatchUpdateIsIdempotent` | app/dao/fact_billing_dao.py:803-841 | a second run changes nothing and deletes nothing |
| `LetterDespatch.UpdateIgnoresOrder` | app/dao/fact_billing_dao.py:734-841 | the result does not depend on the order of the letters |
| `LetterDespatch.SentAddsUpToDespatchesIff` | app/dao/fact_billing_dao.py:743-780 | the sent counts add up to the day's despatch records that have a notification, if and only if no notification is in both tables with different postage or sheets |
| `LetterDespatch.DespatchFactsInColumns` | app/dao/fact_billing_dao.py:734-841 | told from the two tables, the despatch records and the rates alone: the day has exactly the facts with the postage, sheet count, cost threshold and newest rate of its letters, each with the number of those letters; it fails if and only if a letter has no such fact |
| `StatusFacts.StatusStore.UpdateFactNotificationStatus` | app/dao/fact_notification_status_dao.py:40-92 | deletes the rows of the day, type and service and inserts the grouped counts; a failed insert would roll back both |
| `StatusFacts.InsertedRows` | app/dao/fact_notification_status_dao.py:77-92 | an insert succeeds exactly when its keys are new and distinct, and then adds its rows |
| `StatusFacts.InsertNeverConflicts` | app/dao/fact_notification_status_dao.py:44-49 | after the deletion the insert never violates the primary key |
| `StatusFacts.StatusUpdateIsExact` | app/dao/fact_notification_status_dao.py:40-92 | each fact of the day, type and service becomes the count of its notifications; all others stay |
| `StatusFacts.StatusUpdateIgnoresOrder` | app/dao/fact_notification_status_dao.py:51-92 | the facts do not depend on the order in which the notifications are read |
| `StatusFacts.StatusUpdateIsIdempotent` | app/dao/fact_notification_status_dao.py:40-92 | a second update changes nothing |
| `StatusFacts.DeletionMakesRunsRepeatable` | app/dao/fact_notification_status_dao.py:44-49 | without the deletion a second run would fail, exactly when there is something to count |
| `StatusFacts.StatusCountsAddUp` | app/dao/fact_notification_status_dao.py:51-75 | the inserted counts add up to the notifications of the window |
| `StatusFacts.StatusFactsInColumns` | app/dao/fact_notification_status_dao.py:40-92 | told from the columns of the notifications: a fact of the window is there exactly if one was created on that London date with its template, job, key type and status, not with a test key, and is their number; other facts stay |
| `Archive.TakeOldest` | app/dao/notifications_dao.py:373-397 | as many candidates as the limit allows, none newer than one left out, ties broken in any way |
| `Archive.InsertedAre` | app/dao/notifications_dao.py:398-404 | the insert that does nothing on conflict adds the rows whose id is not in the history yet |
| `Archive.NotificationStore.InsertNotificationHistoryDeleteNotifications` | app/dao/notifications_dao.py:348-420 | one archiving batch: it holds rows of the service and type from before the limit, with a normal or team key and not letters on their way; one that is left out means that the batch is full and holds none newer; they are copied to the history and deleted by id, and their number is returned |
| `Archive.NotificationStore.MoveNotificationsToNotificationHistory` | app/dao/notifications_dao.py:423-438 | the same with at most 5,000 rows for letters |
| `Archive.NotificationStore.DeleteTestNotifications` | app/dao/notifications_dao.py:441-465 | one batch of the oldest eligible test notifications is deleted, without history |
| `Archive.NotificationStore.DeleteNotificationsForServiceAndType` | app/celery/nightly_tasks.py:195-228 | the chain of tasks ends, and a row is still live exactly if its service or type differs, it is not from before the limit, or it is a normal or team letter in pending-virus-check, created or sending; the rest keeps its order, the history gains the archived rows, and each kind of task runs ceil(rows / limit) + 1 times |
| `Archive.NotificationStore.DeleteTestNotificationsForServiceAndType` | app/celery/nightly_tasks.py:232-239 | the same for the chain that deletes test notifications: a row stays exactly if its service or type differs, it is not from before the limit, or it has no test key |
| `Archive.ChainKeepsRealRows` | app/celery/nightly_tasks.py:195-239 | a whole chain leaves no row of its scope but letters on their way, and keeps all rows of normal and team keys |
| `Archive.ArchiveKeepsViewIff` | app/dao/notifications_dao.py:398-418 | a batch changes no row of the combined view if and only if none of its ids is in the history already |
| `Archive.ArchiveKeepsIds` | app/dao/notifications_dao.py:398-418 | no id disappears from the two tables together, whatever the history held |
| `Archive.RunKeepsRealRows` | app/dao/notifications_dao.py:348-465 | over any run of batches no id is in both tables, rows of normal and team keys keep every column of the view, history rows never change, and letters in pending-virus-check, created or sending do not move |
| `Archive.StepInColumns` | app/dao/notifications_dao.py:374-377 | each batch of a run takes the oldest rows of its kind by their columns, and no other row leaves the live table |
| `Archive.OnlyOldRowsLeave` | app/dao/notifications_dao.py:451-456 | over any run of batches a row leaves the live table only if a purge of the run names its service and type and a later limit, of the kind of its key; and never as a letter on its way |
| `Archive.OnlyTestRowsVanish` | app/dao/notifications_dao.py:441-465 | a row that a run removes from both tables had a test key |
| `Archive.ArchivingRunKeepsView` | migrations/versions/0479_notifications_atv_union_all.py:17-75 | a run without test deletions leaves the whole UNION ALL view as it was |
| `Aggregates.SameBillingData` | app/dao/fact_billing_dao.py:515-630 | views with the same rows of normal and team keys have the same billing data |
| `Aggregates.AggregatesSurviveArchival` | app/dao/notifications_dao.py:63-87 | over any run of batches of any tasks, the nightly update, the rebuild and the status update of any window do exactly what they would have done before |
| `Aggregates.DespatchFactsSurviveArchival` | app/dao/fact_billing_dao.py:740-762 | over any run of batches that deletes no test letter despatched on its day so does the letter-despatch update |
| `Aggregates.TestBatchKeepsLettersIff` | app/dao/fact_billing_dao.py:740-762 | deleting test notifications keeps the letters of a despatch day if and only if none of them was despatched on it |
| `Aggregates.RunKeepsLettersIff` | app/dao/fact_billing_dao.py:740-762 | over any run of batches of any tasks the letters of a despatch day can only become fewer, and stay the same if and only if no test deletion took one that was despatched on it |
| `Shatter.Batched` | app/utils.py:58-66 | batches of n rows in order that make up the file; n below one, and in strict mode a short last batch, are the two errors |
| `Shatter.JobsQueue.ShatterJobRowsWithSubdivision` | app/celery/tasks.py:111-143 | sends a batch, and halves it when it is too large |
| `Shatter.JobsQueue.ShatterRows` | app/celery/tasks.py:101-106 | the batches of a file one after the other, until an exception |
| `Shatter.SubdivisionIsSound` | app/celery/tasks.py:111-143 | whatever the queue replies, the messages hold the rows up to some row, in order; all of them on success; after UnprocessableJobRow the next row was too large alone |
| `Shatter.SubdivisionIsBounded` | app/celery/tasks.py:111-143 | at most 2n - 1 attempts and n messages; a success with m messages took exactly 2m - 1 attempts |
| `Shatter.FileIsQueuedInOrder` | app/celery/tasks.py:101-133 | under a size limit every row of the file is queued once, in order, for every batch size, up to the first oversize row; the call fails exactly when there is one |
| `JobPipeline.StepKeepsInv` | app/celery/tasks.py:70-184 | every step of every task, and every loss and repetition, keeps the invariant |
| `JobPipeline.CountIsCompleteness` | app/dao/jobs_dao.py:243-253 | by the unique key the count of a job's notifications reaches its size if and only if they are those of all its rows |
| `JobPipeline.FinishedMeansComplete` | app/celery/scheduled_tasks.py:395-399 | in every run a job marked as finished with all notifications has exactly one for each of its rows, and no row ever has two |
| `JobPipeline.RetriesAreBounded` | app/celery/tasks.py:250-461 | in every run a save task has been retried at most five times |
| `JobPipeline.SweepFinds` | app/dao/jobs_dao.py:234-257 | which finished jobs the sweep puts into its two lists; one without any notification is in neither |
| `JobPipeline.SweepStarts` | app/celery/scheduled_tasks.py:395-411 | the sweep starts one repair for a job that finished 20 minutes to a day ago with some rows created and some not, one marking if all are created and there is one, and nothing for any other job |
| `JobPipeline.MissingIsComplement` | app/dao/jobs_dao.py:260-270 | the missing rows are exactly those without a notification, in ascending order |
| `JobPipeline.ResumeQueuesTheRest` | app/celery/tasks.py:483-500 | a resumed job queues exactly the rows above its highest created row |
| `JobPipeline.SweptJobGetsAllRows` | app/celery/scheduled_tasks.py:401-411 | a swept job ends with no missing row, and would be marked next, in every run that loses nothing and leaves no work for it |
| `JobPipeline.StartedJobGetsAllRows` | app/celery/tasks.py:101-108 | so does a job that has just been started |
| `JobRuns.StepsLowerWork` | app/celery/tasks.py:70-184 | a step that loses nothing never adds to the work for a job, unless a task of it is delivered again or a scheduled check runs; and each step that serves the job takes some away |
| `JobRuns.EveryRunSettles` | app/celery/tasks.py:70-184 | so every such run serves a job at most as often as its work says, and has settled it if and only if no step can serve it any more |
| `JobRuns.EveryJobCanSettle` | app/celery/tasks.py:70-184 | from every state that can occur, whatever work is left for a job, some run that loses nothing finishes that work |
| `JobRuns.SweptJobCanComplete` | app/celery/scheduled_tasks.py:401-411 | so the missing rows of a swept job, however many, can be brought to none |
| `JobLifecycle.SweptJobIsRepaired` | app/celery/scheduled_tasks.py:402-411 | from such a state some run that begins with the sweep and loses nothing leaves no row missing |
| `JobLifecycle.SweptJobIsMarked` | app/celery/scheduled_tasks.py:395-399 | with all rows created, the sweep and one more step mark the job, and change nothing else of it |
| `JobLifecycle.ScheduleStarts` | app/celery/scheduled_tasks.py:95-102 | the scheduled run makes a scheduled job pending and queues one task for it exactly if its time has come |
| `JobLifecycle.StartDecides` | app/celery/tasks.py:70-100 | the start of a job touches only a pending one: cancelled for an inactive service, stopped by the limits, or in progress with a worker for all its rows |
| `JobLifecycle.FailedSaveIsRetried` | app/celery/tasks.py:446-461 | a save that fails is queued again with one retry more, unless its id is there or it had five, and changes nothing else |
| `JobLifecycle.CheckRestarts` | app/celery/scheduled_tasks.py:239-281 | the check makes errors of the jobs that have been in progress, or pending since their time, for 30 to 35 minutes, queues one task that resumes exactly those, and leaves every other job as it is |
| `JobLifecycle.StuckJobGoesOn` | app/celery/tasks.py:464-500 | from every state some run that begins with the check, and loses nothing, resumes a stuck job and creates every row above the highest one that it had |
| `JobLifecycle.JobCanFinish` | app/celery/scheduled_tasks.py:95-411 | the whole way of a job: from every state a new scheduled job can be started in time, sent, completed, and marked by a sweep 20 minutes to a day later, with one notification for each row and no work left |
| `JobLifecycle.LostTaskLosesItsRow` | app/celery/tasks.py:446-461 | without the assumption that nothing is lost, all this fails: a job whose one save task is lost is settled with its row missing |
| `JobLifecycle.DeliveredTwiceSavesOnce` | app/celery/tasks.py:446-461 | a save task that is delivered twice can run twice, and the second run changes no notification and queues nothing |
| `JobLifecycle.NewJobCanFinish` | app/celery/tasks.py:70-108 | the same for a job that is sent at once, up to its completion |
| `JobRuns.MessagesAreSteps` | app/celery/tasks.py:101-106 | messages that hold the rows of a job in order, up to some row, are steps of its worker, with a task for each |
| `JobRuns.ProcessJobIsARun` | app/celery/tasks.py:70-143 | process_job with its recursive subdivision, whatever the queue replies, is a run of the pipeline: it starts the job, queues exactly the messages sent, and finishes the job if and only if all of them could be |
| `JobPipeline.CancelledInTimeNeverSends` | app/job/rest.py:60-65 | a job cancelled while scheduled stays cancelled and never gets a notification, whatever happens before or after |
| `JobLifecycle.CancelledLetterJob` | app/dao/jobs_dao.py:207-213 | a finished letter job that is cancelled changes its status and nothing else: no row of it loses its notification |
| `JobPipeline.JobStore.DaoSetScheduledJobsToPending` | app/dao/jobs_dao.py:114-135 | the due scheduled jobs become pending and are returned |
| `JobPipeline.JobStore.RunScheduledJobs` | app/celery/scheduled_tasks.py:95-102 | and each of them gets a process-job task |
| `JobPipeline.JobStore.CheckJobStatus` | app/celery/scheduled_tasks.py:239-281 | jobs in progress or pending for 30 to 35 minutes become errors and are queued together to be resumed |
| `JobPipeline.JobStore.StartProcessing` | app/celery/tasks.py:82-96 | only a pending job starts; it is cancelled for an inactive service and stopped by the limits |
| `JobPipeline.JobStore.RestartJobs` | app/celery/tasks.py:465-472 | the jobs of a resume task are in progress again, from now |
| `JobPipeline.JobStore.RunSaveTask` | app/celery/tasks.py:446-461 | the insert of a save task, and its retry if the id is not there |
| `JobPipeline.JobStore.MarkCompletedJobs` | app/celery/scheduled_tasks.py:395-399 | marks exactly the jobs of the first list and returns the second |
| `JobPipeline.JobStore.QueueMissingRows` | app/celery/scheduled_tasks.py:401-411 | one new save task for each missing row of a job |
| `Providers.ProviderStore.UpdateProviderDetailsWithoutCommit` | app/dao/provider_details_dao.py:145-153 | the next version, the time, and a history row with the same values |
| `Providers.ProviderStore.AdjustProviderPriority` | app/dao/provider_details_dao.py:43-54 | a new priority, version, time and history row |
| `Providers.ProviderStore.UpdateProviderDetails` | app/provider_details/rest.py:54-76 | a user's update: the given fields, the next version, the time and a history row |
| `Providers.ProviderStore.DaoReduceSmsProviderPriority` | app/dao/provider_details_dao.py:81-104 | ten points from one provider to its alternative, clamped, unless the guard or too few providers stop it; exceptions change nothing |
| `Providers.ProviderStore.DaoAdjustProviderPriorityBackToRestingPoints` | app/dao/provider_details_dao.py:108-128 | one tending round: who is changed, to what, and one history row each |
| `Providers.TendingApproaches` | app/dao/provider_details_dao.py:117-128 | each round takes ten points off the distance to the target, without overshoot |
| `Providers.TendingReachesRestExactly` | app/dao/provider_details_dao.py:108-128 | any number of providers are all at rest after a number of effective rounds if and only if it is at least ceil(furthest distance / 10) |
| `Providers.TendingRunReachesRestExactly` | app/dao/provider_details_dao.py:108-128 | in every run of tending calls all providers are at rest at the end if and only if the guard let through at least that many of them |
| `Providers.SpacedCallsTakeEffect` | app/dao/provider_details_dao.py:57-77 | the guard lets every call through when they are fifteen minutes apart and nothing was changed in the fifteen minutes before the first |
| `Providers.TwoProvidersStayBalanced` | app/dao/provider_details_dao.py:80-128 | with two active providers and resting points that add up to 100, any mix of reductions and tending keeps each priority in 0 to 100 and the sum at 100 |
| `Providers.ReductionChangesIff` | app/dao/provider_details_dao.py:26-104 | a call for a reduction changes something if and only if every active SMS provider was last updated at least the threshold ago, and the provider and the one that takes over from it are both active; then exactly those two change, with a history row each |
| `Providers.ReductionRaisesIff` | app/dao/provider_details_dao.py:26-104 | it raises exactly when that guard lets it through, two providers are active, and the provider is unknown or it or the one that takes over from it is not active |
| `Providers.ReductionKeepsSumIff` | app/dao/provider_details_dao.py:97-104 | for any number of providers a call for a reduction keeps the sum if and only if it does not take effect or both clamps cut off the same |
| `Providers.ThreeProvidersLeaveTheSum` | app/dao/provider_details_dao.py:97-104 | three active providers whose sum goes from 100 to 105 |
| `Providers.HistoryMatchesInEveryRun` | app/dao/provider_details_dao.py:145-153 | in every run of automatic and manual updates the latest history row of a provider is the provider as it is, and versions count up by one |
| `Providers.AdjustmentNeedsQuiet` | app/dao/provider_details_dao.py:57-77 | an automatic adjustment happens only if every active SMS provider was last updated at least its threshold earlier |
| `Providers.AdjustmentsAreFarApart` | app/dao/provider_details_dao.py:57-77 | in every run two automatic adjustments are at least the threshold of the later one apart, also with manual updates between them that deactivate no provider |
| `Providers.SwitchCurrentSmsProviderOnSlowDelivery` | app/celery/scheduled_tasks.py:133-151 | the loop over the slow providers, unless all of those reported are alike, and the exception that ends it |
| `Providers.OneReductionPerCheck` | app/celery/scheduled_tasks.py:147-151 | when a check that takes less than five minutes acts, from the slow flags: never if all reports are slow or none is; otherwise its result is that of the first slow report whose call takes effect, if no earlier slow one raises, and nothing changes if there is none; and exactly when it raises |
| `Receipts.NotificationTable.UpdateNotificationStatusById` | app/dao/notifications_dao.py:181-208 | which notifications are updated, and to what |
| `Receipts.NotificationTable.UpdateNotificationToSending` | app/delivery/send_to_providers.py:184-189 | the completion of a send, guarded by the status that was loaded before the provider was called |
| `Receipts.NotificationTable.BeginSend` | app/delivery/send_to_providers.py:43-51 | the checks at the start of a send, and the technical failure of an inactive service |
| `Receipts.NotificationTable.ProcessSesResults` | app/celery/process_ses_receipts_tasks.py:41-78 | an SES receipt changes the one notification with its reference, from sending or pending only |
| `Receipts.NotificationTable.DaoTimeoutNotifications` | app/dao/notifications_dao.py:525-549 | a batch of timed-out texts and emails gets the status temporary-failure |
| `Receipts.NotificationTable.TimeoutNotifications` | app/celery/nightly_tasks.py:244-258 | the loop makes temporary failures of exactly the texts and emails from before the cutoff that are sending or pending, in ceil(n / 100,000) + 1 calls |
| `Receipts.CallsAreSteps` | app/dao/notifications_dao.py:166-208 | each receipt, SES notice, timeout batch and exhausted retry can be the next step of every state, and does to the table what its call does: so the theorems on runs are about all of them |
| `Receipts.SendsAreSteps` | app/delivery/send_to_providers.py:43-110 | so are sends: one can begin for each text and email, goes on only from created for an active service, and can complete or fail while it is outstanding |
| `Receipts.FinalStatusChangesIff` | app/dao/notifications_dao.py:189-197 | exactly which steps change a status that is no longer open: the send of an inactive service, and the completion of an outstanding send |
| `Receipts.FirstFinalStatusWins` | app/dao/notifications_dao.py:189-197 | over any run for active services the first final status of a notification of any type is never changed again, if no send of it is outstanding |
| `Receipts.FinalStatusIsSafeIff` | app/delivery/send_to_providers.py:43-110 | a final status survives all such runs if and only if no send of the notification is outstanding |
| `Receipts.OutstandingSendReopens` | app/delivery/send_to_providers.py:184-189 | the completion of an outstanding send sets sending or sent, whatever the receipt said |
| `Receipts.ReceiptBeforeCompletionIsLost` | app/delivery/send_to_providers.py:61-98 | the run that loses a receipt: delivered arrives between the provider call and its completion |
| `Receipts.InactiveServiceOverwritesDelivered` | app/delivery/send_to_providers.py:262-268 | a delivered message of a service that has become inactive turns into a technical failure |
| `Receipts.SentByChangesIff` | app/dao/notifications_dao.py:204-205 | a known sender is changed by nothing but the completion of a send |
| `Receipts.SentByIsKept` | app/dao/notifications_dao.py:204-205 | so over any run of receipts and timeouts it stays |
| `Receipts.ReceiptSettlesUnlessPending` | app/celery/process_sms_client_response_tasks.py:45-63 | a receipt for an open notification settles it unless it is Firetext's pending code; an unknown code is a technical failure |
| `Receipts.ReceiptMeans` | app/celery/process_sms_client_response_tasks.py:26-63 | what a receipt makes of an open notification, for every client, code and reason: just which of them deliver, decline, fail for now or leave it pending, whose message it counts as, and that any other code is a technical failure |
| `Receipts.SesMeans` | app/celery/process_ses_receipts_tasks.py:71-78 | an SES notice settles an email that is sending or pending by its type, and changes no other |
| `Receipts.FiretextDeclined` | app/dao/notifications_dao.py:146-163 | Firetext's declined receipt: the detail decides, else the failure is temporary exactly when the notification was pending |
| `Receipts.FiretextPendingThenDeclined` | app/dao/notifications_dao.py:146-163 | pending and then declined ends in a temporary failure, declined alone in a permanent one |

## Left out

- The time zone history outside the present rules: summer time before 1996, and pytz's table
  ending in 2037; London time is that of the present rules in every year.
- NULL billable units or rate multipliers in ft_billing, and the rounding when a numeric multiplier
  is cast to an integer: both columns are natural numbers.
- NULL in the history's international column, which is nullable: the letter query groups by it as it
  is, and the insert into ft_billing would fail. Here the column is a boolean.
- created_at and updated_at of fact rows, and the columns that only notifications has.
- The organisation filter of the usage queries, the permission filter of the daily data, the
  refresh of today's facts inside the monthly report, and the organisation's usage dictionary.
- Two transactions of ft_billing at once: each write is one step.
- A job with the nil id, under which the status facts store notifications without a job.
- Deleting letters from S3, whose filter differs from that of the archive.
- New notifications during one chain of deletion tasks; runs of batches of several chains are
  covered, rows that appear in between are not.
- Files with another number of rows than notification_count, notifications of a job that are
  archived or deleted while it is still processed, and jobs of restricted services, whose save
  tasks end without a notification: such an end is a lost task.
- Two process_job tasks of one job that both read it as pending before either commits, and a job that
  changes between the selection and the writes of check_job_status.
- The order in which one resume task goes through its jobs: it may be any, and they may overlap.
- The order in which a tending round visits the providers is arbitrary. Who made a manual change to
  a provider is not recorded.
- Choosing a provider at random by priority, the measuring of slow delivery and its floating-point
  ratio: which providers are slow is an input.
- Sub-steps of one call: the selection and the update of a timeout batch, and the look-up and the
  update of an SES receipt, are each one step on the rows as they are then.
- SES receipts for notifications that are only in the history, complaints, and retries of a receipt
  task.
- billable_units written by sends and receipts.
- Virus scans, cancellations of letters and returned letters, which set statuses without the common
  guard; `Receipts` is about texts, emails and Messagebox messages.
- update_free_sms_fragment_limit_data, which compares a row with an integer.
- The archival of inbound messages, whose limited subquery has no order and is evaluated twice.
- Data access for users, organisations, branding, permissions and invitations, the Flask routes,
  schemas, templates, recipient parsing, provider clients and caches: plumbing or easy members.
