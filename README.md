# Scheduled import handlers, modelled as traces of external calls

Two scheduled handlers keep a student tracker database in step with outside
services.

- **Student import**: connects to the tracker database and then runs four
  stages, in order:
  1. student sync from the scheduling service;
  2. attendance sync, with a follow-up fetch of missing attendance for
     students flagged `NewStudent`;
  3. schedule sync from two weeks back;
  4. the comment backfill from the code-hosting service.

  It disconnects at the end.
- **CRM export**: connects to the database and logs the start of its export
  window (day −30 to day +45). It then connects to the CRM. On success it
  runs the export once and logs COMPLETE. On a connection failure it logs the
  error and then ABORTED. In both cases it disconnects.

All the real data work happens behind calls on the database, the scheduling
service, the code-hosting service and the CRM. The handlers decide only
which of these calls happen, in what order, and which log markers are
written, given what each earlier call answered. The model describes exactly
that.

- Every external call or log write is one `Effects.Event`. A run is a
  `seq<Event>`.
- Every answer from outside is a parameter: a list, a connect result, or the
  bulk comment import's boolean result. The student handler's answers are
  gathered in `StudentImportLambda.RunAnswers`.
- Dates are whole day numbers, and each run reads the clock once (`today`).
- Each handler is a class with a `trace` field. Its methods mirror the source
  methods statement by statement, including the early `return`s and the
  reassigned `eventList`. Each method is proved to append exactly the
  specification trace: `StudentImportLambda.RunTrace` and the stage functions,
  or `SalesForceImportLambda.ExportTrace` and `EndTrace`.
- The lemmas state what the handlers promise about those traces. Each does
  so through one projection:
  - the log trail (`LogCodes`);
  - the events of one kind, in order (`Select` with `TableWrite`,
    `GithubCall`, `CrmExport`, `MissingAttendanceFetch` or `DatedFetch`);
  - the number of occurrences of one event (`Count`).

  Each projection distributes over concatenation (`LogCodesConcat`,
  `SelectConcat`, `CountConcat`). The stage results are put together from
  those laws.

Modules: `Effects` (events, projections and their laws),
`StudentImportLambda`, `SalesForceImportLambda`.

## Model

| member | source | states |
|---|---|---|
| StudentImportLambda.StudentImport.MyHandler | src/main/java/lambda/StudentImport.java:25-54 | the handler appends exactly the run trace: the connect attempt, and only if it succeeds the four stages (start date 7 days back for attendance and comments) and one disconnect |
| StudentImportLambda.RunTrace | src/main/java/lambda/StudentImport.java:36-50 | a run starts with the database connect attempt; a failed connect is the whole run; a connected run ends with the disconnect |
| StudentImportLambda.RunLogTrail | src/main/java/lambda/StudentImport.java:38-50 | no marker without a database; otherwise the START/COMPLETE pairs of student, attendance and schedule sync, in that order, then START of the backfill closed by ABORTED exactly when there were events and the bulk import failed, else by COMPLETE |
| StudentImportLambda.RunDisconnectsOnce | src/main/java/lambda/StudentImport.java:38-50 | a connected run disconnects exactly once; a run whose connect failed never disconnects |
| StudentImportLambda.RunStartDates | src/main/java/lambda/StudentImport.java:27-47 | a connected run contains the attendance fetch and the comment-less query, both from 7 days before the run day, and the schedule fetch from 14 days before; it states only that these fetches occur (`RunFetchDates` states that they are the only ones) |
| StudentImportLambda.StagesFetches | src/main/java/lambda/StudentImport.java:26-47 | the dated fetches of the four stages are the attendance fetch at today−7, the schedule fetch at today−14 and the comment-less query at today−7, in that order |
| StudentImportLambda.RunFetchDates | src/main/java/lambda/StudentImport.java:26-50 | a run's fetches of everything since a start date are exactly: attendance since today−7, the schedule since today−14, comment-less events since today−7, in that order; none without a database |
| StudentImportLambda.RunWritesByStage | src/main/java/lambda/StudentImport.java:41-47 | the table writes of a connected run are those of student, attendance and schedule sync, in that order; the backfill adds none |
| StudentImportLambda.RunWrites | src/main/java/lambda/StudentImport.java:38-50 | a run's table writes are: the students if any, the primary attendance batch if non-empty, the follow-up batch if students are flagged new and it is non-empty, the schedule if any, in that order and each into its own table; without a database, none |
| StudentImportLambda.RunGithubCalls | src/main/java/lambda/StudentImport.java:45-47 | a run's code-hosting calls: none without a database or without comment-less events; only the bulk import when it fails; else the bulk import, level-0 pass, level-1 pass, rename fix-up and sentinel fill, in order, all from the same start date and events |
| StudentImportLambda.StudentImport.ImportStudentsFromPike13 | src/main/java/lambda/StudentImport.java:56-71 | appends exactly `StudentStage(today, clients)`, the student sync trace |
| StudentImportLambda.StudentStageShape | src/main/java/lambda/StudentImport.java:59-70 | student sync opens with its START marker and the client fetch, ends with its COMPLETE marker, never disconnects |
| StudentImportLambda.StudentStageLog | src/main/java/lambda/StudentImport.java:59-70 | student sync writes exactly STARTING_STUDENT_IMPORT and then STUDENT_IMPORT_COMPLETE |
| StudentImportLambda.StudentStageWrites | src/main/java/lambda/StudentImport.java:63-67 | student sync writes the fetched list into the student table exactly once when it is non-empty and never when it is empty, and writes nothing else |
| StudentImportLambda.StudentStageCalls | src/main/java/lambda/StudentImport.java:56-71 | student sync makes no code-hosting call |
| StudentImportLambda.StudentStageFetches | src/main/java/lambda/StudentImport.java:56-71 | student sync makes no dated fetch |
| StudentImportLambda.StudentImport.ImportAttendanceFromPike13 | src/main/java/lambda/StudentImport.java:73-94 | appends exactly `AttendanceStage(startDate, attendance, newStudents, missing)`, the attendance sync trace, with `eventList` reassigned to the follow-up answer |
| StudentImportLambda.AttendanceStageShape | src/main/java/lambda/StudentImport.java:74-93 | attendance sync opens with its START marker and the fetch from the start date; then come the primary write (if the batch is non-empty), the query for flagged students, and, if any are flagged, the missing-attendance fetch followed by its write (if non-empty), at consecutive positions in that order; it ends with ATTENDANCE_IMPORT_COMPLETE and never disconnects |
| StudentImportLambda.PrimaryAttendanceLog | src/main/java/lambda/StudentImport.java:74-82 | the primary part writes only the START marker |
| StudentImportLambda.MissingAttendanceLog | src/main/java/lambda/StudentImport.java:84-90 | the follow-up part writes no marker |
| StudentImportLambda.AttendanceStageLog | src/main/java/lambda/StudentImport.java:73-94 | attendance sync writes exactly STARTING_ATTENDANCE_IMPORT and then ATTENDANCE_IMPORT_COMPLETE |
| StudentImportLambda.PrimaryAttendanceWrites | src/main/java/lambda/StudentImport.java:78-82 | the primary batch is written exactly when it is non-empty |
| StudentImportLambda.MissingAttendanceWrites | src/main/java/lambda/StudentImport.java:85-90 | the follow-up batch is written exactly when students are flagged new and the batch is non-empty |
| StudentImportLambda.AttendanceStageWrites | src/main/java/lambda/StudentImport.java:78-90 | attendance sync writes the primary batch if non-empty, then the follow-up batch if students are flagged new and it is non-empty, both into the attendance table, and nothing else |
| StudentImportLambda.PrimaryAttendanceCalls | src/main/java/lambda/StudentImport.java:73-82 | the primary part makes no code-hosting call |
| StudentImportLambda.MissingAttendanceCalls | src/main/java/lambda/StudentImport.java:84-90 | the follow-up part makes no code-hosting call |
| StudentImportLambda.AttendanceStageCalls | src/main/java/lambda/StudentImport.java:73-94 | attendance sync makes no code-hosting call |
| StudentImportLambda.PrimaryAttendanceFetches | src/main/java/lambda/StudentImport.java:74-78 | the primary part fetches attendance exactly once, from the start date |
| StudentImportLambda.MissingAttendanceFetches | src/main/java/lambda/StudentImport.java:84-90 | the follow-up part makes no dated fetch |
| StudentImportLambda.AttendanceStageFetches | src/main/java/lambda/StudentImport.java:73-94 | the only dated fetch of attendance sync is the attendance fetch from the start date |
| StudentImportLambda.PrimaryAttendanceFollowUp | src/main/java/lambda/StudentImport.java:74-82 | the primary part makes no missing-attendance fetch |
| StudentImportLambda.MissingAttendanceFollowUp | src/main/java/lambda/StudentImport.java:85-87 | the follow-up part fetches missing attendance once, from the start date for the flagged students, when some student is flagged, and makes no such fetch otherwise |
| StudentImportLambda.AttendanceStageFollowUp | src/main/java/lambda/StudentImport.java:84-90 | the only missing-attendance fetch of attendance sync is one getMissingAttendance from the start date for the flagged students, made when some student carries the NewStudent flag; with no flagged student there is no such fetch at all |
| StudentImportLambda.StudentImport.ImportScheduleFromPike13 | src/main/java/lambda/StudentImport.java:96-111 | appends exactly `ScheduleStage(today, schedule)`, the schedule sync trace |
| StudentImportLambda.ScheduleStageShape | src/main/java/lambda/StudentImport.java:97-110 | schedule sync opens with its START marker and the fetch, both 14 days before the run day, ends with SCHEDULE_IMPORT_COMPLETE, never disconnects |
| StudentImportLambda.ScheduleStageLog | src/main/java/lambda/StudentImport.java:99-110 | schedule sync writes exactly STARTING_SCHEDULE_IMPORT and then SCHEDULE_IMPORT_COMPLETE |
| StudentImportLambda.ScheduleStageWrites | src/main/java/lambda/StudentImport.java:103-107 | schedule sync writes the fetched schedule into the schedule table exactly once when it is non-empty, and nothing else |
| StudentImportLambda.ScheduleStageCalls | src/main/java/lambda/StudentImport.java:96-111 | schedule sync makes no code-hosting call |
| StudentImportLambda.ScheduleStageFetches | src/main/java/lambda/StudentImport.java:96-111 | the only dated fetch of schedule sync is the schedule fetch from 14 days before the run day |
| StudentImportLambda.StudentImport.ImportGithubComments | src/main/java/lambda/StudentImport.java:113-144 | appends exactly `GithubStage(startDate, eventList, result)`, the backfill trace, including the early return after ABORTED |
| StudentImportLambda.GithubStageShape | src/main/java/lambda/StudentImport.java:113-143 | the backfill opens with its START marker and the comment-less query, ends with ABORTED when there were events and the bulk import failed, else with COMPLETE, never disconnects |
| StudentImportLambda.PassesLog | src/main/java/lambda/StudentImport.java:124-133 | the passes after a successful bulk import write no marker |
| StudentImportLambda.BackfillLog | src/main/java/lambda/StudentImport.java:120-143 | after the query the backfill writes exactly one marker: ABORTED exactly when there were events and the bulk import failed, else COMPLETE |
| StudentImportLambda.GithubStageLog | src/main/java/lambda/StudentImport.java:115-143 | the backfill writes STARTING_GITHUB_IMPORT and then one of GITHUB_IMPORT_ABORTED (events present and bulk import failed) or GITHUB_IMPORT_COMPLETE, never both |
| StudentImportLambda.PassesCalls | src/main/java/lambda/StudentImport.java:124-133 | each of the four passes is a code-hosting call |
| StudentImportLambda.BackfillCalls | src/main/java/lambda/StudentImport.java:119-140 | the code-hosting calls after the query follow the state machine: none, bulk import only, or bulk import and the four passes in order |
| StudentImportLambda.GithubStageCalls | src/main/java/lambda/StudentImport.java:119-140 | no comment-less events: no code-hosting call; bulk import failed: no level pass, rename fix-up or sentinel fill; bulk import succeeded: level 0, level 1, rename fix-up, sentinel fill in that order over the same events |
| StudentImportLambda.PassesWrites | src/main/java/lambda/StudentImport.java:124-133 | the passes write no table |
| StudentImportLambda.BackfillWrites | src/main/java/lambda/StudentImport.java:120-143 | the backfill after the query writes no table |
| StudentImportLambda.GithubStageWrites | src/main/java/lambda/StudentImport.java:113-144 | the backfill writes no table |
| StudentImportLambda.PassesFetches | src/main/java/lambda/StudentImport.java:124-133 | the passes make no dated fetch |
| StudentImportLambda.BackfillFetches | src/main/java/lambda/StudentImport.java:120-143 | the backfill after the query makes no dated fetch |
| StudentImportLambda.GithubStageFetches | src/main/java/lambda/StudentImport.java:113-144 | the only dated fetch of the backfill is the comment-less query from the start date |
| SalesForceImportLambda.Window | src/main/java/lambda/SalesForceImport.java:20-33 | the export window runs from 30 days before to 45 days after the run day: it contains the run day and spans 75 days |
| SalesForceImportLambda.SalesForceImport.MyHandler | src/main/java/lambda/SalesForceImport.java:27-75 | sets the window fields to `Window(today)` first, then appends exactly `ExportTrace(today, dbConnects, crm)`, with both early returns |
| SalesForceImportLambda.SalesForceImport.LambdaFunctionEnd | src/main/java/lambda/SalesForceImport.java:77-89 | appends exactly `EndTrace(startDate, endDate, status)`, the closing for the given status over the window in the fields, and leaves the window unchanged |
| SalesForceImportLambda.EndTraceLog | src/main/java/lambda/SalesForceImport.java:78-87 | the closing writes exactly one of COMPLETE (no error) or the error code followed by ABORTED |
| SalesForceImportLambda.EndTraceDisconnects | src/main/java/lambda/SalesForceImport.java:77-89 | the closing disconnects exactly once |
| SalesForceImportLambda.EndTraceShape | src/main/java/lambda/SalesForceImport.java:77-89 | the closing is exactly two events, COMPLETE over the window then the disconnect, when there is no error; otherwise exactly three, the error code's row carrying the error message, ABORTED over the window, then the disconnect |
| SalesForceImportLambda.EndTraceUpdates | src/main/java/lambda/SalesForceImport.java:77-89 | the closing runs no export |
| SalesForceImportLambda.ExportShape | src/main/java/lambda/SalesForceImport.java:38-89 | a run starts with the database connect attempt; a failed connect is the whole run, so no log row and no disconnect; otherwise the run has six events: START over the window, the single CRM connect attempt, then the export over (today, today−30, today+45) followed by COMPLETE when the CRM connects, or the connection-error row carrying the exception's message followed by ABORTED when it does not, and the disconnect last |
| SalesForceImportLambda.AfterCrmConnectLog | src/main/java/lambda/SalesForceImport.java:58-72 | after the CRM connect attempt: COMPLETE if it succeeded, else the connection error and then ABORTED |
| SalesForceImportLambda.ExportLogTrail | src/main/java/lambda/SalesForceImport.java:40-72 | no marker without a database; else START, then COMPLETE when the CRM is reached, or the connection error then ABORTED when it is not (COMPLETE never follows a connection error) |
| SalesForceImportLambda.ExportDisconnectsOnce | src/main/java/lambda/SalesForceImport.java:40-89 | a run that connected to the database disconnects exactly once; one that did not never does |
| SalesForceImportLambda.ExportUpdatesOnce | src/main/java/lambda/SalesForceImport.java:58-72 | updateSalesForce runs exactly once, with (today, today−30, today+45), when both connections succeed, and never otherwise |

## Notes on the code

- The CRM connection is attempted once (`SalesForceImport.java:58-65`). The
  model has no retry.
- The export window is the code's −30/+45 days, from the constants at
  `SalesForceImport.java:21-22`. The comment at line 29 says +90; the model
  follows the constants.
- `Effects.LogCode` holds only the 13 log codes these two handlers write;
  `LogDataModel` is not part of this model. `lambdaFunctionEnd`'s integer
  `errorCode`, with −1 meaning "no error", becomes `EndStatus.NoError` or
  `EndStatus.Failed(code, message)`. The one error code the handler passes
  is `SALES_FORCE_CONNECTION_ERROR`.

## Left out

- The date strings: the time-zone conversion, the `yyyy-MM-dd` formatting and
  the `substring(0, 10)` slicing. Dates are day numbers and log texts are
  `Effects.Detail` values.
- Clock readings: each handler reads the clock several times. The model uses
  one `today` per run, so it does not capture a run that crosses midnight.
- The human-readable timing strings the handlers return, and the
  `LambdaLogger` lines.
- What the database, scheduling-service, code-hosting and CRM calls do
  internally (upserts, HTTP fetches, the export engine, the CRM connector).
  Their answers are parameters, and only the fact that a call was made, with
  which arguments, is recorded.
- The constructors of the service clients (`MySqlDatabase`, `Pike13Api`,
  `GithubApi`, `ConnectorConfig`, `SalesForceImportEngine`) and the
  environment-variable credentials.
- Constant arguments that never vary:
  - the `(0, false)` of `getEventsWithNoComments`;
  - the `null` of `importGithubCommentsByLevel`;
  - the empty `StudentNameModel` and the `0` passed to every
    `insertLogData`.
- Exceptions from the service calls other than the CRM `ConnectionException`.
  The source does not handle them, and the model has no failure path for
  them.
- Aliasing of the event list: the comment backfill passes one and the same
  list object to `importGithubComments`, both `importGithubCommentsByLevel`
  passes and `updateEmptyGithubComments` (`StudentImport.java:122-133`).
  Those callees are not part of this model, and any of them could change the
  list in place. The model records every call with the list as first fetched,
  so it assumes the callees leave the list unchanged. This is what
  `GithubStageCalls` and `RunGithubCalls` mean by "the same events".
