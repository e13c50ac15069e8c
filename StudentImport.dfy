/**
 The nightly student import handler: student sync, attendance sync (with a
 follow-up fetch of missing attendance for newly flagged students), schedule
 sync and the code-review comment backfill, each bracketed by a start and a
 complete log marker, all between one database connect and one disconnect.

 The answers of the external calls are parameters; a run is specified by the
 trace of calls it makes (`RunTrace` and the stage functions below), and the
 class methods append exactly that trace.
 */
module StudentImportLambda {
  import opened Effects

  /** The flag that marks students discovered by the latest student sync. */
  const NEW_STUDENT_FLAG: string := "NewStudent"

  /** Attendance and comments are imported starting this many days before the run day. */
  const IMPORT_LOOKBACK_DAYS: int := 7

  /** The schedule is imported starting this many days before the run day. */
  const SCHEDULE_LOOKBACK_DAYS: int := 14

  /** What the external calls of one run answer. */
  datatype RunAnswers = RunAnswers(
    dbConnects: bool,             // the database connect succeeds
    clients: seq<Id>,             // the scheduling service's client list
    attendance: seq<Id>,          // attendance since the start date
    newStudents: seq<Id>,         // students carrying the new-student flag
    missingAttendance: seq<Id>,   // the follow-up fetch for those students
    schedule: seq<Id>,            // schedule entries since two weeks ago
    eventsWithNoComments: seq<Id>,// attendance events still lacking a comment
    githubImportOk: bool          // the bulk comment import was not rate-limited
  )

  /** The student sync stage. */
  function StudentStage(today: Day, clients: seq<Id>): seq<Event> {
    [InsertLog(StartingStudentImport, For(today))] + [GetClients]
    + StudentWrite(clients)
    + [InsertLog(StudentImportComplete, For(today))]
  }

  /** The write of the fetched students, skipped when there are none. */
  function StudentWrite(clients: seq<Id>): seq<Event> {
    if |clients| > 0 then [Import(StudentTable, clients)] else []
  }

  /** Student sync opens with its START marker and the client fetch, closes
      with its COMPLETE marker and never disconnects. */
  lemma StudentStageShape(today: Day, clients: seq<Id>)
    ensures var t := StudentStage(today, clients);
      |t| >= 3 && t[0] == InsertLog(StartingStudentImport, For(today)) && t[1] == GetClients
      && t[|t| - 1] == InsertLog(StudentImportComplete, For(today))
      && DisconnectDatabase !in t
  {
  }

  /** Student sync writes exactly its two markers, START first and COMPLETE last. */
  lemma StudentStageLog(today: Day, clients: seq<Id>)
    ensures LogCodes(StudentStage(today, clients)) == [StartingStudentImport, StudentImportComplete]
  {
    var e1, e2, e3 := InsertLog(StartingStudentImport, For(today)), GetClients, InsertLog(StudentImportComplete, For(today));
    LogCodesSingle(e1); LogCodesSingle(e2); LogCodesSingle(e3);
    LogCodesSingle(Import(StudentTable, clients));
    LogCodesConcat4([e1], [e2], StudentWrite(clients), [e3]);
  }

  /** Student sync writes the fetched students into the student table exactly
      once when there are any, and writes nothing else. */
  lemma StudentStageWrites(today: Day, clients: seq<Id>)
    ensures Select(StudentStage(today, clients), TableWrite) ==
              if |clients| > 0 then [Import(StudentTable, clients)] else []
  {
    var e1, e2, e3 := InsertLog(StartingStudentImport, For(today)), GetClients, InsertLog(StudentImportComplete, For(today));
    SelectSingle(e1, TableWrite); SelectSingle(e2, TableWrite); SelectSingle(e3, TableWrite);
    SelectSingle(Import(StudentTable, clients), TableWrite);
    SelectConcat4([e1], [e2], StudentWrite(clients), [e3], TableWrite);
  }

  /** Student sync makes no call on the code-hosting service. */
  lemma StudentStageCalls(today: Day, clients: seq<Id>)
    ensures Select(StudentStage(today, clients), GithubCall) == []
  {
    var e1, e2, e3 := InsertLog(StartingStudentImport, For(today)), GetClients, InsertLog(StudentImportComplete, For(today));
    SelectSingle(e1, GithubCall); SelectSingle(e2, GithubCall); SelectSingle(e3, GithubCall);
    SelectSingle(Import(StudentTable, clients), GithubCall);
    SelectConcat4([e1], [e2], StudentWrite(clients), [e3], GithubCall);
  }

  /** Student sync makes no fetch from a start date. */
  lemma StudentStageFetches(today: Day, clients: seq<Id>)
    ensures Select(StudentStage(today, clients), DatedFetch) == []
  {
    var e1, e2 := InsertLog(StartingStudentImport, For(today)), InsertLog(StudentImportComplete, For(today));
    SelectSingle(e1, DatedFetch); SelectSingle(GetClients, DatedFetch); SelectSingle(e2, DatedFetch);
    SelectSingle(Import(StudentTable, clients), DatedFetch);
    SelectConcat4([e1], [GetClients], StudentWrite(clients), [e2], DatedFetch);
  }

  /** The attendance sync stage: the primary fetch and write, then the
      follow-up fetch of missing attendance when some student is flagged new. */
  function AttendanceStage(startDate: Day, events: seq<Id>, newStudents: seq<Id>, missing: seq<Id>): seq<Event> {
    PrimaryAttendance(startDate, events)
    + [GetStudentsUsingFlag(NEW_STUDENT_FLAG)]
    + MissingAttendance(startDate, newStudents, missing)
    + [InsertLog(AttendanceImportComplete, StartingFrom(startDate))]
  }

  /** The opening marker, the primary fetch and the write of its batch. */
  function PrimaryAttendance(startDate: Day, events: seq<Id>): seq<Event> {
    [InsertLog(StartingAttendanceImport, StartingFrom(startDate))] + [GetAttendance(startDate)]
    + AttendanceWrite(events)
  }

  /** The follow-up fetch for flagged students and the write of what it finds;
      nothing at all when no student is flagged. */
  function MissingAttendance(startDate: Day, newStudents: seq<Id>, missing: seq<Id>): seq<Event> {
    if |newStudents| > 0 then [GetMissingAttendance(startDate, newStudents)] + AttendanceWrite(missing)
    else []
  }

  /** The write of an attendance batch, skipped when it is empty. */
  function AttendanceWrite(events: seq<Id>): seq<Event> {
    if |events| > 0 then [Import(AttendanceTable, events)] else []
  }

  /** Attendance sync opens with its START marker and the primary fetch, both
      from the start date, then writes the primary batch if it is non-empty,
      then queries the flagged students, then, if there are any, fetches their
      missing attendance and writes what that finds if it is non-empty; it
      closes with its COMPLETE marker and never disconnects. */
  lemma AttendanceStageShape(startDate: Day, events: seq<Id>, newStudents: seq<Id>, missing: seq<Id>)
    ensures var t, p := AttendanceStage(startDate, events, newStudents, missing), if |events| > 0 then 3 else 2;
      |t| >= 4 && t[0] == InsertLog(StartingAttendanceImport, StartingFrom(startDate))
      && t[1] == GetAttendance(startDate)
      && (|events| > 0 ==> t[2] == Import(AttendanceTable, events))
      && t[p] == GetStudentsUsingFlag(NEW_STUDENT_FLAG)
      && (|newStudents| > 0 ==>
            t[p + 1] == GetMissingAttendance(startDate, newStudents)
            && (|missing| > 0 ==> t[p + 2] == Import(AttendanceTable, missing)))
      && t[|t| - 1] == InsertLog(AttendanceImportComplete, StartingFrom(startDate))
      && DisconnectDatabase !in t
  {
  }

  /** The opening part of attendance sync writes only the START marker. */
  lemma PrimaryAttendanceLog(startDate: Day, events: seq<Id>)
    ensures LogCodes(PrimaryAttendance(startDate, events)) == [StartingAttendanceImport]
  {
    var e1, e2 := InsertLog(StartingAttendanceImport, StartingFrom(startDate)), GetAttendance(startDate);
    LogCodesSingle(e1); LogCodesSingle(e2); LogCodesSingle(Import(AttendanceTable, events));
    LogCodesConcat3([e1], [e2], AttendanceWrite(events));
  }

  /** The follow-up part of attendance sync writes no marker. */
  lemma MissingAttendanceLog(startDate: Day, newStudents: seq<Id>, missing: seq<Id>)
    ensures LogCodes(MissingAttendance(startDate, newStudents, missing)) == []
  {
    if |newStudents| > 0 {
      var fetch := GetMissingAttendance(startDate, newStudents);
      LogCodesSingle(fetch); LogCodesSingle(Import(AttendanceTable, missing));
      LogCodesConcat([fetch], AttendanceWrite(missing));
    }
  }

  /** Attendance sync writes exactly its two markers, START first and COMPLETE last. */
  lemma AttendanceStageLog(startDate: Day, events: seq<Id>, newStudents: seq<Id>, missing: seq<Id>)
    ensures LogCodes(AttendanceStage(startDate, events, newStudents, missing)) ==
              [StartingAttendanceImport, AttendanceImportComplete]
  {
    var e3, e4 := GetStudentsUsingFlag(NEW_STUDENT_FLAG), InsertLog(AttendanceImportComplete, StartingFrom(startDate));
    PrimaryAttendanceLog(startDate, events);
    MissingAttendanceLog(startDate, newStudents, missing);
    LogCodesSingle(e3); LogCodesSingle(e4);
    LogCodesConcat4(PrimaryAttendance(startDate, events), [e3], MissingAttendance(startDate, newStudents, missing), [e4]);
  }

  /** The opening part writes the primary batch exactly when it is non-empty. */
  lemma PrimaryAttendanceWrites(startDate: Day, events: seq<Id>)
    ensures Select(PrimaryAttendance(startDate, events), TableWrite) ==
              if |events| > 0 then [Import(AttendanceTable, events)] else []
  {
    var e1, e2 := InsertLog(StartingAttendanceImport, StartingFrom(startDate)), GetAttendance(startDate);
    SelectSingle(e1, TableWrite); SelectSingle(e2, TableWrite); SelectSingle(Import(AttendanceTable, events), TableWrite);
    SelectConcat3([e1], [e2], AttendanceWrite(events), TableWrite);
  }

  /** The follow-up part writes the follow-up batch exactly when some student
      is flagged new and the batch is non-empty. */
  lemma MissingAttendanceWrites(startDate: Day, newStudents: seq<Id>, missing: seq<Id>)
    ensures Select(MissingAttendance(startDate, newStudents, missing), TableWrite) ==
              if |newStudents| > 0 && |missing| > 0 then [Import(AttendanceTable, missing)] else []
  {
    if |newStudents| > 0 {
      var fetch := GetMissingAttendance(startDate, newStudents);
      SelectSingle(fetch, TableWrite); SelectSingle(Import(AttendanceTable, missing), TableWrite);
      SelectConcat([fetch], AttendanceWrite(missing), TableWrite);
    }
  }

  /** Attendance sync writes, in order, the primary batch when it is non-empty
      and the follow-up batch when some student is flagged new and the follow-up
      fetch found something, both into the attendance table; nothing else. */
  lemma AttendanceStageWrites(startDate: Day, events: seq<Id>, newStudents: seq<Id>, missing: seq<Id>)
    ensures Select(AttendanceStage(startDate, events, newStudents, missing), TableWrite) ==
              (if |events| > 0 then [Import(AttendanceTable, events)] else []) +
              (if |newStudents| > 0 && |missing| > 0 then [Import(AttendanceTable, missing)] else [])
  {
    var e3, e4 := GetStudentsUsingFlag(NEW_STUDENT_FLAG), InsertLog(AttendanceImportComplete, StartingFrom(startDate));
    PrimaryAttendanceWrites(startDate, events);
    MissingAttendanceWrites(startDate, newStudents, missing);
    SelectSingle(e3, TableWrite); SelectSingle(e4, TableWrite);
    SelectConcat4(PrimaryAttendance(startDate, events), [e3], MissingAttendance(startDate, newStudents, missing), [e4], TableWrite);
  }

  /** Neither part of attendance sync calls the code-hosting service. */
  lemma PrimaryAttendanceCalls(startDate: Day, events: seq<Id>)
    ensures Select(PrimaryAttendance(startDate, events), GithubCall) == []
  {
    var e1, e2 := InsertLog(StartingAttendanceImport, StartingFrom(startDate)), GetAttendance(startDate);
    SelectSingle(e1, GithubCall); SelectSingle(e2, GithubCall); SelectSingle(Import(AttendanceTable, events), GithubCall);
    SelectConcat3([e1], [e2], AttendanceWrite(events), GithubCall);
  }

  lemma MissingAttendanceCalls(startDate: Day, newStudents: seq<Id>, missing: seq<Id>)
    ensures Select(MissingAttendance(startDate, newStudents, missing), GithubCall) == []
  {
    if |newStudents| > 0 {
      var fetch := GetMissingAttendance(startDate, newStudents);
      SelectSingle(fetch, GithubCall); SelectSingle(Import(AttendanceTable, missing), GithubCall);
      SelectConcat([fetch], AttendanceWrite(missing), GithubCall);
    }
  }

  /** Attendance sync makes no call on the code-hosting service. */
  lemma AttendanceStageCalls(startDate: Day, events: seq<Id>, newStudents: seq<Id>, missing: seq<Id>)
    ensures Select(AttendanceStage(startDate, events, newStudents, missing), GithubCall) == []
  {
    var e3, e4 := GetStudentsUsingFlag(NEW_STUDENT_FLAG), InsertLog(AttendanceImportComplete, StartingFrom(startDate));
    PrimaryAttendanceCalls(startDate, events);
    MissingAttendanceCalls(startDate, newStudents, missing);
    SelectSingle(e3, GithubCall); SelectSingle(e4, GithubCall);
    SelectConcat4(PrimaryAttendance(startDate, events), [e3], MissingAttendance(startDate, newStudents, missing), [e4], GithubCall);
  }

  /** The opening part of attendance sync fetches attendance once, from the start date. */
  lemma PrimaryAttendanceFetches(startDate: Day, events: seq<Id>)
    ensures Select(PrimaryAttendance(startDate, events), DatedFetch) == [GetAttendance(startDate)]
  {
    var e1, e2 := InsertLog(StartingAttendanceImport, StartingFrom(startDate)), GetAttendance(startDate);
    SelectSingle(e1, DatedFetch); SelectSingle(e2, DatedFetch); SelectSingle(Import(AttendanceTable, events), DatedFetch);
    SelectConcat3([e1], [e2], AttendanceWrite(events), DatedFetch);
  }

  /** The follow-up part makes no fetch of everything since a start date. */
  lemma MissingAttendanceFetches(startDate: Day, newStudents: seq<Id>, missing: seq<Id>)
    ensures Select(MissingAttendance(startDate, newStudents, missing), DatedFetch) == []
  {
    if |newStudents| > 0 {
      var fetch := GetMissingAttendance(startDate, newStudents);
      SelectSingle(fetch, DatedFetch); SelectSingle(Import(AttendanceTable, missing), DatedFetch);
      SelectConcat([fetch], AttendanceWrite(missing), DatedFetch);
    }
  }

  /** The only dated fetch of attendance sync is the attendance fetch from the start date. */
  lemma AttendanceStageFetches(startDate: Day, events: seq<Id>, newStudents: seq<Id>, missing: seq<Id>)
    ensures Select(AttendanceStage(startDate, events, newStudents, missing), DatedFetch) == [GetAttendance(startDate)]
  {
    var e3, e4 := GetStudentsUsingFlag(NEW_STUDENT_FLAG), InsertLog(AttendanceImportComplete, StartingFrom(startDate));
    PrimaryAttendanceFetches(startDate, events);
    MissingAttendanceFetches(startDate, newStudents, missing);
    SelectSingle(e3, DatedFetch); SelectSingle(e4, DatedFetch);
    SelectConcat4(PrimaryAttendance(startDate, events), [e3], MissingAttendance(startDate, newStudents, missing), [e4], DatedFetch);
  }

  /** The opening part of attendance sync makes no follow-up fetch. */
  lemma PrimaryAttendanceFollowUp(startDate: Day, events: seq<Id>)
    ensures Select(PrimaryAttendance(startDate, events), MissingAttendanceFetch) == []
  {
    var e1, e2 := InsertLog(StartingAttendanceImport, StartingFrom(startDate)), GetAttendance(startDate);
    SelectSingle(e1, MissingAttendanceFetch); SelectSingle(e2, MissingAttendanceFetch);
    SelectSingle(Import(AttendanceTable, events), MissingAttendanceFetch);
    SelectConcat3([e1], [e2], AttendanceWrite(events), MissingAttendanceFetch);
  }

  /** The follow-up part fetches missing attendance once, for the flagged
      students and from the start date, when some student is flagged new. */
  lemma MissingAttendanceFollowUp(startDate: Day, newStudents: seq<Id>, missing: seq<Id>)
    ensures Select(MissingAttendance(startDate, newStudents, missing), MissingAttendanceFetch) ==
              if |newStudents| > 0 then [GetMissingAttendance(startDate, newStudents)] else []
  {
    if |newStudents| > 0 {
      var fetch := GetMissingAttendance(startDate, newStudents);
      SelectSingle(fetch, MissingAttendanceFetch);
      SelectSingle(Import(AttendanceTable, missing), MissingAttendanceFetch);
      SelectConcat([fetch], AttendanceWrite(missing), MissingAttendanceFetch);
    }
  }

  /** Attendance sync fetches missing attendance exactly once, for the flagged
      students and from the start date, when some student is flagged new, and
      makes no such fetch at all otherwise. */
  lemma AttendanceStageFollowUp(startDate: Day, events: seq<Id>, newStudents: seq<Id>, missing: seq<Id>)
    ensures Select(AttendanceStage(startDate, events, newStudents, missing), MissingAttendanceFetch) ==
              if |newStudents| > 0 then [GetMissingAttendance(startDate, newStudents)] else []
  {
    var e3, e4 := GetStudentsUsingFlag(NEW_STUDENT_FLAG), InsertLog(AttendanceImportComplete, StartingFrom(startDate));
    PrimaryAttendanceFollowUp(startDate, events);
    MissingAttendanceFollowUp(startDate, newStudents, missing);
    SelectSingle(e3, MissingAttendanceFetch); SelectSingle(e4, MissingAttendanceFetch);
    SelectConcat4(PrimaryAttendance(startDate, events), [e3], MissingAttendance(startDate, newStudents, missing), [e4],
                  MissingAttendanceFetch);
  }


  /** The schedule sync stage, which looks back two weeks from the run day. */
  function ScheduleStage(today: Day, schedule: seq<Id>): seq<Event> {
    var startDate := today - SCHEDULE_LOOKBACK_DAYS;
    [InsertLog(StartingScheduleImport, AsOf(startDate))] + [GetSchedule(startDate)]
    + ScheduleWrite(schedule)
    + [InsertLog(ScheduleImportComplete, AsOf(startDate))]
  }

  /** The write of the fetched schedule, skipped when it is empty. */
  function ScheduleWrite(schedule: seq<Id>): seq<Event> {
    if |schedule| > 0 then [Import(ScheduleTable, schedule)] else []
  }

  /** Schedule sync opens with its START marker and the schedule fetch, both
      two weeks before the run day, closes with its COMPLETE marker and never
      disconnects. */
  lemma ScheduleStageShape(today: Day, schedule: seq<Id>)
    ensures var t := ScheduleStage(today, schedule);
      |t| >= 3 && t[0] == InsertLog(StartingScheduleImport, AsOf(today - 14))
      && t[1] == GetSchedule(today - 14)
      && t[|t| - 1] == InsertLog(ScheduleImportComplete, AsOf(today - 14))
      && DisconnectDatabase !in t
  {
  }

  /** Schedule sync writes exactly its two markers, START first and COMPLETE last. */
  lemma ScheduleStageLog(today: Day, schedule: seq<Id>)
    ensures LogCodes(ScheduleStage(today, schedule)) == [StartingScheduleImport, ScheduleImportComplete]
  {
    var startDate := today - SCHEDULE_LOOKBACK_DAYS;
    var e1, e2, e3 := InsertLog(StartingScheduleImport, AsOf(startDate)), GetSchedule(startDate), InsertLog(ScheduleImportComplete, AsOf(startDate));
    LogCodesSingle(e1); LogCodesSingle(e2); LogCodesSingle(e3);
    LogCodesSingle(Import(ScheduleTable, schedule));
    LogCodesConcat4([e1], [e2], ScheduleWrite(schedule), [e3]);
  }

  /** Schedule sync writes the fetched schedule exactly once when it is
      non-empty, into the schedule table, and writes nothing else. */
  lemma ScheduleStageWrites(today: Day, schedule: seq<Id>)
    ensures Select(ScheduleStage(today, schedule), TableWrite) ==
              if |schedule| > 0 then [Import(ScheduleTable, schedule)] else []
  {
    var startDate := today - SCHEDULE_LOOKBACK_DAYS;
    var e1, e2, e3 := InsertLog(StartingScheduleImport, AsOf(startDate)), GetSchedule(startDate), InsertLog(ScheduleImportComplete, AsOf(startDate));
    SelectSingle(e1, TableWrite); SelectSingle(e2, TableWrite); SelectSingle(e3, TableWrite);
    SelectSingle(Import(ScheduleTable, schedule), TableWrite);
    SelectConcat4([e1], [e2], ScheduleWrite(schedule), [e3], TableWrite);
  }

  /** Schedule sync makes no call on the code-hosting service. */
  lemma ScheduleStageCalls(today: Day, schedule: seq<Id>)
    ensures Select(ScheduleStage(today, schedule), GithubCall) == []
  {
    var startDate := today - SCHEDULE_LOOKBACK_DAYS;
    var e1, e2, e3 := InsertLog(StartingScheduleImport, AsOf(startDate)), GetSchedule(startDate), InsertLog(ScheduleImportComplete, AsOf(startDate));
    SelectSingle(e1, GithubCall); SelectSingle(e2, GithubCall); SelectSingle(e3, GithubCall);
    SelectSingle(Import(ScheduleTable, schedule), GithubCall);
    SelectConcat4([e1], [e2], ScheduleWrite(schedule), [e3], GithubCall);
  }

  /** The only dated fetch of schedule sync is the schedule fetch from two weeks
      before the run day. */
  lemma ScheduleStageFetches(today: Day, schedule: seq<Id>)
    ensures Select(ScheduleStage(today, schedule), DatedFetch) == [GetSchedule(today - 14)]
  {
    var startDate := today - SCHEDULE_LOOKBACK_DAYS;
    var e1, e2, e3 := InsertLog(StartingScheduleImport, AsOf(startDate)), GetSchedule(startDate), InsertLog(ScheduleImportComplete, AsOf(startDate));
    SelectSingle(e1, DatedFetch); SelectSingle(e2, DatedFetch); SelectSingle(e3, DatedFetch);
    SelectSingle(Import(ScheduleTable, schedule), DatedFetch);
    SelectConcat4([e1], [e2], ScheduleWrite(schedule), [e3], DatedFetch);
  }

  /** The comment backfill stage: nothing to do, rate-limited (aborted), or the
      bulk import followed by the two level passes, the renamed-user fix-up and
      the sentinel fill. */
  function GithubStage(startDate: Day, events: seq<Id>, bulkImportOk: bool): seq<Event> {
    [InsertLog(StartingGithubImport, StartingFrom(startDate))] + [GetEventsWithNoComments(startDate)]
    + Backfill(startDate, events, bulkImportOk)
  }

  /** Everything after the query for comment-less events: COMPLETE when there
      are none; otherwise the bulk import, then ABORTED when it was rate-limited,
      or the narrower passes and COMPLETE. */
  function Backfill(startDate: Day, events: seq<Id>, bulkImportOk: bool): seq<Event> {
    if |events| == 0 then [InsertLog(GithubImportComplete, StartingFrom(startDate))]
    else if !bulkImportOk then
      [Event.ImportGithubComments(startDate, events)] + [InsertLog(GithubImportAborted, RateLimitExceeded)]
    else
      [Event.ImportGithubComments(startDate, events)] + Passes(startDate, events)
      + [InsertLog(GithubImportComplete, StartingFrom(startDate))]
  }

  /** The passes after a successful bulk import: level 0, level 1, the
      renamed-user fix-up and the sentinel fill. */
  function Passes(startDate: Day, events: seq<Id>): seq<Event> {
    [ImportGithubCommentsByLevel(0, startDate, events)]
    + [ImportGithubCommentsByLevel(1, startDate, events)]
    + [UpdateMissingGithubComments]
    + [UpdateEmptyGithubComments(events)]
  }

  /** The comment backfill opens with its START marker and the query for
      comment-less events, closes with ABORTED when the bulk import was
      rate-limited and with COMPLETE otherwise, and never disconnects. */
  lemma GithubStageShape(startDate: Day, events: seq<Id>, bulkImportOk: bool)
    ensures var t := GithubStage(startDate, events, bulkImportOk);
      |t| >= 3 && t[0] == InsertLog(StartingGithubImport, StartingFrom(startDate))
      && t[1] == GetEventsWithNoComments(startDate)
      && t[|t| - 1] ==
           (if |events| > 0 && !bulkImportOk then InsertLog(GithubImportAborted, RateLimitExceeded)
            else InsertLog(GithubImportComplete, StartingFrom(startDate)))
      && DisconnectDatabase !in t
  {
  }

  /** The passes after the bulk import write no marker. */
  lemma PassesLog(startDate: Day, events: seq<Id>)
    ensures LogCodes(Passes(startDate, events)) == []
  {
    var p0, p1 := ImportGithubCommentsByLevel(0, startDate, events), ImportGithubCommentsByLevel(1, startDate, events);
    var p2, p3 := UpdateMissingGithubComments, UpdateEmptyGithubComments(events);
    LogCodesSingle(p0); LogCodesSingle(p1); LogCodesSingle(p2); LogCodesSingle(p3);
    LogCodesConcat4([p0], [p1], [p2], [p3]);
  }

  /** Past the query, the backfill writes exactly one closing marker. */
  lemma BackfillLog(startDate: Day, events: seq<Id>, bulkImportOk: bool)
    ensures LogCodes(Backfill(startDate, events, bulkImportOk)) ==
              [if |events| > 0 && !bulkImportOk then GithubImportAborted else GithubImportComplete]
  {
    var done, aborted := InsertLog(GithubImportComplete, StartingFrom(startDate)), InsertLog(GithubImportAborted, RateLimitExceeded);
    var bulk := Event.ImportGithubComments(startDate, events);
    LogCodesSingle(done); LogCodesSingle(aborted); LogCodesSingle(bulk);
    if |events| > 0 {
      if bulkImportOk {
        PassesLog(startDate, events);
        LogCodesConcat3([bulk], Passes(startDate, events), [done]);
      } else {
        LogCodesConcat([bulk], [aborted]);
      }
    }
  }

  /** The comment backfill writes START, then COMPLETE, or ABORTED instead of
      COMPLETE exactly when there were events to backfill and the bulk import
      was rate-limited. */
  lemma GithubStageLog(startDate: Day, events: seq<Id>, bulkImportOk: bool)
    ensures LogCodes(GithubStage(startDate, events, bulkImportOk)) ==
              [StartingGithubImport,
               if |events| > 0 && !bulkImportOk then GithubImportAborted else GithubImportComplete]
  {
    var e1, e2 := InsertLog(StartingGithubImport, StartingFrom(startDate)), GetEventsWithNoComments(startDate);
    LogCodesSingle(e1); LogCodesSingle(e2);
    BackfillLog(startDate, events, bulkImportOk);
    LogCodesConcat3([e1], [e2], Backfill(startDate, events, bulkImportOk));
  }

  /** Every pass after the bulk import is a call on the code-hosting service. */
  lemma PassesCalls(startDate: Day, events: seq<Id>)
    ensures Select(Passes(startDate, events), GithubCall) == Passes(startDate, events)
  {
    var p0, p1 := ImportGithubCommentsByLevel(0, startDate, events), ImportGithubCommentsByLevel(1, startDate, events);
    var p2, p3 := UpdateMissingGithubComments, UpdateEmptyGithubComments(events);
    SelectSingle(p0, GithubCall); SelectSingle(p1, GithubCall); SelectSingle(p2, GithubCall); SelectSingle(p3, GithubCall);
    SelectConcat4([p0], [p1], [p2], [p3], GithubCall);
  }

  /** Past the query, the backfill calls the code-hosting service as the state
      machine prescribes. */
  lemma BackfillCalls(startDate: Day, events: seq<Id>, bulkImportOk: bool)
    ensures Select(Backfill(startDate, events, bulkImportOk), GithubCall) ==
              if |events| == 0 then []
              else if !bulkImportOk then [Event.ImportGithubComments(startDate, events)]
              else [Event.ImportGithubComments(startDate, events),
                    ImportGithubCommentsByLevel(0, startDate, events),
                    ImportGithubCommentsByLevel(1, startDate, events),
                    UpdateMissingGithubComments,
                    UpdateEmptyGithubComments(events)]
  {
    var done, aborted := InsertLog(GithubImportComplete, StartingFrom(startDate)), InsertLog(GithubImportAborted, RateLimitExceeded);
    var bulk := Event.ImportGithubComments(startDate, events);
    SelectSingle(done, GithubCall); SelectSingle(aborted, GithubCall); SelectSingle(bulk, GithubCall);
    if |events| > 0 {
      if bulkImportOk {
        PassesCalls(startDate, events);
        SelectConcat3([bulk], Passes(startDate, events), [done], GithubCall);
        assert [bulk] + Passes(startDate, events) ==
               [bulk, ImportGithubCommentsByLevel(0, startDate, events), ImportGithubCommentsByLevel(1, startDate, events),
                UpdateMissingGithubComments, UpdateEmptyGithubComments(events)];
      } else {
        SelectConcat([bulk], [aborted], GithubCall);
      }
    }
  }

  /** The comment backfill as a state machine: with no comment-less events it
      calls nothing on the code-hosting service; when the bulk import is
      rate-limited it makes no further call; otherwise it makes the level-0
      pass, the level-1 pass, the renamed-user fix-up and the sentinel fill, in
      that order, all over the same events. */
  lemma GithubStageCalls(startDate: Day, events: seq<Id>, bulkImportOk: bool)
    ensures Select(GithubStage(startDate, events, bulkImportOk), GithubCall) ==
              if |events| == 0 then []
              else if !bulkImportOk then [Event.ImportGithubComments(startDate, events)]
              else [Event.ImportGithubComments(startDate, events),
                    ImportGithubCommentsByLevel(0, startDate, events),
                    ImportGithubCommentsByLevel(1, startDate, events),
                    UpdateMissingGithubComments,
                    UpdateEmptyGithubComments(events)]
  {
    var e1, e2 := InsertLog(StartingGithubImport, StartingFrom(startDate)), GetEventsWithNoComments(startDate);
    SelectSingle(e1, GithubCall); SelectSingle(e2, GithubCall);
    BackfillCalls(startDate, events, bulkImportOk);
    SelectConcat3([e1], [e2], Backfill(startDate, events, bulkImportOk), GithubCall);
  }

  /** Neither the passes nor the rest of the backfill write a table. */
  lemma PassesWrites(startDate: Day, events: seq<Id>)
    ensures Select(Passes(startDate, events), TableWrite) == []
  {
    var p0, p1 := ImportGithubCommentsByLevel(0, startDate, events), ImportGithubCommentsByLevel(1, startDate, events);
    var p2, p3 := UpdateMissingGithubComments, UpdateEmptyGithubComments(events);
    SelectSingle(p0, TableWrite); SelectSingle(p1, TableWrite); SelectSingle(p2, TableWrite); SelectSingle(p3, TableWrite);
    SelectConcat4([p0], [p1], [p2], [p3], TableWrite);
  }

  lemma BackfillWrites(startDate: Day, events: seq<Id>, bulkImportOk: bool)
    ensures Select(Backfill(startDate, events, bulkImportOk), TableWrite) == []
  {
    var done, aborted := InsertLog(GithubImportComplete, StartingFrom(startDate)), InsertLog(GithubImportAborted, RateLimitExceeded);
    var bulk := Event.ImportGithubComments(startDate, events);
    SelectSingle(done, TableWrite); SelectSingle(aborted, TableWrite); SelectSingle(bulk, TableWrite);
    if |events| > 0 {
      if bulkImportOk {
        PassesWrites(startDate, events);
        SelectConcat3([bulk], Passes(startDate, events), [done], TableWrite);
      } else {
        SelectConcat([bulk], [aborted], TableWrite);
      }
    }
  }

  /** The comment backfill writes no fetched batch into any table. */
  lemma GithubStageWrites(startDate: Day, events: seq<Id>, bulkImportOk: bool)
    ensures Select(GithubStage(startDate, events, bulkImportOk), TableWrite) == []
  {
    var e1, e2 := InsertLog(StartingGithubImport, StartingFrom(startDate)), GetEventsWithNoComments(startDate);
    SelectSingle(e1, TableWrite); SelectSingle(e2, TableWrite);
    BackfillWrites(startDate, events, bulkImportOk);
    SelectConcat3([e1], [e2], Backfill(startDate, events, bulkImportOk), TableWrite);
  }

  /** Neither the passes nor the rest of the backfill make a dated fetch. */
  lemma PassesFetches(startDate: Day, events: seq<Id>)
    ensures Select(Passes(startDate, events), DatedFetch) == []
  {
    var p0, p1 := ImportGithubCommentsByLevel(0, startDate, events), ImportGithubCommentsByLevel(1, startDate, events);
    var p2, p3 := UpdateMissingGithubComments, UpdateEmptyGithubComments(events);
    SelectSingle(p0, DatedFetch); SelectSingle(p1, DatedFetch); SelectSingle(p2, DatedFetch); SelectSingle(p3, DatedFetch);
    SelectConcat4([p0], [p1], [p2], [p3], DatedFetch);
  }

  lemma BackfillFetches(startDate: Day, events: seq<Id>, bulkImportOk: bool)
    ensures Select(Backfill(startDate, events, bulkImportOk), DatedFetch) == []
  {
    var done, aborted := InsertLog(GithubImportComplete, StartingFrom(startDate)), InsertLog(GithubImportAborted, RateLimitExceeded);
    var bulk := Event.ImportGithubComments(startDate, events);
    SelectSingle(done, DatedFetch); SelectSingle(aborted, DatedFetch); SelectSingle(bulk, DatedFetch);
    if |events| > 0 {
      if bulkImportOk {
        PassesFetches(startDate, events);
        SelectConcat3([bulk], Passes(startDate, events), [done], DatedFetch);
      } else {
        SelectConcat([bulk], [aborted], DatedFetch);
      }
    }
  }

  /** The only dated fetch of the comment backfill is the query for
      comment-less events since the start date. */
  lemma GithubStageFetches(startDate: Day, events: seq<Id>, bulkImportOk: bool)
    ensures Select(GithubStage(startDate, events, bulkImportOk), DatedFetch) == [GetEventsWithNoComments(startDate)]
  {
    var e1, e2 := InsertLog(StartingGithubImport, StartingFrom(startDate)), GetEventsWithNoComments(startDate);
    SelectSingle(e1, DatedFetch); SelectSingle(e2, DatedFetch);
    BackfillFetches(startDate, events, bulkImportOk);
    SelectConcat3([e1], [e2], Backfill(startDate, events, bulkImportOk), DatedFetch);
  }

  /** One whole run of the handler: nothing but the failed connection attempt
      when the database cannot be reached, otherwise the four stages inside one
      database session. */
  function RunTrace(today: Day, a: RunAnswers): (t: seq<Event>)
    ensures |t| >= 1 && t[0] == ConnectDatabase(a.dbConnects)
    ensures !a.dbConnects ==> t == [ConnectDatabase(false)]
    ensures a.dbConnects ==> t[|t| - 1] == DisconnectDatabase
  {
    if !a.dbConnects then [ConnectDatabase(false)] else Session(Stages(today, a))
  }

  /** The four stages of a connected run, in order. */
  function Stages(today: Day, a: RunAnswers): seq<Event> {
    var startDate := today - IMPORT_LOOKBACK_DAYS;
    StudentStage(today, a.clients)
    + AttendanceStage(startDate, a.attendance, a.newStudents, a.missingAttendance)
    + ScheduleStage(today, a.schedule)
    + GithubStage(startDate, a.eventsWithNoComments, a.githubImportOk)
  }

  /** A connected run fetches attendance and queries comment-less events from
      the same start date, one week before the run day, and fetches the
      schedule from two weeks before it. */
  lemma RunStartDates(today: Day, a: RunAnswers)
    requires a.dbConnects
    ensures GetAttendance(today - 7) in RunTrace(today, a)
    ensures GetEventsWithNoComments(today - 7) in RunTrace(today, a)
    ensures GetSchedule(today - 14) in RunTrace(today, a)
  {
    var startDate := today - IMPORT_LOOKBACK_DAYS;
    var s2 := AttendanceStage(startDate, a.attendance, a.newStudents, a.missingAttendance);
    var s3 := ScheduleStage(today, a.schedule);
    var s4 := GithubStage(startDate, a.eventsWithNoComments, a.githubImportOk);
    AttendanceStageShape(startDate, a.attendance, a.newStudents, a.missingAttendance);
    ScheduleStageShape(today, a.schedule);
    GithubStageShape(startDate, a.eventsWithNoComments, a.githubImportOk);
    assert GetAttendance(today - 7) in s2 by { assert s2[1] == GetAttendance(today - 7); }
    assert GetSchedule(today - 14) in s3 by { assert s3[1] == GetSchedule(today - 14); }
    assert GetEventsWithNoComments(today - 7) in s4 by { assert s4[1] == GetEventsWithNoComments(today - 7); }
  }

  /** The dated fetches of the four stages, one per stage that makes one. */
  lemma StagesFetches(today: Day, a: RunAnswers)
    ensures Select(Stages(today, a), DatedFetch) ==
              [] + [GetAttendance(today - 7)] + [GetSchedule(today - 14)] + [GetEventsWithNoComments(today - 7)]
  {
    var startDate := today - IMPORT_LOOKBACK_DAYS;
    StudentStageFetches(today, a.clients);
    AttendanceStageFetches(startDate, a.attendance, a.newStudents, a.missingAttendance);
    ScheduleStageFetches(today, a.schedule);
    GithubStageFetches(startDate, a.eventsWithNoComments, a.githubImportOk);
    SelectConcat4(StudentStage(today, a.clients),
                  AttendanceStage(startDate, a.attendance, a.newStudents, a.missingAttendance),
                  ScheduleStage(today, a.schedule),
                  GithubStage(startDate, a.eventsWithNoComments, a.githubImportOk), DatedFetch);
  }

  /** The dated fetches of a run are exactly three, in order: attendance since
      one week before the run day, the schedule since two weeks before it, and
      the comment-less events since the same day as the attendance; a run
      without a database makes none. */
  lemma RunFetchDates(today: Day, a: RunAnswers)
    ensures Select(RunTrace(today, a), DatedFetch) ==
              if !a.dbConnects then []
              else [GetAttendance(today - 7), GetSchedule(today - 14), GetEventsWithNoComments(today - 7)]
  {
    if a.dbConnects {
      StagesFetches(today, a);
      SessionSelect(Stages(today, a), DatedFetch);
    } else {
      SelectSingle(ConnectDatabase(false), DatedFetch);
    }
  }

  /** The markers a run writes: none without a database, otherwise the four
      stage brackets in order, the last one closed by COMPLETE or, when the
      comment import is rate-limited, by ABORTED. */
  lemma RunLogTrail(today: Day, a: RunAnswers)
    ensures LogCodes(RunTrace(today, a)) ==
              if !a.dbConnects then []
              else [StartingStudentImport, StudentImportComplete]
                   + [StartingAttendanceImport, AttendanceImportComplete]
                   + [StartingScheduleImport, ScheduleImportComplete]
                   + [StartingGithubImport,
                      if |a.eventsWithNoComments| > 0 && !a.githubImportOk
                      then GithubImportAborted else GithubImportComplete]
  {
    if a.dbConnects {
      var startDate := today - IMPORT_LOOKBACK_DAYS;
      StudentStageLog(today, a.clients);
      AttendanceStageLog(startDate, a.attendance, a.newStudents, a.missingAttendance);
      ScheduleStageLog(today, a.schedule);
      GithubStageLog(startDate, a.eventsWithNoComments, a.githubImportOk);
      LogCodesConcat4(StudentStage(today, a.clients),
                      AttendanceStage(startDate, a.attendance, a.newStudents, a.missingAttendance),
                      ScheduleStage(today, a.schedule),
                      GithubStage(startDate, a.eventsWithNoComments, a.githubImportOk));
      SessionLog(Stages(today, a));
    } else {
      LogCodesSingle(ConnectDatabase(false));
    }
  }

  /** A run that connected disconnects exactly once; one that did not never does. */
  lemma RunDisconnectsOnce(today: Day, a: RunAnswers)
    ensures Count(RunTrace(today, a), DisconnectDatabase) == if a.dbConnects then 1 else 0
  {
    if a.dbConnects {
      var startDate := today - IMPORT_LOOKBACK_DAYS;
      var s1 := StudentStage(today, a.clients);
      var s2 := AttendanceStage(startDate, a.attendance, a.newStudents, a.missingAttendance);
      var s3 := ScheduleStage(today, a.schedule);
      var s4 := GithubStage(startDate, a.eventsWithNoComments, a.githubImportOk);
      StudentStageShape(today, a.clients);
      AttendanceStageShape(startDate, a.attendance, a.newStudents, a.missingAttendance);
      ScheduleStageShape(today, a.schedule);
      GithubStageShape(startDate, a.eventsWithNoComments, a.githubImportOk);
      CountPositive(s1, DisconnectDatabase);
      CountPositive(s2, DisconnectDatabase);
      CountPositive(s3, DisconnectDatabase);
      CountPositive(s4, DisconnectDatabase);
      CountConcat4(s1, s2, s3, s4, DisconnectDatabase);
      SessionDisconnects(Stages(today, a));
    } else {
      CountSingle(ConnectDatabase(false), DisconnectDatabase);
    }
  }

  /** The writes of a connected run are those of its first three stages, in
      order; the comment backfill writes none. */
  lemma RunWritesByStage(today: Day, a: RunAnswers)
    requires a.dbConnects
    ensures Select(RunTrace(today, a), TableWrite) ==
              Select(StudentStage(today, a.clients), TableWrite)
              + Select(AttendanceStage(today - IMPORT_LOOKBACK_DAYS, a.attendance, a.newStudents, a.missingAttendance), TableWrite)
              + Select(ScheduleStage(today, a.schedule), TableWrite)
  {
    var startDate := today - IMPORT_LOOKBACK_DAYS;
    GithubStageWrites(startDate, a.eventsWithNoComments, a.githubImportOk);
    SelectConcat4(StudentStage(today, a.clients),
                  AttendanceStage(startDate, a.attendance, a.newStudents, a.missingAttendance),
                  ScheduleStage(today, a.schedule),
                  GithubStage(startDate, a.eventsWithNoComments, a.githubImportOk), TableWrite);
    SessionSelect(Stages(today, a), TableWrite);
  }

  /** What a run writes: the fetched students once if any, the primary and
      then the follow-up attendance batch when non-empty, the schedule once if
      any, in that order and each into its own table; nothing at all without a
      database. */
  lemma RunWrites(today: Day, a: RunAnswers)
    ensures Select(RunTrace(today, a), TableWrite) ==
              if !a.dbConnects then []
              else (if |a.clients| > 0 then [Import(StudentTable, a.clients)] else [])
                   + ((if |a.attendance| > 0 then [Import(AttendanceTable, a.attendance)] else [])
                      + (if |a.newStudents| > 0 && |a.missingAttendance| > 0
                         then [Import(AttendanceTable, a.missingAttendance)] else []))
                   + (if |a.schedule| > 0 then [Import(ScheduleTable, a.schedule)] else [])
  {
    if a.dbConnects {
      var startDate := today - IMPORT_LOOKBACK_DAYS;
      RunWritesByStage(today, a);
      StudentStageWrites(today, a.clients);
      AttendanceStageWrites(startDate, a.attendance, a.newStudents, a.missingAttendance);
      ScheduleStageWrites(today, a.schedule);
    } else {
      SelectSingle(ConnectDatabase(false), TableWrite);
    }
  }

  /** The calls a run makes on the code-hosting service: none without a database
      or without comment-less events, only the bulk import when it is
      rate-limited, and otherwise the bulk import and the four follow-up passes. */
  lemma RunGithubCalls(today: Day, a: RunAnswers)
    ensures var events, startDate := a.eventsWithNoComments, today - IMPORT_LOOKBACK_DAYS;
      Select(RunTrace(today, a), GithubCall) ==
        if !a.dbConnects || |events| == 0 then []
        else if !a.githubImportOk then [Event.ImportGithubComments(startDate, events)]
        else [Event.ImportGithubComments(startDate, events),
              ImportGithubCommentsByLevel(0, startDate, events),
              ImportGithubCommentsByLevel(1, startDate, events),
              UpdateMissingGithubComments,
              UpdateEmptyGithubComments(events)]
  {
    if a.dbConnects {
      var startDate := today - IMPORT_LOOKBACK_DAYS;
      StudentStageCalls(today, a.clients);
      AttendanceStageCalls(startDate, a.attendance, a.newStudents, a.missingAttendance);
      ScheduleStageCalls(today, a.schedule);
      GithubStageCalls(startDate, a.eventsWithNoComments, a.githubImportOk);
      SelectConcat4(StudentStage(today, a.clients),
                    AttendanceStage(startDate, a.attendance, a.newStudents, a.missingAttendance),
                    ScheduleStage(today, a.schedule),
                    GithubStage(startDate, a.eventsWithNoComments, a.githubImportOk), GithubCall);
      SessionSelect(Stages(today, a), GithubCall);
    } else {
      SelectSingle(ConnectDatabase(false), GithubCall);
    }
  }

  /** The handler object. `trace` is every external call it has made so far. */
  class StudentImport {
    var trace: seq<Event>

    constructor ()
      ensures trace == []
    {
      trace := [];
    }

    /** The scheduled entry point: connect, run the four stages in order, disconnect. */
    method MyHandler(today: Day, a: RunAnswers)
      modifies this
      ensures trace == old(trace) + RunTrace(today, a)
    {
      var startDate := today - IMPORT_LOOKBACK_DAYS;
      trace := trace + [ConnectDatabase(a.dbConnects)];
      if a.dbConnects {
        ImportStudentsFromPike13(today, a.clients);
        ImportAttendanceFromPike13(startDate, a.attendance, a.newStudents, a.missingAttendance);
        ImportScheduleFromPike13(today, a.schedule);
        ImportGithubComments(startDate, a.eventsWithNoComments, a.githubImportOk);
        trace := trace + [DisconnectDatabase];
        SessionAppend(old(trace), StudentStage(today, a.clients),
                      AttendanceStage(startDate, a.attendance, a.newStudents, a.missingAttendance),
                      ScheduleStage(today, a.schedule),
                      GithubStage(startDate, a.eventsWithNoComments, a.githubImportOk));
      }
    }

    /** Student sync; `clients` is what the client fetch answers. */
    method ImportStudentsFromPike13(today: Day, clients: seq<Id>)
      modifies this
      ensures trace == old(trace) + StudentStage(today, clients)
    {
      trace := trace + [InsertLog(StartingStudentImport, For(today))];
      trace := trace + [GetClients];
      if |clients| > 0 {
        trace := trace + [Import(StudentTable, clients)];
      }
      trace := trace + [InsertLog(StudentImportComplete, For(today))];
    }

    /** Attendance sync; the last three parameters are what the attendance fetch,
        the new-student query and the missing-attendance fetch answer. */
    method ImportAttendanceFromPike13(startDate: Day, attendance: seq<Id>, newStudents: seq<Id>, missing: seq<Id>)
      modifies this
      ensures trace == old(trace) + AttendanceStage(startDate, attendance, newStudents, missing)
    {
      trace := trace + [InsertLog(StartingAttendanceImport, StartingFrom(startDate))];
      trace := trace + [GetAttendance(startDate)];
      var eventList := attendance;
      if |eventList| > 0 {
        trace := trace + [Import(AttendanceTable, eventList)];
      }
      AppendThree(old(trace), [InsertLog(StartingAttendanceImport, StartingFrom(startDate))],
                  [GetAttendance(startDate)], AttendanceWrite(attendance));
      assert trace == old(trace) + PrimaryAttendance(startDate, attendance);
      ghost var primary := trace;
      trace := trace + [GetStudentsUsingFlag(NEW_STUDENT_FLAG)];
      ghost var flagged := trace;
      if |newStudents| > 0 {
        trace := trace + [GetMissingAttendance(startDate, newStudents)];
        eventList := missing;
        if |eventList| > 0 {
          trace := trace + [Import(AttendanceTable, eventList)];
        }
        AppendTwo(flagged, [GetMissingAttendance(startDate, newStudents)], AttendanceWrite(missing));
      }
      assert trace == flagged + MissingAttendance(startDate, newStudents, missing);
      trace := trace + [InsertLog(AttendanceImportComplete, StartingFrom(startDate))];
      AppendFour(old(trace), PrimaryAttendance(startDate, attendance), [GetStudentsUsingFlag(NEW_STUDENT_FLAG)],
                 MissingAttendance(startDate, newStudents, missing),
                 [InsertLog(AttendanceImportComplete, StartingFrom(startDate))]);
    }

    /** Schedule sync; `schedule` is what the schedule fetch answers. */
    method ImportScheduleFromPike13(today: Day, schedule: seq<Id>)
      modifies this
      ensures trace == old(trace) + ScheduleStage(today, schedule)
    {
      var startDate := today - SCHEDULE_LOOKBACK_DAYS;
      trace := trace + [InsertLog(StartingScheduleImport, AsOf(startDate))];
      trace := trace + [GetSchedule(startDate)];
      if |schedule| > 0 {
        trace := trace + [Import(ScheduleTable, schedule)];
      }
      trace := trace + [InsertLog(ScheduleImportComplete, AsOf(startDate))];
    }

    /** Comment backfill; `eventList` is what the query for events without a
        comment answers and `result` what the bulk comment import returns. */
    method ImportGithubComments(startDate: Day, eventList: seq<Id>, result: bool)
      modifies this
      ensures trace == old(trace) + GithubStage(startDate, eventList, result)
    {
      trace := trace + [InsertLog(StartingGithubImport, StartingFrom(startDate))];
      trace := trace + [GetEventsWithNoComments(startDate)];
      ghost var queried := trace;
      AppendThree(old(trace), [InsertLog(StartingGithubImport, StartingFrom(startDate))],
                  [GetEventsWithNoComments(startDate)], Backfill(startDate, eventList, result));
      if |eventList| > 0 {
        trace := trace + [Event.ImportGithubComments(startDate, eventList)];
        if result {
          ghost var bulk := trace;
          trace := trace + [ImportGithubCommentsByLevel(0, startDate, eventList)];
          trace := trace + [ImportGithubCommentsByLevel(1, startDate, eventList)];
          trace := trace + [UpdateMissingGithubComments];
          trace := trace + [UpdateEmptyGithubComments(eventList)];
          AppendFour(bulk, [ImportGithubCommentsByLevel(0, startDate, eventList)],
                     [ImportGithubCommentsByLevel(1, startDate, eventList)],
                     [UpdateMissingGithubComments], [UpdateEmptyGithubComments(eventList)]);
          assert trace == queried + [Event.ImportGithubComments(startDate, eventList)] + Passes(startDate, eventList);
        } else {
          trace := trace + [InsertLog(GithubImportAborted, RateLimitExceeded)];
          AppendTwo(queried, [Event.ImportGithubComments(startDate, eventList)],
                    [InsertLog(GithubImportAborted, RateLimitExceeded)]);
          return;
        }
      }
      trace := trace + [InsertLog(GithubImportComplete, StartingFrom(startDate))];
      if |eventList| > 0 {
        AppendThree(queried, [Event.ImportGithubComments(startDate, eventList)], Passes(startDate, eventList),
                    [InsertLog(GithubImportComplete, StartingFrom(startDate))]);
      }
    }
  }
}
