/**
 The observable effects of the two scheduled import handlers.

 Every call a handler makes on the tracker database, on the scheduling
 service client, on the code-hosting client or on the CRM is recorded as one
 `Event`; a run is described by the sequence of events it produces, in order.
 What those external calls do internally is not modelled: their answers are
 inputs of the handlers.
 */
module Effects {

  /** A calendar day, counted in whole days (later days are larger). */
  type Day = int

  /** The external identifier of a fetched record (a student, an attendance event
      or a schedule entry); the model only needs to know which records a batch holds. */
  type Id = int

  /** The tables the handlers write fetched batches into. */
  datatype Table = StudentTable | AttendanceTable | ScheduleTable

  /** The log marker codes of the tracker's run log that the handlers write. */
  datatype LogCode =
    | StartingStudentImport | StudentImportComplete
    | StartingAttendanceImport | AttendanceImportComplete
    | StartingScheduleImport | ScheduleImportComplete
    | StartingGithubImport | GithubImportComplete | GithubImportAborted
    | StartingSalesForceImport | SalesForceImportComplete | SalesForceImportAborted
    | SalesForceConnectionError

  /** The free-text part of a log row, kept as the values it is built from. */
  datatype Detail =
    | For(day: Day)                    // " for <day> ***"
    | StartingFrom(day: Day)           // " starting from <day> ***"
    | AsOf(day: Day)                   // " as of <day> ***"
    | RateLimitExceeded                // ": Github API rate limit exceeded ***"
    | FromTo(startDay: Day, endDay: Day) // " from <start> to <end> ***"
    | ErrorMessage(text: string)       // ": <message>"

  /** One external call made by a handler. */
  datatype Event =
    // tracker database
    | ConnectDatabase(succeeded: bool)
    | DisconnectDatabase
    | InsertLog(code: LogCode, detail: Detail)
    | Import(table: Table, batch: seq<Id>)
    | GetStudentsUsingFlag(flag: string)
    | GetEventsWithNoComments(since: Day)
    // scheduling service
    | GetClients
    | GetAttendance(since: Day)
    | GetMissingAttendance(since: Day, students: seq<Id>)
    | GetSchedule(since: Day)
    // code-hosting service
    | ImportGithubComments(since: Day, events: seq<Id>)
    | ImportGithubCommentsByLevel(level: nat, since: Day, events: seq<Id>)
    | UpdateMissingGithubComments
    | UpdateEmptyGithubComments(events: seq<Id>)
    // CRM
    | ConnectSalesForce
    | UpdateSalesForce(today: Day, startDate: Day, endDate: Day)

  /** True for the calls made on the code-hosting service. */
  predicate IsGithubCall(e: Event) {
    e.ImportGithubComments? || e.ImportGithubCommentsByLevel? ||
    e.UpdateMissingGithubComments? || e.UpdateEmptyGithubComments?
  }

  /** The kinds of event a property may single out. */
  datatype Kind =
    | TableWrite    // a batch written into a table
    | GithubCall    // a call on the code-hosting service
    | CrmExport     // an export run on the CRM
    | MissingAttendanceFetch // a follow-up fetch of missing attendance
    | DatedFetch    // a fetch or query of everything since a start date

  predicate IsKind(e: Event, k: Kind) {
    match k
    case TableWrite => e.Import?
    case GithubCall => IsGithubCall(e)
    case CrmExport => e.UpdateSalesForce?
    case MissingAttendanceFetch => e.GetMissingAttendance?
    case DatedFetch => e.GetAttendance? || e.GetSchedule? || e.GetEventsWithNoComments?
  }

  /** The event itself if it is of kind `k`. */
  function OfKind(e: Event, k: Kind): seq<Event> {
    if IsKind(e, k) then [e] else []
  }

  /** The marker code an event writes, if it is a log write. */
  function LogOf(e: Event): seq<LogCode> {
    if e.InsertLog? then [e.code] else []
  }

  /** The log trail: the marker codes written, in order. */
  function LogCodes(t: seq<Event>): seq<LogCode> {
    if t == [] then [] else LogOf(t[0]) + LogCodes(t[1..])
  }

  /** The events of kind `k`, in order. */
  function Select(t: seq<Event>, k: Kind): seq<Event> {
    if t == [] then [] else OfKind(t[0], k) + Select(t[1..], k)
  }

  /** How many times the event `e` occurs. */
  function Count(t: seq<Event>, e: Event): nat {
    if t == [] then 0 else (if t[0] == e then 1 else 0) + Count(t[1..], e)
  }

  lemma {:induction false} LogCodesConcat(a: seq<Event>, b: seq<Event>)
    ensures LogCodes(a + b) == LogCodes(a) + LogCodes(b)
  {
    if a == [] {
      assert a + b == b;
    } else {
      assert (a + b)[1..] == a[1..] + b;
      LogCodesConcat(a[1..], b);
    }
  }

  lemma {:induction false} SelectConcat(a: seq<Event>, b: seq<Event>, k: Kind)
    ensures Select(a + b, k) == Select(a, k) + Select(b, k)
  {
    if a == [] {
      assert a + b == b;
    } else {
      assert (a + b)[1..] == a[1..] + b;
      SelectConcat(a[1..], b, k);
    }
  }

  lemma {:induction false} CountConcat(a: seq<Event>, b: seq<Event>, e: Event)
    ensures Count(a + b, e) == Count(a, e) + Count(b, e)
  {
    if a == [] {
      assert a + b == b;
    } else {
      assert (a + b)[1..] == a[1..] + b;
      CountConcat(a[1..], b, e);
    }
  }

  lemma LogCodesConcat3(a: seq<Event>, b: seq<Event>, c: seq<Event>)
    ensures LogCodes(a + b + c) == LogCodes(a) + LogCodes(b) + LogCodes(c)
  {
    LogCodesConcat(a, b);
    LogCodesConcat(a + b, c);
  }

  lemma SelectConcat3(a: seq<Event>, b: seq<Event>, c: seq<Event>, k: Kind)
    ensures Select(a + b + c, k) == Select(a, k) + Select(b, k) + Select(c, k)
  {
    SelectConcat(a, b, k);
    SelectConcat(a + b, c, k);
  }

  lemma SelectConcat4(a: seq<Event>, b: seq<Event>, c: seq<Event>, d: seq<Event>, k: Kind)
    ensures Select(a + b + c + d, k) == Select(a, k) + Select(b, k) + Select(c, k) + Select(d, k)
  {
    SelectConcat(a, b, k);
    SelectConcat(a + b, c, k);
    SelectConcat(a + b + c, d, k);
  }

  lemma CountConcat3(a: seq<Event>, b: seq<Event>, c: seq<Event>, e: Event)
    ensures Count(a + b + c, e) == Count(a, e) + Count(b, e) + Count(c, e)
  {
    CountConcat(a, b, e);
    CountConcat(a + b, c, e);
  }

  lemma CountConcat4(a: seq<Event>, b: seq<Event>, c: seq<Event>, d: seq<Event>, e: Event)
    ensures Count(a + b + c + d, e) == Count(a, e) + Count(b, e) + Count(c, e) + Count(d, e)
  {
    CountConcat(a, b, e);
    CountConcat(a + b, c, e);
    CountConcat(a + b + c, d, e);
  }

  lemma SelectSingle(e: Event, k: Kind)
    ensures Select([e], k) == OfKind(e, k)
  {
    assert [e][1..] == [];
  }

  lemma CountSingle(x: Event, e: Event)
    ensures Count([x], e) == if x == e then 1 else 0
  {
    assert [x][1..] == [];
  }

  lemma LogCodesConcat4(a: seq<Event>, b: seq<Event>, c: seq<Event>, d: seq<Event>)
    ensures LogCodes(a + b + c + d) == LogCodes(a) + LogCodes(b) + LogCodes(c) + LogCodes(d)
  {
    LogCodesConcat(a, b);
    LogCodesConcat(a + b, c);
    LogCodesConcat(a + b + c, d);
  }

  lemma LogCodesSingle(e: Event)
    ensures LogCodes([e]) == LogOf(e)
  {
    assert [e][1..] == [];
  }

  /** A database session: a successful connection, the work done over it,
      and the disconnect. */
  function Session(work: seq<Event>): seq<Event> {
    [ConnectDatabase(true)] + work + [DisconnectDatabase]
  }

  lemma SessionLog(work: seq<Event>)
    ensures LogCodes(Session(work)) == LogCodes(work)
  {
    LogCodesSingle(ConnectDatabase(true)); LogCodesSingle(DisconnectDatabase);
    LogCodesConcat3([ConnectDatabase(true)], work, [DisconnectDatabase]);
  }

  lemma SessionSelect(work: seq<Event>, k: Kind)
    ensures Select(Session(work), k) == Select(work, k)
  {
    SelectSingle(ConnectDatabase(true), k); SelectSingle(DisconnectDatabase, k);
    SelectConcat3([ConnectDatabase(true)], work, [DisconnectDatabase], k);
  }

  /** A session disconnects once more than its work does. */
  lemma SessionDisconnects(work: seq<Event>)
    ensures Count(Session(work), DisconnectDatabase) == Count(work, DisconnectDatabase) + 1
  {
    CountSingle(ConnectDatabase(true), DisconnectDatabase); CountSingle(DisconnectDatabase, DisconnectDatabase);
    CountConcat3([ConnectDatabase(true)], work, [DisconnectDatabase], DisconnectDatabase);
  }

  /** Appending a connection, four pieces of work and a disconnect one after
      the other appends one session around the four pieces. */
  lemma SessionAppend(pre: seq<Event>, w1: seq<Event>, w2: seq<Event>, w3: seq<Event>, w4: seq<Event>)
    ensures pre + [ConnectDatabase(true)] + w1 + w2 + w3 + w4 + [DisconnectDatabase] ==
            pre + Session(w1 + w2 + w3 + w4)
  {
  }

  /** Appending pieces one after the other appends their concatenation. */
  lemma AppendTwo(pre: seq<Event>, a: seq<Event>, b: seq<Event>)
    ensures pre + a + b == pre + (a + b)
  {
  }

  lemma AppendThree(pre: seq<Event>, a: seq<Event>, b: seq<Event>, c: seq<Event>)
    ensures pre + a + b + c == pre + (a + b + c)
  {
  }

  lemma AppendFour(pre: seq<Event>, a: seq<Event>, b: seq<Event>, c: seq<Event>, d: seq<Event>)
    ensures pre + a + b + c + d == pre + (a + b + c + d)
  {
  }

  /** An event occurs exactly when it is counted at least once. */
  lemma {:induction false} CountPositive(t: seq<Event>, e: Event)
    ensures Count(t, e) > 0 <==> e in t
  {
    if t != [] {
      CountPositive(t[1..], e);
      assert t == [t[0]] + t[1..];
    }
  }
}
