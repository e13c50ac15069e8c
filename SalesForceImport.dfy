/**
 The scheduled CRM export handler: connect to the tracker database, log the
 start of the export window, connect to the CRM, run the export once, then
 close the run with COMPLETE, or with the connection error and ABORTED when
 the CRM cannot be reached, and disconnect.
 */
module SalesForceImportLambda {

  import opened Effects

  /** The export window reaches this many days into the past ... */
  const DATE_RANGE_PAST_IN_DAYS: int := 30

  /** ... and this many days into the future. */
  const DATE_RANGE_FUTURE_IN_DAYS: int := 45

  /** What the attempt to open the CRM connection answers. */
  datatype CrmConnect = CrmConnected | CrmConnectionException(message: string)

  /** How a run ends: without error, or with an error code and its message. */
  datatype EndStatus = NoError | Failed(errorCode: LogCode, errorMessage: string)

  /** The export window around the run day. */
  function Window(today: Day): (w: (Day, Day))
    ensures w.0 < today < w.1
    ensures w.1 - w.0 == 75
  {
    (today - DATE_RANGE_PAST_IN_DAYS, today + DATE_RANGE_FUTURE_IN_DAYS)
  }

  /** The closing of a connected run: COMPLETE without error, otherwise the
      error row carrying its message and then ABORTED; always the disconnect last. */
  function EndTrace(startDate: Day, endDate: Day, status: EndStatus): seq<Event> {
    match status
    case NoError =>
      [InsertLog(SalesForceImportComplete, FromTo(startDate, endDate))] + [DisconnectDatabase]
    case Failed(code, message) =>
      [InsertLog(code, ErrorMessage(message))]
      + [InsertLog(SalesForceImportAborted, FromTo(startDate, endDate))]
      + [DisconnectDatabase]
  }

  /** The closing writes exactly one of COMPLETE or the pair of the error code
      and ABORTED. */
  lemma EndTraceLog(startDate: Day, endDate: Day, status: EndStatus)
    ensures LogCodes(EndTrace(startDate, endDate, status)) ==
              match status
              case NoError => [SalesForceImportComplete]
              case Failed(code, _) => [code, SalesForceImportAborted]
  {
    var done, dis := InsertLog(SalesForceImportComplete, FromTo(startDate, endDate)), DisconnectDatabase;
    LogCodesSingle(done); LogCodesSingle(dis);
    match status {
      case NoError =>
        LogCodesConcat([done], [dis]);
      case Failed(code, message) =>
        var err, aborted := InsertLog(code, ErrorMessage(message)), InsertLog(SalesForceImportAborted, FromTo(startDate, endDate));
        LogCodesSingle(err); LogCodesSingle(aborted);
        LogCodesConcat3([err], [aborted], [dis]);
    }
  }

  /** The closing disconnects exactly once. */
  lemma EndTraceDisconnects(startDate: Day, endDate: Day, status: EndStatus)
    ensures Count(EndTrace(startDate, endDate, status), DisconnectDatabase) == 1
  {
    var done, dis := InsertLog(SalesForceImportComplete, FromTo(startDate, endDate)), DisconnectDatabase;
    CountSingle(done, dis); CountSingle(dis, dis);
    match status {
      case NoError =>
        CountConcat([done], [dis], dis);
      case Failed(code, message) =>
        var err, aborted := InsertLog(code, ErrorMessage(message)), InsertLog(SalesForceImportAborted, FromTo(startDate, endDate));
        CountSingle(err, dis); CountSingle(aborted, dis);
        CountConcat3([err], [aborted], [dis], dis);
    }
  }

  /** The closing begins with COMPLETE over the window when there is no error,
      and otherwise with the row of the error code carrying its message followed
      by ABORTED over the window; it always ends with the disconnect. */
  lemma EndTraceShape(startDate: Day, endDate: Day, status: EndStatus)
    ensures var t := EndTrace(startDate, endDate, status);
      |t| >= 2 && t[|t| - 1] == DisconnectDatabase
      && (status.NoError? ==> |t| == 2 && t[0] == InsertLog(SalesForceImportComplete, FromTo(startDate, endDate)))
      && (status.Failed? ==>
            |t| == 3 && t[0] == InsertLog(status.errorCode, ErrorMessage(status.errorMessage))
            && t[1] == InsertLog(SalesForceImportAborted, FromTo(startDate, endDate)))
  {
  }

  /** The closing runs no export. */
  lemma EndTraceUpdates(startDate: Day, endDate: Day, status: EndStatus)
    ensures Select(EndTrace(startDate, endDate, status), CrmExport) == []
  {
    var done, dis := InsertLog(SalesForceImportComplete, FromTo(startDate, endDate)), DisconnectDatabase;
    SelectSingle(done, CrmExport); SelectSingle(dis, CrmExport);
    match status {
      case NoError =>
        SelectConcat([done], [dis], CrmExport);
      case Failed(code, message) =>
        var err, aborted := InsertLog(code, ErrorMessage(message)), InsertLog(SalesForceImportAborted, FromTo(startDate, endDate));
        SelectSingle(err, CrmExport); SelectSingle(aborted, CrmExport);
        SelectConcat3([err], [aborted], [dis], CrmExport);
    }
  }

  /** One whole run of the handler: nothing but the failed connection attempt
      when the database cannot be reached; otherwise START, the CRM connection
      attempt, and either the closing for the connection error or the export
      followed by the closing without error. */
  function ExportTrace(today: Day, dbConnects: bool, crm: CrmConnect): seq<Event> {
    var w := Window(today);
    var startDate, endDate := w.0, w.1;
    if !dbConnects then [ConnectDatabase(false)]
    else
      [ConnectDatabase(true)] + [InsertLog(StartingSalesForceImport, FromTo(startDate, endDate))]
      + [ConnectSalesForce] + AfterCrmConnect(today, startDate, endDate, crm)
  }

  /** What follows the CRM connection attempt. */
  function AfterCrmConnect(today: Day, startDate: Day, endDate: Day, crm: CrmConnect): seq<Event> {
    match crm
    case CrmConnectionException(message) =>
      EndTrace(startDate, endDate, Failed(SalesForceConnectionError, message))
    case CrmConnected =>
      [UpdateSalesForce(today, startDate, endDate)] + EndTrace(startDate, endDate, NoError)
  }

  /** A run begins with the database connection attempt and, when the database
      cannot be reached, ends there. Otherwise it makes six calls: START over
      the export window, the CRM connection attempt, then either the export and
      COMPLETE or the connection error carrying the exception's message and
      ABORTED, and last the disconnect. */
  lemma ExportShape(today: Day, dbConnects: bool, crm: CrmConnect)
    ensures var t := ExportTrace(today, dbConnects, crm);
      |t| >= 1 && t[0] == ConnectDatabase(dbConnects)
      && (!dbConnects ==> t == [ConnectDatabase(false)])
      && (dbConnects ==>
            |t| == 6 && t[1] == InsertLog(StartingSalesForceImport, FromTo(today - 30, today + 45))
            && t[2] == ConnectSalesForce && t[5] == DisconnectDatabase
            && (crm.CrmConnected? ==>
                  t[3] == UpdateSalesForce(today, today - 30, today + 45)
                  && t[4] == InsertLog(SalesForceImportComplete, FromTo(today - 30, today + 45)))
            && (crm.CrmConnectionException? ==>
                  t[3] == InsertLog(SalesForceConnectionError, ErrorMessage(crm.message))
                  && t[4] == InsertLog(SalesForceImportAborted, FromTo(today - 30, today + 45))))
  {
  }

  /** After the CRM connection attempt the run writes COMPLETE when the CRM
      could be reached, and the connection error followed by ABORTED when not. */
  lemma AfterCrmConnectLog(today: Day, startDate: Day, endDate: Day, crm: CrmConnect)
    ensures LogCodes(AfterCrmConnect(today, startDate, endDate, crm)) ==
              if crm.CrmConnected? then [SalesForceImportComplete]
              else [SalesForceConnectionError, SalesForceImportAborted]
  {
    match crm {
      case CrmConnectionException(message) =>
        EndTraceLog(startDate, endDate, Failed(SalesForceConnectionError, message));
      case CrmConnected =>
        LogCodesSingle(UpdateSalesForce(today, startDate, endDate));
        EndTraceLog(startDate, endDate, NoError);
        LogCodesConcat([UpdateSalesForce(today, startDate, endDate)], EndTrace(startDate, endDate, NoError));
    }
  }

  /** The markers a run writes: none without a database; otherwise START, then
      COMPLETE when the CRM could be reached and the connection error followed
      by ABORTED when it could not. */
  lemma ExportLogTrail(today: Day, dbConnects: bool, crm: CrmConnect)
    ensures LogCodes(ExportTrace(today, dbConnects, crm)) ==
              if !dbConnects then []
              else [StartingSalesForceImport] +
                   (if crm.CrmConnected? then [SalesForceImportComplete]
                    else [SalesForceConnectionError, SalesForceImportAborted])
  {
    var startDate, endDate := Window(today).0, Window(today).1;
    if dbConnects {
      var c, start := ConnectDatabase(true), InsertLog(StartingSalesForceImport, FromTo(startDate, endDate));
      LogCodesSingle(c); LogCodesSingle(start); LogCodesSingle(ConnectSalesForce);
      AfterCrmConnectLog(today, startDate, endDate, crm);
      LogCodesConcat4([c], [start], [ConnectSalesForce], AfterCrmConnect(today, startDate, endDate, crm));
    } else {
      LogCodesSingle(ConnectDatabase(false));
    }
  }

  /** A run that connected to the database disconnects exactly once; one that
      did not never does. */
  lemma ExportDisconnectsOnce(today: Day, dbConnects: bool, crm: CrmConnect)
    ensures Count(ExportTrace(today, dbConnects, crm), DisconnectDatabase) == if dbConnects then 1 else 0
  {
    var startDate, endDate := Window(today).0, Window(today).1;
    var dis := DisconnectDatabase;
    if dbConnects {
      var c, start := ConnectDatabase(true), InsertLog(StartingSalesForceImport, FromTo(startDate, endDate));
      CountSingle(c, dis); CountSingle(start, dis); CountSingle(ConnectSalesForce, dis);
      match crm {
        case CrmConnectionException(message) =>
          EndTraceDisconnects(startDate, endDate, Failed(SalesForceConnectionError, message));
        case CrmConnected =>
          CountSingle(UpdateSalesForce(today, startDate, endDate), dis);
          EndTraceDisconnects(startDate, endDate, NoError);
          CountConcat([UpdateSalesForce(today, startDate, endDate)], EndTrace(startDate, endDate, NoError), dis);
      }
      CountConcat4([c], [start], [ConnectSalesForce], AfterCrmConnect(today, startDate, endDate, crm), dis);
    } else {
      CountSingle(ConnectDatabase(false), dis);
    }
  }

  /** The export is run exactly once, over the run day and its window, when
      both connections succeed, and never otherwise. */
  lemma ExportUpdatesOnce(today: Day, dbConnects: bool, crm: CrmConnect)
    ensures Select(ExportTrace(today, dbConnects, crm), CrmExport) ==
              if dbConnects && crm.CrmConnected?
              then [UpdateSalesForce(today, today - 30, today + 45)] else []
  {
    var startDate, endDate := Window(today).0, Window(today).1;
    if dbConnects {
      var c, start := ConnectDatabase(true), InsertLog(StartingSalesForceImport, FromTo(startDate, endDate));
      SelectSingle(c, CrmExport); SelectSingle(start, CrmExport); SelectSingle(ConnectSalesForce, CrmExport);
      match crm {
        case CrmConnectionException(message) =>
          EndTraceUpdates(startDate, endDate, Failed(SalesForceConnectionError, message));
        case CrmConnected =>
          SelectSingle(UpdateSalesForce(today, startDate, endDate), CrmExport);
          EndTraceUpdates(startDate, endDate, NoError);
          SelectConcat([UpdateSalesForce(today, startDate, endDate)], EndTrace(startDate, endDate, NoError), CrmExport);
      }
      SelectConcat4([c], [start], [ConnectSalesForce], AfterCrmConnect(today, startDate, endDate, crm), CrmExport);
    } else {
      SelectSingle(ConnectDatabase(false), CrmExport);
    }
  }

  /** The handler object. `trace` is every external call it has made so far;
      `startDate` and `endDate` hold the export window of the current run. */
  class SalesForceImport {
    var trace: seq<Event>
    var startDate: Day
    var endDate: Day

    constructor ()
      ensures trace == []
    {
      trace := [];
    }

    /** The scheduled entry point; `dbConnects` and `crm` are what the database
        and CRM connection attempts answer. */
    method MyHandler(today: Day, dbConnects: bool, crm: CrmConnect)
      modifies this
      ensures (startDate, endDate) == Window(today)
      ensures trace == old(trace) + ExportTrace(today, dbConnects, crm)
    {
      var w := Window(today);
      startDate, endDate := w.0, w.1;
      trace := trace + [ConnectDatabase(dbConnects)];
      if !dbConnects {
        return;
      }
      trace := trace + [InsertLog(StartingSalesForceImport, FromTo(startDate, endDate))];
      trace := trace + [ConnectSalesForce];
      ghost var attempted := trace;
      if crm.CrmConnectionException? {
        LambdaFunctionEnd(Failed(SalesForceConnectionError, crm.message));
        AppendFour(old(trace), [ConnectDatabase(true)], [InsertLog(StartingSalesForceImport, FromTo(startDate, endDate))],
                   [ConnectSalesForce], AfterCrmConnect(today, startDate, endDate, crm));
        return;
      }
      trace := trace + [UpdateSalesForce(today, startDate, endDate)];
      LambdaFunctionEnd(NoError);
      AppendTwo(attempted, [UpdateSalesForce(today, startDate, endDate)], EndTrace(startDate, endDate, NoError));
      AppendFour(old(trace), [ConnectDatabase(true)], [InsertLog(StartingSalesForceImport, FromTo(startDate, endDate))],
                 [ConnectSalesForce], AfterCrmConnect(today, startDate, endDate, crm));
    }

    /** Closes a connected run with `status` over the window held in the fields. */
    method LambdaFunctionEnd(status: EndStatus)
      modifies this
      ensures startDate == old(startDate) && endDate == old(endDate)
      ensures trace == old(trace) + EndTrace(startDate, endDate, status)
    {
      if status.NoError? {
        trace := trace + [InsertLog(SalesForceImportComplete, FromTo(startDate, endDate))];
      } else {
        trace := trace + [InsertLog(status.errorCode, ErrorMessage(status.errorMessage))];
        trace := trace + [InsertLog(SalesForceImportAborted, FromTo(startDate, endDate))];
      }
      trace := trace + [DisconnectDatabase];
    }
  }
}
