/** The endpoints behind `/reports/{id}/parsed` and `/reports/{id}/rows`:
    ingestion of a parse result sent by the parsing worker, and the two row
    readers with their ordered access checks. */
module ParsedEndpoint {
  import opened Common
  import opened Reports

  /** What the parser produced for a report. */
  datatype ParsedReport = ParsedReport(broker: string, version: string, period: Period, rows: seq<Row>)

  /** The body the parsing worker sends back. */
  datatype ParsingResult = ParsingResult(isParsed: bool, parsedReport: Option<ParsedReport>, message: Option<string>)

  /** The parsed path is taken only when the worker says so and sends a report. */
  predicate IsParsedResult(result: ParsingResult) {
    result.isParsed && result.parsedReport.Some?
  }

  /** The report's year: known only when its period lies within one
      calendar year. */
  function YearOf(period: Period): (year: Option<int>)
    ensures year.Some? <==> period.start.year == period.end.year
    ensures year.Some? ==> year.value == period.start.year
  {
    if period.start.year == period.end.year then Some(period.start.year) else None
  }

  /** The fields stored for a parsed report, with the derived year. */
  function InfoOf(report: ParsedReport): ParsedInfo {
    ParsedInfo(report.broker, report.version, report.period, YearOf(report.period))
  }

  /** The stored report after a parse result arrives at `now`. */
  function Ingested(r: Report, result: ParsingResult, now: Timestamp): Report {
    if IsParsedResult(result) then WithParseResult(r, Parsed, Some(InfoOf(result.parsedReport.value)), now)
    else WithParseResult(r, NotParsed, None, now)
  }

  /** The rows table after a parse result for report `id` arrives: the old
      rows of that report gone, the new ones in their place on the parsed
      path. */
  function IngestedRows(rows: map<ReportId, seq<ReportRow>>, id: ReportId, result: ParsingResult)
    : map<ReportId, seq<ReportRow>>
  {
    if IsParsedResult(result) then (rows - {id})[id := Numbered(result.parsedReport.value.rows)]
    else rows - {id}
  }

  /** Ingest a parse result: look the report up (404 when it is missing or
      soft-deleted, before anything is touched), delete all of its rows,
      then either store the parsed fields with the new rows or mark the
      report not parsed. */
  method UploadParsingResult(store: ReportStore, reportId: ReportId, result: ParsingResult, now: Timestamp)
    returns (r: Outcome<ApiError>)
    requires store.Valid()
    modifies store
    ensures store.Valid()
    ensures r == (if old(store.Visible(reportId)).None? then Fail(NotFound) else Pass)
    ensures r.Fail? ==> store.reports == old(store.reports) && store.rows == old(store.rows)
    ensures r.Pass? ==>
      && store.reports == old(store.reports)[reportId := Ingested(old(store.reports)[reportId], result, now)]
      && store.rows == IngestedRows(old(store.rows), reportId, result)
  {
    var report := store.GetReport(reportId);
    if report.None? {
      return Fail(NotFound);
    }
    store.DeleteReportRows(reportId);
    if result.isParsed && result.parsedReport.Some? {
      var parsed := result.parsedReport.value;
      var info := InfoOf(parsed);
      store.UpdateParsedReport(reportId, Parsed, Some(info), now);
      store.AddReportRows(reportId, parsed.rows);
    } else {
      store.UpdateParsedReport(reportId, NotParsed, None, now);
    }
    r := Pass;
  }

  // ---------------------------------------------------------------------
  // What an ingestion leaves behind

  /** On the parsed path the report becomes parsed with the parser's fields
      and the derived year; otherwise it becomes not parsed with every
      derived field cleared. Ownership and payment state survive. */
  lemma IngestedReportFields(r: Report, result: ParsingResult, now: Timestamp)
    ensures var n := Ingested(r, result, now);
      && n.reportId == r.reportId && n.userId == r.userId
      && n.paymentStatus == r.paymentStatus && n.isDeleted == r.isDeleted
      && (n.parseStatus == Parsed <==> IsParsedResult(result))
      && (IsParsedResult(result) ==>
            var p := result.parsedReport.value;
            && n.broker == Some(p.broker) && n.parserVersion == Some(p.version)
            && n.period == Some(p.period) && n.parsedAt == Some(now)
            && (n.year.Some? <==> p.period.start.year == p.period.end.year)
            && (n.year.Some? ==> n.year.value == p.period.start.year))
      && (!IsParsedResult(result) ==>
            n.parseStatus == NotParsed && n.year.None? && n.period.None?
            && n.broker.None? && n.parserVersion.None? && n.price.None?)
  {
    if IsParsedResult(result) {
      var p := result.parsedReport.value;
      assert YearOf(p.period).Some? <==> p.period.start.year == p.period.end.year;
    }
  }

  /** The ingested report's rows are exactly the new rows, numbered 1..N,
      on the parsed path, and none otherwise: nothing of the previous rows
      remains either way. */
  lemma IngestedRowsReplace(rows: map<ReportId, seq<ReportRow>>, id: ReportId, result: ParsingResult)
    ensures var after := RowsIn(IngestedRows(rows, id, result), id);
      && Dense(after)
      && (IsParsedResult(result) ==> RowData(after) == result.parsedReport.value.rows)
      && (!IsParsedResult(result) ==> after == [])
  {
    if IsParsedResult(result) {
      var stored := Numbered(result.parsedReport.value.rows);
      assert RowsIn(IngestedRows(rows, id, result), id) == stored;
    }
  }

  /** Ingestion for one report leaves every other report's rows alone. */
  lemma IngestedRowsFrame(rows: map<ReportId, seq<ReportRow>>, id: ReportId, result: ParsingResult, other: ReportId)
    requires other != id
    ensures RowsIn(IngestedRows(rows, id, result), other) == RowsIn(rows, other)
  {
  }

  /** Ingesting twice in a row leaves the rows of the second result only. */
  lemma ReingestionKeepsOnlyLatestRows(rows: map<ReportId, seq<ReportRow>>, id: ReportId,
                                       first: ParsingResult, second: ParsingResult)
    requires IsParsedResult(second)
    ensures RowData(RowsIn(IngestedRows(IngestedRows(rows, id, first), id, second), id))
         == second.parsedReport.value.rows
  {
    IngestedRowsReplace(IngestedRows(rows, id, first), id, second);
  }

  // ---------------------------------------------------------------------
  // Row readers

  /** The checks of the simple row reader, in order: the report must be
      visible (404), owned by the requester (403) and parsed (409). */
  function RowsGate(report: Option<Report>, user: UserId): (r: Outcome<ApiError>)
    ensures r.Pass? <==> report.Some? && report.value.userId == user && report.value.parseStatus == Parsed
    ensures r == Fail(NotFound) <==> report.None?
    ensures r == Fail(Forbidden) <==> report.Some? && report.value.userId != user
    ensures r == Fail(ReportNotParsed) <==>
      report.Some? && report.value.userId == user && report.value.parseStatus != Parsed
  {
    if report.None? then Fail(NotFound)
    else if report.value.userId != user then Fail(Forbidden)
    else if report.value.parseStatus != Parsed then Fail(ReportNotParsed)
    else Pass
  }

  /** The detailed row reader adds a fourth check after those three: the
      report must be payed (402). */
  function DetailedRowsGate(report: Option<Report>, user: UserId): (r: Outcome<ApiError>)
    ensures r.Pass? <==>
      report.Some? && report.value.userId == user && report.value.parseStatus == Parsed
      && report.value.paymentStatus == Payed
    ensures r == Fail(ReportNotPayed) <==>
      report.Some? && report.value.userId == user && report.value.parseStatus == Parsed
      && report.value.paymentStatus != Payed
  {
    match RowsGate(report, user)
    case Fail(e) => Fail(e)
    case Pass => if report.value.paymentStatus != Payed then Fail(ReportNotPayed) else Pass
  }

  /** The detailed reader refuses everything the simple reader refuses, with
      the same error, and of what the simple reader grants it refuses
      exactly the unpaid reports. */
  lemma DetailedGateRefinesSimple(report: Option<Report>, user: UserId)
    ensures RowsGate(report, user).Fail? ==> DetailedRowsGate(report, user) == RowsGate(report, user)
    ensures RowsGate(report, user).Pass? ==>
      (DetailedRowsGate(report, user).Pass? <==> report.value.paymentStatus == Payed)
  {
  }

  /** GET /reports/{id}/rows. */
  method GetReportRows(store: ReportStore, reportId: ReportId, user: UserId)
    returns (r: Result<seq<ReportRow>, ApiError>)
    requires store.Valid()
    ensures r.Ok? <==> RowsGate(store.Visible(reportId), user).Pass?
    ensures r.Err? ==> Fail(r.error) == RowsGate(store.Visible(reportId), user)
    ensures r.Ok? ==> r.value == store.RowsOf(reportId) && Dense(r.value)
  {
    var report := store.GetReport(reportId);
    if report.None? {
      return Err(NotFound);
    }
    if report.value.userId != user {
      return Err(Forbidden);
    }
    if report.value.parseStatus != Parsed {
      return Err(ReportNotParsed);
    }
    var rows := store.GetReportRows(reportId);
    r := Ok(rows);
  }

  /** GET /reports/{id}/rows/detailed. */
  method GetReportDetailedRows(store: ReportStore, reportId: ReportId, user: UserId)
    returns (r: Result<seq<ReportRow>, ApiError>)
    requires store.Valid()
    ensures r.Ok? <==> DetailedRowsGate(store.Visible(reportId), user).Pass?
    ensures r.Err? ==> Fail(r.error) == DetailedRowsGate(store.Visible(reportId), user)
    ensures r.Ok? ==> r.value == store.RowsOf(reportId) && Dense(r.value)
  {
    var report := store.GetReport(reportId);
    if report.None? {
      return Err(NotFound);
    }
    if report.value.userId != user {
      return Err(Forbidden);
    }
    if report.value.parseStatus != Parsed {
      return Err(ReportNotParsed);
    }
    if report.value.paymentStatus != Payed {
      return Err(ReportNotPayed);
    }
    var rows := store.GetReportRows(reportId);
    r := Ok(rows);
  }

  /** A soft-deleted report is not found by either row reader. */
  lemma DeletedReportIsNotFound(store: ReportStore, reportId: ReportId, user: UserId)
    requires reportId in store.reports && store.reports[reportId].isDeleted
    ensures RowsGate(store.Visible(reportId), user) == Fail(NotFound)
    ensures DetailedRowsGate(store.Visible(reportId), user) == Fail(NotFound)
  {
  }
}
