/** Reports, their parsed rows, and the report store the endpoints talk to.
    The store is the database layer: a table of reports keyed by id and a
    table of rows keyed by (report id, row number). */
module Reports {
  import opened Common

  datatype ParseStatus = ParseInProgress | Parsed | NotParsed

  datatype PaymentStatus = NotPayed | PaymentInProgress | Payed | PaymentError

  /** An inclusive period of dates. */
  datatype Period = Period(start: Date, end: Date)

  /** One uploaded report and its processing and payment state. */
  datatype Report = Report(
    reportId: ReportId,
    userId: UserId,
    filename: string,
    createdAt: Timestamp,
    parseStatus: ParseStatus,
    paymentStatus: PaymentStatus,
    price: Option<real>,
    parsedAt: Option<Timestamp>,
    broker: Option<string>,
    parserVersion: Option<string>,
    period: Option<Period>,
    year: Option<int>,
    paymentStatusUpdatedAt: Option<Timestamp>,
    isDeleted: bool,
    deletedAt: Option<Timestamp>)

  /** One parsed income line, as the parser delivers it. */
  datatype Row = Row(
    isin: string,
    name: string,
    taxRate: string,
    countryCode: string,
    currencyCode: string,
    incomeAmount: real,
    incomeDate: Date,
    incomeCurrencyRate: real,
    taxPaymentDate: Option<Date>,
    payedTaxAmount: Option<real>,
    taxPaymentCurrencyRate: Option<real>)

  /** A stored row: the parser's row with its 1-based number in the report. */
  datatype ReportRow = ReportRow(rowN: nat, row: Row)

  /** The parsed fields the ingestion endpoint hands to the store, including
      the derived year. */
  datatype ParsedInfo = ParsedInfo(broker: string, version: string, period: Period, year: Option<int>)

  /** Row numbers run 1..N in order. */
  ghost predicate Dense(rows: seq<ReportRow>) {
    forall k :: 0 <= k < |rows| ==> rows[k].rowN == k + 1
  }

  /** The parser rows behind stored rows. */
  function RowData(rows: seq<ReportRow>): (data: seq<Row>)
    ensures |data| == |rows|
    ensures forall k :: 0 <= k < |rows| ==> data[k] == rows[k].row
  {
    seq(|rows|, k requires 0 <= k < |rows| => rows[k].row)
  }

  /** The rows stored by one bulk insert, numbered in insertion order. */
  function Numbered(rows: seq<Row>): (stored: seq<ReportRow>)
    ensures Dense(stored) && RowData(stored) == rows
  {
    seq(|rows|, k requires 0 <= k < |rows| => ReportRow(k + 1, rows[k]))
  }

  /** The report after the store records a parse outcome: the new status,
      the parse time and, when there are parsed fields, those fields; without
      them every parse-derived field is cleared. Ownership, creation,
      deletion and payment state are never touched. */
  function WithParseResult(r: Report, status: ParseStatus, info: Option<ParsedInfo>, now: Timestamp): (n: Report)
    ensures n.parseStatus == status
    ensures n.reportId == r.reportId && n.userId == r.userId && n.createdAt == r.createdAt
    ensures n.paymentStatus == r.paymentStatus && n.paymentStatusUpdatedAt == r.paymentStatusUpdatedAt
    ensures n.filename == r.filename && n.isDeleted == r.isDeleted && n.deletedAt == r.deletedAt
    ensures n.parsedAt == Some(now)
    ensures info.Some? ==>
      && n.broker == Some(info.value.broker) && n.parserVersion == Some(info.value.version)
      && n.period == Some(info.value.period) && n.year == info.value.year
      && n.price == r.price
    ensures info.None? ==>
      n.broker.None? && n.parserVersion.None? && n.period.None? && n.year.None? && n.price.None?
  {
    match info
    case Some(i) =>
      r.(parseStatus := status, broker := Some(i.broker), parserVersion := Some(i.version),
         period := Some(i.period), year := i.year, parsedAt := Some(now))
    case None =>
      r.(parseStatus := status, broker := None, parserVersion := None,
         period := None, year := None, price := None, parsedAt := Some(now))
  }

  /** The report after its payment status is set at `now`. */
  function WithPaymentStatus(r: Report, status: PaymentStatus, now: Timestamp): Report {
    r.(paymentStatus := status, paymentStatusUpdatedAt := Some(now))
  }

  /** Rows of a report in a rows table; a report without an entry has none. */
  function RowsIn(rows: map<ReportId, seq<ReportRow>>, id: ReportId): seq<ReportRow> {
    if id in rows then rows[id] else []
  }

  class ReportStore {
    var reports: map<ReportId, Report>
    var rows: map<ReportId, seq<ReportRow>>

    /** Each report is filed under its own id; rows belong to a stored
        report (a foreign key) and are numbered densely from 1. */
    ghost predicate Valid()
      reads this
    {
      && (forall id :: id in reports ==> reports[id].reportId == id)
      && (forall id :: id in rows ==> id in reports && Dense(rows[id]))
    }

    /** What a lookup by id sees: soft-deleted reports are invisible. */
    function Visible(id: ReportId): (r: Option<Report>)
      reads this
      ensures r.Some? <==> id in reports && !reports[id].isDeleted
      ensures r.Some? ==> r.value == reports[id]
    {
      if id in reports && !reports[id].isDeleted then Some(reports[id]) else None
    }

    function RowsOf(id: ReportId): seq<ReportRow>
      reads this
    {
      RowsIn(rows, id)
    }

    constructor ()
      ensures Valid() && reports == map[] && rows == map[]
    {
      reports, rows := map[], map[];
    }

    /** Fetch a report by id, excluding soft-deleted ones. */
    method GetReport(id: ReportId) returns (r: Option<Report>)
      ensures r == Visible(id)
    {
      if id in reports && !reports[id].isDeleted {
        r := Some(reports[id]);
      } else {
        r := None;
      }
    }

    /** The rows of a report, in row-number order. */
    method GetReportRows(id: ReportId) returns (result: seq<ReportRow>)
      requires Valid()
      ensures result == RowsOf(id) && Dense(result)
    {
      result := if id in rows then rows[id] else [];
    }

    /** Delete every row of one report. */
    method DeleteReportRows(id: ReportId)
      requires Valid()
      modifies this
      ensures Valid()
      ensures reports == old(reports) && rows == old(rows) - {id}
    {
      rows := rows - {id};
    }

    /** Bulk-insert rows of a report that has none, numbering them 1..N in
        insertion order. Inserting next to existing rows would violate the
        (report id, row number) primary key. */
    method AddReportRows(id: ReportId, newRows: seq<Row>)
      requires Valid() && id in reports && RowsOf(id) == []
      modifies this
      ensures Valid()
      ensures reports == old(reports) && rows == old(rows)[id := Numbered(newRows)]
    {
      rows := rows[id := Numbered(newRows)];
    }

    /** Record a parse outcome on a report; an unknown id updates nothing. */
    method UpdateParsedReport(id: ReportId, status: ParseStatus, info: Option<ParsedInfo>, now: Timestamp)
      requires Valid()
      modifies this
      ensures Valid() && rows == old(rows)
      ensures reports == if id in old(reports)
        then old(reports)[id := WithParseResult(old(reports)[id], status, info, now)]
        else old(reports)
    {
      if id in reports {
        reports := reports[id := WithParseResult(reports[id], status, info, now)];
      }
    }

    /** Set a report's payment status and its update time; an unknown id
        updates nothing. */
    method UpdatePaymentStatus(id: ReportId, status: PaymentStatus, now: Timestamp)
      requires Valid()
      modifies this
      ensures Valid() && rows == old(rows)
      ensures reports == if id in old(reports)
        then old(reports)[id := WithPaymentStatus(old(reports)[id], status, now)]
        else old(reports)
    {
      if id in reports {
        reports := reports[id := WithPaymentStatus(reports[id], status, now)];
      }
    }
  }
}
