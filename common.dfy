/** Shared vocabulary of the reports service: optional values, results,
    calendar dates, identifiers and the client-visible API errors. */
module Common {

  datatype Option<+T> = None | Some(value: T)

  datatype Result<+T, +E> = Ok(value: T) | Err(error: E)

  /** A check that either passes or fails with an error. */
  datatype Outcome<+E> = Pass | Fail(error: E)

  /** Report and user identifiers are opaque UUIDs; only equality matters. */
  type ReportId = int
  type UserId = int

  /** A point in time. Only the order of timestamps matters to the model; the
      concrete examples encode a day as yyyymmdd. */
  type Timestamp = int

  /** A calendar date; only its year is ever inspected. */
  datatype Date = Date(year: int, month: int, day: int)

  /** The typed client errors the endpoints raise, and the opaque server
      error every other exception turns into. */
  datatype ApiError =
    | NotFound                 // 404 "not_found"
    | Forbidden                // 403 "forbidden"
    | ReportNotParsed          // 409 "report_not_parsed"
    | ReportNotPayed           // 402
    | ReportAlreadyPayed       // 409 "report_already_payed"
    | ReportPaymentInProgress  // 409 "report_payment_in_progress"
    | Internal(reason: InternalReason)
  {
    /** The HTTP status the single top-level handler answers with. */
    function StatusCode(): (c: int)
      ensures 400 <= c < 600
      ensures this == NotFound ==> c == 404
      ensures this == Forbidden ==> c == 403
      ensures this == ReportNotPayed ==> c == 402
      ensures c == 409 <==> (ReportNotParsed? || ReportAlreadyPayed? || ReportPaymentInProgress?)
      ensures c == 500 <==> Internal?
    {
      match this
      case NotFound => 404
      case Forbidden => 403
      case ReportNotParsed => 409
      case ReportNotPayed => 402
      case ReportAlreadyPayed => 409
      case ReportPaymentInProgress => 409
      case Internal(_) => 500
    }
  }

  /** Why a request ended in an internal (5xx) error. */
  datatype InternalReason =
    | PriceIsNone                        // ValueError in the payment body builder
    | GatewayBadStatusCode(code: int)    // PaymentServiceError
    | GatewayNotPending(status: string)  // PaymentServiceError
    | GatewayNoConfirmationUrl           // PaymentServiceError
    | GatewayStatusMissing               // KeyError on the reply body
    | GatewayUnreachable                 // the HTTP call itself failed
    | MissingPromocodeArgument           // TypeError: a required argument was not passed
}
