/** The endpoint behind `POST /reports/{id}/payment`: an ordered chain of
    guards, then the gateway call, then the payment status moves to
    `in_progress`. */
module PaymentEndpoint {
  import opened Common
  import opened Reports
  import opened Payment

  /** The payment-creation guards, in order: the report must be visible
      (404), owned by the requester (403), parsed (409 report_not_parsed),
      not payed already (409 report_already_payed) and not being payed
      (409 report_payment_in_progress). */
  function PaymentGate(report: Option<Report>, user: UserId): (r: Outcome<ApiError>)
    ensures r.Pass? <==>
      && report.Some? && report.value.userId == user && report.value.parseStatus == Parsed
      && (report.value.paymentStatus == NotPayed || report.value.paymentStatus == PaymentError)
    ensures r == Fail(NotFound) <==> report.None?
    ensures r == Fail(Forbidden) <==> report.Some? && report.value.userId != user
    ensures r == Fail(ReportNotParsed) <==>
      report.Some? && report.value.userId == user && report.value.parseStatus != Parsed
    ensures r == Fail(ReportAlreadyPayed) <==>
      report.Some? && report.value.userId == user && report.value.parseStatus == Parsed
      && report.value.paymentStatus == Payed
    ensures r == Fail(ReportPaymentInProgress) <==>
      report.Some? && report.value.userId == user && report.value.parseStatus == Parsed
      && report.value.paymentStatus == PaymentInProgress
  {
    if report.None? then Fail(NotFound)
    else if report.value.userId != user then Fail(Forbidden)
    else if report.value.parseStatus != Parsed then Fail(ReportNotParsed)
    else match report.value.paymentStatus
      case Payed => Fail(ReportAlreadyPayed)
      case PaymentInProgress => Fail(ReportPaymentInProgress)
      case NotPayed => Pass
      case PaymentError => Pass
  }

  /** The response of the endpoint for the report it looked up, given the
      gateway's reply. The service is asked without a promo code; any of
      its failures is an internal error. */
  function PaymentResponse(config: PaymentConfig, user: User, report: Option<Report>,
                           now: Timestamp, requestId: string, reply: GatewayReply)
    : Result<string, ApiError>
  {
    match PaymentGate(report, user.userId)
    case Fail(e) => Err(e)
    case Pass =>
      match PaymentResult(config, user, report.value, None, now, requestId, reply)
      case Err(reason) => Err(Internal(reason))
      case Ok((url, _)) => Ok(url)
  }

  /** Create a payment for a report. */
  method CreatePaymentHandler(store: ReportStore, config: PaymentConfig, gateway: Gateway,
                              reportId: ReportId, user: User, now: Timestamp, requestId: string)
    returns (r: Result<string, ApiError>)
    requires store.Valid()
    modifies store, gateway
    ensures store.Valid()
    ensures r == PaymentResponse(config, user, old(store.Visible(reportId)), now, requestId, gateway.reply)
    ensures PaymentGate(old(store.Visible(reportId)), user.userId).Fail? ==> gateway.requests == old(gateway.requests)
    ensures PaymentGate(old(store.Visible(reportId)), user.userId).Pass? ==>
      var report := old(store.Visible(reportId)).value;
      gateway.requests == old(gateway.requests)
        + (if report.price.Some? then [MakeBody(config, user, report, None, now, requestId).value] else [])
    ensures r.Ok? ==>
      store.reports == old(store.reports)[reportId := WithPaymentStatus(old(store.reports)[reportId], PaymentInProgress, now)]
    ensures r.Err? ==> store.reports == old(store.reports)
    ensures store.rows == old(store.rows)
  {
    var report := store.GetReport(reportId);
    if report.None? {
      return Err(NotFound);
    }
    if report.value.userId != user.userId {
      return Err(Forbidden);
    }
    if report.value.parseStatus != Parsed {
      return Err(ReportNotParsed);
    }
    if report.value.paymentStatus == Payed {
      return Err(ReportAlreadyPayed);
    }
    if report.value.paymentStatus == PaymentInProgress {
      return Err(ReportPaymentInProgress);
    }
    var created := CreatePayment(config, gateway, user, report.value, None, now, requestId);
    if created.Err? {
      return Err(Internal(created.error));
    }
    store.UpdatePaymentStatus(reportId, PaymentInProgress, now);
    r := Ok(created.value.0);
  }

  /** A payment is created exactly for an owned, parsed, priced report whose
      payment is `not_payed` or `error`, when the gateway accepts it; the
      confirmation URL is the gateway's. */
  lemma PaymentSucceedsIff(config: PaymentConfig, user: User, report: Option<Report>,
                           now: Timestamp, requestId: string, reply: GatewayReply)
    ensures PaymentResponse(config, user, report, now, requestId, reply).Ok? <==>
      && report.Some? && report.value.userId == user.userId && report.value.parseStatus == Parsed
      && (report.value.paymentStatus == NotPayed || report.value.paymentStatus == PaymentError)
      && report.value.price.Some? && AcceptReply(reply).Ok?
    ensures PaymentResponse(config, user, report, now, requestId, reply).Ok? ==>
      PaymentResponse(config, user, report, now, requestId, reply).value == AcceptReply(reply).value
  {
    if PaymentGate(report, user.userId).Pass? && report.value.price.Some? {
      var body := MakeBody(config, user, report.value, None, now, requestId);
      assert body.Ok?;
    }
  }

  /** A report that passes every guard but has no price yet fails inside
      the service, before the gateway is asked. */
  lemma UnpricedReportIsInternalError(config: PaymentConfig, user: User, report: Report,
                                      now: Timestamp, requestId: string, reply: GatewayReply)
    requires PaymentGate(Some(report), user.userId).Pass? && report.price.None?
    ensures PaymentResponse(config, user, Some(report), now, requestId, reply) == Err(Internal(PriceIsNone))
  {
  }

  /** The charged amount never contains a discount: the endpoint passes no
      promo code, so the metadata records none and the full price is due. */
  lemma EndpointChargesFullPrice(config: PaymentConfig, user: User, report: Report,
                                 now: Timestamp, requestId: string)
    requires report.price.Some?
    ensures var body := MakeBody(config, user, report, None, now, requestId);
      && body.Ok? && body.value.metadata.promocode.None?
      && body.value.amount.value == Money.Round2(report.price.value)
  {
  }

  // ---------------------------------------------------------------------
  // The endpoint as written

  /** The answer of the endpoint as written. The service's payment creation
      takes the promo code as a required argument and the endpoint passes
      only the user and the report, so every request that passes the guards
      fails with a TypeError, a 500, before the gateway is asked. */
  function PaymentResponseAsWritten(report: Option<Report>, user: UserId): (r: Result<string, ApiError>)
    ensures r.Err?
    ensures PaymentGate(report, user).Fail? ==> Fail(r.error) == PaymentGate(report, user)
    ensures r.error.StatusCode() == 500 <==> PaymentGate(report, user).Pass?
  {
    match PaymentGate(report, user)
    case Fail(e) => Err(e)
    case Pass => Err(Internal(MissingPromocodeArgument))
  }

  /** Create a payment for a report, as the endpoint is written: the guards,
      then the call that cannot bind its arguments. Neither the store nor any
      gateway is touched. */
  method CreatePaymentHandlerAsWritten(store: ReportStore, reportId: ReportId, user: User)
    returns (r: Result<string, ApiError>)
    requires store.Valid()
    ensures r == PaymentResponseAsWritten(store.Visible(reportId), user.userId)
  {
    var report := store.GetReport(reportId);
    if report.None? {
      return Err(NotFound);
    }
    if report.value.userId != user.userId {
      return Err(Forbidden);
    }
    if report.value.parseStatus != Parsed {
      return Err(ReportNotParsed);
    }
    if report.value.paymentStatus == Payed {
      return Err(ReportAlreadyPayed);
    }
    if report.value.paymentStatus == PaymentInProgress {
      return Err(ReportPaymentInProgress);
    }
    r := Err(Internal(MissingPromocodeArgument));
  }

  /** A priced, payable report and an accepting gateway: the intended
      endpoint returns the confirmation URL, the endpoint as written a 500. */
  lemma AsWrittenRefusesPayableReport(config: PaymentConfig, now: Timestamp, requestId: string)
    ensures var report := Report(1, 7, "report.xlsx", 0, Parsed, NotPayed, Some(100.0),
                                 None, None, None, None, None, None, false, None);
      var reply := Reply(200, Some(PendingStatus), Confirmation(Some("https://pay")));
      && PaymentResponse(config, User(7, "user@mail"), Some(report), now, requestId, reply) == Ok("https://pay")
      && PaymentResponseAsWritten(Some(report), 7) == Err(Internal(MissingPromocodeArgument))
  {
    var report := Report(1, 7, "report.xlsx", 0, Parsed, NotPayed, Some(100.0),
                         None, None, None, None, None, None, false, None);
    PaymentSucceedsIff(config, User(7, "user@mail"), Some(report), now, requestId,
                       Reply(200, Some(PendingStatus), Confirmation(Some("https://pay"))));
  }
}
