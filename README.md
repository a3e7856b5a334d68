# Reports service: pricing, payment and parse-result ingestion

This project models the core of a service that turns uploaded broker reports into tax-ready rows and sells access to them. The model covers four parts:

- **Pricing.** A report's price comes from the pricing strategy that was in effect when the report was created. Each strategy is a start time, a calculator name and keyword parameters. Only the linear calculator with a minimum threshold is registered. The result is rounded to two decimals.
- **Promo codes and the payment request.** A promo code is classified as `success`, `expired` or `not_exist`. A discount applies only on success. The request body sent to the payment gateway charges the final price. The gateway's reply must be HTTP 200, with status `pending` and a confirmation URL.
- **Parse-result ingestion and row readers.** The parsing worker uploads a result for a report. The endpoint deletes every old row of that report, then does one of two things. It stores the parsed fields, the derived year and the new rows numbered 1..N. Or it marks the report `not_parsed`, with no parsed info. Two readers return the rows after an ordered chain of access checks. The detailed reader also requires the report to be payed.
- **The payment endpoint.** An ordered chain of guards runs first: 404, 403, 409 not parsed, 409 already payed, 409 payment in progress. In the intended endpoint, the payment is created next, and then the report's payment status moves to `in_progress`. As written, the service call fails first; see "## Findings".

Modules and files:

- `common.dfy` (`Common`): options, results, identifiers, dates, and the API errors with their HTTP codes.
- `money.dfy` (`Money`): two-decimal rounding of exact values, ties to the even neighbour. Python's `round` applies the same tie rule to the binary float instead, so the two can differ: `round(2.675, 2)` is 2.67, while `Round2(2.675)` is 2.68.
- `pricing.dfy` (`Pricing`): strategy selection, the calculator table, and the price service's loop (`Calc`). The loop is proved against the function `PriceFor`.
- `reports.dfy` (`Reports`): reports, rows, and the `ReportStore` class. The class stands for the database: a table of reports and a table of rows keyed by report id.
- `parsed_endpoint.dfy` (`ParsedEndpoint`): the parse-result upload and the two row readers, proved against state functions (`Ingested` and `IngestedRows`) and guard functions (`RowsGate` and `DetailedRowsGate`).
- `payment.dfy` (`Payment`): promo-code evaluation, the request body, the reply checks, and a `Gateway` class. The class logs every request it is sent and gives back a fixed reply.
- `payment_endpoint.dfy` (`PaymentEndpoint`): the payment-creation endpoint.

Things that are parameters or state in the model:

- **Time.** The clock (`utc_now`) is a `now` parameter. Timestamps are integers; only their order matters.
- **The gateway's HTTP call.** It is the `Gateway` object: its reply is fixed when it is made, and it logs every request.
- **The database.** Its calls are methods of `ReportStore`.
- **Request ids.** The context variable that carries the request id is a parameter.

Money is exact (`real`), not binary floating point.

Where the code and its tests disagree, the model follows the code:

- `get_price_with_promocode` without a code reports `not_exist`: the first condition of its classification covers a missing code (`reports_service/payment.py:189-197`). The test at `tests/api/endpoints/test_payment.py:60` expects `not_set` from `GET /reports/{id}/price`. No handler for that path exists in `reports_service/api/endpoints/`, so the test does not contradict `get_price_with_promocode` itself.
- The payment endpoint refuses a report whose payment is `in_progress` with 409 (`reports_service/api/endpoints/payment.py:63-68`). The test at `tests/api/endpoints/test_payment.py:384` expects such a report to be payable.
- A parsed report without a price is not refused by a guard. In the intended endpoint (`PaymentEndpoint.CreatePaymentHandler`), `_make_body` then raises `ValueError` (`reports_service/payment.py:78-79`), which becomes a 500 (`Internal(PriceIsNone)`). In the endpoint as written, the missing-argument `TypeError` comes first, and the answer is `Internal(MissingPromocodeArgument)`. The test at `tests/api/endpoints/test_payment.py:726-727` expects a 409 `no_price`.
- The payment endpoint as written cannot create a payment; see "## Findings". `PaymentEndpoint.CreatePaymentHandlerAsWritten` models the code as written. `PaymentEndpoint.CreatePaymentHandler` models the evident intent: no promo code, and the URL is the first component of the returned pair.
- Ingestion does not call the price service, and the parsed info it hands to the store carries no price (`reports_service/api/endpoints/parsed.py:73`). The test at `tests/api/endpoints/test_parsed.py:125` expects a price of 0 after a parsed upload. What the store does with the price is the model's reading of `update_parsed_report`, under "## Left out".

The detailed-rows 402 is raised for any report that is not `payed`, whatever its price (`reports_service/api/endpoints/parsed.py:150-151`). The unpaid price-0 reports in `tests/api/endpoints/test_parsed.py:336-338` belong to a second report that the test does not request. The requested report is always payed (`tests/api/endpoints/test_parsed.py:357-362`).

## Model

| member | source | states |
|---|---|---|
| Common.ApiError.StatusCode | reports_service/api/endpoints/payment.py:51-68 | Every error maps to a 4xx or 5xx code. Not found is 404 and forbidden is 403. The code is 409 exactly for not parsed, already payed and payment in progress. Not payed is 402 (`reports_service/api/endpoints/parsed.py:150-151`). It is 500 exactly for internal errors, which the exception middleware turns into a server error (`reports_service/api/middlewares.py:63-80`). |
| Money.Round2 | reports_service/pricing.py:46 | The rounded amount has at most two decimals and lies within half a cent of the input. |
| Money.RoundHalfEven | reports_service/pricing.py:46 | The result is the nearest integer, and a tie goes to the even neighbour. |
| Money.Round2Monotone | reports_service/pricing.py:46 | Rounding to two decimals never reverses the order of two amounts. |
| Money.Round2OfCents | reports_service/payment.py:204-205 | An amount that already has two decimals is returned unchanged. |
| Money.Discounted | reports_service/payment.py:204-205 | The discounted amount has two decimals and lies within half a cent of the exact discounted value. A non-negative two-decimal amount stays between zero and itself. With no discount the amount is only rounded. |
| Money.DiscountedBounds | reports_service/payment.py:204-205 | A non-negative two-decimal amount, reduced by 0..100 percent and rounded, stays between zero and the amount. |
| Pricing.LinearPrice | reports_service/pricing.py:12-20 | The price is at least the minimum and at least the row price times the row count, and it equals one of the two. |
| Pricing.Resolve | reports_service/pricing.py:23-25 | Calling by name succeeds exactly for the registered name with exactly its two keyword parameters. An unknown name fails with that name, before any parameter check. The registered name with the wrong keywords fails as a parameter error, which is the `TypeError` of the keyword call at `reports_service/pricing.py:45`. |
| Pricing.LastQualifying | reports_service/pricing.py:36-40 | The selected index is the last one in list order whose start is not after the creation time. None is selected exactly when every strategy starts later. |
| Pricing.Calc | reports_service/pricing.py:31-47 | The backward scan with its early exit gives the selection of `LastQualifying`, fails when no strategy qualifies, then dispatches by name and rounds. |
| Pricing.SelectedStartedBefore | reports_service/pricing.py:36-40 | A computed price always comes from a strategy that started no later than the report. |
| Pricing.NoStrategyIff | reports_service/pricing.py:41-42 | The no-strategy error happens exactly when every strategy starts after the creation time, the empty list included. |
| Pricing.AscendingSelectsMostRecent | reports_service/pricing.py:36-40 | For strategies sorted by start, the selection is the latest qualifying one: none chosen from before a qualifying strategy. |
| Pricing.StartIsInclusive | reports_service/pricing.py:37 | A report created exactly when a strategy starts is priced by that strategy, when starts are distinct. |
| Pricing.UnregisteredCalculatorFails | reports_service/pricing.py:44 | A selected strategy with an unregistered calculator name fails with that name. |
| Pricing.PriceIsRounded | reports_service/pricing.py:44-46 | A computed price has two decimals and lies within half a cent of the selected linear calculator's exact value. |
| Pricing.LinearZeroRows | reports_service/pricing.py:17-19 | With zero rows the price is the minimum threshold, when that is non-negative. |
| Pricing.LinearMonotone | reports_service/pricing.py:18-19 | With a non-negative row price, more rows never cost less. |
| Pricing.LinearStrategiesExamples | tests/test_pricing.py:60-91 | For the three configured linear strategies and 19 rows, the prices are 19.02, 100 and 200 on the three test dates, and a date before every strategy gives the no-strategy error. |
| Reports.Numbered | reports_service/api/endpoints/parsed.py:76 | Rows stored by one bulk insert are numbered 1..N in order and carry exactly the parser's rows. |
| Reports.WithParseResult | reports_service/api/endpoints/parsed.py:73-83 | The parse status and the parse time are set. The id, owner, file name, creation time, payment status with its update time, and deletion state are kept. With parsed info the broker, version, period and year are stored and the price is kept. Without it they are cleared, together with the price. |
| Reports.ReportStore.Visible | reports_service/api/endpoints/parsed.py:56 | A lookup sees a report exactly when it is stored and not soft-deleted. |
| Reports.ReportStore.GetReport | reports_service/api/endpoints/parsed.py:56-58 | The fetched report is exactly what `Visible` sees: the stored report, or nothing when the id is unknown or the report is soft-deleted. |
| Reports.ReportStore.GetReportRows | reports_service/api/endpoints/parsed.py:118 | The rows returned are the report's stored rows, numbered 1..N. |
| Reports.ReportStore.DeleteReportRows | reports_service/api/endpoints/parsed.py:60 | Every row of the report is gone and nothing else changes. |
| Reports.ReportStore.AddReportRows | reports_service/api/endpoints/parsed.py:76 | The report's rows become the new rows numbered 1..N. The store invariant is kept. |
| Reports.ReportStore.UpdateParsedReport | reports_service/api/endpoints/parsed.py:75 | The report gets the parse outcome. An unknown id changes nothing, and the rows are untouched. |
| Reports.ReportStore.UpdatePaymentStatus | reports_service/api/endpoints/payment.py:74-77 | The report gets the new payment status and its update time. An unknown id changes nothing. |
| ParsedEndpoint.YearOf | reports_service/api/endpoints/parsed.py:69-72 | The year is known exactly when the period's start and end fall in one year, and it is that year. |
| ParsedEndpoint.UploadParsingResult | reports_service/api/endpoints/parsed.py:56-83 | 404 exactly when the report is missing or soft-deleted, and then nothing changes. Otherwise the old rows are deleted and the report and rows tables become the ingested state. The store invariant is kept. |
| ParsedEndpoint.IngestedReportFields | reports_service/api/endpoints/parsed.py:63-83 | After ingestion the report is parsed exactly on the parsed path and keeps its owner and payment state. It carries the parser's broker, version, period and derived year, or has every derived field cleared. |
| ParsedEndpoint.IngestedRowsReplace | reports_service/api/endpoints/parsed.py:60-76 | After ingestion the report's rows are exactly the new rows numbered 1..N, or none on the not-parsed path. No old row survives. |
| ParsedEndpoint.IngestedRowsFrame | reports_service/api/endpoints/parsed.py:60 | Ingestion for one report leaves the rows of every other report unchanged. |
| ParsedEndpoint.ReingestionKeepsOnlyLatestRows | tests/api/endpoints/test_parsed.py:127-134 | After two uploads in a row, the stored rows are those of the second upload. |
| ParsedEndpoint.RowsGate | reports_service/api/endpoints/parsed.py:110-116 | The checks pass exactly for a visible, owned, parsed report. Each error (404, 403, 409) is given exactly for its own case in guard order. |
| ParsedEndpoint.DetailedRowsGate | reports_service/api/endpoints/parsed.py:143-151 | The checks pass exactly for a visible, owned, parsed, payed report. 402 is given exactly for a visible, owned, parsed report that is not payed. |
| ParsedEndpoint.DetailedGateRefinesSimple | reports_service/api/endpoints/parsed.py:143-151 | The detailed reader refuses everything the simple reader refuses, with the same error. Of what the simple reader grants, it refuses exactly the unpaid reports. |
| ParsedEndpoint.GetReportRows | reports_service/api/endpoints/parsed.py:110-119 | The rows are returned exactly when the checks pass, and they are the report's stored rows numbered 1..N. Otherwise the result is the checks' error. |
| ParsedEndpoint.GetReportDetailedRows | reports_service/api/endpoints/parsed.py:143-154 | The rows are returned exactly when the detailed checks pass, and they are the stored rows. Otherwise the result is the checks' error. |
| ParsedEndpoint.DeletedReportIsNotFound | reports_service/api/endpoints/parsed.py:143-145 | A soft-deleted report is not found by either reader. |
| Payment.Classify | reports_service/payment.py:189-202 | A code is `not_exist` exactly when it is missing, used up or personal to someone else. It is `expired` exactly when it is usable but outside its inclusive window. It is `success` otherwise. It is never `not_set`. |
| Payment.PriceWithPromocode | reports_service/payment.py:182-213 | The start price is the report's price. The usage is the classification. A non-zero discount happens only on success, and then it is the code's. The final price is the start price with that discount applied and rounded to two decimals. |
| Payment.FinalPriceBounds | reports_service/payment.py:204-205 | For a non-negative two-decimal price, the final price lies between zero and the start price. |
| Payment.NoDiscountUnlessSuccess | reports_service/payment.py:187-205 | Without a successful code, a two-decimal price is charged in full with discount 0. |
| Payment.NotExistIgnoresWindow | reports_service/payment.py:189-199 | Whether a code is `not_exist` does not depend on the time: the not-exist reasons are checked before the window. |
| Payment.DiscountExample | tests/api/endpoints/test_payment.py:95-101 | 156.32 with a valid 15% code gives final price 132.87, discount 15 and `success`. |
| Payment.MakeBody | reports_service/payment.py:72-129 | A missing price is refused. Otherwise the body and its single receipt item charge the final price in rubles. The item has quantity "1" and the merchant's VAT code, payment subject, payment mode and product code. The code is recorded exactly when it was applied. The body also carries the user, the report, the request id, the customer e-mail, the return URL and capture. |
| Payment.AcceptReply | reports_service/payment.py:153-173 | A reply is accepted exactly when it is HTTP 200 with status `pending` and a confirmation URL, and then the result is that URL. A non-200 reply fails with its status code. |
| Payment.Gateway.Post | reports_service/payment.py:144-151 | The body is appended to the request log, and the reply is the gateway's. |
| Payment.CreatePayment | reports_service/payment.py:131-173 | The result is the body built and the reply checked. A report without a price sends nothing. Otherwise exactly the built body is sent, once. |
| Payment.PaymentResultCharges | reports_service/payment.py:142-173 | A created payment was accepted by the gateway and charges the promo-evaluated final price, in the body and in the receipt item. |
| PaymentEndpoint.PaymentGate | reports_service/api/endpoints/payment.py:51-68 | The guards pass exactly for a visible, owned, parsed report whose payment is `not_payed` or `error`. Each error is given exactly for its own case in guard order. |
| PaymentEndpoint.CreatePaymentHandler | reports_service/api/endpoints/payment.py:47-80 | The endpoint's answer follows the guards and then the payment result. A failing guard contacts no gateway. When the guards pass, the gateway receives exactly one request, the built body, for a priced report, and none for an unpriced one. On success the report becomes `in_progress`. On failure the reports are unchanged, and rows are never touched. |
| PaymentEndpoint.PaymentSucceedsIff | reports_service/api/endpoints/payment.py:51-80 | A confirmation URL is returned exactly for a visible, owned, parsed, priced report with payment `not_payed` or `error` whose reply the gateway check accepts. The URL is the gateway's. |
| PaymentEndpoint.UnpricedReportIsInternalError | reports_service/payment.py:78-79 | A report that passes every guard but has no price ends in an internal error. |
| PaymentEndpoint.EndpointChargesFullPrice | reports_service/api/endpoints/payment.py:71 | The endpoint passes no code, so the request records none and charges the rounded full price. |
| PaymentEndpoint.PaymentResponseAsWritten | reports_service/api/endpoints/payment.py:51-71 | As written, the endpoint never returns a URL. A failing guard gives that guard's error. Exactly the requests that pass every guard get a 500. |
| PaymentEndpoint.CreatePaymentHandlerAsWritten | reports_service/api/endpoints/payment.py:47-80 | As written, the endpoint's answer follows the guards and then the failing service call. It changes neither the store nor the gateway. |
| PaymentEndpoint.AsWrittenRefusesPayableReport | reports_service/payment.py:131-136 | For a priced, not-payed report of the requester and an accepting gateway, the intended endpoint returns the confirmation URL, while the endpoint as written answers with an internal error. |

## Left out

- Webhook reconciliation, the JWT token and its check (`verify_authenticity_of_webhook`), counting up or down a promo code's usages, clamping the price on a re-parse, the year filter on row reads, and the synthesised country code of detailed rows. No handler for these exists in `reports_service/api/endpoints/`.
- The `thresholds` calculator: the pricing tests exercise it, but `reports_service/pricing.py` does not register it. The model registers only the linear calculator, as the code does.
- Pricing.Calc, Money.Round2, Money.Discounted, Payment.PriceWithPromocode: amounts are exact reals, rounded on their exact value. The model does not capture Python's binary floats, `round` applied to a float (`reports_service/pricing.py:46`, `reports_service/payment.py:204-205`), or the `Decimal(str(...))` conversion. On a value whose binary float lies just below a tie, such as 2.675, Python rounds down where the model rounds to even.
- Payment.PriceWithPromocode: requires a price. The source raises a `TypeError` converting a missing price, and its modelled caller `_make_body` refuses a missing price first.
- Payment.MakeBody: the human-readable description strings, the confirmation-redirect constants and the metadata token are not modelled.
- Payment.CreatePayment: basic auth, the idempotence key, and the aiohttp session with its setup and cleanup are left out. A reply body that cannot be read is treated like an unreachable gateway.
- ParsedEndpoint.UploadParsingResult: the source runs the two store writes of the parsed path concurrently (`asyncio.gather`). The model runs them one after the other; they touch different tables.
- The database queries behind `get_report`, `get_report_rows`, `get_report_detailed_rows`, `delete_report_rows`, `add_report_rows`, `update_parsed_report` and `update_payment_status` are not part of this model. `reports_service/db/service.py` defines only the pool, `ping`, `setup` and `cleanup`. `ReportStore` gives the queries the meaning their names and the table schema imply. A soft-deleted report is invisible. Rows are numbered 1..N in insertion order. An update of an unknown id changes nothing. A parse outcome records its time on both paths. On the parsed path, the stored price is left as it was. On the not-parsed path, it is cleared together with the broker, version, period and year. `get_report_detailed_rows` returns the same stored rows as `get_report_rows`; the model does not give the two different column sets.
- Reports.ReportStore.AddReportRows: requires the report to have no rows yet, as the (report id, row number) primary key demands. The upload endpoint always deletes the rows just before.
- Payment.AcceptReply: reply fields are modelled as strings or absent. The source catches only `KeyError` and `TypeError` (`reports_service/payment.py:166-171`), so it also accepts a `confirmation_url` that is present but JSON `null` or not a string, and returns that value as the URL. The model's reply type cannot express such a reply, nor a `status` that is not a string.
- Authentication of users and services (`get_request_user`, `get_service_user`), logging, the error-to-response middleware, settings, and the HTTP framework itself.

## Findings

| source | as written | input that shows it | evidently intended | confidence | as-written member | corrected member |
|---|---|---|---|---|---|---|
| reports_service/api/endpoints/payment.py:71 | The endpoint calls `create_payment(user, report)`, but `create_payment` takes `promocode` as a required third parameter (`reports_service/payment.py:131-136`). The call raises `TypeError`, which the exception middleware turns into a 500. The gateway is never contacted and the payment status is never updated. The endpoint also uses the returned (URL, body) pair as the URL. | An owned, parsed, not-payed report priced 100.0, with a gateway that would accept the payment. | Pass no promo code, return the first component of the pair as the confirmation URL, and set the status to `in_progress`. | high; not executed | PaymentEndpoint.AsWrittenRefusesPayableReport | PaymentEndpoint.PaymentSucceedsIff |
