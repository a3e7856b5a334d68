/** The payment service: promo-code evaluation, the payment request body
    sent to the payment gateway, and the checks on the gateway's reply. */
module Payment {
  import opened Common
  import opened Money
  import opened Reports

  /** A discount in percent; the promo-code record only admits 0..100. */
  type Percent = d: int | 0 <= d <= 100

  /** A discount instrument. A personal code names its single user. */
  datatype Promocode = Promocode(
    promocode: string,
    userId: Option<UserId>,
    validFrom: Timestamp,
    validTo: Timestamp,
    restUsages: int,
    discount: Percent)

  datatype PromocodeUsage = NotSet | Success | NotExist | Expired

  /** A price breakdown. */
  datatype Price = Price(startPrice: real, finalPrice: real, discount: int, promocodeUsage: PromocodeUsage)

  /** The code can be used for a report of `owner`: it has usages left and
      is either public or personal to that owner. */
  predicate Usable(promo: Promocode, owner: UserId) {
    promo.restUsages > 0 && (promo.userId.None? || promo.userId.value == owner)
  }

  /** `now` lies in the validity window, both ends included. */
  predicate InWindow(promo: Promocode, now: Timestamp) {
    promo.validFrom <= now <= promo.validTo
  }

  /** How a promo code applies to a report of `owner` at `now`. A missing,
      used-up or foreign personal code does not exist for the requester,
      whatever its window; a usable code outside its window is expired. */
  function Classify(promo: Option<Promocode>, owner: UserId, now: Timestamp): (u: PromocodeUsage)
    ensures u != NotSet
    ensures u == NotExist <==> promo.None? || !Usable(promo.value, owner)
    ensures u == Expired <==> promo.Some? && Usable(promo.value, owner) && !InWindow(promo.value, now)
    ensures u == Success <==> promo.Some? && Usable(promo.value, owner) && InWindow(promo.value, now)
  {
    if promo.None? || promo.value.restUsages <= 0
       || (promo.value.userId.Some? && promo.value.userId.value != owner) then NotExist
    else if promo.value.validFrom > now || promo.value.validTo < now then Expired
    else Success
  }

  /** The price of a report with a promo code: the discount applies only on
      success, and the final price is the discounted price rounded to two
      decimals. The report must have a price. */
  function PriceWithPromocode(report: Report, promo: Option<Promocode>, now: Timestamp): (p: Price)
    requires report.price.Some?
    ensures p.startPrice == report.price.value
    ensures p.promocodeUsage == Classify(promo, report.userId, now)
    ensures p.discount != 0 ==> p.promocodeUsage == Success
    ensures p.promocodeUsage == Success ==> p.discount == promo.value.discount
    ensures 0 <= p.discount <= 100
    ensures p.finalPrice == Discounted(p.startPrice, p.discount)
  {
    var usage := Classify(promo, report.userId, now);
    var discount := if usage == Success then promo.value.discount else 0;
    var finalPrice := Discounted(report.price.value, discount);
    Price(report.price.value, finalPrice, discount, usage)
  }

  /** With a non-negative two-decimal price, the final price is never
      negative and never above the start price. */
  lemma FinalPriceBounds(report: Report, promo: Option<Promocode>, now: Timestamp)
    requires report.price.Some? && report.price.value >= 0.0 && IsCents(report.price.value)
    ensures var p := PriceWithPromocode(report, promo, now);
      0.0 <= p.finalPrice <= p.startPrice
  {
  }

  /** Without a successful code, a two-decimal price is charged in full. */
  lemma NoDiscountUnlessSuccess(report: Report, promo: Option<Promocode>, now: Timestamp)
    requires report.price.Some? && IsCents(report.price.value)
    requires Classify(promo, report.userId, now) != Success
    ensures var p := PriceWithPromocode(report, promo, now);
      p.discount == 0 && p.finalPrice == p.startPrice
  {
    Round2OfCents(report.price.value);
  }

  /** The window check only matters for a usable code: the reasons for
      `not_exist` take precedence over it. */
  lemma NotExistIgnoresWindow(promo: Option<Promocode>, owner: UserId, now1: Timestamp, now2: Timestamp)
    ensures Classify(promo, owner, now1) == NotExist <==> Classify(promo, owner, now2) == NotExist
  {
  }

  /** 156.32 with a valid 15% code costs 132.87. */
  lemma DiscountExample(report: Report, promo: Promocode, now: Timestamp)
    requires report.price == Some(156.32)
    requires promo.discount == 15 && promo.restUsages > 0 && promo.userId.None?
    requires promo.validFrom <= now <= promo.validTo
    ensures PriceWithPromocode(report, Some(promo), now)
         == Price(156.32, 132.87, 15, Success)
  {
    assert 156.32 * (1.0 - 15 as real / 100.0) == 132.872;
    assert RoundHalfEven(13287.2) == 13287;
    assert Discounted(156.32, 15) == 132.87;
  }

  // ---------------------------------------------------------------------
  // The payment request

  const RubleCurrency: string := "RUB"
  const PendingStatus: string := "pending"

  /** Merchant settings that go into every request. */
  datatype PaymentConfig = PaymentConfig(
    returnUrl: string, vatCode: int, paymentSubject: string, paymentMode: string, productCode: string)

  /** The requesting user, as the identity provider describes them. */
  datatype User = User(userId: UserId, email: string)

  datatype Amount = Amount(value: real, currency: string)

  datatype ReceiptItem = ReceiptItem(
    quantity: string, amount: Amount, vatCode: int,
    paymentSubject: string, paymentMode: string, productCode: string)

  /** What the gateway echoes back in its webhook. */
  datatype Metadata = Metadata(userId: UserId, reportId: ReportId, requestId: string, promocode: Option<string>)

  datatype PaymentBody = PaymentBody(
    amount: Amount,
    customerEmail: string,
    items: seq<ReceiptItem>,
    returnUrl: string,
    capture: bool,
    metadata: Metadata)

  /** Build the request body. A report without a price is refused; otherwise
      the final price is charged, in the body and in the single receipt
      item, and the code is recorded only when it was applied. */
  function MakeBody(config: PaymentConfig, user: User, report: Report, promo: Option<Promocode>,
                    now: Timestamp, requestId: string): (r: Result<PaymentBody, InternalReason>)
    ensures r.Err? <==> report.price.None?
    ensures r.Err? ==> r.error == PriceIsNone
    ensures r.Ok? ==>
      var p := PriceWithPromocode(report, promo, now);
      && r.value.amount == Amount(p.finalPrice, RubleCurrency)
      && |r.value.items| == 1
      && r.value.items[0] == ReceiptItem("1", r.value.amount, config.vatCode, config.paymentSubject,
                                         config.paymentMode, config.productCode)
      && (r.value.metadata.promocode.Some? <==> p.promocodeUsage == Success)
      && (r.value.metadata.promocode.Some? ==> r.value.metadata.promocode.value == promo.value.promocode)
      && r.value.metadata.userId == user.userId && r.value.metadata.reportId == report.reportId
      && r.value.metadata.requestId == requestId
      && r.value.customerEmail == user.email && r.value.returnUrl == config.returnUrl && r.value.capture
  {
    if report.price.None? then Err(PriceIsNone)
    else
      var price := PriceWithPromocode(report, promo, now);
      var usedPromocode := if promo.Some? && price.promocodeUsage == Success then Some(promo.value.promocode) else None;
      var amount := Amount(price.finalPrice, RubleCurrency);
      var item := ReceiptItem("1", amount, config.vatCode, config.paymentSubject, config.paymentMode, config.productCode);
      Ok(PaymentBody(amount, user.email, [item], config.returnUrl, true,
                     Metadata(user.userId, report.reportId, requestId, usedPromocode)))
  }

  // ---------------------------------------------------------------------
  // The gateway and its reply

  /** The `confirmation` member of the reply body: absent or not an object,
      or an object that may carry a `confirmation_url`. */
  datatype Confirmation = NoConfirmation | Confirmation(confirmationUrl: Option<string>)

  /** What came back from the payment-creation call: an HTTP reply whose
      body may or may not carry a `status`, or no reply at all. */
  datatype GatewayReply =
    | Reply(statusCode: int, status: Option<string>, confirmation: Confirmation)
    | Unreachable

  /** The checks on the reply, in order: HTTP 200, body status `pending`,
      and a confirmation URL. */
  function AcceptReply(reply: GatewayReply): (r: Result<string, InternalReason>)
    ensures r.Ok? <==>
      && reply.Reply? && reply.statusCode == 200 && reply.status == Some(PendingStatus)
      && reply.confirmation.Confirmation? && reply.confirmation.confirmationUrl.Some?
    ensures r.Ok? ==> r.value == reply.confirmation.confirmationUrl.value
    ensures reply.Reply? && reply.statusCode != 200 ==> r == Err(GatewayBadStatusCode(reply.statusCode))
  {
    match reply
    case Unreachable => Err(GatewayUnreachable)
    case Reply(code, status, confirmation) =>
      if code != 200 then Err(GatewayBadStatusCode(code))
      else if status.None? then Err(GatewayStatusMissing)
      else if status.value != PendingStatus then Err(GatewayNotPending(status.value))
      else if confirmation.NoConfirmation? || confirmation.confirmationUrl.None? then Err(GatewayNoConfirmationUrl)
      else Ok(confirmation.confirmationUrl.value)
  }

  /** The payment gateway as the service sees it: every request posted is
      logged, and the reply is whatever the gateway has been set to give. */
  class Gateway {
    var requests: seq<PaymentBody>
    const reply: GatewayReply

    constructor (reply: GatewayReply)
      ensures requests == [] && this.reply == reply
    {
      requests := [];
      this.reply := reply;
    }

    method Post(body: PaymentBody) returns (resp: GatewayReply)
      modifies this
      ensures requests == old(requests) + [body] && resp == reply
    {
      requests := requests + [body];
      resp := reply;
    }
  }

  /** The outcome of creating a payment, given the gateway's reply: the body
      is built first, and only a body that could be built is sent. */
  function PaymentResult(config: PaymentConfig, user: User, report: Report, promo: Option<Promocode>,
                         now: Timestamp, requestId: string, reply: GatewayReply)
    : Result<(string, PaymentBody), InternalReason>
  {
    match MakeBody(config, user, report, promo, now, requestId)
    case Err(e) => Err(e)
    case Ok(body) =>
      match AcceptReply(reply)
      case Err(e) => Err(e)
      case Ok(url) => Ok((url, body))
  }

  /** Create a payment at the gateway and return its confirmation URL with
      the body that was sent. */
  method CreatePayment(config: PaymentConfig, gateway: Gateway, user: User, report: Report,
                       promo: Option<Promocode>, now: Timestamp, requestId: string)
    returns (r: Result<(string, PaymentBody), InternalReason>)
    modifies gateway
    ensures r == PaymentResult(config, user, report, promo, now, requestId, gateway.reply)
    ensures report.price.None? ==> gateway.requests == old(gateway.requests)
    ensures report.price.Some? ==>
      gateway.requests == old(gateway.requests) + [MakeBody(config, user, report, promo, now, requestId).value]
  {
    var body := MakeBody(config, user, report, promo, now, requestId);
    if body.Err? {
      return Err(body.error);
    }
    var reply := gateway.Post(body.value);
    var url := AcceptReply(reply);
    if url.Err? {
      return Err(url.error);
    }
    r := Ok((url.value, body.value));
  }

  /** A created payment charges the promo-evaluated final price and was
      accepted by the gateway. */
  lemma PaymentResultCharges(config: PaymentConfig, user: User, report: Report, promo: Option<Promocode>,
                             now: Timestamp, requestId: string, reply: GatewayReply)
    requires PaymentResult(config, user, report, promo, now, requestId, reply).Ok?
    ensures report.price.Some?
    ensures var (url, body) := PaymentResult(config, user, report, promo, now, requestId, reply).value;
      && AcceptReply(reply) == Ok(url)
      && body.amount.value == PriceWithPromocode(report, promo, now).finalPrice
      && body.items[0].amount == body.amount
  {
  }
}
