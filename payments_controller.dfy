/**
 * Order creation and payment verification (backend/controller/payments.controller.js).
 *
 * Both handlers are straight-line functions of the request, of what the database holds
 * and of what the payment gateway answers. The gateway's `orders.create` and the HMAC are
 * functions passed in; the clock is a parameter.
 */
module PaymentsController {
  import opened Wrappers
  import opened JsValues

  /** The columns of a `records` row that `createOrder` reads. `amount` is whatever node-postgres
      returns for it: a number, numeric text, or `null` when unset. */
  datatype PricedRow = PricedRow(dataHash: string, amount: JsVal)

  /** The options handed to `razorpay.orders.create`. */
  datatype OrderOptions = OrderOptions(amount: int, currency: string, receipt: string)

  /** What the gateway answers with. */
  datatype Order = Order(id: string, amount: int, currency: string, receipt: string)

  datatype Body =
    | ErrorBody(error: string)
    | OrderCreated(order: Order, ownerId: JsVal, requesterId: JsVal, dataHash: JsVal, amount: int)
    | Verdict(success: bool, message: string)
    | KeyMissing   // `createHmac` with an undefined key throws

  datatype Reply = Reply(status: nat, body: Body)

  /** What `createOrder` decides before it talks to the gateway. */
  datatype OrderPlan = NoRecord | BadAmount | Place(options: OrderOptions, dbAmount: int)

  /** `SELECT amount FROM records WHERE data_hash = $1`, first row. */
  function FirstPriced(rows: seq<PricedRow>, dataHash: JsVal): (r: Option<PricedRow>)
    ensures r.Some? ==> r.value in rows && SqlEquals(r.value.dataHash, dataHash)
    ensures r.None? ==> forall k :: 0 <= k < |rows| ==> !SqlEquals(rows[k].dataHash, dataHash)
  {
    if rows == [] then None
    else if SqlEquals(rows[0].dataHash, dataHash) then Some(rows[0])
    else FirstPriced(rows[1..], dataHash)
  }

  /** `parseInt(amount)` refused by `!dbAmount || dbAmount <= 0`: NaN, zero or negative. */
  predicate ValidAmount(n: Number) {
    n.Int? && n.i > 0
  }

  /** Lines 18-38: the lookup, the amount check and the options, all from the database row. */
  function PlanOrder(rows: seq<PricedRow>, dataHash: JsVal, now: int): (p: OrderPlan)
    ensures p.NoRecord? <==> FirstPriced(rows, dataHash).None?
    ensures p.BadAmount? <==> FirstPriced(rows, dataHash).Some? && !ValidAmount(ParseInt(FirstPriced(rows, dataHash).value.amount))
    ensures p.Place? ==>
      ParseInt(FirstPriced(rows, dataHash).value.amount) == Int(p.dbAmount) && p.dbAmount > 0 &&
      p.options.amount == p.dbAmount * 100 && p.options.currency == "INR" &&
      p.options.receipt == "order_rcptid_" + IntToString(now)
  {
    match FirstPriced(rows, dataHash)
    case None => NoRecord
    case Some(row) =>
      var dbAmount := ParseInt(row.amount);
      if dbAmount.NaN? || dbAmount.i == 0 || dbAmount.i <= 0 then BadAmount
      else Place(OrderOptions(dbAmount.i * 100, "INR", "order_rcptid_" + IntToString(now)), dbAmount.i)
  }

  /** `createOrder`. */
  function CreateOrder(ownerId: JsVal, requesterId: JsVal, dataHash: JsVal, rows: seq<PricedRow>, now: int,
                       gateway: OrderOptions -> Result<Order, string>): (r: Reply)
    ensures FirstPriced(rows, dataHash).None? ==> r == Reply(404, ErrorBody("Record not found for this dataHash"))
    ensures PlanOrder(rows, dataHash, now).BadAmount? ==> r == Reply(400, ErrorBody("Invalid amount in database"))
    ensures r.status == 200 ==>
      var p := PlanOrder(rows, dataHash, now);
      p.Place? && gateway(p.options).Ok? &&
      r.body == OrderCreated(gateway(p.options).value, ownerId, requesterId, dataHash, p.dbAmount)
    ensures var p := PlanOrder(rows, dataHash, now);
      p.Place? ==> (r.status == 200 <==> gateway(p.options).Ok?)
    ensures var p := PlanOrder(rows, dataHash, now);
      p.Place? && gateway(p.options).Err? ==> r == Reply(500, ErrorBody(gateway(p.options).error))
  {
    match PlanOrder(rows, dataHash, now)
    case NoRecord => Reply(404, ErrorBody("Record not found for this dataHash"))
    case BadAmount => Reply(400, ErrorBody("Invalid amount in database"))
    case Place(options, dbAmount) =>
      match gateway(options)
      case Err(message) => Reply(500, ErrorBody(message))
      case Ok(order) => Reply(200, OrderCreated(order, ownerId, requesterId, dataHash, dbAmount))
  }

  /** A rejected amount never reaches the gateway: the reply is the same whatever it would answer. */
  lemma RejectedAmountCreatesNoOrder(ownerId: JsVal, requesterId: JsVal, dataHash: JsVal, rows: seq<PricedRow>, now: int,
                                     g1: OrderOptions -> Result<Order, string>, g2: OrderOptions -> Result<Order, string>)
    requires !PlanOrder(rows, dataHash, now).Place?
    ensures CreateOrder(ownerId, requesterId, dataHash, rows, now, g1) == CreateOrder(ownerId, requesterId, dataHash, rows, now, g2)
    ensures CreateOrder(ownerId, requesterId, dataHash, rows, now, g1).status in {400, 404}
  {
  }

  /** The charged amount depends on the database row only: the other request fields are echoed
      and change neither the status nor what the gateway is asked for. */
  lemma AmountIgnoresRequestFields(o1: JsVal, q1: JsVal, o2: JsVal, q2: JsVal, dataHash: JsVal, rows: seq<PricedRow>, now: int,
                                   gateway: OrderOptions -> Result<Order, string>)
    ensures CreateOrder(o1, q1, dataHash, rows, now, gateway).status == CreateOrder(o2, q2, dataHash, rows, now, gateway).status
    ensures var r := CreateOrder(o1, q1, dataHash, rows, now, gateway);
      r.status == 200 ==> r.body.amount == CreateOrder(o2, q2, dataHash, rows, now, gateway).body.amount
  {
  }

  /** An integer amount of n rupees is charged as n * 100 paise. */
  lemma IntegerAmountInPaise(dataHash: string, n: int, now: int)
    requires n > 0
    ensures var p := PlanOrder([PricedRow(dataHash, Num(n))], Str(dataHash), now);
      p.Place? && p.dbAmount == n && p.options.amount == 100 * n && p.options.currency == "INR"
  {
    ParseIntOfNumber(n);
  }

  /** Numeric text is cut at the first non-digit, so "12.50" rupees are charged as 1200 paise. */
  lemma FractionalAmountTruncated(dataHash: string, now: int)
    ensures var p := PlanOrder([PricedRow(dataHash, Str("12.50"))], Str(dataHash), now);
      p.Place? && p.dbAmount == 12 && p.options.amount == 1200
  {
    assert LeadingDigits(".50") == [];
    assert LeadingDigits("12.50") == "12";
    assert DigitsValue("12") == 12 by {
      assert "12"[..1] == "1";
    }
  }

  /** A row whose amount column is unset (`null`) is refused with 400. */
  lemma NullAmountRefused(dataHash: string, now: int)
    ensures PlanOrder([PricedRow(dataHash, Null)], Str(dataHash), now) == BadAmount
  {
    assert LeadingDigits("null") == [];
  }

  /** `razorpay_order_id + "|" + razorpay_payment_id`. */
  function SignedText(orderId: JsVal, paymentId: JsVal): string {
    ToText(orderId) + "|" + ToText(paymentId)
  }

  /** `expectedSign === razorpay_signature`, for the HMAC-SHA256 hex digest `hmacHex(key, text)`. */
  predicate SignatureMatches(orderId: JsVal, paymentId: JsVal, signature: JsVal, key: string,
                             hmacHex: (string, string) -> string)
  {
    signature == Str(hmacHex(key, SignedText(orderId, paymentId)))
  }

  /** `verifyPayment` as written: whether or not the signature matches, the reply is 400. */
  function VerifyPaymentAsWritten(orderId: JsVal, paymentId: JsVal, signature: JsVal, key: Option<string>,
                                  hmacHex: (string, string) -> string): (r: Reply)
    ensures key.None? ==> r == Reply(500, KeyMissing)
    ensures key.Some? ==> r == Reply(400, Verdict(false, "Invalid signature!"))
  {
    match key
    case None => Reply(500, KeyMissing)
    case Some(_) => Reply(400, Verdict(false, "Invalid signature!"))
  }

  /** A correctly signed payment is refused by the handler as written. */
  lemma ValidSignatureRefusedAsWritten(orderId: JsVal, paymentId: JsVal, key: string, hmacHex: (string, string) -> string)
    ensures var signature := Str(hmacHex(key, SignedText(orderId, paymentId)));
      SignatureMatches(orderId, paymentId, signature, key, hmacHex) &&
      VerifyPaymentAsWritten(orderId, paymentId, signature, Some(key), hmacHex) == Reply(400, Verdict(false, "Invalid signature!"))
  {
  }

  /** `verifyPayment` as evidently intended: the 400 reply only for a signature that does not match. */
  function VerifyPayment(orderId: JsVal, paymentId: JsVal, signature: JsVal, key: Option<string>,
                         hmacHex: (string, string) -> string): (r: Reply)
    ensures key.None? ==> r == Reply(500, KeyMissing)
    ensures key.Some? ==>
      (r.status == 200 <==> SignatureMatches(orderId, paymentId, signature, key.value, hmacHex)) &&
      (r.status == 200 || r == Reply(400, Verdict(false, "Invalid signature!")))
    ensures r.status == 200 ==> r.body.Verdict? && r.body.success
  {
    match key
    case None => Reply(500, KeyMissing)
    case Some(k) =>
      if hmacHex(k, SignedText(orderId, paymentId)) == ToText(signature) && signature.Str? then
        Reply(200, Verdict(true, "Payment Verified!"))
      else Reply(400, Verdict(false, "Invalid signature!"))
  }
}
