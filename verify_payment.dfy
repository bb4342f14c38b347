/**
 * The payment-verification endpoint: a POST carrying the gateway's order id, payment id and
 * signature, plus the order data to record.  The signature must equal the HMAC-SHA256 (hex)
 * of "orderId|paymentId" under the gateway secret; a verified payment is appended to the
 * orders sheet as a row of nine cells.
 *
 * HMAC, the clock (`new Date().toISOString()`), `JSON.stringify` and the sheet append are
 * parameters of the handler.
 */
module VerifyPayment {
  import opened Wrappers
  import opened JsValues

  /** The request: its method and its parsed JSON body. */
  datatype Request = Request(httpMethod: string, body: map<string, Value>)

  /**
   * What the handler did: the reply it sent (None when it threw before replying) and the row
   * it appended to the orders sheet, if any.
   */
  datatype Outcome = Outcome(reply: Option<Reply>, appended: Option<seq<Value>>)

  const ORDER_ID_KEY := "razorpay_order_id"
  const PAYMENT_ID_KEY := "razorpay_payment_id"
  const SIGNATURE_KEY := "razorpay_signature"
  const ORDER_DATA_KEY := "orderData"

  /** `req.body[k]` after destructuring. */
  function BodyField(req: Request, k: string): Value {
    if k in req.body then req.body[k] else Undefined
  }

  /** The text the gateway signs: `${orderId}|${paymentId}`. */
  function SignedText(orderId: Value, paymentId: Value): string {
    ToText(orderId) + "|" + ToText(paymentId)
  }

  /** The signature matches when it is the string the HMAC of the signed text gives. */
  predicate SignatureMatches(req: Request, secret: string, hmac: (string, string) -> string) {
    BodyField(req, SIGNATURE_KEY)
      == Str(hmac(secret, SignedText(BodyField(req, ORDER_ID_KEY), BodyField(req, PAYMENT_ID_KEY))))
  }

  /**
   * The row for a verified payment: the order's id, the timestamp, name or "", phone or "",
   * the items as JSON (or "[]"), the total or 0, the gateway order id, the payment id and "PAID".
   * None when `orderData` is undefined or null (reading its `orderId` throws).
   */
  function OrderRow(req: Request, timestamp: string, stringify: Value -> string): (r: Option<seq<Value>>)
    ensures r.Some? ==> |r.value| == 9 && r.value[1] == Str(timestamp) && r.value[8] == Str("PAID")
    ensures r.Some? ==> r.value[6] == BodyField(req, ORDER_ID_KEY) && r.value[7] == BodyField(req, PAYMENT_ID_KEY)
    ensures r.None? <==> BodyField(req, ORDER_DATA_KEY) in {Undefined, Null}
    ensures r.Some? ==> var data := BodyField(req, ORDER_DATA_KEY);
      && r.value[0] == Prop(data, "orderId")
      && r.value[2] == Or(Prop(data, "customerName"), Str(""))
      && r.value[3] == Or(Prop(data, "customerPhone"), Str(""))
      && r.value[4] == Str(stringify(Or(Prop(data, "items"), Array([]))))
      && r.value[5] == Or(Prop(data, "totalAmount"), Number(0))
    ensures r.Some? && !BodyField(req, ORDER_DATA_KEY).Object? ==>
      r.value[0] == Undefined && r.value[2] == Str("") && r.value[3] == Str("")
      && r.value[4] == Str(stringify(Array([]))) && r.value[5] == Number(0)
  {
    var data := BodyField(req, ORDER_DATA_KEY);
    match Field(data, "orderId")
    case None => None
    case Some(orderId) =>
      Some([
        orderId,
        Str(timestamp),
        Or(Prop(data, "customerName"), Str("")),
        Or(Prop(data, "customerPhone"), Str("")),
        Str(stringify(Or(Prop(data, "items"), Array([])))),
        Or(Prop(data, "totalAmount"), Number(0)),
        BodyField(req, ORDER_ID_KEY),
        BodyField(req, PAYMENT_ID_KEY),
        Str("PAID")])
  }

  /**
   * `handler(req, res)`: 405 for anything but POST; 400 `missing_params` when an id or the
   * signature is falsy; 400 `verified: false` on a signature mismatch; otherwise the row is
   * appended and the reply is 200 `verified: true`, or 500 `verified: true, saved: false` when
   * building or appending the row throws.  An unset secret makes `createHmac` throw outside
   * the `try`, so the handler fails without a reply.
   */
  function Handle(req: Request, secret: Option<string>, hmac: (string, string) -> string, timestamp: string,
                  stringify: Value -> string, append: AppendResult): (r: Outcome)
    ensures req.httpMethod != "POST" ==> r == Outcome(Some(Reply(405, map["error" := Str("method_not_allowed")])), None)
    ensures r.appended.Some? ==> r.reply == Some(Reply(200, map["verified" := Bool(true)]))
    ensures r.reply.Some? && r.reply.value.status == 200 ==> r.appended.Some?
  {
    if req.httpMethod != "POST" then
      Outcome(Some(Reply(405, map["error" := Str("method_not_allowed")])), None)
    else if !Truthy(BodyField(req, ORDER_ID_KEY)) || !Truthy(BodyField(req, PAYMENT_ID_KEY)) || !Truthy(BodyField(req, SIGNATURE_KEY)) then
      Outcome(Some(Reply(400, map["error" := Str("missing_params")])), None)
    else if secret.None? then
      Outcome(None, None)
    else if !SignatureMatches(req, secret.value, hmac) then
      Outcome(Some(Reply(400, map["verified" := Bool(false), "message" := Str("invalid_signature")])), None)
    else
      match OrderRow(req, timestamp, stringify)
      case None =>
        Outcome(Some(Failure(ReadError(BodyField(req, ORDER_DATA_KEY), "orderId"))), None)
      case Some(row) =>
        match append
        case Appended => Outcome(Some(Reply(200, map["verified" := Bool(true)])), Some(row))
        case AppendFailed(message) => Outcome(Some(Failure(message)), None)
  }

  /** The 500 reply: verified, not saved, with the error's message. */
  function Failure(message: string): Reply {
    Reply(500, map["verified" := Bool(true), "saved" := Bool(false), "error" := Str(message)])
  }

  /** The three request fields the signature check needs are all present (truthy). */
  predicate HasParams(req: Request) {
    Truthy(BodyField(req, ORDER_ID_KEY)) && Truthy(BodyField(req, PAYMENT_ID_KEY)) && Truthy(BodyField(req, SIGNATURE_KEY))
  }

  /** A POST lacking an id or the signature gets 400 `missing_params` and nothing is appended. */
  lemma MissingParamsRejected(req: Request, secret: Option<string>, hmac: (string, string) -> string, timestamp: string,
                              stringify: Value -> string, append: AppendResult)
    requires req.httpMethod == "POST" && !HasParams(req)
    ensures Handle(req, secret, hmac, timestamp, stringify, append)
         == Outcome(Some(Reply(400, map["error" := Str("missing_params")])), None)
  {
  }

  /**
   * Whenever the handler replies `verified: true` the signature matched, and a matching
   * signature is never answered with `verified: false`; a mismatch appends nothing.
   */
  lemma VerifiedExactlyOnMatch(req: Request, secret: string, hmac: (string, string) -> string, timestamp: string,
                               stringify: Value -> string, append: AppendResult)
    requires req.httpMethod == "POST" && HasParams(req)
    ensures var r := Handle(req, Some(secret), hmac, timestamp, stringify, append);
      && r.reply.Some?
      && ("verified" in r.reply.value.body)
      && (r.reply.value.body["verified"] == Bool(true) <==> SignatureMatches(req, secret, hmac))
      && (!SignatureMatches(req, secret, hmac) ==> r.reply.value.status == 400 && r.appended.None?)
      && (SignatureMatches(req, secret, hmac) ==> r.reply.value.status in {200, 500})
  {
  }

  /**
   * With a matching signature the reply is 200 exactly when the order data is present and
   * the append succeeds, and then the appended row is the order row; otherwise it is 500
   * with `saved: false`.
   */
  lemma SavedExactlyWhenAppended(req: Request, secret: string, hmac: (string, string) -> string, timestamp: string,
                                 stringify: Value -> string, append: AppendResult)
    requires req.httpMethod == "POST" && HasParams(req) && SignatureMatches(req, secret, hmac)
    ensures var r := Handle(req, Some(secret), hmac, timestamp, stringify, append);
      var row := OrderRow(req, timestamp, stringify);
      && (r.reply.value.status == 200 <==> row.Some? && append.Appended?)
      && (r.reply.value.status == 200 ==> r.appended == row)
      && (r.reply.value.status != 200 ==> r.reply.value.status == 500 && r.reply.value.body["saved"] == Bool(false))
  {
  }
}
