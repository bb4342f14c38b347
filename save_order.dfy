/**
 * The order-saving endpoint: a POST carrying the cart, the payment id and the customer.  A
 * non-empty cart is written to the sheet as one row, and the reply carries a wa.me link whose
 * text announces the order.
 *
 * Parsing the service-account key, the sheet append, `encodeURIComponent` and the configured
 * WhatsApp number are parameters of the handler.
 */
module SaveOrder {
  import opened Wrappers
  import opened JsText
  import opened JsValues

  /** The request: its method and its parsed JSON body. */
  datatype Request = Request(httpMethod: string, body: map<string, Value>)

  /** The handler's environment: the key's parse error if any, the append, the number, the encoder. */
  datatype Env = Env(keyError: Option<string>, append: AppendResult, whatsappNumber: Value, encode: string -> string)

  /** The reply sent and the row appended to the sheet, if any. */
  datatype Outcome = Outcome(reply: Reply, appended: Option<seq<Value>>)

  /** The currency tag in the items text, the three characters the source file holds ("â‚¹"). */
  const RUPEE_TAG := "\U{00E2}\U{201A}\U{00B9}"

  function BodyField(req: Request, k: string): Value {
    if k in req.body then req.body[k] else Undefined
  }

  /** `!cart || cart.length === 0`; the second test reads `length` only from a truthy cart. */
  predicate CartEmpty(cart: Value) {
    !Truthy(cart) || Length(cart) == Number(0)
  }

  /** The cart counts as empty exactly when it is falsy, an empty array, or an object whose `length` is 0. */
  lemma CartEmptyCases(cart: Value)
    ensures CartEmpty(cart) <==> !Truthy(cart) || cart == Array([]) || (cart.Object? && Prop(cart, "length") == Number(0))
  {
    if cart.Str? {
      assert Truthy(cart) ==> |cart.s| != 0;
    }
  }

  /** A line whose properties can be read. */
  predicate Readable(v: Value) {
    !v.Undefined? && !v.Null?
  }

  /** `${i.qty || 1}x ${i.name} (₹${i.price})`, with the tag as the source spells it. */
  function ItemText(i: Value): (r: string)
    ensures r != [] && r[|r| - 1] == ')'
  {
    ToText(Or(Prop(i, "qty"), Number(1))) + "x " + ToText(Prop(i, "name")) + " (" + RUPEE_TAG + ToText(Prop(i, "price")) + ")"
  }

  /** The result of `cart.map(...)`: the texts, or the TypeError of the first unreadable line. */
  datatype Items = Texts(texts: seq<string>) | Threw(message: string)

  function ItemTexts(lines: seq<Value>): (r: Items)
    ensures r.Texts? <==> forall k :: 0 <= k < |lines| ==> Readable(lines[k])
    ensures r.Texts? ==> |r.texts| == |lines| && forall k :: 0 <= k < |lines| ==> r.texts[k] == ItemText(lines[k])
    ensures r.Threw? ==> exists k :: 0 <= k < |lines| && !Readable(lines[k]) && r.message == ReadError(lines[k], "qty")
    decreases |lines|
  {
    if lines == [] then Texts([])
    else if !Readable(lines[0]) then Threw(ReadError(lines[0], "qty"))
    else
      match ItemTexts(lines[1..])
      case Threw(m) => Threw(m)
      case Texts(ts) => Texts([ItemText(lines[0])] + ts)
  }

  /** The items string: the line texts joined by " | ". */
  function ItemsString(texts: seq<string>): string {
    Join(texts, " | ")
  }

  /** `[paymentId, user?.name || "", user?.phone || "", user?.address || "", items]` */
  function Row(paymentId: Value, user: Value, items: string): (r: seq<Value>)
    ensures |r| == 5 && r[0] == paymentId && r[4] == Str(items)
    ensures forall k :: 1 <= k <= 3 ==> Truthy(r[k]) || r[k] == Str("")
    ensures r[1] == Or(OptField(user, "name"), Str(""))
    ensures r[2] == Or(OptField(user, "phone"), Str(""))
    ensures r[3] == Or(OptField(user, "address"), Str(""))
    ensures user.Undefined? || user.Null? ==> r[1] == Str("") && r[2] == Str("") && r[3] == Str("")
    ensures user.Object? && "name" in user.fields && Truthy(user.fields["name"]) ==> r[1] == user.fields["name"]
  {
    [paymentId, Or(OptField(user, "name"), Str("")), Or(OptField(user, "phone"), Str("")),
     Or(OptField(user, "address"), Str("")), Str(items)]
  }

  /** The message between the template's opening and closing newlines. */
  function MessageBody(paymentId: Value, user: Value, items: string): string {
    "New Order Received!\n\n" + OrderIdLine(paymentId) + "\nName: " + ToText(OptField(user, "name"))
      + "\nPhone: " + ToText(OptField(user, "phone")) + "\nAddress: " + ToText(OptField(user, "address"))
      + "\n\nItems:\n" + items
  }

  function OrderIdLine(paymentId: Value): string {
    "Order ID: " + ToText(paymentId)
  }

  /** The WhatsApp message: the template literal, trimmed. */
  function Message(paymentId: Value, user: Value, items: string): string {
    Trim("\n" + MessageBody(paymentId, user, items) + "\n")
  }

  function WhatsappUrl(env: Env, message: string): string {
    "https://wa.me/" + ToText(env.whatsappNumber) + "?text=" + env.encode(message)
  }

  /** The 500 reply for an exception with the given message. */
  function Failure(details: string): Reply {
    Reply(500, map["success" := Bool(false), "error" := Str("Saving order failed"), "details" := Str(details)])
  }

  /**
   * `handler(req, res)`: 405 for anything but POST; 400 "Cart empty" for a falsy or empty
   * cart; then, inside the `try`, the key is parsed, the items string and the row are built
   * and appended, and the reply carries the wa.me link; any exception on the way gives 500.
   */
  function Handle(req: Request, env: Env): (r: Outcome)
    ensures req.httpMethod != "POST" ==> r == Outcome(Reply(405, map["error" := Str("Only POST allowed")]), None)
    ensures req.httpMethod == "POST" && CartEmpty(BodyField(req, "cart")) ==>
      r == Outcome(Reply(400, map["error" := Str("Cart empty")]), None)
    ensures r.reply.status == 400 <==> req.httpMethod == "POST" && CartEmpty(BodyField(req, "cart"))
    ensures r.appended.Some? <==> r.reply.status == 200
    ensures r.reply.status !in {200, 400, 405} ==> r.reply.status == 500 && "whatsappUrl" !in r.reply.body
  {
    var cart := BodyField(req, "cart");
    if req.httpMethod != "POST" then Outcome(Reply(405, map["error" := Str("Only POST allowed")]), None)
    else if CartEmpty(cart) then Outcome(Reply(400, map["error" := Str("Cart empty")]), None)
    else if env.keyError.Some? then Outcome(Failure(env.keyError.value), None)
    else if !cart.Array? then Outcome(Failure("cart.map is not a function"), None)
    else
      match ItemTexts(cart.elems)
      case Threw(m) => Outcome(Failure(m), None)
      case Texts(texts) =>
        var items := ItemsString(texts);
        var paymentId := BodyField(req, "paymentId");
        var user := BodyField(req, "user");
        match env.append
        case AppendFailed(m) => Outcome(Failure(m), None)
        case Appended =>
          var url := WhatsappUrl(env, Message(paymentId, user, items));
          Outcome(Reply(200, map["success" := Bool(true), "whatsappUrl" := Str(url)]), Some(Row(paymentId, user, items)))
  }

  /** A join of texts that all end in ')' ends in ')'. */
  lemma {:induction false} JoinEndsInParen(ps: seq<string>, sep: string)
    requires |ps| >= 1 && forall k :: 0 <= k < |ps| ==> ps[k] != [] && ps[k][|ps[k]| - 1] == ')'
    ensures Join(ps, sep) != [] && Join(ps, sep)[|Join(ps, sep)| - 1] == ')'
    decreases |ps|
  {
    if |ps| > 1 {
      JoinEndsInParen(ps[1..], sep);
    }
  }

  /**
   * Trimming the template only drops its outer newlines: the message starts with
   * "New Order Received!" and ends with the items string.
   */
  lemma MessageIsBody(paymentId: Value, user: Value, texts: seq<string>)
    requires |texts| >= 1 && forall k :: 0 <= k < |texts| ==> texts[k] != [] && texts[k][|texts[k]| - 1] == ')'
    ensures Message(paymentId, user, ItemsString(texts)) == MessageBody(paymentId, user, ItemsString(texts))
  {
    var items := ItemsString(texts);
    JoinEndsInParen(texts, " | ");
    var body := MessageBody(paymentId, user, items);
    assert body[0] == 'N';
    assert body[|body| - 1] == items[|items| - 1];
    assert AllSpace("\n");
    TrimSurrounded("\n", body, "\n");
  }

  /** The message names the payment id and holds the items string. */
  lemma MessageNamesOrder(paymentId: Value, user: Value, items: string)
    ensures IsInfix(OrderIdLine(paymentId), MessageBody(paymentId, user, items))
    ensures IsInfix(items, MessageBody(paymentId, user, items))
  {
    var head := "New Order Received!\n\n";
    var body := MessageBody(paymentId, user, items);
    var front := body[..|body| - |items|];
    assert body == front + items;
    InfixEnd(front, items);
    InfixEnd(head, OrderIdLine(paymentId));
    var rest := body[|head + OrderIdLine(paymentId)|..];
    assert body == head + OrderIdLine(paymentId) + rest;
    InfixLeft(OrderIdLine(paymentId), head + OrderIdLine(paymentId), rest);
  }

  /**
   * A POST with a non-empty cart succeeds exactly when the key parses, the cart is an array
   * of readable lines and the append succeeds; then the appended row is the payment id, the
   * customer's three fields (or "") and the items string holding every line's text, and the
   * reply's link carries the encoded message that names the payment id and the items.
   */
  lemma SavedOrder(req: Request, env: Env)
    requires req.httpMethod == "POST" && !CartEmpty(BodyField(req, "cart"))
    ensures var r := Handle(req, env);
      var cart := BodyField(req, "cart");
      r.reply.status == 200 <==>
        env.keyError.None? && cart.Array? && (forall k :: 0 <= k < |cart.elems| ==> Readable(cart.elems[k]))
        && env.append.Appended?
    ensures var r := Handle(req, env);
      var cart := BodyField(req, "cart");
      r.reply.status == 200 ==>
        var texts := ItemTexts(cart.elems).texts;
        var items := ItemsString(texts);
        var paymentId := BodyField(req, "paymentId");
        var message := MessageBody(paymentId, BodyField(req, "user"), items);
        && r.appended == Some(Row(paymentId, BodyField(req, "user"), items))
        && (forall k :: 0 <= k < |cart.elems| ==> IsInfix(ItemText(cart.elems[k]), items))
        && r.reply.body == map["success" := Bool(true), "whatsappUrl" := Str(WhatsappUrl(env, message))]
        && IsInfix(OrderIdLine(paymentId), message) && IsInfix(items, message)
  {
    var r := Handle(req, env);
    var cart := BodyField(req, "cart");
    if r.reply.status == 200 {
      var texts := ItemTexts(cart.elems).texts;
      var paymentId := BodyField(req, "paymentId");
      var user := BodyField(req, "user");
      assert cart.elems != [];
      MessageIsBody(paymentId, user, texts);
      MessageNamesOrder(paymentId, user, ItemsString(texts));
      forall k | 0 <= k < |cart.elems|
        ensures IsInfix(ItemText(cart.elems[k]), ItemsString(texts))
      {
        InfixOfJoin(texts, " | ", k);
      }
    }
  }
}
