/**
 * src/pages/CheckoutPage.jsx: the checkout page.  It loads the customer's profile, groups the
 * cart by delivery day, builds the UPI payment link, the WhatsApp order message and the order
 * sheet payload, and runs the confirm-then-send workflow.
 */
module Checkout {
  import opened JsText
  import opened Wrappers
  import opened CartStore

  const STORAGE_KEY: string := "Thaayar Kitchen_user"
  /** The keys the profile is looked up under, in order. */
  const PROFILE_KEYS: seq<string> := [STORAGE_KEY, "user", "Thaayar_Kitchen_user"]
  const DEFAULT_STORE_NAME: string := "Thaayar Kitchen"
  const DEFAULT_SLOT: string := "11:00 AM \U{2013} 01:00 PM"
  const UPI_ID: string := "8524845927@okbizaxis"
  const PAYMENT_NOTE: string := "Thaayar Kitchen Order Payment"

  /** The stored profile; a field the stored object lacks is None (`undefined`). */
  datatype User = User(name: Option<string>, phone: Option<string>, address: Option<string>)

  /** The build-time settings: WhatsApp number, store name and orders webhook, each possibly unset. */
  datatype Settings = Settings(whatsappNumber: Option<string>, storeName: Option<string>, ordersWebhook: Option<string>)

  /** What the browser supplies: `encodeURIComponent` and the locale's date label of a day. */
  datatype Browser = Browser(encode: string -> string, dateLabel: int -> string)

  /** `VITE_STORE_NAME || "Thaayar Kitchen"` */
  function StoreName(s: Settings): string {
    OrElse(s.storeName, DEFAULT_STORE_NAME)
  }

  // ---------------------------------------------------------------- the profile

  /** `localStorage.getItem(k)` gives a truthy value. */
  predicate Stored(storage: map<string, string>, k: string) {
    k in storage && storage[k] != ""
  }

  /** The value under the first key that holds a truthy value. */
  function FirstStored(storage: map<string, string>, keys: seq<string>): Option<string> {
    if keys == [] then None
    else if Stored(storage, keys[0]) then Some(storage[keys[0]])
    else FirstStored(storage, keys[1..])
  }

  /** The first key holding a truthy value wins; with none, nothing is found. */
  lemma {:induction false} FirstStoredFinds(storage: map<string, string>, keys: seq<string>)
    ensures FirstStored(storage, keys).None? <==> forall i :: 0 <= i < |keys| ==> !Stored(storage, keys[i])
    ensures FirstStored(storage, keys).Some? ==>
      exists i :: 0 <= i < |keys| && Stored(storage, keys[i]) && FirstStored(storage, keys).value == storage[keys[i]]
                  && forall j :: 0 <= j < i ==> !Stored(storage, keys[j])
  {
    if keys != [] && !Stored(storage, keys[0]) {
      FirstStoredFinds(storage, keys[1..]);
      var r := FirstStored(storage, keys[1..]);
      if r.Some? {
        var i :| 0 <= i < |keys[1..]| && Stored(storage, keys[1..][i]) && r.value == storage[keys[1..][i]]
                   && forall j :: 0 <= j < i ==> !Stored(storage, keys[1..][j]);
        assert keys[i + 1] == keys[1..][i];
        forall j | 0 <= j < i + 1
          ensures !Stored(storage, keys[j])
        {
          if j > 0 {
            assert keys[j] == keys[1..][j - 1];
          }
        }
      } else {
        forall i | 0 <= i < |keys|
          ensures !Stored(storage, keys[i])
        {
          if i > 0 {
            assert keys[i] == keys[1..][i - 1];
          }
        }
      }
    }
  }

  /**
   * The profile load: the first stored value among the three keys is parsed; `parse` gives
   * None for text that does not parse (the error is caught) or parses to `null`.
   */
  function LoadUser(storage: map<string, string>, parse: string -> Option<User>): Option<User> {
    match FirstStored(storage, PROFILE_KEYS)
    case None => None
    case Some(raw) => parse(raw)
  }

  /** The lookup order: the main key wins, then "user", then "Thaayar_Kitchen_user"; with none, no user. */
  lemma ProfileLookupOrder(storage: map<string, string>, parse: string -> Option<User>)
    ensures Stored(storage, STORAGE_KEY) ==> LoadUser(storage, parse) == parse(storage[STORAGE_KEY])
    ensures !Stored(storage, STORAGE_KEY) && Stored(storage, "user") ==> LoadUser(storage, parse) == parse(storage["user"])
    ensures (!Stored(storage, STORAGE_KEY) && !Stored(storage, "user") && Stored(storage, "Thaayar_Kitchen_user"))
              ==> LoadUser(storage, parse) == parse(storage["Thaayar_Kitchen_user"])
    ensures (!Stored(storage, STORAGE_KEY) && !Stored(storage, "user") && !Stored(storage, "Thaayar_Kitchen_user"))
              ==> LoadUser(storage, parse) == None
  {
    FirstStoredFinds(storage, PROFILE_KEYS);
    var r := FirstStored(storage, PROFILE_KEYS);
    assert PROFILE_KEYS[0] == STORAGE_KEY && PROFILE_KEYS[1] == "user" && PROFILE_KEYS[2] == "Thaayar_Kitchen_user";
    if r.Some? {
      var i :| 0 <= i < 3 && Stored(storage, PROFILE_KEYS[i]) && r.value == storage[PROFILE_KEYS[i]]
                 && forall j :: 0 <= j < i ==> !Stored(storage, PROFILE_KEYS[j]);
    }
  }

  // ---------------------------------------------------------------- group

  /** The lines of a day, in cart order. */
  function Bucket(items: seq<CartLine>, day: string): (r: seq<CartLine>)
    ensures forall it :: it in r <==> it in items && it.dayLabel == day
  {
    Filter(items, (it: CartLine) => it.dayLabel == day)
  }

  lemma BucketSnoc(items: seq<CartLine>, it: CartLine, day: string)
    ensures Bucket(items + [it], day) == Bucket(items, day) + (if it.dayLabel == day then [it] else [])
  {
    FilterAppend(items, [it], (l: CartLine) => l.dayLabel == day);
    assert [it][1..] == [];
  }

  lemma EmptyBucket(items: seq<CartLine>, day: string)
    requires forall it :: it in items ==> it.dayLabel != day
    ensures Bucket(items, day) == []
    decreases |items|
  {
    if items != [] {
      assert items[0] in items;
      assert forall it :: it in items[1..] ==> it in items;
      EmptyBucket(items[1..], day);
    }
  }

  /** The day labels in order of first appearance: the key order of the grouped object. */
  function DayOrder(items: seq<CartLine>): (r: seq<string>)
    ensures forall d :: d in r ==> Bucket(items, d) != []
  {
    if items == [] then []
    else
      var init := items[..|items| - 1];
      var last := items[|items| - 1];
      assert items == init + [last];
      BucketsGrow(init, last);
      var prev := DayOrder(init);
      if last.dayLabel in prev then prev else prev + [last.dayLabel]
  }

  lemma BucketsGrow(items: seq<CartLine>, it: CartLine)
    ensures forall d :: Bucket(items + [it], d) == Bucket(items, d) + (if it.dayLabel == d then [it] else [])
  {
    forall d
      ensures Bucket(items + [it], d) == Bucket(items, d) + (if it.dayLabel == d then [it] else [])
    {
      BucketSnoc(items, it, d);
    }
  }

  /** The days listed are exactly the days with lines. */
  lemma {:induction false} DayOrderMembers(items: seq<CartLine>)
    ensures forall d :: d in DayOrder(items) <==> Bucket(items, d) != []
  {
    if items != [] {
      var init := items[..|items| - 1];
      var last := items[|items| - 1];
      assert items == init + [last];
      DayOrderMembers(init);
      forall d
        ensures d in DayOrder(items) <==> Bucket(items, d) != []
      {
        BucketSnoc(init, last, d);
      }
    }
  }

  predicate NoRepeats(s: seq<string>) {
    forall i, j :: 0 <= i < j < |s| ==> s[i] != s[j]
  }

  lemma {:induction false} DayOrderNoRepeats(items: seq<CartLine>)
    ensures NoRepeats(DayOrder(items))
  {
    if items != [] {
      DayOrderNoRepeats(items[..|items| - 1]);
    }
  }

  /**
   * `group(items)`: one bucket per day label, the labels in order of first appearance and each
   * bucket holding that day's lines in cart order.
   */
  method Group(items: seq<CartLine>) returns (days: seq<string>, buckets: map<string, seq<CartLine>>)
    ensures days == DayOrder(items)
    ensures forall d :: d in buckets <==> d in days
    ensures forall d :: d in buckets ==> buckets[d] == Bucket(items, d)
  {
    days := [];
    buckets := map[];
    for i := 0 to |items|
      invariant days == DayOrder(items[..i])
      invariant forall d :: d in buckets <==> d in days
      invariant forall d :: d in buckets ==> buckets[d] == Bucket(items[..i], d)
    {
      var it := items[i];
      PrefixSnoc(items, i);
      GroupStep(items[..i], it, days, buckets);
      var bucket := if it.dayLabel in buckets then buckets[it.dayLabel] else [];
      if it.dayLabel !in buckets {
        days := days + [it.dayLabel];
      }
      buckets := buckets[it.dayLabel := bucket + [it]];
    }
    assert items[..|items|] == items;
  }

  /** One step of `group`: the line joins its day's bucket, and a new day joins the key order. */
  lemma GroupStep(pre: seq<CartLine>, it: CartLine, days: seq<string>, buckets: map<string, seq<CartLine>>)
    requires days == DayOrder(pre)
    requires forall d :: d in buckets <==> d in days
    requires forall d :: d in buckets ==> buckets[d] == Bucket(pre, d)
    ensures var days' := if it.dayLabel in buckets then days else days + [it.dayLabel];
      var buckets' := buckets[it.dayLabel := (if it.dayLabel in buckets then buckets[it.dayLabel] else []) + [it]];
      && days' == DayOrder(pre + [it])
      && (forall d :: d in buckets' <==> d in days')
      && forall d :: d in buckets' ==> buckets'[d] == Bucket(pre + [it], d)
  {
    var items := pre + [it];
    var days' := if it.dayLabel in buckets then days else days + [it.dayLabel];
    var buckets' := buckets[it.dayLabel := (if it.dayLabel in buckets then buckets[it.dayLabel] else []) + [it]];
    assert days' == DayOrder(items) by {
      assert items[..|items| - 1] == pre && items[|items| - 1] == it;
    }
    DayOrderMembers(pre);
    assert forall d :: d in buckets' <==> d in days';
    forall d | d in buckets'
      ensures buckets'[d] == Bucket(items, d)
    {
      BucketSnoc(pre, it, d);
    }
  }

  /** The sum of the bucket sizes over some days. */
  function BucketSizes(items: seq<CartLine>, days: seq<string>): nat {
    if days == [] then 0 else |Bucket(items, days[0])| + BucketSizes(items, days[1..])
  }

  lemma {:induction false} BucketSizesGrow(items: seq<CartLine>, it: CartLine, days: seq<string>)
    requires NoRepeats(days)
    ensures BucketSizes(items + [it], days) == BucketSizes(items, days) + (if it.dayLabel in days then 1 else 0)
  {
    if days != [] {
      BucketSnoc(items, it, days[0]);
      BucketSizesGrow(items, it, days[1..]);
      if it.dayLabel == days[0] {
        assert it.dayLabel !in days[1..];
      }
    }
  }

  lemma {:induction false} BucketSizesSnoc(items: seq<CartLine>, days: seq<string>, day: string)
    ensures BucketSizes(items, days + [day]) == BucketSizes(items, days) + |Bucket(items, day)|
  {
    if days != [] {
      assert (days + [day])[1..] == days[1..] + [day];
      BucketSizesSnoc(items, days[1..], day);
    } else {
      assert ([] + [day])[1..] == [];
    }
  }

  /** Every line is in exactly one bucket: the bucket sizes add up to the number of lines. */
  lemma {:induction false} GroupIsPartition(items: seq<CartLine>)
    ensures BucketSizes(items, DayOrder(items)) == |items|
    ensures forall it :: it in items ==> it.dayLabel in DayOrder(items) && it in Bucket(items, it.dayLabel)
  {
    if items != [] {
      var init := items[..|items| - 1];
      var last := items[|items| - 1];
      assert items == init + [last];
      GroupIsPartition(init);
      DayOrderNoRepeats(init);
      DayOrderMembers(init);
      BucketSizesGrow(init, last, DayOrder(init));
      if last.dayLabel !in DayOrder(init) {
        BucketSizesSnoc(items, DayOrder(init), last.dayLabel);
        EmptyBucket(init, last.dayLabel);
        BucketSnoc(init, last, last.dayLabel);
      }
    }
  }

  // ---------------------------------------------------------------- UPI link

  /** The query parameters of the UPI link, in order. */
  function UpiParams(storeName: string, total: int, encode: string -> string): seq<string> {
    ["pa=" + UPI_ID, "pn=" + encode(storeName), "am=" + IntToString(total), "cu=INR", "tn=" + encode(PAYMENT_NOTE)]
  }

  /** `getUpiLink()`: the pay endpoint with the five parameters joined by "&". */
  function UpiLink(storeName: string, total: int, encode: string -> string): string {
    "https://upi.link/pay?" + Join(UpiParams(storeName, total, encode), "&")
  }

  /**
   * The query splits at "&" into exactly the payee, the encoded store name, the cart total,
   * the currency and the encoded note (percent-encoding never leaves an "&").
   */
  lemma UpiLinkParams(storeName: string, total: int, encode: string -> string)
    requires '&' !in encode(storeName) && '&' !in encode(PAYMENT_NOTE)
    ensures UpiLink(storeName, total, encode)[..21] == "https://upi.link/pay?"
    ensures SplitOn(UpiLink(storeName, total, encode)[21..], '&') == UpiParams(storeName, total, encode)
  {
    var ps := UpiParams(storeName, total, encode);
    forall p | p in ps
      ensures '&' !in p
    {
      NoAmpInParams(storeName, total, encode, p);
    }
    SplitJoin(ps, '&');
    assert UpiLink(storeName, total, encode)[21..] == Join(ps, "&");
  }

  lemma NoAmpInParams(storeName: string, total: int, encode: string -> string, p: string)
    requires '&' !in encode(storeName) && '&' !in encode(PAYMENT_NOTE)
    requires p in UpiParams(storeName, total, encode)
    ensures '&' !in p
  {
    var t := IntToString(total);
    assert '&' !in t;
  }

  // ---------------------------------------------------------------- WhatsApp message

  /** `- ${i.qty || 1}x ${i.name}` and a newline. */
  function LineText(it: CartLine): string {
    "- " + IntToString(QtyOr1(it.qty)) + "x " + Shown(it.name) + "\n"
  }

  /** The line texts of a bucket, in order. */
  function LinesText(bucket: seq<CartLine>): string {
    if bucket == [] then "" else LinesText(bucket[..|bucket| - 1]) + LineText(bucket[|bucket| - 1])
  }

  /** `${day} (${dateLabel}):` for a day whose first line gives the date. */
  function DayHeader(day: string, bucket: seq<CartLine>, b: Browser): string
    requires bucket != []
  {
    day + " (" + b.dateLabel(bucket[0].deliveryDate) + "):\n"
  }

  /** The `itemsText` of some days: per day its header, its lines and a blank line. */
  function ItemsText(days: seq<string>, items: seq<CartLine>, b: Browser): string
    requires forall d :: d in days ==> Bucket(items, d) != []
  {
    if days == [] then ""
    else
      var d := days[|days| - 1];
      ItemsText(days[..|days| - 1], items, b) + DayHeader(d, Bucket(items, d), b) + LinesText(Bucket(items, d)) + "\n"
  }

  /** The inner loop of `whatsappLink`: one text line per line of a bucket. */
  method AppendLines(text: string, bucket: seq<CartLine>) returns (out: string)
    ensures out == text + LinesText(bucket)
  {
    out := text;
    for j := 0 to |bucket|
      invariant out == text + LinesText(bucket[..j])
    {
      LinesTextStep(bucket, j);
      ConcatAssoc(text, LinesText(bucket[..j]), LineText(bucket[j]));
      out := out + LineText(bucket[j]);
    }
    assert bucket[..|bucket|] == bucket;
  }

  lemma LinesTextStep(bucket: seq<CartLine>, j: nat)
    requires j < |bucket|
    ensures LinesText(bucket[..j + 1]) == LinesText(bucket[..j]) + LineText(bucket[j])
  {
    assert bucket[..j + 1][..j] == bucket[..j] && bucket[..j + 1][j] == bucket[j];
  }

  /** The `itemsText` loops of `whatsappLink`. */
  method BuildItemsText(cart: seq<CartLine>, b: Browser) returns (text: string)
    ensures text == ItemsText(DayOrder(cart), cart, b)
  {
    var days, buckets := Group(cart);
    text := "";
    for k := 0 to |days|
      invariant text == ItemsText(days[..k], cart, b)
    {
      var day := days[k];
      assert day in days;
      var bucket := buckets[day];
      assert bucket == Bucket(cart, day);
      ItemsTextStep(days, k, cart, b);
      ghost var before := text;
      var header := day + " (" + b.dateLabel(bucket[0].deliveryDate) + "):\n";
      assert header == DayHeader(day, bucket, b);
      text := text + header;
      text := AppendLines(text, bucket);
      text := text + "\n";
      assert text == before + header + LinesText(bucket) + "\n";
    }
    assert days[..|days|] == days;
  }

  lemma ItemsTextStep(days: seq<string>, k: nat, items: seq<CartLine>, b: Browser)
    requires k < |days| && forall d :: d in days ==> Bucket(items, d) != []
    ensures Bucket(items, days[k]) != []
    ensures ItemsText(days[..k + 1], items, b)
         == ItemsText(days[..k], items, b) + DayHeader(days[k], Bucket(items, days[k]), b) + LinesText(Bucket(items, days[k])) + "\n"
  {
    assert days[k] in days;
    assert days[..k + 1][..k] == days[..k] && days[..k + 1][k] == days[k];
  }

  lemma {:induction false} LineInLines(bucket: seq<CartLine>, it: CartLine)
    requires it in bucket
    ensures IsInfix(LineText(it), LinesText(bucket))
  {
    var last := bucket[|bucket| - 1];
    var init := bucket[..|bucket| - 1];
    assert bucket == init + [last];
    if it == last {
      InfixOfConcat(LinesText(init), LineText(it), "");
      assert LinesText(init) + LineText(it) + "" == LinesText(bucket);
    } else {
      assert it in init;
      LineInLines(init, it);
      InfixLeft(LineText(it), LinesText(init), LineText(last));
    }
  }

  lemma {:induction false} LinesInItemsText(days: seq<string>, items: seq<CartLine>, b: Browser, d: string)
    requires forall x :: x in days ==> Bucket(items, x) != []
    requires d in days
    ensures IsInfix(LinesText(Bucket(items, d)), ItemsText(days, items, b))
  {
    var last := days[|days| - 1];
    var init := days[..|days| - 1];
    assert forall x :: x in init ==> x in days;
    var pre := ItemsText(init, items, b);
    var head := pre + DayHeader(last, Bucket(items, last), b);
    var lines := LinesText(Bucket(items, last));
    assert ItemsText(days, items, b) == head + lines + "\n";
    if d == last {
      InfixOfConcat(head, lines, "\n");
    } else {
      assert d in init by {
        var i :| 0 <= i < |days| && days[i] == d;
        assert i != |days| - 1 && init[i] == d;
      }
      LinesInItemsText(init, items, b, d);
      InfixLeft(LinesText(Bucket(items, d)), pre, DayHeader(last, Bucket(items, last), b));
      InfixLeft(LinesText(Bucket(items, d)), head, lines + "\n");
      assert head + (lines + "\n") == head + lines + "\n";
    }
  }

  /** Every cart line appears in the order details, as `- Nx name`. */
  lemma EveryLineListed(cart: seq<CartLine>, b: Browser, it: CartLine)
    requires it in cart
    ensures IsInfix(LineText(it), ItemsText(DayOrder(cart), cart, b))
  {
    GroupIsPartition(cart);
    LineInLines(Bucket(cart, it.dayLabel), it);
    LinesInItemsText(DayOrder(cart), cart, b, it.dayLabel);
    InfixTransitive(LineText(it), LinesText(Bucket(cart, it.dayLabel)), ItemsText(DayOrder(cart), cart, b));
  }

  /** The customer block: name, phone and address lines and a blank line. */
  function CustomerBlock(u: User): string {
    Shown(u.name) + "\n" + Shown(u.phone) + "\n" + Shown(u.address) + "\n\n"
  }

  /** `userText` */
  function UserText(user: Option<User>): string {
    match user
    case None => ""
    case Some(u) => CustomerBlock(u)
  }

  /** The message before encoding; an order id that is `null` shows as "null". */
  function MessageText(store: string, orderId: Option<string>, user: Option<User>, itemsText: string, total: int, slot: string): string {
    MessageHead(store, orderId) + UserText(user) + MessageTail(itemsText, total, slot)
  }

  function OrderIdLine(orderId: Option<string>): string {
    "Order ID: " + orderId.GetOr("null")
  }

  function TotalLine(total: int): string {
    "Total: \U{20B9}" + IntToString(total)
  }

  function SlotLine(slot: string): string {
    "Delivery Slot: " + slot
  }

  function MessageHead(store: string, orderId: Option<string>): string {
    store + "\n\n" + OrderIdLine(orderId) + "\n\n"
  }

  function MessageTail(itemsText: string, total: int, slot: string): string {
    "Order Details:\n" + itemsText + "\n" + TotalLine(total) + "\n" + SlotLine(slot) + "\n"
  }

  /** The message names the order id ("null" when the sheet gave none). */
  lemma MessageNamesOrder(store: string, orderId: Option<string>, user: Option<User>, itemsText: string, total: int, slot: string)
    ensures IsInfix(OrderIdLine(orderId), MessageText(store, orderId, user, itemsText, total, slot))
  {
    var id := OrderIdLine(orderId);
    InfixEnd(store + "\n\n", id);
    InfixLeft(id, store + "\n\n" + id, "\n\n");
    InfixLeft(id, MessageHead(store, orderId), UserText(user));
    InfixLeft(id, MessageHead(store, orderId) + UserText(user), MessageTail(itemsText, total, slot));
  }

  /** The order details, the total and the slot all appear in the tail of the message. */
  lemma TailContents(itemsText: string, total: int, slot: string)
    ensures IsInfix(itemsText, MessageTail(itemsText, total, slot))
    ensures IsInfix(TotalLine(total), MessageTail(itemsText, total, slot))
    ensures IsInfix(SlotLine(slot), MessageTail(itemsText, total, slot))
  {
    var a := "Order Details:\n" + itemsText;
    var b := a + "\n" + TotalLine(total);
    var c := b + "\n" + SlotLine(slot);
    InfixEnd("Order Details:\n", itemsText);
    InfixLeft(itemsText, a, "\n");
    InfixLeft(itemsText, a + "\n", TotalLine(total));
    InfixLeft(itemsText, b, "\n");
    InfixLeft(itemsText, b + "\n", SlotLine(slot));
    InfixLeft(itemsText, c, "\n");
    InfixEnd(a + "\n", TotalLine(total));
    InfixLeft(TotalLine(total), b, "\n");
    InfixLeft(TotalLine(total), b + "\n", SlotLine(slot));
    InfixLeft(TotalLine(total), c, "\n");
    InfixEnd(b + "\n", SlotLine(slot));
    InfixLeft(SlotLine(slot), c, "\n");
  }

  /** The message names the order details, the total and the slot. */
  lemma MessageNamesTotalAndSlot(store: string, orderId: Option<string>, user: Option<User>, itemsText: string, total: int, slot: string)
    ensures IsInfix(itemsText, MessageText(store, orderId, user, itemsText, total, slot))
    ensures IsInfix(TotalLine(total), MessageText(store, orderId, user, itemsText, total, slot))
    ensures IsInfix(SlotLine(slot), MessageText(store, orderId, user, itemsText, total, slot))
  {
    var front := MessageHead(store, orderId) + UserText(user);
    var tail := MessageTail(itemsText, total, slot);
    TailContents(itemsText, total, slot);
    InfixRight(itemsText, front, tail);
    InfixRight(TotalLine(total), front, tail);
    InfixRight(SlotLine(slot), front, tail);
  }

  /**
   * The customer block is in the message when there is a user; without a user the message is
   * the same text with that block left out.
   */
  lemma CustomerBlockOnlyWithUser(store: string, orderId: Option<string>, u: User, itemsText: string, total: int, slot: string)
    ensures IsInfix(CustomerBlock(u), MessageText(store, orderId, Some(u), itemsText, total, slot))
    ensures MessageText(store, orderId, Some(u), itemsText, total, slot)
         == MessageHead(store, orderId) + CustomerBlock(u) + MessageTail(itemsText, total, slot)
    ensures MessageText(store, orderId, None, itemsText, total, slot)
         == MessageHead(store, orderId) + MessageTail(itemsText, total, slot)
  {
    var head, tail := MessageHead(store, orderId), MessageTail(itemsText, total, slot);
    assert UserText(Some(u)) == CustomerBlock(u);
    assert UserText(None) == [];
    assert head + [] == head;
    InfixOfConcat(head, CustomerBlock(u), tail);
  }

  predicate NotPlus(c: char) {
    c != '+'
  }

  /** `WHATSAPP_NUM.replace(/\+/g, "")`: every "+" removed; a number without one is kept as is. */
  function WithoutPlus(num: string): (r: string)
    ensures '+' !in r
    ensures '+' !in num ==> r == num
  {
    PlusFreeKept(num);
    KeepChars(num, NotPlus)
  }

  lemma PlusFreeKept(num: string)
    ensures '+' !in num ==> KeepChars(num, NotPlus) == num
  {
    if '+' !in num {
      KeepAll(num, NotPlus);
    }
  }

  /**
   * Removing the pluses works piece by piece, so the other characters keep their order and a
   * number written "+" followed by digits loses only its leading "+".
   */
  lemma WithoutPlusAppend(a: string, b: string)
    ensures WithoutPlus(a + b) == WithoutPlus(a) + WithoutPlus(b)
    ensures '+' !in b ==> WithoutPlus("+" + b) == b
  {
    KeepCharsAppend(a, b, NotPlus);
    KeepCharsAppend("+", b, NotPlus);
    assert KeepChars("+", NotPlus) == [] + KeepChars("", NotPlus);
  }

  /**
   * `whatsappLink(orderId)`: the wa.me link for the number without "+" carrying the encoded
   * message; None when no WhatsApp number is set (the `replace` call throws).
   */
  function WhatsappUrl(cart: seq<CartLine>, orderId: Option<string>, user: Option<User>, slot: string, s: Settings, b: Browser): Option<string> {
    match s.whatsappNumber
    case None => None
    case Some(num) =>
      Some("https://wa.me/" + WithoutPlus(num) + "?text="
        + b.encode(MessageText(StoreName(s), orderId, user, ItemsText(DayOrder(cart), cart, b), CartTotal(cart), slot)))
  }

  /** `whatsappLink` itself, whose loops build the order details. */
  method WhatsappLink(cart: seq<CartLine>, orderId: Option<string>, user: Option<User>, slot: string, s: Settings, b: Browser)
    returns (link: Option<string>)
    ensures link == WhatsappUrl(cart, orderId, user, slot, s, b)
  {
    var itemsText := BuildItemsText(cart, b);
    var msg := b.encode(MessageText(StoreName(s), orderId, user, itemsText, CartTotal(cart), slot));
    match s.whatsappNumber {
      case None =>
        link := None;
      case Some(num) =>
        link := Some("https://wa.me/" + WithoutPlus(num) + "?text=" + msg);
    }
  }

  /**
   * The link exists exactly when a WhatsApp number is set; it goes to that number without
   * "+", and its text is the encoded message naming the order id, the total and the slot.
   */
  lemma WhatsappUrlPresent(cart: seq<CartLine>, orderId: Option<string>, user: Option<User>, slot: string, s: Settings, b: Browser)
    ensures WhatsappUrl(cart, orderId, user, slot, s, b).Some? <==> s.whatsappNumber.Some?
  {
  }

  lemma WhatsappUrlShape(cart: seq<CartLine>, orderId: Option<string>, user: Option<User>, slot: string, s: Settings, b: Browser)
    ensures WhatsappUrl(cart, orderId, user, slot, s, b).Some? <==> s.whatsappNumber.Some?
    ensures s.whatsappNumber.Some? ==>
      var url := WhatsappUrl(cart, orderId, user, slot, s, b).value;
      var msg := MessageText(StoreName(s), orderId, user, ItemsText(DayOrder(cart), cart, b), CartTotal(cart), slot);
      && url == "https://wa.me/" + WithoutPlus(s.whatsappNumber.value) + "?text=" + b.encode(msg)
      && '+' !in WithoutPlus(s.whatsappNumber.value)
      && IsInfix(OrderIdLine(orderId), msg) && IsInfix(TotalLine(CartTotal(cart)), msg) && IsInfix(SlotLine(slot), msg)
  {
    var msg := MessageText(StoreName(s), orderId, user, ItemsText(DayOrder(cart), cart, b), CartTotal(cart), slot);
    MessageNamesOrder(StoreName(s), orderId, user, ItemsText(DayOrder(cart), cart, b), CartTotal(cart), slot);
    MessageNamesTotalAndSlot(StoreName(s), orderId, user, ItemsText(DayOrder(cart), cart, b), CartTotal(cart), slot);
  }

  // ---------------------------------------------------------------- the order sheet

  /** The form fields posted to the orders webhook. */
  datatype SheetPayload = SheetPayload(
    name: string,
    phone: string,
    address: string,
    orderItems: string,
    amount: int,
    slot: string,
    date: string,
    orderPlacedAt: string,
    orderId: int)

  /** `${i.qty || 1}x ${i.name} (${date})` */
  function LineSummary(it: CartLine, b: Browser): string {
    IntToString(QtyOr1(it.qty)) + "x " + Shown(it.name) + " (" + b.dateLabel(it.deliveryDate) + ")"
  }

  function LineSummaries(cart: seq<CartLine>, b: Browser): seq<string> {
    seq(|cart|, i requires 0 <= i < |cart| => LineSummary(cart[i], b))
  }

  /** `user?.field || ""` */
  function UserField(user: Option<User>, field: User -> Option<string>): string {
    match user
    case None => ""
    case Some(u) => OrElse(field(u), "")
  }

  /**
   * The payload: the customer's fields or "", the line summaries joined by " | ", the cart
   * total, the slot, the locale's date and time texts of the moment, and the order id `now`.
   */
  function Payload(user: Option<User>, cart: seq<CartLine>, slot: string, now: int, date: string, placedAt: string, b: Browser): SheetPayload {
    SheetPayload(
      UserField(user, (u: User) => u.name),
      UserField(user, (u: User) => u.phone),
      UserField(user, (u: User) => u.address),
      Join(LineSummaries(cart, b), " | "),
      CartTotal(cart),
      slot,
      date,
      placedAt,
      now)
  }

  /** The amount is the cart total and every line's summary is among the order items. */
  lemma PayloadListsEveryLine(user: Option<User>, cart: seq<CartLine>, slot: string, now: int, date: string, placedAt: string, b: Browser, k: nat)
    requires k < |cart|
    ensures Payload(user, cart, slot, now, date, placedAt, b).amount == CartTotal(cart)
    ensures IsInfix(LineSummary(cart[k], b), Payload(user, cart, slot, now, date, placedAt, b).orderItems)
  {
    InfixOfJoin(LineSummaries(cart, b), " | ", k);
  }

  /** The webhook's reply: a failure (network error, no JSON) or the `success` and `orderId` read from it. */
  datatype SheetReply = Failed | Replied(success: bool, orderId: Option<string>)

  /** The outcome of `sendOrderToSheet`: the payload posted, if any, and the returned order id. */
  datatype SheetCall = SheetCall(posted: Option<SheetPayload>, result: Option<string>)

  /** `sendOrderToSheet(orderId)` */
  function SendOrderToSheet(webhook: Option<string>, payload: SheetPayload, reply: SheetReply): SheetCall {
    if OrElse(webhook, "") == "" then SheetCall(None, None)
    else
      match reply
      case Failed => SheetCall(Some(payload), None)
      case Replied(ok, id) => SheetCall(Some(payload), if ok && OrElse(id, "") != "" then id else None)
  }

  /**
   * Without a webhook nothing is posted and the result is null; with one the payload is
   * posted, and the result is the server's order id exactly when the reply has both `success`
   * and a non-empty `orderId`.
   */
  lemma SheetCallOutcome(webhook: Option<string>, payload: SheetPayload, reply: SheetReply)
    ensures SendOrderToSheet(webhook, payload, reply).posted.Some? <==> webhook.Some? && webhook.value != ""
    ensures SendOrderToSheet(webhook, payload, reply).posted.Some? ==> SendOrderToSheet(webhook, payload, reply).posted == Some(payload)
    ensures SendOrderToSheet(webhook, payload, reply).result.Some? <==>
      webhook.Some? && webhook.value != "" && reply.Replied? && reply.success && reply.orderId.Some? && reply.orderId.value != ""
    ensures SendOrderToSheet(webhook, payload, reply).result.Some? ==> SendOrderToSheet(webhook, payload, reply).result == reply.orderId
  {
  }

  // ---------------------------------------------------------------- the workflow

  /** The page's state: the three flags, the user, the slot and what the page has done so far. */
  class CheckoutPage {
    var verified: bool
    var isPaying: bool
    var isSending: bool
    var user: Option<User>
    var slot: string
    const cart: Cart
    /** Payment timers started and not yet fired. */
    var pendingTimers: nat
    /** The pages opened in new windows (the UPI links). */
    var windows: seq<string>
    /** The payloads posted to the orders webhook. */
    var posted: seq<SheetPayload>
    /** Where the page navigated to, if anywhere. */
    var location: Option<string>

    /** Sending only ever starts after payment was confirmed. */
    predicate SendAfterVerify()
      reads this
    {
      isSending ==> verified
    }

    /** The page as mounted: no flags set, the default slot, the user from local storage. */
    constructor (cart: Cart, storage: map<string, string>, parse: string -> Option<User>)
      ensures !verified && !isPaying && !isSending && pendingTimers == 0
      ensures this.cart == cart && slot == DEFAULT_SLOT && user == LoadUser(storage, parse)
      ensures windows == [] && posted == [] && location == None
      ensures SendAfterVerify()
    {
      this.cart := cart;
      verified := false;
      isPaying := false;
      isSending := false;
      slot := DEFAULT_SLOT;
      user := LoadUser(storage, parse);
      pendingTimers := 0;
      windows := [];
      posted := [];
      location := None;
    }

    /**
     * `handleConfirmPayment`: without a user only an alert; while paying nothing; otherwise
     * the UPI link for the current total opens and a payment timer starts.
     */
    method ConfirmPayment(s: Settings, b: Browser) returns (alert: Option<string>)
      modifies this
      ensures user.None? ==> alert == Some("Please sign up before confirming your payment.")
      ensures user.None? || old(isPaying) ==> unchanged(this)
      ensures user.Some? && old(isPaying) ==> alert == None
      ensures user.Some? && !old(isPaying) ==>
        && alert == None && isPaying && verified == old(verified) && isSending == old(isSending)
        && windows == old(windows) + [UpiLink(StoreName(s), CartTotal(cart.lines), b.encode)]
        && pendingTimers == old(pendingTimers) + 1
        && user == old(user) && slot == old(slot) && posted == old(posted) && location == old(location)
      ensures old(verified) ==> verified
      ensures old(SendAfterVerify()) ==> SendAfterVerify()
    {
      if user.None? {
        return Some("Please sign up before confirming your payment.");
      }
      if isPaying {
        return None;
      }
      isPaying := true;
      windows := windows + [UpiLink(StoreName(s), CartTotal(cart.lines), b.encode)];
      pendingTimers := pendingTimers + 1;
      alert := None;
    }

    /** A payment timer fires: payment counts as verified and paying ends. */
    method PaymentTimerFires()
      modifies this
      ensures old(pendingTimers) == 0 ==> unchanged(this)
      ensures old(pendingTimers) > 0 ==>
        && verified && !isPaying && pendingTimers == old(pendingTimers) - 1
        && isSending == old(isSending) && user == old(user) && slot == old(slot)
        && windows == old(windows) && posted == old(posted) && location == old(location)
      ensures old(verified) ==> verified
      ensures old(SendAfterVerify()) ==> SendAfterVerify()
    {
      if pendingTimers > 0 {
        pendingTimers := pendingTimers - 1;
        verified := true;
        isPaying := false;
      }
    }

    /**
     * `handleSend`: before verification only an alert; while sending nothing; otherwise the
     * order goes to the sheet (order id `now`), the page navigates to the WhatsApp link and the
     * cart is cleared, whatever the sheet returned.  With no WhatsApp number the link throws
     * and the handler stops there, leaving the cart as it was.
     */
    method Send(now: int, date: string, placedAt: string, s: Settings, b: Browser, reply: SheetReply) returns (alert: Option<string>)
      modifies this, cart
      ensures !old(verified) ==> alert == Some("Confirm payment first.") && unchanged(this) && unchanged(cart)
      ensures old(verified) && old(isSending) ==> alert == None && unchanged(this) && unchanged(cart)
      ensures old(verified) && !old(isSending) ==> alert == None && SentState(now, date, placedAt, s, b, reply)
      ensures old(verified) ==> verified
      ensures old(SendAfterVerify()) ==> SendAfterVerify()
    {
      if !verified {
        alert := Some("Confirm payment first.");
      } else if isSending {
        alert := None;
      } else {
        SendOrder(now, date, placedAt, s, b, reply);
        alert := None;
      }
    }

    /**
     * The state after a send: sending is on; the payload was posted when there is a webhook;
     * with a WhatsApp number the page is at the link (order id from the sheet) and the cart is
     * empty, and without one the cart and the location are as they were.
     */
    twostate predicate SentState(now: int, date: string, placedAt: string, s: Settings, b: Browser, reply: SheetReply)
      reads this, cart
    {
      var payload := Payload(old(user), old(cart.lines), old(slot), now, date, placedAt, b);
      var call := SendOrderToSheet(s.ordersWebhook, payload, reply);
      && isSending && verified == old(verified)
      && posted == old(posted) + (if call.posted.Some? then [payload] else [])
      && (s.whatsappNumber.Some? ==>
            cart.lines == [] && location == WhatsappUrl(old(cart.lines), call.result, old(user), old(slot), s, b))
      && (s.whatsappNumber.None? ==> cart.lines == old(cart.lines) && location == old(location))
      && isPaying == old(isPaying) && user == old(user) && slot == old(slot) && windows == old(windows)
      && pendingTimers == old(pendingTimers)
    }

    /** The part of `handleSend` after its two guards. */
    method SendOrder(now: int, date: string, placedAt: string, s: Settings, b: Browser, reply: SheetReply)
      requires verified && !isSending
      modifies this, cart
      ensures SentState(now, date, placedAt, s, b, reply)
    {
      ghost var lines0, posted0 := cart.lines, posted;
      isSending := true;
      var payload := Payload(user, cart.lines, slot, now, date, placedAt, b);
      var call := SendOrderToSheet(s.ordersWebhook, payload, reply);
      if call.posted.Some? {
        posted := posted + [payload];
      }
      assert posted == posted0 + (if call.posted.Some? then [payload] else []);
      assert cart.lines == lines0;
      var link := WhatsappLink(cart.lines, call.result, user, slot, s, b);
      assert link == WhatsappUrl(lines0, call.result, user, slot, s, b);
      assert link.Some? <==> s.whatsappNumber.Some? by {
        WhatsappUrlPresent(lines0, call.result, user, slot, s, b);
      }
      if link.Some? {
        location := link;
        cart.ClearCart();
      }
    }
  }
}
