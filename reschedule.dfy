/**
 * The reschedule form's `submit`: four checks in a fixed order (order id, date and slot,
 * 24 hours of lead time, a configured webhook), then a POST of the request and a message
 * from the reply.  The first failing check sets its message and sends nothing.
 */
module Reschedule {
  import opened Wrappers
  import Dates

  /** The JSON posted to the update webhook. */
  datatype Payload = Payload(action: string, orderId: string, newDate: string, newSlot: string)

  /** The reply: the request or the JSON parse failed, or the JSON's `success` flag. */
  datatype UpdateReply = RequestFailed | Answered(success: bool)

  /** The messages `submit` can set. */
  datatype Message = EnterOrderId | PickDateAndSlot | TooLate | NoWebhook | Requested | NotRescheduled | NetworkError

  /** The text shown for each message. */
  function MessageText(m: Message): string {
    match m
    case EnterOrderId => "Enter order id"
    case PickDateAndSlot => "Pick date and slot"
    case TooLate => "Reschedule must be done 24+ hours before delivery"
    case NoWebhook => "No update webhook configured"
    case Requested => "Reschedule requested"
    case NotRescheduled => "Failed to reschedule"
    case NetworkError => "Network error"
  }

  /** The message shown, and the request posted if any (with the webhook's URL). */
  datatype Submitted = Submitted(msg: Message, posted: Option<(string, Payload)>)

  /**
   * `submit()`.  `parseDate` reads the date input's text as a day; `now` is the current
   * instant in milliseconds.
   */
  function Submit(orderId: string, newDate: string, newSlot: string, parseDate: string -> Dates.DateInput,
                  now: int, url: Option<string>, reply: UpdateReply): (r: Submitted)
    ensures r.posted.Some? <==>
      && orderId != "" && newDate != "" && newSlot != ""
      && Dates.IsAtLeast24HoursFromNow(parseDate(newDate), newSlot, now)
      && url.Some? && url.value != ""
    ensures r.posted.Some? ==> r.posted.value == (url.value, Payload("reschedule", orderId, newDate, newSlot))
  {
    if orderId == "" then Submitted(EnterOrderId, None)
    else if newDate == "" || newSlot == "" then Submitted(PickDateAndSlot, None)
    else if !Dates.IsAtLeast24HoursFromNow(parseDate(newDate), newSlot, now) then Submitted(TooLate, None)
    else if url.None? || url.value == "" then Submitted(NoWebhook, None)
    else
      var posted := Some((url.value, Payload("reschedule", orderId, newDate, newSlot)));
      match reply
      case RequestFailed => Submitted(NetworkError, posted)
      case Answered(ok) => Submitted(if ok then Requested else NotRescheduled, posted)
  }

  /**
   * The checks run in order: each message names the first check that fails, whatever the
   * later inputs are.
   */
  lemma ChecksInOrder(orderId: string, newDate: string, newSlot: string, parseDate: string -> Dates.DateInput,
                      now: int, url: Option<string>, reply: UpdateReply)
    ensures var r := Submit(orderId, newDate, newSlot, parseDate, now, url, reply);
      && (r.msg == EnterOrderId <==> orderId == "")
      && (r.msg == PickDateAndSlot <==> orderId != "" && (newDate == "" || newSlot == ""))
      && (r.msg == TooLate <==>
            orderId != "" && newDate != "" && newSlot != "" && !Dates.IsAtLeast24HoursFromNow(parseDate(newDate), newSlot, now))
      && (r.msg == NoWebhook <==>
            orderId != "" && newDate != "" && newSlot != "" && Dates.IsAtLeast24HoursFromNow(parseDate(newDate), newSlot, now)
            && (url.None? || url.value == ""))
  {
    var r := Submit(orderId, newDate, newSlot, parseDate, now, url, reply);
    if orderId == "" {
    } else if newDate == "" || newSlot == "" {
    } else if !Dates.IsAtLeast24HoursFromNow(parseDate(newDate), newSlot, now) {
    } else if url.None? || url.value == "" {
      assert r.msg == NoWebhook;
    } else {
      assert r.msg in {Requested, NotRescheduled, NetworkError};
    }
  }

  /**
   * Once a request is posted the message comes only from the reply: "Reschedule requested"
   * exactly when it reports success, "Network error" when it failed, and "Failed to
   * reschedule" otherwise.
   */
  lemma ReplyDecidesMessage(orderId: string, newDate: string, newSlot: string, parseDate: string -> Dates.DateInput,
                            now: int, url: Option<string>, reply: UpdateReply)
    requires Submit(orderId, newDate, newSlot, parseDate, now, url, reply).posted.Some?
    ensures var r := Submit(orderId, newDate, newSlot, parseDate, now, url, reply);
      && (r.msg == Requested <==> reply == Answered(true))
      && (r.msg == NetworkError <==> reply.RequestFailed?)
      && (r.msg == NotRescheduled <==> reply == Answered(false))
  {
    var r := Submit(orderId, newDate, newSlot, parseDate, now, url, reply);
    assert orderId != "" && newDate != "" && newSlot != "";
    assert Dates.IsAtLeast24HoursFromNow(parseDate(newDate), newSlot, now);
    assert url.Some? && url.value != "";
    match reply {
      case RequestFailed =>
        assert r.msg == NetworkError;
      case Answered(ok) =>
        assert r.msg == (if ok then Requested else NotRescheduled);
    }
  }

  /** A date less than a day ahead of the slot is refused, and nothing is posted. */
  lemma LateRequestRefused(orderId: string, day: int, newDate: string, newSlot: string, parseDate: string -> Dates.DateInput,
                           now: int, url: Option<string>, reply: UpdateReply)
    requires orderId != "" && newDate != "" && newSlot != "" && parseDate(newDate) == Dates.Date(day)
    requires Dates.SlotInstant(day, newSlot) - now < Dates.DAY_MS
    ensures Submit(orderId, newDate, newSlot, parseDate, now, url, reply) == Submitted(TooLate, None)
  {
  }
}
