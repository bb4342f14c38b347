# Thaayar Kitchen storefront, modelled in Dafny

This project models the logic of the Thaayar Kitchen storefront: a React single-page shop
where customers order home-cooked meals for the coming weekdays. It also models the two
serverless handlers that record paid orders in a Google Sheet. The model covers:

- **The CSV reader** (`CsvParser`). The menu and orders sheets are read as published CSV.
  `splitCSVRow` is a quote-aware field splitter and `parseCSV` turns lines into objects keyed
  by the header row.
- **The cart store** (`CartStore`). This is a class whose `lines` field each action replaces.
  Pure updater functions specify the actions, and lemmas prove what they keep: one line per
  id, and every quantity at least 1.
- **Date helpers** (`Dates`): weekday names, the next date with a given weekday, the
  upcoming days, 12-hour to 24-hour time conversion, and the 24-hour lead-time rule.
- **The orders page** (`OrdersPage`): the visible weekdays, menu-row normalisation, matching
  items to days, the 14-hour cut-off before delivery, and the add button.
- **The checkout page** (`Checkout`):
  - the profile lookup;
  - grouping the cart by day;
  - the UPI payment link and the WhatsApp order message;
  - the form posted to the orders webhook;
  - the confirm/send state machine, as a class.
- **The payment-verification handler** (`VerifyPayment`) and **the save-order handler**
  (`SaveOrder`). Both are functions from a request, plus what the environment supplies, to a
  reply and the sheet row they append.
- **The landing page's active-meal detection** (`LandingPage`), **the menu feed**
  (`MenuFeed`), **the admin dashboard's order sums** (`AdminDashboard`) and **the reschedule
  form** (`Reschedule`).

`JsText` and `JsValues` model the JavaScript built-ins that these files rely on: `trim`,
`split`, `join`, `toLowerCase`, `Number()`, `String()` of an integer, truthiness, `||`,
property reads and template-literal text.

Conventions used throughout:

- A calendar day is an integer. Day 0 is 1970-01-01, a Thursday.
- An instant is an integer number of milliseconds. Local midnight of day `d` is
  `d * 86400000`.
- A parsed CSV row or a JS object of strings is a `map<string, string>`. A missing key is
  `undefined`.
- Everything the code receives from outside becomes a parameter:
  - clocks;
  - `fetch` replies and sheet-append outcomes;
  - `JSON.parse` and `JSON.stringify`;
  - `encodeURIComponent`;
  - the HMAC digest;
  - locale date labels;
  - random ids.

The order cut-off is computed as `hoursLeftToClose <= 0` (src/pages/OrdersPage.jsx:210), so
at exactly 14 hours before delivery the card is already closed; see `OrdersPage.CutoffBoundary`.

A menu column the sheet does not have stays `undefined` on the item (the `name`, `description`
and `imageUrl` fields are `Option<string>`), and an undefined name prints as "undefined" in
the WhatsApp text and in the sheet summary, as a template literal prints it.

## Model

| member | source | states |
|---|---|---|
| CsvParser.SplitCSVRow | src/utils/csvParser.js:27-51 | The loop over the row computes exactly the fields of the quote-aware scan `Fields(row)` |
| CsvParser.Scan | src/utils/csvParser.js:32-49 | The scan always pushes the final field, so it returns more fields than it started with |
| CsvParser.EmptyRowOneField | src/utils/csvParser.js:49 | An empty row splits into a single empty field |
| CsvParser.QuoteFreeFields | src/utils/csvParser.js:42-44 | Without quotes, the fields are the plain comma split, and there is one more field than there are commas |
| CsvParser.FieldCountBound | src/utils/csvParser.js:27-51 | A row has exactly one more field than it has commas outside quotes (counted with the splitter's own quote and `""` stepping), hence at least one field and at most commas + 1 |
| CsvParser.FieldsKeepOrdinary | src/utils/csvParser.js:45-47 | Every character other than a quote or comma is copied into the fields, in order, and nothing else of that kind is added |
| CsvParser.FieldsQuoteBudget | src/utils/csvParser.js:34-41 | The quotes in the fields are exactly the escaped `""` pairs met inside quotes, every other quote only toggling quote mode; so the fields hold at most half the row's quotes |
| CsvParser.SplitEncodedRow | src/utils/csvParser.js:2 | Round trip: fields wrapped in quotes, with inner quotes doubled and joined by commas, split back into the same fields |
| CsvParser.RowObjectKeys | src/utils/csvParser.js:17-20 | A row object has exactly the header names as keys |
| CsvParser.RowObjectValue | src/utils/csvParser.js:18-19 | Under the last occurrence of a header, the object holds that column's cell, or "" when the line is short |
| CsvParser.FillRow | src/utils/csvParser.js:17-21 | The `for` loop over the headers builds exactly the row object of the headers and cells |
| CsvParser.TrimAll | src/utils/csvParser.js:13 | One result per piece, none longer than its piece, and none starting or ending with white space |
| CsvParser.TrimAllIdempotent | src/utils/csvParser.js:13 | Trimming the trimmed pieces again changes nothing |
| CsvParser.NonEmpty | src/utils/csvParser.js:8 | `filter(Boolean)` keeps a piece exactly when it is non-empty |
| CsvParser.NonEmptyAppend | src/utils/csvParser.js:8 | The filter works piece by piece over concatenation, so the kept pieces keep their order |
| CsvParser.NonEmptyKeepsFull | src/utils/csvParser.js:8 | Pieces that are all non-empty come back unchanged |
| CsvParser.NonEmptyLines | src/utils/csvParser.js:7-8 | The lines kept are non-empty and contain no newline |
| CsvParser.LinesHaveNoCR | src/utils/csvParser.js:7 | No kept line contains a carriage return |
| CsvParser.MapLines | src/utils/csvParser.js:15-22 | Each data line becomes one row object, in order |
| CsvParser.LineToObject | src/utils/csvParser.js:16-21 | One line becomes the object of the trimmed headers and the trimmed cells |
| CsvParser.ParseCSV | src/utils/csvParser.js:4-25 | With no non-empty line the result is empty; otherwise there is one row per non-empty line after the header, each keyed by the trimmed headers |
| CartStore.EmptyCartInvariant | src/context/CartContext.jsx:7 | The empty cart has unique ids, a total of 0 and no items |
| CartStore.TotalNonNegative | src/context/CartContext.jsx:30 | The total is never negative when no price or quantity is |
| CartStore.TotalItemsAtLeastLines | src/context/CartContext.jsx:31 | With every quantity at least 1, the item count is at least the number of lines |
| CartStore.SumsOneMore | src/context/CartContext.jsx:14-31 | One more unit on a line adds one item and that line's price to the total |
| CartStore.AddPresentId | src/context/CartContext.jsx:14-15 | Adding a present id adds one to that line's quantity and nothing else; the length is kept |
| CartStore.AddNewId | src/context/CartContext.jsx:16 | Adding a new id appends the item with quantity 1 at the end |
| CartStore.AddedKeepsInvariant | src/context/CartContext.jsx:12-18 | Adding keeps ids unique and every quantity at least 1 |
| CartStore.AddedSumsPresent | src/context/CartContext.jsx:12-31 | Adding a present id adds one item, and adds that line's price to the total |
| CartStore.AddedSumsNew | src/context/CartContext.jsx:16-31 | Adding a new id adds one item, and adds its price to the total |
| CartStore.AddThenRemove | src/context/CartContext.jsx:16-26 | Removing an id just added for the first time gives back the cart and its total |
| CartStore.QtyUpdatedEffect | src/context/CartContext.jsx:20-22 | That id's line gets quantity max(1, q) and every other line is unchanged; with the id absent the cart is unchanged; the invariant and the item count follow |
| CartStore.QtyFloor | src/context/CartContext.jsx:21 | A quantity at or below 0 is stored as 1 |
| CartStore.RemovedLines | src/context/CartContext.jsx:24-26 | Exactly the lines with other ids are kept |
| CartStore.RemovedInOrder | src/context/CartContext.jsx:25 | The kept lines stay in cart order, as a subsequence |
| CartStore.RemovedKeepsInvariant | src/context/CartContext.jsx:24-26 | Removing keeps the invariant, and the id is gone afterwards |
| CartStore.RemovedTotal | src/context/CartContext.jsx:24-31 | Removing a present id takes exactly that line's amount and quantity off the sums |
| CartStore.Cart.constructor | src/context/CartContext.jsx:6-8 | The cart starts as the stored cart, or empty when nothing parses; the empty start satisfies the invariant |
| CartStore.Cart.AddToCart | src/context/CartContext.jsx:12-18 | The lines become the `addToCart` update of the old lines; the invariant is kept |
| CartStore.Cart.UpdateQty | src/context/CartContext.jsx:20-22 | The lines become the `updateQty` update; the invariant is kept |
| CartStore.Cart.RemoveFromCart | src/context/CartContext.jsx:24-26 | The lines become the `removeFromCart` update; the invariant is kept |
| CartStore.Cart.ClearCart | src/context/CartContext.jsx:28-31 | The cart becomes empty, with a total of 0 and no items |
| Dates.WeekdayIndex | src/utils/date.js:5-7 | The weekday index lies in 0..6 |
| Dates.WeekdayName | src/utils/date.js:5-7 | The name of a day is one of the seven weekday names |
| Dates.WeekdayNamePosition | src/utils/date.js:5-7 | The name sits at the position `getDay()` gives, so `indexOf` finds the day's index again |
| Dates.WeekdayNameWeekly | src/utils/date.js:5-7 | Days whole weeks apart have the same name |
| Dates.ShiftWeekday | src/utils/date.js:5-7 | Moving j days forward moves the weekday index by j modulo 7 |
| Dates.IndexOf | src/utils/date.js:12 | `indexOf` gives -1 exactly when the name is absent, and otherwise the first position holding it |
| Dates.NextDateForWeekday | src/utils/date.js:10-21 | None exactly when the lower-cased first three letters are not a weekday; otherwise 1 to 7 days after the start, on that weekday, and the first such day |
| Dates.StepReachesWeekday | src/utils/date.js:17-19 | The step `(target - cur + 7) % 7`, with 0 replaced by 7, reaches the target weekday and skips no earlier one |
| Dates.UpcomingDates | src/utils/date.js:24-37 | Exactly n entries; entry i is the day today + i + 1 with that day's weekday name |
| Dates.TwelveHourRange | src/utils/date.js:67-68 | The am/pm hour rules give an hour in 0..23: morning hours below 12, afternoon hours 12 or more |
| Dates.MakeDateTimeFromISO | src/utils/date.js:40-45 | A time whose hour is not a number leaves midnight; a numeric hour with no minute, or one that is not a number, sets minute 0 |
| Dates.RawClock | src/utils/date.js:64-66 | Once a, p, m, dots and spaces are removed, each part that is not a number, and a missing minute, reads as 0; a numeric part reads as its value |
| Dates.NormalizeTimeStringTo24 | src/utils/date.js:61-72 | The text is the two padded numbers of the 24-hour clock time around one ":" |
| Dates.NormalizedReadsBack | src/utils/date.js:40-72 | The normalised text reads back, through `makeDateTimeFromISO`, as the hour and minute it encodes |
| Dates.IsAtLeast24HoursFromNow | src/utils/date.js:48-58 | True exactly when a date is given and the slot's start instant is at least 24 hours after now |
| Dates.SlotInstantIsClock | src/utils/date.js:52-55 | The slot instant is the day's midnight plus the normalised hour and minute of the slot's start |
| Dates.OnlySlotStartMatters | src/utils/date.js:52 | Only the text before the first "-" of the slot counts |
| Dates.LeadTimeMonotone | src/utils/date.js:56-57 | A slot far enough ahead now is also far enough ahead at any earlier instant |
| OrdersPage.FormatCountdown | src/pages/OrdersPage.jsx:8-14 | None exactly when no time is left; otherwise whole hours and 0..59 minutes adding up to the whole minutes left |
| OrdersPage.Days | src/pages/OrdersPage.jsx:19-31 | n consecutive days from the start |
| OrdersPage.GenerateSequentialDates | src/pages/OrdersPage.jsx:19-31 | The loop yields the n consecutive days from the start, in increasing order |
| OrdersPage.WeekHasFive | src/pages/OrdersPage.jsx:52-55 | Any seven consecutive days hold exactly five weekdays (Monday to Friday) |
| OrdersPage.WindowHasTenWeekdays | src/pages/OrdersPage.jsx:42-55 | Today and the next 14 days always hold at least ten weekdays |
| OrdersPage.WindowWeekdaysOrdered | src/pages/OrdersPage.jsx:49-55 | The filtered window holds exactly the weekdays from today to today + 14, in calendar order |
| OrdersPage.Absent | src/pages/OrdersPage.jsx:70 | The extension keeps exactly the days not already taken |
| OrdersPage.TakeUnique | src/pages/OrdersPage.jsx:58-64 | The loop takes the first n weekdays, or all of them when there are fewer; the result is an increasing prefix |
| OrdersPage.AppendFresh | src/pages/OrdersPage.jsx:70-72 | Appending days none of which is taken keeps the list free of repeats |
| OrdersPage.NextMonday | src/pages/OrdersPage.jsx:68 | `nextDateForWeekday("mon", now)` always finds a day: the Monday one to seven days after today |
| OrdersPage.SliceTo | src/pages/OrdersPage.jsx:71 | `slice(0, k)` gives a prefix of k elements, or the whole list when it is shorter |
| OrdersPage.ExtraDaysFromMonday | src/pages/OrdersPage.jsx:69-71 | The appended days are untaken days in the n days from next Monday, weekends included, in calendar order |
| OrdersPage.ExtraDaysFill | src/pages/OrdersPage.jsx:66-72 | The appended days are exactly as many as are missing, and none repeats a chosen day |
| OrdersPage.ExtendFromMonday | src/pages/OrdersPage.jsx:66-73 | The result is the chosen days followed by the first n - |unique| untaken days of `generateSequentialDates(next Monday, n)`; n days, none repeated |
| OrdersPage.AbsentLength | src/pages/OrdersPage.jsx:69-70 | Dropping the taken days from distinct dates loses no more dates than are taken |
| OrdersPage.ComputeVisibleWeekdays | src/pages/OrdersPage.jsx:38-76 | Exactly n distinct days: the first n weekdays of the window, or, when it has fewer, all of them followed by the untaken days from next Monday |
| OrdersPage.FirstWeekdaysShown | src/pages/OrdersPage.jsx:38-76 | For n up to 10 (the page asks for 5), the days shown are weekdays within the next two weeks, in calendar order |
| OrdersPage.DayFieldIsClean | src/pages/OrdersPage.jsx:102-112 | A normalised day field has no blanks and no capitals, so normalising it again changes nothing |
| OrdersPage.ActiveFieldCases | src/pages/OrdersPage.jsx:101 | An item is active exactly when its isActive column is missing, empty, or "true" spelt in any mix of upper and lower case |
| OrdersPage.NormalizeRowDefaults | src/pages/OrdersPage.jsx:95-114 | The id is the row's or, when missing or empty, the drawn one; name, description and image stay as read, undefined included; the price is 0 when missing or empty; category and stock are lower case, the stock "in" when missing or empty |
| OrdersPage.PriceDefault | src/pages/OrdersPage.jsx:99 | `Number(r.price \|\| 0)`: a missing or empty price is 0, any other text is read as a number |
| OrdersPage.LoadMenu | src/pages/OrdersPage.jsx:90-121 | A failed fetch gives no items; otherwise the normalised rows of the sheet for the meal, all active and in that category |
| OrdersPage.ServedOnList | src/pages/OrdersPage.jsx:149-164 | A day list of comma-joined names is served on exactly the lower-cased first three letters of those names |
| OrdersPage.TokensOfList | src/pages/OrdersPage.jsx:151-152 | Splitting a comma-joined list of separator-free names gives back those names |
| OrdersPage.DayWithItems | src/pages/OrdersPage.jsx:141-166 | A day's items are exactly the menu items served on its weekday |
| OrdersPage.DaysWithItemsExactly | src/pages/OrdersPage.jsx:140-168 | Every listed day is a shown day with items; every shown day with some item served on it is listed |
| OrdersPage.ClosedExactly | src/pages/OrdersPage.jsx:199-230 | Lunch (11:00) and snacks (16:00) close when 14 hours or less remain before delivery, other categories never close; blocked means closed or out of stock |
| OrdersPage.CutoffBoundary | src/pages/OrdersPage.jsx:207-210 | At exactly 14 hours before delivery the card is closed; one millisecond earlier it is open |
| OrdersPage.ClosedStaysClosed | src/pages/OrdersPage.jsx:199-227 | Once closed, a card stays closed at every later instant |
| OrdersPage.CountdownUntilClose | src/pages/OrdersPage.jsx:211-213 | An open card with a cut-off shows a countdown, in whole minutes, of the time left until it closes |
| OrdersPage.AddClick | src/pages/OrdersPage.jsx:305-319 | A blocked item leaves the cart unchanged; otherwise the item line for that day goes through `addToCart` and the cart invariant is kept |
| OrdersPage.AddedLineDeliverable | src/pages/OrdersPage.jsx:313-314 | An added line carries that day as its delivery date and is marked deliverable |
| OrdersPage.SecondDayMergesIntoFirst | src/pages/OrdersPage.jsx:305-319 | Adding an id already in the cart for another day only adds one to the existing line, which keeps its first delivery date |
| Checkout.FirstStoredFinds | src/pages/CheckoutPage.jsx:25-29 | The lookup finds nothing exactly when no key holds a value; otherwise it finds the value under the first key that does |
| Checkout.ProfileLookupOrder | src/pages/CheckoutPage.jsx:24-34 | The profile comes from "Thaayar Kitchen_user", then "user", then "Thaayar_Kitchen_user"; with none of them set there is no user |
| Checkout.Bucket | src/pages/CheckoutPage.jsx:43-46 | A day's bucket holds exactly the cart lines with that day label |
| Checkout.EmptyBucket | src/pages/CheckoutPage.jsx:43-46 | A day no line carries has an empty bucket |
| Checkout.DayOrder | src/pages/CheckoutPage.jsx:43-62 | Every day in the key order has a non-empty bucket |
| Checkout.DayOrderMembers | src/pages/CheckoutPage.jsx:43-62 | The days listed are exactly the days with lines |
| Checkout.DayOrderNoRepeats | src/pages/CheckoutPage.jsx:44 | No day is listed twice |
| Checkout.Group | src/pages/CheckoutPage.jsx:41-48 | The `forEach` loop builds a map whose keys are the listed days, each holding that day's bucket in cart order |
| Checkout.GroupStep | src/pages/CheckoutPage.jsx:44-45 | One step of the loop appends the line to its day's bucket, and a new day joins the key order |
| Checkout.GroupIsPartition | src/pages/CheckoutPage.jsx:41-48 | Every line lies in its day's bucket, and the bucket sizes add up to the number of lines |
| Checkout.UpiLinkParams | src/pages/CheckoutPage.jsx:50-56 | The link is the pay endpoint followed by exactly the parameters pa, pn, am (the cart total), cu=INR and tn, separated by "&" |
| Checkout.AppendLines | src/pages/CheckoutPage.jsx:65-67 | The inner loop appends one `- Nx name` line per line of the bucket |
| Checkout.BuildItemsText | src/pages/CheckoutPage.jsx:59-69 | The loops build the order details: per day in key order, a header, its lines and a blank line |
| Checkout.EveryLineListed | src/pages/CheckoutPage.jsx:62-69 | Every cart line appears in the order details |
| Checkout.MessageNamesOrder | src/pages/CheckoutPage.jsx:78 | The message contains the order id line ("null" when the sheet gave no id) |
| Checkout.MessageNamesTotalAndSlot | src/pages/CheckoutPage.jsx:80-83 | The message contains the order details, the total line and the slot line |
| Checkout.CustomerBlockOnlyWithUser | src/pages/CheckoutPage.jsx:71-73 | The customer block appears when there is a user; without one the message has no customer block |
| Checkout.WithoutPlus | src/pages/CheckoutPage.jsx:87 | The recipient number has no "+", and a number without "+" is kept as it is |
| Checkout.WithoutPlusAppend | src/pages/CheckoutPage.jsx:87 | Removing "+" works piece by piece, so the other characters keep their order; "+" followed by digits loses only the "+" |
| Checkout.WhatsappLink | src/pages/CheckoutPage.jsx:58-88 | The method with its loops computes the WhatsApp URL of the cart, order id, user and slot |
| Checkout.WhatsappUrlShape | src/pages/CheckoutPage.jsx:75-87 | There is a link exactly when a number is configured; it is wa.me/, the number without '+', then ?text= and the encoded message, which names the order, total and slot |
| Checkout.PayloadListsEveryLine | src/pages/CheckoutPage.jsx:100-117 | The posted amount is the cart total, and every line's summary is among the order items |
| Checkout.SheetCallOutcome | src/pages/CheckoutPage.jsx:90-133 | Something is posted exactly when a webhook is set, and the payload is what is posted; an order id comes back exactly when the reply has success and an id |
| Checkout.CheckoutPage.constructor | src/pages/CheckoutPage.jsx:9-35 | The page starts unverified, not paying and not sending, with the default slot and the stored user |
| Checkout.CheckoutPage.ConfirmPayment | src/pages/CheckoutPage.jsx:135-146 | With no user it alerts and changes nothing; while paying it does nothing; otherwise it sets paying, opens the UPI link and starts one timer; verified is never reset |
| Checkout.CheckoutPage.PaymentTimerFires | src/pages/CheckoutPage.jsx:142-145 | A pending timer sets verified and clears paying; with none pending nothing changes |
| Checkout.CheckoutPage.Send | src/pages/CheckoutPage.jsx:148-159 | Unverified: it alerts and changes nothing. While sending: nothing changes. Otherwise the page reaches the sent state; verified is never reset |
| Checkout.CheckoutPage.SendOrder | src/pages/CheckoutPage.jsx:152-157 | Sets sending, posts the payload when a webhook is set, navigates to the WhatsApp link of the old cart, and clears the cart; a missing number stops it before the cart is cleared |
| VerifyPayment.OrderRow | api/verify-payment.js:50-60 | Nine cells: the order data's orderId, the timestamp, the name and phone or "", the items as JSON (or "[]"), the total or 0, the gateway order and payment ids, and "PAID"; with order data that is no object the data cells are undefined, "", "[]" and 0; reading the order data fails exactly when it is undefined or null |
| VerifyPayment.Handle | api/verify-payment.js:30-67 | A non-POST request gets 405 and nothing is appended; 200 is answered exactly when a row was appended |
| VerifyPayment.MissingParamsRejected | api/verify-payment.js:35-37 | A missing id or signature gives 400 "missing_params" and no row |
| VerifyPayment.VerifiedExactlyOnMatch | api/verify-payment.js:39-46 | A mismatched signature gives 400 with verified false and no row; a match never answers verified false |
| VerifyPayment.SavedExactlyWhenAppended | api/verify-payment.js:48-66 | With a matching signature: when the append succeeds, 200 with the row appended; when it fails, 500 with verified true and saved false |
| SaveOrder.ItemText | api/save-order.js:26 | An item's text ends with ")" |
| SaveOrder.ItemTexts | api/save-order.js:25-26 | All lines readable gives one text per line, in order; otherwise the TypeError of an unreadable line |
| SaveOrder.Row | api/save-order.js:30-36 | Five cells: the payment id, then the user's name, phone and address (each the value when truthy, "" otherwise, and all "" without a user), then the items string |
| SaveOrder.CartEmptyCases | api/save-order.js:11-13 | `!cart || cart.length === 0` holds exactly for a falsy cart, an empty array, or an object whose `length` property is 0 |
| SaveOrder.Handle | api/save-order.js:3-71 | Non-POST gives 405; 400 exactly for a POST whose cart is empty; a row is appended exactly when the reply is 200; any other failure is 500 with no URL |
| SaveOrder.MessageIsBody | api/save-order.js:47-57 | `trim()` only removes the leading and trailing newline of the message |
| SaveOrder.MessageNamesOrder | api/save-order.js:47-57 | The message names the payment id and contains the items string |
| SaveOrder.SavedOrder | api/save-order.js:9-61 | 200 exactly when the key parses, the cart is an array of readable lines and the append succeeds; then the row, every item's text in the items string, and the wa.me URL of the message |
| LandingPage.FallbackLines | src/pages/LandingPage.jsx:23 | The lines kept are non-empty |
| LandingPage.FallbackParseCSV | src/pages/LandingPage.jsx:21-35 | The fallback parser yields its rows: the header line split on commas, one object per further line |
| LandingPage.MapNaiveLines | src/pages/LandingPage.jsx:26-34 | One object per data line, in order |
| LandingPage.BlankGivesNoRows | src/pages/LandingPage.jsx:23-24 | Blank text gives no rows |
| LandingPage.FallbackRowShape | src/pages/LandingPage.jsx:25-33 | One row per data line; each row has exactly the trimmed header keys, with the trimmed column or "" under a header |
| LandingPage.ActiveOf | src/pages/LandingPage.jsx:100-110 | A meal is listed exactly when some row has that category and an isActive of true, yes or 1 |
| LandingPage.DetectActiveMeals | src/pages/LandingPage.jsx:100-110 | The `forEach` loop over the four meals pushes exactly the active ones |
| LandingPage.ActiveMealsInOrder | src/pages/LandingPage.jsx:102 | The active list is breakfast, lunch, dinner, snacks in that order, each at most once |
| LandingPage.Separator | src/pages/LandingPage.jsx:60 | "&" exactly when the base URL contains "?", "?" otherwise |
| LandingPage.CacheBustOneQuery | src/pages/LandingPage.jsx:60-61 | The URL starts with the base, and a base with at most one "?" yields a URL with exactly one |
| LandingPage.Landing.constructor | src/pages/LandingPage.jsx:39 | No meal is active at first |
| LandingPage.Landing.Refresh | src/pages/LandingPage.jsx:49-118 | With no base URL nothing is fetched or changed; otherwise the cache-busted URL is requested and a reply sets the active meals of the parsed rows; a failed fetch changes nothing |
| MenuFeed.Lines | src/api/menu.js:9 | There is always at least one line, the header |
| MenuFeed.ReadRawItems | src/api/menu.js:9-23 | The loops build the raw items of the text |
| MenuFeed.FillItems | src/api/menu.js:14-23 | One raw item per data line, in order |
| MenuFeed.ToFeedItem | src/api/menu.js:25-34 | Throws (None) exactly when there is no category; the category is lower-cased; active exactly when the lower-cased isActive is "true" |
| MenuFeed.FeedItems | src/api/menu.js:25-34 | Throws exactly when some raw item has no category; otherwise one item per raw item |
| MenuFeed.FetchMenu | src/api/menu.js:2-35 | The menu of a text is the feed items of its raw items |
| MenuFeed.MenuShape | src/api/menu.js:9-34 | One item per data line, each keyed by the trimmed header names; the mapping throws exactly when there is a data line and no category header |
| MenuFeed.EmptyDaysField | src/api/menu.js:32 | An absent days field gives [], an empty one [""] |
| MenuFeed.FetchMeal | src/api/menu.js:37-42 | Keeps exactly the active items of the lower-cased meal |
| MenuFeed.MealCaseIgnored | src/api/menu.js:40 | The meal's case does not matter |
| AdminDashboard.RevenueNaN | src/pages/AdminDashboard.jsx:27 | The revenue is NaN exactly when some order's amount is not a number |
| AdminDashboard.RevenueAppend | src/pages/AdminDashboard.jsx:27 | The revenue of two order lists is the sum of their revenues |
| AdminDashboard.DigitAmount | src/pages/AdminDashboard.jsx:27 | A digit-only amount counts as its decimal value |
| AdminDashboard.Dashboard.constructor | src/pages/AdminDashboard.jsx:4 | No orders at first |
| AdminDashboard.Dashboard.Load | src/pages/AdminDashboard.jsx:5-25 | No URL or a failed fetch leaves the orders unchanged; otherwise the orders are those of the fetched text |
| AdminDashboard.MapOrderLines | src/pages/AdminDashboard.jsx:15-20 | One order per data line, in order |
| AdminDashboard.OrdersShape | src/pages/AdminDashboard.jsx:13-20 | The order count is the number of lines after the header, and each order has exactly the header names as keys |
| AdminDashboard.OrderValue | src/pages/AdminDashboard.jsx:14-19 | Under a header that occurs once, each order holds its comma-separated column, or "" when the line is short |
| Reschedule.Submit | src/pages/ReschedulePage.jsx:11-26 | A request is posted exactly when all four checks pass; it carries action "reschedule" and the id, date and slot |
| Reschedule.ChecksInOrder | src/pages/ReschedulePage.jsx:12-18 | The first failing check decides the message: order id, then date and slot, then lead time, then webhook, each stated as an if-and-only-if |
| Reschedule.ReplyDecidesMessage | src/pages/ReschedulePage.jsx:19-25 | After posting, success gives "Reschedule requested", a reply without it "Failed to reschedule", and a failure "Network error" |
| Reschedule.LateRequestRefused | src/pages/ReschedulePage.jsx:14 | A slot less than 24 hours ahead is refused and nothing is posted |

## Left out

- Time zones and locale:
  - `toISOString` (UTC) and `getDay`/`setHours` (local time) are both read as one day
    numbering, and a day starts at `d * 86400000`.
  - `toLocaleDateString` and `toLocaleString` labels are supplied values (`Browser.dateLabel`,
    the `date`/`placedAt` parameters).
  - Weekday names are the English ones.
- Floating point:
  - prices, totals and amounts are integers;
  - `Number()` reads only an optional sign and decimal digits, and gives NaN for other text;
  - the hour division of the cut-off is an equivalent integer-millisecond comparison.
- Randomness: `Math.random()` ids are supplied by a function of the row position.
- Timers: the 2500 ms payment timer is a pending-timer count fired by
  `PaymentTimerFires`. The 800 ms redirect to /success, the `setInterval` refresh and the
  `mounted` flag are not modelled.
- Outside services are parameters or results:
  - `fetch`;
  - `localStorage`;
  - `JSON.parse` and `JSON.stringify`;
  - `encodeURIComponent`;
  - the HMAC-SHA256 digest;
  - the Google Sheets append and its error messages;
  - `window.open` (recorded as a list of opened URLs) and navigation (recorded as the page
    location).
- Unicode: `trim` and `\s` use a fixed list of white-space characters, and `toLowerCase`
  changes only ASCII letters.
- Request bodies that are not JSON objects are not modelled. A body is a map of fields.
- VerifyPayment.Handle: an unset `RAZORPAY_KEY_SECRET` makes `createHmac` throw outside the
  `try`, so the model gives no reply. The framework's own error response is not modelled.
- Checkout.CheckoutPage.SendOrder: when no WhatsApp number is configured, `WHATSAPP_NUM.replace`
  throws, so the model leaves the cart and the location unchanged. The rest of the async
  rejection is not modelled.
- LandingPage.Landing.Refresh: `parseCSV` never throws, so the fallback parser is modelled
  (`FallbackParseCSV`) but never selected. A non-ok HTTP status counts as a reply with a body,
  as in the code.
- MenuFeed.FetchMenu: models the mapping after the fetch. The fetch itself is the `text`
  parameter.
- The JSX markup, the inline styles and the UI-only pages are not part of this model.
- api/create-order.js is not part of this model. It only forwards to the Razorpay SDK.
