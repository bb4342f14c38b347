/**
 * The menu feed (`fetchMenu`, `fetchMeal`): the menu sheet's CSV text is trimmed and split
 * into lines, the first line's comma-separated names become the keys of one raw item per
 * remaining line, and each raw item is mapped to a feed item with a lower-cased category, an
 * active flag and its list of available days.
 */
module MenuFeed {
  import opened Wrappers
  import opened JsText
  import CsvParser

  /** A feed item; fields whose column is missing are undefined (None). */
  datatype FeedItem = FeedItem(
    id: Option<string>,
    name: Option<string>,
    description: Option<string>,
    price: Option<string>,
    category: string,
    isActive: bool,
    availableDays: seq<string>,
    imageUrl: Option<string>)

  /** `text.trim().split("\n")`: every line, blank ones included. */
  function Lines(text: string): (r: seq<string>)
    ensures |r| >= 1
  {
    SplitOn(Trim(text), '\n')
  }

  /** The trimmed names of the header line's comma-separated parts. */
  function KeyNames(headerLine: string): seq<string> {
    CsvParser.TrimAll(SplitOn(headerLine, ','))
  }

  /** A data line's trimmed comma-separated columns. */
  function Columns(line: string): seq<string> {
    CsvParser.TrimAll(SplitOn(line, ','))
  }

  /** `item[h.trim()] = (cols[i] || "").trim()` for every header: one raw item. */
  function RawItem(keys: seq<string>, line: string): map<string, string> {
    CsvParser.RowObject(keys, Columns(line))
  }

  function RawItems(keys: seq<string>, dataLines: seq<string>): seq<map<string, string>> {
    seq(|dataLines|, k requires 0 <= k < |dataLines| => RawItem(keys, dataLines[k]))
  }

  /** The raw items of a menu text. */
  function RawMenu(text: string): seq<map<string, string>> {
    RawItems(KeyNames(Lines(text)[0]), Lines(text)[1..])
  }

  /** The `forEach` loops of `fetchMenu` that fill `data`. */
  method ReadRawItems(text: string) returns (data: seq<map<string, string>>)
    ensures data == RawMenu(text)
  {
    var rows := Lines(text);
    var keys := KeyNames(rows[0]);
    data := FillItems(keys, rows[1..]);
  }

  /** `rows.slice(1).forEach(...)`: one raw item pushed per data line. */
  method FillItems(keys: seq<string>, dataLines: seq<string>) returns (data: seq<map<string, string>>)
    ensures data == RawItems(keys, dataLines)
  {
    data := [];
    for k := 0 to |dataLines|
      invariant data == RawItems(keys, dataLines[..k])
    {
      var item := CsvParser.FillRow(keys, Columns(dataLines[k]));
      RawItemsSnoc(keys, dataLines, k);
      data := data + [item];
    }
    assert dataLines[..|dataLines|] == dataLines;
  }

  lemma RawItemsSnoc(keys: seq<string>, dataLines: seq<string>, k: nat)
    requires k < |dataLines|
    ensures RawItems(keys, dataLines[..k + 1]) == RawItems(keys, dataLines[..k]) + [RawItem(keys, dataLines[k])]
  {
    var a, b := RawItems(keys, dataLines[..k + 1]), RawItems(keys, dataLines[..k]);
    assert |a| == |b| + 1;
    forall j | 0 <= j < |b| ensures a[j] == b[j] {
      assert dataLines[..k + 1][j] == dataLines[..k][j];
    }
    assert a[k] == RawItem(keys, dataLines[k]);
    assert a == b + [a[k]];
  }

  /**
   * The `data.map` callback: `r.category.toLowerCase()` throws when there is no category
   * (None); `isActive` is "true" in any case; `availableDays` is the comma split of the
   * field, or [] without one.
   */
  function ToFeedItem(r: map<string, string>): (item: Option<FeedItem>)
    ensures item.None? <==> "category" !in r
    ensures item.Some? ==> item.value.category == Lower(r["category"])
    ensures item.Some? ==> (item.value.isActive <==> Lower(OrElse(Get(r, "isActive"), "")) == "true")
  {
    if "category" !in r then None
    else
      Some(FeedItem(
        Get(r, "id"),
        Get(r, "name"),
        Get(r, "description"),
        Get(r, "price"),
        Lower(r["category"]),
        Lower(OrElse(Get(r, "isActive"), "")) == "true",
        if "availableDays" in r then SplitOn(r["availableDays"], ',') else [],
        Get(r, "imageUrl")))
  }

  /** `data.map(...)`: all feed items, or None when some raw item makes the callback throw. */
  function FeedItems(raws: seq<map<string, string>>): (r: Option<seq<FeedItem>>)
    ensures r.None? <==> exists k :: 0 <= k < |raws| && "category" !in raws[k]
    ensures r.Some? ==> |r.value| == |raws| && forall k :: 0 <= k < |raws| ==> Some(r.value[k]) == ToFeedItem(raws[k])
    decreases |raws|
  {
    if raws == [] then Some([])
    else
      var head := ToFeedItem(raws[0]);
      var tail := FeedItems(raws[1..]);
      if head.None? then None
      else if tail.None? then
        assert forall k :: 0 <= k < |raws[1..]| ==> raws[1..][k] == raws[k + 1];
        None
      else Some([head.value] + tail.value)
  }

  /** `fetchMenu()` after the fetch: the feed items of the text, or None when it throws. */
  method FetchMenu(text: string) returns (items: Option<seq<FeedItem>>)
    ensures items == FeedItems(RawMenu(text))
  {
    var data := ReadRawItems(text);
    items := FeedItems(data);
  }

  /**
   * One feed item per line after the header, blank lines included; each raw item has
   * exactly the trimmed header names as keys; and the feed throws exactly when there is a
   * data line but no "category" header.
   */
  lemma MenuShape(text: string)
    ensures |RawMenu(text)| == |Lines(text)| - 1
    ensures forall k :: 0 <= k < |RawMenu(text)| ==> RawMenu(text)[k].Keys == set h | h in KeyNames(Lines(text)[0])
    ensures FeedItems(RawMenu(text)).None? <==> |Lines(text)| > 1 && "category" !in KeyNames(Lines(text)[0])
    ensures FeedItems(RawMenu(text)).Some? ==> |FeedItems(RawMenu(text)).value| == |Lines(text)| - 1
  {
    var keys := KeyNames(Lines(text)[0]);
    var raws := RawMenu(text);
    forall k | 0 <= k < |raws|
      ensures raws[k].Keys == set h | h in keys
    {
      CsvParser.RowObjectKeys(keys, Columns(Lines(text)[1..][k]));
    }
    if |Lines(text)| > 1 && "category" !in keys {
      assert "category" !in raws[0];
    }
  }

  /** An empty field gives one empty day, not an empty list; a missing column gives []. */
  lemma EmptyDaysField(r: map<string, string>)
    requires "category" in r
    ensures Get(r, "availableDays") == Some("") ==> ToFeedItem(r).value.availableDays == [""]
    ensures Get(r, "availableDays") == None ==> ToFeedItem(r).value.availableDays == []
  {
  }

  /** `fetchMeal(meal)`: the active items of the meal's category. */
  function FetchMeal(list: seq<FeedItem>, meal: string): (r: seq<FeedItem>)
    ensures forall it :: it in r <==> it in list && it.category == Lower(meal) && it.isActive
  {
    Filter(list, (it: FeedItem) => it.category == Lower(meal) && it.isActive)
  }

  /** The items kept for a meal have the meal's lower-cased name as their category, whatever its case. */
  lemma MealCaseIgnored(list: seq<FeedItem>, meal: string)
    ensures FetchMeal(list, meal) == FetchMeal(list, Lower(meal))
  {
    LowerIdempotent(meal);
  }
}
