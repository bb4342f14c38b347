/**
 * The landing page's menu check: it fetches the menu sheet as CSV (with a cache-busting
 * query parameter), reads it into rows and marks each of the four meals active when some
 * row of that category has a true-ish `isActive`.  It also carries a small fallback CSV
 * reader that splits on every comma.
 */
module LandingPage {
  import opened Wrappers
  import opened JsText
  import CsvParser

  // ---------------------------------------------------------------- fallbackParseCSV

  /** A line split off before "\n" loses one "\r" at its end (the `/\r?\n/` separator). */
  function DropCR(p: string): string {
    if p != [] && p[|p| - 1] == '\r' then p[..|p| - 1] else p
  }

  /** `csvText.trim().split(/\r?\n/).filter(Boolean)` */
  function FallbackLines(csvText: string): (lines: seq<string>)
    ensures forall l :: l in lines ==> l != ""
  {
    var pieces := SplitOn(Trim(csvText), '\n');
    CsvParser.NonEmpty(seq(|pieces|, k requires 0 <= k < |pieces| => if k < |pieces| - 1 then DropCR(pieces[k]) else pieces[k]))
  }

  /** The columns of a line: split on every comma, quotes or not, each trimmed. */
  function NaiveColumns(line: string): seq<string> {
    CsvParser.TrimAll(SplitOn(line, ','))
  }

  /** The rows for the lines after a header line. */
  function RowsOfLines(lines: seq<string>): seq<map<string, string>> {
    if lines == [] then [] else NaiveRows(NaiveColumns(lines[0]), lines[1..])
  }

  /** One object per data line. */
  function NaiveRows(headers: seq<string>, dataLines: seq<string>): seq<map<string, string>> {
    seq(|dataLines|, k requires 0 <= k < |dataLines| => NaiveRow(headers, dataLines[k]))
  }

  /** The object one line becomes under the given header names. */
  function NaiveRow(headers: seq<string>, line: string): map<string, string> {
    CsvParser.RowObject(headers, NaiveColumns(line))
  }

  /** The rows `fallbackParseCSV` returns, as a value. */
  function FallbackRows(csvText: string): seq<map<string, string>> {
    RowsOfLines(FallbackLines(csvText))
  }

  /**
   * `fallbackParseCSV(csvText)`: the header line's trimmed names, then per remaining line an
   * object filled by `headers.forEach` with the trimmed column, or "" for a missing one.
   */
  method FallbackParseCSV(csvText: string) returns (rows: seq<map<string, string>>)
    ensures rows == FallbackRows(csvText)
  {
    var lines := FallbackLines(csvText);
    if |lines| == 0 {
      return [];
    }
    var headers := NaiveColumns(lines[0]);
    rows := MapNaiveLines(headers, lines[1..]);
  }

  /** `lines.slice(1).map(...)`, each object filled by `headers.forEach`. */
  method MapNaiveLines(headers: seq<string>, dataLines: seq<string>) returns (rows: seq<map<string, string>>)
    ensures rows == NaiveRows(headers, dataLines)
  {
    rows := [];
    for k := 0 to |dataLines|
      invariant rows == NaiveRows(headers, dataLines[..k])
    {
      var obj := CsvParser.FillRow(headers, NaiveColumns(dataLines[k]));
      NaiveRowsSnoc(headers, dataLines, k);
      rows := rows + [obj];
    }
    assert dataLines[..|dataLines|] == dataLines;
  }

  lemma NaiveRowsSnoc(headers: seq<string>, dataLines: seq<string>, k: nat)
    requires k < |dataLines|
    ensures NaiveRows(headers, dataLines[..k + 1]) == NaiveRows(headers, dataLines[..k]) + [NaiveRow(headers, dataLines[k])]
  {
    var a, b := NaiveRows(headers, dataLines[..k + 1]), NaiveRows(headers, dataLines[..k]);
    assert |a| == |b| + 1;
    forall j | 0 <= j < |b| ensures a[j] == b[j] {
      assert dataLines[..k + 1][j] == dataLines[..k][j];
    }
    assert a[k] == NaiveRow(headers, dataLines[k]);
    assert a == b + [a[k]];
  }

  /** Blank text (only whitespace) gives no rows. */
  lemma BlankGivesNoRows(csvText: string)
    requires AllSpace(csvText)
    ensures FallbackRows(csvText) == []
  {
    TrimAllSpace(csvText);
    var pieces := SplitOn(Trim(csvText), '\n');
    assert pieces == [""];
    var cut := seq(|pieces|, k requires 0 <= k < |pieces| => if k < |pieces| - 1 then DropCR(pieces[k]) else pieces[k]);
    assert cut == [""];
    assert CsvParser.NonEmpty(cut) == [] + CsvParser.NonEmpty([]);
    assert FallbackLines(csvText) == [];
  }

  lemma TrimAllSpace(s: string)
    requires AllSpace(s)
    ensures Trim(s) == ""
  {
  }

  /**
   * Every fallback row has exactly the header names as keys, one row per line after the
   * header; under a header name that occurs once the value is that trimmed column, or "".
   */
  lemma FallbackRowShape(lines: seq<string>, k: nat, i: nat)
    requires |lines| >= 1 && k < |lines| - 1
    requires i < |NaiveColumns(lines[0])| && CsvParser.LastOccurrence(NaiveColumns(lines[0]), i)
    ensures |RowsOfLines(lines)| == |lines| - 1
    ensures RowsOfLines(lines)[k].Keys == set h | h in NaiveColumns(lines[0])
    ensures var cols := NaiveColumns(lines[k + 1]);
      RowsOfLines(lines)[k][NaiveColumns(lines[0])[i]] == (if i < |cols| then cols[i] else "")
  {
    var headers := NaiveColumns(lines[0]);
    var cols := NaiveColumns(lines[k + 1]);
    assert lines[1..][k] == lines[k + 1];
    assert RowsOfLines(lines)[k] == NaiveRow(headers, lines[k + 1]);
    CsvParser.RowObjectKeys(headers, cols);
    CsvParser.RowObjectValue(headers, cols, i);
  }

  // ---------------------------------------------------------------- active meals

  const MEALS: seq<string> := ["breakfast", "lunch", "dinner", "snacks"]

  /** `(row.field || row.field?.toString() || "").trim().toLowerCase()` */
  function Flag(row: map<string, string>, field: string): string {
    Lower(Trim(OrElse(Get(row, field), "")))
  }

  predicate TrueIsh(flag: string) {
    flag == "true" || flag == "yes" || flag == "1"
  }

  /** `rows.some(...)`: some row of this category has a true-ish `isActive`. */
  predicate MealActive(rows: seq<map<string, string>>, meal: string) {
    exists k :: 0 <= k < |rows| && Flag(rows[k], "category") == meal && TrueIsh(Flag(rows[k], "isActive"))
  }

  /** The meals the page shows as active. */
  function ActiveOf(rows: seq<map<string, string>>): (r: seq<string>)
    ensures forall m :: m in r <==> m in MEALS && MealActive(rows, m)
  {
    Filter(MEALS, (m: string) => MealActive(rows, m))
  }

  /** The `forEach` over the four meals that pushes each active one. */
  method DetectActiveMeals(rows: seq<map<string, string>>) returns (active: seq<string>)
    ensures active == ActiveOf(rows)
  {
    var p := (m: string) => MealActive(rows, m);
    active := [];
    for k := 0 to |MEALS|
      invariant active == Filter(MEALS[..k], p)
    {
      FilterSnoc(MEALS, k, p);
      if MealActive(rows, MEALS[k]) {
        active := active + [MEALS[k]];
      }
    }
    assert MEALS[..|MEALS|] == MEALS;
  }

  /** `[meal]` when the meal is active, `[]` otherwise. */
  function IfActive(rows: seq<map<string, string>>, meal: string): seq<string> {
    if MealActive(rows, meal) then [meal] else []
  }

  /**
   * The active list follows the fixed order breakfast, lunch, dinner, snacks, each meal
   * listed once and only when some row of its category is active.
   */
  lemma {:induction false} ActiveMealsInOrder(rows: seq<map<string, string>>)
    ensures ActiveOf(rows)
         == IfActive(rows, "breakfast") + IfActive(rows, "lunch") + IfActive(rows, "dinner") + IfActive(rows, "snacks")
  {
    var p := (m: string) => MealActive(rows, m);
    var f3 := Filter(MEALS[3..], p);
    var f2 := Filter(MEALS[2..], p);
    var f1 := Filter(MEALS[1..], p);
    var b, l, d, s := IfActive(rows, "breakfast"), IfActive(rows, "lunch"), IfActive(rows, "dinner"), IfActive(rows, "snacks");
    assert MEALS[3..][1..] == [];
    assert f3 == s + [];
    assert s + [] == s;
    assert MEALS[2..][1..] == MEALS[3..];
    assert f2 == d + s;
    assert MEALS[1..][1..] == MEALS[2..];
    assert f1 == l + (d + s);
    assert ActiveOf(rows) == b + (l + (d + s));
    ConcatAssoc(l, d, s);
    ConcatAssoc(b, l + d, s);
    ConcatAssoc(b, l, d);
  }

  // ---------------------------------------------------------------- the refresh

  /** `base.includes("?") ? "&" : "?"` */
  function Separator(base: string): (r: string)
    ensures r == "&" <==> '?' in base
    ensures r == "?" <==> '?' !in base
  {
    if '?' in base then "&" else "?"
  }

  /** `${base}${sep}cb=${Date.now()}` */
  function CacheBustUrl(base: string, now: int): string {
    base + Separator(base) + CacheBustTail(now)
  }

  /** The query parameter that defeats caches: `cb=` and the clock reading. */
  function CacheBustTail(now: int): string {
    "cb=" + IntToString(now)
  }

  /**
   * The cache-busting URL starts with the base and has exactly one "?": the base's own, or
   * the one added before `cb=`.
   */
  lemma CacheBustOneQuery(base: string, now: int)
    requires Count(base, '?') <= 1
    ensures var url := CacheBustUrl(base, now);
      url[..|base|] == base && Count(url, '?') == 1
  {
    NoQueryInTail(now);
    SeparatedOneQuery(base, CacheBustTail(now));
  }

  /** Appending the separator and a tail without "?" leaves exactly one "?". */
  lemma SeparatedOneQuery(base: string, tail: string)
    requires Count(base, '?') <= 1 && '?' !in tail
    ensures var url := base + Separator(base) + tail;
      url[..|base|] == base && Count(url, '?') == 1
  {
    var sep := Separator(base);
    assert (base + sep + tail)[..|base|] == base;
    NoCount(tail, '?');
    CountPositive(base, '?');
    assert Count(sep, '?') == 1 - Count(base, '?') by {
      if '?' in base {
        assert sep == "&";
      } else {
        assert sep == "?";
      }
    }
    CsvParser.CountAppend(base, sep, '?');
    CsvParser.CountAppend(base + sep, tail, '?');
  }

  lemma NoQueryInTail(now: int)
    ensures '?' !in CacheBustTail(now)
  {
    var t := IntToString(now);
    if now < 0 {
      assert t == "-" + NatToString(-now);
      assert forall k :: 1 <= k < |t| ==> t[k] == NatToString(-now)[k - 1];
    } else {
      assert t == NatToString(now);
    }
    assert forall k :: 0 <= k < |t| ==> t[k] != '?';
  }

  lemma {:induction false} NoCount(s: string, c: char)
    requires c !in s
    ensures Count(s, c) == 0
  {
    if s != [] {
      assert forall x :: x in s[1..] ==> x in s;
      NoCount(s[1..], c);
    }
  }

  lemma {:induction false} CountPositive(s: string, c: char)
    ensures c in s <==> Count(s, c) > 0
  {
    if s != [] {
      assert forall x :: x in s[1..] ==> x in s;
      assert forall x :: x in s ==> x == s[0] || x in s[1..];
      CountPositive(s[1..], c);
    }
  }

  /** What the fetch gave: a network failure, or the response text. */
  datatype Fetched = FetchFailed | Text(body: string)

  /** The page's state: the meals currently shown as active. */
  class Landing {
    var activeMeals: seq<string>

    constructor ()
      ensures activeMeals == []
    {
      activeMeals := [];
    }

    /**
     * `loadActiveMeal`: with no base URL nothing happens; otherwise the cache-busted URL is
     * fetched, the text is read with `parseCSV` (which never throws, so the fallback reader
     * is not used) and the active meals are replaced; a failed fetch leaves them as they were.
     */
    method Refresh(base: Option<string>, now: int, fetched: Fetched) returns (requested: Option<string>)
      modifies this
      ensures base.None? || base.value == "" ==> requested.None? && activeMeals == old(activeMeals)
      ensures base.Some? && base.value != "" ==> requested == Some(CacheBustUrl(base.value, now))
      ensures base.Some? && base.value != "" && fetched.Text? ==> activeMeals == ActiveOf(CsvParser.Rows(fetched.body))
      ensures fetched.FetchFailed? ==> activeMeals == old(activeMeals)
    {
      if base.None? || base.value == "" {
        return None;
      }
      requested := Some(CacheBustUrl(base.value, now));
      match fetched {
        case FetchFailed =>
        case Text(txt) =>
          var rows := CsvParser.ParseCSV(txt);
          activeMeals := DetectActiveMeals(rows);
      }
    }
  }
}
