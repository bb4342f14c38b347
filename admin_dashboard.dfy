/**
 * The admin dashboard: it reads the orders sheet's CSV into one object per line after the
 * header (keys and values untrimmed, "" for a missing column), and shows the number of
 * orders and the revenue, the sum of every order's `Number(totalAmount || 0)`.
 */
module AdminDashboard {
  import opened Wrappers
  import opened JsText
  import CsvParser

  /** `l.split(",")` filled into `o[h] = cols[i] || ""` for every header `h`. */
  function OrderRow(headers: seq<string>, line: string): map<string, string> {
    CsvParser.RowObject(headers, SplitOn(line, ','))
  }

  function OrderRows(headers: seq<string>, dataLines: seq<string>): seq<map<string, string>> {
    seq(|dataLines|, k requires 0 <= k < |dataLines| => OrderRow(headers, dataLines[k]))
  }

  /** The orders of a sheet text: after `lines.shift()` the first line gives the headers. */
  function OrdersOf(text: string): seq<map<string, string>> {
    var lines := SplitOn(Trim(text), '\n');
    OrderRows(SplitOn(lines[0], ','), lines[1..])
  }

  /** `Number(o.totalAmount || 0)`: a missing or empty amount is 0. */
  function Amount(o: map<string, string>): Num {
    match Get(o, "totalAmount")
    case None => Finite(0)
    case Some(t) => if t == "" then Finite(0) else ToNumber(t)
  }

  /** Number addition, where NaN absorbs. */
  function Add(a: Num, b: Num): Num {
    if a.NaN? || b.NaN? then NaN else Finite(a.n + b.n)
  }

  /** The amount of every order, in order. */
  function Amounts(orders: seq<map<string, string>>): (r: seq<Num>)
    ensures |r| == |orders| && forall k :: 0 <= k < |orders| ==> r[k] == Amount(orders[k])
  {
    seq(|orders|, k requires 0 <= k < |orders| => Amount(orders[k]))
  }

  /** The running sum of `reduce`, from the left. */
  function Total(xs: seq<Num>): Num {
    if xs == [] then Finite(0) else Add(Total(xs[..|xs| - 1]), xs[|xs| - 1])
  }

  /** `orders.reduce((s, o) => s + Number(o.totalAmount || 0), 0)` */
  function Revenue(orders: seq<map<string, string>>): Num {
    Total(Amounts(orders))
  }

  lemma {:induction false} TotalNaN(xs: seq<Num>)
    ensures Total(xs).NaN? <==> exists k :: 0 <= k < |xs| && xs[k].NaN?
  {
    if xs != [] {
      var n := |xs| - 1;
      var init := xs[..n];
      TotalNaN(init);
      if Total(xs).NaN? {
        if Total(init).NaN? {
          var k :| 0 <= k < |init| && init[k].NaN?;
          assert xs[k] == init[k];
        }
      } else {
        forall k | 0 <= k < |xs| ensures !xs[k].NaN? {
          if k < n {
            assert init[k] == xs[k];
          }
        }
      }
    }
  }

  lemma {:induction false} TotalAppend(a: seq<Num>, b: seq<Num>)
    ensures Total(a + b) == Add(Total(a), Total(b))
    decreases |b|
  {
    if b == [] {
      assert a + b == a;
    } else {
      var init := b[..|b| - 1];
      assert (a + b)[..|a + b| - 1] == a + init;
      TotalAppend(a, init);
    }
  }

  /** The revenue is NaN exactly when some order's amount does not read as a number. */
  lemma RevenueNaN(orders: seq<map<string, string>>)
    ensures Revenue(orders).NaN? <==> exists k :: 0 <= k < |orders| && Amount(orders[k]).NaN?
  {
    TotalNaN(Amounts(orders));
  }

  /** The revenue of two batches of orders is the sum of their revenues. */
  lemma RevenueAppend(a: seq<map<string, string>>, b: seq<map<string, string>>)
    ensures Revenue(a + b) == Add(Revenue(a), Revenue(b))
  {
    assert Amounts(a + b) == Amounts(a) + Amounts(b);
    TotalAppend(Amounts(a), Amounts(b));
  }

  /** Reading the same field as the sheet's digits: an order with amount "250" adds 250. */
  lemma DigitAmount(o: map<string, string>, t: string)
    requires Get(o, "totalAmount") == Some(t) && t != [] && AllDigits(t)
    ensures Amount(o) == Finite(DigitsValue(t))
  {
    NumberOfDigits(t);
  }

  /** What the fetch gave: a failure, or the sheet's text. */
  datatype Fetched = FetchFailed | Text(body: string)

  /** The dashboard's state: the orders loaded so far. */
  class Dashboard {
    var orders: seq<map<string, string>>

    constructor ()
      ensures orders == []
    {
      orders := [];
    }

    /** The "Total Orders" figure. */
    function TotalOrders(): nat
      reads this
    {
      |orders|
    }

    /** The "Total Revenue" figure. */
    function TotalRevenue(): Num
      reads this
    {
      Revenue(orders)
    }

    /**
     * `load()`: with no orders URL nothing is loaded; a failed fetch leaves the orders as
     * they were; otherwise the orders become one object per line after the header.
     */
    method Load(url: Option<string>, fetched: Fetched)
      modifies this
      ensures url.None? || url.value == "" || fetched.FetchFailed? ==> orders == old(orders)
      ensures url.Some? && url.value != "" && fetched.Text? ==> orders == OrdersOf(fetched.body)
    {
      if url.None? || url.value == "" {
        return;
      }
      match fetched {
        case FetchFailed =>
        case Text(text) =>
          var lines := SplitOn(Trim(text), '\n');
          var headerLine := lines[0];
          lines := lines[1..];
          var headers := SplitOn(headerLine, ',');
          var rows := MapOrderLines(headers, lines);
          orders := rows;
      }
    }
  }

  /** `lines.map(l => ...)`: each object filled by `headers.forEach`. */
  method MapOrderLines(headers: seq<string>, lines: seq<string>) returns (rows: seq<map<string, string>>)
    ensures rows == OrderRows(headers, lines)
  {
    rows := [];
    for k := 0 to |lines|
      invariant rows == OrderRows(headers, lines[..k])
    {
      var o := CsvParser.FillRow(headers, SplitOn(lines[k], ','));
      OrderRowsSnoc(headers, lines, k);
      rows := rows + [o];
    }
    assert lines[..|lines|] == lines;
  }

  lemma OrderRowsSnoc(headers: seq<string>, lines: seq<string>, k: nat)
    requires k < |lines|
    ensures OrderRows(headers, lines[..k + 1]) == OrderRows(headers, lines[..k]) + [OrderRow(headers, lines[k])]
  {
    var a, b := OrderRows(headers, lines[..k + 1]), OrderRows(headers, lines[..k]) + [OrderRow(headers, lines[k])];
    assert |a| == |b|;
    forall j | 0 <= j < |a| ensures a[j] == b[j] {
      assert lines[..k + 1][j] == lines[j];
    }
  }

  /**
   * The order count is the number of lines after the header, and every order has exactly
   * the (untrimmed) header names as keys.
   */
  lemma OrdersShape(text: string)
    ensures |OrdersOf(text)| == |SplitOn(Trim(text), '\n')| - 1
    ensures forall k :: 0 <= k < |OrdersOf(text)| ==>
      OrdersOf(text)[k].Keys == set h | h in SplitOn(SplitOn(Trim(text), '\n')[0], ',')
  {
    var lines := SplitOn(Trim(text), '\n');
    var headers := SplitOn(lines[0], ',');
    forall k | 0 <= k < |OrdersOf(text)|
      ensures OrdersOf(text)[k].Keys == set h | h in headers
    {
      CsvParser.RowObjectKeys(headers, SplitOn(lines[1..][k], ','));
    }
  }

  /**
   * Under a header name that occurs once, order `k` holds that comma-separated column of its
   * line, or "" when the line is short (`cols[i] || ""`).
   */
  lemma OrderValue(text: string, k: nat, i: nat)
    requires k < |OrdersOf(text)|
    requires var headers := SplitOn(SplitOn(Trim(text), '\n')[0], ',');
      i < |headers| && CsvParser.LastOccurrence(headers, i)
    ensures var lines := SplitOn(Trim(text), '\n');
      var headers := SplitOn(lines[0], ',');
      var cols := SplitOn(lines[k + 1], ',');
      headers[i] in OrdersOf(text)[k] && OrdersOf(text)[k][headers[i]] == (if i < |cols| then cols[i] else "")
  {
    var lines := SplitOn(Trim(text), '\n');
    var headers := SplitOn(lines[0], ',');
    var cols := SplitOn(lines[k + 1], ',');
    assert lines[1..][k] == lines[k + 1];
    assert OrdersOf(text)[k] == CsvParser.RowObject(headers, cols);
    CsvParser.RowObjectValue(headers, cols, i);
  }
}
