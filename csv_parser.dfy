/**
 * src/utils/csvParser.js: a quote-aware row splitter (the quoting rules of section 2,
 * items 5-7, of RFC 4180, without line breaks inside quoted fields) and a parser that turns
 * the lines of a CSV text into objects keyed by the header row.
 */
module CsvParser {
  import opened JsText

  // ---------------------------------------------------------------- the row splitter

  /**
   * The splitter's state machine run over the rest `s` of a row, from the state where the
   * fields `out` are finished, `cur` is the field being built and `inQuotes` says whether a
   * quoted section is open.
   */
  function Scan(s: string, out: seq<string>, cur: string, inQuotes: bool): (r: seq<string>)
    ensures |r| > |out|
    decreases |s|
  {
    if s == [] then out + [cur]
    else if s[0] == '"' then
      if inQuotes && |s| > 1 && s[1] == '"' then Scan(s[2..], out, cur + ['"'], inQuotes)
      else Scan(s[1..], out, cur, !inQuotes)
    else if s[0] == ',' && !inQuotes then Scan(s[1..], out + [cur], "", inQuotes)
    else Scan(s[1..], out, cur + [s[0]], inQuotes)
  }

  /** The fields `splitCSVRow(row)` returns. */
  function Fields(row: string): seq<string> {
    Scan(row, [], "", false)
  }

  /** `splitCSVRow`: one pass over the characters, toggling quote mode. */
  method SplitCSVRow(row: string) returns (out: seq<string>)
    ensures out == Fields(row)
  {
    out := [];
    var cur := "";
    var insideQuotes := false;
    var i := 0;
    while i < |row|
      invariant 0 <= i <= |row|
      invariant Scan(row[i..], out, cur, insideQuotes) == Fields(row)
    {
      var ch := row[i];
      assert row[i..][1..] == row[i + 1..];
      if ch == '"' {
        if insideQuotes && i + 1 < |row| && row[i + 1] == '"' {
          assert row[i..][2..] == row[i + 2..];
          cur := cur + ['"'];
          i := i + 1;
        } else {
          insideQuotes := !insideQuotes;
        }
      } else if ch == ',' && !insideQuotes {
        out := out + [cur];
        cur := "";
      } else {
        cur := cur + [ch];
      }
      i := i + 1;
    }
    out := out + [cur];
  }

  /** The empty row is one empty field. */
  lemma EmptyRowOneField()
    ensures Fields("") == [""]
  {
  }

  /** Without quotes the splitter cuts at every comma, as `row.split(",")` does. */
  lemma {:induction false} ScanQuoteFree(s: string, out: seq<string>, cur: string)
    requires '"' !in s
    ensures Scan(s, out, cur, false) == out + [cur + SplitOn(s, ',')[0]] + SplitOn(s, ',')[1..]
    decreases |s|
  {
    if s == [] {
      assert cur + "" == cur;
    } else {
      var p := SplitOn(s[1..], ',');
      assert '"' !in s[1..] by { assert forall c :: c in s[1..] ==> c in s; }
      if s[0] == ',' {
        ScanQuoteFree(s[1..], out + [cur], "");
        assert "" + p[0] == p[0];
        assert SplitOn(s, ',') == [""] + p;
        assert cur + "" == cur;
      } else {
        ScanQuoteFree(s[1..], out, cur + [s[0]]);
        assert cur + [s[0]] + p[0] == cur + ([s[0]] + p[0]);
      }
    }
  }

  /** A row without quotes splits into exactly the comma-separated pieces. */
  lemma QuoteFreeFields(row: string)
    requires '"' !in row
    ensures Fields(row) == SplitOn(row, ',')
    ensures |Fields(row)| == Count(row, ',') + 1
  {
    ScanQuoteFree(row, [], "");
    var p := SplitOn(row, ',');
    assert "" + p[0] == p[0];
    assert [p[0]] + p[1..] == p;
  }

  /**
   * The commas of `s` that fall outside quotes, read with the splitter's own stepping from the
   * quote state `inQuotes` (a doubled quote inside quotes is one escaped character).
   */
  function UnquotedCommas(s: string, inQuotes: bool): (n: nat)
    ensures n <= Count(s, ',')
    decreases |s|
  {
    if s == [] then 0
    else if s[0] == '"' then
      if inQuotes && |s| > 1 && s[1] == '"' then
        assert s[1..][1..] == s[2..];
        UnquotedCommas(s[2..], inQuotes)
      else UnquotedCommas(s[1..], !inQuotes)
    else if s[0] == ',' && !inQuotes then 1 + UnquotedCommas(s[1..], inQuotes)
    else UnquotedCommas(s[1..], inQuotes)
  }

  /** Every comma outside quotes closes a field, and the end of the row closes the last one. */
  lemma {:induction false} ScanFieldCount(s: string, out: seq<string>, cur: string, q: bool)
    ensures |Scan(s, out, cur, q)| == |out| + 1 + UnquotedCommas(s, q)
    decreases |s|
  {
    if s != [] {
      if s[0] == '"' && q && |s| > 1 && s[1] == '"' {
        ScanFieldCount(s[2..], out, cur + ['"'], q);
      } else if s[0] == '"' {
        ScanFieldCount(s[1..], out, cur, !q);
      } else if s[0] == ',' && !q {
        ScanFieldCount(s[1..], out + [cur], "", q);
      } else {
        ScanFieldCount(s[1..], out, cur + [s[0]], q);
      }
    }
  }

  /** A row has one field more than it has commas outside quotes, so never more than commas + 1. */
  lemma FieldCountBound(row: string)
    ensures |Fields(row)| == UnquotedCommas(row, false) + 1
    ensures 1 <= |Fields(row)| <= Count(row, ',') + 1
  {
    ScanFieldCount(row, [], "", false);
  }

  // ---------------------------------------------------------------- what the fields hold

  /** All fields written one after another. */
  function Flatten(ps: seq<string>): string {
    if ps == [] then "" else Flatten(ps[..|ps| - 1]) + ps[|ps| - 1]
  }

  lemma FlattenSnoc(ps: seq<string>, p: string)
    ensures Flatten(ps + [p]) == Flatten(ps) + p
  {
    assert (ps + [p])[..|ps|] == ps;
  }

  lemma {:induction false} CountAppend(a: string, b: string, c: char)
    ensures Count(a + b, c) == Count(a, c) + Count(b, c)
  {
    if a != [] {
      assert (a + b)[0] == a[0] && (a + b)[1..] == a[1..] + b;
      CountAppend(a[1..], b, c);
    } else {
      assert a + b == b;
    }
  }

  /** A character the splitter copies whenever it meets it: neither a quote nor a comma. */
  predicate Ordinary(c: char) {
    c != '"' && c != ','
  }

  /** The ordinary characters of `s`, in order. */
  function OrdinaryPart(s: string): string {
    if s == [] then [] else (if Ordinary(s[0]) then [s[0]] else []) + OrdinaryPart(s[1..])
  }

  lemma {:induction false} OrdinaryAppend(a: string, b: string)
    ensures OrdinaryPart(a + b) == OrdinaryPart(a) + OrdinaryPart(b)
  {
    if a != [] {
      assert (a + b)[0] == a[0] && (a + b)[1..] == a[1..] + b;
      OrdinaryAppend(a[1..], b);
    } else {
      assert a + b == b;
    }
  }

  /** A quote or comma at the front adds nothing to the ordinary part. */
  lemma SkipOther(s: string)
    requires s != [] && !Ordinary(s[0])
    ensures OrdinaryPart(s) == OrdinaryPart(s[1..])
  {
    assert OrdinaryPart(s) == [] + OrdinaryPart(s[1..]);
  }

  lemma {:induction false} ScanKeepsOrdinary(s: string, out: seq<string>, cur: string, q: bool)
    ensures OrdinaryPart(Flatten(Scan(s, out, cur, q))) == OrdinaryPart(Flatten(out) + cur) + OrdinaryPart(s)
    decreases |s|
  {
    var before := Flatten(out) + cur;
    if s == [] {
      FlattenSnoc(out, cur);
      assert OrdinaryPart(before) + OrdinaryPart(s) == OrdinaryPart(before);
    } else if s[0] == '"' && q && |s| > 1 && s[1] == '"' {
      assert Scan(s, out, cur, q) == Scan(s[2..], out, cur + ['"'], q);
      ScanKeepsOrdinary(s[2..], out, cur + ['"'], q);
      assert OrdinaryPart(Flatten(out) + (cur + ['"'])) == OrdinaryPart(before) by {
        assert Flatten(out) + (cur + ['"']) == before + ['"'];
        OrdinaryAppend(before, ['"']);
        assert OrdinaryPart(['"']) == [];
        assert OrdinaryPart(before) + [] == OrdinaryPart(before);
      }
      assert OrdinaryPart(s) == OrdinaryPart(s[2..]) by {
        SkipOther(s);
        SkipOther(s[1..]);
        assert s[1..][1..] == s[2..];
      }
    } else if s[0] == '"' {
      assert Scan(s, out, cur, q) == Scan(s[1..], out, cur, !q);
      ScanKeepsOrdinary(s[1..], out, cur, !q);
      SkipOther(s);
    } else if s[0] == ',' && !q {
      assert Scan(s, out, cur, q) == Scan(s[1..], out + [cur], "", q);
      ScanKeepsOrdinary(s[1..], out + [cur], "", q);
      assert Flatten(out + [cur]) + "" == before by {
        FlattenSnoc(out, cur);
      }
      SkipOther(s);
    } else {
      assert Scan(s, out, cur, q) == Scan(s[1..], out, cur + [s[0]], q);
      ScanKeepsOrdinary(s[1..], out, cur + [s[0]], q);
      assert OrdinaryPart(Flatten(out) + (cur + [s[0]])) == OrdinaryPart(before) + OrdinaryPart([s[0]]) by {
        assert Flatten(out) + (cur + [s[0]]) == before + [s[0]];
        OrdinaryAppend(before, [s[0]]);
      }
      assert OrdinaryPart(s) == OrdinaryPart([s[0]]) + OrdinaryPart(s[1..]) by {
        assert [s[0]] + s[1..] == s;
        OrdinaryAppend([s[0]], s[1..]);
      }
    }
  }

  /** Every ordinary character of the row reaches the fields, in order, and nothing else ordinary does. */
  lemma FieldsKeepOrdinary(row: string)
    ensures OrdinaryPart(Flatten(Fields(row))) == OrdinaryPart(row)
  {
    ScanKeepsOrdinary(row, [], "", false);
    assert Flatten([]) + "" == "";
  }

  /**
   * The doubled quotes inside quoted sections of `s`, read with the splitter's own stepping
   * from the quote state `inQuotes`; each takes two of the row's quotes.
   */
  function EscapedQuotes(s: string, inQuotes: bool): (n: nat)
    ensures 2 * n <= Count(s, '"')
    decreases |s|
  {
    if s == [] then 0
    else if s[0] == '"' then
      if inQuotes && |s| > 1 && s[1] == '"' then
        assert s[1..][1..] == s[2..];
        1 + EscapedQuotes(s[2..], inQuotes)
      else EscapedQuotes(s[1..], !inQuotes)
    else EscapedQuotes(s[1..], inQuotes)
  }

  /** The fields gain one quote per escaped pair and no other quote. */
  lemma {:induction false} ScanQuoteBudget(s: string, out: seq<string>, cur: string, q: bool)
    ensures Count(Flatten(Scan(s, out, cur, q)), '"') == Count(Flatten(out) + cur, '"') + EscapedQuotes(s, q)
    decreases |s|
  {
    var before := Flatten(out) + cur;
    if s == [] {
      FlattenSnoc(out, cur);
    } else if s[0] == '"' && q && |s| > 1 && s[1] == '"' {
      ScanQuoteBudget(s[2..], out, cur + ['"'], q);
      assert Flatten(out) + (cur + ['"']) == before + ['"'];
      CountAppend(before, ['"'], '"');
      assert s[1..][1..] == s[2..];
    } else if s[0] == '"' {
      ScanQuoteBudget(s[1..], out, cur, !q);
    } else if s[0] == ',' && !q {
      ScanQuoteBudget(s[1..], out + [cur], "", q);
      FlattenSnoc(out, cur);
      assert Flatten(out + [cur]) + "" == before;
    } else {
      ScanQuoteBudget(s[1..], out, cur + [s[0]], q);
      assert Flatten(out) + (cur + [s[0]]) == before + [s[0]];
      CountAppend(before, [s[0]], '"');
    }
  }

  /**
   * The quotes in the fields are exactly the escaped pairs `""` met inside quotes; every other
   * quote only toggles quote mode.  So the fields hold at most half the row's quotes.
   */
  lemma FieldsQuoteBudget(row: string)
    ensures Count(Flatten(Fields(row)), '"') == EscapedQuotes(row, false)
    ensures 2 * Count(Flatten(Fields(row)), '"') <= Count(row, '"')
  {
    ScanQuoteBudget(row, [], "", false);
    assert Flatten([]) + "" == "";
  }

  // ---------------------------------------------------------------- round trip with RFC 4180 quoting

  /** Every quote written twice. */
  function DoubleQuotes(f: string): string {
    if f == [] then "" else (if f[0] == '"' then "\"\"" else [f[0]]) + DoubleQuotes(f[1..])
  }

  /** A field written in quotes, with its quotes doubled (section 2, item 7, of RFC 4180). */
  function Quote(f: string): string {
    "\"" + DoubleQuotes(f) + "\""
  }

  function QuoteAll(fs: seq<string>): (r: seq<string>)
    ensures |r| == |fs|
  {
    if fs == [] then [] else [Quote(fs[0])] + QuoteAll(fs[1..])
  }

  /** A row that writes every field quoted, separated by commas. */
  function EncodeRow(fs: seq<string>): string {
    Join(QuoteAll(fs), ",")
  }

  /** Inside quotes, the doubled body and the closing quote give back the field. */
  lemma {:induction false} ScanQuotedBody(f: string, rest: string, out: seq<string>, cur: string)
    requires rest == [] || rest[0] == ','
    ensures Scan(DoubleQuotes(f) + "\"" + rest, out, cur, true) == Scan(rest, out, cur + f, false)
    decreases |f|
  {
    var s := DoubleQuotes(f) + "\"" + rest;
    if f == [] {
      assert s == "\"" + rest && s[1..] == rest;
      assert cur + f == cur;
    } else {
      var tail := DoubleQuotes(f[1..]) + "\"" + rest;
      ScanQuotedBody(f[1..], rest, out, cur + [f[0]]);
      assert cur + [f[0]] + f[1..] == cur + f;
      if f[0] == '"' {
        assert s == "\"\"" + tail;
        assert s[2..] == tail;
      } else {
        assert s == [f[0]] + tail;
        assert s[1..] == tail;
      }
    }
  }

  lemma ScanQuotedField(f: string, rest: string, out: seq<string>)
    requires rest == [] || rest[0] == ','
    ensures Scan(Quote(f) + rest, out, "", false) == Scan(rest, out, f, false)
  {
    var s := Quote(f) + rest;
    assert s[0] == '"' && s[1..] == DoubleQuotes(f) + "\"" + rest;
    ScanQuotedBody(f, rest, out, "");
    assert "" + f == f;
  }

  lemma {:induction false} ScanEncodedRow(fs: seq<string>, out: seq<string>)
    requires |fs| >= 1
    ensures Scan(EncodeRow(fs), out, "", false) == out + fs
    decreases |fs|
  {
    var q := QuoteAll(fs);
    if |fs| == 1 {
      assert EncodeRow(fs) == Quote(fs[0]) + "";
      ScanQuotedField(fs[0], "", out);
      assert out + [fs[0]] == out + fs;
    } else {
      assert q[1..] == QuoteAll(fs[1..]);
      var tail := EncodeRow(fs[1..]);
      assert EncodeRow(fs) == Quote(fs[0]) + ("," + tail);
      ScanQuotedField(fs[0], "," + tail, out);
      assert ("," + tail)[1..] == tail;
      ScanEncodedRow(fs[1..], out + [fs[0]]);
      assert out + [fs[0]] + fs[1..] == out + fs;
    }
  }

  /**
   * Round trip: quoting every field, doubling inner quotes and joining with commas, the
   * splitter returns the original fields, commas and quotes inside them included.
   */
  lemma SplitEncodedRow(fs: seq<string>)
    requires |fs| >= 1
    ensures Fields(EncodeRow(fs)) == fs
  {
    ScanEncodedRow(fs, []);
  }

  // ---------------------------------------------------------------- rows as objects

  /** `cols[i]`, or "" where the row has no such column. */
  function CellAt(vals: seq<string>, i: nat): string {
    if i < |vals| then vals[i] else ""
  }

  /**
   * The object built by assigning `obj[headers[i]] = CellAt(vals, i)` for i = 0, 1, ...:
   * it has exactly the header keys; under a repeated header the later column wins.
   */
  function RowObject(headers: seq<string>, vals: seq<string>): (obj: map<string, string>)
  {
    if headers == [] then map[]
    else
      var n := |headers| - 1;
      RowObject(headers[..n], vals)[headers[n] := CellAt(vals, n)]
  }

  /** The row object has exactly the header keys: missing columns still give a key, extra ones none. */
  lemma {:induction false} RowObjectKeys(headers: seq<string>, vals: seq<string>)
    ensures RowObject(headers, vals).Keys == set h | h in headers
    decreases |headers|
  {
    if headers != [] {
      var n := |headers| - 1;
      RowObjectKeys(headers[..n], vals);
      assert headers == headers[..n] + [headers[n]];
      assert (set h | h in headers) == (set h | h in headers[..n]) + {headers[n]};
    }
  }

  /** The value under the last occurrence of a header is that column's cell, or "" when the row is short. */
  lemma {:induction false} RowObjectValue(headers: seq<string>, vals: seq<string>, i: nat)
    requires i < |headers| && LastOccurrence(headers, i)
    ensures headers[i] in RowObject(headers, vals)
    ensures RowObject(headers, vals)[headers[i]] == CellAt(vals, i)
    decreases |headers|
  {
    var n := |headers| - 1;
    if i < n {
      assert LastOccurrence(headers[..n], i);
      RowObjectValue(headers[..n], vals, i);
    }
  }

  /** No later header repeats the one at `i`. */
  predicate LastOccurrence(headers: seq<string>, i: int)
    requires 0 <= i < |headers|
  {
    forall j :: i < j < |headers| ==> headers[j] != headers[i]
  }

  /** The `for (let i = 0; i < headers.length; i++)` loop that fills one row object. */
  method FillRow(headers: seq<string>, vals: seq<string>) returns (obj: map<string, string>)
    ensures obj == RowObject(headers, vals)
  {
    obj := map[];
    for i := 0 to |headers|
      invariant obj == RowObject(headers[..i], vals)
    {
      assert headers[..i + 1][..i] == headers[..i];
      obj := obj[headers[i] := CellAt(vals, i)];
    }
    assert headers[..|headers|] == headers;
  }

  // ---------------------------------------------------------------- parseCSV

  /** `.map(h => h.trim())`: each piece trimmed where it stands; no piece keeps white space at an edge. */
  function TrimAll(ps: seq<string>): (r: seq<string>)
    ensures |r| == |ps| && forall i :: 0 <= i < |ps| ==> |r[i]| <= |ps[i]|
    ensures forall i :: 0 <= i < |r| ==> r[i] == [] || (!IsSpace(r[i][0]) && !IsSpace(r[i][|r[i]| - 1]))
  {
    seq(|ps|, i requires 0 <= i < |ps| => Trim(ps[i]))
  }

  /** Trimming the pieces a second time changes nothing. */
  lemma TrimAllIdempotent(ps: seq<string>)
    ensures TrimAll(TrimAll(ps)) == TrimAll(ps)
  {
    var once := TrimAll(ps);
    var twice := TrimAll(once);
    assert |twice| == |once|;
    forall i | 0 <= i < |once|
      ensures twice[i] == once[i]
    {
      TrimNoEdges(once[i]);
    }
  }

  /** `.filter(Boolean)` on strings: the non-empty pieces, in order. */
  function NonEmpty(ps: seq<string>): (r: seq<string>)
    ensures forall p :: p in r <==> p in ps && p != ""
    ensures |r| <= |ps|
  {
    if ps == [] then [] else (if ps[0] != "" then [ps[0]] else []) + NonEmpty(ps[1..])
  }

  /** Filtering splits over concatenation, so the kept pieces stay in their order. */
  lemma {:induction false} NonEmptyAppend(a: seq<string>, b: seq<string>)
    ensures NonEmpty(a + b) == NonEmpty(a) + NonEmpty(b)
  {
    if a == [] {
      assert a + b == b;
    } else {
      assert (a + b)[0] == a[0] && (a + b)[1..] == a[1..] + b;
      NonEmptyAppend(a[1..], b);
    }
  }

  /** Pieces that are all non-empty are kept as they are. */
  lemma {:induction false} NonEmptyKeepsFull(ps: seq<string>)
    requires forall i :: 0 <= i < |ps| ==> ps[i] != ""
    ensures NonEmpty(ps) == ps
  {
    if ps != [] {
      NonEmptyKeepsFull(ps[1..]);
      assert [ps[0]] + ps[1..] == ps;
    }
  }

  /** `text.replace(/\r/g, "").split("\n").filter(Boolean)` */
  function NonEmptyLines(text: string): (lines: seq<string>)
    ensures forall l :: l in lines ==> l != "" && '\n' !in l
  {
    NonEmpty(SplitOn(KeepChars(text, NotCR), '\n'))
  }

  predicate NotCR(c: char) {
    c != '\r'
  }

  /** Carriage returns are gone from every line. */
  lemma LinesHaveNoCR(text: string)
    ensures forall l :: l in NonEmptyLines(text) ==> '\r' !in l
  {
    var noCR := KeepChars(text, NotCR);
    SplitPiecesFrom(noCR, '\n');
  }

  lemma {:induction false} SplitPiecesFrom(s: string, c: char)
    ensures forall p, x :: p in SplitOn(s, c) && x in p ==> x in s
  {
    if s != [] {
      SplitPiecesFrom(s[1..], c);
      var rest := SplitOn(s[1..], c);
      assert forall x :: x in s[1..] ==> x in s;
      if s[0] != c {
        assert forall x :: x in [s[0]] + rest[0] ==> x == s[0] || x in rest[0];
        assert forall p :: p in rest[1..] ==> p in rest;
      }
    }
  }

  /** The object one data line becomes. */
  function LineObject(headers: seq<string>, line: string): map<string, string> {
    RowObject(headers, TrimAll(Fields(line)))
  }

  /** The trimmed names of the header line. */
  function HeaderNames(line: string): seq<string> {
    TrimAll(Fields(line))
  }

  /** `lines.map(line => ...)`: one object per data line. */
  method MapLines(headers: seq<string>, dataLines: seq<string>) returns (rows: seq<map<string, string>>)
    ensures |rows| == |dataLines|
    ensures forall k :: 0 <= k < |rows| ==> rows[k] == LineObject(headers, dataLines[k])
  {
    rows := [];
    for k := 0 to |dataLines|
      invariant |rows| == k
      invariant forall j :: 0 <= j < k ==> rows[j] == LineObject(headers, dataLines[j])
    {
      var obj := LineToObject(headers, dataLines[k]);
      rows := rows + [obj];
    }
  }

  /** The body of the `map` callback: split the line, then fill the object. */
  method LineToObject(headers: seq<string>, line: string) returns (obj: map<string, string>)
    ensures obj == LineObject(headers, line)
  {
    var cols := SplitCSVRow(line);
    obj := FillRow(headers, TrimAll(cols));
  }

  /** The objects `parseCSV` returns, as a value. */
  function Rows(csvText: string): seq<map<string, string>> {
    var lines := NonEmptyLines(csvText);
    if lines == [] then []
    else seq(|lines| - 1, k requires 0 <= k < |lines| - 1 => LineObject(HeaderNames(lines[0]), lines[k + 1]))
  }

  /**
   * `parseCSV`: one object per non-empty line after the first, keyed by the trimmed header
   * names, each value the trimmed field ("" for a missing column, extra columns ignored).
   */
  method ParseCSV(csvText: string) returns (rows: seq<map<string, string>>)
    ensures var lines := NonEmptyLines(csvText);
      && (lines == [] ==> rows == [])
      && (lines != [] ==>
            && |rows| == |lines| - 1
            && forall k :: 0 <= k < |rows| ==> rows[k] == LineObject(HeaderNames(lines[0]), lines[k + 1]))
    ensures rows == Rows(csvText)
  {
    if csvText == [] {
      assert KeepChars(csvText, NotCR) == "";
      return [];
    }
    var lines := NonEmptyLines(csvText);
    if |lines| == 0 {
      return [];
    }
    var rawHeaders := SplitCSVRow(lines[0]);
    var headers := TrimAll(rawHeaders);
    rows := MapLines(headers, lines[1..]);
  }
}
