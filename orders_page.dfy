/**
 * src/pages/OrdersPage.jsx: the menu page for one meal.  It loads the menu sheet, keeps the
 * active items of the chosen meal, picks the five weekdays to show, lists under each day the
 * items served on it, and shows every card as open or closed by the ordering cut-off.
 */
module OrdersPage {
  import opened JsText
  import opened Wrappers
  import opened Dates
  import opened CartStore
  import CsvParser

  // ---------------------------------------------------------------- formatCountdown

  /** Whole hours and the minutes left over. */
  datatype Countdown = Countdown(hours: int, minutes: int)

  /**
   * `formatCountdown`, with the time left given in milliseconds: None (`null`) when no time
   * is left, otherwise the whole minutes left split into hours and minutes.
   */
  function FormatCountdown(msLeft: int): (r: Option<Countdown>)
    ensures r.None? <==> msLeft <= 0
    ensures r.Some? ==> 0 <= r.value.hours && 0 <= r.value.minutes < 60
    ensures r.Some? ==> r.value.hours * 60 + r.value.minutes == msLeft / MINUTE_MS
  {
    if msLeft <= 0 then None
    else
      var totalMinutes := msLeft / MINUTE_MS;
      Some(Countdown(totalMinutes / 60, totalMinutes % 60))
  }

  /** The `${h}h ${m}m` text. */
  function CountdownText(c: Countdown): string {
    IntToString(c.hours) + "h " + IntToString(c.minutes) + "m"
  }

  // ---------------------------------------------------------------- the visible weekdays

  /** `n` consecutive days from `start`. */
  function Days(start: int, n: nat): (r: seq<int>)
    ensures |r| == n && forall i :: 0 <= i < n ==> r[i] == start + i
  {
    seq(n, i requires 0 <= i < n => start + i)
  }

  /** Monday to Friday. */
  predicate IsWeekday(d: int) {
    1 <= WeekdayIndex(d) <= 5
  }

  predicate Increasing(s: seq<int>) {
    forall i, j :: 0 <= i < j < |s| ==> s[i] < s[j]
  }

  predicate Distinct(s: seq<int>) {
    forall i, j :: 0 <= i < j < |s| ==> s[i] != s[j]
  }

  /** `generateSequentialDates(startIso, n)`: `n` consecutive days from `start`. */
  method GenerateSequentialDates(start: int, n: nat) returns (arr: seq<int>)
    ensures arr == Days(start, n) && Increasing(arr)
  {
    arr := [];
    for i := 0 to n
      invariant arr == Days(start, i)
    {
      arr := arr + [start + i];
    }
  }

  /** Today and the fourteen days after it: the days the weekdays are picked from. */
  function Window(today: int): seq<int> {
    Days(today, 15)
  }

  /** The weekdays of the window, in calendar order. */
  function WindowWeekdays(today: int): seq<int> {
    Filter(Window(today), IsWeekday)
  }

  lemma {:induction false} FilterKeepsIncreasing(s: seq<int>, p: int -> bool)
    requires Increasing(s)
    ensures Increasing(Filter(s, p))
  {
    if s != [] {
      FilterKeepsIncreasing(s[1..], p);
      var t := Filter(s[1..], p);
      if p(s[0]) {
        var f := Filter(s, p);
        assert f == [s[0]] + t;
        forall i, j | 0 <= i < j < |f|
          ensures f[i] < f[j]
        {
          if i == 0 {
            assert f[j] == t[j - 1] && t[j - 1] in t;
            var m :| 0 <= m < |s[1..]| && s[1..][m] == f[j];
            assert s[m + 1] == f[j];
          } else {
            assert f[i] == t[i - 1] && f[j] == t[j - 1];
          }
        }
      } else {
        assert Filter(s, p) == t;
      }
    }
  }

  /** The number of weekdays among `n` days from `d`. */
  function CountWeekdays(d: int, n: nat): nat
    decreases n
  {
    if n == 0 then 0 else (if IsWeekday(d) then 1 else 0) + CountWeekdays(d + 1, n - 1)
  }

  lemma {:induction false} CountIsLength(d: int, n: nat)
    ensures |Filter(Days(d, n), IsWeekday)| == CountWeekdays(d, n)
    decreases n
  {
    if n > 0 {
      assert Days(d, n) == [d] + Days(d + 1, n - 1);
      FilterAppend([d], Days(d + 1, n - 1), IsWeekday);
      assert [d][1..] == [];
      CountIsLength(d + 1, n - 1);
    }
  }

  lemma {:induction false} CountSplit(d: int, a: nat, b: nat)
    ensures CountWeekdays(d, a + b) == CountWeekdays(d, a) + CountWeekdays(d + a, b)
    decreases a
  {
    if a > 0 {
      CountSplit(d + 1, a - 1, b);
    }
  }

  /** Every seven consecutive days hold exactly five weekdays. */
  lemma WeekHasFive(d: int)
    ensures CountWeekdays(d, 7) == 5
  {
    var w := WeekdayIndex(d);
    ShiftWeekday(d, 1); ShiftWeekday(d, 2); ShiftWeekday(d, 3);
    ShiftWeekday(d, 4); ShiftWeekday(d, 5); ShiftWeekday(d, 6);
    assert CountWeekdays(d + 7, 0) == 0;
    assert CountWeekdays(d, 7)
        == (if IsWeekday(d) then 1 else 0) + (if IsWeekday(d + 1) then 1 else 0)
         + (if IsWeekday(d + 2) then 1 else 0) + (if IsWeekday(d + 3) then 1 else 0)
         + (if IsWeekday(d + 4) then 1 else 0) + (if IsWeekday(d + 5) then 1 else 0)
         + (if IsWeekday(d + 6) then 1 else 0);
  }

  /** The window always holds at least ten weekdays. */
  lemma WindowHasTenWeekdays(today: int)
    ensures |WindowWeekdays(today)| >= 10
  {
    CountIsLength(today, 15);
    CountSplit(today, 7, 8);
    CountSplit(today + 7, 7, 1);
    WeekHasFive(today);
    WeekHasFive(today + 7);
  }

  /** The window's weekdays come in calendar order, and none of them is missed. */
  lemma WindowWeekdaysOrdered(today: int)
    ensures Increasing(WindowWeekdays(today))
    ensures forall d :: d in WindowWeekdays(today) <==> today <= d < today + 15 && IsWeekday(d)
  {
    FilterKeepsIncreasing(Window(today), IsWeekday);
    forall d | today <= d < today + 15
      ensures d in Window(today)
    {
      assert Window(today)[d - today] == d;
    }
  }

  /** `!unique.find(u => u.iso === e.iso)` over a list: the days of `xs` not in `taken`. */
  function Absent(xs: seq<int>, taken: seq<int>): (r: seq<int>)
    ensures forall x :: x in r <==> x in xs && x !in taken
  {
    Filter(xs, x => x !in taken)
  }

  lemma IncreasingIsDistinct(s: seq<int>)
    requires Increasing(s)
    ensures Distinct(s)
  {
  }

  lemma IncreasingPrefix(s: seq<int>, k: nat)
    requires Increasing(s) && k <= |s|
    ensures Increasing(s[..k])
  {
  }

  /**
   * The loop that takes the first `n` unique weekdays: it pushes each day not yet taken and
   * stops as soon as `n` are taken (after the first push, even when `n` is 0).
   */
  method TakeUnique(weekdays: seq<int>, n: nat) returns (unique: seq<int>)
    requires Increasing(weekdays)
    ensures |unique| < n ==> unique == weekdays
    ensures |unique| >= n ==> n <= |weekdays| && unique[..n] == weekdays[..n]
    ensures Increasing(unique) && unique <= weekdays
  {
    unique := [];
    var i := 0;
    while i < |weekdays|
      invariant 0 <= i <= |weekdays|
      invariant unique == weekdays[..i]
      invariant i <= n || i <= 1
    {
      assert weekdays[i] !in unique by {
        forall j | 0 <= j < i
          ensures weekdays[..i][j] != weekdays[i]
        {
          assert weekdays[..i][j] == weekdays[j] < weekdays[i];
        }
      }
      unique := unique + [weekdays[i]];
      assert unique == weekdays[..i + 1];
      i := i + 1;
      if |unique| >= n {
        break;
      }
    }
  }

  /** Appending days none of which is taken keeps a list free of repeats. */
  lemma AppendFresh(unique: seq<int>, extra: seq<int>)
    requires Distinct(unique) && Distinct(extra)
    requires forall x :: x in extra ==> x !in unique
    ensures Distinct(unique + extra)
  {
    var r := unique + extra;
    forall a, b | 0 <= a < b < |r|
      ensures r[a] != r[b]
    {
      if b < |unique| {
        assert r[a] == unique[a] && r[b] == unique[b];
      } else if a < |unique| {
        assert r[b] == extra[b - |unique|] && extra[b - |unique|] in extra;
        assert r[a] == unique[a] && unique[a] in unique;
      } else {
        assert r[a] == extra[a - |unique|] && r[b] == extra[b - |unique|];
      }
    }
  }

  /** Distinct elements are as many as the positions they fill. */
  lemma {:induction false} DistinctCard(xs: seq<int>)
    requires Distinct(xs)
    ensures |set x | x in xs| == |xs|
  {
    if xs != [] {
      var n := |xs| - 1;
      DistinctCard(xs[..n]);
      assert (set x | x in xs) == (set x | x in xs[..n]) + {xs[n]};
      assert xs[n] !in (set x | x in xs[..n]);
    }
  }

  /** A sequence holds at most as many different elements as it has positions. */
  lemma {:induction false} CardAtMost(ys: seq<int>)
    ensures |set y | y in ys| <= |ys|
  {
    if ys != [] {
      var n := |ys| - 1;
      CardAtMost(ys[..n]);
      assert (set y | y in ys) == (set y | y in ys[..n]) + {ys[n]};
    }
  }

  lemma SubsetCard(a: set<int>, b: set<int>)
    requires a <= b
    ensures |a| <= |b|
  {
    assert b == a + (b - a);
  }

  /** Dropping the taken days from distinct days loses at most as many days as are taken. */
  lemma AbsentLength(xs: seq<int>, taken: seq<int>)
    requires Distinct(xs)
    ensures |Absent(xs, taken)| >= |xs| - |taken|
  {
    var a := Absent(xs, taken);
    var kept := set x | x in a;
    var dropped := set x | x in xs && x in taken;
    assert (set x | x in xs) == kept + dropped;
    assert kept * dropped == {};
    DistinctCard(xs);
    CardAtMost(a);
    CardAtMost(taken);
    SubsetCard(dropped, set x | x in taken);
  }

  /** `nextDateForWeekday("mon", today)`, which always finds a Monday. */
  function NextMonday(today: int): (r: int)
    ensures today < r <= today + 7 && WeekdayName(r) == "mon"
  {
    assert WeekdayKey("mon") == "mon";
    NextDateForWeekday("mon", today).value
  }

  /** `xs.slice(0, k)`: the first `k` elements, or all of them when there are fewer. */
  function SliceTo(xs: seq<int>, k: nat): (r: seq<int>)
    ensures r <= xs && |r| == if |xs| <= k then |xs| else k
  {
    if |xs| <= k then xs else xs[..k]
  }

  /** The days the extension appends: the untaken days of the `n` days from next Monday, as many as are missing. */
  function ExtraDays(today: int, unique: seq<int>, n: nat): seq<int> {
    SliceTo(Absent(Days(NextMonday(today), n), unique), if |unique| <= n then n - |unique| else 0)
  }

  /** The appended days are untaken days from next Monday on, weekends included, in calendar order. */
  lemma ExtraDaysFromMonday(today: int, unique: seq<int>, n: nat)
    ensures Increasing(ExtraDays(today, unique, n))
    ensures forall d :: d in ExtraDays(today, unique, n) ==> NextMonday(today) <= d < NextMonday(today) + n && d !in unique
  {
    var days := Days(NextMonday(today), n);
    var notTaken := Absent(days, unique);
    assert Increasing(days);
    FilterKeepsIncreasing(days, x => x !in unique);
    var extra := ExtraDays(today, unique, n);
    IncreasingPrefix(notTaken, |extra|);
    assert extra == notTaken[..|extra|];
    forall d | d in extra
      ensures NextMonday(today) <= d < NextMonday(today) + n && d !in unique
    {
      assert d in notTaken;
      var i :| 0 <= i < |days| && days[i] == d;
    }
  }

  /** The extension: days from next Monday not yet taken, as many as are missing. */
  method ExtendFromMonday(today: int, unique: seq<int>, n: nat) returns (r: seq<int>)
    requires Increasing(unique) && |unique| < n
    ensures r == unique + ExtraDays(today, unique, n)
    ensures |r| == n && Distinct(r) && r[..|unique|] == unique
  {
    var nextMon := NextDateForWeekday("mon", today);
    assert WeekdayKey("mon") == "mon";
    var extension := GenerateSequentialDates(nextMon.value, n);
    var notTaken := Absent(extension, unique);
    var want := n - |unique|;
    var extra := if |notTaken| <= want then notTaken else notTaken[..want];
    assert extra == ExtraDays(today, unique, n);
    ExtraDaysFill(today, unique, n);
    r := unique + extra;
    assert r[..|unique|] == unique;
  }

  /** The appended days make up exactly the missing number and repeat none of the chosen days. */
  lemma ExtraDaysFill(today: int, unique: seq<int>, n: nat)
    requires Increasing(unique) && |unique| < n
    ensures |ExtraDays(today, unique, n)| == n - |unique|
    ensures Distinct(unique + ExtraDays(today, unique, n))
  {
    var days := Days(NextMonday(today), n);
    var extra := ExtraDays(today, unique, n);
    assert Increasing(days);
    IncreasingIsDistinct(days);
    AbsentLength(days, unique);
    ExtraDaysFromMonday(today, unique, n);
    IncreasingIsDistinct(unique);
    IncreasingIsDistinct(extra);
    AppendFresh(unique, extra);
  }

  /**
   * `computeVisibleWeekdays(n)`: the first `n` weekdays among today and the next fourteen
   * days, without repeats; when there are fewer, days from the next Monday make up the rest.
   */
  method ComputeVisibleWeekdays(today: int, n: nat) returns (r: seq<int>)
    ensures |r| == n && Distinct(r)
    ensures n <= |WindowWeekdays(today)| ==> r == WindowWeekdays(today)[..n]
    ensures |WindowWeekdays(today)| < n ==> r == WindowWeekdays(today) + ExtraDays(today, WindowWeekdays(today), n)
    ensures |WindowWeekdays(today)| < n ==> r[..|WindowWeekdays(today)|] == WindowWeekdays(today)
  {
    var next14 := UpcomingDates(today, 14);
    var combined := [today] + seq(14, k requires 0 <= k < 14 => next14[k].iso);
    assert combined == Window(today);
    var weekdays := Filter(combined, IsWeekday);
    WindowWeekdaysOrdered(today);
    assert weekdays == WindowWeekdays(today);
    var unique := TakeUnique(weekdays, n);
    if |unique| < n {
      r := ExtendFromMonday(today, unique, n);
    } else {
      IncreasingPrefix(unique, n);
      IncreasingIsDistinct(unique[..n]);
      r := unique[..n];
    }
  }

  /**
   * With at most ten days asked for, the extension never runs (`ComputeVisibleWeekdays` then
   * returns the first `n` window weekdays): the page shows `n` weekdays in calendar order, all
   * within today and the next fourteen days.
   */
  lemma FirstWeekdaysShown(today: int, n: nat)
    requires n <= 10
    ensures n <= |WindowWeekdays(today)|
    ensures forall k :: 0 <= k < n ==> IsWeekday(WindowWeekdays(today)[k]) && today <= WindowWeekdays(today)[k] < today + 15
    ensures Increasing(WindowWeekdays(today)[..n])
  {
    WindowHasTenWeekdays(today);
    WindowWeekdaysOrdered(today);
    forall k | 0 <= k < n
      ensures IsWeekday(WindowWeekdays(today)[k]) && today <= WindowWeekdays(today)[k] < today + 15
    {
      assert WindowWeekdays(today)[k] in WindowWeekdays(today);
    }
    IncreasingPrefix(WindowWeekdays(today), n);
  }

  // ---------------------------------------------------------------- menu rows

  /** A menu item as the page keeps it after reading a sheet row. */
  datatype MenuItem = MenuItem(
    id: string,
    name: Option<string>,
    description: Option<string>,
    price: Num,
    category: string,
    isActive: bool,
    day: string,
    imageUrl: Option<string>,
    stockAvailability: string)

  /** Characters removed from a day field: the no-break space and other white space. */
  predicate Blank(c: char) {
    c == '\U{00A0}' || IsSpace(c)
  }

  predicate NotBlank(c: char) {
    !Blank(c)
  }

  /** The day column: `day`, else `availableDays`, else `availabledays`, trimmed, blanks removed, lower case. */
  function DayField(row: map<string, string>): string {
    var raw := OrElse(Get(row, "day"), OrElse(Get(row, "availableDays"), OrElse(Get(row, "availabledays"), "")));
    Lower(KeepChars(Trim(raw), NotBlank))
  }

  /** `Number(r.price || 0)` */
  function PriceField(row: map<string, string>): Num {
    ToNumber(OrElse(Get(row, "price"), "0"))
  }

  /** `(r.category || "").toLowerCase()` */
  function CategoryField(row: map<string, string>): string {
    Lower(OrElse(Get(row, "category"), ""))
  }

  /** `(r.stockAvailability || "in").toLowerCase()` */
  function StockField(row: map<string, string>): string {
    Lower(OrElse(Get(row, "stockAvailability"), "in"))
  }

  /** `(r.isActive || "true").toLowerCase() === "true"` */
  predicate ActiveField(row: map<string, string>) {
    Lower(OrElse(Get(row, "isActive"), "true")) == "true"
  }

  /** The item the page builds from a sheet row; `randomId` stands for the random id of a row without one. */
  function NormalizeRow(row: map<string, string>, randomId: string): MenuItem {
    MenuItem(
      OrElse(Get(row, "id"), randomId),
      Get(row, "name"),
      Get(row, "description"),
      PriceField(row),
      CategoryField(row),
      ActiveField(row),
      DayField(row),
      Get(row, "imageUrl"),
      StockField(row))
  }

  /** A normalised day field holds no blanks and no capitals: normalising again changes nothing. */
  lemma DayFieldIsClean(row: map<string, string>)
    ensures forall c :: c in DayField(row) ==> !Blank(c) && !('A' <= c <= 'Z')
    ensures Lower(KeepChars(Trim(DayField(row)), NotBlank)) == DayField(row)
  {
    var raw := OrElse(Get(row, "day"), OrElse(Get(row, "availableDays"), OrElse(Get(row, "availabledays"), "")));
    assert DayField(row) == Lower(KeepChars(Trim(raw), NotBlank));
    CleanedIsClean(Trim(raw));
  }

  /** Dropping blanks and lower-casing leaves text that the same cleaning leaves alone. */
  lemma CleanedIsClean(s: string)
    ensures forall c :: c in Lower(KeepChars(s, NotBlank)) ==> !Blank(c) && !('A' <= c <= 'Z')
    ensures Lower(KeepChars(Trim(Lower(KeepChars(s, NotBlank))), NotBlank)) == Lower(KeepChars(s, NotBlank))
  {
    var kept := KeepChars(s, NotBlank);
    var d := Lower(kept);
    forall c | c in d
      ensures !Blank(c) && !('A' <= c <= 'Z')
    {
      var i :| 0 <= i < |d| && d[i] == c;
      assert kept[i] in kept;
    }
    TrimNoSpace(d);
    KeepAll(d, NotBlank);
    LowerIdempotent(kept);
  }

  /** "true" spelt in any mix of upper and lower case. */
  predicate SpellsTrue(v: string) {
    && |v| == 4
    && (v[0] == 't' || v[0] == 'T') && (v[1] == 'r' || v[1] == 'R')
    && (v[2] == 'u' || v[2] == 'U') && (v[3] == 'e' || v[3] == 'E')
  }

  /** Lower-casing gives "true" exactly for the spellings of "true" in any case. */
  lemma LowerIsTrue(v: string)
    ensures Lower(v) == "true" <==> SpellsTrue(v)
  {
    if |v| == 4 {
      if SpellsTrue(v) {
        assert Lower(v) == [LowerChar(v[0]), LowerChar(v[1]), LowerChar(v[2]), LowerChar(v[3])];
      }
      if Lower(v) == "true" {
        assert LowerChar(v[0]) == 't' && LowerChar(v[1]) == 'r' && LowerChar(v[2]) == 'u' && LowerChar(v[3]) == 'e';
      }
    } else {
      assert |Lower(v)| != |"true"|;
    }
  }

  /**
   * An item is active when its `isActive` column is missing or empty, or holds "true" in any
   * case; any other text makes it inactive.
   */
  lemma ActiveFieldCases(row: map<string, string>)
    ensures ActiveField(row) <==> match Get(row, "isActive")
      case None => true
      case Some(v) => v == "" || SpellsTrue(v)
  {
    LowerIsTrue(OrElse(Get(row, "isActive"), "true"));
    assert SpellsTrue("true");
  }

  /**
   * What a sheet row becomes: the row's id or, when it is missing or empty, the drawn one;
   * name, description and image exactly as read (undefined when the column is absent); the
   * price 0 when missing or empty and the number of the text otherwise; category and stock in
   * lower case, the stock "in" when missing or empty.
   */
  lemma NormalizeRowDefaults(row: map<string, string>, randomId: string)
    ensures var it := NormalizeRow(row, randomId);
      && (Get(row, "id") == None || Get(row, "id") == Some("") ==> it.id == randomId)
      && (Get(row, "id").Some? && Get(row, "id").value != "" ==> it.id == Get(row, "id").value)
      && it.name == Get(row, "name") && it.description == Get(row, "description") && it.imageUrl == Get(row, "imageUrl")
      && (Get(row, "price") == None || Get(row, "price") == Some("") ==> it.price == Finite(0))
      && (Get(row, "price").Some? && Get(row, "price").value != "" ==> it.price == ToNumber(Get(row, "price").value))
      && (Get(row, "category") == None ==> it.category == "")
      && NoCapitals(it.category)
      && (Get(row, "stockAvailability") == None || Get(row, "stockAvailability") == Some("") ==> it.stockAvailability == "in")
      && NoCapitals(it.stockAvailability)
  {
    PriceDefault(row);
    LowerNoCapitals(OrElse(Get(row, "category"), ""));
    LowerNoCapitals(OrElse(Get(row, "stockAvailability"), "in"));
    assert Lower("in") == "in";
  }

  predicate NoCapitals(s: string) {
    forall c :: c in s ==> !('A' <= c <= 'Z')
  }

  /** Lower-cased text holds no capital letter. */
  lemma LowerNoCapitals(s: string)
    ensures NoCapitals(Lower(s))
  {
    forall c | c in Lower(s)
      ensures !('A' <= c <= 'Z')
    {
      var i :| 0 <= i < |s| && Lower(s)[i] == c;
    }
  }

  /** A missing or empty price reads as 0; any other text is read as a number. */
  lemma PriceDefault(row: map<string, string>)
    ensures Get(row, "price") == None || Get(row, "price") == Some("") ==> PriceField(row) == Finite(0)
    ensures Get(row, "price").Some? && Get(row, "price").value != "" ==> PriceField(row) == ToNumber(Get(row, "price").value)
  {
    var zero := "0";
    assert AllDigits(zero) && DigitsValue(zero) == 0 by {
      assert zero[..0] == [];
    }
    NumberOfDigits(zero);
  }

  /** `(searchParams.get("meal") || "lunch").toLowerCase()` */
  function MealParam(param: Option<string>): string {
    Lower(OrElse(param, "lunch"))
  }

  predicate ForMeal(meal: string, it: MenuItem) {
    it.category == meal && it.isActive
  }

  /** The normalised items of a menu, each row with the random id drawn for its position. */
  function NormalizedRows(rows: seq<map<string, string>>, randomId: nat -> string): seq<MenuItem> {
    seq(|rows|, k requires 0 <= k < |rows| => NormalizeRow(rows[k], randomId(k)))
  }

  /**
   * The menu load: a failed fetch (`reply` None) leaves no items; otherwise the sheet is parsed
   * and the active items of the meal are kept, in sheet order.
   */
  method LoadMenu(reply: Option<string>, meal: string, randomId: nat -> string) returns (items: seq<MenuItem>)
    ensures reply.None? ==> items == []
    ensures reply.Some? ==> items == Filter(NormalizedRows(CsvParser.Rows(reply.value), randomId), it => ForMeal(meal, it))
    ensures forall it :: it in items ==> it.category == meal && it.isActive
  {
    match reply {
      case None =>
        items := [];
      case Some(txt) =>
        var rows := CsvParser.ParseCSV(txt);
        items := Filter(NormalizedRows(rows, randomId), it => ForMeal(meal, it));
    }
  }

  // ---------------------------------------------------------------- items of a day

  /** Separators of the day list: white space, ",", ";" and "|". */
  predicate DaySeparator(c: char) {
    c == ',' || c == ';' || c == '|' || IsSpace(c)
  }

  /** `day.split(/[\s,;|]+/)`, up to empty pieces (which never match a weekday). */
  function DayTokens(day: string): seq<string> {
    var marked := seq(|day|, i requires 0 <= i < |day| => if DaySeparator(day[i]) then ',' else day[i]);
    SplitOn(marked, ',')
  }

  /** A token's key: trimmed, blanks removed, the first three characters in lower case. */
  function TokenKey(t: string): string {
    Lower(Prefix(KeepChars(Trim(t), NotBlank), 3))
  }

  /** Whether an item is served on the weekday with short name `wk`. */
  predicate ServedOn(it: MenuItem, wk: string) {
    it.day != "" && exists t | t in DayTokens(it.day) :: TokenKey(t) == wk
  }

  /** A day list written as names joined by "," is served exactly on those names' first three letters. */
  lemma ServedOnList(it: MenuItem, names: seq<string>, wk: string)
    requires |names| >= 1 && names[0] != ""
    requires forall nm :: nm in names ==> forall c :: c in nm ==> !DaySeparator(c) && !Blank(c)
    requires it.day == Join(names, ",")
    ensures ServedOn(it, wk) <==> exists nm | nm in names :: Lower(Prefix(nm, 3)) == wk
  {
    JoinNonEmpty(names);
    TokensOfList(names);
    TokenKeysOfNames(names);
    if ServedOn(it, wk) {
      var t :| t in DayTokens(it.day) && TokenKey(t) == wk;
      assert t in names;
    }
    if exists nm | nm in names :: Lower(Prefix(nm, 3)) == wk {
      var nm :| nm in names && Lower(Prefix(nm, 3)) == wk;
      assert nm in DayTokens(it.day) && TokenKey(nm) == wk;
    }
  }

  /** A name without blanks keys on its first three letters. */
  lemma TokenKeysOfNames(names: seq<string>)
    requires forall nm :: nm in names ==> forall c :: c in nm ==> !DaySeparator(c) && !Blank(c)
    ensures forall nm :: nm in names ==> TokenKey(nm) == Lower(Prefix(nm, 3))
  {
    forall nm | nm in names
      ensures TokenKey(nm) == Lower(Prefix(nm, 3))
    {
      TokenKeyOfName(nm);
    }
  }

  lemma TokenKeyOfName(nm: string)
    requires forall c :: c in nm ==> !Blank(c)
    ensures TokenKey(nm) == Lower(Prefix(nm, 3))
  {
    forall c | c in nm
      ensures NotBlank(c) && !IsSpace(c)
    {
    }
    TrimNoSpace(nm);
    KeepAll(nm, NotBlank);
    assert KeepChars(Trim(nm), NotBlank) == nm;
  }

  /** The tokens of a comma-joined list of separator-free names are those names. */
  lemma TokensOfList(names: seq<string>)
    requires |names| >= 1
    requires forall nm :: nm in names ==> forall c :: c in nm ==> !DaySeparator(c) && !Blank(c)
    ensures DayTokens(Join(names, ",")) == names
  {
    JoinKeepsMarks(names);
    SplitJoin(names, ',');
  }

  lemma JoinNonEmpty(names: seq<string>)
    requires |names| >= 1 && names[0] != ""
    ensures Join(names, ",") != ""
  {
    if |names| > 1 {
      assert Join(names, ",") == names[0] + "," + Join(names[1..], ",");
      assert |Join(names, ",")| >= |names[0]|;
    }
  }

  /** Marking separators leaves a comma-joined list of separator-free names as it is. */
  lemma {:induction false} JoinKeepsMarks(names: seq<string>)
    requires forall nm :: nm in names ==> forall c :: c in nm ==> !DaySeparator(c) && !Blank(c)
    ensures var day := Join(names, ",");
      seq(|day|, i requires 0 <= i < |day| => if DaySeparator(day[i]) then ',' else day[i]) == day
  {
    var day := Join(names, ",");
    forall i | 0 <= i < |day|
      ensures DaySeparator(day[i]) ==> day[i] == ','
    {
      JoinChars(names, i);
    }
  }

  lemma {:induction false} JoinChars(names: seq<string>, i: nat)
    requires forall nm :: nm in names ==> forall c :: c in nm ==> !DaySeparator(c) && !Blank(c)
    requires i < |Join(names, ",")|
    ensures Join(names, ",")[i] == ',' || !DaySeparator(Join(names, ",")[i])
    decreases |names|
  {
    if |names| == 1 {
      assert Join(names, ",") == names[0];
      assert names[0] in names && names[0][i] in names[0];
    } else {
      var rest := Join(names[1..], ",");
      assert Join(names, ",") == names[0] + "," + rest;
      if i < |names[0]| {
        assert Join(names, ",")[i] == names[0][i];
        assert names[0] in names && names[0][i] in names[0];
      } else if i > |names[0]| {
        assert forall nm :: nm in names[1..] ==> nm in names;
        JoinChars(names[1..], i - |names[0]| - 1);
      }
    }
  }

  /** One day of the page: the day, its short weekday name and the items served on it. */
  datatype DayMenu = DayMenu(day: int, wk: string, items: seq<MenuItem>)

  /** A day with the items served on it; the short name is the English `weekday: "short"` name. */
  function DayWithItems(day: int, items: seq<MenuItem>): (r: DayMenu)
    ensures r.day == day && r.wk == WeekdayName(day)
    ensures forall it :: it in r.items <==> it in items && ServedOn(it, WeekdayName(day))
  {
    DayMenu(day, WeekdayName(day), Filter(items, it => ServedOn(it, WeekdayName(day))))
  }

  /** The days of the page before the empty ones are dropped. */
  function AllDays(days: seq<int>, items: seq<MenuItem>): (r: seq<DayMenu>)
    ensures |r| == |days| && forall i :: 0 <= i < |days| ==> r[i] == DayWithItems(days[i], items)
  {
    seq(|days|, i requires 0 <= i < |days| => DayWithItems(days[i], items))
  }

  /** `daysWithItems`: the shown days in order, each with its items, dropping days without items. */
  function DaysWithItems(days: seq<int>, items: seq<MenuItem>): seq<DayMenu> {
    Filter(AllDays(days, items), (e: DayMenu) => e.items != [])
  }

  /**
   * Every day listed has items and is one of the shown days with exactly its items; every shown
   * day on which some item is served is listed.
   */
  lemma DaysWithItemsExactly(days: seq<int>, items: seq<MenuItem>)
    ensures forall e :: e in DaysWithItems(days, items) ==> e.items != [] && e.day in days && e == DayWithItems(e.day, items)
    ensures forall d :: d in days && (exists it :: it in items && ServedOn(it, WeekdayName(d))) ==> DayWithItems(d, items) in DaysWithItems(days, items)
  {
    forall d | d in days && (exists it :: it in items && ServedOn(it, WeekdayName(d)))
      ensures DayWithItems(d, items) in DaysWithItems(days, items)
    {
      DayListed(days, items, d);
    }
    forall e | e in DaysWithItems(days, items)
      ensures e.items != [] && e.day in days && e == DayWithItems(e.day, items)
    {
      ListedDay(days, items, e);
    }
  }

  lemma DayListed(days: seq<int>, items: seq<MenuItem>, d: int)
    requires d in days && exists it :: it in items && ServedOn(it, WeekdayName(d))
    ensures DayWithItems(d, items) in DaysWithItems(days, items)
  {
    var it :| it in items && ServedOn(it, WeekdayName(d));
    assert it in DayWithItems(d, items).items;
    var i :| 0 <= i < |days| && days[i] == d;
    assert AllDays(days, items)[i] == DayWithItems(d, items);
  }

  lemma ListedDay(days: seq<int>, items: seq<MenuItem>, e: DayMenu)
    requires e in DaysWithItems(days, items)
    ensures e.items != [] && e.day in days && e == DayWithItems(e.day, items)
  {
    var all := AllDays(days, items);
    assert e in all;
    var i :| 0 <= i < |all| && all[i] == e;
    assert days[i] == e.day;
  }

  // ---------------------------------------------------------------- cut-off

  /** Orders close 14 hours before the delivery hour. */
  const CLOSE_LEAD_MS: int := 14 * HOUR_MS

  /** The delivery hour of a category that has a cut-off: 11:00 for lunch, 16:00 for snacks. */
  function DeliveryHour(category: string): Option<int> {
    if category == "lunch" then Some(11) else if category == "snacks" then Some(16) else None
  }

  /** What a card shows. */
  datatype CardState = CardState(isClosed: bool, countdownText: string, isOutOfStock: bool, isBlocked: bool)

  /** `hoursLeftToClose`, in milliseconds. */
  function MsLeftToClose(day: int, hour: int, now: int): int {
    DayStart(day) + hour * HOUR_MS - now - CLOSE_LEAD_MS
  }

  /** The state of an item's card on a day at instant `now`. */
  function Card(it: MenuItem, day: int, now: int): CardState {
    var (closed, text) :=
      match DeliveryHour(it.category)
      case None => (false, "")
      case Some(h) =>
        var left := MsLeftToClose(day, h, now);
        match FormatCountdown(left)
        case None => (true, "Order Closed")
        case Some(c) => (false, "Order Ends in " + CountdownText(c));
    var out := it.stockAvailability == "out";
    CardState(closed, text, out, closed || out)
  }

  /**
   * The cut-off: a lunch item for a day closes at 21:00 the evening before, a snacks item at
   * 02:00 that day, and an item of any other category never closes.
   */
  lemma ClosedExactly(it: MenuItem, day: int, now: int)
    ensures Card(it, day, now).isClosed <==>
      (it.category == "lunch" && now >= DayStart(day) - 3 * HOUR_MS) ||
      (it.category == "snacks" && now >= DayStart(day) + 2 * HOUR_MS)
    ensures Card(it, day, now).isBlocked <==> Card(it, day, now).isClosed || it.stockAvailability == "out"
  {
  }

  /** At exactly fourteen hours before delivery the card is closed; one millisecond earlier it is open. */
  lemma CutoffBoundary(it: MenuItem, day: int, h: int)
    requires DeliveryHour(it.category) == Some(h)
    ensures Card(it, day, DayStart(day) + h * HOUR_MS - CLOSE_LEAD_MS).isClosed
    ensures !Card(it, day, DayStart(day) + h * HOUR_MS - CLOSE_LEAD_MS - 1).isClosed
  {
  }

  /** Once closed, a card stays closed. */
  lemma ClosedStaysClosed(it: MenuItem, day: int, now: int, later: int)
    requires now <= later && Card(it, day, now).isClosed
    ensures Card(it, day, later).isClosed
  {
    ClosedExactly(it, day, now);
    ClosedExactly(it, day, later);
  }

  /** An open card with a cut-off counts down the whole minutes left until it closes. */
  lemma CountdownUntilClose(it: MenuItem, day: int, now: int, h: int)
    requires DeliveryHour(it.category) == Some(h) && !Card(it, day, now).isClosed
    ensures var c := FormatCountdown(MsLeftToClose(day, h, now));
      c.Some? && Card(it, day, now).countdownText == "Order Ends in " + CountdownText(c.value)
      && c.value.hours * 60 + c.value.minutes == (DayStart(day) + h * HOUR_MS - CLOSE_LEAD_MS - now) / MINUTE_MS
  {
  }

  // ---------------------------------------------------------------- add to cart

  /** The line the add button passes to `addToCart` (the cart itself sets the quantity). */
  function ItemLine(it: MenuItem, day: int, now: int, dayLabel: string): CartLine {
    CartLine(it.id, it.name, it.price, it.imageUrl, it.category, day, !Card(it, day, now).isClosed, dayLabel, 1)
  }

  /**
   * The add button: a blocked card adds nothing; otherwise the item goes into the cart for that
   * day.  `dayLabel` is the locale's long weekday name of the day.
   */
  method AddClick(cart: Cart, it: MenuItem, day: int, now: int, dayLabel: string)
    modifies cart
    ensures Card(it, day, now).isBlocked ==> cart.lines == old(cart.lines)
    ensures !Card(it, day, now).isBlocked ==> cart.lines == Added(old(cart.lines), ItemLine(it, day, now, dayLabel))
    ensures CartInvariant(old(cart.lines)) ==> CartInvariant(cart.lines)
  {
    if Card(it, day, now).isBlocked {
      return;
    }
    cart.AddToCart(ItemLine(it, day, now, dayLabel));
  }

  /** Only open items reach the cart, so every line the button adds is marked deliverable. */
  lemma AddedLineDeliverable(it: MenuItem, day: int, now: int, dayLabel: string)
    requires !Card(it, day, now).isBlocked
    ensures ItemLine(it, day, now, dayLabel).deliveryAvailable
    ensures ItemLine(it, day, now, dayLabel).deliveryDate == day
  {
  }

  /**
   * The cart knows items by id alone: adding a dish for a second day only bumps the quantity of
   * the line already there, which keeps its first delivery date.
   */
  lemma SecondDayMergesIntoFirst(cart: seq<CartLine>, it: MenuItem, day: int, now: int, dayLabel: string, k: nat)
    requires CartInvariant(cart) && k < |cart| && cart[k].id == it.id && cart[k].deliveryDate != day
    ensures |Added(cart, ItemLine(it, day, now, dayLabel))| == |cart|
    ensures Added(cart, ItemLine(it, day, now, dayLabel))[k].deliveryDate == cart[k].deliveryDate != day
    ensures Added(cart, ItemLine(it, day, now, dayLabel))[k].qty == cart[k].qty + 1
  {
    AddPresentId(cart, ItemLine(it, day, now, dayLabel), k);
  }
}
