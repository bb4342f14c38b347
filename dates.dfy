/**
 * src/utils/date.js: weekday names, the next date for a weekday, the next N dates, and the
 * 24-hour lead-time check for a delivery slot.  A calendar day is an integer (day 0 is
 * 1970-01-01, a Thursday) and an instant is an integer number of milliseconds; local
 * midnight of day `d` is `d * DAY_MS`.
 */
module Dates {
  import opened JsText
  import opened Wrappers

  const WEEKDAYS: seq<string> := ["sun", "mon", "tue", "wed", "thu", "fri", "sat"]

  const MINUTE_MS: int := 60 * 1000
  const HOUR_MS: int := 60 * MINUTE_MS
  const DAY_MS: int := 24 * HOUR_MS

  /** `getDay()`: 0 for Sunday up to 6 for Saturday. */
  function WeekdayIndex(day: int): (w: nat)
    ensures w < 7
  {
    (day + 4) % 7
  }

  /** `weekdayNameFromDate` */
  function WeekdayName(day: int): (r: string)
    ensures r in WEEKDAYS
  {
    WEEKDAYS[WeekdayIndex(day)]
  }

  /** The name's position in the list of weekdays is the day's `getDay()`. */
  lemma WeekdayNamePosition(day: int)
    ensures IndexOf(WEEKDAYS, WeekdayName(day)) == WeekdayIndex(day)
  {
    var i := WeekdayIndex(day);
    forall j | 0 <= j < 7 && j != i
      ensures WEEKDAYS[j] != WEEKDAYS[i]
    {
      WeekdaysDistinct(j, i);
    }
  }

  /** Moving `j` days forward moves the weekday `j` places round the week. */
  lemma ShiftWeekday(day: int, j: int)
    ensures WeekdayIndex(day + j) == (WeekdayIndex(day) + j) % 7
  {
    var a := day + 4;
    assert a == 7 * (a / 7) + a % 7;
    assert a + j == 7 * (a / 7) + (a % 7 + j);
  }

  /** Days a whole number of weeks apart have the same name. */
  lemma WeekdayNameWeekly(day: int, k: int)
    ensures WeekdayName(day + 7 * k) == WeekdayName(day)
  {
    ShiftWeekday(day, 7 * k);
    assert (WeekdayIndex(day) + 7 * k) % 7 == WeekdayIndex(day);
  }

  /** Local midnight of a day. */
  function DayStart(day: int): int {
    day * DAY_MS
  }

  // ---------------------------------------------------------------- nextDateForWeekday

  /** `xs.indexOf(x)` */
  function IndexOf(xs: seq<string>, x: string): (i: int)
    ensures -1 <= i < |xs|
    ensures i == -1 <==> x !in xs
    ensures 0 <= i ==> xs[i] == x && forall j :: 0 <= j < i ==> xs[j] != x
  {
    if xs == [] then -1
    else if xs[0] == x then 0
    else
      var i := IndexOf(xs[1..], x);
      if i == -1 then -1 else i + 1
  }

  /** The three-letter key a weekday name is looked up by: lower case, first three characters. */
  function WeekdayKey(name: string): string {
    Prefix(Lower(name), 3)
  }

  /**
   * `nextDateForWeekday(name, start)`: None for a name that is no weekday; otherwise the
   * first day strictly after `start` (one to seven days later) that falls on that weekday.
   */
  function NextDateForWeekday(weekdayName: string, start: int): (r: Option<int>)
    ensures r.None? <==> WeekdayKey(weekdayName) !in WEEKDAYS
    ensures r.Some? ==> start < r.value <= start + 7
    ensures r.Some? ==> WeekdayName(r.value) == WeekdayKey(weekdayName)
    ensures r.Some? ==> forall d :: start < d < r.value ==> WeekdayName(d) != WeekdayKey(weekdayName)
  {
    var key := WeekdayKey(weekdayName);
    var target := IndexOf(WEEKDAYS, key);
    if target == -1 then None else Some(StepFrom(start, target, key))
  }

  /** `start` advanced by `(target - start.getDay() + 7) % 7` days, or by 7 when that is 0. */
  function StepFrom(start: int, target: nat, key: string): (r: int)
    requires target < 7 && WEEKDAYS[target] == key
    ensures start < r <= start + 7 && WeekdayName(r) == key
    ensures forall d :: start < d < r ==> WeekdayName(d) != key
  {
    var diff := (target - WeekdayIndex(start) + 7) % 7;
    var step := if diff == 0 then 7 else diff;
    StepReachesWeekday(start, target, step, key);
    start + step
  }

  /** The step `nextDateForWeekday` takes lands on the target weekday and skips no earlier one. */
  lemma StepReachesWeekday(start: int, target: nat, step: int, key: string)
    requires target < 7 && WEEKDAYS[target] == key
    requires step == if (target - WeekdayIndex(start) + 7) % 7 == 0 then 7 else (target - WeekdayIndex(start) + 7) % 7
    ensures 1 <= step <= 7
    ensures WeekdayName(start + step) == key
    ensures forall d :: start < d < start + step ==> WeekdayName(d) != key
  {
    ShiftWeekday(start, step);
    forall d | start < d < start + step
      ensures WeekdayName(d) != key
    {
      ShiftWeekday(start, d - start);
      WeekdaysDistinct(WeekdayIndex(d), target);
    }
  }

  lemma WeekdaysDistinct(i: nat, j: nat)
    requires i < 7 && j < 7 && i != j
    ensures WEEKDAYS[i] != WEEKDAYS[j]
  {
  }

  // ---------------------------------------------------------------- upcomingDates

  /** One entry of `upcomingDates`: the day (its ISO date) and its weekday name. */
  datatype DayEntry = DayEntry(iso: int, weekday: string)

  /** `upcomingDates(n)`: the n days after `today`, each with its weekday name. */
  method UpcomingDates(today: int, n: nat) returns (arr: seq<DayEntry>)
    ensures |arr| == n
    ensures forall i :: 0 <= i < n ==> arr[i].iso == today + i + 1 && arr[i].weekday == WEEKDAYS[WeekdayIndex(today + i + 1)]
  {
    arr := [];
    var i := 1;
    while i <= n
      invariant 1 <= i <= n + 1
      invariant |arr| == i - 1
      invariant forall k :: 0 <= k < i - 1 ==> arr[k] == DayEntry(today + k + 1, WeekdayName(today + k + 1))
    {
      var d := today + i;
      arr := arr + [DayEntry(d, WeekdayName(d))];
      i := i + 1;
    }
  }

  // ---------------------------------------------------------------- times of day

  /** `makeDateTimeFromISO(dateISO, "HH:MM")`: midnight, moved to HH:MM when the hour is a number. */
  function MakeDateTimeFromISO(day: int, timeStr: string): (r: int)
    ensures ToNumber(SplitOn(timeStr, ':')[0]).NaN? ==> r == DayStart(day)
    ensures var parts := SplitOn(timeStr, ':');
      ToNumber(parts[0]).Finite? && (|parts| == 1 || ToNumber(parts[1]).NaN?) ==>
        r == DayStart(day) + ToNumber(parts[0]).n * HOUR_MS
  {
    var parts := SplitOn(timeStr, ':');
    var mm := if |parts| > 1 then ToNumber(parts[1]) else NaN;
    match ToNumber(parts[0])
    case NaN => DayStart(day)
    case Finite(h) => DayStart(day) + h * HOUR_MS + (if mm.NaN? then 0 else mm.n) * MINUTE_MS
  }

  /** Which half of the day a time string names. */
  datatype Meridiem = PM | AM | NoMeridiem

  function MeridiemOf(t: string): Meridiem {
    var l := Lower(t);
    if IsInfix("pm", l) then PM else if IsInfix("am", l) then AM else NoMeridiem
  }

  /** Characters the regular expression `/[apm\s\.]/ig` removes. */
  predicate Stripped(c: char) {
    c in "apmAPM." || IsSpace(c)
  }

  /** `Number(x) || 0` */
  function OrZero(x: Num): int {
    if x.NaN? then 0 else x.n
  }

  /** The hour and minute the text gives before the 12-hour adjustment ("6:00" gives 6 and 0). */
  function RawClock(t: string): (r: (int, int))
    ensures ToNumber(CleanParts(t)[0]).NaN? ==> r.0 == 0
    ensures ToNumber(CleanParts(t)[0]).Finite? ==> r.0 == ToNumber(CleanParts(t)[0]).n
    ensures |CleanParts(t)| == 1 || ToNumber(CleanParts(t)[1]).NaN? ==> r.1 == 0
    ensures |CleanParts(t)| > 1 && ToNumber(CleanParts(t)[1]).Finite? ==> r.1 == ToNumber(CleanParts(t)[1]).n
  {
    var parts := CleanParts(t);
    (OrZero(ToNumber(parts[0])), if |parts| > 1 then OrZero(ToNumber(parts[1])) else 0)
  }

  /** The text without letters a, p, m, dots and white space, split at ":". */
  function CleanParts(t: string): seq<string> {
    SplitOn(Trim(KeepChars(Trim(t), c => !Stripped(c))), ':')
  }

  /** The 24-hour hour: "pm" before 12 adds 12, "am" at 12 becomes 0, anything else stays. */
  function Hour24(m: Meridiem, hh: int): int {
    if m == PM && hh < 12 then hh + 12
    else if m == AM && hh == 12 then 0
    else hh
  }

  /** The hour and minute `normalizeTimeStringTo24` writes. */
  function Clock24(t: string): (int, int) {
    var (hh, mm) := RawClock(t);
    (Hour24(MeridiemOf(Trim(t)), hh), mm)
  }

  /** `normalizeTimeStringTo24`: "6:00 PM" becomes "18:00"; each part padded to two digits. */
  function NormalizeTimeStringTo24(t: string): (r: string)
    ensures SplitOn(r, ':') == [PadStart2(IntToString(Clock24(t).0)), PadStart2(IntToString(Clock24(t).1))]
  {
    var (hh, mm) := Clock24(t);
    ClockTextSplits(hh, mm);
    ClockText(hh, mm)
  }

  /** `${hh}:${mm}` with each part padded to two digits. */
  function ClockText(hh: int, mm: int): string {
    PadStart2(IntToString(hh)) + ":" + PadStart2(IntToString(mm))
  }

  /** A twelve-hour time with am or pm lands in 0..23, before noon for am and from noon for pm. */
  lemma TwelveHourRange(m: Meridiem, hh: int)
    requires m != NoMeridiem && 1 <= hh <= 12
    ensures 0 <= Hour24(m, hh) < 24
    ensures m == AM ==> Hour24(m, hh) < 12
    ensures m == PM ==> Hour24(m, hh) >= 12
  {
  }

  /**
   * Round trip: the normalised text splits at its one colon into the two padded numbers, and
   * `makeDateTimeFromISO` reads back exactly the hour and minute that were written.
   */
  lemma NormalizedReadsBack(day: int, t: string)
    ensures SplitOn(NormalizeTimeStringTo24(t), ':')
         == [PadStart2(IntToString(Clock24(t).0)), PadStart2(IntToString(Clock24(t).1))]
    ensures MakeDateTimeFromISO(day, NormalizeTimeStringTo24(t))
         == DayStart(day) + Clock24(t).0 * HOUR_MS + Clock24(t).1 * MINUTE_MS
  {
    var c := Clock24(t);
    assert NormalizeTimeStringTo24(t) == ClockText(c.0, c.1);
    ClockTextReadsBack(day, c.0, c.1);
  }

  lemma ClockTextReadsBack(day: int, hh: int, mm: int)
    ensures SplitOn(ClockText(hh, mm), ':') == [PadStart2(IntToString(hh)), PadStart2(IntToString(mm))]
    ensures MakeDateTimeFromISO(day, ClockText(hh, mm)) == DayStart(day) + hh * HOUR_MS + mm * MINUTE_MS
  {
    ClockTextSplits(hh, mm);
    NumberOfPaddedInt(hh);
    NumberOfPaddedInt(mm);
    ReadClock(day, ClockText(hh, mm), hh, mm);
  }

  /** A text of two numeric parts around ":" is read as that hour and minute. */
  lemma ReadClock(day: int, s: string, hh: int, mm: int)
    requires |SplitOn(s, ':')| == 2
    requires ToNumber(SplitOn(s, ':')[0]) == Finite(hh) && ToNumber(SplitOn(s, ':')[1]) == Finite(mm)
    ensures MakeDateTimeFromISO(day, s) == DayStart(day) + hh * HOUR_MS + mm * MINUTE_MS
  {
  }

  lemma ClockTextSplits(hh: int, mm: int)
    ensures SplitOn(ClockText(hh, mm), ':') == [PadStart2(IntToString(hh)), PadStart2(IntToString(mm))]
  {
    var a, b := PadStart2(IntToString(hh)), PadStart2(IntToString(mm));
    NumberOfPaddedInt(hh);
    NumberOfPaddedInt(mm);
    assert ClockText(hh, mm) == a + [':'] + b;
    SplitPair(a, b, ':');
  }

  // ---------------------------------------------------------------- the 24-hour rule

  /** The date field of a form: empty, text that is no date, or a day. */
  datatype DateInput = NoDate | BadDate | Date(day: int)

  /** The slot's start: the text before the first "-", trimmed ("06:00 AM - 07:00 AM" gives "06:00 AM"). */
  function SlotStart(slotText: string): string {
    Trim(SplitOn(slotText, '-')[0])
  }

  /** The instant a slot starts on a day. */
  function SlotInstant(day: int, slotText: string): int {
    MakeDateTimeFromISO(day, NormalizeTimeStringTo24(SlotStart(slotText)))
  }

  /**
   * `isAtLeast24HoursFromNow(dateISO, slot)`: false without a (valid) date, otherwise whether
   * the slot starts at least 24 hours after `now`.
   */
  function IsAtLeast24HoursFromNow(date: DateInput, slotStartText: string, now: int): (ok: bool)
    ensures ok <==> date.Date? && SlotInstant(date.day, slotStartText) - now >= DAY_MS
  {
    match date
    case NoDate => false
    case BadDate => false
    case Date(d) => SlotInstant(d, slotStartText) - now >= DAY_MS
  }

  /** The slot start is midnight plus the normalised clock time, to the minute. */
  lemma SlotInstantIsClock(day: int, slotText: string)
    ensures var (hh, mm) := Clock24(SlotStart(slotText));
            SlotInstant(day, slotText) == DayStart(day) + hh * HOUR_MS + mm * MINUTE_MS
  {
    NormalizedReadsBack(day, SlotStart(slotText));
  }

  /** Only the text before the first "-" matters: the end of the slot is never read. */
  lemma OnlySlotStartMatters(date: DateInput, a: string, b: string, c: string, now: int)
    requires '-' !in a
    ensures IsAtLeast24HoursFromNow(date, a + "-" + b, now) == IsAtLeast24HoursFromNow(date, a + "-" + c, now)
  {
    SplitGlue(a, "-" + b, '-');
    SplitGlue(a, "-" + c, '-');
    assert a + "-" + b == a + ("-" + b) && a + "-" + c == a + ("-" + c);
    assert SplitOn(a + "-" + b, '-')[0] == a + "" == SplitOn(a + "-" + c, '-')[0];
  }

  /** A check that passes now passes at every earlier moment too. */
  lemma LeadTimeMonotone(date: DateInput, slot: string, now: int, earlier: int)
    requires earlier <= now && IsAtLeast24HoursFromNow(date, slot, now)
    ensures IsAtLeast24HoursFromNow(date, slot, earlier)
  {
  }
}
