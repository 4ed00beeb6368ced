/**
 * The local-calendar helpers shared by the calendar and month views: the
 * first-of-month cursor with `new Date(y, m, 1)` month arithmetic, the
 * ISO-like date text, the proleptic Gregorian month lengths and weekdays, and
 * the month grid of blank and dated cells.
 */
module Dates {
  import opened Text

  /** The year `new Date(y, m, d)` lands in before month overflow: 0..99 are read as 1900..1999. */
  function FullYear(y: int): (r: int)
    ensures 0 <= y <= 99 ==> r == 1900 + y
    ensures !(0 <= y <= 99) ==> r == y
  {
    if 0 <= y <= 99 then 1900 + y else y
  }

  /** A first-of-month date, as `getFullYear()` and `getMonth()` (0-based) report it. */
  datatype MonthCursor = MonthCursor(year: int, month: int)

  predicate ValidCursor(c: MonthCursor) {
    0 <= c.month < 12
  }

  /** Months since January of year 0. */
  function MonthIndex(c: MonthCursor): int {
    c.year * 12 + c.month
  }

  /** `new Date(y, m, 1)`: a month outside 0..11 carries into the year. */
  function FirstOfMonth(y: int, m: int): (c: MonthCursor)
    ensures ValidCursor(c)
    ensures MonthIndex(c) == FullYear(y) * 12 + m
  {
    MonthCursor(FullYear(y) + m / 12, m % 12)
  }

  /** `addMonths(d, n)`: the first of the month n months after the cursor's. */
  function AddMonths(c: MonthCursor, n: int): (r: MonthCursor)
    ensures ValidCursor(r)
    ensures MonthIndex(r) == FullYear(c.year) * 12 + c.month + n
  {
    FirstOfMonth(c.year, c.month + n)
  }

  /** Away from the two-digit years, moving n months moves the month index by n. */
  lemma AddMonthsShift(c: MonthCursor, n: int)
    requires !(0 <= c.year <= 99)
    ensures MonthIndex(AddMonths(c, n)) == MonthIndex(c) + n
  {
  }

  /** A valid cursor is determined by its month index. */
  lemma MonthIndexInjective(a: MonthCursor, b: MonthCursor)
    requires ValidCursor(a) && ValidCursor(b)
    requires MonthIndex(a) == MonthIndex(b)
    ensures a == b
  {
  }

  /** Next month then previous month is the identity from year 100 on. */
  lemma NextThenPrev(c: MonthCursor)
    requires ValidCursor(c) && c.year >= 100
    ensures AddMonths(AddMonths(c, 1), -1) == c
  {
    var n := AddMonths(c, 1);
    AddMonthsShift(c, 1);
    assert n.year >= 100;
    AddMonthsShift(n, -1);
    MonthIndexInjective(AddMonths(n, -1), c);
  }

  /** Previous month then next month is the identity from year 101 on. */
  lemma PrevThenNext(c: MonthCursor)
    requires ValidCursor(c) && c.year >= 101
    ensures AddMonths(AddMonths(c, -1), 1) == c
  {
    var p := AddMonths(c, -1);
    AddMonthsShift(c, -1);
    assert p.year >= 100;
    AddMonthsShift(p, 1);
    MonthIndexInjective(AddMonths(p, 1), c);
  }

  /**
   * At January of year 100 the two-digit-year rule breaks the round trip: one
   * month back is December 99, and one month forward from there is read as
   * January 2000.
   */
  lemma PrevThenNextAtYear100()
    ensures AddMonths(MonthCursor(100, 0), -1) == MonthCursor(99, 11)
    ensures AddMonths(AddMonths(MonthCursor(100, 0), -1), 1) == MonthCursor(2000, 0)
  {
  }

  /* ---------- calendar arithmetic ---------- */

  predicate IsLeap(y: int) {
    y % 4 == 0 && (y % 100 != 0 || y % 400 == 0)
  }

  /** `new Date(y, m + 1, 0).getDate()`: the length of month m (0-based) of year y. */
  function DaysInMonth(y: int, m: int): (n: int)
    requires 0 <= m < 12
    ensures 28 <= n <= 31
    ensures n == 29 <==> m == 1 && IsLeap(y)
    ensures n == 28 <==> m == 1 && !IsLeap(y)
    ensures n == 30 <==> m == 3 || m == 5 || m == 8 || m == 10
    ensures n == 31 <==> m == 0 || m == 2 || m == 4 || m == 6 || m == 7 || m == 9 || m == 11
  {
    if m == 1 then (if IsLeap(y) then 29 else 28)
    else if m == 3 || m == 5 || m == 8 || m == 10 then 30
    else 31
  }

  /** Days before March 1 of year `y`, counted from March 1 of year 0. */
  function YearDays(y: int): int {
    365 * y + y / 4 - y / 100 + y / 400
  }

  /** Days from March 1 to the first of month m (0-based), in a year that starts in March. */
  function MonthOffset(m: int): int
    requires 0 <= m < 12
  {
    [306, 337, 0, 31, 61, 92, 122, 153, 184, 214, 245, 275][m]
  }

  /**
   * The number of the day y-(m+1)-d, counted from 1970-01-01, in the proleptic
   * Gregorian calendar. January and February count as the end of the
   * previous March-based year.
   */
  function DayNumber(y: int, m: int, d: int): int
    requires 0 <= m < 12
  {
    YearDays(if m < 2 then y - 1 else y) + MonthOffset(m) + d - 1 - 719468
  }

  /** `getDay()`: 0 is Sunday; 1970-01-01 was a Thursday. */
  function Weekday(y: int, m: int, d: int): (w: int)
    requires 0 <= m < 12
    ensures 0 <= w < 7
  {
    (DayNumber(y, m, d) + 4) % 7
  }

  lemma WeekdayExamples()
    ensures DayNumber(1970, 0, 1) == 0 && Weekday(1970, 0, 1) == 4
    ensures Weekday(2000, 0, 1) == 6
    ensures Weekday(2026, 9, 14) == 3
  {
  }

  /** The count of multiples of `k` up to `z` grows by one exactly at a multiple. */
  lemma DivStep(z: int, k: int)
    requires k == 4 || k == 100 || k == 400
    ensures z / k - (z - 1) / k == if z % k == 0 then 1 else 0
  {
    if k == 4 {
      assert z / 4 - (z - 1) / 4 == if z % 4 == 0 then 1 else 0;
    } else if k == 100 {
      assert z / 100 - (z - 1) / 100 == if z % 100 == 0 then 1 else 0;
    } else {
      assert z / 400 - (z - 1) / 400 == if z % 400 == 0 then 1 else 0;
    }
  }

  /** Multiples of 400 are multiples of 100, and those are multiples of 4. */
  lemma ModLinks(z: int)
    ensures z % 100 == 0 ==> z % 4 == 0
    ensures z % 400 == 0 ==> z % 100 == 0
  {
    if z % 100 == 0 {
      assert z == 100 * (z / 100);
      assert z == 4 * (25 * (z / 100));
    }
    if z % 400 == 0 {
      assert z == 400 * (z / 400);
      assert z == 100 * (4 * (z / 400));
    }
  }

  /** A year adds 366 days exactly when the next one is a leap year. */
  lemma YearDaysStep(y: int)
    ensures YearDays(y + 1) - YearDays(y) == if IsLeap(y + 1) then 366 else 365
  {
    var z := y + 1;
    DivStep(z, 4);
    DivStep(z, 100);
    DivStep(z, 400);
    ModLinks(z);
  }

  /** The first of the next month comes exactly one month length after the first of this one. */
  lemma NextMonthStart(y: int, m: int)
    requires 0 <= m < 12
    ensures var n := FirstOfMonth(y, m + 1);
            var fy := FullYear(y);
            DayNumber(n.year, n.month, 1) == DayNumber(fy, m, 1) + DaysInMonth(fy, m)
  {
    var fy := FullYear(y);
    var n := FirstOfMonth(y, m + 1);
    if m == 11 {
      assert n == MonthCursor(fy + 1, 0);
    } else {
      assert n == MonthCursor(fy, m + 1);
    }
    MonthDaysStep(fy, m);
  }

  /** The day count of the first of the following month, in the calendar's own year and month. */
  lemma MonthDaysStep(fy: int, m: int)
    requires 0 <= m < 12
    ensures m == 11 ==> DayNumber(fy + 1, 0, 1) == DayNumber(fy, m, 1) + DaysInMonth(fy, m)
    ensures m < 11 ==> DayNumber(fy, m + 1, 1) == DayNumber(fy, m, 1) + DaysInMonth(fy, m)
  {
    if m == 1 {
      YearDaysStep(fy - 1);
    }
  }

  lemma ModShift(a: int, b: int)
    ensures (a + b) % 7 == (a % 7 + b) % 7
  {
    var q := a / 7;
    assert a == 7 * q + a % 7;
    assert a + b == 7 * q + (a % 7 + b);
  }

  /** Days of one month fall on consecutive weekdays. */
  lemma WeekdayOfDay(y: int, m: int, d: int)
    requires 0 <= m < 12
    ensures Weekday(y, m, d) == (Weekday(y, m, 1) + d - 1) % 7
  {
    var n1 := DayNumber(y, m, 1) + 4;
    assert DayNumber(y, m, d) + 4 == n1 + (d - 1);
    ModShift(n1, d - 1);
  }

  /* ---------- text ---------- */

  /** `toISO` and `formatDateYMD`: year, then 1-based month and day padded to two digits. */
  function ToISO(y: int, m: int, d: int): (s: string)
    requires 0 <= m < 12 && 1 <= d <= 31
    ensures y >= 0 ==> Split(s, '-') == [IntToString(y), Pad2(m + 1), Pad2(d)]
  {
    var s := IntToString(y) + "-" + Pad2(m + 1) + "-" + Pad2(d);
    if y >= 0 then ISOParts(y, m, d); s else s
  }

  lemma ISOParts(y: int, m: int, d: int)
    requires y >= 0 && 0 <= m < 12 && 1 <= d <= 31
    ensures Split(IntToString(y) + "-" + Pad2(m + 1) + "-" + Pad2(d), '-')
            == [IntToString(y), Pad2(m + 1), Pad2(d)]
  {
    Pad2RoundTrip(m + 1);
    Pad2RoundTrip(d);
    var parts := [IntToString(y), Pad2(m + 1), Pad2(d)];
    assert parts[1..][1..] == [Pad2(d)];
    assert Join(parts[1..], '-') == Pad2(m + 1) + "-" + Pad2(d);
    assert Join(parts, '-') == IntToString(y) + "-" + Pad2(m + 1) + "-" + Pad2(d);
    SplitJoin(parts, '-');
  }

  /** `ym`: the year, a dash, and the 1-based month padded to two digits. */
  function YearMonth(c: MonthCursor): (s: string)
    requires ValidCursor(c)
    ensures c.year >= 0 ==> Split(s, '-') == [IntToString(c.year), Pad2(c.month + 1)]
  {
    var s := IntToString(c.year) + "-" + Pad2(c.month + 1);
    if c.year >= 0 then YearMonthParts(c); s else s
  }

  lemma YearMonthParts(c: MonthCursor)
    requires ValidCursor(c) && c.year >= 0
    ensures Split(IntToString(c.year) + "-" + Pad2(c.month + 1), '-')
            == [IntToString(c.year), Pad2(c.month + 1)]
  {
    Pad2RoundTrip(c.month + 1);
    var parts := [IntToString(c.year), Pad2(c.month + 1)];
    assert parts[1..] == [Pad2(c.month + 1)];
    assert Join(parts, '-') == IntToString(c.year) + "-" + Pad2(c.month + 1);
    SplitJoin(parts, '-');
  }

  /** Years from 0 on print and parse back: different cursors never share a `ym` text. */
  lemma YearMonthInjective(a: MonthCursor, b: MonthCursor)
    requires ValidCursor(a) && ValidCursor(b) && a.year >= 0 && b.year >= 0
    requires YearMonth(a) == YearMonth(b)
    ensures a == b
  {
    Pad2RoundTrip(a.month + 1);
    Pad2RoundTrip(b.month + 1);
    ParseNatToString(a.year);
    ParseNatToString(b.year);
    assert [IntToString(a.year), Pad2(a.month + 1)] == [IntToString(b.year), Pad2(b.month + 1)];
    assert IntToString(a.year) == IntToString(b.year);
    assert Pad2(a.month + 1) == Pad2(b.month + 1);
  }

  /** Dates that differ print differently (years from 0 on). */
  lemma ToISOInjective(y1: int, m1: int, d1: int, y2: int, m2: int, d2: int)
    requires 0 <= m1 < 12 && 1 <= d1 <= 31 && y1 >= 0
    requires 0 <= m2 < 12 && 1 <= d2 <= 31 && y2 >= 0
    requires ToISO(y1, m1, d1) == ToISO(y2, m2, d2)
    ensures y1 == y2 && m1 == m2 && d1 == d2
  {
    Pad2RoundTrip(m1 + 1);
    Pad2RoundTrip(m2 + 1);
    Pad2RoundTrip(d1);
    Pad2RoundTrip(d2);
    ParseNatToString(y1);
    ParseNatToString(y2);
    var p1 := [IntToString(y1), Pad2(m1 + 1), Pad2(d1)];
    var p2 := [IntToString(y2), Pad2(m2 + 1), Pad2(d2)];
    assert p1 == p2;
    assert p1[0] == p2[0] && p1[1] == p2[1] && p1[2] == p2[2];
  }

  /* ---------- the month grid ---------- */

  /** A grid cell: padding `{}`, or a day with its `toISO` text. */
  datatype Cell = Blank | Dated(iso: string, day: int)

  /** `first.getDay()`: the weekday of the first of the cursor's month. */
  function LeadingBlanks(c: MonthCursor): (n: int)
    requires ValidCursor(c)
    ensures 0 <= n < 7
  {
    Weekday(FullYear(c.year), c.month, 1)
  }

  /** `new Date(year, month + 1, 0).getDate()`. */
  function MonthLength(c: MonthCursor): (n: int)
    requires ValidCursor(c)
    ensures 28 <= n <= 31
  {
    DaysInMonth(FullYear(c.year), c.month)
  }

  /**
   * `cells`: leading blanks up to the first's weekday, one dated cell per day
   * of the month in order, then blanks to complete the last week.
   */
  method Cells(c: MonthCursor) returns (cells: seq<Cell>)
    requires ValidCursor(c)
    ensures |cells| % 7 == 0
    ensures LeadingBlanks(c) + MonthLength(c) <= |cells| < LeadingBlanks(c) + MonthLength(c) + 7
    ensures forall i :: 0 <= i < LeadingBlanks(c) ==> cells[i] == Blank
    ensures forall d :: 1 <= d <= MonthLength(c) ==>
              cells[LeadingBlanks(c) + d - 1] == Dated(ToISO(FullYear(c.year), c.month, d), d)
    ensures forall i :: LeadingBlanks(c) + MonthLength(c) <= i < |cells| ==> cells[i] == Blank
  {
    var first := LeadingBlanks(c);
    var days := MonthLength(c);
    var fy := FullYear(c.year);
    cells := [];
    for i := 0 to first
      invariant cells == seq(i, _ => Blank)
    {
      cells := cells + [Blank];
    }
    var run := DatedRun(fy, c.month, days);
    cells := PadToWeek(cells + run);
  }

  /** The month's days, one dated cell each, in order. */
  method DatedRun(fy: int, month: int, days: nat) returns (run: seq<Cell>)
    requires 0 <= month < 12 && days <= 31
    ensures |run| == days
    ensures forall d :: 1 <= d <= days ==> run[d - 1] == Dated(ToISO(fy, month, d), d)
  {
    run := [];
    for d := 1 to days + 1
      invariant |run| == d - 1
      invariant forall e :: 1 <= e < d ==> run[e - 1] == Dated(ToISO(fy, month, e), e)
    {
      var cell := Dated(ToISO(fy, month, d), d);
      run := run + [cell];
      assert run[d - 1] == cell;
    }
  }

  /** `(7 - n % 7) % 7` blanks complete the last week, and fewer do not. */
  lemma PadFacts(n: nat)
    ensures (7 - n % 7) % 7 < 7 && (n + (7 - n % 7) % 7) % 7 == 0
  {
    var q := n / 7;
    assert n == 7 * q + n % 7;
    if n % 7 != 0 {
      assert n + (7 - n % 7) % 7 == 7 * (q + 1);
    }
  }

  /** `while (arr.length % 7 !== 0) arr.push({})`. */
  method PadToWeek(cells: seq<Cell>) returns (r: seq<Cell>)
    ensures |r| % 7 == 0 && |cells| <= |r| < |cells| + 7
    ensures forall i :: 0 <= i < |cells| ==> r[i] == cells[i]
    ensures forall i :: |cells| <= i < |r| ==> r[i] == Blank
  {
    ghost var pad := (7 - |cells| % 7) % 7;
    PadFacts(|cells|);
    r := cells;
    while |r| % 7 != 0
      invariant |cells| <= |r| <= |cells| + pad
      invariant forall i :: 0 <= i < |cells| ==> r[i] == cells[i]
      invariant forall i :: |cells| <= i < |r| ==> r[i] == Blank
      decreases |cells| + pad - |r|
    {
      r := r + [Blank];
    }
  }

  /** In the grid, day d sits in the column of its own weekday. */
  lemma GridColumnIsWeekday(c: MonthCursor, d: int)
    requires ValidCursor(c) && 1 <= d <= MonthLength(c)
    ensures (LeadingBlanks(c) + d - 1) % 7 == Weekday(FullYear(c.year), c.month, d)
  {
    WeekdayOfDay(FullYear(c.year), c.month, d);
  }
}
