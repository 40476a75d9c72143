/**
 * Calendar arithmetic the screens perform with `java.util.Calendar`, on
 * (year, month, day) triples of the proleptic Gregorian calendar, and the
 * "yyyy-MM" month text that `SimpleDateFormat` prints and reads.
 */
module Dates {
  import opened Options
  import opened Text

  /** A calendar day; `month` runs 1..12 (Calendar.MONTH is this minus one). */
  datatype Date = Date(year: int, month: int, day: int)

  predicate IsLeapYear(y: int) {
    y % 4 == 0 && (y % 100 != 0 || y % 400 == 0)
  }

  function DaysInMonth(y: int, m: int): (n: int)
    requires 1 <= m <= 12
    ensures 28 <= n <= 31
    ensures n == 29 <==> m == 2 && IsLeapYear(y)
  {
    if m == 2 then (if IsLeapYear(y) then 29 else 28)
    else if m == 4 || m == 6 || m == 9 || m == 11 then 30
    else 31
  }

  predicate ValidDate(d: Date) {
    1 <= d.month <= 12 && 1 <= d.day <= DaysInMonth(d.year, d.month)
  }

  /** Months counted from January of year 0: the order Calendar.add(MONTH, _) moves along. */
  function MonthIndex(year: int, month: int): int {
    year * 12 + (month - 1)
  }

  /** Strict chronological order of valid days. */
  predicate Before(a: Date, b: Date) {
    MonthIndex(a.year, a.month) < MonthIndex(b.year, b.month)
    || (a.year == b.year && a.month == b.month && a.day < b.day)
  }

  function Min(a: int, b: int): int { if a <= b then a else b }

  /**
   * `Calendar.add(MONTH, n)`: moves n months along, carrying into the year,
   * and clamps the day to the length of the month it lands in.
   */
  function AddMonths(d: Date, n: int): (r: Date)
    requires ValidDate(d)
    ensures ValidDate(r)
    ensures MonthIndex(r.year, r.month) == MonthIndex(d.year, d.month) + n
    ensures r.day == Min(d.day, DaysInMonth(r.year, r.month))
  {
    var k := MonthIndex(d.year, d.month) + n;
    var y, m := k / 12, k % 12 + 1;
    Date(y, m, Min(d.day, DaysInMonth(y, m)))
  }

  /** `Calendar.add(YEAR, n)`: same month n years on; 29 February becomes the 28th in a common year. */
  function AddYears(d: Date, n: int): (r: Date)
    requires ValidDate(d)
    ensures ValidDate(r)
    ensures r.year == d.year + n && r.month == d.month
    ensures r.day == Min(d.day, DaysInMonth(r.year, r.month))
  {
    Date(d.year + n, d.month, Min(d.day, DaysInMonth(d.year + n, d.month)))
  }

  /** Adding whole years is adding twelve times as many months. */
  lemma AddYearsIsTwelveMonths(d: Date, n: int)
    requires ValidDate(d)
    ensures AddYears(d, n) == AddMonths(d, 12 * n)
  {
    var r := AddMonths(d, 12 * n);
    assert MonthIndex(r.year, r.month) == MonthIndex(d.year + n, d.month);
    MonthIndexInjective(r.year, r.month, d.year + n, d.month);
  }

  lemma MonthIndexInjective(y1: int, m1: int, y2: int, m2: int)
    requires 1 <= m1 <= 12 && 1 <= m2 <= 12
    requires MonthIndex(y1, m1) == MonthIndex(y2, m2)
    ensures y1 == y2 && m1 == m2
  {}

  /** The day after `d`, rolling over month and year ends. */
  function NextDay(d: Date): (r: Date)
    requires ValidDate(d)
    ensures ValidDate(r) && Before(d, r)
  {
    if d.day < DaysInMonth(d.year, d.month) then d.(day := d.day + 1)
    else if d.month < 12 then Date(d.year, d.month + 1, 1)
    else Date(d.year + 1, 1, 1)
  }

  /** The day before `d`, rolling back over month and year starts. */
  function PreviousDay(d: Date): (r: Date)
    requires ValidDate(d)
    ensures ValidDate(r) && Before(r, d)
  {
    if d.day > 1 then d.(day := d.day - 1)
    else if d.month > 1 then Date(d.year, d.month - 1, DaysInMonth(d.year, d.month - 1))
    else Date(d.year - 1, 12, 31)
  }

  /** Stepping a day back and a day forward are inverse to each other. */
  lemma NextPreviousInverse(d: Date)
    requires ValidDate(d)
    ensures NextDay(PreviousDay(d)) == d
    ensures PreviousDay(NextDay(d)) == d
  {}

  /** `Calendar.add(DAY_OF_MONTH, n)`: n days on (back, for negative n). */
  function AddDays(d: Date, n: int): (r: Date)
    requires ValidDate(d)
    ensures ValidDate(r)
    ensures n > 0 ==> Before(d, r)
    ensures n < 0 ==> Before(r, d)
    decreases if n < 0 then -n else n
  {
    if n == 0 then d
    else if n > 0 then NextDay(AddDays(d, n - 1))
    else PreviousDay(AddDays(d, n + 1))
  }

  /** The calendar fields `Calendar.add` can move. */
  datatype Field = Year | Month | DayOfMonth

  /** The date `Calendar.add(field, amount)` moves `d` to. */
  function Shifted(d: Date, field: Field, amount: int): (r: Date)
    requires ValidDate(d)
    ensures ValidDate(r)
  {
    match field
    case Year => AddYears(d, amount)
    case Month => AddMonths(d, amount)
    case DayOfMonth => AddDays(d, amount)
  }

  /** A `java.util.Calendar`: a mutable date whose fields `Add` moves in place. */
  class Calendar {
    var year: int
    var month: int
    var day: int

    ghost predicate Valid()
      reads this
    {
      ValidDate(Date(year, month, day))
    }

    /** `getTime()`. */
    function Time(): (d: Date)
      reads this
      ensures d.year == year && d.month == month && d.day == day
    {
      Date(year, month, day)
    }

    /** A calendar set to `d` (`cal.time = d`). */
    constructor (d: Date)
      requires ValidDate(d)
      ensures Valid() && Time() == d
    {
      year, month, day := d.year, d.month, d.day;
    }

    /** `add(field, amount)`. */
    method Add(field: Field, amount: int)
      requires Valid()
      modifies this
      ensures Valid()
      ensures Time() == Shifted(old(Time()), field, amount)
    {
      var r := Shifted(Time(), field, amount);
      year, month, day := r.year, r.month, r.day;
    }
  }

  // ------------------------------------------------------- "yyyy-MM" text

  /** The length of the run of digits `s` starts with. */
  function DigitRun(s: string): (n: nat)
    ensures n <= |s| && AllDigits(s[..n])
    ensures n < |s| ==> !IsDigit(s[n])
  {
    if s != [] && IsDigit(s[0]) then
      var n := 1 + DigitRun(s[1..]);
      assert s[..n] == [s[0]] + s[1..][..n - 1];
      n
    else 0
  }

  /**
   * `SimpleDateFormat("yyyy-MM").parse(s)`, read as a month index: a run of
   * year digits, '-', a run of month digits, the rest of the text ignored.
   * The format is lenient, so month 0 is December of the year before and
   * month 13 January of the year after. None where parsing throws.
   */
  function ParseYearMonth(s: string): (r: Option<int>)
    ensures r.Some? ==> exists k :: 0 < k < |s| && s[k] == '-'
  {
    var n := DigitRun(s);
    if n == 0 || n == |s| || s[n] != '-' then None
    else
      var rest := s[n + 1..];
      var m := DigitRun(rest);
      if m == 0 then None
      else Some(MonthIndex(DigitsValue(s[..n]), DigitsValue(rest[..m])))
  }

  /** `SimpleDateFormat("yyyy-MM").format(...)` of the month with index `k`. */
  function FormatYearMonth(k: int): (s: string)
    ensures |s| >= 7
  {
    FormatZeroPadded(k / 12, 4) + "-" + FormatZeroPadded(k % 12 + 1, 2)
  }

  /** A month index splits back into its year and month. */
  lemma MonthIndexDivMod(y: int, m: int)
    requires 1 <= m <= 12
    ensures MonthIndex(y, m) / 12 == y && MonthIndex(y, m) % 12 + 1 == m
  {
  }

  /** The "yyyy-MM" text of the month `d` lies in. */
  function MonthText(d: Date): string {
    FormatYearMonth(MonthIndex(d.year, d.month))
  }

  /** A month index of year 0 or later survives printing and parsing. */
  lemma YearMonthRoundTrip(k: int)
    requires k >= 0
    ensures ParseYearMonth(FormatYearMonth(k)) == Some(k)
  {
    var y, m := k / 12, k % 12 + 1;
    ZeroPaddedValue(y, 4);
    ZeroPaddedValue(m, 2);
    ParseDigitsDashDigits(FormatZeroPadded(y, 4), FormatZeroPadded(m, 2));
  }

  /** Digits, '-', digits parse as that year and month. */
  lemma ParseDigitsDashDigits(ys: string, ms: string)
    requires ys != [] && ms != [] && AllDigits(ys) && AllDigits(ms)
    ensures ParseYearMonth(ys + "-" + ms) == Some(MonthIndex(DigitsValue(ys), DigitsValue(ms)))
  {
    var s := ys + "-" + ms;
    assert s == ys + ("-" + ms);
    DigitRunOfDigits(ys, "-" + ms);
    assert s[..|ys|] == ys;
    assert s[|ys| + 1..] == ms;
    DigitRunOfDigits(ms, []);
    assert ms + [] == ms;
    assert ms[..|ms|] == ms;
  }

  lemma {:induction false} DigitRunOfDigits(digits: string, rest: string)
    requires AllDigits(digits)
    requires rest == [] || !IsDigit(rest[0])
    ensures DigitRun(digits + rest) == |digits|
  {
    if digits != [] {
      assert (digits + rest)[1..] == digits[1..] + rest;
      DigitRunOfDigits(digits[1..], rest);
    }
  }

  // -------------------------------------------------- "yyyy-MM-dd" text

  /**
   * The day a lenient `Calendar` lands on when its year, month and day are
   * set to (y, m, d) with out-of-range values allowed: the month carries
   * into the year, and the day counts on (or back) from the first of the month.
   */
  function LenientDate(y: int, m: int, d: int): (r: Date)
    ensures ValidDate(r)
  {
    var k := MonthIndex(y, m);
    AddDays(Date(k / 12, k % 12 + 1, 1), d - 1)
  }

  /** A leading run of digits ended by the separator: its value and the text after the separator. */
  function FieldAndRest(s: string, sep: char): Option<(nat, string)> {
    var n := DigitRun(s);
    if n == 0 || n == |s| || s[n] != sep then None
    else Some((DigitsValue(s[..n]), s[n + 1..]))
  }

  /** The value of a leading run of digits, whatever follows it. */
  function LastField(s: string): Option<nat> {
    var n := DigitRun(s);
    if n == 0 then None else Some(DigitsValue(s[..n]))
  }

  /**
   * `SimpleDateFormat("yyyy<sep>MM<sep>dd").parse(s)`: a run of year digits,
   * the separator, a run of month digits, the separator, a run of day
   * digits, the rest ignored; read leniently. None where parsing throws.
   */
  function ParseDate(s: string, sep: char): (r: Option<Date>)
    ensures r.Some? ==> ValidDate(r.value)
  {
    match FieldAndRest(s, sep)
    case None => None
    case Some((y, rest)) =>
      match FieldAndRest(rest, sep)
      case None => None
      case Some((m, tail)) =>
        match LastField(tail)
        case None => None
        case Some(d) => Some(LenientDate(y, m, d))
  }

  /** `SimpleDateFormat("yyyy<sep>MM<sep>dd").format(...)`. */
  function FormatDate(d: Date, sep: char): (s: string)
    ensures |s| >= 10
  {
    FormatZeroPadded(d.year, 4) + [sep] + FormatZeroPadded(d.month, 2) + [sep] + FormatZeroPadded(d.day, 2)
  }

  /** Counting on from the first of a month stays in that month while the days last. */
  lemma {:induction false} AddDaysWithinMonth(y: int, m: int, n: nat)
    requires 1 <= m <= 12 && n < DaysInMonth(y, m)
    ensures AddDays(Date(y, m, 1), n) == Date(y, m, n + 1)
  {
    if n > 0 {
      AddDaysWithinMonth(y, m, n - 1);
    }
  }

  /** A date set without out-of-range fields is that date. */
  lemma LenientDateOfValid(d: Date)
    requires ValidDate(d)
    ensures LenientDate(d.year, d.month, d.day) == d
  {
    var k := MonthIndex(d.year, d.month);
    assert k / 12 == d.year && k % 12 + 1 == d.month;
    AddDaysWithinMonth(d.year, d.month, d.day - 1);
  }

  /** A valid date of year 0 or later survives printing and parsing with any non-digit separator. */
  lemma DateRoundTrip(d: Date, sep: char)
    requires ValidDate(d) && d.year >= 0 && !IsDigit(sep)
    ensures ParseDate(FormatDate(d, sep), sep) == Some(d)
  {
    ZeroPaddedValue(d.year, 4);
    ZeroPaddedValue(d.month, 2);
    ZeroPaddedValue(d.day, 2);
    ParseThreeFields(FormatZeroPadded(d.year, 4), FormatZeroPadded(d.month, 2), FormatZeroPadded(d.day, 2), sep);
    LenientDateOfValid(d);
  }

  /** Three runs of digits joined by the separator parse as those fields. */
  lemma ParseThreeFields(ys: string, ms: string, ds: string, sep: char)
    requires ys != [] && ms != [] && ds != [] && AllDigits(ys) && AllDigits(ms) && AllDigits(ds)
    requires !IsDigit(sep)
    ensures ParseDate(ys + [sep] + ms + [sep] + ds, sep) ==
      Some(LenientDate(DigitsValue(ys), DigitsValue(ms), DigitsValue(ds)))
  {
    var s2 := ms + [sep] + ds;
    assert ys + [sep] + ms + [sep] + ds == ys + [sep] + s2;
    FieldThenSeparator(ys, sep, s2);
    FieldThenSeparator(ms, sep, ds);
    LastFieldOfDigits(ds);
  }

  /** A run of digits on its own is read whole. */
  lemma LastFieldOfDigits(digits: string)
    requires digits != [] && AllDigits(digits)
    ensures LastField(digits) == Some(DigitsValue(digits))
  {
    DigitRunOfDigits(digits, []);
    assert digits + [] == digits && digits[..|digits|] == digits;
  }

  /** A run of digits, the separator and any text: the run's value, then that text. */
  lemma FieldThenSeparator(digits: string, sep: char, rest: string)
    requires digits != [] && AllDigits(digits) && !IsDigit(sep)
    ensures FieldAndRest(digits + [sep] + rest, sep) == Some((DigitsValue(digits), rest))
  {
    var s := digits + [sep] + rest;
    assert s == digits + ([sep] + rest);
    DigitRunOfDigits(digits, [sep] + rest);
    assert s[..|digits|] == digits && s[|digits| + 1..] == rest;
  }
}
