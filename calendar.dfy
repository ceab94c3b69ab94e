/** Calendar arithmetic: dates as (year, month, day) triples, the (month, year)
    buckets every ledger record is filed under, and the month stepping the
    month selector performs through a JavaScript `Date`.

    `new Date(y, monthIndex, 1)` normalises an out-of-range month index into
    the neighbouring years, and treats a year argument between 0 and 99 as
    1900 + y; `setMonth` then moves by whole months from the normalised date.
    Both behaviours are written out below. */
module Calendar {

  datatype Date = Date(year: int, month: int, day: int)

  predicate IsLeapYear(y: int) {
    (y % 4 == 0 && y % 100 != 0) || y % 400 == 0
  }

  function DaysInMonth(y: int, m: int): int
    requires 1 <= m <= 12
  {
    if m == 2 then (if IsLeapYear(y) then 29 else 28)
    else if m == 4 || m == 6 || m == 9 || m == 11 then 30
    else 31
  }

  /** A calendar date, as `new Date(string)` produces once resolved. */
  predicate ValidDate(d: Date) {
    1 <= d.month <= 12 && 1 <= d.day <= DaysInMonth(d.year, d.month)
  }

  /** Chronological order on dates: by year, then month, then day. */
  predicate DateBefore(a: Date, b: Date) {
    a.year < b.year
    || (a.year == b.year && a.month < b.month)
    || (a.year == b.year && a.month == b.month && a.day < b.day)
  }

  /** A number that orders valid dates chronologically (the sort key used for
      `sort({ date: -1 })`). */
  function DateOrdinal(d: Date): int {
    (d.year * 12 + d.month - 1) * 31 + d.day - 1
  }

  /** On valid dates the ordinal orders exactly as the calendar does. */
  lemma DateOrdinalOrder(a: Date, b: Date)
    requires ValidDate(a) && ValidDate(b)
    ensures DateOrdinal(a) < DateOrdinal(b) <==> DateBefore(a, b)
    ensures DateOrdinal(a) == DateOrdinal(b) <==> a == b
  {
    var ma, mb := a.year * 12 + a.month - 1, b.year * 12 + b.month - 1;
    assert DateOrdinal(a) == ma * 31 + a.day - 1;
    assert DateOrdinal(b) == mb * 31 + b.day - 1;
    if ma < mb {
      assert (mb - ma) * 31 >= 31;
    } else if mb < ma {
      assert (ma - mb) * 31 >= 31;
    }
  }

  /** A (month, year) bucket: the `month`/`year` pair stored on every payment
      and expense. */
  datatype MonthKey = MonthKey(month: int, year: int)

  /** Months elapsed since January of year 0; the buckets in order. */
  function MonthIndex(k: MonthKey): int {
    k.year * 12 + k.month - 1
  }

  /** The bucket holding absolute month index `i`; inverse of MonthIndex. */
  function FromIndex(i: int): (k: MonthKey)
    ensures 1 <= k.month <= 12
    ensures MonthIndex(k) == i
  {
    MonthKey(i % 12 + 1, i / 12)
  }

  /** MonthIndex is one-to-one on real months, so FromIndex undoes it. */
  lemma {:induction false} FromIndexOfMonthIndex(k: MonthKey)
    requires 1 <= k.month <= 12
    ensures FromIndex(MonthIndex(k)) == k
  {
    var i := MonthIndex(k);
    var r := FromIndex(i);
    assert r.year * 12 + r.month == k.year * 12 + k.month;
  }

  /** The full year `new Date(y, ...)` uses for the year argument `y`. */
  function JsYear(y: int): int {
    if 0 <= y <= 99 then 1900 + y else y
  }

  /** The (month, year) of `new Date(y, monthIndex, 1)`. */
  function MonthStart(y: int, monthIndex: int): (k: MonthKey)
    ensures 1 <= k.month <= 12
    ensures MonthIndex(k) == JsYear(y) * 12 + monthIndex
  {
    FromIndex(JsYear(y) * 12 + monthIndex)
  }

  /** `goToPreviousMonth`: `new Date(y, m - 1, 1)` then `setMonth(getMonth() - 1)`. */
  function PreviousMonth(m: int, y: int): (k: MonthKey)
    ensures 1 <= k.month <= 12
  {
    FromIndex(MonthIndex(MonthStart(y, m - 1)) - 1)
  }

  /** `goToNextMonth`: `new Date(y, m - 1, 1)` then `setMonth(getMonth() + 1)`. */
  function NextMonth(m: int, y: int): (k: MonthKey)
    ensures 1 <= k.month <= 12
  {
    FromIndex(MonthIndex(MonthStart(y, m - 1)) + 1)
  }

  /** Years that `new Date(y, ...)` reads literally. */
  predicate LiteralYear(y: int) {
    !(0 <= y <= 99)
  }

  /** Stepping back: January goes to December of the year before, any other
      month to the month before in the same year. */
  lemma PreviousMonthCases(m: int, y: int)
    requires 1 <= m <= 12 && LiteralYear(y)
    ensures PreviousMonth(m, y) == if m == 1 then MonthKey(12, y - 1) else MonthKey(m - 1, y)
  {
    var want := if m == 1 then MonthKey(12, y - 1) else MonthKey(m - 1, y);
    assert MonthIndex(want) == y * 12 + m - 2;
    FromIndexOfMonthIndex(want);
  }

  /** Stepping forward: December goes to January of the next year, any other
      month to the month after in the same year. */
  lemma NextMonthCases(m: int, y: int)
    requires 1 <= m <= 12 && LiteralYear(y)
    ensures NextMonth(m, y) == if m == 12 then MonthKey(1, y + 1) else MonthKey(m + 1, y)
  {
    var want := if m == 12 then MonthKey(1, y + 1) else MonthKey(m + 1, y);
    assert MonthIndex(want) == y * 12 + m;
    FromIndexOfMonthIndex(want);
  }

  /** Forward undoes back and back undoes forward, as long as neither step
      passes through a year between 0 and 99, which `new Date` reads as 19xx. */
  lemma NextPreviousRoundTrip(m: int, y: int)
    requires 1 <= m <= 12 && (y < -1 || y > 100)
    ensures var p := PreviousMonth(m, y); NextMonth(p.month, p.year) == MonthKey(m, y)
    ensures var n := NextMonth(m, y); PreviousMonth(n.month, n.year) == MonthKey(m, y)
  {
    var p := PreviousMonth(m, y);
    PreviousMonthCases(m, y);
    NextMonthCases(p.month, p.year);
    var n := NextMonth(m, y);
    NextMonthCases(m, y);
    PreviousMonthCases(n.month, n.year);
  }

  /** The round trip fails at the edge of that band: stepping back from
      January 100 lands in December 99, which the constructor reads as 1999. */
  lemma RoundTripBreaksAtYear100()
    ensures PreviousMonth(1, 100) == MonthKey(12, 99)
    ensures NextMonth(12, 99) == MonthKey(1, 2000)
  {
    assert FromIndex(1200) == MonthKey(1, 100);
    assert FromIndex(1199) == MonthKey(12, 99);
    assert MonthStart(99, 11) == FromIndex(23999) == MonthKey(12, 1999);
    assert FromIndex(24000) == MonthKey(1, 2000);
  }

  /** `isCurrentMonth`: the selected month and year are today's. */
  predicate IsCurrentMonth(m: int, y: int, today: Date)
    ensures IsCurrentMonth(m, y, today) ==>
      MonthIndex(MonthKey(m, y)) == MonthIndex(MonthKey(today.month, today.year))
  {
    m == today.month && y == today.year
  }

  /** For a real month, being the current month is being today's bucket. */
  lemma IsCurrentMonthIff(m: int, y: int, today: Date)
    requires 1 <= m <= 12 && ValidDate(today)
    ensures IsCurrentMonth(m, y, today)
      <==> MonthIndex(MonthKey(m, y)) == MonthIndex(MonthKey(today.month, today.year))
  {
    if MonthIndex(MonthKey(m, y)) == MonthIndex(MonthKey(today.month, today.year)) {
      FromIndexOfMonthIndex(MonthKey(m, y));
      FromIndexOfMonthIndex(MonthKey(today.month, today.year));
    }
  }

  /** The bucket a record dated `d` is filed under (`getMonth() + 1`,
      `getFullYear()`). */
  function BucketOf(d: Date): (k: MonthKey)
    ensures ValidDate(d) ==> 1 <= k.month <= 12
    ensures MonthIndex(k) * 31 <= DateOrdinal(d) < (MonthIndex(k) + 1) * 31 || !ValidDate(d)
  {
    MonthKey(d.month, d.year)
  }
}
