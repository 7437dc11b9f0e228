/** Calendar dates as the server's `date` column and the client's `Date` arithmetic use them
    (proleptic Gregorian calendar, UTC). */
module Calendar {

  /** A calendar date; `month` runs 1..12 (one more than a JavaScript month index). */
  datatype Date = Date(year: int, month: int, day: int)

  predicate IsLeapYear(y: int) {
    y % 4 == 0 && (y % 100 != 0 || y % 400 == 0)
  }

  function DaysInMonth(y: int, m: int): (n: int)
    requires 1 <= m <= 12
    ensures 28 <= n <= 31
  {
    if m == 2 then (if IsLeapYear(y) then 29 else 28)
    else if m == 4 || m == 6 || m == 9 || m == 11 then 30
    else 31
  }

  predicate Valid(d: Date) {
    1 <= d.month <= 12 && 1 <= d.day <= DaysInMonth(d.year, d.month)
  }

  /** Chronological order, as PostgreSQL compares `date` values. */
  predicate OnOrBefore(a: Date, b: Date) {
    a.year < b.year
    || (a.year == b.year && (a.month < b.month || (a.month == b.month && a.day <= b.day)))
  }

  /** A number that grows with the date; used as a sort key. */
  function Ordinal(d: Date): int {
    d.year * 512 + d.month * 32 + d.day
  }

  lemma OrdinalOrder(a: Date, b: Date)
    requires Valid(a) && Valid(b)
    ensures OnOrBefore(a, b) <==> Ordinal(a) <= Ordinal(b)
  {
    if a.year < b.year {
      assert a.year * 512 + 512 <= b.year * 512;
    } else if b.year < a.year {
      assert b.year * 512 + 512 <= a.year * 512;
    }
  }

  /** Months counted from year 0: `year * 12 + JavaScript month index`. */
  function MonthIndex(d: Date): int {
    d.year * 12 + d.month - 1
  }

  /** `new Date(y, m0, d)` for a JavaScript month index m0 (any integer) and a day d >= 1:
      ECMAScript's MakeDay counts d - 1 days on from the first of month m0, so a day past the
      end of the month rolls over into the following month(s). */
  function MakeDate(y: int, m0: int, d: int): (r: Date)
    requires d >= 1
    ensures Valid(r)
    ensures MonthIndex(r) >= y * 12 + m0
    ensures MonthIndex(r) == y * 12 + m0 <==> d <= DaysInMonth(y + m0 / 12, m0 % 12 + 1)
    ensures MonthIndex(r) == y * 12 + m0 ==> r.day == d
    decreases d
  {
    var ym := y + m0 / 12;
    var mn := m0 % 12 + 1;
    if d <= DaysInMonth(ym, mn) then Date(ym, mn, d)
    else MakeDate(ym, mn, d - DaysInMonth(ym, mn))
  }

  /** Day of the week, 0 = Sunday .. 6 = Saturday (PostgreSQL's `EXTRACT(DOW FROM date)`),
      by Sakamoto's method. */
  function DayOfWeek(d: Date): (w: int)
    requires Valid(d)
    ensures 0 <= w < 7
  {
    var offsets := [0, 3, 2, 5, 0, 3, 5, 1, 4, 6, 2, 4];
    var y := if d.month < 3 then d.year - 1 else d.year;
    (y + y / 4 - y / 100 + y / 400 + offsets[d.month - 1] + d.day) % 7
  }

  /** Hour of the day, 0..23, of a timestamp counted in seconds since the epoch
      (PostgreSQL's `EXTRACT(HOUR FROM created_at)` in UTC). */
  function HourOfDay(timestamp: nat): (h: nat)
    ensures h < 24
  {
    (timestamp % 86400) / 3600
  }
}
