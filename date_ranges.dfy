/** The date ranges the dashboard and the analytics page request (`dateRangeConfig` in
    client/src/pages/Dashboard.js and client/src/pages/Analytics.js): this month so far, a whole
    year, this quarter, and each page's fallback. Dates are calendar days in UTC. */
module DateRanges {
  import opened Calendar

  datatype Range = Range(start: Date, end: Date)

  predicate InRange(d: Date, r: Range) {
    OnOrBefore(r.start, d) && OnOrBefore(d, r.end)
  }

  /** `new Date(y, m0, 1)` for a month index within the year is the first of that month. */
  lemma FirstOfMonth(y: int, m0: int)
    requires 0 <= m0 < 12
    ensures MakeDate(y, m0, 1) == Date(y, m0 + 1, 1)
  {
    var r := MakeDate(y, m0, 1);
    assert MonthIndex(r) == y * 12 + m0;
  }

  /** `month`: from the first of the current month to today. */
  function MonthToDate(now: Date): (r: Range)
    requires Valid(now)
    ensures r.start == Date(now.year, now.month, 1) && r.end == now
  {
    FirstOfMonth(now.year, now.month - 1);
    Range(MakeDate(now.year, now.month - 1, 1), now)
  }

  /** `year`: January 1 to December 31 of the selected year. */
  function YearRange(year: int): (r: Range)
    ensures r.start == Date(year, 1, 1) && r.end == Date(year, 12, 31)
  {
    FirstOfMonth(year, 0);
    var last := MakeDate(year, 11, 31);
    assert MonthIndex(last) == year * 12 + 11;
    Range(MakeDate(year, 0, 1), last)
  }

  /** The analytics page's fallback: January 1 of the current year to today. */
  function YearToDate(now: Date): (r: Range)
    requires Valid(now)
    ensures r.start == Date(now.year, 1, 1) && r.end == now
  {
    FirstOfMonth(now.year, 0);
    Range(MakeDate(now.year, 0, 1), now)
  }

  /** `Math.floor(now.getMonth() / 3)`: 0 for January to March, ..., 3 for October to December. */
  function QuarterOf(d: Date): int {
    (d.month - 1) / 3
  }

  /** `quarter` as written: from the first of the quarter's first month to
      `new Date(y, quarter * 3 + 2, 31)`, which rolls over when the quarter's last month has 30
      days. */
  function QuarterAsWritten(now: Date): Range
    requires Valid(now)
  {
    var q := QuarterOf(now);
    Range(MakeDate(now.year, q * 3, 1), MakeDate(now.year, q * 3 + 2, 31))
  }

  /** June and September have 30 days, so the second and third quarters end on July 1 and
      October 1, the first day of the next quarter; the first and fourth end on March 31 and
      December 31. */
  lemma QuarterEndAsWritten(now: Date)
    requires Valid(now)
    ensures QuarterOf(now) == 0 ==> QuarterAsWritten(now).end == Date(now.year, 3, 31)
    ensures QuarterOf(now) == 1 ==> QuarterAsWritten(now).end == Date(now.year, 7, 1)
    ensures QuarterOf(now) == 2 ==> QuarterAsWritten(now).end == Date(now.year, 10, 1)
    ensures QuarterOf(now) == 3 ==> QuarterAsWritten(now).end == Date(now.year, 12, 31)
  {
    var y := now.year;
    var e := QuarterAsWritten(now).end;
    if QuarterOf(now) == 1 {
      assert MakeDate(y, 5, 31) == MakeDate(y, 6, 1);
      FirstOfMonth(y, 6);
    } else if QuarterOf(now) == 2 {
      assert MakeDate(y, 8, 31) == MakeDate(y, 9, 1);
      FirstOfMonth(y, 9);
    } else {
      assert MonthIndex(e) == y * 12 + QuarterOf(now) * 3 + 2;
    }
  }

  /** So a mid-year quarter's range takes in the first day of the next quarter. */
  lemma QuarterAsWrittenOverreaches(now: Date)
    requires Valid(now) && (QuarterOf(now) == 1 || QuarterOf(now) == 2)
    ensures var extra := QuarterAsWritten(now).end;
            InRange(extra, QuarterAsWritten(now)) && Valid(extra) && QuarterOf(extra) != QuarterOf(now)
  {
    QuarterEndAsWritten(now);
    FirstOfMonth(now.year, QuarterOf(now) * 3);
  }

  /** `quarter`: from the first day of the quarter's first month to the last day of its third. */
  function Quarter(now: Date): (r: Range)
    requires Valid(now)
    ensures r.start == Date(now.year, QuarterOf(now) * 3 + 1, 1)
    ensures r.end == Date(now.year, QuarterOf(now) * 3 + 3, DaysInMonth(now.year, QuarterOf(now) * 3 + 3))
  {
    var q := QuarterOf(now);
    FirstOfMonth(now.year, q * 3);
    Range(MakeDate(now.year, q * 3, 1), Date(now.year, q * 3 + 3, DaysInMonth(now.year, q * 3 + 3)))
  }

  /** The quarter's range holds exactly the valid days of the same year and quarter, today
      among them. */
  lemma QuarterCovers(now: Date, d: Date)
    requires Valid(now) && Valid(d)
    ensures InRange(d, Quarter(now)) <==> d.year == now.year && QuarterOf(d) == QuarterOf(now)
    ensures InRange(now, Quarter(now))
  {
  }

  /** The quarter as written starts on the first of its first month and ends no earlier,
      taking in today. */
  lemma QuarterAsWrittenHoldsToday(now: Date)
    requires Valid(now)
    ensures QuarterAsWritten(now).start == Date(now.year, QuarterOf(now) * 3 + 1, 1)
    ensures InRange(now, QuarterAsWritten(now))
  {
    QuarterEndAsWritten(now);
    FirstOfMonth(now.year, QuarterOf(now) * 3);
  }

  /** `dateRangeConfig` as written: `month`, `year` and `quarter`, the quarter ending on
      `new Date(y, quarter * 3 + 2, 31)`, and the page's own range for any other value. */
  function Config(kind: string, now: Date, selectedYear: int, fallback: Range): (r: Range)
    requires Valid(now)
    ensures kind == "month" ==> r == MonthToDate(now)
    ensures kind == "year" ==> r == YearRange(selectedYear)
    ensures kind == "quarter" ==> r == QuarterAsWritten(now)
    ensures kind != "month" && kind != "year" && kind != "quarter" ==> r == fallback
  {
    if kind == "month" then MonthToDate(now)
    else if kind == "year" then YearRange(selectedYear)
    else if kind == "quarter" then QuarterAsWritten(now)
    else fallback
  }

  /** `dateRangeConfig` with the quarter ending on the last day of its third month. */
  function ConfigCorrected(kind: string, now: Date, selectedYear: int, fallback: Range): (r: Range)
    requires Valid(now)
    ensures kind == "quarter" ==> r == Quarter(now)
    ensures kind != "quarter" ==> r == Config(kind, now, selectedYear, fallback)
  {
    if kind == "quarter" then Quarter(now) else Config(kind, now, selectedYear, fallback)
  }

  /** The two configurations differ exactly for a quarter in April to September, where the
      corrected one ends a day earlier. */
  lemma ConfigsDiffer(kind: string, now: Date, selectedYear: int, fallback: Range)
    requires Valid(now)
    ensures ConfigCorrected(kind, now, selectedYear, fallback) != Config(kind, now, selectedYear, fallback)
            <==> kind == "quarter" && (QuarterOf(now) == 1 || QuarterOf(now) == 2)
    ensures ConfigCorrected(kind, now, selectedYear, fallback).start == Config(kind, now, selectedYear, fallback).start
  {
    QuarterEndAsWritten(now);
    QuarterAsWrittenHoldsToday(now);
    var d := Quarter(now).end;
    if kind == "quarter" && (QuarterOf(now) == 1 || QuarterOf(now) == 2) {
      assert d.month != QuarterAsWritten(now).end.month;
    }
  }

  /** Every range but a past or future selected year ends on or after its start and contains
      today, as written and corrected. */
  lemma RangesHoldToday(kind: string, now: Date, fallback: Range)
    requires Valid(now) && InRange(now, fallback)
    ensures InRange(now, Config(kind, now, now.year, fallback))
    ensures InRange(now, ConfigCorrected(kind, now, now.year, fallback))
  {
    if kind == "year" {
      assert now.month <= 12 && now.day <= DaysInMonth(now.year, now.month) <= 31;
    } else if kind == "quarter" {
      QuarterAsWrittenHoldsToday(now);
    }
  }
}
