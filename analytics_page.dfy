/** The analytics page (client/src/pages/Analytics.js): its range, its four requests, the year
    choices, the monthly averages and the financial health score. Its summary cards are the
    dashboard's overview cards. */
module AnalyticsPage {
  import opened Wrappers
  import opened Calendar
  import opened DateRanges
  import opened Ledger
  import AnalyticsRoutes
  import DashboardPage
  import Cache

  /** The analytics page's `dateRangeConfig` as written: `month`, `year` and `quarter` as on
      the dashboard, anything else from January 1 of this year to today. */
  function AnalyticsRange(kind: string, now: Date, selectedYear: int): (r: Range)
    requires Valid(now)
    ensures kind != "month" && kind != "year" && kind != "quarter" ==> r == YearToDate(now)
    ensures OnOrBefore(r.start, r.end)
  {
    QuarterAsWrittenHoldsToday(now);
    Config(kind, now, selectedYear, YearToDate(now))
  }

  /** The same with the quarter ending on the last day of its third month. */
  function AnalyticsRangeCorrected(kind: string, now: Date, selectedYear: int): (r: Range)
    requires Valid(now)
    ensures kind == "quarter" ==> r == Quarter(now)
    ensures kind != "quarter" ==> r == AnalyticsRange(kind, now, selectedYear)
    ensures OnOrBefore(r.start, r.end)
  {
    QuarterCovers(now, now);
    ConfigCorrected(kind, now, selectedYear, YearToDate(now))
  }

  /** The two pages ask for the same range for every value their selectors offer; for any other
      value they agree only in January. */
  lemma RangesAgree(kind: string, now: Date, selectedYear: int)
    requires Valid(now)
    ensures kind == "month" || kind == "year" || kind == "quarter" ==>
              AnalyticsRange(kind, now, selectedYear) == DashboardPage.DashboardRange(kind, now, selectedYear)
    ensures kind != "month" && kind != "year" && kind != "quarter" ==>
              (AnalyticsRange(kind, now, selectedYear) == DashboardPage.DashboardRange(kind, now, selectedYear)
               <==> now.month == 1)
  {
  }

  /** `Array.from({ length: 5 }, (_, i) => currentYear - i)`. */
  function YearChoices(currentYear: int): (years: seq<int>)
    ensures |years| == 5 && years[0] == currentYear
    ensures forall i :: 0 < i < |years| ==> years[i] == years[i - 1] - 1
  {
    seq(5, i requires 0 <= i < 5 => currentYear - i)
  }

  /** The choices are exactly this year and the four before it, newest first. */
  lemma {:induction false} YearChoicesAreTheLastFive(currentYear: int)
    ensures forall y :: y in YearChoices(currentYear) <==> currentYear - 4 <= y <= currentYear
    ensures forall i, j :: 0 <= i < j < 5 ==> YearChoices(currentYear)[i] > YearChoices(currentYear)[j]
  {
    var years := YearChoices(currentYear);
    forall y | currentYear - 4 <= y <= currentYear ensures y in years {
      assert years[currentYear - y] == y;
    }
  }

  /** "Average Monthly Income" and "Average Monthly Expenses": the overview's total divided by
      12, before the currency formatting; nothing (shown as `$0`) before the overview loads. */
  function MonthlyAverage(overview: Option<AnalyticsRoutes.OverviewBody>, income: bool): (avg: Option<real>)
    ensures avg.None? <==> overview.None?
    ensures avg.Some? ==> 12.0 * avg.value == (if income then overview.value.totalIncome else overview.value.totalExpenses) as real
  {
    match overview
    case None => None
    case Some(o) => Some((if income then o.totalIncome else o.totalExpenses) as real / 12.0)
  }

  function Max(a: int, b: int): int {
    if a >= b then a else b
  }

  function Min(a: int, b: int): int {
    if a <= b then a else b
  }

  /** "Financial Health Score": `Math.max(0, Math.min(100, savingsRate + 50))`, in hundredths as
      the savings rate is; 0 before the overview loads. */
  function HealthScore(overview: Option<AnalyticsRoutes.OverviewBody>): (score: int)
    ensures 0 <= score <= 10000
  {
    match overview
    case None => 0
    case Some(o) => Max(0, Min(10000, o.savingsRate + 5000))
  }

  /** The score is the savings rate shifted by 50 points while that lands within [0, 100], and
      pinned to the nearer end otherwise; a better rate never lowers it. */
  lemma HealthScoreClamps(o: AnalyticsRoutes.OverviewBody, p: AnalyticsRoutes.OverviewBody)
    ensures -5000 <= o.savingsRate <= 5000 ==> HealthScore(Some(o)) == o.savingsRate + 5000
    ensures o.savingsRate <= -5000 ==> HealthScore(Some(o)) == 0
    ensures o.savingsRate >= 5000 ==> HealthScore(Some(o)) == 10000
    ensures o.savingsRate <= p.savingsRate ==> HealthScore(Some(o)) <= HealthScore(Some(p))
  {
  }

  /** A range where expenses do not exceed a positive income scores at least 50. */
  lemma SavingScoresHalf(o: AnalyticsRoutes.OverviewBody)
    requires o.totalIncome > 0 && 0 <= o.totalExpenses <= o.totalIncome
    requires o.savingsRate == AnalyticsRoutes.SavingsRate(o.totalIncome, o.totalExpenses)
    ensures 5000 <= HealthScore(Some(o)) <= 10000
  {
    AnalyticsRoutes.SavingsRateBounds(o.totalIncome, o.totalExpenses);
  }

  /** The cache keys of the four requests `fetchAnalyticsData` sends for `range`. */
  datatype Keys = Keys(overview: string, breakdown: string, trends: string, patterns: string)

  function RequestKeys(userId: nat, kind: string, selectedYear: int, range: Range, iso: Date -> string): Keys
  {
    var q := DashboardPage.RangeQuery(range, iso);
    Keys(DashboardPage.KeyOf(userId, Cache.Overview, q + "&period=" + kind),
         DashboardPage.KeyOf(userId, Cache.ExpensesByCategory, q),
         DashboardPage.KeyOf(userId, Cache.MonthlyTrends, "?year=" + DashboardPage.YearText(selectedYear)),
         DashboardPage.KeyOf(userId, Cache.SpendingPatterns, q))
  }

  /** What `setData` stores once all four requests have answered: each body as it arrived,
      from its handler or replayed by the cache. */
  datatype Loaded = Loaded(overview: Cache.Received<AnalyticsRoutes.OverviewBody>,
                           breakdown: Cache.Received<AnalyticsRoutes.BreakdownBody>,
                           trends: Cache.Received<AnalyticsRoutes.TrendsBody>,
                           patterns: Cache.Received<AnalyticsRoutes.PatternsBody>)

  /** `Promise.all` over the four requests: the data loads only when every one succeeded. */
  function Settle(overview: Outcome<Cache.Received<AnalyticsRoutes.OverviewBody>>,
                  breakdown: Outcome<Cache.Received<AnalyticsRoutes.BreakdownBody>>,
                  trends: Outcome<Cache.Received<AnalyticsRoutes.TrendsBody>>,
                  patterns: Outcome<Cache.Received<AnalyticsRoutes.PatternsBody>>)
    : (data: Option<Loaded>)
    ensures data.Some? <==> overview.Success? && breakdown.Success? && trends.Success? && patterns.Success?
    ensures data.Some? ==> data.value == Loaded(overview.value, breakdown.value, trends.value, patterns.value)
  {
    if overview.Success? && breakdown.Success? && trends.Success? && patterns.Success? then
      Some(Loaded(overview.value, breakdown.value, trends.value, patterns.value))
    else None
  }

  /** As written, whether the page loads: the breakdown and the patterns handlers always fail,
      so only when the store replays both answers does `Promise.all` succeed. */
  predicate LoadsAsWritten(entries: map<string, Cache.Entry>, reachable: bool, userId: nat, kind: string,
                           selectedYear: int, now: Date, iso: Date -> string)
    requires Valid(now)
  {
    var keys := RequestKeys(userId, kind, selectedYear, AnalyticsRange(kind, now, selectedYear), iso);
    Cache.Replays(entries, reachable, keys.breakdown) && Cache.Replays(entries, reachable, keys.patterns)
  }

  /** `fetchAnalyticsData` against the handlers as written, with the Redis store holding
      `entries`: unless the store replays both the breakdown and the patterns, one of them
      answers 500 and the page shows no data; once it replays both, the data loads with their
      error bodies in those slots. */
  method FetchAsWritten(txs: seq<Transaction>, cats: seq<Category>, userId: nat, kind: string,
                        selectedYear: int, now: Date, iso: Date -> string,
                        entries: map<string, Cache.Entry>, reachable: bool)
    returns (data: Option<Loaded>)
    requires Valid(now)
    ensures data.Some? <==> LoadsAsWritten(entries, reachable, userId, kind, selectedYear, now, iso)
    ensures data.Some? ==>
      var keys := RequestKeys(userId, kind, selectedYear, AnalyticsRange(kind, now, selectedYear), iso);
      && data.value.breakdown == Cache.Replayed(entries[keys.breakdown].json)
      && data.value.patterns == Cache.Replayed(entries[keys.patterns].json)
  {
    var range := AnalyticsRange(kind, now, selectedYear);
    var keys := RequestKeys(userId, kind, selectedYear, range, iso);
    var start, end := AnalyticsRoutes.Given(range.start), AnalyticsRoutes.Given(range.end);
    var overview := AnalyticsRoutes.Overview(txs, userId, start, end, Some(kind), now);
    var breakdown := AnalyticsRoutes.CategoryBreakdownAsWritten(cats, txs, userId, start, end, now);
    var trends := AnalyticsRoutes.MonthlyTrends(txs, userId, Number(selectedYear), Missing, now);
    var patterns := AnalyticsRoutes.SpendingPatternsAsWritten(txs, userId, start, end, now);
    data := Settle(Cache.Through(entries, reachable, keys.overview, overview),
                   Cache.Through(entries, reachable, keys.breakdown, breakdown),
                   Cache.Through(entries, reachable, keys.trends, trends),
                   Cache.Through(entries, reachable, keys.patterns, patterns));
  }

  /** As written, a first load on a store that answers leaves both error bodies stored, so a
      second load within their lifetime loads. */
  lemma SecondLoadReplaysErrors(txs: seq<Transaction>, cats: seq<Category>, userId: nat, kind: string,
                                selectedYear: int, now: Date, iso: Date -> string,
                                entries: map<string, Cache.Entry>,
                                breakdownHandler: Cache.Request -> Cache.Reply,
                                patternsHandler: Cache.Request -> Cache.Reply)
    requires Valid(now)
    requires var range := AnalyticsRange(kind, now, selectedYear);
      var start, end := AnalyticsRoutes.Given(range.start), AnalyticsRoutes.Given(range.end);
      var q := DashboardPage.RangeQuery(range, iso);
      && breakdownHandler(Cache.Request("GET", Cache.AnalyticsUrl(Cache.ExpensesByCategory, q), Some(userId)))
           == Cache.ErrorReply(AnalyticsRoutes.CategoryBreakdownAsWritten(cats, txs, userId, start, end, now))
      && patternsHandler(Cache.Request("GET", Cache.AnalyticsUrl(Cache.SpendingPatterns, q), Some(userId)))
           == Cache.ErrorReply(AnalyticsRoutes.SpendingPatternsAsWritten(txs, userId, start, end, now))
    ensures var q := DashboardPage.RangeQuery(AnalyticsRange(kind, now, selectedYear), iso);
      var seconds := Cache.Seconds(Cache.Analytics);
      var first := Cache.Serve(entries, true, seconds,
                               Cache.Request("GET", Cache.AnalyticsUrl(Cache.ExpensesByCategory, q), Some(userId)),
                               breakdownHandler, true);
      var second := Cache.Serve(first.entries, true, seconds,
                                Cache.Request("GET", Cache.AnalyticsUrl(Cache.SpendingPatterns, q), Some(userId)),
                                patternsHandler, true);
      LoadsAsWritten(second.entries, true, userId, kind, selectedYear, now, iso)
  {
  }

  /** `fetchAnalyticsData` against the corrected handlers and over the corrected quarter, with
      the Redis store holding `entries`: every request succeeds, so the data loads. A request the store replays holds
      the stored body; any other holds the handler's answer: the overview, the breakdown and
      the patterns over the chosen range and the twelve months of the selected year. */
  method Fetch(txs: seq<Transaction>, cats: seq<Category>, userId: nat, kind: string,
               selectedYear: int, now: Date, iso: Date -> string,
               entries: map<string, Cache.Entry>, reachable: bool)
    returns (data: Option<Loaded>)
    requires Valid(now)
    ensures data.Some?
    ensures var keys := RequestKeys(userId, kind, selectedYear, AnalyticsRangeCorrected(kind, now, selectedYear), iso);
            && (data.value.overview.Replayed? <==> Cache.Replays(entries, reachable, keys.overview))
            && (data.value.breakdown.Replayed? <==> Cache.Replays(entries, reachable, keys.breakdown))
            && (data.value.trends.Replayed? <==> Cache.Replays(entries, reachable, keys.trends))
            && (data.value.patterns.Replayed? <==> Cache.Replays(entries, reachable, keys.patterns))
    ensures var range := AnalyticsRangeCorrected(kind, now, selectedYear);
            var sc := AnalyticsRoutes.Scope(userId, range.start, range.end);
            && (data.value.overview.Fresh? ==>
                  var o := data.value.overview.value;
                  && o.startDate == range.start && o.endDate == range.end
                  && o.totalIncome == AnalyticsRoutes.SumKind(txs, sc, Income)
                  && o.totalExpenses == AnalyticsRoutes.SumKind(txs, sc, Expense))
            && (data.value.breakdown.Fresh? ==> data.value.breakdown.value == AnalyticsRoutes.BreakdownOf(cats, txs, sc))
            && (data.value.patterns.Fresh? ==> data.value.patterns.value == AnalyticsRoutes.PatternsOf(txs, sc))
    ensures data.value.trends.Fresh? ==>
              data.value.trends.value.year == selectedYear && |data.value.trends.value.months| == 12
  {
    var range := AnalyticsRangeCorrected(kind, now, selectedYear);
    var keys := RequestKeys(userId, kind, selectedYear, range, iso);
    var start, end := AnalyticsRoutes.Given(range.start), AnalyticsRoutes.Given(range.end);
    var overview := AnalyticsRoutes.Overview(txs, userId, start, end, Some(kind), now);
    var breakdown := AnalyticsRoutes.CategoryBreakdown(cats, txs, userId, start, end, now);
    var trends := AnalyticsRoutes.MonthlyTrends(txs, userId, Number(selectedYear), Missing, now);
    var patterns := AnalyticsRoutes.SpendingPatterns(txs, userId, start, end, now);
    data := Settle(Cache.Through(entries, reachable, keys.overview, overview),
                   Cache.Through(entries, reachable, keys.breakdown, breakdown),
                   Cache.Through(entries, reachable, keys.trends, trends),
                   Cache.Through(entries, reachable, keys.patterns, patterns));
  }
}
