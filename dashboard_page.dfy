/** The dashboard (client/src/pages/Dashboard.js): the range it asks for, the four requests it
    sends together, and the overview cards it derives from the overview answer. */
module DashboardPage {
  import opened Wrappers
  import opened Calendar
  import opened DateRanges
  import opened Ledger
  import opened Sorting
  import opened Text
  import AnalyticsRoutes
  import Cache

  /** The dashboard's `dateRangeConfig` as written: `month`, `year` and `quarter`, anything else
      read as `month`. Every range starts on or before its end. */
  function DashboardRange(kind: string, now: Date, selectedYear: int): (r: Range)
    requires Valid(now)
    ensures kind != "year" ==> r.end == now || r == QuarterAsWritten(now)
    ensures kind != "month" && kind != "year" && kind != "quarter" ==> r == MonthToDate(now)
    ensures OnOrBefore(r.start, r.end)
  {
    QuarterAsWrittenHoldsToday(now);
    Config(kind, now, selectedYear, MonthToDate(now))
  }

  /** The same with the quarter ending on the last day of its third month. */
  function DashboardRangeCorrected(kind: string, now: Date, selectedYear: int): (r: Range)
    requires Valid(now)
    ensures kind == "quarter" ==> r == Quarter(now)
    ensures kind != "quarter" ==> r == DashboardRange(kind, now, selectedYear)
    ensures OnOrBefore(r.start, r.end)
  {
    QuarterCovers(now, now);
    ConfigCorrected(kind, now, selectedYear, MonthToDate(now))
  }

  /** One overview card: its title, the figure it shows, its two style classes and its format. */
  datatype Card = Card(title: string, value: int, color: string, bgColor: string, format: string)

  /** `overviewCards` (the analytics page's `summaryStats` is the same list): nothing before the
      overview has loaded, then income, expenses, net income and savings rate, the net income
      styled as a success exactly when it is not negative. */
  function OverviewCards(overview: Option<AnalyticsRoutes.OverviewBody>): (cards: seq<Card>)
    ensures cards == [] <==> overview.None?
    ensures overview.Some? ==>
      var o := overview.value;
      && |cards| == 4
      && cards[0].title == "Total Income" && cards[0].value == o.totalIncome
      && cards[1].title == "Total Expenses" && cards[1].value == o.totalExpenses
      && cards[2].title == "Net Income" && cards[2].value == o.netIncome
      && cards[3].title == "Savings Rate" && cards[3].value == o.savingsRate
      && (cards[2].color == "text-success" <==> o.netIncome >= 0)
      && (cards[2].color == "text-error" <==> o.netIncome < 0)
      && (cards[2].bgColor == "bg-success-light" <==> o.netIncome >= 0)
      && forall i :: 0 <= i < 3 ==> cards[i].format == "currency"
  {
    match overview
    case None => []
    case Some(o) =>
      var good := o.netIncome >= 0;
      [ Card("Total Income", o.totalIncome, "text-success", "bg-success-light", "currency"),
        Card("Total Expenses", o.totalExpenses, "text-error", "bg-error-light", "currency"),
        Card("Net Income", o.netIncome, if good then "text-success" else "text-error",
             if good then "bg-success-light" else "bg-error-light", "currency"),
        Card("Savings Rate", o.savingsRate, "text-accent", "bg-accent-light", "percentage") ]
  }

  /** `${year}` in a template string. */
  function YearText(year: int): string {
    if year >= 0 then NatToString(year) else "-" + NatToString(-year)
  }

  /** The query string naming a range; `iso` stands for `toISOString().split('T')[0]`. */
  function RangeQuery(range: Range, iso: Date -> string): string {
    "?start_date=" + iso(range.start) + "&end_date=" + iso(range.end)
  }

  /** The cache key of the analytics request for `e` with `query`, sent by `userId`. */
  function KeyOf(userId: nat, e: Cache.Endpoint, query: string): string {
    Cache.CacheKey(Cache.AnalyticsUrl(e, query), Some(userId))
  }

  /** The cache keys of the four requests `fetchDashboardData` sends for `range`. */
  datatype Keys = Keys(overview: string, breakdown: string, trends: string, recent: string)

  function RequestKeys(userId: nat, kind: string, selectedYear: int, range: Range, iso: Date -> string): Keys
  {
    var q := RangeQuery(range, iso);
    Keys(KeyOf(userId, Cache.Overview, q + "&period=" + kind),
         KeyOf(userId, Cache.ExpensesByCategory, q),
         KeyOf(userId, Cache.MonthlyTrends, "?year=" + YearText(selectedYear)),
         KeyOf(userId, Cache.RecentTransactions, "?limit=5"))
  }

  /** What `setData` stores once all four requests have answered: each body as it arrived,
      from its handler or replayed by the cache. */
  datatype Loaded = Loaded(overview: Cache.Received<AnalyticsRoutes.OverviewBody>,
                           breakdown: Cache.Received<AnalyticsRoutes.BreakdownBody>,
                           trends: Cache.Received<AnalyticsRoutes.TrendsBody>,
                           recent: Cache.Received<seq<AnalyticsRoutes.RecentItem>>)

  /** `Promise.all` over the four requests: axios rejects any answer outside 2xx, and one
      rejection skips `setData`, so the data loads only when every request succeeded. */
  function Settle(overview: Outcome<Cache.Received<AnalyticsRoutes.OverviewBody>>,
                  breakdown: Outcome<Cache.Received<AnalyticsRoutes.BreakdownBody>>,
                  trends: Outcome<Cache.Received<AnalyticsRoutes.TrendsBody>>,
                  recent: Outcome<Cache.Received<seq<AnalyticsRoutes.RecentItem>>>)
    : (data: Option<Loaded>)
    ensures data.Some? <==> overview.Success? && breakdown.Success? && trends.Success? && recent.Success?
    ensures data.Some? ==> data.value == Loaded(overview.value, breakdown.value, trends.value, recent.value)
  {
    if overview.Success? && breakdown.Success? && trends.Success? && recent.Success? then
      Some(Loaded(overview.value, breakdown.value, trends.value, recent.value))
    else None
  }

  /** As written, whether the dashboard loads: the breakdown handler always fails, so only a
      breakdown answer replayed from the store lets `Promise.all` succeed. */
  predicate LoadsAsWritten(entries: map<string, Cache.Entry>, reachable: bool, userId: nat, kind: string,
                           selectedYear: int, now: Date, iso: Date -> string)
    requires Valid(now)
  {
    Cache.Replays(entries, reachable, RequestKeys(userId, kind, selectedYear, DashboardRange(kind, now, selectedYear), iso).breakdown)
  }

  /** `fetchDashboardData` against the handlers as written, with the Redis store holding
      `entries`: on a cold store, or one that does not answer, the breakdown request answers 500
      and the dashboard shows no data; once the store holds the breakdown's error body, the
      request is answered 200 with it and the data loads, the breakdown slot holding
      `{"error": ...}`. */
  method FetchAsWritten(txs: seq<Transaction>, cats: seq<Category>, userId: nat, kind: string,
                        selectedYear: int, now: Date, iso: Date -> string,
                        entries: map<string, Cache.Entry>, reachable: bool)
    returns (data: Option<Loaded>)
    requires Valid(now)
    ensures data.Some? <==> LoadsAsWritten(entries, reachable, userId, kind, selectedYear, now, iso)
    ensures data.Some? ==>
      var key := RequestKeys(userId, kind, selectedYear, DashboardRange(kind, now, selectedYear), iso).breakdown;
      data.value.breakdown == Cache.Replayed(entries[key].json)
  {
    var range := DashboardRange(kind, now, selectedYear);
    var keys := RequestKeys(userId, kind, selectedYear, range, iso);
    var overview := AnalyticsRoutes.Overview(txs, userId, AnalyticsRoutes.Given(range.start),
                                             AnalyticsRoutes.Given(range.end), Some(kind), now);
    var breakdown := AnalyticsRoutes.CategoryBreakdownAsWritten(cats, txs, userId, AnalyticsRoutes.Given(range.start),
                                                                AnalyticsRoutes.Given(range.end), now);
    var trends := AnalyticsRoutes.MonthlyTrends(txs, userId, Number(selectedYear), Missing, now);
    var recent := AnalyticsRoutes.RecentTransactions(txs, cats, userId, Number(5));
    data := Settle(Cache.Through(entries, reachable, keys.overview, overview),
                   Cache.Through(entries, reachable, keys.breakdown, breakdown),
                   Cache.Through(entries, reachable, keys.trends, trends),
                   Cache.Through(entries, reachable, keys.recent, recent));
  }

  /** As written, a first load on a store that answers leaves the breakdown's error body
      stored, so a second load within its lifetime loads. */
  lemma SecondLoadReplaysError(txs: seq<Transaction>, cats: seq<Category>, userId: nat, kind: string,
                               selectedYear: int, now: Date, iso: Date -> string,
                               entries: map<string, Cache.Entry>, handler: Cache.Request -> Cache.Reply)
    requires Valid(now)
    requires var range := DashboardRange(kind, now, selectedYear);
      var req := Cache.Request("GET", Cache.AnalyticsUrl(Cache.ExpensesByCategory, RangeQuery(range, iso)), Some(userId));
      handler(req) == Cache.ErrorReply(AnalyticsRoutes.CategoryBreakdownAsWritten(
        cats, txs, userId, AnalyticsRoutes.Given(range.start), AnalyticsRoutes.Given(range.end), now))
    ensures var range := DashboardRange(kind, now, selectedYear);
      var req := Cache.Request("GET", Cache.AnalyticsUrl(Cache.ExpensesByCategory, RangeQuery(range, iso)), Some(userId));
      var first := Cache.Serve(entries, true, Cache.Seconds(Cache.Analytics), req, handler, true);
      (!Cache.IsHit(entries, KeyOf(userId, Cache.ExpensesByCategory, RangeQuery(range, iso))) ==> first.reply.status == 500)
      && LoadsAsWritten(first.entries, true, userId, kind, selectedYear, now, iso)
  {
  }

  /** `fetchDashboardData` against the corrected handlers and over the corrected quarter, with
      the Redis store holding `entries`: every request succeeds, so the data loads. A request the store replays holds
      the stored body; any other holds the handler's answer: the caller's totals and breakdown
      over the chosen range, the twelve months of the selected year, and at most five of the
      caller's newest transactions. */
  method Fetch(txs: seq<Transaction>, cats: seq<Category>, userId: nat, kind: string,
               selectedYear: int, now: Date, iso: Date -> string,
               entries: map<string, Cache.Entry>, reachable: bool)
    returns (data: Option<Loaded>)
    requires Valid(now)
    ensures data.Some?
    ensures var keys := RequestKeys(userId, kind, selectedYear, DashboardRangeCorrected(kind, now, selectedYear), iso);
            && (data.value.overview.Replayed? <==> Cache.Replays(entries, reachable, keys.overview))
            && (data.value.breakdown.Replayed? <==> Cache.Replays(entries, reachable, keys.breakdown))
            && (data.value.trends.Replayed? <==> Cache.Replays(entries, reachable, keys.trends))
            && (data.value.recent.Replayed? <==> Cache.Replays(entries, reachable, keys.recent))
    ensures var range := DashboardRangeCorrected(kind, now, selectedYear);
            var sc := AnalyticsRoutes.Scope(userId, range.start, range.end);
            && (data.value.overview.Fresh? ==>
                  var o := data.value.overview.value;
                  && o.startDate == range.start && o.endDate == range.end && o.periodType == kind
                  && o.totalIncome == AnalyticsRoutes.SumKind(txs, sc, Income)
                  && o.totalExpenses == AnalyticsRoutes.SumKind(txs, sc, Expense))
            && (data.value.breakdown.Fresh? ==> data.value.breakdown.value == AnalyticsRoutes.BreakdownOf(cats, txs, sc))
    ensures data.value.trends.Fresh? ==>
              data.value.trends.value.year == selectedYear && |data.value.trends.value.months| == 12
    ensures data.value.recent.Fresh? ==>
              data.value.recent.value == AnalyticsRoutes.RecentRows(txs, cats, userId, 5) && |data.value.recent.value| <= 5
  {
    var range := DashboardRangeCorrected(kind, now, selectedYear);
    var keys := RequestKeys(userId, kind, selectedYear, range, iso);
    var overview := AnalyticsRoutes.Overview(txs, userId, AnalyticsRoutes.Given(range.start),
                                             AnalyticsRoutes.Given(range.end), Some(kind), now);
    var breakdown := AnalyticsRoutes.CategoryBreakdown(cats, txs, userId, AnalyticsRoutes.Given(range.start),
                                                       AnalyticsRoutes.Given(range.end), now);
    var trends := AnalyticsRoutes.MonthlyTrends(txs, userId, Number(selectedYear), Missing, now);
    var recent := AnalyticsRoutes.RecentTransactions(txs, cats, userId, Number(5));
    data := Settle(Cache.Through(entries, reachable, keys.overview, overview),
                   Cache.Through(entries, reachable, keys.breakdown, breakdown),
                   Cache.Through(entries, reachable, keys.trends, trends),
                   Cache.Through(entries, reachable, keys.recent, recent));
  }
}
