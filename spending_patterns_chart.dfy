/** The spending-patterns chart (client/src/components/analytics/SpendingPatternsChart.js): the
    server's (day, hour, type) groups are summed per day name, in the order the days first
    appear, and each day becomes a bar. */
module SpendingPatternsChart {
  import opened Wrappers
  import opened Text
  import AnalyticsRoutes

  type Pattern = AnalyticsRoutes.Pattern

  /** The two sums kept per day: the amount (`avgAmount * transactionCount`) and the count. Both
      are JavaScript numbers. */
  datatype Measure = Amount | Count

  function Weight(p: Pattern, m: Measure): real {
    match m
    case Amount => p.avgAmount * p.transactionCount as real
    case Count => p.transactionCount as real
  }

  /** The day names in the order they first appear. */
  function Days(ps: seq<Pattern>): seq<string> {
    if ps == [] then []
    else
      var d := Days(ps[..|ps| - 1]);
      if ps[|ps| - 1].dayName in d then d else d + [ps[|ps| - 1].dayName]
  }

  /** The sum of measure m over the patterns of one day. */
  function OnDay(ps: seq<Pattern>, day: string, m: Measure): real {
    if ps == [] then 0.0
    else OnDay(ps[..|ps| - 1], day, m) + (if ps[|ps| - 1].dayName == day then Weight(ps[|ps| - 1], m) else 0.0)
  }

  /** The sum of measure m over every pattern. */
  function Total(ps: seq<Pattern>, m: Measure): real {
    if ps == [] then 0.0 else Total(ps[..|ps| - 1], m) + Weight(ps[|ps| - 1], m)
  }

  predicate Distinct(s: seq<string>) {
    forall i, j :: 0 <= i < j < |s| ==> s[i] != s[j]
  }

  /** The days listed are exactly the days of the patterns, each once. */
  lemma {:induction false} DaysAreTheDays(ps: seq<Pattern>)
    ensures Distinct(Days(ps))
    ensures forall d :: d in Days(ps) <==> exists i :: 0 <= i < |ps| && ps[i].dayName == d
  {
    if ps != [] {
      var init := ps[..|ps| - 1];
      DaysAreTheDays(init);
      forall d ensures (exists i :: 0 <= i < |ps| && ps[i].dayName == d) <==> d in Days(init) || d == ps[|ps| - 1].dayName {
        if exists i :: 0 <= i < |ps| && ps[i].dayName == d {
          var i :| 0 <= i < |ps| && ps[i].dayName == d;
          if i < |ps| - 1 {
            assert init[i] == ps[i];
          }
        }
        if d in Days(init) {
          var i :| 0 <= i < |init| && init[i].dayName == d;
          assert ps[i] == init[i];
        }
      }
    }
  }

  /** A day no pattern names has nothing summed. */
  lemma {:induction false} AbsentDayIsZero(ps: seq<Pattern>, day: string, m: Measure)
    requires day !in Days(ps)
    ensures OnDay(ps, day, m) == 0.0
  {
    if ps != [] {
      AbsentDayIsZero(ps[..|ps| - 1], day, m);
    }
  }

  /** The chart's bucket for one day: `{ day, totalAmount, transactionCount }`. */
  datatype DayTotal = DayTotal(day: string, totalAmount: real, transactionCount: real)

  function Expected(ps: seq<Pattern>, day: string): DayTotal {
    DayTotal(day, OnDay(ps, day, Amount), OnDay(ps, day, Count))
  }

  /** The `reduce` that builds `dayPatterns`, read back with `Object.values`: day names are not
      integer-like keys, so the buckets come out in insertion order, which is the order of first
      appearance. Each bucket holds its day's two sums. */
  method GroupByDay(ps: seq<Pattern>) returns (acc: seq<DayTotal>)
    ensures |acc| == |Days(ps)|
    ensures forall i :: 0 <= i < |acc| ==> acc[i] == Expected(ps, Days(ps)[i])
  {
    acc := [];
    var i := 0;
    while i < |ps|
      invariant 0 <= i <= |ps|
      invariant |acc| == |Days(ps[..i])|
      invariant forall j :: 0 <= j < |acc| ==> acc[j] == Expected(ps[..i], Days(ps[..i])[j])
    {
      var p := ps[i];
      ghost var before, after := ps[..i], ps[..i + 1];
      assert after[..|after| - 1] == before && after[|after| - 1] == p;
      DaysAreTheDays(before);
      var k := 0;
      while k < |acc| && acc[k].day != p.dayName
        invariant 0 <= k <= |acc|
        invariant forall j :: 0 <= j < k ==> acc[j].day != p.dayName
      {
        k := k + 1;
      }
      if k == |acc| {
        assert p.dayName !in Days(before);
        AbsentDayIsZero(before, p.dayName, Amount);
        AbsentDayIsZero(before, p.dayName, Count);
        acc := acc + [DayTotal(p.dayName, 0.0, 0.0)];
      }
      acc := acc[k := acc[k].(totalAmount := acc[k].totalAmount + Weight(p, Amount),
                              transactionCount := acc[k].transactionCount + Weight(p, Count))];
      assert Days(after)[k] == p.dayName;
      forall j | 0 <= j < |acc| ensures acc[j] == Expected(after, Days(after)[j]) {
        if j != k {
          assert Days(after)[j] == Days(before)[j] != p.dayName;
        }
      }
      i := i + 1;
    }
    assert ps[..i] == ps;
  }

  /** Summing a list of distinct days after one more pattern adds that pattern's weight once if
      its day is listed. */
  function SumOver(ps: seq<Pattern>, days: seq<string>, m: Measure): real {
    if days == [] then 0.0 else SumOver(ps, days[..|days| - 1], m) + OnDay(ps, days[|days| - 1], m)
  }

  lemma {:induction false} SumOverOneMore(ps: seq<Pattern>, p: Pattern, days: seq<string>, m: Measure)
    requires Distinct(days)
    ensures SumOver(ps + [p], days, m) == SumOver(ps, days, m) + (if p.dayName in days then Weight(p, m) else 0.0)
  {
    var ps' := ps + [p];
    assert ps'[..|ps'| - 1] == ps;
    if days != [] {
      var init := days[..|days| - 1];
      assert Distinct(init);
      SumOverOneMore(ps, p, init, m);
      assert p.dayName in days <==> p.dayName in init || p.dayName == days[|days| - 1];
      assert p.dayName == days[|days| - 1] ==> p.dayName !in init;
    }
  }

  /** No amount and no transaction is lost or counted twice: the buckets' sums add up to the
      sums over all patterns. */
  lemma {:induction false} BucketsAddUp(ps: seq<Pattern>, m: Measure)
    ensures SumOver(ps, Days(ps), m) == Total(ps, m)
  {
    if ps != [] {
      var init := ps[..|ps| - 1];
      var p := ps[|ps| - 1];
      assert ps == init + [p];
      BucketsAddUp(init, m);
      DaysAreTheDays(init);
      SumOverOneMore(init, p, Days(init), m);
      if p.dayName !in Days(init) {
        var days := Days(init) + [p.dayName];
        assert days[..|days| - 1] == Days(init);
        AbsentDayIsZero(init, p.dayName, m);
      }
    }
  }

  /** One bar of `chartData`, with the fill colour its index selects. */
  datatype ChartEntry = ChartEntry(day: string, amount: real, count: real, fill: string)

  const Colors: seq<string> := ["#3b82f6", "#10b981", "#f59e0b", "#ef4444", "#8b5cf6", "#06b6d4", "#84cc16"]

  /** `chartData` and the bars' `Cell`s: the label is the day name's first three characters and
      the colour cycles through the seven in order. */
  function ChartData(acc: seq<DayTotal>): (r: seq<ChartEntry>)
    ensures |r| == |acc|
    ensures forall i :: 0 <= i < |r| ==> && StartsWith(acc[i].day, r[i].day) && |r[i].day| <= 3
                                         && r[i].amount == acc[i].totalAmount && r[i].count == acc[i].transactionCount
                                         && r[i].fill == Colors[i % 7]
  {
    seq(|acc|, i requires 0 <= i < |acc| =>
      ChartEntry(Prefix(acc[i].day, 3), acc[i].totalAmount, acc[i].transactionCount, Colors[i % 7]))
  }

  /** The component: no chart when `data` or `data.patterns` is missing or the list is empty,
      otherwise the bars. */
  method Chart(patterns: Option<seq<Pattern>>) returns (r: Option<seq<ChartEntry>>)
    ensures r.None? <==> patterns.None? || patterns.value == []
    ensures r.Some? ==> |r.value| == |Days(patterns.value)| && |r.value| >= 1
    ensures r.Some? ==> forall i :: 0 <= i < |r.value| ==>
                          r.value[i].amount == OnDay(patterns.value, Days(patterns.value)[i], Amount)
                          && r.value[i].count == OnDay(patterns.value, Days(patterns.value)[i], Count)
  {
    if patterns.None? || patterns.value == [] {
      return None;
    }
    var acc := GroupByDay(patterns.value);
    DaysAreTheDays(patterns.value);
    assert patterns.value[0].dayName in Days(patterns.value);
    r := Some(ChartData(acc));
  }

  /** The server's seven day names give seven different labels, so no two bars share one. */
  lemma LabelsDistinct()
    ensures forall i, j :: 0 <= i < j < 7 ==> Prefix(AnalyticsRoutes.DayNames[i], 3) != Prefix(AnalyticsRoutes.DayNames[j], 3)
  {
    var labels := ["Sun", "Mon", "Tue", "Wed", "Thu", "Fri", "Sat"];
    forall i | 0 <= i < 7 ensures Prefix(AnalyticsRoutes.DayNames[i], 3) == labels[i] {
    }
  }
}
