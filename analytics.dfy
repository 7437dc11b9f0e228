/** The analytics routes (`/analytics/...`): each SQL query as a function over the in-memory
    ledger and each handler's JavaScript post-processing as a function or, where the handler
    loops and updates variables, a method. Amounts are cents; rates and percentages are in
    hundredths of a percent. */
module AnalyticsRoutes {
  import opened Wrappers
  import opened Calendar
  import opened Ledger
  import opened Sorting

  // ---------------------------------------------------------------------------------------
  // Query parameters and the date range

  /** A `start_date` / `end_date` query value: missing, text that is not a date, or a date. */
  datatype DateParam = Absent | Unparseable | Given(date: Date)

  /** The default start date: the first day of the current month. */
  function FirstOfMonth(today: Date): Date {
    Date(today.year, today.month, 1)
  }

  /** A date parameter after defaulting: None when its text is not a date. */
  function ResolveDate(p: DateParam, default: Date): (r: Option<Date>)
    ensures p.Absent? ==> r == Some(default)
    ensures p.Given? ==> r == Some(p.date)
    ensures r.None? <==> p.Unparseable?
  {
    match p
    case Absent => Some(default)
    case Unparseable => None
    case Given(d) => Some(d)
  }

  /** Whose transactions a range query reads, and the inclusive date range. */
  datatype Scope = Scope(userId: nat, start: Date, end: Date)

  /** `user_id = $1 AND date >= $2 AND date <= $3`. */
  predicate InRange(t: Transaction, sc: Scope) {
    t.userId == sc.userId && OnOrBefore(sc.start, t.date) && OnOrBefore(t.date, sc.end)
  }

  /** `SUM(amount)` over the caller's transactions of one kind in the range. */
  function SumKind(txs: seq<Transaction>, sc: Scope, kind: Kind): int {
    if txs == [] then 0
    else
      (if InRange(txs[0], sc) && txs[0].kind == kind then txs[0].amount else 0)
      + SumKind(txs[1..], sc, kind)
  }

  predicate AnyOfKind(txs: seq<Transaction>, sc: Scope, kind: Kind) {
    exists i :: 0 <= i < |txs| && InRange(txs[i], sc) && txs[i].kind == kind
  }

  lemma {:induction false} SumKindWithoutRows(txs: seq<Transaction>, sc: Scope, kind: Kind)
    requires !AnyOfKind(txs, sc, kind)
    ensures SumKind(txs, sc, kind) == 0
  {
    if txs != [] {
      assert !InRange(txs[0], sc) || txs[0].kind != kind;
      assert !AnyOfKind(txs[1..], sc, kind) by {
        forall i | 0 <= i < |txs| - 1
          ensures !(InRange(txs[1..][i], sc) && txs[1..][i].kind == kind)
        {
          assert txs[1..][i] == txs[i + 1];
        }
      }
      SumKindWithoutRows(txs[1..], sc, kind);
    }
  }

  /** `Math.round(num / den)` for den > 0: the integer nearest num / den, halves rounding up. */
  function RoundedRatio(num: int, den: int): (r: int)
    requires den > 0
    ensures 2 * den * r <= 2 * num + den < 2 * den * (r + 1)
  {
    (2 * num + den) / (2 * den)
  }

  // ---------------------------------------------------------------------------------------
  // GET /analytics/overview

  datatype KindTotal = KindTotal(kind: Kind, total: int)

  /** The overview query: one row per transaction type present in the range (`GROUP BY
      transaction_type`), carrying `SUM(amount)`. */
  function OverviewRows(txs: seq<Transaction>, sc: Scope): (rows: seq<KindTotal>)
    ensures forall i :: 0 <= i < |rows| ==>
      rows[i].total == SumKind(txs, sc, rows[i].kind)
    ensures forall i, j :: 0 <= i < j < |rows| ==> rows[i].kind != rows[j].kind
    ensures forall k :: (exists i :: 0 <= i < |rows| && rows[i].kind == k) <==> AnyOfKind(txs, sc, k)
  {
    var incomeRows := if AnyOfKind(txs, sc, Income)
      then [KindTotal(Income, SumKind(txs, sc, Income))] else [];
    var expenseRows := if AnyOfKind(txs, sc, Expense)
      then [KindTotal(Expense, SumKind(txs, sc, Expense))] else [];
    var rows := incomeRows + expenseRows;
    assert AnyOfKind(txs, sc, Income) ==> rows[0].kind == Income;
    assert AnyOfKind(txs, sc, Expense) ==> rows[|rows| - 1].kind == Expense;
    rows
  }

  /** The total the `forEach` leaves behind for one kind: the last row of that kind, or 0. */
  function LastTotal(rows: seq<KindTotal>, kind: Kind): int {
    if rows == [] then 0
    else if rows[|rows| - 1].kind == kind then rows[|rows| - 1].total
    else LastTotal(rows[..|rows| - 1], kind)
  }

  lemma {:induction false} LastTotalOfUniqueRow(rows: seq<KindTotal>, kind: Kind, j: nat)
    requires j < |rows| && rows[j].kind == kind
    requires forall a, b :: 0 <= a < b < |rows| ==> rows[a].kind != rows[b].kind
    ensures LastTotal(rows, kind) == rows[j].total
  {
    if j < |rows| - 1 {
      LastTotalOfUniqueRow(rows[..|rows| - 1], kind, j);
    }
  }

  lemma {:induction false} LastTotalWithoutRow(rows: seq<KindTotal>, kind: Kind)
    requires forall j :: 0 <= j < |rows| ==> rows[j].kind != kind
    ensures LastTotal(rows, kind) == 0
  {
    if rows != [] {
      LastTotalWithoutRow(rows[..|rows| - 1], kind);
    }
  }

  /** The handler reads each kind's total from the query rows; a kind without rows keeps 0. */
  lemma OverviewTotalsAreSums(txs: seq<Transaction>, sc: Scope, kind: Kind)
    ensures LastTotal(OverviewRows(txs, sc), kind) == SumKind(txs, sc, kind)
  {
    var rows := OverviewRows(txs, sc);
    if j :| 0 <= j < |rows| && rows[j].kind == kind {
      LastTotalOfUniqueRow(rows, kind, j);
    } else {
      LastTotalWithoutRow(rows, kind);
      SumKindWithoutRows(txs, sc, kind);
    }
  }

  /** The `forEach` over the overview rows that assigns `totalIncome` and `totalExpenses`. */
  method TotalsFromRows(rows: seq<KindTotal>) returns (totalIncome: int, totalExpenses: int)
    ensures totalIncome == LastTotal(rows, Income)
    ensures totalExpenses == LastTotal(rows, Expense)
  {
    totalIncome, totalExpenses := 0, 0;
    var i := 0;
    while i < |rows|
      invariant 0 <= i <= |rows|
      invariant totalIncome == LastTotal(rows[..i], Income)
      invariant totalExpenses == LastTotal(rows[..i], Expense)
    {
      assert rows[..i + 1][..i] == rows[..i];
      match rows[i].kind {
        case Income => totalIncome := rows[i].total;
        case Expense => totalExpenses := rows[i].total;
      }
      i := i + 1;
    }
    assert rows[..i] == rows;
  }

  /** `savingsRate`: net income over income as a percentage rounded to two decimals, in
      hundredths of a percent; 0 when there is no positive income. */
  function SavingsRate(totalIncome: int, totalExpenses: int): int {
    if totalIncome > 0 then RoundedRatio(10000 * (totalIncome - totalExpenses), totalIncome) else 0
  }

  /** Within a range where expenses do not exceed income the rate lies in [0, 100]%; it never
      exceeds 100% while expenses are non-negative. */
  lemma SavingsRateBounds(totalIncome: int, totalExpenses: int)
    requires totalIncome > 0 && totalExpenses >= 0
    ensures SavingsRate(totalIncome, totalExpenses) <= 10000
    ensures totalExpenses <= totalIncome ==> SavingsRate(totalIncome, totalExpenses) >= 0
  {
    var r := SavingsRate(totalIncome, totalExpenses);
    var net := totalIncome - totalExpenses;
    assert 2 * totalIncome * r <= 20000 * net + totalIncome < 2 * totalIncome * (r + 1);
    if r > 10000 {
      MulMonotone(2 * totalIncome, 10001, r);
    }
    if net >= 0 && r < 0 {
      MulMonotone(2 * totalIncome, r + 1, 0);
    }
  }

  lemma MulMonotone(a: int, b: int, c: int)
    requires a > 0 && b <= c
    ensures a * b <= a * c
  {
    assert a * c - a * b == a * (c - b);
  }

  datatype OverviewBody = OverviewBody(
    startDate: Date,
    endDate: Date,
    periodType: string,
    totalIncome: int,
    totalExpenses: int,
    netIncome: int,
    savingsRate: int)

  /** GET /analytics/overview: 400 for a date that does not parse or a start after the end,
      decided before the query runs; otherwise the caller's in-range totals per kind, the net
      income and the savings rate. */
  method Overview(txs: seq<Transaction>, userId: nat, startParam: DateParam, endParam: DateParam,
                  period: Option<string>, today: Date)
    returns (reply: Outcome<OverviewBody>)
    ensures startParam.Unparseable? || endParam.Unparseable? ==>
      reply == Failure(400, "Invalid date format")
    ensures !startParam.Unparseable? && !endParam.Unparseable? ==>
      var sc := Scope(userId, ResolveDate(startParam, FirstOfMonth(today)).value,
                      ResolveDate(endParam, today).value);
      && (!OnOrBefore(sc.start, sc.end) ==> reply == Failure(400, "Start date cannot be after end date"))
      && (OnOrBefore(sc.start, sc.end) ==>
            && reply.Success? && reply.status == 200
            && reply.value.startDate == sc.start && reply.value.endDate == sc.end
            && reply.value.periodType == period.GetOr("month")
            && reply.value.totalIncome == SumKind(txs, sc, Income)
            && reply.value.totalExpenses == SumKind(txs, sc, Expense)
            && reply.value.netIncome == reply.value.totalIncome - reply.value.totalExpenses
            && reply.value.savingsRate == SavingsRate(reply.value.totalIncome, reply.value.totalExpenses))
  {
    var startDate := ResolveDate(startParam, FirstOfMonth(today));
    var endDate := ResolveDate(endParam, today);
    if startDate.None? || endDate.None? {
      return Failure(400, "Invalid date format");
    }
    var sc := Scope(userId, startDate.value, endDate.value);
    if !OnOrBefore(sc.start, sc.end) {
      return Failure(400, "Start date cannot be after end date");
    }
    var rows := OverviewRows(txs, sc);
    var totalIncome, totalExpenses := TotalsFromRows(rows);
    OverviewTotalsAreSums(txs, sc, Income);
    OverviewTotalsAreSums(txs, sc, Expense);
    var netIncome := totalIncome - totalExpenses;
    reply := Success(200, OverviewBody(sc.start, sc.end, period.GetOr("month"), totalIncome,
                                       totalExpenses, netIncome, SavingsRate(totalIncome, totalExpenses)));
  }

  // ---------------------------------------------------------------------------------------
  // GET /analytics/expenses-by-category

  /** The join condition of the breakdown query: an in-range expense of the caller in the category. */
  predicate JoinsCategory(t: Transaction, categoryId: nat, sc: Scope) {
    t.categoryId == categoryId && t.kind == Expense && InRange(t, sc)
  }

  /** `COALESCE(SUM(t.amount), 0)` for one category. */
  function CategoryExpenseTotal(txs: seq<Transaction>, categoryId: nat, sc: Scope): int {
    if txs == [] then 0
    else (if JoinsCategory(txs[0], categoryId, sc) then txs[0].amount else 0)
         + CategoryExpenseTotal(txs[1..], categoryId, sc)
  }

  /** `COUNT(t.id)` for one category. */
  function CategoryExpenseCount(txs: seq<Transaction>, categoryId: nat, sc: Scope): nat {
    if txs == [] then 0
    else (if JoinsCategory(txs[0], categoryId, sc) then 1 else 0)
         + CategoryExpenseCount(txs[1..], categoryId, sc)
  }

  predicate PositiveAmounts(txs: seq<Transaction>) {
    forall i :: 0 <= i < |txs| ==> txs[i].amount >= 1
  }

  /** With positive amounts a category's total is at least its count, so `HAVING SUM > 0`
      keeps exactly the categories with at least one expense in the range. */
  lemma {:induction false} CategoryTotalCoversCount(txs: seq<Transaction>, categoryId: nat, sc: Scope)
    requires PositiveAmounts(txs)
    ensures CategoryExpenseTotal(txs, categoryId, sc) >= CategoryExpenseCount(txs, categoryId, sc)
    ensures CategoryExpenseTotal(txs, categoryId, sc) > 0 <==> CategoryExpenseCount(txs, categoryId, sc) > 0
  {
    if txs != [] {
      assert txs[0].amount >= 1;
      assert PositiveAmounts(txs[1..]) by {
        forall i | 0 <= i < |txs| - 1 ensures txs[1..][i].amount >= 1 {
          assert txs[1..][i] == txs[i + 1];
        }
      }
      CategoryTotalCoversCount(txs[1..], categoryId, sc);
    }
  }

  datatype CategoryRow = CategoryRow(id: nat, name: string, color: string, total: int, count: nat)

  function RowOf(c: Category, txs: seq<Transaction>, sc: Scope): CategoryRow {
    CategoryRow(c.id, c.name, c.color, CategoryExpenseTotal(txs, c.id, sc),
                CategoryExpenseCount(txs, c.id, sc))
  }

  /** `categories LEFT JOIN transactions ... GROUP BY c.id HAVING SUM > 0`, in table order. */
  function GroupedRows(cats: seq<Category>, txs: seq<Transaction>, sc: Scope): (rows: seq<CategoryRow>)
    ensures |rows| <= |cats|
    ensures forall r :: r in rows <==> r.total > 0 && exists c :: c in cats && r == RowOf(c, txs, sc)
  {
    if cats == [] then []
    else
      var rest := GroupedRows(cats[1..], txs, sc);
      assert forall c :: c in cats <==> c == cats[0] || c in cats[1..];
      var row := RowOf(cats[0], txs, sc);
      if row.total > 0 then [row] + rest else rest
  }

  function TotalKey(r: CategoryRow): (int, int) {
    (r.total, 0)
  }

  /** The breakdown query's rows: `ORDER BY total DESC`. */
  function BreakdownRows(cats: seq<Category>, txs: seq<Transaction>, sc: Scope): seq<CategoryRow> {
    SortDesc(GroupedRows(cats, txs, sc), TotalKey)
  }

  /** The rows are exactly the categories with a positive in-range expense total, each with
      its total and count, largest total first. */
  lemma BreakdownRowsSpec(cats: seq<Category>, txs: seq<Transaction>, sc: Scope)
    ensures var rows := BreakdownRows(cats, txs, sc);
      && (forall r :: r in rows <==> r.total > 0 && exists c :: c in cats && r == RowOf(c, txs, sc))
      && (forall i, j :: 0 <= i < j < |rows| ==> rows[i].total >= rows[j].total)
  {
    var grouped := GroupedRows(cats, txs, sc);
    var rows := BreakdownRows(cats, txs, sc);
    assert forall r :: r in rows <==> r in grouped by {
      forall r ensures r in rows <==> r in grouped {
        assert r in rows <==> r in multiset(rows);
        assert r in grouped <==> r in multiset(grouped);
      }
    }
  }

  /** `categories.reduce((sum, cat) => sum + cat.amount, 0)`. */
  function SumTotals(rows: seq<CategoryRow>): int {
    if rows == [] then 0 else rows[0].total + SumTotals(rows[1..])
  }

  lemma {:induction false} SumTotalsInsert(x: CategoryRow, rows: seq<CategoryRow>)
    ensures SumTotals(Insert(x, rows, TotalKey)) == x.total + SumTotals(rows)
  {
    if rows != [] && !KeyAtLeast(TotalKey(x), TotalKey(rows[0])) {
      SumTotalsInsert(x, rows[1..]);
    }
  }

  lemma {:induction false} SumTotalsSorted(rows: seq<CategoryRow>)
    ensures SumTotals(SortDesc(rows, TotalKey)) == SumTotals(rows)
  {
    if rows != [] {
      SumTotalsSorted(rows[1..]);
      SumTotalsInsert(rows[0], SortDesc(rows[1..], TotalKey));
    }
  }

  /** Σ over the categories table of each category's expense total. */
  function SumOverCategories(cats: seq<Category>, txs: seq<Transaction>, sc: Scope): int {
    if cats == [] then 0
    else CategoryExpenseTotal(txs, cats[0].id, sc) + SumOverCategories(cats[1..], txs, sc)
  }

  lemma {:induction false} GroupedSumIsCategorySum(cats: seq<Category>, txs: seq<Transaction>, sc: Scope)
    requires PositiveAmounts(txs)
    ensures SumTotals(GroupedRows(cats, txs, sc)) == SumOverCategories(cats, txs, sc)
  {
    if cats != [] {
      CategoryTotalCoversCount(txs, cats[0].id, sc);
      GroupedSumIsCategorySum(cats[1..], txs, sc);
    }
  }

  predicate UniqueCategoryIds(cats: seq<Category>) {
    forall i, j :: 0 <= i < j < |cats| ==> cats[i].id != cats[j].id
  }

  /** One transaction contributes its amount to the sum over categories once, through the one
      category with its id. */
  lemma {:induction false} SingleContribution(cats: seq<Category>, t: Transaction, sc: Scope)
    requires UniqueCategoryIds(cats)
    ensures SumOverCategories(cats, [t], sc)
            == if HasCategory(cats, t.categoryId) && t.kind == Expense && InRange(t, sc) then t.amount else 0
  {
    if cats != [] {
      assert [t][1..] == [];
      assert UniqueCategoryIds(cats[1..]) by {
        forall i, j | 0 <= i < j < |cats| - 1 ensures cats[1..][i].id != cats[1..][j].id {
          assert cats[1..][i] == cats[i + 1] && cats[1..][j] == cats[j + 1];
        }
      }
      SingleContribution(cats[1..], t, sc);
      assert SumOverCategories(cats, [t], sc)
             == CategoryExpenseTotal([t], cats[0].id, sc) + SumOverCategories(cats[1..], [t], sc);
      assert CategoryExpenseTotal([t], cats[0].id, sc)
             == (if JoinsCategory(t, cats[0].id, sc) then t.amount else 0) + CategoryExpenseTotal([], cats[0].id, sc);
      if cats[0].id == t.categoryId {
        assert HasCategory(cats, t.categoryId) by { assert cats[0].id == t.categoryId; }
        assert !HasCategory(cats[1..], t.categoryId) by {
          forall i | 0 <= i < |cats| - 1 ensures cats[1..][i].id != t.categoryId {
            assert cats[1..][i] == cats[i + 1];
          }
        }
      } else {
        assert HasCategory(cats, t.categoryId) ==> HasCategory(cats[1..], t.categoryId) by {
          if HasCategory(cats, t.categoryId) {
            var i :| 0 <= i < |cats| && cats[i].id == t.categoryId;
            assert cats[1..][i - 1] == cats[i];
          }
        }
        assert HasCategory(cats[1..], t.categoryId) ==> HasCategory(cats, t.categoryId) by {
          if HasCategory(cats[1..], t.categoryId) {
            var i :| 0 <= i < |cats| - 1 && cats[1..][i].id == t.categoryId;
            assert cats[i + 1] == cats[1..][i];
          }
        }
      }
    }
  }

  lemma {:induction false} SumOverCategoriesSplit(cats: seq<Category>, t: Transaction, rest: seq<Transaction>, sc: Scope)
    ensures SumOverCategories(cats, [t] + rest, sc)
            == SumOverCategories(cats, [t], sc) + SumOverCategories(cats, rest, sc)
  {
    if cats != [] {
      assert ([t] + rest)[1..] == rest;
      assert [t][1..] == [];
      var id := cats[0].id;
      assert CategoryExpenseTotal([t] + rest, id, sc)
             == (if JoinsCategory(t, id, sc) then t.amount else 0) + CategoryExpenseTotal(rest, id, sc);
      assert CategoryExpenseTotal([t], id, sc)
             == (if JoinsCategory(t, id, sc) then t.amount else 0) + CategoryExpenseTotal([], id, sc);
      SumOverCategoriesSplit(cats[1..], t, rest, sc);
    }
  }

  lemma {:induction false} CategorySumIsExpenseSum(cats: seq<Category>, txs: seq<Transaction>, sc: Scope)
    requires UniqueCategoryIds(cats)
    requires forall i :: 0 <= i < |txs| ==> HasCategory(cats, txs[i].categoryId)
    ensures SumOverCategories(cats, txs, sc) == SumKind(txs, sc, Expense)
  {
    if txs == [] {
      SumOverEmpty(cats, sc);
    } else {
      assert txs == [txs[0]] + txs[1..];
      SumOverCategoriesSplit(cats, txs[0], txs[1..], sc);
      SingleContribution(cats, txs[0], sc);
      assert forall i :: 0 <= i < |txs| - 1 ==> txs[1..][i] == txs[i + 1];
      CategorySumIsExpenseSum(cats, txs[1..], sc);
    }
  }

  lemma {:induction false} SumOverEmpty(cats: seq<Category>, sc: Scope)
    ensures SumOverCategories(cats, [], sc) == 0
  {
    if cats != [] {
      SumOverEmpty(cats[1..], sc);
    }
  }

  /** In a consistent store (positive amounts, unique category ids, every transaction's
      category present) the breakdown's `totalExpenses` equals the overview's. */
  lemma BreakdownTotalIsOverviewExpenses(cats: seq<Category>, txs: seq<Transaction>, sc: Scope)
    requires PositiveAmounts(txs) && UniqueCategoryIds(cats)
    requires forall i :: 0 <= i < |txs| ==> HasCategory(cats, txs[i].categoryId)
    ensures SumTotals(BreakdownRows(cats, txs, sc)) == SumKind(txs, sc, Expense)
  {
    SumTotalsSorted(GroupedRows(cats, txs, sc));
    GroupedSumIsCategorySum(cats, txs, sc);
    CategorySumIsExpenseSum(cats, txs, sc);
  }

  /** A category's share of the total in hundredths of a percent, rounded as `Math.round`;
      0 when the total is not positive. */
  function Percentage(amount: int, total: int): int {
    if total > 0 then RoundedRatio(10000 * amount, total) else 0
  }

  lemma PercentageBounds(amount: int, total: int)
    requires 0 <= amount <= total
    ensures 0 <= Percentage(amount, total) <= 10000
  {
    if total > 0 {
      var p := Percentage(amount, total);
      assert 2 * total * p <= 20000 * amount + total < 2 * total * (p + 1);
      if p > 10000 {
        MulMonotone(2 * total, 10001, p);
      }
      if p < 0 {
        MulMonotone(2 * total, p + 1, 0);
      }
    }
  }

  datatype CategoryShare = CategoryShare(
    id: nat, name: string, color: string, amount: int, transactionCount: nat, percentage: int)

  /** The `map` that adds each category's percentage of the total. */
  function Shares(rows: seq<CategoryRow>, total: int): (shares: seq<CategoryShare>)
    ensures |shares| == |rows|
  {
    if rows == [] then []
    else [CategoryShare(rows[0].id, rows[0].name, rows[0].color, rows[0].total, rows[0].count,
                        Percentage(rows[0].total, total))]
         + Shares(rows[1..], total)
  }

  function SumPercentages(shares: seq<CategoryShare>): int {
    if shares == [] then 0 else shares[0].percentage + SumPercentages(shares[1..])
  }

  lemma {:induction false} PercentageErrorAccumulates(rows: seq<CategoryRow>, total: int)
    requires total > 0
    ensures 20000 * SumTotals(rows) - |rows| * total
            <= 2 * total * SumPercentages(Shares(rows, total))
            <= 20000 * SumTotals(rows) + |rows| * total
  {
    if rows != [] {
      var shares := Shares(rows, total);
      assert shares[1..] == Shares(rows[1..], total);
      PercentageErrorAccumulates(rows[1..], total);
      RoundingStep(total, shares[0].percentage, SumPercentages(shares[1..]), |rows| - 1,
                   rows[0].total, SumTotals(rows[1..]));
    }
  }

  /** One induction step above: one more rounded share widens the error band by one total. */
  lemma RoundingStep(total: int, p: int, rest: int, n: int, amount: int, restAmount: int)
    requires total > 0
    requires 2 * total * p <= 2 * (10000 * amount) + total < 2 * total * (p + 1)
    requires 20000 * restAmount - n * total <= 2 * total * rest <= 20000 * restAmount + n * total
    ensures 20000 * (amount + restAmount) - (n + 1) * total <= 2 * total * (p + rest)
    ensures 2 * total * (p + rest) <= 20000 * (amount + restAmount) + (n + 1) * total
  {
    assert 2 * total * (p + 1) == 2 * total * p + 2 * total;
    assert 2 * total * (p + rest) == 2 * total * p + 2 * total * rest;
    assert (n + 1) * total == n * total + total;
  }

  /** Dividing the accumulated bound through by the (positive) total. */
  lemma CancelTotal(total: int, sum: int, n: int)
    requires total > 0
    requires 20000 * total - n * total <= 2 * total * sum <= 20000 * total + n * total
    ensures 20000 - n <= 2 * sum
    ensures 2 * sum <= 20000 + n
  {
    if 2 * sum > 20000 + n {
      MulMonotone(total, 20000 + n + 1, 2 * sum);
    }
    if 2 * sum < 20000 - n {
      MulMonotone(total, 2 * sum + 1, 20000 - n);
    }
  }

  /** The rounded percentages of a non-empty breakdown add up to 100% give or take half a
      hundredth of a percent per category. */
  lemma PercentagesSumToHundred(rows: seq<CategoryRow>, total: int)
    requires total == SumTotals(rows) && total > 0
    ensures 20000 - |rows| <= 2 * SumPercentages(Shares(rows, total)) <= 20000 + |rows|
  {
    PercentageErrorAccumulates(rows, total);
    CancelTotal(total, SumPercentages(Shares(rows, total)), |rows|);
  }

  datatype BreakdownBody = BreakdownBody(
    startDate: Date, endDate: Date, categories: seq<CategoryShare>, totalExpenses: int)

  /** What GET /analytics/expenses-by-category computes before it builds the response. */
  function BreakdownOf(cats: seq<Category>, txs: seq<Transaction>, sc: Scope): BreakdownBody {
    var rows := BreakdownRows(cats, txs, sc);
    var total := SumTotals(rows);
    BreakdownBody(sc.start, sc.end, Shares(rows, total), total)
  }

  /** GET /analytics/expenses-by-category as written: the query and the percentages are
      computed, then building the response names `startDate` and `endDate`, which this handler
      never declares; the ReferenceError lands in the catch and every request answers 500. */
  function CategoryBreakdownAsWritten(cats: seq<Category>, txs: seq<Transaction>, userId: nat,
                                      startParam: DateParam, endParam: DateParam, today: Date)
    : (reply: Outcome<BreakdownBody>)
    ensures reply.Failure? && reply.status == 500
  {
    var start := ResolveDate(startParam, FirstOfMonth(today));
    var end := ResolveDate(endParam, today);
    if start.None? || end.None? then Failure(500, InternalError)
    else
      var computed := BreakdownOf(cats, txs, Scope(userId, start.value, end.value));
      Failure(500, InternalError)
  }

  /** GET /analytics/expenses-by-category with the period echoing the resolved range: a date
      PostgreSQL cannot read fails the query (500); otherwise the breakdown. */
  function CategoryBreakdown(cats: seq<Category>, txs: seq<Transaction>, userId: nat,
                             startParam: DateParam, endParam: DateParam, today: Date)
    : (reply: Outcome<BreakdownBody>)
    ensures reply.Success? <==> !startParam.Unparseable? && !endParam.Unparseable?
    ensures reply.Failure? ==> reply == Failure(500, InternalError)
    ensures reply.Success? ==>
      && reply.status == 200
      && reply.value == BreakdownOf(cats, txs, Scope(userId, ResolveDate(startParam, FirstOfMonth(today)).value,
                                                     ResolveDate(endParam, today).value))
  {
    var start := ResolveDate(startParam, FirstOfMonth(today));
    var end := ResolveDate(endParam, today);
    if start.None? || end.None? then Failure(500, InternalError)
    else Success(200, BreakdownOf(cats, txs, Scope(userId, start.value, end.value)))
  }

  /** Every well-formed request the fixed handler answers with a breakdown gets 500 from the
      handler as written. */
  lemma CategoryBreakdownAlwaysFails(cats: seq<Category>, txs: seq<Transaction>, userId: nat, today: Date)
    ensures CategoryBreakdown(cats, txs, userId, Absent, Absent, today).Success?
    ensures CategoryBreakdownAsWritten(cats, txs, userId, Absent, Absent, today) == Failure(500, InternalError)
  {
  }

  // ---------------------------------------------------------------------------------------
  // GET /analytics/monthly-trends

  /** `user_id = $1 AND EXTRACT(YEAR FROM date) = $2` (the `date >= '<year>-01-01'` condition
      adds nothing), in one month and of one kind. */
  predicate InMonth(t: Transaction, userId: nat, year: int, month: int, kind: Kind) {
    t.userId == userId && t.date.year == year && t.date.month == month && t.kind == kind
  }

  function MonthSum(txs: seq<Transaction>, userId: nat, year: int, month: int, kind: Kind): int {
    if txs == [] then 0
    else (if InMonth(txs[0], userId, year, month, kind) then txs[0].amount else 0)
         + MonthSum(txs[1..], userId, year, month, kind)
  }

  predicate AnyInMonth(txs: seq<Transaction>, userId: nat, year: int, month: int, kind: Kind) {
    exists i :: 0 <= i < |txs| && InMonth(txs[i], userId, year, month, kind)
  }

  lemma {:induction false} MonthSumWithoutRows(txs: seq<Transaction>, userId: nat, year: int, month: int, kind: Kind)
    requires !AnyInMonth(txs, userId, year, month, kind)
    ensures MonthSum(txs, userId, year, month, kind) == 0
  {
    if txs != [] {
      assert !InMonth(txs[0], userId, year, month, kind);
      assert !AnyInMonth(txs[1..], userId, year, month, kind) by {
        forall i | 0 <= i < |txs| - 1 ensures !InMonth(txs[1..][i], userId, year, month, kind) {
          assert txs[1..][i] == txs[i + 1];
        }
      }
      MonthSumWithoutRows(txs[1..], userId, year, month, kind);
    }
  }

  /** A row of the trends query: `DATE_TRUNC('month', date)` (as its month number), the type
      and the sum. */
  datatype TrendRow = TrendRow(month: int, kind: Kind, total: int)

  /** The trends query's rows for one month: income first, then expense, each present when the
      month has a transaction of that kind. */
  function MonthRows(txs: seq<Transaction>, userId: nat, year: int, month: int): seq<TrendRow> {
    (if AnyInMonth(txs, userId, year, month, Income)
     then [TrendRow(month, Income, MonthSum(txs, userId, year, month, Income))] else [])
    + (if AnyInMonth(txs, userId, year, month, Expense)
       then [TrendRow(month, Expense, MonthSum(txs, userId, year, month, Expense))] else [])
  }

  /** The query's rows grouped month by month, January first. */
  function MonthBlocks(txs: seq<Transaction>, userId: nat, year: int): (blocks: seq<seq<TrendRow>>)
    ensures |blocks| == 12
  {
    seq(12, k requires 0 <= k < 12 => MonthRows(txs, userId, year, k + 1))
  }

  /** Blocks laid end to end. */
  function Concat(blocks: seq<seq<TrendRow>>): seq<TrendRow> {
    if blocks == [] then [] else blocks[0] + Concat(blocks[1..])
  }

  /** The trends query's rows for a year, `ORDER BY month`. */
  function TrendRows(txs: seq<Transaction>, userId: nat, year: int): seq<TrendRow> {
    Concat(MonthBlocks(txs, userId, year))
  }

  /** Every row's month is `month`. */
  predicate AllInMonth(rows: seq<TrendRow>, month: int) {
    forall i :: 0 <= i < |rows| ==> rows[i].month == month
  }

  /** Every row's month lies in `lo`..`hi`. */
  predicate MonthsBetween(rows: seq<TrendRow>, lo: int, hi: int) {
    forall i :: 0 <= i < |rows| ==> lo <= rows[i].month <= hi
  }

  /** Block k holds only rows of month `first + k`. */
  predicate BlocksByMonth(blocks: seq<seq<TrendRow>>, first: int) {
    forall k :: 0 <= k < |blocks| ==> AllInMonth(blocks[k], first + k)
  }

  predicate MonthOrdered(rows: seq<TrendRow>) {
    forall i, j :: 0 <= i < j < |rows| ==> rows[i].month <= rows[j].month
  }

  lemma BlocksByMonthTail(blocks: seq<seq<TrendRow>>, first: int)
    requires blocks != [] && BlocksByMonth(blocks, first)
    ensures AllInMonth(blocks[0], first) && BlocksByMonth(blocks[1..], first + 1)
  {
    forall k | 0 <= k < |blocks| - 1 ensures AllInMonth(blocks[1..][k], first + 1 + k) {
      assert blocks[1..][k] == blocks[k + 1];
    }
  }

  lemma MonthsBetweenAppend(head: seq<TrendRow>, rest: seq<TrendRow>, month: int, hi: int)
    requires AllInMonth(head, month) && month <= hi && MonthsBetween(rest, month + 1, hi)
    ensures MonthsBetween(head + rest, month, hi)
  {
    var rows := head + rest;
    forall i | 0 <= i < |rows| ensures month <= rows[i].month <= hi {
      if i < |head| { assert rows[i] == head[i]; } else { assert rows[i] == rest[i - |head|]; }
    }
  }

  /** Blocks of consecutive months hold rows of those months only. */
  lemma {:induction false} ConcatMonths(blocks: seq<seq<TrendRow>>, first: int)
    requires BlocksByMonth(blocks, first)
    ensures MonthsBetween(Concat(blocks), first, first + |blocks| - 1)
  {
    if blocks != [] {
      BlocksByMonthTail(blocks, first);
      ConcatMonths(blocks[1..], first + 1);
      MonthsBetweenAppend(blocks[0], Concat(blocks[1..]), first, first + |blocks| - 1);
    }
  }

  /** One month's rows placed before rows of later months, themselves ordered, stay ordered. */
  lemma OrderedAfterMonth(head: seq<TrendRow>, rest: seq<TrendRow>, month: int, hi: int)
    requires AllInMonth(head, month) && MonthsBetween(rest, month + 1, hi) && MonthOrdered(rest)
    ensures MonthOrdered(head + rest)
  {
    var rows := head + rest;
    forall i, j | 0 <= i < j < |rows| ensures rows[i].month <= rows[j].month {
      if j < |head| {
        assert rows[i] == head[i] && rows[j] == head[j];
      } else if i < |head| {
        assert rows[i] == head[i] && rows[j] == rest[j - |head|];
      } else {
        assert rows[i] == rest[i - |head|] && rows[j] == rest[j - |head|];
      }
    }
  }

  /** Blocks of consecutive months laid end to end come in month order. */
  lemma {:induction false} ConcatOrdered(blocks: seq<seq<TrendRow>>, first: int)
    requires BlocksByMonth(blocks, first)
    ensures MonthOrdered(Concat(blocks))
  {
    if blocks != [] {
      BlocksByMonthTail(blocks, first);
      ConcatOrdered(blocks[1..], first + 1);
      ConcatMonths(blocks[1..], first + 1);
      OrderedAfterMonth(blocks[0], Concat(blocks[1..]), first, first + |blocks| - 1);
    }
  }

  /** Some row lands in entry `index` for the kind. */
  predicate HasRow(rows: seq<TrendRow>, index: int, kind: Kind) {
    exists j :: 0 <= j < |rows| && rows[j].month - 1 == index && rows[j].kind == kind
  }

  /** What the populating `forEach` leaves in entry `index` for one kind: the last row with that
      month index and kind, or 0. */
  function RowTotal(rows: seq<TrendRow>, index: int, kind: Kind): int {
    if rows == [] then 0
    else
      var last := rows[|rows| - 1];
      if last.month - 1 == index && last.kind == kind then last.total
      else RowTotal(rows[..|rows| - 1], index, kind)
  }

  lemma {:induction false} RowTotalWithoutRow(rows: seq<TrendRow>, index: int, kind: Kind)
    requires !HasRow(rows, index, kind)
    ensures RowTotal(rows, index, kind) == 0
  {
    if rows != [] {
      var init := rows[..|rows| - 1];
      assert !HasRow(init, index, kind) by {
        forall j | 0 <= j < |init| ensures init[j].month - 1 != index || init[j].kind != kind {
          assert init[j] == rows[j];
        }
      }
      RowTotalWithoutRow(init, index, kind);
    }
  }

  /** Later rows overwrite earlier ones. */
  lemma {:induction false} RowTotalAppend(a: seq<TrendRow>, b: seq<TrendRow>, index: int, kind: Kind)
    ensures RowTotal(a + b, index, kind)
            == if HasRow(b, index, kind) then RowTotal(b, index, kind) else RowTotal(a, index, kind)
  {
    if b == [] {
      assert a + b == a;
    } else {
      var last := b[|b| - 1];
      var init := b[..|b| - 1];
      assert (a + b)[..|a + b| - 1] == a + init;
      assert (a + b)[|a + b| - 1] == last;
      if !(last.month - 1 == index && last.kind == kind) {
        RowTotalAppend(a, init, index, kind);
        assert HasRow(b, index, kind) <==> HasRow(init, index, kind) by {
          if HasRow(b, index, kind) {
            var j :| 0 <= j < |b| && b[j].month - 1 == index && b[j].kind == kind;
            assert j < |init| && init[j] == b[j];
          }
          if HasRow(init, index, kind) {
            var j :| 0 <= j < |init| && init[j].month - 1 == index && init[j].kind == kind;
            assert b[j] == init[j];
          }
        }
      } else {
        assert HasRow(b, index, kind) by { assert b[|b| - 1] == last; }
      }
    }
  }

  /** Rows of one month leave every other month's entry to the rows after them. */
  lemma OtherMonthSkipped(head: seq<TrendRow>, rest: seq<TrendRow>, month: int, index: int, kind: Kind)
    requires AllInMonth(head, month) && index != month - 1
    ensures RowTotal(head + rest, index, kind) == RowTotal(rest, index, kind)
  {
    assert !HasRow(head, index, kind);
    RowTotalWithoutRow(head, index, kind);
    RowTotalAppend(head, rest, index, kind);
    if !HasRow(rest, index, kind) {
      RowTotalWithoutRow(rest, index, kind);
    }
  }

  /** No later month's row lands in this month's entry. */
  lemma OwnMonthKept(head: seq<TrendRow>, rest: seq<TrendRow>, month: int, hi: int, kind: Kind)
    requires MonthsBetween(rest, month + 1, hi)
    ensures RowTotal(head + rest, month - 1, kind) == RowTotal(head, month - 1, kind)
  {
    assert !HasRow(rest, month - 1, kind);
    RowTotalAppend(head, rest, month - 1, kind);
  }

  /** The entry of a month covered by the blocks is whatever that month's own block leaves in it. */
  lemma {:induction false} ConcatTotal(blocks: seq<seq<TrendRow>>, first: int, index: int, kind: Kind)
    requires BlocksByMonth(blocks, first) && first - 1 <= index < first - 1 + |blocks|
    ensures RowTotal(Concat(blocks), index, kind) == RowTotal(blocks[index - first + 1], index, kind)
  {
    BlocksByMonthTail(blocks, first);
    if index == first - 1 {
      ConcatMonths(blocks[1..], first + 1);
      OwnMonthKept(blocks[0], Concat(blocks[1..]), first, first + |blocks| - 1, kind);
    } else {
      ConcatTotal(blocks[1..], first + 1, index, kind);
      OtherMonthSkipped(blocks[0], Concat(blocks[1..]), first, index, kind);
      assert blocks[1..][index - first] == blocks[index - first + 1];
    }
  }

  lemma MonthRowsTotal(txs: seq<Transaction>, userId: nat, year: int, month: int, index: int, kind: Kind)
    ensures HasRow(MonthRows(txs, userId, year, month), index, kind)
            <==> index == month - 1 && AnyInMonth(txs, userId, year, month, kind)
    ensures RowTotal(MonthRows(txs, userId, year, month), index, kind)
            == if index == month - 1 then MonthSum(txs, userId, year, month, kind) else 0
  {
    var rows := MonthRows(txs, userId, year, month);
    if index == month - 1 && AnyInMonth(txs, userId, year, month, kind) {
      if kind == Income { assert rows[0].kind == kind; } else { assert rows[|rows| - 1].kind == kind; }
    }
    if !HasRow(rows, index, kind) {
      RowTotalWithoutRow(rows, index, kind);
      if index == month - 1 {
        MonthSumWithoutRows(txs, userId, year, month, kind);
      }
    } else if |rows| == 2 {
      assert rows[..1] == [rows[0]];
    }
  }

  lemma MonthBlocksByMonth(txs: seq<Transaction>, userId: nat, year: int)
    ensures BlocksByMonth(MonthBlocks(txs, userId, year), 1)
  {
    var blocks := MonthBlocks(txs, userId, year);
    forall k | 0 <= k < 12 ensures AllInMonth(blocks[k], 1 + k) {
      assert blocks[k] == MonthRows(txs, userId, year, k + 1);
    }
  }

  /** The year's rows name months 1..12, in order. */
  lemma TrendRowsOrdered(txs: seq<Transaction>, userId: nat, year: int)
    ensures MonthsBetween(TrendRows(txs, userId, year), 1, 12)
    ensures MonthOrdered(TrendRows(txs, userId, year))
  {
    MonthBlocksByMonth(txs, userId, year);
    ConcatMonths(MonthBlocks(txs, userId, year), 1);
    ConcatOrdered(MonthBlocks(txs, userId, year), 1);
  }

  /** Entry `index` of the year receives that month's sum for the kind; entries past December
      receive nothing. */
  lemma TrendTotalsAreMonthSums(txs: seq<Transaction>, userId: nat, year: int, index: nat, kind: Kind)
    ensures RowTotal(TrendRows(txs, userId, year), index, kind)
            == if index < 12 then MonthSum(txs, userId, year, index + 1, kind) else 0
  {
    var blocks := MonthBlocks(txs, userId, year);
    MonthBlocksByMonth(txs, userId, year);
    if index < 12 {
      ConcatTotal(blocks, 1, index, kind);
      assert blocks[index] == MonthRows(txs, userId, year, index + 1);
      MonthRowsTotal(txs, userId, year, index + 1, index, kind);
    } else {
      ConcatMonths(blocks, 1);
      assert !HasRow(TrendRows(txs, userId, year), index, kind);
      RowTotalWithoutRow(TrendRows(txs, userId, year), index, kind);
    }
  }

  /** One element of `monthsData`: the first day of the month (its `YYYY-MM` label), the
      income, the expenses and the net. */
  datatype MonthEntry = MonthEntry(month: Date, income: int, expenses: int, net: int)

  /** The handler's three loops: push `count` zeroed months starting in January of `year`,
      copy each query row into its month when that month is in the array, then set each
      month's net. */
  method BuildMonthlyTrends(year: int, count: int, rows: seq<TrendRow>) returns (entries: seq<MonthEntry>)
    requires forall i :: 0 <= i < |rows| ==> 1 <= rows[i].month <= 12
    ensures |entries| == if count > 0 then count else 0
    ensures forall i :: 0 <= i < |entries| ==>
      && entries[i].month == MakeDate(year, i, 1)
      && entries[i].income == RowTotal(rows, i, Income)
      && entries[i].expenses == RowTotal(rows, i, Expense)
      && entries[i].net == entries[i].income - entries[i].expenses
  {
    entries := [];
    var i := 0;
    while i < count
      invariant 0 <= i && |entries| == i
      invariant count > 0 ==> i <= count
      invariant count <= 0 ==> i == 0
      invariant forall j :: 0 <= j < i ==> entries[j] == MonthEntry(MakeDate(year, j, 1), 0, 0, 0)
    {
      entries := entries + [MonthEntry(MakeDate(year, i, 1), 0, 0, 0)];
      i := i + 1;
    }
    var r := 0;
    while r < |rows|
      invariant 0 <= r <= |rows|
      invariant |entries| == i
      invariant forall j :: 0 <= j < i ==>
        && entries[j].month == MakeDate(year, j, 1)
        && entries[j].income == RowTotal(rows[..r], j, Income)
        && entries[j].expenses == RowTotal(rows[..r], j, Expense)
        && entries[j].net == 0
    {
      assert rows[..r + 1][..r] == rows[..r];
      var index := rows[r].month - 1;
      if index < |entries| {
        match rows[r].kind {
          case Income => entries := entries[index := entries[index].(income := rows[r].total)];
          case Expense => entries := entries[index := entries[index].(expenses := rows[r].total)];
        }
      }
      r := r + 1;
    }
    assert rows[..r] == rows;
    var k := 0;
    while k < |entries|
      invariant 0 <= k <= |entries| == i
      invariant forall j :: 0 <= j < i ==>
        && entries[j].month == MakeDate(year, j, 1)
        && entries[j].income == RowTotal(rows, j, Income)
        && entries[j].expenses == RowTotal(rows, j, Expense)
        && entries[j].net == if j < k then entries[j].income - entries[j].expenses else 0
    {
      entries := entries[k := entries[k].(net := entries[k].income - entries[k].expenses)];
      k := k + 1;
    }
  }

  datatype TrendsBody = TrendsBody(year: int, months: seq<MonthEntry>)

  /** How many months the response lists: `parseInt(months)` iterations, 12 by default. */
  function MonthCount(p: IntParam): nat {
    match p
    case Missing => 12
    case NotANumber => 0
    case Number(n) => if n > 0 then n else 0
  }

  /** Entry `index` of a year's trends: the month's income, expenses and net (zero past December). */
  function ExpectedEntry(txs: seq<Transaction>, userId: nat, year: int, index: nat): MonthEntry {
    var income := if index < 12 then MonthSum(txs, userId, year, index + 1, Income) else 0;
    var expenses := if index < 12 then MonthSum(txs, userId, year, index + 1, Expense) else 0;
    MonthEntry(MakeDate(year, index, 1), income, expenses, income - expenses)
  }

  /** An entry filled from the year's rows holds that month's sums. */
  lemma EntryIsExpected(txs: seq<Transaction>, userId: nat, year: int, index: nat, entry: MonthEntry)
    requires entry.month == MakeDate(year, index, 1)
    requires entry.income == RowTotal(TrendRows(txs, userId, year), index, Income)
    requires entry.expenses == RowTotal(TrendRows(txs, userId, year), index, Expense)
    requires entry.net == entry.income - entry.expenses
    ensures entry == ExpectedEntry(txs, userId, year, index)
  {
    TrendTotalsAreMonthSums(txs, userId, year, index, Income);
    TrendTotalsAreMonthSums(txs, userId, year, index, Expense);
  }

  /** GET /analytics/monthly-trends: a `year` that is not a number fails the query (500);
      otherwise `months` entries (12 by default, none when `months` is not a number) from
      January of the year, each carrying that month's income, expenses and net. */
  method MonthlyTrends(txs: seq<Transaction>, userId: nat, yearParam: IntParam, monthsParam: IntParam,
                       today: Date)
    returns (reply: Outcome<TrendsBody>)
    ensures yearParam.NotANumber? <==> reply.Failure?
    ensures reply.Failure? ==> reply == Failure(500, InternalError)
    ensures reply.Success? ==>
      && reply.status == 200
      && reply.value.year == (if yearParam.Number? then yearParam.value else today.year)
      && |reply.value.months| == MonthCount(monthsParam)
      && forall i :: 0 <= i < |reply.value.months| ==>
           reply.value.months[i] == ExpectedEntry(txs, userId, reply.value.year, i)
  {
    if yearParam.NotANumber? {
      return Failure(500, InternalError);
    }
    var year := if yearParam.Number? then yearParam.value else today.year;
    var count := match monthsParam
      case Missing => 12
      case NotANumber => 0
      case Number(n) => n;
    var rows := TrendRows(txs, userId, year);
    TrendRowsOrdered(txs, userId, year);
    var entries := BuildMonthlyTrends(year, count, rows);
    forall i | 0 <= i < |entries|
      ensures entries[i] == ExpectedEntry(txs, userId, year, i)
    {
      EntryIsExpected(txs, userId, year, i, entries[i]);
    }
    reply := Success(200, TrendsBody(year, entries));
  }

  // ---------------------------------------------------------------------------------------
  // GET /analytics/recent-transactions

  datatype RecentItem = RecentItem(
    id: nat, amount: int, description: Option<string>, kind: Kind, date: Date, createdAt: nat,
    categoryName: string, categoryColor: string)

  function ItemOf(t: Transaction, c: Category): RecentItem {
    RecentItem(t.id, t.amount, t.description, t.kind, t.date, t.createdAt, c.name, c.color)
  }

  /** The joined rows of one transaction: one per category carrying its `category_id`. */
  function JoinOne(t: Transaction, cats: seq<Category>): (items: seq<RecentItem>)
    ensures forall x :: x in items <==> exists c :: c in cats && c.id == t.categoryId && x == ItemOf(t, c)
  {
    if cats == [] then []
    else
      assert forall c :: c in cats <==> c == cats[0] || c in cats[1..];
      (if cats[0].id == t.categoryId then [ItemOf(t, cats[0])] else []) + JoinOne(t, cats[1..])
  }

  /** `transactions t JOIN categories c ON t.category_id = c.id WHERE t.user_id = $1`. */
  function JoinedRecent(txs: seq<Transaction>, cats: seq<Category>, userId: nat): (items: seq<RecentItem>)
    ensures forall x :: x in items <==>
      exists t, c :: t in txs && t.userId == userId && c in cats && c.id == t.categoryId && x == ItemOf(t, c)
  {
    if txs == [] then []
    else
      assert forall t :: t in txs <==> t == txs[0] || t in txs[1..];
      (if txs[0].userId == userId then JoinOne(txs[0], cats) else []) + JoinedRecent(txs[1..], cats, userId)
  }

  /** `ORDER BY t.date DESC, t.created_at DESC`. */
  function RecencyKey(x: RecentItem): (int, int) {
    (Ordinal(x.date), x.createdAt)
  }

  /** The query's rows: the joined rows, most recent first, at most `limit` of them. */
  function RecentRows(txs: seq<Transaction>, cats: seq<Category>, userId: nat, limit: nat): seq<RecentItem> {
    Take(SortDesc(JoinedRecent(txs, cats, userId), RecencyKey), limit)
  }

  /** The rows are the `limit` most recent of the caller's joined transactions (all of them when
      there are fewer), newest first: every joined row left out is no more recent than every
      row returned. */
  lemma RecentRowsAreLatest(txs: seq<Transaction>, cats: seq<Category>, userId: nat, limit: nat)
    ensures |RecentRows(txs, cats, userId, limit)|
            == if limit < |JoinedRecent(txs, cats, userId)| then limit else |JoinedRecent(txs, cats, userId)|
    ensures multiset(RecentRows(txs, cats, userId, limit)) <= multiset(JoinedRecent(txs, cats, userId))
    ensures SortedDesc(RecentRows(txs, cats, userId, limit), RecencyKey)
    ensures forall x, y :: x in RecentRows(txs, cats, userId, limit)
              && y in multiset(JoinedRecent(txs, cats, userId)) - multiset(RecentRows(txs, cats, userId, limit))
              ==> KeyAtLeast(RecencyKey(x), RecencyKey(y))
  {
    TopOfSorted(JoinedRecent(txs, cats, userId), RecencyKey, limit);
  }

  /** Every returned row is one of the caller's transactions joined with its category. */
  lemma RecentRowsBelongToCaller(txs: seq<Transaction>, cats: seq<Category>, userId: nat, limit: nat,
                                 x: RecentItem)
    requires x in RecentRows(txs, cats, userId, limit)
    ensures exists t, c :: t in txs && t.userId == userId && c in cats && c.id == t.categoryId && x == ItemOf(t, c)
  {
    var all := JoinedRecent(txs, cats, userId);
    var sorted := SortDesc(all, RecencyKey);
    var rows := RecentRows(txs, cats, userId, limit);
    var i :| 0 <= i < |rows| && rows[i] == x;
    assert sorted[i] == x;
    assert x in multiset(sorted);
    assert x in multiset(all);
    assert x in all;
  }

  /** GET /analytics/recent-transactions: `limit` defaults to 10; PostgreSQL rejects a limit that
      is not an integer or is negative (500). */
  function RecentTransactions(txs: seq<Transaction>, cats: seq<Category>, userId: nat, limitParam: IntParam)
    : (reply: Outcome<seq<RecentItem>>)
    ensures reply.Failure? <==> limitParam.NotANumber? || (limitParam.Number? && limitParam.value < 0)
    ensures reply.Failure? ==> reply == Failure(500, InternalError)
    ensures limitParam.Missing? ==> reply == Success(200, RecentRows(txs, cats, userId, 10))
    ensures limitParam.Number? && limitParam.value >= 0 ==>
      reply == Success(200, RecentRows(txs, cats, userId, limitParam.value))
  {
    match limitParam
    case Missing => Success(200, RecentRows(txs, cats, userId, 10))
    case NotANumber => Failure(500, InternalError)
    case Number(n) => if n < 0 then Failure(500, InternalError) else Success(200, RecentRows(txs, cats, userId, n))
  }

  // ---------------------------------------------------------------------------------------
  // GET /analytics/spending-patterns

  const DayNames: seq<string> := ["Sunday", "Monday", "Tuesday", "Wednesday", "Thursday", "Friday", "Saturday"]

  /** A transaction of the group `(EXTRACT(DOW FROM date), EXTRACT(HOUR FROM created_at),
      transaction_type)`. */
  predicate InSlot(t: Transaction, sc: Scope, day: int, hour: int, kind: Kind) {
    InRange(t, sc) && Valid(t.date) && DayOfWeek(t.date) == day && HourOfDay(t.createdAt) == hour
    && t.kind == kind
  }

  function SlotCount(txs: seq<Transaction>, sc: Scope, day: int, hour: int, kind: Kind): nat {
    if txs == [] then 0
    else (if InSlot(txs[0], sc, day, hour, kind) then 1 else 0) + SlotCount(txs[1..], sc, day, hour, kind)
  }

  function SlotSum(txs: seq<Transaction>, sc: Scope, day: int, hour: int, kind: Kind): int {
    if txs == [] then 0
    else (if InSlot(txs[0], sc, day, hour, kind) then txs[0].amount else 0) + SlotSum(txs[1..], sc, day, hour, kind)
  }

  /** The groups numbered in `ORDER BY day_of_week, hour_of_day` order (income before expense
      within an hour): 7 days × 24 hours × 2 kinds. */
  function SlotIndex(day: int, hour: int, kind: Kind): int {
    day * 48 + hour * 2 + (if kind == Income then 0 else 1)
  }

  function SlotDay(g: nat): int { g / 48 }
  function SlotHour(g: nat): int { (g % 48) / 2 }
  function SlotKind(g: nat): Kind { if g % 2 == 0 then Income else Expense }

  lemma SlotDecode(g: nat)
    requires g < 336
    ensures 0 <= SlotDay(g) < 7 && 0 <= SlotHour(g) < 24
    ensures SlotIndex(SlotDay(g), SlotHour(g), SlotKind(g)) == g
  {
  }

  lemma SlotEncode(day: int, hour: int, kind: Kind)
    requires 0 <= day < 7 && 0 <= hour < 24
    ensures 0 <= SlotIndex(day, hour, kind) < 336
    ensures var g := SlotIndex(day, hour, kind);
      SlotDay(g) == day && SlotHour(g) == hour && SlotKind(g) == kind
  {
  }

  /** A row of the patterns query: the group, `AVG(amount)` and `COUNT(*)`. */
  datatype PatternRow = PatternRow(dayOfWeek: int, hourOfDay: int, kind: Kind, avgAmount: real, count: nat)

  function RowSlot(r: PatternRow): int {
    SlotIndex(r.dayOfWeek, r.hourOfDay, r.kind)
  }

  /** A row describes a non-empty group: its count and its average of the group's amounts. */
  predicate RowMatchesGroup(r: PatternRow, txs: seq<Transaction>, sc: Scope) {
    && 0 <= r.dayOfWeek < 7 && 0 <= r.hourOfDay < 24
    && r.count == SlotCount(txs, sc, r.dayOfWeek, r.hourOfDay, r.kind) && r.count > 0
    && r.avgAmount * r.count as real == SlotSum(txs, sc, r.dayOfWeek, r.hourOfDay, r.kind) as real
  }

  /** The row of group g. */
  function GroupRow(txs: seq<Transaction>, sc: Scope, g: nat): (r: PatternRow)
    requires g < 336 && SlotCount(txs, sc, SlotDay(g), SlotHour(g), SlotKind(g)) > 0
    ensures RowMatchesGroup(r, txs, sc) && RowSlot(r) == g
  {
    SlotDecode(g);
    var day, hour, kind := SlotDay(g), SlotHour(g), SlotKind(g);
    var count := SlotCount(txs, sc, day, hour, kind);
    PatternRow(day, hour, kind, SlotSum(txs, sc, day, hour, kind) as real / count as real, count)
  }

  /** The patterns query's rows for the groups numbered `g` and above. */
  function PatternRowsFrom(txs: seq<Transaction>, sc: Scope, g: nat): (rows: seq<PatternRow>)
    requires g <= 336
    ensures forall i :: 0 <= i < |rows| ==> g <= RowSlot(rows[i]) < 336 && RowMatchesGroup(rows[i], txs, sc)
    ensures forall i, j :: 0 <= i < j < |rows| ==> RowSlot(rows[i]) < RowSlot(rows[j])
    decreases 336 - g
  {
    if g == 336 then []
    else
      var rest := PatternRowsFrom(txs, sc, g + 1);
      if SlotCount(txs, sc, SlotDay(g), SlotHour(g), SlotKind(g)) > 0 then
        var row := GroupRow(txs, sc, g);
        assert forall i :: 1 <= i < |rest| + 1 ==> ([row] + rest)[i] == rest[i - 1];
        [row] + rest
      else rest
  }

  /** The patterns query: `ORDER BY day_of_week, hour_of_day`. */
  function PatternRows(txs: seq<Transaction>, sc: Scope): seq<PatternRow> {
    PatternRowsFrom(txs, sc, 0)
  }

  predicate HasGroupRow(rows: seq<PatternRow>, day: int, hour: int, kind: Kind) {
    exists i :: 0 <= i < |rows| && rows[i].dayOfWeek == day && rows[i].hourOfDay == hour && rows[i].kind == kind
  }

  /** Group g contributes its row in front of the later groups' rows exactly when it is
      non-empty. */
  lemma PatternRowsFromUnfold(txs: seq<Transaction>, sc: Scope, g: nat)
    requires g < 336
    ensures PatternRowsFrom(txs, sc, g)
            == if SlotCount(txs, sc, SlotDay(g), SlotHour(g), SlotKind(g)) > 0
               then [GroupRow(txs, sc, g)] + PatternRowsFrom(txs, sc, g + 1)
               else PatternRowsFrom(txs, sc, g + 1)
  {
  }

  lemma HasGroupRowCons(row: PatternRow, rest: seq<PatternRow>, day: int, hour: int, kind: Kind)
    requires HasGroupRow(rest, day, hour, kind)
             || (row.dayOfWeek == day && row.hourOfDay == hour && row.kind == kind)
    ensures HasGroupRow([row] + rest, day, hour, kind)
  {
    var rows := [row] + rest;
    if row.dayOfWeek == day && row.hourOfDay == hour && row.kind == kind {
      assert rows[0] == row;
    } else {
      var i :| 0 <= i < |rest| && rest[i].dayOfWeek == day && rest[i].hourOfDay == hour && rest[i].kind == kind;
      assert rows[i + 1] == rest[i];
    }
  }

  /** Every non-empty group from `g` on has its row. */
  lemma {:induction false} PatternRowsFromComplete(txs: seq<Transaction>, sc: Scope, g: nat,
                                                   day: int, hour: int, kind: Kind)
    requires g <= 336 && 0 <= day < 7 && 0 <= hour < 24
    requires g <= SlotIndex(day, hour, kind)
    requires SlotCount(txs, sc, day, hour, kind) > 0
    ensures HasGroupRow(PatternRowsFrom(txs, sc, g), day, hour, kind)
    decreases 336 - g
  {
    SlotEncode(day, hour, kind);
    PatternRowsFromUnfold(txs, sc, g);
    var rest := PatternRowsFrom(txs, sc, g + 1);
    if SlotIndex(day, hour, kind) == g {
      HasGroupRowCons(GroupRow(txs, sc, g), rest, day, hour, kind);
    } else {
      PatternRowsFromComplete(txs, sc, g + 1, day, hour, kind);
      if SlotCount(txs, sc, SlotDay(g), SlotHour(g), SlotKind(g)) > 0 {
        HasGroupRowCons(GroupRow(txs, sc, g), rest, day, hour, kind);
      }
    }
  }

  /** The rows are exactly the non-empty groups, each once, ordered by day of week and hour. */
  lemma PatternRowsSpec(txs: seq<Transaction>, sc: Scope)
    ensures forall i :: 0 <= i < |PatternRows(txs, sc)| ==> RowMatchesGroup(PatternRows(txs, sc)[i], txs, sc)
    ensures forall day, hour, kind :: 0 <= day < 7 && 0 <= hour < 24 && SlotCount(txs, sc, day, hour, kind) > 0 ==>
      HasGroupRow(PatternRows(txs, sc), day, hour, kind)
    ensures forall i, j :: 0 <= i < j < |PatternRows(txs, sc)| ==>
      var a, b := PatternRows(txs, sc)[i], PatternRows(txs, sc)[j];
      a.dayOfWeek < b.dayOfWeek || (a.dayOfWeek == b.dayOfWeek && a.hourOfDay <= b.hourOfDay)
  {
    var rows := PatternRows(txs, sc);
    forall day, hour, kind | 0 <= day < 7 && 0 <= hour < 24 && SlotCount(txs, sc, day, hour, kind) > 0
      ensures HasGroupRow(rows, day, hour, kind)
    {
      PatternRowsFromComplete(txs, sc, 0, day, hour, kind);
    }
    forall i, j | 0 <= i < j < |rows|
      ensures rows[i].dayOfWeek < rows[j].dayOfWeek
              || (rows[i].dayOfWeek == rows[j].dayOfWeek && rows[i].hourOfDay <= rows[j].hourOfDay)
    {
      SlotEncode(rows[i].dayOfWeek, rows[i].hourOfDay, rows[i].kind);
      SlotEncode(rows[j].dayOfWeek, rows[j].hourOfDay, rows[j].kind);
    }
  }

  /** One element of `patterns`. */
  datatype Pattern = Pattern(
    dayOfWeek: int, dayName: string, hourOfDay: int, kind: Kind, avgAmount: real, transactionCount: nat)

  function Patterns(rows: seq<PatternRow>): (patterns: seq<Pattern>)
    requires forall i :: 0 <= i < |rows| ==> 0 <= rows[i].dayOfWeek < 7
    ensures |patterns| == |rows|
    ensures forall i :: 0 <= i < |rows| ==> patterns[i].dayName == DayNames[rows[i].dayOfWeek]
  {
    seq(|rows|, i requires 0 <= i < |rows| =>
      Pattern(rows[i].dayOfWeek, DayNames[rows[i].dayOfWeek], rows[i].hourOfDay, rows[i].kind,
              rows[i].avgAmount, rows[i].count))
  }

  datatype PatternsBody = PatternsBody(startDate: Date, endDate: Date, patterns: seq<Pattern>)

  function PatternsOf(txs: seq<Transaction>, sc: Scope): PatternsBody {
    PatternsBody(sc.start, sc.end, Patterns(PatternRows(txs, sc)))
  }

  /** GET /analytics/spending-patterns as written: like the category breakdown it names the
      undeclared `startDate` and `endDate` when building the response, so it always answers 500. */
  function SpendingPatternsAsWritten(txs: seq<Transaction>, userId: nat, startParam: DateParam,
                                     endParam: DateParam, today: Date)
    : (reply: Outcome<PatternsBody>)
    ensures reply.Failure? && reply.status == 500
  {
    var start := ResolveDate(startParam, FirstOfMonth(today));
    var end := ResolveDate(endParam, today);
    if start.None? || end.None? then Failure(500, InternalError)
    else
      var computed := PatternsOf(txs, Scope(userId, start.value, end.value));
      Failure(500, InternalError)
  }

  /** GET /analytics/spending-patterns with the period echoing the resolved range. */
  function SpendingPatterns(txs: seq<Transaction>, userId: nat, startParam: DateParam, endParam: DateParam,
                            today: Date)
    : (reply: Outcome<PatternsBody>)
    ensures reply.Success? <==> !startParam.Unparseable? && !endParam.Unparseable?
    ensures reply.Failure? ==> reply == Failure(500, InternalError)
    ensures reply.Success? ==>
      && reply.status == 200
      && reply.value == PatternsOf(txs, Scope(userId, ResolveDate(startParam, FirstOfMonth(today)).value,
                                              ResolveDate(endParam, today).value))
  {
    var start := ResolveDate(startParam, FirstOfMonth(today));
    var end := ResolveDate(endParam, today);
    if start.None? || end.None? then Failure(500, InternalError)
    else Success(200, PatternsOf(txs, Scope(userId, start.value, end.value)))
  }

  lemma SpendingPatternsAlwaysFails(txs: seq<Transaction>, userId: nat, today: Date)
    ensures SpendingPatterns(txs, userId, Absent, Absent, today).Success?
    ensures SpendingPatternsAsWritten(txs, userId, Absent, Absent, today) == Failure(500, InternalError)
  {
  }
}
