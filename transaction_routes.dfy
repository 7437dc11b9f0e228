/** The transaction routes (`/transactions`): the list query assembled filter by filter, the
    single-row read, and create, update and delete against the ledger with the cache
    invalidation that follows each write. */
module TransactionRoutes {
  import opened Wrappers
  import opened Text
  import opened Calendar
  import opened Ledger
  import opened Sql
  import opened Like
  import opened Sorting
  import Cache

  // ---------------------------------------------------------------------------------------
  // GET /transactions: the query string

  /** The query string of the list route. A filter is the raw text sent, an absent one being
      the empty text (both are falsy, and the handler only tests truthiness); `page` and
      `limit` are the numbers JavaScript makes of theirs. */
  datatype ListQuery = ListQuery(
    page: IntParam,
    limit: IntParam,
    kind: string,
    categoryId: string,
    startDate: string,
    endDate: string,
    search: string,
    sortBy: string,
    sortOrder: string)

  /** How PostgreSQL reads a text parameter compared with an integer or a date column: None
      when it rejects the text, which fails the statement. */
  datatype Casts = Casts(asInt: string -> Option<int>, asDate: string -> Option<Date>)

  /** A filter the query supplies, with its text. */
  datatype Filter = ByKind(text: string) | ByCategory(text: string) | ByStart(text: string)
                  | ByEnd(text: string) | BySearch(text: string)

  /** The supplied filters, in the order the handler tests them. */
  function Filters(q: ListQuery): seq<Filter> {
    (if q.kind != "" then [ByKind(q.kind)] else [])
    + (if q.categoryId != "" then [ByCategory(q.categoryId)] else [])
    + (if q.startDate != "" then [ByStart(q.startDate)] else [])
    + (if q.endDate != "" then [ByEnd(q.endDate)] else [])
    + (if q.search != "" then [BySearch(q.search)] else [])
  }

  /** Which filters are supplied; the statement text depends on nothing else of the filters. */
  datatype Presence = Presence(kind: bool, category: bool, start: bool, end: bool, search: bool)

  function PresenceOf(q: ListQuery): Presence {
    Presence(q.kind != "", q.categoryId != "", q.startDate != "", q.endDate != "", q.search != "")
  }

  // ---------------------------------------------------------------------------------------
  // The WHERE clause

  /** A condition of the WHERE clause, with the placeholder it reads. */
  datatype Cond = UserIs(n: nat) | KindIs(n: nat) | CategoryIs(n: nat) | DateFrom(n: nat)
                | DateUntil(n: nat) | Matches(n: nat)

  function CondSql(c: Cond): seq<Piece> {
    match c
    case UserIs(n) => [Lit("t.user_id = "), Param(n)]
    case KindIs(n) => [Lit("t.transaction_type = "), Param(n)]
    case CategoryIs(n) => [Lit("t.category_id = "), Param(n)]
    case DateFrom(n) => [Lit("t.date >= "), Param(n)]
    case DateUntil(n) => [Lit("t.date <= "), Param(n)]
    case Matches(n) => [Lit("(t.description ILIKE "), Param(n), Lit(" OR c.name ILIKE "), Param(n), Lit(")")]
  }

  /** `WHERE c1 AND c2 AND ...`. */
  function WhereSql(conds: seq<Cond>): seq<Piece> {
    if conds == [] then [Lit("WHERE ")]
    else if |conds| == 1 then [Lit("WHERE ")] + CondSql(conds[0])
    else WhereSql(conds[..|conds| - 1]) + [Lit(" AND ")] + CondSql(conds[|conds| - 1])
  }

  function CondFor(f: Filter, n: nat): Cond {
    match f
    case ByKind(_) => KindIs(n)
    case ByCategory(_) => CategoryIs(n)
    case ByStart(_) => DateFrom(n)
    case ByEnd(_) => DateUntil(n)
    case BySearch(_) => Matches(n)
  }

  /** The value a filter sends: its text, the search wrapped as `%text%`. */
  function ValueFor(f: Filter): Value {
    match f
    case BySearch(s) => TextValue(SearchPattern(s))
    case _ => TextValue(f.text)
  }

  /** The user condition at `$1`, then one condition per supplied filter at `$2`, `$3`, ... */
  function WhereConds(fs: seq<Filter>): (conds: seq<Cond>)
    ensures |conds| == |fs| + 1
  {
    [UserIs(1)] + seq(|fs|, i requires 0 <= i < |fs| => CondFor(fs[i], i + 2))
  }

  /** The user id, then the value of each supplied filter. */
  function WhereParams(userId: nat, fs: seq<Filter>): (params: seq<Value>)
    ensures |params| == |fs| + 1
  {
    [IntValue(userId)] + seq(|fs|, i requires 0 <= i < |fs| => ValueFor(fs[i]))
  }

  lemma WhereCondsSnoc(fs: seq<Filter>, f: Filter)
    ensures WhereConds(fs + [f]) == WhereConds(fs) + [CondFor(f, |fs| + 2)]
  {
    var g := fs + [f];
    assert forall i :: 0 <= i < |fs| ==> g[i] == fs[i];
  }

  lemma WhereParamsSnoc(userId: nat, fs: seq<Filter>, f: Filter)
    ensures WhereParams(userId, fs + [f]) == WhereParams(userId, fs) + [ValueFor(f)]
  {
    var g := fs + [f];
    assert forall i :: 0 <= i < |fs| ==> g[i] == fs[i];
  }

  lemma WhereSqlSnoc(conds: seq<Cond>, c: Cond)
    requires conds != []
    ensures WhereSql(conds + [c]) == WhereSql(conds) + [Lit(" AND ")] + CondSql(c)
  {
    assert (conds + [c])[..|conds|] == conds;
  }

  /** The clause and values built so far are those of the filters `fs`. */
  ghost predicate Built(userId: nat, fs: seq<Filter>, where: seq<Piece>, params: seq<Value>, paramCount: nat) {
    && where == WhereSql(WhereConds(fs))
    && params == WhereParams(userId, fs)
    && paramCount == |params|
  }

  /** One filter's step: the next placeholder number, ` AND <condition>` on the clause and the
      filter's value on the list. */
  method AppendFilter(userId: nat, ghost fs: seq<Filter>, where: seq<Piece>, params: seq<Value>,
                      paramCount: nat, f: Filter)
    returns (where': seq<Piece>, params': seq<Value>, paramCount': nat)
    requires Built(userId, fs, where, params, paramCount)
    ensures Built(userId, fs + [f], where', params', paramCount')
  {
    paramCount' := paramCount + 1;
    where' := where + [Lit(" AND ")] + CondSql(CondFor(f, paramCount'));
    params' := params + [ValueFor(f)];
    WhereCondsSnoc(fs, f);
    WhereSqlSnoc(WhereConds(fs), CondFor(f, |fs| + 2));
    WhereParamsSnoc(userId, fs, f);
  }

  /** The clause and value list the handler starts from: the user condition at `$1`. */
  lemma BuiltStart(userId: nat)
    ensures Built(userId, [], [Lit("WHERE "), Lit("t.user_id = "), Param(1)], [IntValue(userId)], 1)
  {
    assert WhereConds([]) == [UserIs(1)];
    assert WhereParams(userId, []) == [IntValue(userId)];
  }

  /** One `if (x) { ... }` block of the handler: the filter's step when its text was supplied. */
  method AppendIfGiven(userId: nat, ghost fs: seq<Filter>, where: seq<Piece>, params: seq<Value>,
                       paramCount: nat, text: string, f: Filter)
    returns (where': seq<Piece>, params': seq<Value>, paramCount': nat, ghost fs': seq<Filter>)
    requires Built(userId, fs, where, params, paramCount)
    ensures fs' == fs + (if text != "" then [f] else [])
    ensures Built(userId, fs', where', params', paramCount')
  {
    if text != "" {
      where', params', paramCount' := AppendFilter(userId, fs, where, params, paramCount, f);
      fs' := fs + [f];
    } else {
      where', params', paramCount', fs' := where, params, paramCount, fs;
      assert fs' == fs + [];
    }
  }

  /** Lines 29-62 of the list handler: the clause and its values, grown filter by filter. */
  method BuildWhere(userId: nat, q: ListQuery) returns (where: seq<Piece>, params: seq<Value>, paramCount: nat)
    ensures where == WhereSql(WhereConds(Filters(q)))
    ensures params == WhereParams(userId, Filters(q))
    ensures paramCount == |params|
  {
    where := [Lit("WHERE "), Lit("t.user_id = "), Param(1)];
    params := [IntValue(userId)];
    paramCount := 1;
    BuiltStart(userId);
    ghost var fs: seq<Filter> := [];
    where, params, paramCount, fs := AppendIfGiven(userId, fs, where, params, paramCount, q.kind, ByKind(q.kind));
    assert fs == (if q.kind != "" then [ByKind(q.kind)] else []);
    where, params, paramCount, fs := AppendIfGiven(userId, fs, where, params, paramCount, q.categoryId, ByCategory(q.categoryId));
    where, params, paramCount, fs := AppendIfGiven(userId, fs, where, params, paramCount, q.startDate, ByStart(q.startDate));
    where, params, paramCount, fs := AppendIfGiven(userId, fs, where, params, paramCount, q.endDate, ByEnd(q.endDate));
    where, params, paramCount, fs := AppendIfGiven(userId, fs, where, params, paramCount, q.search, BySearch(q.search));
  }

  // ---------------------------------------------------------------------------------------
  // What the WHERE clause selects

  /** A row of `transactions t JOIN categories c ON t.category_id = c.id`. */
  datatype Row = Row(t: Transaction, c: Category)

  /** The joined rows: each transaction with the category it names, when that exists. */
  function JoinRows(txs: seq<Transaction>, cats: seq<Category>): (rows: seq<Row>)
    ensures forall r :: r in rows ==> r.t in txs && r.c in cats && r.c.id == r.t.categoryId
  {
    if txs == [] then []
    else
      var rest := JoinRows(txs[1..], cats);
      match FindCategory(cats, txs[0].categoryId)
      case Some(c) => [Row(txs[0], c)] + rest
      case None => rest
  }

  /** A condition on a row, reading its placeholder's value from `params`. */
  predicate CondHolds(c: Cond, params: seq<Value>, r: Row, casts: Casts) {
    1 <= c.n <= |params| &&
    var v := params[c.n - 1];
    match c
    case UserIs(_) => v == IntValue(r.t.userId)
    case KindIs(_) => v == TextValue(KindName(r.t.kind))
    case CategoryIs(_) => v.TextValue? && casts.asInt(v.s) == Some(r.t.categoryId)
    case DateFrom(_) => v.TextValue? && casts.asDate(v.s).Some? && OnOrBefore(casts.asDate(v.s).value, r.t.date)
    case DateUntil(_) => v.TextValue? && casts.asDate(v.s).Some? && OnOrBefore(r.t.date, casts.asDate(v.s).value)
    case Matches(_) =>
      v.TextValue? && ((r.t.description.Some? && ILike(r.t.description.value, v.s)) || ILike(r.c.name, v.s))
  }

  predicate WhereHolds(conds: seq<Cond>, params: seq<Value>, r: Row, casts: Casts) {
    forall i :: 0 <= i < |conds| ==> CondHolds(conds[i], params, r, casts)
  }

  /** The rows the list route means to show: the caller's, of the requested type and category,
      dated within the requested range, whose description or category name contains the
      search text as an ILIKE pattern. A NULL description never matches. */
  predicate Selected(r: Row, userId: nat, q: ListQuery, casts: Casts) {
    && r.t.userId == userId
    && (q.kind != "" ==> KindName(r.t.kind) == q.kind)
    && (q.categoryId != "" ==> casts.asInt(q.categoryId) == Some(r.t.categoryId))
    && (q.startDate != "" ==>
          casts.asDate(q.startDate).Some? && OnOrBefore(casts.asDate(q.startDate).value, r.t.date))
    && (q.endDate != "" ==>
          casts.asDate(q.endDate).Some? && OnOrBefore(r.t.date, casts.asDate(q.endDate).value))
    && (q.search != "" ==>
          (r.t.description.Some? && ILike(r.t.description.value, SearchPattern(q.search)))
          || ILike(r.c.name, SearchPattern(q.search)))
  }

  /** What a supplied filter demands of a row. */
  predicate FilterHolds(f: Filter, r: Row, casts: Casts) {
    CondHolds(CondFor(f, 1), [ValueFor(f)], r, casts)
  }

  predicate AllFiltersHold(fs: seq<Filter>, r: Row, casts: Casts) {
    forall i :: 0 <= i < |fs| ==> FilterHolds(fs[i], r, casts)
  }

  lemma AllFiltersHoldAppend(a: seq<Filter>, b: seq<Filter>, r: Row, casts: Casts)
    ensures AllFiltersHold(a + b, r, casts) <==> AllFiltersHold(a, r, casts) && AllFiltersHold(b, r, casts)
  {
    var c := a + b;
    if AllFiltersHold(a, r, casts) && AllFiltersHold(b, r, casts) {
      forall i | 0 <= i < |c| ensures FilterHolds(c[i], r, casts) {
        if i >= |a| {
          assert c[i] == b[i - |a|];
        }
      }
    }
    if AllFiltersHold(c, r, casts) {
      forall i | 0 <= i < |a| ensures FilterHolds(a[i], r, casts) {
        assert c[i] == a[i];
      }
      forall i | 0 <= i < |b| ensures FilterHolds(b[i], r, casts) {
        assert c[|a| + i] == b[i];
      }
    }
  }

  /** A filter that may be absent holds when absent and otherwise as the filter demands. */
  lemma OptionalFilterHolds(given: bool, f: Filter, r: Row, casts: Casts)
    ensures AllFiltersHold(if given then [f] else [], r, casts) <==> (given ==> FilterHolds(f, r, casts))
  {
    if given {
      assert [f][0] == f;
    }
  }

  /** What each supplied filter demands of a row, in the row's own terms. */
  lemma FilterMeanings(q: ListQuery, r: Row, casts: Casts)
    ensures FilterHolds(ByKind(q.kind), r, casts) <==> KindName(r.t.kind) == q.kind
    ensures FilterHolds(ByCategory(q.categoryId), r, casts) <==> casts.asInt(q.categoryId) == Some(r.t.categoryId)
    ensures FilterHolds(ByStart(q.startDate), r, casts) <==>
              casts.asDate(q.startDate).Some? && OnOrBefore(casts.asDate(q.startDate).value, r.t.date)
    ensures FilterHolds(ByEnd(q.endDate), r, casts) <==>
              casts.asDate(q.endDate).Some? && OnOrBefore(r.t.date, casts.asDate(q.endDate).value)
    ensures FilterHolds(BySearch(q.search), r, casts) <==>
              (r.t.description.Some? && ILike(r.t.description.value, SearchPattern(q.search)))
              || ILike(r.c.name, SearchPattern(q.search))
  {
  }

  /** The filters of a query hold of a row exactly when the row is selected (the user
      condition aside). */
  lemma FiltersMeanSelected(r: Row, userId: nat, q: ListQuery, casts: Casts)
    requires r.t.userId == userId
    ensures AllFiltersHold(Filters(q), r, casts) <==> Selected(r, userId, q, casts)
  {
    var p1 := if q.kind != "" then [ByKind(q.kind)] else [];
    var p2 := if q.categoryId != "" then [ByCategory(q.categoryId)] else [];
    var p3 := if q.startDate != "" then [ByStart(q.startDate)] else [];
    var p4 := if q.endDate != "" then [ByEnd(q.endDate)] else [];
    var p5 := if q.search != "" then [BySearch(q.search)] else [];
    assert Filters(q) == p1 + p2 + p3 + p4 + p5;
    OptionalFilterHolds(q.kind != "", ByKind(q.kind), r, casts);
    OptionalFilterHolds(q.categoryId != "", ByCategory(q.categoryId), r, casts);
    OptionalFilterHolds(q.startDate != "", ByStart(q.startDate), r, casts);
    OptionalFilterHolds(q.endDate != "", ByEnd(q.endDate), r, casts);
    OptionalFilterHolds(q.search != "", BySearch(q.search), r, casts);
    FilterMeanings(q, r, casts);
    AllFiltersHoldAppend(p1, p2, r, casts);
    AllFiltersHoldAppend(p1 + p2, p3, r, casts);
    AllFiltersHoldAppend(p1 + p2 + p3, p4, r, casts);
    AllFiltersHoldAppend(p1 + p2 + p3 + p4, p5, r, casts);
  }

  /** The condition at position i reads the value at position i. */
  lemma {:induction false} CondReadsItsValue(userId: nat, fs: seq<Filter>, i: nat, r: Row, casts: Casts)
    requires i < |fs|
    ensures CondHolds(WhereConds(fs)[i + 1], WhereParams(userId, fs), r, casts) <==> FilterHolds(fs[i], r, casts)
  {
    var params := WhereParams(userId, fs);
    assert WhereConds(fs)[i + 1] == CondFor(fs[i], i + 2);
    assert params[i + 1] == ValueFor(fs[i]);
  }

  /** The clause built for a query, read with the values sent beside it, holds of exactly the
      selected rows: every placeholder reads the value its filter pushed. */
  lemma WhereMeansSelected(userId: nat, q: ListQuery, r: Row, casts: Casts)
    ensures WhereHolds(WhereConds(Filters(q)), WhereParams(userId, Filters(q)), r, casts)
            <==> Selected(r, userId, q, casts)
  {
    var fs := Filters(q);
    var conds := WhereConds(fs);
    var params := WhereParams(userId, fs);
    assert CondHolds(conds[0], params, r, casts) <==> r.t.userId == userId by {
      assert conds[0] == UserIs(1) && params[0] == IntValue(userId);
    }
    forall i | 0 <= i < |fs|
      ensures CondHolds(conds[i + 1], params, r, casts) <==> FilterHolds(fs[i], r, casts)
    {
      CondReadsItsValue(userId, fs, i, r, casts);
    }
    if WhereHolds(conds, params, r, casts) {
      forall i | 0 <= i < |fs| ensures FilterHolds(fs[i], r, casts) {
        assert CondHolds(conds[i + 1], params, r, casts);
      }
      FiltersMeanSelected(r, userId, q, casts);
    }
    if Selected(r, userId, q, casts) {
      FiltersMeanSelected(r, userId, q, casts);
      forall i | 0 <= i < |conds| ensures CondHolds(conds[i], params, r, casts) {
        if i > 0 {
          assert FilterHolds(fs[i - 1], r, casts);
        }
      }
    }
  }

  /** With search text free of `%`, `_` and backslashes, the search filter is a
      case-insensitive substring test on the description or the category name. */
  lemma SearchIsSubstring(q: ListQuery, r: Row)
    requires q.search != "" && PlainText(q.search)
    ensures ((r.t.description.Some? && ILike(r.t.description.value, SearchPattern(q.search)))
             || ILike(r.c.name, SearchPattern(q.search)))
            <==> ((r.t.description.Some? && Contains(Lower(r.t.description.value), Lower(q.search)))
                  || Contains(Lower(r.c.name), Lower(q.search)))
  {
    if r.t.description.Some? {
      ILikeSearchFinds(q.search, r.t.description.value);
    }
    ILikeSearchFinds(q.search, r.c.name);
  }

  // ---------------------------------------------------------------------------------------
  // Placeholders and literal text of the WHERE clause

  /** Every literal fragment the list handler writes into its WHERE clause. */
  const WhereFragments: set<string> := {
    "WHERE ", " AND ", "t.user_id = ", "t.transaction_type = ", "t.category_id = ", "t.date >= ",
    "t.date <= ", "(t.description ILIKE ", " OR c.name ILIKE ", ")"}

  lemma CondNumbers(c: Cond)
    ensures Numbers(CondSql(c)) == {c.n}
    ensures LiteralsFrom(CondSql(c), WhereFragments)
  {
    assert CondSql(c)[1] == Param(c.n);
  }

  /** The clause refers to exactly the placeholders of its conditions, numbered 1 up, and
      holds no text but the handler's own. */
  lemma {:induction false} WhereSqlShape(conds: seq<Cond>)
    requires forall i :: 0 <= i < |conds| ==> conds[i].n == i + 1
    ensures NumberedUpTo(WhereSql(conds), |conds|)
    ensures LiteralsFrom(WhereSql(conds), WhereFragments)
    decreases |conds|
  {
    var head: seq<Piece> := [Lit("WHERE ")];
    assert Numbers(head) == {};
    if conds == [] {
    } else if |conds| == 1 {
      CondNumbers(conds[0]);
      NumbersAppend(head, CondSql(conds[0]));
      LiteralsAppend(head, CondSql(conds[0]), WhereFragments);
    } else {
      var init := conds[..|conds| - 1];
      var last := conds[|conds| - 1];
      assert forall i :: 0 <= i < |init| ==> init[i] == conds[i];
      WhereSqlShape(init);
      CondNumbers(last);
      var and: seq<Piece> := [Lit(" AND ")];
      assert Numbers(and) == {};
      NumbersAppend(WhereSql(init), and);
      NumbersAppend(WhereSql(init) + and, CondSql(last));
      LiteralsAppend(WhereSql(init), and, WhereFragments);
      LiteralsAppend(WhereSql(init) + and, CondSql(last), WhereFragments);
    }
  }

  /** The clause built for any query refers to exactly `$1` .. `$k` for its k values, and none
      of the query's text is part of it. */
  lemma WhereInStep(userId: nat, q: ListQuery)
    ensures NumberedUpTo(WhereSql(WhereConds(Filters(q))), |WhereParams(userId, Filters(q))|)
    ensures LiteralsFrom(WhereSql(WhereConds(Filters(q))), WhereFragments)
  {
    var conds := WhereConds(Filters(q));
    forall i | 0 <= i < |conds| ensures conds[i].n == i + 1 {
      if i > 0 {
        assert conds[i] == CondFor(Filters(q)[i - 1], i + 1);
      }
    }
    WhereSqlShape(conds);
  }

  // ---------------------------------------------------------------------------------------
  // Sorting, paging and the two statements

  /** The sort columns the handler allows. */
  const SortColumns: seq<string> := ["date", "amount", "description", "created_at"]

  /** `validSortColumns.includes(sort_by) ? sort_by : 'date'`. */
  function SortColumn(sortBy: string): (column: string)
    ensures column in SortColumns
    ensures sortBy in SortColumns ==> column == sortBy
  {
    if sortBy in SortColumns then sortBy else "date"
  }

  /** `validSortOrders.includes(sort_order.toLowerCase()) ? sort_order.toUpperCase() : 'DESC'`
      (case mapping on ASCII letters). */
  function SortOrder(sortOrder: string): string {
    if Lower(sortOrder) == "asc" || Lower(sortOrder) == "desc" then Upper(sortOrder) else "DESC"
  }

  /** Whatever text arrives, the direction written into the statement is ASC or DESC, and it
      is the one the caller asked for, whatever the letter case. */
  lemma SortOrderIsAllowed(sortOrder: string)
    ensures SortOrder(sortOrder) == "ASC" || SortOrder(sortOrder) == "DESC"
    ensures SortOrder(sortOrder) == "ASC" <==> Lower(sortOrder) == "asc"
  {
    UpperOfLower(sortOrder);
    assert Upper("asc") == "ASC" by {
      assert |Upper("asc")| == 3;
      assert Upper("asc")[0] == 'A' && Upper("asc")[1] == 'S' && Upper("asc")[2] == 'C';
    }
    assert Upper("desc") == "DESC" by {
      assert |Upper("desc")| == 4;
      assert Upper("desc")[0] == 'D' && Upper("desc")[1] == 'E' && Upper("desc")[2] == 'S';
      assert Upper("desc")[3] == 'C';
    }
  }

  const FromJoin := "FROM transactions t JOIN categories c ON t.category_id = c.id "
  const CountHead := "SELECT COUNT(*) as total " + FromJoin
  const ListHead := "SELECT t.id, t.amount, t.description, t.transaction_type, t.date, t.created_at, "
                    + "t.updated_at, c.id as category_id, c.name as category_name, "
                    + "c.color as category_color " + FromJoin

  /** The count statement (lines 72-80). */
  function CountSql(where: seq<Piece>): seq<Piece> {
    [Lit(CountHead)] + where
  }

  /** The page statement (lines 83-100): the clause, the order, then LIMIT and OFFSET at the
      two placeholders after the clause's k. */
  function ListSql(where: seq<Piece>, column: string, order: string, k: nat): seq<Piece> {
    [Lit(ListHead)] + where + ListTail(column, order, k)
  }

  /** Every literal fragment either statement can hold. */
  const ListFragments: set<string> := WhereFragments + TailFragments + {CountHead, ListHead}

  /** The fragments of the ORDER BY, LIMIT and OFFSET tail. */
  const TailFragments: set<string> := {
    " ORDER BY t.", " ", " LIMIT ", " OFFSET ", "date", "amount", "description", "created_at", "ASC", "DESC"}

  /** `page` and `limit` with their defaults, None when JavaScript makes NaN of them. */
  function PageOf(q: ListQuery): Option<int> {
    match q.page
    case Missing => Some(1)
    case NotANumber => None
    case Number(n) => Some(n)
  }

  function LimitOf(q: ListQuery): Option<int> {
    match q.limit
    case Missing => Some(20)
    case NotANumber => None
    case Number(n) => Some(n)
  }

  /** `(page - 1) * limit`, NaN when either is. */
  function OffsetOf(q: ListQuery): Option<int> {
    if PageOf(q).Some? && LimitOf(q).Some? then Some((PageOf(q).value - 1) * LimitOf(q).value) else None
  }

  function NumberValue(n: Option<int>): Value {
    if n.Some? then IntValue(n.value) else Unreadable
  }

  /** The two statements the list handler sends and the values of each. */
  datatype ListStatements = ListStatements(
    countSql: seq<Piece>, countParams: seq<Value>, listSql: seq<Piece>, listParams: seq<Value>)

  /** Lines 28-102 of the list handler. */
  method BuildListQuery(userId: nat, q: ListQuery) returns (st: ListStatements)
    ensures st.countSql == CountSql(WhereSql(WhereConds(Filters(q))))
    ensures st.countParams == WhereParams(userId, Filters(q))
    ensures st.listSql == ListSql(WhereSql(WhereConds(Filters(q))), SortColumn(q.sortBy),
                                  SortOrder(q.sortOrder), |st.countParams|)
    ensures st.listParams == st.countParams + [NumberValue(LimitOf(q)), NumberValue(OffsetOf(q))]
  {
    var offset := OffsetOf(q);
    var where, params, paramCount := BuildWhere(userId, q);
    var column := if q.sortBy in SortColumns then q.sortBy else "date";
    var order := if Lower(q.sortOrder) == "asc" || Lower(q.sortOrder) == "desc" then Upper(q.sortOrder) else "DESC";
    var countSql := [Lit(CountHead)] + where;
    var countParams := params;
    var listSql := [Lit(ListHead)] + where
      + [Lit(" ORDER BY t."), Lit(column), Lit(" "), Lit(order), Lit(" LIMIT "), Param(paramCount + 1),
         Lit(" OFFSET "), Param(paramCount + 2)];
    params := params + [NumberValue(LimitOf(q)), NumberValue(offset)];
    st := ListStatements(countSql, countParams, listSql, params);
  }

  lemma WhereFragmentsListed(where: seq<Piece>)
    requires LiteralsFrom(where, WhereFragments)
    ensures LiteralsFrom(where, ListFragments)
  {
    assert WhereFragments <= ListFragments;
  }

  lemma CountShape(where: seq<Piece>, k: nat)
    requires NumberedUpTo(where, k) && LiteralsFrom(where, WhereFragments)
    ensures NumberedUpTo(CountSql(where), k) && LiteralsFrom(CountSql(where), ListFragments)
  {
    var head: seq<Piece> := [Lit(CountHead)];
    assert Numbers(head) == {};
    assert LiteralsFrom(head, ListFragments);
    WhereFragmentsListed(where);
    NumbersAppend(head, where);
    LiteralsAppend(head, where, ListFragments);
  }

  function ListTail(column: string, order: string, k: nat): seq<Piece> {
    [Lit(" ORDER BY t."), Lit(column), Lit(" "), Lit(order), Lit(" LIMIT "), Param(k + 1), Lit(" OFFSET "), Param(k + 2)]
  }

  lemma ListTailShape(column: string, order: string, k: nat)
    requires column in SortColumns && (order == "ASC" || order == "DESC")
    ensures LiteralsFrom(ListTail(column, order, k), TailFragments)
  {
    var tail := ListTail(column, order, k);
    forall i | 0 <= i < |tail| && tail[i].Lit? ensures tail[i].text in TailFragments {
      if i == 1 {
        assert column in TailFragments;
      }
    }
  }

  lemma ListNumbers(where: seq<Piece>, column: string, order: string, k: nat)
    requires NumberedUpTo(where, k)
    ensures NumberedUpTo(ListSql(where, column, order, k), k + 2)
  {
    var head: seq<Piece> := [Lit(ListHead)];
    var tail := ListTail(column, order, k);
    assert ListSql(where, column, order, k) == head + where + tail;
    assert tail[5] == Param(k + 1) && tail[7] == Param(k + 2);
    assert Numbers(tail) == {k + 1, k + 2};
    assert Numbers(head) == {};
    NumbersAppend(head, where);
    NumbersAppend(head + where, tail);
  }

  lemma ListLiterals(where: seq<Piece>, column: string, order: string, k: nat)
    requires LiteralsFrom(where, WhereFragments)
    requires column in SortColumns && (order == "ASC" || order == "DESC")
    ensures LiteralsFrom(ListSql(where, column, order, k), ListFragments)
  {
    var head: seq<Piece> := [Lit(ListHead)];
    var tail := ListTail(column, order, k);
    assert ListSql(where, column, order, k) == head + where + tail;
    ListTailShape(column, order, k);
    assert TailFragments <= ListFragments;
    assert LiteralsFrom(tail, ListFragments);
    assert LiteralsFrom(head, ListFragments);
    WhereFragmentsListed(where);
    LiteralsAppend(head, where, ListFragments);
    LiteralsAppend(head + where, tail, ListFragments);
  }

  lemma ListShape(where: seq<Piece>, column: string, order: string, k: nat)
    requires NumberedUpTo(where, k) && LiteralsFrom(where, WhereFragments)
    requires column in SortColumns && (order == "ASC" || order == "DESC")
    ensures NumberedUpTo(ListSql(where, column, order, k), k + 2)
    ensures LiteralsFrom(ListSql(where, column, order, k), ListFragments)
  {
    ListNumbers(where, column, order, k);
    ListLiterals(where, column, order, k);
  }

  /** Both statements refer to exactly the placeholders of the values sent with them, and
      neither holds any text the caller sent: the filters travel as values and the sort column
      and direction are drawn from fixed lists. */
  lemma ListStatementsInStep(userId: nat, q: ListQuery)
    ensures var where := WhereSql(WhereConds(Filters(q)));
            var k := |WhereParams(userId, Filters(q))|;
            && NumberedUpTo(CountSql(where), k)
            && LiteralsFrom(CountSql(where), ListFragments)
            && NumberedUpTo(ListSql(where, SortColumn(q.sortBy), SortOrder(q.sortOrder), k), k + 2)
            && LiteralsFrom(ListSql(where, SortColumn(q.sortBy), SortOrder(q.sortOrder), k), ListFragments)
  {
    WhereInStep(userId, q);
    SortOrderIsAllowed(q.sortOrder);
    CountShape(WhereSql(WhereConds(Filters(q))), |WhereParams(userId, Filters(q))|);
    ListShape(WhereSql(WhereConds(Filters(q))), SortColumn(q.sortBy), SortOrder(q.sortOrder),
              |WhereParams(userId, Filters(q))|);
  }

  // ---------------------------------------------------------------------------------------
  // The list reply

  /** PostgreSQL reads every supplied typed filter. */
  predicate CastsOk(q: ListQuery, casts: Casts) {
    && (q.categoryId != "" ==> casts.asInt(q.categoryId).Some?)
    && (q.startDate != "" ==> casts.asDate(q.startDate).Some?)
    && (q.endDate != "" ==> casts.asDate(q.endDate).Some?)
  }

  /** What the count statement answers: the joined rows its clause holds of. */
  function CountWhere(rows: seq<Row>, conds: seq<Cond>, params: seq<Value>, casts: Casts): (n: nat)
    ensures n <= |rows|
  {
    if rows == [] then 0
    else (if WhereHolds(conds, params, rows[0], casts) then 1 else 0) + CountWhere(rows[1..], conds, params, casts)
  }

  function CountSelected(rows: seq<Row>, userId: nat, q: ListQuery, casts: Casts): (n: nat)
    ensures n <= |rows|
  {
    if rows == [] then 0
    else (if Selected(rows[0], userId, q, casts) then 1 else 0) + CountSelected(rows[1..], userId, q, casts)
  }

  /** The count the statement produces is the number of selected rows. */
  lemma {:induction false} CountIsSelected(rows: seq<Row>, userId: nat, q: ListQuery, casts: Casts)
    ensures CountWhere(rows, WhereConds(Filters(q)), WhereParams(userId, Filters(q)), casts)
            == CountSelected(rows, userId, q, casts)
    decreases |rows|
  {
    if rows != [] {
      WhereMeansSelected(userId, q, rows[0], casts);
      CountIsSelected(rows[1..], userId, q, casts);
    }
  }

  /** `Math.ceil(total / limit)`; JSON null when the limit is 0. */
  function Pages(total: nat, limit: int): Option<int> {
    if limit > 0 then Some((total + limit - 1) / limit) else None
  }

  /** The page count is the fewest pages of `limit` rows that hold every row. */
  lemma PagesCover(total: nat, limit: int)
    requires limit > 0
    ensures Pages(total, limit).value * limit >= total
    ensures Pages(total, limit).value == 0 || (Pages(total, limit).value - 1) * limit < total
  {
    var p := (total + limit - 1) / limit;
    var r := (total + limit - 1) % limit;
    assert total + limit - 1 == p * limit + r && 0 <= r < limit;
    assert (p - 1) * limit == p * limit - limit;
  }

  // ---------------------------------------------------------------------------------------
  // The listed rows

  /** The rows a WHERE clause keeps, in join order. */
  function SelectWhere(rows: seq<Row>, conds: seq<Cond>, params: seq<Value>, casts: Casts): (sel: seq<Row>)
    ensures |sel| == CountWhere(rows, conds, params, casts)
    ensures forall r :: r in sel ==> r in rows && WhereHolds(conds, params, r, casts)
  {
    if rows == [] then []
    else
      var rest := SelectWhere(rows[1..], conds, params, casts);
      if WhereHolds(conds, params, rows[0], casts) then [rows[0]] + rest else rest
  }

  /** The selected rows, in join order. */
  function SelectedRows(rows: seq<Row>, userId: nat, q: ListQuery, casts: Casts): (sel: seq<Row>)
    ensures |sel| == CountSelected(rows, userId, q, casts)
    ensures forall r :: r in sel <==> r in rows && Selected(r, userId, q, casts)
  {
    if rows == [] then []
    else
      var rest := SelectedRows(rows[1..], userId, q, casts);
      assert rows == [rows[0]] + rows[1..];
      if Selected(rows[0], userId, q, casts) then [rows[0]] + rest else rest
  }

  /** The statement's WHERE clause keeps exactly the selected rows, in the same order. */
  lemma {:induction false} SelectIsSelected(rows: seq<Row>, userId: nat, q: ListQuery, casts: Casts)
    ensures SelectWhere(rows, WhereConds(Filters(q)), WhereParams(userId, Filters(q)), casts)
            == SelectedRows(rows, userId, q, casts)
    decreases |rows|
  {
    if rows != [] {
      WhereMeansSelected(userId, q, rows[0], casts);
      SelectIsSelected(rows[1..], userId, q, casts);
    }
  }

  /** The code points of a text. */
  function Codes(s: string): seq<int> {
    seq(|s|, i requires 0 <= i < |s| => s[i] as int)
  }

  /** The value `ORDER BY t.<column>` compares, as a key compared lexicographically: an amount
      or a creation time as itself, a date by year, month and day, a description by its code
      points (the C collation) with NULL after every text, as PostgreSQL sorts NULLs as larger
      than any value. */
  function SortKey(column: string, r: Row): seq<int> {
    if column == "amount" then [r.t.amount]
    else if column == "description" then
      (match r.t.description
       case Some(d) => [0] + Codes(d)
       case None => [1])
    else if column == "created_at" then [r.t.createdAt]
    else [r.t.date.year, r.t.date.month, r.t.date.day]
  }

  function ColumnKey(column: string): Row -> seq<int> {
    r => SortKey(column, r)
  }

  /** Ordering by the date key is ordering by the calendar. */
  lemma DateKeyOrder(a: Row, b: Row)
    ensures LexLe(SortKey("date", a), SortKey("date", b)) <==> OnOrBefore(a.t.date, b.t.date)
  {
    var ka, kb := SortKey("date", a), SortKey("date", b);
    var ma, mb := [a.t.date.month, a.t.date.day], [b.t.date.month, b.t.date.day];
    var da, db := [a.t.date.day], [b.t.date.day];
    assert ka[1..] == ma && kb[1..] == mb;
    assert ma[1..] == da && mb[1..] == db;
    assert da[1..] == [] && db[1..] == [];
    assert LexLe(da, db) <==> a.t.date.day <= b.t.date.day;
    assert LexLe(ma, mb) <==> a.t.date.month < b.t.date.month || (a.t.date.month == b.t.date.month && LexLe(da, db));
    assert LexLe(ka, kb) <==> a.t.date.year < b.t.date.year || (a.t.date.year == b.t.date.year && LexLe(ma, mb));
  }

  /** Ordering by the amount key is ordering by amount. */
  lemma AmountKeyOrder(a: Row, b: Row)
    ensures LexLe(SortKey("amount", a), SortKey("amount", b)) <==> a.t.amount <= b.t.amount
  {
    var ka, kb := SortKey("amount", a), SortKey("amount", b);
    assert ka[1..] == [] && kb[1..] == [];
  }

  /** A NULL description sorts after every text: last ascending, first descending. */
  lemma NullDescriptionsLast(a: Row, b: Row)
    requires a.t.description.Some? && b.t.description.None?
    ensures LexLe(SortKey("description", a), SortKey("description", b))
    ensures !LexLe(SortKey("description", b), SortKey("description", a))
  {
  }

  datatype Pagination = Pagination(page: int, limit: int, total: nat, pages: Option<int>)

  /** The list body: the rows of the page, each joined with its category, and the pagination. */
  datatype ListBody = ListBody(transactions: seq<Row>, pagination: Pagination)

  /** The rows of the page: the rows the clause keeps, sorted on the sort column in the sort
      direction, then `LIMIT limit OFFSET offset`. */
  function PageRows(rows: seq<Row>, conds: seq<Cond>, params: seq<Value>, casts: Casts, q: ListQuery,
                    offset: nat, limit: nat): seq<Row> {
    Window(SortBy(SelectWhere(rows, conds, params, casts), ColumnKey(SortColumn(q.sortBy)),
                  SortOrder(q.sortOrder) == "ASC"), offset, limit)
  }

  /** GET /transactions: a typed filter PostgreSQL cannot read, or a NaN or negative LIMIT or
      OFFSET, fails the statements (500); otherwise the rows the clause keeps, ordered by the
      sort column in the sort direction and cut to the page, with the count of the rows the
      clause keeps and the page arithmetic. */
  function ListReply(txs: seq<Transaction>, cats: seq<Category>, userId: nat, q: ListQuery, casts: Casts)
    : (reply: Outcome<ListBody>)
    ensures reply.Failure? ==> reply == Failure(500, InternalError)
    ensures reply.Success? ==> && reply.status == 200 && PageOf(q).Some? && LimitOf(q).Some?
                               && reply.value.pagination.page == PageOf(q).value
                               && reply.value.pagination.limit == LimitOf(q).value
  {
    if !CastsOk(q, casts) then Failure(500, InternalError)
    else if OffsetOf(q).None? || LimitOf(q).value < 0 || OffsetOf(q).value < 0 then Failure(500, InternalError)
    else
      var rows := JoinRows(txs, cats);
      var conds, params := WhereConds(Filters(q)), WhereParams(userId, Filters(q));
      var total := CountWhere(rows, conds, params, casts);
      var page := PageRows(rows, conds, params, casts, q, OffsetOf(q).value, LimitOf(q).value);
      Success(200, ListBody(page, Pagination(PageOf(q).value, LimitOf(q).value, total, Pages(total, LimitOf(q).value))))
  }

  /** The reply counts exactly the caller's selected rows and pages them by `limit`; it fails
      exactly when PostgreSQL cannot read a filter, the limit or the offset. */
  lemma ListReplyCounts(txs: seq<Transaction>, cats: seq<Category>, userId: nat, q: ListQuery, casts: Casts)
    ensures var reply := ListReply(txs, cats, userId, q, casts);
            && (reply.Success? <==> CastsOk(q, casts) && PageOf(q).Some? && LimitOf(q).Some?
                                    && LimitOf(q).value >= 0 && OffsetOf(q).value >= 0)
            && (reply.Success? ==>
                  var p := reply.value.pagination;
                  && p.total == CountSelected(JoinRows(txs, cats), userId, q, casts)
                  && OffsetOf(q).value == (p.page - 1) * p.limit
                  && (p.pages.Some? <==> p.limit > 0)
                  && (p.pages.Some? ==>
                        && p.pages.value * p.limit >= p.total
                        && (p.pages.value == 0 || (p.pages.value - 1) * p.limit < p.total)))
  {
    var rows := JoinRows(txs, cats);
    CountIsSelected(rows, userId, q, casts);
    var reply := ListReply(txs, cats, userId, q, casts);
    if reply.Success? {
      var total := CountWhere(rows, WhereConds(Filters(q)), WhereParams(userId, Filters(q)), casts);
      var limit := LimitOf(q).value;
      ListReplyPagination(txs, cats, userId, q, casts);
      if limit > 0 {
        PagesCover(total, limit);
      }
    }
  }

  /** A successful reply's pagination: the page and the limit asked for, the count of the rows
      the clause keeps, and the page count. */
  lemma ListReplyPagination(txs: seq<Transaction>, cats: seq<Category>, userId: nat, q: ListQuery, casts: Casts)
    requires ListReply(txs, cats, userId, q, casts).Success?
    ensures var total := CountWhere(JoinRows(txs, cats), WhereConds(Filters(q)), WhereParams(userId, Filters(q)), casts);
            ListReply(txs, cats, userId, q, casts).value.pagination
              == Pagination(PageOf(q).value, LimitOf(q).value, total, Pages(total, LimitOf(q).value))
  {
  }

  /** The listed rows are the requested page of the caller's selected rows in the requested
      order: the `limit` rows from `offset` on of the selection sorted on the column, so each
      is a selected row, they are ordered by the sort column in the sort direction, none is
      listed more often than it is selected, there are `limit` of them or as many as remain
      after the offset, and every row of the sorted selection before the page sorts at or
      before every listed row, every row after it at or after them. */
  lemma ListReplyRows(txs: seq<Transaction>, cats: seq<Category>, userId: nat, q: ListQuery, casts: Casts)
    requires ListReply(txs, cats, userId, q, casts).Success?
    ensures var body := ListReply(txs, cats, userId, q, casts).value;
            var listed := body.transactions;
            var offset, limit, total := OffsetOf(q).value, body.pagination.limit, body.pagination.total;
            var sel := SelectedRows(JoinRows(txs, cats), userId, q, casts);
            var key, asc := ColumnKey(SortColumn(q.sortBy)), SortOrder(q.sortOrder) == "ASC";
            var sorted := SortBy(sel, key, asc);
            && listed == Window(sorted, offset, limit)
            && (forall r :: r in listed ==> r in JoinRows(txs, cats) && Selected(r, userId, q, casts))
            && SortedBy(listed, key, asc)
            && multiset(listed) <= multiset(sel)
            && |listed| == (if offset >= total then 0 else if limit < total - offset then limit else total - offset)
            && (forall i, j :: 0 <= i < offset && i < |sorted| && 0 <= j < |listed| ==>
                                 InOrder(asc, key(sorted[i]), key(listed[j])))
            && (forall i, j :: offset + |listed| <= i < |sorted| && 0 <= j < |listed| ==>
                                 InOrder(asc, key(listed[j]), key(sorted[i])))
  {
    var rows := JoinRows(txs, cats);
    var key, asc := ColumnKey(SortColumn(q.sortBy)), SortOrder(q.sortOrder) == "ASC";
    SelectIsSelected(rows, userId, q, casts);
    var sel := SelectedRows(rows, userId, q, casts);
    var ordered := SortBy(sel, key, asc);
    var offset, limit := OffsetOf(q).value, LimitOf(q).value;
    WindowSorted(ordered, key, asc, offset, limit);
    WindowDominates(ordered, key, asc, offset, limit);
    var listed := Window(ordered, offset, limit);
    forall r | r in listed ensures r in rows && Selected(r, userId, q, casts) {
      assert r in multiset(listed);
      assert r in multiset(sel);
    }
  }

  /** How many rows a successful reply lists, in the terms of its own pagination: `limit`,
      or what remains after `(page - 1) * limit` of the total, none once that reaches it. */
  lemma ListedLength(txs: seq<Transaction>, cats: seq<Category>, userId: nat, q: ListQuery, casts: Casts)
    requires ListReply(txs, cats, userId, q, casts).Success?
    ensures var body := ListReply(txs, cats, userId, q, casts).value;
            var p := body.pagination;
            var offset := (p.page - 1) * p.limit;
            && p.limit >= 0 && offset >= 0
            && p.pages == Pages(p.total, p.limit)
            && |body.transactions| == (if offset >= p.total then 0 else if p.limit < p.total - offset then p.limit else p.total - offset)
  {
    ListReplyCounts(txs, cats, userId, q, casts);
    ListReplyRows(txs, cats, userId, q, casts);
  }

  // ---------------------------------------------------------------------------------------
  // GET /transactions/:id

  /** The first joined row with this id belonging to this user. */
  function FindRow(rows: seq<Row>, id: int, userId: nat): (r: Option<Row>)
    ensures r.Some? ==> r.value in rows && r.value.t.id == id && r.value.t.userId == userId
    ensures r.None? ==> forall x :: x in rows ==> !(x.t.id == id && x.t.userId == userId)
  {
    if rows == [] then None
    else if rows[0].t.id == id && rows[0].t.userId == userId then Some(rows[0])
    else FindRow(rows[1..], id, userId)
  }

  /** GET /transactions/:id: an id PostgreSQL cannot read fails (500); otherwise the caller's
      transaction with that id joined with its category, or 404. Another user's transaction is
      not found. */
  function GetTransaction(txs: seq<Transaction>, cats: seq<Category>, idText: string, userId: nat, casts: Casts)
    : (reply: Outcome<Row>)
    ensures casts.asInt(idText).None? <==> reply == Failure(500, InternalError)
    ensures reply.Success? ==> && reply.status == 200
                               && reply.value.t in txs && reply.value.c in cats
                               && reply.value.t.id == casts.asInt(idText).value
                               && reply.value.t.userId == userId
                               && reply.value.c.id == reply.value.t.categoryId
    ensures reply.Failure? && casts.asInt(idText).Some? ==>
              && reply == Failure(404, "Transaction not found")
              && forall r :: r in JoinRows(txs, cats) ==> !(r.t.id == casts.asInt(idText).value && r.t.userId == userId)
  {
    match casts.asInt(idText)
    case None => Failure(500, InternalError)
    case Some(id) =>
      match FindRow(JoinRows(txs, cats), id, userId)
      case None => Failure(404, "Transaction not found")
      case Some(r) => Success(200, r)
  }

  // ---------------------------------------------------------------------------------------
  // Request bodies and their validation (POST and PUT)

  /** The body's `amount`: absent, or text with what `isNumeric` says of it and the value in
      cents `isFloat` reads from it (None when it reads none). */
  datatype AmountInput = NoAmount | AmountText(isNumeric: bool, cents: Option<int>)

  /** A body field PostgreSQL would read as a number or a date: absent, text the validator
      rejects, or a value. */
  datatype Input<T> = Absent | Malformed | Given(value: T)

  datatype TransactionBody = TransactionBody(
    amount: AmountInput,
    description: Option<string>,
    kind: Option<string>,
    categoryId: Input<int>,
    date: Input<Date>)

  const AmountNotNumber := FieldError("amount", "Amount must be a number")
  const AmountNotPositive := FieldError("amount", "Amount must be greater than 0")
  const DescriptionTooLong := FieldError("description", "Description must be less than 500 characters")
  const KindNotAllowed := FieldError("type", "Type must be either income or expense")
  const CategoryNotPositive := FieldError("category_id", "Category ID must be a positive integer")
  const DateNotIso := FieldError("date", "Date must be a valid ISO 8601 date")

  /** The validator chains in order; `optional` (PUT) lets an absent field through, and POST
      checks an absent field as if it were empty text. */
  function AmountErrors(a: AmountInput, optional: bool): seq<FieldError> {
    match a
    case NoAmount => if optional then [] else [AmountNotNumber, AmountNotPositive]
    case AmountText(isNumeric, cents) =>
      (if isNumeric then [] else [AmountNotNumber])
      + (if cents.Some? && cents.value >= 1 then [] else [AmountNotPositive])
  }

  function DescriptionErrors(d: Option<string>): seq<FieldError> {
    if d.Some? && |d.value| > 500 then [DescriptionTooLong] else []
  }

  function KindErrors(k: Option<string>, optional: bool): seq<FieldError> {
    match k
    case None => if optional then [] else [KindNotAllowed]
    case Some(s) => if ParseKind(s).Some? then [] else [KindNotAllowed]
  }

  function CategoryErrors(c: Input<int>, optional: bool): seq<FieldError> {
    match c
    case Absent => if optional then [] else [CategoryNotPositive]
    case Malformed => [CategoryNotPositive]
    case Given(n) => if n >= 1 then [] else [CategoryNotPositive]
  }

  function DateErrors(d: Input<Date>, optional: bool): seq<FieldError> {
    match d
    case Absent => if optional then [] else [DateNotIso]
    case Malformed => [DateNotIso]
    case Given(_) => []
  }

  /** `validationResult(req).array()`: every failed check, chain by chain. */
  function ValidationErrors(body: TransactionBody, optional: bool): seq<FieldError> {
    AmountErrors(body.amount, optional) + DescriptionErrors(body.description)
    + KindErrors(body.kind, optional) + CategoryErrors(body.categoryId, optional)
    + DateErrors(body.date, optional)
  }

  /** A present amount the validators accept. */
  predicate GoodAmount(a: AmountInput) {
    a.AmountText? && a.isNumeric && a.cents.Some? && a.cents.value >= 1
  }

  /** The fields a POST body must carry. */
  predicate ValidForCreate(body: TransactionBody) {
    && GoodAmount(body.amount)
    && (body.description.Some? ==> |body.description.value| <= 500)
    && body.kind.Some? && ParseKind(body.kind.value).Some?
    && body.categoryId.Given? && body.categoryId.value >= 1
    && body.date.Given?
  }

  /** The fields a PUT body may carry: each one present is well formed. */
  predicate ValidForUpdate(body: TransactionBody) {
    && (body.amount.AmountText? ==> GoodAmount(body.amount))
    && (body.description.Some? ==> |body.description.value| <= 500)
    && (body.kind.Some? ==> ParseKind(body.kind.value).Some?)
    && !body.categoryId.Malformed? && (body.categoryId.Given? ==> body.categoryId.value >= 1)
    && !body.date.Malformed?
  }

  /** POST answers 400 exactly when a required field is missing or any field is malformed. */
  lemma CreateValidation(body: TransactionBody)
    ensures ValidationErrors(body, false) == [] <==> ValidForCreate(body)
  {
  }

  /** PUT answers 400 exactly when a present field is malformed. */
  lemma UpdateValidation(body: TransactionBody)
    ensures ValidationErrors(body, true) == [] <==> ValidForUpdate(body)
  {
  }

  /** A caller who sends nothing gets one message per required field, amount's two first. */
  lemma EmptyCreateBody()
    ensures ValidationErrors(TransactionBody(NoAmount, None, None, Absent, Absent), false)
            == [AmountNotNumber, AmountNotPositive, KindNotAllowed, CategoryNotPositive, DateNotIso]
  {
  }

  // ---------------------------------------------------------------------------------------
  // The partial UPDATE (PUT)

  /** The fields a validated PUT body assigns, in the handler's order: amount, description,
      transaction_type, category_id, date. */
  function PresentFields(body: TransactionBody): seq<FieldValue>
    requires ValidForUpdate(body)
  {
    (if !body.amount.NoAmount? then [FieldValue("amount", IntValue(body.amount.cents.value))] else [])
    + (if body.description.Some? then [FieldValue("description", TextValue(body.description.value))] else [])
    + (if body.kind.Some? then [FieldValue("transaction_type", TextValue(body.kind.value))] else [])
    + (if !body.categoryId.Absent? then [FieldValue("category_id", IntValue(body.categoryId.value))] else [])
    + (if !body.date.Absent? then [FieldValue("date", DateValue(body.date.value))] else [])
  }

  /** Lines 319-342 of the PUT handler: one `col = $n` and one value per present field. */
  method BuildTransactionUpdate(body: TransactionBody) returns (updates: seq<Assignment>, values: seq<Value>, paramCount: nat)
    requires ValidForUpdate(body)
    ensures updates == SetsFor(PresentFields(body))
    ensures values == ValuesOf(PresentFields(body))
    ensures paramCount == |values| + 1
  {
    updates, values, paramCount := [], [], 1;
    ghost var fields: seq<FieldValue> := [];
    if !body.amount.NoAmount? {
      var f := FieldValue("amount", IntValue(body.amount.cents.value));
      updates, values, paramCount := PushField(fields, updates, values, paramCount, f.column, f.value);
      fields := fields + [f];
    }
    ghost var f1 := fields;
    if body.description.Some? {
      var f := FieldValue("description", TextValue(body.description.value));
      updates, values, paramCount := PushField(fields, updates, values, paramCount, f.column, f.value);
      fields := fields + [f];
    }
    ghost var f2 := fields;
    if body.kind.Some? {
      var f := FieldValue("transaction_type", TextValue(body.kind.value));
      updates, values, paramCount := PushField(fields, updates, values, paramCount, f.column, f.value);
      fields := fields + [f];
    }
    ghost var f3 := fields;
    if !body.categoryId.Absent? {
      var f := FieldValue("category_id", IntValue(body.categoryId.value));
      updates, values, paramCount := PushField(fields, updates, values, paramCount, f.column, f.value);
      fields := fields + [f];
    }
    ghost var f4 := fields;
    if !body.date.Absent? {
      var f := FieldValue("date", DateValue(body.date.value));
      updates, values, paramCount := PushField(fields, updates, values, paramCount, f.column, f.value);
      fields := fields + [f];
    }
    assert f1 == (if !body.amount.NoAmount? then [FieldValue("amount", IntValue(body.amount.cents.value))] else []);
    assert f2 == f1 + (if body.description.Some? then [FieldValue("description", TextValue(body.description.value))] else []);
    assert f3 == f2 + (if body.kind.Some? then [FieldValue("transaction_type", TextValue(body.kind.value))] else []);
    assert f4 == f3 + (if !body.categoryId.Absent? then [FieldValue("category_id", IntValue(body.categoryId.value))] else []);
    assert fields == f4 + (if !body.date.Absent? then [FieldValue("date", DateValue(body.date.value))] else []);
  }

  /** What PostgreSQL does with `column = value` on a row; None when it rejects the value. */
  function AssignColumn(t: Transaction, column: string, v: Value): Option<Transaction> {
    if column == "amount" && v.IntValue? then Some(t.(amount := v.i))
    else if column == "description" && v.TextValue? then Some(t.(description := Some(v.s)))
    else if column == "transaction_type" && v.TextValue? && ParseKind(v.s).Some? then Some(t.(kind := ParseKind(v.s).value))
    else if column == "category_id" && v.IntValue? && v.i >= 0 then Some(t.(categoryId := v.i))
    else if column == "date" && v.DateValue? then Some(t.(date := v.d))
    else None
  }

  /** CURRENT_TIMESTAMP assigned to `updated_at`. */
  function Stamp(now: nat): (Transaction, string) -> Option<Transaction> {
    (t: Transaction, column: string) => if column == "updated_at" then Some(t.(updatedAt := now)) else None
  }

  /** The row a PUT means: each present field replaced, the rest kept, `updated_at` now. */
  function Patched(t: Transaction, body: TransactionBody, now: nat): Transaction
    requires ValidForUpdate(body)
  {
    t.(amount := if body.amount.AmountText? then body.amount.cents.value else t.amount,
       description := if body.description.Some? then body.description else t.description,
       kind := if body.kind.Some? then ParseKind(body.kind.value).value else t.kind,
       categoryId := if body.categoryId.Given? then body.categoryId.value else t.categoryId,
       date := if body.date.Given? then body.date.value else t.date,
       updatedAt := now)
  }

  /** Assigning a validated body's fields gives the patched row (timestamp aside). */
  lemma FieldsGivePatch(t: Transaction, body: TransactionBody, now: nat)
    requires ValidForUpdate(body)
    ensures AssignAll(t, PresentFields(body), AssignColumn) == Some(Patched(t, body, now).(updatedAt := t.updatedAt))
  {
    var p1 := if !body.amount.NoAmount? then [FieldValue("amount", IntValue(body.amount.cents.value))] else [];
    var p2 := if body.description.Some? then [FieldValue("description", TextValue(body.description.value))] else [];
    var p3 := if body.kind.Some? then [FieldValue("transaction_type", TextValue(body.kind.value))] else [];
    var p4 := if !body.categoryId.Absent? then [FieldValue("category_id", IntValue(body.categoryId.value))] else [];
    var p5 := if !body.date.Absent? then [FieldValue("date", DateValue(body.date.value))] else [];
    assert PresentFields(body) == p1 + p2 + p3 + p4 + p5;
    var t1 := t.(amount := if body.amount.AmountText? then body.amount.cents.value else t.amount);
    var t2 := t1.(description := if body.description.Some? then body.description else t.description);
    var t3 := t2.(kind := if body.kind.Some? then ParseKind(body.kind.value).value else t.kind);
    var t4 := t3.(categoryId := if body.categoryId.Given? then body.categoryId.value else t.categoryId);
    var t5 := t4.(date := if body.date.Given? then body.date.value else t.date);
    StepGives(t, p1, t1, AssignColumn);
    ExtendBy(t, p1, p2, t1, t2, AssignColumn);
    ExtendBy(t, p1 + p2, p3, t2, t3, AssignColumn);
    ExtendBy(t, p1 + p2 + p3, p4, t3, t4, AssignColumn);
    ExtendBy(t, p1 + p2 + p3 + p4, p5, t4, t5, AssignColumn);
  }

  /** The statement the PUT handler sends, run against the caller's row with the values sent
      beside it, yields exactly the patched row. */
  lemma UpdateMeansPatch(t: Transaction, body: TransactionBody, id: nat, now: nat)
    requires ValidForUpdate(body)
    ensures RunSets(t, SetsFor(PresentFields(body)) + [SetNow("updated_at")],
                    ValuesOf(PresentFields(body)) + [IntValue(id)], AssignColumn, Stamp(now))
            == Some(Patched(t, body, now))
  {
    var fields := PresentFields(body);
    var sets := SetsFor(fields) + [SetNow("updated_at")];
    assert sets[..|sets| - 1] == SetsFor(fields);
    SetsReadTheirValues(t, fields, [IntValue(id)], AssignColumn, Stamp(now));
    FieldsGivePatch(t, body, now);
  }

  /** The UPDATE statement numbers its values `$1` .. `$k` and puts the id at `$(k+1)`. */
  lemma UpdateStatementInStep(body: TransactionBody, id: nat)
    requires ValidForUpdate(body)
    ensures var fields := PresentFields(body);
            NumberedUpTo(UpdateSql("transactions", SetsFor(fields) + [SetNow("updated_at")], |fields| + 1),
                         |ValuesOf(fields) + [IntValue(id)]|)
  {
    UpdateNumbers("transactions", SetsFor(PresentFields(body)), "updated_at");
  }

  // ---------------------------------------------------------------------------------------
  // The write routes

  const InvalidCategory := "Invalid category ID"
  const TransactionNotFound := "Transaction not found"
  const NoFieldsToUpdate := "No valid fields to update"

  /** The cache after a transaction write by `userId`, as the routes invalidate it: the keys
      the transaction pattern matches go, on a store that answers. */
  function AfterWrite(entries: map<string, Cache.Entry>, reachable: bool, userId: nat): map<string, Cache.Entry> {
    if reachable then Cache.Invalidated(entries, Cache.TransactionPattern(userId)) else entries
  }

  /** So every cached analytics answer, the writer's included, outlives a transaction write:
      the stale overview and breakdown the corrected `Cache.AfterTransactionWrite` removes. */
  lemma WriteKeepsAnalytics(entries: map<string, Cache.Entry>, reachable: bool, userId: nat,
                            e: Cache.Endpoint, query: string, user: Option<nat>)
    requires '/' !in query && Cache.CacheKey(Cache.AnalyticsUrl(e, query), user) in entries
    ensures var k := Cache.CacheKey(Cache.AnalyticsUrl(e, query), user);
      var after := AfterWrite(entries, reachable, userId);
      k in after && after[k] == entries[k]
  {
    if reachable {
      Cache.TransactionPatternSparesAnalytics(entries, userId, e, query, user);
    }
  }

  /** Lines 184-257 (POST /transactions): validate, check the category, insert, invalidate. */
  method CreateTransaction(db: Database, store: Cache.RedisStore, userId: nat, body: TransactionBody)
    returns (reply: Outcome<Transaction>, details: seq<FieldError>)
    requires db.Valid()
    modifies db, store
    ensures db.Valid()
    ensures !ValidForCreate(body) ==>
      reply == Failure(400, ValidationFailed) && details == ValidationErrors(body, false) && details != []
      && unchanged(db) && unchanged(store)
    ensures ValidForCreate(body) && !HasCategory(old(db.categories), body.categoryId.value) ==>
      reply == Failure(400, InvalidCategory) && unchanged(db) && unchanged(store)
    ensures ValidForCreate(body) && HasCategory(old(db.categories), body.categoryId.value) ==>
      && reply == Success(201, Transaction(old(db.nextTransactionId), userId, body.categoryId.value,
                                           body.amount.cents.value, ParseKind(body.kind.value).value,
                                           body.description, body.date.value, db.clock, db.clock))
      && db.transactions == old(db.transactions) + [reply.value]
      && db.categories == old(db.categories)
      && store.entries == AfterWrite(old(store.entries), old(store.reachable), userId)
    ensures store.reachable == old(store.reachable)
  {
    details := ValidationErrors(body, false);
    CreateValidation(body);
    if details != [] {
      reply := Failure(400, ValidationFailed);
      return;
    }
    var categoryId := body.categoryId.value;
    if FindCategory(db.categories, categoryId).None? {
      reply := Failure(400, InvalidCategory);
      return;
    }
    ghost var before := (db.transactions, db.categories, db.nextTransactionId, db.nextCategoryId);
    var t := db.InsertTransaction(userId, categoryId, body.amount.cents.value, ParseKind(body.kind.value).value,
                                  body.description, body.date.value);
    InsertKeepsConsistent(before.0, before.1, before.2, before.3, t);
    store.Invalidate(Cache.TransactionPattern(userId));
    reply := Success(201, t);
  }

  /** Lines 260-372 (PUT /transactions/:id): validate, find the caller's row, check a new
      category, build the partial UPDATE, run it, invalidate. */
  method UpdateTransaction(db: Database, store: Cache.RedisStore, idText: string, userId: nat,
                           body: TransactionBody, casts: Casts)
    returns (reply: Outcome<Transaction>, details: seq<FieldError>)
    requires db.Valid()
    modifies db, store
    ensures db.Valid()
    ensures !ValidForUpdate(body) ==>
      reply == Failure(400, ValidationFailed) && details == ValidationErrors(body, true) && details != []
      && unchanged(db) && unchanged(store)
    ensures ValidForUpdate(body) && casts.asInt(idText).None? ==>
      reply == Failure(500, InternalError) && unchanged(db) && unchanged(store)
    ensures ValidForUpdate(body) && casts.asInt(idText).Some?
            && FindTransaction(old(db.transactions), casts.asInt(idText).value, userId).None? ==>
      reply == Failure(404, TransactionNotFound) && unchanged(db) && unchanged(store)
    ensures ValidForUpdate(body) && casts.asInt(idText).Some?
            && FindTransaction(old(db.transactions), casts.asInt(idText).value, userId).Some?
            && body.categoryId.Given? && !HasCategory(old(db.categories), body.categoryId.value) ==>
      reply == Failure(400, InvalidCategory) && unchanged(db) && unchanged(store)
    ensures ValidForUpdate(body) && casts.asInt(idText).Some?
            && FindTransaction(old(db.transactions), casts.asInt(idText).value, userId).Some?
            && (body.categoryId.Given? ==> HasCategory(old(db.categories), body.categoryId.value))
            && PresentFields(body) == [] ==>
      reply == Failure(400, NoFieldsToUpdate) && unchanged(db) && unchanged(store)
    ensures ValidForUpdate(body) && casts.asInt(idText).Some?
            && FindTransaction(old(db.transactions), casts.asInt(idText).value, userId).Some?
            && (body.categoryId.Given? ==> HasCategory(old(db.categories), body.categoryId.value))
            && PresentFields(body) != [] ==>
      var id := casts.asInt(idText).value;
      && reply == Success(200, Patched(FindTransaction(old(db.transactions), id, userId).value, body, db.clock))
      && db.transactions == ReplaceById(old(db.transactions), id, reply.value)
      && db.categories == old(db.categories)
      && store.entries == AfterWrite(old(store.entries), old(store.reachable), userId)
    ensures store.reachable == old(store.reachable)
  {
    details := ValidationErrors(body, true);
    UpdateValidation(body);
    if details != [] {
      reply := Failure(400, ValidationFailed);
      return;
    }
    var parsed := casts.asInt(idText);
    if parsed.None? {
      reply := Failure(500, InternalError);
      return;
    }
    var id := parsed.value;
    var existing := FindTransaction(db.transactions, id, userId);
    if existing.None? {
      reply := Failure(404, TransactionNotFound);
      return;
    }
    if body.categoryId.Given? && FindCategory(db.categories, body.categoryId.value).None? {
      reply := Failure(400, InvalidCategory);
      return;
    }
    var updates, values, paramCount := BuildTransactionUpdate(body);
    if |updates| == 0 {
      reply := Failure(400, NoFieldsToUpdate);
      return;
    }
    updates := updates + [SetNow("updated_at")];
    values := values + [IntValue(id)];
    var t := existing.value;
    UpdateMeansPatch(t, body, t.id, db.clock);
    var row := RunSets(t, updates, values, AssignColumn, Stamp(db.clock)).value;
    ghost var before := (db.transactions, db.categories, db.nextTransactionId, db.nextCategoryId);
    assert t in before.0;
    ReplaceKeepsConsistent(before.0, before.1, before.2, before.3, id, row);
    db.ReplaceTransaction(id, row);
    store.Invalidate(Cache.TransactionPattern(userId));
    reply := Success(200, row);
  }

  /** Lines 375-396 (DELETE /transactions/:id): delete the caller's row; invalidate only when
      one went. */
  method DeleteTransaction(db: Database, store: Cache.RedisStore, idText: string, userId: nat, casts: Casts)
    returns (reply: Outcome<string>)
    requires db.Valid()
    modifies db, store
    ensures db.Valid()
    ensures casts.asInt(idText).None? ==>
      reply == Failure(500, InternalError) && unchanged(db) && unchanged(store)
    ensures casts.asInt(idText).Some? && FindTransaction(old(db.transactions), casts.asInt(idText).value, userId).None? ==>
      reply == Failure(404, TransactionNotFound) && db.transactions == old(db.transactions) && unchanged(store)
    ensures casts.asInt(idText).Some? && FindTransaction(old(db.transactions), casts.asInt(idText).value, userId).Some? ==>
      && reply == Success(200, "Transaction deleted successfully")
      && db.transactions == RemoveTransaction(old(db.transactions), casts.asInt(idText).value, userId)
      && |db.transactions| == |old(db.transactions)| - 1
      && store.entries == AfterWrite(old(store.entries), old(store.reachable), userId)
    ensures db.categories == old(db.categories)
    ensures store.reachable == old(store.reachable)
  {
    var parsed := casts.asInt(idText);
    if parsed.None? {
      reply := Failure(500, InternalError);
      return;
    }
    var id := parsed.value;
    ghost var before := (db.transactions, db.categories, db.nextTransactionId, db.nextCategoryId);
    RemoveKeepsConsistent(before.0, before.1, before.2, before.3, id, userId);
    RemoveOwnedRow(before.0, id, userId);
    var deleted := db.DeleteTransaction(id, userId);
    if !deleted {
      reply := Failure(404, TransactionNotFound);
      return;
    }
    store.Invalidate(Cache.TransactionPattern(userId));
    reply := Success(200, "Transaction deleted successfully");
  }

  /** With distinct ids, a DELETE by id and owner removes one row when the caller owns it and
      none otherwise. */
  lemma {:induction false} RemoveOwnedRow(txs: seq<Transaction>, id: int, userId: nat)
    requires TransactionIdsDistinct(txs)
    ensures |RemoveTransaction(txs, id, userId)| == |txs| - (if FindTransaction(txs, id, userId).Some? then 1 else 0)
    decreases |txs|
  {
    if txs != [] {
      var tail := txs[1..];
      assert TransactionIdsDistinct(tail) by {
        forall i, j | 0 <= i < j < |tail| ensures tail[i].id != tail[j].id {
          assert tail[i] == txs[i + 1] && tail[j] == txs[j + 1];
        }
      }
      RemoveOwnedRow(tail, id, userId);
      if txs[0].id == id && txs[0].userId == userId {
        assert forall k :: 0 <= k < |tail| ==> tail[k] == txs[k + 1];
      }
    }
  }
}
