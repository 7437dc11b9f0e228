/** The transaction list (client/src/components/transactions/TransactionList.js): the pagination
    bar's arithmetic, the sign shown before an amount, and the actions offered on a row. */
module TransactionList {
  import opened Wrappers
  import opened TransactionsPage
  import Ledger
  import TransactionRoutes

  function Min(a: int, b: int): int {
    if a <= b then a else b
  }

  datatype PageButton = PageButton(number: int, active: bool)

  /** What the bar shows: "Showing first to last of total", the two arrows' disabled flags and
      the numbered buttons. */
  datatype Bar = Bar(first: int, last: int, total: int, previousDisabled: bool, nextDisabled: bool,
                     buttons: seq<PageButton>)

  /** `Array.from({ length: Math.min(5, pages) }, ...)`: buttons 1, 2, ... up to five, the one
      equal to the current page highlighted. */
  function Buttons(p: Pagination): (r: seq<PageButton>)
    requires p.pages >= 0
    ensures |r| == Min(5, p.pages)
    ensures forall i :: 0 <= i < |r| ==> r[i].number == i + 1 && (r[i].active <==> i + 1 == p.page)
  {
    seq(Min(5, p.pages), i requires 0 <= i < Min(5, p.pages) => PageButton(i + 1, i + 1 == p.page))
  }

  /** What the bar shows for a pagination. */
  function BarFor(p: Pagination): Bar
    requires p.pages >= 0
  {
    Bar((p.page - 1) * p.limit + 1, Min(p.page * p.limit, p.total), p.total,
        p.page == 1, p.page == p.pages, Buttons(p))
  }

  /** The pagination bar. The list returns the loading placeholders while loading and the
      empty message when no transaction arrived, so the bar is drawn only past both, and
      then only when there is more than one page. */
  function PaginationBar(loading: bool, rows: nat, p: Pagination): (r: Option<Bar>)
    ensures r.Some? <==> !loading && rows > 0 && p.pages > 1
    ensures r.Some? ==> r.value == BarFor(p)
  {
    if !loading && rows > 0 && p.pages > 1 then Some(BarFor(p)) else None
  }

  /** What the list renders: five placeholder rows, "No transactions found", or the rows with
      the bar when there is one. */
  datatype View = Skeleton | NoTransactions | Listing(rows: nat, bar: Option<Bar>)

  function ListView(loading: bool, rows: nat, p: Pagination): (v: View)
    ensures v.Skeleton? <==> loading
    ensures v.NoTransactions? <==> !loading && rows == 0
    ensures v.Listing? ==> v.rows == rows && v.bar == PaginationBar(loading, rows, p)
  {
    if loading then Skeleton
    else if rows == 0 then NoTransactions
    else Listing(rows, PaginationBar(loading, rows, p))
  }

  /** The client's `pagination` slot holding what the server answered (`pages` null for a zero
      limit, which no comparison with 1 accepts). */
  function Reported(p: TransactionRoutes.Pagination): Pagination {
    Pagination(p.page, p.limit, p.total, if p.pages.Some? then p.pages.value else 0)
  }

  /** A pagination the server answered for a page within range: `pages` is `ceil(total / limit)`. */
  predicate Consistent(p: Pagination) {
    p.limit > 0 && p.total >= 0 && TransactionRoutes.Pages(p.total, p.limit) == Some(p.pages)
    && 1 <= p.page <= p.pages
  }

  /** The offset of a page within range: before the total, `limit` short of the next one. */
  lemma OffsetWithin(page: int, limit: int, pages: int, total: int)
    requires limit > 0 && 1 <= page <= pages && (pages - 1) * limit < total
    ensures 0 <= (page - 1) * limit < total
    ensures page * limit == (page - 1) * limit + limit
  {
    assert (pages - 1) * limit - (page - 1) * limit == (pages - page) * limit;
    assert 0 <= (pages - page) * limit;
    assert 0 <= (page - 1) * limit;
  }

  /** The range shown is exactly the rows the server's OFFSET and LIMIT select for that page:
      it starts after `(page - 1) * limit` rows, holds `limit` rows or what is left, and lies
      within the total. */
  lemma RangeIsThePage(p: Pagination)
    requires Consistent(p) && p.pages > 1
    ensures var bar := BarFor(p);
            var offset := (p.page - 1) * p.limit;
            && bar.first == offset + 1
            && bar.last - bar.first + 1 == Min(p.limit, p.total - offset)
            && 1 <= bar.first <= bar.last <= bar.total
  {
    TransactionRoutes.PagesCover(p.total, p.limit);
    OffsetWithin(p.page, p.limit, p.pages, p.total);
  }

  /** Every arrow that is enabled leads to a page that exists. */
  lemma ArrowsStayInRange(p: Pagination)
    requires Consistent(p) && p.pages > 1
    ensures !BarFor(p).previousDisabled ==> 1 <= p.page - 1 <= p.pages
    ensures !BarFor(p).nextDisabled ==> 1 <= p.page + 1 <= p.pages
    ensures BarFor(p).previousDisabled <==> p.page == 1
  {
  }

  /** Exactly one button is highlighted while the page is among the first five; past the fifth
      page none is, and no button leads there. */
  lemma ActiveButton(p: Pagination)
    requires p.pages > 1
    ensures var b := BarFor(p).buttons;
            && (1 <= p.page <= Min(5, p.pages) ==>
                  b[p.page - 1].active && forall i :: 0 <= i < |b| && i != p.page - 1 ==> !b[i].active)
            && (p.page > 5 ==> forall i :: 0 <= i < |b| ==> !b[i].active && b[i].number < p.page)
  {
  }

  /** For a page within range, the range the bar shows counts exactly the rows the server
      listed for it. */
  lemma RangeCountsListedRows(txs: seq<Ledger.Transaction>, cats: seq<Ledger.Category>, userId: nat,
                              q: TransactionRoutes.ListQuery, casts: TransactionRoutes.Casts)
    requires var reply := TransactionRoutes.ListReply(txs, cats, userId, q, casts);
      && reply.Success? && reply.value.pagination.pages.Some?
      && 1 <= reply.value.pagination.page <= reply.value.pagination.pages.value
    ensures var body := TransactionRoutes.ListReply(txs, cats, userId, q, casts).value;
            var bar := BarFor(Reported(body.pagination));
            bar.last - bar.first + 1 == |body.transactions|
  {
    var body := TransactionRoutes.ListReply(txs, cats, userId, q, casts).value;
    TransactionRoutes.ListedLength(txs, cats, userId, q, casts);
    var p := Reported(body.pagination);
    PageWithinCount(p, |body.transactions|);
  }

  /** A page within range: the bar's range holds `limit` rows, or what remains of the total. */
  lemma PageWithinCount(p: Pagination, n: nat)
    requires p.limit > 0 && p.total >= 0 && TransactionRoutes.Pages(p.total, p.limit) == Some(p.pages)
    requires 1 <= p.page <= p.pages
    requires var offset := (p.page - 1) * p.limit;
      n == (if offset >= p.total then 0 else if p.limit < p.total - offset then p.limit else p.total - offset)
    ensures BarFor(p).last - BarFor(p).first + 1 == n
  {
    TransactionRoutes.PagesCover(p.total, p.limit);
    OffsetWithin(p.page, p.limit, p.pages, p.total);
  }

  /** When the page lies past the last one (the last page's only row was deleted and the list
      re-fetched the same page), the server lists no row, so the list shows "No transactions
      found" and no bar. */
  lemma PagePastTheEnd(txs: seq<Ledger.Transaction>, cats: seq<Ledger.Category>, userId: nat,
                       q: TransactionRoutes.ListQuery, casts: TransactionRoutes.Casts)
    requires var reply := TransactionRoutes.ListReply(txs, cats, userId, q, casts);
      reply.Success? && reply.value.pagination.pages.Some?
      && reply.value.pagination.page > reply.value.pagination.pages.value
    ensures var body := TransactionRoutes.ListReply(txs, cats, userId, q, casts).value;
            && body.transactions == []
            && ListView(false, |body.transactions|, Reported(body.pagination)) == NoTransactions
  {
    var body := TransactionRoutes.ListReply(txs, cats, userId, q, casts).value;
    TransactionRoutes.ListedLength(txs, cats, userId, q, casts);
    var p := body.pagination;
    TransactionRoutes.PagesCover(p.total, p.limit);
    OffsetBeyond(p.page, p.limit, p.pages.value, p.total);
  }

  /** The offset of a page past the last one is at least the total. */
  lemma OffsetBeyond(page: int, limit: int, pages: int, total: int)
    requires limit > 0 && page > pages && pages * limit >= total
    ensures (page - 1) * limit >= total
  {
    var extra := page - 1 - pages;
    assert (page - 1) * limit == pages * limit + extra * limit by {
      assert page - 1 == pages + extra;
    }
    assert extra * limit >= 0 by {
      assert extra >= 0;
    }
  }

  /** The sign before an amount: `+` for an income, `-` for anything else. */
  function SignPrefix(kind: string): (s: string)
    ensures s == "+" <==> kind == "income"
    ensures s == "+" || s == "-"
  {
    if kind == "income" then "+" else "-"
  }

  /** The row's buttons and the page handler each one calls. */
  datatype RowAction = EditAction | DeleteAction | ViewAction
  datatype Handler = OnEdit | OnDelete

  function Actions(canEdit: bool): (r: seq<RowAction>)
    ensures canEdit ==> r == [EditAction, DeleteAction]
    ensures !canEdit ==> r == [ViewAction]
  {
    if canEdit then [EditAction, DeleteAction] else [ViewAction]
  }

  function HandlerOf(a: RowAction): Handler {
    match a
    case EditAction => OnEdit
    case DeleteAction => OnDelete
    case ViewAction => OnEdit
  }

  /** Deleting is offered only to a user who may edit; a user who may not gets the view action,
      which calls the same handler as editing and so opens the same form. */
  lemma ViewingOpensTheEditor(canEdit: bool)
    ensures (exists a :: a in Actions(canEdit) && HandlerOf(a) == OnDelete) <==> canEdit
    ensures forall a :: a in Actions(canEdit) ==> HandlerOf(a) == OnEdit || canEdit
    ensures HandlerOf(ViewAction) == HandlerOf(EditAction)
  {
    if canEdit {
      assert DeleteAction in Actions(canEdit);
    }
  }
}
