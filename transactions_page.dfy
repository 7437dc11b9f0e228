/** The transactions page's state (client/src/pages/Transactions.js): the filters, the pagination,
    whether the form is open and which transaction it edits, and the handlers that update them. */
module TransactionsPage {
  import opened Wrappers
  import opened Text
  import opened Forms
  import opened TransactionFilters
  import TransactionForm

  /** The `pagination` slot: the page shown, the page size, and the totals the server reported. */
  datatype Pagination = Pagination(page: int, limit: int, total: int, pages: int)

  /** A transaction of the list: its id and the values the form loads from it. */
  datatype Listed = Listed(id: nat, shown: TransactionForm.Shown)

  /** The request `handleTransactionSubmit` sends: PUT to the edited transaction, or POST. */
  datatype Request = Put(path: string, body: TransactionForm.Submission)
                   | Post(path: string, body: TransactionForm.Submission)

  /** The initial `filters`: no criterion, newest date first. */
  const InitialFilters: Filters := map[Search := "", Type := "", CategoryId := "", StartDate := "", EndDate := "",
                                       SortBy := "date", SortOrder := "desc"]

  class Page {
    var filters: Filters
    var pagination: Pagination
    var showForm: bool
    var editing: Option<Listed>

    /** The state the page mounts with: the first page of 20, nothing counted yet, no filter,
        the form closed. */
    constructor ()
      ensures filters == InitialFilters && !HasActiveFilters(filters)
      ensures pagination == Pagination(1, 20, 0, 0)
      ensures !showForm && editing.None?
    {
      filters := InitialFilters;
      pagination := Pagination(1, 20, 0, 0);
      showForm := false;
      editing := None;
      assert Field(InitialFilters, Search) == "" && Field(InitialFilters, Type) == "";
      assert Field(InitialFilters, CategoryId) == "" && Field(InitialFilters, StartDate) == "";
      assert Field(InitialFilters, EndDate) == "";
    }

    /** `handleFilterChange`: the patch is spread over the filters (its keys win, every other key
        keeps its value) and the list goes back to page 1; nothing else changes. */
    method HandleFilterChange(patch: Filters)
      modifies this
      ensures filters == old(filters) + patch
      ensures forall k :: k in patch ==> filters[k] == patch[k]
      ensures forall k :: k !in patch ==> Field(filters, k) == Field(old(filters), k)
      ensures pagination == old(pagination).(page := 1)
      ensures showForm == old(showForm) && editing == old(editing)
    {
      filters := filters + patch;
      pagination := pagination.(page := 1);
    }

    /** The quick date filters call `handleChange` twice, for the start and then the end date;
        the page applies both patches, so both dates are set. */
    method QuickFilter(start: string, end: string)
      modifies this
      ensures filters == old(filters)[StartDate := start][EndDate := end]
      ensures Field(filters, StartDate) == start && Field(filters, EndDate) == end
      ensures start != "" || end != "" ==> HasActiveFilters(filters)
      ensures pagination == old(pagination).(page := 1)
      ensures showForm == old(showForm) && editing == old(editing)
    {
      HandleFilterChange(TransactionFilters.HandleChange(StartDate, start));
      HandleFilterChange(TransactionFilters.HandleChange(EndDate, end));
    }

    /** `clearFilters` through `handleFilterChange`: nothing is active afterwards. */
    method ClearFilters()
      modifies this
      ensures filters == old(filters) + ClearPatch && !HasActiveFilters(filters)
      ensures pagination == old(pagination).(page := 1)
      ensures showForm == old(showForm) && editing == old(editing)
    {
      HandleFilterChange(ClearPatch);
      ClearDeactivates(old(filters));
    }

    /** `handlePageChange`: only the page changes. */
    method HandlePageChange(newPage: int)
      modifies this
      ensures pagination == old(pagination).(page := newPage)
      ensures filters == old(filters) && showForm == old(showForm) && editing == old(editing)
    {
      pagination := pagination.(page := newPage);
    }

    /** A fetch's answer replaces the pagination with the server's. */
    method HandleLoaded(reported: Pagination)
      modifies this
      ensures pagination == reported
      ensures filters == old(filters) && showForm == old(showForm) && editing == old(editing)
    {
      pagination := reported;
    }

    /** `handleEdit`: the transaction becomes the edited one and the form opens. */
    method HandleEdit(t: Listed)
      modifies this
      ensures editing == Some(t) && showForm
      ensures filters == old(filters) && pagination == old(pagination)
    {
      editing := Some(t);
      showForm := true;
    }

    /** `handleFormClose`, and the end of a successful submission: the form closes and no
        transaction is being edited. */
    method HandleFormClose()
      modifies this
      ensures !showForm && editing.None?
      ensures filters == old(filters) && pagination == old(pagination)
    {
      showForm := false;
      editing := None;
    }

    /** What the open form starts from: the edited transaction's values, or the blank form. */
    function FormData(today: string): Form<TransactionForm.TxField>
      reads this
    {
      if editing.Some? then TransactionForm.FromTransaction(editing.value.shown, today)
      else TransactionForm.Initial(today)
    }

    /** `handleTransactionSubmit`'s request: PUT to `/transactions/<id>` of the edited
        transaction, POST to `/transactions` otherwise, with the form's submission as body. */
    method SubmitRequest(body: TransactionForm.Submission) returns (r: Request)
      ensures r.body == body
      ensures r.Put? <==> editing.Some?
      ensures r.Put? ==> r.path == "/transactions/" + NatToString(editing.value.id)
      ensures r.Post? ==> r.path == "/transactions"
    {
      if editing.Some? {
        r := Put("/transactions/" + NatToString(editing.value.id), body);
      } else {
        r := Post("/transactions", body);
      }
    }
  }

  /** Two patches applied one after the other leave the filters as the two merged in order. */
  lemma PatchesCompose(f: Filters, p: Filters, q: Filters)
    ensures (f + p) + q == f + (p + q)
  {
  }

  /** Distinct transactions are sent to distinct paths. */
  lemma PutPathsDistinct(a: nat, b: nat)
    requires a != b
    ensures "/transactions/" + NatToString(a) != "/transactions/" + NatToString(b)
  {
    var pa, pb := "/transactions/" + NatToString(a), "/transactions/" + NatToString(b);
    if pa == pb {
      assert pa[14..] == NatToString(a) && pb[14..] == NatToString(b);
      NatToStringInjective(a, b);
    }
  }

  /** Editing a transaction and then opening the form shows that transaction; closing the form
      forgets it, so the next form opened without an edit starts blank. */
  method EditThenClose(page: Page, t: Listed, today: string) returns (shown: Form<TransactionForm.TxField>, after: Form<TransactionForm.TxField>)
    modifies page
    ensures shown == TransactionForm.FromTransaction(t.shown, today)
    ensures after == TransactionForm.Initial(today)
  {
    page.HandleEdit(t);
    shown := page.FormData(today);
    page.HandleFormClose();
    after := page.FormData(today);
  }
}
