/** The transaction list's filter panel (client/src/components/transactions/TransactionFilters.js):
    the one-field patch a control emits, the patch that clears everything, and the test for
    whether any criterion is set. */
module TransactionFilters {
  import opened Forms

  /** The filter object's keys: `search`, `type`, `category_id`, `start_date`, `end_date`,
      `sort_by`, `sort_order`. */
  datatype FilterField = Search | Type | CategoryId | StartDate | EndDate | SortBy | SortOrder

  /** The filter object, and a patch of some of its keys. */
  type Filters = map<FilterField, string>

  /** The five keys that narrow the list; the other two only order it. */
  predicate Criterion(k: FilterField) {
    k != SortBy && k != SortOrder
  }

  /** `handleChange(field, value)`: the patch `{ [field]: value }`. */
  function HandleChange(field: FilterField, value: string): (patch: Filters)
    ensures patch.Keys == {field}
    ensures patch[field] == value
  {
    map[field := value]
  }

  /** The patch `clearFilters` emits. */
  const ClearPatch: Filters := map[Search := "", Type := "", CategoryId := "", StartDate := "", EndDate := "",
                                   SortBy := "date", SortOrder := "desc"]

  /** `hasActiveFilters`: one of the five criteria is non-empty. */
  predicate HasActiveFilters(f: Filters) {
    Field(f, Search) != "" || Field(f, Type) != "" || Field(f, CategoryId) != ""
    || Field(f, StartDate) != "" || Field(f, EndDate) != ""
  }

  /** The test looks at the criteria and at nothing else: it holds exactly when some criterion is
      set. */
  lemma ActiveIffSomeCriterion(f: Filters)
    ensures HasActiveFilters(f) <==> exists k :: Criterion(k) && Field(f, k) != ""
  {
    if exists k :: Criterion(k) && Field(f, k) != "" {
      var k :| Criterion(k) && Field(f, k) != "";
      match k
      case Search =>
      case Type =>
      case CategoryId =>
      case StartDate =>
      case EndDate =>
    }
  }

  /** Changing the sort column or the sort order never makes the filters active or inactive. */
  lemma SortingIsNotFiltering(f: Filters, k: FilterField, value: string)
    requires !Criterion(k)
    ensures HasActiveFilters(f + HandleChange(k, value)) == HasActiveFilters(f)
  {
    var g := f + HandleChange(k, value);
    assert Field(g, Search) == Field(f, Search) && Field(g, Type) == Field(f, Type);
    assert Field(g, CategoryId) == Field(f, CategoryId);
    assert Field(g, StartDate) == Field(f, StartDate) && Field(g, EndDate) == Field(f, EndDate);
  }

  /** Setting one criterion to a non-empty value makes the filters active. */
  lemma CriterionActivates(f: Filters, k: FilterField, value: string)
    requires Criterion(k) && value != ""
    ensures HasActiveFilters(f + HandleChange(k, value))
  {
    ActiveIffSomeCriterion(f + HandleChange(k, value));
  }

  /** Whatever the filters were, once the clear patch is applied over them nothing is active, and
      the order is back to newest date first. */
  lemma ClearDeactivates(f: Filters)
    ensures !HasActiveFilters(f + ClearPatch)
    ensures Field(f + ClearPatch, SortBy) == "date" && Field(f + ClearPatch, SortOrder) == "desc"
    ensures (f + ClearPatch).Keys == ClearPatch.Keys + f.Keys
  {
    var g := f + ClearPatch;
    assert Field(g, Search) == "" && Field(g, Type) == "" && Field(g, CategoryId) == "";
    assert Field(g, StartDate) == "" && Field(g, EndDate) == "";
  }
}
