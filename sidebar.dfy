/** The sidebar's navigation table and the filter that decides which entries a user sees
    (client/src/components/layout/Sidebar.js). */
module Sidebar {
  import opened AuthContext
  import AppRoutes

  datatype NavItem = NavItem(name: string, href: string, accessible: bool, requiresEdit: bool)

  /** `navigation`: every entry is accessible; only Transactions asks for edit rights. */
  const Navigation: seq<NavItem> := [
    NavItem("Dashboard", "/dashboard", true, false),
    NavItem("Transactions", "/transactions", true, true),
    NavItem("Analytics", "/analytics", true, false),
    NavItem("Profile", "/profile", true, false)
  ]

  /** The filter's predicate. */
  predicate Visible(item: NavItem, canEdit: bool) {
    item.accessible && !(item.requiresEdit && !canEdit)
  }

  /** `filteredNavigation`: `items.filter(...)`. */
  function Filter(items: seq<NavItem>, canEdit: bool): (r: seq<NavItem>)
    ensures |r| <= |items|
    ensures forall x :: x in r <==> x in items && Visible(x, canEdit)
  {
    if items == [] then []
    else if Visible(items[0], canEdit) then [items[0]] + Filter(items[1..], canEdit)
    else Filter(items[1..], canEdit)
  }

  /** The filter keeps the table's order: it works piece by piece. */
  lemma {:induction false} FilterAppend(a: seq<NavItem>, b: seq<NavItem>, canEdit: bool)
    ensures Filter(a + b, canEdit) == Filter(a, canEdit) + Filter(b, canEdit)
  {
    if a == [] {
      assert a + b == b;
    } else {
      assert (a + b)[0] == a[0];
      assert (a + b)[1..] == a[1..] + b;
      FilterAppend(a[1..], b, canEdit);
    }
  }

  predicate DistinctHrefs(items: seq<NavItem>) {
    forall i, j :: 0 <= i < j < |items| ==> items[i].href != items[j].href
  }

  lemma {:induction false} FilterKeepsDistinct(items: seq<NavItem>, canEdit: bool)
    requires DistinctHrefs(items)
    ensures DistinctHrefs(Filter(items, canEdit))
  {
    if items != [] {
      var tail := items[1..];
      assert DistinctHrefs(tail) by {
        forall i, j | 0 <= i < j < |tail| ensures tail[i].href != tail[j].href {
          assert tail[i] == items[i + 1] && tail[j] == items[j + 1];
        }
      }
      FilterKeepsDistinct(tail, canEdit);
      var rest := Filter(tail, canEdit);
      forall x | x in rest ensures x.href != items[0].href {
        assert x in tail;
        var k :| 0 <= k < |tail| && tail[k] == x;
        assert tail[k] == items[k + 1];
      }
    }
  }

  lemma FilterOne(x: NavItem, canEdit: bool)
    ensures Filter([x], canEdit) == if Visible(x, canEdit) then [x] else []
  {
    assert [x][1..] == [];
  }

  /** The table filtered entry by entry. */
  lemma FilterNavigation(canEdit: bool)
    ensures Filter(Navigation, canEdit)
            == Filter([Navigation[0]], canEdit) + Filter([Navigation[1]], canEdit)
               + Filter([Navigation[2]], canEdit) + Filter([Navigation[3]], canEdit)
  {
    var n := Navigation;
    assert n == [n[0]] + [n[1]] + [n[2]] + [n[3]];
    FilterAppend([n[0]] + [n[1]] + [n[2]], [n[3]], canEdit);
    FilterAppend([n[0]] + [n[1]], [n[2]], canEdit);
    FilterAppend([n[0]], [n[1]], canEdit);
  }

  lemma NavigationDistinct()
    ensures DistinctHrefs(Navigation)
  {
    var n := Navigation;
    assert n[0].href[1] == 'd' && n[1].href[1] == 't' && n[2].href[1] == 'a' && n[3].href[1] == 'p';
  }

  /** A table whose entries are all visible passes the filter unchanged. */
  lemma {:induction false} FilterKeepsVisible(items: seq<NavItem>, canEdit: bool)
    requires forall i :: 0 <= i < |items| ==> Visible(items[i], canEdit)
    ensures Filter(items, canEdit) == items
  {
    if items != [] {
      assert Visible(items[0], canEdit);
      FilterKeepsVisible(items[1..], canEdit);
    }
  }

  lemma EditorSeesAll()
    ensures Filter(Navigation, true) == Navigation
  {
    FilterKeepsVisible(Navigation, true);
  }

  lemma ReadOnlySeesThree()
    ensures Filter(Navigation, false) == [Navigation[0], Navigation[2], Navigation[3]]
  {
    var n := Navigation;
    FilterNavigation(false);
    FilterOne(n[0], false); FilterOne(n[1], false); FilterOne(n[2], false); FilterOne(n[3], false);
    assert [n[0]] + [] + [n[2]] + [n[3]] == [n[0], n[2], n[3]];
  }

  /** What a user with or without edit rights sees. */
  lemma WhatEachUserSees()
    ensures Filter(Navigation, true) == Navigation
    ensures Filter(Navigation, false) == [Navigation[0], Navigation[2], Navigation[3]]
    ensures DistinctHrefs(Navigation)
  {
    EditorSeesAll();
    ReadOnlySeesThree();
    NavigationDistinct();
  }

  /** A read-only user sees the dashboard, analytics and profile entries, in that order, and
      nothing twice. */
  lemma ReadOnlyUserSees(s: AuthState)
    requires s.user.Some? && "role" in s.user.value && s.user.value["role"] == "read-only"
    ensures var r := Filter(Navigation, CanEdit(s));
            |r| == 3 && r[0].name == "Dashboard" && r[1].name == "Analytics" && r[2].name == "Profile"
    ensures DistinctHrefs(Filter(Navigation, CanEdit(s)))
  {
    WhatEachUserSees();
  }

  /** The lock icon is drawn for an item with `requiresEdit && !canEdit()`; the filter has
      removed exactly those, so it is never drawn. */
  predicate LockShown(item: NavItem, canEdit: bool) {
    item.requiresEdit && !canEdit
  }

  lemma LockNeverShown(items: seq<NavItem>, canEdit: bool, x: NavItem)
    requires x in Filter(items, canEdit)
    ensures !LockShown(x, canEdit)
  {
  }

  /** Every entry the sidebar shows leads a signed-in user straight to a page. */
  lemma EntriesLeadToPages(s: AuthState, x: NavItem)
    requires !s.loading && s.isAuthenticated
    requires x in Filter(Navigation, CanEdit(s))
    ensures AppRoutes.Resolve(s, x.href).Show?
  {
    assert x in Navigation;
    assert x.href in {"/dashboard", "/transactions", "/analytics", "/profile"};
  }
}
