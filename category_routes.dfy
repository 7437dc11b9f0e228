/** The `/categories` routes (server/routes/categories.js): the shared category list,
    validated creation, partial updates and deletion of categories no transaction uses. */
module CategoryRoutes {
  import opened Wrappers
  import opened Text
  import opened Ledger
  import opened Sql
  import Cache

  // ---------------------------------------------------------------------------------------
  // GET /categories: every category, ordered by name

  /** Code-point order on names, the order `ORDER BY name` gives under the C collation. */
  predicate NameLe(a: string, b: string)
    decreases |a|
  {
    a == [] || (b != [] && (a[0] < b[0] || (a[0] == b[0] && NameLe(a[1..], b[1..]))))
  }

  lemma {:induction false} NameLeTotal(a: string, b: string)
    ensures NameLe(a, b) || NameLe(b, a)
    decreases |a|
  {
    if a != [] && b != [] && a[0] == b[0] {
      NameLeTotal(a[1..], b[1..]);
    }
  }

  lemma {:induction false} NameLeTransitive(a: string, b: string, c: string)
    requires NameLe(a, b) && NameLe(b, c)
    ensures NameLe(a, c)
    decreases |a|
  {
    if a != [] && a[0] == b[0] && b[0] == c[0] {
      NameLeTransitive(a[1..], b[1..], c[1..]);
    }
  }

  lemma {:induction false} NameLeAntisymmetric(a: string, b: string)
    requires NameLe(a, b) && NameLe(b, a)
    ensures a == b
    decreases |a|
  {
    if a != [] {
      assert b != [] && a[0] == b[0];
      NameLeAntisymmetric(a[1..], b[1..]);
      assert a == [a[0]] + a[1..] && b == [b[0]] + b[1..];
    }
  }

  predicate SortedByName(cats: seq<Category>) {
    forall i, j :: 0 <= i < j < |cats| ==> NameLe(cats[i].name, cats[j].name)
  }

  /** `c` put into a name-ordered list before the first name it does not follow. */
  function InsertByName(c: Category, cats: seq<Category>): (r: seq<Category>)
    ensures multiset(r) == multiset(cats) + multiset{c}
  {
    if cats == [] then [c]
    else if NameLe(c.name, cats[0].name) then [c] + cats
    else
      assert cats == [cats[0]] + cats[1..];
      [cats[0]] + InsertByName(c, cats[1..])
  }

  /** A category whose name comes no later than every name of a name-ordered list can lead it. */
  lemma ConsSortedByName(x: Category, rest: seq<Category>)
    requires SortedByName(rest)
    requires forall k :: 0 <= k < |rest| ==> NameLe(x.name, rest[k].name)
    ensures SortedByName([x] + rest)
  {
    var r := [x] + rest;
    forall i, j | 0 <= i < j < |r| ensures NameLe(r[i].name, r[j].name) {
      assert r[j] == rest[j - 1];
      if i > 0 {
        assert r[i] == rest[i - 1];
      }
    }
  }

  lemma {:induction false} InsertByNameSorted(c: Category, cats: seq<Category>)
    requires SortedByName(cats)
    ensures SortedByName(InsertByName(c, cats))
    decreases |cats|
  {
    if cats == [] {
    } else if NameLe(c.name, cats[0].name) {
      forall k | 0 <= k < |cats| ensures NameLe(c.name, cats[k].name) {
        if k > 0 {
          NameLeTransitive(c.name, cats[0].name, cats[k].name);
        }
      }
      ConsSortedByName(c, cats);
    } else {
      var tail := cats[1..];
      SortedTail(cats);
      InsertByNameSorted(c, tail);
      var rest := InsertByName(c, tail);
      NameLeTotal(c.name, cats[0].name);
      forall k | 0 <= k < |rest| ensures NameLe(cats[0].name, rest[k].name) {
        assert rest[k] in multiset(tail) + multiset{c};
        if rest[k] != c {
          assert rest[k] in tail;
          var m :| 0 <= m < |tail| && tail[m] == rest[k];
          assert cats[m + 1] == rest[k];
        }
      }
      ConsSortedByName(cats[0], rest);
    }
  }

  /** `SELECT ... FROM categories ORDER BY name`: every category, in name order. */
  function ListCategories(cats: seq<Category>): (r: seq<Category>)
    ensures multiset(r) == multiset(cats)
  {
    if cats == [] then []
    else
      assert cats == [cats[0]] + cats[1..];
      InsertByName(cats[0], ListCategories(cats[1..]))
  }

  /** The listing holds every category once and is in name order. */
  lemma {:induction false} ListCategoriesSorted(cats: seq<Category>)
    ensures SortedByName(ListCategories(cats))
    ensures multiset(ListCategories(cats)) == multiset(cats)
    decreases |cats|
  {
    if cats != [] {
      ListCategoriesSorted(cats[1..]);
      InsertByNameSorted(cats[0], ListCategories(cats[1..]));
    }
  }

  /** No two different categories of the collection share a name. */
  predicate NamesUnique(m: multiset<Category>) {
    forall c1, c2 :: c1 in m && c2 in m && c1.name == c2.name ==> c1 == c2
  }

  lemma DistinctNamesUnique(cats: seq<Category>)
    requires CategoryNamesDistinct(cats)
    ensures NamesUnique(multiset(cats))
  {
    forall c1, c2 | c1 in multiset(cats) && c2 in multiset(cats) && c1.name == c2.name ensures c1 == c2 {
      assert c1 in cats && c2 in cats;
      var i :| 0 <= i < |cats| && cats[i] == c1;
      var j :| 0 <= j < |cats| && cats[j] == c2;
      assert !(i < j) && !(j < i);
    }
  }

  lemma SortedTail(cats: seq<Category>)
    requires SortedByName(cats) && cats != []
    ensures SortedByName(cats[1..])
  {
    var t := cats[1..];
    forall x, y | 0 <= x < y < |t| ensures NameLe(t[x].name, t[y].name) {
      assert t[x] == cats[x + 1] && t[y] == cats[y + 1];
    }
  }

  /** The first of a name-ordered sequence has a name no later than any of its members. */
  lemma FirstIsLeast(cats: seq<Category>, c: Category)
    requires SortedByName(cats) && c in cats
    ensures NameLe(cats[0].name, c.name)
  {
    var i :| 0 <= i < |cats| && cats[i] == c;
    if i == 0 {
      NameLeReflexive(c.name);
    }
  }

  lemma {:induction false} NameLeReflexive(a: string)
    ensures NameLe(a, a)
    decreases |a|
  {
    if a != [] {
      NameLeReflexive(a[1..]);
    }
  }

  lemma LeastAreEqual(a: seq<Category>, b: seq<Category>)
    requires SortedByName(a) && SortedByName(b) && multiset(a) == multiset(b)
    requires NamesUnique(multiset(a)) && a != [] && b != []
    ensures a[0] == b[0]
  {
    assert a[0] in multiset(b) && b[0] in multiset(a);
    FirstIsLeast(a, b[0]);
    FirstIsLeast(b, a[0]);
    NameLeAntisymmetric(a[0].name, b[0].name);
  }

  lemma TailMultisets(a: seq<Category>, b: seq<Category>)
    requires a != [] && b != [] && a[0] == b[0] && multiset(a) == multiset(b)
    ensures multiset(a[1..]) == multiset(b[1..])
  {
    assert a == [a[0]] + a[1..] && b == [b[0]] + b[1..];
    assert multiset(a) == multiset{a[0]} + multiset(a[1..]);
    assert multiset(b) == multiset{b[0]} + multiset(b[1..]);
    assert multiset(a[1..]) == multiset(a) - multiset{a[0]};
    assert multiset(b[1..]) == multiset(b) - multiset{b[0]};
  }

  lemma UniqueTail(a: seq<Category>)
    requires NamesUnique(multiset(a)) && a != []
    ensures NamesUnique(multiset(a[1..]))
  {
    assert a == [a[0]] + a[1..];
    assert multiset(a[1..]) <= multiset(a);
  }

  /** Two name-ordered arrangements of the same categories, no two of which share a name, are
      the same sequence. */
  lemma {:induction false} NameOrderedUnique(a: seq<Category>, b: seq<Category>)
    requires SortedByName(a) && SortedByName(b) && multiset(a) == multiset(b)
    requires NamesUnique(multiset(a))
    ensures a == b
    decreases |a|
  {
    if a != [] {
      HeadsAgree(a, b);
      NameOrderedUnique(a[1..], b[1..]);
      assert a == [a[0]] + a[1..] && b == [b[0]] + b[1..];
    } else {
      assert |b| == |multiset(b)| == 0;
    }
  }

  /** The step of the uniqueness proof: equal heads, and tails that satisfy its premises. */
  lemma HeadsAgree(a: seq<Category>, b: seq<Category>)
    requires SortedByName(a) && SortedByName(b) && multiset(a) == multiset(b)
    requires NamesUnique(multiset(a)) && a != []
    ensures b != [] && a[0] == b[0]
    ensures SortedByName(a[1..]) && SortedByName(b[1..]) && multiset(a[1..]) == multiset(b[1..])
    ensures NamesUnique(multiset(a[1..]))
  {
    assert b != [] by {
      assert |b| == |multiset(b)| == |multiset(a)| == |a|;
    }
    LeastAreEqual(a, b);
    TailMultisets(a, b);
    SortedTail(a);
    SortedTail(b);
    UniqueTail(a);
  }

  /** With unique names, as the store keeps them, `ORDER BY name` fixes the listing: any
      name-ordered arrangement of the categories is this one. */
  lemma ListingIsDetermined(cats: seq<Category>, other: seq<Category>)
    requires CategoryNamesDistinct(cats)
    requires SortedByName(other) && multiset(other) == multiset(cats)
    ensures other == ListCategories(cats)
  {
    ListCategoriesSorted(cats);
    DistinctNamesUnique(cats);
    NameOrderedUnique(other, ListCategories(cats));
  }

  /** `GET /categories/:id`: the category, 404 when there is none, 500 when PostgreSQL cannot
      read the id as an integer. */
  function GetCategory(cats: seq<Category>, idText: string, asInt: string -> Option<int>): (reply: Outcome<Category>)
    ensures asInt(idText).None? <==> reply == Failure(500, InternalError)
    ensures asInt(idText).Some? && !HasCategory(cats, asInt(idText).value) <==> reply == Failure(404, CategoryNotFound)
    ensures reply.Success? ==> reply.status == 200 && reply.value in cats && reply.value.id == asInt(idText).value
  {
    match asInt(idText)
    case None => Failure(500, InternalError)
    case Some(id) =>
      match FindCategory(cats, id)
      case None => Failure(404, CategoryNotFound)
      case Some(c) => Success(200, c)
  }

  // ---------------------------------------------------------------------------------------
  // Validation

  const CategoryNotFound := "Category not found"
  const NameTaken := "Category with this name already exists"
  const NoFieldsToUpdate := "No valid fields to update"
  const CategoryInUse := "Cannot delete category that is being used by transactions"

  /** The color a POST without one stores. */
  const DefaultColor := "#3B82F6"

  const NameLength := FieldError("name", "Name must be between 1 and 50 characters")
  const NameCharacters := FieldError("name", "Name can only contain letters, numbers, spaces, and &")
  const DescriptionTooLong := FieldError("description", "Description must be less than 200 characters")
  const ColorNotHex := FieldError("color", "Color must be a valid hex color code")

  /** The body's fields; None for one the body leaves out. */
  datatype CategoryBody = CategoryBody(name: Option<string>, description: Option<string>, color: Option<string>)

  /** A character of `[a-zA-Z0-9\s&]`. */
  predicate NameChar(c: char) {
    IsLetter(c) || IsDigit(c) || IsJsWhitespace(c) || c == '&'
  }

  /** `/^[a-zA-Z0-9\s&]+$/`. */
  predicate NamePattern(s: string) {
    |s| >= 1 && forall i :: 0 <= i < |s| ==> NameChar(s[i])
  }

  /** `/^#[0-9A-Fa-f]{6}$/`. */
  predicate HexColor(s: string) {
    |s| == 7 && s[0] == '#' && forall i :: 1 <= i < 7 ==> IsHexDigit(s[i])
  }

  /** The name chain; a required name the body leaves out is checked as empty text. */
  function NameErrors(name: Option<string>, optional: bool): seq<FieldError> {
    if name.None? && optional then []
    else
      var s := name.GetOr("");
      (if 1 <= |s| <= 50 then [] else [NameLength]) + (if NamePattern(s) then [] else [NameCharacters])
  }

  function CategoryErrors(body: CategoryBody, optional: bool): seq<FieldError> {
    NameErrors(body.name, optional)
    + (if body.description.Some? && |body.description.value| > 200 then [DescriptionTooLong] else [])
    + (if body.color.Some? && !HexColor(body.color.value) then [ColorNotHex] else [])
  }

  /** A name the validators accept. */
  predicate GoodName(s: string) {
    1 <= |s| <= 50 && NamePattern(s)
  }

  predicate ValidCategory(body: CategoryBody, optional: bool) {
    && (if optional then body.name.Some? ==> GoodName(body.name.value) else body.name.Some? && GoodName(body.name.value))
    && (body.description.Some? ==> |body.description.value| <= 200)
    && (body.color.Some? ==> HexColor(body.color.value))
  }

  /** A body is refused exactly when a required field is missing or a field is malformed. */
  lemma CategoryValidation(body: CategoryBody, optional: bool)
    ensures CategoryErrors(body, optional) == [] <==> ValidCategory(body, optional)
  {
    if !optional && body.name.None? {
      assert !NamePattern("");
    }
  }

  /** The default color is a color the validators accept, so every stored color is one. */
  lemma DefaultColorIsHex()
    ensures HexColor(DefaultColor)
  {
  }

  /** The name pattern lets a name of spaces alone through. */
  lemma BlankNameAccepted()
    ensures GoodName("   ") && Trim("   ") == ""
  {
    assert NameChar(' ');
    TrimEmptyIffBlank("   ");
  }

  // ---------------------------------------------------------------------------------------
  // PUT: the partial UPDATE

  /** The fields a body assigns, in the handler's order: name, description, color. */
  function CategoryFields(body: CategoryBody): seq<FieldValue> {
    (if body.name.Some? then [FieldValue("name", TextValue(body.name.value))] else [])
    + (if body.description.Some? then [FieldValue("description", TextValue(body.description.value))] else [])
    + (if body.color.Some? then [FieldValue("color", TextValue(body.color.value))] else [])
  }

  /** Lines 174-189 of the PUT handler: one `col = $n` and one value per present field. */
  method BuildCategoryUpdate(body: CategoryBody) returns (updates: seq<Assignment>, values: seq<Value>, paramCount: nat)
    ensures updates == SetsFor(CategoryFields(body))
    ensures values == ValuesOf(CategoryFields(body))
    ensures paramCount == |values| + 1
  {
    updates, values, paramCount := [], [], 1;
    ghost var fields: seq<FieldValue> := [];
    if body.name.Some? {
      var f := FieldValue("name", TextValue(body.name.value));
      updates, values, paramCount := PushField(fields, updates, values, paramCount, f.column, f.value);
      fields := fields + [f];
    }
    ghost var f1 := fields;
    if body.description.Some? {
      var f := FieldValue("description", TextValue(body.description.value));
      updates, values, paramCount := PushField(fields, updates, values, paramCount, f.column, f.value);
      fields := fields + [f];
    }
    ghost var f2 := fields;
    if body.color.Some? {
      var f := FieldValue("color", TextValue(body.color.value));
      updates, values, paramCount := PushField(fields, updates, values, paramCount, f.column, f.value);
      fields := fields + [f];
    }
    assert f1 == (if body.name.Some? then [FieldValue("name", TextValue(body.name.value))] else []);
    assert f2 == f1 + (if body.description.Some? then [FieldValue("description", TextValue(body.description.value))] else []);
    assert fields == f2 + (if body.color.Some? then [FieldValue("color", TextValue(body.color.value))] else []);
  }

  /** What PostgreSQL does with `column = value` on a category; None when it rejects it. */
  function AssignCategoryColumn(c: Category, column: string, v: Value): Option<Category> {
    if column == "name" && v.TextValue? then Some(c.(name := v.s))
    else if column == "description" && v.TextValue? then Some(c.(description := Some(v.s)))
    else if column == "color" && v.TextValue? then Some(c.(color := v.s))
    else None
  }

  /** The categories table has no `updated_at`: the SET list carries no timestamp. */
  function NoStamp(c: Category, column: string): Option<Category> {
    None
  }

  /** The category a PUT means: each present field replaced, the rest kept. */
  function PatchedCategory(c: Category, body: CategoryBody): Category {
    c.(name := if body.name.Some? then body.name.value else c.name,
       description := if body.description.Some? then body.description else c.description,
       color := if body.color.Some? then body.color.value else c.color)
  }

  /** The statement the PUT handler sends, run against the category with the id after the
      values, yields exactly the patched category. */
  lemma CategoryUpdateMeansPatch(c: Category, body: CategoryBody, id: nat)
    ensures RunSets(c, SetsFor(CategoryFields(body)), ValuesOf(CategoryFields(body)) + [IntValue(id)],
                    AssignCategoryColumn, NoStamp)
            == Some(PatchedCategory(c, body))
  {
    CategoryFieldsGivePatch(c, body);
    SetsReadTheirValues(c, CategoryFields(body), [IntValue(id)], AssignCategoryColumn, NoStamp);
  }

  /** Assigning a body's fields one after another gives the patched category. */
  lemma CategoryFieldsGivePatch(c: Category, body: CategoryBody)
    ensures AssignAll(c, CategoryFields(body), AssignCategoryColumn) == Some(PatchedCategory(c, body))
  {
    var p1 := if body.name.Some? then [FieldValue("name", TextValue(body.name.value))] else [];
    var p2 := if body.description.Some? then [FieldValue("description", TextValue(body.description.value))] else [];
    var p3 := if body.color.Some? then [FieldValue("color", TextValue(body.color.value))] else [];
    assert CategoryFields(body) == p1 + p2 + p3;
    var c1 := c.(name := if body.name.Some? then body.name.value else c.name);
    var c2 := c1.(description := if body.description.Some? then body.description else c.description);
    var c3 := c2.(color := if body.color.Some? then body.color.value else c.color);
    ThreeSteps(c, p1, p2, p3, c1, c2, c3);
    assert c3 == PatchedCategory(c, body);
  }

  lemma ThreeSteps(c: Category, p1: seq<FieldValue>, p2: seq<FieldValue>, p3: seq<FieldValue>,
                   c1: Category, c2: Category, c3: Category)
    requires |p1| <= 1 && |p2| <= 1 && |p3| <= 1
    requires p1 == [] ==> c1 == c
    requires p1 != [] ==> AssignCategoryColumn(c, p1[0].column, p1[0].value) == Some(c1)
    requires p2 == [] ==> c2 == c1
    requires p2 != [] ==> AssignCategoryColumn(c1, p2[0].column, p2[0].value) == Some(c2)
    requires p3 == [] ==> c3 == c2
    requires p3 != [] ==> AssignCategoryColumn(c2, p3[0].column, p3[0].value) == Some(c3)
    ensures AssignAll(c, p1 + p2 + p3, AssignCategoryColumn) == Some(c3)
  {
    StepGives(c, p1, c1, AssignCategoryColumn);
    ExtendBy(c, p1, p2, c1, c2, AssignCategoryColumn);
    ExtendBy(c, p1 + p2, p3, c2, c3, AssignCategoryColumn);
  }

  /** The UPDATE statement numbers its values `$1` .. `$k` and puts the id at `$(k+1)`. */
  lemma CategoryUpdateInStep(body: CategoryBody, id: nat)
    ensures var fields := CategoryFields(body);
            NumberedUpTo(UpdateSql("categories", SetsFor(fields), |fields| + 1), |ValuesOf(fields) + [IntValue(id)]|)
  {
    UpdateNumbersPlain("categories", SetsFor(CategoryFields(body)));
  }

  // ---------------------------------------------------------------------------------------
  // The write routes

  /** The cache after a category write, as the routes invalidate it: the keys the category
      pattern matches go, on a store that answers. */
  function AfterWrite(entries: map<string, Cache.Entry>, reachable: bool): map<string, Cache.Entry> {
    if reachable then Cache.Invalidated(entries, Cache.CategoryPattern) else entries
  }

  /** So every cached analytics answer outlives a category write, still showing the old name
      and colour: the stale entries the corrected `Cache.AfterCategoryWrite` removes. */
  lemma WriteKeepsAnalytics(entries: map<string, Cache.Entry>, reachable: bool,
                            e: Cache.Endpoint, query: string, user: Option<nat>)
    requires '/' !in query && Cache.CacheKey(Cache.AnalyticsUrl(e, query), user) in entries
    ensures var k := Cache.CacheKey(Cache.AnalyticsUrl(e, query), user);
      var after := AfterWrite(entries, reachable);
      k in after && after[k] == entries[k]
  {
    if reachable {
      Cache.CategoryPatternSparesAnalytics(entries, e, query, user);
    }
  }

  /** Whether a category other than `id` is called `name` (`SELECT id FROM categories WHERE
      name = $1 AND id != $2`). */
  predicate NameHeldByOther(cats: seq<Category>, name: string, id: int) {
    exists i :: 0 <= i < |cats| && cats[i].name == name && cats[i].id != id
  }

  /** Lines 60-120 (POST /categories): validate, refuse a taken name, insert with the default
      color when none is given, invalidate. */
  method CreateCategory(db: Database, store: Cache.RedisStore, body: CategoryBody)
    returns (reply: Outcome<Category>, details: seq<FieldError>)
    requires db.Valid()
    modifies db, store
    ensures db.Valid()
    ensures !ValidCategory(body, false) ==>
      reply == Failure(400, ValidationFailed) && details == CategoryErrors(body, false) && details != []
      && unchanged(db) && unchanged(store)
    ensures ValidCategory(body, false) && HasCategoryNamed(old(db.categories), body.name.value) ==>
      reply == Failure(409, NameTaken) && unchanged(db) && unchanged(store)
    ensures ValidCategory(body, false) && !HasCategoryNamed(old(db.categories), body.name.value) ==>
      && reply == Success(201, Category(old(db.nextCategoryId), body.name.value, body.description,
                                        body.color.GetOr(DefaultColor), db.clock))
      && HexColor(reply.value.color)
      && db.categories == old(db.categories) + [reply.value]
      && db.transactions == old(db.transactions)
      && store.entries == AfterWrite(old(store.entries), old(store.reachable))
    ensures store.reachable == old(store.reachable)
  {
    details := CategoryErrors(body, false);
    CategoryValidation(body, false);
    if details != [] {
      reply := Failure(400, ValidationFailed);
      return;
    }
    var name := body.name.value;
    var color := body.color.GetOr(DefaultColor);
    if HasCategoryNamed(db.categories, name) {
      reply := Failure(409, NameTaken);
      return;
    }
    ghost var before := (db.transactions, db.categories, db.nextTransactionId, db.nextCategoryId);
    var c := db.InsertCategory(name, body.description, color);
    InsertCategoryKeepsConsistent(before.0, before.1, before.2, before.3, c);
    store.Invalidate(Cache.CategoryPattern);
    reply := Success(201, c);
  }

  /** Lines 123-216 (PUT /categories/:id): validate, find the category, refuse a name another
      category holds, build the partial UPDATE, run it, invalidate. */
  method UpdateCategory(db: Database, store: Cache.RedisStore, idText: string, body: CategoryBody,
                        asInt: string -> Option<int>)
    returns (reply: Outcome<Category>, details: seq<FieldError>)
    requires db.Valid()
    modifies db, store
    ensures db.Valid()
    ensures !ValidCategory(body, true) ==>
      reply == Failure(400, ValidationFailed) && details == CategoryErrors(body, true) && details != []
      && unchanged(db) && unchanged(store)
    ensures ValidCategory(body, true) && asInt(idText).None? ==>
      reply == Failure(500, InternalError) && unchanged(db) && unchanged(store)
    ensures ValidCategory(body, true) && asInt(idText).Some? && !HasCategory(old(db.categories), asInt(idText).value) ==>
      reply == Failure(404, CategoryNotFound) && unchanged(db) && unchanged(store)
    ensures ValidCategory(body, true) && asInt(idText).Some? && HasCategory(old(db.categories), asInt(idText).value)
            && body.name.Some? && NameHeldByOther(old(db.categories), body.name.value, asInt(idText).value) ==>
      reply == Failure(409, NameTaken) && unchanged(db) && unchanged(store)
    ensures ValidCategory(body, true) && asInt(idText).Some? && HasCategory(old(db.categories), asInt(idText).value)
            && (body.name.Some? ==> !NameHeldByOther(old(db.categories), body.name.value, asInt(idText).value))
            && body == CategoryBody(None, None, None) ==>
      reply == Failure(400, NoFieldsToUpdate) && unchanged(db) && unchanged(store)
    ensures ValidCategory(body, true) && asInt(idText).Some? && HasCategory(old(db.categories), asInt(idText).value)
            && (body.name.Some? ==> !NameHeldByOther(old(db.categories), body.name.value, asInt(idText).value))
            && body != CategoryBody(None, None, None) ==>
      var id := asInt(idText).value;
      && reply == Success(200, PatchedCategory(FindCategory(old(db.categories), id).value, body))
      && db.categories == ReplaceCategoryById(old(db.categories), id, reply.value)
      && db.transactions == old(db.transactions)
      && store.entries == AfterWrite(old(store.entries), old(store.reachable))
    ensures store.reachable == old(store.reachable)
  {
    details := CategoryErrors(body, true);
    CategoryValidation(body, true);
    if details != [] {
      reply := Failure(400, ValidationFailed);
      return;
    }
    var parsed := asInt(idText);
    if parsed.None? {
      reply := Failure(500, InternalError);
      return;
    }
    var id := parsed.value;
    var existing := FindCategory(db.categories, id);
    if existing.None? {
      reply := Failure(404, CategoryNotFound);
      return;
    }
    if body.name.Some? && body.name.value != "" && NameHeldByOther(db.categories, body.name.value, id) {
      reply := Failure(409, NameTaken);
      return;
    }
    var updates, values, paramCount := BuildCategoryUpdate(body);
    if |updates| == 0 {
      reply := Failure(400, NoFieldsToUpdate);
      return;
    }
    values := values + [IntValue(id)];
    var c := existing.value;
    CategoryUpdateMeansPatch(c, body, c.id);
    var row := RunSets(c, updates, values, AssignCategoryColumn, NoStamp).value;
    ghost var cats := db.categories;
    forall i | 0 <= i < |cats| && cats[i].name == row.name ensures cats[i].id == id {
      if body.name.None? {
        var k :| 0 <= k < |cats| && cats[k] == c;
        assert !(i < k) && !(k < i);
      }
    }
    ReplaceCategoryKeepsConsistent(db.transactions, cats, db.nextTransactionId, db.nextCategoryId, id, row);
    db.ReplaceCategory(id, row);
    store.Invalidate(Cache.CategoryPattern);
    reply := Success(200, row);
  }

  /** Lines 219-252 (DELETE /categories/:id): refuse a category in use, delete, 404 when none
      went, invalidate. */
  method DeleteCategory(db: Database, store: Cache.RedisStore, idText: string, asInt: string -> Option<int>)
    returns (reply: Outcome<string>)
    requires db.Valid()
    modifies db, store
    ensures db.Valid()
    ensures asInt(idText).None? ==>
      reply == Failure(500, InternalError) && unchanged(db) && unchanged(store)
    ensures asInt(idText).Some? && CountUsing(old(db.transactions), asInt(idText).value) > 0 ==>
      reply == Failure(400, CategoryInUse) && unchanged(db) && unchanged(store)
    ensures asInt(idText).Some? && CountUsing(old(db.transactions), asInt(idText).value) == 0
            && !HasCategory(old(db.categories), asInt(idText).value) ==>
      reply == Failure(404, CategoryNotFound) && db.categories == old(db.categories) && unchanged(store)
    ensures asInt(idText).Some? && CountUsing(old(db.transactions), asInt(idText).value) == 0
            && HasCategory(old(db.categories), asInt(idText).value) ==>
      && reply == Success(200, "Category deleted successfully")
      && db.categories == RemoveCategory(old(db.categories), asInt(idText).value)
      && !HasCategory(db.categories, asInt(idText).value)
      && store.entries == AfterWrite(old(store.entries), old(store.reachable))
    ensures db.transactions == old(db.transactions)
    ensures store.reachable == old(store.reachable)
  {
    var parsed := asInt(idText);
    if parsed.None? {
      reply := Failure(500, InternalError);
      return;
    }
    var id := parsed.value;
    if CountUsing(db.transactions, id) > 0 {
      reply := Failure(400, CategoryInUse);
      return;
    }
    ghost var before := (db.transactions, db.categories, db.nextTransactionId, db.nextCategoryId);
    RemoveCategoryKeepsConsistent(before.0, before.1, before.2, before.3, id);
    var deleted := db.DeleteCategory(id);
    if !deleted {
      reply := Failure(404, CategoryNotFound);
      return;
    }
    store.Invalidate(Cache.CategoryPattern);
    reply := Success(200, "Category deleted successfully");
  }
}
