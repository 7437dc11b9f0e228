/** The Ledger Store: the `transactions` and `categories` tables, held in memory. Amounts are
    integer cents; timestamps are seconds since the epoch. */
module Ledger {
  import opened Wrappers
  import opened Calendar

  datatype Kind = Income | Expense

  /** The `transaction_type` column value. */
  function KindName(k: Kind): string {
    match k
    case Income => "income"
    case Expense => "expense"
  }

  /** `isIn(['income', 'expense'])`: the kinds a request body may name. */
  function ParseKind(s: string): (r: Option<Kind>)
    ensures r.Some? <==> s == "income" || s == "expense"
    ensures r.Some? ==> KindName(r.value) == s
  {
    if s == "income" then Some(Income) else if s == "expense" then Some(Expense) else None
  }

  lemma KindNameRoundTrip(k: Kind)
    ensures ParseKind(KindName(k)) == Some(k)
  {
  }

  datatype Transaction = Transaction(
    id: nat,
    userId: nat,
    categoryId: nat,
    amount: int,
    kind: Kind,
    description: Option<string>,
    date: Date,
    createdAt: nat,
    updatedAt: nat)

  datatype Category = Category(
    id: nat,
    name: string,
    description: Option<string>,
    color: string,
    createdAt: nat)

  predicate HasCategory(cats: seq<Category>, id: int) {
    exists i :: 0 <= i < |cats| && cats[i].id == id
  }

  /** `SELECT ... FROM categories WHERE id = $1`: the row with that id, if any. */
  function FindCategory(cats: seq<Category>, id: int): (r: Option<Category>)
    ensures r.Some? <==> HasCategory(cats, id)
    ensures r.Some? ==> r.value in cats && r.value.id == id
  {
    if cats == [] then None
    else if cats[0].id == id then Some(cats[0])
    else
      var r := FindCategory(cats[1..], id);
      assert HasCategory(cats[1..], id) ==> HasCategory(cats, id);
      assert HasCategory(cats, id) ==> HasCategory(cats[1..], id);
      r
  }

  predicate HasCategoryNamed(cats: seq<Category>, name: string) {
    exists i :: 0 <= i < |cats| && cats[i].name == name
  }

  /** How many transactions reference a category (`SELECT COUNT(*) ... WHERE category_id = $1`). */
  function CountUsing(txs: seq<Transaction>, categoryId: int): (n: nat)
    ensures n <= |txs|
    ensures n == 0 <==> forall i :: 0 <= i < |txs| ==> txs[i].categoryId != categoryId
  {
    if txs == [] then 0
    else
      var rest := CountUsing(txs[1..], categoryId);
      assert forall i :: 1 <= i < |txs| ==> txs[i] == txs[1..][i - 1];
      (if txs[0].categoryId == categoryId then 1 else 0) + rest
  }

  /** `DELETE FROM transactions WHERE id = $1 AND user_id = $2`: the rows that stay. */
  function RemoveTransaction(txs: seq<Transaction>, id: int, userId: int): (r: seq<Transaction>)
    ensures forall t :: t in r <==> t in txs && !(t.id == id && t.userId == userId)
    ensures |r| <= |txs|
    ensures (forall t :: t in txs ==> !(t.id == id && t.userId == userId)) ==> r == txs
  {
    if txs == [] then []
    else
      var rest := RemoveTransaction(txs[1..], id, userId);
      if txs[0].id == id && txs[0].userId == userId then rest else [txs[0]] + rest
  }

  /** `UPDATE transactions SET ... WHERE id = $k`: the row with that id replaced. */
  function ReplaceById(txs: seq<Transaction>, id: int, row: Transaction): (r: seq<Transaction>)
    ensures |r| == |txs|
    ensures forall i :: 0 <= i < |txs| ==> r[i] == if txs[i].id == id then row else txs[i]
  {
    seq(|txs|, i requires 0 <= i < |txs| => if txs[i].id == id then row else txs[i])
  }

  /** `SELECT ... FROM transactions WHERE id = $1 AND user_id = $2`: the caller's row with that
      id, if any. */
  function FindTransaction(txs: seq<Transaction>, id: int, userId: nat): (r: Option<Transaction>)
    ensures r.Some? <==> exists i :: 0 <= i < |txs| && txs[i].id == id && txs[i].userId == userId
    ensures r.Some? ==> r.value in txs && r.value.id == id && r.value.userId == userId
  {
    if txs == [] then None
    else if txs[0].id == id && txs[0].userId == userId then Some(txs[0])
    else
      var r := FindTransaction(txs[1..], id, userId);
      assert forall i :: 1 <= i < |txs| ==> txs[i] == txs[1..][i - 1];
      r
  }

  /** `DELETE FROM categories WHERE id = $1`: the categories that stay. */
  function RemoveCategory(cats: seq<Category>, id: int): (r: seq<Category>)
    ensures forall c :: c in r <==> c in cats && c.id != id
    ensures |r| <= |cats|
    ensures !HasCategory(cats, id) ==> r == cats
  {
    if cats == [] then []
    else
      var rest := RemoveCategory(cats[1..], id);
      if cats[0].id == id then rest else [cats[0]] + rest
  }

  /** `UPDATE categories SET ... WHERE id = $k`: the category with that id replaced. */
  function ReplaceCategoryById(cats: seq<Category>, id: int, row: Category): (r: seq<Category>)
    ensures |r| == |cats|
    ensures forall i :: 0 <= i < |cats| ==> r[i] == if cats[i].id == id then row else cats[i]
  {
    seq(|cats|, i requires 0 <= i < |cats| => if cats[i].id == id then row else cats[i])
  }

  predicate TransactionIdsDistinct(txs: seq<Transaction>) {
    forall i, j :: 0 <= i < j < |txs| ==> txs[i].id != txs[j].id
  }

  predicate CategoryIdsDistinct(cats: seq<Category>) {
    forall i, j :: 0 <= i < j < |cats| ==> cats[i].id != cats[j].id
  }

  predicate CategoryNamesDistinct(cats: seq<Category>) {
    forall i, j :: 0 <= i < j < |cats| ==> cats[i].name != cats[j].name
  }

  /** The invariants the routes keep: unique ids below the next id to hand out, unique category
      names, positive amounts, and every transaction naming an existing category. */
  predicate Consistent(txs: seq<Transaction>, cats: seq<Category>, nextTx: nat, nextCat: nat) {
    && TransactionIdsDistinct(txs)
    && (forall i :: 0 <= i < |txs| ==> txs[i].id < nextTx)
    && (forall i :: 0 <= i < |txs| ==> txs[i].amount >= 1)
    && (forall i :: 0 <= i < |txs| ==> HasCategory(cats, txs[i].categoryId))
    && CategoryIdsDistinct(cats)
    && CategoryNamesDistinct(cats)
    && (forall i :: 0 <= i < |cats| ==> cats[i].id < nextCat)
  }

  /** A new row with the next serial id, a positive amount and an existing category keeps the
      store consistent. */
  lemma InsertKeepsConsistent(txs: seq<Transaction>, cats: seq<Category>, nextTx: nat, nextCat: nat, t: Transaction)
    requires Consistent(txs, cats, nextTx, nextCat)
    requires t.id == nextTx && t.amount >= 1 && HasCategory(cats, t.categoryId)
    ensures Consistent(txs + [t], cats, nextTx + 1, nextCat)
  {
    var r := txs + [t];
    forall i | 0 <= i < |r| ensures r[i].id < nextTx + 1 && r[i].amount >= 1 && HasCategory(cats, r[i].categoryId) {
      if i < |txs| { assert r[i] == txs[i]; }
    }
    forall i, j | 0 <= i < j < |r| ensures r[i].id != r[j].id {
      assert r[i] == txs[i];
      if j < |txs| { assert r[j] == txs[j]; }
    }
  }

  /** Replacing a row by one with the same id, a positive amount and an existing category keeps
      the store consistent. */
  lemma ReplaceKeepsConsistent(txs: seq<Transaction>, cats: seq<Category>, nextTx: nat, nextCat: nat,
                               id: int, row: Transaction)
    requires Consistent(txs, cats, nextTx, nextCat)
    requires row.id == id && row.amount >= 1 && HasCategory(cats, row.categoryId)
    ensures Consistent(ReplaceById(txs, id, row), cats, nextTx, nextCat)
  {
    var r := ReplaceById(txs, id, row);
    assert forall i :: 0 <= i < |r| ==> r[i].id == txs[i].id;
  }

  lemma {:induction false} RemoveKeepsDistinct(txs: seq<Transaction>, id: int, userId: int)
    requires TransactionIdsDistinct(txs)
    ensures TransactionIdsDistinct(RemoveTransaction(txs, id, userId))
    decreases |txs|
  {
    if txs != [] {
      var tail := txs[1..];
      assert TransactionIdsDistinct(tail) by {
        forall i, j | 0 <= i < j < |tail| ensures tail[i].id != tail[j].id {
          assert tail[i] == txs[i + 1] && tail[j] == txs[j + 1];
        }
      }
      RemoveKeepsDistinct(tail, id, userId);
      var rest := RemoveTransaction(tail, id, userId);
      if !(txs[0].id == id && txs[0].userId == userId) {
        var r := [txs[0]] + rest;
        forall j | 0 <= j < |rest| ensures rest[j].id != txs[0].id {
          assert rest[j] in tail;
          var k :| 0 <= k < |tail| && tail[k] == rest[j];
          assert txs[k + 1] == rest[j];
        }
        forall i, j | 0 <= i < j < |r| ensures r[i].id != r[j].id {
          assert r[j] == rest[j - 1];
          if i > 0 { assert r[i] == rest[i - 1]; }
        }
      }
    }
  }

  /** Deleting transactions keeps the store consistent. */
  lemma RemoveKeepsConsistent(txs: seq<Transaction>, cats: seq<Category>, nextTx: nat, nextCat: nat,
                              id: int, userId: int)
    requires Consistent(txs, cats, nextTx, nextCat)
    ensures Consistent(RemoveTransaction(txs, id, userId), cats, nextTx, nextCat)
  {
    var r := RemoveTransaction(txs, id, userId);
    RemoveKeepsDistinct(txs, id, userId);
    forall i | 0 <= i < |r| ensures r[i].id < nextTx && r[i].amount >= 1 && HasCategory(cats, r[i].categoryId) {
      assert r[i] in txs;
    }
  }

  /** A new category with the next serial id and a name no category has keeps the store
      consistent. */
  lemma InsertCategoryKeepsConsistent(txs: seq<Transaction>, cats: seq<Category>, nextTx: nat, nextCat: nat, c: Category)
    requires Consistent(txs, cats, nextTx, nextCat)
    requires c.id == nextCat && !HasCategoryNamed(cats, c.name)
    ensures Consistent(txs, cats + [c], nextTx, nextCat + 1)
  {
    var r := cats + [c];
    forall i | 0 <= i < |txs| ensures HasCategory(r, txs[i].categoryId) {
      var k :| 0 <= k < |cats| && cats[k].id == txs[i].categoryId;
      assert r[k] == cats[k];
    }
    forall i | 0 <= i < |r| ensures r[i].id < nextCat + 1 {
      if i < |cats| { assert r[i] == cats[i]; }
    }
    forall i, j | 0 <= i < j < |r| ensures r[i].id != r[j].id && r[i].name != r[j].name {
      assert r[i] == cats[i];
      if j < |cats| { assert r[j] == cats[j]; }
    }
  }

  /** Replacing a category by one with the same id and a name no other category has keeps the
      store consistent. */
  lemma ReplaceCategoryKeepsConsistent(txs: seq<Transaction>, cats: seq<Category>, nextTx: nat, nextCat: nat,
                                       id: int, row: Category)
    requires Consistent(txs, cats, nextTx, nextCat)
    requires row.id == id
    requires forall i :: 0 <= i < |cats| && cats[i].name == row.name ==> cats[i].id == id
    ensures Consistent(txs, ReplaceCategoryById(cats, id, row), nextTx, nextCat)
  {
    var r := ReplaceCategoryById(cats, id, row);
    assert forall i :: 0 <= i < |r| ==> r[i].id == cats[i].id;
    forall i | 0 <= i < |txs| ensures HasCategory(r, txs[i].categoryId) {
      var k :| 0 <= k < |cats| && cats[k].id == txs[i].categoryId;
      assert r[k].id == cats[k].id;
    }
  }

  lemma {:induction false} RemoveCategoryKeepsDistinct(cats: seq<Category>, id: int)
    requires CategoryIdsDistinct(cats) && CategoryNamesDistinct(cats)
    ensures CategoryIdsDistinct(RemoveCategory(cats, id)) && CategoryNamesDistinct(RemoveCategory(cats, id))
    decreases |cats|
  {
    if cats != [] {
      var tail := cats[1..];
      assert CategoryIdsDistinct(tail) && CategoryNamesDistinct(tail) by {
        forall i, j | 0 <= i < j < |tail| ensures tail[i].id != tail[j].id && tail[i].name != tail[j].name {
          assert tail[i] == cats[i + 1] && tail[j] == cats[j + 1];
        }
      }
      RemoveCategoryKeepsDistinct(tail, id);
      var rest := RemoveCategory(tail, id);
      if cats[0].id != id {
        var r := [cats[0]] + rest;
        forall j | 0 <= j < |rest| ensures rest[j].id != cats[0].id && rest[j].name != cats[0].name {
          assert rest[j] in tail;
          var k :| 0 <= k < |tail| && tail[k] == rest[j];
          assert cats[k + 1] == rest[j];
        }
        forall i, j | 0 <= i < j < |r| ensures r[i].id != r[j].id && r[i].name != r[j].name {
          assert r[j] == rest[j - 1];
          if i > 0 { assert r[i] == rest[i - 1]; }
        }
      }
    }
  }

  /** Deleting a category no transaction uses keeps the store consistent. */
  lemma RemoveCategoryKeepsConsistent(txs: seq<Transaction>, cats: seq<Category>, nextTx: nat, nextCat: nat, id: int)
    requires Consistent(txs, cats, nextTx, nextCat)
    requires CountUsing(txs, id) == 0
    ensures Consistent(txs, RemoveCategory(cats, id), nextTx, nextCat)
  {
    var r := RemoveCategory(cats, id);
    RemoveCategoryKeepsDistinct(cats, id);
    forall i | 0 <= i < |txs| ensures HasCategory(r, txs[i].categoryId) {
      var k :| 0 <= k < |cats| && cats[k].id == txs[i].categoryId;
      assert cats[k] in r;
      var m :| 0 <= m < |r| && r[m] == cats[k];
    }
    forall i | 0 <= i < |r| ensures r[i].id < nextCat {
      assert r[i] in cats;
    }
  }

  /** The store, with CURRENT_TIMESTAMP as `clock`. */
  class Database {
    var transactions: seq<Transaction>
    var categories: seq<Category>
    var nextTransactionId: nat
    var nextCategoryId: nat
    /** CURRENT_TIMESTAMP. */
    var clock: nat

    ghost predicate Valid()
      reads this
    {
      Consistent(transactions, categories, nextTransactionId, nextCategoryId)
    }

    constructor ()
      ensures Valid() && transactions == [] && categories == []
    {
      transactions, categories := [], [];
      nextTransactionId, nextCategoryId, clock := 1, 1, 0;
    }

    /** `INSERT INTO transactions ... RETURNING ...`: the new row takes the next serial id and
        the current timestamp for both timestamps. */
    method InsertTransaction(userId: nat, categoryId: nat, amount: int, kind: Kind,
                             description: Option<string>, date: Date)
      returns (t: Transaction)
      modifies this
      ensures t == Transaction(old(nextTransactionId), userId, categoryId, amount, kind, description, date, clock, clock)
      ensures transactions == old(transactions) + [t] && nextTransactionId == old(nextTransactionId) + 1
      ensures categories == old(categories) && nextCategoryId == old(nextCategoryId) && clock == old(clock)
    {
      t := Transaction(nextTransactionId, userId, categoryId, amount, kind, description, date, clock, clock);
      transactions := transactions + [t];
      nextTransactionId := nextTransactionId + 1;
    }

    /** An UPDATE by id: the row with that id becomes `row`. */
    method ReplaceTransaction(id: int, row: Transaction)
      modifies this
      ensures transactions == ReplaceById(old(transactions), id, row)
      ensures categories == old(categories) && nextTransactionId == old(nextTransactionId)
      ensures nextCategoryId == old(nextCategoryId) && clock == old(clock)
    {
      transactions := ReplaceById(transactions, id, row);
    }

    /** `DELETE FROM transactions WHERE id = $1 AND user_id = $2 RETURNING id`: whether a row
        went. */
    method DeleteTransaction(id: int, userId: nat) returns (deleted: bool)
      modifies this
      ensures deleted <==> exists i :: 0 <= i < |old(transactions)| && old(transactions)[i].id == id
                                       && old(transactions)[i].userId == userId
      ensures transactions == RemoveTransaction(old(transactions), id, userId)
      ensures categories == old(categories) && nextTransactionId == old(nextTransactionId)
      ensures nextCategoryId == old(nextCategoryId) && clock == old(clock)
    {
      deleted := exists i :: 0 <= i < |transactions| && transactions[i].id == id && transactions[i].userId == userId;
      transactions := RemoveTransaction(transactions, id, userId);
    }

    /** `INSERT INTO categories (name, description, color) ... RETURNING *`. */
    method InsertCategory(name: string, description: Option<string>, color: string) returns (c: Category)
      modifies this
      ensures c == Category(old(nextCategoryId), name, description, color, clock)
      ensures categories == old(categories) + [c] && nextCategoryId == old(nextCategoryId) + 1
      ensures transactions == old(transactions) && nextTransactionId == old(nextTransactionId) && clock == old(clock)
    {
      c := Category(nextCategoryId, name, description, color, clock);
      categories := categories + [c];
      nextCategoryId := nextCategoryId + 1;
    }

    /** An UPDATE of categories by id: the category with that id becomes `row`. */
    method ReplaceCategory(id: int, row: Category)
      modifies this
      ensures categories == ReplaceCategoryById(old(categories), id, row)
      ensures transactions == old(transactions) && nextTransactionId == old(nextTransactionId)
      ensures nextCategoryId == old(nextCategoryId) && clock == old(clock)
    {
      categories := ReplaceCategoryById(categories, id, row);
    }

    /** `DELETE FROM categories WHERE id = $1 RETURNING id`: whether a row went. */
    method DeleteCategory(id: int) returns (deleted: bool)
      modifies this
      ensures deleted <==> HasCategory(old(categories), id)
      ensures categories == RemoveCategory(old(categories), id)
      ensures transactions == old(transactions) && nextTransactionId == old(nextTransactionId)
      ensures nextCategoryId == old(nextCategoryId) && clock == old(clock)
    {
      deleted := HasCategory(categories, id);
      categories := RemoveCategory(categories, id);
    }
  }
}
