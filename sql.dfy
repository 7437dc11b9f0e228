/** Parameterised SQL as the route handlers assemble it: literal fragments written in the
    handlers' own source, `$n` placeholders, and the values sent beside the text. */
module Sql {
  import opened Text
  import opened Calendar
  import opened Wrappers

  /** A piece of statement text: a literal fragment or the placeholder `$n`. */
  datatype Piece = Lit(text: string) | Param(n: nat)

  /** A value sent beside the text; dates travel as dates. `Unreadable` is a value the server
      cannot read as the number its position needs (JavaScript's NaN, say). */
  datatype Value = IntValue(i: int) | TextValue(s: string) | DateValue(d: Date) | Unreadable

  /** `$n`. */
  function Placeholder(n: nat): (s: string)
    ensures |s| >= 2 && s[0] == '$' && AllDigits(s[1..])
  {
    "$" + NatToString(n)
  }

  /** Distinct numbers give distinct placeholders, so the text names each value unambiguously. */
  lemma PlaceholderInjective(a: nat, b: nat)
    requires Placeholder(a) == Placeholder(b)
    ensures a == b
  {
    assert Placeholder(a)[1..] == NatToString(a);
    assert Placeholder(b)[1..] == NatToString(b);
    NatToStringInjective(a, b);
  }

  function PieceText(p: Piece): string {
    match p
    case Lit(t) => t
    case Param(n) => Placeholder(n)
  }

  /** The statement text sent to the server. */
  function Render(sql: seq<Piece>): string {
    if sql == [] then "" else PieceText(sql[0]) + Render(sql[1..])
  }

  lemma {:induction false} RenderAppend(a: seq<Piece>, b: seq<Piece>)
    ensures Render(a + b) == Render(a) + Render(b)
    decreases |a|
  {
    if a == [] {
      assert a + b == b;
    } else {
      assert (a + b)[1..] == a[1..] + b;
      RenderAppend(a[1..], b);
    }
  }

  /** The placeholder numbers a statement refers to. */
  function Numbers(sql: seq<Piece>): set<nat> {
    set i | 0 <= i < |sql| && sql[i].Param? :: sql[i].n
  }

  /** The statement refers to exactly `$1` .. `$k`. */
  ghost predicate NumberedUpTo(sql: seq<Piece>, k: nat) {
    forall n: nat :: n in Numbers(sql) <==> 1 <= n <= k
  }

  /** Every literal fragment of the statement is one of `fragments`. */
  predicate LiteralsFrom(sql: seq<Piece>, fragments: set<string>) {
    forall i :: 0 <= i < |sql| && sql[i].Lit? ==> sql[i].text in fragments
  }

  lemma NumbersAppend(a: seq<Piece>, b: seq<Piece>)
    ensures Numbers(a + b) == Numbers(a) + Numbers(b)
  {
    var c := a + b;
    forall n | n in Numbers(c) ensures n in Numbers(a) + Numbers(b) {
      var i :| 0 <= i < |c| && c[i].Param? && c[i].n == n;
      if i >= |a| {
        assert b[i - |a|] == c[i];
      }
    }
    forall n | n in Numbers(a) + Numbers(b) ensures n in Numbers(c) {
      if n in Numbers(a) {
        var i :| 0 <= i < |a| && a[i].Param? && a[i].n == n;
        assert c[i] == a[i];
      } else {
        var i :| 0 <= i < |b| && b[i].Param? && b[i].n == n;
        assert c[|a| + i] == b[i];
      }
    }
  }

  lemma LiteralsAppend(a: seq<Piece>, b: seq<Piece>, fragments: set<string>)
    requires LiteralsFrom(a, fragments) && LiteralsFrom(b, fragments)
    ensures LiteralsFrom(a + b, fragments)
  {
    var c := a + b;
    forall i | 0 <= i < |c| && c[i].Lit? ensures c[i].text in fragments {
      if i < |a| {
        assert c[i] == a[i];
      } else {
        assert c[i] == b[i - |a|];
      }
    }
  }

  // ---------------------------------------------------------------------------------------
  // Partial UPDATE statements

  /** An entry of an UPDATE's SET list: `column = $n`, or `column = CURRENT_TIMESTAMP`. */
  datatype Assignment = SetParam(column: string, n: nat) | SetNow(column: string)

  function AssignmentSql(a: Assignment): seq<Piece> {
    match a
    case SetParam(column, n) => [Lit(column + " = "), Param(n)]
    case SetNow(column) => [Lit(column + " = CURRENT_TIMESTAMP")]
  }

  /** `updates.join(', ')`. */
  function SetListSql(sets: seq<Assignment>): seq<Piece> {
    if sets == [] then []
    else if |sets| == 1 then AssignmentSql(sets[0])
    else SetListSql(sets[..|sets| - 1]) + [Lit(", ")] + AssignmentSql(sets[|sets| - 1])
  }

  /** `UPDATE <table> SET <sets> WHERE id = $<k> RETURNING *`. */
  function UpdateSql(table: string, sets: seq<Assignment>, idParam: nat): seq<Piece> {
    [Lit("UPDATE " + table + " SET ")] + SetListSql(sets) + [Lit(" WHERE id = "), Param(idParam), Lit(" RETURNING *")]
  }

  function Columns(sets: seq<Assignment>): seq<string> {
    seq(|sets|, i requires 0 <= i < |sets| => sets[i].column)
  }

  /** One more parameter entry, at `$k`, after a list numbered `$1` .. `$(k-1)`. */
  lemma SetListSnocNumbers(init: seq<Assignment>, a: Assignment, k: nat)
    requires k >= 1 && init != [] && NumberedUpTo(SetListSql(init), k - 1)
    requires a == SetParam(a.column, k)
    ensures NumberedUpTo(SetListSql(init + [a]), k)
  {
    var sets := init + [a];
    var last := AssignmentSql(a);
    assert sets[..|sets| - 1] == init;
    assert SetListSql(sets) == SetListSql(init) + [Lit(", ")] + last;
    assert Numbers(last) == {k} by {
      assert last[1] == Param(k);
    }
    assert Numbers([Lit(", ")]) == {};
    NumbersAppend(SetListSql(init), [Lit(", ")]);
    NumbersAppend(SetListSql(init) + [Lit(", ")], last);
  }

  lemma {:induction false} SetListNumbers(sets: seq<Assignment>)
    requires forall i :: 0 <= i < |sets| ==> sets[i] == SetParam(sets[i].column, i + 1)
    ensures NumberedUpTo(SetListSql(sets), |sets|)
    decreases |sets|
  {
    if sets == [] {
    } else if |sets| == 1 {
      assert Numbers(AssignmentSql(sets[0])) == {1} by {
        assert AssignmentSql(sets[0])[1] == Param(1);
      }
    } else {
      var init := sets[..|sets| - 1];
      assert forall i :: 0 <= i < |init| ==> init[i] == sets[i];
      SetListNumbers(init);
      assert sets == init + [sets[|sets| - 1]];
      SetListSnocNumbers(init, sets[|sets| - 1], |sets|);
    }
  }

  /** A SET list of parameter entries followed by `SetNow`, with the row id at the next
      placeholder, refers to exactly `$1` .. `$(k+1)` where k is the number of values. */
  lemma UpdateNumbers(table: string, params: seq<Assignment>, now: string)
    requires forall i :: 0 <= i < |params| ==> params[i] == SetParam(params[i].column, i + 1)
    ensures NumberedUpTo(UpdateSql(table, params + [SetNow(now)], |params| + 1), |params| + 1)
  {
    var k := |params|;
    var sets := params + [SetNow(now)];
    var stamp := [Lit(now + " = CURRENT_TIMESTAMP")];
    assert sets[..|sets| - 1] == params;
    var list := SetListSql(sets);
    SetListNumbers(params);
    assert Numbers(stamp) == {};
    assert Numbers(list) == Numbers(SetListSql(params)) by {
      if params == [] {
        assert list == stamp;
      } else {
        assert list == SetListSql(params) + [Lit(", ")] + stamp;
        NumbersAppend(SetListSql(params), [Lit(", ")]);
        NumbersAppend(SetListSql(params) + [Lit(", ")], stamp);
        assert Numbers([Lit(", ")]) == {};
      }
    }
    var head: seq<Piece> := [Lit("UPDATE " + table + " SET ")];
    var tail := [Lit(" WHERE id = "), Param(k + 1), Lit(" RETURNING *")];
    assert Numbers(head) == {};
    assert Numbers(tail) == {k + 1} by {
      assert tail[1] == Param(k + 1);
    }
    NumbersAppend(head, list);
    NumbersAppend(head + list, tail);
  }

  // ---------------------------------------------------------------------------------------
  // Building a partial UPDATE and running it

  /** A column an UPDATE assigns and the value it sends for it. */
  datatype FieldValue = FieldValue(column: string, value: Value)

  /** `col = $1, col = $2, ...` for the fields in order. */
  function SetsFor(fields: seq<FieldValue>): (sets: seq<Assignment>)
    ensures |sets| == |fields|
    ensures forall i :: 0 <= i < |sets| ==> sets[i] == SetParam(fields[i].column, i + 1)
  {
    seq(|fields|, i requires 0 <= i < |fields| => SetParam(fields[i].column, i + 1))
  }

  /** The values sent beside the text, in placeholder order. */
  function ValuesOf(fields: seq<FieldValue>): (values: seq<Value>)
    ensures |values| == |fields|
    ensures forall i :: 0 <= i < |values| ==> values[i] == fields[i].value
  {
    seq(|fields|, i requires 0 <= i < |fields| => fields[i].value)
  }

  /** One present field: `updates.push(`${column} = $${paramCount++}`)` and `values.push(v)`. */
  method PushField(ghost fields: seq<FieldValue>, updates: seq<Assignment>, values: seq<Value>, paramCount: nat,
                   column: string, v: Value)
    returns (updates': seq<Assignment>, values': seq<Value>, paramCount': nat)
    requires updates == SetsFor(fields) && values == ValuesOf(fields) && paramCount == |fields| + 1
    ensures updates' == SetsFor(fields + [FieldValue(column, v)])
    ensures values' == ValuesOf(fields + [FieldValue(column, v)])
    ensures paramCount' == |fields| + 2
  {
    updates' := updates + [SetParam(column, paramCount)];
    values' := values + [v];
    paramCount' := paramCount + 1;
  }

  /** A SET list run against a row, entry by entry: `assign` is what the server does with
      `column = value` on the table's rows and `stamp` with `column = CURRENT_TIMESTAMP`; None
      when the server rejects an entry. */
  function RunSets<R>(row: R, sets: seq<Assignment>, values: seq<Value>,
                      assign: (R, string, Value) -> Option<R>, stamp: (R, string) -> Option<R>): Option<R>
    decreases |sets|
  {
    if sets == [] then Some(row)
    else
      var r := RunSets(row, sets[..|sets| - 1], values, assign, stamp);
      if r.None? then None
      else match sets[|sets| - 1]
        case SetNow(column) => stamp(r.value, column)
        case SetParam(column, n) => if 1 <= n <= |values| then assign(r.value, column, values[n - 1]) else None
  }

  /** The fields assigned one after another. */
  function AssignAll<R>(row: R, fields: seq<FieldValue>, assign: (R, string, Value) -> Option<R>): Option<R>
    decreases |fields|
  {
    if fields == [] then Some(row)
    else
      var r := AssignAll(row, fields[..|fields| - 1], assign);
      if r.None? then None else assign(r.value, fields[|fields| - 1].column, fields[|fields| - 1].value)
  }

  /** Numbered entries read the values at their own positions, whatever follows them. */
  lemma {:induction false} SetsReadTheirValues<R>(row: R, fields: seq<FieldValue>, extra: seq<Value>,
                                                 assign: (R, string, Value) -> Option<R>, stamp: (R, string) -> Option<R>)
    ensures RunSets(row, SetsFor(fields), ValuesOf(fields) + extra, assign, stamp) == AssignAll(row, fields, assign)
    decreases |fields|
  {
    if fields != [] {
      var init := fields[..|fields| - 1];
      var last := fields[|fields| - 1];
      var values := ValuesOf(fields) + extra;
      assert SetsFor(fields)[..|fields| - 1] == SetsFor(init);
      assert ValuesOf(fields) + extra == ValuesOf(init) + ([last.value] + extra);
      SetsReadTheirValues(row, init, [last.value] + extra, assign, stamp);
      assert values[|fields| - 1] == last.value;
    }
  }

  lemma {:induction false} AssignAllAppend<R>(row: R, a: seq<FieldValue>, b: seq<FieldValue>, assign: (R, string, Value) -> Option<R>)
    ensures AssignAll(row, a + b, assign)
            == if AssignAll(row, a, assign).None? then None else AssignAll(AssignAll(row, a, assign).value, b, assign)
    decreases |b|
  {
    if b == [] {
      assert a + b == a;
    } else {
      assert (a + b)[..|a + b| - 1] == a + b[..|b| - 1];
      AssignAllAppend(row, a, b[..|b| - 1], assign);
    }
  }

  /** At most one field, assigned to a row. */
  lemma StepGives<R>(row: R, p: seq<FieldValue>, row': R, assign: (R, string, Value) -> Option<R>)
    requires |p| <= 1
    requires p == [] ==> row' == row
    requires p != [] ==> assign(row, p[0].column, p[0].value) == Some(row')
    ensures AssignAll(row, p, assign) == Some(row')
  {
    if p != [] {
      assert p == [p[0]];
      assert p[..0] == [];
    }
  }

  /** Extending a run of assignments by at most one field. */
  lemma ExtendBy<R>(row: R, a: seq<FieldValue>, p: seq<FieldValue>, ra: R, rb: R, assign: (R, string, Value) -> Option<R>)
    requires AssignAll(row, a, assign) == Some(ra)
    requires |p| <= 1
    requires p == [] ==> rb == ra
    requires p != [] ==> assign(ra, p[0].column, p[0].value) == Some(rb)
    ensures AssignAll(row, a + p, assign) == Some(rb)
  {
    AssignAllAppend(row, a, p, assign);
    StepGives(ra, p, rb, assign);
  }

  /** A SET list of parameter entries alone, with the row id at the next placeholder, refers to
      exactly `$1` .. `$(k+1)`. */
  lemma UpdateNumbersPlain(table: string, params: seq<Assignment>)
    requires forall i :: 0 <= i < |params| ==> params[i] == SetParam(params[i].column, i + 1)
    ensures NumberedUpTo(UpdateSql(table, params, |params| + 1), |params| + 1)
  {
    var k := |params|;
    SetListNumbers(params);
    var head: seq<Piece> := [Lit("UPDATE " + table + " SET ")];
    var tail := [Lit(" WHERE id = "), Param(k + 1), Lit(" RETURNING *")];
    assert Numbers(head) == {};
    assert Numbers(tail) == {k + 1} by {
      assert tail[1] == Param(k + 1);
    }
    NumbersAppend(head, SetListSql(params));
    NumbersAppend(head + SetListSql(params), tail);
  }
}
