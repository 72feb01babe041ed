/**
 * The generic CRUD helpers: an UPDATE built from key/value lists, batch
 * inserts through one prepared statement, a filtered DELETE, and the scan
 * loop every query uses to turn result rows into entities.
 */
module Crud {
  import opened Wrappers
  import opened Text
  import opened Tables
  import opened SqlValues
  import opened Templates
  import opened Database
  import opened ApiErrors

  /** A row to write: its column names and, position for position, the values bound to them. */
  datatype DbEntity = DbEntity(fields: seq<string>, values: seq<Value>)

  /** Every engine failure reaches the caller as this 500 error. */
  const ENGINE_FAILURE: ApiError := NewGenericServerError(EngineError)

  function AllValues(es: seq<DbEntity>): (vs: seq<seq<Value>>)
    ensures |vs| == |es| && forall i :: 0 <= i < |es| ==> vs[i] == es[i].values
  {
    seq(|es|, i requires 0 <= i < |es| => es[i].values)
  }

  /** The length of the longest prefix of argument lists the engine accepts for `s`. */
  function Accepted(fails: Op -> bool, s: Statement, vals: seq<seq<Value>>): (k: nat)
    ensures k <= |vals|
    ensures forall i :: 0 <= i < k ==> Accepts(fails, s, vals[i])
    ensures k < |vals| ==> !Accepts(fails, s, vals[k])
  {
    if |vals| == 0 || !Accepts(fails, s, vals[0]) then 0 else 1 + Accepted(fails, s, vals[1..])
  }

  /** One more accepted list extends the accepted prefix; a rejected one ends it. */
  lemma AcceptedStep(fails: Op -> bool, s: Statement, vals: seq<seq<Value>>, i: nat)
    requires i <= Accepted(fails, s, vals) && i < |vals|
    ensures Accepts(fails, s, vals[i]) ==> i + 1 <= Accepted(fails, s, vals)
    ensures !Accepts(fails, s, vals[i]) ==> i == Accepted(fails, s, vals)
  {
  }

  /** The effect of executing `s` once per argument list, in order; a list of the wrong length changes nothing. */
  function RunAll(db: Db, s: Statement, vals: seq<seq<Value>>): Db
  {
    if |vals| == 0 then db
    else
      var prev := RunAll(db, s, vals[..|vals| - 1]);
      if |vals[|vals| - 1]| == Arity(s) then Run(prev, s, vals[|vals| - 1]) else prev
  }

  lemma RunAllAppend(db: Db, s: Statement, done: seq<seq<Value>>, x: seq<Value>)
    requires |x| == Arity(s)
    ensures RunAll(db, s, done + [x]) == Run(RunAll(db, s, done), s, x)
  {
    assert (done + [x])[..|done|] == done;
  }

  /**
   * UPDATE `table` SET the update keys WHERE every where key equals its value
   * (UpdateTable): the values are bound update values first, then where values.
   */
  method UpdateTable(st: Store, table: Table, update: seq<KeyValue>, where: seq<KeyValue>)
    returns (err: Option<ApiError>)
    requires |update| > 0 && AllIdents(Keys(update)) && AllIdents(Keys(where))
    modifies st
    ensures var s := UpdateSet(table, Keys(update), Keys(where));
            err.None? <==> !st.fails(Preparing(s)) && !st.fails(Executing(s, ValuesOf(update) + ValuesOf(where)))
    ensures err.None? ==> st.Content() == Run(old(st.Content()), UpdateSet(table, Keys(update), Keys(where)),
                                              ValuesOf(update) + ValuesOf(where))
    ensures err.Some? ==> err.value == ENGINE_FAILURE && st.Content() == old(st.Content())
  {
    var updateCols: seq<string> := [];
    var whereCols: seq<string> := [];
    var values: seq<Value> := [];
    var i := 0;
    while i < |update|
      invariant 0 <= i <= |update|
      invariant updateCols == Keys(update[..i]) && values == ValuesOf(update[..i])
    {
      updateCols := updateCols + [update[i].key];
      values := values + [update[i].value];
      i := i + 1;
    }
    assert update[..i] == update;
    var j := 0;
    while j < |where|
      invariant 0 <= j <= |where|
      invariant whereCols == Keys(where[..j]) && values == ValuesOf(update) + ValuesOf(where[..j])
    {
      whereCols := whereCols + [where[j].key];
      values := values + [where[j].value];
      j := j + 1;
    }
    assert where[..j] == where;
    var s := UpdateSet(table, updateCols, whereCols);
    var template := GenerateUpdateSqlTemplate(TableName(table), updateCols, whereCols);
    var prepared := st.Prepare(template, s);
    if !prepared {
      return Some(ENGINE_FAILURE);
    }
    var ok := st.Exec(template, s, values);
    err := if ok then None else Some(ENGINE_FAILURE);
  }

  /**
   * Prepares the INSERT of `cols` into `table` once and executes it for each
   * entity in turn, stopping at the first rejected row
   * (InsertEntitiesWithTemplate); returns how many rows went in.
   */
  method InsertEntitiesWithTemplate(st: Store, template: string, table: Table, cols: seq<string>, entities: seq<DbEntity>)
    returns (n: nat, err: Option<ApiError>)
    requires template == InsertText(TableName(table), cols) && AllIdents(cols)
    modifies st
    ensures st.fails(Preparing(InsertInto(table, cols))) ==>
              n == 0 && err == Some(ENGINE_FAILURE) && st.Content() == old(st.Content())
    ensures !st.fails(Preparing(InsertInto(table, cols))) ==>
              n == Accepted(st.fails, InsertInto(table, cols), AllValues(entities))
              && st.Content() == RunAll(old(st.Content()), InsertInto(table, cols), AllValues(entities)[..n])
              && (err.None? <==> n == |entities|)
    ensures err.Some? ==> err.value == ENGINE_FAILURE
  {
    var prepared := st.Prepare(template, InsertInto(table, cols));
    if !prepared {
      return 0, Some(ENGINE_FAILURE);
    }
    n, err := InsertEach(st, template, table, cols, entities);
  }

  /** The loop of InsertEntitiesWithTemplate, once the statement is prepared. */
  method InsertEach(st: Store, template: string, table: Table, cols: seq<string>, entities: seq<DbEntity>)
    returns (n: nat, err: Option<ApiError>)
    requires template == InsertText(TableName(table), cols) && AllIdents(cols)
    modifies st
    ensures n == Accepted(st.fails, InsertInto(table, cols), AllValues(entities))
    ensures st.Content() == RunAll(old(st.Content()), InsertInto(table, cols), AllValues(entities)[..n])
    ensures err.None? <==> n == |entities|
    ensures err.Some? ==> err.value == ENGINE_FAILURE
  {
    var s := InsertInto(table, cols);
    ghost var vals := AllValues(entities);
    ghost var before := st.Content();
    var i := 0;
    while i < |entities|
      invariant 0 <= i <= |entities| && i <= Accepted(st.fails, s, vals)
      invariant st.Content() == RunAll(before, s, vals[..i])
    {
      AcceptedStep(st.fails, s, vals, i);
      var ok := st.Exec(template, s, entities[i].values);
      if !ok {
        return i, Some(ENGINE_FAILURE);
      }
      RunAllPrefix(before, s, vals, i);
      i := i + 1;
    }
    assert vals[..i] == vals;
    return i, None;
  }

  /** Running one more argument list of a batch runs the statement once more. */
  lemma RunAllPrefix(db: Db, s: Statement, vals: seq<seq<Value>>, i: nat)
    requires i < |vals| && |vals[i]| == Arity(s)
    ensures RunAll(db, s, vals[..i + 1]) == Run(RunAll(db, s, vals[..i]), s, vals[i])
  {
    assert vals[..i + 1] == vals[..i] + [vals[i]];
    RunAllAppend(db, s, vals[..i], vals[i]);
  }

  /** Inserts the entities with the columns of the first one (InsertEntities); no entity, no statement. */
  method InsertEntities(st: Store, table: Table, entities: seq<DbEntity>) returns (n: nat, err: Option<ApiError>)
    requires |entities| > 0 ==> |entities[0].fields| > 0 && AllIdents(entities[0].fields)
    modifies st
    ensures |entities| == 0 ==> n == 0 && err.None? && st.Content() == old(st.Content())
    ensures |entities| > 0 ==>
              var s := InsertInto(table, entities[0].fields);
              if st.fails(Preparing(s)) then n == 0 && err == Some(ENGINE_FAILURE) && st.Content() == old(st.Content())
              else n == Accepted(st.fails, s, AllValues(entities))
                   && st.Content() == RunAll(old(st.Content()), s, AllValues(entities)[..n])
                   && (err.None? <==> n == |entities|)
    ensures err.Some? ==> err.value == ENGINE_FAILURE
  {
    if |entities| > 0 {
      var template := GenerateInsertTemplate(TableName(table), entities[0].fields);
      n, err := InsertEntitiesWithTemplate(st, template, table, entities[0].fields, entities);
    } else {
      n, err := 0, None;
    }
  }

  /** One entity per argument list, all writing the same columns. */
  function Entities(cols: seq<string>, vals: seq<seq<Value>>): (es: seq<DbEntity>)
    ensures |es| == |vals| && forall i :: 0 <= i < |vals| ==> es[i] == DbEntity(cols, vals[i])
    ensures AllValues(es) == vals
  {
    seq(|vals|, i requires 0 <= i < |vals| => DbEntity(cols, vals[i]))
  }

  /** How many rows of a batch go in: none when the batch is empty or the statement does not prepare. */
  function Inserted(fails: Op -> bool, s: Statement, vals: seq<seq<Value>>): (n: nat)
    ensures n <= |vals|
  {
    if |vals| == 0 || fails(Preparing(s)) then 0 else Accepted(fails, s, vals)
  }

  /**
   * What a batch insert through InsertEntities leaves behind: the accepted
   * prefix of the rows is written, and the call succeeds exactly when that
   * prefix is the whole batch.
   */
  predicate InsertOutcome(fails: Op -> bool, s: Statement, vals: seq<seq<Value>>, before: Db, after: Db,
                          n: nat, err: Option<ApiError>)
  {
    n == Inserted(fails, s, vals) && after == RunAll(before, s, vals[..n])
    && (err.None? <==> n == |vals|) && (err.Some? ==> err.value == ENGINE_FAILURE)
  }

  /** What a batch insert leaves behind, as one value: the store and the error. */
  function Batch(fails: Op -> bool, s: Statement, vals: seq<seq<Value>>, db: Db): (o: (Db, Option<ApiError>))
    ensures InsertOutcome(fails, s, vals, db, o.0, Inserted(fails, s, vals), o.1)
  {
    var n := Inserted(fails, s, vals);
    (RunAll(db, s, vals[..n]), if n == |vals| then None else Some(ENGINE_FAILURE))
  }

  /** A batch of inserts into one table, however far it gets, leaves every other table as it was. */
  lemma BatchKeepsOthers(fails: Op -> bool, table: Table, cols: seq<string>, vals: seq<seq<Value>>, db: Db)
    ensures var after := Batch(fails, InsertInto(table, cols), vals, db).0;
            forall u :: u != table ==> after.Rows(u) == db.Rows(u)
  {
    RunAllKeepsOthers(db, table, cols, vals[..Inserted(fails, InsertInto(table, cols), vals)]);
  }

  /** Every row of table `t` in `db` is still there in `after`. */
  predicate RowsKept(db: Db, after: Db, t: Table)
  {
    forall r :: r in db.Rows(t) ==> r in after.Rows(t)
  }

  /** Keeping rows composes. */
  lemma RowsKeptChain(db: Db, mid: Db, after: Db, t: Table)
    requires RowsKept(db, mid, t) && RowsKept(mid, after, t)
    ensures RowsKept(db, after, t)
  {
  }

  /** INSERT OR IGNORE never loses a row: every table keeps all the rows it had. */
  lemma {:induction false} RunAllKeepsRows(db: Db, table: Table, cols: seq<string>, vals: seq<seq<Value>>, u: Table)
    ensures RowsKept(db, RunAll(db, InsertInto(table, cols), vals), u)
  {
    if |vals| > 0 {
      var s := InsertInto(table, cols);
      var prev := RunAll(db, s, vals[..|vals| - 1]);
      RunAllKeepsRows(db, table, cols, vals[..|vals| - 1], u);
      if |vals[|vals| - 1]| == Arity(s) {
        var row := ZipRow(cols, vals[|vals| - 1]);
        assert prev.Rows(table) <= InsertOrIgnore(prev.Rows(table), row, PrimaryKey(table));
      }
    }
  }

  /** A batch of inserts, however far it gets, loses no row of any table. */
  lemma BatchKeepsRows(fails: Op -> bool, table: Table, cols: seq<string>, vals: seq<seq<Value>>, db: Db, u: Table)
    ensures RowsKept(db, Batch(fails, InsertInto(table, cols), vals, db).0, u)
  {
    RunAllKeepsRows(db, table, cols, vals[..Inserted(fails, InsertInto(table, cols), vals)], u);
  }

  /** A batch that reports no error wrote every one of its rows. */
  lemma BatchComplete(fails: Op -> bool, s: Statement, vals: seq<seq<Value>>, db: Db)
    requires Batch(fails, s, vals, db).1.None?
    ensures Batch(fails, s, vals, db).0 == RunAll(db, s, vals)
  {
    assert vals[..|vals|] == vals;
  }

  /**
   * Inserting a batch one row per call, stopping at the first error, ends
   * where one batch insert would: row i going in alone extends the accepted
   * prefix, and row i failing alone is where the batch would have stopped.
   */
  lemma InsertOneOfBatch(fails: Op -> bool, s: Statement, vals: seq<seq<Value>>, i: nat, before: Db, after: Db,
                         err: Option<ApiError>)
    requires i < |vals| && |vals[i]| == Arity(s)
    requires (i > 0 ==> !fails(Preparing(s))) && i <= Accepted(fails, s, vals)
    requires InsertOutcome(fails, s, [vals[i]], RunAll(before, s, vals[..i]), after, Inserted(fails, s, [vals[i]]), err)
    ensures err.Some? ==> InsertOutcome(fails, s, vals, before, after, Inserted(fails, s, vals), err)
    ensures err.None? ==> !fails(Preparing(s)) && i + 1 <= Accepted(fails, s, vals)
                          && after == RunAll(before, s, vals[..i + 1])
  {
    var cur := RunAll(before, s, vals[..i]);
    assert [vals[i]][1..] == [];
    AcceptedStep(fails, s, vals, i);
    if err.Some? {
      assert [vals[i]][..0] == [];
    } else {
      assert [vals[i]][..1] == [] + [vals[i]];
      RunAllAppend(cur, s, [], vals[i]);
      RunAllPrefix(before, s, vals, i);
    }
  }

  /** InsertEntities over entities built from `cols` and `vals`, in the terms of InsertOutcome. */
  method InsertRows(st: Store, table: Table, cols: seq<string>, vals: seq<seq<Value>>) returns (n: nat, err: Option<ApiError>)
    requires |cols| > 0 && AllIdents(cols)
    modifies st
    ensures InsertOutcome(st.fails, InsertInto(table, cols), vals, old(st.Content()), st.Content(), n, err)
  {
    var es := Entities(cols, vals);
    n, err := InsertEntities(st, table, es);
    assert vals[..0] == [];
  }

  /** The rows a batch of inserts describes, in order. */
  function ZipAll(cols: seq<string>, vals: seq<seq<Value>>): (rows: seq<Row>)
    requires forall i :: 0 <= i < |vals| ==> |vals[i]| == |cols|
    ensures |rows| == |vals| && forall i :: 0 <= i < |vals| ==> rows[i] == ZipRow(cols, vals[i])
  {
    seq(|vals|, i requires 0 <= i < |vals| => ZipRow(cols, vals[i]))
  }

  /** A table without a primary key just gains the rows, in order; no other table changes. */
  lemma {:induction false} RunAllAppends(db: Db, table: Table, cols: seq<string>, vals: seq<seq<Value>>)
    requires PrimaryKey(table).None? && forall i :: 0 <= i < |vals| ==> |vals[i]| == |cols|
    ensures RunAll(db, InsertInto(table, cols), vals).Rows(table) == db.Rows(table) + ZipAll(cols, vals)
    ensures forall u :: u != table ==> RunAll(db, InsertInto(table, cols), vals).Rows(u) == db.Rows(u)
  {
    RunAllKeepsOthers(db, table, cols, vals);
    var n := |vals|;
    if n > 0 {
      var init := vals[..n - 1];
      RunAllAppends(db, table, cols, init);
      var prev := RunAll(db, InsertInto(table, cols), init);
      var row := ZipRow(cols, vals[n - 1]);
      assert RunAll(db, InsertInto(table, cols), vals).Rows(table) == prev.Rows(table) + [row];
      assert ZipAll(cols, vals) == ZipAll(cols, init) + [row];
    }
  }

  /** A batch of inserts into one table leaves every other table as it was. */
  lemma {:induction false} RunAllKeepsOthers(db: Db, table: Table, cols: seq<string>, vals: seq<seq<Value>>)
    ensures forall u :: u != table ==> RunAll(db, InsertInto(table, cols), vals).Rows(u) == db.Rows(u)
  {
    if |vals| > 0 {
      RunAllKeepsOthers(db, table, cols, vals[..|vals| - 1]);
    }
  }

  /**
   * A table keyed on column `cols[k]`: after the batch, every key of the batch
   * is stored, no stored row is lost, every row is an old one or one of the
   * batch, and no other table changes.
   */
  lemma {:induction false} RunAllRegisters(db: Db, table: Table, cols: seq<string>, vals: seq<seq<Value>>, k: nat)
    requires k < |cols| && PrimaryKey(table) == Some(cols[k]) && Distinct(cols)
    requires forall i :: 0 <= i < |vals| ==> |vals[i]| == |cols| && vals[i][k] != Null
    ensures var after := RunAll(db, InsertInto(table, cols), vals).Rows(table);
            (forall i :: 0 <= i < |vals| ==> exists r :: r in after && Get(r, cols[k]) == vals[i][k])
            && (forall r :: r in db.Rows(table) ==> r in after)
            && (forall r :: r in after ==> r in db.Rows(table) || exists i :: 0 <= i < |vals| && r == ZipRow(cols, vals[i]))
    ensures forall u :: u != table ==> RunAll(db, InsertInto(table, cols), vals).Rows(u) == db.Rows(u)
  {
    var n := |vals|;
    if n > 0 {
      var s := InsertInto(table, cols);
      var init := vals[..n - 1];
      RunAllRegisters(db, table, cols, init, k);
      var prevDb := RunAll(db, s, init);
      var prev := prevDb.Rows(table);
      var row := ZipRow(cols, vals[n - 1]);
      assert RunAll(db, s, vals) == Run(prevDb, s, vals[n - 1]);
      var after := RunAll(db, s, vals).Rows(table);
      assert after == InsertOrIgnore(prev, row, PrimaryKey(table));
      ZipRowGet(cols, vals[n - 1], k);
      RegisterStep(prev, row, cols[k]);
      forall i | 0 <= i < n - 1
        ensures exists r :: r in after && Get(r, cols[k]) == vals[i][k]
      {
        assert init[i] == vals[i];
        var r :| r in prev && Get(r, cols[k]) == init[i][k];
        assert r in after;
      }
      forall r | r in after
        ensures r in db.Rows(table) || exists i :: 0 <= i < n && r == ZipRow(cols, vals[i])
      {
        if r in prev {
          if r !in db.Rows(table) {
            var i :| 0 <= i < |init| && r == ZipRow(cols, init[i]);
            assert init[i] == vals[i];
          }
        }
      }
    }
  }

  /** INSERT OR IGNORE on key column `c`: some row then holds the new key, no row is lost, and only `row` may be new. */
  lemma RegisterStep(prev: seq<Row>, row: Row, c: string)
    requires Get(row, c) != Null
    ensures var after := InsertOrIgnore(prev, row, Some(c));
            (exists r :: r in after && Get(r, c) == Get(row, c))
            && (forall r :: r in prev ==> r in after)
            && (forall r :: r in after ==> r in prev || r == row)
  {
    var after := InsertOrIgnore(prev, row, Some(c));
    if Collides(prev, row, Some(c)) {
      var j :| 0 <= j < |prev| && Get(prev[j], c) == Get(row, c);
      assert prev[j] in after;
    } else {
      assert after[|prev|] == row;
    }
  }

  /** DELETE FROM `table` with the rendered filter (DeleteEntities). */
  method DeleteEntities(st: Store, table: Table, f: Filters) returns (err: Option<ApiError>)
    requires AllIdents(Keys(f.eq)) && AllIdents(Keys(f.like))
    modifies st
    ensures var s := DeleteFrom(table, Keys(f.eq), Keys(f.like));
            err.None? <==> !st.fails(Preparing(s)) && Accepts(st.fails, s, ParamValues(f.eq, f.like, f.limit, f.offset))
    ensures err.None? ==> st.Content() == Run(old(st.Content()), DeleteFrom(table, Keys(f.eq), Keys(f.like)),
                                              ParamValues(f.eq, f.like, f.limit, f.offset))
    ensures err.Some? ==> err.value == ENGINE_FAILURE && st.Content() == old(st.Content())
  {
    var where := f.RenderTemplate();
    var template := DeleteText(TableName(table), where);
    var s := DeleteFrom(table, Keys(f.eq), Keys(f.like));
    var prepared := st.Prepare(template, s);
    if !prepared {
      return Some(ENGINE_FAILURE);
    }
    var args := f.RenderValues();
    var ok := st.Exec(template, s, args);
    err := if ok then None else Some(ENGINE_FAILURE);
  }

  /** Every row decoded, or None when some row does not decode. */
  function ScanAll<E>(rows: seq<seq<Value>>, scan: seq<Value> -> Option<E>): (r: Option<seq<E>>)
    ensures r.Some? <==> forall i :: 0 <= i < |rows| ==> scan(rows[i]).Some?
    ensures r.Some? ==> |r.value| == |rows| && forall i :: 0 <= i < |rows| ==> scan(rows[i]) == Some(r.value[i])
  {
    if forall i :: 0 <= i < |rows| ==> scan(rows[i]).Some? then Some(seq(|rows|, i requires 0 <= i < |rows| => scan(rows[i]).value))
    else None
  }

  /**
   * The scan loop of every query: each result row is decoded into an entity;
   * the first row that does not decode makes the whole read a 500 error.
   */
  method ScanRows<E>(rows: seq<seq<Value>>, scan: seq<Value> -> Option<E>) returns (ents: seq<E>, err: Option<ApiError>)
    ensures err.None? <==> forall i :: 0 <= i < |rows| ==> scan(rows[i]).Some?
    ensures err.None? ==> |ents| == |rows| && forall i :: 0 <= i < |rows| ==> scan(rows[i]) == Some(ents[i])
    ensures err.None? <==> ScanAll(rows, scan).Some?
    ensures err.None? ==> ents == ScanAll(rows, scan).value
    ensures err.Some? ==> err.value == ENGINE_FAILURE && ents == []
  {
    ents := [];
    var i := 0;
    while i < |rows|
      invariant 0 <= i <= |rows| && |ents| == i
      invariant forall k :: 0 <= k < i ==> scan(rows[k]) == Some(ents[k])
    {
      var e := scan(rows[i]);
      if e.None? {
        return [], Some(ENGINE_FAILURE);
      }
      ents := ents + [e.value];
      i := i + 1;
    }
    err := None;
  }

  // ---------------------------------------------------------------------
  // What the statements do to the tables

  /** A DELETE whose filter carries a LIMIT binds two values too many, so the engine rejects it. */
  lemma DeleteRejectsPaging(fails: Op -> bool, table: Table, eq: seq<KeyValue>, like: seq<KeyValue>, limit: int, offset: int)
    ensures Accepts(fails, DeleteFrom(table, Keys(eq), Keys(like)), ParamValues(eq, like, limit, offset))
            <==> limit <= 0 && !fails(Executing(DeleteFrom(table, Keys(eq), Keys(like)), ParamValues(eq, like, limit, offset)))
  {
  }

  /**
   * DELETE with equality filters only removes exactly the rows matching every
   * filter (a conjunction), keeps the others in order, and no other table changes.
   */
  lemma DeleteEffect(db: Db, table: Table, eq: seq<KeyValue>)
    ensures var after := Run(db, DeleteFrom(table, Keys(eq), []), ValuesOf(eq));
            (forall r :: r in after.Rows(table) <==>
                           r in db.Rows(table) && !(forall k :: 0 <= k < |eq| ==> EqHolds(r, eq[k].key, eq[k].value)))
            && (forall u :: u != table ==> after.Rows(u) == db.Rows(u))
  {
    var conds := Bind(Keys(eq), [], ValuesOf(eq));
    forall r
      ensures AllHold(r, conds) <==> forall k :: 0 <= k < |eq| ==> EqHolds(r, eq[k].key, eq[k].value)
    {
      if AllHold(r, conds) {
        forall k | 0 <= k < |eq| ensures EqHolds(r, eq[k].key, eq[k].value) {
          assert CondHolds(r, conds[k]);
        }
      }
    }
  }

  /** With no filter at all, DELETE empties the table. */
  lemma DeleteAll(db: Db, table: Table)
    ensures Run(db, DeleteFrom(table, [], []), []).Rows(table) == []
  {
    var rows := Run(db, DeleteFrom(table, [], []), []).Rows(table);
    if |rows| > 0 {
      assert rows[0] in rows;
      assert AllHold(rows[0], Bind([], [], []));
    }
  }

  /** A cell of a row after an update: the listed columns take the new values, every other column keeps its own. */
  lemma {:induction false} UpdatedCell(r: Row, cols: seq<string>, vals: seq<Value>, c: string)
    requires |cols| == |vals| && Distinct(cols)
    ensures forall k :: 0 <= k < |cols| && cols[k] == c ==> Get(r + ZipRow(cols, vals), c) == vals[k]
    ensures c !in cols ==> Get(r + ZipRow(cols, vals), c) == Get(r, c)
  {
    var n := |cols|;
    if n > 0 {
      UpdatedCell(r, cols[..n - 1], vals[..n - 1], c);
      assert Distinct(cols[..n - 1]);
      forall k | 0 <= k < n && cols[k] == c
        ensures Get(r + ZipRow(cols, vals), c) == vals[k]
      {
        if k < n - 1 {
          assert cols[..n - 1][k] == c;
        }
      }
      if c !in cols {
        assert c !in cols[..n - 1];
      }
    }
  }

  /**
   * UpdateTable's statement: a row whose where-columns all equal the where
   * values gets every update column set and keeps every other column; any
   * other row, and every other table, is left as it was.
   */
  lemma UpdateEffect(db: Db, table: Table, update: seq<KeyValue>, where: seq<KeyValue>, i: int, c: string)
    requires Distinct(Keys(update)) && 0 <= i < |db.Rows(table)|
    ensures var after := Run(db, UpdateSet(table, Keys(update), Keys(where)), ValuesOf(update) + ValuesOf(where));
            var r := db.Rows(table)[i];
            |after.Rows(table)| == |db.Rows(table)|
            && (forall u :: u != table ==> after.Rows(u) == db.Rows(u))
            && ((forall k :: 0 <= k < |where| ==> EqHolds(r, where[k].key, where[k].value)) ==>
                  (forall k :: 0 <= k < |update| && update[k].key == c ==> Get(after.Rows(table)[i], c) == update[k].value)
                  && (c !in Keys(update) ==> Get(after.Rows(table)[i], c) == Get(r, c)))
            && (!(forall k :: 0 <= k < |where| ==> EqHolds(r, where[k].key, where[k].value)) ==> after.Rows(table)[i] == r)
  {
    var args := ValuesOf(update) + ValuesOf(where);
    var n := |update|;
    assert args[..n] == ValuesOf(update);
    assert args[n..] == ValuesOf(where);
    var r := db.Rows(table)[i];
    WhereBound(r, where);
    UpdatedCell(r, Keys(update), ValuesOf(update), c);
  }

  /** A row passes the bound equality filters exactly when it holds every one of them. */
  lemma WhereBound(r: Row, where: seq<KeyValue>)
    ensures AllHold(r, Bind(Keys(where), [], ValuesOf(where)))
            <==> forall k :: 0 <= k < |where| ==> EqHolds(r, where[k].key, where[k].value)
  {
    var conds := Bind(Keys(where), [], ValuesOf(where));
    if AllHold(r, conds) {
      forall k | 0 <= k < |where| ensures EqHolds(r, where[k].key, where[k].value) {
        assert CondHolds(r, conds[k]);
      }
    }
  }

  /** Registering a row whose primary key is already stored changes nothing: INSERT OR IGNORE is idempotent. */
  lemma InsertIdempotent(db: Db, table: Table, cols: seq<string>, args: seq<Value>)
    requires |args| == |cols| && PrimaryKey(table).Some? && Get(ZipRow(cols, args), PrimaryKey(table).value) != Null
    ensures var once := Run(db, InsertInto(table, cols), args);
            Run(once, InsertInto(table, cols), args) == once
  {
    var row := ZipRow(cols, args);
    var pk := PrimaryKey(table);
    var rows := db.Rows(table);
    var once := Run(db, InsertInto(table, cols), args);
    if !Collides(rows, row, pk) {
      var after := rows + [row];
      assert once.Rows(table) == after;
      assert Get(after[|rows|], pk.value) == Get(row, pk.value);
      assert Collides(after, row, pk);
    }
    assert Collides(once.Rows(table), row, pk);
  }
}
