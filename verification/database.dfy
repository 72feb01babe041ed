/**
 * The SQLite database behind a transaction, as the crud layer uses it: five
 * tables of rows, prepared statements described by the shape their SQL text
 * has, and an oracle saying which operations the engine rejects.
 */
module Database {
  import opened Wrappers
  import opened Text
  import opened Tables
  import opened SqlValues
  import opened RowOrder
  import opened Templates

  /** The rows of every table, in insertion order. */
  datatype Db = Db(dispatches: seq<Row>, electrons: seq<Row>, edges: seq<Row>, assets: seq<Row>, links: seq<Row>)
  {
    function Rows(t: Table): seq<Row>
    {
      match t
      case Dispatches => dispatches
      case Electrons => electrons
      case Edges => edges
      case Assets => assets
      case AssetLinks => links
    }

    function WithRows(t: Table, rows: seq<Row>): (db: Db)
      ensures db.Rows(t) == rows
      ensures forall u :: u != t ==> db.Rows(u) == Rows(u)
    {
      match t
      case Dispatches => this.(dispatches := rows)
      case Electrons => this.(electrons := rows)
      case Edges => this.(edges := rows)
      case Assets => this.(assets := rows)
      case AssetLinks => this.(links := rows)
    }
  }

  const EMPTY: Db := Db([], [], [], [], [])

  // ---------------------------------------------------------------------
  // WHERE clauses

  /** One condition of a WHERE clause with the value bound to its marker. */
  datatype Cond = Equals(col: string, v: Value) | Matches(col: string, pattern: Value)

  predicate CondHolds(r: Row, c: Cond)
  {
    match c
    case Equals(col, v) => EqHolds(r, col, v)
    case Matches(col, p) => LikeHolds(r, col, p)
  }

  /** The conjunction of the conditions; no condition at all selects every row. */
  predicate AllHold(r: Row, conds: seq<Cond>)
  {
    forall i :: 0 <= i < |conds| ==> CondHolds(r, conds[i])
  }

  /** Binds the arguments, in marker order, to `c = ?` for each equality column and then `c LIKE ?` for each LIKE column. */
  function Bind(eqCols: seq<string>, likeCols: seq<string>, args: seq<Value>): (conds: seq<Cond>)
    requires |args| == |eqCols| + |likeCols|
    ensures |conds| == |args|
    ensures forall i :: 0 <= i < |eqCols| ==> conds[i] == Equals(eqCols[i], args[i])
    ensures forall i :: 0 <= i < |likeCols| ==> conds[|eqCols| + i] == Matches(likeCols[i], args[|eqCols| + i])
  {
    seq(|eqCols|, i requires 0 <= i < |eqCols| => Equals(eqCols[i], args[i]))
    + seq(|likeCols|, i requires 0 <= i < |likeCols| => Matches(likeCols[i], args[|eqCols| + i]))
  }

  /** The rows satisfying every condition, in table order. */
  function Where(rows: seq<Row>, conds: seq<Cond>): (kept: seq<Row>)
    ensures |kept| <= |rows|
    ensures forall r :: r in kept <==> r in rows && AllHold(r, conds)
  {
    if |rows| == 0 then []
    else
      var init := rows[..|rows| - 1];
      assert rows == init + [rows[|rows| - 1]];
      Where(init, conds) + (if AllHold(rows[|rows| - 1], conds) then [rows[|rows| - 1]] else [])
  }

  /** When no row passes, filtering keeps nothing. */
  lemma {:induction false} WhereKeepsNone(rows: seq<Row>, conds: seq<Cond>)
    requires forall r :: r in rows ==> !AllHold(r, conds)
    ensures Where(rows, conds) == []
    decreases |rows|
  {
    if |rows| > 0 {
      WhereKeepsNone(rows[..|rows| - 1], conds);
      assert rows[|rows| - 1] in rows;
    }
  }

  /**
   * When no row of `others` passes and every row of `own` does, filtering
   * the table `others + own` keeps exactly `own`, in order.
   */
  lemma {:induction false} WhereKeepsOwn(others: seq<Row>, own: seq<Row>, conds: seq<Cond>)
    requires forall r :: r in others ==> !AllHold(r, conds)
    requires forall i :: 0 <= i < |own| ==> AllHold(own[i], conds)
    ensures Where(others + own, conds) == own
    decreases |own|
  {
    if |own| == 0 {
      assert others + own == others;
      WhereKeepsNone(others, conds);
    } else {
      var init := own[..|own| - 1];
      assert (others + own)[..|others + own| - 1] == others + init;
      WhereKeepsOwn(others, init, conds);
      assert own == init + [own[|own| - 1]];
    }
  }

  /** The rows failing some condition, in table order: what a DELETE leaves. */
  function WhereNot(rows: seq<Row>, conds: seq<Cond>): (kept: seq<Row>)
    ensures |kept| <= |rows|
    ensures forall r :: r in kept <==> r in rows && !AllHold(r, conds)
  {
    if |rows| == 0 then []
    else
      var init := rows[..|rows| - 1];
      assert rows == init + [rows[|rows| - 1]];
      WhereNot(init, conds) + (if AllHold(rows[|rows| - 1], conds) then [] else [rows[|rows| - 1]])
  }

  /** Every row satisfying the conditions gets the new column values; the others stay as they are. */
  function UpdateWhere(rows: seq<Row>, cols: seq<string>, vals: seq<Value>, conds: seq<Cond>): (updated: seq<Row>)
    requires |cols| == |vals|
    ensures |updated| == |rows|
  {
    seq(|rows|, i requires 0 <= i < |rows| => if AllHold(rows[i], conds) then rows[i] + ZipRow(cols, vals) else rows[i])
  }

  /** Whether a new row collides with a stored one on the table's primary key; NULL keys never collide. */
  predicate Collides(rows: seq<Row>, row: Row, pk: Option<string>)
  {
    pk.Some? && Get(row, pk.value) != Null && exists i :: 0 <= i < |rows| && Get(rows[i], pk.value) == Get(row, pk.value)
  }

  /** INSERT OR IGNORE: a colliding row is dropped without error, any other row is appended. */
  function InsertOrIgnore(rows: seq<Row>, row: Row, pk: Option<string>): seq<Row>
  {
    if Collides(rows, row, pk) then rows else rows + [row]
  }

  // ---------------------------------------------------------------------
  // Statements

  /** A prepared data-changing statement, by the shape of its SQL text. */
  datatype Statement =
    | InsertInto(table: Table, cols: seq<string>)
    | UpdateSet(table: Table, setCols: seq<string>, whereCols: seq<string>)
    | DeleteFrom(table: Table, eqCols: seq<string>, likeCols: seq<string>)

  /** The number of values the statement binds. */
  function Arity(s: Statement): nat
  {
    match s
    case InsertInto(_, cols) => |cols|
    case UpdateSet(_, setCols, whereCols) => |setCols| + |whereCols|
    case DeleteFrom(_, eqCols, likeCols) => |eqCols| + |likeCols|
  }

  /** The SQL text the crud layer generates for the statement. */
  function StatementText(s: Statement): string
  {
    match s
    case InsertInto(t, cols) => InsertText(TableName(t), cols)
    case UpdateSet(t, setCols, whereCols) => UpdateText(TableName(t), setCols, whereCols)
    case DeleteFrom(t, eqCols, likeCols) => DeleteText(TableName(t), WhereText(eqCols, likeCols))
  }

  /** Column names are plain identifiers. */
  predicate Writable(s: Statement)
  {
    match s
    case InsertInto(_, cols) => AllIdents(cols)
    case UpdateSet(_, setCols, whereCols) => AllIdents(setCols) && AllIdents(whereCols)
    case DeleteFrom(_, eqCols, likeCols) => AllIdents(eqCols) && AllIdents(likeCols)
  }

  /** The statement's text has one marker per bound value. */
  lemma StatementMarkers(s: Statement)
    requires Writable(s)
    ensures Placeholders(StatementText(s)) == Arity(s)
  {
    TableNameIdent(s.table);
    match s
    case InsertInto(t, cols) => InsertPlaceholders(TableName(t), cols);
    case UpdateSet(t, setCols, whereCols) => UpdatePlaceholders(TableName(t), setCols, whereCols);
    case DeleteFrom(t, eqCols, likeCols) =>
      DeletePlaceholders(TableName(t), WhereText(eqCols, likeCols));
      WherePlaceholders(eqCols, likeCols);
  }

  /** The effect of one successful execution. */
  function Run(db: Db, s: Statement, args: seq<Value>): Db
    requires |args| == Arity(s)
  {
    match s
    case InsertInto(t, cols) => db.WithRows(t, InsertOrIgnore(db.Rows(t), ZipRow(cols, args), PrimaryKey(t)))
    case UpdateSet(t, setCols, whereCols) =>
      db.WithRows(t, UpdateWhere(db.Rows(t), setCols, args[..|setCols|], Bind(whereCols, [], args[|setCols|..])))
    case DeleteFrom(t, eqCols, likeCols) => db.WithRows(t, WhereNot(db.Rows(t), Bind(eqCols, likeCols, args)))
  }

  // ---------------------------------------------------------------------
  // Queries

  /** A SELECT, by the shape of its SQL text. */
  datatype Query =
    | SelectFrom(table: Table, cols: seq<string>, eqCols: seq<string>, likeCols: seq<string>, sortKey: string,
                 ascending: bool, withLimits: bool)
    | SelectJoin(table: Table, cols: seq<string>, joins: seq<JoinCondition>, eqCols: seq<string>,
                 likeCols: seq<string>, sortKey: string, ascending: bool, limit: int, offset: int)

  /** Bound values: the filter values, then LIMIT and OFFSET for a single-table query with limits. */
  function QueryArity(q: Query): nat
  {
    |q.eqCols| + |q.likeCols| + (if q.SelectFrom? && q.withLimits then 2 else 0)
  }

  function QueryText(q: Query): string
  {
    match q
    case SelectFrom(t, cols, eqCols, likeCols, sortKey, ascending, withLimits) =>
      SelectText(TableName(t), cols, WhereText(eqCols, likeCols), sortKey, ascending, withLimits)
    case SelectJoin(t, cols, joins, eqCols, likeCols, sortKey, ascending, limit, offset) =>
      SelectJoinText(TableName(t), cols, joins, WhereText(eqCols, likeCols), sortKey, ascending, limit, offset)
  }

  predicate Readable(q: Query)
  {
    AllIdents(q.cols) && AllIdents(q.eqCols) && AllIdents(q.likeCols) && Ident(q.sortKey)
    && (q.SelectJoin? ==> forall i :: 0 <= i < |q.joins| ==> Ident(q.joins[i].leftCol) && Ident(q.joins[i].rightCol))
  }

  lemma QueryMarkers(q: Query)
    requires Readable(q)
    ensures Placeholders(QueryText(q)) == QueryArity(q)
  {
    TableNameIdent(q.table);
    WherePlaceholders(q.eqCols, q.likeCols);
    match q
    case SelectFrom(t, cols, eqCols, likeCols, sortKey, ascending, withLimits) =>
      SelectPlaceholders(TableName(t), cols, WhereText(eqCols, likeCols), sortKey, ascending, withLimits);
    case SelectJoin(t, cols, joins, eqCols, likeCols, sortKey, ascending, limit, offset) =>
      SelectJoinPlaceholders(TableName(t), cols, joins, WhereText(eqCols, likeCols), sortKey, ascending, limit, offset);
  }

  /** LIMIT and OFFSET, when bound, are integers. */
  predicate LimitsBound(q: Query, args: seq<Value>)
    requires |args| == QueryArity(q)
  {
    q.SelectFrom? && q.withLimits ==> args[|args| - 2].Int? && args[|args| - 1].Int?
  }

  /** The column `table.col` of a joined row. */
  function Qualified(table: Table, col: string): string
  {
    TableName(table) + "." + col
  }

  lemma QualifiedInjective(table: Table, a: string, b: string)
    requires Qualified(table, a) == Qualified(table, b)
    ensures a == b
  {
    var n := |TableName(table)| + 1;
    assert a == Qualified(table, a)[n..];
    assert b == Qualified(table, b)[n..];
  }

  lemma QualifiedIdent(table: Table, col: string)
    requires Ident(col)
    ensures Ident(Qualified(table, col))
  {
    TableNameIdent(table);
    var t := TableName(table);
    var q := Qualified(table, col);
    forall i | 0 <= i < |q|
      ensures q[i] != '?'
    {
      if i < |t| {
        assert q[i] == t[i];
      } else if i > |t| {
        assert q[i] == col[i - |t| - 1];
      }
    }
  }

  /** A row of `table` with every schema column renamed to its qualified name. */
  function QualifyCols(r: Row, table: Table, cols: seq<string>): (q: Row)
    ensures forall i :: 0 <= i < |cols| ==> Get(q, Qualified(table, cols[i])) == Get(r, cols[i])
    ensures forall k :: k in q ==> StartsWith(TableName(table) + ".", k)
  {
    if |cols| == 0 then map[]
    else
      var n := |cols|;
      var init := QualifyCols(r, table, cols[..n - 1]);
      var q := init[Qualified(table, cols[n - 1]) := Get(r, cols[n - 1])];
      assert forall i :: 0 <= i < n - 1 ==> Get(q, Qualified(table, cols[i])) == Get(r, cols[i]) by {
        forall i | 0 <= i < n - 1
          ensures Get(q, Qualified(table, cols[i])) == Get(r, cols[i])
        {
          assert cols[..n - 1][i] == cols[i];
          if Qualified(table, cols[i]) == Qualified(table, cols[n - 1]) {
            QualifiedInjective(table, cols[i], cols[n - 1]);
          }
        }
      }
      q
  }

  function Qualify(r: Row, table: Table): Row
  {
    QualifyCols(r, table, Schema(table))
  }

  function QualifyAll(rows: seq<Row>, table: Table): (qs: seq<Row>)
    ensures |qs| == |rows| && forall i :: 0 <= i < |rows| ==> qs[i] == Qualify(rows[i], table)
  {
    seq(|rows|, i requires 0 <= i < |rows| => Qualify(rows[i], table))
  }

  /** `JOIN right ON left.lc = right.rc`: NULL never joins. */
  predicate JoinMatch(a: Row, r: Row, j: JoinCondition)
  {
    Get(a, Qualified(j.leftTable, j.leftCol)) != Null && Get(a, Qualified(j.leftTable, j.leftCol)) == Get(r, j.rightCol)
  }

  /** The joined rows one left row produces, in right-table order. */
  function JoinOne(a: Row, rights: seq<Row>, j: JoinCondition): seq<Row>
  {
    if |rights| == 0 then []
    else
      var r := rights[|rights| - 1];
      JoinOne(a, rights[..|rights| - 1], j) + (if JoinMatch(a, r, j) then [a + Qualify(r, j.rightTable)] else [])
  }

  /** A nested-loop join: left rows in order, each followed by its matches. */
  function JoinStep(acc: seq<Row>, rights: seq<Row>, j: JoinCondition): seq<Row>
  {
    if |acc| == 0 then [] else JoinStep(acc[..|acc| - 1], rights, j) + JoinOne(acc[|acc| - 1], rights, j)
  }

  function JoinAll(acc: seq<Row>, db: Db, joins: seq<JoinCondition>): seq<Row>
  {
    if |joins| == 0 then acc
    else JoinStep(JoinAll(acc, db, joins[..|joins| - 1]), db.Rows(joins[|joins| - 1].rightTable), joins[|joins| - 1])
  }

  /** The rows one left row produces are its matches, each extended with the right row's qualified columns. */
  lemma {:induction false} JoinOneRows(a: Row, rights: seq<Row>, j: JoinCondition)
    ensures forall r :: r in JoinOne(a, rights, j) <==>
                        exists b :: b in rights && JoinMatch(a, b, j) && r == a + Qualify(b, j.rightTable)
  {
    if |rights| > 0 {
      var init := rights[..|rights| - 1];
      JoinOneRows(a, init, j);
      assert rights == init + [rights[|rights| - 1]];
    }
  }

  /** A join step yields exactly the extended pairs of a left row and a right row that match. */
  lemma {:induction false} JoinStepRows(acc: seq<Row>, rights: seq<Row>, j: JoinCondition)
    ensures forall r :: r in JoinStep(acc, rights, j) <==>
                        exists a, b :: a in acc && b in rights && JoinMatch(a, b, j) && r == a + Qualify(b, j.rightTable)
  {
    if |acc| > 0 {
      var init := acc[..|acc| - 1];
      var last := acc[|acc| - 1];
      JoinStepRows(init, rights, j);
      JoinOneRows(last, rights, j);
      assert acc == init + [last];
      forall r | r in JoinStep(acc, rights, j)
        ensures exists a, b :: a in acc && b in rights && JoinMatch(a, b, j) && r == a + Qualify(b, j.rightTable)
      {
        if r in JoinStep(init, rights, j) {
          var a, b :| a in init && b in rights && JoinMatch(a, b, j) && r == a + Qualify(b, j.rightTable);
          assert a in acc;
        } else {
          assert r in JoinOne(last, rights, j);
          var b :| b in rights && JoinMatch(last, b, j) && r == last + Qualify(b, j.rightTable);
          assert last in acc;
        }
      }
      forall r | exists a, b :: a in acc && b in rights && JoinMatch(a, b, j) && r == a + Qualify(b, j.rightTable)
        ensures r in JoinStep(acc, rights, j)
      {
        var a, b :| a in acc && b in rights && JoinMatch(a, b, j) && r == a + Qualify(b, j.rightTable);
        if a in init {
          assert r in JoinStep(init, rights, j);
        } else {
          assert a == last;
          assert r in JoinOne(last, rights, j);
        }
      }
    }
  }

  /** The rows a query reads from: the table itself, or its qualified rows joined with the other tables. */
  function Source(db: Db, q: Query): seq<Row>
  {
    if q.SelectFrom? || |q.joins| == 0 then db.Rows(q.table)
    else JoinAll(QualifyAll(db.Rows(q.table), q.table), db, q.joins)
  }

  /** The rows of the answer before projection: filtered, ordered and paged. */
  function Selected(db: Db, q: Query, args: seq<Value>): seq<Row>
    requires |args| == QueryArity(q) && LimitsBound(q, args)
  {
    var ordered := SortBy(Where(Source(db, q), Conditions(q, args)), q.sortKey, q.ascending);
    var n := |q.eqCols| + |q.likeCols|;
    if q.SelectJoin? then Page(ordered, q.limit, q.offset)
    else if q.withLimits then Page(ordered, args[n].i, args[n + 1].i)
    else ordered
  }

  function ProjectAll(rows: seq<Row>, cols: seq<string>): (out: seq<seq<Value>>)
    ensures |out| == |rows| && forall i :: 0 <= i < |rows| ==> out[i] == Project(rows[i], cols)
  {
    seq(|rows|, i requires 0 <= i < |rows| => Project(rows[i], cols))
  }

  /** The answer of a query: the selected columns of every selected row. */
  function Select(db: Db, q: Query, args: seq<Value>): seq<seq<Value>>
    requires |args| == QueryArity(q) && LimitsBound(q, args)
  {
    ProjectAll(Selected(db, q, args), q.cols)
  }

  /** Filtering then sorting keeps exactly the rows that pass, in sort-key order. */
  lemma FilterSort(src: seq<Row>, conds: seq<Cond>, key: string, ascending: bool)
    ensures forall r :: r in SortBy(Where(src, conds), key, ascending) <==> r in src && AllHold(r, conds)
    ensures Sorted(SortBy(Where(src, conds), key, ascending), key, ascending)
  {
    var kept := Where(src, conds);
    var ordered := SortBy(kept, key, ascending);
    SortByPermutes(kept, key, ascending);
    SortBySorted(kept, key, ascending);
    forall r ensures r in ordered <==> r in kept {
      assert r in ordered <==> r in multiset(ordered);
      assert r in kept <==> r in multiset(kept);
    }
  }

  /** A page of the filtered, sorted rows holds only rows that pass, in sort-key order. */
  lemma FilterSortPage(src: seq<Row>, conds: seq<Cond>, key: string, ascending: bool, limit: int, offset: int)
    ensures forall r :: r in Page(SortBy(Where(src, conds), key, ascending), limit, offset) ==> r in src && AllHold(r, conds)
    ensures Sorted(Page(SortBy(Where(src, conds), key, ascending), limit, offset), key, ascending)
  {
    FilterSort(src, conds, key, ascending);
    PageKeepsSorted(SortBy(Where(src, conds), key, ascending), limit, offset, key, ascending);
  }

  /** The filter conditions of a query with its arguments bound. */
  function Conditions(q: Query, args: seq<Value>): seq<Cond>
    requires |args| == QueryArity(q)
  {
    Bind(q.eqCols, q.likeCols, args[..|q.eqCols| + |q.likeCols|])
  }

  /** A join query selects rows of the join that pass every filter, in sort-key order, at most LIMIT of them. */
  lemma SelectedJoinRows(db: Db, q: Query, args: seq<Value>)
    requires q.SelectJoin? && |args| == QueryArity(q)
    ensures forall r :: r in Selected(db, q, args) ==> r in Source(db, q) && AllHold(r, Conditions(q, args))
    ensures Sorted(Selected(db, q, args), q.sortKey, q.ascending)
    ensures q.limit >= 0 ==> |Selected(db, q, args)| <= q.limit
  {
    FilterSortPage(Source(db, q), Conditions(q, args), q.sortKey, q.ascending, q.limit, q.offset);
  }

  /** A single-table query with limits selects a page of the rows that pass, in sort-key order. */
  lemma SelectedPageRows(db: Db, q: Query, args: seq<Value>)
    requires q.SelectFrom? && q.withLimits && |args| == QueryArity(q) && LimitsBound(q, args)
    ensures forall r :: r in Selected(db, q, args) ==> r in db.Rows(q.table) && AllHold(r, Conditions(q, args))
    ensures Sorted(Selected(db, q, args), q.sortKey, q.ascending)
    ensures args[|args| - 2].i >= 0 ==> |Selected(db, q, args)| <= args[|args| - 2].i
  {
    var n := |args| - 2;
    FilterSortPage(db.Rows(q.table), Conditions(q, args), q.sortKey, q.ascending, args[n].i, args[n + 1].i);
  }

  /** A single-table query without limits selects as many rows as pass its filter. */
  lemma SelectedCount(db: Db, q: Query, args: seq<Value>)
    requires q.SelectFrom? && !q.withLimits && |args| == QueryArity(q)
    ensures |Selected(db, q, args)| == |Where(db.Rows(q.table), Conditions(q, args))|
  {
    SortByLength(Where(db.Rows(q.table), Conditions(q, args)), q.sortKey, q.ascending);
  }

  /** A single-table query without limits selects exactly the rows that pass, in sort-key order. */
  lemma SelectedAllRows(db: Db, q: Query, args: seq<Value>)
    requires q.SelectFrom? && !q.withLimits && |args| == QueryArity(q)
    ensures forall r :: r in Selected(db, q, args) <==> r in db.Rows(q.table) && AllHold(r, Conditions(q, args))
    ensures Sorted(Selected(db, q, args), q.sortKey, q.ascending)
  {
    FilterSort(db.Rows(q.table), Conditions(q, args), q.sortKey, q.ascending);
  }

  // ---------------------------------------------------------------------
  // The engine

  /** An engine operation that may fail. */
  datatype Op = Preparing(s: Statement) | Executing(s: Statement, args: seq<Value>) | Reading(q: Query, args: seq<Value>)

  /** Whether executing with these arguments succeeds: the argument count is right and the engine accepts it. */
  predicate Accepts(fails: Op -> bool, s: Statement, args: seq<Value>)
  {
    |args| == Arity(s) && !fails(Executing(s, args))
  }

  /** The tables of one open transaction. */
  class Store {
    var dispatches: seq<Row>
    var electrons: seq<Row>
    var edges: seq<Row>
    var assets: seq<Row>
    var links: seq<Row>
    /** The operations the engine rejects (I/O errors, constraint failures, ...). */
    const fails: Op -> bool

    constructor (fails: Op -> bool)
      ensures Content() == EMPTY && this.fails == fails
    {
      dispatches, electrons, edges, assets, links := [], [], [], [], [];
      this.fails := fails;
    }

    function Content(): Db
      reads this
    {
      Db(dispatches, electrons, edges, assets, links)
    }

    /** Prepares the statement the template spells. */
    method Prepare(template: string, s: Statement) returns (ok: bool)
      requires template == StatementText(s)
      ensures ok == !fails(Preparing(s))
    {
      ok := !fails(Preparing(s));
    }

    /** Executes a prepared statement: the argument count must match the template's markers. */
    method Exec(template: string, s: Statement, args: seq<Value>) returns (ok: bool)
      requires template == StatementText(s) && Writable(s)
      modifies this
      ensures ok == Accepts(fails, s, args)
      ensures ok ==> Content() == Run(old(Content()), s, args)
      ensures !ok ==> Content() == old(Content())
    {
      StatementMarkers(s);
      if |args| != Placeholders(template) || fails(Executing(s, args)) {
        return false;
      }
      var db := Run(Content(), s, args);
      dispatches, electrons, edges, assets, links := db.dispatches, db.electrons, db.edges, db.assets, db.links;
      ok := true;
    }

    /** Prepares and runs a query; None is an engine error or a wrong argument count. */
    function Query(template: string, q: Query, args: seq<Value>): (answer: Option<seq<seq<Value>>>)
      reads this
      requires template == QueryText(q) && Readable(q)
      ensures answer.Some? <==> |args| == QueryArity(q) && LimitsBound(q, args) && !fails(Reading(q, args))
      ensures answer.Some? ==> answer.value == Select(Content(), q, args)
    {
      QueryMarkers(q);
      if |args| != Placeholders(template) || !LimitsBound(q, args) || fails(Reading(q, args)) then None
      else Some(Select(Content(), q, args))
    }
  }
}
