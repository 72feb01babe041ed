/**
 * SQL text builders and query filters.
 *
 * Each builder is a loop over a column list that writes "<item><sep>" for all
 * but the last item and then the last item alone; each is proved equal to a
 * declarative text function built with Join. The lemmas at the end count the
 * `?` markers of every text, which is what the bound argument lists must match.
 */
module Templates {
  import opened Text
  import opened Tables
  import opened SqlValues

  /** A column name paired with the value it is compared with or set to. */
  datatype KeyValue = KeyValue(key: string, value: Value)

  /** `LeftTable.LeftCol = RightTable.RightCol`, joining RightTable into a query. */
  datatype JoinCondition = JoinCondition(leftTable: Table, rightTable: Table, leftCol: string, rightCol: string)

  function Keys(kvs: seq<KeyValue>): (ks: seq<string>)
    ensures |ks| == |kvs| && forall i :: 0 <= i < |kvs| ==> ks[i] == kvs[i].key
  {
    seq(|kvs|, i requires 0 <= i < |kvs| => kvs[i].key)
  }

  function ValuesOf(kvs: seq<KeyValue>): (vs: seq<Value>)
    ensures |vs| == |kvs| && forall i :: 0 <= i < |kvs| ==> vs[i] == kvs[i].value
  {
    seq(|kvs|, i requires 0 <= i < |kvs| => kvs[i].value)
  }

  /** "k = ?" for every key, in order. */
  function EqConds(keys: seq<string>): (cs: seq<string>)
    ensures |cs| == |keys| && forall i :: 0 <= i < |keys| ==> cs[i] == keys[i] + " = ?"
  {
    Conds(keys, " = ?")
  }

  /** "k LIKE ?" for every key, in order. */
  function LikeConds(keys: seq<string>): (cs: seq<string>)
    ensures |cs| == |keys| && forall i :: 0 <= i < |keys| ==> cs[i] == keys[i] + " LIKE ?"
  {
    Conds(keys, " LIKE ?")
  }

  /** The WHERE clause: empty without conditions, otherwise the equality conditions then the LIKE conditions, joined by AND. */
  function WhereText(eqKeys: seq<string>, likeKeys: seq<string>): string
  {
    if |eqKeys| + |likeKeys| == 0 then "" else "WHERE " + Join(EqConds(eqKeys) + LikeConds(likeKeys), " AND ")
  }

  /** The parameter values of a filter: equality values, LIKE values, then LIMIT and OFFSET when a limit is set. */
  function ParamValues(eq: seq<KeyValue>, like: seq<KeyValue>, limit: int, offset: int): seq<Value>
  {
    ValuesOf(eq) + ValuesOf(like) + (if limit > 0 then [Int(limit), Int(offset)] else [])
  }

  /** Two equality filters and nothing else bind their two values, in order. */
  lemma TwoEqParams(a: string, va: Value, b: string, vb: Value)
    ensures var eq := [KeyValue(a, va), KeyValue(b, vb)];
            ParamValues(eq, [], 0, 0) == [va, vb] && Keys(eq) == [a, b] && Keys([]) == []
  {
    var eq := [KeyValue(a, va), KeyValue(b, vb)];
    assert ValuesOf(eq) == [va, vb];
    assert Keys(eq) == [a, b];
  }

  function SortOrder(ascending: bool): string
  {
    if ascending then "ASC" else "DESC"
  }

  function UpdateText(table: string, updateCols: seq<string>, whereCols: seq<string>): string
  {
    "UPDATE " + table + " SET " + Join(EqConds(updateCols), ", ") + " " + WhereText(whereCols, [])
  }

  function Markers(n: nat): (ms: seq<string>)
    ensures |ms| == n && forall i :: 0 <= i < n ==> ms[i] == "?"
  {
    seq(n, i => "?")
  }

  function InsertText(table: string, cols: seq<string>): string
  {
    "INSERT OR IGNORE INTO " + table + " " + ("(" + Join(cols, ", ") + ")") + " VALUES " + ("(" + Join(Markers(|cols|), ", ") + ")")
  }

  function SelectText(table: string, cols: seq<string>, where: string, sortKey: string, ascending: bool, withLimits: bool): string
  {
    "SELECT " + Join(cols, ", ") + " FROM " + table + " " + where + " ORDER BY " + sortKey + " " + SortOrder(ascending)
    + (if withLimits then " LIMIT ? OFFSET ?" else "")
  }

  function JoinClause(j: JoinCondition): string
  {
    "JOIN " + TableName(j.rightTable) + " ON " + TableName(j.leftTable) + "." + j.leftCol + " = "
    + TableName(j.rightTable) + "." + j.rightCol + " "
  }

  function JoinText(joins: seq<JoinCondition>): string
  {
    if |joins| == 0 then "" else JoinText(joins[..|joins| - 1]) + JoinClause(joins[|joins| - 1])
  }

  function SelectJoinText(table: string, attributes: seq<string>, joins: seq<JoinCondition>, filter: string,
                          sortKey: string, ascending: bool, limit: int, offset: int): string
  {
    "SELECT " + Join(attributes, ", ") + " FROM " + table + " " + JoinText(joins) + " " + filter
    + " ORDER BY " + sortKey + " " + SortOrder(ascending) + " LIMIT " + IntToString(limit)
    + " OFFSET " + IntToString(offset)
  }

  /** The DELETE statement for a table and a rendered filter (generateDeleteTemplate). */
  function DeleteText(table: string, filter: string): string
  {
    "DELETE FROM " + table + " " + filter
  }

  /** The filters of a query: equality and LIKE conditions plus optional paging. */
  class Filters {
    var eq: seq<KeyValue>
    var like: seq<KeyValue>
    var limit: int
    var offset: int

    constructor ()
      ensures eq == [] && like == [] && limit == 0 && offset == 0
    {
      eq := [];
      like := [];
      limit := 0;
      offset := 0;
    }

    method AddLike(key: string, val: string)
      modifies this
      ensures like == old(like) + [KeyValue(key, Str(val))]
      ensures eq == old(eq) && limit == old(limit) && offset == old(offset)
    {
      like := like + [KeyValue(key, Str(val))];
    }

    method AddEq(key: string, val: Value)
      modifies this
      ensures eq == old(eq) + [KeyValue(key, val)]
      ensures like == old(like) && limit == old(limit) && offset == old(offset)
    {
      eq := eq + [KeyValue(key, val)];
    }

    /** The values to bind, in the order of the markers of the rendered template. */
    method RenderValues() returns (vals: seq<Value>)
      ensures vals == ParamValues(eq, like, limit, offset)
    {
      var n := |eq|;
      vals := seq(|eq| + |like|, _ => Null);
      var i := 0;
      while i < |eq|
        invariant 0 <= i <= n && |vals| == |eq| + |like|
        invariant forall k :: 0 <= k < i ==> vals[k] == eq[k].value
      {
        vals := vals[i := eq[i].value];
        i := i + 1;
      }
      var j := 0;
      while j < |like|
        invariant 0 <= j <= |like| && |vals| == |eq| + |like|
        invariant forall k :: 0 <= k < n ==> vals[k] == eq[k].value
        invariant forall k :: 0 <= k < j ==> vals[n + k] == like[k].value
      {
        vals := vals[n + j := like[j].value];
        j := j + 1;
      }
      assert vals == ValuesOf(eq) + ValuesOf(like);
      if limit > 0 {
        vals := vals + [Int(limit)];
        vals := vals + [Int(offset)];
      }
    }

    /** The WHERE clause matching RenderValues. */
    method RenderTemplate() returns (s: string)
      ensures s == WhereText(Keys(eq), Keys(like))
    {
      WhereTextParts(Keys(eq), Keys(like));
      s := "";
      if |eq| > 0 || |like| > 0 {
        s := "WHERE ";
      }
      if |eq| > 0 {
        s := WriteConditions(s, Keys(eq), " = ?");
        if |like| > 0 {
          s := s + " AND ";
        }
      }
      if |like| > 0 {
        s := WriteConditions(s, Keys(like), " LIKE ?");
      }
    }
  }

  /** "k<op>" for every key, as EqConds and LikeConds write them. */
  function Conds(keys: seq<string>, op: string): (cs: seq<string>)
    ensures |cs| == |keys| && forall i :: 0 <= i < |keys| ==> cs[i] == keys[i] + op
  {
    seq(|keys|, i requires 0 <= i < |keys| => keys[i] + op)
  }

  /**
   * Appends "k<op> AND " for every key but the last and then "k<op>" for the
   * last one: the condition loop RenderTemplate runs once for equalities and
   * once for LIKE patterns.
   */
  method WriteConditions(b: string, keys: seq<string>, op: string) returns (s: string)
    requires |keys| > 0
    ensures s == b + Join(Conds(keys, op), " AND ")
  {
    ghost var c := Conds(keys, op);
    s := b;
    var i := 0;
    while i + 1 < |keys|
      invariant 0 <= i < |keys|
      invariant s == b + Terminated(c[..i], " AND ")
    {
      TerminatedSnoc(c, i, " AND ");
      BuilderAssoc(b, Terminated(c[..i], " AND "), keys[i] + op, " AND ");
      s := s + (keys[i] + op + " AND ");
      i := i + 1;
    }
    JoinIsTerminatedPlusLast(c, " AND ");
    assert c[..|c| - 1] == c[..i];
    s := s + (keys[|keys| - 1] + op);
  }

  /** The WHERE clause is "WHERE ", the joined equality conditions, " AND " when both kinds occur, and the joined LIKE conditions. */
  lemma WhereTextParts(eqKeys: seq<string>, likeKeys: seq<string>)
    ensures |eqKeys| > 0 && |likeKeys| > 0 ==>
              WhereText(eqKeys, likeKeys)
              == "WHERE " + Join(EqConds(eqKeys), " AND ") + " AND " + Join(LikeConds(likeKeys), " AND ")
    ensures |eqKeys| > 0 && |likeKeys| == 0 ==>
              WhereText(eqKeys, likeKeys) == "WHERE " + Join(EqConds(eqKeys), " AND ")
    ensures |eqKeys| == 0 && |likeKeys| > 0 ==>
              WhereText(eqKeys, likeKeys) == "WHERE " + Join(LikeConds(likeKeys), " AND ")
    ensures |eqKeys| == 0 && |likeKeys| == 0 ==> WhereText(eqKeys, likeKeys) == ""
  {
    var e := EqConds(eqKeys);
    var l := LikeConds(likeKeys);
    if |eqKeys| > 0 && |likeKeys| > 0 {
      JoinAppend(e, l, " AND ");
      Regroup("WHERE ", Join(e, " AND "), " AND ", Join(l, " AND "));
    } else if |eqKeys| > 0 {
      assert e + l == e;
    } else {
      assert e + l == l;
    }
  }

  /** Joining two non-empty lists is joining each and putting the separator between them. */
  lemma {:induction false} JoinAppend(a: seq<string>, b: seq<string>, sep: string)
    requires |a| > 0 && |b| > 0
    ensures Join(a + b, sep) == Join(a, sep) + sep + Join(b, sep)
  {
    var m := |b|;
    assert (a + b)[..|a + b| - 1] == a + b[..m - 1];
    if m > 1 {
      JoinAppend(a, b[..m - 1], sep);
      assert b[..m - 1][..m - 2] == b[..m - 2];
    } else {
      assert a + b[..m - 1] == a;
    }
  }

  /** Writes "c = ?" per column, comma-separated, then the WHERE clause (generateUpdateSQLTemplate). */
  method GenerateUpdateSqlTemplate(table: string, updateCols: seq<string>, whereCols: seq<string>) returns (s: string)
    requires |updateCols| > 0
    ensures s == UpdateText(table, updateCols, whereCols)
  {
    var e := EqConds(updateCols);
    var setClause := "";
    var i := 0;
    while i + 1 < |updateCols|
      invariant 0 <= i < |updateCols|
      invariant setClause == Terminated(e[..i], ", ")
    {
      TerminatedSnoc(e, i, ", ");
      setClause := setClause + (updateCols[i] + " = ?" + ", ");
      i := i + 1;
    }
    JoinIsTerminatedPlusLast(e, ", ");
    assert e[..|e| - 1] == e[..i];
    setClause := setClause + (updateCols[|updateCols| - 1] + " = ?");
    var whereClause := GenerateWhereString(whereCols);
    s := "UPDATE " + table + " SET " + setClause + " " + whereClause;
  }

  /** Writes the column list and one marker per column (generateInsertTemplate). */
  method GenerateInsertTemplate(table: string, columns: seq<string>) returns (s: string)
    requires |columns| > 0
    ensures s == InsertText(table, columns)
  {
    var ms := Markers(|columns|);
    var colsClause := "(";
    var valsClause := "(";
    var i := 0;
    while i + 1 < |columns|
      invariant 0 <= i < |columns|
      invariant colsClause == "(" + Terminated(columns[..i], ", ")
      invariant valsClause == "(" + Terminated(ms[..i], ", ")
    {
      TerminatedSnoc(columns, i, ", ");
      TerminatedSnoc(ms, i, ", ");
      BuilderAssoc("(", Terminated(columns[..i], ", "), columns[i], ", ");
      BuilderAssoc("(", Terminated(ms[..i], ", "), "?", ", ");
      colsClause := colsClause + (columns[i] + ", ");
      valsClause := valsClause + ("?" + ", ");
      i := i + 1;
    }
    JoinIsTerminatedPlusLast(columns, ", ");
    JoinIsTerminatedPlusLast(ms, ", ");
    assert columns[..|columns| - 1] == columns[..i];
    assert ms[..|ms| - 1] == ms[..i];
    colsClause := colsClause + columns[|columns| - 1] + ")";
    assert colsClause == "(" + Join(columns, ", ") + ")";
    valsClause := valsClause + "?" + ")";
    assert valsClause == "(" + Join(ms, ", ") + ")";
    s := "INSERT OR IGNORE INTO " + table + " " + colsClause + " VALUES " + valsClause;
  }

  /** The comma-separated column list (generateColumnString). */
  method GenerateColumnString(columns: seq<string>) returns (s: string)
    requires |columns| > 0
    ensures s == Join(columns, ", ")
  {
    s := "";
    var i := 0;
    while i + 1 < |columns|
      invariant 0 <= i < |columns|
      invariant s == Terminated(columns[..i], ", ")
    {
      TerminatedSnoc(columns, i, ", ");
      s := s + (columns[i] + ", ");
      i := i + 1;
    }
    JoinIsTerminatedPlusLast(columns, ", ");
    assert columns[..|columns| - 1] == columns[..i];
    s := s + columns[|columns| - 1];
  }

  /** "WHERE c1 = ? AND ... cn = ?", or nothing without columns (generateWhereString). */
  method GenerateWhereString(whereCols: seq<string>) returns (s: string)
    ensures s == WhereText(whereCols, [])
  {
    var e := EqConds(whereCols);
    assert e + LikeConds([]) == e;
    s := "";
    if |whereCols| > 0 {
      s := "WHERE ";
      var i := 0;
      while i + 1 < |whereCols|
        invariant 0 <= i < |whereCols|
        invariant s == "WHERE " + Terminated(e[..i], " AND ")
      {
        TerminatedSnoc(e, i, " AND ");
        s := s + (whereCols[i] + " = ?" + " AND ");
        i := i + 1;
      }
      JoinIsTerminatedPlusLast(e, " AND ");
      assert e[..|e| - 1] == e[..i];
      s := s + (whereCols[|whereCols| - 1] + " = ?");
    }
  }

  /** A single-table SELECT with an optional bound LIMIT and OFFSET (generateSelectTemplate). */
  method GenerateSelectTemplate(table: string, columns: seq<string>, whereClause: string, sortKey: string,
                                ascending: bool, withLimits: bool) returns (s: string)
    requires |columns| > 0
    ensures s == SelectText(table, columns, whereClause, sortKey, ascending, withLimits)
  {
    var sortOrder := "ASC";
    if !ascending {
      sortOrder := "DESC";
    }
    var cols := GenerateColumnString(columns);
    s := "SELECT " + cols + " FROM " + table + " " + whereClause + " ORDER BY " + sortKey + " " + sortOrder;
    if withLimits {
      s := s + " " + "LIMIT ? OFFSET ?";
    }
  }

  /** One "JOIN ... ON ..." clause per join condition, in order (generateJoinString). */
  method GenerateJoinString(joins: seq<JoinCondition>) returns (s: string)
    ensures s == JoinText(joins)
  {
    s := "";
    var i := 0;
    while i < |joins|
      invariant 0 <= i <= |joins|
      invariant s == JoinText(joins[..i])
    {
      assert joins[..i + 1][..i] == joins[..i];
      var item := joins[i];
      s := s + ("JOIN " + TableName(item.rightTable) + " ON " + TableName(item.leftTable) + "." + item.leftCol
                + " = " + TableName(item.rightTable) + "." + item.rightCol + " ");
      i := i + 1;
    }
    assert joins[..i] == joins;
  }

  /** A SELECT over joined tables with a literal LIMIT and OFFSET (generateSelectJoinTemplate). */
  method GenerateSelectJoinTemplate(table: string, attributes: seq<string>, joins: seq<JoinCondition>,
                                    filterTemplate: string, sortKey: string, ascending: bool, limit: int,
                                    offset: int) returns (s: string)
    requires |attributes| > 0
    ensures s == SelectJoinText(table, attributes, joins, filterTemplate, sortKey, ascending, limit, offset)
  {
    var sortOrder := "ASC";
    if !ascending {
      sortOrder := "DESC";
    }
    var cols := GenerateColumnString(attributes);
    var js := GenerateJoinString(joins);
    s := "SELECT " + cols + " FROM " + table + " " + js + " " + filterTemplate + " ORDER BY " + sortKey + " "
         + sortOrder + " LIMIT " + IntToString(limit) + " OFFSET " + IntToString(offset);
  }

  // ---------------------------------------------------------------------
  // Marker counts: each text holds exactly one `?` per value bound to it.

  lemma CondsPlaceholders(eqKeys: seq<string>, likeKeys: seq<string>)
    requires AllIdents(eqKeys) && AllIdents(likeKeys)
    ensures PlaceholdersIn(EqConds(eqKeys) + LikeConds(likeKeys)) == |eqKeys| + |likeKeys|
  {
    var cs := EqConds(eqKeys) + LikeConds(likeKeys);
    forall i | 0 <= i < |cs|
      ensures Placeholders(cs[i]) == 1
    {
      if i < |eqKeys| {
        assert cs[i] == eqKeys[i] + " = " + "?";
        OneMarker(eqKeys[i], " = ");
      } else {
        assert cs[i] == likeKeys[i - |eqKeys|] + " LIKE " + "?";
        OneMarker(likeKeys[i - |eqKeys|], " LIKE ");
      }
    }
    PlaceholdersInUniform(cs);
  }

  /** The WHERE clause holds one marker per equality and per LIKE condition. */
  lemma WherePlaceholders(eqKeys: seq<string>, likeKeys: seq<string>)
    requires AllIdents(eqKeys) && AllIdents(likeKeys)
    ensures Placeholders(WhereText(eqKeys, likeKeys)) == |eqKeys| + |likeKeys|
  {
    if |eqKeys| + |likeKeys| > 0 {
      var cs := EqConds(eqKeys) + LikeConds(likeKeys);
      PlaceholdersOfJoin(cs, " AND ");
      CondsPlaceholders(eqKeys, likeKeys);
      PlaceholdersAppend("WHERE ", Join(cs, " AND "));
      IdentHasNoPlaceholders("WHERE ");
    }
  }

  /**
   * A filter's template and its values line up: as many values as markers
   * (plus LIMIT and OFFSET when a limit is set), and the k-th value belongs to
   * the k-th condition of the clause.
   */
  lemma FilterAlignment(eq: seq<KeyValue>, like: seq<KeyValue>, limit: int, offset: int)
    requires AllIdents(Keys(eq)) && AllIdents(Keys(like))
    ensures |ParamValues(eq, like, limit, offset)|
            == Placeholders(WhereText(Keys(eq), Keys(like))) + (if limit > 0 then 2 else 0)
    ensures forall k :: 0 <= k < |eq| ==>
              ParamValues(eq, like, limit, offset)[k] == eq[k].value
              && (EqConds(Keys(eq)) + LikeConds(Keys(like)))[k] == eq[k].key + " = ?"
    ensures forall k :: 0 <= k < |like| ==>
              ParamValues(eq, like, limit, offset)[|eq| + k] == like[k].value
              && (EqConds(Keys(eq)) + LikeConds(Keys(like)))[|eq| + k] == like[k].key + " LIKE ?"
  {
    WherePlaceholders(Keys(eq), Keys(like));
  }

  /** An UPDATE binds the new values first and the WHERE values after them. */
  lemma UpdatePlaceholders(table: string, updateCols: seq<string>, whereCols: seq<string>)
    requires Ident(table) && AllIdents(updateCols) && AllIdents(whereCols)
    ensures Placeholders(UpdateText(table, updateCols, whereCols)) == |updateCols| + |whereCols|
  {
    var setClause := Join(EqConds(updateCols), ", ");
    var w := WhereText(whereCols, []);
    PlaceholdersOfJoin(EqConds(updateCols), ", ");
    CondsPlaceholders(updateCols, []);
    assert EqConds(updateCols) + LikeConds([]) == EqConds(updateCols);
    WherePlaceholders(whereCols, []);
    var head := "UPDATE " + table + " SET ";
    PrependIdent(head, setClause);
    AppendIdent(head + setClause, " ");
    PlaceholdersAppend(head + setClause + " ", w);
  }

  /** An INSERT has one marker per column. */
  lemma InsertPlaceholders(table: string, cols: seq<string>)
    requires Ident(table) && AllIdents(cols)
    ensures Placeholders(InsertText(table, cols)) == |cols|
  {
    var j := Join(cols, ", ");
    var m := Join(Markers(|cols|), ", ");
    PlaceholdersOfJoin(cols, ", ");
    PlaceholdersInIdents(cols);
    PlaceholdersOfJoin(Markers(|cols|), ", ");
    forall i | 0 <= i < |cols| ensures Placeholders(Markers(|cols|)[i]) == 1 {
      OneMarker("", "");
      assert "" + "" + "?" == "?";
    }
    PlaceholdersInUniform(Markers(|cols|));
    var c := "(" + j + ")";
    var v := "(" + m + ")";
    PlaceholdersAppend("(", j);
    PlaceholdersAppend("(" + j, ")");
    PlaceholdersAppend("(", m);
    PlaceholdersAppend("(" + m, ")");
    PlaceholdersAppend("INSERT OR IGNORE INTO ", table);
    PlaceholdersAppend("INSERT OR IGNORE INTO " + table, " ");
    PlaceholdersAppend("INSERT OR IGNORE INTO " + table + " ", c);
    PlaceholdersAppend("INSERT OR IGNORE INTO " + table + " " + c, " VALUES ");
    PlaceholdersAppend("INSERT OR IGNORE INTO " + table + " " + c + " VALUES ", v);
    IdentHasNoPlaceholders("INSERT OR IGNORE INTO ");
    IdentHasNoPlaceholders(table);
    IdentHasNoPlaceholders(" ");
    IdentHasNoPlaceholders(" VALUES ");
    IdentHasNoPlaceholders("(");
    IdentHasNoPlaceholders(")");
  }

  lemma LimitOffsetMarkers()
    ensures Placeholders(" LIMIT ? OFFSET ?") == 2
  {
    assert " LIMIT ? OFFSET ?" == " LIMIT " + "?" + (" OFFSET " + "?");
    PlaceholdersAppend(" LIMIT " + "?", " OFFSET " + "?");
    PrependIdent(" LIMIT ", "?");
    PrependIdent(" OFFSET ", "?");
  }

  /** A SELECT has the markers of its WHERE clause, plus two when it binds LIMIT and OFFSET. */
  lemma SelectPlaceholders(table: string, cols: seq<string>, where: string, sortKey: string, ascending: bool,
                           withLimits: bool)
    requires Ident(table) && AllIdents(cols) && Ident(sortKey)
    ensures Placeholders(SelectText(table, cols, where, sortKey, ascending, withLimits))
            == Placeholders(where) + (if withLimits then 2 else 0)
  {
    JoinIdent(cols, ", ");
    var head := "SELECT " + Join(cols, ", ") + " FROM " + table + " ";
    var x := head + where + " ORDER BY " + sortKey + " " + SortOrder(ascending);
    PrependIdent(head, where);
    AppendIdent(head + where, " ORDER BY ");
    AppendIdent(head + where + " ORDER BY ", sortKey);
    AppendIdent(head + where + " ORDER BY " + sortKey, " ");
    AppendIdent(head + where + " ORDER BY " + sortKey + " ", SortOrder(ascending));
    if withLimits {
      PlaceholdersAppend(x, " LIMIT ? OFFSET ?");
      LimitOffsetMarkers();
    } else {
      assert x + "" == x;
    }
  }

  /**
   * A single-table SELECT ends with the paging markers exactly when it is
   * paged, and otherwise with its sort order, which is ASC exactly when the
   * sort is ascending.
   */
  lemma SelectTextEnding(table: string, cols: seq<string>, where: string, sortKey: string, ascending: bool,
                         withLimits: bool)
    ensures var t := SelectText(table, cols, where, sortKey, ascending, withLimits);
            withLimits <==> |t| >= 17 && t[|t| - 17..] == " LIMIT ? OFFSET ?"
    ensures var t := SelectText(table, cols, where, sortKey, ascending, false);
            (ascending ==> t[|t| - 4..] == " ASC") && (!ascending ==> t[|t| - 5..] == " DESC")
  {
    var head := "SELECT " + Join(cols, ", ") + " FROM " + table + " " + where + " ORDER BY " + sortKey + " "
                + SortOrder(ascending);
    var t := SelectText(table, cols, where, sortKey, ascending, withLimits);
    if withLimits {
      assert t == head + " LIMIT ? OFFSET ?";
      assert t[|t| - 17..] == " LIMIT ? OFFSET ?";
    } else {
      assert t == head;
      assert t[|t| - 1] == 'C';
    }
    var plain := SelectText(table, cols, where, sortKey, ascending, false);
    assert plain == head;
    if ascending {
      assert plain[|plain| - 4..] == " ASC";
    } else {
      assert plain[|plain| - 5..] == " DESC";
    }
  }

  lemma JoinClauseIdent(j: JoinCondition)
    requires Ident(j.leftCol) && Ident(j.rightCol)
    ensures Ident(JoinClause(j))
  {
    TableNameIdent(j.leftTable);
    TableNameIdent(j.rightTable);
  }

  lemma {:induction false} JoinTextIdent(joins: seq<JoinCondition>)
    requires forall i :: 0 <= i < |joins| ==> Ident(joins[i].leftCol) && Ident(joins[i].rightCol)
    ensures Ident(JoinText(joins))
  {
    if |joins| > 0 {
      var n := |joins|;
      assert JoinText(joins) == JoinText(joins[..n - 1]) + JoinClause(joins[n - 1]);
      JoinTextIdent(joins[..n - 1]);
      JoinClauseIdent(joins[n - 1]);
    }
  }

  /** A joined SELECT writes LIMIT and OFFSET literally, so only its filter has markers. */
  lemma SelectJoinPlaceholders(table: string, attributes: seq<string>, joins: seq<JoinCondition>, filter: string,
                               sortKey: string, ascending: bool, limit: int, offset: int)
    requires Ident(table) && AllIdents(attributes) && Ident(sortKey)
    requires forall i :: 0 <= i < |joins| ==> Ident(joins[i].leftCol) && Ident(joins[i].rightCol)
    ensures Placeholders(SelectJoinText(table, attributes, joins, filter, sortKey, ascending, limit, offset))
            == Placeholders(filter)
  {
    JoinIdent(attributes, ", ");
    JoinTextIdent(joins);
    var head := "SELECT " + Join(attributes, ", ") + " FROM " + table + " " + JoinText(joins) + " ";
    var x := head + filter;
    PrependIdent(head, filter);
    AppendIdent(x, " ORDER BY ");
    AppendIdent(x + " ORDER BY ", sortKey);
    AppendIdent(x + " ORDER BY " + sortKey, " ");
    AppendIdent(x + " ORDER BY " + sortKey + " ", SortOrder(ascending));
    AppendIdent(x + " ORDER BY " + sortKey + " " + SortOrder(ascending), " LIMIT ");
    AppendIdent(x + " ORDER BY " + sortKey + " " + SortOrder(ascending) + " LIMIT ", IntToString(limit));
    AppendIdent(x + " ORDER BY " + sortKey + " " + SortOrder(ascending) + " LIMIT " + IntToString(limit), " OFFSET ");
    AppendIdent(x + " ORDER BY " + sortKey + " " + SortOrder(ascending) + " LIMIT " + IntToString(limit)
                + " OFFSET ", IntToString(offset));
  }

  /** A DELETE has exactly the markers of its filter. */
  lemma DeletePlaceholders(table: string, filter: string)
    requires Ident(table)
    ensures Placeholders(DeleteText(table, filter)) == Placeholders(filter)
  {
    PlaceholdersAppend("DELETE FROM ", table);
    PlaceholdersAppend("DELETE FROM " + table, " ");
    PlaceholdersAppend("DELETE FROM " + table + " ", filter);
    IdentHasNoPlaceholders("DELETE FROM ");
    IdentHasNoPlaceholders(table);
    IdentHasNoPlaceholders(" ");
  }
}
