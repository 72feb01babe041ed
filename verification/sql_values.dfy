/**
 * Values stored in SQLite columns and rows as column-name maps, with SQLite's
 * ordering of values (NULL, then numbers, then text in BINARY collation).
 */
module SqlValues {
  import opened Text
  import opened Tables

  /** A column value: SQL NULL, an integer or a text value. */
  datatype Value = Null | Int(i: int) | Str(s: string)

  /** A stored row maps column names to values; a column it lacks reads as NULL. */
  type Row = map<string, Value>

  function Get(r: Row, c: string): Value
  {
    if c in r then r[c] else Null
  }

  function Rank(v: Value): nat
  {
    match v
    case Null => 0
    case Int(_) => 1
    case Str(_) => 2
  }

  /** SQLite's ORDER BY comparison of two values. */
  predicate ValueLe(a: Value, b: Value)
  {
    if Rank(a) != Rank(b) then Rank(a) < Rank(b)
    else match a
      case Null => true
      case Int(x) => x <= b.i
      case Str(s) => StrLe(s, b.s)
  }

  lemma ValueLeTotal(a: Value, b: Value)
    ensures ValueLe(a, b) || ValueLe(b, a)
  {
    if a.Str? && b.Str? {
      StrLeTotal(a.s, b.s);
    }
  }

  lemma ValueLeTrans(a: Value, b: Value, c: Value)
    requires ValueLe(a, b) && ValueLe(b, c)
    ensures ValueLe(a, c)
  {
    if a.Str? && b.Str? && c.Str? {
      StrLeTrans(a.s, b.s, c.s);
    }
  }

  /** The row an INSERT writes: the i-th column receives the i-th bound value. */
  function ZipRow(cols: seq<string>, vals: seq<Value>): Row
    requires |cols| == |vals|
  {
    if |cols| == 0 then map[]
    else ZipRow(cols[..|cols| - 1], vals[..|vals| - 1])[cols[|cols| - 1] := vals[|vals| - 1]]
  }

  /** The values a SELECT of `cols` returns for row `r`, in column order. */
  function Project(r: Row, cols: seq<string>): (vs: seq<Value>)
    ensures |vs| == |cols|
    ensures forall i :: 0 <= i < |cols| ==> vs[i] == Get(r, cols[i])
  {
    if |cols| == 0 then [] else Project(r, cols[..|cols| - 1]) + [Get(r, cols[|cols| - 1])]
  }

  /** Each listed column of a zipped row holds the value bound to it. */
  lemma {:induction false} ZipRowGet(cols: seq<string>, vals: seq<Value>, i: nat)
    requires |cols| == |vals| && Distinct(cols) && i < |cols|
    ensures Get(ZipRow(cols, vals), cols[i]) == vals[i]
  {
    var n := |cols|;
    if i < n - 1 {
      assert cols[i] != cols[n - 1];
      assert cols[..n - 1][i] == cols[i];
      ZipRowGet(cols[..n - 1], vals[..n - 1], i);
    }
  }

  /** A zipped row holds no column besides the ones written. */
  lemma {:induction false} ZipRowColumns(cols: seq<string>, vals: seq<Value>, c: string)
    requires |cols| == |vals| && c !in cols
    ensures c !in ZipRow(cols, vals)
  {
    var n := |cols|;
    if n > 0 {
      assert forall x :: x in cols[..n - 1] ==> x in cols;
      ZipRowColumns(cols[..n - 1], vals[..n - 1], c);
    }
  }

  /** A row written with distinct columns reads back, column by column, as the values written. */
  lemma ProjectZip(cols: seq<string>, vals: seq<Value>)
    requires |cols| == |vals| && Distinct(cols)
    ensures Project(ZipRow(cols, vals), cols) == vals
  {
    forall i | 0 <= i < |cols|
      ensures Project(ZipRow(cols, vals), cols)[i] == vals[i]
    {
      ZipRowGet(cols, vals, i);
    }
  }

  /**
   * SQL LIKE restricted to the patterns this code builds: a trailing `%`
   * matches any suffix, otherwise the text must equal the pattern.
   */
  predicate LikeMatch(text: string, pattern: string)
  {
    if |pattern| > 0 && pattern[|pattern| - 1] == '%' then StartsWith(pattern[..|pattern| - 1], text)
    else text == pattern
  }

  /** `col = ?` with value `v`: never true when either side is NULL. */
  predicate EqHolds(r: Row, col: string, v: Value)
  {
    v != Null && Get(r, col) == v
  }

  /** `col LIKE ?` with value `v`: only text values match. */
  predicate LikeHolds(r: Row, col: string, v: Value)
  {
    v.Str? && Get(r, col).Str? && LikeMatch(Get(r, col).s, v.s)
  }
}
