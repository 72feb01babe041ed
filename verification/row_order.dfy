/**
 * ORDER BY and LIMIT/OFFSET over rows. Sorting is a stable insertion sort on
 * one column, proved to return a sorted permutation of its input.
 */
module RowOrder {
  import opened SqlValues

  /** `a` may come before `b` when sorting on `key`, ascending or descending. */
  predicate InOrder(a: Row, b: Row, key: string, ascending: bool)
  {
    if ascending then ValueLe(Get(a, key), Get(b, key)) else ValueLe(Get(b, key), Get(a, key))
  }

  predicate Sorted(rows: seq<Row>, key: string, ascending: bool)
  {
    forall i, j :: 0 <= i < j < |rows| ==> InOrder(rows[i], rows[j], key, ascending)
  }

  lemma InOrderTotal(a: Row, b: Row, key: string, ascending: bool)
    ensures InOrder(a, b, key, ascending) || InOrder(b, a, key, ascending)
  {
    ValueLeTotal(Get(a, key), Get(b, key));
  }

  lemma InOrderTrans(a: Row, b: Row, c: Row, key: string, ascending: bool)
    requires InOrder(a, b, key, ascending) && InOrder(b, c, key, ascending)
    ensures InOrder(a, c, key, ascending)
  {
    if ascending {
      ValueLeTrans(Get(a, key), Get(b, key), Get(c, key));
    } else {
      ValueLeTrans(Get(c, key), Get(b, key), Get(a, key));
    }
  }

  /** Places `r` after every row it does not strictly precede, so equal keys keep their arrival order. */
  function Insert(sorted: seq<Row>, r: Row, key: string, ascending: bool): seq<Row>
  {
    if |sorted| == 0 then [r]
    else if InOrder(sorted[|sorted| - 1], r, key, ascending) then sorted + [r]
    else Insert(sorted[..|sorted| - 1], r, key, ascending) + [sorted[|sorted| - 1]]
  }

  /** The rows in ORDER BY `key` order, ties in their original order. */
  function SortBy(rows: seq<Row>, key: string, ascending: bool): seq<Row>
  {
    if |rows| == 0 then [] else Insert(SortBy(rows[..|rows| - 1], key, ascending), rows[|rows| - 1], key, ascending)
  }

  /** Rows that all lack the sort column tie, so ORDER BY on it keeps them in the order they came. */
  lemma {:induction false} SortByAbsentKey(rows: seq<Row>, key: string, ascending: bool)
    requires forall r :: r in rows ==> key !in r
    ensures SortBy(rows, key, ascending) == rows
  {
    var n := |rows|;
    if n > 0 {
      var init := rows[..n - 1];
      assert forall r :: r in init ==> r in rows;
      SortByAbsentKey(init, key, ascending);
      if n > 1 {
        assert init[n - 2] in rows;
      }
      assert rows == init + [rows[n - 1]];
    }
  }

  lemma {:induction false} InsertPermutes(sorted: seq<Row>, r: Row, key: string, ascending: bool)
    ensures multiset(Insert(sorted, r, key, ascending)) == multiset(sorted) + multiset{r}
  {
    if |sorted| > 0 && !InOrder(sorted[|sorted| - 1], r, key, ascending) {
      var init := sorted[..|sorted| - 1];
      InsertPermutes(init, r, key, ascending);
      assert sorted == init + [sorted[|sorted| - 1]];
    }
  }

  lemma AppendAfterLast(sorted: seq<Row>, r: Row, key: string, ascending: bool)
    requires Sorted(sorted, key, ascending)
    requires |sorted| > 0 && InOrder(sorted[|sorted| - 1], r, key, ascending)
    ensures Sorted(sorted + [r], key, ascending)
  {
    var n := |sorted|;
    var res := sorted + [r];
    forall i, j | 0 <= i < j < |res|
      ensures InOrder(res[i], res[j], key, ascending)
    {
      if j == n && i < n - 1 {
        InOrderTrans(sorted[i], sorted[n - 1], r, key, ascending);
      }
    }
  }

  lemma AppendAfterAll(ins: seq<Row>, last: Row, key: string, ascending: bool)
    requires Sorted(ins, key, ascending)
    requires forall x :: x in multiset(ins) ==> InOrder(x, last, key, ascending)
    ensures Sorted(ins + [last], key, ascending)
  {
    var res := ins + [last];
    forall i, j | 0 <= i < j < |res|
      ensures InOrder(res[i], res[j], key, ascending)
    {
      if j == |ins| {
        assert res[i] in multiset(ins);
      }
    }
  }

  lemma {:induction false} InsertKeepsSorted(sorted: seq<Row>, r: Row, key: string, ascending: bool)
    requires Sorted(sorted, key, ascending)
    ensures Sorted(Insert(sorted, r, key, ascending), key, ascending)
  {
    var n := |sorted|;
    if n == 0 {
    } else if InOrder(sorted[n - 1], r, key, ascending) {
      AppendAfterLast(sorted, r, key, ascending);
    } else {
      var init := sorted[..n - 1];
      var last := sorted[n - 1];
      InsertKeepsSorted(init, r, key, ascending);
      InsertPermutes(init, r, key, ascending);
      InOrderTotal(last, r, key, ascending);
      var ins := Insert(init, r, key, ascending);
      forall x | x in multiset(ins)
        ensures InOrder(x, last, key, ascending)
      {
        if x != r {
          assert x in multiset(init);
          var k :| 0 <= k < |init| && init[k] == x;
          assert sorted[k] == x;
        }
      }
      AppendAfterAll(ins, last, key, ascending);
    }
  }

  /** Sorting keeps exactly the rows it is given. */
  lemma {:induction false} SortByPermutes(rows: seq<Row>, key: string, ascending: bool)
    ensures multiset(SortBy(rows, key, ascending)) == multiset(rows)
  {
    if |rows| > 0 {
      var init := rows[..|rows| - 1];
      SortByPermutes(init, key, ascending);
      InsertPermutes(SortBy(init, key, ascending), rows[|rows| - 1], key, ascending);
      assert rows == init + [rows[|rows| - 1]];
    }
  }

  /** Sorting puts the rows in ORDER BY order. */
  lemma {:induction false} SortBySorted(rows: seq<Row>, key: string, ascending: bool)
    ensures Sorted(SortBy(rows, key, ascending), key, ascending)
  {
    if |rows| > 0 {
      SortBySorted(rows[..|rows| - 1], key, ascending);
      InsertKeepsSorted(SortBy(rows[..|rows| - 1], key, ascending), rows[|rows| - 1], key, ascending);
    }
  }

  lemma SortByLength(rows: seq<Row>, key: string, ascending: bool)
    ensures |SortBy(rows, key, ascending)| == |rows|
  {
    SortByPermutes(rows, key, ascending);
    assert |multiset(SortBy(rows, key, ascending))| == |multiset(rows)|;
  }

  /** OFFSET then LIMIT: a negative offset skips nothing and a negative limit keeps everything. */
  function Page(rows: seq<Row>, limit: int, offset: int): (page: seq<Row>)
    ensures limit >= 0 ==> |page| <= limit
    ensures |page| <= |rows|
  {
    var start := if offset <= 0 then 0 else if offset >= |rows| then |rows| else offset;
    var rest := rows[start..];
    if limit < 0 || limit >= |rest| then rest else rest[..limit]
  }

  /** A page is a contiguous run of the rows, so it keeps their order. */
  lemma PageIsSlice(rows: seq<Row>, limit: int, offset: int)
    ensures exists s, e :: 0 <= s <= e <= |rows| && Page(rows, limit, offset) == rows[s..e]
  {
    var start := if offset <= 0 then 0 else if offset >= |rows| then |rows| else offset;
    var rest := rows[start..];
    if limit < 0 || limit >= |rest| {
      assert Page(rows, limit, offset) == rows[start..|rows|];
    } else {
      assert Page(rows, limit, offset) == rows[start..start + limit];
    }
  }

  lemma PageKeepsSorted(rows: seq<Row>, limit: int, offset: int, key: string, ascending: bool)
    requires Sorted(rows, key, ascending)
    ensures Sorted(Page(rows, limit, offset), key, ascending)
    ensures forall r :: r in Page(rows, limit, offset) ==> r in rows
  {
    PageIsSlice(rows, limit, offset);
    var s, e :| 0 <= s <= e <= |rows| && Page(rows, limit, offset) == rows[s..e];
    var p := rows[s..e];
    forall i, j | 0 <= i < j < |p|
      ensures InOrder(p[i], p[j], key, ascending)
    {
      assert p[i] == rows[s + i] && p[j] == rows[s + j];
    }
  }
}
