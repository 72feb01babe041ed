/**
 * Dispatches: the row each dispatch is stored as (its metadata together with
 * its lattice's), the filtered reads of that table, the summary listing, the
 * lookup of one dispatch, the status update and the deletion.
 */
module Dispatches {
  import opened Wrappers
  import opened Text
  import opened Tables
  import opened SqlValues
  import opened RowOrder
  import opened Templates
  import opened Database
  import opened ApiErrors
  import opened Environment
  import opened DispatchModels
  import opened Crud
  import Electrons

  /** A row of the dispatch table: a dispatch's metadata and its lattice's. */
  datatype DispatchEntity = DispatchEntity(d: DispatchMeta, l: LatticeMeta)

  const NO_DISPATCH_ENTITY := DispatchEntity(NO_DISPATCH_META, NO_LATTICE_META)

  /** The values written for the columns of DISPATCH_ENTITY_KEYS, in order. */
  function DispatchValues(e: DispatchEntity): (vs: seq<Value>)
    ensures |vs| == |DISPATCH_ENTITY_KEYS|
  {
    [Str(e.d.dispatchId), Str(e.d.rootDispatchId), Str(e.l.name), Str(e.d.status), Str(e.l.executor),
     Str(e.l.executorData), Str(e.l.workflowExecutor), Str(e.l.workflowExecutorData), Str(e.l.pythonVersion),
     Str(e.l.covalentVersion), Electrons.TimeValue(e.d.startTime), Electrons.TimeValue(e.d.endTime),
     Str(e.d.createdAt), Str(e.d.updatedAt)]
  }

  /** The lattice metadata as it reads back: the decoded executor data objects are not stored. */
  function StoredLattice(l: LatticeMeta): LatticeMeta
  {
    l.(executorDataJson := NO_JSON, workflowExecutorDataJson := NO_JSON)
  }

  /** Scans a result row of the DISPATCH_ENTITY_KEYS columns field by field; a row of the wrong shape is a scan error. */
  function ScanDispatch(vs: seq<Value>): (r: Option<DispatchEntity>)
    ensures r.Some? ==> vs == DispatchValues(r.value) && r.value.l == StoredLattice(r.value.l)
  {
    if |vs| == 14 && vs[0].Str? && vs[1].Str? && vs[2].Str? && vs[3].Str? && vs[4].Str? && vs[5].Str? && vs[6].Str?
       && vs[7].Str? && vs[8].Str? && vs[9].Str? && Electrons.ScanTime(vs[10]).Some? && Electrons.ScanTime(vs[11]).Some?
       && vs[12].Str? && vs[13].Str?
    then Some(DispatchEntity(
                DispatchMeta(vs[0].s, vs[1].s, vs[3].s, Electrons.ScanTime(vs[10]).value, Electrons.ScanTime(vs[11]).value,
                             vs[12].s, vs[13].s),
                LatticeMeta(vs[2].s, vs[4].s, vs[5].s, NO_JSON, vs[6].s, vs[7].s, NO_JSON, vs[8].s, vs[9].s)))
    else None
  }

  /** Scanning the values written for a dispatch gives the dispatch back, less what is not stored. */
  lemma ScanDispatchValues(e: DispatchEntity)
    ensures ScanDispatch(DispatchValues(e)) == Some(e.(l := StoredLattice(e.l)))
  {
    var vs := DispatchValues(e);
    assert Electrons.ScanTime(vs[10]) == Some(e.d.startTime) && Electrons.ScanTime(vs[11]) == Some(e.d.endTime);
  }

  /** A stored dispatch reads back as itself, less what is not stored. */
  lemma StoredDispatchReadsBack(e: DispatchEntity)
    ensures ScanDispatch(Project(ZipRow(DISPATCH_ENTITY_KEYS, DispatchValues(e)), DISPATCH_ENTITY_KEYS))
            == Some(e.(l := StoredLattice(e.l)))
  {
    SchemaWellFormed(Dispatches);
    ProjectZip(DISPATCH_ENTITY_KEYS, DispatchValues(e));
    ScanDispatchValues(e);
  }

  /** The row is the one of dispatch `dispatchId`. */
  predicate IsDispatch(r: Row, dispatchId: string)
  {
    Get(r, DISPATCH_TABLE_ID) == Str(dispatchId)
  }

  /** Some stored row scans as `e`. */
  predicate StoredDispatch(db: Db, e: DispatchEntity)
  {
    exists r :: r in db.dispatches && ScanDispatch(Project(r, DISPATCH_ENTITY_KEYS)) == Some(e)
  }

  /** A row of the dispatch table that scans holds the entity's id, root id and creation time. */
  lemma ScannedDispatch(r: Row, e: DispatchEntity)
    requires ScanDispatch(Project(r, DISPATCH_ENTITY_KEYS)) == Some(e)
    ensures IsDispatch(r, e.d.dispatchId) && Get(r, DISPATCH_TABLE_ROOT_ID) == Str(e.d.rootDispatchId)
    ensures Get(r, DISPATCH_TABLE_CREATED_AT) == Str(e.d.createdAt)
  {
    var vs := Project(r, DISPATCH_ENTITY_KEYS);
    assert vs[0] == Get(r, DISPATCH_TABLE_ID) && vs[1] == Get(r, DISPATCH_TABLE_ROOT_ID);
    assert vs[12] == Get(r, DISPATCH_TABLE_CREATED_AT);
  }

  // ---------------------------------------------------------------------
  // Reading dispatches

  /** The SELECT of GetDispatchEntities: the dispatch columns, filtered, ordered, paged when a limit is set. */
  function DispatchesQuery(eq: seq<KeyValue>, like: seq<KeyValue>, limit: int, sortKey: string, ascending: bool): Query
  {
    SelectFrom(Dispatches, DISPATCH_ENTITY_KEYS, Keys(eq), Keys(like), sortKey, ascending, limit > 0)
  }

  /** The rendered values fit the query: one per filter, then LIMIT and OFFSET as integers when a limit is set. */
  lemma DispatchesArgs(eq: seq<KeyValue>, like: seq<KeyValue>, limit: int, offset: int, sortKey: string, ascending: bool)
    ensures var q := DispatchesQuery(eq, like, limit, sortKey, ascending);
            var args := ParamValues(eq, like, limit, offset);
            |args| == QueryArity(q) && LimitsBound(q, args)
  {
  }

  /** The dispatches the filtered SELECT answers, or None when some row does not scan. */
  function DispatchesRead(db: Db, eq: seq<KeyValue>, like: seq<KeyValue>, limit: int, offset: int, sortKey: string,
                          ascending: bool): Option<seq<DispatchEntity>>
  {
    DispatchesArgs(eq, like, limit, offset, sortKey, ascending);
    ScanAll(Select(db, DispatchesQuery(eq, like, limit, sortKey, ascending), ParamValues(eq, like, limit, offset)),
            ScanDispatch)
  }

  /** The text GetDispatchEntities builds is that of its query, and the query names only plain columns. */
  lemma DispatchesQueryText(eqKeys: seq<string>, likeKeys: seq<string>, limit: int, sortKey: string, ascending: bool)
    requires AllIdents(eqKeys) && AllIdents(likeKeys) && Ident(sortKey)
    ensures var q := SelectFrom(Dispatches, DISPATCH_ENTITY_KEYS, eqKeys, likeKeys, sortKey, ascending, limit > 0);
            Readable(q)
            && QueryText(q) == SelectText(DISPATCH_TABLE, DISPATCH_ENTITY_KEYS, WhereText(eqKeys, likeKeys), sortKey, ascending, limit > 0)
  {
    SchemaWellFormed(Dispatches);
  }

  /**
   * Reads the dispatches passing the filters, ordered by `sortKey`
   * (GetDispatchEntities). Engine and scan errors are 500s.
   */
  method GetDispatchEntities(st: Store, f: Filters, sortKey: string, ascending: bool)
    returns (ents: seq<DispatchEntity>, err: Option<ApiError>)
    requires AllIdents(Keys(f.eq)) && AllIdents(Keys(f.like)) && Ident(sortKey)
    ensures var read := DispatchesRead(st.Content(), f.eq, f.like, f.limit, f.offset, sortKey, ascending);
            (err.None? <==> !st.fails(Reading(DispatchesQuery(f.eq, f.like, f.limit, sortKey, ascending),
                                              ParamValues(f.eq, f.like, f.limit, f.offset))) && read.Some?)
            && (err.None? ==> ents == read.value)
    ensures err.Some? ==> err.value == ENGINE_FAILURE && ents == []
  {
    var where := f.RenderTemplate();
    SchemaWellFormed(Dispatches);
    var template := GenerateSelectTemplate(DISPATCH_TABLE, DISPATCH_ENTITY_KEYS, where, sortKey, ascending, f.limit > 0);
    var params := f.RenderValues();
    var q := DispatchesQuery(f.eq, f.like, f.limit, sortKey, ascending);
    DispatchesQueryText(Keys(f.eq), Keys(f.like), f.limit, sortKey, ascending);
    DispatchesArgs(f.eq, f.like, f.limit, f.offset, sortKey, ascending);
    var answer := st.Query(template, q, params);
    if answer.None? {
      return [], Some(ENGINE_FAILURE);
    }
    ents, err := ScanRows(answer.value, ScanDispatch);
  }

  // ---------------------------------------------------------------------
  // Summaries

  /** The filter of GetDispatchSummaries: on the id only when one is given. */
  function SummaryFilter(dispatchId: string): seq<KeyValue>
  {
    if |dispatchId| > 0 then [KeyValue(DISPATCH_TABLE_ID, Str(dispatchId))] else []
  }

  /** The query of GetDispatchSummaries: newest first, a page of `count` when `count` is positive. */
  function SummariesQuery(dispatchId: string, count: int): Query
  {
    DispatchesQuery(SummaryFilter(dispatchId), [], count, DISPATCH_TABLE_CREATED_AT, false)
  }

  /** The dispatches on page `page` of `count`, as the summary query reads them. */
  function SummariesRead(db: Db, dispatchId: string, page: int, count: int): Option<seq<DispatchEntity>>
  {
    DispatchesRead(db, SummaryFilter(dispatchId), [], count, page * count, DISPATCH_TABLE_CREATED_AT, false)
  }

  /**
   * One page of dispatch summaries (GetDispatchSummaries): the dispatch with
   * the given id, or every dispatch when the id is empty, newest first;
   * `count` per page, page `page`. Each record is the dispatch part of its row.
   */
  method GetDispatchSummaries(st: Store, dispatchId: string, page: int, count: int)
    returns (resp: GetBulkDispatchesResponse, err: Option<ApiError>)
    ensures var read := SummariesRead(st.Content(), dispatchId, page, count);
            (err.None? <==> !st.fails(Reading(SummariesQuery(dispatchId, count),
                                              ParamValues(SummaryFilter(dispatchId), [], count, page * count)))
                            && read.Some?)
            && (err.None? ==> |resp.records| == |read.value|
                              && forall i :: 0 <= i < |read.value| ==> resp.records[i] == read.value[i].d)
    ensures err.Some? ==> err.value == ENGINE_FAILURE && resp.records == []
  {
    var f := new Filters();
    if |dispatchId| > 0 {
      f.AddEq(DISPATCH_TABLE_ID, Str(dispatchId));
    }
    f.limit := count;
    f.offset := page * count;
    assert f.eq == SummaryFilter(dispatchId) && f.like == [];
    var ents;
    ents, err := GetDispatchEntities(st, f, DISPATCH_TABLE_CREATED_AT, false);
    if err.Some? {
      return GetBulkDispatchesResponse([]), err;
    }
    var metas := DispatchMetasOf(ents);
    resp := GetBulkDispatchesResponse(metas);
  }

  /** The copy loop of GetDispatchSummaries: each entity's dispatch metadata, in order. */
  method DispatchMetasOf(ents: seq<DispatchEntity>) returns (metas: seq<DispatchMeta>)
    ensures |metas| == |ents| && forall i :: 0 <= i < |ents| ==> metas[i] == ents[i].d
  {
    metas := seq(|ents|, _ => NO_DISPATCH_META);
    var i := 0;
    while i < |ents|
      invariant 0 <= i <= |ents| == |metas|
      invariant forall k :: 0 <= k < i ==> metas[k] == ents[k].d
    {
      metas := metas[i := ents[i].d];
      i := i + 1;
    }
  }

  /**
   * A page of summaries holds stored dispatches only, of the given id when
   * one is given, newest first, and no more than a positive `count`.
   */
  lemma SummariesFiltered(db: Db, dispatchId: string, page: int, count: int)
    requires SummariesRead(db, dispatchId, page, count).Some?
    ensures var es := SummariesRead(db, dispatchId, page, count).value;
            (forall i :: 0 <= i < |es| ==> StoredDispatch(db, es[i]) && (|dispatchId| > 0 ==> es[i].d.dispatchId == dispatchId))
            && (forall i, j :: 0 <= i < j < |es| ==> StrLe(es[j].d.createdAt, es[i].d.createdAt))
            && (count > 0 ==> |es| <= count)
  {
    SummariesMatch(db, dispatchId, page, count);
    SummariesNewestFirst(db, dispatchId, page, count);
  }

  /** The summaries read are stored dispatches of the id, when one is given, and no more than a positive `count`. */
  lemma SummariesMatch(db: Db, dispatchId: string, page: int, count: int)
    requires SummariesRead(db, dispatchId, page, count).Some?
    ensures var es := SummariesRead(db, dispatchId, page, count).value;
            (forall i :: 0 <= i < |es| ==> StoredDispatch(db, es[i]) && (|dispatchId| > 0 ==> es[i].d.dispatchId == dispatchId))
            && (count > 0 ==> |es| <= count)
  {
    var eq := SummaryFilter(dispatchId);
    var q := SummariesQuery(dispatchId, count);
    var args := ParamValues(eq, [], count, page * count);
    DispatchesArgs(eq, [], count, page * count, DISPATCH_TABLE_CREATED_AT, false);
    var sel := Selected(db, q, args);
    var es := SummariesRead(db, dispatchId, page, count).value;
    var conds := Conditions(q, args);
    if count > 0 {
      SelectedPageRows(db, q, args);
    } else {
      SelectedAllRows(db, q, args);
    }
    forall i | 0 <= i < |es|
      ensures StoredDispatch(db, es[i]) && (|dispatchId| > 0 ==> es[i].d.dispatchId == dispatchId)
    {
      assert sel[i] in sel;
      ScannedDispatch(sel[i], es[i]);
      if |dispatchId| > 0 {
        assert CondHolds(sel[i], conds[0]);
      }
    }
  }

  /** The summaries read come newest first. */
  lemma SummariesNewestFirst(db: Db, dispatchId: string, page: int, count: int)
    requires SummariesRead(db, dispatchId, page, count).Some?
    ensures var es := SummariesRead(db, dispatchId, page, count).value;
            forall i, j :: 0 <= i < j < |es| ==> StrLe(es[j].d.createdAt, es[i].d.createdAt)
  {
    var eq := SummaryFilter(dispatchId);
    var q := SummariesQuery(dispatchId, count);
    var args := ParamValues(eq, [], count, page * count);
    DispatchesArgs(eq, [], count, page * count, DISPATCH_TABLE_CREATED_AT, false);
    var sel := Selected(db, q, args);
    var es := SummariesRead(db, dispatchId, page, count).value;
    if count > 0 {
      SelectedPageRows(db, q, args);
    } else {
      SelectedAllRows(db, q, args);
    }
    forall i, j | 0 <= i < j < |es| ensures StrLe(es[j].d.createdAt, es[i].d.createdAt) {
      ScannedDispatch(sel[i], es[i]);
      ScannedDispatch(sel[j], es[j]);
      assert InOrder(sel[i], sel[j], DISPATCH_TABLE_CREATED_AT, false);
    }
  }

  // ---------------------------------------------------------------------
  // One dispatch

  /** SELECT ... FROM dispatches WHERE id = ? ORDER BY created_at DESC. */
  const DISPATCH_QUERY := SelectFrom(Dispatches, DISPATCH_ENTITY_KEYS, [DISPATCH_TABLE_ID], [],
                                     DISPATCH_TABLE_CREATED_AT, false, false)

  /** The 400 an unknown dispatch id is reported with. */
  function DispatchNotFound(dispatchId: string): (e: ApiError)
    ensures e.statusCode == 400 && e != ENGINE_FAILURE
  {
    NewGenericClientError("Dispatch " + dispatchId + " not found\n")
  }

  /** The dispatches of one id as read by the id query, or None when some row does not scan. */
  function DispatchRecords(db: Db, dispatchId: string): Option<seq<DispatchEntity>>
  {
    ScanAll(Select(db, DISPATCH_QUERY, [Str(dispatchId)]), ScanDispatch)
  }

  /** The id filter, rendered, is the id query with its argument. */
  lemma IdFilterRead(db: Db, dispatchId: string, offset: int)
    ensures DispatchesQuery(IdFilter(dispatchId), [], 0, DISPATCH_TABLE_CREATED_AT, false) == DISPATCH_QUERY
    ensures ParamValues(IdFilter(dispatchId), [], 0, offset) == [Str(dispatchId)]
    ensures DispatchesRead(db, IdFilter(dispatchId), [], 0, offset, DISPATCH_TABLE_CREATED_AT, false)
            == DispatchRecords(db, dispatchId)
  {
    assert Keys(IdFilter(dispatchId)) == DISPATCH_QUERY.eqCols;
  }

  /** The id query selects exactly the rows of the id. */
  lemma IdRows(db: Db, dispatchId: string)
    ensures forall r :: r in Selected(db, DISPATCH_QUERY, [Str(dispatchId)]) <==> r in db.dispatches && IsDispatch(r, dispatchId)
  {
    var args := [Str(dispatchId)];
    var conds := Conditions(DISPATCH_QUERY, args);
    SelectedAllRows(db, DISPATCH_QUERY, args);
    forall r ensures AllHold(r, conds) <==> IsDispatch(r, dispatchId) {
      assert AllHold(r, conds) <==> CondHolds(r, conds[0]);
    }
  }

  /** The records scanned from the id query: none exactly when no row has the id, else the first is stored under it. */
  lemma IdEntities(db: Db, dispatchId: string, ents: seq<DispatchEntity>)
    requires DispatchRecords(db, dispatchId) == Some(ents)
    ensures |ents| == 0 <==> forall r :: r in db.dispatches ==> !IsDispatch(r, dispatchId)
    ensures |ents| > 0 ==> ents[0].d.dispatchId == dispatchId && StoredDispatch(db, ents[0])
  {
    var sel := Selected(db, DISPATCH_QUERY, [Str(dispatchId)]);
    IdRows(db, dispatchId);
    if |ents| > 0 {
      assert sel[0] in sel;
      ScannedDispatch(sel[0], ents[0]);
    } else {
      forall r | r in db.dispatches ensures !IsDispatch(r, dispatchId) {
        assert r !in sel;
      }
    }
  }

  /** An id without rows reads as an empty answer, which always scans. */
  lemma IdRowsScanFailure(db: Db, dispatchId: string)
    requires DispatchRecords(db, dispatchId).None?
    ensures exists r :: r in db.dispatches && IsDispatch(r, dispatchId)
  {
    var sel := Selected(db, DISPATCH_QUERY, [Str(dispatchId)]);
    IdRows(db, dispatchId);
    assert |sel| > 0;
    assert sel[0] in sel;
  }

  /** The read of getDispatchEntity: the dispatches filtered on the id, newest first. */
  method ReadDispatchRecords(st: Store, dispatchId: string) returns (ents: seq<DispatchEntity>, err: Option<ApiError>)
    ensures (err.None? <==> !st.fails(Reading(DISPATCH_QUERY, [Str(dispatchId)])) && DispatchRecords(st.Content(), dispatchId).Some?)
            && (err.None? ==> ents == DispatchRecords(st.Content(), dispatchId).value)
    ensures err.Some? ==> err.value == ENGINE_FAILURE && ents == []
  {
    var f := new Filters();
    f.AddEq(DISPATCH_TABLE_ID, Str(dispatchId));
    assert f.eq == IdFilter(dispatchId) && f.like == [] && f.limit == 0;
    IdFilterRead(st.Content(), dispatchId, f.offset);
    ents, err := GetDispatchEntities(st, f, DISPATCH_TABLE_CREATED_AT, false);
  }

  /** Every read getDispatchEntity makes goes through, and some row has the id. */
  predicate DispatchFound(fails: Op -> bool, db: Db, dispatchId: string)
  {
    !fails(Reading(DISPATCH_QUERY, [Str(dispatchId)])) && DispatchRecords(db, dispatchId).Some?
    && exists r :: r in db.dispatches && IsDispatch(r, dispatchId)
  }

  /**
   * The row of one dispatch (getDispatchEntity): a 400 "Dispatch <id> not
   * found" when no row has the id, a 500 on engine or scan errors, otherwise
   * a stored row of that id.
   */
  method GetDispatchEntity(st: Store, dispatchId: string) returns (ent: DispatchEntity, err: Option<ApiError>)
    ensures err == Some(ENGINE_FAILURE) <==>
              st.fails(Reading(DISPATCH_QUERY, [Str(dispatchId)])) || DispatchRecords(st.Content(), dispatchId).None?
    ensures err == Some(DispatchNotFound(dispatchId)) <==>
              !st.fails(Reading(DISPATCH_QUERY, [Str(dispatchId)]))
              && forall r :: r in st.Content().dispatches ==> !IsDispatch(r, dispatchId)
    ensures err.None? <==> DispatchFound(st.fails, st.Content(), dispatchId)
    ensures err.None? ==> ent.d.dispatchId == dispatchId && StoredDispatch(st.Content(), ent)
    ensures err.Some? ==> ent == NO_DISPATCH_ENTITY && (err.value == ENGINE_FAILURE || err.value == DispatchNotFound(dispatchId))
  {
    var ents;
    ents, err := ReadDispatchRecords(st, dispatchId);
    if err.Some? {
      if !st.fails(Reading(DISPATCH_QUERY, [Str(dispatchId)])) {
        IdRowsScanFailure(st.Content(), dispatchId);
      }
      return NO_DISPATCH_ENTITY, err;
    }
    IdEntities(st.Content(), dispatchId, ents);
    if |ents| == 0 {
      return NO_DISPATCH_ENTITY, Some(DispatchNotFound(dispatchId));
    }
    ent := ents[0];
  }

  // ---------------------------------------------------------------------
  // Writing dispatch metadata

  const INSERT_DISPATCH := InsertInto(Dispatches, DISPATCH_ENTITY_KEYS)

  /** Inserts the dispatch's row; when either metadata is absent nothing is written and the call succeeds (CreateDispatchMetadata). */
  method CreateDispatchMetadata(st: Store, d: Option<DispatchMeta>, l: Option<LatticeMeta>) returns (err: Option<ApiError>)
    modifies st
    ensures d.None? || l.None? ==> err.None? && st.Content() == old(st.Content())
    ensures d.Some? && l.Some? ==>
              var vals := [DispatchValues(DispatchEntity(d.value, l.value))];
              InsertOutcome(st.fails, INSERT_DISPATCH, vals, old(st.Content()), st.Content(),
                            Inserted(st.fails, INSERT_DISPATCH, vals), err)
  {
    if d.Some? && l.Some? {
      var ent := DispatchEntity(d.value, l.value);
      SchemaWellFormed(Dispatches);
      var n;
      n, err := InsertRows(st, Dispatches, DISPATCH_ENTITY_KEYS, [DispatchValues(ent)]);
      return;
    }
    return None;
  }

  /**
   * Writing a dispatch's row: a new id gains the row, which reads back as the
   * dispatch; an id already stored keeps its row (INSERT OR IGNORE). Either
   * way a row of the id is stored, and no other table changes.
   */
  lemma CreatedDispatchIsFound(db: Db, d: DispatchMeta, l: LatticeMeta)
    ensures var e := DispatchEntity(d, l);
            var row := ZipRow(DISPATCH_ENTITY_KEYS, DispatchValues(e));
            var after := RunAll(db, INSERT_DISPATCH, [DispatchValues(e)]);
            ((forall r :: r in db.dispatches ==> !IsDispatch(r, d.dispatchId)) ==>
               after.dispatches == db.dispatches + [row] && StoredDispatch(after, e.(l := StoredLattice(l))))
            && ((exists r :: r in db.dispatches && IsDispatch(r, d.dispatchId)) ==> after.dispatches == db.dispatches)
            && (exists r :: r in after.dispatches && IsDispatch(r, d.dispatchId))
            && after.electrons == db.electrons && after.edges == db.edges && after.assets == db.assets
            && after.links == db.links
  {
    var e := DispatchEntity(d, l);
    var vals := DispatchValues(e);
    var row := ZipRow(DISPATCH_ENTITY_KEYS, vals);
    SchemaWellFormed(Dispatches);
    ZipRowGet(DISPATCH_ENTITY_KEYS, vals, 0);
    assert IsDispatch(row, d.dispatchId);
    assert [] + [vals] == [vals];
    RunAllAppend(db, INSERT_DISPATCH, [], vals);
    var after := RunAll(db, INSERT_DISPATCH, [vals]);
    if forall r :: r in db.dispatches ==> !IsDispatch(r, d.dispatchId) {
      assert !Collides(db.dispatches, row, Some(DISPATCH_TABLE_ID)) by {
        forall i | 0 <= i < |db.dispatches| ensures Get(db.dispatches[i], DISPATCH_TABLE_ID) != Get(row, DISPATCH_TABLE_ID) {
          assert db.dispatches[i] in db.dispatches;
        }
      }
      StoredDispatchReadsBack(e);
      assert row in after.dispatches;
    } else {
      var r :| r in db.dispatches && IsDispatch(r, d.dispatchId);
      var i :| 0 <= i < |db.dispatches| && db.dispatches[i] == r;
      assert Collides(db.dispatches, row, Some(DISPATCH_TABLE_ID));
    }
  }

  // ---------------------------------------------------------------------
  // Updating and deleting

  /** The columns UpdateDispatch sets: the status, then each time that is given (non-empty). */
  function DispatchUpdates(status: string, startTime: string, endTime: string): (kvs: seq<KeyValue>)
    ensures |kvs| > 0 && kvs[0] == KeyValue(DISPATCH_TABLE_STATUS, Str(status))
  {
    [KeyValue(DISPATCH_TABLE_STATUS, Str(status))]
    + (if |startTime| > 0 then [KeyValue(DISPATCH_TABLE_START_TIME, Str(startTime))] else [])
    + (if |endTime| > 0 then [KeyValue(DISPATCH_TABLE_END_TIME, Str(endTime))] else [])
  }

  /** The filter selecting one dispatch's row. */
  function IdFilter(dispatchId: string): seq<KeyValue>
  {
    [KeyValue(DISPATCH_TABLE_ID, Str(dispatchId))]
  }

  /** The update sets three distinct columns at most. */
  lemma DispatchUpdatesDistinct(status: string, startTime: string, endTime: string)
    ensures Distinct(Keys(DispatchUpdates(status, startTime, endTime)))
    ensures AllIdents(Keys(DispatchUpdates(status, startTime, endTime))) && AllIdents(Keys(IdFilter("")))
  {
  }

  /** Persists a status report of one dispatch (UpdateDispatch). */
  method UpdateDispatch(st: Store, dispatchId: string, status: string, startTime: string, endTime: string)
    returns (err: Option<ApiError>)
    modifies st
    ensures var s := UpdateSet(Dispatches, Keys(DispatchUpdates(status, startTime, endTime)), Keys(IdFilter(dispatchId)));
            var args := ValuesOf(DispatchUpdates(status, startTime, endTime)) + ValuesOf(IdFilter(dispatchId));
            (err.None? <==> !st.fails(Preparing(s)) && !st.fails(Executing(s, args)))
            && (err.None? ==> st.Content() == Run(old(st.Content()), s, args))
            && (err.Some? ==> err.value == ENGINE_FAILURE && st.Content() == old(st.Content()))
  {
    var where := [KeyValue(DISPATCH_TABLE_ID, Str(dispatchId))];
    var update := [KeyValue(DISPATCH_TABLE_STATUS, Str(status))];
    if |startTime| > 0 {
      update := update + [KeyValue(DISPATCH_TABLE_START_TIME, Str(startTime))];
    }
    if |endTime| > 0 {
      update := update + [KeyValue(DISPATCH_TABLE_END_TIME, Str(endTime))];
    }
    assert update == DispatchUpdates(status, startTime, endTime);
    DispatchUpdatesDistinct(status, startTime, endTime);
    assert Keys(where) == Keys(IdFilter(""));
    err := UpdateTable(st, Dispatches, update, where);
  }

  /**
   * A status report of dispatch d: the rows of id d get the new status, and
   * each time that is given; every other row and every other table is left
   * as it was.
   */
  lemma DispatchUpdateEffect(db: Db, dispatchId: string, status: string, startTime: string, endTime: string, i: int)
    requires 0 <= i < |db.dispatches|
    ensures var update := DispatchUpdates(status, startTime, endTime);
            var after := Run(db, UpdateSet(Dispatches, Keys(update), Keys(IdFilter(dispatchId))),
                             ValuesOf(update) + ValuesOf(IdFilter(dispatchId)));
            var r := db.dispatches[i];
            |after.dispatches| == |db.dispatches|
            && (forall t :: t != Dispatches ==> after.Rows(t) == db.Rows(t))
            && (!IsDispatch(r, dispatchId) ==> after.dispatches[i] == r)
            && (IsDispatch(r, dispatchId) ==>
                  Get(after.dispatches[i], DISPATCH_TABLE_STATUS) == Str(status)
                  && Get(after.dispatches[i], DISPATCH_TABLE_START_TIME)
                     == (if |startTime| > 0 then Str(startTime) else Get(r, DISPATCH_TABLE_START_TIME))
                  && Get(after.dispatches[i], DISPATCH_TABLE_END_TIME)
                     == (if |endTime| > 0 then Str(endTime) else Get(r, DISPATCH_TABLE_END_TIME)))
  {
    var update := DispatchUpdates(status, startTime, endTime);
    var where := IdFilter(dispatchId);
    DispatchUpdatesDistinct(status, startTime, endTime);
    IdFilterHolds(db.dispatches[i], dispatchId);
    UpdateEffect(db, Dispatches, update, where, i, DISPATCH_TABLE_STATUS);
    UpdateEffect(db, Dispatches, update, where, i, DISPATCH_TABLE_START_TIME);
    UpdateEffect(db, Dispatches, update, where, i, DISPATCH_TABLE_END_TIME);
    // the position of each given time among the updated columns
    var endAt := if |startTime| > 0 then 2 else 1;
    if |startTime| > 0 {
      assert update[1].key == DISPATCH_TABLE_START_TIME;
    }
    if |endTime| > 0 {
      assert update[endAt].key == DISPATCH_TABLE_END_TIME;
    }
  }

  /** A row passes the id filter exactly when it is the dispatch's row. */
  lemma IdFilterHolds(r: Row, dispatchId: string)
    ensures (forall k :: 0 <= k < |IdFilter(dispatchId)| ==> EqHolds(r, IdFilter(dispatchId)[k].key, IdFilter(dispatchId)[k].value))
            <==> IsDispatch(r, dispatchId)
  {
    var w := IdFilter(dispatchId);
    assert EqHolds(r, w[0].key, w[0].value) <==> IsDispatch(r, dispatchId);
  }

  /** A status report leaves every column other than the status and the two times as it was. */
  lemma DispatchUpdateKeeps(db: Db, dispatchId: string, status: string, startTime: string, endTime: string, i: int, c: string)
    requires 0 <= i < |db.dispatches|
    requires c != DISPATCH_TABLE_STATUS && c != DISPATCH_TABLE_START_TIME && c != DISPATCH_TABLE_END_TIME
    ensures var update := DispatchUpdates(status, startTime, endTime);
            var after := Run(db, UpdateSet(Dispatches, Keys(update), Keys(IdFilter(dispatchId))),
                             ValuesOf(update) + ValuesOf(IdFilter(dispatchId)));
            Get(after.dispatches[i], c) == Get(db.dispatches[i], c)
  {
    DispatchUpdatesDistinct(status, startTime, endTime);
    UpdateEffect(db, Dispatches, DispatchUpdates(status, startTime, endTime), IdFilter(dispatchId), i, c);
  }

  /** The filter of DeleteDispatch: the id and the root id, both equal to the argument. */
  function DeleteFilter(dispatchId: string): seq<KeyValue>
  {
    [KeyValue(DISPATCH_TABLE_ID, Str(dispatchId)), KeyValue(DISPATCH_TABLE_ROOT_ID, Str(dispatchId))]
  }

  /** Deletes the dispatch rows whose id and root id are both the argument (DeleteDispatch). */
  method DeleteDispatch(st: Store, dispatchId: string) returns (err: Option<ApiError>)
    modifies st
    ensures var s := DeleteFrom(Dispatches, Keys(DeleteFilter(dispatchId)), []);
            var args := ValuesOf(DeleteFilter(dispatchId));
            (err.None? <==> !st.fails(Preparing(s)) && !st.fails(Executing(s, args)))
            && (err.None? ==> st.Content() == Run(old(st.Content()), s, args))
            && (err.Some? ==> err.value == ENGINE_FAILURE && st.Content() == old(st.Content()))
  {
    var f := new Filters();
    f.AddEq(DISPATCH_TABLE_ID, Str(dispatchId));
    f.AddEq(DISPATCH_TABLE_ROOT_ID, Str(dispatchId));
    assert f.eq == DeleteFilter(dispatchId) && f.like == [] && f.limit == 0;
    assert ParamValues(f.eq, f.like, f.limit, f.offset) == ValuesOf(DeleteFilter(dispatchId));
    assert Keys(f.eq) == [DISPATCH_TABLE_ID, DISPATCH_TABLE_ROOT_ID];
    err := DeleteEntities(st, Dispatches, f);
  }

  /**
   * DeleteDispatch removes exactly the rows whose id AND root id are the
   * argument: a sub-dispatch (root id d, id of its own) stays, and no other
   * table changes.
   */
  lemma DeleteDispatchEffect(db: Db, dispatchId: string)
    ensures var after := Run(db, DeleteFrom(Dispatches, Keys(DeleteFilter(dispatchId)), []), ValuesOf(DeleteFilter(dispatchId)));
            (forall r :: r in after.dispatches <==>
                           r in db.dispatches && !(IsDispatch(r, dispatchId) && Get(r, DISPATCH_TABLE_ROOT_ID) == Str(dispatchId)))
            && after.electrons == db.electrons && after.edges == db.edges && after.assets == db.assets
            && after.links == db.links
  {
    var w := DeleteFilter(dispatchId);
    DeleteEffect(db, Dispatches, w);
    forall r ensures (forall k :: 0 <= k < |w| ==> EqHolds(r, w[k].key, w[k].value))
                     <==> IsDispatch(r, dispatchId) && Get(r, DISPATCH_TABLE_ROOT_ID) == Str(dispatchId)
    {
      if IsDispatch(r, dispatchId) && Get(r, DISPATCH_TABLE_ROOT_ID) == Str(dispatchId) {
        assert forall k :: 0 <= k < |w| ==> EqHolds(r, w[k].key, w[k].value);
      } else {
        assert !EqHolds(r, w[0].key, w[0].value) || !EqHolds(r, w[1].key, w[1].value);
      }
    }
    var after := Run(db, DeleteFrom(Dispatches, Keys(w), []), ValuesOf(w));
    assert after.Rows(Electrons) == db.Rows(Electrons) && after.Rows(Edges) == db.Rows(Edges);
    assert after.Rows(Assets) == db.Rows(Assets) && after.Rows(AssetLinks) == db.Rows(AssetLinks);
  }
}
