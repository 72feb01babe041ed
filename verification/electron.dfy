/**
 * Electrons: the row each node of a dispatch is stored as, the reads of one
 * node's or all of a dispatch's metadata, the status update, and the eight
 * asset slots of an electron, registered as assets and linked to the node.
 */
module Electrons {
  import opened Wrappers
  import opened Text
  import opened Tables
  import opened SqlValues
  import opened RowOrder
  import opened Templates
  import opened Database
  import opened ApiErrors
  import opened Environment
  import opened AssetModels
  import opened ElectronModels
  import opened Crud
  import opened Assets
  import opened AssetLinks

  /** A row of the electron table: the metadata of node `nodeId` of dispatch `parentDispatchId`. */
  datatype ElectronEntity = ElectronEntity(parentDispatchId: string, nodeId: int, meta: ElectronMeta)

  /** A nullable timestamp column: an absent time is NULL. */
  function TimeValue(t: Option<Time>): (v: Value)
    ensures v == Null <==> t.None?
  {
    match t
    case None => Null
    case Some(s) => Str(s)
  }

  /** Scans a nullable timestamp; an integer is a scan error. */
  function ScanTime(v: Value): (r: Option<Option<Time>>)
    ensures r.Some? <==> !v.Int?
    ensures r.Some? ==> TimeValue(r.value) == v
  {
    match v
    case Null => Some(None)
    case Str(s) => Some(Some(s))
    case Int(_) => None
  }

  /** The values written for the columns of ELECTRON_ENTITY_KEYS, in order. */
  function ElectronValues(e: ElectronEntity): (vs: seq<Value>)
    ensures |vs| == |ELECTRON_ENTITY_KEYS|
  {
    var m := e.meta;
    [Str(e.parentDispatchId), Str(m.subdispatchId), Int(e.nodeId), Int(m.taskGroupId), Str(m.name), Str(m.status),
     Str(m.executor), Str(m.executorData), TimeValue(m.startTime), TimeValue(m.endTime)]
  }

  /** The metadata as it reads back: the decoded executor data and the deprecated flag are not stored. */
  function StoredMeta(m: ElectronMeta): ElectronMeta
  {
    m.(executorDataJson := NO_JSON, qelectronDataExists := false)
  }

  /** Scans a result row of the ELECTRON_ENTITY_KEYS columns field by field; a row of the wrong shape is a scan error. */
  function ScanElectron(vs: seq<Value>): (r: Option<ElectronEntity>)
    ensures r.Some? ==> vs == ElectronValues(r.value) && r.value.meta == StoredMeta(r.value.meta)
  {
    if |vs| == 10 && vs[0].Str? && vs[1].Str? && vs[2].Int? && vs[3].Int? && vs[4].Str? && vs[5].Str? && vs[6].Str?
       && vs[7].Str? && ScanTime(vs[8]).Some? && ScanTime(vs[9]).Some?
    then Some(ElectronEntity(vs[0].s, vs[2].i,
                             ElectronMeta(vs[3].i, vs[4].s, vs[1].s, vs[6].s, vs[7].s, NO_JSON, vs[5].s,
                                          ScanTime(vs[8]).value, ScanTime(vs[9]).value, false)))
    else None
  }

  /** A stored electron reads back as itself, less what is not stored. */
  lemma StoredElectronReadsBack(e: ElectronEntity)
    ensures ScanElectron(Project(ZipRow(ELECTRON_ENTITY_KEYS, ElectronValues(e)), ELECTRON_ENTITY_KEYS))
            == Some(e.(meta := StoredMeta(e.meta)))
  {
    SchemaWellFormed(Electrons);
    ProjectZip(ELECTRON_ENTITY_KEYS, ElectronValues(e));
  }

  /** The row belongs to node `nodeId` of dispatch `dispatchId`. */
  predicate IsNode(r: Row, dispatchId: string, nodeId: int)
  {
    Get(r, ELECTRON_TABLE_DISPATCH_ID) == Str(dispatchId) && Get(r, ELECTRON_TABLE_NODE_ID) == Int(nodeId)
  }

  /** Some stored row of the node scans as the node's electron with metadata `meta`. */
  predicate StoredElectron(db: Db, dispatchId: string, nodeId: int, meta: ElectronMeta)
  {
    exists r :: r in db.electrons && IsNode(r, dispatchId, nodeId)
                && ScanElectron(Project(r, ELECTRON_ENTITY_KEYS)) == Some(ElectronEntity(dispatchId, nodeId, meta))
  }

  /** A row of the electron table that scans says which dispatch and node it belongs to. */
  lemma ScannedNode(r: Row, e: ElectronEntity)
    requires ScanElectron(Project(r, ELECTRON_ENTITY_KEYS)) == Some(e)
    ensures IsNode(r, e.parentDispatchId, e.nodeId)
  {
    var vs := Project(r, ELECTRON_ENTITY_KEYS);
    assert vs[0] == Get(r, ELECTRON_TABLE_DISPATCH_ID) && vs[2] == Get(r, ELECTRON_TABLE_NODE_ID);
  }

  // ---------------------------------------------------------------------
  // Reading electrons

  /** The SELECT of GetElectronEntities: the electron columns, filtered, ordered, paged when a limit is set. */
  function EntitiesQuery(eq: seq<KeyValue>, like: seq<KeyValue>, limit: int, sortKey: string, ascending: bool): Query
  {
    SelectFrom(Electrons, ELECTRON_ENTITY_KEYS, Keys(eq), Keys(like), sortKey, ascending, limit > 0)
  }

  /** The electrons the filtered SELECT answers, or None when some row does not scan. */
  function ElectronsRead(db: Db, eq: seq<KeyValue>, like: seq<KeyValue>, limit: int, offset: int, sortKey: string,
                         ascending: bool): Option<seq<ElectronEntity>>
  {
    EntitiesArgs(eq, like, limit, offset, sortKey, ascending);
    ScanAll(Select(db, EntitiesQuery(eq, like, limit, sortKey, ascending), ParamValues(eq, like, limit, offset)), ScanElectron)
  }

  /**
   * Reads the electrons passing the filters, ordered by `sortKey`
   * (GetElectronEntities). Engine and scan errors are 500s.
   */
  method GetElectronEntities(st: Store, f: Filters, sortKey: string, ascending: bool)
    returns (ents: seq<ElectronEntity>, err: Option<ApiError>)
    requires AllIdents(Keys(f.eq)) && AllIdents(Keys(f.like)) && Ident(sortKey)
    ensures var read := ElectronsRead(st.Content(), f.eq, f.like, f.limit, f.offset, sortKey, ascending);
            (err.None? <==> !st.fails(Reading(EntitiesQuery(f.eq, f.like, f.limit, sortKey, ascending),
                                              ParamValues(f.eq, f.like, f.limit, f.offset))) && read.Some?)
            && (err.None? ==> ents == read.value)
    ensures err.Some? ==> err.value == ENGINE_FAILURE && ents == []
  {
    var where := f.RenderTemplate();
    SchemaWellFormed(Electrons);
    var template := GenerateSelectTemplate(ELECTRON_TABLE, ELECTRON_ENTITY_KEYS, where, sortKey, ascending, f.limit > 0);
    var params := f.RenderValues();
    var q := EntitiesQuery(f.eq, f.like, f.limit, sortKey, ascending);
    EntitiesQueryText(Keys(f.eq), Keys(f.like), f.limit, sortKey, ascending);
    EntitiesArgs(f.eq, f.like, f.limit, f.offset, sortKey, ascending);
    var answer := st.Query(template, q, params);
    if answer.None? {
      return [], Some(ENGINE_FAILURE);
    }
    ents, err := ScanRows(answer.value, ScanElectron);
  }

  /** The text GetElectronEntities builds is that of its query, and the query names only plain columns. */
  lemma EntitiesQueryText(eqKeys: seq<string>, likeKeys: seq<string>, limit: int, sortKey: string, ascending: bool)
    requires AllIdents(eqKeys) && AllIdents(likeKeys) && Ident(sortKey)
    ensures var q := SelectFrom(Electrons, ELECTRON_ENTITY_KEYS, eqKeys, likeKeys, sortKey, ascending, limit > 0);
            Readable(q)
            && QueryText(q) == SelectText(ELECTRON_TABLE, ELECTRON_ENTITY_KEYS, WhereText(eqKeys, likeKeys), sortKey, ascending, limit > 0)
  {
    SchemaWellFormed(Electrons);
  }

  /** The rendered values fit the query: one per filter, then LIMIT and OFFSET as integers when a limit is set. */
  lemma EntitiesArgs(eq: seq<KeyValue>, like: seq<KeyValue>, limit: int, offset: int, sortKey: string, ascending: bool)
    ensures var q := EntitiesQuery(eq, like, limit, sortKey, ascending);
            var args := ParamValues(eq, like, limit, offset);
            |args| == QueryArity(q) && LimitsBound(q, args)
  {
  }

  /**
   * The rows GetElectronEntities reads are electrons matching every equality
   * filter, in sort-key order, and no more than a positive limit.
   */
  lemma EntitiesFiltered(db: Db, eq: seq<KeyValue>, limit: int, offset: int, sortKey: string, ascending: bool)
    ensures var q := EntitiesQuery(eq, [], limit, sortKey, ascending);
            var sel := Selected(db, q, ParamValues(eq, [], limit, offset));
            (forall r :: r in sel ==> r in db.electrons && forall k :: 0 <= k < |eq| ==> EqHolds(r, eq[k].key, eq[k].value))
            && Sorted(sel, sortKey, ascending) && (limit > 0 ==> |sel| <= limit)
  {
    var q := EntitiesQuery(eq, [], limit, sortKey, ascending);
    var args := ParamValues(eq, [], limit, offset);
    var conds := Conditions(q, args);
    if limit > 0 {
      SelectedPageRows(db, q, args);
    } else {
      SelectedAllRows(db, q, args);
    }
    forall r, k | r in Selected(db, q, args) && 0 <= k < |eq|
      ensures EqHolds(r, eq[k].key, eq[k].value)
    {
      assert CondHolds(r, conds[k]);
    }
  }

  /** SELECT ... FROM electrons WHERE parent_dispatch_id = ? AND transport_graph_node_id = ? ORDER BY the node id. */
  const NODE_QUERY := SelectFrom(Electrons, ELECTRON_ENTITY_KEYS, [ELECTRON_TABLE_DISPATCH_ID, ELECTRON_TABLE_NODE_ID], [],
                                 ELECTRON_TABLE_NODE_ID, true, false)

  const NOT_FOUND := NewNotFoundError(ERR_NOT_FOUND)

  /** The electrons of one node as read by the node query, or None when some row does not scan. */
  function NodeElectrons(db: Db, dispatchId: string, nodeId: int): Option<seq<ElectronEntity>>
  {
    ScanAll(Select(db, NODE_QUERY, [Str(dispatchId), Int(nodeId)]), ScanElectron)
  }

  /** The node query selects exactly the rows of the node. */
  lemma NodeRows(db: Db, dispatchId: string, nodeId: int)
    ensures forall r :: r in Selected(db, NODE_QUERY, [Str(dispatchId), Int(nodeId)])
                        <==> r in db.electrons && IsNode(r, dispatchId, nodeId)
  {
    var args := [Str(dispatchId), Int(nodeId)];
    var conds := Conditions(NODE_QUERY, args);
    SelectedAllRows(db, NODE_QUERY, args);
    forall r ensures AllHold(r, conds) <==> IsNode(r, dispatchId, nodeId) {
      assert AllHold(r, conds) <==> CondHolds(r, conds[0]) && CondHolds(r, conds[1]);
    }
  }

  /** The electrons scanned from the node query: none exactly when the node has no row, else the first is stored for the node. */
  lemma NodeEntities(db: Db, dispatchId: string, nodeId: int, ents: seq<ElectronEntity>)
    requires NodeElectrons(db, dispatchId, nodeId) == Some(ents)
    ensures |ents| == 0 <==> forall r :: r in db.electrons ==> !IsNode(r, dispatchId, nodeId)
    ensures |ents| > 0 ==> (ents[0].parentDispatchId == dispatchId && ents[0].nodeId == nodeId
                           && StoredElectron(db, dispatchId, nodeId, ents[0].meta))
  {
    var sel := Selected(db, NODE_QUERY, [Str(dispatchId), Int(nodeId)]);
    NodeRows(db, dispatchId, nodeId);
    if |ents| > 0 {
      assert sel[0] in sel;
      ScannedNode(sel[0], ents[0]);
    } else {
      forall r | r in db.electrons ensures !IsNode(r, dispatchId, nodeId) {
        assert r !in sel;
      }
    }
  }

  /**
   * The metadata of one node (GetElectronMetadata): a 404 when the node has no
   * row, a 500 on engine or scan errors, otherwise a stored row's metadata.
   */
  method GetElectronMetadata(st: Store, dispatchId: string, nodeId: int) returns (meta: ElectronMeta, err: Option<ApiError>)
    ensures err == Some(ENGINE_FAILURE) <==>
              st.fails(Reading(NODE_QUERY, [Str(dispatchId), Int(nodeId)])) || NodeElectrons(st.Content(), dispatchId, nodeId).None?
    ensures err == Some(NOT_FOUND) <==>
              !st.fails(Reading(NODE_QUERY, [Str(dispatchId), Int(nodeId)]))
              && forall r :: r in st.Content().electrons ==> !IsNode(r, dispatchId, nodeId)
    ensures err.None? ==> StoredElectron(st.Content(), dispatchId, nodeId, meta)
    ensures err.Some? ==> meta == NO_ELECTRON_META && (err.value == ENGINE_FAILURE || err.value == NOT_FOUND)
  {
    var ents;
    ents, err := ReadNode(st, dispatchId, nodeId);
    var args := [Str(dispatchId), Int(nodeId)];
    if err.Some? {
      if !st.fails(Reading(NODE_QUERY, args)) {
        NodeRowsScanFailure(st.Content(), dispatchId, nodeId);
      }
      return NO_ELECTRON_META, err;
    }
    NodeEntities(st.Content(), dispatchId, nodeId, ents);
    if |ents| == 0 {
      return NO_ELECTRON_META, Some(NOT_FOUND);
    }
    meta := ents[0].meta;
  }

  /** The read of GetElectronMetadata: the electrons filtered on the dispatch and the node, by node id. */
  method ReadNode(st: Store, dispatchId: string, nodeId: int) returns (ents: seq<ElectronEntity>, err: Option<ApiError>)
    ensures var scanned := NodeElectrons(st.Content(), dispatchId, nodeId);
            (err.None? <==> !st.fails(Reading(NODE_QUERY, [Str(dispatchId), Int(nodeId)])) && scanned.Some?)
            && (err.None? ==> ents == scanned.value)
    ensures err.Some? ==> err.value == ENGINE_FAILURE && ents == []
  {
    var f := new Filters();
    f.AddEq(ELECTRON_TABLE_DISPATCH_ID, Str(dispatchId));
    f.AddEq(ELECTRON_TABLE_NODE_ID, Int(nodeId));
    assert f.eq == NodeFilter(dispatchId, nodeId) && f.like == [] && f.limit == 0;
    NodeFilterQuery(dispatchId, nodeId, f.offset);
    ElectronColumnIdents();
    NodeFilterRead(st.Content(), dispatchId, nodeId, f.offset);
    ents, err := GetElectronEntities(st, f, ELECTRON_TABLE_NODE_ID, true);
  }

  /** The node filter, rendered, is the node query with its arguments. */
  lemma NodeFilterQuery(dispatchId: string, nodeId: int, offset: int)
    ensures EntitiesQuery(NodeFilter(dispatchId, nodeId), [], 0, ELECTRON_TABLE_NODE_ID, true) == NODE_QUERY
    ensures ParamValues(NodeFilter(dispatchId, nodeId), [], 0, offset) == [Str(dispatchId), Int(nodeId)]
    ensures AllIdents(Keys(NodeFilter(dispatchId, nodeId))) && AllIdents(Keys([]))
  {
    ElectronColumnIdents();
    assert Keys(NodeFilter(dispatchId, nodeId)) == NODE_QUERY.eqCols;
  }

  /** Reading through the node filter answers what the node query answers. */
  lemma NodeFilterRead(db: Db, dispatchId: string, nodeId: int, offset: int)
    ensures ElectronsRead(db, NodeFilter(dispatchId, nodeId), [], 0, offset, ELECTRON_TABLE_NODE_ID, true)
            == NodeElectrons(db, dispatchId, nodeId)
  {
    NodeFilterQuery(dispatchId, nodeId, offset);
  }

  /** The dispatch filter, rendered, is the dispatch query with its argument. */
  lemma DispatchFilterQuery(dispatchId: string, offset: int)
    ensures EntitiesQuery([KeyValue(ELECTRON_TABLE_DISPATCH_ID, Str(dispatchId))], [], 0, ELECTRON_TABLE_NODE_ID, true)
            == DISPATCH_QUERY
    ensures ParamValues([KeyValue(ELECTRON_TABLE_DISPATCH_ID, Str(dispatchId))], [], 0, offset) == [Str(dispatchId)]
    ensures AllIdents(Keys([KeyValue(ELECTRON_TABLE_DISPATCH_ID, Str(dispatchId))])) && AllIdents(Keys([]))
  {
    ElectronColumnIdents();
    assert Keys([KeyValue(ELECTRON_TABLE_DISPATCH_ID, Str(dispatchId))]) == DISPATCH_QUERY.eqCols;
  }

  /** Reading through the dispatch filter answers what the dispatch query answers. */
  lemma DispatchFilterRead(db: Db, dispatchId: string, offset: int)
    ensures ElectronsRead(db, [KeyValue(ELECTRON_TABLE_DISPATCH_ID, Str(dispatchId))], [], 0, offset,
                          ELECTRON_TABLE_NODE_ID, true) == DispatchElectrons(db, dispatchId)
  {
    DispatchFilterQuery(dispatchId, offset);
  }

  /** A node without rows reads as an empty answer, which always scans. */
  lemma NodeRowsScanFailure(db: Db, dispatchId: string, nodeId: int)
    requires NodeElectrons(db, dispatchId, nodeId).None?
    ensures exists r :: r in db.electrons && IsNode(r, dispatchId, nodeId)
  {
    var sel := Selected(db, NODE_QUERY, [Str(dispatchId), Int(nodeId)]);
    NodeRows(db, dispatchId, nodeId);
    assert |sel| > 0;
    assert sel[0] in sel;
  }

  /** SELECT ... FROM electrons WHERE parent_dispatch_id = ? ORDER BY the node id. */
  const DISPATCH_QUERY := SelectFrom(Electrons, ELECTRON_ENTITY_KEYS, [ELECTRON_TABLE_DISPATCH_ID], [],
                                     ELECTRON_TABLE_NODE_ID, true, false)

  /** The electrons of a dispatch as read by the dispatch query, or None when some row does not scan. */
  function DispatchElectrons(db: Db, dispatchId: string): Option<seq<ElectronEntity>>
  {
    ScanAll(Select(db, DISPATCH_QUERY, [Str(dispatchId)]), ScanElectron)
  }

  /** The dispatch query selects exactly the rows of the dispatch, in ascending node order. */
  lemma DispatchRows(db: Db, dispatchId: string)
    ensures var sel := Selected(db, DISPATCH_QUERY, [Str(dispatchId)]);
            (forall r :: r in sel <==> r in db.electrons && Get(r, ELECTRON_TABLE_DISPATCH_ID) == Str(dispatchId))
            && Sorted(sel, ELECTRON_TABLE_NODE_ID, true)
  {
    var args := [Str(dispatchId)];
    var conds := Conditions(DISPATCH_QUERY, args);
    SelectedAllRows(db, DISPATCH_QUERY, args);
    forall r ensures AllHold(r, conds) <==> Get(r, ELECTRON_TABLE_DISPATCH_ID) == Str(dispatchId) {
      assert AllHold(r, conds) <==> CondHolds(r, conds[0]);
    }
  }

  /** Each electron read for a dispatch is a stored electron of that dispatch. */
  lemma DispatchElectronsStored(db: Db, dispatchId: string)
    requires DispatchElectrons(db, dispatchId).Some?
    ensures var es := DispatchElectrons(db, dispatchId).value;
            forall i :: 0 <= i < |es| ==> (es[i].parentDispatchId == dispatchId
                                          && StoredElectron(db, dispatchId, es[i].nodeId, es[i].meta))
  {
    var es := DispatchElectrons(db, dispatchId).value;
    var sel := Selected(db, DISPATCH_QUERY, [Str(dispatchId)]);
    DispatchRows(db, dispatchId);
    forall i | 0 <= i < |es|
      ensures es[i].parentDispatchId == dispatchId && StoredElectron(db, dispatchId, es[i].nodeId, es[i].meta)
    {
      assert sel[i] in sel;
      ScannedNode(sel[i], es[i]);
    }
  }

  /** The electrons of a dispatch come in ascending node order. */
  lemma DispatchElectronsOrdered(db: Db, dispatchId: string)
    requires DispatchElectrons(db, dispatchId).Some?
    ensures var es := DispatchElectrons(db, dispatchId).value;
            forall i, j :: 0 <= i < j < |es| ==> es[i].nodeId <= es[j].nodeId
  {
    var es := DispatchElectrons(db, dispatchId).value;
    var sel := Selected(db, DISPATCH_QUERY, [Str(dispatchId)]);
    DispatchRows(db, dispatchId);
    forall i, j | 0 <= i < j < |es|
      ensures es[i].nodeId <= es[j].nodeId
    {
      ScannedNode(sel[i], es[i]);
      ScannedNode(sel[j], es[j]);
      assert InOrder(sel[i], sel[j], ELECTRON_TABLE_NODE_ID, true);
    }
  }

  /** Every stored row of the dispatch is read as one of its electrons. */
  lemma DispatchElectronsComplete(db: Db, dispatchId: string)
    requires DispatchElectrons(db, dispatchId).Some?
    ensures var es := DispatchElectrons(db, dispatchId).value;
            forall r :: r in db.electrons && Get(r, ELECTRON_TABLE_DISPATCH_ID) == Str(dispatchId) ==>
                          exists i :: 0 <= i < |es| && Project(r, ELECTRON_ENTITY_KEYS) == ElectronValues(es[i])
  {
    var es := DispatchElectrons(db, dispatchId).value;
    var sel := Selected(db, DISPATCH_QUERY, [Str(dispatchId)]);
    DispatchRows(db, dispatchId);
    forall r | r in db.electrons && Get(r, ELECTRON_TABLE_DISPATCH_ID) == Str(dispatchId)
      ensures exists i :: 0 <= i < |es| && Project(r, ELECTRON_ENTITY_KEYS) == ElectronValues(es[i])
    {
      var i :| 0 <= i < |sel| && sel[i] == r;
      assert ScanElectron(Project(sel[i], ELECTRON_ENTITY_KEYS)) == Some(es[i]);
    }
  }

  /**
   * When the electron table is rows of other dispatches followed by rows of
   * this one, the dispatch read returns one electron per row of this one.
   */
  lemma DispatchElectronCount(db: Db, dispatchId: string, others: seq<Row>, own: seq<Row>)
    requires db.electrons == others + own && DispatchElectrons(db, dispatchId).Some?
    requires forall r :: r in others ==> Get(r, ELECTRON_TABLE_DISPATCH_ID) != Str(dispatchId)
    requires forall i :: 0 <= i < |own| ==> Get(own[i], ELECTRON_TABLE_DISPATCH_ID) == Str(dispatchId)
    ensures |DispatchElectrons(db, dispatchId).value| == |own|
  {
    var args := [Str(dispatchId)];
    var conds := Conditions(DISPATCH_QUERY, args);
    forall r ensures AllHold(r, conds) <==> Get(r, ELECTRON_TABLE_DISPATCH_ID) == Str(dispatchId) {
      assert AllHold(r, conds) <==> CondHolds(r, conds[0]);
    }
    WhereKeepsOwn(others, own, conds);
    SelectedCount(db, DISPATCH_QUERY, args);
  }

  /** The metadata of every electron of the dispatch, in node order (getAllElectronMeta). */
  method GetAllElectronMeta(st: Store, dispatchId: string) returns (metas: seq<ElectronMeta>, err: Option<ApiError>)
    ensures err.None? <==> !st.fails(Reading(DISPATCH_QUERY, [Str(dispatchId)])) && DispatchElectrons(st.Content(), dispatchId).Some?
    ensures err.None? ==> var es := DispatchElectrons(st.Content(), dispatchId).value;
                          |metas| == |es| && forall i :: 0 <= i < |es| ==> metas[i] == es[i].meta
    ensures err.Some? ==> err.value == ENGINE_FAILURE && metas == []
  {
    var ents;
    ents, err := ReadDispatch(st, dispatchId);
    if err.Some? {
      return [], err;
    }
    metas := MetaOf(ents);
  }

  /** The read of getAllElectronMeta: the electrons filtered on the dispatch, by node id. */
  method ReadDispatch(st: Store, dispatchId: string) returns (ents: seq<ElectronEntity>, err: Option<ApiError>)
    ensures (err.None? <==> !st.fails(Reading(DISPATCH_QUERY, [Str(dispatchId)])) && DispatchElectrons(st.Content(), dispatchId).Some?)
            && (err.None? ==> ents == DispatchElectrons(st.Content(), dispatchId).value)
    ensures err.Some? ==> err.value == ENGINE_FAILURE && ents == []
  {
    var f := new Filters();
    f.AddEq(ELECTRON_TABLE_DISPATCH_ID, Str(dispatchId));
    assert f.eq == [KeyValue(ELECTRON_TABLE_DISPATCH_ID, Str(dispatchId))] && f.like == [] && f.limit == 0;
    DispatchFilterQuery(dispatchId, f.offset);
    ElectronColumnIdents();
    DispatchFilterRead(st.Content(), dispatchId, f.offset);
    ents, err := GetElectronEntities(st, f, ELECTRON_TABLE_NODE_ID, true);
  }

  /** The copy loop of getAllElectronMeta: each entity's metadata, in order. */
  method MetaOf(ents: seq<ElectronEntity>) returns (metas: seq<ElectronMeta>)
    ensures |metas| == |ents| && forall i :: 0 <= i < |ents| ==> metas[i] == ents[i].meta
  {
    metas := seq(|ents|, _ => NO_ELECTRON_META);
    var i := 0;
    while i < |metas|
      invariant 0 <= i <= |metas| == |ents|
      invariant forall k :: 0 <= k < i ==> metas[k] == ents[k].meta
    {
      metas := metas[i := ents[i].meta];
      i := i + 1;
    }
  }

  // ---------------------------------------------------------------------
  // Writing electron metadata

  const INSERT_ELECTRON := InsertInto(Electrons, ELECTRON_ENTITY_KEYS)

  /** Inserts the node's row; absent metadata writes nothing and succeeds (CreateElectronMetadata). */
  method CreateElectronMetadata(st: Store, dispatchId: string, nodeId: int, metadata: Option<ElectronMeta>)
    returns (err: Option<ApiError>)
    modifies st
    ensures metadata.None? ==> err.None? && st.Content() == old(st.Content())
    ensures metadata.Some? ==>
              var vals := [ElectronValues(ElectronEntity(dispatchId, nodeId, metadata.value))];
              InsertOutcome(st.fails, INSERT_ELECTRON, vals, old(st.Content()), st.Content(),
                            Inserted(st.fails, INSERT_ELECTRON, vals), err)
  {
    if metadata.Some? {
      var ent := ElectronEntity(dispatchId, nodeId, metadata.value);
      SchemaWellFormed(Electrons);
      var n;
      n, err := InsertRows(st, Electrons, ELECTRON_ENTITY_KEYS, [ElectronValues(ent)]);
      return;
    }
    return None;
  }

  /**
   * Once its row is written, the node is found with its metadata (less what
   * is not stored); the row is appended and no other table changes.
   */
  lemma CreatedElectronIsFound(db: Db, dispatchId: string, nodeId: int, meta: ElectronMeta)
    ensures var e := ElectronEntity(dispatchId, nodeId, meta);
            var after := RunAll(db, INSERT_ELECTRON, [ElectronValues(e)]);
            after.electrons == db.electrons + [ZipRow(ELECTRON_ENTITY_KEYS, ElectronValues(e))]
            && StoredElectron(after, dispatchId, nodeId, StoredMeta(meta))
            && forall u :: u != Electrons ==> after.Rows(u) == db.Rows(u)
  {
    var e := ElectronEntity(dispatchId, nodeId, meta);
    var vals := [ElectronValues(e)];
    RunAllAppends(db, Electrons, ELECTRON_ENTITY_KEYS, vals);
    assert ZipAll(ELECTRON_ENTITY_KEYS, vals) == [ZipRow(ELECTRON_ENTITY_KEYS, ElectronValues(e))];
    var row := ZipRow(ELECTRON_ENTITY_KEYS, ElectronValues(e));
    StoredElectronReadsBack(e);
    ScannedNode(row, e.(meta := StoredMeta(meta)));
    var after := RunAll(db, INSERT_ELECTRON, vals);
    assert row in after.electrons;
  }

  /** The columns a status update sets: the status, then each time that is present. */
  function StatusUpdates(u: ElectronStatusUpdate): (kvs: seq<KeyValue>)
    ensures |kvs| > 0 && kvs[0] == KeyValue(ELECTRON_TABLE_STATUS, Str(u.status))
  {
    [KeyValue(ELECTRON_TABLE_STATUS, Str(u.status))]
    + (if u.startTime.Some? then [KeyValue(ELECTRON_TABLE_START_TIME, Str(u.startTime.value))] else [])
    + (if u.endTime.Some? then [KeyValue(ELECTRON_TABLE_END_TIME, Str(u.endTime.value))] else [])
  }

  /** The filter selecting one node's row. */
  function NodeFilter(dispatchId: string, nodeId: int): seq<KeyValue>
  {
    [KeyValue(ELECTRON_TABLE_DISPATCH_ID, Str(dispatchId)), KeyValue(ELECTRON_TABLE_NODE_ID, Int(nodeId))]
  }

  /** Persists a status update of one node (UpdateElectronMetadata). */
  method UpdateElectronMetadata(st: Store, dispatchId: string, nodeId: int, update: ElectronStatusUpdate)
    returns (err: Option<ApiError>)
    modifies st
    ensures var s := UpdateSet(Electrons, Keys(StatusUpdates(update)), Keys(NodeFilter(dispatchId, nodeId)));
            var args := ValuesOf(StatusUpdates(update)) + ValuesOf(NodeFilter(dispatchId, nodeId));
            (err.None? <==> !st.fails(Preparing(s)) && !st.fails(Executing(s, args)))
            && (err.None? ==> st.Content() == Run(old(st.Content()), s, args))
            && (err.Some? ==> err.value == ENGINE_FAILURE && st.Content() == old(st.Content()))
  {
    var updates := [KeyValue(ELECTRON_TABLE_STATUS, Str(update.status))];
    var where := [KeyValue(ELECTRON_TABLE_DISPATCH_ID, Str(dispatchId)), KeyValue(ELECTRON_TABLE_NODE_ID, Int(nodeId))];
    if update.startTime.Some? {
      updates := updates + [KeyValue(ELECTRON_TABLE_START_TIME, Str(update.startTime.value))];
    }
    if update.endTime.Some? {
      updates := updates + [KeyValue(ELECTRON_TABLE_END_TIME, Str(update.endTime.value))];
    }
    assert updates == StatusUpdates(update);
    assert where == NodeFilter(dispatchId, nodeId);
    StatusUpdatesDistinct(update);
    NodeFilterQuery(dispatchId, nodeId, 0);
    err := UpdateTable(st, Electrons, updates, where);
  }

  /** A row passes the node filter exactly when it is the node's row. */
  lemma NodeFilterHolds(r: Row, dispatchId: string, nodeId: int)
    ensures (forall k :: 0 <= k < |NodeFilter(dispatchId, nodeId)| ==>
               EqHolds(r, NodeFilter(dispatchId, nodeId)[k].key, NodeFilter(dispatchId, nodeId)[k].value))
            <==> IsNode(r, dispatchId, nodeId)
  {
    var w := NodeFilter(dispatchId, nodeId);
    if forall k :: 0 <= k < |w| ==> EqHolds(r, w[k].key, w[k].value) {
      assert EqHolds(r, w[0].key, w[0].value) && EqHolds(r, w[1].key, w[1].value);
    }
  }

  /** The update sets three distinct columns at most. */
  lemma StatusUpdatesDistinct(u: ElectronStatusUpdate)
    ensures Distinct(Keys(StatusUpdates(u))) && AllIdents(Keys(StatusUpdates(u)))
    ensures forall c :: c in Keys(StatusUpdates(u)) ==>
                          c == ELECTRON_TABLE_STATUS || c == ELECTRON_TABLE_START_TIME || c == ELECTRON_TABLE_END_TIME
  {
    ElectronColumnIdents();
  }

  /**
   * A status update of node (d, n): the node's rows get the new status, and
   * each new time that is present; every other row and every other table is
   * left as it was.
   */
  lemma StatusUpdateEffect(db: Db, dispatchId: string, nodeId: int, u: ElectronStatusUpdate, i: int)
    requires 0 <= i < |db.electrons|
    ensures var s := UpdateSet(Electrons, Keys(StatusUpdates(u)), Keys(NodeFilter(dispatchId, nodeId)));
            var after := Run(db, s, ValuesOf(StatusUpdates(u)) + ValuesOf(NodeFilter(dispatchId, nodeId)));
            var r := db.electrons[i];
            |after.electrons| == |db.electrons| && (forall t :: t != Electrons ==> after.Rows(t) == db.Rows(t))
            && (!IsNode(r, dispatchId, nodeId) ==> after.electrons[i] == r)
            && (IsNode(r, dispatchId, nodeId) ==>
                  Get(after.electrons[i], ELECTRON_TABLE_STATUS) == Str(u.status)
                  && Get(after.electrons[i], ELECTRON_TABLE_START_TIME)
                     == (if u.startTime.Some? then Str(u.startTime.value) else Get(r, ELECTRON_TABLE_START_TIME))
                  && Get(after.electrons[i], ELECTRON_TABLE_END_TIME)
                     == (if u.endTime.Some? then Str(u.endTime.value) else Get(r, ELECTRON_TABLE_END_TIME)))
  {
    var updates := StatusUpdates(u);
    var where := NodeFilter(dispatchId, nodeId);
    StatusUpdatesDistinct(u);
    NodeFilterHolds(db.electrons[i], dispatchId, nodeId);
    UpdateEffect(db, Electrons, updates, where, i, ELECTRON_TABLE_STATUS);
    UpdateEffect(db, Electrons, updates, where, i, ELECTRON_TABLE_START_TIME);
    UpdateEffect(db, Electrons, updates, where, i, ELECTRON_TABLE_END_TIME);
    // the position of each present time among the updated columns
    var startAt := 1;
    var endAt := if u.startTime.Some? then 2 else 1;
    if u.startTime.Some? {
      assert updates[startAt].key == ELECTRON_TABLE_START_TIME;
    }
    if u.endTime.Some? {
      assert updates[endAt].key == ELECTRON_TABLE_END_TIME;
    }
  }

  /** A status update leaves every column other than the status and the two times as it was. */
  lemma StatusUpdateKeeps(db: Db, dispatchId: string, nodeId: int, u: ElectronStatusUpdate, i: int, c: string)
    requires 0 <= i < |db.electrons|
    requires c != ELECTRON_TABLE_STATUS && c != ELECTRON_TABLE_START_TIME && c != ELECTRON_TABLE_END_TIME
    ensures var s := UpdateSet(Electrons, Keys(StatusUpdates(u)), Keys(NodeFilter(dispatchId, nodeId)));
            var after := Run(db, s, ValuesOf(StatusUpdates(u)) + ValuesOf(NodeFilter(dispatchId, nodeId)));
            Get(after.electrons[i], c) == Get(db.electrons[i], c)
  {
    StatusUpdatesDistinct(u);
    UpdateEffect(db, Electrons, StatusUpdates(u), NodeFilter(dispatchId, nodeId), i, c);
  }
}
