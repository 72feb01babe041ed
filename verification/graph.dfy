/**
 * The transport graph in the store: each dependency of a dispatch is a row
 * of the edge table; a graph is written as its electrons, then their asset
 * slots, then its edges (CreateGraph), and read back as the dispatch's
 * edges by target and its electrons by node id (GetGraph).
 */
module Graphs {
  import opened Wrappers
  import opened Text
  import opened Tables
  import opened SqlValues
  import opened RowOrder
  import opened Templates
  import opened Database
  import opened ApiErrors
  import opened Environment
  import opened ElectronModels
  import opened GraphModels
  import opened Crud
  import opened Electrons
  import opened ElectronSlots

  /** A row of the edge table: edge `edge` of dispatch `dispatchId`. */
  datatype EdgeEntity = EdgeEntity(dispatchId: string, edge: Edge)

  /** The nullable argument index: an absent index is NULL. */
  function ArgIndexValue(a: Option<int>): (v: Value)
    ensures v == Null <==> a.None?
  {
    match a
    case None => Null
    case Some(k) => Int(k)
  }

  /** Scans a nullable argument index; text is a scan error. */
  function ScanArgIndex(v: Value): (r: Option<Option<int>>)
    ensures r.Some? <==> !v.Str?
    ensures r.Some? ==> ArgIndexValue(r.value) == v
  {
    match v
    case Null => Some(None)
    case Int(k) => Some(Some(k))
    case Str(_) => None
  }

  /** The values written for the columns of EDGE_ENTITY_KEYS: the target is the child, the source the parent. */
  function EdgeValues(e: EdgeEntity): (vs: seq<Value>)
    ensures |vs| == |EDGE_ENTITY_KEYS|
  {
    [Str(e.dispatchId), Int(e.edge.target), Int(e.edge.source), Str(e.edge.metadata.paramType),
     Str(e.edge.metadata.name), ArgIndexValue(e.edge.metadata.argIndex)]
  }

  /** Scans a result row of the EDGE_ENTITY_KEYS columns field by field; a row of the wrong shape is a scan error. */
  function ScanEdge(vs: seq<Value>): (r: Option<EdgeEntity>)
    ensures r.Some? ==> vs == EdgeValues(r.value)
  {
    if |vs| == 6 && vs[0].Str? && vs[1].Int? && vs[2].Int? && vs[3].Str? && vs[4].Str? && ScanArgIndex(vs[5]).Some?
    then Some(EdgeEntity(vs[0].s, Edge(vs[2].i, vs[1].i, EdgeMetadata(vs[4].s, vs[3].s, ScanArgIndex(vs[5]).value))))
    else None
  }

  /** A stored edge reads back as itself. */
  lemma StoredEdgeReadsBack(e: EdgeEntity)
    ensures ScanEdge(Project(ZipRow(EDGE_ENTITY_KEYS, EdgeValues(e)), EDGE_ENTITY_KEYS)) == Some(e)
  {
    SchemaWellFormed(Edges);
    ProjectZip(EDGE_ENTITY_KEYS, EdgeValues(e));
  }

  /** Some stored row scans as edge `e` of dispatch `dispatchId`. */
  predicate StoredEdge(db: Db, dispatchId: string, e: Edge)
  {
    exists r :: r in db.edges && ScanEdge(Project(r, EDGE_ENTITY_KEYS)) == Some(EdgeEntity(dispatchId, e))
  }

  /** A row of the edge table that scans says which dispatch, child and parent it belongs to. */
  lemma ScannedEdge(r: Row, e: EdgeEntity)
    requires ScanEdge(Project(r, EDGE_ENTITY_KEYS)) == Some(e)
    ensures Get(r, EDGES_TABLE_DISPATCH) == Str(e.dispatchId)
    ensures Get(r, EDGES_TABLE_CHILD) == Int(e.edge.target) && Get(r, EDGES_TABLE_PARENT) == Int(e.edge.source)
  {
    var vs := Project(r, EDGE_ENTITY_KEYS);
    assert vs[0] == Get(r, EDGES_TABLE_DISPATCH) && vs[1] == Get(r, EDGES_TABLE_CHILD)
           && vs[2] == Get(r, EDGES_TABLE_PARENT);
  }

  /** The edge columns that filters and ORDER BY name are plain identifiers, and the id column is none of the written ones. */
  lemma EdgeColumnIdents()
    ensures Ident(EDGES_TABLE_DISPATCH) && Ident(EDGES_TABLE_CHILD) && Ident(EDGES_TABLE_PARENT) && Ident(EDGES_TABLE_ID)
    ensures EDGES_TABLE_ID !in EDGE_ENTITY_KEYS
  {
  }

  // ---------------------------------------------------------------------
  // Reading edges

  /** The SELECT of GetEdgeEntities: the edge columns, filtered, ordered, paged when a limit is set. */
  function EdgesQuery(eq: seq<KeyValue>, like: seq<KeyValue>, limit: int, sortKey: string, ascending: bool): Query
  {
    SelectFrom(Edges, EDGE_ENTITY_KEYS, Keys(eq), Keys(like), sortKey, ascending, limit > 0)
  }

  /** The rendered values fit the query: one per filter, then LIMIT and OFFSET as integers when a limit is set. */
  lemma EdgesArgs(eq: seq<KeyValue>, like: seq<KeyValue>, limit: int, offset: int, sortKey: string, ascending: bool)
    ensures var q := EdgesQuery(eq, like, limit, sortKey, ascending);
            var args := ParamValues(eq, like, limit, offset);
            |args| == QueryArity(q) && LimitsBound(q, args)
  {
  }

  /** The edges the filtered SELECT answers, or None when some row does not scan. */
  function EdgesRead(db: Db, eq: seq<KeyValue>, like: seq<KeyValue>, limit: int, offset: int, sortKey: string,
                     ascending: bool): Option<seq<EdgeEntity>>
  {
    EdgesArgs(eq, like, limit, offset, sortKey, ascending);
    ScanAll(Select(db, EdgesQuery(eq, like, limit, sortKey, ascending), ParamValues(eq, like, limit, offset)), ScanEdge)
  }

  /** The text GetEdgeEntities builds is that of its query, and the query names only plain columns. */
  lemma EdgesQueryText(eqKeys: seq<string>, likeKeys: seq<string>, limit: int, sortKey: string, ascending: bool)
    requires AllIdents(eqKeys) && AllIdents(likeKeys) && Ident(sortKey)
    ensures var q := SelectFrom(Edges, EDGE_ENTITY_KEYS, eqKeys, likeKeys, sortKey, ascending, limit > 0);
            Readable(q)
            && QueryText(q) == SelectText(EDGES_TABLE, EDGE_ENTITY_KEYS, WhereText(eqKeys, likeKeys), sortKey, ascending, limit > 0)
  {
    SchemaWellFormed(Edges);
  }

  /**
   * Reads the edges passing the filters, ordered by `sortKey`
   * (GetEdgeEntities). Engine and scan errors are 500s.
   */
  method GetEdgeEntities(st: Store, f: Filters, sortKey: string, ascending: bool)
    returns (ents: seq<EdgeEntity>, err: Option<ApiError>)
    requires AllIdents(Keys(f.eq)) && AllIdents(Keys(f.like)) && Ident(sortKey)
    ensures var read := EdgesRead(st.Content(), f.eq, f.like, f.limit, f.offset, sortKey, ascending);
            (err.None? <==> !st.fails(Reading(EdgesQuery(f.eq, f.like, f.limit, sortKey, ascending),
                                              ParamValues(f.eq, f.like, f.limit, f.offset))) && read.Some?)
            && (err.None? ==> ents == read.value)
    ensures err.Some? ==> err.value == ENGINE_FAILURE && ents == []
  {
    var where := f.RenderTemplate();
    SchemaWellFormed(Edges);
    var template := GenerateSelectTemplate(EDGES_TABLE, EDGE_ENTITY_KEYS, where, sortKey, ascending, f.limit > 0);
    var params := f.RenderValues();
    var q := EdgesQuery(f.eq, f.like, f.limit, sortKey, ascending);
    EdgesQueryText(Keys(f.eq), Keys(f.like), f.limit, sortKey, ascending);
    EdgesArgs(f.eq, f.like, f.limit, f.offset, sortKey, ascending);
    var answer := st.Query(template, q, params);
    if answer.None? {
      return [], Some(ENGINE_FAILURE);
    }
    ents, err := ScanRows(answer.value, ScanEdge);
  }

  /** SELECT ... FROM edges WHERE dispatch_id = ? ORDER BY the child (target) node. */
  const ALL_EDGES_QUERY := SelectFrom(Edges, EDGE_ENTITY_KEYS, [EDGES_TABLE_DISPATCH], [], EDGES_TABLE_CHILD, true, false)

  /** The edges of a dispatch as read by the dispatch query, or None when some row does not scan. */
  function DispatchEdges(db: Db, dispatchId: string): Option<seq<EdgeEntity>>
  {
    ScanAll(Select(db, ALL_EDGES_QUERY, [Str(dispatchId)]), ScanEdge)
  }

  /** The dispatch query selects exactly the edge rows of the dispatch, in ascending child order. */
  lemma DispatchEdgeRows(db: Db, dispatchId: string)
    ensures var sel := Selected(db, ALL_EDGES_QUERY, [Str(dispatchId)]);
            (forall r :: r in sel <==> r in db.edges && Get(r, EDGES_TABLE_DISPATCH) == Str(dispatchId))
            && Sorted(sel, EDGES_TABLE_CHILD, true)
  {
    var args := [Str(dispatchId)];
    var conds := Conditions(ALL_EDGES_QUERY, args);
    SelectedAllRows(db, ALL_EDGES_QUERY, args);
    forall r ensures AllHold(r, conds) <==> Get(r, EDGES_TABLE_DISPATCH) == Str(dispatchId) {
      assert AllHold(r, conds) <==> CondHolds(r, conds[0]);
    }
  }

  /** Each edge read for a dispatch is a stored edge of that dispatch. */
  lemma DispatchEdgesStored(db: Db, dispatchId: string)
    requires DispatchEdges(db, dispatchId).Some?
    ensures var es := DispatchEdges(db, dispatchId).value;
            forall i :: 0 <= i < |es| ==> es[i].dispatchId == dispatchId && StoredEdge(db, dispatchId, es[i].edge)
  {
    var es := DispatchEdges(db, dispatchId).value;
    var sel := Selected(db, ALL_EDGES_QUERY, [Str(dispatchId)]);
    DispatchEdgeRows(db, dispatchId);
    forall i | 0 <= i < |es|
      ensures es[i].dispatchId == dispatchId && StoredEdge(db, dispatchId, es[i].edge)
    {
      assert sel[i] in sel;
      ScannedEdge(sel[i], es[i]);
    }
  }

  /** The edges of a dispatch come in ascending target order. */
  lemma DispatchEdgesOrdered(db: Db, dispatchId: string)
    requires DispatchEdges(db, dispatchId).Some?
    ensures var es := DispatchEdges(db, dispatchId).value;
            forall i, j :: 0 <= i < j < |es| ==> es[i].edge.target <= es[j].edge.target
  {
    var es := DispatchEdges(db, dispatchId).value;
    var sel := Selected(db, ALL_EDGES_QUERY, [Str(dispatchId)]);
    DispatchEdgeRows(db, dispatchId);
    forall i, j | 0 <= i < j < |es|
      ensures es[i].edge.target <= es[j].edge.target
    {
      ScannedEdge(sel[i], es[i]);
      ScannedEdge(sel[j], es[j]);
      assert InOrder(sel[i], sel[j], EDGES_TABLE_CHILD, true);
    }
  }

  /** The i-th edge read for a dispatch is the scan of the i-th selected row. */
  lemma DispatchEdgeAt(db: Db, dispatchId: string, i: nat)
    requires DispatchEdges(db, dispatchId).Some? && i < |DispatchEdges(db, dispatchId).value|
    ensures var sel := Selected(db, ALL_EDGES_QUERY, [Str(dispatchId)]);
            i < |sel| && ScanEdge(Project(sel[i], EDGE_ENTITY_KEYS)) == Some(DispatchEdges(db, dispatchId).value[i])
  {
  }

  /** Every stored edge of the dispatch is read. */
  lemma DispatchEdgesComplete(db: Db, dispatchId: string, e: Edge)
    requires DispatchEdges(db, dispatchId).Some? && StoredEdge(db, dispatchId, e)
    ensures exists i :: 0 <= i < |DispatchEdges(db, dispatchId).value| && DispatchEdges(db, dispatchId).value[i].edge == e
  {
    var es := DispatchEdges(db, dispatchId).value;
    var sel := Selected(db, ALL_EDGES_QUERY, [Str(dispatchId)]);
    var r :| r in db.edges && ScanEdge(Project(r, EDGE_ENTITY_KEYS)) == Some(EdgeEntity(dispatchId, e));
    ScannedEdge(r, EdgeEntity(dispatchId, e));
    DispatchEdgeRows(db, dispatchId);
    var i :| 0 <= i < |sel| && sel[i] == r;
    DispatchEdgeAt(db, dispatchId, i);
  }

  /**
   * When the edge table is rows of other dispatches followed by rows of this
   * one, the dispatch read returns one edge per row of this one.
   */
  lemma DispatchEdgeCount(db: Db, dispatchId: string, others: seq<Row>, own: seq<Row>)
    requires db.edges == others + own && DispatchEdges(db, dispatchId).Some?
    requires forall r :: r in others ==> Get(r, EDGES_TABLE_DISPATCH) != Str(dispatchId)
    requires forall i :: 0 <= i < |own| ==> Get(own[i], EDGES_TABLE_DISPATCH) == Str(dispatchId)
    ensures |DispatchEdges(db, dispatchId).value| == |own|
  {
    var args := [Str(dispatchId)];
    var conds := Conditions(ALL_EDGES_QUERY, args);
    forall r ensures AllHold(r, conds) <==> Get(r, EDGES_TABLE_DISPATCH) == Str(dispatchId) {
      assert AllHold(r, conds) <==> CondHolds(r, conds[0]);
    }
    WhereKeepsOwn(others, own, conds);
    SelectedCount(db, ALL_EDGES_QUERY, args);
  }

  /** The edges of a dispatch, by target (getAllEdges); the entities' dispatch ids are dropped. */
  method GetAllEdges(st: Store, dispatchId: string) returns (edges: seq<Edge>, err: Option<ApiError>)
    ensures err.None? <==> !st.fails(Reading(ALL_EDGES_QUERY, [Str(dispatchId)])) && DispatchEdges(st.Content(), dispatchId).Some?
    ensures err.None? ==> EdgesLoaded(st.Content(), dispatchId, edges)
    ensures err.Some? ==> err.value == ENGINE_FAILURE && edges == []
  {
    var f := new Filters();
    f.AddEq(EDGES_TABLE_DISPATCH, Str(dispatchId));
    assert f.eq == [KeyValue(EDGES_TABLE_DISPATCH, Str(dispatchId))] && f.like == [] && f.limit == 0;
    EdgeColumnIdents();
    assert Keys(f.eq) == ALL_EDGES_QUERY.eqCols;
    assert EdgesQuery(f.eq, f.like, f.limit, EDGES_TABLE_CHILD, true) == ALL_EDGES_QUERY;
    assert ParamValues(f.eq, f.like, f.limit, f.offset) == [Str(dispatchId)];
    var ents;
    ents, err := GetEdgeEntities(st, f, EDGES_TABLE_CHILD, true);
    if err.Some? {
      return [], err;
    }
    edges := EdgesOf(ents);
  }

  /** `links` are the edges the dispatch query reads, in its order. */
  predicate EdgesLoaded(db: Db, dispatchId: string, links: seq<Edge>)
  {
    DispatchEdges(db, dispatchId).Some? && |links| == |DispatchEdges(db, dispatchId).value|
    && forall i :: 0 <= i < |links| ==> links[i] == DispatchEdges(db, dispatchId).value[i].edge
  }

  /** The copy loop of getAllEdges: each entity's edge, in order. */
  method EdgesOf(ents: seq<EdgeEntity>) returns (edges: seq<Edge>)
    ensures |edges| == |ents| && forall i :: 0 <= i < |ents| ==> edges[i] == ents[i].edge
  {
    edges := seq(|ents|, _ => Edge(0, 0, EdgeMetadata("", "", None)));
    var i := 0;
    while i < |edges|
      invariant 0 <= i <= |edges| == |ents|
      invariant forall k :: 0 <= k < i ==> edges[k] == ents[k].edge
    {
      edges := edges[i := ents[i].edge];
      i := i + 1;
    }
  }

  /** The edges a getAllEdges read returns are the dispatch's stored edges, by ascending target, and all of them. */
  lemma LoadedEdges(db: Db, dispatchId: string, links: seq<Edge>)
    requires EdgesLoaded(db, dispatchId, links)
    ensures forall i :: 0 <= i < |links| ==> StoredEdge(db, dispatchId, links[i])
    ensures forall i, j :: 0 <= i < j < |links| ==> links[i].target <= links[j].target
    ensures forall e :: StoredEdge(db, dispatchId, e) ==> e in links
  {
    DispatchEdgesStored(db, dispatchId);
    DispatchEdgesOrdered(db, dispatchId);
    var es := DispatchEdges(db, dispatchId).value;
    forall e | StoredEdge(db, dispatchId, e) ensures e in links {
      DispatchEdgesComplete(db, dispatchId, e);
      var i :| 0 <= i < |es| && es[i].edge == e;
      assert links[i] == e;
    }
  }

  // ---------------------------------------------------------------------
  // The edges into and out of one node

  /** SELECT ... FROM edges WHERE dispatch_id = ? AND parent_node_id = ? ORDER BY id. */
  const OUTGOING_QUERY := SelectFrom(Edges, EDGE_ENTITY_KEYS, [EDGES_TABLE_DISPATCH, EDGES_TABLE_PARENT], [],
                                     EDGES_TABLE_ID, true, false)

  /** SELECT ... FROM edges WHERE dispatch_id = ? AND child_node_id = ? ORDER BY id. */
  const INCOMING_QUERY := SelectFrom(Edges, EDGE_ENTITY_KEYS, [EDGES_TABLE_DISPATCH, EDGES_TABLE_CHILD], [],
                                     EDGES_TABLE_ID, true, false)

  function OutgoingEdges(db: Db, dispatchId: string, nodeId: int): Option<seq<EdgeEntity>>
  {
    ScanAll(Select(db, OUTGOING_QUERY, [Str(dispatchId), Int(nodeId)]), ScanEdge)
  }

  function IncomingEdges(db: Db, dispatchId: string, nodeId: int): Option<seq<EdgeEntity>>
  {
    ScanAll(Select(db, INCOMING_QUERY, [Str(dispatchId), Int(nodeId)]), ScanEdge)
  }

  /** Reads the edges leaving node `nodeId` of the dispatch, by id (GetOutgoingEdges). */
  method GetOutgoingEdges(st: Store, dispatchId: string, nodeId: int) returns (ents: seq<EdgeEntity>, err: Option<ApiError>)
    ensures (err.None? <==> !st.fails(Reading(OUTGOING_QUERY, [Str(dispatchId), Int(nodeId)]))
                            && OutgoingEdges(st.Content(), dispatchId, nodeId).Some?)
            && (err.None? ==> ents == OutgoingEdges(st.Content(), dispatchId, nodeId).value)
    ensures err.Some? ==> err.value == ENGINE_FAILURE && ents == []
  {
    var f := new Filters();
    f.AddEq(EDGES_TABLE_DISPATCH, Str(dispatchId));
    f.AddEq(EDGES_TABLE_PARENT, Int(nodeId));
    assert f.eq == [KeyValue(EDGES_TABLE_DISPATCH, Str(dispatchId)), KeyValue(EDGES_TABLE_PARENT, Int(nodeId))];
    assert f.like == [] && f.limit == 0;
    EdgeColumnIdents();
    assert Keys(f.eq) == OUTGOING_QUERY.eqCols;
    assert EdgesQuery(f.eq, f.like, f.limit, EDGES_TABLE_ID, true) == OUTGOING_QUERY;
    assert ParamValues(f.eq, f.like, f.limit, f.offset) == [Str(dispatchId), Int(nodeId)];
    ents, err := GetEdgeEntities(st, f, EDGES_TABLE_ID, true);
  }

  /** Reads the edges entering node `nodeId` of the dispatch, by id (GetIncomingEdges). */
  method GetIncomingEdges(st: Store, dispatchId: string, nodeId: int) returns (ents: seq<EdgeEntity>, err: Option<ApiError>)
    ensures (err.None? <==> !st.fails(Reading(INCOMING_QUERY, [Str(dispatchId), Int(nodeId)]))
                            && IncomingEdges(st.Content(), dispatchId, nodeId).Some?)
            && (err.None? ==> ents == IncomingEdges(st.Content(), dispatchId, nodeId).value)
    ensures err.Some? ==> err.value == ENGINE_FAILURE && ents == []
  {
    var f := new Filters();
    f.AddEq(EDGES_TABLE_DISPATCH, Str(dispatchId));
    f.AddEq(EDGES_TABLE_CHILD, Int(nodeId));
    assert f.eq == [KeyValue(EDGES_TABLE_DISPATCH, Str(dispatchId)), KeyValue(EDGES_TABLE_CHILD, Int(nodeId))];
    assert f.like == [] && f.limit == 0;
    EdgeColumnIdents();
    assert Keys(f.eq) == INCOMING_QUERY.eqCols;
    assert EdgesQuery(f.eq, f.like, f.limit, EDGES_TABLE_ID, true) == INCOMING_QUERY;
    assert ParamValues(f.eq, f.like, f.limit, f.offset) == [Str(dispatchId), Int(nodeId)];
    ents, err := GetEdgeEntities(st, f, EDGES_TABLE_ID, true);
  }

  /**
   * The edge rows this layer writes carry no id column, so ORDER BY id ties
   * everywhere and leaves the matching rows in table order, which is the
   * order they were inserted in, as an autoincrement id would.
   */
  predicate NoEdgeIds(db: Db)
  {
    forall r :: r in db.edges ==> EDGES_TABLE_ID !in r
  }

  /** The outgoing query reads the dispatch's edges whose parent is the node, in the order they were stored. */
  lemma OutgoingInTableOrder(db: Db, dispatchId: string, nodeId: int)
    requires NoEdgeIds(db)
    ensures var args := [Str(dispatchId), Int(nodeId)];
            var sel := Selected(db, OUTGOING_QUERY, args);
            sel == Where(db.edges, Conditions(OUTGOING_QUERY, args))
            && forall r :: r in sel <==>
                 (r in db.edges && Get(r, EDGES_TABLE_DISPATCH) == Str(dispatchId) && Get(r, EDGES_TABLE_PARENT) == Int(nodeId))
  {
    var args := [Str(dispatchId), Int(nodeId)];
    var conds := Conditions(OUTGOING_QUERY, args);
    SortByAbsentKey(Where(db.edges, conds), EDGES_TABLE_ID, true);
    forall r
      ensures AllHold(r, conds) <==> (Get(r, EDGES_TABLE_DISPATCH) == Str(dispatchId) && Get(r, EDGES_TABLE_PARENT) == Int(nodeId))
    {
      assert AllHold(r, conds) <==> CondHolds(r, conds[0]) && CondHolds(r, conds[1]);
    }
  }

  /** The incoming query reads the dispatch's edges whose child is the node, in the order they were stored. */
  lemma IncomingInTableOrder(db: Db, dispatchId: string, nodeId: int)
    requires NoEdgeIds(db)
    ensures var args := [Str(dispatchId), Int(nodeId)];
            var sel := Selected(db, INCOMING_QUERY, args);
            sel == Where(db.edges, Conditions(INCOMING_QUERY, args))
            && forall r :: r in sel <==>
                 (r in db.edges && Get(r, EDGES_TABLE_DISPATCH) == Str(dispatchId) && Get(r, EDGES_TABLE_CHILD) == Int(nodeId))
  {
    var args := [Str(dispatchId), Int(nodeId)];
    var conds := Conditions(INCOMING_QUERY, args);
    SortByAbsentKey(Where(db.edges, conds), EDGES_TABLE_ID, true);
    forall r
      ensures AllHold(r, conds) <==> (Get(r, EDGES_TABLE_DISPATCH) == Str(dispatchId) && Get(r, EDGES_TABLE_CHILD) == Int(nodeId))
    {
      assert AllHold(r, conds) <==> CondHolds(r, conds[0]) && CondHolds(r, conds[1]);
    }
  }

  // ---------------------------------------------------------------------
  // Writing edges

  const INSERT_EDGE := InsertInto(Edges, EDGE_ENTITY_KEYS)

  /** The values createEdges writes, edge i of the dispatch at position i. */
  function EdgeRows(dispatchId: string, edges: seq<Edge>): (vals: seq<seq<Value>>)
    ensures |vals| == |edges| && forall i :: 0 <= i < |edges| ==> vals[i] == EdgeValues(EdgeEntity(dispatchId, edges[i]))
  {
    seq(|edges|, i requires 0 <= i < |edges| => EdgeValues(EdgeEntity(dispatchId, edges[i])))
  }

  /**
   * Inserts one row per edge through one prepared statement, stopping at the
   * first rejected row (createEdges); no edge, no statement.
   */
  method CreateEdges(st: Store, dispatchId: string, edges: seq<Edge>) returns (n: nat, err: Option<ApiError>)
    modifies st
    ensures InsertOutcome(st.fails, INSERT_EDGE, EdgeRows(dispatchId, edges), old(st.Content()), st.Content(), n, err)
  {
    ghost var vals := EdgeRows(dispatchId, edges);
    if |edges| == 0 {
      assert vals[..0] == [];
      return 0, None;
    }
    var ents: seq<DbEntity> := [];
    var i := 0;
    while i < |edges|
      invariant 0 <= i <= |edges| && |ents| == i
      invariant forall k :: 0 <= k < i ==> ents[k] == DbEntity(EDGE_ENTITY_KEYS, vals[k])
    {
      ents := ents + [DbEntity(EDGE_ENTITY_KEYS, EdgeValues(EdgeEntity(dispatchId, edges[i])))];
      i := i + 1;
    }
    assert AllValues(ents) == vals;
    SchemaWellFormed(Edges);
    var template := GenerateInsertTemplate(EDGES_TABLE, ents[0].fields);
    n, err := InsertEntitiesWithTemplate(st, template, Edges, EDGE_ENTITY_KEYS, ents);
  }

  /**
   * After the first `n` edges are written they are all stored, appended to
   * the edge table in order, without an id column; no other table changes.
   */
  lemma CreatedEdgesStored(db: Db, dispatchId: string, edges: seq<Edge>, n: nat)
    requires n <= |edges|
    ensures var vals := EdgeRows(dispatchId, edges)[..n];
            var after := RunAll(db, INSERT_EDGE, vals);
            after.edges == db.edges + ZipAll(EDGE_ENTITY_KEYS, vals)
            && after.dispatches == db.dispatches && after.electrons == db.electrons
            && after.assets == db.assets && after.links == db.links
            && (forall k :: 0 <= k < n ==> StoredEdge(after, dispatchId, edges[k]))
            && (NoEdgeIds(db) ==> NoEdgeIds(after))
  {
    var vals := EdgeRows(dispatchId, edges)[..n];
    RunAllAppends(db, Edges, EDGE_ENTITY_KEYS, vals);
    var after := RunAll(db, INSERT_EDGE, vals);
    assert after.Rows(Dispatches) == db.Rows(Dispatches) && after.Rows(Electrons) == db.Rows(Electrons)
           && after.Rows(Assets) == db.Rows(Assets) && after.Rows(AssetLinks) == db.Rows(AssetLinks);
    var rows := ZipAll(EDGE_ENTITY_KEYS, vals);
    forall k | 0 <= k < n ensures StoredEdge(after, dispatchId, edges[k]) {
      StoredEdgeReadsBack(EdgeEntity(dispatchId, edges[k]));
      assert rows[k] in after.edges;
    }
    EdgeColumnIdents();
    forall k | 0 <= k < n ensures EDGES_TABLE_ID !in rows[k] {
      ZipRowColumns(EDGE_ENTITY_KEYS, vals[k], EDGES_TABLE_ID);
    }
  }

  // ---------------------------------------------------------------------
  // Writing a graph

  /** The electron rows of the graph's nodes, node i at position i. */
  function MetaRows(dispatchId: string, nodes: seq<ElectronSchema>): (vals: seq<seq<Value>>)
    ensures |vals| == |nodes|
    ensures forall i :: 0 <= i < |nodes| ==>
              vals[i] == ElectronValues(ElectronEntity(dispatchId, nodes[i].nodeId, nodes[i].metadata))
  {
    seq(|nodes|, i requires 0 <= i < |nodes| => ElectronValues(ElectronEntity(dispatchId, nodes[i].nodeId, nodes[i].metadata)))
  }

  /**
   * After the first `n` node rows are written, those nodes are all stored
   * with their metadata (less what is not stored), appended to the electron
   * table in order; no other table changes.
   */
  lemma CreatedNodesStored(db: Db, dispatchId: string, nodes: seq<ElectronSchema>, n: nat)
    requires n <= |nodes|
    ensures var vals := MetaRows(dispatchId, nodes)[..n];
            var after := RunAll(db, INSERT_ELECTRON, vals);
            after.electrons == db.electrons + ZipAll(ELECTRON_ENTITY_KEYS, vals)
            && after.dispatches == db.dispatches && after.edges == db.edges
            && after.assets == db.assets && after.links == db.links
            && (forall k :: 0 <= k < n ==> StoredElectron(after, dispatchId, nodes[k].nodeId, StoredMeta(nodes[k].metadata)))
  {
    var vals := MetaRows(dispatchId, nodes)[..n];
    RunAllAppends(db, Electrons, ELECTRON_ENTITY_KEYS, vals);
    var after := RunAll(db, INSERT_ELECTRON, vals);
    assert after.Rows(Dispatches) == db.Rows(Dispatches) && after.Rows(Edges) == db.Rows(Edges)
           && after.Rows(Assets) == db.Rows(Assets) && after.Rows(AssetLinks) == db.Rows(AssetLinks);
    var rows := ZipAll(ELECTRON_ENTITY_KEYS, vals);
    forall k | 0 <= k < n ensures StoredElectron(after, dispatchId, nodes[k].nodeId, StoredMeta(nodes[k].metadata)) {
      var e := ElectronEntity(dispatchId, nodes[k].nodeId, nodes[k].metadata);
      StoredElectronReadsBack(e);
      ScannedNode(rows[k], e.(meta := StoredMeta(e.meta)));
      assert rows[k] in after.electrons;
    }
  }

  /**
   * The first loop of CreateGraph: each node's metadata row through its own
   * CreateElectronMetadata call, stopping at the first error. Since a
   * statement that fails to prepare fails every time, this writes what one
   * batch insert of all the rows would.
   */
  method CreateNodesMetadata(st: Store, dispatchId: string, nodes: seq<ElectronSchema>) returns (err: Option<ApiError>)
    modifies st
    ensures var vals := MetaRows(dispatchId, nodes);
            InsertOutcome(st.fails, INSERT_ELECTRON, vals, old(st.Content()), st.Content(),
                          Inserted(st.fails, INSERT_ELECTRON, vals), err)
  {
    ghost var vals := MetaRows(dispatchId, nodes);
    ghost var before := st.Content();
    var i := 0;
    while i < |nodes|
      invariant 0 <= i <= |nodes|
      invariant i > 0 ==> !st.fails(Preparing(INSERT_ELECTRON))
      invariant i <= Accepted(st.fails, INSERT_ELECTRON, vals)
      invariant st.Content() == RunAll(before, INSERT_ELECTRON, vals[..i])
    {
      err := CreateElectronMetadata(st, dispatchId, nodes[i].nodeId, Some(nodes[i].metadata));
      InsertOneOfBatch(st.fails, INSERT_ELECTRON, vals, i, before, st.Content(), err);
      if err.Some? {
        return;
      }
      i := i + 1;
    }
    assert vals[..i] == vals;
    err := None;
  }

  /** One node's step of a phase: the store after it, the node's assets and the error it ends with. */
  type NodeStep = (ElectronSchema, seq<string>, Db) -> (Db, ElectronAssets, Option<ApiError>)

  /**
   * A phase over the nodes, front to back: each node visited gets the
   * assets its step returns, the first error ends the phase, and later nodes
   * are left as they were.
   */
  function RunPhase(step: NodeStep, nodes: seq<ElectronSchema>, orders: seq<seq<string>>, db: Db)
    : (Db, seq<ElectronSchema>, Option<ApiError>)
    requires |orders| == |nodes|
    decreases |nodes|
  {
    if |nodes| == 0 then (db, [], None)
    else
      var o := step(nodes[0], orders[0], db);
      var first := nodes[0].(assets := o.1);
      if o.2.Some? then (o.0, [first] + nodes[1..], o.2)
      else
        var rest := RunPhase(step, nodes[1..], orders[1..], o.0);
        (rest.0, [first] + rest.1, rest.2)
  }

  /**
   * createElectronAssets as a step of a phase; AssetsPhase only runs it on
   * slot orders, and the other branch is never taken.
   */
  function SlotsStep(fails: Op -> bool, cfg: Config, dispatchId: string): NodeStep
  {
    (e: ElectronSchema, order: seq<string>, db: Db) =>
      if IsSlotOrder(order) then SlotsOutcome(fails, cfg, dispatchId, e, order, db) else (db, e.assets, None)
  }

  /** The asset phase of CreateGraph: each node's slots registered and linked, up to the first error. */
  function AssetsPhase(fails: Op -> bool, cfg: Config, dispatchId: string, nodes: seq<ElectronSchema>,
                       orders: seq<seq<string>>, db: Db): (Db, seq<ElectronSchema>, Option<ApiError>)
    requires |orders| == |nodes| && forall i :: 0 <= i < |orders| ==> IsSlotOrder(orders[i])
  {
    RunPhase(SlotsStep(fails, cfg, dispatchId), nodes, orders, db)
  }

  /**
   * One node of a phase: run from node i with `prefix` already done, when
   * node i's step ends on `after` with `assets` and `err`, the phase ends
   * there if `err` is an error, and otherwise goes on from node i + 1 with
   * node i added to the prefix.
   */
  lemma RunPhaseStep(step: NodeStep, nodes: seq<ElectronSchema>, orders: seq<seq<string>>, i: nat, db: Db,
                     prefix: seq<ElectronSchema>, want: (Db, seq<ElectronSchema>, Option<ApiError>),
                     after: Db, assets: ElectronAssets, err: Option<ApiError>)
    requires |orders| == |nodes| && i < |nodes|
    requires var rest := RunPhase(step, nodes[i..], orders[i..], db);
             want.0 == rest.0 && want.1 == prefix + rest.1 && want.2 == rest.2
    requires var o := step(nodes[i], orders[i], db); o.0 == after && o.1 == assets && o.2 == err
    ensures var done := prefix + [nodes[i].(assets := assets)];
            (err.Some? ==> want.0 == after && want.1 == done + nodes[i + 1..] && want.2 == err)
            && (err.None? ==> var rest := RunPhase(step, nodes[i + 1..], orders[i + 1..], after);
                              want.0 == rest.0 && want.1 == done + rest.1 && want.2 == rest.2)
  {
    assert nodes[i..][0] == nodes[i] && nodes[i..][1..] == nodes[i + 1..];
    assert orders[i..][0] == orders[i] && orders[i..][1..] == orders[i + 1..];
  }

  /**
   * What a phase leaves behind, given what each of its steps does (see
   * StepShape): every node keeps its id and metadata, an error is a 500, and
   * the dispatch, electron and edge tables are as they were.
   */
  lemma {:induction false} RunPhaseKeeps(step: NodeStep, up: ElectronSchema -> ElectronAssets,
                                         nodes: seq<ElectronSchema>, orders: seq<seq<string>>, db: Db)
    requires |orders| == |nodes|
    requires forall k, d :: 0 <= k < |nodes| ==> StepShape(step(nodes[k], orders[k], d), up(nodes[k]), nodes[k], d)
    ensures var (after, out, err) := RunPhase(step, nodes, orders, db);
            |out| == |nodes|
            && (forall k :: 0 <= k < |nodes| ==> out[k] == nodes[k].(assets := out[k].assets))
            && (err.Some? ==> err.value == ENGINE_FAILURE)
            && after.dispatches == db.dispatches && after.electrons == db.electrons && after.edges == db.edges
    decreases |nodes|
  {
    if |nodes| > 0 {
      var o := step(nodes[0], orders[0], db);
      assert StepShape(o, up(nodes[0]), nodes[0], db);
      if o.2.None? {
        RestShaped(step, up, nodes, orders);
        RunPhaseKeeps(step, up, nodes[1..], orders[1..], o.0);
        var rest := RunPhase(step, nodes[1..], orders[1..], o.0);
        assert RunPhase(step, nodes, orders, db).1 == [nodes[0].(assets := o.1)] + rest.1;
      }
    }
  }

  /**
   * With the same steps, a phase that succeeds updates every node, and one
   * that fails stopped at some node.
   */
  lemma {:induction false} RunPhaseUpdates(step: NodeStep, up: ElectronSchema -> ElectronAssets,
                                           nodes: seq<ElectronSchema>, orders: seq<seq<string>>, db: Db)
    requires |orders| == |nodes|
    requires forall k, d :: 0 <= k < |nodes| ==> StepShape(step(nodes[k], orders[k], d), up(nodes[k]), nodes[k], d)
    ensures var (after, out, err) := RunPhase(step, nodes, orders, db);
            (err.Some? ==> exists j :: StoppedAt(up, nodes, out, j))
            && (err.None? ==> |out| == |nodes| && forall k :: 0 <= k < |nodes| ==> out[k].assets == up(nodes[k]))
    decreases |nodes|
  {
    if |nodes| > 0 {
      var o := step(nodes[0], orders[0], db);
      assert StepShape(o, up(nodes[0]), nodes[0], db);
      var out := RunPhase(step, nodes, orders, db).1;
      if o.2.None? {
        RestShaped(step, up, nodes, orders);
        RunPhaseUpdates(step, up, nodes[1..], orders[1..], o.0);
        var rest := RunPhase(step, nodes[1..], orders[1..], o.0);
        assert out == [nodes[0].(assets := o.1)] + rest.1;
        if rest.2.Some? {
          var j :| StoppedAt(up, nodes[1..], rest.1, j);
          assert StoppedAt(up, nodes, out, j + 1);
        }
      } else {
        assert out == [nodes[0].(assets := o.1)] + nodes[1..];
        assert StoppedAt(up, nodes, out, 0);
      }
    }
  }

  /** The steps of a phase keep their shape on the nodes after the first. */
  lemma RestShaped(step: NodeStep, up: ElectronSchema -> ElectronAssets, nodes: seq<ElectronSchema>, orders: seq<seq<string>>)
    requires |orders| == |nodes| > 0
    requires forall k, d :: 0 <= k < |nodes| ==> StepShape(step(nodes[k], orders[k], d), up(nodes[k]), nodes[k], d)
    ensures forall k, d :: 0 <= k < |nodes[1..]| ==>
              StepShape(step(nodes[1..][k], orders[1..][k], d), up(nodes[1..][k]), nodes[1..][k], d)
  {
    forall k, d | 0 <= k < |nodes[1..]|
      ensures StepShape(step(nodes[1..][k], orders[1..][k], d), up(nodes[1..][k]), nodes[1..][k], d)
    {
      assert nodes[1..][k] == nodes[k + 1] && orders[1..][k] == orders[k + 1];
    }
  }

  /**
   * A phase that stopped at node j: the nodes before it are updated, node j
   * may or may not be, and the nodes after it are as they were.
   */
  predicate StoppedAt(up: ElectronSchema -> ElectronAssets, nodes: seq<ElectronSchema>, out: seq<ElectronSchema>, j: int)
  {
    0 <= j < |nodes| == |out|
    && (forall k :: 0 <= k < j ==> out[k].assets == up(nodes[k]))
    && (out[j].assets == nodes[j].assets || out[j].assets == up(nodes[j]))
    && (forall k :: j < k < |nodes| ==> out[k] == nodes[k])
  }

  /**
   * One step's outcome `o`, from `db`, for node `e`: success gives `up`,
   * failure is a 500 with either assets, and the dispatch,
   * electron and edge tables are untouched.
   */
  predicate StepShape(o: (Db, ElectronAssets, Option<ApiError>), up: ElectronAssets, e: ElectronSchema, db: Db)
  {
    (o.2.None? ==> o.1 == up)
    && (o.2.Some? ==> o.2.value == ENGINE_FAILURE && (o.1 == e.assets || o.1 == up))
    && o.0.dispatches == db.dispatches && o.0.electrons == db.electrons && o.0.edges == db.edges
  }

  /** createElectronAssets has the shape RunPhaseShape asks of a step, on slot orders. */
  lemma SlotsStepShape(fails: Op -> bool, cfg: Config, dispatchId: string, e: ElectronSchema, order: seq<string>, db: Db)
    requires IsSlotOrder(order)
    ensures StepShape(SlotsStep(fails, cfg, dispatchId)(e, order, db), UploadedSlots(cfg, dispatchId, e), e, db)
  {
    SlotsOutcomeTables(fails, cfg, dispatchId, e, order, db);
  }

  /** The second loop of CreateGraph: createElectronAssets on each node in place, stopping at the first error. */
  method CreateNodesAssets(cfg: Config, st: Store, dispatchId: string, nodes: seq<ElectronSchema>, orders: seq<seq<string>>)
    returns (out: seq<ElectronSchema>, err: Option<ApiError>)
    requires |orders| == |nodes| && forall i :: 0 <= i < |orders| ==> IsSlotOrder(orders[i])
    modifies st
    ensures var want := AssetsPhase(st.fails, cfg, dispatchId, nodes, orders, old(st.Content()));
            st.Content() == want.0 && out == want.1 && err == want.2
  {
    ghost var step := SlotsStep(st.fails, cfg, dispatchId);
    ghost var want := RunPhase(step, nodes, orders, st.Content());
    var done := [];
    var i := 0;
    assert nodes[i..] == nodes && orders[i..] == orders;
    ghost var rest := want;
    while i < |nodes|
      invariant 0 <= i <= |nodes| && |done| == i
      invariant rest == RunPhase(step, nodes[i..], orders[i..], st.Content())
      invariant want.0 == rest.0 && want.1 == done + rest.1 && want.2 == rest.2
    {
      ghost var cur := st.Content();
      var assets;
      assets, err := CreateElectronAssets(cfg, st, dispatchId, nodes[i], orders[i]);
      ghost var now := st.Content();
      ghost var o := step(nodes[i], orders[i], cur);
      assert o.0 == now && o.1 == assets && o.2 == err;
      RunPhaseStep(step, nodes, orders, i, cur, done, want, now, assets, err);
      done := done + [nodes[i].(assets := assets)];
      if err.Some? {
        return done + nodes[i + 1..], err;
      }
      rest := RunPhase(step, nodes[i + 1..], orders[i + 1..], now);
      assert want.0 == rest.0 && want.1 == done + rest.1 && want.2 == rest.2;
      i := i + 1;
    }
    assert nodes[i..] == [] && orders[i..] == [];
    assert done + [] == done;
    return done, None;
  }

  /** A phase whose every step keeps the rows of table `u` keeps them too. */
  lemma {:induction false} RunPhaseKeepsRows(step: NodeStep, nodes: seq<ElectronSchema>, orders: seq<seq<string>>, db: Db,
                                             u: Table)
    requires |orders| == |nodes|
    requires forall k, d :: 0 <= k < |nodes| ==> RowsKept(d, step(nodes[k], orders[k], d).0, u)
    ensures RowsKept(db, RunPhase(step, nodes, orders, db).0, u)
    decreases |nodes|
  {
    if |nodes| > 0 {
      var o := step(nodes[0], orders[0], db);
      assert RowsKept(db, o.0, u);
      if o.2.None? {
        forall k, d | 0 <= k < |nodes[1..]|
          ensures RowsKept(d, step(nodes[1..][k], orders[1..][k], d).0, u)
        {
          assert nodes[1..][k] == nodes[k + 1] && orders[1..][k] == orders[k + 1];
        }
        RunPhaseKeepsRows(step, nodes[1..], orders[1..], o.0, u);
      }
    }
  }

  /** CreateGraph only adds rows: every row of table `u` stored before is still stored after, whatever the outcome. */
  lemma GraphOutcomeKeepsRows(fails: Op -> bool, cfg: Config, dispatchId: string, g: Graph, orders: seq<seq<string>>,
                              db: Db, u: Table)
    requires GraphOrders(g, orders)
    ensures RowsKept(db, GraphOutcome(fails, cfg, dispatchId, g, orders, db).0, u)
  {
    var metas := Batch(fails, INSERT_ELECTRON, MetaRows(dispatchId, g.nodes), db);
    BatchKeepsRows(fails, Electrons, ELECTRON_ENTITY_KEYS, MetaRows(dispatchId, g.nodes), db, u);
    if metas.1.None? {
      AssetsPhaseKeepsRows(fails, cfg, dispatchId, g.nodes, orders, metas.0, u);
      var assets := AssetsPhase(fails, cfg, dispatchId, g.nodes, orders, metas.0);
      RowsKeptChain(db, metas.0, assets.0, u);
      if assets.2.None? {
        var edges := Batch(fails, INSERT_EDGE, EdgeRows(dispatchId, g.links), assets.0);
        BatchKeepsRows(fails, Edges, EDGE_ENTITY_KEYS, EdgeRows(dispatchId, g.links), assets.0, u);
        RowsKeptChain(db, assets.0, edges.0, u);
      }
    }
  }

  /** The asset phase only adds rows. */
  lemma AssetsPhaseKeepsRows(fails: Op -> bool, cfg: Config, dispatchId: string, nodes: seq<ElectronSchema>,
                             orders: seq<seq<string>>, db: Db, u: Table)
    requires |orders| == |nodes| && forall i :: 0 <= i < |orders| ==> IsSlotOrder(orders[i])
    ensures RowsKept(db, AssetsPhase(fails, cfg, dispatchId, nodes, orders, db).0, u)
  {
    var step := SlotsStep(fails, cfg, dispatchId);
    forall k, d | 0 <= k < |nodes|
      ensures RowsKept(d, step(nodes[k], orders[k], d).0, u)
    {
      SlotsOutcomeKeepsRows(fails, cfg, dispatchId, nodes[k], orders[k], d, u);
    }
    RunPhaseKeepsRows(step, nodes, orders, db, u);
  }

  /** One slot order per node of the graph. */
  predicate GraphOrders(g: Graph, orders: seq<seq<string>>)
  {
    |orders| == |g.nodes| && forall i :: 0 <= i < |orders| ==> IsSlotOrder(orders[i])
  }

  /**
   * What CreateGraph leaves behind: the electron rows, then the asset phase,
   * then the edges, each phase running only when the one before succeeded.
   */
  function GraphOutcome(fails: Op -> bool, cfg: Config, dispatchId: string, g: Graph, orders: seq<seq<string>>, db: Db)
    : (Db, Graph, Option<ApiError>)
    requires GraphOrders(g, orders)
  {
    var metas := Batch(fails, INSERT_ELECTRON, MetaRows(dispatchId, g.nodes), db);
    if metas.1.Some? then (metas.0, g, metas.1)
    else
      var assets := AssetsPhase(fails, cfg, dispatchId, g.nodes, orders, metas.0);
      if assets.2.Some? then (assets.0, g.(nodes := assets.1), assets.2)
      else
        var edges := Batch(fails, INSERT_EDGE, EdgeRows(dispatchId, g.links), assets.0);
        (edges.0, g.(nodes := assets.1), edges.1)
  }

  /**
   * Persists a transport graph (CreateGraph): every node's metadata, then
   * every node's asset slots, updating the nodes in place, then the edges;
   * the first error ends the call. `orders[i]` is the order node i's slots
   * are visited in.
   */
  method CreateGraph(cfg: Config, st: Store, dispatchId: string, g: Graph, orders: seq<seq<string>>)
    returns (tg: Graph, err: Option<ApiError>)
    requires GraphOrders(g, orders)
    modifies st
    ensures var want := GraphOutcome(st.fails, cfg, dispatchId, g, orders, old(st.Content()));
            st.Content() == want.0 && tg == want.1 && err == want.2
  {
    tg := g;
    err := CreateNodesMetadata(st, dispatchId, g.nodes);
    if err.Some? {
      return;
    }
    var nodes;
    nodes, err := CreateNodesAssets(cfg, st, dispatchId, g.nodes, orders);
    tg := g.(nodes := nodes);
    if err.Some? {
      return;
    }
    var n;
    n, err := CreateEdges(st, dispatchId, g.links);
  }

  /**
   * CreateGraph hands back the graph with its links as given and every node
   * keeping its id and metadata; an error is a 500; on success every node
   * carries its uploaded slots; the dispatch table is never written.
   */
  lemma GraphOutcomeShape(fails: Op -> bool, cfg: Config, dispatchId: string, g: Graph, orders: seq<seq<string>>, db: Db)
    requires GraphOrders(g, orders)
    ensures var (after, tg, err) := GraphOutcome(fails, cfg, dispatchId, g, orders, db);
            tg.links == g.links && |tg.nodes| == |g.nodes|
            && (forall k :: 0 <= k < |g.nodes| ==> tg.nodes[k] == g.nodes[k].(assets := tg.nodes[k].assets))
            && (err.Some? ==> err.value == ENGINE_FAILURE)
            && (err.None? ==> forall k :: 0 <= k < |g.nodes| ==> tg.nodes[k].assets == UploadedSlots(cfg, dispatchId, g.nodes[k]))
            && after.dispatches == db.dispatches
  {
    var metas := Batch(fails, INSERT_ELECTRON, MetaRows(dispatchId, g.nodes), db);
    CreatedNodesStored(db, dispatchId, g.nodes, Inserted(fails, INSERT_ELECTRON, MetaRows(dispatchId, g.nodes)));
    if metas.1.None? {
      var up := (e: ElectronSchema) => UploadedSlots(cfg, dispatchId, e);
      AssetsPhaseShaped(fails, cfg, dispatchId, g.nodes, orders, up);
      RunPhaseKeeps(SlotsStep(fails, cfg, dispatchId), up, g.nodes, orders, metas.0);
      RunPhaseUpdates(SlotsStep(fails, cfg, dispatchId), up, g.nodes, orders, metas.0);
      var assets := AssetsPhase(fails, cfg, dispatchId, g.nodes, orders, metas.0);
      CreatedEdgesStored(assets.0, dispatchId, g.links, Inserted(fails, INSERT_EDGE, EdgeRows(dispatchId, g.links)));
    }
  }

  /** Every step of the asset phase has the shape RunPhaseKeeps and RunPhaseUpdates ask for. */
  lemma AssetsPhaseShaped(fails: Op -> bool, cfg: Config, dispatchId: string, nodes: seq<ElectronSchema>,
                          orders: seq<seq<string>>, up: ElectronSchema -> ElectronAssets)
    requires |orders| == |nodes| && forall i :: 0 <= i < |orders| ==> IsSlotOrder(orders[i])
    requires forall e :: up(e) == UploadedSlots(cfg, dispatchId, e)
    ensures forall k, d :: 0 <= k < |nodes| ==>
              StepShape(SlotsStep(fails, cfg, dispatchId)(nodes[k], orders[k], d), up(nodes[k]), nodes[k], d)
  {
    forall k, d | 0 <= k < |nodes|
      ensures StepShape(SlotsStep(fails, cfg, dispatchId)(nodes[k], orders[k], d), up(nodes[k]), nodes[k], d)
    {
      SlotsStepShape(fails, cfg, dispatchId, nodes[k], orders[k], d);
    }
  }

  /**
   * After a CreateGraph that succeeds, every node is stored with its
   * metadata: the node rows are appended to the electron table in the
   * graph's order.
   */
  lemma GraphNodesStored(fails: Op -> bool, cfg: Config, dispatchId: string, g: Graph, orders: seq<seq<string>>, db: Db)
    requires GraphOrders(g, orders) && GraphOutcome(fails, cfg, dispatchId, g, orders, db).2.None?
    ensures var after := GraphOutcome(fails, cfg, dispatchId, g, orders, db).0;
            after.electrons == db.electrons + ZipAll(ELECTRON_ENTITY_KEYS, MetaRows(dispatchId, g.nodes))
            && forall k :: 0 <= k < |g.nodes| ==>
                 StoredElectron(after, dispatchId, g.nodes[k].nodeId, StoredMeta(g.nodes[k].metadata))
  {
    var metaRows := MetaRows(dispatchId, g.nodes);
    var after := GraphOutcome(fails, cfg, dispatchId, g, orders, db).0;
    GraphElectrons(fails, cfg, dispatchId, g, orders, db);
    assert metaRows[..|metaRows|] == metaRows;
    CreatedNodesStored(db, dispatchId, g.nodes, |g.nodes|);
    var written := RunAll(db, INSERT_ELECTRON, metaRows);
    forall k | 0 <= k < |g.nodes|
      ensures StoredElectron(after, dispatchId, g.nodes[k].nodeId, StoredMeta(g.nodes[k].metadata))
    {
      StoredElectronKept(written, after, dispatchId, g.nodes[k].nodeId, StoredMeta(g.nodes[k].metadata));
    }
  }

  /** Whether a node is stored depends on the electron table alone. */
  lemma StoredElectronKept(db: Db, after: Db, dispatchId: string, nodeId: int, meta: ElectronMeta)
    requires StoredElectron(db, dispatchId, nodeId, meta) && after.electrons == db.electrons
    ensures StoredElectron(after, dispatchId, nodeId, meta)
  {
  }

  /** A CreateGraph that succeeds leaves the electron table as its first batch did. */
  lemma GraphElectrons(fails: Op -> bool, cfg: Config, dispatchId: string, g: Graph, orders: seq<seq<string>>, db: Db)
    requires GraphOrders(g, orders) && GraphOutcome(fails, cfg, dispatchId, g, orders, db).2.None?
    ensures GraphOutcome(fails, cfg, dispatchId, g, orders, db).0.electrons
            == RunAll(db, INSERT_ELECTRON, MetaRows(dispatchId, g.nodes)).electrons
  {
    var metaRows := MetaRows(dispatchId, g.nodes);
    var metas := Batch(fails, INSERT_ELECTRON, metaRows, db);
    BatchComplete(fails, INSERT_ELECTRON, metaRows, db);
    var up := (e: ElectronSchema) => UploadedSlots(cfg, dispatchId, e);
    AssetsPhaseShaped(fails, cfg, dispatchId, g.nodes, orders, up);
    RunPhaseKeeps(SlotsStep(fails, cfg, dispatchId), up, g.nodes, orders, metas.0);
    var assets := AssetsPhase(fails, cfg, dispatchId, g.nodes, orders, metas.0);
    var edges := Batch(fails, INSERT_EDGE, EdgeRows(dispatchId, g.links), assets.0);
    BatchKeepsOthers(fails, Edges, EDGE_ENTITY_KEYS, EdgeRows(dispatchId, g.links), assets.0);
    assert edges.0.Rows(Electrons) == assets.0.Rows(Electrons);
    assert GraphOutcome(fails, cfg, dispatchId, g, orders, db).0 == edges.0;
  }

  /**
   * After a CreateGraph that succeeds, every link is stored as an edge of
   * the dispatch: the edge rows are appended to the edge table in the
   * graph's order.
   */
  lemma GraphEdgesStored(fails: Op -> bool, cfg: Config, dispatchId: string, g: Graph, orders: seq<seq<string>>, db: Db)
    requires GraphOrders(g, orders) && GraphOutcome(fails, cfg, dispatchId, g, orders, db).2.None?
    ensures var after := GraphOutcome(fails, cfg, dispatchId, g, orders, db).0;
            after.edges == db.edges + ZipAll(EDGE_ENTITY_KEYS, EdgeRows(dispatchId, g.links))
            && forall k :: 0 <= k < |g.links| ==> StoredEdge(after, dispatchId, g.links[k])
  {
    var metaRows := MetaRows(dispatchId, g.nodes);
    var metas := Batch(fails, INSERT_ELECTRON, metaRows, db);
    CreatedNodesStored(db, dispatchId, g.nodes, Inserted(fails, INSERT_ELECTRON, metaRows));
    var up := (e: ElectronSchema) => UploadedSlots(cfg, dispatchId, e);
    AssetsPhaseShaped(fails, cfg, dispatchId, g.nodes, orders, up);
    RunPhaseKeeps(SlotsStep(fails, cfg, dispatchId), up, g.nodes, orders, metas.0);
    var assets := AssetsPhase(fails, cfg, dispatchId, g.nodes, orders, metas.0);
    var edgeRows := EdgeRows(dispatchId, g.links);
    assert edgeRows[..|edgeRows|] == edgeRows;
    CreatedEdgesStored(assets.0, dispatchId, g.links, |g.links|);
  }

  // ---------------------------------------------------------------------
  // Reading a graph

  /**
   * The graph of a dispatch (GetGraph): its edges by target, then its
   * electrons in node order; either read failing is a 500 and the empty
   * graph. `loadAssets` is passed on to GetAllElectrons, which does not
   * consult it.
   */
  method GetGraph(cfg: Config, st: Store, dispatchId: string, loadAssets: bool, order: seq<string>)
    returns (g: Graph, err: Option<ApiError>)
    requires IsSlotOrder(order)
    ensures err.None? <==> !st.fails(Reading(ALL_EDGES_QUERY, [Str(dispatchId)])) && DispatchEdges(st.Content(), dispatchId).Some?
                           && ElectronsReadable(st.fails, st.Content(), dispatchId)
    ensures err.None? ==> EdgesLoaded(st.Content(), dispatchId, g.links) && ElectronsLoaded(cfg, st.Content(), dispatchId, g.nodes)
    ensures err.Some? ==> err.value == ENGINE_FAILURE && g == Graph([], [])
  {
    var edges;
    edges, err := GetAllEdges(st, dispatchId);
    if err.Some? {
      return Graph([], []), err;
    }
    var electrons;
    electrons, err := GetAllElectrons(cfg, st, dispatchId, loadAssets, order);
    if err.Some? {
      return Graph([], []), err;
    }
    return Graph(electrons, edges), None;
  }

  /**
   * A graph CreateGraph wrote reads back through GetGraph: every link is
   * among the edges read, and every node's metadata (less what is not
   * stored) is among the electrons read.
   */
  lemma CreatedGraphReadBack(fails: Op -> bool, cfg: Config, dispatchId: string, g: Graph, orders: seq<seq<string>>, db: Db,
                             read: Graph)
    requires GraphOrders(g, orders) && GraphOutcome(fails, cfg, dispatchId, g, orders, db).2.None?
    requires var after := GraphOutcome(fails, cfg, dispatchId, g, orders, db).0;
             EdgesLoaded(after, dispatchId, read.links) && ElectronsLoaded(cfg, after, dispatchId, read.nodes)
    ensures forall k :: 0 <= k < |g.links| ==> g.links[k] in read.links
    ensures forall k :: 0 <= k < |g.nodes| ==>
              exists i :: 0 <= i < |read.nodes| && read.nodes[i].metadata == StoredMeta(g.nodes[k].metadata)
  {
    var after := GraphOutcome(fails, cfg, dispatchId, g, orders, db).0;
    GraphEdgesStored(fails, cfg, dispatchId, g, orders, db);
    GraphNodesStored(fails, cfg, dispatchId, g, orders, db);
    LoadedEdges(after, dispatchId, read.links);
    DispatchElectronsComplete(after, dispatchId);
    var es := DispatchElectrons(after, dispatchId).value;
    forall k | 0 <= k < |g.nodes|
      ensures exists i :: 0 <= i < |read.nodes| && read.nodes[i].metadata == StoredMeta(g.nodes[k].metadata)
    {
      var m := StoredMeta(g.nodes[k].metadata);
      var r :| r in after.electrons && IsNode(r, dispatchId, g.nodes[k].nodeId)
               && ScanElectron(Project(r, ELECTRON_ENTITY_KEYS)) == Some(ElectronEntity(dispatchId, g.nodes[k].nodeId, m));
      var i :| 0 <= i < |es| && Project(r, ELECTRON_ENTITY_KEYS) == ElectronValues(es[i]);
      assert ElectronValues(es[i]) == ElectronValues(ElectronEntity(dispatchId, g.nodes[k].nodeId, m));
      assert read.nodes[i].metadata == es[i].meta;
    }
  }

  /** No electron or edge row of the store belongs to the dispatch yet. */
  predicate GraphFresh(db: Db, dispatchId: string)
  {
    (forall r :: r in db.electrons ==> Get(r, ELECTRON_TABLE_DISPATCH_ID) != Str(dispatchId))
    && forall r :: r in db.edges ==> Get(r, EDGES_TABLE_DISPATCH) != Str(dispatchId)
  }

  /** Electron rows written for a dispatch that had none read back one per node. */
  lemma WrittenNodesCount(cfg: Config, db: Db, after: Db, dispatchId: string, nodes: seq<ElectronSchema>,
                          read: seq<ElectronSchema>)
    requires forall r :: r in db.electrons ==> Get(r, ELECTRON_TABLE_DISPATCH_ID) != Str(dispatchId)
    requires after.electrons == db.electrons + ZipAll(ELECTRON_ENTITY_KEYS, MetaRows(dispatchId, nodes))
    requires ElectronsLoaded(cfg, after, dispatchId, read)
    ensures |read| == |nodes|
  {
    var rows := ZipAll(ELECTRON_ENTITY_KEYS, MetaRows(dispatchId, nodes));
    forall k | 0 <= k < |rows| ensures Get(rows[k], ELECTRON_TABLE_DISPATCH_ID) == Str(dispatchId) {
      var e := ElectronEntity(dispatchId, nodes[k].nodeId, nodes[k].metadata);
      StoredElectronReadsBack(e);
      ScannedNode(rows[k], e.(meta := StoredMeta(e.meta)));
    }
    DispatchElectronCount(after, dispatchId, db.electrons, rows);
  }

  /** Edge rows written for a dispatch that had none read back one per link. */
  lemma WrittenLinksCount(db: Db, after: Db, dispatchId: string, links: seq<Edge>, read: seq<Edge>)
    requires forall r :: r in db.edges ==> Get(r, EDGES_TABLE_DISPATCH) != Str(dispatchId)
    requires after.edges == db.edges + ZipAll(EDGE_ENTITY_KEYS, EdgeRows(dispatchId, links))
    requires EdgesLoaded(after, dispatchId, read)
    ensures |read| == |links|
  {
    var rows := ZipAll(EDGE_ENTITY_KEYS, EdgeRows(dispatchId, links));
    forall k | 0 <= k < |rows| ensures Get(rows[k], EDGES_TABLE_DISPATCH) == Str(dispatchId) {
      StoredEdgeReadsBack(EdgeEntity(dispatchId, links[k]));
      ScannedEdge(rows[k], EdgeEntity(dispatchId, links[k]));
    }
    DispatchEdgeCount(after, dispatchId, db.edges, rows);
  }

  /**
   * A graph CreateGraph wrote for a dispatch with no rows yet reads back
   * through GetGraph with as many nodes and as many links as it was written
   * with.
   */
  lemma CreatedGraphCounts(fails: Op -> bool, cfg: Config, dispatchId: string, g: Graph, orders: seq<seq<string>>, db: Db,
                           read: Graph)
    requires GraphOrders(g, orders) && GraphOutcome(fails, cfg, dispatchId, g, orders, db).2.None?
    requires GraphFresh(db, dispatchId)
    requires var after := GraphOutcome(fails, cfg, dispatchId, g, orders, db).0;
             EdgesLoaded(after, dispatchId, read.links) && ElectronsLoaded(cfg, after, dispatchId, read.nodes)
    ensures |read.nodes| == |g.nodes| && |read.links| == |g.links|
  {
    var after := GraphOutcome(fails, cfg, dispatchId, g, orders, db).0;
    GraphNodesStored(fails, cfg, dispatchId, g, orders, db);
    GraphEdgesStored(fails, cfg, dispatchId, g, orders, db);
    WrittenNodesCount(cfg, db, after, dispatchId, g.nodes, read.nodes);
    WrittenLinksCount(db, after, dispatchId, g.links, read.links);
  }
}
