/**
 * Exporting a manifest: a dispatch read back whole, its transport graph
 * first and then its row and seven slots, the graph put in place of the
 * empty one GetDispatch returns (ExportManifest).
 */
module Exporter {
  import opened Wrappers
  import opened SqlValues
  import opened Tables
  import opened Database
  import opened ApiErrors
  import opened Environment
  import opened ElectronModels
  import opened GraphModels
  import opened DispatchModels
  import opened Crud
  import opened Electrons
  import opened ElectronSlots
  import opened Dispatches
  import opened DispatchSlots
  import opened Graphs
  import opened Importer

  /** Every read GetGraph makes goes through: the edge query and each electron's. */
  predicate GraphReadable(fails: Op -> bool, db: Db, dispatchId: string)
  {
    !fails(Reading(ALL_EDGES_QUERY, [Str(dispatchId)])) && DispatchEdges(db, dispatchId).Some?
    && ElectronsReadable(fails, db, dispatchId)
  }

  /**
   * `d` is the manifest ExportManifest builds: the dispatch as GetDispatch
   * reads it, with the dispatch's edges and electrons as GetGraph reads them
   * in place of the empty graph.
   */
  predicate Exported(cfg: Config, db: Db, dispatchId: string, d: DispatchSchema)
  {
    DispatchRead(cfg, db, dispatchId, d.(lattice := d.lattice.(transportGraph := Graph([], []))))
    && EdgesLoaded(db, dispatchId, d.lattice.transportGraph.links)
    && ElectronsLoaded(cfg, db, dispatchId, d.lattice.transportGraph.nodes)
  }

  /**
   * Reads a whole dispatch (ExportManifest): its graph, then its row and
   * slots. A failed read is a 500 and a missing row the 400 "not found";
   * either way the empty schema is returned. The slot maps are visited in
   * `dOrder` and `lOrder`, each electron's slots in `order`.
   */
  method ExportManifest(cfg: Config, st: Store, dispatchId: string, order: seq<string>, dOrder: seq<string>,
                        lOrder: seq<string>) returns (d: DispatchSchema, err: Option<ApiError>)
    requires IsSlotOrder(order) && ScopeOrders(dOrder, lOrder)
    ensures err.None? <==> GraphReadable(st.fails, st.Content(), dispatchId)
                           && DispatchFound(st.fails, st.Content(), dispatchId)
                           && AssetsReadable(st.fails, st.Content(), dispatchId, SCOPE_NODE)
    ensures err == Some(DispatchNotFound(dispatchId)) <==>
              GraphReadable(st.fails, st.Content(), dispatchId)
              && !st.fails(Reading(Dispatches.DISPATCH_QUERY, [Str(dispatchId)]))
              && forall r :: r in st.Content().dispatches ==> !IsDispatch(r, dispatchId)
    ensures err.None? ==> Exported(cfg, st.Content(), dispatchId, d)
    ensures err.Some? ==> d == NO_DISPATCH && (err.value == ENGINE_FAILURE || err.value == DispatchNotFound(dispatchId))
  {
    var g;
    g, err := GetGraph(cfg, st, dispatchId, true, order);
    if err.Some? {
      NotFoundIsNotEngine(dispatchId);
      return NO_DISPATCH, err;
    }
    d, err := GetDispatch(cfg, st, dispatchId, true, dOrder, lOrder);
    if err.Some? {
      return NO_DISPATCH, err;
    }
    d := d.(lattice := d.lattice.(transportGraph := g));
  }

  /** The 400 "not found" is not the 500 of a failed read. */
  lemma NotFoundIsNotEngine(dispatchId: string)
    ensures DispatchNotFound(dispatchId) != ENGINE_FAILURE
  {
  }

  /** Every link of `g` is among those of `read`, and every node's stored metadata among those of `read`'s nodes. */
  predicate ReadBack(g: Graph, read: Graph)
  {
    (forall k :: 0 <= k < |g.links| ==> g.links[k] in read.links)
    && forall k :: 0 <= k < |g.nodes| ==>
         exists i :: 0 <= i < |read.nodes| && read.nodes[i].metadata == StoredMeta(g.nodes[k].metadata)
  }

  /**
   * Importing a manifest under a dispatch id the store has no row of and
   * exporting it again gives back the manifest's metadata (less the decoded
   * executor data, which is not stored), as many nodes and as many links as
   * its graph has, every link of its graph, and every node's metadata (less
   * what is not stored).
   */
  lemma ImportThenExport(fails: Op -> bool, cfg: Config, m: DispatchSchema, dOrder: seq<string>, lOrder: seq<string>,
                         orders: seq<seq<string>>, db: Db, d: DispatchSchema)
    requires ImportOrders(m, dOrder, lOrder, orders) && ImportOutcome(fails, cfg, m, dOrder, lOrder, orders, db).2.None?
    requires forall r :: r in db.dispatches ==> !IsDispatch(r, m.metadata.dispatchId)
    requires GraphFresh(db, m.metadata.dispatchId)
    requires Exported(cfg, ImportOutcome(fails, cfg, m, dOrder, lOrder, orders, db).0, m.metadata.dispatchId, d)
    ensures d.metadata == m.metadata && d.lattice.metadata == StoredLattice(m.lattice.metadata)
    ensures |d.lattice.transportGraph.nodes| == |m.lattice.transportGraph.nodes|
            && |d.lattice.transportGraph.links| == |m.lattice.transportGraph.links|
    ensures ReadBack(m.lattice.transportGraph, d.lattice.transportGraph)
  {
    ImportSucceeded(fails, cfg, m, dOrder, lOrder, orders, db);
    var after := ImportOutcome(fails, cfg, m, dOrder, lOrder, orders, db).0;
    ImportedDispatchStored(fails, cfg, m, dOrder, lOrder, orders, db);
    ExportedMetadata(db, after, m, d);
    var meta := Batch(fails, INSERT_DISPATCH, ManifestRow(m), db);
    var assets := DispatchAssetsOutcome(fails, cfg, m, dOrder, lOrder, meta.0);
    CreatedGraphReadBack(fails, cfg, m.metadata.dispatchId, m.lattice.transportGraph, orders, assets.0,
                         d.lattice.transportGraph);
    FreshBeforeGraph(fails, cfg, m, dOrder, lOrder, db);
    CreatedGraphCounts(fails, cfg, m.metadata.dispatchId, m.lattice.transportGraph, orders, assets.0,
                       d.lattice.transportGraph);
  }

  /** The import's first two phases write no electron or edge row, so a dispatch fresh before is fresh for its graph. */
  lemma FreshBeforeGraph(fails: Op -> bool, cfg: Config, m: DispatchSchema, dOrder: seq<string>, lOrder: seq<string>, db: Db)
    requires ScopeOrders(dOrder, lOrder) && GraphFresh(db, m.metadata.dispatchId)
    ensures var meta := Batch(fails, INSERT_DISPATCH, ManifestRow(m), db);
            GraphFresh(DispatchAssetsOutcome(fails, cfg, m, dOrder, lOrder, meta.0).0, m.metadata.dispatchId)
  {
    var meta := Batch(fails, INSERT_DISPATCH, ManifestRow(m), db);
    BatchKeepsOthers(fails, Dispatches, DISPATCH_ENTITY_KEYS, ManifestRow(m), db);
    assert meta.0.Rows(Electrons) == db.Rows(Electrons) && meta.0.Rows(Edges) == db.Rows(Edges);
    DispatchAssetsTables(fails, cfg, m, dOrder, lOrder, meta.0);
  }

  /**
   * When the dispatch table is the old one plus the manifest's row, and no
   * old row has its id, the row an export reads is that one.
   */
  lemma ExportedMetadata(db: Db, after: Db, m: DispatchSchema, d: DispatchSchema)
    requires forall r :: r in db.dispatches ==> !IsDispatch(r, m.metadata.dispatchId)
    requires after.dispatches
             == db.dispatches + [ZipRow(DISPATCH_ENTITY_KEYS, DispatchValues(DispatchEntity(m.metadata, m.lattice.metadata)))]
    requires d.metadata.dispatchId == m.metadata.dispatchId && StoredDispatch(after, DispatchEntity(d.metadata, d.lattice.metadata))
    ensures d.metadata == m.metadata && d.lattice.metadata == StoredLattice(m.lattice.metadata)
  {
    var e := DispatchEntity(m.metadata, m.lattice.metadata);
    var got := DispatchEntity(d.metadata, d.lattice.metadata);
    var r :| r in after.dispatches && ScanDispatch(Project(r, DISPATCH_ENTITY_KEYS)) == Some(got);
    ScannedDispatch(r, got);
    assert r !in db.dispatches;
    StoredDispatchReadsBack(e);
  }
}
