/**
 * Importing a manifest: a whole dispatch schema written in one go, its
 * metadata row first, then its seven slots under node -1, then its transport
 * graph (ImportManifest). The schema is updated in place with the URIs the
 * asset registrations assign, and the first error ends the import.
 */
module Importer {
  import opened Wrappers
  import opened SqlValues
  import opened Tables
  import opened Database
  import opened ApiErrors
  import opened Environment
  import opened ElectronModels
  import opened GraphModels
  import opened DispatchModels
  import opened Crud
  import opened Electrons
  import opened ElectronSlots
  import opened Dispatches
  import opened DispatchSlots
  import opened Graphs

  /** The one row ImportManifest writes to the dispatch table. */
  function ManifestRow(m: DispatchSchema): seq<seq<Value>>
  {
    [DispatchValues(DispatchEntity(m.metadata, m.lattice.metadata))]
  }

  /** The orders the import visits slot maps and graph nodes in. */
  predicate ImportOrders(m: DispatchSchema, dOrder: seq<string>, lOrder: seq<string>, orders: seq<seq<string>>)
  {
    ScopeOrders(dOrder, lOrder) && GraphOrders(m.lattice.transportGraph, orders)
  }

  /**
   * What ImportManifest leaves behind: the store, the schema as updated in
   * place, and the error the import ended with. Each phase runs only when
   * the one before succeeded.
   */
  function ImportOutcome(fails: Op -> bool, cfg: Config, m: DispatchSchema, dOrder: seq<string>, lOrder: seq<string>,
                         orders: seq<seq<string>>, db: Db): (o: (Db, DispatchSchema, Option<ApiError>))
    requires ImportOrders(m, dOrder, lOrder, orders)
    ensures o.1.metadata == m.metadata && o.1.lattice.metadata == m.lattice.metadata
  {
    var meta := Batch(fails, INSERT_DISPATCH, ManifestRow(m), db);
    if meta.1.Some? then (meta.0, m, meta.1)
    else
      var assets := DispatchAssetsOutcome(fails, cfg, m, dOrder, lOrder, meta.0);
      if assets.2.Some? then assets
      else
        var tg := assets.1.lattice.transportGraph;
        var graph := GraphOutcome(fails, cfg, m.metadata.dispatchId, tg, orders, assets.0);
        (graph.0, assets.1.(lattice := assets.1.lattice.(transportGraph := graph.1)), graph.2)
  }

  /**
   * Writes a manifest (ImportManifest): the dispatch metadata, then the
   * dispatch's slots, then the transport graph, stopping at the first error.
   * `r` is the schema as the caller sees it afterwards: the slots carry the
   * URIs assigned so far, and the graph's nodes theirs.
   */
  method ImportManifest(cfg: Config, st: Store, m: DispatchSchema, dOrder: seq<string>, lOrder: seq<string>,
                        orders: seq<seq<string>>) returns (r: DispatchSchema, err: Option<ApiError>)
    requires ImportOrders(m, dOrder, lOrder, orders)
    modifies st
    ensures var want := ImportOutcome(st.fails, cfg, m, dOrder, lOrder, orders, old(st.Content()));
            st.Content() == want.0 && r == want.1 && err == want.2
  {
    r := m;
    err := CreateDispatchMetadata(st, Some(m.metadata), Some(m.lattice.metadata));
    if err.Some? {
      return;
    }
    r, err := CreateDispatchAssets(cfg, st, m, dOrder, lOrder);
    if err.Some? {
      return;
    }
    var tg;
    tg, err := CreateGraph(cfg, st, m.metadata.dispatchId, r.lattice.transportGraph, orders);
    r := r.(lattice := r.lattice.(transportGraph := tg));
  }

  /**
   * The schema an import hands back: an error is a 500; on success its
   * slots are the uploaded ones and every graph node carries its uploaded
   * slots, with the links and the node metadata as given.
   */
  lemma ImportOutcomeShape(fails: Op -> bool, cfg: Config, m: DispatchSchema, dOrder: seq<string>, lOrder: seq<string>,
                           orders: seq<seq<string>>, db: Db)
    requires ImportOrders(m, dOrder, lOrder, orders)
    ensures var (after, r, err) := ImportOutcome(fails, cfg, m, dOrder, lOrder, orders, db);
            var g := m.lattice.transportGraph;
            (err.Some? ==> err.value == ENGINE_FAILURE)
            && (err.None? ==> r.assets == UploadedDispatch(cfg, m).assets
                              && r.lattice.assets == UploadedDispatch(cfg, m).lattice.assets
                              && r.lattice.transportGraph.links == g.links
                              && |r.lattice.transportGraph.nodes| == |g.nodes|
                              && forall k :: 0 <= k < |g.nodes| ==>
                                   r.lattice.transportGraph.nodes[k]
                                   == g.nodes[k].(assets := UploadedSlots(cfg, m.metadata.dispatchId, g.nodes[k])))
  {
    var meta := Batch(fails, INSERT_DISPATCH, ManifestRow(m), db);
    if meta.1.None? {
      var assets := DispatchAssetsOutcome(fails, cfg, m, dOrder, lOrder, meta.0);
      if assets.2.None? {
        GraphOutcomeShape(fails, cfg, m.metadata.dispatchId, m.lattice.transportGraph, orders, assets.0);
      }
    }
  }

  /** An import, however far it gets, loses no row of any table: it only ever inserts. */
  lemma ImportKeepsRows(fails: Op -> bool, cfg: Config, m: DispatchSchema, dOrder: seq<string>, lOrder: seq<string>,
                        orders: seq<seq<string>>, db: Db, u: Table)
    requires ImportOrders(m, dOrder, lOrder, orders)
    ensures RowsKept(db, ImportOutcome(fails, cfg, m, dOrder, lOrder, orders, db).0, u)
  {
    var meta := Batch(fails, INSERT_DISPATCH, ManifestRow(m), db);
    BatchKeepsRows(fails, Dispatches, DISPATCH_ENTITY_KEYS, ManifestRow(m), db, u);
    if meta.1.None? {
      var assets := DispatchAssetsOutcome(fails, cfg, m, dOrder, lOrder, meta.0);
      DispatchAssetsKeepsRows(fails, cfg, m, dOrder, lOrder, meta.0, u);
      RowsKeptChain(db, meta.0, assets.0, u);
      if assets.2.None? {
        var graph := GraphOutcome(fails, cfg, m.metadata.dispatchId, assets.1.lattice.transportGraph, orders, assets.0);
        GraphOutcomeKeepsRows(fails, cfg, m.metadata.dispatchId, assets.1.lattice.transportGraph, orders, assets.0, u);
        RowsKeptChain(db, assets.0, graph.0, u);
      }
    }
  }

  /** A successful import ran every phase to the end, each on the store the one before left. */
  lemma ImportSucceeded(fails: Op -> bool, cfg: Config, m: DispatchSchema, dOrder: seq<string>, lOrder: seq<string>,
                        orders: seq<seq<string>>, db: Db)
    requires ImportOrders(m, dOrder, lOrder, orders) && ImportOutcome(fails, cfg, m, dOrder, lOrder, orders, db).2.None?
    ensures var meta := Batch(fails, INSERT_DISPATCH, ManifestRow(m), db);
            var assets := DispatchAssetsOutcome(fails, cfg, m, dOrder, lOrder, meta.0);
            var graph := GraphOutcome(fails, cfg, m.metadata.dispatchId, m.lattice.transportGraph, orders, assets.0);
            meta.1.None? && assets.2.None? && graph.2.None?
            && ImportOutcome(fails, cfg, m, dOrder, lOrder, orders, db).0 == graph.0
  {
  }

  /** The dispatch row of a manifest, written in full: see CreatedDispatchIsFound. */
  lemma ManifestRowStored(fails: Op -> bool, m: DispatchSchema, db: Db)
    requires Batch(fails, INSERT_DISPATCH, ManifestRow(m), db).1.None?
    ensures var after := Batch(fails, INSERT_DISPATCH, ManifestRow(m), db).0;
            var e := DispatchEntity(m.metadata, m.lattice.metadata);
            (exists r :: r in after.dispatches && IsDispatch(r, m.metadata.dispatchId))
            && ((forall r :: r in db.dispatches ==> !IsDispatch(r, m.metadata.dispatchId)) ==>
                  after.dispatches == db.dispatches + [ZipRow(DISPATCH_ENTITY_KEYS, DispatchValues(e))]
                  && StoredDispatch(after, e.(l := StoredLattice(e.l))))
  {
    BatchComplete(fails, INSERT_DISPATCH, ManifestRow(m), db);
    CreatedDispatchIsFound(db, m.metadata, m.lattice.metadata);
  }

  /**
   * After a successful import a row of the dispatch id is stored; when the
   * id was new, it is the one row the import added to the dispatch table and
   * it reads back as the manifest's metadata (less what is not stored).
   */
  lemma ImportedDispatchStored(fails: Op -> bool, cfg: Config, m: DispatchSchema, dOrder: seq<string>,
                               lOrder: seq<string>, orders: seq<seq<string>>, db: Db)
    requires ImportOrders(m, dOrder, lOrder, orders) && ImportOutcome(fails, cfg, m, dOrder, lOrder, orders, db).2.None?
    ensures var after := ImportOutcome(fails, cfg, m, dOrder, lOrder, orders, db).0;
            var e := DispatchEntity(m.metadata, m.lattice.metadata);
            (exists r :: r in after.dispatches && IsDispatch(r, m.metadata.dispatchId))
            && ((forall r :: r in db.dispatches ==> !IsDispatch(r, m.metadata.dispatchId)) ==>
                  after.dispatches == db.dispatches + [ZipRow(DISPATCH_ENTITY_KEYS, DispatchValues(e))]
                  && StoredDispatch(after, e.(l := StoredLattice(e.l))))
  {
    ImportSucceeded(fails, cfg, m, dOrder, lOrder, orders, db);
    var meta := Batch(fails, INSERT_DISPATCH, ManifestRow(m), db);
    var assets := DispatchAssetsOutcome(fails, cfg, m, dOrder, lOrder, meta.0);
    ManifestRowStored(fails, m, db);
    DispatchAssetsTables(fails, cfg, m, dOrder, lOrder, meta.0);
    GraphOutcomeShape(fails, cfg, m.metadata.dispatchId, m.lattice.transportGraph, orders, assets.0);
  }

  /**
   * After a successful import each of the seven slots has a link of node -1
   * under its name naming a stored asset, and every such link stored
   * before is still there.
   */
  lemma ImportedSlotsLinked(fails: Op -> bool, cfg: Config, m: DispatchSchema, dOrder: seq<string>,
                            lOrder: seq<string>, orders: seq<seq<string>>, db: Db)
    requires ImportOrders(m, dOrder, lOrder, orders) && ImportOutcome(fails, cfg, m, dOrder, lOrder, orders, db).2.None?
    ensures var after := ImportOutcome(fails, cfg, m, dOrder, lOrder, orders, db).0;
            (forall name :: name in DISPATCH_SLOTS + LATTICE_SLOTS ==> ScopeLinkStored(after, m.metadata.dispatchId, name))
            && (forall id, name :: ScopeLinkStored(db, id, name) ==> ScopeLinkStored(after, id, name))
  {
    ImportSucceeded(fails, cfg, m, dOrder, lOrder, orders, db);
    var meta := Batch(fails, INSERT_DISPATCH, ManifestRow(m), db);
    var assets := DispatchAssetsOutcome(fails, cfg, m, dOrder, lOrder, meta.0);
    var after := GraphOutcome(fails, cfg, m.metadata.dispatchId, m.lattice.transportGraph, orders, assets.0).0;
    BatchKeepsRows(fails, Dispatches, DISPATCH_ENTITY_KEYS, ManifestRow(m), db, Assets);
    BatchKeepsRows(fails, Dispatches, DISPATCH_ENTITY_KEYS, ManifestRow(m), db, AssetLinks);
    GraphOutcomeKeepsRows(fails, cfg, m.metadata.dispatchId, m.lattice.transportGraph, orders, assets.0, Assets);
    GraphOutcomeKeepsRows(fails, cfg, m.metadata.dispatchId, m.lattice.transportGraph, orders, assets.0, AssetLinks);
    DispatchAssetsLinked(fails, cfg, m, dOrder, lOrder, meta.0);
    LinksThroughPhases(db, meta.0, assets.0, after, m.metadata.dispatchId);
  }

  /**
   * Links of node -1 carried through an import's three phases: the first
   * and the last keep every row, the middle one keeps every link and adds
   * those of the seven slots.
   */
  lemma LinksThroughPhases(db: Db, mid: Db, assets: Db, after: Db, dispatchId: string)
    requires RowsKept(db, mid, Assets) && RowsKept(db, mid, AssetLinks)
    requires RowsKept(assets, after, Assets) && RowsKept(assets, after, AssetLinks)
    requires forall name :: name in DISPATCH_SLOTS + LATTICE_SLOTS ==> ScopeLinkStored(assets, dispatchId, name)
    requires forall id, name :: ScopeLinkStored(mid, id, name) ==> ScopeLinkStored(assets, id, name)
    ensures forall name :: name in DISPATCH_SLOTS + LATTICE_SLOTS ==> ScopeLinkStored(after, dispatchId, name)
    ensures forall id, name :: ScopeLinkStored(db, id, name) ==> ScopeLinkStored(after, id, name)
  {
    forall name | name in DISPATCH_SLOTS + LATTICE_SLOTS ensures ScopeLinkStored(after, dispatchId, name) {
      LinkStoredKept(assets, after, dispatchId, SCOPE_NODE, name);
    }
    forall id, name | ScopeLinkStored(db, id, name) ensures ScopeLinkStored(after, id, name) {
      LinkStoredKept(db, mid, id, SCOPE_NODE, name);
      assert ScopeLinkStored(mid, id, name);
      LinkStoredKept(assets, after, id, SCOPE_NODE, name);
    }
  }

  /**
   * After a successful import every node of the manifest's graph is stored
   * with its metadata and every link as an edge of the dispatch.
   */
  lemma ImportedGraphStored(fails: Op -> bool, cfg: Config, m: DispatchSchema, dOrder: seq<string>,
                            lOrder: seq<string>, orders: seq<seq<string>>, db: Db)
    requires ImportOrders(m, dOrder, lOrder, orders) && ImportOutcome(fails, cfg, m, dOrder, lOrder, orders, db).2.None?
    ensures var after := ImportOutcome(fails, cfg, m, dOrder, lOrder, orders, db).0;
            var g := m.lattice.transportGraph;
            (forall k :: 0 <= k < |g.nodes| ==>
               StoredElectron(after, m.metadata.dispatchId, g.nodes[k].nodeId, StoredMeta(g.nodes[k].metadata)))
            && forall k :: 0 <= k < |g.links| ==> StoredEdge(after, m.metadata.dispatchId, g.links[k])
  {
    ImportSucceeded(fails, cfg, m, dOrder, lOrder, orders, db);
    var meta := Batch(fails, INSERT_DISPATCH, ManifestRow(m), db);
    var assets := DispatchAssetsOutcome(fails, cfg, m, dOrder, lOrder, meta.0);
    GraphNodesStored(fails, cfg, m.metadata.dispatchId, m.lattice.transportGraph, orders, assets.0);
    GraphEdgesStored(fails, cfg, m.metadata.dispatchId, m.lattice.transportGraph, orders, assets.0);
  }
}
