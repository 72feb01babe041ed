/**
 * The assets of a dispatch as a whole: the runtime slots of the dispatch
 * (result, error) and the static slots of its lattice, registered under
 * "<dispatch id>/<slot name>" and linked to node -1 (createDispatchAssets),
 * and a dispatch read back with those slots filled from the assets linked to
 * it (GetDispatch).
 *
 * The Go code walks a slot map of references into the schema and writes
 * through them; here the walk runs over the slot map itself, and the schema
 * is rebuilt from the map afterwards.
 */
module DispatchSlots {
  import opened Wrappers
  import opened Tables
  import opened SqlValues
  import opened Database
  import opened ApiErrors
  import opened Environment
  import opened AssetModels
  import opened GraphModels
  import opened DispatchModels
  import opened Crud
  import opened Assets
  import opened AssetLinks
  import opened ElectronSlots
  import opened Dispatches

  /** The node id under which assets of the dispatch as a whole are linked. */
  const SCOPE_NODE := -1

  /**
   * An order in which a loop over a slot map visits its slots: every slot
   * exactly once, in any arrangement (distinct slots, as many as there are).
   */
  predicate Enumerates(order: seq<string>, names: set<string>)
  {
    Distinct(order) && (forall i :: 0 <= i < |order| ==> order[i] in names) && |order| == |names|
  }

  /** An enumerating order visits every slot. */
  lemma EnumerationCovers(order: seq<string>, names: set<string>, n: string)
    requires Enumerates(order, names) && n in names
    ensures n in order
  {
    if n !in order {
      DistinctWithin(order, names - {n});
      assert false;
    }
  }

  /** The dispatch has two runtime slots and its lattice five static ones. */
  lemma SlotCounts()
    ensures |set n | n in DISPATCH_SLOTS| == 2 && |set n | n in LATTICE_SLOTS| == 5
  {
    assert (set n | n in DISPATCH_SLOTS) == {"result", "error"};
    assert (set n | n in LATTICE_SLOTS) == {"workflow_function", "workflow_function_string", "doc", "inputs", "hooks"};
  }

  /** Visiting orders for the dispatch's slot map and for the lattice's. */
  predicate ScopeOrders(dOrder: seq<string>, lOrder: seq<string>)
  {
    Enumerates(dOrder, set n | n in DISPATCH_SLOTS) && Enumerates(lOrder, set n | n in LATTICE_SLOTS)
  }

  // ---------------------------------------------------------------------
  // Slot maps and schemas

  /** The dispatch slots rebuilt from a slot map. */
  function DispatchFromAttrs(m: map<string, AssetDetails>): DispatchAssets
    requires "result" in m && "error" in m
  {
    DispatchAssets(m["result"], m["error"])
  }

  /** The lattice slots rebuilt from a slot map. */
  function LatticeFromAttrs(m: map<string, AssetDetails>): LatticeAssets
    requires forall n :: n in LATTICE_SLOTS ==> n in m
  {
    LatticeAssets(m["workflow_function"], m["workflow_function_string"], m["doc"], m["inputs"], m["hooks"])
  }

  /** A slot map over exactly the dispatch slots and the dispatch slots determine each other. */
  lemma DispatchAttrsRoundTrip(a: DispatchAssets, m: map<string, AssetDetails>)
    requires m.Keys == set n | n in DISPATCH_SLOTS
    ensures DispatchFromAttrs(DispatchAttrsByName(a)) == a
    ensures DispatchAttrsByName(DispatchFromAttrs(m)) == m
  {
    assert "result" in m && "error" in m;
  }

  /** A slot map over exactly the lattice slots and the lattice slots determine each other. */
  lemma LatticeAttrsRoundTrip(a: LatticeAssets, m: map<string, AssetDetails>)
    requires m.Keys == set n | n in LATTICE_SLOTS
    ensures LatticeFromAttrs(LatticeAttrsByName(a)) == a
    ensures LatticeAttrsByName(LatticeFromAttrs(m)) == m
  {
    assert forall n :: n in LATTICE_SLOTS ==> n in m;
  }

  /** All seven slots of a dispatch by name: the runtime ones and the lattice's. */
  function ScopeAttrs(m: DispatchSchema): (v: map<string, AssetDetails>)
    ensures v.Keys == set n | n in DISPATCH_SLOTS + LATTICE_SLOTS
  {
    DispatchAttrsByName(m.assets) + LatticeAttrsByName(m.lattice.assets)
  }

  // ---------------------------------------------------------------------
  // Registering one slot map

  /** The storage key of a dispatch slot: "<dispatch id>/<slot name>". */
  function ScopeKey(dispatchId: string, name: string): string
  {
    dispatchId + "/" + name
  }

  /** Slots of one dispatch get different keys. */
  lemma ScopeKeyInjective(dispatchId: string, a: string, b: string)
    requires ScopeKey(dispatchId, a) == ScopeKey(dispatchId, b)
    ensures a == b
  {
    var p := dispatchId + "/";
    assert ScopeKey(dispatchId, a) == p + a && ScopeKey(dispatchId, b) == p + b;
    assert a == (p + a)[|p|..];
    assert b == (p + b)[|p|..];
  }

  /** The registrations sent for a slot map, slot `order[i]` at position i. */
  function ScopeSchemas(dispatchId: string, attrs: map<string, AssetDetails>, order: seq<string>): (s: seq<AssetPublicSchema>)
    requires Enumerates(order, attrs.Keys)
    ensures |s| == |order|
    ensures forall i :: 0 <= i < |order| ==> s[i] == AssetPublicSchema(attrs[order[i]], ScopeKey(dispatchId, order[i]))
  {
    seq(|order|, i requires 0 <= i < |order| => AssetPublicSchema(attrs[order[i]], ScopeKey(dispatchId, order[i])))
  }

  /** The links before the asset ids are known: node -1, the zero id. */
  function ScopePending(dispatchId: string, order: seq<string>): (ls: seq<AssetLink>)
    ensures |ls| == |order| && forall i :: 0 <= i < |order| ==> ls[i] == AssetLink(dispatchId, SCOPE_NODE, "", order[i])
  {
    seq(|order|, i requires 0 <= i < |order| => AssetLink(dispatchId, SCOPE_NODE, "", order[i]))
  }

  /** The links written: slot `order[i]` of node -1 names the asset registered under its key. */
  function ScopeLinks(cfg: Config, dispatchId: string, order: seq<string>): (ls: seq<AssetLink>)
    ensures |ls| == |order|
    ensures forall i :: 0 <= i < |order| ==>
              ls[i] == AssetLink(dispatchId, SCOPE_NODE, ComputeAssetId(cfg, ScopeKey(dispatchId, order[i])), order[i])
  {
    seq(|order|, i requires 0 <= i < |order| =>
                   AssetLink(dispatchId, SCOPE_NODE, ComputeAssetId(cfg, ScopeKey(dispatchId, order[i])), order[i]))
  }

  /** A slot after registration: its remote URI is the one the registered entity carries. */
  function ScopeUploadedDetails(cfg: Config, dispatchId: string, name: string, d: AssetDetails): AssetDetails
  {
    var ent := WithUploadUri(cfg, NewAssetEntityFromPublic(cfg, AssetPublicSchema(d, ScopeKey(dispatchId, name))));
    d.(remoteUri := ent.public.details.remoteUri)
  }

  /** A slot map after a successful registration. */
  function ScopeUploaded(cfg: Config, dispatchId: string, attrs: map<string, AssetDetails>): map<string, AssetDetails>
  {
    map n | n in attrs :: ScopeUploadedDetails(cfg, dispatchId, n, attrs[n])
  }

  /**
   * A slot with content and no URI of its own gets the upload URI under its
   * key in the server's storage; every other slot keeps its remote URI, and
   * no other field changes.
   */
  lemma ScopeUploadedUri(cfg: Config, dispatchId: string, attrs: map<string, AssetDetails>, name: string)
    requires name in attrs
    ensures name in ScopeUploaded(cfg, dispatchId, attrs)
    ensures var d := attrs[name];
            var u := ScopeUploaded(cfg, dispatchId, attrs)[name];
            u.remoteUri == (if d.size > 0 && d.uri == ""
                            then STORAGE_SCHEME + "://" + cfg.storagePath + "/" + ScopeKey(dispatchId, name)
                            else d.remoteUri)
            && u == d.(remoteUri := u.remoteUri)
  {
  }

  /** The key maps after `count` slots: each slot's key leads to its position and its name. */
  predicate ScopeIndexed(dispatchId: string, order: seq<string>, count: nat,
                         keyCount: map<string, int>, attrsByKey: map<string, string>)
    requires count <= |order|
  {
    forall k :: 0 <= k < count ==>
      ScopeKey(dispatchId, order[k]) in keyCount && keyCount[ScopeKey(dispatchId, order[k])] == k
      && ScopeKey(dispatchId, order[k]) in attrsByKey && attrsByKey[ScopeKey(dispatchId, order[k])] == order[k]
  }

  /** Indexing one more slot keeps the earlier entries: the slots of a dispatch have distinct keys. */
  lemma ScopeIndexedStep(dispatchId: string, order: seq<string>, count: nat,
                         keyCount: map<string, int>, attrsByKey: map<string, string>)
    requires count < |order| && Distinct(order) && ScopeIndexed(dispatchId, order, count, keyCount, attrsByKey)
    ensures var key := ScopeKey(dispatchId, order[count]);
            ScopeIndexed(dispatchId, order, count + 1, keyCount[key := count], attrsByKey[key := order[count]])
  {
    var key := ScopeKey(dispatchId, order[count]);
    forall k | 0 <= k < count ensures ScopeKey(dispatchId, order[k]) != key {
      if ScopeKey(dispatchId, order[k]) == key {
        ScopeKeyInjective(dispatchId, order[k], order[count]);
      }
    }
  }

  /** The first loop over a slot map: a registration and a pending link per slot, indexed by key. */
  method CollectScope(dispatchId: string, attrs: map<string, AssetDetails>, order: seq<string>)
    returns (schemas: seq<AssetPublicSchema>, links: seq<AssetLink>, keyCount: map<string, int>,
             attrsByKey: map<string, string>)
    requires Enumerates(order, attrs.Keys)
    ensures schemas == ScopeSchemas(dispatchId, attrs, order) && links == ScopePending(dispatchId, order)
    ensures ScopeIndexed(dispatchId, order, |order|, keyCount, attrsByKey)
  {
    ghost var wantSchemas := ScopeSchemas(dispatchId, attrs, order);
    ghost var wantLinks := ScopePending(dispatchId, order);
    schemas, links, keyCount, attrsByKey := [], [], map[], map[];
    var count := 0;
    while count < |order|
      invariant 0 <= count <= |order|
      invariant schemas == wantSchemas[..count] && links == wantLinks[..count]
      invariant ScopeIndexed(dispatchId, order, count, keyCount, attrsByKey)
    {
      var name := order[count];
      var key := ScopeKey(dispatchId, name);
      ScopeIndexedStep(dispatchId, order, count, keyCount, attrsByKey);
      keyCount := keyCount[key := count];
      attrsByKey := attrsByKey[key := name];
      assert wantSchemas[..count + 1] == wantSchemas[..count] + [AssetPublicSchema(attrs[name], key)];
      assert wantLinks[..count + 1] == wantLinks[..count] + [AssetLink(dispatchId, SCOPE_NODE, "", name)];
      schemas := schemas + [AssetPublicSchema(attrs[name], key)];
      links := links + [AssetLink(dispatchId, SCOPE_NODE, "", name)];
      count := count + 1;
    }
    assert wantSchemas[..count] == wantSchemas && wantLinks[..count] == wantLinks;
  }

  /** The entity registered for slot `order[j]` carries that slot's key, its id and its upload URI. */
  lemma ScopeUploadedEntity(cfg: Config, dispatchId: string, attrs: map<string, AssetDetails>, order: seq<string>, j: nat,
                            ent: AssetEntity)
    requires Enumerates(order, attrs.Keys) && j < |order|
    requires ent == WithUploadUri(cfg, NewAssetEntityFromPublic(cfg, ScopeSchemas(dispatchId, attrs, order)[j]))
    ensures ent.public.key == ScopeKey(dispatchId, order[j])
    ensures ent.id == ComputeAssetId(cfg, ScopeKey(dispatchId, order[j]))
    ensures attrs[order[j]].(remoteUri := ent.public.details.remoteUri)
            == ScopeUploadedDetails(cfg, dispatchId, order[j], attrs[order[j]])
  {
    var p := ScopeSchemas(dispatchId, attrs, order)[j];
    assert Stored(ent) == Stored(NewAssetEntityFromPublic(cfg, p));
  }

  /** The slots of `order[..j]` carry their upload details, the others are as given. */
  predicate SlotsUpTo(cfg: Config, dispatchId: string, attrs: map<string, AssetDetails>, order: seq<string>, j: nat,
                      slots: map<string, AssetDetails>)
    requires j <= |order|
  {
    slots.Keys == attrs.Keys
    && forall n :: n in attrs ==>
         slots[n] == (if n in order[..j] then ScopeUploadedDetails(cfg, dispatchId, n, attrs[n]) else attrs[n])
  }

  /** Recording the URI of slot `order[j]` extends the recorded slots by one. */
  lemma SlotsUpToStep(cfg: Config, dispatchId: string, attrs: map<string, AssetDetails>, order: seq<string>, j: nat,
                      slots: map<string, AssetDetails>, uri: string)
    requires Enumerates(order, attrs.Keys) && j < |order| && SlotsUpTo(cfg, dispatchId, attrs, order, j, slots)
    requires attrs[order[j]].(remoteUri := uri) == ScopeUploadedDetails(cfg, dispatchId, order[j], attrs[order[j]])
    ensures order[j] in slots
    ensures SlotsUpTo(cfg, dispatchId, attrs, order, j + 1, slots[order[j] := slots[order[j]].(remoteUri := uri)])
  {
    var slot := order[j];
    assert order[..j + 1] == order[..j] + [slot];
    assert slot !in order[..j];
    EnumerationCovers(order, attrs.Keys, slot);
  }

  /**
   * The second loop over a slot map: each registered entity hands its remote
   * URI to the slot its key came from and its id to that slot's link.
   */
  method RecordScopeUploads(cfg: Config, dispatchId: string, attrs: map<string, AssetDetails>, order: seq<string>,
                            ents: seq<AssetEntity>, pending: seq<AssetLink>, keyCount: map<string, int>,
                            attrsByKey: map<string, string>)
    returns (slots: map<string, AssetDetails>, links: seq<AssetLink>)
    requires Enumerates(order, attrs.Keys) && |ents| == |order|
    requires forall i :: 0 <= i < |order| ==>
               ents[i] == WithUploadUri(cfg, NewAssetEntityFromPublic(cfg, ScopeSchemas(dispatchId, attrs, order)[i]))
    requires pending == ScopePending(dispatchId, order)
    requires ScopeIndexed(dispatchId, order, |order|, keyCount, attrsByKey)
    ensures slots == ScopeUploaded(cfg, dispatchId, attrs) && links == ScopeLinks(cfg, dispatchId, order)
  {
    ghost var want := ScopeLinks(cfg, dispatchId, order);
    slots, links := attrs, pending;
    var j := 0;
    while j < |ents|
      invariant 0 <= j <= |ents| && |links| == |order|
      invariant SlotsUpTo(cfg, dispatchId, attrs, order, j, slots)
      invariant forall k :: 0 <= k < |order| ==> links[k] == (if k < j then want[k] else pending[k])
    {
      var ent := ents[j];
      ScopeUploadedEntity(cfg, dispatchId, attrs, order, j, ent);
      var slot := attrsByKey[ent.public.key];
      assert slot == order[j];
      SlotsUpToStep(cfg, dispatchId, attrs, order, j, slots, ent.public.details.remoteUri);
      slots := slots[slot := slots[slot].(remoteUri := ent.public.details.remoteUri)];
      var c := keyCount[ent.public.key];
      links := links[c := links[c].(assetId := ent.id)];
      j := j + 1;
    }
    assert order[..j] == order;
    ScopeUploadedAll(cfg, dispatchId, attrs, order, slots);
  }

  /** A slot map in which every slot of `order` carries its upload details is the uploaded map. */
  lemma ScopeUploadedAll(cfg: Config, dispatchId: string, attrs: map<string, AssetDetails>, order: seq<string>,
                         slots: map<string, AssetDetails>)
    requires Enumerates(order, attrs.Keys) && slots.Keys == attrs.Keys
    requires forall n :: n in attrs ==>
               slots[n] == (if n in order then ScopeUploadedDetails(cfg, dispatchId, n, attrs[n]) else attrs[n])
    ensures slots == ScopeUploaded(cfg, dispatchId, attrs)
  {
    forall n | n in attrs ensures slots[n] == ScopeUploadedDetails(cfg, dispatchId, n, attrs[n]) {
      EnumerationCovers(order, attrs.Keys, n);
    }
  }

  /**
   * What registering one slot map leaves behind, as one value: the store, the
   * slot map and the error. A failed registration stops before any link is
   * written and leaves the slots as they were; once the assets are in, the
   * slots carry their remote URIs whether or not the links go in.
   */
  function ScopeOutcome(fails: Op -> bool, cfg: Config, dispatchId: string, attrs: map<string, AssetDetails>,
                        order: seq<string>, db: Db): (o: (Db, map<string, AssetDetails>, Option<ApiError>))
    requires Enumerates(order, attrs.Keys)
    ensures o.1.Keys == attrs.Keys
    ensures o.2.Some? ==> o.2.value == ENGINE_FAILURE
    ensures o.2.None? ==> o.1 == ScopeUploaded(cfg, dispatchId, attrs)
  {
    var assets := Batch(fails, INSERT_ASSET, AssetRows(Registrations(cfg, ScopeSchemas(dispatchId, attrs, order))), db);
    if assets.1.Some? then (assets.0, attrs, assets.1)
    else
      var links := Batch(fails, INSERT_LINK, LinkRows(ScopeLinks(cfg, dispatchId, order)), assets.0);
      (links.0, ScopeUploaded(cfg, dispatchId, attrs), links.1)
  }

  /**
   * Registers every slot of a slot map as an asset keyed "<dispatch>/<slot>",
   * then links each slot's name at node -1 to its asset: one half of
   * createDispatchAssets. The slots are visited in `order`.
   */
  method CreateScopeAssets(cfg: Config, st: Store, dispatchId: string, attrs: map<string, AssetDetails>, order: seq<string>)
    returns (slots: map<string, AssetDetails>, err: Option<ApiError>)
    requires Enumerates(order, attrs.Keys)
    modifies st
    ensures var want := ScopeOutcome(st.fails, cfg, dispatchId, attrs, order, old(st.Content()));
            st.Content() == want.0 && slots == want.1 && err == want.2
  {
    var schemas, pending, keyCount, attrsByKey := CollectScope(dispatchId, attrs, order);
    var ents, assetErr := CreateAssets(cfg, st, schemas);
    if assetErr.Some? {
      return attrs, assetErr;
    }
    var links;
    slots, links := RecordScopeUploads(cfg, dispatchId, attrs, order, ents, pending, keyCount, attrsByKey);
    err := CreateAssetLinks(st, links);
  }

  /** An asset batch followed, if it succeeded, by a link batch leaves the other three tables as they were. */
  lemma AssetThenLinkKeepsOthers(fails: Op -> bool, assetRows: seq<seq<Value>>, linkRows: seq<seq<Value>>, db: Db)
    ensures var assets := Batch(fails, INSERT_ASSET, assetRows, db);
            var after := if assets.1.Some? then assets.0 else Batch(fails, INSERT_LINK, linkRows, assets.0).0;
            after.dispatches == db.dispatches && after.electrons == db.electrons && after.edges == db.edges
  {
    var assets := Batch(fails, INSERT_ASSET, assetRows, db);
    BatchKeepsOthers(fails, Assets, ASSET_KEYS, assetRows, db);
    assert assets.0.Rows(Dispatches) == db.Rows(Dispatches) && assets.0.Rows(Electrons) == db.Rows(Electrons)
           && assets.0.Rows(Edges) == db.Rows(Edges);
    if assets.1.None? {
      BatchKeepsOthers(fails, AssetLinks, ASSET_LINK_KEYS, linkRows, assets.0);
    }
  }

  /** Registering a slot map writes only the asset and link tables. */
  lemma ScopeOutcomeTables(fails: Op -> bool, cfg: Config, dispatchId: string, attrs: map<string, AssetDetails>,
                           order: seq<string>, db: Db)
    requires Enumerates(order, attrs.Keys)
    ensures var after := ScopeOutcome(fails, cfg, dispatchId, attrs, order, db).0;
            after.dispatches == db.dispatches && after.electrons == db.electrons && after.edges == db.edges
  {
    AssetThenLinkKeepsOthers(fails, AssetRows(Registrations(cfg, ScopeSchemas(dispatchId, attrs, order))),
                             LinkRows(ScopeLinks(cfg, dispatchId, order)), db);
  }

  /** Registering a slot map, however far it gets, loses no row of any table. */
  lemma ScopeOutcomeKeepsRows(fails: Op -> bool, cfg: Config, dispatchId: string, attrs: map<string, AssetDetails>,
                              order: seq<string>, db: Db, u: Table)
    requires Enumerates(order, attrs.Keys)
    ensures RowsKept(db, ScopeOutcome(fails, cfg, dispatchId, attrs, order, db).0, u)
  {
    var rows := AssetRows(Registrations(cfg, ScopeSchemas(dispatchId, attrs, order)));
    var assets := Batch(fails, INSERT_ASSET, rows, db);
    BatchKeepsRows(fails, Assets, ASSET_KEYS, rows, db, u);
    if assets.1.None? {
      var links := Batch(fails, INSERT_LINK, LinkRows(ScopeLinks(cfg, dispatchId, order)), assets.0);
      BatchKeepsRows(fails, AssetLinks, ASSET_LINK_KEYS, LinkRows(ScopeLinks(cfg, dispatchId, order)), assets.0, u);
      RowsKeptChain(db, assets.0, links.0, u);
    }
  }

  /** Some link row of node -1 carries the name and the id of a stored asset row. */
  predicate ScopeLinkStored(db: Db, dispatchId: string, name: string)
  {
    LinkStored(db, dispatchId, SCOPE_NODE, name)
  }

  /** The store after both inserts of a slot map's registration ran in full. */
  function ScopeWritten(cfg: Config, dispatchId: string, attrs: map<string, AssetDetails>, order: seq<string>, db: Db): Db
    requires Enumerates(order, attrs.Keys)
  {
    var mid := RunAll(db, INSERT_ASSET, AssetRows(Registrations(cfg, ScopeSchemas(dispatchId, attrs, order))));
    RunAll(mid, INSERT_LINK, LinkRows(ScopeLinks(cfg, dispatchId, order)))
  }

  /** A successful registration ran both inserts in full. */
  lemma ScopeSucceeded(fails: Op -> bool, cfg: Config, dispatchId: string, attrs: map<string, AssetDetails>,
                       order: seq<string>, db: Db)
    requires Enumerates(order, attrs.Keys) && ScopeOutcome(fails, cfg, dispatchId, attrs, order, db).2.None?
    ensures ScopeOutcome(fails, cfg, dispatchId, attrs, order, db).0 == ScopeWritten(cfg, dispatchId, attrs, order, db)
  {
    var assets := Batch(fails, INSERT_ASSET, AssetRows(Registrations(cfg, ScopeSchemas(dispatchId, attrs, order))), db);
    BatchComplete(fails, INSERT_ASSET, AssetRows(Registrations(cfg, ScopeSchemas(dispatchId, attrs, order))), db);
    BatchComplete(fails, INSERT_LINK, LinkRows(ScopeLinks(cfg, dispatchId, order)), assets.0);
  }

  /**
   * After a successful registration every slot of the map has a link row of
   * node -1 under its name whose asset id names a stored asset row, and the
   * link table has grown by one row per slot.
   */
  lemma ScopeLinked(cfg: Config, dispatchId: string, attrs: map<string, AssetDetails>, order: seq<string>, db: Db,
                    name: string)
    requires Enumerates(order, attrs.Keys) && name in attrs
    ensures var after := ScopeWritten(cfg, dispatchId, attrs, order, db);
            ScopeLinkStored(after, dispatchId, name) && |after.links| == |db.links| + |attrs.Keys|
  {
    var schemas := ScopeSchemas(dispatchId, attrs, order);
    var links := ScopeLinks(cfg, dispatchId, order);
    EnumerationCovers(order, attrs.Keys, name);
    var i :| 0 <= i < |order| && order[i] == name;
    RegisteredLinkStored(cfg, db, schemas, links, i);
  }

  /** Registering more assets and writing more links keeps every link of node -1 already stored. */
  lemma WritesKeepLinks(cfg: Config, db: Db, schemas: seq<AssetPublicSchema>, links: seq<AssetLink>, dispatchId: string,
                        name: string)
    requires ScopeLinkStored(db, dispatchId, name)
    ensures var mid := RunAll(db, INSERT_ASSET, AssetRows(Registrations(cfg, schemas)));
            ScopeLinkStored(RunAll(mid, INSERT_LINK, LinkRows(links)), dispatchId, name)
  {
    var rows := AssetRows(Registrations(cfg, schemas));
    var mid := RunAll(db, INSERT_ASSET, rows);
    var after := RunAll(mid, INSERT_LINK, LinkRows(links));
    RunAllKeepsRows(db, Assets, ASSET_KEYS, rows, Assets);
    RunAllKeepsRows(db, Assets, ASSET_KEYS, rows, AssetLinks);
    RunAllKeepsRows(mid, AssetLinks, ASSET_LINK_KEYS, LinkRows(links), Assets);
    RunAllKeepsRows(mid, AssetLinks, ASSET_LINK_KEYS, LinkRows(links), AssetLinks);
    LinkStoredKept(db, after, dispatchId, SCOPE_NODE, name);
  }

  /** The schema after both slot maps are registered: every slot carries its remote URI. */
  function UploadedDispatch(cfg: Config, m: DispatchSchema): DispatchSchema
  {
    var id := m.metadata.dispatchId;
    m.(assets := DispatchFromAttrs(ScopeUploaded(cfg, id, DispatchAttrsByName(m.assets))),
       lattice := m.lattice.(assets := LatticeFromAttrs(ScopeUploaded(cfg, id, LatticeAttrsByName(m.lattice.assets)))))
  }

  /**
   * A runtime slot with content and no URI of its own gets the upload URI
   * under "<dispatch>/<slot>"; the others keep their remote URI, and no slot
   * changes in any other field.
   */
  lemma UploadedDispatchUri(cfg: Config, m: DispatchSchema, name: string)
    requires name in DISPATCH_SLOTS
    ensures var d := DispatchAttrsByName(m.assets)[name];
            var u := DispatchAttrsByName(UploadedDispatch(cfg, m).assets)[name];
            u.remoteUri == (if d.size > 0 && d.uri == ""
                            then STORAGE_SCHEME + "://" + cfg.storagePath + "/" + ScopeKey(m.metadata.dispatchId, name)
                            else d.remoteUri)
            && u == d.(remoteUri := u.remoteUri)
  {
    var id := m.metadata.dispatchId;
    DispatchAttrsRoundTrip(m.assets, ScopeUploaded(cfg, id, DispatchAttrsByName(m.assets)));
    ScopeUploadedUri(cfg, id, DispatchAttrsByName(m.assets), name);
  }

  /** The same for a static slot of the lattice. */
  lemma UploadedLatticeUri(cfg: Config, m: DispatchSchema, name: string)
    requires name in LATTICE_SLOTS
    ensures var d := LatticeAttrsByName(m.lattice.assets)[name];
            var u := LatticeAttrsByName(UploadedDispatch(cfg, m).lattice.assets)[name];
            u.remoteUri == (if d.size > 0 && d.uri == ""
                            then STORAGE_SCHEME + "://" + cfg.storagePath + "/" + ScopeKey(m.metadata.dispatchId, name)
                            else d.remoteUri)
            && u == d.(remoteUri := u.remoteUri)
  {
    var id := m.metadata.dispatchId;
    LatticeAttrsRoundTrip(m.lattice.assets, ScopeUploaded(cfg, id, LatticeAttrsByName(m.lattice.assets)));
    ScopeUploadedUri(cfg, id, LatticeAttrsByName(m.lattice.assets), name);
  }

  /**
   * What createDispatchAssets leaves behind: the dispatch's slot map is
   * registered first, and the lattice's only when that succeeds; the schema
   * keeps whatever URIs were assigned before an error.
   */
  function DispatchAssetsOutcome(fails: Op -> bool, cfg: Config, m: DispatchSchema, dOrder: seq<string>,
                                 lOrder: seq<string>, db: Db): (o: (Db, DispatchSchema, Option<ApiError>))
    requires ScopeOrders(dOrder, lOrder)
    ensures o.1.metadata == m.metadata && o.1.lattice.metadata == m.lattice.metadata
    ensures o.1.lattice.transportGraph == m.lattice.transportGraph
    ensures o.2.Some? ==> o.2.value == ENGINE_FAILURE
    ensures o.2.None? ==> o.1 == UploadedDispatch(cfg, m)
  {
    var id := m.metadata.dispatchId;
    var first := ScopeOutcome(fails, cfg, id, DispatchAttrsByName(m.assets), dOrder, db);
    var m1 := m.(assets := DispatchFromAttrs(first.1));
    if first.2.Some? then (first.0, m1, first.2)
    else
      var second := ScopeOutcome(fails, cfg, id, LatticeAttrsByName(m.lattice.assets), lOrder, first.0);
      (second.0, m1.(lattice := m1.lattice.(assets := LatticeFromAttrs(second.1))), second.2)
  }

  /**
   * Registers and links the dispatch's runtime slots, then the lattice's
   * static slots, all under node -1 (createDispatchAssets); the schema is
   * returned with the remote URIs the registrations assigned.
   */
  method CreateDispatchAssets(cfg: Config, st: Store, m: DispatchSchema, dOrder: seq<string>, lOrder: seq<string>)
    returns (r: DispatchSchema, err: Option<ApiError>)
    requires ScopeOrders(dOrder, lOrder)
    modifies st
    ensures var want := DispatchAssetsOutcome(st.fails, cfg, m, dOrder, lOrder, old(st.Content()));
            st.Content() == want.0 && r == want.1 && err == want.2
  {
    var id := m.metadata.dispatchId;
    var slots, dErr := CreateScopeAssets(cfg, st, id, DispatchAttrsByName(m.assets), dOrder);
    r := m.(assets := DispatchFromAttrs(slots));
    if dErr.Some? {
      return r, dErr;
    }
    var lslots;
    lslots, err := CreateScopeAssets(cfg, st, id, LatticeAttrsByName(m.lattice.assets), lOrder);
    r := r.(lattice := r.lattice.(assets := LatticeFromAttrs(lslots)));
  }

  /** createDispatchAssets writes only the asset and link tables. */
  lemma DispatchAssetsTables(fails: Op -> bool, cfg: Config, m: DispatchSchema, dOrder: seq<string>, lOrder: seq<string>,
                             db: Db)
    requires ScopeOrders(dOrder, lOrder)
    ensures var after := DispatchAssetsOutcome(fails, cfg, m, dOrder, lOrder, db).0;
            after.dispatches == db.dispatches && after.electrons == db.electrons && after.edges == db.edges
  {
    var id := m.metadata.dispatchId;
    ScopeOutcomeTables(fails, cfg, id, DispatchAttrsByName(m.assets), dOrder, db);
    var first := ScopeOutcome(fails, cfg, id, DispatchAttrsByName(m.assets), dOrder, db);
    ScopeOutcomeTables(fails, cfg, id, LatticeAttrsByName(m.lattice.assets), lOrder, first.0);
  }

  /** createDispatchAssets, however far it gets, loses no row of any table. */
  lemma DispatchAssetsKeepsRows(fails: Op -> bool, cfg: Config, m: DispatchSchema, dOrder: seq<string>,
                                lOrder: seq<string>, db: Db, u: Table)
    requires ScopeOrders(dOrder, lOrder)
    ensures RowsKept(db, DispatchAssetsOutcome(fails, cfg, m, dOrder, lOrder, db).0, u)
  {
    var id := m.metadata.dispatchId;
    var first := ScopeOutcome(fails, cfg, id, DispatchAttrsByName(m.assets), dOrder, db);
    ScopeOutcomeKeepsRows(fails, cfg, id, DispatchAttrsByName(m.assets), dOrder, db, u);
    if first.2.None? {
      var second := ScopeOutcome(fails, cfg, id, LatticeAttrsByName(m.lattice.assets), lOrder, first.0);
      ScopeOutcomeKeepsRows(fails, cfg, id, LatticeAttrsByName(m.lattice.assets), lOrder, first.0, u);
      RowsKeptChain(db, first.0, second.0, u);
    }
  }

  /** The store after all four inserts of createDispatchAssets ran in full. */
  function DispatchWritten(cfg: Config, m: DispatchSchema, dOrder: seq<string>, lOrder: seq<string>, db: Db): Db
    requires ScopeOrders(dOrder, lOrder)
  {
    var id := m.metadata.dispatchId;
    var mid := ScopeWritten(cfg, id, DispatchAttrsByName(m.assets), dOrder, db);
    ScopeWritten(cfg, id, LatticeAttrsByName(m.lattice.assets), lOrder, mid)
  }

  /** A successful createDispatchAssets ran all four inserts in full. */
  lemma DispatchAssetsSucceeded(fails: Op -> bool, cfg: Config, m: DispatchSchema, dOrder: seq<string>, lOrder: seq<string>,
                                db: Db)
    requires ScopeOrders(dOrder, lOrder) && DispatchAssetsOutcome(fails, cfg, m, dOrder, lOrder, db).2.None?
    ensures DispatchAssetsOutcome(fails, cfg, m, dOrder, lOrder, db).0 == DispatchWritten(cfg, m, dOrder, lOrder, db)
  {
    var id := m.metadata.dispatchId;
    var first := ScopeOutcome(fails, cfg, id, DispatchAttrsByName(m.assets), dOrder, db);
    ScopeSucceeded(fails, cfg, id, DispatchAttrsByName(m.assets), dOrder, db);
    ScopeSucceeded(fails, cfg, id, LatticeAttrsByName(m.lattice.assets), lOrder, first.0);
  }

  /**
   * Once all four inserts are in, each of the seven slots has a link of
   * node -1 under its name naming a stored asset, every dispatch-scope link
   * stored before is still there, and seven link rows were added.
   */
  lemma DispatchWrittenLinked(cfg: Config, m: DispatchSchema, dOrder: seq<string>, lOrder: seq<string>, db: Db)
    requires ScopeOrders(dOrder, lOrder)
    ensures var after := DispatchWritten(cfg, m, dOrder, lOrder, db);
            (forall name :: name in DISPATCH_SLOTS + LATTICE_SLOTS ==> ScopeLinkStored(after, m.metadata.dispatchId, name))
            && (forall id, name :: ScopeLinkStored(db, id, name) ==> ScopeLinkStored(after, id, name))
            && |after.links| == |db.links| + 7
  {
    var id := m.metadata.dispatchId;
    var dAttrs := DispatchAttrsByName(m.assets);
    var lAttrs := LatticeAttrsByName(m.lattice.assets);
    var mid := ScopeWritten(cfg, id, dAttrs, dOrder, db);
    var after := ScopeWritten(cfg, id, lAttrs, lOrder, mid);
    var dSchemas, dLinks := ScopeSchemas(id, dAttrs, dOrder), ScopeLinks(cfg, id, dOrder);
    var lSchemas, lLinks := ScopeSchemas(id, lAttrs, lOrder), ScopeLinks(cfg, id, lOrder);
    forall name | name in DISPATCH_SLOTS + LATTICE_SLOTS ensures ScopeLinkStored(after, id, name) {
      if name in DISPATCH_SLOTS {
        ScopeLinked(cfg, id, dAttrs, dOrder, db, name);
        WritesKeepLinks(cfg, mid, lSchemas, lLinks, id, name);
      } else {
        ScopeLinked(cfg, id, lAttrs, lOrder, mid, name);
      }
    }
    forall i, name | ScopeLinkStored(db, i, name) ensures ScopeLinkStored(after, i, name) {
      WritesKeepLinks(cfg, db, dSchemas, dLinks, i, name);
      WritesKeepLinks(cfg, mid, lSchemas, lLinks, i, name);
    }
    ScopeLinked(cfg, id, dAttrs, dOrder, db, "result");
    ScopeLinked(cfg, id, lAttrs, lOrder, mid, "doc");
    SlotCounts();
  }

  /**
   * After createDispatchAssets succeeds, each of the seven slots has a link
   * of node -1 under its name naming a stored asset, every dispatch-scope
   * link stored before is still there, and seven link rows were added.
   */
  lemma DispatchAssetsLinked(fails: Op -> bool, cfg: Config, m: DispatchSchema, dOrder: seq<string>, lOrder: seq<string>,
                             db: Db)
    requires ScopeOrders(dOrder, lOrder) && DispatchAssetsOutcome(fails, cfg, m, dOrder, lOrder, db).2.None?
    ensures var after := DispatchAssetsOutcome(fails, cfg, m, dOrder, lOrder, db).0;
            (forall name :: name in DISPATCH_SLOTS + LATTICE_SLOTS ==> ScopeLinkStored(after, m.metadata.dispatchId, name))
            && (forall id, name :: ScopeLinkStored(db, id, name) ==> ScopeLinkStored(after, id, name))
            && |after.links| == |db.links| + 7
  {
    DispatchAssetsSucceeded(fails, cfg, m, dOrder, lOrder, db);
    DispatchWrittenLinked(cfg, m, dOrder, lOrder, db);
  }

  // ---------------------------------------------------------------------
  // GetDispatch

  /** A slot map after the fill loop: each slot takes over the details of the asset of its name, when there is one. */
  function FilledView(slots: map<string, AssetDetails>, byName: map<string, AssetPublicSchema>): (v: map<string, AssetDetails>)
    ensures v.Keys == slots.Keys
  {
    map n | n in slots :: Filled(byName, n, slots[n])
  }

  /** One slot-filling loop of GetDispatch, over a slot map in `order`. */
  method FillScope(slots: map<string, AssetDetails>, byName: map<string, AssetPublicSchema>, order: seq<string>)
    returns (filled: map<string, AssetDetails>)
    requires Enumerates(order, slots.Keys)
    ensures filled == FilledView(slots, byName)
  {
    filled := slots;
    var k := 0;
    while k < |order|
      invariant 0 <= k <= |order|
      invariant filled.Keys == slots.Keys
      invariant forall n :: n in slots ==> filled[n] == (if n in order[..k] then Filled(byName, n, slots[n]) else slots[n])
    {
      var name := order[k];
      assert order[..k + 1] == order[..k] + [name];
      assert name !in order[..k];
      if name in byName {
        filled := filled[name := Copy(filled[name], byName[name].details)];
      }
      k := k + 1;
    }
    assert order[..k] == order;
    forall n | n in slots ensures n in order {
      EnumerationCovers(order, slots.Keys, n);
    }
  }

  /** The dispatch slots GetDispatch fills from a name map, starting from empty slots. */
  function DispatchSlotsFrom(byName: map<string, AssetPublicSchema>): DispatchAssets
  {
    DispatchFromAttrs(FilledView(DispatchAttrsByName(NO_DISPATCH_ASSETS), byName))
  }

  /** The lattice slots GetDispatch fills from a name map, starting from empty slots. */
  function LatticeSlotsFrom(byName: map<string, AssetPublicSchema>): LatticeAssets
  {
    LatticeFromAttrs(FilledView(LatticeAttrsByName(NO_LATTICE_ASSETS), byName))
  }

  /** Each of the seven slots holds the details of the asset of its name, or the zero details when there is none. */
  lemma ScopeSlotsFromByName(byName: map<string, AssetPublicSchema>, name: string)
    requires name in DISPATCH_SLOTS + LATTICE_SLOTS
    ensures var v := DispatchAttrsByName(DispatchSlotsFrom(byName)) + LatticeAttrsByName(LatticeSlotsFrom(byName));
            v[name] == (if name in byName then byName[name].details else NO_DETAILS)
  {
    DispatchAttrsRoundTrip(NO_DISPATCH_ASSETS, FilledView(DispatchAttrsByName(NO_DISPATCH_ASSETS), byName));
    LatticeAttrsRoundTrip(NO_LATTICE_ASSETS, FilledView(LatticeAttrsByName(NO_LATTICE_ASSETS), byName));
    if name in byName {
      var src := byName[name].details;
      assert Copy(NO_DETAILS, src) == src;
    }
  }

  /**
   * `d` is the dispatch as GetDispatch builds it: the stored row of the id,
   * the seven slots filled from the assets linked at node -1, and an empty
   * transport graph.
   */
  predicate DispatchRead(cfg: Config, db: Db, dispatchId: string, d: DispatchSchema)
  {
    d.metadata.dispatchId == dispatchId && StoredDispatch(db, DispatchEntity(d.metadata, d.lattice.metadata))
    && d.lattice.transportGraph == Graph([], [])
    && NamedAssets(db, dispatchId, SCOPE_NODE).Some?
    && var byName := LastByName(cfg, NamedAssets(db, dispatchId, SCOPE_NODE).value);
       d.assets == DispatchSlotsFrom(byName) && d.lattice.assets == LatticeSlotsFrom(byName)
  }

  /** The assets linked to the dispatch at node -1, mapped by name (the first loop of GetDispatch). */
  method ReadScopeAssets(cfg: Config, st: Store, dispatchId: string)
    returns (byName: map<string, AssetPublicSchema>, err: Option<ApiError>)
    ensures err.None? <==> AssetsReadable(st.fails, st.Content(), dispatchId, SCOPE_NODE)
    ensures err.None? ==> byName == LastByName(cfg, NamedAssets(st.Content(), dispatchId, SCOPE_NODE).value)
    ensures err.Some? ==> err.value == ENGINE_FAILURE
  {
    var named;
    named, err := GetDispatchAssets(st, dispatchId);
    if err.Some? {
      return map[], err;
    }
    ghost var all := NamedAssets(st.Content(), dispatchId, SCOPE_NODE);
    assert all.Some? && |all.value| == |named|;
    assert all.value == named by {
      var answer := Select(st.Content(), NAMED_QUERY, [Str(dispatchId), Int(SCOPE_NODE)]);
      forall i | 0 <= i < |named| ensures all.value[i] == named[i] {
        assert ScanNamed(answer[i]) == Some(all.value[i]) == Some(named[i]);
      }
    }
    byName := ByName(cfg, named);
  }

  /**
   * Reads one dispatch (GetDispatch): its row, then the assets linked to it
   * at node -1, copied by name into the runtime and the static slots, which
   * are visited in `dOrder` and `lOrder`. A missing row is the 400 "not
   * found", a failed read a 500; either way nothing is returned.
   * `loadAssets` is accepted and not consulted.
   */
  method GetDispatch(cfg: Config, st: Store, dispatchId: string, loadAssets: bool, dOrder: seq<string>, lOrder: seq<string>)
    returns (d: DispatchSchema, err: Option<ApiError>)
    requires ScopeOrders(dOrder, lOrder)
    ensures err.None? <==> DispatchFound(st.fails, st.Content(), dispatchId)
                           && AssetsReadable(st.fails, st.Content(), dispatchId, SCOPE_NODE)
    ensures err == Some(DispatchNotFound(dispatchId)) <==>
              !st.fails(Reading(DISPATCH_QUERY, [Str(dispatchId)]))
              && forall r :: r in st.Content().dispatches ==> !IsDispatch(r, dispatchId)
    ensures err.None? ==> DispatchRead(cfg, st.Content(), dispatchId, d)
    ensures err.Some? ==> d == NO_DISPATCH && (err.value == ENGINE_FAILURE || err.value == DispatchNotFound(dispatchId))
  {
    var ent;
    ent, err := GetDispatchEntity(st, dispatchId);
    if err.Some? {
      return NO_DISPATCH, err;
    }
    var byName;
    byName, err := ReadScopeAssets(cfg, st, dispatchId);
    if err.Some? {
      return NO_DISPATCH, err;
    }
    var dSlots := FillScope(DispatchAttrsByName(NO_DISPATCH_ASSETS), byName, dOrder);
    var lSlots := FillScope(LatticeAttrsByName(NO_LATTICE_ASSETS), byName, lOrder);
    d := DispatchSchema(ent.d, DispatchFromAttrs(dSlots), LatticeSchema(ent.l, LatticeFromAttrs(lSlots), Graph([], [])));
  }

  /**
   * A slot of a dispatch read back holds the details of an asset linked to
   * the dispatch at node -1 under the slot's name (the last one in name
   * order), as GetPublicEntity hands it out; a slot no linked asset names
   * stays empty.
   */
  lemma DispatchSlotLinked(cfg: Config, db: Db, dispatchId: string, d: DispatchSchema, name: string)
    requires DispatchRead(cfg, db, dispatchId, d) && name in DISPATCH_SLOTS + LATTICE_SLOTS
    ensures var ents := NamedAssets(db, dispatchId, SCOPE_NODE).value;
            var slot := ScopeAttrs(d)[name];
            ((forall i :: 0 <= i < |ents| ==> ents[i].name != name) ==> slot == NO_DETAILS)
            && ((exists i :: 0 <= i < |ents| && ents[i].name == name) ==>
                  exists ne :: LinkedAsset(db, dispatchId, SCOPE_NODE, ne) && ne.name == name
                               && slot == GetPublicEntity(cfg, ne.asset).public.details)
  {
    var ents := NamedAssets(db, dispatchId, SCOPE_NODE).value;
    var byName := LastByName(cfg, ents);
    ReadSlot(cfg, db, dispatchId, d, name);
    NamedAssetsLinked(db, dispatchId, SCOPE_NODE);
    LastByNameSpec(cfg, ents, name);
    if name in byName {
      var i :| 0 <= i < |ents| && ents[i].name == name && byName[name] == GetPublicEntity(cfg, ents[i].asset).public
               && forall j :: i < j < |ents| ==> ents[j].name != name;
      assert LinkedAsset(db, dispatchId, SCOPE_NODE, ents[i]);
    }
  }

  /** A slot of a dispatch read back holds the details of the last asset of its name, or the zero details. */
  lemma ReadSlot(cfg: Config, db: Db, dispatchId: string, d: DispatchSchema, name: string)
    requires DispatchRead(cfg, db, dispatchId, d) && name in DISPATCH_SLOTS + LATTICE_SLOTS
    ensures var byName := LastByName(cfg, NamedAssets(db, dispatchId, SCOPE_NODE).value);
            ScopeAttrs(d)[name] == (if name in byName then byName[name].details else NO_DETAILS)
  {
    ScopeSlotsFromByName(LastByName(cfg, NamedAssets(db, dispatchId, SCOPE_NODE).value), name);
  }
}
