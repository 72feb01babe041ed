/**
 * The asset side of electrons: the eight asset slots of an electron
 * registered as assets under per-node keys and linked to the node
 * (createElectronAssets), and every electron of a dispatch read back with
 * its slots filled from the assets linked to it (GetAllElectrons).
 */
module ElectronSlots {
  import opened Wrappers
  import opened Text
  import opened Tables
  import opened SqlValues
  import opened Database
  import opened ApiErrors
  import opened Environment
  import opened AssetModels
  import opened ElectronModels
  import opened Crud
  import opened Assets
  import opened AssetLinks
  import opened Electrons

  // ---------------------------------------------------------------------
  // Registering the slots

  /** The storage key of a slot: "<dispatch id>/node_<node id>/<slot name>". */
  function SlotKey(dispatchId: string, nodeId: int, name: string): string
  {
    dispatchId + "/node_" + IntToString(nodeId) + "/" + name
  }

  /** Slots of one node get different keys. */
  lemma SlotKeyInjective(dispatchId: string, nodeId: int, a: string, b: string)
    requires SlotKey(dispatchId, nodeId, a) == SlotKey(dispatchId, nodeId, b)
    ensures a == b
  {
    var p := dispatchId + "/node_" + IntToString(nodeId) + "/";
    assert SlotKey(dispatchId, nodeId, a) == p + a && SlotKey(dispatchId, nodeId, b) == p + b;
    assert a == (p + a)[|p|..];
    assert b == (p + b)[|p|..];
  }

  /** The registrations createElectronAssets sends, slot `order[i]` at position i. */
  function SlotSchemas(dispatchId: string, e: ElectronSchema, order: seq<string>): (s: seq<AssetPublicSchema>)
    requires IsSlotOrder(order)
    ensures |s| == |order|
    ensures forall i :: 0 <= i < |order| ==>
              s[i] == AssetPublicSchema(ElectronAttrsByName(e.assets)[order[i]], SlotKey(dispatchId, e.nodeId, order[i]))
  {
    seq(|order|, i requires 0 <= i < |order| =>
                   AssetPublicSchema(ElectronAttrsByName(e.assets)[order[i]], SlotKey(dispatchId, e.nodeId, order[i])))
  }

  /** The links before the asset ids are known: the zero id. */
  function PendingLinks(dispatchId: string, e: ElectronSchema, order: seq<string>): (ls: seq<AssetLink>)
    ensures |ls| == |order| && forall i :: 0 <= i < |order| ==> ls[i] == AssetLink(dispatchId, e.nodeId, "", order[i])
  {
    seq(|order|, i requires 0 <= i < |order| => AssetLink(dispatchId, e.nodeId, "", order[i]))
  }

  /** The links createElectronAssets writes: slot `order[i]` names the asset registered under its key. */
  function SlotLinks(cfg: Config, dispatchId: string, e: ElectronSchema, order: seq<string>): (ls: seq<AssetLink>)
    ensures |ls| == |order|
    ensures forall i :: 0 <= i < |order| ==>
              ls[i] == AssetLink(dispatchId, e.nodeId, ComputeAssetId(cfg, SlotKey(dispatchId, e.nodeId, order[i])), order[i])
  {
    seq(|order|, i requires 0 <= i < |order| =>
                   AssetLink(dispatchId, e.nodeId, ComputeAssetId(cfg, SlotKey(dispatchId, e.nodeId, order[i])), order[i]))
  }

  /** A slot after registration: its remote URI is the one the registered entity carries. */
  function UploadedDetails(cfg: Config, dispatchId: string, nodeId: int, name: string, d: AssetDetails): AssetDetails
  {
    var ent := WithUploadUri(cfg, NewAssetEntityFromPublic(cfg, AssetPublicSchema(d, SlotKey(dispatchId, nodeId, name))));
    d.(remoteUri := ent.public.details.remoteUri)
  }

  function Upload(cfg: Config, dispatchId: string, nodeId: int): (string, AssetDetails) -> AssetDetails
  {
    (n, d) => UploadedDetails(cfg, dispatchId, nodeId, n, d)
  }

  /** The electron's slots after a successful registration. */
  function UploadedSlots(cfg: Config, dispatchId: string, e: ElectronSchema): ElectronAssets
  {
    MapSlots(e.assets, Upload(cfg, dispatchId, e.nodeId))
  }

  /**
   * A slot with content and no URI of its own gets the upload URI under its
   * key in the server's storage; every other slot keeps its remote URI, and
   * no other field changes.
   */
  lemma UploadedSlotUri(cfg: Config, dispatchId: string, e: ElectronSchema, name: string)
    requires name in ELECTRON_SLOTS
    ensures var d := ElectronAttrsByName(e.assets)[name];
            var u := ElectronAttrsByName(UploadedSlots(cfg, dispatchId, e))[name];
            u.remoteUri == (if d.size > 0 && d.uri == ""
                            then STORAGE_SCHEME + "://" + cfg.storagePath + "/" + SlotKey(dispatchId, e.nodeId, name)
                            else d.remoteUri)
            && u == d.(remoteUri := u.remoteUri)
  {
    MapSlotsByName(e.assets, Upload(cfg, dispatchId, e.nodeId), name);
  }

  /** The key maps of createElectronAssets after `count` slots: each slot's key leads to its position and its name. */
  predicate Indexed(dispatchId: string, nodeId: int, order: seq<string>, count: nat,
                    keyCount: map<string, int>, attrsByKey: map<string, string>)
    requires count <= |order|
  {
    forall k :: 0 <= k < count ==>
      SlotKey(dispatchId, nodeId, order[k]) in keyCount && keyCount[SlotKey(dispatchId, nodeId, order[k])] == k
      && SlotKey(dispatchId, nodeId, order[k]) in attrsByKey && attrsByKey[SlotKey(dispatchId, nodeId, order[k])] == order[k]
  }

  /** Indexing one more slot keeps the earlier entries: the slots of a node have distinct keys. */
  lemma IndexedStep(dispatchId: string, nodeId: int, order: seq<string>, count: nat,
                    keyCount: map<string, int>, attrsByKey: map<string, string>)
    requires count < |order| && Distinct(order) && Indexed(dispatchId, nodeId, order, count, keyCount, attrsByKey)
    ensures var key := SlotKey(dispatchId, nodeId, order[count]);
            Indexed(dispatchId, nodeId, order, count + 1, keyCount[key := count], attrsByKey[key := order[count]])
  {
    var key := SlotKey(dispatchId, nodeId, order[count]);
    forall k | 0 <= k < count ensures SlotKey(dispatchId, nodeId, order[k]) != key {
      if SlotKey(dispatchId, nodeId, order[k]) == key {
        SlotKeyInjective(dispatchId, nodeId, order[k], order[count]);
      }
    }
  }

  /** The first loop of createElectronAssets: a registration and a pending link per slot, indexed by key. */
  method CollectSlots(dispatchId: string, e: ElectronSchema, order: seq<string>)
    returns (schemas: seq<AssetPublicSchema>, links: seq<AssetLink>, keyCount: map<string, int>,
             attrsByKey: map<string, string>)
    requires IsSlotOrder(order)
    ensures schemas == SlotSchemas(dispatchId, e, order) && links == PendingLinks(dispatchId, e, order)
    ensures Indexed(dispatchId, e.nodeId, order, |order|, keyCount, attrsByKey)
  {
    ghost var wantSchemas := SlotSchemas(dispatchId, e, order);
    ghost var wantLinks := PendingLinks(dispatchId, e, order);
    var attrs := ElectronAttrsByName(e.assets);
    schemas, links, keyCount, attrsByKey := [], [], map[], map[];
    var count := 0;
    while count < |order|
      invariant 0 <= count <= |order|
      invariant schemas == wantSchemas[..count] && links == wantLinks[..count]
      invariant Indexed(dispatchId, e.nodeId, order, count, keyCount, attrsByKey)
    {
      var name := order[count];
      var key := SlotKey(dispatchId, e.nodeId, name);
      IndexedStep(dispatchId, e.nodeId, order, count, keyCount, attrsByKey);
      keyCount := keyCount[key := count];
      attrsByKey := attrsByKey[key := name];
      assert wantSchemas[..count + 1] == wantSchemas[..count] + [AssetPublicSchema(attrs[name], key)];
      assert wantLinks[..count + 1] == wantLinks[..count] + [AssetLink(dispatchId, e.nodeId, "", name)];
      schemas := schemas + [AssetPublicSchema(attrs[name], key)];
      links := links + [AssetLink(dispatchId, e.nodeId, "", name)];
      count := count + 1;
    }
    assert wantSchemas[..count] == wantSchemas && wantLinks[..count] == wantLinks;
  }

  /**
   * The second loop of createElectronAssets: each registered entity hands its
   * remote URI to the slot its key came from and its id to that slot's link.
   */
  method RecordUploads(cfg: Config, dispatchId: string, e: ElectronSchema, order: seq<string>, ents: seq<AssetEntity>,
                       pending: seq<AssetLink>, keyCount: map<string, int>, attrsByKey: map<string, string>)
    returns (assets: ElectronAssets, links: seq<AssetLink>)
    requires IsSlotOrder(order) && |ents| == |order|
    requires forall i :: 0 <= i < |order| ==>
               ents[i] == WithUploadUri(cfg, NewAssetEntityFromPublic(cfg, SlotSchemas(dispatchId, e, order)[i]))
    requires pending == PendingLinks(dispatchId, e, order)
    requires Indexed(dispatchId, e.nodeId, order, |order|, keyCount, attrsByKey)
    ensures assets == UploadedSlots(cfg, dispatchId, e) && links == SlotLinks(cfg, dispatchId, e, order)
  {
    ghost var f := Upload(cfg, dispatchId, e.nodeId);
    ghost var want := SlotLinks(cfg, dispatchId, e, order);
    assets, links := e.assets, pending;
    var j := 0;
    while j < |ents|
      invariant 0 <= j <= |ents| && |links| == |order|
      invariant forall n :: n in ELECTRON_SLOTS ==>
                  ElectronAttrsByName(assets)[n]
                  == (if n in order[..j] then f(n, ElectronAttrsByName(e.assets)[n]) else ElectronAttrsByName(e.assets)[n])
      invariant forall k :: 0 <= k < |order| ==> links[k] == (if k < j then want[k] else pending[k])
    {
      var ent := ents[j];
      UploadedEntity(cfg, dispatchId, e, order, j, ent);
      var slot := attrsByKey[ent.public.key];
      SlotLoopStep(e.assets, assets, f, order, j);
      var details := ElectronAttrsByName(assets)[slot];
      assets := ElectronWithAttr(assets, slot, details.(remoteUri := ent.public.details.remoteUri));
      var c := keyCount[ent.public.key];
      links := links[c := links[c].(assetId := ent.id)];
      j := j + 1;
    }
    forall n | n in ELECTRON_SLOTS ensures ElectronAttrsByName(assets)[n] == f(n, ElectronAttrsByName(e.assets)[n]) {
      assert order[..j] == order;
    }
    SlotLoopDone(e.assets, assets, f);
  }

  /** The entity registered for slot `order[j]` carries that slot's key, its id and its upload URI. */
  lemma UploadedEntity(cfg: Config, dispatchId: string, e: ElectronSchema, order: seq<string>, j: nat, ent: AssetEntity)
    requires IsSlotOrder(order) && j < |order|
    requires ent == WithUploadUri(cfg, NewAssetEntityFromPublic(cfg, SlotSchemas(dispatchId, e, order)[j]))
    ensures ent.public.key == SlotKey(dispatchId, e.nodeId, order[j])
    ensures ent.id == ComputeAssetId(cfg, SlotKey(dispatchId, e.nodeId, order[j]))
    ensures ElectronAttrsByName(e.assets)[order[j]].(remoteUri := ent.public.details.remoteUri)
            == UploadedDetails(cfg, dispatchId, e.nodeId, order[j], ElectronAttrsByName(e.assets)[order[j]])
  {
    var p := SlotSchemas(dispatchId, e, order)[j];
    assert Stored(ent) == Stored(NewAssetEntityFromPublic(cfg, p));
  }

  /**
   * Registers the eight slots of an electron as assets keyed
   * "<dispatch>/node_<node>/<slot>", then links each slot's name to its asset
   * (createElectronAssets). The slots are visited in `order`, the iteration
   * order of the AttrsByName map. When the asset insert fails nothing is
   * linked and the slots are returned as they came; otherwise each slot
   * carries the remote URI its registration assigned.
   */
  method CreateElectronAssets(cfg: Config, st: Store, dispatchId: string, e: ElectronSchema, order: seq<string>)
    returns (assets: ElectronAssets, err: Option<ApiError>)
    requires IsSlotOrder(order)
    modifies st
    ensures var vals := AssetRows(Registrations(cfg, SlotSchemas(dispatchId, e, order)));
            var n := Inserted(st.fails, INSERT_ASSET, vals);
            var mid := RunAll(old(st.Content()), INSERT_ASSET, vals[..n]);
            if n < |vals| then err == Some(ENGINE_FAILURE) && st.Content() == mid && assets == e.assets
            else
              var links := LinkRows(SlotLinks(cfg, dispatchId, e, order));
              InsertOutcome(st.fails, INSERT_LINK, links, mid, st.Content(), Inserted(st.fails, INSERT_LINK, links), err)
              && assets == UploadedSlots(cfg, dispatchId, e)
    ensures var want := SlotsOutcome(st.fails, cfg, dispatchId, e, order, old(st.Content()));
            st.Content() == want.0 && assets == want.1 && err == want.2
  {
    var schemas, pending, keyCount, attrsByKey := CollectSlots(dispatchId, e, order);
    var ents, assetErr := CreateAssets(cfg, st, schemas);
    if assetErr.Some? {
      return e.assets, assetErr;
    }
    var links;
    assets, links := RecordUploads(cfg, dispatchId, e, order, ents, pending, keyCount, attrsByKey);
    err := CreateAssetLinks(st, links);
  }

  /**
   * What createElectronAssets leaves behind, as one value: the store, the
   * node's slots and the error. A failed registration stops before any link
   * is written and leaves the slots as they were; once the assets are in, the
   * slots carry their remote URIs whether or not the links go in.
   */
  function SlotsOutcome(fails: Op -> bool, cfg: Config, dispatchId: string, e: ElectronSchema, order: seq<string>, db: Db)
    : (o: (Db, ElectronAssets, Option<ApiError>))
    requires IsSlotOrder(order)
    ensures o.2.Some? ==> o.2.value == ENGINE_FAILURE
    ensures o.1 == e.assets || o.1 == UploadedSlots(cfg, dispatchId, e)
    ensures o.2.None? ==> o.1 == UploadedSlots(cfg, dispatchId, e)
  {
    var vals := AssetRows(Registrations(cfg, SlotSchemas(dispatchId, e, order)));
    var n := Inserted(fails, INSERT_ASSET, vals);
    var mid := RunAll(db, INSERT_ASSET, vals[..n]);
    if n < |vals| then (mid, e.assets, Some(ENGINE_FAILURE))
    else
      var links := LinkRows(SlotLinks(cfg, dispatchId, e, order));
      var m := Inserted(fails, INSERT_LINK, links);
      (RunAll(mid, INSERT_LINK, links[..m]), UploadedSlots(cfg, dispatchId, e),
       if m == |links| then None else Some(ENGINE_FAILURE))
  }

  /** createElectronAssets writes only the asset and link tables. */
  lemma SlotsOutcomeTables(fails: Op -> bool, cfg: Config, dispatchId: string, e: ElectronSchema, order: seq<string>, db: Db)
    requires IsSlotOrder(order)
    ensures var after := SlotsOutcome(fails, cfg, dispatchId, e, order, db).0;
            after.dispatches == db.dispatches && after.electrons == db.electrons && after.edges == db.edges
  {
    var vals := AssetRows(Registrations(cfg, SlotSchemas(dispatchId, e, order)));
    var n := Inserted(fails, INSERT_ASSET, vals);
    var mid := RunAll(db, INSERT_ASSET, vals[..n]);
    RunAllKeepsOthers(db, Assets, ASSET_KEYS, vals[..n]);
    assert mid.Rows(Dispatches) == db.Rows(Dispatches) && mid.Rows(Electrons) == db.Rows(Electrons)
           && mid.Rows(Edges) == db.Rows(Edges);
    var links := LinkRows(SlotLinks(cfg, dispatchId, e, order));
    var m := Inserted(fails, INSERT_LINK, links);
    RunAllKeepsOthers(mid, AssetLinks, ASSET_LINK_KEYS, links[..m]);
  }

  /** Registering an electron's slots, however far it gets, loses no row of any table. */
  lemma SlotsOutcomeKeepsRows(fails: Op -> bool, cfg: Config, dispatchId: string, e: ElectronSchema, order: seq<string>,
                              db: Db, u: Table)
    requires IsSlotOrder(order)
    ensures RowsKept(db, SlotsOutcome(fails, cfg, dispatchId, e, order, db).0, u)
  {
    var vals := AssetRows(Registrations(cfg, SlotSchemas(dispatchId, e, order)));
    var n := Inserted(fails, INSERT_ASSET, vals);
    var mid := RunAll(db, INSERT_ASSET, vals[..n]);
    RunAllKeepsRows(db, Assets, ASSET_KEYS, vals[..n], u);
    var links := LinkRows(SlotLinks(cfg, dispatchId, e, order));
    RunAllKeepsRows(mid, AssetLinks, ASSET_LINK_KEYS, links[..Inserted(fails, INSERT_LINK, links)], u);
  }

  /** Some link row of the node carries the name and the id of a stored asset row. */
  predicate LinkStored(db: Db, dispatchId: string, nodeId: int, name: string)
  {
    exists l, b :: l in db.links && b in db.assets
                   && Get(l, ASSET_LINKS_TABLE_DISPATCH_ID) == Str(dispatchId)
                   && Get(l, ASSET_LINKS_TABLE_NODE_ID) == Int(nodeId)
                   && Get(l, ASSET_LINKS_TABLE_NAME) == Str(name)
                   && NamedPair(l, b)
  }

  /** A stored link stays stored while no asset row and no link row is lost. */
  lemma LinkStoredKept(db: Db, after: Db, dispatchId: string, nodeId: int, name: string)
    requires LinkStored(db, dispatchId, nodeId, name)
    requires RowsKept(db, after, Assets) && RowsKept(db, after, AssetLinks)
    ensures LinkStored(after, dispatchId, nodeId, name)
  {
    var l, b :| l in db.links && b in db.assets
                && Get(l, ASSET_LINKS_TABLE_DISPATCH_ID) == Str(dispatchId)
                && Get(l, ASSET_LINKS_TABLE_NODE_ID) == Int(nodeId)
                && Get(l, ASSET_LINKS_TABLE_NAME) == Str(name)
                && NamedPair(l, b);
    assert l in db.Rows(AssetLinks) && b in db.Rows(Assets);
    assert l in after.links && b in after.assets;
  }

  /**
   * Registering assets and then writing links, where link `i` names the
   * asset registered for schema `i`: that link pairs with a stored asset
   * row, and the link table grows by one row per link.
   */
  lemma RegisteredLinkStored(cfg: Config, db: Db, schemas: seq<AssetPublicSchema>, links: seq<AssetLink>, i: nat)
    requires i < |schemas| && i < |links| && links[i].assetId == ComputeAssetId(cfg, schemas[i].key)
    ensures var mid := RunAll(db, INSERT_ASSET, AssetRows(Registrations(cfg, schemas)));
            var after := RunAll(mid, INSERT_LINK, LinkRows(links));
            LinkStored(after, links[i].dispatchId, links[i].nodeId, links[i].name) && |after.links| == |db.links| + |links|
  {
    var mid := RunAll(db, INSERT_ASSET, AssetRows(Registrations(cfg, schemas)));
    var after := RunAll(mid, INSERT_LINK, LinkRows(links));
    RegistrationStoresIds(cfg, db, schemas);
    var b :| b in mid.assets && Get(b, ASSET_TABLE_ID) == Str(ComputeAssetId(cfg, schemas[i].key));
    assert mid.Rows(AssetLinks) == db.Rows(AssetLinks);
    LinksAppended(mid, links);
    var l := after.links[|mid.links| + i];
    LinkRowFields(l, links[i]);
    assert after.Rows(Assets) == mid.Rows(Assets);
    assert l in after.links && b in after.assets && NamedPair(l, b);
  }

  /**
   * After both inserts succeed, every slot of the electron has a link row of
   * the node under the slot's name whose asset id names a stored asset row:
   * the pair the named-asset join reads back.
   */
  lemma SlotsLinked(cfg: Config, db: Db, dispatchId: string, e: ElectronSchema, order: seq<string>, name: string)
    requires IsSlotOrder(order) && name in ELECTRON_SLOTS
    ensures var mid := RunAll(db, INSERT_ASSET, AssetRows(Registrations(cfg, SlotSchemas(dispatchId, e, order))));
            var after := RunAll(mid, INSERT_LINK, LinkRows(SlotLinks(cfg, dispatchId, e, order)));
            LinkStored(after, dispatchId, e.nodeId, name)
  {
    var schemas := SlotSchemas(dispatchId, e, order);
    var links := SlotLinks(cfg, dispatchId, e, order);
    var i :| 0 <= i < |order| && order[i] == name;
    assert schemas[i].key == SlotKey(dispatchId, e.nodeId, name);
    RegisteredLinkStored(cfg, db, schemas, links, i);
  }

  /** A row that scans as a link holds the link's fields. */
  lemma LinkRowFields(r: Row, link: AssetLink)
    requires ScanLink(Project(r, ASSET_LINK_KEYS)) == Some(link)
    ensures Get(r, ASSET_LINKS_TABLE_DISPATCH_ID) == Str(link.dispatchId) && Get(r, ASSET_LINKS_TABLE_NODE_ID) == Int(link.nodeId)
    ensures Get(r, ASSET_LINKS_TABLE_ASSET_ID) == Str(link.assetId) && Get(r, ASSET_LINKS_TABLE_NAME) == Str(link.name)
  {
    var vs := Project(r, ASSET_LINK_KEYS);
    assert vs == LinkValues(link);
    assert vs[0] == Get(r, ASSET_LINK_KEYS[0]) && vs[1] == Get(r, ASSET_LINK_KEYS[1]);
    assert vs[2] == Get(r, ASSET_LINK_KEYS[2]) && vs[3] == Get(r, ASSET_LINK_KEYS[3]);
  }

  // ---------------------------------------------------------------------
  // Reading the slots back

  /** The named assets of a node as GetElectronAssets reads them, or None when some row does not scan. */
  function NamedAssets(db: Db, dispatchId: string, nodeId: int): Option<seq<NamedAssetEntity>>
  {
    ScanAll(Select(db, NAMED_QUERY, [Str(dispatchId), Int(nodeId)]), ScanNamed)
  }

  /** Each row's name mapped to the value at the same position; a later row with the same name wins. */
  function LastBy<V>(ents: seq<NamedAssetEntity>, vals: seq<V>): map<string, V>
    requires |ents| == |vals|
  {
    if |ents| == 0 then map[]
    else LastBy(ents[..|ents| - 1], vals[..|vals| - 1])[ents[|ents| - 1].name := vals[|vals| - 1]]
  }

  /** Each row's asset as GetPublicEntity hands it out. */
  function Publics(cfg: Config, ents: seq<NamedAssetEntity>): (ps: seq<AssetPublicSchema>)
    ensures |ps| == |ents| && forall i :: 0 <= i < |ents| ==> ps[i] == GetPublicEntity(cfg, ents[i].asset).public
  {
    seq(|ents|, i requires 0 <= i < |ents| => GetPublicEntity(cfg, ents[i].asset).public)
  }

  /** asset_details_by_name: each name mapped to its asset's public part; a later row with the same name wins. */
  function LastByName(cfg: Config, ents: seq<NamedAssetEntity>): map<string, AssetPublicSchema>
  {
    LastBy(ents, Publics(cfg, ents))
  }

  /** The loop of GetAllElectrons that fills asset_details_by_name. */
  method ByName(cfg: Config, ents: seq<NamedAssetEntity>) returns (m: map<string, AssetPublicSchema>)
    ensures m == LastByName(cfg, ents)
  {
    ghost var ps := Publics(cfg, ents);
    m := map[];
    var i := 0;
    while i < |ents|
      invariant 0 <= i <= |ents|
      invariant m == LastBy(ents[..i], ps[..i])
    {
      assert ents[..i + 1][..i] == ents[..i] && ps[..i + 1][..i] == ps[..i];
      m := m[ents[i].name := GetPublicEntity(cfg, ents[i].asset).public];
      i := i + 1;
    }
    assert ents[..i] == ents && ps[..i] == ps;
  }

  /** A name has an entry exactly when some row carries it. */
  lemma {:induction false} LastByKeys<V>(ents: seq<NamedAssetEntity>, vals: seq<V>, name: string)
    requires |ents| == |vals|
    ensures name in LastBy(ents, vals) <==> exists i :: 0 <= i < |ents| && ents[i].name == name
  {
    if |ents| > 0 {
      var n := |ents| - 1;
      var init := ents[..n];
      LastByKeys(init, vals[..n], name);
      if ents[n].name != name {
        forall i | 0 <= i < |ents| && ents[i].name == name ensures 0 <= i < |init| && init[i].name == name {
        }
        forall i | 0 <= i < |init| && init[i].name == name ensures ents[i].name == name {
        }
      }
    }
  }

  /** The entry of a name comes from the last row that carries it. */
  lemma {:induction false} LastByLast<V>(ents: seq<NamedAssetEntity>, vals: seq<V>, i: nat)
    requires |ents| == |vals| && i < |ents| && forall j :: i < j < |ents| ==> ents[j].name != ents[i].name
    ensures ents[i].name in LastBy(ents, vals) && LastBy(ents, vals)[ents[i].name] == vals[i]
  {
    var n := |ents| - 1;
    var init := ents[..n];
    if i < n {
      var name := ents[i].name;
      assert init[i] == ents[i] && vals[..n][i] == vals[i];
      forall j | i < j < |init| ensures init[j].name != name {
        assert init[j] == ents[j];
      }
      LastByLast(init, vals[..n], i);
      assert ents[n].name != name;
    }
  }

  /** Among the rows carrying a name, there is a last one. */
  lemma {:induction false} LastOccurrence(ents: seq<NamedAssetEntity>, name: string, i0: nat)
    requires i0 < |ents| && ents[i0].name == name
    ensures exists i :: i0 <= i < |ents| && ents[i].name == name && forall j :: i < j < |ents| ==> ents[j].name != name
    decreases |ents| - i0
  {
    if exists j :: i0 < j < |ents| && ents[j].name == name {
      var j :| i0 < j < |ents| && ents[j].name == name;
      LastOccurrence(ents, name, j);
    }
  }

  /** A name has an entry exactly when some row carries it, and the entry comes from the last such row. */
  lemma LastByNameSpec(cfg: Config, ents: seq<NamedAssetEntity>, name: string)
    ensures name in LastByName(cfg, ents) <==> exists i :: 0 <= i < |ents| && ents[i].name == name
    ensures name in LastByName(cfg, ents) ==>
              exists i :: 0 <= i < |ents| && ents[i].name == name
                          && LastByName(cfg, ents)[name] == GetPublicEntity(cfg, ents[i].asset).public
                          && forall j :: i < j < |ents| ==> ents[j].name != name
  {
    LastByKeys(ents, Publics(cfg, ents), name);
    if name in LastByName(cfg, ents) {
      var i0 :| 0 <= i0 < |ents| && ents[i0].name == name;
      LastOccurrence(ents, name, i0);
      var i :| i0 <= i < |ents| && ents[i].name == name && forall j :: i < j < |ents| ==> ents[j].name != name;
      LastByLast(ents, Publics(cfg, ents), i);
    }
  }

  /** A slot takes over the details of the asset of its name, when there is one. */
  function Filled(m: map<string, AssetPublicSchema>, name: string, d: AssetDetails): AssetDetails
  {
    if name in m then Copy(d, m[name].details) else d
  }

  /** The slots GetAllElectrons fills from a name map, starting from empty slots. */
  function SlotsFrom(m: map<string, AssetPublicSchema>): ElectronAssets
  {
    MapSlots(NO_ELECTRON_ASSETS, Fill(m))
  }

  function Fill(m: map<string, AssetPublicSchema>): (string, AssetDetails) -> AssetDetails
  {
    (n, d) => Filled(m, n, d)
  }

  /** A slot holds the details of the asset of its name, or the zero details when no asset has that name. */
  lemma SlotsFromByName(m: map<string, AssetPublicSchema>, name: string)
    requires name in ELECTRON_SLOTS
    ensures ElectronAttrsByName(SlotsFrom(m))[name] == (if name in m then m[name].details else NO_DETAILS)
  {
    MapSlotsByName(NO_ELECTRON_ASSETS, Fill(m), name);
  }

  /** The slot-filling loop of GetAllElectrons, over the AttrsByName map in `order`. */
  method FillElectronAssets(m: map<string, AssetPublicSchema>, order: seq<string>) returns (a: ElectronAssets)
    requires IsSlotOrder(order)
    ensures a == SlotsFrom(m)
  {
    ghost var f := Fill(m);
    a := NO_ELECTRON_ASSETS;
    var k := 0;
    while k < |order|
      invariant 0 <= k <= |order|
      invariant forall n :: n in ELECTRON_SLOTS ==>
                  ElectronAttrsByName(a)[n]
                  == (if n in order[..k] then f(n, ElectronAttrsByName(NO_ELECTRON_ASSETS)[n])
                      else ElectronAttrsByName(NO_ELECTRON_ASSETS)[n])
    {
      var name := order[k];
      SlotLoopStep(NO_ELECTRON_ASSETS, a, f, order, k);
      var refs := ElectronAttrsByName(a);
      if name in m {
        a := ElectronWithAttr(a, name, Copy(refs[name], m[name].details));
      } else {
        ElectronWithSameAttr(a, name);
      }
      k := k + 1;
    }
    forall n | n in ELECTRON_SLOTS ensures ElectronAttrsByName(a)[n] == f(n, ElectronAttrsByName(NO_ELECTRON_ASSETS)[n]) {
      assert order[..k] == order;
    }
    SlotLoopDone(NO_ELECTRON_ASSETS, a, f);
  }

  /** The slots of one node as GetAllElectrons fills them, or None when its named assets do not scan. */
  function NodeAssets(cfg: Config, db: Db, dispatchId: string, nodeId: int): (r: Option<ElectronAssets>)
    ensures r.Some? <==> NamedAssets(db, dispatchId, nodeId).Some?
  {
    match NamedAssets(db, dispatchId, nodeId)
    case None => None
    case Some(ents) => Some(SlotsFrom(LastByName(cfg, ents)))
  }

  /** The read of one node's named assets goes through. */
  predicate AssetsReadable(fails: Op -> bool, db: Db, dispatchId: string, nodeId: int)
  {
    !fails(Reading(NAMED_QUERY, [Str(dispatchId), Int(nodeId)])) && NamedAssets(db, dispatchId, nodeId).Some?
  }

  /** The named-asset reads of nodes 0 .. i-1 and of node i go through: so do those of nodes 0 .. i. */
  lemma ReadableExtends(fails: Op -> bool, db: Db, dispatchId: string, i: nat)
    requires forall k :: 0 <= k < i ==> AssetsReadable(fails, db, dispatchId, k)
    requires AssetsReadable(fails, db, dispatchId, i)
    ensures forall k :: 0 <= k < i + 1 ==> AssetsReadable(fails, db, dispatchId, k)
  {
  }

  /**
   * A filled slot comes from an asset linked to the node under the slot's
   * name (the last one in name order), as GetPublicEntity hands it out; a
   * slot no linked asset names stays empty.
   */
  lemma NodeSlotLinked(cfg: Config, db: Db, dispatchId: string, nodeId: int, name: string)
    requires name in ELECTRON_SLOTS && NamedAssets(db, dispatchId, nodeId).Some?
    ensures var ents := NamedAssets(db, dispatchId, nodeId).value;
            var slot := ElectronAttrsByName(NodeAssets(cfg, db, dispatchId, nodeId).value)[name];
            ((forall i :: 0 <= i < |ents| ==> ents[i].name != name) ==> slot == NO_DETAILS)
            && ((exists i :: 0 <= i < |ents| && ents[i].name == name) ==>
                  exists ne :: LinkedAsset(db, dispatchId, nodeId, ne) && ne.name == name
                               && slot == GetPublicEntity(cfg, ne.asset).public.details)
  {
    var ents := NamedAssets(db, dispatchId, nodeId).value;
    var m := LastByName(cfg, ents);
    NamedAssetsLinked(db, dispatchId, nodeId);
    LastByNameSpec(cfg, ents, name);
    SlotsFromByName(m, name);
    if name in m {
      var i :| 0 <= i < |ents| && ents[i].name == name && m[name] == GetPublicEntity(cfg, ents[i].asset).public
               && forall j :: i < j < |ents| ==> ents[j].name != name;
      assert LinkedAsset(db, dispatchId, nodeId, ents[i]);
    }
  }

  /** Every named asset a node reads is linked to that node. */
  lemma NamedAssetsLinked(db: Db, dispatchId: string, nodeId: int)
    requires NamedAssets(db, dispatchId, nodeId).Some?
    ensures forall i :: 0 <= i < |NamedAssets(db, dispatchId, nodeId).value| ==>
              LinkedAsset(db, dispatchId, nodeId, NamedAssets(db, dispatchId, nodeId).value[i])
  {
    NamedAssetsOfNode(db, dispatchId, nodeId, NamedAssets(db, dispatchId, nodeId).value);
  }

  /** One node's slots: its named assets read, mapped by name, copied into the slots. */
  method ReadNodeAssets(cfg: Config, st: Store, dispatchId: string, nodeId: int, order: seq<string>)
    returns (assets: ElectronAssets, err: Option<ApiError>)
    requires IsSlotOrder(order)
    ensures err.None? <==> AssetsReadable(st.fails, st.Content(), dispatchId, nodeId)
    ensures err.None? ==> NodeAssets(cfg, st.Content(), dispatchId, nodeId) == Some(assets)
    ensures err.Some? ==> err.value == ENGINE_FAILURE
  {
    var named;
    named, err := GetElectronAssets(st, dispatchId, nodeId);
    if err.Some? {
      return NO_ELECTRON_ASSETS, err;
    }
    ghost var all := NamedAssets(st.Content(), dispatchId, nodeId);
    assert all.Some? && |all.value| == |named|;
    assert all.value == named by {
      var answer := Select(st.Content(), NAMED_QUERY, [Str(dispatchId), Int(nodeId)]);
      forall i | 0 <= i < |named| ensures all.value[i] == named[i] {
        assert ScanNamed(answer[i]) == Some(all.value[i]) == Some(named[i]);
      }
    }
    var byName := ByName(cfg, named);
    assets := FillElectronAssets(byName, order);
  }

  /** Electron `e` is node `nodeId` with metadata `meta` and its slots filled from the node's linked assets. */
  predicate NodeRead(cfg: Config, db: Db, dispatchId: string, nodeId: int, meta: ElectronMeta, e: ElectronSchema)
  {
    e.nodeId == nodeId && e.metadata == meta && NodeAssets(cfg, db, dispatchId, nodeId) == Some(e.assets)
  }

  /** Every read GetAllElectrons makes goes through: the dispatch's electrons, then each node's named assets. */
  predicate ElectronsReadable(fails: Op -> bool, db: Db, dispatchId: string)
  {
    !fails(Reading(DISPATCH_QUERY, [Str(dispatchId)])) && DispatchElectrons(db, dispatchId).Some?
    && forall i :: 0 <= i < |DispatchElectrons(db, dispatchId).value| ==> AssetsReadable(fails, db, dispatchId, i)
  }

  /** `electrons` are the dispatch's electrons in node order, numbered by position, with their slots read back. */
  predicate ElectronsLoaded(cfg: Config, db: Db, dispatchId: string, electrons: seq<ElectronSchema>)
  {
    DispatchElectrons(db, dispatchId).Some?
    && var es := DispatchElectrons(db, dispatchId).value;
       |electrons| == |es|
       && forall i :: 0 <= i < |es| ==> NodeRead(cfg, db, dispatchId, i, es[i].meta, electrons[i])
  }

  /**
   * Every electron of the dispatch in node order, numbered by its position,
   * with its metadata and its slots filled from its linked assets
   * (GetAllElectrons). Any failed read is a 500 and no electron is returned.
   * `loadAssets` is accepted and not consulted.
   */
  method GetAllElectrons(cfg: Config, st: Store, dispatchId: string, loadAssets: bool, order: seq<string>)
    returns (electrons: seq<ElectronSchema>, err: Option<ApiError>)
    requires IsSlotOrder(order)
    ensures err.None? <==> ElectronsReadable(st.fails, st.Content(), dispatchId)
    ensures err.None? ==> ElectronsLoaded(cfg, st.Content(), dispatchId, electrons)
    ensures err.Some? ==> err.value == ENGINE_FAILURE && electrons == []
  {
    var metas;
    metas, err := GetAllElectronMeta(st, dispatchId);
    if err.Some? {
      return [], err;
    }
    electrons, err := ReadElectrons(cfg, st, dispatchId, metas, order);
  }

  /** The loop of GetAllElectrons: electron i is node i with metadata `metas[i]` and its slots read back. */
  method ReadElectrons(cfg: Config, st: Store, dispatchId: string, metas: seq<ElectronMeta>, order: seq<string>)
    returns (electrons: seq<ElectronSchema>, err: Option<ApiError>)
    requires IsSlotOrder(order)
    ensures err.None? <==> forall i :: 0 <= i < |metas| ==> AssetsReadable(st.fails, st.Content(), dispatchId, i)
    ensures err.None? ==>
              |electrons| == |metas| && forall i :: 0 <= i < |metas| ==> NodeRead(cfg, st.Content(), dispatchId, i, metas[i], electrons[i])
    ensures err.Some? ==> err.value == ENGINE_FAILURE && electrons == []
  {
    ghost var db := st.Content();
    electrons := seq(|metas|, _ => ElectronSchema(0, NO_ELECTRON_META, NO_ELECTRON_ASSETS));
    var i := 0;
    while i < |metas|
      invariant 0 <= i <= |metas| == |electrons|
      invariant forall k :: 0 <= k < i ==> AssetsReadable(st.fails, db, dispatchId, k)
      invariant forall k :: 0 <= k < i ==> NodeRead(cfg, db, dispatchId, k, metas[k], electrons[k])
    {
      var assets, assetErr := ReadNodeAssets(cfg, st, dispatchId, i, order);
      if assetErr.Some? {
        return [], assetErr;
      }
      ReadableExtends(st.fails, db, dispatchId, i);
      electrons := electrons[i := ElectronSchema(i, metas[i], assets)];
      i := i + 1;
    }
    err := None;
  }
}
