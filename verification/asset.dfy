/**
 * Asset records: the row an asset is registered as, its internal `file://`
 * URI, batch registration with upload URIs, and the lookup of assets by key
 * prefix.
 */
module Assets {
  import opened Wrappers
  import opened Text
  import opened Tables
  import opened SqlValues
  import opened RowOrder
  import opened Templates
  import opened Database
  import opened ApiErrors
  import opened Environment
  import opened AssetModels
  import opened Crud

  /** The only internal URL scheme: storage local to the server. */
  const STORAGE_SCHEME := "file"

  /** An asset as stored: its public description plus the id (the MD5 of its key), scheme and base path. */
  datatype AssetEntity = AssetEntity(public: AssetPublicSchema, id: string, scheme: string, basePath: string)

  /** The hex MD5 digest of the key. */
  function ComputeAssetId(cfg: Config, key: string): string
  {
    cfg.md5Hex(key)
  }

  function NewAssetEntityFromPublic(cfg: Config, p: AssetPublicSchema): AssetEntity
  {
    AssetEntity(p, ComputeAssetId(cfg, p.key), STORAGE_SCHEME, cfg.storagePath)
  }

  /**
   * The values written for the columns of ASSET_KEYS, in order. The "digest"
   * column receives the digest algorithm and "digest_alg" the digest, and
   * "remote_uri" receives the client's own URI.
   */
  function AssetValues(e: AssetEntity): (vs: seq<Value>)
    ensures |vs| == |ASSET_KEYS|
  {
    var d := e.public.details;
    [Str(e.id), Str(e.scheme), Str(e.basePath), Str(e.public.key), Int(d.size), Str(d.digestAlg), Str(d.digest), Str(d.uri)]
  }

  /**
   * Scans a result row of the ASSET_KEYS columns into a fresh entity, field
   * by field in the same order as AssetValues; the remote URI starts empty.
   * A row of the wrong shape is a scan error.
   */
  function ScanAsset(vs: seq<Value>): (r: Option<AssetEntity>)
    ensures r.Some? ==> vs == AssetValues(r.value) && r.value.public.details.remoteUri == ""
  {
    if |vs| == 8 && vs[0].Str? && vs[1].Str? && vs[2].Str? && vs[3].Str? && vs[4].Int? && vs[5].Str? && vs[6].Str?
       && vs[7].Str?
    then Some(AssetEntity(AssetPublicSchema(AssetDetails(vs[5].s, vs[6].s, vs[7].s, "", vs[4].i), vs[3].s),
                          vs[0].s, vs[1].s, vs[2].s))
    else None
  }

  /** The entity with its remote URI cleared: what reading it back yields. */
  function Stored(e: AssetEntity): AssetEntity
  {
    e.(public := e.public.(details := e.public.details.(remoteUri := "")))
  }

  /** Every registered entity scans back as itself, except the remote URI, which is not stored. */
  lemma ScanAssetValues(e: AssetEntity)
    ensures ScanAsset(AssetValues(e)) == Some(Stored(e))
  {
  }

  /** The row a registered asset occupies, column by column. */
  lemma StoredAssetRow(e: AssetEntity)
    ensures var row := ZipRow(ASSET_KEYS, AssetValues(e));
            var d := e.public.details;
            Get(row, ASSET_TABLE_ID) == Str(e.id) && Get(row, ASSET_TABLE_SCHEME) == Str(e.scheme)
            && Get(row, ASSET_TABLE_BASE) == Str(e.basePath) && Get(row, ASSET_TABLE_KEY) == Str(e.public.key)
            && Get(row, ASSET_TABLE_SIZE) == Int(d.size) && Get(row, ASSET_TABLE_DIGEST) == Str(d.digestAlg)
            && Get(row, ASSET_TABLE_DIGEST_ALG) == Str(d.digest) && Get(row, ASSET_TABLE_REMOTE_URI) == Str(d.uri)
  {
    SchemaWellFormed(Assets);
    var vs := AssetValues(e);
    ZipRowGet(ASSET_KEYS, vs, 0);
    ZipRowGet(ASSET_KEYS, vs, 1);
    ZipRowGet(ASSET_KEYS, vs, 2);
    ZipRowGet(ASSET_KEYS, vs, 3);
    ZipRowGet(ASSET_KEYS, vs, 4);
    ZipRowGet(ASSET_KEYS, vs, 5);
    ZipRowGet(ASSET_KEYS, vs, 6);
    ZipRowGet(ASSET_KEYS, vs, 7);
  }

  /** Reading a stored asset row: the scanned entity is the one whose values were written. */
  lemma StoredAssetReadsBack(e: AssetEntity)
    ensures ScanAsset(Project(ZipRow(ASSET_KEYS, AssetValues(e)), ASSET_KEYS)) == Some(Stored(e))
  {
    SchemaWellFormed(Assets);
    ProjectZip(ASSET_KEYS, AssetValues(e));
  }

  // ---------------------------------------------------------------------
  // URIs

  /** `scheme://base_path/key` (getURI). */
  function InternalUri(e: AssetEntity): string
  {
    e.scheme + "://" + e.basePath + "/" + e.public.key
  }

  /** The URI handed to clients, for upload and download alike (GetPublicUri). */
  function GetPublicUri(cfg: Config, e: AssetEntity): string
  {
    InternalUri(e)
  }

  /** The entity with its remote URI set to the public URI. */
  function WithRemoteUri(cfg: Config, e: AssetEntity): (r: AssetEntity)
    ensures r.public.details.remoteUri == GetPublicUri(cfg, e)
    ensures Stored(r) == Stored(e)
  {
    e.(public := e.public.(details := e.public.details.(remoteUri := GetPublicUri(cfg, e))))
  }

  /** The public description served for a stored asset: non-empty assets get their download URI (GetPublicEntity). */
  function GetPublicEntity(cfg: Config, e: AssetEntity): (r: AssetEntity)
    ensures Stored(r) == Stored(e)
    ensures r.public.details.remoteUri == (if e.public.details.size > 0 then InternalUri(e) else e.public.details.remoteUri)
  {
    if e.public.details.size > 0 then WithRemoteUri(cfg, e) else e
  }

  /** At registration, an asset with content and no client URI gets its upload URI. */
  function WithUploadUri(cfg: Config, e: AssetEntity): (r: AssetEntity)
    ensures Stored(r) == Stored(e)
  {
    if e.public.details.size > 0 && |e.public.details.uri| == 0 then WithRemoteUri(cfg, e) else e
  }

  /** The entities a batch registration describes, before any URI is assigned. */
  function Registrations(cfg: Config, a: seq<AssetPublicSchema>): (es: seq<AssetEntity>)
    ensures |es| == |a| && forall i :: 0 <= i < |a| ==> es[i] == NewAssetEntityFromPublic(cfg, a[i])
  {
    seq(|a|, i requires 0 <= i < |a| => NewAssetEntityFromPublic(cfg, a[i]))
  }

  function AssetRows(es: seq<AssetEntity>): (vals: seq<seq<Value>>)
    ensures |vals| == |es| && forall i :: 0 <= i < |es| ==> vals[i] == AssetValues(es[i])
  {
    seq(|es|, i requires 0 <= i < |es| => AssetValues(es[i]))
  }

  const INSERT_ASSET := InsertInto(Assets, ASSET_KEYS)

  /**
   * The URI a client is told to upload to is the one later served for
   * downloading it: `file://<storage path>/<key>`.
   */
  lemma UploadUriIsDownloadUri(cfg: Config, p: AssetPublicSchema)
    requires p.details.size > 0 && p.details.uri == ""
    ensures var e := NewAssetEntityFromPublic(cfg, p);
            var served := GetPublicEntity(cfg, ScanAsset(AssetValues(e)).value);
            WithUploadUri(cfg, e).public.details.remoteUri == served.public.details.remoteUri
            && served.public.details.remoteUri == "file://" + cfg.storagePath + "/" + p.key
  {
    ScanAssetValues(NewAssetEntityFromPublic(cfg, p));
  }

  /** Serving an asset twice serves the same description. */
  lemma GetPublicEntityIdempotent(cfg: Config, e: AssetEntity)
    ensures GetPublicEntity(cfg, GetPublicEntity(cfg, e)) == GetPublicEntity(cfg, e)
  {
  }

  // ---------------------------------------------------------------------
  // Registration

  /** Inserts the entities' rows into the asset table (createAssetsFromEntities). */
  method CreateAssetsFromEntities(st: Store, es: seq<AssetEntity>) returns (n: nat, err: Option<ApiError>)
    modifies st
    ensures InsertOutcome(st.fails, INSERT_ASSET, AssetRows(es), old(st.Content()), st.Content(), n, err)
  {
    SchemaWellFormed(Assets);
    n, err := InsertRows(st, Assets, ASSET_KEYS, AssetRows(es));
  }

  /**
   * Registers the assets and returns their entities, each asset with content
   * but no URI of its own carrying its upload URI (CreateAssets). A failed
   * insert returns no entity.
   */
  method CreateAssets(cfg: Config, st: Store, a: seq<AssetPublicSchema>) returns (ents: seq<AssetEntity>, err: Option<ApiError>)
    modifies st
    ensures var vals := AssetRows(Registrations(cfg, a));
            InsertOutcome(st.fails, INSERT_ASSET, vals, old(st.Content()), st.Content(), Inserted(st.fails, INSERT_ASSET, vals), err)
    ensures err.None? ==> |ents| == |a| && forall i :: 0 <= i < |a| ==> ents[i] == WithUploadUri(cfg, NewAssetEntityFromPublic(cfg, a[i]))
    ensures err.Some? ==> ents == []
  {
    var built: seq<AssetEntity> := [];
    var i := 0;
    while i < |a|
      invariant 0 <= i <= |a|
      invariant built == Registrations(cfg, a)[..i]
    {
      built := built + [NewAssetEntityFromPublic(cfg, a[i])];
      i := i + 1;
    }
    assert built == Registrations(cfg, a);
    var n;
    n, err := CreateAssetsFromEntities(st, built);
    if err.Some? {
      return [], err;
    }
    ents := built;
    var j := 0;
    while j < |ents|
      invariant 0 <= j <= |ents| == |a|
      invariant forall k :: 0 <= k < j ==> ents[k] == WithUploadUri(cfg, built[k])
      invariant forall k :: j <= k < |a| ==> ents[k] == built[k]
    {
      var ent := ents[j];
      if ent.public.details.size > 0 && |ent.public.details.uri| == 0 {
        ent := ent.(public := ent.public.(details := ent.public.details.(remoteUri := GetPublicUri(cfg, ent))));
      }
      ents := ents[j := ent];
      j := j + 1;
    }
  }

  /**
   * After a successful registration every asset's id is in the asset table,
   * no stored asset was lost, every row is an old one or one of the batch,
   * and no other table changed.
   */
  lemma RegistrationStoresIds(cfg: Config, db: Db, a: seq<AssetPublicSchema>)
    ensures var after := RunAll(db, INSERT_ASSET, AssetRows(Registrations(cfg, a)));
            (forall i :: 0 <= i < |a| ==> exists r :: r in after.assets && Get(r, ASSET_TABLE_ID) == Str(ComputeAssetId(cfg, a[i].key)))
            && (forall r :: r in db.assets ==> r in after.assets)
            && (forall r :: r in after.assets ==>
                  (r in db.assets || exists i :: 0 <= i < |a| && r == ZipRow(ASSET_KEYS, AssetValues(NewAssetEntityFromPublic(cfg, a[i])))))
            && (forall u :: u != Assets ==> after.Rows(u) == db.Rows(u))
  {
    SchemaWellFormed(Assets);
    var vals := AssetRows(Registrations(cfg, a));
    RunAllRegisters(db, Assets, ASSET_KEYS, vals, 0);
    var after := RunAll(db, INSERT_ASSET, vals);
    forall i | 0 <= i < |a|
      ensures exists r :: r in after.assets && Get(r, ASSET_TABLE_ID) == Str(ComputeAssetId(cfg, a[i].key))
    {
      assert vals[i][0] == Str(ComputeAssetId(cfg, a[i].key));
    }
  }

  /** Registering the same asset twice changes nothing the second time: its id is already stored. */
  lemma RegistrationIdempotent(cfg: Config, db: Db, p: AssetPublicSchema)
    ensures var once := Run(db, INSERT_ASSET, AssetValues(NewAssetEntityFromPublic(cfg, p)));
            Run(once, INSERT_ASSET, AssetValues(NewAssetEntityFromPublic(cfg, p))) == once
  {
    var vs := AssetValues(NewAssetEntityFromPublic(cfg, p));
    SchemaWellFormed(Assets);
    ZipRowGet(ASSET_KEYS, vs, 0);
    InsertIdempotent(db, Assets, ASSET_KEYS, vs);
  }

  // ---------------------------------------------------------------------
  // Lookup by key prefix

  /** SELECT the asset columns FROM assets WHERE key LIKE ? ORDER BY key ASC LIMIT ? OFFSET ?. */
  const PREFIX_QUERY := SelectFrom(Assets, ASSET_KEYS, [], [ASSET_TABLE_KEY], ASSET_TABLE_KEY, true, true)

  function PrefixArgs(prefix: string, limit: int, offset: int): seq<Value>
  {
    [Str(prefix + "%"), Int(limit), Int(offset)]
  }

  /** The prefix query keeps rows whose key is text starting with the prefix, in ascending key order. */
  lemma PrefixRows(db: Db, prefix: string, limit: int, offset: int)
    ensures var sel := Selected(db, PREFIX_QUERY, PrefixArgs(prefix, limit, offset));
            (forall r :: r in sel ==> r in db.assets && Get(r, ASSET_TABLE_KEY).Str? && StartsWith(prefix, Get(r, ASSET_TABLE_KEY).s))
            && Sorted(sel, ASSET_TABLE_KEY, true)
            && (limit >= 0 ==> |sel| <= limit)
  {
    var args := PrefixArgs(prefix, limit, offset);
    SelectedPageRows(db, PREFIX_QUERY, args);
    var conds := Conditions(PREFIX_QUERY, args);
    assert conds[0] == Matches(ASSET_TABLE_KEY, Str(prefix + "%"));
    assert (prefix + "%")[..|prefix|] == prefix;
    forall r | r in Selected(db, PREFIX_QUERY, args)
      ensures Get(r, ASSET_TABLE_KEY).Str? && StartsWith(prefix, Get(r, ASSET_TABLE_KEY).s)
    {
      assert CondHolds(r, conds[0]);
    }
  }

  /** Without paging, the prefix query finds every stored row whose key starts with the prefix. */
  lemma PrefixRowsComplete(db: Db, prefix: string)
    ensures forall r :: r in Selected(db, PREFIX_QUERY, PrefixArgs(prefix, -1, 0))
                        <==> r in db.assets && Get(r, ASSET_TABLE_KEY).Str? && StartsWith(prefix, Get(r, ASSET_TABLE_KEY).s)
  {
    var args := PrefixArgs(prefix, -1, 0);
    var conds := Conditions(PREFIX_QUERY, args);
    assert conds == [Matches(ASSET_TABLE_KEY, Str(prefix + "%"))];
    assert (prefix + "%")[..|prefix|] == prefix;
    var ordered := SortBy(Where(db.assets, conds), ASSET_TABLE_KEY, true);
    assert Selected(db, PREFIX_QUERY, args) == ordered;
    FilterSort(db.assets, conds, ASSET_TABLE_KEY, true);
    forall r ensures AllHold(r, conds) <==> Get(r, ASSET_TABLE_KEY).Str? && StartsWith(prefix, Get(r, ASSET_TABLE_KEY).s) {
      assert AllHold(r, conds) <==> CondHolds(r, conds[0]);
    }
  }

  /**
   * Entities scanned from rows whose keys start with the prefix, in key
   * order, have keys starting with the prefix, in the same order.
   */
  lemma ScannedInKeyOrder(sel: seq<Row>, ents: seq<AssetEntity>, prefix: string)
    requires |ents| == |sel| && forall i :: 0 <= i < |sel| ==> ScanAsset(Project(sel[i], ASSET_KEYS)) == Some(ents[i])
    requires forall r :: r in sel ==> Get(r, ASSET_TABLE_KEY).Str? && StartsWith(prefix, Get(r, ASSET_TABLE_KEY).s)
    requires Sorted(sel, ASSET_TABLE_KEY, true)
    ensures forall i :: 0 <= i < |ents| ==> StartsWith(prefix, ents[i].public.key)
    ensures forall i, j :: 0 <= i < j < |ents| ==> StrLe(ents[i].public.key, ents[j].public.key)
  {
    forall i | 0 <= i < |sel|
      ensures Get(sel[i], ASSET_TABLE_KEY) == Str(ents[i].public.key)
    {
      assert Project(sel[i], ASSET_KEYS)[3] == Str(ents[i].public.key);
    }
    forall i | 0 <= i < |ents|
      ensures StartsWith(prefix, ents[i].public.key)
    {
      assert sel[i] in sel;
    }
    forall i, j | 0 <= i < j < |ents|
      ensures StrLe(ents[i].public.key, ents[j].public.key)
    {
      assert InOrder(sel[i], sel[j], ASSET_TABLE_KEY, true);
    }
  }

  /** Entities scanned from the prefix query's answer have keys starting with the prefix, in ascending order. */
  lemma PrefixEntities(db: Db, prefix: string, limit: int, offset: int, ents: seq<AssetEntity>)
    requires var answer := Select(db, PREFIX_QUERY, PrefixArgs(prefix, limit, offset));
             |ents| == |answer| && forall i :: 0 <= i < |answer| ==> ScanAsset(answer[i]) == Some(ents[i])
    ensures forall i :: 0 <= i < |ents| ==> StartsWith(prefix, ents[i].public.key)
    ensures forall i, j :: 0 <= i < j < |ents| ==> StrLe(ents[i].public.key, ents[j].public.key)
    ensures limit >= 0 ==> |ents| <= limit
  {
    var sel := Selected(db, PREFIX_QUERY, PrefixArgs(prefix, limit, offset));
    PrefixRows(db, prefix, limit, offset);
    ScannedInKeyOrder(sel, ents, prefix);
  }

  /**
   * Reads a page of the assets whose key starts with `prefix`, in ascending
   * key order (GetAssetEntitiesByPrefix). Engine and scan errors are 500s.
   */
  method GetAssetEntitiesByPrefix(st: Store, prefix: string, limit: int, offset: int)
    returns (ents: seq<AssetEntity>, err: Option<ApiError>)
    ensures var answer := Select(st.Content(), PREFIX_QUERY, PrefixArgs(prefix, limit, offset));
            (err.None? <==> !st.fails(Reading(PREFIX_QUERY, PrefixArgs(prefix, limit, offset)))
                            && forall i :: 0 <= i < |answer| ==> ScanAsset(answer[i]).Some?)
            && (err.None? ==> |ents| == |answer| && forall i :: 0 <= i < |answer| ==> ScanAsset(answer[i]) == Some(ents[i]))
    ensures err.None? ==> forall i :: 0 <= i < |ents| ==> StartsWith(prefix, ents[i].public.key)
    ensures err.None? ==> forall i, j :: 0 <= i < j < |ents| ==> StrLe(ents[i].public.key, ents[j].public.key)
    ensures err.None? && limit >= 0 ==> |ents| <= limit
    ensures err.Some? ==> err.value == ENGINE_FAILURE && ents == []
  {
    var f := new Filters();
    f.AddLike(ASSET_TABLE_KEY, prefix + "%");
    var where := f.RenderTemplate();
    SchemaWellFormed(Assets);
    var template := GenerateSelectTemplate(ASSET_TABLE, ASSET_KEYS, where, ASSET_TABLE_KEY, true, true);
    var params := f.RenderValues();
    params := params + [Int(limit)];
    params := params + [Int(offset)];
    assert params == PrefixArgs(prefix, limit, offset);
    var answer := st.Query(template, PREFIX_QUERY, params);
    if answer.None? {
      return [], Some(ENGINE_FAILURE);
    }
    ents, err := ScanRows(answer.value, ScanAsset);
    if err.None? {
      PrefixEntities(st.Content(), prefix, limit, offset, ents);
    }
  }
}
