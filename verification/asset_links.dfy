/**
 * Asset links: the rows naming an asset for one electron of a dispatch (node
 * -1 for the dispatch itself), and the join of links with assets that lists an
 * electron's named assets.
 */
module AssetLinks {
  import opened Wrappers
  import opened Text
  import opened Tables
  import opened SqlValues
  import opened RowOrder
  import opened Templates
  import opened Database
  import opened ApiErrors
  import opened Crud
  import opened Assets

  /** A row of the link table: asset `assetId` is called `name` by node `nodeId` of the dispatch. */
  datatype AssetLink = AssetLink(dispatchId: string, nodeId: int, assetId: string, name: string)

  function LinkValues(l: AssetLink): (vs: seq<Value>)
    ensures |vs| == |ASSET_LINK_KEYS|
  {
    [Str(l.dispatchId), Int(l.nodeId), Str(l.assetId), Str(l.name)]
  }

  /** Scans a result row of the ASSET_LINK_KEYS columns; a row of the wrong shape is a scan error. */
  function ScanLink(vs: seq<Value>): (r: Option<AssetLink>)
    ensures r.Some? ==> vs == LinkValues(r.value)
  {
    if |vs| == 4 && vs[0].Str? && vs[1].Int? && vs[2].Str? && vs[3].Str? then Some(AssetLink(vs[0].s, vs[1].i, vs[2].s, vs[3].s))
    else None
  }

  /** A stored link reads back as itself. */
  lemma StoredLinkReadsBack(l: AssetLink)
    ensures ScanLink(Project(ZipRow(ASSET_LINK_KEYS, LinkValues(l)), ASSET_LINK_KEYS)) == Some(l)
  {
    SchemaWellFormed(AssetLinks);
    ProjectZip(ASSET_LINK_KEYS, LinkValues(l));
  }

  /** An asset under the name one link gives it. */
  datatype NamedAssetEntity = NamedAssetEntity(name: string, asset: AssetEntity)

  /** The qualified columns a named asset is read from: the link's name, then every asset column. */
  function NamedFieldsSpec(): (fields: seq<string>)
    ensures |fields| == 1 + |ASSET_KEYS|
  {
    [Qualified(AssetLinks, ASSET_LINKS_TABLE_NAME)] + seq(|ASSET_KEYS|, i requires 0 <= i < |ASSET_KEYS| => Qualified(Assets, ASSET_KEYS[i]))
  }

  /** NamedAssetEntity.Fields: the link name column, then each asset column under its table. */
  method NamedFields() returns (fields: seq<string>)
    ensures fields == NamedFieldsSpec()
  {
    fields := [Qualified(AssetLinks, ASSET_LINKS_TABLE_NAME)];
    var i := 0;
    while i < |ASSET_KEYS|
      invariant 0 <= i <= |ASSET_KEYS| && |fields| == 1 + i
      invariant fields[0] == Qualified(AssetLinks, ASSET_LINKS_TABLE_NAME)
      invariant forall k :: 0 <= k < i ==> fields[1 + k] == Qualified(Assets, ASSET_KEYS[k])
    {
      fields := fields + [Qualified(Assets, ASSET_KEYS[i])];
      i := i + 1;
    }
  }

  /** Scans a joined row: the name, then the asset columns in AssetValues order. */
  function ScanNamed(vs: seq<Value>): (r: Option<NamedAssetEntity>)
    ensures r.Some? ==> |vs| > 0 && vs[0] == Str(r.value.name) && ScanAsset(vs[1..]) == Some(r.value.asset)
  {
    if |vs| > 0 && vs[0].Str? then
      match ScanAsset(vs[1..])
      case Some(a) => Some(NamedAssetEntity(vs[0].s, a))
      case None => None
    else None
  }

  /** The join of a link with the asset it names: `assetlinks.asset_id = assets.id`. */
  const NAMED_JOINS := [JoinCondition(AssetLinks, Assets, ASSET_LINKS_TABLE_ASSET_ID, ASSET_TABLE_ID)]

  const INSERT_LINK := InsertInto(AssetLinks, ASSET_LINK_KEYS)

  function LinkRows(links: seq<AssetLink>): (vals: seq<seq<Value>>)
    ensures |vals| == |links| && forall i :: 0 <= i < |links| ==> vals[i] == LinkValues(links[i])
  {
    seq(|links|, i requires 0 <= i < |links| => LinkValues(links[i]))
  }

  // ---------------------------------------------------------------------
  // Writing links

  /** Inserts the links through one prepared statement (createAssetLinks). */
  method CreateAssetLinks(st: Store, links: seq<AssetLink>) returns (err: Option<ApiError>)
    modifies st
    ensures var vals := LinkRows(links);
            InsertOutcome(st.fails, INSERT_LINK, vals, old(st.Content()), st.Content(), Inserted(st.fails, INSERT_LINK, vals), err)
  {
    SchemaWellFormed(AssetLinks);
    var n;
    n, err := InsertRows(st, AssetLinks, ASSET_LINK_KEYS, LinkRows(links));
  }

  /** Links are never merged: a successful batch appends one row per link, in order, and touches no other table. */
  lemma LinksAppended(db: Db, links: seq<AssetLink>)
    ensures var after := RunAll(db, INSERT_LINK, LinkRows(links));
            |after.links| == |db.links| + |links| && after.links[..|db.links|] == db.links
            && (forall i :: 0 <= i < |links| ==> ScanLink(Project(after.links[|db.links| + i], ASSET_LINK_KEYS)) == Some(links[i]))
            && forall u :: u != AssetLinks ==> after.Rows(u) == db.Rows(u)
  {
    var vals := LinkRows(links);
    RunAllAppends(db, AssetLinks, ASSET_LINK_KEYS, vals);
    var after := RunAll(db, INSERT_LINK, vals);
    forall i | 0 <= i < |links|
      ensures ScanLink(Project(after.links[|db.links| + i], ASSET_LINK_KEYS)) == Some(links[i])
    {
      assert after.links[|db.links| + i] == ZipRow(ASSET_LINK_KEYS, LinkValues(links[i]));
      StoredLinkReadsBack(links[i]);
    }
  }

  // ---------------------------------------------------------------------
  // Reading links

  /** SELECT the link columns FROM assetlinks WHERE dispatch_id = ? AND node = ? ORDER BY name LIMIT 100 OFFSET 0. */
  const LINKS_QUERY := SelectJoin(AssetLinks, ASSET_LINK_KEYS, [], [ASSET_LINKS_TABLE_DISPATCH_ID, ASSET_LINKS_TABLE_NODE_ID],
                                  [], ASSET_LINKS_TABLE_NAME, true, 100, 0)

  /** The rows the link query keeps belong to the node, come in name order, and are at most 100. */
  lemma LinkRowsSelected(db: Db, dispatchId: string, nodeId: int)
    ensures var sel := Selected(db, LINKS_QUERY, [Str(dispatchId), Int(nodeId)]);
            (forall r :: r in sel ==> r in db.links && Get(r, ASSET_LINKS_TABLE_DISPATCH_ID) == Str(dispatchId)
                                      && Get(r, ASSET_LINKS_TABLE_NODE_ID) == Int(nodeId))
            && Sorted(sel, ASSET_LINKS_TABLE_NAME, true) && |sel| <= 100
  {
    var args := [Str(dispatchId), Int(nodeId)];
    SelectedJoinRows(db, LINKS_QUERY, args);
    var conds := Conditions(LINKS_QUERY, args);
    forall r | r in Selected(db, LINKS_QUERY, args)
      ensures Get(r, ASSET_LINKS_TABLE_DISPATCH_ID) == Str(dispatchId) && Get(r, ASSET_LINKS_TABLE_NODE_ID) == Int(nodeId)
    {
      assert CondHolds(r, conds[0]) && CondHolds(r, conds[1]);
    }
  }

  /** Links scanned from the link query belong to the node and come in name order, at most 100 of them. */
  lemma LinksOfNode(db: Db, dispatchId: string, nodeId: int, links: seq<AssetLink>)
    requires var answer := Select(db, LINKS_QUERY, [Str(dispatchId), Int(nodeId)]);
             |links| == |answer| && forall i :: 0 <= i < |answer| ==> ScanLink(answer[i]) == Some(links[i])
    ensures forall i :: 0 <= i < |links| ==> links[i].dispatchId == dispatchId && links[i].nodeId == nodeId
    ensures forall i, j :: 0 <= i < j < |links| ==> StrLe(links[i].name, links[j].name)
    ensures |links| <= 100
  {
    var sel := Selected(db, LINKS_QUERY, [Str(dispatchId), Int(nodeId)]);
    LinkRowsSelected(db, dispatchId, nodeId);
    forall i | 0 <= i < |links|
      ensures Get(sel[i], ASSET_LINKS_TABLE_NAME) == Str(links[i].name)
      ensures links[i].dispatchId == dispatchId && links[i].nodeId == nodeId
    {
      assert sel[i] in sel;
      assert Project(sel[i], ASSET_LINK_KEYS) == LinkValues(links[i]);
    }
    forall i, j | 0 <= i < j < |links|
      ensures StrLe(links[i].name, links[j].name)
    {
      assert InOrder(sel[i], sel[j], ASSET_LINKS_TABLE_NAME, true);
    }
  }

  lemma LinksQueryReadable()
    ensures Readable(LINKS_QUERY)
  {
    SchemaWellFormed(AssetLinks);
    assert LINKS_QUERY.eqCols == ASSET_LINK_KEYS[..2];
    assert LINKS_QUERY.sortKey == ASSET_LINK_KEYS[3];
  }

  /** The filters and SELECT text of getAssetLinks: the dispatch id and node id, names ascending, 100 rows. */
  method LinksStatement(dispatchId: string, nodeId: int) returns (template: string, params: seq<Value>)
    ensures template == QueryText(LINKS_QUERY) && params == [Str(dispatchId), Int(nodeId)] && Readable(LINKS_QUERY)
    ensures |params| == QueryArity(LINKS_QUERY) && LimitsBound(LINKS_QUERY, params)
  {
    var f := new Filters();
    f.AddEq(ASSET_LINKS_TABLE_DISPATCH_ID, Str(dispatchId));
    f.AddEq(ASSET_LINKS_TABLE_NODE_ID, Int(nodeId));
    assert f.eq == [KeyValue(ASSET_LINKS_TABLE_DISPATCH_ID, Str(dispatchId)), KeyValue(ASSET_LINKS_TABLE_NODE_ID, Int(nodeId))];
    TwoEqParams(ASSET_LINKS_TABLE_DISPATCH_ID, Str(dispatchId), ASSET_LINKS_TABLE_NODE_ID, Int(nodeId));
    var where := f.RenderTemplate();
    SchemaWellFormed(AssetLinks);
    template := GenerateSelectJoinTemplate(ASSET_LINKS_TABLE, ASSET_LINK_KEYS, [], where, ASSET_LINKS_TABLE_NAME, true, 100, 0);
    params := f.RenderValues();
    LinksQueryReadable();
  }

  /** The links of one node of a dispatch, in name order, at most 100 (getAssetLinks). */
  method GetAssetLinks(st: Store, dispatchId: string, nodeId: int) returns (links: seq<AssetLink>, err: Option<ApiError>)
    ensures var args := [Str(dispatchId), Int(nodeId)];
            var answer := Select(st.Content(), LINKS_QUERY, args);
            (err.None? <==> !st.fails(Reading(LINKS_QUERY, args)) && forall i :: 0 <= i < |answer| ==> ScanLink(answer[i]).Some?)
            && (err.None? ==> |links| == |answer| && forall i :: 0 <= i < |answer| ==> ScanLink(answer[i]) == Some(links[i]))
    ensures err.None? ==> forall i :: 0 <= i < |links| ==> links[i].dispatchId == dispatchId && links[i].nodeId == nodeId
    ensures err.None? ==> (forall i, j :: 0 <= i < j < |links| ==> StrLe(links[i].name, links[j].name)) && |links| <= 100
    ensures err.Some? ==> err.value == ENGINE_FAILURE && links == []
  {
    var template, params := LinksStatement(dispatchId, nodeId);
    var answer := st.Query(template, LINKS_QUERY, params);
    if answer.None? {
      return [], Some(ENGINE_FAILURE);
    }
    links, err := ScanRows(answer.value, ScanLink);
    if err.None? {
      LinksOfNode(st.Content(), dispatchId, nodeId, links);
    }
  }

  // ---------------------------------------------------------------------
  // Reading named assets: links joined with assets

  /** The query of GetElectronAssets, with every column qualified by its table. */
  function NamedQuery(fields: seq<string>): Query
  {
    SelectJoin(AssetLinks, fields, NAMED_JOINS,
               [Qualified(AssetLinks, ASSET_LINKS_TABLE_DISPATCH_ID), Qualified(AssetLinks, ASSET_LINKS_TABLE_NODE_ID)], [],
               Qualified(AssetLinks, ASSET_LINKS_TABLE_NAME), true, 100, 0)
  }

  const NAMED_QUERY := NamedQuery(NamedFieldsSpec())

  /** The keys of a qualified link row and of a qualified asset row never clash. */
  lemma QualifiedTablesApart(k: string)
    requires StartsWith(ASSET_LINKS_TABLE + ".", k)
    ensures !StartsWith(ASSET_TABLE + ".", k)
  {
    var p := ASSET_LINKS_TABLE + ".";
    assert p == "assetlinks.";
    assert k[..|p|] == p;
    assert k[5] == k[..|p|][5] == p[5] == 'l';
    assert (ASSET_TABLE + ".")[5] == 's';
  }

  /** A joined row shows the link's columns and the asset's columns, each under its qualified name. */
  lemma JoinedColumns(l: Row, b: Row)
    ensures var r := Qualify(l, AssetLinks) + Qualify(b, Assets);
            (forall i :: 0 <= i < |ASSET_LINK_KEYS| ==> Get(r, Qualified(AssetLinks, ASSET_LINK_KEYS[i])) == Get(l, ASSET_LINK_KEYS[i]))
            && forall i :: 0 <= i < |ASSET_KEYS| ==> Get(r, Qualified(Assets, ASSET_KEYS[i])) == Get(b, ASSET_KEYS[i])
  {
    var ql := Qualify(l, AssetLinks);
    var qb := Qualify(b, Assets);
    forall i | 0 <= i < |ASSET_LINK_KEYS|
      ensures Get(ql + qb, Qualified(AssetLinks, ASSET_LINK_KEYS[i])) == Get(l, ASSET_LINK_KEYS[i])
    {
      var k := Qualified(AssetLinks, ASSET_LINK_KEYS[i]);
      assert StartsWith(ASSET_LINKS_TABLE + ".", k) by {
        assert k == (ASSET_LINKS_TABLE + ".") + ASSET_LINK_KEYS[i];
      }
      QualifiedTablesApart(k);
      assert k !in qb;
    }
    forall i | 0 <= i < |ASSET_KEYS|
      ensures Get(ql + qb, Qualified(Assets, ASSET_KEYS[i])) == Get(b, ASSET_KEYS[i])
    {
      var k := Qualified(Assets, ASSET_KEYS[i]);
      assert StartsWith(ASSET_TABLE + ".", k) by {
        assert k == (ASSET_TABLE + ".") + ASSET_KEYS[i];
      }
      if k in ql {
        QualifiedTablesApart(k);
      }
    }
  }

  /**
   * A named asset of node `nodeId`: some stored link of that node names, under
   * `ne.name`, a stored asset whose id is the link's asset id and whose row
   * scans as `ne.asset`.
   */
  predicate LinkedAsset(db: Db, dispatchId: string, nodeId: int, ne: NamedAssetEntity)
  {
    exists l, b :: l in db.links && b in db.assets
                   && Get(l, ASSET_LINKS_TABLE_DISPATCH_ID) == Str(dispatchId) && Get(l, ASSET_LINKS_TABLE_NODE_ID) == Int(nodeId)
                   && Get(l, ASSET_LINKS_TABLE_ASSET_ID) != Null && Get(l, ASSET_LINKS_TABLE_ASSET_ID) == Get(b, ASSET_TABLE_ID)
                   && Get(l, ASSET_LINKS_TABLE_NAME) == Str(ne.name) && ScanAsset(Project(b, ASSET_KEYS)) == Some(ne.asset)
  }

  /** The named-asset query reads the nested-loop join of the qualified links with the assets. */
  lemma NamedSourceIsJoin(db: Db)
    ensures Source(db, NAMED_QUERY) == JoinStep(QualifyAll(db.links, AssetLinks), db.assets, NAMED_JOINS[0])
  {
    var acc := QualifyAll(db.links, AssetLinks);
    assert NAMED_JOINS[..0] == [];
    assert JoinAll(acc, db, NAMED_JOINS[..0]) == acc;
  }

  /** A qualified link row and the asset it names match on the join condition exactly when the asset id is that of the asset. */
  lemma NamedJoinMatch(l: Row, b: Row)
    ensures JoinMatch(Qualify(l, AssetLinks), b, NAMED_JOINS[0]) <==>
              Get(l, ASSET_LINKS_TABLE_ASSET_ID) != Null && Get(l, ASSET_LINKS_TABLE_ASSET_ID) == Get(b, ASSET_TABLE_ID)
  {
    assert ASSET_LINK_KEYS[2] == ASSET_LINKS_TABLE_ASSET_ID;
    assert Get(Qualify(l, AssetLinks), Qualified(AssetLinks, ASSET_LINKS_TABLE_ASSET_ID)) == Get(l, ASSET_LINKS_TABLE_ASSET_ID);
  }

  /** A link row and the asset row its non-null asset id names. */
  predicate NamedPair(l: Row, b: Row)
  {
    Get(l, ASSET_LINKS_TABLE_ASSET_ID) != Null && Get(l, ASSET_LINKS_TABLE_ASSET_ID) == Get(b, ASSET_TABLE_ID)
  }

  /** The join reads exactly the pairs of a link row and the asset row its non-null asset id names. */
  lemma NamedSource(db: Db, r: Row)
    ensures r in Source(db, NAMED_QUERY) <==>
              exists l, b :: l in db.links && b in db.assets && NamedPair(l, b) && r == Qualify(l, AssetLinks) + Qualify(b, Assets)
  {
    if r in Source(db, NAMED_QUERY) {
      NamedSourceFrom(db, r);
    }
    if exists l, b :: l in db.links && b in db.assets && NamedPair(l, b) && r == Qualify(l, AssetLinks) + Qualify(b, Assets) {
      var l, b :| l in db.links && b in db.assets && NamedPair(l, b) && r == Qualify(l, AssetLinks) + Qualify(b, Assets);
      NamedSourceHas(db, l, b);
    }
  }

  /** Every row of the join is a link row and the asset row it names. */
  lemma NamedSourceFrom(db: Db, r: Row)
    requires r in Source(db, NAMED_QUERY)
    ensures exists l, b :: l in db.links && b in db.assets && NamedPair(l, b) && r == Qualify(l, AssetLinks) + Qualify(b, Assets)
  {
    var j := NAMED_JOINS[0];
    var acc := QualifyAll(db.links, AssetLinks);
    NamedSourceIsJoin(db);
    JoinStepRows(acc, db.assets, j);
    var a, b :| a in acc && b in db.assets && JoinMatch(a, b, j) && r == a + Qualify(b, Assets);
    var i :| 0 <= i < |acc| && acc[i] == a;
    var l := db.links[i];
    NamedJoinMatch(l, b);
    assert l in db.links && NamedPair(l, b);
  }

  /** Every link row and the asset row it names make a row of the join. */
  lemma NamedSourceHas(db: Db, l: Row, b: Row)
    requires l in db.links && b in db.assets && NamedPair(l, b)
    ensures Qualify(l, AssetLinks) + Qualify(b, Assets) in Source(db, NAMED_QUERY)
  {
    var j := NAMED_JOINS[0];
    var acc := QualifyAll(db.links, AssetLinks);
    NamedSourceIsJoin(db);
    JoinStepRows(acc, db.assets, j);
    var i :| 0 <= i < |db.links| && db.links[i] == l;
    NamedJoinMatch(l, b);
    assert acc[i] in acc;
  }

  /** The values one joined row yields: the link's name, then the asset's columns. */
  lemma NamedProjection(l: Row, b: Row)
    ensures Project(Qualify(l, AssetLinks) + Qualify(b, Assets), NamedFieldsSpec())
            == [Get(l, ASSET_LINKS_TABLE_NAME)] + Project(b, ASSET_KEYS)
  {
    JoinedColumns(l, b);
    var r := Qualify(l, AssetLinks) + Qualify(b, Assets);
    assert Get(r, Qualified(AssetLinks, ASSET_LINK_KEYS[3])) == Get(l, ASSET_LINK_KEYS[3]);
    NamedProjectionOf(r, l, b);
  }

  /** A row holding the link's name and the asset's columns under their qualified names projects to them. */
  lemma NamedProjectionOf(r: Row, l: Row, b: Row)
    requires Get(r, Qualified(AssetLinks, ASSET_LINKS_TABLE_NAME)) == Get(l, ASSET_LINKS_TABLE_NAME)
    requires forall i :: 0 <= i < |ASSET_KEYS| ==> Get(r, Qualified(Assets, ASSET_KEYS[i])) == Get(b, ASSET_KEYS[i])
    ensures Project(r, NamedFieldsSpec()) == [Get(l, ASSET_LINKS_TABLE_NAME)] + Project(b, ASSET_KEYS)
  {
    var p := Project(r, NamedFieldsSpec());
    var q := [Get(l, ASSET_LINKS_TABLE_NAME)] + Project(b, ASSET_KEYS);
    forall i | 0 <= i < |p|
      ensures p[i] == q[i]
    {
      if i > 0 {
        assert NamedFieldsSpec()[i] == Qualified(Assets, ASSET_KEYS[i - 1]);
      }
    }
  }

  /** The joined row projects to the name of a link of the node and the columns of the asset its id names. */
  predicate NamedRowOf(db: Db, dispatchId: string, nodeId: int, r: Row)
  {
    exists l, b :: l in db.links && b in db.assets
      && Get(l, ASSET_LINKS_TABLE_DISPATCH_ID) == Str(dispatchId) && Get(l, ASSET_LINKS_TABLE_NODE_ID) == Int(nodeId)
      && Get(l, ASSET_LINKS_TABLE_ASSET_ID) != Null && Get(l, ASSET_LINKS_TABLE_ASSET_ID) == Get(b, ASSET_TABLE_ID)
      && Project(r, NamedFieldsSpec()) == [Get(l, ASSET_LINKS_TABLE_NAME)] + Project(b, ASSET_KEYS)
  }

  /** A row passes the join's filters exactly when its link columns name the dispatch and the node. */
  lemma NamedConditions(r: Row, dispatchId: string, nodeId: int)
    ensures AllHold(r, Conditions(NAMED_QUERY, [Str(dispatchId), Int(nodeId)])) <==>
              Get(r, Qualified(AssetLinks, ASSET_LINKS_TABLE_DISPATCH_ID)) == Str(dispatchId)
              && Get(r, Qualified(AssetLinks, ASSET_LINKS_TABLE_NODE_ID)) == Int(nodeId)
  {
    var conds := Conditions(NAMED_QUERY, [Str(dispatchId), Int(nodeId)]);
    assert |conds| == 2 && conds[0] == Equals(Qualified(AssetLinks, ASSET_LINKS_TABLE_DISPATCH_ID), Str(dispatchId))
           && conds[1] == Equals(Qualified(AssetLinks, ASSET_LINKS_TABLE_NODE_ID), Int(nodeId));
  }

  /** A joined row passing both filters pairs a link of the node with the asset its id names. */
  lemma NamedRowOfNode(db: Db, dispatchId: string, nodeId: int, r: Row)
    requires r in Source(db, NAMED_QUERY) && AllHold(r, Conditions(NAMED_QUERY, [Str(dispatchId), Int(nodeId)]))
    ensures NamedRowOf(db, dispatchId, nodeId, r)
  {
    NamedSource(db, r);
    var l, b :| l in db.links && b in db.assets && NamedPair(l, b) && r == Qualify(l, AssetLinks) + Qualify(b, Assets);
    JoinedColumns(l, b);
    NamedProjection(l, b);
    NamedConditions(r, dispatchId, nodeId);
    assert Get(r, Qualified(AssetLinks, ASSET_LINK_KEYS[0])) == Get(l, ASSET_LINK_KEYS[0]);
    assert Get(r, Qualified(AssetLinks, ASSET_LINK_KEYS[1])) == Get(l, ASSET_LINK_KEYS[1]);
  }

  /** Each selected joined row is a linked asset of the node; the rows come in name order, at most 100. */
  lemma NamedRowsSelected(db: Db, dispatchId: string, nodeId: int)
    ensures var sel := Selected(db, NAMED_QUERY, [Str(dispatchId), Int(nodeId)]);
            (forall r :: r in sel ==> NamedRowOf(db, dispatchId, nodeId, r))
            && Sorted(sel, Qualified(AssetLinks, ASSET_LINKS_TABLE_NAME), true) && |sel| <= 100
  {
    var args := [Str(dispatchId), Int(nodeId)];
    SelectedJoinRows(db, NAMED_QUERY, args);
    forall r | r in Selected(db, NAMED_QUERY, args) ensures NamedRowOf(db, dispatchId, nodeId, r) {
      NamedRowOfNode(db, dispatchId, nodeId, r);
    }
  }

  /** Every entity is a linked asset of the node, they come in name order, and there are at most 100 of them. */
  predicate NodeAssetsRead(db: Db, dispatchId: string, nodeId: int, ents: seq<NamedAssetEntity>)
  {
    (forall i :: 0 <= i < |ents| ==> LinkedAsset(db, dispatchId, nodeId, ents[i]))
    && (forall i, j :: 0 <= i < j < |ents| ==> StrLe(ents[i].name, ents[j].name))
    && |ents| <= 100
  }

  /** Named assets scanned from the join are linked assets of the node, in name order, at most 100 of them. */
  lemma NamedAssetsOfNode(db: Db, dispatchId: string, nodeId: int, ents: seq<NamedAssetEntity>)
    requires var answer := Select(db, NAMED_QUERY, [Str(dispatchId), Int(nodeId)]);
             |ents| == |answer| && forall i :: 0 <= i < |answer| ==> ScanNamed(answer[i]) == Some(ents[i])
    ensures NodeAssetsRead(db, dispatchId, nodeId, ents)
  {
    var sel := Selected(db, NAMED_QUERY, [Str(dispatchId), Int(nodeId)]);
    var key := Qualified(AssetLinks, ASSET_LINKS_TABLE_NAME);
    NamedRowsSelected(db, dispatchId, nodeId);
    forall i | 0 <= i < |ents|
      ensures LinkedAsset(db, dispatchId, nodeId, ents[i]) && Get(sel[i], key) == Str(ents[i].name)
    {
      assert sel[i] in sel;
      NamedEntityOfRow(db, dispatchId, nodeId, sel[i], ents[i]);
    }
    forall i, j | 0 <= i < j < |ents|
      ensures StrLe(ents[i].name, ents[j].name)
    {
      assert InOrder(sel[i], sel[j], key, true);
    }
  }

  /** A selected row of the node scans as a linked asset of the node, named by the row's link name. */
  lemma NamedEntityOfRow(db: Db, dispatchId: string, nodeId: int, r: Row, e: NamedAssetEntity)
    requires NamedRowOf(db, dispatchId, nodeId, r) && ScanNamed(Project(r, NamedFieldsSpec())) == Some(e)
    ensures LinkedAsset(db, dispatchId, nodeId, e) && Get(r, Qualified(AssetLinks, ASSET_LINKS_TABLE_NAME)) == Str(e.name)
  {
    var vs := Project(r, NamedFieldsSpec());
    assert vs[0] == Get(r, Qualified(AssetLinks, ASSET_LINKS_TABLE_NAME));
    var l, b :| l in db.links && b in db.assets
                && Get(l, ASSET_LINKS_TABLE_DISPATCH_ID) == Str(dispatchId) && Get(l, ASSET_LINKS_TABLE_NODE_ID) == Int(nodeId)
                && Get(l, ASSET_LINKS_TABLE_ASSET_ID) != Null && Get(l, ASSET_LINKS_TABLE_ASSET_ID) == Get(b, ASSET_TABLE_ID)
                && vs == [Get(l, ASSET_LINKS_TABLE_NAME)] + Project(b, ASSET_KEYS);
    assert vs[1..] == Project(b, ASSET_KEYS);
  }

  /** The joined row of a link of the node and the asset it names passes both filters. */
  lemma NamedRowPasses(db: Db, dispatchId: string, nodeId: int, l: Row, b: Row)
    requires l in db.links && b in db.assets && NamedPair(l, b)
    requires Get(l, ASSET_LINKS_TABLE_DISPATCH_ID) == Str(dispatchId) && Get(l, ASSET_LINKS_TABLE_NODE_ID) == Int(nodeId)
    ensures var r := Qualify(l, AssetLinks) + Qualify(b, Assets);
            r in Where(Source(db, NAMED_QUERY), Conditions(NAMED_QUERY, [Str(dispatchId), Int(nodeId)]))
  {
    var r := Qualify(l, AssetLinks) + Qualify(b, Assets);
    NamedSource(db, r);
    JoinedColumns(l, b);
    assert Get(r, Qualified(AssetLinks, ASSET_LINK_KEYS[0])) == Get(l, ASSET_LINK_KEYS[0]);
    assert Get(r, Qualified(AssetLinks, ASSET_LINK_KEYS[1])) == Get(l, ASSET_LINK_KEYS[1]);
    NamedConditions(r, dispatchId, nodeId);
  }

  /**
   * When the node has at most 100 linked assets, the join returns every one
   * of them: each link of the node whose asset id names a stored asset.
   */
  lemma NamedRowsComplete(db: Db, dispatchId: string, nodeId: int, l: Row, b: Row)
    requires l in db.links && b in db.assets && NamedPair(l, b)
    requires Get(l, ASSET_LINKS_TABLE_DISPATCH_ID) == Str(dispatchId) && Get(l, ASSET_LINKS_TABLE_NODE_ID) == Int(nodeId)
    requires |Where(Source(db, NAMED_QUERY), Conditions(NAMED_QUERY, [Str(dispatchId), Int(nodeId)]))| <= 100
    ensures Qualify(l, AssetLinks) + Qualify(b, Assets) in Selected(db, NAMED_QUERY, [Str(dispatchId), Int(nodeId)])
  {
    var args := [Str(dispatchId), Int(nodeId)];
    var conds := Conditions(NAMED_QUERY, args);
    var kept := Where(Source(db, NAMED_QUERY), conds);
    NamedRowPasses(db, dispatchId, nodeId, l, b);
    FilterSort(Source(db, NAMED_QUERY), conds, NAMED_QUERY.sortKey, true);
    SortByLength(kept, NAMED_QUERY.sortKey, true);
    var ordered := SortBy(kept, NAMED_QUERY.sortKey, true);
    assert Page(ordered, 100, 0) == ordered;
  }

  /**
   * The assets linked to one node of a dispatch, each under its link's name,
   * in name order and at most 100 (GetElectronAssets).
   */
  method GetElectronAssets(st: Store, dispatchId: string, nodeId: int) returns (ents: seq<NamedAssetEntity>, err: Option<ApiError>)
    ensures var args := [Str(dispatchId), Int(nodeId)];
            var answer := Select(st.Content(), NAMED_QUERY, args);
            (err.None? <==> !st.fails(Reading(NAMED_QUERY, args)) && forall i :: 0 <= i < |answer| ==> ScanNamed(answer[i]).Some?)
            && (err.None? ==> |ents| == |answer| && forall i :: 0 <= i < |answer| ==> ScanNamed(answer[i]) == Some(ents[i]))
    ensures err.None? ==> NodeAssetsRead(st.Content(), dispatchId, nodeId, ents)
    ensures err.Some? ==> err.value == ENGINE_FAILURE && ents == []
  {
    var template, params := NamedStatement(dispatchId, nodeId);
    var answer := st.Query(template, NAMED_QUERY, params);
    if answer.None? {
      return [], Some(ENGINE_FAILURE);
    }
    ents, err := ScanRows(answer.value, ScanNamed);
    if err.None? {
      NamedAssetsOfNode(st.Content(), dispatchId, nodeId, ents);
    }
  }

  /** The filters and SELECT text of GetElectronAssets: the join, the qualified ids, names ascending, 100 rows. */
  method NamedStatement(dispatchId: string, nodeId: int) returns (template: string, params: seq<Value>)
    ensures template == QueryText(NAMED_QUERY) && params == [Str(dispatchId), Int(nodeId)] && Readable(NAMED_QUERY)
    ensures |params| == QueryArity(NAMED_QUERY) && LimitsBound(NAMED_QUERY, params)
  {
    var f := new Filters();
    f.AddEq(Qualified(AssetLinks, ASSET_LINKS_TABLE_DISPATCH_ID), Str(dispatchId));
    f.AddEq(Qualified(AssetLinks, ASSET_LINKS_TABLE_NODE_ID), Int(nodeId));
    assert f.eq == [KeyValue(Qualified(AssetLinks, ASSET_LINKS_TABLE_DISPATCH_ID), Str(dispatchId)),
                    KeyValue(Qualified(AssetLinks, ASSET_LINKS_TABLE_NODE_ID), Int(nodeId))];
    TwoEqParams(Qualified(AssetLinks, ASSET_LINKS_TABLE_DISPATCH_ID), Str(dispatchId),
                Qualified(AssetLinks, ASSET_LINKS_TABLE_NODE_ID), Int(nodeId));
    var sortKey := Qualified(AssetLinks, ASSET_LINKS_TABLE_NAME);
    var fields := NamedFields();
    var where := f.RenderTemplate();
    template := GenerateSelectJoinTemplate(ASSET_LINKS_TABLE, fields, NAMED_JOINS, where, sortKey, true, 100, 0);
    params := f.RenderValues();
    NamedQueryText(where);
    NamedQueryReadable();
  }

  /** The template GetElectronAssets builds is the text of the named-asset query. */
  lemma NamedQueryText(where: string)
    requires where == WhereText(NAMED_QUERY.eqCols, [])
    ensures SelectJoinText(ASSET_LINKS_TABLE, NamedFieldsSpec(), NAMED_JOINS, where,
                           Qualified(AssetLinks, ASSET_LINKS_TABLE_NAME), true, 100, 0)
            == QueryText(NAMED_QUERY)
  {
  }

  /** Every column and filter name of the named-asset query is free of markers. */
  lemma NamedQueryReadable()
    ensures Readable(NAMED_QUERY)
  {
    SchemaWellFormed(AssetLinks);
    SchemaWellFormed(Assets);
    forall c | c in [ASSET_LINKS_TABLE_NAME, ASSET_LINKS_TABLE_DISPATCH_ID, ASSET_LINKS_TABLE_NODE_ID, ASSET_LINKS_TABLE_ASSET_ID]
      ensures Ident(Qualified(AssetLinks, c))
    {
      QualifiedIdent(AssetLinks, c);
    }
    forall i | 0 <= i < |ASSET_KEYS|
      ensures Ident(Qualified(Assets, ASSET_KEYS[i]))
    {
      QualifiedIdent(Assets, ASSET_KEYS[i]);
    }
    assert Ident(ASSET_TABLE_ID);
  }

  /** The assets linked to the dispatch itself, node -1 (GetDispatchAssets). */
  method GetDispatchAssets(st: Store, dispatchId: string) returns (ents: seq<NamedAssetEntity>, err: Option<ApiError>)
    ensures var answer := Select(st.Content(), NAMED_QUERY, [Str(dispatchId), Int(-1)]);
            err.None? ==> |ents| == |answer| && forall i :: 0 <= i < |answer| ==> ScanNamed(answer[i]) == Some(ents[i])
    ensures err.None? ==> NodeAssetsRead(st.Content(), dispatchId, -1, ents)
    ensures err.Some? <==> st.fails(Reading(NAMED_QUERY, [Str(dispatchId), Int(-1)]))
                           || exists i :: 0 <= i < |Select(st.Content(), NAMED_QUERY, [Str(dispatchId), Int(-1)])|
                                          && ScanNamed(Select(st.Content(), NAMED_QUERY, [Str(dispatchId), Int(-1)])[i]).None?
    ensures err.Some? ==> err.value == ENGINE_FAILURE && ents == []
  {
    ents, err := GetElectronAssets(st, dispatchId, -1);
  }
}
