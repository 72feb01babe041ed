/**
 * The database schema as the crud layer sees it: table and column names,
 * the column lists each entity writes, and which tables have a primary key.
 */
module Tables {
  import opened Wrappers
  import opened Text

  /** The five tables of the store. */
  datatype Table = Dispatches | Electrons | Edges | Assets | AssetLinks

  const DISPATCH_TABLE := "dispatches"
  const ELECTRON_TABLE := "electrons"
  const EDGES_TABLE := "edges"
  const ASSET_TABLE := "assets"
  const ASSET_LINKS_TABLE := "assetlinks"

  const ASSET_TABLE_ID := "id"
  const ASSET_TABLE_SCHEME := "scheme"
  const ASSET_TABLE_BASE := "base_path"
  const ASSET_TABLE_KEY := "key"
  const ASSET_TABLE_SIZE := "size"
  const ASSET_TABLE_DIGEST_ALG := "digest_alg"
  const ASSET_TABLE_DIGEST := "digest"
  const ASSET_TABLE_REMOTE_URI := "remote_uri"
  const ASSET_LINKS_TABLE_DISPATCH_ID := "dispatch_id"
  const ASSET_LINKS_TABLE_NODE_ID := "transport_graph_node_id"
  const ASSET_LINKS_TABLE_ASSET_ID := "asset_id"
  const ASSET_LINKS_TABLE_NAME := "name"
  const DISPATCH_TABLE_CREATED_AT := "created_at"
  const DISPATCH_TABLE_UPDATED_AT := "updated_at"
  const DISPATCH_TABLE_NAME := "name"
  const DISPATCH_TABLE_STATUS := "status"
  const DISPATCH_TABLE_EXECUTOR := "executor"
  const DISPATCH_TABLE_EXECUTOR_DATA := "executor_data"
  const DISPATCH_TABLE_WORKFLOW_EXECUTOR := "workflow_executor"
  const DISPATCH_TABLE_WORKFLOW_EXECUTOR_DATA := "workflow_executor_data"
  const DISPATCH_TABLE_PYTHON_VERSION := "python_version"
  const DISPATCH_TABLE_COVALENT_VERSION := "covalent_version"
  const DISPATCH_TABLE_START_TIME := "start_time"
  const DISPATCH_TABLE_END_TIME := "end_time"
  const DISPATCH_TABLE_ID := "id"
  const DISPATCH_TABLE_ROOT_ID := "root_dispatch_id"
  const ELECTRON_TABLE_NODE_ID := "transport_graph_node_id"
  const ELECTRON_TABLE_GID := "task_group_id"
  const ELECTRON_TABLE_DISPATCH_ID := "parent_dispatch_id"
  const ELECTRON_TABLE_SUBDISPATCH_ID := "sub_dispatch_id"
  const ELECTRON_TABLE_NAME := "name"
  const ELECTRON_TABLE_STATUS := "status"
  const ELECTRON_TABLE_EXECUTOR := "executor"
  const ELECTRON_TABLE_EXECUTOR_DATA := "executor_data"
  const ELECTRON_TABLE_START_TIME := "start_time"
  const ELECTRON_TABLE_END_TIME := "end_time"
  const EDGES_TABLE_ID := "id"
  const EDGES_TABLE_CHILD := "child_node_id"
  const EDGES_TABLE_PARENT := "parent_node_id"
  const EDGES_TABLE_DISPATCH := "dispatch_id"
  const EDGES_TABLE_NAME := "edge_name"
  const EDGES_TABLE_TYPE := "param_type"
  const EDGES_TABLE_ARG_INDEX := "arg_index"

  /** Columns an asset entity writes, in the order of its Fields(). */
  const ASSET_KEYS: seq<string> := [ASSET_TABLE_ID, ASSET_TABLE_SCHEME, ASSET_TABLE_BASE, ASSET_TABLE_KEY,
                                    ASSET_TABLE_SIZE, ASSET_TABLE_DIGEST, ASSET_TABLE_DIGEST_ALG, ASSET_TABLE_REMOTE_URI]

  /** Columns an asset link writes. */
  const ASSET_LINK_KEYS: seq<string> := [ASSET_LINKS_TABLE_DISPATCH_ID, ASSET_LINKS_TABLE_NODE_ID,
                                         ASSET_LINKS_TABLE_ASSET_ID, ASSET_LINKS_TABLE_NAME]

  /** Columns a dispatch entity writes. */
  const DISPATCH_ENTITY_KEYS: seq<string> :=
    [DISPATCH_TABLE_ID, DISPATCH_TABLE_ROOT_ID, DISPATCH_TABLE_NAME, DISPATCH_TABLE_STATUS,
     DISPATCH_TABLE_EXECUTOR, DISPATCH_TABLE_EXECUTOR_DATA, DISPATCH_TABLE_WORKFLOW_EXECUTOR,
     DISPATCH_TABLE_WORKFLOW_EXECUTOR_DATA, DISPATCH_TABLE_PYTHON_VERSION, DISPATCH_TABLE_COVALENT_VERSION,
     DISPATCH_TABLE_START_TIME, DISPATCH_TABLE_END_TIME, DISPATCH_TABLE_CREATED_AT, DISPATCH_TABLE_UPDATED_AT]

  /** Columns an electron entity writes. */
  const ELECTRON_ENTITY_KEYS: seq<string> :=
    [ELECTRON_TABLE_DISPATCH_ID, ELECTRON_TABLE_SUBDISPATCH_ID, ELECTRON_TABLE_NODE_ID, ELECTRON_TABLE_GID,
     ELECTRON_TABLE_NAME, ELECTRON_TABLE_STATUS, ELECTRON_TABLE_EXECUTOR, ELECTRON_TABLE_EXECUTOR_DATA,
     ELECTRON_TABLE_START_TIME, ELECTRON_TABLE_END_TIME]

  /** Columns an edge entity writes. */
  const EDGE_ENTITY_KEYS: seq<string> :=
    [EDGES_TABLE_DISPATCH, EDGES_TABLE_CHILD, EDGES_TABLE_PARENT, EDGES_TABLE_TYPE, EDGES_TABLE_NAME,
     EDGES_TABLE_ARG_INDEX]

  function TableName(t: Table): string
  {
    match t
    case Dispatches => DISPATCH_TABLE
    case Electrons => ELECTRON_TABLE
    case Edges => EDGES_TABLE
    case Assets => ASSET_TABLE
    case AssetLinks => ASSET_LINKS_TABLE
  }

  /** The columns of each table, as written by the entity stored there. */
  function Schema(t: Table): seq<string>
  {
    match t
    case Dispatches => DISPATCH_ENTITY_KEYS
    case Electrons => ELECTRON_ENTITY_KEYS
    case Edges => EDGE_ENTITY_KEYS
    case Assets => ASSET_KEYS
    case AssetLinks => ASSET_LINK_KEYS
  }

  /** Assets are keyed by their id and dispatches by their dispatch id; the other tables only append. */
  function PrimaryKey(t: Table): Option<string>
  {
    match t
    case Dispatches => Some(DISPATCH_TABLE_ID)
    case Assets => Some(ASSET_TABLE_ID)
    case _ => None
  }

  predicate Distinct<T(==)>(s: seq<T>)
  {
    forall i, j :: 0 <= i < j < |s| ==> s[i] != s[j]
  }

  /** Distinct elements drawn from a set are no more than the set holds. */
  lemma {:induction false} DistinctWithin<T>(s: seq<T>, within: set<T>)
    requires Distinct(s) && forall x :: x in s ==> x in within
    ensures |s| <= |within|
  {
    if |s| > 0 {
      var last := s[|s| - 1];
      var init := s[..|s| - 1];
      forall x | x in init ensures x in within - {last} {
        var i :| 0 <= i < |init| && init[i] == x;
        assert s[i] == x;
      }
      DistinctWithin(init, within - {last});
    }
  }

  /** Every schema lists distinct column names free of parameter markers. */
  lemma SchemaWellFormed(t: Table)
    ensures Distinct(Schema(t)) && AllIdents(Schema(t)) && Ident(TableName(t))
  {
    TableNameIdent(t);
    match t
    case Dispatches => DispatchKeysWellFormed();
    case Electrons => ElectronKeysWellFormed();
    case Edges => EdgeKeysWellFormed();
    case Assets => AssetKeysWellFormed();
    case AssetLinks => LinkKeysWellFormed();
  }

  lemma TableNameIdent(t: Table)
    ensures Ident(TableName(t))
  {
  }

  /** The electron columns that filters and updates name are plain identifiers. */
  lemma ElectronColumnIdents()
    ensures Ident(ELECTRON_TABLE_DISPATCH_ID) && Ident(ELECTRON_TABLE_NODE_ID) && Ident(ELECTRON_TABLE_STATUS)
    ensures Ident(ELECTRON_TABLE_START_TIME) && Ident(ELECTRON_TABLE_END_TIME)
  {
  }

  lemma DispatchKeysWellFormed()
    ensures Distinct(DISPATCH_ENTITY_KEYS) && AllIdents(DISPATCH_ENTITY_KEYS)
  {
  }

  lemma ElectronKeysWellFormed()
    ensures Distinct(ELECTRON_ENTITY_KEYS) && AllIdents(ELECTRON_ENTITY_KEYS)
  {
  }

  lemma EdgeKeysWellFormed()
    ensures Distinct(EDGE_ENTITY_KEYS) && AllIdents(EDGE_ENTITY_KEYS)
  {
  }

  lemma AssetKeysWellFormed()
    ensures Distinct(ASSET_KEYS) && AllIdents(ASSET_KEYS)
  {
  }

  lemma LinkKeysWellFormed()
    ensures Distinct(ASSET_LINK_KEYS) && AllIdents(ASSET_LINK_KEYS)
  {
  }
}
