# govalent persistence and transport-graph layer, in Dafny

This project models the `server/crud` package of the govalent workflow server. It also models the small value types of
`server/models` and `server/common` that this package uses. The SQLite database behind it is replaced by an
abstract in-memory store. The store is a class (`Database.Store`) holding one sequence of rows per table:
dispatches, electrons, edges, assets and asset links.

- Writes are prepared statements.
  - Inserts are `INSERT OR IGNORE` on the primary key: `id` for assets and for dispatches.
  - Electrons, edges and links have no unique key, so their inserts are append-only.
  - Updates and deletes act on the rows whose equality filters all hold.
- Queries filter the rows, sort them stably on one column and cut out a `LIMIT`/`OFFSET` page. Joins pair rows on
  one column.
- Whether a prepare, an execution or a query fails is a parameter of the store (`fails`). The model therefore covers
  every error path of this package without modelling SQLite's own reasons for failing.

The five parts of the model:

1. **Transport graph** (`graph_view.dfy`, `graph.dfy`).
   - `NewGraphView` builds the forward adjacency.
   - `sortTopologically` is Kahn's algorithm run in readiness waves. Take a graph whose node ids are distinct and
     whose edges join its own nodes (`WellFormed`). For such a graph it is proved to return a permutation of the
     nodes in which every edge's source precedes its target, or to reject the graph exactly when a closed set of
     nodes (a cycle) exists. On other graphs the sort as written can succeed without listing every node (see
     "## Findings"). `SortTopologicallyStrict` is the corrected sort: it rejects those graphs too and carries the
     same guarantee for every graph.
   - The edge rows are written and read back.
2. **SQL templates** (`templates.dfy`, `crud.dfy`, `database.dfy`).
   - The `generate*` string builders are modelled.
   - Every statement they emit is proved to have exactly as many `?` placeholders as the argument list built beside
     it, in the same order.
   - A statement runs only when its text is the one the store expects.
3. **Assets and asset links** (`asset.dfy`, `asset_links.dfy`).
   - Asset ids are hashes of keys.
   - The `remote_uri` rules differ on create and on read.
   - Registration is idempotent.
   - The link/asset join returns a node's assets ordered by link name.
4. **Dispatches, electrons, import and export** (`dispatch.dfy`, `dispatch_assets.dfy`, `electron.dfy`,
   `electron_assets.dfy`, `importer.dfy`, `exporter.dfy`).
   - Slot keys and links: 2 + 5 dispatch-scope slots and 8 electron slots.
   - Partial updates, the deletion filter and the not-found errors.
   - The import step order and the import-then-export round trip.
5. **Value types and validation** (`enums.dfy`, `api_errors.dfy`, `models_*.dfy`).
   - The six statuses.
   - The fixed slot tables.
   - Request/response validation and the error-code taxonomy.

Foreign functions are parameters of a `Config` (`environment.dfy`):
- md5 is `md5Hex`;
- JSON marshalling is a `Codec`;
- a fresh uuid and the current time are arguments.

Go's randomised map iteration is an argument too: the order in which the slot maps are visited
(`order`, `dOrder`, `lOrder`, `orders`). Every result is proved for every such order.

## Model

| member | source | states |
|---|---|---|
| Enums.ValidateStatus | server/common/enums.go:13-25 | a status is accepted exactly when it is one of NEW_OBJECT, STARTING, RUNNING, DISPATCHING, COMPLETED, FAILED |
| Enums.StatusesDistinct | server/common/enums.go:4-20 | the six status constants are pairwise distinct and exactly two are terminal |
| Enums.TerminalAreValid | server/common/enums.go:4-25 | COMPLETED and FAILED are valid statuses; "NEW" and the empty string are rejected |
| ApiErrors.NewSingleValidationError | server/models/api_errors.go:26-34 | the cause holds exactly one detail, carrying the given location, attribute and message |
| ApiErrors.NewGenericClientError | server/models/api_errors.go:50-55 | status 400 with the given message |
| ApiErrors.NewNotImplementedError | server/models/api_errors.go:57-62 | status 500 with the "Not implemented" message |
| ApiErrors.NewGenericServerError | server/models/api_errors.go:64-69 | status 500, keeping the wrapped error |
| ApiErrors.NewValidationError | server/models/api_errors.go:71-76 | status 422, keeping the wrapped error |
| ApiErrors.NewNotFoundError | server/models/api_errors.go:78-83 | status 404, keeping the wrapped error |
| ApiErrors.ErrorText | server/models/api_errors.go:46-48 | the error text starts with the status-code prefix |
| ApiErrors.ErrorTaxonomy | server/models/api_errors.go:50-83 | 400, 404 and 422 are client errors and both 500s are not; a validation error and a generic client error each differ from a not-found error |
| AssetModels.Copy | server/models/asset.go:16-22 | after a copy all five detail fields equal the source's (the source is a value and is not changed) |
| AssetModels.ValidateBulkRequest | server/models/asset.go:33-40 | fails, with the 422 empty-key error, exactly when some asset has an empty key; so an empty list validates |
| GraphModels.FirstRequestFailure | server/models/models.go:38-46 | the index of the first node whose request validation fails, or the node count |
| GraphModels.FirstResponseFailure | server/models/models.go:48-56 | the index of the first node whose response validation fails, or the node count |
| GraphModels.GraphRequest | server/models/models.go:38-46 | request validation of a graph succeeds exactly when every node validates; otherwise the error is the first failing node's; nodes before it are validated, that node and later ones kept, links untouched |
| GraphModels.GraphResponse | server/models/models.go:48-56 | the same for response validation |
| GraphModels.ValidateGraphRequest | server/models/models.go:38-46 | nodes are validated in order up to the first failure, whose error is returned; later nodes and all links are untouched; an empty graph validates |
| GraphModels.ValidateGraphResponse | server/models/models.go:48-56 | the same first-error, in-order discipline for responses |
| DispatchModels.SlotNamesDistinct | server/models/dispatch.go:32-69 | the dispatch and lattice slot names are distinct, also taken together |
| DispatchModels.DispatchAttrsByName | server/models/dispatch.go:64-69 | the dispatch slot table has exactly the names result and error |
| DispatchModels.LatticeAttrsByName | server/models/dispatch.go:32-40 | the lattice slot table has exactly the five names workflow_function, workflow_function_string, doc, inputs, hooks |
| DispatchModels.DispatchSlotsIndependent | server/models/dispatch.go:64-69 | each dispatch name is bound to its own field: writing one slot changes only that name's entry |
| DispatchModels.LatticeSlotsIndependent | server/models/dispatch.go:32-40 | each lattice name is bound to its own field: writing one slot changes only that name's entry |
| DispatchModels.ValidateLatticeMetaRequest | server/models/dispatch.go:77-92 | succeeds exactly when both executor data values serialise, storing the serialisations; otherwise a 422 |
| DispatchModels.ValidateLatticeMetaResponse | server/models/dispatch.go:93-103 | succeeds exactly when both stored executor data values decode, filling the decoded values; otherwise a 500 |
| DispatchModels.ValidateLatticeAssets | server/models/dispatch.go:105-108 | lattice asset validation always succeeds |
| DispatchModels.LatticeRequest | server/models/dispatch.go:110-124 | request validation of a lattice succeeds exactly when both executor data values serialise and every node validates; a metadata error leaves the graph untouched; otherwise the graph and the error are those of the graph's validation |
| DispatchModels.LatticeResponse | server/models/dispatch.go:126-136 | the same for responses, with decoding in place of serialisation |
| DispatchModels.ValidateLatticeRequest | server/models/dispatch.go:110-124 | computes LatticeRequest: a metadata error is returned with the graph untouched; otherwise the error is the first failing node's, the nodes before it are validated, the rest and the links kept; the assets are unchanged |
| DispatchModels.ValidateLatticeResponse | server/models/dispatch.go:126-136 | computes LatticeResponse, with the same first-failing-node discipline for responses |
| DispatchModels.ValidateDispatchMetaRequest | server/models/dispatch.go:138-151 | an empty id is replaced by the fresh non-empty one and a set id is kept; created and updated times are both now; fails with a 422 (body, status, "Invalid value") exactly when the status is invalid, after the id and times are set |
| DispatchModels.ValidateDispatchRequest | server/models/dispatch.go:153-160 | the metadata is always the validated one and the assets are kept; when the metadata fails its error is returned and the lattice is left unvalidated; otherwise the lattice and the error are LatticeRequest's; succeeds exactly when the status is valid and the lattice validates |
| DispatchModels.ValidateDispatchResponse | server/models/dispatch.go:162-164 | metadata and assets are returned unchanged; the lattice and the error are LatticeResponse's; succeeds exactly when both stored executor data values decode and every node validates |
| ElectronModels.ElectronSlotsDistinct | server/models/electron.go:40-51 | the electron slot table has exactly 8 distinct names |
| ElectronModels.ElectronAttrsByName | server/models/electron.go:40-51 | the slot table's keys are exactly the 8 slot names |
| ElectronModels.ElectronSlotsIndependent | server/models/electron.go:40-51 | each name is bound to its own field: writing one slot changes only that name's entry |
| ElectronModels.ElectronWithSameAttr | server/models/electron.go:40-51 | writing back a slot's own value changes nothing |
| ElectronModels.ElectronAttrsByNameInjective | server/models/electron.go:40-51 | two electrons with the same slot table have the same assets (every field is reachable by a name) |
| ElectronModels.MapSlotsByName | server/models/electron.go:40-51 | rewriting every slot through the table rewrites each named slot |
| ElectronModels.ValidateElectronMeta | server/models/electron.go:53-61 | electron metadata validation always succeeds; the status is not checked |
| ElectronModels.ValidateElectronAssets | server/models/electron.go:63-67 | electron asset validation always succeeds |
| ElectronModels.ValidateElectronRequest | server/models/electron.go:69-87 | a serialisation failure is a 422 that returns the schema unchanged; otherwise the executor data is replaced by its serialisation and nothing else changes |
| ElectronModels.ValidateElectronResponse | server/models/electron.go:89-99 | a decode failure is a 500 that returns the schema unchanged; otherwise the decoded executor data is filled in, the stored form kept, the qelectron flag cleared, and nothing else changes |
| Database.WithRows | server/crud/crud.go:91-103 | replacing one table's rows leaves the other tables unchanged |
| Database.Bind | server/crud/templates.go:26-62 | positional arguments bind to the equality columns first, then to the LIKE columns |
| Database.Where | server/crud/templates.go:102-112 | a row is kept exactly when it is in the table and every condition holds (a conjunction) |
| Database.WhereKeepsNone | server/crud/templates.go:102-112 | when no row matches, the filter keeps nothing |
| Database.WhereKeepsOwn | server/crud/templates.go:102-112 | filtering rows that never match followed by rows that all match keeps exactly the latter, in order |
| Database.WhereNot | server/crud/crud.go:91-103 | a row survives a delete exactly when not every condition holds |
| Database.UpdateWhere | server/crud/crud.go:31-62 | an update keeps the number of rows |
| Database.StatementMarkers | server/crud/templates.go:25 | every write statement's text has as many placeholders as the statement takes arguments |
| Database.QueryMarkers | server/crud/templates.go:25 | every query's text has as many placeholders as the query takes arguments |
| Database.QualifiedInjective | server/crud/asset_links.go:65-79 | `table.column` names of one table are distinct for distinct columns |
| Database.QualifyCols | server/crud/asset_links.go:81-90 | a qualified row carries each column's value under `table.column` and nothing outside that table's prefix |
| Database.JoinOneRows | server/crud/templates.go:130-145 | a joined row pairs the left row with exactly the right rows matching the join condition |
| Database.JoinStepRows | server/crud/templates.go:130-145 | one join step holds exactly the matching pairs of left and right rows |
| Database.FilterSort | server/crud/templates.go:118-128 | filter then `ORDER BY` keeps exactly the matching rows, sorted on the key |
| Database.FilterSortPage | server/crud/templates.go:118-128 | a `LIMIT ? OFFSET ?` page keeps only matching rows and stays sorted |
| Database.SelectedJoinRows | server/crud/templates.go:146-172 | a join select returns only joined, matching rows, sorted, at most limit many |
| Database.SelectedPageRows | server/crud/templates.go:118-128 | a paged select returns matching rows, sorted, at most limit many |
| Database.SelectedCount | server/crud/templates.go:118-128 | an unpaged select returns as many rows as match its filter |
| Database.SelectedAllRows | server/crud/templates.go:118-128 | an unpaged select returns exactly the matching rows, sorted |
| Database.Store.Prepare | server/crud/crud.go:47-50 | preparing succeeds exactly unless the store fails that statement |
| Database.Store.Exec | server/crud/crud.go:51-60 | an accepted execution applies the statement to the tables; a rejected one changes nothing |
| Database.Store.Query | server/crud/dispatch.go:87-117 | a query answers exactly when its arguments fit and the store does not fail it; the answer is the selected rows projected on the columns |
| RowOrder.SortByPermutes | server/crud/templates.go:118-128 | sorting reorders the rows without adding or dropping any |
| RowOrder.SortBySorted | server/crud/templates.go:118-128 | the sorted rows are in key order |
| RowOrder.SortByAbsentKey | server/crud/templates.go:118-128 | with every key equal, the stable sort keeps table order |
| RowOrder.Page | server/crud/templates.go:118-128 | a page holds at most limit rows and no more than the input |
| RowOrder.PageIsSlice | server/crud/templates.go:118-128 | a page is a contiguous slice of the sorted rows |
| RowOrder.PageKeepsSorted | server/crud/templates.go:118-128 | a page of sorted rows is sorted and drawn from them |
| SqlValues.ProjectZip | server/crud/dispatch.go:45-81 | a row written from values on distinct columns projects back to those values |
| Tables.SchemaWellFormed | server/db/tables.go:8-59 | every table's columns are distinct identifiers |
| Templates.Filters.constructor | server/crud/templates.go:10-15 | a new filter set has no filters, limit 0 and offset 0 |
| Templates.Filters.AddLike | server/crud/templates.go:17-19 | appends one LIKE entry at the end; earlier entries, equality filters and paging are unchanged |
| Templates.Filters.AddEq | server/crud/templates.go:21-23 | appends one equality entry at the end; earlier entries, LIKE filters and paging are unchanged |
| Templates.Filters.RenderValues | server/crud/templates.go:26-40 | the equality values in order, then the LIKE values, then limit and offset when the limit is positive |
| Templates.Filters.RenderTemplate | server/crud/templates.go:42-63 | the WHERE text of the equality keys followed by the LIKE keys |
| Templates.WhereTextParts | server/crud/templates.go:42-63 | the WHERE text is empty exactly when there are no filters; otherwise `k = ?` conditions precede `k LIKE ?` conditions, joined by ` AND ` |
| Templates.FilterAlignment | server/crud/templates.go:25-63 | the value list is as long as the template's placeholders (plus 2 for paging), and the k-th value belongs to the k-th condition's key |
| Templates.CondsPlaceholders | server/crud/templates.go:42-63 | the conditions hold one placeholder per filter |
| Templates.WherePlaceholders | server/crud/templates.go:42-63 | the WHERE text holds exactly one placeholder per filter |
| Templates.TwoEqParams | server/crud/templates.go:21-40 | two equality filters render to their two values, in order |
| Templates.GenerateUpdateSqlTemplate | server/crud/templates.go:65-76 | builds the UPDATE text: SET conditions before WHERE conditions |
| Templates.UpdatePlaceholders | server/crud/templates.go:65-76 | the UPDATE text has one placeholder per update column plus one per where column |
| Templates.GenerateInsertTemplate | server/crud/templates.go:78-91 | builds the `INSERT OR IGNORE INTO t (c1, …, cn) VALUES (?, …, ?)` text |
| Templates.InsertPlaceholders | server/crud/templates.go:78-91 | the INSERT text has exactly one placeholder per column |
| Templates.GenerateColumnString | server/crud/templates.go:93-100 | the columns joined by ", " (at least one column is needed) |
| Templates.GenerateWhereString | server/crud/templates.go:102-112 | the WHERE text of equality conditions on the given columns |
| Templates.GenerateSelectTemplate | server/crud/templates.go:118-128 | builds the SELECT … ORDER BY text, with the paging suffix when asked |
| Templates.SelectPlaceholders | server/crud/templates.go:118-128 | the SELECT text has the WHERE placeholders plus 2 exactly when paged |
| Templates.SelectTextEnding | server/crud/templates.go:118-128 | the text ends with ` LIMIT ? OFFSET ?` exactly when paged, and the order is ` ASC` when ascending, ` DESC` otherwise |
| Templates.LimitOffsetMarkers | server/crud/templates.go:125-127 | the paging suffix holds two placeholders |
| Templates.GenerateJoinString | server/crud/templates.go:130-145 | builds the JOIN … ON clauses in order |
| Templates.JoinTextIdent | server/crud/templates.go:130-145 | the join clauses hold no placeholder |
| Templates.GenerateSelectJoinTemplate | server/crud/templates.go:146-172 | builds the joined SELECT with the literal limit and offset |
| Templates.SelectJoinPlaceholders | server/crud/templates.go:146-172 | the joined SELECT has only the filter's placeholders |
| Templates.DeletePlaceholders | server/crud/templates.go:174-176 | the DELETE text has only the filter's placeholders |
| Templates.WriteConditions | server/crud/templates.go:42-63 | appends the conditions joined by ` AND ` |
| Templates.Keys | server/crud/templates.go:42-63 | the keys of the filter entries, in order |
| Templates.ValuesOf | server/crud/templates.go:26-40 | the values of the filter entries, in order |
| Templates.Markers | server/crud/templates.go:78-91 | n question marks |
| Crud.UpdateTable | server/crud/crud.go:31-62 | runs the UPDATE with the update values followed by the where values; a failed prepare or execution is a 500 that changes nothing |
| Crud.UpdateEffect | server/crud/crud.go:31-62 | rows where every where-filter holds get the update values, other columns and rows are unchanged |
| Crud.WhereBound | server/crud/crud.go:31-62 | binding the where values gives exactly the conjunction of equality filters |
| Crud.InsertEntitiesWithTemplate | server/crud/crud.go:64-80 | a failed prepare inserts nothing; otherwise the entities are inserted in order up to the first rejected one, whose index is returned with a 500; all of them on success |
| Crud.InsertEach | server/crud/crud.go:70-79 | the insert loop stops at the first rejected row and returns how many went in |
| Crud.InsertEntities | server/crud/crud.go:82-89 | an empty list returns (0, nil) and prepares nothing; otherwise the columns are the first entity's fields |
| Crud.Accepted | server/crud/crud.go:70-79 | the number of rows accepted before the first rejection |
| Crud.Batch | server/crud/crud.go:64-80 | a batch insert inserts the rows in order up to the first rejected one, reports an error exactly when not all went in, and that error is a 500 |
| Crud.BatchKeepsOthers | server/crud/crud.go:64-80 | a batch insert changes only its own table |
| Crud.BatchKeepsRows | server/crud/crud.go:64-80 | a batch insert never removes a row |
| Crud.BatchComplete | server/crud/crud.go:64-80 | a successful batch inserts every row |
| Crud.RunAllAppends | server/crud/crud.go:64-80 | inserts into a table without a key append the rows in order |
| Crud.RunAllRegisters | server/crud/templates.go:78-91 | after keyed inserts every key is present, old rows stay, and new rows are among the inserted ones |
| Crud.InsertIdempotent | server/crud/templates.go:78-91 | repeating a keyed `INSERT OR IGNORE` changes nothing |
| Crud.DeleteEntities | server/crud/crud.go:91-103 | runs the DELETE with the filter values; a failure is a 500 that changes nothing |
| Crud.DeleteEffect | server/crud/crud.go:91-103 | removes exactly the rows matching all equality filters, and touches no other table |
| Crud.DeleteAll | server/crud/crud.go:91-103 | with no filters every row is removed |
| Crud.DeleteRejectsPaging | server/crud/crud.go:91-103 | a DELETE is accepted only when the limit is not positive (no paging values) and the store does not fail it |
| Crud.ScanAll | server/crud/dispatch.go:99-116 | succeeds exactly when every row scans, and then the entities line up with the rows |
| Crud.ScanRows | server/crud/dispatch.go:99-116 | the scan loop returns every row's entity, or a 500 and nothing |
| Assets.AssetValues | server/crud/asset.go:57-81 | one value per asset column |
| Assets.StoredAssetRow | server/crud/asset.go:57-81 | the written row holds digest_alg under digest, digest under digest_alg, and the URI under remote_uri |
| Assets.ScanAsset | server/crud/asset.go:83-94 | a scanned asset is what was written, with no remote URI |
| Assets.StoredAssetReadsBack | server/crud/asset.go:57-94 | a written asset reads back as itself despite the swapped columns |
| Assets.ScanAssetValues | server/crud/asset.go:57-94 | scanning the values written gives the stored entity |
| Assets.GetPublicEntity | server/crud/asset.go:103-114 | the remote URI is the internal URI whenever the size is positive, even if a URI is set; otherwise unchanged |
| Assets.GetPublicEntityIdempotent | server/crud/asset.go:103-114 | serving an asset twice is the same as once |
| Assets.WithRemoteUri | server/crud/asset.go:103-105 | sets the public URI and leaves the stored fields alone |
| Assets.WithUploadUri | server/crud/asset.go:129-135 | the create-time URI rule leaves the stored fields alone |
| Assets.UploadUriIsDownloadUri | server/crud/asset.go:97-135 | for a positive size without a caller URI, the URI set on create equals the one served on read: `file://` + storage path + `/` + key |
| Assets.Registrations | server/crud/asset.go:118-123 | one entity per input, in input order, built from that input |
| Assets.AssetRows | server/crud/asset.go:139-159 | one row of values per entity, in order |
| Assets.CreateAssetsFromEntities | server/crud/asset.go:139-159 | inserts the entity rows in order, stopping at the first failure with a 500 |
| Assets.CreateAssets | server/crud/asset.go:118-137 | registers the inputs in order; on success returns one entity per input whose remote URI follows the create-time rule |
| Assets.RegistrationStoresIds | server/crud/asset.go:139-159 | after registration every input's id is stored, old assets stay, and new rows come from the inputs |
| Assets.RegistrationIdempotent | server/crud/asset.go:139-159 | registering the same asset a second time leaves the store as the first registration left it |
| Assets.PrefixRows | server/crud/asset.go:161-201 | the prefix query returns assets whose key starts with the prefix, in key order, at most limit many |
| Assets.PrefixRowsComplete | server/crud/asset.go:161-201 | without a limit, exactly the assets whose key starts with the prefix |
| Assets.ScannedInKeyOrder | server/crud/asset.go:161-201 | the scanned entities keep the prefix and key order |
| Assets.PrefixEntities | server/crud/asset.go:161-201 | the read entities match the prefix, are key-ordered and respect the limit |
| Assets.GetAssetEntitiesByPrefix | server/crud/asset.go:161-201 | returns the prefix matches in key order, or a 500 and nothing |
| AssetLinks.LinkValues | server/crud/asset_links.go:22-47 | one value per link column |
| AssetLinks.ScanLink | server/crud/asset_links.go:22-47 | a scanned link is what was written |
| AssetLinks.StoredLinkReadsBack | server/crud/asset_links.go:22-47 | a written link reads back as itself |
| AssetLinks.NamedFieldsSpec | server/crud/asset_links.go:65-79 | `assetlinks.name` followed by one qualified field per asset column |
| AssetLinks.NamedFields | server/crud/asset_links.go:65-71 | builds the named-asset field list |
| AssetLinks.ScanNamed | server/crud/asset_links.go:73-79 | a scanned named asset is the link name followed by the asset's fields, in the same order |
| AssetLinks.LinkRows | server/crud/asset_links.go:101-121 | one row of values per link, in order |
| AssetLinks.CreateAssetLinks | server/crud/asset_links.go:101-121 | an empty list changes nothing; links are inserted in order, stopping at the first failure with a 500 |
| AssetLinks.LinksAppended | server/crud/asset_links.go:101-121 | inserted links are appended after the old ones and read back in order |
| AssetLinks.LinkRowsSelected | server/crud/asset_links.go:123-166 | the links query returns only the owner's links, ordered by name, at most 100 |
| AssetLinks.LinksOfNode | server/crud/asset_links.go:123-166 | the read links belong to the owner and are name-ordered, at most 100 |
| AssetLinks.LinksStatement | server/crud/asset_links.go:130-150 | the links query text and its two arguments line up |
| AssetLinks.GetAssetLinks | server/crud/asset_links.go:123-166 | returns the owner's raw link rows, name-ordered, at most 100, or a 500 and nothing |
| AssetLinks.JoinedColumns | server/crud/asset_links.go:81-90 | the joined row carries each link column and each asset column under its own qualified name |
| AssetLinks.NamedJoinMatch | server/crud/asset_links.go:81-90 | a link joins an asset exactly when the link's asset_id equals the asset's id |
| AssetLinks.NamedSource | server/crud/asset_links.go:81-90 | the join holds exactly the matching link/asset pairs |
| AssetLinks.NamedProjection | server/crud/asset_links.go:65-79 | projecting a joined row gives the link name followed by the asset's values |
| AssetLinks.NamedConditions | server/crud/asset_links.go:169-196 | the filter holds exactly for the owner's (dispatch id, node id) |
| AssetLinks.NamedRowsSelected | server/crud/asset_links.go:169-223 | the named query returns only the owner's link/asset pairs, ordered by link name, at most 100 |
| AssetLinks.NamedRowsComplete | server/crud/asset_links.go:169-223 | when at most 100 match, every owner link with its asset is returned |
| AssetLinks.NamedAssetsOfNode | server/crud/asset_links.go:169-223 | the read named assets are the owner's linked assets, name-ordered |
| AssetLinks.NamedEntityOfRow | server/crud/asset_links.go:169-223 | each read entity is a linked asset of the owner, under its link name |
| AssetLinks.NamedStatement | server/crud/asset_links.go:184-196 | the named query text and its two arguments line up |
| AssetLinks.NamedQueryText | server/crud/asset_links.go:184-196 | the query text is the joined SELECT ordered by link name with limit 100 and offset 0 |
| AssetLinks.GetElectronAssets | server/crud/asset_links.go:169-223 | returns the owner's links, each paired with the asset whose id equals the link's asset_id, name-ordered, at most 100; a failure is a 500 |
| AssetLinks.GetDispatchAssets | server/crud/asset_links.go:92-99 | exactly the named assets of node -1, the dispatch scope |
| Electrons.TimeValue | server/crud/electron.go:44-57 | a missing time is stored as NULL |
| Electrons.ScanTime | server/crud/electron.go:59-72 | only an integer fails to scan; a scanned time writes back to the same value |
| Electrons.ElectronValues | server/crud/electron.go:44-57 | one value per electron column |
| Electrons.ScanElectron | server/crud/electron.go:59-72 | a scanned electron is what was written, less what is not stored |
| Electrons.StoredElectronReadsBack | server/crud/electron.go:13-72 | values and scan follow the column list position for position, so a written electron reads back |
| Electrons.ScannedNode | server/crud/electron.go:59-72 | a scanned electron's row is that node's row |
| Electrons.GetElectronEntities | server/crud/electron.go:78-108 | returns the filtered, sorted, paged electrons, or a 500 and nothing |
| Electrons.EntitiesQueryText | server/crud/electron.go:78-108 | the electron select is readable and its text is the generated SELECT |
| Electrons.EntitiesArgs | server/crud/electron.go:78-108 | the rendered values fit the query's placeholders |
| Electrons.EntitiesFiltered | server/crud/electron.go:78-108 | the selected rows meet every equality filter, are sorted, and respect the limit |
| Electrons.NodeRows | server/crud/electron.go:195-207 | the node query selects exactly the node's rows |
| Electrons.NodeEntities | server/crud/electron.go:195-207 | the node read is empty exactly when no row of the node exists; otherwise the first is the node's stored electron |
| Electrons.GetElectronMetadata | server/crud/electron.go:195-207 | returns the node's stored metadata; 404 exactly when the read succeeds and no row of the node exists; 500 exactly when the read fails or a row does not scan |
| Electrons.ReadNode | server/crud/electron.go:195-207 | reads the node's electrons, or a 500 |
| Electrons.NodeFilterRead | server/crud/electron.go:195-207 | the node filters read exactly the node's electrons |
| Electrons.DispatchFilterRead | server/crud/electron.go:209-223 | the dispatch filter reads exactly the dispatch's electrons |
| Electrons.NodeRowsScanFailure | server/crud/electron.go:195-207 | a failed scan means a row of the node exists |
| Electrons.DispatchRows | server/crud/electron.go:209-223 | the dispatch query selects exactly the dispatch's rows, ordered by node id |
| Electrons.DispatchElectronsStored | server/crud/electron.go:209-223 | each read electron is stored under the dispatch |
| Electrons.DispatchElectronsOrdered | server/crud/electron.go:209-223 | the dispatch's electrons come in ascending node id order |
| Electrons.DispatchElectronsComplete | server/crud/electron.go:209-223 | every stored electron of the dispatch is among those read |
| Electrons.DispatchElectronCount | server/crud/electron.go:209-223 | when the table holds other dispatches' rows followed by this dispatch's, the read returns one electron per row of this dispatch |
| Electrons.GetAllElectronMeta | server/crud/electron.go:209-223 | returns the dispatch's metadata in node id order, or a 500 and nothing |
| Electrons.ReadDispatch | server/crud/electron.go:209-223 | reads the dispatch's electrons, or a 500 |
| Electrons.MetaOf | server/crud/electron.go:217-221 | the metadata of each entity, in order |
| Electrons.CreateElectronMetadata | server/crud/electron.go:140-147 | no metadata inserts nothing and succeeds; otherwise one electron row is inserted, or a 500 |
| Electrons.CreatedElectronIsFound | server/crud/electron.go:140-147 | a created electron is appended and found under its (dispatch, node) |
| Electrons.StatusUpdates | server/crud/electron.go:271-293 | the status comes first in the update list |
| Electrons.StatusUpdatesDistinct | server/crud/electron.go:271-293 | the update touches only status, start and end time, each once |
| Electrons.UpdateElectronMetadata | server/crud/electron.go:271-293 | runs the node's UPDATE; a failure is a 500 that changes nothing |
| Electrons.StatusUpdateEffect | server/crud/electron.go:271-293 | the node's rows get the status always, start and end time only when given; no transition check; other rows and tables are unchanged |
| Electrons.StatusUpdateKeeps | server/crud/electron.go:271-293 | every other column of the node's rows is unchanged |
| Electrons.NodeFilterHolds | server/crud/electron.go:271-293 | the update's filter holds exactly for the node's rows |
| ElectronSlots.SlotKeyInjective | server/crud/electron.go:149-193 | distinct slot names give distinct `<dispatch_id>/node_<id>/<name>` keys |
| ElectronSlots.SlotSchemas | server/crud/electron.go:149-193 | one asset per electron slot, keyed `<dispatch_id>/node_<id>/<name>` |
| ElectronSlots.PendingLinks | server/crud/electron.go:149-193 | one link per slot to (dispatch id, node id) under the slot name |
| ElectronSlots.SlotLinks | server/crud/electron.go:180-185 | each slot's link points at the asset id of its key |
| ElectronSlots.UploadedSlotUri | server/crud/electron.go:180-182 | a slot with positive size and no URI gets `file://` + storage path + `/` + its key as remote URI; any other slot keeps its remote URI; no other field changes |
| ElectronSlots.IndexedStep | server/crud/electron.go:149-175 | the key-count and key-name maps stay indexed one slot further |
| ElectronSlots.RecordUploads | server/crud/electron.go:176-188 | records the registered URIs into the slots and fills each link's asset id |
| ElectronSlots.UploadedEntity | server/crud/electron.go:176-188 | the registered entity for a slot has its key, id and create-time URI |
| ElectronSlots.CreateElectronAssets | server/crud/electron.go:149-193 | registers the 8 slot assets, then links them; stops at the first failure with a 500 and returns the updated slots on success |
| ElectronSlots.SlotsOutcome | server/crud/electron.go:149-193 | a failure is a 500; the slots are either untouched or all updated, and all updated on success |
| ElectronSlots.SlotsOutcomeTables | server/crud/electron.go:149-193 | the slot writes change only assets and links |
| ElectronSlots.SlotsOutcomeKeepsRows | server/crud/electron.go:149-193 | the slot writes never remove a row |
| ElectronSlots.RegisteredLinkStored | server/crud/electron.go:149-193 | each inserted link is stored with its asset, and the link table grows by the number of links |
| ElectronSlots.SlotsLinked | server/crud/electron.go:149-193 | after the writes every electron slot name is linked to its asset under (dispatch, node) |
| ElectronSlots.LinkStoredKept | server/crud/electron.go:149-193 | a stored link survives later writes that keep rows |
| ElectronSlots.LinkRowFields | server/crud/asset_links.go:22-47 | a scanned link row carries the link's four fields |
| ElectronSlots.Publics | server/crud/electron.go:245-248 | the served form of each named asset |
| ElectronSlots.ByName | server/crud/electron.go:244-249 | builds the name-to-asset map, the last row of a name winning |
| ElectronSlots.LastByNameSpec | server/crud/electron.go:244-249 | a name is mapped exactly when some row has it, to the served asset of its last row |
| ElectronSlots.SlotsFromByName | server/crud/electron.go:251-257 | a slot gets the mapped asset's details when its name is present, and stays empty otherwise |
| ElectronSlots.FillElectronAssets | server/crud/electron.go:251-257 | fills the slots from the map |
| ElectronSlots.NodeAssets | server/crud/electron.go:238-257 | a node's slots are readable exactly when its named assets are |
| ElectronSlots.NodeSlotLinked | server/crud/electron.go:238-257 | a slot with no link is empty; a linked slot holds the served details of an asset linked under its name |
| ElectronSlots.NamedAssetsLinked | server/crud/electron.go:238-257 | each read named asset is linked to the node |
| ElectronSlots.ReadNodeAssets | server/crud/electron.go:238-257 | reads a node's slots, or a 500 |
| ElectronSlots.GetAllElectrons | server/crud/electron.go:225-260 | the dispatch's electrons in node id order, electron i given NodeId i and the assets of node i; a failure is a 500 and nothing |
| ElectronSlots.ReadElectrons | server/crud/electron.go:234-257 | loads each electron's slots in turn, or a 500 |
| Dispatches.DispatchValues | server/crud/dispatch.go:45-62 | one value per dispatch column |
| Dispatches.ScanDispatch | server/crud/dispatch.go:64-81 | a scanned dispatch is what was written, less what is not stored |
| Dispatches.StoredDispatchReadsBack | server/crud/dispatch.go:19-81 | values and scan follow the column list position for position, so a written dispatch reads back |
| Dispatches.ScannedDispatch | server/crud/dispatch.go:64-81 | a scanned dispatch's row holds its id, root id and creation time |
| Dispatches.GetDispatchEntities | server/crud/dispatch.go:87-117 | returns the filtered, sorted, paged dispatches, or a 500 and nothing |
| Dispatches.DispatchesQueryText | server/crud/dispatch.go:87-117 | the dispatch select is readable and its text is the generated SELECT |
| Dispatches.DispatchesArgs | server/crud/dispatch.go:87-117 | the rendered values fit the query's placeholders |
| Dispatches.GetDispatchSummaries | server/crud/dispatch.go:219-238 | reads with limit = count and offset = page × count, returning each record's metadata, or a 500 |
| Dispatches.SummariesFiltered | server/crud/dispatch.go:219-238 | the summaries are stored dispatches with the id when one is given, newest first, at most count |
| Dispatches.SummariesMatch | server/crud/dispatch.go:219-238 | the id filter applies only when the id is non-empty |
| Dispatches.SummariesNewestFirst | server/crud/dispatch.go:219-238 | summaries are ordered by creation time, descending |
| Dispatches.DispatchMetasOf | server/crud/dispatch.go:228-236 | the metadata of each record, in order |
| Dispatches.DispatchNotFound | server/crud/dispatch.go:247-249 | the not-found error is a 400, distinct from the 500 of a failed read |
| Dispatches.IdFilterRead | server/crud/dispatch.go:240-251 | the id filter reads exactly the dispatch's records |
| Dispatches.IdRows | server/crud/dispatch.go:240-251 | the id query selects exactly the rows with that id |
| Dispatches.IdEntities | server/crud/dispatch.go:240-251 | the read is empty exactly when no row has the id; otherwise the first is the stored dispatch |
| Dispatches.IdRowsScanFailure | server/crud/dispatch.go:240-251 | a failed scan means a row with the id exists |
| Dispatches.ReadDispatchRecords | server/crud/dispatch.go:240-251 | reads the dispatch's records, or a 500 |
| Dispatches.GetDispatchEntity | server/crud/dispatch.go:240-251 | returns the stored dispatch; the 400 "not found" exactly when the read succeeds and no row has the id; a 500 exactly when the read fails or a row does not scan |
| Dispatches.CreateDispatchMetadata | server/crud/dispatch.go:210-217 | a missing dispatch or lattice meta inserts nothing and succeeds; otherwise one row is inserted, or a 500 |
| Dispatches.CreatedDispatchIsFound | server/crud/dispatch.go:210-217 | a new id is appended and found; an existing id is ignored; no other table changes |
| Dispatches.DispatchUpdates | server/crud/dispatch.go:289-300 | the status comes first in the update list |
| Dispatches.DispatchUpdatesDistinct | server/crud/dispatch.go:289-300 | the updated columns are distinct identifiers |
| Dispatches.UpdateDispatch | server/crud/dispatch.go:289-300 | runs the UPDATE on the id; a failure is a 500 that changes nothing |
| Dispatches.DispatchUpdateEffect | server/crud/dispatch.go:289-300 | the row with the id gets the status always, start and end time only when non-empty; other rows and tables are unchanged |
| Dispatches.DispatchUpdateKeeps | server/crud/dispatch.go:289-300 | every other column is unchanged |
| Dispatches.IdFilterHolds | server/crud/dispatch.go:289-300 | the update's filter holds exactly for the rows with the id |
| Dispatches.DeleteDispatch | server/crud/dispatch.go:302-307 | runs the DELETE with both filters; a failure is a 500 that changes nothing |
| Dispatches.DeleteDispatchEffect | server/crud/dispatch.go:302-307 | removes exactly the rows whose id and root id both equal the argument; no other table changes |
| DispatchSlots.SlotCounts | server/crud/dispatch.go:136-205 | there are 2 dispatch slots and 5 lattice slots |
| DispatchSlots.EnumerationCovers | server/crud/dispatch.go:136-149 | a visiting order of the slot map covers every name |
| DispatchSlots.DispatchAttrsRoundTrip | server/models/dispatch.go:64-69 | the dispatch slot table and its fields determine each other |
| DispatchSlots.LatticeAttrsRoundTrip | server/models/dispatch.go:32-40 | the lattice slot table and its fields determine each other |
| DispatchSlots.ScopeAttrs | server/crud/dispatch.go:123-208 | the dispatch-scope slots are the 2 + 5 names |
| DispatchSlots.ScopeKeyInjective | server/crud/dispatch.go:136-149 | distinct names give distinct `<dispatch_id>/<name>` keys |
| DispatchSlots.ScopeSchemas | server/crud/dispatch.go:136-185 | one asset per slot, keyed `<dispatch_id>/<name>` |
| DispatchSlots.ScopePending | server/crud/dispatch.go:136-149 | one link per slot to node -1 under the slot name |
| DispatchSlots.ScopeLinks | server/crud/dispatch.go:156-200 | each slot's link points at the asset id of its key |
| DispatchSlots.ScopeUploadedUri | server/crud/dispatch.go:156-196 | a slot with positive size and no URI gets `file://` + storage path + `/` + its key as remote URI; any other slot keeps its remote URI; no other field changes |
| DispatchSlots.ScopeIndexedStep | server/crud/dispatch.go:136-149 | the key maps stay indexed one slot further |
| DispatchSlots.ScopeUploadedEntity | server/crud/dispatch.go:150-162 | the registered entity for a slot has its key, id and create-time URI |
| DispatchSlots.SlotsUpToStep | server/crud/dispatch.go:150-162 | recording one more upload updates exactly that slot |
| DispatchSlots.RecordScopeUploads | server/crud/dispatch.go:150-162 | records the registered URIs into the slots and fills each link's asset id |
| DispatchSlots.ScopeUploadedAll | server/crud/dispatch.go:150-162 | slots updated along a full visiting order are all updated |
| DispatchSlots.ScopeOutcome | server/crud/dispatch.go:123-208 | the slot names are kept; a failure is a 500; on success every slot is updated |
| DispatchSlots.CreateScopeAssets | server/crud/dispatch.go:136-165 | registers one scope's slot assets, then links them, stopping at the first failure |
| DispatchSlots.ScopeOutcomeTables | server/crud/dispatch.go:123-208 | the scope writes change only assets and links |
| DispatchSlots.ScopeOutcomeKeepsRows | server/crud/dispatch.go:123-208 | the scope writes never remove a row |
| DispatchSlots.ScopeSucceeded | server/crud/dispatch.go:123-208 | a successful scope write performs every insert |
| DispatchSlots.ScopeLinked | server/crud/dispatch.go:136-165 | after a scope write every slot name is linked, and the link table grows by the slot count |
| DispatchSlots.WritesKeepLinks | server/crud/dispatch.go:123-208 | later asset and link inserts keep a stored scope link |
| DispatchSlots.UploadedDispatchUri | server/crud/dispatch.go:156-162 | each dispatch slot's remote URI is the value computed at registration for its key |
| DispatchSlots.UploadedLatticeUri | server/crud/dispatch.go:194-200 | each lattice slot's remote URI is the value computed at registration for its key |
| DispatchSlots.DispatchAssetsOutcome | server/crud/dispatch.go:123-208 | metadata and graph are untouched; a failure is a 500; on success every slot carries its registered URI |
| DispatchSlots.CreateDispatchAssets | server/crud/dispatch.go:123-208 | writes the dispatch scope, then the lattice scope, stopping at the first failure |
| DispatchSlots.DispatchAssetsTables | server/crud/dispatch.go:123-208 | only assets and links change |
| DispatchSlots.DispatchAssetsKeepsRows | server/crud/dispatch.go:123-208 | no row is removed |
| DispatchSlots.DispatchAssetsSucceeded | server/crud/dispatch.go:123-208 | a success performs every insert of both scopes |
| DispatchSlots.DispatchWrittenLinked | server/crud/dispatch.go:123-208 | every one of the 7 slot names is linked under node -1, old links stay, and exactly 7 links are added, whatever the sizes |
| DispatchSlots.DispatchAssetsLinked | server/crud/dispatch.go:123-208 | after a successful call, the 7 dispatch-scope links exist and are the only links added |
| DispatchSlots.FilledView | server/crud/dispatch.go:263-281 | filling keeps the slot names |
| DispatchSlots.FillScope | server/crud/dispatch.go:263-281 | copies each linked asset's details into the slot of the same name |
| DispatchSlots.ScopeSlotsFromByName | server/crud/dispatch.go:263-281 | a slot holds the linked asset's details when its name is linked, and stays empty otherwise |
| DispatchSlots.ReadScopeAssets | server/crud/dispatch.go:259-262 | reads the dispatch-scope assets by name, or a 500 |
| DispatchSlots.GetDispatch | server/crud/dispatch.go:253-287 | the stored dispatch with its slots filled from its links and an empty graph; 400 "not found" exactly when no row has the id; otherwise a failure is a 500 |
| DispatchSlots.DispatchSlotLinked | server/crud/dispatch.go:263-281 | a slot with no link is zero-valued; a linked slot holds the served details of an asset linked under its name |
| DispatchSlots.ReadSlot | server/crud/dispatch.go:263-281 | each slot is the last linked asset of its name, or empty |
| Graphs.ArgIndexValue | server/crud/graph.go:31-40 | a missing argument index is stored as NULL |
| Graphs.ScanArgIndex | server/crud/graph.go:42-51 | only a string fails to scan; a scanned argument index writes back to the same value |
| Graphs.EdgeValues | server/crud/graph.go:31-40 | one value per edge column |
| Graphs.ScanEdge | server/crud/graph.go:42-51 | a scanned edge is what was written |
| Graphs.StoredEdgeReadsBack | server/crud/graph.go:13-51 | a written edge reads back as itself |
| Graphs.ScannedEdge | server/crud/graph.go:31-51 | the row stores the target as child and the source as parent |
| Graphs.GetEdgeEntities | server/crud/graph.go:57-87 | returns the filtered, sorted, paged edges, or a 500 and nothing |
| Graphs.EdgesQueryText | server/crud/graph.go:57-87 | the edge select is readable and its text is the generated SELECT |
| Graphs.EdgesArgs | server/crud/graph.go:57-87 | the rendered values fit the query's placeholders |
| Graphs.DispatchEdgeRows | server/crud/graph.go:248-261 | the edges query selects exactly the dispatch's rows, ordered by child |
| Graphs.DispatchEdgesStored | server/crud/graph.go:248-261 | each read edge is stored under the dispatch |
| Graphs.DispatchEdgesOrdered | server/crud/graph.go:248-261 | the dispatch's edges come in ascending target order |
| Graphs.DispatchEdgesComplete | server/crud/graph.go:248-261 | every stored edge of the dispatch is read |
| Graphs.DispatchEdgeCount | server/crud/graph.go:248-261 | when the table holds other dispatches' rows followed by this dispatch's, the read returns one edge per row of this dispatch |
| Graphs.GetAllEdges | server/crud/graph.go:248-261 | returns the dispatch's edges sorted by target, or a 500 and nothing |
| Graphs.EdgesOf | server/crud/graph.go:254-259 | the edge of each entity, in order |
| Graphs.LoadedEdges | server/crud/graph.go:248-261 | the loaded edges are exactly the stored ones, sorted by target |
| Graphs.GetOutgoingEdges | server/crud/graph.go:263-272 | returns the edges whose parent is the node, or a 500 |
| Graphs.GetIncomingEdges | server/crud/graph.go:275-284 | returns the edges whose child is the node, or a 500 |
| Graphs.OutgoingInTableOrder | server/crud/graph.go:263-272 | the outgoing query selects exactly the node's outgoing rows, in table order |
| Graphs.IncomingInTableOrder | server/crud/graph.go:275-284 | the incoming query selects exactly the node's incoming rows, in table order |
| Graphs.EdgeRows | server/crud/graph.go:183-208 | one row of values per edge, in order |
| Graphs.CreateEdges | server/crud/graph.go:183-208 | an empty list returns (0, nil) untouched; otherwise edges go in in order; a failure at i returns i and a 500 |
| Graphs.CreatedEdgesStored | server/crud/graph.go:183-208 | the inserted edges are appended and each is stored; no other table changes |
| Graphs.MetaRows | server/crud/graph.go:211-234 | one electron row per node, in order |
| Graphs.CreatedNodesStored | server/crud/graph.go:211-234 | the node rows are appended and each node is stored with its metadata; no other table changes |
| Graphs.CreateNodesMetadata | server/crud/graph.go:215-221 | inserts every node's metadata, stopping at the first failure |
| Graphs.RunPhaseKeeps | server/crud/graph.go:222-228 | the per-node phase keeps each node's other fields and the other tables, and fails only with a 500 |
| Graphs.RunPhaseUpdates | server/crud/graph.go:222-228 | on success every node's slots are updated; on failure the nodes before the stop are |
| Graphs.CreateNodesAssets | server/crud/graph.go:222-228 | creates every node's slot assets in order, stopping at the first failure |
| Graphs.CreateGraph | server/crud/graph.go:211-234 | node rows, then all node assets, then all edges, stopping at the first failure |
| Graphs.GraphOutcomeShape | server/crud/graph.go:211-234 | links are kept, each node keeps everything but its slots, and the dispatch table is untouched; a failure is a 500; on success every slot carries its registered URI |
| Graphs.GraphOutcomeKeepsRows | server/crud/graph.go:211-234 | creating a graph never removes a row |
| Graphs.GraphNodesStored | server/crud/graph.go:211-234 | after success every node is stored with its metadata |
| Graphs.GraphEdgesStored | server/crud/graph.go:211-234 | after success every edge is stored, target as child and source as parent |
| Graphs.GetGraph | server/crud/graph.go:236-246 | the dispatch's edges sorted by target and its electrons, or a 500 and the empty graph |
| Graphs.CreatedGraphReadBack | server/crud/graph.go:211-246 | after a created graph, every link and every node's stored metadata are found again by GetGraph |
| Graphs.WrittenNodesCount | server/crud/graph.go:211-246 | node rows written for a dispatch that had none read back as exactly one electron per node |
| Graphs.WrittenLinksCount | server/crud/graph.go:211-246 | edge rows written for a dispatch that had none read back as exactly one edge per link |
| Graphs.CreatedGraphCounts | server/crud/graph.go:211-246 | a graph created for a dispatch with no electron or edge rows reads back through GetGraph with as many nodes and links as it was written with |
| TransportGraph.NodeIds | server/crud/graph.go:106-112 | the node ids in node order |
| TransportGraph.Below | server/crud/graph.go:95-104 | the indices 0 … n-1 |
| TransportGraph.NewGraphView | server/crud/graph.go:95-104 | every index 0 … N-1 and every edge source gets an adjacency entry, listing its targets in edge-list order |
| TransportGraph.TargetsAreTargets | server/crud/graph.go:95-104 | each listed target comes from an edge of that source |
| TransportGraph.NoSourceNoTargets | server/crud/graph.go:95-104 | a node that is no edge's source has no targets |
| TransportGraph.AddLinkStep | server/crud/graph.go:100-103 | adding one edge extends the adjacency by that edge |
| TransportGraph.Nodes | server/crud/graph.go:106-112 | the node ids in node order |
| TransportGraph.GetNode | server/crud/graph.go:114-116 | the node at an index, whose id is the index-th id |
| TransportGraph.GetAdjIsTargets | server/crud/graph.go:118-120 | a node's adjacency is its targets in edge order |
| TransportGraph.IntoBound | server/crud/graph.go:150-171 | the edges into a node from visited sources never exceed its in-degree, and reach it exactly when all its sources are visited (parallel edges counted) |
| TransportGraph.IntoSplit | server/crud/graph.go:167-171 | visiting a node removes its edge multiplicity into each successor |
| TransportGraph.NoTargetNoInDeg | server/crud/graph.go:150-153 | a node no edge targets has in-degree 0 |
| TransportGraph.CountDegrees | server/crud/graph.go:146-153 | the adjacency and the in-degree of every node and edge endpoint |
| TransportGraph.Pick | server/crud/graph.go:154-160 | picks an element of a non-empty set |
| TransportGraph.ReadyNodes | server/crud/graph.go:154-160 | the zero in-degree nodes, each once |
| TransportGraph.Relax | server/crud/graph.go:167-171 | decrements each successor by its edge multiplicity, queuing exactly those that reach zero |
| TransportGraph.VisitWave | server/crud/graph.go:161-175 | one wave appends its nodes to the result and yields the next wave, keeping the frontier invariant |
| TransportGraph.VisitKeepsFrontier | server/crud/graph.go:161-175 | visiting one node keeps the frontier invariant |
| TransportGraph.FrontierBounded | server/crud/graph.go:161-175 | the sorted and queued nodes never exceed the node count |
| TransportGraph.FrontierExhausted | server/crud/graph.go:161-179 | when no node is ready, the result is duplicate-free, predecessors come first, and every unlisted node waits on an unlisted one |
| TransportGraph.SortTopologically | server/crud/graph.go:122-181 | distinct node ids and edge endpoints, each listed after all sources of its incoming edges, stopping only when every unlisted key waits on another unlisted one; the 400 "Invalid transport graph" exactly when the number listed differs from the node count |
| TransportGraph.PermutationOnSuccess | server/crud/graph.go:146-180 | for a graph with distinct ids and edges between its nodes, success means the result is a permutation of the node ids |
| TransportGraph.StuckLeavesClosed | server/crud/graph.go:176-179 | for such a graph, on failure the unlisted nodes form a closed set: each waits on another unlisted node |
| TransportGraph.ClosedNeverListed | server/crud/graph.go:161-175 | no node of a closed set is ever listed |
| TransportGraph.ClosedRejected | server/crud/graph.go:176-179 | for such a graph, a closed set forces the error |
| TransportGraph.CycleIsClosed | server/crud/graph.go:176-179 | the nodes of a cycle form a closed set |
| TransportGraph.KahnDecidesAcyclicity | server/crud/graph.go:122-181 | for a graph with distinct ids and edges between its nodes, the sort fails exactly when a closed set (a cycle) exists; on success the result is a permutation with predecessors first |
| TransportGraph.DistinctCard | server/crud/graph.go:146-180 | a duplicate-free list has as many elements as its set |
| TransportGraph.WellFormedKeys | server/crud/graph.go:146-153 | in a well-formed graph the degree keys are exactly the node ids |
| TransportGraph.TestGraphSorts | server/crud/graph_crud_test.go:60-90 | the 4-node graph with edges 1→0, 2→0, 3→2 sorts successfully into a permutation of its nodes |
| TransportGraph.NoClosedSetInTestGraph | server/crud/graph_crud_test.go:60-90 | that graph has no cycle |
| TransportGraph.DanglingTargetAccepted | server/crud/graph.go:146-180 | as written, a graph with an edge to a nonexistent node and a self-loop is accepted, and the result is no permutation of its nodes |
| TransportGraph.SortTopologicallyStrict | server/crud/graph.go:122-181 | the corrected sort fails exactly when the graph is ill-formed or has a cycle, and otherwise returns a permutation with predecessors first |
| Importer.ImportOutcome | server/crud/importer.go:10-21 | import keeps the manifest's metadata |
| Importer.ImportManifest | server/crud/importer.go:10-21 | dispatch metadata, then dispatch/lattice assets, then the graph; the first error is returned and later steps are skipped |
| Importer.ImportOutcomeShape | server/crud/importer.go:10-21 | failures are 500s; on success every slot of the manifest carries its registered URI and the graph's links and nodes are otherwise kept |
| Importer.ImportKeepsRows | server/crud/importer.go:10-21 | import never removes a row |
| Importer.ImportSucceeded | server/crud/importer.go:10-21 | a successful import ran all three steps successfully, in order |
| Importer.ManifestRowStored | server/crud/importer.go:12-14 | the manifest's dispatch row is present; a new id is appended and reads back |
| Importer.ImportedDispatchStored | server/crud/importer.go:10-21 | after import the dispatch is stored, and a new id reads back as the manifest's row |
| Importer.ImportedSlotsLinked | server/crud/importer.go:10-21 | after import the 7 dispatch-scope slot names are linked, and earlier links stay |
| Importer.ImportedGraphStored | server/crud/importer.go:10-21 | after import every node's metadata and every edge of the manifest is stored, whether or not its endpoints exist |
| Exporter.ExportManifest | server/crud/exporter.go:10-23 | the graph is loaded, then the dispatch, and the result carries the loaded graph; the 400 "not found" exactly when the graph loads and no row has the id; the store is not modified |
| Exporter.NotFoundIsNotEngine | server/crud/exporter.go:12-20 | the not-found error is not the 500 of a failed read |
| Exporter.ExportedMetadata | server/crud/exporter.go:10-23 | the exported row is the imported manifest's row |
| Exporter.ImportThenExport | server/crud/import_export_test.go:38-50 | importing under an id the store has no row of and exporting gives back the dispatch metadata (id included), as many nodes and as many links as the manifest's graph, every link, and every node's stored metadata |
| Exporter.FreshBeforeGraph | server/crud/importer.go:10-21 | the import's metadata and slot steps write no electron or edge row, so a dispatch with none before has none when its graph is written |

## Left out

- The HTTP layer, JSON encoding of requests and responses, logging, environment configuration and server start-up.
  These are I/O with no crud logic in them.
- Transactions (commit and rollback) are not modelled; each call acts on the store directly.
- The DDL is not modelled. Tables are abstract, named by the column constants of `server/db/tables.go`. The DDL's own
  column names differ from those constants and have no bearing on this package.
- md5, JSON marshalling, uuid generation and the clock are uninterpreted parameters. `ComputeAssetId` is a function of
  its key, so its determinism holds by construction and needs no lemma.
- Go's map iteration order is modelled as an argument (a visiting order of the slot map). The topological sort's
  initial ready list is read from a map in any order, and the proof holds for every one of them.
- Write-backs through Go references (`CreateAssets`, `createDispatchAssets`, `createElectronAssets`, `CreateGraph`, `GetDispatch`,
  the validators) are modelled as returned updated values. Aliasing is not modelled.
- SQL `LIKE` is modelled as a key prefix match. Keys are assumed to contain no `%` or `_`.
- A query fails only through the store's failure parameter. SQLite's own reasons for failing are not modelled.
- `CanUpdateElectronStatus` is not modelled, because it only panics. The scheduler and the status-transition logic are
  stubs in the source and are not modelled either.
- ElectronSlots.GetAllElectrons: the `load_assets` flag is ignored, as it is in the source. Electron i is given
  NodeId i, which is correct only when the stored node ids are 0 … N-1; the contract states this positional
  assignment rather than recovering the stored ids.
- Exporter.ImportThenExport: the graph round trip is stated as equal node and edge counts plus containment (every link
  and every node's stored metadata is found in the export), for an id with no dispatch, electron or edge row
  beforehand, as in a fresh store. The order of the exported links is the read's (by target), not the manifest's. The
  exported slots are not related to the imported ones, because the link read is capped at 100 rows and the last link
  of a name wins.
- Importer.ImportedGraphStored: "8 links per node" is stated per slot name (ElectronSlots.SlotsLinked and
  RegisteredLinkStored). It is not stated as one count over the whole import.
- Exporter.ExportManifest is a method that reads the store and declares no `modifies`. The verifier therefore
  guarantees the store is unchanged, but this is not written as a separate clause.

## Findings

| source | as written | input that shows it | evidently intended | confidence | as-written member | corrected member |
|---|---|---|---|---|---|---|
| server/crud/graph.go:146-180 | `sortTopologically` counts every edge endpoint as a node. An edge to a node that does not exist can therefore make up for a node lost in a cycle, and the visited count still equals N. | nodes 0 and 1; edges 0→5 and 1→1: the sort visits 0 and 5, counts 2 = N and succeeds with [0, 5], leaving out node 1 on its self-loop | reject a graph whose edges name a missing node, so that success always means a permutation of the nodes | not executed | TransportGraph.DanglingTargetAccepted | TransportGraph.SortTopologicallyStrict |
