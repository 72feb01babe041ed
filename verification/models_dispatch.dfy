/** Dispatches (workflow runs) and lattices (workflow definitions) as the API exchanges them, and their validators. */
module DispatchModels {
  import opened Wrappers
  import opened Tables
  import opened ApiErrors
  import opened Environment
  import opened Enums
  import opened AssetModels
  import opened ElectronModels
  import opened GraphModels

  datatype LatticeMeta = LatticeMeta(
    name: string,
    executor: string,
    executorData: string,                // stored form of executorDataJson
    executorDataJson: Json,
    workflowExecutor: string,
    workflowExecutorData: string,        // stored form of workflowExecutorDataJson
    workflowExecutorDataJson: Json,
    pythonVersion: string,
    covalentVersion: string)

  const NO_LATTICE_META := LatticeMeta("", "", "", NO_JSON, "", "", NO_JSON, "", "")

  /** The five static asset slots of a lattice. */
  datatype LatticeAssets = LatticeAssets(workflowFunction: AssetDetails, workflowFunctionString: AssetDetails,
                                         doc: AssetDetails, inputs: AssetDetails, hooks: AssetDetails)

  const NO_LATTICE_ASSETS := LatticeAssets(NO_DETAILS, NO_DETAILS, NO_DETAILS, NO_DETAILS, NO_DETAILS)

  datatype LatticeSchema = LatticeSchema(metadata: LatticeMeta, assets: LatticeAssets, transportGraph: Graph)

  datatype DispatchMeta = DispatchMeta(
    dispatchId: string,
    rootDispatchId: string,
    status: string,
    startTime: Option<Time>,
    endTime: Option<Time>,
    createdAt: Time,
    updatedAt: Time)

  const NO_DISPATCH_META := DispatchMeta("", "", "", None, None, ZERO_TIME, ZERO_TIME)

  /** The two runtime asset slots of a dispatch. */
  datatype DispatchAssets = DispatchAssets(result: AssetDetails, error: AssetDetails)

  const NO_DISPATCH_ASSETS := DispatchAssets(NO_DETAILS, NO_DETAILS)

  /** A dispatch manifest: metadata, runtime assets and the lattice with its transport graph. */
  datatype DispatchSchema = DispatchSchema(metadata: DispatchMeta, assets: DispatchAssets, lattice: LatticeSchema)

  const NO_DISPATCH := DispatchSchema(NO_DISPATCH_META, NO_DISPATCH_ASSETS,
                                      LatticeSchema(NO_LATTICE_META, NO_LATTICE_ASSETS, Graph([], [])))

  datatype GetBulkDispatchesResponse = GetBulkDispatchesResponse(records: seq<DispatchMeta>)

  // ---------------------------------------------------------------------
  // Named slots

  const DISPATCH_SLOTS: seq<string> := ["result", "error"]
  const LATTICE_SLOTS: seq<string> := ["workflow_function", "workflow_function_string", "doc", "inputs", "hooks"]

  /** The slot names are distinct, and no dispatch slot shares its name with a lattice slot. */
  lemma SlotNamesDistinct()
    ensures Distinct(DISPATCH_SLOTS) && Distinct(LATTICE_SLOTS) && Distinct(DISPATCH_SLOTS + LATTICE_SLOTS)
  {
  }

  function DispatchAttrsByName(a: DispatchAssets): (m: map<string, AssetDetails>)
    ensures m.Keys == set n | n in DISPATCH_SLOTS
  {
    map["result" := a.result, "error" := a.error]
  }

  function DispatchWithAttr(a: DispatchAssets, name: string, d: AssetDetails): DispatchAssets
    requires name in DISPATCH_SLOTS
  {
    if name == "result" then a.(result := d) else a.(error := d)
  }

  /** Writing through one dispatch slot's reference changes that slot only. */
  lemma DispatchSlotsIndependent(a: DispatchAssets, name: string, d: AssetDetails)
    requires name in DISPATCH_SLOTS
    ensures DispatchAttrsByName(DispatchWithAttr(a, name, d)) == DispatchAttrsByName(a)[name := d]
  {
  }

  function LatticeAttrsByName(a: LatticeAssets): (m: map<string, AssetDetails>)
    ensures m.Keys == set n | n in LATTICE_SLOTS
  {
    map["workflow_function" := a.workflowFunction, "workflow_function_string" := a.workflowFunctionString,
        "doc" := a.doc, "inputs" := a.inputs, "hooks" := a.hooks]
  }

  function LatticeWithAttr(a: LatticeAssets, name: string, d: AssetDetails): LatticeAssets
    requires name in LATTICE_SLOTS
  {
    match name
    case "workflow_function" => a.(workflowFunction := d)
    case "workflow_function_string" => a.(workflowFunctionString := d)
    case "doc" => a.(doc := d)
    case "inputs" => a.(inputs := d)
    case _ => a.(hooks := d)
  }

  /** Writing through one lattice slot's reference changes that slot only. */
  lemma LatticeSlotsIndependent(a: LatticeAssets, name: string, d: AssetDetails)
    requires name in LATTICE_SLOTS
    ensures LatticeAttrsByName(LatticeWithAttr(a, name, d)) == LatticeAttrsByName(a)[name := d]
  {
  }

  // ---------------------------------------------------------------------
  // Validation

  /** Serializes both executor data objects into their stored form; a codec failure is a 422. */
  function ValidateLatticeMetaRequest(codec: Codec, l: LatticeMeta): (r: Checked<LatticeMeta>)
    ensures r.err.None? <==> codec.marshal(l.executorDataJson).Some? && codec.marshal(l.workflowExecutorDataJson).Some?
    ensures r.err.Some? ==> r.err.value == NewValidationError(CodecError)
    ensures r.err.None? ==> r.value == l.(executorData := codec.marshal(l.executorDataJson).value,
                                          workflowExecutorData := codec.marshal(l.workflowExecutorDataJson).value)
  {
    match codec.marshal(l.executorDataJson)
    case None => Checked(l, Some(NewValidationError(CodecError)))
    case Some(s1) =>
      var l1 := l.(executorData := s1);
      match codec.marshal(l.workflowExecutorDataJson)
      case None => Checked(l1, Some(NewValidationError(CodecError)))
      case Some(s2) => Checked(l1.(workflowExecutorData := s2), None)
  }

  /** Decodes both stored executor data strings; a codec failure is a 500. */
  function ValidateLatticeMetaResponse(codec: Codec, l: LatticeMeta): (r: Checked<LatticeMeta>)
    ensures r.err.None? <==> codec.unmarshal(l.executorData).Some? && codec.unmarshal(l.workflowExecutorData).Some?
    ensures r.err.Some? ==> r.err.value == NewGenericServerError(CodecError)
    ensures r.err.None? ==> r.value == l.(executorDataJson := codec.unmarshal(l.executorData).value,
                                          workflowExecutorDataJson := codec.unmarshal(l.workflowExecutorData).value)
  {
    match codec.unmarshal(l.executorData)
    case None => Checked(l, Some(NewGenericServerError(CodecError)))
    case Some(j1) =>
      var l1 := l.(executorDataJson := j1);
      match codec.unmarshal(l.workflowExecutorData)
      case None => Checked(l1, Some(NewGenericServerError(CodecError)))
      case Some(j2) => Checked(l1.(workflowExecutorDataJson := j2), None)
  }

  function ValidateLatticeAssets(a: LatticeAssets): (err: Option<ApiError>)
    ensures err.None?
  {
    None
  }

  /**
   * What request validation makes of a lattice: the metadata first, then
   * (the asset check never failing) the transport graph, the first error
   * ending it. It succeeds exactly when both executor data objects marshal
   * and every node validates.
   */
  function LatticeRequest(codec: Codec, l: LatticeSchema): (c: Checked<LatticeSchema>)
    ensures var m := ValidateLatticeMetaRequest(codec, l.metadata);
            c.value.metadata == m.value && c.value.assets == l.assets
            && (c.err.None? <==> m.err.None? && forall i :: 0 <= i < |l.transportGraph.nodes| ==>
                                                ValidateElectronRequest(codec, l.transportGraph.nodes[i]).err.None?)
            && (m.err.Some? ==> c.err == m.err && c.value.transportGraph == l.transportGraph)
            && (m.err.None? ==> c.err == GraphRequest(codec, l.transportGraph).err
                                && c.value.transportGraph == GraphRequest(codec, l.transportGraph).value)
  {
    var m := ValidateLatticeMetaRequest(codec, l.metadata);
    if m.err.Some? then Checked(l.(metadata := m.value), m.err)
    else
      var g := GraphRequest(codec, l.transportGraph);
      Checked(l.(metadata := m.value, transportGraph := g.value), g.err)
  }

  /**
   * What response validation makes of a lattice: the metadata first, then
   * the transport graph. It succeeds exactly when both stored executor data
   * strings decode and every node validates.
   */
  function LatticeResponse(codec: Codec, l: LatticeSchema): (c: Checked<LatticeSchema>)
    ensures var m := ValidateLatticeMetaResponse(codec, l.metadata);
            c.value.metadata == m.value && c.value.assets == l.assets
            && (c.err.None? <==> m.err.None? && forall i :: 0 <= i < |l.transportGraph.nodes| ==>
                                                ValidateElectronResponse(codec, l.transportGraph.nodes[i]).err.None?)
            && (m.err.Some? ==> c.err == m.err && c.value.transportGraph == l.transportGraph)
            && (m.err.None? ==> c.err == GraphResponse(codec, l.transportGraph).err
                                && c.value.transportGraph == GraphResponse(codec, l.transportGraph).value)
  {
    var m := ValidateLatticeMetaResponse(codec, l.metadata);
    if m.err.Some? then Checked(l.(metadata := m.value), m.err)
    else
      var g := GraphResponse(codec, l.transportGraph);
      Checked(l.(metadata := m.value, transportGraph := g.value), g.err)
  }

  /**
   * Validates metadata, assets and the transport graph in that order,
   * stopping at the first error: a node's failure is that node's error, the
   * nodes before it are validated and the rest and the links kept.
   */
  method ValidateLatticeRequest(codec: Codec, l: LatticeSchema) returns (r: LatticeSchema, err: Option<ApiError>)
    ensures r == LatticeRequest(codec, l).value && err == LatticeRequest(codec, l).err
    ensures ValidateLatticeMetaRequest(codec, l.metadata).err.Some? ==>
              err == ValidateLatticeMetaRequest(codec, l.metadata).err && r.transportGraph == l.transportGraph
    ensures ValidateLatticeMetaRequest(codec, l.metadata).err.None? ==>
              var nodes := l.transportGraph.nodes;
              var k := FirstRequestFailure(codec, nodes);
              r.metadata == ValidateLatticeMetaRequest(codec, l.metadata).value
              && (err.None? <==> k == |nodes|)
              && (k < |nodes| ==> err == ValidateElectronRequest(codec, nodes[k]).err)
              && r.transportGraph.links == l.transportGraph.links && |r.transportGraph.nodes| == |nodes|
              && forall i :: 0 <= i < |nodes| ==>
                   r.transportGraph.nodes[i] == if i < k then ValidateElectronRequest(codec, nodes[i]).value else nodes[i]
    ensures r.assets == l.assets
  {
    var m := ValidateLatticeMetaRequest(codec, l.metadata);
    r := l.(metadata := m.value);
    if m.err.Some? {
      return r, m.err;
    }
    err := ValidateLatticeAssets(r.assets);
    if err.Some? {
      return;
    }
    var g, gerr := ValidateGraphRequest(codec, r.transportGraph);
    r := r.(transportGraph := g);
    err := gerr;
  }

  /** Validates the metadata and then the transport graph, stopping at the first error. */
  method ValidateLatticeResponse(codec: Codec, l: LatticeSchema) returns (r: LatticeSchema, err: Option<ApiError>)
    ensures r == LatticeResponse(codec, l).value && err == LatticeResponse(codec, l).err
    ensures ValidateLatticeMetaResponse(codec, l.metadata).err.Some? ==>
              err == ValidateLatticeMetaResponse(codec, l.metadata).err && r.transportGraph == l.transportGraph
    ensures ValidateLatticeMetaResponse(codec, l.metadata).err.None? ==>
              var nodes := l.transportGraph.nodes;
              var k := FirstResponseFailure(codec, nodes);
              r.metadata == ValidateLatticeMetaResponse(codec, l.metadata).value
              && (err.None? <==> k == |nodes|)
              && (k < |nodes| ==> err == ValidateElectronResponse(codec, nodes[k]).err)
              && r.transportGraph.links == l.transportGraph.links && |r.transportGraph.nodes| == |nodes|
              && forall i :: 0 <= i < |nodes| ==>
                   r.transportGraph.nodes[i] == if i < k then ValidateElectronResponse(codec, nodes[i]).value else nodes[i]
    ensures r.assets == l.assets
  {
    var m := ValidateLatticeMetaResponse(codec, l.metadata);
    r := l.(metadata := m.value);
    if m.err.Some? {
      return r, m.err;
    }
    var g, gerr := ValidateGraphResponse(codec, r.transportGraph);
    r := r.(transportGraph := g);
    err := gerr;
  }

  /**
   * Gives a dispatch without an id the fresh id `newId`, stamps both times
   * with `now`, and only then checks the status.
   */
  function ValidateDispatchMetaRequest(d: DispatchMeta, newId: string, now: Time): (r: Checked<DispatchMeta>)
    requires newId != ""
    ensures r.value.dispatchId != ""
    ensures d.dispatchId != "" ==> r.value.dispatchId == d.dispatchId
    ensures r.value.createdAt == now && r.value.updatedAt == r.value.createdAt
    ensures r.value.status == d.status && r.value.rootDispatchId == d.rootDispatchId
    ensures r.err.None? <==> ValidateStatus(d.status)
    ensures r.err.Some? ==> r.err.value.statusCode == 422
                            && r.err.value.err == NewSingleValidationError("body", "status", ERROR_DETAIL_INVALID)
  {
    var withId := if |d.dispatchId| == 0 then d.(dispatchId := newId) else d;
    var stamped := withId.(createdAt := now, updatedAt := now);
    if !ValidateStatus(stamped.status) then
      Checked(stamped, Some(NewValidationError(NewSingleValidationError("body", "status", ERROR_DETAIL_INVALID))))
    else Checked(stamped, None)
  }

  /**
   * Validates the dispatch metadata first; the lattice is validated only
   * when that succeeds, and its error, if any, is the dispatch's. It
   * succeeds exactly when the status is valid and the lattice validates.
   */
  method ValidateDispatchRequest(codec: Codec, d: DispatchSchema, newId: string, now: Time)
    returns (r: DispatchSchema, err: Option<ApiError>)
    requires newId != ""
    ensures r.metadata == ValidateDispatchMetaRequest(d.metadata, newId, now).value && r.assets == d.assets
    ensures ValidateDispatchMetaRequest(d.metadata, newId, now).err.Some? ==>
              err == ValidateDispatchMetaRequest(d.metadata, newId, now).err && r.lattice == d.lattice
    ensures ValidateDispatchMetaRequest(d.metadata, newId, now).err.None? ==>
              r.lattice == LatticeRequest(codec, d.lattice).value && err == LatticeRequest(codec, d.lattice).err
    ensures err.None? <==> ValidateStatus(d.metadata.status) && LatticeRequest(codec, d.lattice).err.None?
  {
    var m := ValidateDispatchMetaRequest(d.metadata, newId, now);
    r := d.(metadata := m.value);
    if m.err.Some? {
      return r, m.err;
    }
    var l, lerr := ValidateLatticeRequest(codec, r.lattice);
    r := r.(lattice := l);
    err := lerr;
  }

  /**
   * Response validation of a dispatch is that of its lattice: the metadata
   * and slots are kept, and it succeeds exactly when both stored executor
   * data strings decode and every node validates.
   */
  method ValidateDispatchResponse(codec: Codec, d: DispatchSchema) returns (r: DispatchSchema, err: Option<ApiError>)
    ensures r.metadata == d.metadata && r.assets == d.assets
    ensures r.lattice == LatticeResponse(codec, d.lattice).value && err == LatticeResponse(codec, d.lattice).err
    ensures ValidateLatticeMetaResponse(codec, d.lattice.metadata).err.Some? ==>
              err == ValidateLatticeMetaResponse(codec, d.lattice.metadata).err
    ensures err.None? <==> ValidateLatticeMetaResponse(codec, d.lattice.metadata).err.None?
                           && forall i :: 0 <= i < |d.lattice.transportGraph.nodes| ==>
                                ValidateElectronResponse(codec, d.lattice.transportGraph.nodes[i]).err.None?
  {
    var l, lerr := ValidateLatticeResponse(codec, d.lattice);
    r := d.(lattice := l);
    err := lerr;
  }
}
