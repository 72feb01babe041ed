/** Electrons (the steps of a workflow) as the API exchanges them, and their validators. */
module ElectronModels {
  import opened Wrappers
  import opened Tables
  import opened ApiErrors
  import opened Environment
  import opened AssetModels

  datatype ElectronMeta = ElectronMeta(
    taskGroupId: int,
    name: string,
    subdispatchId: string,
    executor: string,
    executorData: string,          // the serialized form of executorDataJson, as stored
    executorDataJson: Json,
    status: string,
    startTime: Option<Time>,
    endTime: Option<Time>,
    qelectronDataExists: bool)

  const NO_ELECTRON_META := ElectronMeta(0, "", "", "", "", NO_JSON, "", None, None, false)

  /** The eight asset slots of an electron. */
  datatype ElectronAssets = ElectronAssets(
    fn: AssetDetails, fnString: AssetDetails, value: AssetDetails, output: AssetDetails,
    error: AssetDetails, stdout: AssetDetails, stderr: AssetDetails, hooks: AssetDetails)

  const NO_ELECTRON_ASSETS := ElectronAssets(NO_DETAILS, NO_DETAILS, NO_DETAILS, NO_DETAILS, NO_DETAILS,
                                             NO_DETAILS, NO_DETAILS, NO_DETAILS)

  datatype ElectronSchema = ElectronSchema(nodeId: int, metadata: ElectronMeta, assets: ElectronAssets)

  /** A status report for one electron; absent times are not updated. */
  datatype ElectronStatusUpdate = ElectronStatusUpdate(status: string, startTime: Option<Time>, endTime: Option<Time>)

  const ELECTRON_SLOTS: seq<string> := ["function", "function_string", "value", "output", "error", "stdout",
                                        "stderr", "hooks"]

  lemma ElectronSlotsDistinct()
    ensures Distinct(ELECTRON_SLOTS) && |ELECTRON_SLOTS| == 8
  {
  }

  /** AttrsByName: every slot under its JSON name. */
  function ElectronAttrsByName(a: ElectronAssets): (m: map<string, AssetDetails>)
    ensures m.Keys == set n | n in ELECTRON_SLOTS
  {
    map["function" := a.fn, "function_string" := a.fnString, "value" := a.value, "output" := a.output,
        "error" := a.error, "stdout" := a.stdout, "stderr" := a.stderr, "hooks" := a.hooks]
  }

  /** A write through the reference AttrsByName hands out for `name`. */
  function ElectronWithAttr(a: ElectronAssets, name: string, d: AssetDetails): ElectronAssets
    requires name in ELECTRON_SLOTS
  {
    match name
    case "function" => a.(fn := d)
    case "function_string" => a.(fnString := d)
    case "value" => a.(value := d)
    case "output" => a.(output := d)
    case "error" => a.(error := d)
    case "stdout" => a.(stdout := d)
    case "stderr" => a.(stderr := d)
    case _ => a.(hooks := d)
  }

  /** Each name refers to its own field: writing one slot changes that slot and no other. */
  lemma ElectronSlotsIndependent(a: ElectronAssets, name: string, d: AssetDetails)
    requires name in ELECTRON_SLOTS
    ensures ElectronAttrsByName(ElectronWithAttr(a, name, d)) == ElectronAttrsByName(a)[name := d]
  {
  }

  /** Writing a slot's own details back leaves the assets as they were. */
  lemma ElectronWithSameAttr(a: ElectronAssets, name: string)
    requires name in ELECTRON_SLOTS
    ensures ElectronWithAttr(a, name, ElectronAttrsByName(a)[name]) == a
  {
    ElectronSlotsIndependent(a, name, ElectronAttrsByName(a)[name]);
    ElectronAttrsByNameInjective(ElectronWithAttr(a, name, ElectronAttrsByName(a)[name]), a);
  }

  /** Two electrons' assets agree exactly when every slot agrees. */
  lemma ElectronAttrsByNameInjective(a: ElectronAssets, b: ElectronAssets)
    requires ElectronAttrsByName(a) == ElectronAttrsByName(b)
    ensures a == b
  {
    assert ElectronAttrsByName(a)["function"] == ElectronAttrsByName(b)["function"];
    assert ElectronAttrsByName(a)["function_string"] == ElectronAttrsByName(b)["function_string"];
    assert ElectronAttrsByName(a)["value"] == ElectronAttrsByName(b)["value"];
    assert ElectronAttrsByName(a)["output"] == ElectronAttrsByName(b)["output"];
    assert ElectronAttrsByName(a)["error"] == ElectronAttrsByName(b)["error"];
    assert ElectronAttrsByName(a)["stdout"] == ElectronAttrsByName(b)["stdout"];
    assert ElectronAttrsByName(a)["stderr"] == ElectronAttrsByName(b)["stderr"];
    assert ElectronAttrsByName(a)["hooks"] == ElectronAttrsByName(b)["hooks"];
  }

  /** Every slot rewritten by `f`, which sees the slot's name and its current details. */
  function MapSlots(a: ElectronAssets, f: (string, AssetDetails) -> AssetDetails): ElectronAssets
  {
    ElectronAssets(f("function", a.fn), f("function_string", a.fnString), f("value", a.value), f("output", a.output),
                   f("error", a.error), f("stdout", a.stdout), f("stderr", a.stderr), f("hooks", a.hooks))
  }

  lemma MapSlotsByName(a: ElectronAssets, f: (string, AssetDetails) -> AssetDetails, name: string)
    requires name in ELECTRON_SLOTS
    ensures ElectronAttrsByName(MapSlots(a, f))[name] == f(name, ElectronAttrsByName(a)[name])
  {
  }

  /**
   * An order in which a loop over AttrsByName visits the slots: Go leaves
   * the iteration order of a map unspecified, so any arrangement of the
   * eight names may occur.
   */
  predicate IsSlotOrder(order: seq<string>)
  {
    |order| == |ELECTRON_SLOTS| && Distinct(order)
    && (forall i :: 0 <= i < |order| ==> order[i] in ELECTRON_SLOTS)
    && forall n :: n in ELECTRON_SLOTS ==> n in order
  }

  /**
   * The slot-by-slot loop over AttrsByName, in any visiting order, writing
   * `f(name, details)` into each slot, ends with every slot rewritten.
   */
  lemma SlotLoopStep(a0: ElectronAssets, a: ElectronAssets, f: (string, AssetDetails) -> AssetDetails,
                     order: seq<string>, k: nat)
    requires IsSlotOrder(order) && k < |order|
    requires forall n :: n in ELECTRON_SLOTS ==>
               ElectronAttrsByName(a)[n] == (if n in order[..k] then f(n, ElectronAttrsByName(a0)[n]) else ElectronAttrsByName(a0)[n])
    ensures ElectronAttrsByName(a)[order[k]] == ElectronAttrsByName(a0)[order[k]]
    ensures var next := ElectronWithAttr(a, order[k], f(order[k], ElectronAttrsByName(a)[order[k]]));
            forall n :: n in ELECTRON_SLOTS ==>
              ElectronAttrsByName(next)[n]
              == (if n in order[..k + 1] then f(n, ElectronAttrsByName(a0)[n]) else ElectronAttrsByName(a0)[n])
  {
    var name := order[k];
    assert name in ELECTRON_SLOTS;
    assert order[..k + 1] == order[..k] + [name];
    assert name !in order[..k] by {
      assert forall j :: 0 <= j < k ==> order[..k][j] != order[k];
    }
    ElectronSlotsIndependent(a, name, f(name, ElectronAttrsByName(a)[name]));
  }

  /** Once every slot has been rewritten, the loop's result is MapSlots. */
  lemma SlotLoopDone(a0: ElectronAssets, a: ElectronAssets, f: (string, AssetDetails) -> AssetDetails)
    requires forall n :: n in ELECTRON_SLOTS ==> ElectronAttrsByName(a)[n] == f(n, ElectronAttrsByName(a0)[n])
    ensures a == MapSlots(a0, f)
  {
    forall n | n in ELECTRON_SLOTS ensures ElectronAttrsByName(a)[n] == ElectronAttrsByName(MapSlots(a0, f))[n] {
      MapSlotsByName(a0, f, n);
    }
    ElectronAttrsByNameInjective(a, MapSlots(a0, f));
  }

  /** Metadata validation accepts everything: the status is not checked. */
  function ValidateElectronMeta(m: ElectronMeta): (err: Option<ApiError>)
    ensures err.None?
  {
    None
  }

  function ValidateElectronAssets(a: ElectronAssets): (err: Option<ApiError>)
    ensures err.None?
  {
    None
  }

  /** Request validation: serializes the executor data into its stored form, then validates metadata and assets. */
  function ValidateElectronRequest(codec: Codec, e: ElectronSchema): (r: Checked<ElectronSchema>)
    ensures codec.marshal(e.metadata.executorDataJson).None? ==>
              r.value == e && r.err == Some(NewValidationError(CodecError))
    ensures codec.marshal(e.metadata.executorDataJson).Some? ==>
              r.err.None?
              && r.value == e.(metadata := e.metadata.(executorData := codec.marshal(e.metadata.executorDataJson).value))
  {
    match codec.marshal(e.metadata.executorDataJson)
    case None => Checked(e, Some(NewValidationError(CodecError)))
    case Some(serialized) =>
      var e1 := e.(metadata := e.metadata.(executorData := serialized));
      var err := ValidateElectronMeta(e1.metadata);
      if err.Some? then Checked(e1, err)
      else
        var err2 := ValidateElectronAssets(e1.assets);
        if err2.Some? then Checked(e1, err2) else Checked(e1, None)
  }

  /** Response validation: decodes the stored executor data and clears the deprecated flag. */
  function ValidateElectronResponse(codec: Codec, e: ElectronSchema): (r: Checked<ElectronSchema>)
    ensures codec.unmarshal(e.metadata.executorData).None? ==>
              r.value == e && r.err == Some(NewGenericServerError(CodecError))
    ensures codec.unmarshal(e.metadata.executorData).Some? ==>
              r.err.None? && !r.value.metadata.qelectronDataExists
              && r.value.metadata.executorDataJson == codec.unmarshal(e.metadata.executorData).value
              && r.value.metadata.executorData == e.metadata.executorData
              && r.value == e.(metadata := e.metadata.(executorDataJson := codec.unmarshal(e.metadata.executorData).value,
                                                       qelectronDataExists := false))
  {
    match codec.unmarshal(e.metadata.executorData)
    case None => Checked(e, Some(NewGenericServerError(CodecError)))
    case Some(j) => Checked(e.(metadata := e.metadata.(executorDataJson := j, qelectronDataExists := false)), None)
  }
}
