/** The transport graph of a workflow: electrons as nodes and their dependencies as links. */
module GraphModels {
  import opened Wrappers
  import opened ApiErrors
  import opened Environment
  import opened ElectronModels

  datatype EdgeMetadata = EdgeMetadata(name: string, paramType: string, argIndex: Option<int>)

  /** A dependency: the output of node `source` feeds node `target`. */
  datatype Edge = Edge(source: int, target: int, metadata: EdgeMetadata)

  datatype Graph = Graph(nodes: seq<ElectronSchema>, links: seq<Edge>)

  /** The index of the first node whose request validation fails, or the node count. */
  function FirstRequestFailure(codec: Codec, nodes: seq<ElectronSchema>): (k: nat)
    ensures k <= |nodes|
    ensures forall i :: 0 <= i < k ==> ValidateElectronRequest(codec, nodes[i]).err.None?
    ensures k < |nodes| ==> ValidateElectronRequest(codec, nodes[k]).err.Some?
  {
    if |nodes| == 0 then 0
    else if ValidateElectronRequest(codec, nodes[0]).err.Some? then 0
    else 1 + FirstRequestFailure(codec, nodes[1..])
  }

  function FirstResponseFailure(codec: Codec, nodes: seq<ElectronSchema>): (k: nat)
    ensures k <= |nodes|
    ensures forall i :: 0 <= i < k ==> ValidateElectronResponse(codec, nodes[i]).err.None?
    ensures k < |nodes| ==> ValidateElectronResponse(codec, nodes[k]).err.Some?
  {
    if |nodes| == 0 then 0
    else if ValidateElectronResponse(codec, nodes[0]).err.Some? then 0
    else 1 + FirstResponseFailure(codec, nodes[1..])
  }

  /**
   * What request validation makes of a graph: the nodes before the first
   * failing one validated, that node and the rest as they were, the links
   * untouched; the error is that node's, and there is none exactly when
   * every node validates.
   */
  function GraphRequest(codec: Codec, g: Graph): (c: Checked<Graph>)
    ensures c.value.links == g.links && |c.value.nodes| == |g.nodes|
    ensures c.err.None? <==> forall i :: 0 <= i < |g.nodes| ==> ValidateElectronRequest(codec, g.nodes[i]).err.None?
    ensures var k := FirstRequestFailure(codec, g.nodes);
            (k < |g.nodes| ==> c.err == ValidateElectronRequest(codec, g.nodes[k]).err)
            && forall i :: 0 <= i < |g.nodes| ==>
                 c.value.nodes[i] == if i < k then ValidateElectronRequest(codec, g.nodes[i]).value else g.nodes[i]
  {
    var k := FirstRequestFailure(codec, g.nodes);
    var nodes := seq(|g.nodes|, i requires 0 <= i < |g.nodes| =>
                       if i < k then ValidateElectronRequest(codec, g.nodes[i]).value else g.nodes[i]);
    Checked(Graph(nodes, g.links), if k < |g.nodes| then ValidateElectronRequest(codec, g.nodes[k]).err else None)
  }

  /** The same for response validation. */
  function GraphResponse(codec: Codec, g: Graph): (c: Checked<Graph>)
    ensures c.value.links == g.links && |c.value.nodes| == |g.nodes|
    ensures c.err.None? <==> forall i :: 0 <= i < |g.nodes| ==> ValidateElectronResponse(codec, g.nodes[i]).err.None?
    ensures var k := FirstResponseFailure(codec, g.nodes);
            (k < |g.nodes| ==> c.err == ValidateElectronResponse(codec, g.nodes[k]).err)
            && forall i :: 0 <= i < |g.nodes| ==>
                 c.value.nodes[i] == if i < k then ValidateElectronResponse(codec, g.nodes[i]).value else g.nodes[i]
  {
    var k := FirstResponseFailure(codec, g.nodes);
    var nodes := seq(|g.nodes|, i requires 0 <= i < |g.nodes| =>
                       if i < k then ValidateElectronResponse(codec, g.nodes[i]).value else g.nodes[i]);
    Checked(Graph(nodes, g.links), if k < |g.nodes| then ValidateElectronResponse(codec, g.nodes[k]).err else None)
  }

  /**
   * Validates the nodes in index order and stops at the first error. Nodes
   * before it are updated, the rest are left as they were; links are never
   * examined.
   */
  method ValidateGraphRequest(codec: Codec, g: Graph) returns (r: Graph, err: Option<ApiError>)
    ensures r == GraphRequest(codec, g).value && err == GraphRequest(codec, g).err
    ensures r.links == g.links && |r.nodes| == |g.nodes|
    ensures var k := FirstRequestFailure(codec, g.nodes);
            (err.None? <==> k == |g.nodes|)
            && (k < |g.nodes| ==> err == ValidateElectronRequest(codec, g.nodes[k]).err)
            && forall i :: 0 <= i < |g.nodes| ==>
                 r.nodes[i] == if i < k then ValidateElectronRequest(codec, g.nodes[i]).value else g.nodes[i]
  {
    ghost var k := FirstRequestFailure(codec, g.nodes);
    r := g;
    var i := 0;
    while i < |r.nodes|
      invariant 0 <= i <= k && r.links == g.links && |r.nodes| == |g.nodes|
      invariant forall j :: 0 <= j < |g.nodes| ==>
                  r.nodes[j] == if j < i then ValidateElectronRequest(codec, g.nodes[j]).value else g.nodes[j]
    {
      var checked := ValidateElectronRequest(codec, r.nodes[i]);
      if checked.err.Some? {
        assert i == k;
        return r, checked.err;
      }
      r := r.(nodes := r.nodes[i := checked.value]);
      i := i + 1;
    }
    err := None;
  }

  /** Response validation runs over the nodes with the same first-error discipline. */
  method ValidateGraphResponse(codec: Codec, g: Graph) returns (r: Graph, err: Option<ApiError>)
    ensures r == GraphResponse(codec, g).value && err == GraphResponse(codec, g).err
    ensures r.links == g.links && |r.nodes| == |g.nodes|
    ensures var k := FirstResponseFailure(codec, g.nodes);
            (err.None? <==> k == |g.nodes|)
            && (k < |g.nodes| ==> err == ValidateElectronResponse(codec, g.nodes[k]).err)
            && forall i :: 0 <= i < |g.nodes| ==>
                 r.nodes[i] == if i < k then ValidateElectronResponse(codec, g.nodes[i]).value else g.nodes[i]
  {
    ghost var k := FirstResponseFailure(codec, g.nodes);
    r := g;
    var i := 0;
    while i < |r.nodes|
      invariant 0 <= i <= k && r.links == g.links && |r.nodes| == |g.nodes|
      invariant forall j :: 0 <= j < |g.nodes| ==>
                  r.nodes[j] == if j < i then ValidateElectronResponse(codec, g.nodes[j]).value else g.nodes[j]
    {
      var checked := ValidateElectronResponse(codec, r.nodes[i]);
      if checked.err.Some? {
        assert i == k;
        return r, checked.err;
      }
      r := r.(nodes := r.nodes[i := checked.value]);
      i := i + 1;
    }
    err := None;
  }
}
