/**
 * The transport graph as the dispatcher walks it: a forward adjacency view
 * and Kahn's topological sort, run in waves of ready nodes.
 *
 * The sort keeps an in-degree per key and decrements it once per processed
 * edge. The proof tracks which edges have been processed: all edges out of
 * nodes already in the result, plus a prefix of the successors of the node
 * being visited.
 */
module TransportGraph {
  import opened Wrappers
  import opened Tables
  import opened ApiErrors
  import opened ElectronModels
  import opened GraphModels

  /** A graph together with the targets of each source (GraphView). */
  datatype GraphView = GraphView(g: Graph, adj: map<int, seq<int>>)

  /** The node ids in node-list order. */
  function NodeIds(nodes: seq<ElectronSchema>): (ids: seq<int>)
    ensures |ids| == |nodes| && forall i :: 0 <= i < |nodes| ==> ids[i] == nodes[i].nodeId
  {
    seq(|nodes|, i requires 0 <= i < |nodes| => nodes[i].nodeId)
  }

  /** The targets of the edges leaving `s`, in edge-list order; parallel edges repeat. */
  function Targets(links: seq<Edge>, s: int): seq<int>
  {
    if |links| == 0 then []
    else Targets(links[..|links| - 1], s) + (if links[|links| - 1].source == s then [links[|links| - 1].target] else [])
  }

  function SourceSet(links: seq<Edge>): set<int>
  {
    set k | 0 <= k < |links| :: links[k].source
  }

  function TargetSet(links: seq<Edge>): set<int>
  {
    set k | 0 <= k < |links| :: links[k].target
  }

  function Elems(s: seq<int>): set<int>
  {
    set x | x in s
  }

  /** The positions 0 .. n-1, the keys NewGraphView gives every node slot. */
  function Below(n: nat): (r: set<int>)
    ensures forall x :: x in r <==> 0 <= x < n
  {
    if n == 0 then {} else Below(n - 1) + {n - 1}
  }

  /** A map lookup where a missing key reads as the empty list, as a nil slice does. */
  function Lookup(m: map<int, seq<int>>, k: int): seq<int>
  {
    if k in m then m[k] else []
  }

  lemma TargetsSnoc(links: seq<Edge>, k: nat, s: int)
    requires k < |links|
    ensures Targets(links[..k + 1], s) == Targets(links[..k], s) + (if links[k].source == s then [links[k].target] else [])
  {
    assert links[..k + 1][..k] == links[..k];
  }

  /** Every listed target is the target of an edge leaving `s`. */
  lemma {:induction false} TargetsAreTargets(links: seq<Edge>, s: int)
    ensures forall x :: x in Targets(links, s) ==> exists k :: 0 <= k < |links| && links[k].source == s && links[k].target == x
  {
    if |links| > 0 {
      var n := |links|;
      TargetsAreTargets(links[..n - 1], s);
      forall x | x in Targets(links, s)
        ensures exists k :: 0 <= k < n && links[k].source == s && links[k].target == x
      {
        if x in Targets(links[..n - 1], s) {
          var k :| 0 <= k < n - 1 && links[..n - 1][k].source == s && links[..n - 1][k].target == x;
          assert links[k] == links[..n - 1][k];
        } else {
          assert links[n - 1].source == s && links[n - 1].target == x;
        }
      }
    }
  }

  /** A key no edge leaves has no targets. */
  lemma {:induction false} NoSourceNoTargets(links: seq<Edge>, s: int)
    requires s !in SourceSet(links)
    ensures Targets(links, s) == []
  {
    if |links| > 0 {
      var n := |links|;
      assert links[n - 1].source in SourceSet(links);
      assert SourceSet(links[..n - 1]) <= SourceSet(links) by {
        forall x | x in SourceSet(links[..n - 1]) ensures x in SourceSet(links) {
          var k :| 0 <= k < n - 1 && links[..n - 1][k].source == x;
          assert links[k].source == x;
        }
      }
      NoSourceNoTargets(links[..n - 1], s);
    }
  }

  lemma SourceSetSnoc(links: seq<Edge>, k: nat)
    requires k < |links|
    ensures SourceSet(links[..k + 1]) == SourceSet(links[..k]) + {links[k].source}
  {
    var a := links[..k + 1];
    forall x | x in SourceSet(a) ensures x in SourceSet(links[..k]) + {links[k].source} {
      var j :| 0 <= j < k + 1 && a[j].source == x;
      if j < k {
        assert links[..k][j] == a[j];
      }
    }
    forall x | x in SourceSet(links[..k]) ensures x in SourceSet(a) {
      var j :| 0 <= j < k && links[..k][j].source == x;
      assert a[j] == links[..k][j];
    }
    assert a[k].source == links[k].source;
  }

  lemma TargetSetSnoc(links: seq<Edge>, k: nat)
    requires k < |links|
    ensures TargetSet(links[..k + 1]) == TargetSet(links[..k]) + {links[k].target}
  {
    var a := links[..k + 1];
    forall x | x in TargetSet(a) ensures x in TargetSet(links[..k]) + {links[k].target} {
      var j :| 0 <= j < k + 1 && a[j].target == x;
      if j < k {
        assert links[..k][j] == a[j];
      }
    }
    forall x | x in TargetSet(links[..k]) ensures x in TargetSet(a) {
      var j :| 0 <= j < k && links[..k][j].target == x;
      assert a[j] == links[..k][j];
    }
    assert a[k].target == links[k].target;
  }

  // ---------------------------------------------------------------------
  // The view

  /** The adjacency NewGraphView builds: an entry per node index and per edge source, listing its targets. */
  predicate Built(gv: GraphView)
  {
    gv.adj.Keys == Below(|gv.g.nodes|) + SourceSet(gv.g.links)
    && forall s :: s in gv.adj ==> gv.adj[s] == Targets(gv.g.links, s)
  }

  method NewGraphView(g: Graph) returns (gv: GraphView)
    ensures gv.g == g && Built(gv)
  {
    var adj: map<int, seq<int>> := map[];
    var i := 0;
    while i < |g.nodes|
      invariant 0 <= i <= |g.nodes|
      invariant adj.Keys == Below(i)
      invariant forall s :: s in adj ==> adj[s] == []
    {
      adj := adj[i := []];
      i := i + 1;
    }
    var k := 0;
    while k < |g.links|
      invariant 0 <= k <= |g.links|
      invariant adj.Keys == Below(|g.nodes|) + SourceSet(g.links[..k])
      invariant forall s :: s in adj ==> adj[s] == Targets(g.links[..k], s)
    {
      var e := g.links[k];
      AddLinkStep(adj, Below(|g.nodes|), g.links, k);
      adj := adj[e.source := Lookup(adj, e.source) + [e.target]];
      k := k + 1;
    }
    assert g.links[..k] == g.links;
    gv := GraphView(g, adj);
  }

  /** Appending the k-th edge's target to its source's entry extends the adjacency from k edges to k + 1. */
  lemma AddLinkStep(adj: map<int, seq<int>>, base: set<int>, links: seq<Edge>, k: nat)
    requires k < |links|
    requires adj.Keys == base + SourceSet(links[..k])
    requires forall s :: s in adj ==> adj[s] == Targets(links[..k], s)
    ensures var e := links[k];
            var next := adj[e.source := Lookup(adj, e.source) + [e.target]];
            next.Keys == base + SourceSet(links[..k + 1])
            && forall s :: s in next ==> next[s] == Targets(links[..k + 1], s)
  {
    var e := links[k];
    if e.source !in adj {
      NoSourceNoTargets(links[..k], e.source);
    }
    var next := adj[e.source := Lookup(adj, e.source) + [e.target]];
    SourceSetSnoc(links, k);
    forall s | s in next ensures next[s] == Targets(links[..k + 1], s) {
      TargetsSnoc(links, k, s);
    }
  }

  /** The node ids of the view, in node-list order (Nodes). */
  function Nodes(gv: GraphView): (ids: seq<int>)
    ensures |ids| == |gv.g.nodes| && forall i :: 0 <= i < |ids| ==> ids[i] == gv.g.nodes[i].nodeId
  {
    NodeIds(gv.g.nodes)
  }

  /** The node stored at a position (GetNode): it is looked up by index, not by node id. */
  function GetNode(gv: GraphView, index: int): (node: ElectronSchema)
    requires 0 <= index < |gv.g.nodes|
    ensures node in gv.g.nodes && node.nodeId == Nodes(gv)[index]
  {
    gv.g.nodes[index]
  }

  /** The targets listed for a source; a key without an entry has none (GetAdj). */
  function GetAdj(gv: GraphView, source: int): seq<int>
  {
    Lookup(gv.adj, source)
  }

  /** In a built view, GetAdj lists exactly the targets of the edges leaving the source, in edge order. */
  lemma GetAdjIsTargets(gv: GraphView, source: int)
    requires Built(gv)
    ensures GetAdj(gv, source) == Targets(gv.g.links, source)
    ensures forall x :: x in GetAdj(gv, source) ==>
              exists k :: 0 <= k < |gv.g.links| && gv.g.links[k].source == source && gv.g.links[k].target == x
  {
    if source !in gv.adj {
      NoSourceNoTargets(gv.g.links, source);
    }
    TargetsAreTargets(gv.g.links, source);
  }

  // ---------------------------------------------------------------------
  // In-degrees

  /** The number of edges into `v`, parallel edges counted separately. */
  function InDeg(links: seq<Edge>, v: int): nat
  {
    if |links| == 0 then 0 else InDeg(links[..|links| - 1], v) + (if links[|links| - 1].target == v then 1 else 0)
  }

  /** The number of edges into `v` whose source is in `done`. */
  function Into(links: seq<Edge>, v: int, done: set<int>): nat
  {
    if |links| == 0 then 0
    else Into(links[..|links| - 1], v, done) + (if links[|links| - 1].target == v && links[|links| - 1].source in done then 1 else 0)
  }

  lemma {:induction false} IntoNone(links: seq<Edge>, v: int)
    ensures Into(links, v, {}) == 0
  {
    if |links| > 0 {
      IntoNone(links[..|links| - 1], v);
    }
  }

  /** Adding a source to `done` adds the edges it has into `v`, which are its copies of `v` among its targets. */
  lemma {:induction false} IntoSplit(links: seq<Edge>, v: int, done: set<int>, i: int)
    requires i !in done
    ensures Into(links, v, done + {i}) == Into(links, v, done) + multiset(Targets(links, i))[v]
  {
    if |links| > 0 {
      IntoSplit(links[..|links| - 1], v, done, i);
    }
  }

  /** Edges from `done` are some of the edges into `v`, and all of them exactly when every source into `v` is done. */
  lemma {:induction false} IntoBound(links: seq<Edge>, v: int, done: set<int>)
    ensures Into(links, v, done) <= InDeg(links, v)
    ensures Into(links, v, done) == InDeg(links, v) <==>
            forall k :: 0 <= k < |links| && links[k].target == v ==> links[k].source in done
  {
    if |links| > 0 {
      var n := |links|;
      var init := links[..n - 1];
      IntoBound(init, v, done);
      if Into(links, v, done) == InDeg(links, v) {
        forall k | 0 <= k < n && links[k].target == v ensures links[k].source in done {
          if k < n - 1 {
            assert init[k] == links[k];
          }
        }
      }
      if forall k :: 0 <= k < n && links[k].target == v ==> links[k].source in done {
        forall k | 0 <= k < n - 1 && init[k].target == v ensures init[k].source in done {
          assert init[k] == links[k];
        }
      }
    }
  }

  lemma {:induction false} NoTargetNoInDeg(links: seq<Edge>, v: int)
    requires v !in TargetSet(links)
    ensures InDeg(links, v) == 0
  {
    if |links| > 0 {
      var n := |links|;
      assert links[n - 1].target in TargetSet(links);
      assert TargetSet(links[..n - 1]) <= TargetSet(links) by {
        forall x | x in TargetSet(links[..n - 1]) ensures x in TargetSet(links) {
          var k :| 0 <= k < n - 1 && links[..n - 1][k].target == x;
          assert links[k].target == x;
        }
      }
      NoTargetNoInDeg(links[..n - 1], v);
    }
  }

  lemma InDegSnoc(links: seq<Edge>, k: nat, v: int)
    requires k < |links|
    ensures InDeg(links[..k + 1], v) == InDeg(links[..k], v) + (if links[k].target == v then 1 else 0)
  {
    assert links[..k + 1][..k] == links[..k];
  }

  // ---------------------------------------------------------------------
  // The sort

  /** The keys the sort keeps an in-degree for: every node id and every edge target. */
  function DegreeKeys(g: Graph): set<int>
  {
    Elems(NodeIds(g.nodes)) + TargetSet(g.links)
  }

  /** Every source of an edge into a listed node is listed before it. */
  predicate PredecessorsFirst(links: seq<Edge>, sorted: seq<int>)
  {
    forall a, k :: 0 <= a < |sorted| && 0 <= k < |links| && links[k].target == sorted[a] ==> links[k].source in sorted[..a]
  }

  /** Every key left out has an edge into it from another key left out: the walk could not go on. */
  predicate Stuck(g: Graph, sorted: seq<int>)
  {
    forall v :: v in DegreeKeys(g) && v !in sorted ==>
      exists k :: 0 <= k < |g.links| && g.links[k].target == v && g.links[k].source !in sorted
  }

  /**
   * The adjacency lists and in-degrees the sort starts from (lines 146-153):
   * an entry per node id, plus an adjacency entry per source and an in-degree
   * entry per target.
   */
  method CountDegrees(ids: seq<int>, links: seq<Edge>) returns (adj: map<int, seq<int>>, inDeg: map<int, int>)
    ensures adj.Keys == Elems(ids) + SourceSet(links)
    ensures forall s :: s in adj ==> adj[s] == Targets(links, s)
    ensures inDeg.Keys == Elems(ids) + TargetSet(links)
    ensures forall v :: v in inDeg ==> inDeg[v] == InDeg(links, v)
  {
    adj, inDeg := map[], map[];
    var i := 0;
    while i < |ids|
      invariant 0 <= i <= |ids|
      invariant adj.Keys == Elems(ids[..i]) && inDeg.Keys == Elems(ids[..i])
      invariant forall s :: s in adj ==> adj[s] == []
      invariant forall v :: v in inDeg ==> inDeg[v] == 0
    {
      adj := adj[ids[i] := []];
      inDeg := inDeg[ids[i] := 0];
      assert Elems(ids[..i + 1]) == Elems(ids[..i]) + {ids[i]} by {
        assert ids[..i + 1] == ids[..i] + [ids[i]];
      }
      i := i + 1;
    }
    assert ids[..i] == ids;
    var k := 0;
    while k < |links|
      invariant 0 <= k <= |links|
      invariant adj.Keys == Elems(ids) + SourceSet(links[..k])
      invariant forall s :: s in adj ==> adj[s] == Targets(links[..k], s)
      invariant inDeg.Keys == Elems(ids) + TargetSet(links[..k])
      invariant forall v :: v in inDeg ==> inDeg[v] == InDeg(links[..k], v)
    {
      var e := links[k];
      AddLinkStep(adj, Elems(ids), links, k);
      CountInDegStep(inDeg, Elems(ids), links, k);
      adj := adj[e.source := Lookup(adj, e.source) + [e.target]];
      inDeg := inDeg[e.target := (if e.target in inDeg then inDeg[e.target] else 0) + 1];
      k := k + 1;
    }
    assert links[..k] == links;
  }

  /** Counting the k-th edge at its target extends the in-degrees from k edges to k + 1. */
  lemma CountInDegStep(inDeg: map<int, int>, base: set<int>, links: seq<Edge>, k: nat)
    requires k < |links|
    requires inDeg.Keys == base + TargetSet(links[..k])
    requires forall v :: v in inDeg ==> inDeg[v] == InDeg(links[..k], v)
    ensures var e := links[k];
            var next := inDeg[e.target := (if e.target in inDeg then inDeg[e.target] else 0) + 1];
            next.Keys == base + TargetSet(links[..k + 1])
            && forall v :: v in next ==> next[v] == InDeg(links[..k + 1], v)
  {
    var e := links[k];
    if e.target !in inDeg {
      NoTargetNoInDeg(links[..k], e.target);
    }
    var next := inDeg[e.target := (if e.target in inDeg then inDeg[e.target] else 0) + 1];
    TargetSetSnoc(links, k);
    forall v | v in next ensures next[v] == InDeg(links[..k + 1], v) {
      InDegSnoc(links, k, v);
    }
  }

  /** Some element of a non-empty set: the next key of a map iteration whose order is not specified. */
  method Pick(s: set<int>) returns (x: int)
    requires s != {}
    ensures x in s
  {
    NonEmptyHasElement(s);
    x :| x in s;
  }

  lemma NonEmptyHasElement(s: set<int>)
    requires s != {}
    ensures exists x :: x in s
  {
    if forall x :: x !in s {
      assert false;
    }
  }

  /** The keys whose in-degree is zero, in the map's iteration order (lines 155-160). */
  method ReadyNodes(inDeg: map<int, int>) returns (ready: seq<int>)
    ensures Distinct(ready)
    ensures forall v :: v in ready <==> v in inDeg && inDeg[v] == 0
  {
    ready := [];
    var rest := inDeg.Keys;
    while rest != {}
      invariant rest <= inDeg.Keys && Distinct(ready)
      invariant forall v :: v in ready <==> v in inDeg && v !in rest && inDeg[v] == 0
      decreases |rest|
    {
      var n := Pick(rest);
      if inDeg[n] == 0 {
        ready := ready + [n];
      }
      rest := rest - {n};
    }
  }

  /**
   * Visits the successors of one node (lines 167-172): each occurrence
   * decrements its target's in-degree, and a target whose in-degree drops to
   * zero is appended to `next`. A target reaches zero at most once.
   */
  method Relax(succ: seq<int>, inDeg: map<int, int>, next: seq<int>) returns (after: map<int, int>, next': seq<int>)
    requires forall j :: 0 <= j < |succ| ==> succ[j] in inDeg
    ensures after.Keys == inDeg.Keys
    ensures forall v :: v in inDeg ==> after[v] == inDeg[v] - multiset(succ)[v]
    ensures |next'| >= |next| && next'[..|next|] == next
    ensures Distinct(next'[|next|..])
    ensures forall v :: v in next'[|next|..] <==> v in inDeg && 0 < inDeg[v] <= multiset(succ)[v]
  {
    after, next' := inDeg, next;
    var j := 0;
    while j < |succ|
      invariant 0 <= j <= |succ|
      invariant after.Keys == inDeg.Keys
      invariant forall v :: v in inDeg ==> after[v] == inDeg[v] - multiset(succ[..j])[v]
      invariant |next'| >= |next| && next'[..|next|] == next
      invariant Distinct(next'[|next|..])
      invariant forall v :: v in next'[|next|..] <==> v in inDeg && 0 < inDeg[v] <= multiset(succ[..j])[v]
    {
      var v := succ[j];
      assert succ[..j + 1] == succ[..j] + [v];
      assert multiset(succ[..j + 1]) == multiset(succ[..j]) + multiset{v};
      after := after[v := after[v] - 1];
      if after[v] == 0 {
        assert v !in next'[|next|..];
        assert (next' + [v])[|next|..] == next'[|next|..] + [v];
        next' := next' + [v];
      }
      j := j + 1;
    }
    assert succ[..j] == succ;
  }

  /**
   * The state between two visits: the result so far `sorted`, the queued
   * nodes `queue` (the rest of this wave, then the next wave), and the
   * in-degrees, which count the edges whose source is not yet visited.
   */
  predicate Frontier(links: seq<Edge>, keys: set<int>, sorted: seq<int>, queue: seq<int>, inDeg: map<int, int>)
  {
    Distinct(sorted + queue)
    && (forall x :: x in sorted + queue ==> x in keys)
    && inDeg.Keys == keys
    && (forall v :: v in keys ==> inDeg[v] == InDeg(links, v) - Into(links, v, Elems(sorted)))
    && (forall v :: v in keys ==> (inDeg[v] == 0 <==> v in sorted || v in queue))
    && PredecessorsFirst(links, sorted)
    && (forall x, k :: x in queue && 0 <= k < |links| && links[k].target == x ==> links[k].source in sorted)
  }

  lemma DistinctAppend(a: seq<int>, b: seq<int>)
    requires Distinct(a) && Distinct(b) && forall x :: x in b ==> x !in a
    ensures Distinct(a + b)
  {
    var c := a + b;
    forall i, j | 0 <= i < j < |c| ensures c[i] != c[j] {
      if j >= |a| && i < |a| {
        assert c[j] in b;
      }
    }
  }

  /** The in-degree bookkeeping of one visit: the counts drop by the visited node's out-edges. */
  lemma VisitKeepsCounts(links: seq<Edge>, keys: set<int>, sorted: seq<int>, i: int, rest: seq<int>,
                         inDeg: map<int, int>, after: map<int, int>, added: seq<int>)
    requires Frontier(links, keys, sorted, [i] + rest, inDeg)
    requires after.Keys == inDeg.Keys
    requires forall v :: v in inDeg ==> after[v] == inDeg[v] - multiset(Targets(links, i))[v]
    requires forall v :: v in added <==> v in inDeg && 0 < inDeg[v] <= multiset(Targets(links, i))[v]
    ensures forall v :: v in keys ==> after[v] == InDeg(links, v) - Into(links, v, Elems(sorted + [i]))
    ensures forall v :: v in keys ==> (after[v] == 0 <==> v in sorted + [i] || v in rest + added)
  {
    var s1 := sorted + [i];
    assert i !in Elems(sorted) by {
      var c := sorted + ([i] + rest);
      forall j | 0 <= j < |sorted| ensures sorted[j] != i {
        assert c[j] == sorted[j] && c[|sorted|] == i;
      }
    }
    assert Elems(s1) == Elems(sorted) + {i};
    forall v | v in keys
      ensures after[v] == InDeg(links, v) - Into(links, v, Elems(s1))
      ensures after[v] == 0 <==> v in s1 || v in rest + added
    {
      IntoSplit(links, v, Elems(sorted), i);
      IntoBound(links, v, Elems(s1));
    }
  }

  /** Visiting the head of the queue and relaxing its successors keeps the frontier. */
  lemma VisitKeepsFrontier(links: seq<Edge>, keys: set<int>, sorted: seq<int>, i: int, rest: seq<int>,
                           inDeg: map<int, int>, after: map<int, int>, added: seq<int>)
    requires Frontier(links, keys, sorted, [i] + rest, inDeg)
    requires after.Keys == inDeg.Keys
    requires forall v :: v in inDeg ==> after[v] == inDeg[v] - multiset(Targets(links, i))[v]
    requires Distinct(added)
    requires forall v :: v in added <==> v in inDeg && 0 < inDeg[v] <= multiset(Targets(links, i))[v]
    ensures Frontier(links, keys, sorted + [i], rest + added, after)
  {
    var s1 := sorted + [i];
    VisitKeepsCounts(links, keys, sorted, i, rest, inDeg, after, added);
    assert s1 + (rest + added) == (sorted + ([i] + rest)) + added;
    DistinctAppend(sorted + ([i] + rest), added);
    forall a, k | 0 <= a < |s1| && 0 <= k < |links| && links[k].target == s1[a]
      ensures links[k].source in s1[..a]
    {
      if a < |sorted| {
        assert s1[..a] == sorted[..a];
      } else {
        assert s1[..a] == sorted && s1[a] in [i] + rest;
      }
    }
    forall x, k | x in rest + added && 0 <= k < |links| && links[k].target == x
      ensures links[k].source in s1
    {
      if x in added {
        assert after[x] == 0;
        IntoBound(links, x, Elems(s1));
      }
    }
  }

  /** The sorted and queued nodes are distinct keys, so there are no more of them than keys. */
  lemma FrontierBounded(links: seq<Edge>, keys: set<int>, sorted: seq<int>, queue: seq<int>, inDeg: map<int, int>)
    requires Frontier(links, keys, sorted, queue, inDeg)
    ensures |sorted| + |queue| <= |keys|
  {
    var s := sorted + queue;
    forall x | x in s ensures x in keys {
      assert x in sorted || x in queue;
    }
    DistinctWithin(s, keys);
  }

  /** The adjacency lists the sort reads: an entry for every source, listing its targets. */
  predicate Adjacency(adj: map<int, seq<int>>, links: seq<Edge>)
  {
    SourceSet(links) <= adj.Keys && forall s :: s in adj ==> adj[s] == Targets(links, s)
  }

  /**
   * One wave of the sort (lines 162-174): every ready node is visited in
   * order, and the nodes whose in-degree drops to zero form the next wave.
   */
  method VisitWave(adj: map<int, seq<int>>, links: seq<Edge>, ghost keys: set<int>,
                   sorted: seq<int>, ready: seq<int>, inDeg: map<int, int>, visited: int)
    returns (sorted': seq<int>, inDeg': map<int, int>, next: seq<int>, visited': int)
    requires Adjacency(adj, links) && TargetSet(links) <= keys
    requires Frontier(links, keys, sorted, ready, inDeg)
    ensures sorted' == sorted + ready && visited' == visited + |ready|
    ensures Frontier(links, keys, sorted', next, inDeg')
  {
    sorted', inDeg', next, visited' := sorted, inDeg, [], visited;
    var r := 0;
    assert ready[r..] + next == ready;
    while r < |ready|
      invariant 0 <= r <= |ready|
      invariant sorted' == sorted + ready[..r] && visited' == visited + r
      invariant Frontier(links, keys, sorted', ready[r..] + next, inDeg')
    {
      var i := ready[r];
      var succ := Lookup(adj, i);
      SuccessorsAreKeys(adj, links, keys, i);
      assert inDeg'.Keys == keys;
      var after, next' := Relax(succ, inDeg', next);
      VisitStep(links, keys, sorted', ready, r, next, inDeg', after, next');
      sorted' := sorted' + [i];
      visited' := visited' + 1;
      inDeg', next := after, next';
      r := r + 1;
    }
    assert ready[r..] + next == next;
    assert ready[..r] == ready;
  }

  /** Visiting `ready[r]` in a wave, as the loop of VisitWave sees it. */
  lemma VisitStep(links: seq<Edge>, keys: set<int>, sorted: seq<int>, ready: seq<int>, r: nat, next: seq<int>,
                  inDeg: map<int, int>, after: map<int, int>, next': seq<int>)
    requires r < |ready| && Frontier(links, keys, sorted, ready[r..] + next, inDeg)
    requires after.Keys == inDeg.Keys
    requires forall v :: v in inDeg ==> after[v] == inDeg[v] - multiset(Targets(links, ready[r]))[v]
    requires |next'| >= |next| && next'[..|next|] == next
    requires Distinct(next'[|next|..])
    requires forall v :: v in next'[|next|..] <==> v in inDeg && 0 < inDeg[v] <= multiset(Targets(links, ready[r]))[v]
    ensures Frontier(links, keys, sorted + [ready[r]], ready[r + 1..] + next', after)
    ensures ready[..r + 1] == ready[..r] + [ready[r]]
  {
    SliceStep(ready, r, next, next');
    VisitKeepsFrontier(links, keys, sorted, ready[r], ready[r + 1..] + next, inDeg, after, next'[|next|..]);
  }

  /** The successors listed for a node are its edge targets, all of them keys. */
  lemma SuccessorsAreKeys(adj: map<int, seq<int>>, links: seq<Edge>, keys: set<int>, i: int)
    requires Adjacency(adj, links) && TargetSet(links) <= keys
    ensures Lookup(adj, i) == Targets(links, i)
    ensures forall j :: 0 <= j < |Lookup(adj, i)| ==> Lookup(adj, i)[j] in keys
  {
    if i !in adj {
      NoSourceNoTargets(links, i);
    }
    TargetsAreTargets(links, i);
    forall j | 0 <= j < |Lookup(adj, i)| ensures Lookup(adj, i)[j] in keys {
      var x := Lookup(adj, i)[j];
      assert x in Targets(links, i);
      var k :| 0 <= k < |links| && links[k].source == i && links[k].target == x;
      assert links[k].target in TargetSet(links);
    }
  }

  /** The bookkeeping of one visit: the queue loses its head and gains the newly ready nodes. */
  lemma SliceStep(ready: seq<int>, r: nat, next: seq<int>, next': seq<int>)
    requires r < |ready| && |next| <= |next'| && next'[..|next|] == next
    ensures ready[r..] + next == [ready[r]] + (ready[r + 1..] + next)
    ensures ready[r + 1..] + next + next'[|next|..] == ready[r + 1..] + next'
    ensures ready[..r + 1] == ready[..r] + [ready[r]]
  {
    assert next' == next + next'[|next|..];
  }

  /** When no node is ready, the frontier gives every property of the result. */
  lemma FrontierExhausted(g: Graph, keys: set<int>, sorted: seq<int>, inDeg: map<int, int>)
    requires keys == DegreeKeys(g)
    requires Frontier(g.links, keys, sorted, [], inDeg)
    ensures Distinct(sorted) && forall a :: 0 <= a < |sorted| ==> sorted[a] in DegreeKeys(g)
    ensures PredecessorsFirst(g.links, sorted)
    ensures Stuck(g, sorted)
  {
    assert sorted + [] == sorted;
    forall a | 0 <= a < |sorted| ensures sorted[a] in keys {
      assert (sorted + [])[a] == sorted[a];
    }
    forall v | v in DegreeKeys(g) && v !in sorted
      ensures exists k :: 0 <= k < |g.links| && g.links[k].target == v && g.links[k].source !in sorted
    {
      IntoBound(g.links, v, Elems(sorted));
    }
  }

  /** Before any visit the frontier is the zero in-degree keys, and no edge enters them. */
  lemma FrontierStart(links: seq<Edge>, keys: set<int>, inDeg: map<int, int>, ready: seq<int>)
    requires inDeg.Keys == keys && forall v :: v in inDeg ==> inDeg[v] == InDeg(links, v)
    requires Distinct(ready) && forall v :: v in ready <==> v in inDeg && inDeg[v] == 0
    ensures Frontier(links, keys, [], ready, inDeg)
  {
    assert [] + ready == ready;
    assert Elems([]) == {};
    forall v | v in keys ensures inDeg[v] == InDeg(links, v) - Into(links, v, Elems([])) {
      IntoNone(links, v);
    }
    forall x, k | x in ready && 0 <= k < |links|
      ensures links[k].target != x
    {
      IntoNone(links, x);
      IntoBound(links, x, {});
    }
  }

  const INVALID_GRAPH := NewGenericClientError("Invalid transport graph")

  /**
   * What the sort returns: distinct keys, each after the sources of its
   * incoming edges, stopped only where every key left out still waits on
   * another one left out; the graph is rejected exactly when the number of
   * visited keys differs from the number of nodes.
   */
  predicate KahnOutcome(g: Graph, sorted: seq<int>, err: Option<ApiError>)
  {
    Distinct(sorted)
    && (forall a :: 0 <= a < |sorted| ==> sorted[a] in DegreeKeys(g))
    && PredecessorsFirst(g.links, sorted)
    && Stuck(g, sorted)
    && (err.Some? <==> |sorted| != |g.nodes|)
    && (err.Some? ==> err.value == INVALID_GRAPH)
  }

  /**
   * Kahn's algorithm in waves (sortTopologically): the zero in-degree keys
   * form the first wave; visiting a node appends it to the result and
   * decrements its successors, and those reaching zero form the next wave.
   * When fewer nodes were visited than the graph has, the graph is rejected.
   */
  method SortTopologically(gv: GraphView) returns (sorted: seq<int>, err: Option<ApiError>)
    ensures KahnOutcome(gv.g, sorted, err)
  {
    var links := gv.g.links;
    var adj, inDeg := CountDegrees(Nodes(gv), links);
    ghost var keys := inDeg.Keys;
    var ready := ReadyNodes(inDeg);
    sorted := [];
    var visited := 0;
    FrontierStart(links, keys, inDeg, ready);
    while |ready| > 0
      invariant Frontier(links, keys, sorted, ready, inDeg)
      invariant visited == |sorted|
      decreases |keys| - |sorted|
    {
      FrontierBounded(links, keys, sorted, ready, inDeg);
      sorted, inDeg, ready, visited := VisitWave(adj, links, keys, sorted, ready, inDeg, visited);
      FrontierBounded(links, keys, sorted, ready, inDeg);
    }
    FrontierExhausted(gv.g, keys, sorted, inDeg);
    if visited != |gv.g.nodes| {
      return sorted, Some(INVALID_GRAPH);
    }
    return sorted, None;
  }

  // ---------------------------------------------------------------------
  // What the outcome means

  /** Node ids are distinct and every edge joins two nodes of the graph. */
  predicate WellFormed(g: Graph)
  {
    Distinct(NodeIds(g.nodes))
    && forall k :: 0 <= k < |g.links| ==> g.links[k].source in NodeIds(g.nodes) && g.links[k].target in NodeIds(g.nodes)
  }

  /**
   * A non-empty set of keys each of which has an incoming edge from the set.
   * In a finite graph such a set exists exactly when the graph has a cycle.
   */
  predicate Closed(g: Graph, c: set<int>)
  {
    c != {} && forall v {:trigger ParentIn(g.links, v, c)} :: v in c ==> ParentIn(g.links, v, c)
  }

  /** Some edge into `v` comes from `c`. */
  predicate ParentIn(links: seq<Edge>, v: int, c: set<int>)
  {
    exists k :: 0 <= k < |links| && links[k].target == v && links[k].source in c
  }

  predicate HasEdge(links: seq<Edge>, a: int, b: int)
  {
    exists k :: 0 <= k < |links| && links[k].source == a && links[k].target == b
  }

  /** A closed walk: each key has an edge to the next one, and the last to the first. */
  predicate IsCycle(links: seq<Edge>, cyc: seq<int>)
  {
    |cyc| > 0 && forall i :: 0 <= i < |cyc| ==> StepsOn(links, cyc, i)
  }

  /** The walk has an edge from its i-th key to the following one, wrapping around at the end. */
  predicate StepsOn(links: seq<Edge>, cyc: seq<int>, i: nat)
    requires i < |cyc|
  {
    HasEdge(links, cyc[i], cyc[(i + 1) % |cyc|])
  }

  /** The keys of a closed walk form a closed set. */
  lemma CycleIsClosed(g: Graph, cyc: seq<int>)
    requires IsCycle(g.links, cyc)
    ensures Closed(g, Elems(cyc))
  {
    assert cyc[0] in Elems(cyc);
    forall v | v in Elems(cyc) ensures ParentIn(g.links, v, Elems(cyc)) {
      var i :| 0 <= i < |cyc| && cyc[i] == v;
      var p := if i == 0 then |cyc| - 1 else i - 1;
      assert (p + 1) % |cyc| == i;
      assert StepsOn(g.links, cyc, p);
      var k :| 0 <= k < |g.links| && g.links[k].source == cyc[p] && g.links[k].target == cyc[i];
      assert g.links[k].source in Elems(cyc);
    }
  }

  lemma {:induction false} DistinctCard(s: seq<int>)
    requires Distinct(s)
    ensures |Elems(s)| == |s|
  {
    if |s| > 0 {
      var n := |s|;
      DistinctCard(s[..n - 1]);
      assert Elems(s) == Elems(s[..n - 1]) + {s[n - 1]} by {
        assert s == s[..n - 1] + [s[n - 1]];
      }
      assert s[n - 1] !in Elems(s[..n - 1]) by {
        assert forall j :: 0 <= j < n - 1 ==> s[j] != s[n - 1];
      }
    }
  }

  lemma {:induction false} DistinctMultiset(s: seq<int>)
    requires Distinct(s)
    ensures forall x :: multiset(s)[x] == if x in s then 1 else 0
  {
    if |s| > 0 {
      var n := |s|;
      DistinctMultiset(s[..n - 1]);
      assert s == s[..n - 1] + [s[n - 1]];
      assert s[n - 1] !in s[..n - 1] by {
        assert forall j :: 0 <= j < n - 1 ==> s[j] != s[n - 1];
      }
    }
  }

  /** Under well-formedness the keys are the node ids. */
  lemma WellFormedKeys(g: Graph)
    requires WellFormed(g)
    ensures DegreeKeys(g) == Elems(NodeIds(g.nodes))
    ensures |DegreeKeys(g)| == |g.nodes|
  {
    forall x | x in TargetSet(g.links) ensures x in Elems(NodeIds(g.nodes)) {
      var k :| 0 <= k < |g.links| && g.links[k].target == x;
    }
    DistinctCard(NodeIds(g.nodes));
  }

  lemma SubsetCard(a: set<int>, b: set<int>)
    requires a <= b
    ensures |b| == |a| + |b - a|
  {
    assert b == a + (b - a);
  }

  /** On a well-formed graph a sort that visits as many keys as there are nodes lists every node id exactly once. */
  lemma PermutationOnSuccess(g: Graph, sorted: seq<int>, err: Option<ApiError>)
    requires WellFormed(g) && KahnOutcome(g, sorted, err) && err.None?
    ensures multiset(sorted) == multiset(NodeIds(g.nodes))
  {
    var ids := NodeIds(g.nodes);
    WellFormedKeys(g);
    DistinctCard(sorted);
    assert Elems(sorted) <= Elems(ids);
    SubsetCard(Elems(sorted), Elems(ids));
    assert Elems(sorted) == Elems(ids);
    DistinctMultiset(sorted);
    DistinctMultiset(ids);
    assert forall x :: x in sorted <==> x in ids by {
      forall x ensures x in sorted <==> x in ids {
        assert x in sorted <==> x in Elems(sorted);
        assert x in ids <==> x in Elems(ids);
      }
    }
  }

  /** On a well-formed graph a rejected sort leaves out a closed set: the nodes it never reached. */
  lemma StuckLeavesClosed(g: Graph, sorted: seq<int>, err: Option<ApiError>)
    requires WellFormed(g) && KahnOutcome(g, sorted, err) && err.Some?
    ensures Closed(g, Elems(NodeIds(g.nodes)) - Elems(sorted))
  {
    var ids := NodeIds(g.nodes);
    var c := Elems(ids) - Elems(sorted);
    WellFormedKeys(g);
    DistinctCard(sorted);
    assert Elems(sorted) <= Elems(ids);
    SubsetCard(Elems(sorted), Elems(ids));
    assert |c| > 0;
    forall v | v in c ensures ParentIn(g.links, v, c) {
      assert v !in sorted;
      var k :| 0 <= k < |g.links| && g.links[k].target == v && g.links[k].source !in sorted;
      assert g.links[k].source in Elems(ids);
    }
  }

  /** No key of a closed set is ever listed: each would need one of the set listed before it. */
  lemma {:induction false} ClosedNeverListed(g: Graph, sorted: seq<int>, c: set<int>, a: nat)
    requires PredecessorsFirst(g.links, sorted) && Closed(g, c) && a < |sorted|
    ensures sorted[a] !in c
    decreases a
  {
    if sorted[a] in c {
      assert ParentIn(g.links, sorted[a], c);
      var k :| 0 <= k < |g.links| && g.links[k].target == sorted[a] && g.links[k].source in c;
      var b :| 0 <= b < a && sorted[..a][b] == g.links[k].source;
      assert sorted[b] == sorted[..a][b];
      ClosedNeverListed(g, sorted, c, b);
      assert false;
    }
  }

  /** On a well-formed graph with a closed set the sort is rejected. */
  lemma ClosedRejected(g: Graph, sorted: seq<int>, err: Option<ApiError>, c: set<int>)
    requires WellFormed(g) && KahnOutcome(g, sorted, err) && Closed(g, c)
    ensures err.Some?
  {
    var ids := NodeIds(g.nodes);
    WellFormedKeys(g);
    forall v | v in c ensures v in Elems(ids) {
      assert ParentIn(g.links, v, c);
    }
    forall a | 0 <= a < |sorted| ensures sorted[a] in Elems(ids) - c {
      ClosedNeverListed(g, sorted, c, a);
    }
    assert Elems(sorted) <= Elems(ids) - c;
    SubsetCard(Elems(sorted), Elems(ids) - c);
    SubsetCard(c, Elems(ids));
    DistinctCard(sorted);
  }

  /**
   * On a well-formed graph the sort is rejected exactly when the graph has a
   * cycle (a closed set), and otherwise lists every node once, each after its
   * parents.
   */
  lemma KahnDecidesAcyclicity(g: Graph, sorted: seq<int>, err: Option<ApiError>)
    requires WellFormed(g) && KahnOutcome(g, sorted, err)
    ensures err.Some? <==> exists c :: Closed(g, c)
    ensures err.None? ==> multiset(sorted) == multiset(NodeIds(g.nodes)) && PredecessorsFirst(g.links, sorted)
  {
    if err.Some? {
      StuckLeavesClosed(g, sorted, err);
    } else {
      PermutationOnSuccess(g, sorted, err);
      forall c | Closed(g, c) ensures false {
        ClosedRejected(g, sorted, err, c);
      }
    }
  }

  function Node(id: int): ElectronSchema
  {
    ElectronSchema(id, NO_ELECTRON_META, NO_ELECTRON_ASSETS)
  }

  function Link(source: int, target: int): Edge
  {
    Edge(source, target, EdgeMetadata("", "", None))
  }

  /** The graph of the sort's unit test: 1 -> 0, 2 -> 0, 3 -> 2. */
  const TEST_GRAPH := Graph([Node(0), Node(1), Node(2), Node(3)], [Link(1, 0), Link(2, 0), Link(3, 2)])

  /** The unit-test graph is accepted, and its nodes come out after their parents. */
  lemma TestGraphSorts(sorted: seq<int>, err: Option<ApiError>)
    requires KahnOutcome(TEST_GRAPH, sorted, err)
    ensures err.None? && multiset(sorted) == multiset{0, 1, 2, 3}
  {
    var g := TEST_GRAPH;
    assert NodeIds(g.nodes) == [0, 1, 2, 3];
    assert WellFormed(g);
    if err.Some? {
      StuckLeavesClosed(g, sorted, err);
      var c := Elems(NodeIds(g.nodes)) - Elems(sorted);
      NoClosedSetInTestGraph(c);
    }
    PermutationOnSuccess(g, sorted, err);
  }

  lemma NoClosedSetInTestGraph(c: set<int>)
    ensures !Closed(TEST_GRAPH, c)
  {
    var links := TEST_GRAPH.links;
    if 3 in c {
      assert !ParentIn(links, 3, c);
    } else if 1 in c {
      assert !ParentIn(links, 1, c);
    } else if 2 in c {
      assert !ParentIn(links, 2, c);
    } else if 0 in c {
      assert !ParentIn(links, 0, c);
    } else if c != {} {
      NonEmptyHasElement(c);
      var v :| v in c;
      assert !ParentIn(links, v, c);
    }
  }

  // ---------------------------------------------------------------------
  // Edges into keys that are not nodes

  /**
   * Nodes 0 and 1; an edge from 0 to a key 5 that names no node, and a
   * self-loop on 1. Key 5 is visited in place of node 1.
   */
  const DANGLING_GRAPH := Graph([Node(0), Node(1)], [Link(0, 5), Link(1, 1)])

  /**
   * As written the sort accepts the dangling graph: it visits 0 and 5, which
   * number as many as the nodes, although node 1 sits on a cycle and is never
   * listed.
   */
  lemma DanglingTargetAccepted(sorted: seq<int>, err: Option<ApiError>)
    requires KahnOutcome(DANGLING_GRAPH, sorted, err)
    ensures err.None? && sorted == [0, 5]
    ensures multiset(sorted) != multiset(NodeIds(DANGLING_GRAPH.nodes))
  {
    var g := DANGLING_GRAPH;
    assert NodeIds(g.nodes) == [0, 1];
    assert DegreeKeys(g) == {0, 1, 5} by {
      assert TargetSet(g.links) == {5, 1} by {
        assert g.links[0].target == 5 && g.links[1].target == 1;
      }
    }
    assert Closed(g, {1}) by {
      assert g.links[1].target == 1 && g.links[1].source in {1};
      assert ParentIn(g.links, 1, {1});
    }
    forall a | 0 <= a < |sorted| ensures sorted[a] != 1 {
      ClosedNeverListed(g, sorted, {1}, a);
    }
    assert 0 in sorted;
    assert 5 in sorted by {
      // the only edge into 5 leaves 0, which is listed, so 5 is not stuck
      forall k | 0 <= k < |g.links| && g.links[k].target == 5 ensures g.links[k].source in sorted {
        assert k == 0;
      }
      assert 5 in DegreeKeys(g);
    }
    assert Elems(sorted) == {0, 5};
    DistinctCard(sorted);
    forall a | 0 <= a < |sorted| && sorted[a] == 5 ensures a > 0 {
      assert g.links[0].target == sorted[a];
      assert g.links[0].source in sorted[..a];
    }
    assert sorted == [0, 5];
    assert multiset(sorted)[5] == 1;
  }

  /**
   * The sort with the graph checked first: duplicate node ids and edges to
   * keys that name no node are rejected with the same error, so that an
   * accepted graph comes back with every node listed once, parents first.
   */
  method SortTopologicallyStrict(gv: GraphView) returns (sorted: seq<int>, err: Option<ApiError>)
    ensures err.Some? ==> err.value == INVALID_GRAPH
    ensures err.Some? <==> !WellFormed(gv.g) || exists c :: Closed(gv.g, c)
    ensures err.None? ==> multiset(sorted) == multiset(NodeIds(gv.g.nodes)) && PredecessorsFirst(gv.g.links, sorted)
  {
    if !WellFormed(gv.g) {
      return [], Some(INVALID_GRAPH);
    }
    sorted, err := SortTopologically(gv);
    KahnDecidesAcyclicity(gv.g, sorted, err);
  }
}
