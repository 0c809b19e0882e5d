/** The graph that `DagBuilder::build` makes (server/src/dag/dag_graph.cpp,
    dag_node.cpp, dag_builder.cpp), as mutable nodes in a keyed table. */
module DagGraphs {
  import opened TaskCommon
  import opened DagBuilder

  /** The key under which a node is filed. */
  function MakeKey(id: TaskId): string {
    if id.runId == "" then id.value else id.runId + ":" + id.value
  }

  /** Within one run, keys and names correspond. */
  lemma MakeKeyInjective(a: TaskId, b: TaskId)
    requires a.runId == b.runId && MakeKey(a) == MakeKey(b)
    ensures a == b
  {
    if a.runId != "" {
      var n := |a.runId + ":"|;
      assert MakeKey(a)[n..] == a.value && MakeKey(b)[n..] == b.value;
    }
  }

  /* ---- the graph as a value ---- */

  datatype NodeView = NodeView(id: TaskId, deps: seq<TaskId>, downstream: seq<TaskId>, indegree: int, status: Status)

  type GraphView = map<string, NodeView>

  function Ensured(v: GraphView, id: TaskId): GraphView {
    if MakeKey(id) in v then v else v[MakeKey(id) := NodeView(id, [], [], 0, Pending)]
  }

  function WithDependency(v: GraphView, id: TaskId, dep: TaskId): GraphView
    requires MakeKey(id) in v
  {
    var n := v[MakeKey(id)];
    v[MakeKey(id) := n.(deps := n.deps + [dep])]
  }

  function WithDownstream(v: GraphView, id: TaskId, child: TaskId): GraphView
    requires MakeKey(id) in v
  {
    var n := v[MakeKey(id)];
    v[MakeKey(id) := n.(downstream := n.downstream + [child])]
  }

  function Linked(v: GraphView, id: TaskId, dep: TaskId): GraphView
    requires MakeKey(id) in v
  {
    WithDownstream(Ensured(WithDependency(v, id, dep), dep), dep, id)
  }

  function LinkedAll(v: GraphView, id: TaskId, deps: seq<TaskId>): (r: GraphView)
    requires MakeKey(id) in v
    ensures MakeKey(id) in r
  {
    if deps == [] then v
    else Linked(LinkedAll(v, id, deps[..|deps| - 1]), id, deps[|deps| - 1])
  }

  function EnsuredSpecs(specs: seq<Spec>): GraphView {
    if specs == [] then map[]
    else Ensured(EnsuredSpecs(specs[..|specs| - 1]), specs[|specs| - 1].id)
  }

  function LinkedSpecs(v: GraphView, specs: seq<Spec>): GraphView {
    if specs == [] then v
    else
      var last := specs[|specs| - 1];
      LinkedAll(Ensured(LinkedSpecs(v, specs[..|specs| - 1]), last.id), last.id, last.deps)
  }

  function Recomputed(v: GraphView): GraphView {
    map k | k in v :: v[k].(indegree := |v[k].deps|)
  }

  /** What `build` makes of the specs. */
  function Built(specs: seq<Spec>): GraphView {
    Recomputed(LinkedSpecs(EnsuredSpecs(specs), specs))
  }

  /* ---- nodes and the table ---- */

  class DagNode {
    const id: TaskId
    var deps: seq<TaskId>
    var downstream: seq<TaskId>
    var indegree: int
    var status: Status

    constructor (id: TaskId)
      ensures this.id == id && deps == [] && downstream == [] && indegree == 0 && status == Pending
    {
      this.id := id;
      deps, downstream, indegree, status := [], [], 0, Pending;
    }

    ghost function View(): NodeView
      reads this
    {
      NodeView(id, deps, downstream, indegree, status)
    }

    method AddDependency(dep: TaskId)
      modifies this`deps
      ensures View() == old(View()).(deps := old(deps) + [dep])
    {
      deps := deps + [dep];
    }

    method AddDownstream(child: TaskId)
      modifies this`downstream
      ensures View() == old(View()).(downstream := old(downstream) + [child])
    {
      downstream := downstream + [child];
    }

    method SetIndegree(v: int)
      modifies this`indegree
      ensures View() == old(View()).(indegree := v)
    {
      indegree := v;
    }
  }

  class DagGraph {
    var nodes: map<string, DagNode>

    constructor ()
      ensures nodes == map[] && Valid() && View() == map[]
    {
      nodes := map[];
    }

    /** Every node is filed under its own key, so no node is filed twice. */
    ghost predicate Valid()
      reads this, nodes.Values
    {
      forall k :: k in nodes ==> MakeKey(nodes[k].id) == k
    }

    ghost function View(): GraphView
      reads this, nodes.Values
    {
      map k | k in nodes :: nodes[k].View()
    }

    method EnsureNode(id: TaskId) returns (node: DagNode)
      requires Valid()
      modifies this`nodes
      ensures Valid() && View() == Ensured(old(View()), id)
      ensures MakeKey(id) in nodes && nodes[MakeKey(id)] == node
      ensures old(nodes.Keys) <= nodes.Keys && forall k :: k in old(nodes) ==> nodes[k] == old(nodes)[k]
      ensures forall k :: k in nodes && k !in old(nodes) ==> fresh(nodes[k])
    {
      var key := MakeKey(id);
      if key in nodes {
        return nodes[key];
      }
      node := new DagNode(id);
      nodes := nodes[key := node];
    }

    method RecomputeIndegree()
      requires Valid()
      modifies nodes.Values
      ensures Valid() && View() == Recomputed(old(View()))
    {
      var rest := nodes.Keys;
      while rest != {}
        invariant rest <= nodes.Keys && nodes == old(nodes)
        invariant forall k :: k in nodes ==>
                    nodes[k].View() == if k in rest then old(nodes[k].View())
                      else old(nodes[k].View()).(indegree := old(|nodes[k].deps|))
        decreases rest
      {
        var k :| k in rest;
        var node := nodes[k];
        rest := rest - {k};
        node.SetIndegree(|node.deps|);
      }
    }
  }

  /** `graph` keeps its old nodes and has only new ones besides. */
  twostate predicate Grows(graph: DagGraph)
    reads graph
  {
    && old(graph.nodes.Keys) <= graph.nodes.Keys
    && (forall k :: k in old(graph.nodes) ==> graph.nodes[k] == old(graph.nodes)[k])
    && (forall k :: k in graph.nodes && k !in old(graph.nodes) ==> fresh(graph.nodes[k]))
  }

  /** One dependency: recorded at the task, and the task recorded at the dependency. */
  method Link(graph: DagGraph, id: TaskId, dep: TaskId)
    requires graph.Valid() && MakeKey(id) in graph.nodes
    modifies graph, graph.nodes.Values
    ensures graph.Valid() && graph.View() == Linked(old(graph.View()), id, dep)
    ensures old(graph.nodes.Keys) <= graph.nodes.Keys
    ensures forall k :: k in old(graph.nodes) ==> graph.nodes[k] == old(graph.nodes)[k]
    ensures forall k :: k in graph.nodes && k !in old(graph.nodes) ==> fresh(graph.nodes[k])
  {
    hide MakeKey;
    RecordDependency(graph, id, dep);
    var depNode := graph.EnsureNode(dep);
    RecordDownstream(graph, dep, id);
  }

  method RecordDependency(graph: DagGraph, id: TaskId, dep: TaskId)
    requires graph.Valid() && MakeKey(id) in graph.nodes
    modifies graph.nodes.Values
    ensures graph.Valid() && graph.View() == WithDependency(old(graph.View()), id, dep)
  {
    hide MakeKey;
    var node: DagNode := graph.nodes[MakeKey(id)];
    node.AddDependency(dep);
  }

  method RecordDownstream(graph: DagGraph, id: TaskId, child: TaskId)
    requires graph.Valid() && MakeKey(id) in graph.nodes
    modifies graph.nodes.Values
    ensures graph.Valid() && graph.View() == WithDownstream(old(graph.View()), id, child)
  {
    hide MakeKey;
    var node: DagNode := graph.nodes[MakeKey(id)];
    node.AddDownstream(child);
  }

  /** All dependencies of one spec. */
  method LinkSpec(graph: DagGraph, spec: Spec)
    requires graph.Valid()
    modifies graph, graph.nodes.Values
    ensures graph.Valid() && Grows(graph)
    ensures graph.View() == LinkedAll(Ensured(old(graph.View()), spec.id), spec.id, spec.deps)
  {
    hide MakeKey, Linked;
    var node := graph.EnsureNode(spec.id);
    ghost var mid := graph.View();
    for j := 0 to |spec.deps|
      invariant graph.Valid() && MakeKey(spec.id) in graph.nodes && MakeKey(spec.id) in mid
      invariant graph.View() == LinkedAll(mid, spec.id, spec.deps[..j])
      invariant Grows(graph)
    {
      Link(graph, spec.id, spec.deps[j]);
      assert spec.deps[..j + 1][..j] == spec.deps[..j];
    }
    assert spec.deps[..|spec.deps|] == spec.deps;
  }

  method EnsureSpecs(graph: DagGraph, specs: seq<Spec>)
    requires graph.Valid() && graph.View() == map[]
    modifies graph
    ensures graph.Valid() && Grows(graph) && graph.View() == EnsuredSpecs(specs)
  {
    for i := 0 to |specs|
      invariant graph.Valid() && graph.View() == EnsuredSpecs(specs[..i]) && Grows(graph)
    {
      var node := graph.EnsureNode(specs[i].id);
      assert specs[..i + 1][..i] == specs[..i];
    }
    assert specs[..|specs|] == specs;
  }

  method Build(specs: seq<Spec>) returns (graph: DagGraph)
    ensures fresh(graph) && graph.Valid() && graph.View() == Built(specs)
    ensures forall k :: k in graph.nodes ==> fresh(graph.nodes[k])
  {
    graph := new DagGraph();
    EnsureSpecs(graph, specs);
    ghost var start := graph.View();
    hide EnsuredSpecs, LinkedAll, Ensured;
    for i := 0 to |specs|
      invariant graph.Valid() && graph.View() == LinkedSpecs(start, specs[..i])
      invariant forall k :: k in graph.nodes ==> fresh(graph.nodes[k])
    {
      LinkSpec(graph, specs[i]);
      assert specs[..i + 1][..i] == specs[..i];
    }
    assert specs[..|specs|] == specs;
    graph.RecomputeIndegree();
  }
}
