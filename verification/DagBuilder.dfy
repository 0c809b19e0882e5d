/** `DagBuilder::validate` (server/src/dag/dag_builder.cpp): are all dependencies
    present, and is there no cycle? */
module DagBuilder {
  import opened Graphs

  datatype TaskId = TaskId(value: string, runId: string)

  /** A task as it is handed to the builder; the runner configuration plays no part here. */
  datatype Spec = Spec(id: TaskId, deps: seq<TaskId>)

  datatype ValidateError = NoError | MissingDependency(name: string) | CycleDetected

  datatype ValidateResult = ValidateResult(ok: bool, error: ValidateError, cycleNodes: seq<string>)

  /* ---- what the specs say, independently of how they are checked ---- */

  ghost predicate Declared(specs: seq<Spec>, name: string) {
    exists i :: 0 <= i < |specs| && specs[i].id.value == name
  }

  /** Some spec called `id` lists `dep` among its dependencies. */
  ghost predicate DependsOn(specs: seq<Spec>, id: string, dep: string) {
    exists i, j :: 0 <= i < |specs| && 0 <= j < |specs[i].deps| && specs[i].id.value == id &&
      specs[i].deps[j].value == dep
  }

  ghost predicate AllPresent(specs: seq<Spec>) {
    forall id, dep :: DependsOn(specs, id, dep) ==> Declared(specs, dep)
  }

  /** Each listed task is a dependency of the next one, and the last of the first. */
  ghost predicate DependencyCycle(specs: seq<Spec>, c: seq<string>) {
    && |c| > 0
    && (forall i {:trigger c[i]} :: 0 <= i && i + 1 < |c| ==> DependsOn(specs, c[i + 1], c[i]))
    && DependsOn(specs, c[0], c[|c| - 1])
  }

  /* ---- the adjacency lists ---- */

  function AddEdge(e: Succ, dep: string, id: string): Succ {
    e[dep := (if dep in e then e[dep] else []) + [id]]
  }

  function AddEdges(e: Succ, deps: seq<TaskId>, id: string): Succ {
    if deps == [] then e
    else AddEdge(AddEdges(e, deps[..|deps| - 1], id), deps[|deps| - 1].value, id)
  }

  /** For every dependency name the list of the tasks that name it, in order. */
  function EdgesOf(specs: seq<Spec>): Succ {
    if specs == [] then map[]
    else
      var last := specs[|specs| - 1];
      AddEdges(EdgesOf(specs[..|specs| - 1]), last.deps, last.id.value)
  }

  function IdsOf(specs: seq<Spec>): set<string> {
    set i | 0 <= i < |specs| :: specs[i].id.value
  }

  lemma AddEdgeMeaning(e: Succ, dep: string, id: string, a: string, b: string)
    ensures Edge(AddEdge(e, dep, id), a, b) <==> Edge(e, a, b) || (a == dep && b == id)
  {
  }

  lemma {:induction false} AddEdgesMeaning(e: Succ, deps: seq<TaskId>, id: string, a: string, b: string)
    ensures Edge(AddEdges(e, deps, id), a, b) <==>
              Edge(e, a, b) || (b == id && exists j :: 0 <= j < |deps| && deps[j].value == a)
    decreases |deps|
  {
    if deps != [] {
      var n := |deps| - 1;
      AddEdgesMeaning(e, deps[..n], id, a, b);
      AddEdgeMeaning(AddEdges(e, deps[..n], id), deps[n].value, id, a, b);
      assert forall j :: 0 <= j < n ==> deps[..n][j] == deps[j];
    }
  }

  /** The lists hold exactly the dependency relation. */
  lemma {:induction false} EdgesMeaning(specs: seq<Spec>, a: string, b: string)
    ensures Edge(EdgesOf(specs), a, b) <==> DependsOn(specs, b, a)
    decreases |specs|
  {
    if specs != [] {
      var n := |specs| - 1;
      EdgesMeaning(specs[..n], a, b);
      AddEdgesMeaning(EdgesOf(specs[..n]), specs[n].deps, specs[n].id.value, a, b);
      DependsOnLast(specs, b, a);
    }
  }

  lemma DependsOnLast(specs: seq<Spec>, id: string, dep: string)
    requires specs != []
    ensures var n := |specs| - 1;
            DependsOn(specs, id, dep) <==>
              DependsOn(specs[..n], id, dep) ||
              (specs[n].id.value == id && exists j :: 0 <= j < |specs[n].deps| && specs[n].deps[j].value == dep)
  {
    var n := |specs| - 1;
    assert forall i :: 0 <= i < n ==> specs[..n][i] == specs[i];
    if DependsOn(specs[..n], id, dep) {
      var i, j :| 0 <= i < n && 0 <= j < |specs[..n][i].deps| && specs[..n][i].id.value == id &&
        specs[..n][i].deps[j].value == dep;
      assert specs[i].deps[j].value == dep;
    }
  }

  lemma CycleMeaning(specs: seq<Spec>, c: seq<string>)
    ensures DependencyCycle(specs, c) <==> IsCycle(EdgesOf(specs), c)
  {
    forall a, b ensures Edge(EdgesOf(specs), a, b) <==> DependsOn(specs, b, a) {
      EdgesMeaning(specs, a, b);
    }
  }

  /** Only declared tasks have incoming edges. */
  lemma EdgeTargets(specs: seq<Spec>, a: string, b: string)
    requires Edge(EdgesOf(specs), a, b)
    ensures b in IdsOf(specs)
  {
    EdgesMeaning(specs, a, b);
  }

  /* ---- counting in-edges ---- */

  /** Every declared task's counter shows the number of its dependency entries. */
  ghost predicate Counts(e: Succ, done: map<Id, nat>, indegree: map<string, int>) {
    forall x :: x in indegree ==> indegree[x] == |Open(e, done, x)|
  }

  /** Where the entry added by `AddEdge` stands. */
  function NewPosition(e: Succ, dep: string): (Id, nat) {
    (dep, if dep in e then |e[dep]| else 0)
  }

  lemma AddEdgeOpenAt(e: Succ, dep: string, id: string, x: string, p: string, k: nat)
    ensures (p, k) in Open(AddEdge(e, dep, id), map[], x) <==>
              (p, k) in Open(e, map[], x) || ((p, k) == NewPosition(e, dep) && x == id)
    ensures NewPosition(e, dep) !in Open(e, map[], x)
  {
  }

  lemma AddEdgeOpen(e: Succ, dep: string, id: string, x: string)
    ensures |Open(AddEdge(e, dep, id), map[], x)| == |Open(e, map[], x)| + (if x == id then 1 else 0)
  {
    hide Open, NewPosition;
    var was, now := Open(e, map[], x), Open(AddEdge(e, dep, id), map[], x);
    var extra := if x == id then {NewPosition(e, dep)} else {};
    forall z: (Id, nat) ensures z in now <==> z in was + extra {
      AddEdgeOpenAt(e, dep, id, x, z.0, z.1);
    }
    assert now == was + extra;
    AddEdgeOpenAt(e, dep, id, x, dep, 0);
  }

  /** The loop that fills the two tables. */
  method BuildTables(specs: seq<Spec>, ids: set<string>) returns (edges: Succ, indegree: map<string, int>)
    requires ids == IdsOf(specs)
    ensures edges == EdgesOf(specs) && indegree.Keys == ids && Counts(edges, map[], indegree)
  {
    edges := map[];
    indegree := map x | x in ids :: 0;
    for i := 0 to |specs|
      invariant edges == EdgesOf(specs[..i]) && indegree.Keys == ids && Counts(edges, map[], indegree)
    {
      var id := specs[i].id.value;
      ghost var before := edges;
      for j := 0 to |specs[i].deps|
        invariant edges == AddEdges(before, specs[i].deps[..j], id)
        invariant indegree.Keys == ids && Counts(edges, map[], indegree)
      {
        var dep := specs[i].deps[j].value;
        assert specs[i].deps[..j + 1][..j] == specs[i].deps[..j];
        forall x
          ensures |Open(AddEdge(edges, dep, id), map[], x)| == |Open(edges, map[], x)| + (if x == id then 1 else 0)
        {
          AddEdgeOpen(edges, dep, id, x);
        }
        edges := AddEdge(edges, dep, id);
        indegree := indegree[id := indegree[id] + 1];
      }
      assert specs[i].deps[..|specs[i].deps|] == specs[i].deps;
      assert specs[..i + 1][..i] == specs[..i];
    }
    assert specs[..|specs|] == specs;
  }

  /* ---- Kahn's count ---- */

  function Outs(e: Succ, p: string): seq<string> {
    if p in e then e[p] else []
  }

  /** The tasks with counter zero, in whatever order the table is iterated. */
  method InitialQueue(indegree: map<string, int>) returns (q: seq<string>)
    ensures Distinct(q) && forall x :: x in q <==> x in indegree && indegree[x] == 0
  {
    q := [];
    var rest := indegree.Keys;
    while rest != {}
      invariant rest <= indegree.Keys && Distinct(q)
      invariant forall x :: x in q <==> x in indegree && x !in rest && indegree[x] == 0
      decreases rest
    {
      var x :| x in rest;
      rest := rest - {x};
      if indegree[x] == 0 {
        q := q + [x];
      }
    }
  }

  ghost predicate KahnOk(e: Succ, ids: set<string>, indegree: map<string, int>, done: map<Id, nat>,
                         order: seq<string>, q: seq<string>)
  {
    && indegree.Keys == ids && Counts(e, done, indegree)
    && done.Keys == Elements(order)
    && Distinct(order + q) && Elements(order + q) <= ids
    && (forall x :: x in ids ==> (x in order + q <==> indegree[x] == 0))
    && Topological(e, order)
  }

  /** A popped task has all its predecessors popped before it. */
  lemma PoppedIsTopological(e: Succ, ids: set<string>, indegree: map<string, int>, done: map<Id, nat>,
                            order: seq<string>, q: seq<string>)
    requires KahnOk(e, ids, indegree, done, order, q) && q != []
    ensures Topological(e, order + [q[0]])
  {
    var id := q[0];
    assert id in order + q;
    assert id in Elements(order + q);
    assert Open(e, done, id) == {};
    forall i, y | 0 <= i < |order + [id]| && Edge(e, y, (order + [id])[i]) ensures y in (order + [id])[..i] {
      if i < |order| {
        assert (order + [id])[..i] == order[..i];
      } else {
        var k :| 0 <= k < |e[y]| && e[y][k] == id;
        assert (y, k) !in Open(e, done, id);
        assert (order + [id])[..i] == order;
      }
    }
  }

  lemma CountsAdvance(e: Succ, done: map<Id, nat>, indegree: map<string, int>, p: string)
    requires p in e && p in done && done[p] < |e[p]| && Counts(e, done, indegree) && e[p][done[p]] in indegree
    ensures var nxt := e[p][done[p]];
            Counts(e, done[p := done[p] + 1], indegree[nxt := indegree[nxt] - 1]) && indegree[nxt] > 0
  {
    var nxt := e[p][done[p]];
    forall x | x in indegree ensures indegree[nxt := indegree[nxt] - 1][x] == |Open(e, done[p := done[p] + 1], x)| {
      OpenAdvances(e, done, p, x);
    }
    OpenAdvances(e, done, p, nxt);
    assert |Open(e, done, nxt)| > 0;
  }

  /** A task that was never popped has a predecessor that was never popped. */
  ghost predicate Stuck(e: Succ, order: seq<string>, x: string) {
    exists p :: Edge(e, p, x) && p !in order
  }

  ghost predicate SourcesIn(e: Succ, ids: set<string>) {
    forall a, b :: Edge(e, a, b) ==> a in ids
  }

  /** Kahn's count, whatever the order of the queue: all tasks are counted exactly when no edge comes from
      outside and there is no cycle. */
  method KahnCount(e: Succ, ids: set<string>, initial: map<string, int>) returns (visitedCount: nat)
    requires initial.Keys == ids && Counts(e, map[], initial)
    requires forall a, b :: Edge(e, a, b) ==> b in ids
    ensures visitedCount <= |ids|
    ensures visitedCount == |ids| <==> SourcesIn(e, ids) && Acyclic(e)
  {
    hide KahnOk, Topological, SourcesIn, Acyclic;
    var indegree := initial;
    var q := InitialQueue(indegree);
    visitedCount := 0;
    ghost var order: seq<string> := [];
    ghost var done: map<Id, nat> := map[];
    StartKahn(e, ids, indegree, q);
    while q != []
      invariant KahnOk(e, ids, indegree, done, order, q)
      invariant visitedCount == |order|
      invariant forall p :: p in order ==> p in done && done[p] == |Outs(e, p)|
      decreases |ids| - |order|
    {
      var id := q[0];
      OrderFits(e, ids, indegree, done, order, q);
      PopKahn(e, ids, indegree, done, order, q);
      q := q[1..];
      visitedCount := visitedCount + 1;
      order, done := order + [id], done[id := 0];
      var outs := Outs(e, id);
      for k := 0 to |outs|
        invariant KahnOk(e, ids, indegree, done, order, q)
        invariant id in done && done[id] == k
        invariant forall p :: p in order && p != id ==> p in done && done[p] == |Outs(e, p)|
      {
        var nxt := outs[k];
        assert Edge(e, id, nxt);
        AdvanceKahn(e, ids, indegree, done, order, q, id, k);
        indegree, done := indegree[nxt := indegree[nxt] - 1], done[id := k + 1];
        if indegree[nxt] == 0 {
          q := q + [nxt];
        }
      }
    }
    forall x | x in ids && x !in order ensures Stuck(e, order, x) {
      StuckTask(e, ids, indegree, done, order, x);
    }
    EndKahn(e, ids, indegree, done, order);
    KahnVerdict(e, ids, order);
  }

  lemma KahnVerdict(e: Succ, ids: set<string>, order: seq<string>)
    requires forall a, b :: Edge(e, a, b) ==> b in ids
    requires Distinct(order) && Elements(order) <= ids && Topological(e, order)
    requires forall x :: x in ids && x !in order ==> Stuck(e, order, x)
    ensures |order| <= |ids|
    ensures |order| == |ids| <==> SourcesIn(e, ids) && Acyclic(e)
  {
    hide Edge, Stuck, SourcesIn, Acyclic, Topological;
    DistinctCount(order);
    SubsetCount(Elements(order), ids);
    if |order| == |ids| {
      SortedAll(e, ids, order);
    } else if SourcesIn(e, ids) && Acyclic(e) {
      SortedNotAll(e, ids, order);
    }
  }

  /** Everything was popped. */
  lemma SortedAll(e: Succ, ids: set<string>, order: seq<string>)
    requires forall a, b :: Edge(e, a, b) ==> b in ids
    requires Topological(e, order) && Elements(order) == ids
    ensures SourcesIn(e, ids) && Acyclic(e)
  {
    hide Edge;
    forall a, b | Edge(e, a, b) ensures a in ids {
      assert b in Elements(order);
      var i :| 0 <= i < |order| && order[i] == b;
      assert a in order[..i];
      assert a in Elements(order);
    }
    hide Topological;
    forall c ensures !IsCycle(e, c) {
      if IsCycle(e, c) {
        CycleEdge(e, c, |c| - 1);
        assert c[0] in Elements(order);
        NoCycleThroughTopological(e, order, c, 0);
      }
    }
  }

  /** Something was left over although it could not be. */
  lemma SortedNotAll(e: Succ, ids: set<string>, order: seq<string>)
    requires SourcesIn(e, ids) && Acyclic(e) && Elements(order) <= ids
    requires forall x :: x in ids && x !in order ==> Stuck(e, order, x)
    ensures Elements(order) == ids
  {
    hide Edge, Acyclic;
    var left := set x | x in ids && x !in order;
    forall x | x in left ensures FedFrom(e, left, x) {
      var p :| Edge(e, p, x) && p !in order;
      assert p in left;
    }
    if left != {} {
      var x := AcyclicHasSource(e, left);
      assert false;
    }
    forall x | x in ids ensures x in Elements(order) {
      assert x !in left;
    }
  }

  lemma StartKahn(e: Succ, ids: set<string>, indegree: map<string, int>, q: seq<string>)
    requires indegree.Keys == ids && Counts(e, map[], indegree)
    requires Distinct(q) && forall x :: x in q <==> x in indegree && indegree[x] == 0
    ensures KahnOk(e, ids, indegree, map[], [], q)
  {
    assert [] + q == q;
  }

  lemma EndKahn(e: Succ, ids: set<string>, indegree: map<string, int>, done: map<Id, nat>, order: seq<string>)
    requires KahnOk(e, ids, indegree, done, order, [])
    ensures Distinct(order) && Elements(order) <= ids && Topological(e, order)
  {
    assert order + [] == order;
  }

  /** One edge of the task in hand is dealt with. */
  lemma AdvanceKahn(e: Succ, ids: set<string>, indegree: map<string, int>, done: map<Id, nat>, order: seq<string>,
                    q: seq<string>, id: string, k: nat)
    requires KahnOk(e, ids, indegree, done, order, q) && id in e && id in done && done[id] == k && k < |e[id]| &&
             e[id][k] in ids
    ensures var nxt := e[id][k];
            nxt in indegree &&
            var left := indegree[nxt := indegree[nxt] - 1];
            KahnOk(e, ids, left, done[id := k + 1], order, if left[nxt] == 0 then q + [nxt] else q)
  {
    var nxt := e[id][k];
    CountsAdvance(e, done, indegree, id);
    assert nxt !in order + q;
    PushKahn(order, q, nxt);
    assert forall x :: x in order + (q + [nxt]) <==> x in order + q || x == nxt;
    hide Topological, Counts, Distinct;
  }

  lemma PopKahn(e: Succ, ids: set<string>, indegree: map<string, int>, done: map<Id, nat>, order: seq<string>,
                q: seq<string>)
    requires KahnOk(e, ids, indegree, done, order, q) && q != []
    ensures KahnOk(e, ids, indegree, done[q[0] := 0], order + [q[0]], q[1..])
    ensures q[0] !in order
  {
    var id := q[0];
    assert (order + [id]) + q[1..] == order + q;
    PoppedIsTopological(e, ids, indegree, done, order, q);
    assert id !in order by {
      assert (order + q)[|order|] == id;
      assert forall i :: 0 <= i < |order| ==> (order + q)[i] == order[i];
    }
    assert Elements(order + [id]) == Elements(order) + {id};
    forall x ensures Open(e, done[id := 0], x) == Open(e, done, x) {
    }
  }

  lemma PushKahn(order: seq<string>, q: seq<string>, nxt: string)
    requires Distinct(order + q) && nxt !in order + q
    ensures Distinct(order + (q + [nxt])) && Elements(order + (q + [nxt])) == Elements(order + q) + {nxt}
  {
    assert order + (q + [nxt]) == (order + q) + [nxt];
  }

  lemma OrderFits(e: Succ, ids: set<string>, indegree: map<string, int>, done: map<Id, nat>, order: seq<string>,
                  q: seq<string>)
    requires KahnOk(e, ids, indegree, done, order, q)
    ensures |order| + |q| <= |ids|
  {
    DistinctCount(order + q);
    SubsetCount(Elements(order + q), ids);
  }

  lemma StuckTask(e: Succ, ids: set<string>, indegree: map<string, int>, done: map<Id, nat>, order: seq<string>,
                  x: string)
    requires KahnOk(e, ids, indegree, done, order, []) && x in ids && x !in order
    requires forall p :: p in order ==> p in done && done[p] == |Outs(e, p)|
    ensures Stuck(e, order, x)
  {
    assert x !in order + [];
    assert indegree[x] != 0;
    var pk :| pk in Open(e, done, x);
    assert Edge(e, pk.0, x) && pk.0 !in order;
  }
}
