/** The queue pass of the canvas layout (client/src/tasks/layout_task.cpp): it
    gives every node the length of the longest path that leads to it. */
module LayoutLevels {
  import opened TaskCommon
  import opened Graphs
  import opened DagBuilder

  /** A line on the canvas; either end may be unattached. */
  datatype Line = Line(start: Option<Id>, end: Option<Id>)

  /* ---- who is joined to whom ---- */

  ghost predicate Joined(nodes: seq<Id>, lines: seq<Line>, a: Id, b: Id) {
    a in nodes && b in nodes && exists i :: 0 <= i < |lines| && lines[i] == Line(Some(a), Some(b))
  }

  /** `children` and `parents` hold the joined pairs, each once. */
  ghost predicate InfoOk(nodes: seq<Id>, lines: seq<Line>, children: Succ, parents: map<Id, set<Id>>) {
    && children.Keys == Elements(nodes) && parents.Keys == Elements(nodes)
    && (forall a, b :: Edge(children, a, b) <==> Joined(nodes, lines, a, b))
    && (forall a :: a in children ==> Distinct(children[a]))
    && (forall a, b :: b in parents ==> (a in parents[b] <==> Edge(children, a, b)))
  }

  function AddChild(children: Succ, src: Id, dst: Id): Succ
    requires src in children
  {
    if dst in children[src] then children else children[src := children[src] + [dst]]
  }

  lemma AddChildEdge(children: Succ, src: Id, dst: Id, a: Id, b: Id)
    requires src in children
    ensures Edge(AddChild(children, src, dst), a, b) <==> Edge(children, a, b) || (a == src && b == dst)
  {
  }

  lemma AddLine(nodes: seq<Id>, lines: seq<Line>, i: nat, children: Succ, parents: map<Id, set<Id>>, src: Id, dst: Id)
    requires i < |lines| && lines[i] == Line(Some(src), Some(dst)) && src in nodes && dst in nodes
    requires InfoOk(nodes, lines[..i], children, parents)
    ensures src in children && dst in parents
    ensures InfoOk(nodes, lines[..i + 1], AddChild(children, src, dst), parents[dst := parents[dst] + {src}])
  {
    forall a, b ensures Edge(AddChild(children, src, dst), a, b) <==> Joined(nodes, lines[..i + 1], a, b) {
      AddChildEdge(children, src, dst, a, b);
      JoinedMore(nodes, lines, i, a, b);
    }
    hide Joined;
    forall a, b | b in parents
      ensures a in parents[dst := parents[dst] + {src}][b] <==> Edge(AddChild(children, src, dst), a, b)
    {
      AddChildEdge(children, src, dst, a, b);
    }
    hide Edge;
  }

  lemma SkipLine(nodes: seq<Id>, lines: seq<Line>, i: nat, children: Succ, parents: map<Id, set<Id>>)
    requires i < |lines| && InfoOk(nodes, lines[..i], children, parents)
    requires forall a, b :: a in nodes && b in nodes ==> lines[i] != Line(Some(a), Some(b))
    ensures InfoOk(nodes, lines[..i + 1], children, parents)
  {
    forall a, b ensures Joined(nodes, lines[..i + 1], a, b) <==> Joined(nodes, lines[..i], a, b) {
      JoinedMore(nodes, lines, i, a, b);
    }
    hide Joined, Edge;
  }

  /** Children and parents as sets: a repeated line counts once, an unattached one not at all. */
  method BuildInfo(nodes: seq<Id>, lines: seq<Line>) returns (children: Succ, parents: map<Id, set<Id>>)
    ensures InfoOk(nodes, lines, children, parents)
  {
    children := map n | n in nodes :: [];
    parents := map n | n in nodes :: {};
    for i := 0 to |lines|
      invariant InfoOk(nodes, lines[..i], children, parents)
    {
      hide InfoOk;
      var line := lines[i];
      if line.start.Some? && line.end.Some? && line.start.value in nodes && line.end.value in nodes {
        var src, dst := line.start.value, line.end.value;
        AddLine(nodes, lines, i, children, parents, src, dst);
        children := AddChild(children, src, dst);
        parents := parents[dst := parents[dst] + {src}];
      } else {
        SkipLine(nodes, lines, i, children, parents);
      }
    }
    assert lines[..|lines|] == lines;
  }

  lemma JoinedMore(nodes: seq<Id>, lines: seq<Line>, i: nat, a: Id, b: Id)
    requires i < |lines|
    ensures Joined(nodes, lines[..i + 1], a, b) <==>
              Joined(nodes, lines[..i], a, b) || (a in nodes && b in nodes && lines[i] == Line(Some(a), Some(b)))
  {
    assert forall j :: 0 <= j < i ==> lines[..i + 1][j] == lines[..i][j];
    if Joined(nodes, lines[..i], a, b) {
      var j :| 0 <= j < i && lines[..i][j] == Line(Some(a), Some(b));
      assert lines[..i + 1][j] == Line(Some(a), Some(b));
    }
    assert lines[..i + 1][i] == lines[i];
  }

  /** As the successor lists have no repetitions, counting parents counts edges. */
  lemma ParentsAreEdges(children: Succ, ps: set<Id>, b: Id)
    requires forall a :: a in children ==> Distinct(children[a])
    requires forall a :: a in ps <==> Edge(children, a, b)
    ensures |ps| == |Open(children, map[], b)|
  {
    var open := Open(children, map[], b);
    var sources := set x | x in open :: x.0;
    forall a ensures a in ps <==> a in sources {
      if a in ps {
        var k :| 0 <= k < |children[a]| && children[a][k] == b;
        assert (a, k) in open;
      }
    }
    assert ps == sources;
    InjectiveCount(open);
  }

  lemma {:induction false} InjectiveCount(s: set<(Id, nat)>)
    requires forall x, y :: x in s && y in s && x.0 == y.0 ==> x == y
    ensures |set x | x in s :: x.0| == |s|
    decreases |s|
  {
    if s != {} {
      var z :| z in s;
      var r := s - {z};
      InjectiveCount(r);
      var a, b := set x | x in s :: x.0, set x | x in r :: x.0;
      assert a == b + {z.0};
      assert z.0 !in b;
    }
  }

  /* ---- longest paths ---- */

  ghost predicate EndsIn(e: Succ, p: seq<Id>, x: Id) {
    |p| > 0 && p[|p| - 1] == x && IsPath(e, p)
  }

  /** `len` nodes are on the longest path that ends in `x`. */
  ghost predicate Longest(e: Succ, x: Id, len: int) {
    && (exists p :: EndsIn(e, p, x) && |p| == len)
    && (forall p :: EndsIn(e, p, x) ==> |p| <= len)
  }

  function LevelOf(level: map<Id, int>, x: Id): int {
    if x in level then level[x] else 1
  }

  ghost predicate HasPath(e: Succ, x: Id, len: int) {
    exists p :: EndsIn(e, p, x) && |p| == len
  }

  lemma PathOfOne(e: Succ, x: Id)
    ensures HasPath(e, x, 1)
  {
    assert EndsIn(e, [x], x);
  }

  lemma PathExtends(e: Succ, x: Id, y: Id, len: int)
    requires HasPath(e, x, len) && Edge(e, x, y)
    ensures HasPath(e, y, len + 1)
  {
    var p :| EndsIn(e, p, x) && |p| == len;
    var q := p + [y];
    forall i | 0 <= i && i + 1 < |q| ensures Edge(e, q[i], q[i + 1]) {
      assert q[i] == p[i];
      if i + 1 < |p| { assert q[i + 1] == p[i + 1]; }
    }
    assert EndsIn(e, q, y);
  }

  /** Every edge dealt with so far goes up at least one level. */
  ghost predicate Rises(e: Succ, done: map<Id, nat>, level: map<Id, int>) {
    forall p, k :: p in e && p in done && 0 <= k < |e[p]| && k < done[p] ==>
        LevelOf(level, p) + 1 <= LevelOf(level, e[p][k])
  }

  ghost predicate Witnessed(e: Succ, level: map<Id, int>) {
    forall x :: HasPath(e, x, LevelOf(level, x))
  }

  /** Among fully dealt-with nodes closed under predecessors no path beats the level. */
  lemma {:induction false} PathBound(e: Succ, done: map<Id, nat>, level: map<Id, int>, order: seq<Id>, p: seq<Id>)
    requires Topological(e, order) && Rises(e, done, level) && Witnessed(e, level)
    requires forall x :: x in order ==> x in done && done[x] == |Outs(e, x)|
    requires |p| > 0 && IsPath(e, p) && p[|p| - 1] in order
    ensures |p| <= LevelOf(level, p[|p| - 1])
    decreases |p|
  {
    var last := |p| - 1;
    if last == 0 {
      assert HasPath(e, p[0], LevelOf(level, p[0]));
    } else {
      assert Edge(e, p[last - 1], p[last]);
      var i :| 0 <= i < |order| && order[i] == p[last];
      assert p[last - 1] in order[..i];
      PathPrefix(e, p, last);
      PathBound(e, done, level, order, p[..last]);
      var k :| 0 <= k < |e[p[last - 1]]| && e[p[last - 1]][k] == p[last];
    }
  }

  lemma PoppedIsLongest(e: Succ, done: map<Id, nat>, level: map<Id, int>, order: seq<Id>, x: Id)
    requires Topological(e, order) && Rises(e, done, level) && Witnessed(e, level) && x in order
    requires forall y :: y in order ==> y in done && done[y] == |Outs(e, y)|
    ensures Longest(e, x, LevelOf(level, x))
  {
    assert HasPath(e, x, LevelOf(level, x));
    forall p | EndsIn(e, p, x) ensures |p| <= LevelOf(level, x) {
      PathBound(e, done, level, order, p);
    }
  }

  /** A level above the first is one more than that of some node dealt with before. */
  ghost predicate Attained(e: Succ, done: map<Id, nat>, level: map<Id, int>) {
    forall x :: LevelOf(level, x) == 1 || LiftedBy(e, done, level, x)
  }

  ghost predicate LiftedBy(e: Succ, done: map<Id, nat>, level: map<Id, int>, x: Id) {
    exists p :: p in done && Edge(e, p, x) && LevelOf(level, p) + 1 == LevelOf(level, x)
  }

  /** The level of `x` is one more than the highest level among the reached nodes above it, or 1 if there is none. */
  ghost predicate OneAbove(e: Succ, reached: set<Id>, level: map<Id, int>, x: Id) {
    && (forall p :: p in reached && Edge(e, p, x) ==> LevelOf(level, p) + 1 <= LevelOf(level, x))
    && (LevelOf(level, x) == 1 ||
        exists p :: p in reached && Edge(e, p, x) && LevelOf(level, p) + 1 == LevelOf(level, x))
  }

  /** `x` is on a cycle or below one. */
  ghost predicate CycleAbove(e: Succ, x: Id) {
    exists c, i :: IsCycle(e, c) && 0 <= i < |c| && (c[i] == x || Ancestor(e, c[i], x))
  }

  /* ---- the queue pass ---- */

  /** What the pass keeps about the levels handed out so far. */
  ghost predicate LevelsOk(e: Succ, ids: set<Id>, done: map<Id, nat>, level: map<Id, int>, maxLevel: int) {
    && Rises(e, done, level) && Witnessed(e, level) && Attained(e, done, level)
    && maxLevel >= 1 && (forall x :: LevelOf(level, x) <= maxLevel) && level.Keys <= ids
  }

  ghost predicate AllDealt(e: Succ, done: map<Id, nat>, order: seq<Id>) {
    forall p :: p in order ==> p in done && done[p] == |Outs(e, p)|
  }

  /** Node by node: raise the children's levels and count down their parents. */
  method QueuePass(nodes: seq<Id>, lines: seq<Line>, e: Succ, parents: map<Id, set<Id>>)
    returns (level: map<Id, int>, maxLevel: int, ghost order: seq<Id>)
    requires InfoOk(nodes, lines, e, parents)
    ensures forall x :: x in order <==> x in nodes && !CycleAbove(e, x)
    ensures forall x :: x in order ==> Longest(e, x, LevelOf(level, x))
    ensures forall x :: OneAbove(e, Elements(order), level, x)
    ensures maxLevel >= 1 && forall x :: 1 <= LevelOf(level, x) <= maxLevel
    ensures level.Keys <= Elements(nodes)
  {
    hide KahnOk, Topological, Longest, Distinct, Stuck, LevelsOk, AllDealt, Counts, OneAbove, CycleAbove;
    var indegree := map n | n in nodes && n in parents :: |parents[n]|;
    var queue := InitialQueue(indegree);
    level := map n | n in queue :: 1;
    maxLevel, order := 1, [];
    ghost var done: map<Id, nat> := map[];
    ghost var ids := Elements(nodes);
    StartLevels(nodes, lines, e, parents, indegree, level);
    StartKahn(e, ids, indegree, queue);
    InfoTargets(nodes, lines, e, parents);
    hide InfoOk;
    while queue != []
      invariant KahnOk(e, ids, indegree, done, order, queue) && AllDealt(e, done, order) &&
                LevelsOk(e, ids, done, level, maxLevel)
      decreases |ids| - |order|
    {
      var node := queue[0];
      OrderFits(e, ids, indegree, done, order, queue);
      PopKahn(e, ids, indegree, done, order, queue);
      PopLevels(e, ids, done, order, level, maxLevel, node);
      ghost var popped := order;
      order, done := order + [node], done[node := 0];
      indegree, queue, level, maxLevel, done :=
        VisitChildren(e, ids, node, indegree, queue[1..], level, maxLevel, done, order, popped);
      PoppedDealt(e, done, popped, node);
    }
    EndKahn(e, ids, indegree, done, order);
    EndLevels(e, ids, indegree, done, order, level, maxLevel);
    forall x ensures x in order <==> x in nodes && !CycleAbove(e, x) {
      if x in nodes {
        ReachedExactly(e, ids, order, x);
      } else {
        assert x !in Elements(order);
      }
    }
  }

  /** The inner loop, over the children of one node. */
  method VisitChildren(e: Succ, ghost ids: set<Id>, node: Id, indegree0: map<Id, int>, queue0: seq<Id>,
                       level0: map<Id, int>, maxLevel0: int, ghost done0: map<Id, nat>, ghost order: seq<Id>,
                       ghost popped: seq<Id>)
    returns (indegree: map<Id, int>, queue: seq<Id>, level: map<Id, int>, maxLevel: int, ghost done: map<Id, nat>)
    requires KahnOk(e, ids, indegree0, done0, order, queue0) && AllDealt(e, done0, popped) &&
             LevelsOk(e, ids, done0, level0, maxLevel0)
    requires node in done0 && done0[node] == 0 && node !in popped && forall a, b :: Edge(e, a, b) ==> b in ids
    ensures KahnOk(e, ids, indegree, done, order, queue) && AllDealt(e, done, popped) &&
            LevelsOk(e, ids, done, level, maxLevel)
    ensures node in done && done[node] == |Outs(e, node)|
  {
    hide KahnOk, LevelsOk, AllDealt;
    indegree, queue, level, maxLevel, done := indegree0, queue0, level0, maxLevel0, done0;
    var base := LevelOf(level, node);
    var outs := Outs(e, node);
    for k := 0 to |outs|
      invariant KahnOk(e, ids, indegree, done, order, queue) && AllDealt(e, done, popped) &&
                LevelsOk(e, ids, done, level, maxLevel)
      invariant node in done && done[node] == k && LevelOf(level, node) == base
    {
      var child := outs[k];
      assert Edge(e, node, child) && child in ids;
      var nextLevel := base + 1;
      UnpoppedChild(e, ids, indegree, done, order, queue, node, k);
      RaiseKeeps(e, ids, done, level, maxLevel, node, k);
      AdvanceKahn(e, ids, indegree, done, order, queue, node, k);
      AdvanceDealt(e, done, popped, node, k + 1);
      if LevelOf(level, child) < nextLevel {
        level := level[child := nextLevel];
        maxLevel := if maxLevel < nextLevel then nextLevel else maxLevel;
      }
      indegree, done := indegree[child := indegree[child] - 1], done[node := k + 1];
      if indegree[child] == 0 {
        queue := queue + [child];
      }
    }
  }

  lemma InfoTargets(nodes: seq<Id>, lines: seq<Line>, e: Succ, parents: map<Id, set<Id>>)
    requires InfoOk(nodes, lines, e, parents)
    ensures forall a, b :: Edge(e, a, b) ==> a in Elements(nodes) && b in Elements(nodes)
  {
  }

  lemma StartLevels(nodes: seq<Id>, lines: seq<Line>, e: Succ, parents: map<Id, set<Id>>, indegree: map<Id, int>,
                    level: map<Id, int>)
    requires InfoOk(nodes, lines, e, parents)
    requires indegree.Keys == Elements(nodes)
    requires forall n :: n in indegree ==> n in parents && indegree[n] == |parents[n]|
    requires level.Keys <= Elements(nodes) && forall n :: n in level ==> level[n] == 1
    ensures Counts(e, map[], indegree) && AllDealt(e, map[], []) && LevelsOk(e, Elements(nodes), map[], level, 1)
  {
    forall x | x in indegree ensures indegree[x] == |Open(e, map[], x)| {
      ParentsAreEdges(e, parents[x], x);
    }
    forall x ensures HasPath(e, x, LevelOf(level, x)) {
      PathOfOne(e, x);
    }
  }

  lemma PopLevels(e: Succ, ids: set<Id>, done: map<Id, nat>, order: seq<Id>, level: map<Id, int>, maxLevel: int,
                  node: Id)
    requires LevelsOk(e, ids, done, level, maxLevel) && AllDealt(e, done, order) && node !in order
    ensures LevelsOk(e, ids, done[node := 0], level, maxLevel) && AllDealt(e, done[node := 0], order)
  {
    hide Witnessed, Attained;
    PopAttained(e, done, level, node);
  }

  lemma PopAttained(e: Succ, done: map<Id, nat>, level: map<Id, int>, node: Id)
    requires Attained(e, done, level)
    ensures Attained(e, done[node := 0], level)
  {
    hide Edge, LevelOf;
    forall x ensures LevelOf(level, x) == 1 || LiftedBy(e, done[node := 0], level, x) {
      if LevelOf(level, x) != 1 {
        assert LiftedBy(e, done, level, x);
      }
    }
  }

  lemma AdvanceDealt(e: Succ, done: map<Id, nat>, popped: seq<Id>, node: Id, k: nat)
    requires AllDealt(e, done, popped) && node !in popped
    ensures AllDealt(e, done[node := k], popped)
  {
  }

  lemma PoppedDealt(e: Succ, done: map<Id, nat>, popped: seq<Id>, node: Id)
    requires AllDealt(e, done, popped) && node in done && done[node] == |Outs(e, node)|
    ensures AllDealt(e, done, popped + [node])
  {
  }

  lemma EndLevels(e: Succ, ids: set<Id>, indegree: map<Id, int>, done: map<Id, nat>, order: seq<Id>,
                  level: map<Id, int>, maxLevel: int)
    requires KahnOk(e, ids, indegree, done, order, []) && AllDealt(e, done, order) &&
             LevelsOk(e, ids, done, level, maxLevel)
    ensures forall x :: x in order ==> Longest(e, x, LevelOf(level, x))
    ensures forall x :: x in ids && x !in order ==> Stuck(e, order, x)
    ensures forall x :: OneAbove(e, Elements(order), level, x)
    ensures maxLevel >= 1 && (forall x :: 1 <= LevelOf(level, x) <= maxLevel) && level.Keys <= ids
  {
    forall x | x in order ensures Longest(e, x, LevelOf(level, x)) {
      PoppedIsLongest(e, done, level, order, x);
    }
    forall x | x in ids && x !in order ensures Stuck(e, order, x) {
      StuckTask(e, ids, indegree, done, order, x);
    }
    forall x ensures 1 <= LevelOf(level, x) {
      assert HasPath(e, x, LevelOf(level, x));
    }
    hide Witnessed, Longest, Stuck;
    DoneIsOrder(e, ids, indegree, done, order);
    forall x ensures OneAbove(e, Elements(order), level, x) {
      EndsAbove(e, done, order, level, x);
    }
  }

  lemma DoneIsOrder(e: Succ, ids: set<Id>, indegree: map<Id, int>, done: map<Id, nat>, order: seq<Id>)
    requires KahnOk(e, ids, indegree, done, order, [])
    ensures done.Keys == Elements(order)
  {
  }

  lemma EndsAbove(e: Succ, done: map<Id, nat>, order: seq<Id>, level: map<Id, int>, x: Id)
    requires AllDealt(e, done, order) && Rises(e, done, level) && Attained(e, done, level) &&
             done.Keys == Elements(order)
    ensures OneAbove(e, Elements(order), level, x)
  {
    forall p | p in Elements(order) && Edge(e, p, x) ensures LevelOf(level, p) + 1 <= LevelOf(level, x) {
      var k :| 0 <= k < |e[p]| && e[p][k] == x;
      assert k < done[p];
    }
    if LevelOf(level, x) != 1 {
      assert LiftedBy(e, done, level, x);
    }
  }

  /** The queue reaches exactly the nodes that are neither on a cycle nor below one. */
  lemma ReachedExactly(e: Succ, ids: set<Id>, order: seq<Id>, x: Id)
    requires Topological(e, order) && Elements(order) <= ids && x in ids
    requires forall a, b :: Edge(e, a, b) ==> a in ids
    requires forall y :: y in ids && y !in order ==> Stuck(e, order, y)
    ensures x in order <==> !CycleAbove(e, x)
  {
    hide Ancestor, IsCycle, Edge, Stuck;
    if x in order && CycleAbove(e, x) {
      var c, i :| IsCycle(e, c) && 0 <= i < |c| && (c[i] == x || Ancestor(e, c[i], x));
      if c[i] != x {
        ReachedAncestor(e, order, c[i], x);
      }
      NoCycleThroughTopological(e, order, c, i);
      assert false;
    }
    if x !in order {
      UnreachedCycle(e, ids, order, x);
    }
  }

  lemma ReachedAncestor(e: Succ, order: seq<Id>, a: Id, x: Id)
    requires Topological(e, order) && x in order && Ancestor(e, a, x)
    ensures a in order
  {
    var p :| Connects(e, p, a, x);
    hide Ancestor, Edge;
    forall u, v | v in Elements(order) && Edge(e, u, v) ensures u in Elements(order) {
      var i :| 0 <= i < |order| && order[i] == v;
      assert u in order[..i];
    }
    PredecessorClosedPath(e, Elements(order), p);
  }

  /** `x` itself and what is above it, as far as the queue has not come. */
  ghost function UnreachedAbove(e: Succ, ids: set<Id>, order: seq<Id>, x: Id): set<Id> {
    set y | y in ids && y !in order && (y == x || Ancestor(e, y, x))
  }

  lemma UnreachedCycle(e: Succ, ids: set<Id>, order: seq<Id>, x: Id)
    requires x in ids && x !in order
    requires forall a, b :: Edge(e, a, b) ==> a in ids
    requires forall y :: y in ids && y !in order ==> Stuck(e, order, y)
    ensures CycleAbove(e, x)
  {
    hide Ancestor, IsCycle, Edge, Stuck, FedFrom;
    var left := UnreachedAbove(e, ids, order, x);
    forall y | y in left ensures FedFrom(e, left, y) {
      UnreachedParent(e, ids, order, x, y);
    }
    var c := CycleWithin(e, left, x);
    assert c[0] == x || Ancestor(e, c[0], x);
  }

  lemma CycleWithin(e: Succ, left: set<Id>, x: Id) returns (c: seq<Id>)
    requires x in left && forall y :: y in left ==> FedFrom(e, left, y)
    ensures IsCycle(e, c) && 0 < |c| && c[0] in left
  {
    hide IsCycle, FedFrom, Distinct, IsPath;
    PathOfNode(e, x);
    c := WalkBack(e, left, [x]);
    CycleIsNotEmpty(e, c);
    assert c[0] in Elements(c);
  }

  lemma UnreachedParent(e: Succ, ids: set<Id>, order: seq<Id>, x: Id, y: Id)
    requires y in UnreachedAbove(e, ids, order, x) && Stuck(e, order, y)
    requires forall a, b :: Edge(e, a, b) ==> a in ids
    ensures FedFrom(e, UnreachedAbove(e, ids, order, x), y)
  {
    hide Ancestor, Edge;
    var p :| Edge(e, p, y) && p !in order;
    AncestorPrepend(e, p, y, x);
    assert p in UnreachedAbove(e, ids, order, x);
  }

  lemma PathOfNode(e: Succ, x: Id)
    ensures IsPath(e, [x]) && Distinct([x]) && Elements([x]) == {x}
  {
  }

  lemma CycleIsNotEmpty(e: Succ, c: seq<Id>)
    requires IsCycle(e, c)
    ensures |c| > 0
  {
  }

  /** The child has an open edge, so it was not popped: its level is still free to rise. */
  lemma UnpoppedChild(e: Succ, ids: set<Id>, indegree: map<Id, int>, done: map<Id, nat>, order: seq<Id>, q: seq<Id>,
                      node: Id, k: nat)
    requires KahnOk(e, ids, indegree, done, order, q) && node in e && node in done && done[node] == k &&
             k < |e[node]| && e[node][k] in ids
    ensures e[node][k] !in done
  {
    CountsAdvance(e, done, indegree, node);
    assert e[node][k] !in order + q;
    assert e[node][k] !in Elements(order);
  }

  function Raised(level: map<Id, int>, child: Id, next: int): map<Id, int> {
    if LevelOf(level, child) < next then level[child := next] else level
  }

  lemma RaiseWitnessed(e: Succ, level: map<Id, int>, node: Id, child: Id)
    requires Witnessed(e, level) && Edge(e, node, child)
    ensures Witnessed(e, Raised(level, child, LevelOf(level, node) + 1))
  {
    var raised := Raised(level, child, LevelOf(level, node) + 1);
    assert HasPath(e, node, LevelOf(level, node));
    PathExtends(e, node, child, LevelOf(level, node));
    hide HasPath;
    forall x ensures HasPath(e, x, LevelOf(raised, x)) {
      assert HasPath(e, x, LevelOf(level, x));
    }
  }

  lemma RaiseRises(e: Succ, done: map<Id, nat>, level: map<Id, int>, node: Id, k: nat)
    requires Rises(e, done, level) && node in e && node in done && done[node] == k && k < |e[node]| &&
             e[node][k] !in done
    ensures Rises(e, done[node := k + 1], Raised(level, e[node][k], LevelOf(level, node) + 1))
  {
  }

  lemma RaiseAttained(e: Succ, done: map<Id, nat>, level: map<Id, int>, node: Id, k: nat)
    requires Attained(e, done, level) && node in e && node in done && k < |e[node]| && e[node][k] !in done
    ensures Attained(e, done[node := k + 1], Raised(level, e[node][k], LevelOf(level, node) + 1))
  {
    var child := e[node][k];
    var raised, now := Raised(level, child, LevelOf(level, node) + 1), done[node := k + 1];
    assert Edge(e, node, child);
    forall x ensures LevelOf(raised, x) == 1 || LiftedBy(e, now, raised, x) {
      if x == child && LevelOf(raised, x) != LevelOf(level, x) {
        assert node in now && LevelOf(raised, node) + 1 == LevelOf(raised, x);
      } else if LevelOf(level, x) != 1 {
        assert LiftedBy(e, done, level, x);
        var p :| p in done && Edge(e, p, x) && LevelOf(level, p) + 1 == LevelOf(level, x);
        assert p in now && LevelOf(raised, p) + 1 == LevelOf(raised, x);
      }
    }
  }

  lemma RaiseKeeps(e: Succ, ids: set<Id>, done: map<Id, nat>, level: map<Id, int>, maxLevel: int, node: Id, k: nat)
    requires LevelsOk(e, ids, done, level, maxLevel) && node in e && node in done && done[node] == k && k < |e[node]|
    requires e[node][k] !in done && e[node][k] in ids
    ensures var child, next := e[node][k], LevelOf(level, node) + 1;
            var top := if LevelOf(level, child) < next && maxLevel < next then next else maxLevel;
            LevelsOk(e, ids, done[node := k + 1], Raised(level, child, next), top) &&
            LevelOf(Raised(level, child, next), node) == LevelOf(level, node)
  {
    var child := e[node][k];
    assert Edge(e, node, child);
    hide Witnessed, Rises, Attained, Edge, LevelOf, Raised;
    RaiseWitnessed(e, level, node, child);
    RaiseRises(e, done, level, node, k);
    RaiseAttained(e, done, level, node, k);
    RaiseTop(ids, level, maxLevel, child, LevelOf(level, node) + 1, node);
  }

  lemma RaiseTop(ids: set<Id>, level: map<Id, int>, maxLevel: int, child: Id, next: int, node: Id)
    requires maxLevel >= 1 && (forall x :: LevelOf(level, x) <= maxLevel) && level.Keys <= ids && child in ids
    ensures var top := if LevelOf(level, child) < next && maxLevel < next then next else maxLevel;
            top >= 1 && (forall x :: LevelOf(Raised(level, child, next), x) <= top) &&
              Raised(level, child, next).Keys <= ids
    ensures node != child ==> LevelOf(Raised(level, child, next), node) == LevelOf(level, node)
  {
    var raised := Raised(level, child, next);
    assert forall x :: x != child ==> LevelOf(raised, x) == LevelOf(level, x);
  }

  /** For acyclic lines every node is reached. */
  lemma AcyclicReachesAll(e: Succ, x: Id)
    requires Acyclic(e)
    ensures !CycleAbove(e, x)
  {
    hide IsCycle;
  }
}
