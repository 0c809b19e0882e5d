/** The canvas layout as a whole (client/src/tasks/layout_task.cpp), told from the shapes of the items and the lines. */
module LayoutColumns {
  import opened Graphs
  import opened LayoutLevels
  import opened LayoutOverflow

  /** What the layout is given of a canvas item; the rest comes from the lines. */
  datatype Shape = Shape(container: bool, height: real, key: int)

  type Shapes = map<Id, Shape>

  /** The slots an item takes in its column: one for a plain node; for a container the standard heights of 150 that it
      takes to hold it, as far as four. */
  function Rows(s: Shape): (r: int)
    ensures 1 <= r <= 4
    ensures !s.container ==> r == 1
    ensures s.container && r > 1 ==> s.height > 150.0 * (r - 1) as real
    ensures s.container && r < 4 ==> s.height <= 150.0 * r as real
  {
    if !s.container || s.height <= 150.0 then 1
    else if s.height <= 300.0 then 2
    else if s.height <= 450.0 then 3
    else 4
  }

  function RowsIn(shapes: Shapes, column: seq<Id>): (r: int)
    requires forall n <- column :: n in shapes
    ensures r >= |column|
  {
    if column == [] then 0 else Rows(shapes[column[0]]) + RowsIn(shapes, column[1..])
  }

  /** What four slots allow: at most four nodes, and no two that take more than four between them. */
  lemma {:induction false} ColumnLimits(shapes: Shapes, column: seq<Id>, i: nat, j: nat)
    requires forall n <- column :: n in shapes
    requires i < j < |column|
    ensures |column| <= RowsIn(shapes, column)
    ensures Rows(shapes[column[i]]) + Rows(shapes[column[j]]) <= RowsIn(shapes, column)
    decreases |column|
  {
    if i > 0 {
      ColumnLimits(shapes, column[1..], i - 1, j - 1);
    } else {
      OneOfColumn(shapes, column[1..], j - 1);
    }
  }

  lemma {:induction false} OneOfColumn(shapes: Shapes, column: seq<Id>, j: nat)
    requires forall n <- column :: n in shapes
    requires j < |column|
    ensures Rows(shapes[column[j]]) <= RowsIn(shapes, column)
    decreases |column|
  {
    if j > 0 {
      OneOfColumn(shapes, column[1..], j - 1);
    }
  }

  /* ---- the two orders ---- */

  /** `a` is shown no later than `b`: it has more children, or as many and no greater key. */
  predicate ShownFirst(shapes: Shapes, children: Succ, a: Id, b: Id)
    requires a in shapes && b in shapes && a in children && b in children
  {
    |children[a]| > |children[b]| || (|children[a]| == |children[b]| && shapes[a].key <= shapes[b].key)
  }

  /** `a` is pushed on no later than `b`: it has fewer children, or as many and no greater key. */
  predicate PushedFirst(shapes: Shapes, children: Succ, a: Id, b: Id)
    requires a in shapes && b in shapes && a in children && b in children
  {
    |children[a]| < |children[b]| || (|children[a]| == |children[b]| && shapes[a].key <= shapes[b].key)
  }

  /* ---- what the layout promises ---- */

  ghost predicate Known(shapes: Shapes, children: Succ, nodes: seq<Id>) {
    forall n <- nodes :: n in shapes && n in children && Distinct(children[n])
  }

  /** Every node stands in exactly one column, once, and no column is empty. */
  ghost predicate Partition(nodes: seq<Id>, finals: Buckets, at: map<Id, int>) {
    && (forall n <- nodes :: n in at && at[n] in finals && n in finals[at[n]])
    && (forall l, n :: l in finals && n in finals[l] ==> n in nodes && n in at && at[n] == l)
    && (forall l :: l in finals ==> finals[l] != [] && Distinct(finals[l]))
  }

  /** No column takes more than four slots, and each is in display order. */
  ghost predicate ColumnsFit(shapes: Shapes, children: Succ, finals: Buckets)
  {
    forall l :: l in finals ==> Fits(shapes, children, finals[l])
  }

  ghost predicate Fits(shapes: Shapes, children: Succ, column: seq<Id>) {
    (forall n <- column :: n in shapes && n in children) &&
    RowsIn(shapes, column) <= 4 &&
    forall i, j :: 0 <= i < j < |column| ==> ShownFirst(shapes, children, column[i], column[j])
  }

  /** Column `l` keeps somebody, and somebody pushed past it would not have fitted in. */
  ghost predicate WasFull(shapes: Shapes, nodes: seq<Id>, finals: Buckets, level: map<Id, int>, at: map<Id, int>,
                          l: int)
  {
    l in finals && finals[l] != [] && (forall n <- finals[l] :: n in shapes) &&
    exists m <- nodes :: m in shapes && m in level && m in at && level[m] <= l < at[m] &&
      RowsIn(shapes, finals[l]) + Rows(shapes[m]) > 4
  }

  /** Whoever was pushed past a column is pushed on no later than whoever stayed in it. */
  ghost predicate PassedInOrder(shapes: Shapes, children: Succ, nodes: seq<Id>, level: map<Id, int>, at: map<Id, int>)
    requires Known(shapes, children, nodes)
  {
    forall n <- nodes, b <- nodes :: n in level && n in at && b in at && level[n] <= at[b] < at[n] ==>
      PushedFirst(shapes, children, n, b)
  }

  /** What the levels are, whatever the lines: the longest path for a node that is neither on a cycle nor below one,
      and for every node one more than the highest such node above it, or 1 if there is none. */
  ghost predicate LevelsAre(nodes: seq<Id>, children: Succ, level: map<Id, int>, reached: set<Id>) {
    && (forall n <- nodes :: n in level)
    && (forall n :: n in reached <==> n in nodes && !CycleAbove(children, n))
    && (forall n <- nodes :: n in reached ==> Longest(children, n, level[n]))
    && (forall n <- nodes :: OneAbove(children, reached, level, n))
  }

  /** For any lines, cyclic or not: every node ends in exactly one column, no earlier than its computed level; no
      column is empty or wider than four slots; columns are in display order. A node moves past a column only because
      that column is full, and then comes no later in the push order than whoever stayed. Both orders count the children
      that the lines give. */
  method LayoutNodes(shapes: Shapes, nodes: seq<Id>, lines: seq<Line>)
    returns (finals: Buckets, ghost level: map<Id, int>, ghost at: map<Id, int>, ghost children: Succ,
             ghost reached: set<Id>)
    requires Distinct(nodes) && forall n :: n in nodes ==> n in shapes
    ensures forall a, b :: Edge(children, a, b) <==> Joined(nodes, lines, a, b)
    ensures Known(shapes, children, nodes) && LevelsAre(nodes, children, level, reached)
    ensures Acyclic(children) ==> forall n <- nodes :: Longest(children, n, level[n])
    ensures Partition(nodes, finals, at) && ColumnsFit(shapes, children, finals)
    ensures forall n <- nodes :: 1 <= level[n] <= at[n]
    ensures PassedInOrder(shapes, children, nodes, level, at)
    ensures forall n <- nodes, l: int :: level[n] <= l < at[n] ==> WasFull(shapes, nodes, finals, level, at, l)
  {
    hide LevelsFit, Longest, Acyclic, InfoOk, Joined, NotAfter, Distinct, OneAbove, CycleAbove, Full;
    var info, parents := BuildInfo(nodes, lines);
    var levels, maxLevel;
    ghost var order;
    levels, maxLevel, order := QueuePass(nodes, lines, info, parents);
    InfoFacts(nodes, lines, info, parents);
    level := map n | n in nodes :: LevelOf(levels, n);
    reached := Elements(order);
    assert forall n :: LevelOf(level, n) == LevelOf(levels, n);
    SameLevels(info, reached, levels, level);
    if Acyclic(info) {
      forall n | n in nodes ensures n in order {
        AcyclicReachesAll(info, n);
      }
    }
    var items := map n | n in nodes && n in info && n in shapes ::
                   Item(shapes[n].container, shapes[n].height, |info[n]|, shapes[n].key);
    finals, at := Distribute(items, nodes, levels, maxLevel);
    children := info;
    Partitioned(items, nodes, finals, at);
    hide Partition, Known, LevelsAre, Describes, ColumnsFit, WasFull, PushedFirst;
    assert Known(shapes, children, nodes) by { KnownAll(shapes, children, nodes); }
    Described(items, shapes, children, nodes);
    Columns(items, shapes, children, nodes, finals);
    assert LevelsAre(nodes, children, level, reached) by { LevelsHold(nodes, children, levels, level, reached); }
    Moves(items, shapes, children, nodes, finals, levels, level, at);
  }

  lemma KnownAll(shapes: Shapes, children: Succ, nodes: seq<Id>)
    requires forall n :: n in nodes ==> n in shapes
    requires children.Keys == Elements(nodes) && forall a :: a in children ==> Distinct(children[a])
    ensures Known(shapes, children, nodes)
  {
    hide Distinct;
  }

  lemma Described(items: Items, shapes: Shapes, children: Succ, nodes: seq<Id>)
    requires Known(shapes, children, nodes)
    requires items == map n | n in nodes && n in children && n in shapes ::
                        Item(shapes[n].container, shapes[n].height, |children[n]|, shapes[n].key)
    ensures forall n <- nodes :: Describes(items, shapes, children, n)
  {
    hide Distinct;
  }

  lemma LevelsHold(nodes: seq<Id>, children: Succ, levels: map<Id, int>, level: map<Id, int>, reached: set<Id>)
    requires level == map n | n in nodes :: LevelOf(levels, n)
    requires forall n :: n in reached <==> n in nodes && !CycleAbove(children, n)
    requires forall n :: n in reached ==> Longest(children, n, LevelOf(levels, n))
    requires forall n :: OneAbove(children, reached, level, n)
    ensures LevelsAre(nodes, children, level, reached)
  {
    hide Longest, OneAbove, CycleAbove, LevelOf;
  }

  /** What moves past a column, and past which. */
  lemma Moves(items: Items, shapes: Shapes, children: Succ, nodes: seq<Id>, finals: Buckets, levels: map<Id, int>,
              level: map<Id, int>, at: map<Id, int>)
    requires Known(shapes, children, nodes) && Partition(nodes, finals, at) && at.Keys == Elements(nodes)
    requires level == (map n | n in nodes :: LevelOf(levels, n))
    requires forall n <- nodes :: Describes(items, shapes, children, n)
    requires forall n, b :: n in at && b in at && LevelOf(levels, n) <= at[b] < at[n] ==> NotAfter(Push, items, n, b)
    requires forall n, l :: n in at && LevelOf(levels, n) <= l < at[n] ==> Full(items, levels, at, finals, l)
    ensures PassedInOrder(shapes, children, nodes, level, at)
    ensures forall n <- nodes, l: int :: level[n] <= l < at[n] ==> WasFull(shapes, nodes, finals, level, at, l)
  {
    hide Distinct, NotAfter, Full, LevelOf, WasFull, PushedFirst, Describes;
    forall n, b | n in nodes && b in nodes && level[n] <= at[b] < at[n] ensures PushedFirst(shapes, children, n, b) {
      assert NotAfter(Push, items, n, b);
      OrdersMeaning(items, shapes, children, n, b);
    }
    forall n, l: int | n in nodes && level[n] <= l < at[n] ensures WasFull(shapes, nodes, finals, level, at, l) {
      assert Full(items, levels, at, finals, l);
      FullMeaning(items, shapes, children, nodes, finals, levels, level, at, l);
    }
  }

  /* ---- from items to shapes ---- */

  ghost predicate Describes(items: Items, shapes: Shapes, children: Succ, n: Id) {
    n in shapes && n in items && n in children &&
    items[n] == Item(shapes[n].container, shapes[n].height, |children[n]|, shapes[n].key)
  }

  lemma CeilMeaning(x: real, k: int)
    ensures Ceil(x) <= k <==> x <= k as real
  {
  }

  lemma SlotsAreRows(items: Items, shapes: Shapes, children: Succ, n: Id)
    requires Describes(items, shapes, children, n)
    ensures Slots(items, n) == Rows(shapes[n])
  {
    var h := shapes[n].height;
    CeilMeaning(h / 150.0, 0);
    CeilMeaning(h / 150.0, 1);
    CeilMeaning(h / 150.0, 2);
    CeilMeaning(h / 150.0, 3);
    CeilMeaning(h / 150.0, 4);
    hide Ceil;
  }

  lemma {:induction false} TotalIsRows(items: Items, shapes: Shapes, children: Succ, column: seq<Id>)
    requires forall n <- column :: n in shapes && Describes(items, shapes, children, n)
    ensures Total(items, column) == RowsIn(shapes, column)
    decreases |column|
  {
    hide Slots, Rows, Describes;
    if column != [] {
      SlotsAreRows(items, shapes, children, column[0]);
      TotalIsRows(items, shapes, children, column[1..]);
    }
  }

  lemma OrdersMeaning(items: Items, shapes: Shapes, children: Succ, a: Id, b: Id)
    requires Describes(items, shapes, children, a) && Describes(items, shapes, children, b)
    ensures NotAfter(Push, items, a, b) <==> PushedFirst(shapes, children, a, b)
    ensures NotAfter(Display, items, a, b) <==> ShownFirst(shapes, children, a, b)
  {
  }

  lemma Partitioned(items: Items, nodes: seq<Id>, finals: Buckets, at: map<Id, int>)
    requires at.Keys == Elements(nodes) && LevelsFit(items, finals)
    requires forall l, n :: n in Bucket(finals, l) <==> n in at && at[n] == l
    requires forall l :: l in finals ==> Distinct(finals[l])
    ensures Partition(nodes, finals, at)
    ensures forall l, n :: l in finals && n in finals[l] ==> n in nodes
  {
    hide Distinct, Total, SortedBy;
    forall n | n in at ensures at[n] in finals && n in finals[at[n]] {
      assert n in Bucket(finals, at[n]);
    }
    forall l, n | l in finals && n in finals[l] ensures n in at && at[n] == l && n in nodes {
      assert n in Bucket(finals, l);
      assert n in Elements(nodes);
    }
  }

  lemma Columns(items: Items, shapes: Shapes, children: Succ, nodes: seq<Id>, finals: Buckets)
    requires Known(shapes, children, nodes) && LevelsFit(items, finals)
    requires forall n <- nodes :: Describes(items, shapes, children, n)
    requires forall l, n :: l in finals && n in finals[l] ==> n in nodes
    ensures ColumnsFit(shapes, children, finals)
  {
    hide Describes, SortedBy, Total;
    forall l | l in finals ensures Fits(shapes, children, finals[l]) {
      ColumnFits(items, shapes, children, nodes, finals[l]);
    }
  }

  lemma ColumnFits(items: Items, shapes: Shapes, children: Succ, nodes: seq<Id>, column: seq<Id>)
    requires Known(shapes, children, nodes) && Total(items, column) <= 4 && SortedBy(Display, items, column)
    requires forall n <- nodes :: Describes(items, shapes, children, n)
    requires forall n <- column :: n in nodes
    ensures Fits(shapes, children, column)
  {
    hide Total, RowsIn, Describes, NotAfter, ShownFirst;
    TotalIsRows(items, shapes, children, column);
    forall i, j | 0 <= i < j < |column| ensures ShownFirst(shapes, children, column[i], column[j]) {
      OrdersMeaning(items, shapes, children, column[i], column[j]);
    }
  }

  lemma FullMeaning(items: Items, shapes: Shapes, children: Succ, nodes: seq<Id>, finals: Buckets,
                    levels: map<Id, int>, level: map<Id, int>, at: map<Id, int>, l: int)
    requires Full(items, levels, at, finals, l) && at.Keys == Elements(nodes) && level.Keys == Elements(nodes)
    requires forall n <- nodes :: n in shapes && Describes(items, shapes, children, n) && level[n] == LevelOf(levels, n)
    requires forall k, n :: k in finals && n in finals[k] ==> n in nodes
    ensures WasFull(shapes, nodes, finals, level, at, l)
  {
    hide Describes, Slots, Rows, LevelOf, Total, RowsIn;
    var m :| m in at && LevelOf(levels, m) <= l < at[m] && Total(items, finals[l]) + Slots(items, m) > MAX_SLOTS;
    assert m in Elements(nodes);
    TotalIsRows(items, shapes, children, finals[l]);
    SlotsAreRows(items, shapes, children, m);
  }

  lemma SameLevels(e: Succ, reached: set<Id>, levels: map<Id, int>, level: map<Id, int>)
    requires forall n :: LevelOf(level, n) == LevelOf(levels, n)
    requires forall n :: OneAbove(e, reached, levels, n)
    ensures forall n :: OneAbove(e, reached, level, n)
  {
    hide LevelOf, Edge;
    forall n ensures OneAbove(e, reached, level, n) {
      assert OneAbove(e, reached, levels, n);
    }
  }

  lemma InfoFacts(nodes: seq<Id>, lines: seq<Line>, children: Succ, parents: map<Id, set<Id>>)
    requires InfoOk(nodes, lines, children, parents)
    ensures children.Keys == Elements(nodes) && forall a, b :: Edge(children, a, b) <==> Joined(nodes, lines, a, b)
    ensures forall a :: a in children ==> Distinct(children[a])
  {
  }
}
