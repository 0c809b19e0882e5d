/** Finite directed graphs given as successor lists, the form in which the DAG
    builder, the DAG executor and the canvas layout all hold their edges. */
module Graphs {

  type Id = string

  /** `e[p]` lists the direct successors of `p`; an edge may be listed several times. */
  type Succ = map<Id, seq<Id>>

  predicate Edge(e: Succ, a: Id, b: Id) {
    a in e && b in e[a]
  }

  /** Every listed node is joined to the next one. */
  ghost predicate IsPath(e: Succ, p: seq<Id>) {
    forall i {:trigger p[i]} :: 0 <= i && i + 1 < |p| ==> Edge(e, p[i], p[i + 1])
  }

  /** A path whose last node has an edge back to the first one. */
  ghost predicate IsCycle(e: Succ, c: seq<Id>) {
    |c| > 0 && IsPath(e, c) && Edge(e, c[|c| - 1], c[0])
  }

  ghost predicate Acyclic(e: Succ) {
    forall c :: !IsCycle(e, c)
  }

  ghost predicate Connects(e: Succ, p: seq<Id>, a: Id, b: Id) {
    |p| >= 2 && p[0] == a && p[|p| - 1] == b && IsPath(e, p)
  }

  /** `a` is a proper ancestor of `b`: some path of one or more edges leads from `a` to `b`. */
  ghost predicate Ancestor(e: Succ, a: Id, b: Id) {
    exists p :: Connects(e, p, a, b)
  }

  lemma EdgeIsAncestor(e: Succ, a: Id, b: Id)
    requires Edge(e, a, b)
    ensures Ancestor(e, a, b)
  {
    assert Connects(e, [a, b], a, b);
  }

  lemma AncestorExtends(e: Succ, a: Id, b: Id, c: Id)
    requires Ancestor(e, a, b) && Edge(e, b, c)
    ensures Ancestor(e, a, c)
  {
    var p :| Connects(e, p, a, b);
    var q := p + [c];
    assert forall i :: 0 <= i < |p| ==> q[i] == p[i];
    assert Connects(e, q, a, c);
  }

  lemma AncestorPrepend(e: Succ, a: Id, b: Id, c: Id)
    requires Edge(e, a, b) && (b == c || Ancestor(e, b, c))
    ensures Ancestor(e, a, c)
  {
    if b == c {
      EdgeIsAncestor(e, a, c);
    } else {
      var p :| Connects(e, p, b, c);
      PathPrepend(e, p, a);
      assert Connects(e, [a] + p, a, c);
    }
  }

  lemma PathPrefix(e: Succ, p: seq<Id>, n: nat)
    requires IsPath(e, p) && n <= |p|
    ensures IsPath(e, p[..n])
  {
  }

  /** The last edge of a path: its source is `a` itself or a descendant of `a`. */
  lemma AncestorLastEdge(e: Succ, a: Id, c: Id) returns (b: Id)
    requires Ancestor(e, a, c)
    ensures Edge(e, b, c) && (b == a || Ancestor(e, a, b))
  {
    var p :| Connects(e, p, a, c);
    b := p[|p| - 2];
    if |p| > 2 {
      assert Connects(e, p[..|p| - 1], a, b);
    }
  }

  /** A set that holds the direct successors of `a` and is closed under edges
      holds every descendant of `a`. */
  lemma {:induction false} ClosedHoldsPath(e: Succ, s: set<Id>, p: seq<Id>)
    requires |p| >= 1 && IsPath(e, p) && p[0] in s
    requires forall x, y :: x in s && Edge(e, x, y) ==> y in s
    ensures p[|p| - 1] in s
    decreases |p|
  {
    if |p| > 1 {
      assert Edge(e, p[0], p[1]);
      ClosedHoldsPath(e, s, p[1..]);
    }
  }

  lemma ClosedHoldsDescendants(e: Succ, s: set<Id>, a: Id)
    requires forall y :: Edge(e, a, y) ==> y in s
    requires forall x, y :: x in s && Edge(e, x, y) ==> y in s
    ensures forall b :: Ancestor(e, a, b) ==> b in s
  {
    forall b | Ancestor(e, a, b) ensures b in s {
      var p :| Connects(e, p, a, b);
      assert Edge(e, p[0], p[1]);
      ClosedHoldsPath(e, s, p[1..]);
    }
  }

  /** A set closed under predecessors holds every ancestor of its members. */
  lemma {:induction false} PredecessorClosedPath(e: Succ, s: set<Id>, p: seq<Id>)
    requires |p| >= 1 && IsPath(e, p) && p[|p| - 1] in s
    requires forall x, y :: y in s && Edge(e, x, y) ==> x in s
    ensures p[0] in s
    decreases |p|
  {
    if |p| > 1 {
      PredecessorClosedPath(e, s, p[1..]);
      assert Edge(e, p[0], p[1]);
    }
  }

  ghost predicate Distinct<T>(s: seq<T>) {
    forall i, j :: 0 <= i < j < |s| ==> s[i] != s[j]
  }

  function Elements<T>(s: seq<T>): set<T> {
    set x | x in s
  }

  lemma {:induction false} DistinctCount<T>(s: seq<T>)
    requires Distinct(s)
    ensures |Elements(s)| == |s|
  {
    if s != [] {
      DistinctCount(s[1..]);
      assert s == [s[0]] + s[1..];
      assert Elements(s) == {s[0]} + Elements(s[1..]);
    }
  }

  lemma SubsetCount<T>(a: set<T>, b: set<T>)
    requires a <= b
    ensures |a| <= |b|
    ensures |a| == |b| ==> a == b
  {
    assert b == a + (b - a);
    assert |b| == |a| + |b - a|;
  }

  /** Some member of `s` has an edge to `x`. */
  ghost predicate FedFrom(e: Succ, s: set<Id>, x: Id) {
    exists y :: y in s && Edge(e, y, x)
  }

  lemma PathPrepend(e: Succ, p: seq<Id>, y: Id)
    requires |p| > 0 && IsPath(e, p) && Edge(e, y, p[0])
    ensures IsPath(e, [y] + p)
  {
    var q := [y] + p;
    forall i | 0 <= i && i + 1 < |q| ensures Edge(e, q[i], q[i + 1]) {
      if i > 0 {
        assert q[i] == p[i - 1] && q[i + 1] == p[i];
      }
    }
  }

  lemma DistinctPrepend(s: set<Id>, p: seq<Id>, y: Id)
    requires Distinct(p) && Elements(p) <= s && y in s && y !in p
    ensures Distinct([y] + p) && Elements([y] + p) <= s && |p| < |s|
  {
    var q := [y] + p;
    forall x | x in Elements(q) ensures x in s {
      assert x == y || x in Elements(p);
    }
    DistinctCount(q);
    SubsetCount(Elements(q), s);
  }

  /** Walking backwards inside a finite set in which every node has a
      predecessor must come back to a node already seen. */
  lemma {:induction false} WalkBack(e: Succ, s: set<Id>, p: seq<Id>) returns (c: seq<Id>)
    requires |p| > 0 && IsPath(e, p) && Distinct(p) && Elements(p) <= s
    requires forall x :: x in s ==> FedFrom(e, s, x)
    ensures IsCycle(e, c) && Elements(c) <= s
    decreases |s| - |p|
  {
    hide IsPath, IsCycle, Distinct, Edge;
    assert p[0] in Elements(p);
    assert FedFrom(e, s, p[0]);
    var y :| y in s && Edge(e, y, p[0]);
    if y in p {
      var i :| 0 <= i < |p| && p[i] == y;
      c := p[..i + 1];
      ClosesCycle(e, p, i);
    } else {
      PathPrepend(e, p, y);
      DistinctPrepend(s, p, y);
      c := WalkBack(e, s, [y] + p);
    }
  }

  lemma ClosesCycle(e: Succ, p: seq<Id>, i: nat)
    requires i < |p| && IsPath(e, p) && Edge(e, p[i], p[0])
    ensures IsCycle(e, p[..i + 1])
  {
    PathPrefix(e, p, i + 1);
  }

  /** In an acyclic graph every non-empty finite set of nodes has a member
      with no predecessor inside the set. */
  lemma AcyclicHasSource(e: Succ, s: set<Id>) returns (x: Id)
    requires Acyclic(e) && s != {}
    ensures x in s && !FedFrom(e, s, x)
  {
    if forall x :: x in s ==> FedFrom(e, s, x) {
      var z :| z in s;
      var c := WalkBack(e, s, [z]);
      assert false;
    }
    x :| x in s && !FedFrom(e, s, x);
  }

  /** An order in which every predecessor of a listed node is listed earlier. */
  ghost predicate Topological(e: Succ, order: seq<Id>) {
    forall i, y :: 0 <= i < |order| && Edge(e, y, order[i]) ==> y in order[..i]
  }

  /** The mirror image: every successor of a listed node is listed earlier. */
  ghost predicate PostOrder(e: Succ, order: seq<Id>) {
    forall i, y :: 0 <= i < |order| && Edge(e, order[i], y) ==> y in order[..i]
  }

  lemma TopologicalPrefix(e: Succ, order: seq<Id>, k: nat)
    requires Topological(e, order) && k <= |order|
    ensures Topological(e, order[..k])
  {
    hide Edge;
    forall m, y | 0 <= m < k && Edge(e, y, order[..k][m]) ensures y in order[..k][..m] {
      assert order[..k][..m] == order[..m];
    }
  }

  lemma PostOrderPrefix(e: Succ, order: seq<Id>, k: nat)
    requires PostOrder(e, order) && k <= |order|
    ensures PostOrder(e, order[..k])
  {
    hide Edge;
    forall m, y | 0 <= m < k && Edge(e, order[..k][m], y) ensures y in order[..k][..m] {
      assert order[..k][..m] == order[..m];
    }
  }

  /** Every member of a cycle has an edge to the next, going round. */
  lemma CycleEdge(e: Succ, c: seq<Id>, i: nat)
    requires IsCycle(e, c) && i < |c|
    ensures Edge(e, c[i], c[if i + 1 == |c| then 0 else i + 1])
  {
  }

  lemma {:induction false} NoCycleThroughTopological(e: Succ, order: seq<Id>, c: seq<Id>, i: nat)
    requires Topological(e, order) && IsCycle(e, c) && i < |c|
    ensures c[i] !in order
    decreases |order|
  {
    hide IsCycle, Edge;
    if c[i] !in order { return; }
    var k :| 0 <= k < |order| && order[k] == c[i];
    var j := if i == 0 then |c| - 1 else i - 1;
    CycleEdge(e, c, j);
    assert c[j] in order[..k];
    TopologicalPrefix(e, order, k);
    hide Topological;
    NoCycleThroughTopological(e, order[..k], c, j);
  }

  lemma {:induction false} NoCycleThroughPostOrder(e: Succ, order: seq<Id>, c: seq<Id>, i: nat)
    requires PostOrder(e, order) && IsCycle(e, c) && i < |c|
    ensures c[i] !in order
    decreases |order|
  {
    hide IsCycle, Edge;
    if c[i] !in order { return; }
    var k :| 0 <= k < |order| && order[k] == c[i];
    var j := if i + 1 == |c| then 0 else i + 1;
    CycleEdge(e, c, i);
    assert c[j] in order[..k];
    PostOrderPrefix(e, order, k);
    hide PostOrder;
    NoCycleThroughPostOrder(e, order[..k], c, j);
  }

  /** The positions of edges into `c` that have not been dealt with yet, when
      `done(p)` of the edges leaving `p` have been.  Its size is what a Kahn
      style counter of `c` must show. */
  ghost function Open(e: Succ, done: map<Id, nat>, c: Id): set<(Id, nat)> {
    set p, k: nat | p in e && k < |e[p]| && (p in done ==> done[p] <= k) && e[p][k] == c :: (p, k)
  }

  lemma OpenAdvances(e: Succ, done: map<Id, nat>, p: Id, c: Id)
    requires p in e && p in done && done[p] < |e[p]|
    ensures e[p][done[p]] == c ==>
              (p, done[p]) in Open(e, done, c) &&
              Open(e, done[p := done[p] + 1], c) == Open(e, done, c) - {(p, done[p])} &&
              |Open(e, done[p := done[p] + 1], c)| == |Open(e, done, c)| - 1
    ensures e[p][done[p]] != c ==> Open(e, done[p := done[p] + 1], c) == Open(e, done, c)
  {
    var k := done[p];
    var a, b := Open(e, done, c), Open(e, done[p := k + 1], c);
    if e[p][k] == c {
      assert (p, k) in a;
      assert b == a - {(p, k)};
    } else {
      assert a == b;
    }
  }
}
