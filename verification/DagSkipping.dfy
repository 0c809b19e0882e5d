/** After a failure: the worker marks the run as failed and skips every
    descendant of its node by a breadth-first pass. */
module DagSkipping {
  import opened TaskCommon
  import opened Graphs
  import opened DagProtocol
  import opened DagInvariant
  import opened DagScheduler
  import opened DagWorkers

  lemma ElementsCons(list: seq<Id>)
    requires list != []
    ensures Elements(list) == {list[0]} + Elements(list[1..])
  {
    assert list == [list[0]] + list[1..];
  }

  lemma ElementsSnoc(list: seq<Id>, x: Id)
    ensures Elements(list + [x]) == Elements(list) + {x}
  {
  }

  lemma DistinctSnoc(list: seq<Id>, x: Id)
    requires Distinct(list) && x !in Elements(list)
    ensures Distinct(list + [x])
  {
    assert forall i :: 0 <= i < |list| ==> list[i] in Elements(list);
  }

  /** What pushing the unvisited members of `list` does to the pass. */
  lemma {:induction false} DiscoverSpec(list: seq<Id>, visited: set<Id>, todo: seq<Id>)
    requires Distinct(todo) && Elements(todo) <= visited
    ensures Discover(list, visited, todo).0 == visited + Elements(list)
    ensures Distinct(Discover(list, visited, todo).1)
    ensures Elements(Discover(list, visited, todo).1) == Elements(todo) + (Elements(list) - visited)
    decreases |list|
  {
    hide Distinct, Elements;
    if list == [] {
      assert Elements(list) == {} by { NoElements(); }
    } else {
      ElementsCons(list);
      if list[0] in visited {
        DiscoverSpec(list[1..], visited, todo);
      } else {
        ElementsSnoc(todo, list[0]);
        DistinctSnoc(todo, list[0]);
        DiscoverSpec(list[1..], visited + {list[0]}, todo + [list[0]]);
      }
    }
  }

  lemma NoElements()
    ensures Elements<Id>([]) == {}
  {
  }

  /* ---- how the skip invariant follows a pass ---- */

  /** `w` moved on in its pass; others are as before, and no node stops being Skipped. */
  ghost predicate SweepStep(g: Dag, s: State, t: State, w: Id)
    requires Shaped(g, s) && Shaped(g, t)
  {
    && (forall n :: n in g.nodes && s.status[n].Skipped? ==> t.status[n].Skipped?)
    && (forall n :: n in g.nodes && t.status[n].Skipped? && !s.status[n].Skipped? ==> Blocks(g, t, w, n))
    && (forall v :: v != w ==>
          (v in s.workers <==> v in t.workers) && (v in s.workers ==> s.workers[v] == t.workers[v]))
    && (forall a :: Fails(s, a) ==> Fails(t, a))
    && (forall n :: n != w && Swept(t, n) ==> Swept(s, n))
  }

  ghost predicate Recorded(s: State, n: Id) {
    n in s.results || exists w :: w in s.workers && s.workers[w].Recording? && s.workers[w].child == n
  }

  lemma SweepStepKeepsSkip(g: Dag, cfg: Config, s: State, t: State, w: Id)
    requires SkipOk(g, cfg, s) && Shaped(g, t) && cfg.failPolicy.SkipDownstream? && SweepStep(g, s, t, w)
    requires w in t.workers ==> SweepOk(g, t, w)
    requires Swept(t, w) ==> forall v :: Ancestor(g.down, w, v) ==> v in g.nodes && t.status[v].Skipped?
    requires forall n :: n in g.nodes && t.status[n].Skipped? ==> Recorded(t, n)
    ensures SkipOk(g, cfg, t)
  {
    forall v | v in t.workers && v != w ensures SweepOk(g, t, v) {
      assert SweepOk(g, s, v);
    }
    forall n | n in g.nodes && t.status[n].Skipped? ensures exists a :: Blocks(g, t, a, n) {
      if s.status[n].Skipped? {
        var a :| Blocks(g, s, a, n);
        assert Blocks(g, t, a, n);
      } else {
        assert Blocks(g, t, w, n);
      }
    }
    forall n | n in g.nodes && t.status[n].Skipped?
      ensures n in t.results || exists w :: w in t.workers && t.workers[w].Recording? && t.workers[w].child == n
    {
      assert Recorded(t, n);
    }
  }

  lemma SkippedIsRecorded(g: Dag, cfg: Config, s: State, n: Id)
    requires SkipOk(g, cfg, s) && n in g.nodes && s.status[n].Skipped?
    ensures Recorded(s, n)
  {
  }

  /** Nobody's record of a Skipped node is lost when `w`, which records none, moves on. */
  lemma RecordedKept(g: Dag, cfg: Config, s: State, t: State, w: Id, n: Id)
    requires SkipOk(g, cfg, s) && n in g.nodes && s.status[n].Skipped?
    requires w in s.workers && !s.workers[w].Recording? && t.results == s.results
    requires forall v :: v != w && v in s.workers ==> v in t.workers && s.workers[v] == t.workers[v]
    ensures Recorded(t, n)
  {
    hide SkipOk;
    SkippedIsRecorded(g, cfg, s, n);
    if n !in s.results {
      var v :| v in s.workers && s.workers[v].Recording? && s.workers[v].child == n;
      assert t.workers[v] == s.workers[v];
    }
  }

  lemma SweepOkAt(g: Dag, cfg: Config, s: State, w: Id)
    requires SkipOk(g, cfg, s) && w in s.workers
    ensures Shaped(g, s) && SweepOk(g, s, w)
  {
  }

  /* ---- marking the run as failed ---- */

  lemma MarkFlag(g: Dag, s: State, t: State, w: Id)
    requires t.failed && !t.pc.Finish? && !t.pc.Done? && w in g.nodes && Fails(t, w)
    ensures FlagOk(g, t)
  {
  }

  lemma ChildrenOf(g: Dag, w: Id)
    requires WellFormed(g) && w in g.nodes
    ensures Elements(g.down[w]) <= g.nodes
    ensures forall v :: v in Elements(g.down[w]) <==> Edge(g.down, w, v)
  {
    forall v | v in Elements(g.down[w]) ensures v in g.nodes {
      assert Edge(g.down, w, v);
    }
  }

  lemma FirstSweep(g: Dag, s: State, w: Id)
    requires WellFormed(g) && Shaped(g, s) && w in g.nodes
    ensures var r := Discover(g.down[w], {}, []); Distinct(r.1) && Sweep(g, s, w, r.0, Elements(r.1))
  {
    hide WellFormed, Discover, Elements, Distinct;
    assert Distinct<Id>([]) by { NoneDistinct(); }
    NoElements();
    DiscoverSpec(g.down[w], {}, []);
    ChildrenOf(g, w);
    forall v | Edge(g.down, w, v) ensures Ancestor(g.down, w, v) {
      EdgeIsAncestor(g.down, w, v);
    }
  }

  lemma NoneDistinct()
    ensures Distinct<Id>([])
  {
  }

  lemma MarkKeepsRest(g: Dag, cfg: Config, s: State, t: State, w: Id, ph: Phase)
    requires Inv(g, cfg, s) && w in s.workers && s.workers[w].Marking?
    requires t == Move(s, w, ph).(failed := true) && (ph.Visiting? || ph.Leaving?)
    requires ph.Visiting? ==> cfg.failPolicy.SkipDownstream?
    ensures Shaped(g, t) && Coherent(g, cfg, t) && QueueOk(g, t) && NoneDropped(g, cfg, t) && FlagOk(g, t) &&
            SlotsOk(cfg, t)
    ensures Counted(g, t) && EnqueuedOk(g, t) && PushOk(g, t) && NoneMissed(g, t)
  {
    hide Coherent, Counted, QueueOk, EnqueuedOk, PushOk, NoneMissed, NoneDropped, SkipOk, FlagOk, SlotsOk, DealtMap,
         PushFrame;
    WorkerFacts(g, cfg, s, w);
    assert Untouched(g, s, t, {w});
    MarkFlag(g, s, t, w);
    MoveSlots(cfg, s, t, w);
    CoherentFrame(g, cfg, s, t, {w});
    SameQueue(g, cfg, s, t);
    DealtFrame(g, s, t, w);
    PushFrameFor(g, s, t, w);
    SameBoard(g, s, t);
  }

  lemma FailFastKeepsSkip(g: Dag, cfg: Config, s: State, t: State, w: Id)
    requires SkipOk(g, cfg, s) && Shaped(g, s) && Shaped(g, t) && w in s.workers && s.workers[w].Marking? &&
             PhaseOk(g, cfg, s, w)
    requires t == Move(s, w, Leaving).(failed := true) && cfg.failPolicy.FailFast?
    ensures SkipOk(g, cfg, t)
  {
    hide SkipOk, SkipFrame;
    SkipFrameFor(g, cfg, s, t, w);
    SameSkip(g, cfg, s, t);
  }

  lemma StartSweepKeepsSkip(g: Dag, cfg: Config, s: State, t: State, w: Id, visited: set<Id>, todo: seq<Id>)
    requires SkipOk(g, cfg, s) && Shaped(g, s) && Shaped(g, t) && w in s.workers && s.workers[w].Marking?
    requires t == Move(s, w, Visiting(visited, todo)).(failed := true) && cfg.failPolicy.SkipDownstream?
    requires Distinct(todo) && Sweep(g, s, w, visited, Elements(todo))
    ensures SkipOk(g, cfg, t)
  {
    hide SkipOk, Distinct, Elements, Ancestor, SweepStep;
    assert SweepOk(g, t, w);
    hide SweepOk, Sweep;
    MoveSweeps(g, s, t, w, Visiting(visited, todo));
    forall n | n in g.nodes && t.status[n].Skipped? ensures Recorded(t, n) {
      RecordedKept(g, cfg, s, t, w, n);
    }
    SweepStepKeepsSkip(g, cfg, s, t, w);
  }

  lemma MarkKeepsInv(g: Dag, cfg: Config, s: State, w: Id, o: Status)
    requires WellFormed(g) && Inv(g, cfg, s) && w in s.workers && s.workers[w].Marking?
    ensures Shaped(g, s) && Inv(g, cfg, WorkerStep(g, cfg, s, w, o))
  {
    hide Coherent, Counted, QueueOk, EnqueuedOk, PushOk, NoneMissed, NoneDropped, SkipOk, FlagOk, SlotsOk,
      Sweep, Discover, Distinct, Elements;
    WorkerFacts(g, cfg, s, w);
    var t := WorkerStep(g, cfg, s, w, o);
    var found := Discover(g.down[w], {}, []);
    MarkKeepsRest(g, cfg, s, t, w, t.workers[w]);
    if cfg.failPolicy.FailFast? {
      FailFastKeepsSkip(g, cfg, s, t, w);
    } else {
      FirstSweep(g, s, w);
      StartSweepKeepsSkip(g, cfg, s, t, w, found.0, found.1);
    }
  }

  /* ---- the pass is over ---- */

  /** With an empty queue, everything seen is Skipped and nothing is left unseen. */
  lemma SweepComplete(g: Dag, s: State, w: Id, visited: set<Id>)
    requires Shaped(g, s) && Sweep(g, s, w, visited, {})
    ensures forall v :: Ancestor(g.down, w, v) ==> v in g.nodes && s.status[v].Skipped?
  {
    ClosedHoldsDescendants(g.down, visited, w);
  }

  lemma EndKeepsSkip(g: Dag, cfg: Config, s: State, t: State, w: Id, visited: set<Id>)
    requires SkipOk(g, cfg, s) && Shaped(g, s) && Shaped(g, t) && cfg.failPolicy.SkipDownstream?
    requires w in s.workers && s.workers[w] == Visiting(visited, []) && t == Move(s, w, Leaving)
    ensures SkipOk(g, cfg, t)
  {
    hide SkipOk;
    SweepOkAt(g, cfg, s, w);
    NoElements();
    SweepComplete(g, s, w, visited);
    hide Sweep, Ancestor, SweepStep;
    forall n | n in g.nodes && t.status[n].Skipped? ensures Recorded(t, n) {
      RecordedKept(g, cfg, s, t, w, n);
    }
    MoveSweeps(g, s, t, w, Leaving);
    SweepStepKeepsSkip(g, cfg, s, t, w);
  }

  /** A worker that only moves on, or also sets the failed flag, takes a pass step. */
  lemma MoveSweeps(g: Dag, s: State, t: State, w: Id, ph: Phase)
    requires Shaped(g, s) && Shaped(g, t) && w in s.workers &&
             (t == Move(s, w, ph) || t == Move(s, w, ph).(failed := true))
    ensures SweepStep(g, s, t, w)
  {
    hide Ancestor;
  }

  lemma EndKeepsInv(g: Dag, cfg: Config, s: State, w: Id, visited: set<Id>)
    requires Inv(g, cfg, s) && w in s.workers && s.workers[w] == Visiting(visited, [])
    ensures Inv(g, cfg, Move(s, w, Leaving))
  {
    hide Coherent, Counted, QueueOk, EnqueuedOk, PushOk, NoneMissed, NoneDropped, SkipOk, FlagOk, SlotsOk, DealtMap,
         PushFrame;
    var t := Move(s, w, Leaving);
    WorkerFacts(g, cfg, s, w);
    assert Shaped(g, t);
    assert Untouched(g, s, t, {w});
    EndKeepsSkip(g, cfg, s, t, w, visited);
    MoveSlots(cfg, s, t, w);
    CoherentFrame(g, cfg, s, t, {w});
    SameQueue(g, cfg, s, t);
    DealtFrame(g, s, t, w);
    PushFrameFor(g, s, t, w);
    SameBoard(g, s, t);
    SameFlag(g, s, t);
  }

  /* ---- the pass marks one node ---- */

  ghost function Marked(s: State, w: Id, visited: set<Id>, todo: seq<Id>, c: Id): State {
    Move(s, w, Recording(visited, todo, c)).(status := s.status[c := Skipped])
  }

  /** The node being marked never was ready: it waits for something that failed. */
  lemma MarkedFacts(g: Dag, cfg: Config, s: State, w: Id, c: Id)
    requires WellFormed(g) && Inv(g, cfg, s) && w in s.workers && Fails(s, w) && Ancestor(g.down, w, c)
    ensures Shaped(g, s) && c in g.nodes && c != w && c !in s.workers && !Enqueued(s, c) && OpenIn(g, s, c) != {}
    ensures NodeOk(g, s, c) && (s.status[c].Pending? || s.status[c].Skipped?)
    ensures !Holds(s.pc, c) && !Launches(s.pc, c)
  {
    hide Counted, EnqueuedOk, PushOk, NoneMissed, NoneDropped, SkipOk, FlagOk, OpenIn, WellFormed;
    var b, k := BlockedNode(g, cfg, s, w, c);
    assert NodeOk(g, s, c);
  }

  lemma MarkedDealt(g: Dag, s: State, t: State, w: Id, c: Id)
    requires Shaped(g, s) && Shaped(g, t) && w in g.nodes && c in g.nodes && Untouched(g, s, t, {w, c})
    requires Dealt(g, t, w) == Dealt(g, s, w) && Dealt(g, t, c) == Dealt(g, s, c)
    ensures DealtMap(g, t) == DealtMap(g, s)
  {
    forall n | n in g.nodes ensures Dealt(g, t, n) == Dealt(g, s, n) {
    }
  }

  lemma MarkedKeepsCounted(g: Dag, s: State, t: State, c: Id)
    requires Counted(g, s) && Shaped(g, t) && DealtMap(g, t) == DealtMap(g, s) && c in g.nodes
    requires t.status == s.status[c := Skipped] && t.indegree == s.indegree
    ensures Counted(g, t)
  {
    forall x | x in g.nodes ensures CounterOk(g, t, x) {
      assert CounterOk(g, s, x);
    }
  }

  lemma MarkedKeepsEnqueued(g: Dag, s: State, t: State, c: Id)
    requires Shaped(g, s) && Shaped(g, t) && DealtMap(g, t) == DealtMap(g, s) && c in g.nodes
    requires t.status == s.status[c := Skipped] && t.log == s.log && !Enqueued(s, c) && EnqueuedOk(g, s)
    ensures EnqueuedOk(g, t)
  {
    assert forall x :: Enqueued(t, x) == Enqueued(s, x);
    assert forall x :: OpenIn(g, t, x) == OpenIn(g, s, x);
  }

  lemma MarkedKeepsPush(g: Dag, s: State, t: State, c: Id)
    requires Shaped(g, s) && Shaped(g, t) && DealtMap(g, t) == DealtMap(g, s) && c in g.nodes
    requires t.status == s.status[c := Skipped] && t.log == s.log && PushFrame(g, s, t) && OpenIn(g, s, c) != {}
    requires PushOk(g, s) && NoneMissed(g, s)
    ensures PushOk(g, t) && NoneMissed(g, t)
  {
    assert forall x :: OpenIn(g, t, x) == OpenIn(g, s, x);
    hide DealtMap, OpenIn, Pushes;
    forall x | x in g.nodes && OpenIn(g, t, x) == {} && !t.status[x].Skipped?
      ensures Enqueued(t, x) || exists v :: Pushes(g, t, v, x)
    {
      if !Enqueued(s, x) {
        var v :| Pushes(g, s, v, x);
        assert Pushes(g, t, v, x);
      }
    }
  }

  lemma MarkedPush(g: Dag, s: State, t: State, w: Id, c: Id)
    requires Shaped(g, s) && Shaped(g, t) && Untouched(g, s, t, {w, c}) && c !in s.workers && c !in t.workers
    requires w in s.workers && w in t.workers && !s.workers[w].Pushing? && !t.workers[w].Pushing?
    ensures PushFrame(g, s, t)
  {
    forall v, x ensures Pushes(g, t, v, x) == Pushes(g, s, v, x) {
    }
  }

  lemma MarkedSweep(g: Dag, s: State, t: State, w: Id, visited: set<Id>, todo: seq<Id>, c: Id)
    requires Shaped(g, s) && Shaped(g, t) && w in s.workers && s.workers[w] == Visiting(visited, [c] + todo)
    requires SweepOk(g, s, w) && c in g.nodes && t.status == s.status[c := Skipped]
    requires w in t.workers && t.workers[w] == Recording(visited, todo, c)
    ensures SweepOk(g, t, w)
  {
    hide Distinct, Elements, Sweep;
    DistinctCons(c, todo);
    SweepMarks(g, s, t, w, visited, Elements([c] + todo), c);
  }

  lemma DistinctCons(c: Id, todo: seq<Id>)
    requires Distinct([c] + todo)
    ensures Distinct(todo) && c !in todo && Elements([c] + todo) == Elements(todo) + {c}
  {
    var list := [c] + todo;
    assert forall i :: 0 <= i < |todo| ==> list[i + 1] == todo[i];
    assert list[0] == c;
  }

  lemma SweepMarks(g: Dag, s: State, t: State, w: Id, visited: set<Id>, pending: set<Id>, c: Id)
    requires Shaped(g, s) && Shaped(g, t) && Sweep(g, s, w, visited, pending) && t.status == s.status[c := Skipped]
    ensures Sweep(g, t, w, visited, pending)
  {
    hide Ancestor, Edge;
  }

  lemma MarkedKeepsSkip(g: Dag, cfg: Config, s: State, t: State, w: Id, visited: set<Id>, todo: seq<Id>, c: Id)
    requires SkipOk(g, cfg, s) && Shaped(g, s) && Shaped(g, t) && cfg.failPolicy.SkipDownstream?
    requires w in s.workers && s.workers[w] == Visiting(visited, [c] + todo) && Fails(s, w) && c in g.nodes && c != w
    requires t == Marked(s, w, visited, todo, c) && Ancestor(g.down, w, c) && !Finished(s.status[c])
    ensures SkipOk(g, cfg, t)
  {
    hide SkipOk, SweepOk;
    SweepOkAt(g, cfg, s, w);
    MarkedSweep(g, s, t, w, visited, todo, c);
    forall n | n in g.nodes && t.status[n].Skipped? ensures Recorded(t, n) {
      if n == c {
        assert t.workers[w].Recording? && t.workers[w].child == c;
      } else {
        RecordedKept(g, cfg, s, t, w, n);
      }
    }
    assert SweepStep(g, s, t, w) by {
      hide Ancestor;
    }
    SweepStepKeepsSkip(g, cfg, s, t, w);
  }

  lemma NextInSweep(g: Dag, cfg: Config, s: State, w: Id, visited: set<Id>, todo: seq<Id>, c: Id)
    requires SkipOk(g, cfg, s) && w in s.workers && s.workers[w] == Visiting(visited, [c] + todo)
    ensures Ancestor(g.down, w, c)
  {
    hide SkipOk;
    SweepOkAt(g, cfg, s, w);
    assert c in Elements([c] + todo);
  }

  lemma MarkedNodes(g: Dag, cfg: Config, s: State, t: State, w: Id, visited: set<Id>, todo: seq<Id>, c: Id)
    requires Shaped(g, s) && Shaped(g, t) && w in s.workers && s.workers[w].Visiting? && PhaseOk(g, cfg, s, w) &&
             NodeOk(g, s, w)
    requires t == Marked(s, w, visited, todo, c) && c in g.nodes && c != w && c !in s.workers && NodeOk(g, s, c)
    requires s.status[c].Pending? || s.status[c].Skipped?
    ensures LogFrame(s, t) && forall n :: Fails(s, n) ==> Fails(t, n)
    ensures Untouched(g, s, t, {w, c}) && PhaseOk(g, cfg, t, w) && NodeOk(g, t, w) && NodeOk(g, t, c)
    ensures Dealt(g, t, w) == Dealt(g, s, w) && Dealt(g, t, c) == Dealt(g, s, c)
  {
  }

  lemma MarkedKeepsInv(g: Dag, cfg: Config, s: State, w: Id, visited: set<Id>, todo: seq<Id>, c: Id)
    requires WellFormed(g) && Inv(g, cfg, s) && w in s.workers && s.workers[w] == Visiting(visited, [c] + todo)
    ensures c in g.nodes && Inv(g, cfg, Marked(s, w, visited, todo, c))
  {
    hide Coherent, Counted, QueueOk, EnqueuedOk, PushOk, NoneMissed, NoneDropped, SkipOk, FlagOk, SlotsOk, DealtMap,
      PushFrame, OpenIn, WellFormed;
    var t := Marked(s, w, visited, todo, c);
    WorkerFacts(g, cfg, s, w);
    NextInSweep(g, cfg, s, w, visited, todo, c);
    MarkedFacts(g, cfg, s, w, c);
    assert Shaped(g, t);
    MarkedNodes(g, cfg, s, t, w, visited, todo, c);
    MarkedKeepsSkip(g, cfg, s, t, w, visited, todo, c);
    hide PhaseOk, NodeOk, Untouched, StatusFrame, LogFrame, Dealt, Shaped, Reserves;
    MoveSlots(cfg, s, t, w);
    CoherentFrame(g, cfg, s, t, {w, c});
    SameQueue(g, cfg, s, t);
    MarkedDealt(g, s, t, w, c);
    MarkedPush(g, s, t, w, c);
    MarkedKeepsCounted(g, s, t, c);
    MarkedKeepsEnqueued(g, s, t, c);
    MarkedKeepsPush(g, s, t, c);
    SameFlag(g, s, t);
  }

  /* ---- the pass records one node and goes on to its children ---- */

  ghost function Went(s: State, w: Id, c: Id, visited: set<Id>, todo: seq<Id>): State {
    Move(s, w, Visiting(visited, todo)).(results := s.results[c := Skipped], log := s.log + [SkippedBy(c, w)])
  }

  lemma GrownSweep(g: Dag, s: State, w: Id, c: Id, visited: set<Id>, pending: set<Id>, children: set<Id>)
    requires Shaped(g, s) && Sweep(g, s, w, visited, pending + {c}) && c !in pending && c in g.nodes &&
             s.status[c].Skipped?
    requires children <= g.nodes && forall v :: v in children <==> Edge(g.down, c, v)
    ensures Sweep(g, s, w, visited + children, pending + (children - visited))
  {
    hide Ancestor, Edge;
    forall v | v in children ensures Ancestor(g.down, w, v) {
      AncestorExtends(g.down, w, c, v);
    }
    var seen, queued := visited + children, pending + (children - visited);
    forall v | v in seen - queued ensures s.status[v].Skipped? && (v == c || v in visited - (pending + {c})) {
    }
    forall v, u | v in seen - queued && Edge(g.down, v, u) ensures u in seen {
    }
  }

  lemma NextSweep(g: Dag, s: State, w: Id, c: Id, visited: set<Id>, todo: seq<Id>)
    requires WellFormed(g) && Shaped(g, s) && w in s.workers && s.workers[w] == Recording(visited, todo, c) &&
             SweepOk(g, s, w)
    ensures c in g.nodes
    ensures var r := Discover(g.down[c], visited, todo); Distinct(r.1) && Sweep(g, s, w, r.0, Elements(r.1))
  {
    assert c !in Elements(todo) && Elements(todo) <= visited;
    hide Distinct, Elements, Discover, WellFormed, Sweep;
    ChildrenOf(g, c);
    DiscoverSpec(g.down[c], visited, todo);
    GrownSweep(g, s, w, c, visited, Elements(todo), Elements(g.down[c]));
  }

  lemma WentSweep(g: Dag, s: State, t: State, w: Id, visited: set<Id>, todo: seq<Id>)
    requires Shaped(g, s) && Shaped(g, t) && t.status == s.status && w in t.workers
    requires t.workers[w] == Visiting(visited, todo) && Distinct(todo) && Sweep(g, s, w, visited, Elements(todo))
    ensures SweepOk(g, t, w)
  {
    hide Distinct, Elements, Ancestor;
  }

  lemma WentKeepsSkip(g: Dag, cfg: Config, s: State, t: State, w: Id, c: Id, visited: set<Id>, todo: seq<Id>)
    requires SkipOk(g, cfg, s) && Shaped(g, s) && Shaped(g, t) && cfg.failPolicy.SkipDownstream?
    requires w in s.workers && s.workers[w].Recording? && s.workers[w].child == c
    requires t == Went(s, w, c, visited, todo) && SweepOk(g, t, w) && !Fails(s, c) && w != c
    ensures SkipOk(g, cfg, t)
  {
    hide SkipOk, SweepOk, Ancestor;
    forall n | n in g.nodes && t.status[n].Skipped? ensures Recorded(t, n) {
      SkippedIsRecorded(g, cfg, s, n);
      if n !in s.results && n != c {
        var v :| v in s.workers && s.workers[v].Recording? && s.workers[v].child == n;
        assert t.workers[v] == s.workers[v];
      }
    }
    SweepStepKeepsSkip(g, cfg, s, t, w);
  }

  lemma WentNodes(g: Dag, cfg: Config, s: State, t: State, w: Id, c: Id, visited: set<Id>, todo: seq<Id>)
    requires Shaped(g, s) && Shaped(g, t) && w in s.workers && s.workers[w].Recording? && PhaseOk(g, cfg, s, w)
    requires t == Went(s, w, c, visited, todo) && c in g.nodes && s.status[c].Skipped? && c != w && c !in s.workers
    requires !Fails(s, c)
    ensures LogFrame(s, t) && forall n :: Fails(s, n) ==> Fails(t, n)
    ensures Untouched(g, s, t, {w, c}) && StatusFrame(g, s, t) && PhaseOk(g, cfg, t, w) && NodeOk(g, t, w) &&
            NodeOk(g, t, c)
    ensures Dealt(g, t, w) == Dealt(g, s, w) && Dealt(g, t, c) == Dealt(g, s, c)
  {
  }

  lemma WentKeepsRest(g: Dag, cfg: Config, s: State, t: State, w: Id, c: Id, visited: set<Id>, todo: seq<Id>)
    requires Inv(g, cfg, s) && w in s.workers && s.workers[w].Recording? && Shaped(g, s) && Shaped(g, t)
    requires t == Went(s, w, c, visited, todo) && c in g.nodes && s.status[c].Skipped? && c != w
    ensures Coherent(g, cfg, t) && QueueOk(g, t) && NoneDropped(g, cfg, t) && FlagOk(g, t) && SlotsOk(cfg, t)
    ensures Counted(g, t) && EnqueuedOk(g, t) && PushOk(g, t) && NoneMissed(g, t)
  {
    hide Coherent, Counted, QueueOk, EnqueuedOk, PushOk, NoneMissed, NoneDropped, SkipOk, FlagOk, SlotsOk, DealtMap,
         PushFrame;
    WorkerFacts(g, cfg, s, w);
    RecordingFacts(g, cfg, s, c);
    WentNodes(g, cfg, s, t, w, c, visited, todo);
    hide PhaseOk, NodeOk, Untouched, StatusFrame, LogFrame, Dealt, Shaped, Fails, Reserves;
    MoveSlots(cfg, s, t, w);
    CoherentFrame(g, cfg, s, t, {w, c});
    SameQueue(g, cfg, s, t);
    MarkedDealt(g, s, t, w, c);
    MarkedPush(g, s, t, w, c);
    SameBoard(g, s, t);
    SameFlag(g, s, t);
  }

  lemma WentKeepsInv(g: Dag, cfg: Config, s: State, w: Id, c: Id, visited: set<Id>, todo: seq<Id>)
    requires WellFormed(g) && Inv(g, cfg, s) && w in s.workers && s.workers[w] == Recording(visited, todo, c)
    ensures c in g.down
    ensures var r := Discover(g.down[c], visited, todo); Inv(g, cfg, Went(s, w, c, r.0, r.1))
  {
    hide Coherent, Counted, QueueOk, EnqueuedOk, PushOk, NoneMissed, NoneDropped, SkipOk, FlagOk, SlotsOk,
      Sweep, Discover, Distinct, Elements, WellFormed;
    WorkerFacts(g, cfg, s, w);
    SweepOkAt(g, cfg, s, w);
    NextSweep(g, s, w, c, visited, todo);
    var r := Discover(g.down[c], visited, todo);
    var t := Went(s, w, c, r.0, r.1);
    RecordingFacts(g, cfg, s, c);
    WentKeepsRest(g, cfg, s, t, w, c, r.0, r.1);
    WentSweep(g, s, t, w, r.0, r.1);
    WentKeepsSkip(g, cfg, s, t, w, c, r.0, r.1);
  }

  lemma RecordingFacts(g: Dag, cfg: Config, s: State, c: Id)
    requires Coherent(g, cfg, s) && c in g.nodes && s.status[c].Skipped?
    ensures NodeOk(g, s, c) && c !in s.workers && !Fails(s, c) && !Holds(s.pc, c) && !Launches(s.pc, c)
  {
    assert NodeOk(g, s, c);
  }
}
