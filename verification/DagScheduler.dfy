/** Every step of the scheduling thread keeps the invariant.  The facts about a
    single state and the frame lemmas serve the workers' steps as well. */
module DagScheduler {
  import opened TaskCommon
  import opened Graphs
  import opened DagProtocol
  import opened DagInvariant

  /* ---- facts about one state ---- */

  lemma CoherentIsShaped(g: Dag, cfg: Config, s: State)
    requires Coherent(g, cfg, s)
    ensures Shaped(g, s)
  {
  }

  /** Both status guards of the scheduling thread always let the node through. */
  lemma HeldIsPending(g: Dag, cfg: Config, s: State, id: Id)
    requires Inv(g, cfg, s) && Holds(s.pc, id)
    ensures Shaped(g, s) && id in g.nodes && s.status[id].Pending? && Enqueued(s, id)
    ensures id !in s.workers && id !in s.results
  {
    hide Counted, EnqueuedOk, PushOk, NoneMissed, NoneDropped, SkipOk, FlagOk;
    assert NodeOk(g, s, id);
  }

  lemma LaunchedIsRunning(g: Dag, cfg: Config, s: State, id: Id)
    requires Inv(g, cfg, s) && Launches(s.pc, id)
    ensures Shaped(g, s) && id in g.nodes && s.status[id].Running? && id !in s.workers && id !in s.results
  {
    hide Counted, EnqueuedOk, PushOk, NoneMissed, NoneDropped, SkipOk, FlagOk;
    assert NodeOk(g, s, id);
  }

  lemma DealtMeansSuccess(g: Dag, cfg: Config, s: State, p: Id)
    requires Coherent(g, cfg, s) && p in g.nodes && Dealt(g, s, p) > 0
    ensures s.status[p].Success?
  {
    if p in s.workers {
      assert PhaseOk(g, cfg, s, p);
    }
  }

  /** With no open edge left, every direct predecessor has succeeded. */
  lemma ClosedMeansDepsSucceeded(g: Dag, cfg: Config, s: State, p: Id, c: Id)
    requires WellFormed(g) && Coherent(g, cfg, s) && Edge(g.down, p, c) && OpenIn(g, s, c) == {}
    ensures p in g.nodes && s.status[p].Success?
  {
    var k :| 0 <= k < |g.down[p]| && g.down[p][k] == c;
    assert (p, k) !in OpenIn(g, s, c);
    DealtMeansSuccess(g, cfg, s, p);
  }

  lemma EnqueuedParent(g: Dag, cfg: Config, s: State, p: Id, c: Id)
    requires WellFormed(g) && Coherent(g, cfg, s) && EnqueuedOk(g, s) && Enqueued(s, c) && Edge(g.down, p, c)
    ensures p in g.nodes && s.status[p].Success? && Enqueued(s, p)
  {
    ClosedMeansDepsSucceeded(g, cfg, s, p, c);
  }

  /** Every proper ancestor of an enqueued node has succeeded. */
  lemma EnqueuedAncestor(g: Dag, cfg: Config, s: State, a: Id, c: Id)
    requires WellFormed(g) && Coherent(g, cfg, s) && EnqueuedOk(g, s)
    requires Enqueued(s, c) && Ancestor(g.down, a, c)
    ensures a in g.nodes && s.status[a].Success?
  {
    assert c in g.nodes;
    hide WellFormed, Coherent, EnqueuedOk, Enqueued, Edge;
    var p :| Connects(g.down, p, a, c);
    var enqueued := set n | n in g.nodes && Enqueued(s, n);
    forall x, y | y in enqueued && Edge(g.down, x, y) ensures x in enqueued {
      EnqueuedParent(g, cfg, s, x, y);
    }
    PredecessorClosedPath(g.down, enqueued, p[1..]);
    EnqueuedParent(g, cfg, s, p[0], p[1]);
  }

  lemma FailsIsNotSuccess(g: Dag, cfg: Config, s: State, a: Id)
    requires Coherent(g, cfg, s) && Fails(s, a)
    ensures a in g.nodes && !s.status[a].Success? && !s.status[a].Pending? && !s.status[a].Skipped?
  {
    assert NodeOk(g, s, a);
  }

  /** A descendant of a failed node never was ready, and an edge into it from
      a node that has not succeeded is still open. */
  lemma BlockedNode(g: Dag, cfg: Config, s: State, a: Id, v: Id) returns (b: Id, k: nat)
    requires WellFormed(g) && Coherent(g, cfg, s) && EnqueuedOk(g, s)
    requires Fails(s, a) && Ancestor(g.down, a, v)
    ensures v in g.nodes && !Enqueued(s, v)
    ensures s.status[v].Pending? || s.status[v].Skipped?
    ensures v !in s.workers && v != a
    ensures b in g.nodes && !s.status[b].Success? && (b, k) in OpenIn(g, s, v)
  {
    FailsIsNotSuccess(g, cfg, s, a);
    if Enqueued(s, v) {
      EnqueuedAncestor(g, cfg, s, a, v);
      assert false;
    }
    b := AncestorLastEdge(g.down, a, v);
    assert NodeOk(g, s, v);
    assert NodeOk(g, s, a);
    k :| 0 <= k < |g.down[b]| && g.down[b][k] == v;
    if s.status[b].Success? {
      EnqueuedAncestor(g, cfg, s, a, b);
      assert false;
    }
    if Dealt(g, s, b) > 0 {
      DealtMeansSuccess(g, cfg, s, b);
      assert false;
    }
  }

  /* ---- the scheduling thread ---- */

  /** A step that only moves the scheduling thread; a node it lets go of is
      either stopped by fail-fast or nameless. */
  ghost predicate Moves(cfg: Config, s: State, q: Pc) {
    && !q.Increment? && !q.Post? && !s.pc.Increment? && !s.pc.Post?
    && (forall id :: Holds(q, id) ==> Holds(s.pc, id))
    && (forall id :: Holds(s.pc, id) ==> Holds(q, id) || FailedFast(cfg, s) || Nameless(id))
  }

  lemma SameDealt(g: Dag, s: State, t: State)
    requires Shaped(g, s) && Shaped(g, t) && t.workers == s.workers && t.status == s.status
    ensures DealtMap(g, t) == DealtMap(g, s)
  {
  }

  /** Only the status of enqueued nodes may differ, and none of those is Skipped. */
  ghost predicate StatusFrame(g: Dag, s: State, t: State)
    requires Shaped(g, s) && Shaped(g, t)
  {
    forall c :: c in g.nodes ==>
      t.status[c] == s.status[c] || (Enqueued(s, c) && !t.status[c].Skipped? && !s.status[c].Skipped?)
  }

  ghost predicate LogFrame(s: State, t: State) {
    forall c :: Enqueued(t, c) == Enqueued(s, c)
  }

  ghost predicate PushFrame(g: Dag, s: State, t: State) {
    forall w, c :: Pushes(g, t, w, c) == Pushes(g, s, w, c)
  }

  lemma SameCounted(g: Dag, s: State, t: State)
    requires Counted(g, s) && Shaped(g, t) && DealtMap(g, t) == DealtMap(g, s)
    requires StatusFrame(g, s, t) && t.indegree == s.indegree
    ensures Counted(g, t)
  {
    forall c | c in g.nodes ensures CounterOk(g, t, c) {
      assert CounterOk(g, s, c);
    }
  }

  lemma SameEnqueued(g: Dag, s: State, t: State)
    requires Shaped(g, s) && Shaped(g, t) && DealtMap(g, t) == DealtMap(g, s)
    requires StatusFrame(g, s, t) && LogFrame(s, t) && EnqueuedOk(g, s)
    ensures EnqueuedOk(g, t)
  {
    assert forall c :: OpenIn(g, t, c) == OpenIn(g, s, c);
  }

  lemma SamePush(g: Dag, s: State, t: State)
    requires Shaped(g, s) && Shaped(g, t) && DealtMap(g, t) == DealtMap(g, s)
    requires StatusFrame(g, s, t) && LogFrame(s, t) && PushFrame(g, s, t) && PushOk(g, s)
    ensures PushOk(g, t)
  {
    assert forall c :: OpenIn(g, t, c) == OpenIn(g, s, c);
  }

  lemma SameMissed(g: Dag, s: State, t: State)
    requires Shaped(g, s) && Shaped(g, t) && DealtMap(g, t) == DealtMap(g, s)
    requires StatusFrame(g, s, t) && LogFrame(s, t) && PushFrame(g, s, t) && NoneMissed(g, s)
    ensures NoneMissed(g, t)
  {
    forall c | c in g.nodes && OpenIn(g, t, c) == {} && !t.status[c].Skipped?
      ensures Enqueued(t, c) || exists w :: Pushes(g, t, w, c)
    {
      assert OpenIn(g, s, c) == {};
      if !Enqueued(s, c) {
        var w :| Pushes(g, s, w, c);
        assert Pushes(g, t, w, c);
      }
    }
  }

  lemma SameBoard(g: Dag, s: State, t: State)
    requires Shaped(g, s) && Shaped(g, t) && DealtMap(g, t) == DealtMap(g, s) && t.indegree == s.indegree
    requires StatusFrame(g, s, t) && LogFrame(s, t) && PushFrame(g, s, t)
    requires Counted(g, s) && EnqueuedOk(g, s) && PushOk(g, s) && NoneMissed(g, s)
    ensures Counted(g, t) && EnqueuedOk(g, t) && PushOk(g, t) && NoneMissed(g, t)
  {
    hide Counted, EnqueuedOk, PushOk, NoneMissed, StatusFrame, LogFrame, PushFrame, DealtMap;
    SameCounted(g, s, t);
    SameEnqueued(g, s, t);
    SamePush(g, s, t);
    SameMissed(g, s, t);
  }

  /** The queue and the scheduling thread's hold on nodes are untouched. */
  lemma SameQueue(g: Dag, cfg: Config, s: State, t: State)
    requires Shaped(g, s) && Shaped(g, t) && QueueOk(g, s) && NoneDropped(g, cfg, s)
    requires t.ready == s.ready && (s.failed ==> t.failed)
    requires LogFrame(s, t)
    requires forall c :: Holds(t.pc, c) == Holds(s.pc, c)
    requires forall c :: c in g.nodes && Enqueued(s, c) ==> t.status[c].Pending? == s.status[c].Pending?
    ensures QueueOk(g, t) && NoneDropped(g, cfg, t)
  {
  }

  lemma MoveKeepsCoherent(g: Dag, cfg: Config, s: State, q: Pc)
    requires Coherent(g, cfg, s) && Moves(cfg, s, q)
    ensures Coherent(g, cfg, s.(pc := q))
  {
    var t := s.(pc := q);
    assert Shaped(g, t);
    forall w | w in t.workers ensures PhaseOk(g, cfg, t, w) {
      assert PhaseOk(g, cfg, s, w);
    }
    forall n | n in g.nodes ensures NodeOk(g, t, n) {
      assert NodeOk(g, s, n);
    }
  }

  lemma MoveKeepsQueue(g: Dag, cfg: Config, s: State, q: Pc)
    requires Shaped(g, s) && Moves(cfg, s, q) && QueueOk(g, s) && NoneDropped(g, cfg, s)
    ensures var t := s.(pc := q); Shaped(g, t) && QueueOk(g, t) && NoneDropped(g, cfg, t)
  {
  }

  /** Nothing that skipping depends on changes between `s` and `t`. */
  ghost predicate SkipFrame(g: Dag, cfg: Config, s: State, t: State)
    requires Shaped(g, s) && Shaped(g, t)
  {
    && (forall n :: n in g.nodes ==> t.status[n].Skipped? == s.status[n].Skipped?)
    && (forall w :: w in t.workers && (t.workers[w].Visiting? || t.workers[w].Recording?) ==>
          w in s.workers && s.workers[w] == t.workers[w])
    && (forall w :: w in s.workers && s.workers[w].Recording? ==> w in t.workers && t.workers[w] == s.workers[w])
    && (forall a :: Fails(s, a) ==> Fails(t, a))
    && (forall n :: n in s.results ==> n in t.results)
    && (cfg.failPolicy.SkipDownstream? ==> forall n :: Swept(t, n) ==> Swept(s, n))
  }

  lemma SameSkip(g: Dag, cfg: Config, s: State, t: State)
    requires SkipOk(g, cfg, s) && Shaped(g, t) && SkipFrame(g, cfg, s, t)
    ensures SkipOk(g, cfg, t)
  {
    forall w | w in t.workers ensures SweepOk(g, t, w) {
      if w in s.workers { assert SweepOk(g, s, w); }
    }
    forall n | n in g.nodes && t.status[n].Skipped? ensures exists a :: Blocks(g, t, a, n) {
      var a :| Blocks(g, s, a, n);
      assert Blocks(g, t, a, n);
    }
    forall n | n in g.nodes && t.status[n].Skipped?
      ensures n in t.results || exists w :: w in t.workers && t.workers[w].Recording? && t.workers[w].child == n
    {
      if n !in s.results {
        var w :| w in s.workers && s.workers[w].Recording? && s.workers[w].child == n;
        assert w in t.workers && t.workers[w].Recording? && t.workers[w].child == n;
      }
    }
  }

  lemma PopKeepsCoherent(g: Dag, cfg: Config, s: State)
    requires Coherent(g, cfg, s) && s.pc.Pop? && s.ready != [] && QueueOk(g, s)
    ensures Coherent(g, cfg, PopReady(s))
  {
    var t := PopReady(s);
    assert Shaped(g, t);
    forall w | w in t.workers ensures PhaseOk(g, cfg, t, w) {
      assert PhaseOk(g, cfg, s, w);
    }
    forall n | n in g.nodes ensures NodeOk(g, t, n) {
      assert NodeOk(g, s, n);
    }
    assert s.ready[0] in s.ready;
  }

  lemma PopKeepsQueue(g: Dag, cfg: Config, s: State)
    requires Shaped(g, s) && s.pc.Pop? && s.ready != [] && QueueOk(g, s) && NoneDropped(g, cfg, s)
    ensures Shaped(g, PopReady(s)) && QueueOk(g, PopReady(s)) && NoneDropped(g, cfg, PopReady(s))
  {
    var t := PopReady(s);
    assert s.ready == [s.ready[0]] + t.ready;
    forall c | c in t.ready ensures c in s.ready && c != s.ready[0] {
      var i :| 0 <= i < |t.ready| && t.ready[i] == c;
      assert s.ready[i + 1] == c;
    }
    assert s.ready[0] in s.ready;
  }

  /* A popped node becomes Running. */

  lemma StartKeepsCoherent(g: Dag, cfg: Config, s: State, id: Id)
    requires Coherent(g, cfg, s) && s.pc == SetRunning(id)
    ensures var t := s.(pc := Increment(id), status := s.status[id := Running]);
            Coherent(g, cfg, t) && DealtMap(g, t) == DealtMap(g, s)
  {
    var t := s.(pc := Increment(id), status := s.status[id := Running]);
    assert Holds(s.pc, id);
    assert Shaped(g, t);
    forall w | w in t.workers ensures PhaseOk(g, cfg, t, w) {
      assert PhaseOk(g, cfg, s, w);
      assert NodeOk(g, s, id);
    }
    forall n | n in g.nodes ensures NodeOk(g, t, n) {
      assert NodeOk(g, s, n);
    }
    forall n | n in g.nodes ensures Dealt(g, t, n) == Dealt(g, s, n) {
    }
  }

  lemma StartKeepsQueue(g: Dag, cfg: Config, s: State, id: Id)
    requires Shaped(g, s) && s.pc == SetRunning(id) && id in g.nodes && QueueOk(g, s) && NoneDropped(g, cfg, s)
    ensures var t := s.(pc := Increment(id), status := s.status[id := Running]);
            Shaped(g, t) && QueueOk(g, t) && NoneDropped(g, cfg, t)
  {
    assert Holds(s.pc, id);
  }

  /* The start of a node is counted and announced, then the node is posted. */

  lemma CountKeepsCoherent(g: Dag, cfg: Config, s: State, id: Id)
    requires Coherent(g, cfg, s) && s.pc == Increment(id)
    ensures Coherent(g, cfg, s.(pc := Post(id), running := s.running + 1, log := s.log + [Start(id)]))
  {
    var t := s.(pc := Post(id), running := s.running + 1, log := s.log + [Start(id)]);
    assert Launches(s.pc, id);
    assert Shaped(g, t);
    forall w | w in t.workers ensures PhaseOk(g, cfg, t, w) {
      assert PhaseOk(g, cfg, s, w);
    }
    forall n | n in g.nodes ensures NodeOk(g, t, n) {
      assert NodeOk(g, s, n);
    }
  }

  lemma PostKeepsCoherent(g: Dag, cfg: Config, s: State, id: Id)
    requires Coherent(g, cfg, s) && s.pc == Post(id)
    ensures var t := s.(pc := Test, workers := s.workers[id := Executing]);
            Coherent(g, cfg, t) && DealtMap(g, t) == DealtMap(g, s)
  {
    var t := s.(pc := Test, workers := s.workers[id := Executing]);
    assert Launches(s.pc, id);
    assert Shaped(g, t);
    forall w | w in t.workers ensures PhaseOk(g, cfg, t, w) {
      assert NodeOk(g, s, id);
      if w in s.workers { assert PhaseOk(g, cfg, s, w); }
    }
    forall n | n in g.nodes ensures NodeOk(g, t, n) {
      assert NodeOk(g, s, n);
    }
    forall n | n in g.nodes ensures Dealt(g, t, n) == Dealt(g, s, n) {
    }
  }

  /* The five kinds of scheduler step keep the whole invariant. */

  lemma SameFlag(g: Dag, s: State, t: State)
    requires FlagOk(g, s) && t.failed == s.failed && !t.pc.Finish? && !t.pc.Done?
    requires forall n :: Fails(s, n) ==> Fails(t, n)
    ensures FlagOk(g, t)
  {
    if s.failed {
      var n :| n in g.nodes && Fails(s, n);
      assert Fails(t, n);
    }
  }

  lemma MoveKeepsInv(g: Dag, cfg: Config, s: State, q: Pc)
    requires Inv(g, cfg, s) && Moves(cfg, s, q) && !q.Finish? && !q.Done?
    requires Reserves(q) ==> Reserves(s.pc) || s.running < Slots(cfg.maxParallel)
    ensures Inv(g, cfg, s.(pc := q))
  {
    hide Coherent, Counted, QueueOk, EnqueuedOk, PushOk, NoneMissed, NoneDropped, SkipOk, FlagOk;
    var t := s.(pc := q);
    CoherentIsShaped(g, cfg, s);
    MoveKeepsCoherent(g, cfg, s, q);
    MoveKeepsQueue(g, cfg, s, q);
    SameDealt(g, s, t);
    SameBoard(g, s, t);
    SameSkip(g, cfg, s, t);
    SameFlag(g, s, t);
  }

  lemma FinishKeepsInv(g: Dag, cfg: Config, s: State, q: Pc)
    requires Inv(g, cfg, s)
    requires q.Finish? ==> s.pc.ExitTest? && s.ready == [] && s.running == 0
    requires q.Done? ==> s.pc.Finish? && q.result == if s.failed then Failed else Success
    requires q.Finish? || q.Done?
    ensures Inv(g, cfg, s.(pc := q))
  {
    hide Coherent, Counted, QueueOk, EnqueuedOk, PushOk, NoneMissed, NoneDropped, SkipOk;
    var t := s.(pc := q);
    CoherentIsShaped(g, cfg, s);
    MoveKeepsCoherent(g, cfg, s, q);
    MoveKeepsQueue(g, cfg, s, q);
    SameDealt(g, s, t);
    SameBoard(g, s, t);
    SameSkip(g, cfg, s, t);
    if s.failed {
      var n :| n in g.nodes && Fails(s, n);
      assert Fails(t, n);
    }
    assert |s.workers| == 0;
  }

  lemma PopKeepsInv(g: Dag, cfg: Config, s: State)
    requires Inv(g, cfg, s) && s.pc.Pop? && s.ready != []
    ensures Inv(g, cfg, PopReady(s))
  {
    hide Coherent, Counted, QueueOk, EnqueuedOk, PushOk, NoneMissed, NoneDropped, SkipOk, FlagOk;
    var t := PopReady(s);
    CoherentIsShaped(g, cfg, s);
    PopKeepsCoherent(g, cfg, s);
    PopKeepsQueue(g, cfg, s);
    SameDealt(g, s, t);
    SameBoard(g, s, t);
    SameSkip(g, cfg, s, t);
    SameFlag(g, s, t);
  }

  lemma StartKeepsInv(g: Dag, cfg: Config, s: State, id: Id)
    requires Inv(g, cfg, s) && s.pc == SetRunning(id)
    ensures Inv(g, cfg, s.(pc := Increment(id), status := s.status[id := Running]))
  {
    hide Coherent, Counted, QueueOk, EnqueuedOk, PushOk, NoneMissed, NoneDropped, SkipOk, FlagOk;
    var t := s.(pc := Increment(id), status := s.status[id := Running]);
    HeldIsPending(g, cfg, s, id);
    StartKeepsCoherent(g, cfg, s, id);
    StartKeepsQueue(g, cfg, s, id);
    SameBoard(g, s, t);
    SameSkip(g, cfg, s, t);
    SameFlag(g, s, t);
  }

  lemma CountKeepsInv(g: Dag, cfg: Config, s: State, id: Id)
    requires Inv(g, cfg, s) && s.pc == Increment(id)
    ensures Inv(g, cfg, s.(pc := Post(id), running := s.running + 1, log := s.log + [Start(id)]))
  {
    hide Coherent, Counted, QueueOk, EnqueuedOk, PushOk, NoneMissed, NoneDropped, SkipOk, FlagOk;
    var t := s.(pc := Post(id), running := s.running + 1, log := s.log + [Start(id)]);
    CoherentIsShaped(g, cfg, s);
    CountKeepsCoherent(g, cfg, s, id);
    SameDealt(g, s, t);
    SameQueue(g, cfg, s, t);
    SameBoard(g, s, t);
    SameSkip(g, cfg, s, t);
    SameFlag(g, s, t);
  }

  lemma PostFrames(g: Dag, cfg: Config, s: State, t: State, id: Id)
    requires Shaped(g, s) && Shaped(g, t) && id in g.nodes && id !in s.workers && s.status[id].Running?
    requires t == s.(pc := Test, workers := s.workers[id := Executing])
    ensures SkipFrame(g, cfg, s, t) && PushFrame(g, s, t)
  {
    forall n | Swept(t, n) ensures Swept(s, n) {
    }
    forall w, c ensures Pushes(g, t, w, c) == Pushes(g, s, w, c) {
    }
  }

  lemma AddWorkerCount(m: map<Id, Phase>, id: Id, ph: Phase)
    requires id !in m
    ensures |m[id := ph]| == |m| + 1
  {
    assert m[id := ph].Keys == m.Keys + {id};
  }

  lemma PostKeepsInv(g: Dag, cfg: Config, s: State, id: Id)
    requires Inv(g, cfg, s) && s.pc == Post(id)
    ensures Inv(g, cfg, s.(pc := Test, workers := s.workers[id := Executing]))
  {
    hide Coherent, Counted, QueueOk, EnqueuedOk, PushOk, NoneMissed, NoneDropped, SkipOk, FlagOk, SkipFrame, PushFrame;
    var t := s.(pc := Test, workers := s.workers[id := Executing]);
    LaunchedIsRunning(g, cfg, s, id);
    PostKeepsCoherent(g, cfg, s, id);
    CoherentIsShaped(g, cfg, t);
    PostFrames(g, cfg, s, t, id);
    AddWorkerCount(s.workers, id, Executing);
    SameQueue(g, cfg, s, t);
    SameBoard(g, s, t);
    SameSkip(g, cfg, s, t);
    SameFlag(g, s, t);
  }

  lemma SchedulerKeepsInv(g: Dag, cfg: Config, s: State)
    requires Inv(g, cfg, s) && SchedulerEnabled(cfg, s)
    ensures Inv(g, cfg, SchedulerStep(cfg, s))
  {
    hide Inv;
    match s.pc
    case Test => MoveKeepsInv(g, cfg, s, SchedulerStep(cfg, s).pc);
    case Pop => if s.ready == [] { MoveKeepsInv(g, cfg, s, ExitTest); } else { PopKeepsInv(g, cfg, s); }
    case Check(id) =>
      HeldIsPending(g, cfg, s, id);
      MoveKeepsInv(g, cfg, s, FailCheck(id));
    case FailCheck(id) => MoveKeepsInv(g, cfg, s, SchedulerStep(cfg, s).pc);
    case Guard(id) =>
      HeldIsPending(g, cfg, s, id);
      MoveKeepsInv(g, cfg, s, SetRunning(id));
    case SetRunning(id) => StartKeepsInv(g, cfg, s, id);
    case Increment(id) => CountKeepsInv(g, cfg, s, id);
    case Post(id) => PostKeepsInv(g, cfg, s, id);
    case ExitTest =>
      if s.ready == [] && s.running == 0 { FinishKeepsInv(g, cfg, s, Finish); } else { MoveKeepsInv(g, cfg, s, Wait); }
    case Wait => MoveKeepsInv(g, cfg, s, Test);
    case Finish => FinishKeepsInv(g, cfg, s, SchedulerStep(cfg, s).pc);
  }
}
