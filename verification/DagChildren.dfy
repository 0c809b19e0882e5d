/** After a success: the worker deals with its children one edge at a time. */
module DagChildren {
  import opened Graphs
  import opened DagProtocol
  import opened DagInvariant
  import opened DagScheduler
  import opened DagWorkers

  lemma NextEdgeIsOpen(g: Dag, s: State, w: Id, k: nat, c: Id)
    requires Shaped(g, s) && w in g.nodes && Dealt(g, s, w) == k && k < |g.down[w]| && c == g.down[w][k]
    ensures (w, k) in OpenIn(g, s, c)
  {
  }

  lemma OpenChildFacts(g: Dag, cfg: Config, s: State, w: Id, k: nat, c: Id)
    requires Coherent(g, cfg, s) && EnqueuedOk(g, s) && PushOk(g, s) && c in g.nodes && (w, k) in OpenIn(g, s, c)
    ensures !Enqueued(s, c) && c !in s.workers && (s.status[c].Pending? || s.status[c].Skipped?)
    ensures forall v :: !Pushes(g, s, v, c)
  {
    assert NodeOk(g, s, c);
  }

  /** The edge a worker is about to deal with is open, so its child was never ready. */
  lemma ChildFacts(g: Dag, cfg: Config, s: State, w: Id, k: nat, c: Id)
    requires WellFormed(g) && Inv(g, cfg, s) && w in s.workers && w in g.down
    requires s.workers[w] == Looking(k) || s.workers[w] == Decrementing(k)
    requires k < |g.down[w]| && c == g.down[w][k]
    ensures Shaped(g, s) && c in g.nodes && c != w && (w, k) in OpenIn(g, s, c)
    ensures !Enqueued(s, c) && c !in s.workers && (s.status[c].Pending? || s.status[c].Skipped?)
    ensures forall v :: !Pushes(g, s, v, c)
  {
    hide Coherent, Counted, QueueOk, EnqueuedOk, PushOk, NoneMissed, NoneDropped, SkipOk, FlagOk, OpenIn;
    WorkerFacts(g, cfg, s, w);
    assert Edge(g.down, w, c);
    NextEdgeIsOpen(g, s, w, k, c);
    OpenChildFacts(g, cfg, s, w, k, c);
  }

  /** The worker goes on to another stage of dealing with its children. */
  lemma ChildMoveIsOwnStep(g: Dag, cfg: Config, s: State, t: State, w: Id, ph: Phase)
    requires Shaped(g, s) && Shaped(g, t) && w in s.workers && PhaseOk(g, cfg, s, w)
    requires s.workers[w].Looking? || s.workers[w].Decrementing?
    requires t == Move(s, w, ph).(indegree := t.indegree)
    requires (ph.Looking? && ph.k <= |g.down[w]|) || (ph.Pushing? && ph.k < |g.down[w]|)
    ensures OwnStep(g, cfg, s, t, w)
  {
  }

  /** One more edge of `w` is dealt with. */
  ghost predicate Advanced(g: Dag, s: State, t: State, w: Id, k: nat)
    requires Shaped(g, s) && Shaped(g, t)
  {
    && w in g.nodes && w in g.down && k < |g.down[w]|
    && w in DealtMap(g, s) && DealtMap(g, s)[w] == k
    && DealtMap(g, t) == DealtMap(g, s)[w := k + 1]
  }

  lemma AdvancedDealt(g: Dag, s: State, t: State, w: Id, k: nat)
    requires Shaped(g, s) && Shaped(g, t) && w in g.nodes && Untouched(g, s, t, {w})
    requires k < |g.down[w]| && Dealt(g, s, w) == k && Dealt(g, t, w) == k + 1
    ensures Advanced(g, s, t, w, k)
  {
    hide Dealt, Untouched;
    forall n | n in g.nodes && n != w ensures Dealt(g, t, n) == Dealt(g, s, n) {
      DealtElsewhere(g, s, t, w, n);
    }
    assert DealtMap(g, t) == DealtMap(g, s)[w := k + 1];
  }

  lemma DealtElsewhere(g: Dag, s: State, t: State, w: Id, n: Id)
    requires Shaped(g, s) && Shaped(g, t) && Untouched(g, s, t, {w}) && n in g.nodes && n != w
    ensures Dealt(g, t, n) == Dealt(g, s, n)
  {
  }

  lemma AdvancedOpen(g: Dag, s: State, t: State, w: Id, k: nat, x: Id)
    requires Shaped(g, s) && Shaped(g, t) && Advanced(g, s, t, w, k)
    ensures x != g.down[w][k] ==> OpenIn(g, t, x) == OpenIn(g, s, x)
    ensures x == g.down[w][k] ==>
              OpenIn(g, t, x) == OpenIn(g, s, x) - {(w, k)} && |OpenIn(g, t, x)| == |OpenIn(g, s, x)| - 1
  {
    hide DealtMap, Dealt, Open;
    OpenAdvances(g.down, DealtMap(g, s), w, x);
  }

  /** The counters after one more edge into `c` is dealt with: `c` is counted
      down, or was Skipped already. */
  lemma AdvanceKeepsCounted(g: Dag, s: State, t: State, w: Id, k: nat, c: Id)
    requires Counted(g, s) && Shaped(g, t) && Advanced(g, s, t, w, k) && c == g.down[w][k] && c in g.nodes
    requires t.status == s.status
    requires t.indegree == s.indegree[c := s.indegree[c] - 1] || (s.status[c].Skipped? && t.indegree == s.indegree)
    ensures Counted(g, t)
  {
    forall x | x in g.nodes ensures CounterOk(g, t, x) {
      assert CounterOk(g, s, x);
      AdvancedOpen(g, s, t, w, k, x);
    }
  }

  lemma AdvanceKeepsEnqueued(g: Dag, s: State, t: State, w: Id, k: nat, c: Id)
    requires Shaped(g, s) && Shaped(g, t) && Advanced(g, s, t, w, k) && c == g.down[w][k]
    requires t.status == s.status && t.log == s.log && !Enqueued(s, c) && EnqueuedOk(g, s)
    ensures EnqueuedOk(g, t)
  {
    forall x | Enqueued(t, x) ensures x in g.nodes && OpenIn(g, t, x) == {} && !t.status[x].Skipped? {
      assert Enqueued(s, x);
      AdvancedOpen(g, s, t, w, k, x);
    }
    assert forall x :: Enqueued(t, x) == Enqueued(s, x);
  }

  /** A child closed to its parents is passed over. */
  lemma PassKeepsPush(g: Dag, s: State, t: State, w: Id, k: nat, c: Id)
    requires Shaped(g, s) && Shaped(g, t) && Advanced(g, s, t, w, k) && c == g.down[w][k] && c in g.nodes
    requires t.status == s.status && t.log == s.log && s.status[c].Skipped?
    requires PushFrame(g, s, t) && PushOk(g, s) && NoneMissed(g, s)
    ensures PushOk(g, t) && NoneMissed(g, t)
  {
    forall v, x | Pushes(g, t, v, x)
      ensures x in g.nodes && OpenIn(g, t, x) == {} && !Enqueued(t, x) && t.status[x].Pending?
    {
      assert Pushes(g, s, v, x);
      AdvancedOpen(g, s, t, w, k, x);
    }
    forall x | x in g.nodes && OpenIn(g, t, x) == {} && !t.status[x].Skipped?
      ensures Enqueued(t, x) || exists v :: Pushes(g, t, v, x)
    {
      AdvancedOpen(g, s, t, w, k, x);
      if !Enqueued(s, x) {
        var v :| Pushes(g, s, v, x);
        assert Pushes(g, t, v, x);
      }
    }
  }

  lemma PassKeepsInv(g: Dag, cfg: Config, s: State, w: Id, k: nat, c: Id)
    requires WellFormed(g) && Inv(g, cfg, s) && w in s.workers && w in g.down && s.workers[w] == Looking(k)
    requires k < |g.down[w]| && c == g.down[w][k] && c in s.status && ClosedToParents(s.status[c])
    ensures Inv(g, cfg, Move(s, w, Looking(k + 1)))
  {
    hide Coherent, Counted, QueueOk, EnqueuedOk, PushOk, NoneMissed, NoneDropped, SkipOk, FlagOk, SlotsOk,
      DealtMap, Advanced, PushFrame, OwnStep, OpenIn, PhaseOk, NodeOk, WellFormed, Untouched, StatusFrame;
    var t := Move(s, w, Looking(k + 1));
    ChildFacts(g, cfg, s, w, k, c);
    WorkerFacts(g, cfg, s, w);
    MoveSlots(cfg, s, t, w);
    ChildMoveIsOwnStep(g, cfg, s, t, w, Looking(k + 1));
    OwnStepKeepsRest(g, cfg, s, t, w);
    AdvancedDealt(g, s, t, w, k);
    AdvanceKeepsCounted(g, s, t, w, k, c);
    AdvanceKeepsEnqueued(g, s, t, w, k, c);
    PushFrameFor(g, s, t, w);
    PassKeepsPush(g, s, t, w, k, c);
  }

  lemma LoneElement<T>(a: set<T>, x: T, y: T)
    requires x in a && y in a && |a| <= 1
    ensures x == y
  {
    assert |a - {x}| == |a| - 1;
  }

  /** When the counter of `c` is about to reach zero, no other edge into it is
      open; a Skipped child would still have one. */
  lemma LastEdge(g: Dag, cfg: Config, s: State, w: Id, k: nat, c: Id)
    requires WellFormed(g) && Coherent(g, cfg, s) && Counted(g, s) && EnqueuedOk(g, s) && SkipOk(g, cfg, s)
    requires c in g.nodes && w in g.nodes && s.status[w].Success? && (w, k) in OpenIn(g, s, c) && s.indegree[c] == 1
    ensures !s.status[c].Skipped?
  {
    hide Coherent, Counted, EnqueuedOk, OpenIn, WellFormed;
    if s.status[c].Skipped? {
      var a :| Blocks(g, s, a, c);
      var b, j := BlockedNode(g, cfg, s, a, c);
      CountedAt(g, s, c);
      LoneElement(OpenIn(g, s, c), (w, k), (b, j));
      assert false;
    }
  }

  lemma CountedAt(g: Dag, s: State, c: Id)
    requires Counted(g, s) && c in g.nodes
    ensures Shaped(g, s) && CounterOk(g, s, c)
  {
  }

  ghost predicate NewPusher(g: Dag, s: State, t: State, w: Id, c: Id, pushing: bool) {
    forall v, x :: Pushes(g, t, v, x) <==> (if v == w then pushing && x == c else Pushes(g, s, v, x))
  }

  lemma DecrementPushers(g: Dag, s: State, t: State, w: Id, k: nat, c: Id, pushing: bool)
    requires Shaped(g, s) && Shaped(g, t) && Untouched(g, s, t, {w})
    requires w in g.nodes && k < |g.down[w]| && c == g.down[w][k]
    requires w in t.workers && t.workers[w] == if pushing then Pushing(k) else Looking(k + 1)
    ensures NewPusher(g, s, t, w, c, pushing)
  {
  }

  /** Only `w` starts to push, and only if `c` has just lost its last open edge. */
  lemma DecrementKeepsPush(g: Dag, s: State, t: State, w: Id, k: nat, c: Id, pushing: bool)
    requires Shaped(g, s) && Shaped(g, t) && Advanced(g, s, t, w, k) && c == g.down[w][k] && c in g.nodes
    requires t.status == s.status && t.log == s.log && !Enqueued(s, c) && PushOk(g, s)
    requires (forall v :: !Pushes(g, s, v, c)) && NewPusher(g, s, t, w, c, pushing)
    requires pushing ==> s.status[c].Pending? && OpenIn(g, t, c) == {}
    ensures PushOk(g, t)
  {
    hide Pushes, OpenIn, Advanced;
    forall v, x | Pushes(g, t, v, x)
      ensures x in g.nodes && OpenIn(g, t, x) == {} && !Enqueued(t, x) && t.status[x].Pending?
    {
      AdvancedOpen(g, s, t, w, k, x);
    }
  }

  lemma DecrementKeepsMissed(g: Dag, s: State, t: State, w: Id, k: nat, c: Id, pushing: bool)
    requires Shaped(g, s) && Shaped(g, t) && Advanced(g, s, t, w, k) && c == g.down[w][k] && c in g.nodes
    requires t.status == s.status && t.log == s.log && NoneMissed(g, s)
    requires NewPusher(g, s, t, w, c, pushing) && (forall x :: !Pushes(g, s, w, x))
    requires !pushing && !s.status[c].Skipped? ==> OpenIn(g, t, c) != {}
    ensures NoneMissed(g, t)
  {
    hide Pushes, OpenIn, Advanced;
    forall x | x in g.nodes && OpenIn(g, t, x) == {} && !t.status[x].Skipped?
      ensures Enqueued(t, x) || exists v :: Pushes(g, t, v, x)
    {
      AdvancedOpen(g, s, t, w, k, x);
      if x == c {
        assert Pushes(g, t, w, c);
      } else if !Enqueued(s, x) {
        var v :| Pushes(g, s, v, x);
        assert Pushes(g, t, v, x);
      }
    }
  }

  lemma DecrementKeepsInv(g: Dag, cfg: Config, s: State, w: Id, k: nat, c: Id)
    requires WellFormed(g) && Inv(g, cfg, s) && w in s.workers && w in g.down && s.workers[w] == Decrementing(k)
    requires k < |g.down[w]| && c == g.down[w][k] && c in s.indegree
    ensures var degree := s.indegree[c] - 1;
            var ph := if degree == 0 then Pushing(k) else Looking(k + 1);
            Inv(g, cfg, Move(s, w, ph).(indegree := s.indegree[c := degree]))
  {
    hide Coherent, Counted, QueueOk, EnqueuedOk, PushOk, NoneMissed, NoneDropped, SkipOk, FlagOk, SlotsOk,
      DealtMap, Advanced, OwnStep, OpenIn, NodeOk, WellFormed, Untouched, StatusFrame, NewPusher;
    var degree := s.indegree[c] - 1;
    var ph := if degree == 0 then Pushing(k) else Looking(k + 1);
    var t := Move(s, w, ph).(indegree := s.indegree[c := degree]);
    ChildFacts(g, cfg, s, w, k, c);
    WorkerFacts(g, cfg, s, w);
    MoveSlots(cfg, s, t, w);
    ChildMoveIsOwnStep(g, cfg, s, t, w, ph);
    OwnStepKeepsRest(g, cfg, s, t, w);
    AdvancedDealt(g, s, t, w, k);
    AdvanceKeepsCounted(g, s, t, w, k, c);
    AdvanceKeepsEnqueued(g, s, t, w, k, c);
    if degree == 0 {
      LastEdge(g, cfg, s, w, k, c);
    }
    CountedAt(g, t, c);
    DecrementPushers(g, s, t, w, k, c, degree == 0);
    DecrementKeepsPush(g, s, t, w, k, c, degree == 0);
    DecrementKeepsMissed(g, s, t, w, k, c, degree == 0);
  }

  /* ---- pushing ---- */

  ghost function Pushed(s: State, w: Id, k: nat, c: Id): State {
    Move(s, w, Looking(k + 1)).(ready := s.ready + [c], log := s.log + [Ready(c)])
  }

  lemma PushKeepsQueue(g: Dag, cfg: Config, s: State, w: Id, k: nat, c: Id)
    requires Shaped(g, s) && w in g.nodes && QueueOk(g, s) && NoneDropped(g, cfg, s)
    requires c in g.nodes && !Enqueued(s, c) && s.status[c].Pending?
    ensures var t := Pushed(s, w, k, c); Shaped(g, t) && QueueOk(g, t) && NoneDropped(g, cfg, t)
  {
    var t := Pushed(s, w, k, c);
    assert forall x :: Enqueued(t, x) <==> Enqueued(s, x) || x == c;
    assert forall x :: x in t.ready <==> x in s.ready || x == c;
  }

  lemma PushKeepsBoard(g: Dag, cfg: Config, s: State, t: State, w: Id, k: nat, c: Id)
    requires Shaped(g, s) && Shaped(g, t) && DealtMap(g, t) == DealtMap(g, s)
    requires w in s.workers && s.workers[w] == Pushing(k) && Pushes(g, s, w, c) && t == Pushed(s, w, k, c)
    requires EnqueuedOk(g, s) && PushOk(g, s) && NoneMissed(g, s)
    ensures EnqueuedOk(g, t) && PushOk(g, t) && NoneMissed(g, t)
  {
    assert forall x :: OpenIn(g, t, x) == OpenIn(g, s, x);
    assert forall x :: Enqueued(t, x) <==> Enqueued(s, x) || x == c;
    forall v, x ensures Pushes(g, t, v, x) <==> Pushes(g, s, v, x) && v != w {
    }
    forall x | x in g.nodes && OpenIn(g, t, x) == {} && !t.status[x].Skipped?
      ensures Enqueued(t, x) || exists v :: Pushes(g, t, v, x)
    {
      if x != c && !Enqueued(s, x) {
        var v :| Pushes(g, s, v, x);
        assert Pushes(g, t, v, x);
      }
    }
  }

  lemma PushIsOwn(g: Dag, cfg: Config, s: State, t: State, w: Id, k: nat, c: Id)
    requires Shaped(g, s) && Shaped(g, t) && w in s.workers && w in g.nodes && PhaseOk(g, cfg, s, w)
    requires s.workers[w] == Pushing(k) && t == Pushed(s, w, k, c)
    ensures Untouched(g, s, t, {w}) && PhaseOk(g, cfg, t, w) && NodeOk(g, t, w) && Dealt(g, t, w) == Dealt(g, s, w)
    ensures StatusFrame(g, s, t) && SkipFrame(g, cfg, s, t) && (forall n :: Fails(s, n) ==> Fails(t, n))
  {
    SkipFrameFor(g, cfg, s, t, w);
  }

  lemma PushKeepsInv(g: Dag, cfg: Config, s: State, w: Id, k: nat, c: Id)
    requires WellFormed(g) && Inv(g, cfg, s) && w in s.workers && w in g.down && s.workers[w] == Pushing(k)
    requires k < |g.down[w]| && c == g.down[w][k]
    ensures Inv(g, cfg, Pushed(s, w, k, c))
  {
    hide Coherent, Counted, QueueOk, EnqueuedOk, PushOk, NoneMissed, NoneDropped, SkipOk, FlagOk, SlotsOk,
      DealtMap, OpenIn, WellFormed, Untouched, StatusFrame, SkipFrame, PhaseOk, NodeOk;
    var t := Pushed(s, w, k, c);
    WorkerFacts(g, cfg, s, w);
    assert Pushes(g, s, w, c);
    PushedFacts(g, s, w, c);
    PushKeepsQueue(g, cfg, s, w, k, c);
    PushIsOwn(g, cfg, s, t, w, k, c);
    CoherentFrame(g, cfg, s, t, {w});
    DealtFrame(g, s, t, w);
    SameCounted(g, s, t);
    PushKeepsBoard(g, cfg, s, t, w, k, c);
    SameSkip(g, cfg, s, t);
    SameFlag(g, s, t);
    MoveSlots(cfg, s, t, w);
  }

  lemma PushedFacts(g: Dag, s: State, w: Id, c: Id)
    requires Shaped(g, s) && PushOk(g, s) && Pushes(g, s, w, c)
    ensures c in g.nodes && !Enqueued(s, c) && s.status[c].Pending?
  {
  }
}
