/** Every step of a worker keeps the invariant. */
module DagWorkers {
  import opened TaskCommon
  import opened Graphs
  import opened DagProtocol
  import opened DagInvariant
  import opened DagScheduler

  /** Outside `touched` the nodes look the same in both states. */
  ghost predicate Untouched(g: Dag, s: State, t: State, touched: set<Id>)
    requires Shaped(g, s) && Shaped(g, t)
  {
    forall n :: n in g.nodes && n !in touched ==>
      && t.status[n] == s.status[n]
      && (n in t.workers <==> n in s.workers) && (n in s.workers ==> t.workers[n] == s.workers[n])
      && (n in t.results <==> n in s.results) && (n in s.results ==> t.results[n] == s.results[n])
  }

  lemma CoherentFrame(g: Dag, cfg: Config, s: State, t: State, touched: set<Id>)
    requires Coherent(g, cfg, s) && Shaped(g, t) && t.pc == s.pc && (s.failed ==> t.failed)
    requires Untouched(g, s, t, touched)
    requires forall n :: n in touched && n in t.workers ==> PhaseOk(g, cfg, t, n)
    requires forall n :: n in touched && n in g.nodes ==> NodeOk(g, t, n) && !Holds(s.pc, n) && !Launches(s.pc, n)
    ensures Coherent(g, cfg, t)
  {
    forall w | w in t.workers ensures PhaseOk(g, cfg, t, w) {
      if w !in touched { assert PhaseOk(g, cfg, s, w); }
    }
    forall n | n in g.nodes ensures NodeOk(g, t, n) {
      if n !in touched { assert NodeOk(g, s, n); }
    }
    forall id | Launches(t.pc, id) ensures id in g.nodes && t.status[id].Running? && id !in t.workers {
      assert Launches(s.pc, id);
    }
  }

  /** What a worker may rely on when it takes a step. */
  lemma WorkerFacts(g: Dag, cfg: Config, s: State, w: Id)
    requires Inv(g, cfg, s) && w in s.workers
    ensures Shaped(g, s) && w in g.nodes && PhaseOk(g, cfg, s, w) && NodeOk(g, s, w)
    ensures !Holds(s.pc, w) && !Launches(s.pc, w) && Enqueued(s, w)
    ensures !s.pc.Finish? && !s.pc.Done?
  {
    hide Counted, QueueOk, PushOk, NoneMissed, NoneDropped, SkipOk;
    assert PhaseOk(g, cfg, s, w) && NodeOk(g, s, w);
  }

  lemma MoveSlots(cfg: Config, s: State, t: State, w: Id)
    requires SlotsOk(cfg, s) && t.pc == s.pc && t.running == s.running && w in s.workers
    requires t.workers.Keys == s.workers.Keys
    ensures SlotsOk(cfg, t)
  {
    assert |t.workers| == |t.workers.Keys| == |s.workers.Keys| == |s.workers|;
  }

  /* Frames that follow when only `w` is touched. */

  lemma DealtFrame(g: Dag, s: State, t: State, w: Id)
    requires Shaped(g, s) && Shaped(g, t) && w in g.nodes && Untouched(g, s, t, {w})
    requires Dealt(g, t, w) == Dealt(g, s, w)
    ensures DealtMap(g, t) == DealtMap(g, s)
  {
    forall n | n in g.nodes ensures Dealt(g, t, n) == Dealt(g, s, n) {
    }
  }

  lemma PushFrameFor(g: Dag, s: State, t: State, w: Id)
    requires Shaped(g, s) && Shaped(g, t) && Untouched(g, s, t, {w})
    requires w in s.workers ==> !s.workers[w].Pushing?
    requires w in t.workers ==> !t.workers[w].Pushing?
    ensures PushFrame(g, s, t)
  {
    forall v, c ensures Pushes(g, t, v, c) == Pushes(g, s, v, c) {
    }
  }

  ghost predicate Sweeps(s: State, w: Id) {
    w in s.workers && (s.workers[w].Visiting? || s.workers[w].Recording?)
  }

  lemma SkipFrameFor(g: Dag, cfg: Config, s: State, t: State, w: Id)
    requires Shaped(g, s) && Shaped(g, t) && w in g.nodes && Untouched(g, s, t, {w})
    requires !Sweeps(s, w) && !Sweeps(t, w) && !s.status[w].Skipped? && !t.status[w].Skipped?
    requires w in s.results ==> w in t.results && t.results[w] == s.results[w]
    requires cfg.failPolicy.SkipDownstream? && Swept(t, w) ==> Swept(s, w)
    ensures SkipFrame(g, cfg, s, t) && (forall n :: Fails(s, n) ==> Fails(t, n))
  {
    forall n | Swept(t, n) && n != w ensures Swept(s, n) {
    }
    forall n | Fails(s, n) ensures Fails(t, n) {
    }
  }

  /** A step that touches only its own node and sweeps nothing. */
  ghost predicate OwnStep(g: Dag, cfg: Config, s: State, t: State, w: Id)
    requires Shaped(g, s) && Shaped(g, t) && w in g.nodes
  {
    && t.pc == s.pc && t.ready == s.ready && t.failed == s.failed
    && LogFrame(s, t)
    && Untouched(g, s, t, {w})
    && (w in t.workers ==> PhaseOk(g, cfg, t, w)) && NodeOk(g, t, w)
    && !Sweeps(s, w) && !Sweeps(t, w)
    && !s.status[w].Skipped? && !t.status[w].Skipped? && !s.status[w].Pending? && !t.status[w].Pending?
    && (w in s.results ==> w in t.results && t.results[w] == s.results[w])
    && (cfg.failPolicy.SkipDownstream? && Swept(t, w) ==> Swept(s, w))
  }

  /** Beyond that, it deals with no edge and pushes nothing. */
  ghost predicate Quiet(g: Dag, s: State, t: State, w: Id)
    requires Shaped(g, s) && Shaped(g, t) && w in g.nodes
  {
    && t.indegree == s.indegree && Dealt(g, t, w) == Dealt(g, s, w)
    && (w in s.workers ==> !s.workers[w].Pushing?) && (w in t.workers ==> !t.workers[w].Pushing?)
  }

  lemma OwnStepKeepsRest(g: Dag, cfg: Config, s: State, t: State, w: Id)
    requires Inv(g, cfg, s) && w in s.workers && Shaped(g, s) && Shaped(g, t) && w in g.nodes
    requires OwnStep(g, cfg, s, t, w)
    ensures Coherent(g, cfg, t) && QueueOk(g, t) && NoneDropped(g, cfg, t) && SkipOk(g, cfg, t) && FlagOk(g, t)
    ensures StatusFrame(g, s, t) && Untouched(g, s, t, {w})
  {
    hide Coherent, Counted, QueueOk, EnqueuedOk, PushOk, NoneMissed, NoneDropped, SkipOk, FlagOk, SlotsOk,
      SkipFrame, PushFrame, LogFrame, DealtMap, PhaseOk, NodeOk;
    WorkerFacts(g, cfg, s, w);
    CoherentFrame(g, cfg, s, t, {w});
    SameQueue(g, cfg, s, t);
    SkipFrameFor(g, cfg, s, t, w);
    SameSkip(g, cfg, s, t);
    SameFlag(g, s, t);
  }

  lemma OwnStepKeepsInv(g: Dag, cfg: Config, s: State, t: State, w: Id)
    requires Inv(g, cfg, s) && w in s.workers && Shaped(g, s) && Shaped(g, t) && w in g.nodes
    requires OwnStep(g, cfg, s, t, w) && Quiet(g, s, t, w) && SlotsOk(cfg, t)
    ensures Inv(g, cfg, t)
  {
    hide Coherent, Counted, QueueOk, EnqueuedOk, PushOk, NoneMissed, NoneDropped, SkipOk, FlagOk, SlotsOk,
      SkipFrame, PushFrame, LogFrame, DealtMap, PhaseOk, NodeOk;
    OwnStepKeepsRest(g, cfg, s, t, w);
    DealtFrame(g, s, t, w);
    PushFrameFor(g, s, t, w);
    SameBoard(g, s, t);
  }

  /** The task returns and its result is stored. */
  lemma ReturnKeepsInv(g: Dag, cfg: Config, s: State, w: Id, o: Status)
    requires Inv(g, cfg, s) && w in s.workers && s.workers[w].Executing?
    ensures Inv(g, cfg, Move(s, w, Reported(o)).(results := s.results[w := o], log := s.log + [End(w, o)]))
  {
    hide Coherent, Counted, QueueOk, EnqueuedOk, PushOk, NoneMissed, NoneDropped, SkipOk, FlagOk, SlotsOk;
    var t := Move(s, w, Reported(o)).(results := s.results[w := o], log := s.log + [End(w, o)]);
    WorkerFacts(g, cfg, s, w);
    hide OwnStep, Quiet;
    MoveSlots(cfg, s, t, w);
    ReturnIsOwnStep(g, cfg, s, t, w, o);
    OwnStepKeepsInv(g, cfg, s, t, w);
  }

  lemma ReturnIsOwnStep(g: Dag, cfg: Config, s: State, t: State, w: Id, o: Status)
    requires Shaped(g, s) && Shaped(g, t) && w in s.workers && s.workers[w].Executing? && PhaseOk(g, cfg, s, w)
    requires t == Move(s, w, Reported(o)).(results := s.results[w := o], log := s.log + [End(w, o)])
    ensures OwnStep(g, cfg, s, t, w) && Quiet(g, s, t, w)
  {
  }

  lemma SettleIsOwnStep(g: Dag, cfg: Config, s: State, t: State, w: Id, st: Status, ph: Phase)
    requires Shaped(g, s) && Shaped(g, t) && w in s.workers && s.workers[w] == Reported(st) && ph == AfterResult(st)
    requires PhaseOk(g, cfg, s, w) && t == Move(s, w, ph).(status := s.status[w := NodeStatus(st)])
    ensures OwnStep(g, cfg, s, t, w) && Quiet(g, s, t, w)
  {
    SettledPhase(g, cfg, s, t, w, st, ph);
    hide PhaseOk, NodeOk, AfterResult;
  }

  lemma SettledPhase(g: Dag, cfg: Config, s: State, t: State, w: Id, st: Status, ph: Phase)
    requires Shaped(g, s) && Shaped(g, t) && w in s.workers && s.workers[w] == Reported(st) && ph == AfterResult(st)
    requires PhaseOk(g, cfg, s, w) && t == Move(s, w, ph).(status := s.status[w := NodeStatus(st)])
    ensures PhaseOk(g, cfg, t, w) && NodeOk(g, t, w) && !Sweeps(t, w) && !ph.Pushing? && !t.status[w].Pending? &&
            !t.status[w].Skipped?
    ensures !s.status[w].Pending? && !s.status[w].Skipped? && Dealt(g, t, w) == 0 && Dealt(g, s, w) == 0
    ensures Swept(t, w) ==> Swept(s, w)
  {
  }

  /** The result becomes the node's status. */
  lemma SettleKeepsInv(g: Dag, cfg: Config, s: State, w: Id, st: Status)
    requires Inv(g, cfg, s) && w in s.workers && s.workers[w] == Reported(st)
    ensures Inv(g, cfg, Move(s, w, AfterResult(st)).(status := s.status[w := NodeStatus(st)]))
  {
    hide Coherent, Counted, QueueOk, EnqueuedOk, PushOk, NoneMissed, NoneDropped, SkipOk, FlagOk, SlotsOk, OwnStep,
         Quiet;
    var t := Move(s, w, AfterResult(st)).(status := s.status[w := NodeStatus(st)]);
    WorkerFacts(g, cfg, s, w);
    MoveSlots(cfg, s, t, w);
    SettleIsOwnStep(g, cfg, s, t, w, st, AfterResult(st));
    OwnStepKeepsInv(g, cfg, s, t, w);
  }

  /** The worker looks at its next child, or finds that there is none left. */
  lemma LookKeepsInv(g: Dag, cfg: Config, s: State, w: Id, ph: Phase)
    requires Inv(g, cfg, s) && w in s.workers && s.workers[w].Looking?
    requires ph == Leaving || ph == Decrementing(s.workers[w].k)
    requires w in g.down && (ph.Leaving? <==> s.workers[w].k >= |g.down[w]|)
    ensures Inv(g, cfg, Move(s, w, ph))
  {
    hide Coherent, Counted, QueueOk, EnqueuedOk, PushOk, NoneMissed, NoneDropped, SkipOk, FlagOk, SlotsOk;
    var t := Move(s, w, ph);
    WorkerFacts(g, cfg, s, w);
    MoveSlots(cfg, s, t, w);
    OwnStepKeepsInv(g, cfg, s, t, w);
  }

  lemma DropWorkerCount(m: map<Id, Phase>, w: Id)
    requires w in m
    ensures |m - {w}| == |m| - 1
  {
    assert (m - {w}).Keys == m.Keys - {w};
  }

  /** The worker gives its slot back. */
  lemma LeaveKeepsInv(g: Dag, cfg: Config, s: State, w: Id)
    requires Inv(g, cfg, s) && w in s.workers && s.workers[w].Leaving?
    ensures Inv(g, cfg, s.(workers := s.workers - {w}, running := s.running - 1))
  {
    hide Coherent, Counted, QueueOk, EnqueuedOk, PushOk, NoneMissed, NoneDropped, SkipOk, FlagOk;
    var t := s.(workers := s.workers - {w}, running := s.running - 1);
    WorkerFacts(g, cfg, s, w);
    DropWorkerCount(s.workers, w);
    OwnStepKeepsInv(g, cfg, s, t, w);
  }
}
