/** The invariant holds in every state of every run. */
module DagRuns {
  import opened TaskCommon
  import opened Graphs
  import opened DagProtocol
  import opened DagInvariant
  import opened DagScheduler
  import opened DagWorkers
  import opened DagChildren
  import opened DagSkipping

  lemma LookingKeepsInv(g: Dag, cfg: Config, s: State, w: Id, k: nat, o: Status)
    requires WellFormed(g) && Inv(g, cfg, s) && Shaped(g, s) && w in s.workers && s.workers[w] == Looking(k)
    ensures Inv(g, cfg, WorkerStep(g, cfg, s, w, o))
  {
    hide Inv, WellFormed, PhaseOk, NodeOk, OpenIn, Pushes, Holds, Launches, Enqueued;
    WorkerFacts(g, cfg, s, w);
    if k >= |g.down[w]| {
      LookKeepsInv(g, cfg, s, w, Leaving);
    } else {
      var c := g.down[w][k];
      ChildFacts(g, cfg, s, w, k, c);
      if ClosedToParents(s.status[c]) {
        PassKeepsInv(g, cfg, s, w, k, c);
      } else {
        LookKeepsInv(g, cfg, s, w, Decrementing(k));
      }
    }
  }

  lemma VisitingKeepsInv(g: Dag, cfg: Config, s: State, w: Id, o: Status)
    requires WellFormed(g) && Inv(g, cfg, s) && Shaped(g, s) && w in s.workers && s.workers[w].Visiting?
    ensures Inv(g, cfg, WorkerStep(g, cfg, s, w, o))
  {
    hide Inv, WellFormed;
    var visited, todo := s.workers[w].visited, s.workers[w].todo;
    if todo == [] {
      EndKeepsInv(g, cfg, s, w, visited);
    } else {
      assert todo == [todo[0]] + todo[1..];
      MarkedKeepsInv(g, cfg, s, w, visited, todo[1..], todo[0]);
    }
  }

  lemma WellFormedChild(g: Dag, w: Id, k: nat)
    requires WellFormed(g) && w in g.nodes && k < |g.down[w]|
    ensures g.down[w][k] in g.nodes
  {
    assert Edge(g.down, w, g.down[w][k]);
  }

  lemma EdgeKeepsInv(g: Dag, cfg: Config, s: State, w: Id, k: nat, o: Status)
    requires WellFormed(g) && Inv(g, cfg, s) && Shaped(g, s) && w in s.workers
    requires s.workers[w] == Decrementing(k) || s.workers[w] == Pushing(k)
    ensures Inv(g, cfg, WorkerStep(g, cfg, s, w, o))
  {
    hide Inv, WellFormed, NodeOk, OpenIn, Pushes, Holds, Launches, Enqueued;
    WorkerFacts(g, cfg, s, w);
    assert k < |g.down[w]|;
    hide PhaseOk;
    var c := g.down[w][k];
    assert c in g.nodes by { WellFormedChild(g, w, k); }
    if s.workers[w].Decrementing? {
      ChildFacts(g, cfg, s, w, k, g.down[w][k]);
      DecrementKeepsInv(g, cfg, s, w, k, g.down[w][k]);
    } else {
      PushKeepsInv(g, cfg, s, w, k, g.down[w][k]);
    }
  }

  lemma TaskKeepsInv(g: Dag, cfg: Config, s: State, w: Id, o: Status)
    requires WellFormed(g) && Inv(g, cfg, s) && Shaped(g, s) && w in s.workers
    requires s.workers[w].Executing? || s.workers[w].Reported? || s.workers[w].Leaving?
    ensures Inv(g, cfg, WorkerStep(g, cfg, s, w, o))
  {
    hide Inv, WellFormed;
    match s.workers[w]
    case Executing => ReturnKeepsInv(g, cfg, s, w, o);
    case Reported(st) => SettleKeepsInv(g, cfg, s, w, st);
    case Leaving => LeaveKeepsInv(g, cfg, s, w);
  }

  lemma RecordingKeepsInv(g: Dag, cfg: Config, s: State, w: Id, o: Status)
    requires WellFormed(g) && Inv(g, cfg, s) && Shaped(g, s) && w in s.workers && s.workers[w].Recording?
    ensures Inv(g, cfg, WorkerStep(g, cfg, s, w, o))
  {
    hide Inv, WellFormed, Discover;
    WentKeepsInv(g, cfg, s, w, s.workers[w].child, s.workers[w].visited, s.workers[w].todo);
  }

  lemma WorkerKeepsInv(g: Dag, cfg: Config, s: State, w: Id, o: Status)
    requires WellFormed(g) && Inv(g, cfg, s) && Shaped(g, s) && w in s.workers
    ensures Inv(g, cfg, WorkerStep(g, cfg, s, w, o))
  {
    hide Inv, WellFormed, WorkerStep;
    match s.workers[w]
    case Looking(k) => LookingKeepsInv(g, cfg, s, w, k, o);
    case Decrementing(k) => EdgeKeepsInv(g, cfg, s, w, k, o);
    case Pushing(k) => EdgeKeepsInv(g, cfg, s, w, k, o);
    case Marking => MarkKeepsInv(g, cfg, s, w, o);
    case Visiting(_, _) => VisitingKeepsInv(g, cfg, s, w, o);
    case Recording(_, _, _) => RecordingKeepsInv(g, cfg, s, w, o);
    case _ => TaskKeepsInv(g, cfg, s, w, o);
  }

  lemma StepKeepsInv(g: Dag, cfg: Config, s: State, a: Step)
    requires WellFormed(g) && Inv(g, cfg, s) && Enabled(g, cfg, s, a)
    ensures Inv(g, cfg, Apply(g, cfg, s, a))
  {
    hide Inv;
    match a
    case Scheduler => SchedulerKeepsInv(g, cfg, s);
    case Worker(w, o) => WorkerKeepsInv(g, cfg, s, w, o);
  }

  /* ---- the start ---- */

  lemma InitEnqueued(g: Dag, s: State, c: Id)
    requires Init(g, s)
    ensures Enqueued(s, c) <==> c in s.ready
  {
    if c in s.ready {
      var i :| 0 <= i < |s.ready| && s.ready[i] == c;
      assert s.log[i] == Ready(c);
    }
  }

  lemma InitOpen(g: Dag, s: State, c: Id)
    requires WellFormed(g) && Init(g, s) && Shaped(g, s) && c in g.nodes
    ensures |OpenIn(g, s, c)| == |g.deps[c]|
  {
    assert forall p :: p in g.nodes ==> DealtMap(g, s)[p] == 0;
    assert OpenIn(g, s, c) == Open(g.down, map[], c);
  }

  lemma InitReady(g: Dag, s: State, c: Id)
    requires WellFormed(g) && Init(g, s) && Shaped(g, s) && c in g.nodes
    ensures Enqueued(s, c) <==> OpenIn(g, s, c) == {}
    ensures CounterOk(g, s, c)
  {
    WellFormedKeys(g);
    InitEnqueued(g, s, c);
    InitOpen(g, s, c);
    hide OpenIn, WellFormed;
  }

  lemma InitBoard(g: Dag, s: State)
    requires WellFormed(g) && Init(g, s) && Shaped(g, s)
    ensures Counted(g, s) && EnqueuedOk(g, s) && PushOk(g, s) && NoneMissed(g, s)
  {
    hide WellFormed, OpenIn;
    forall c | c in g.nodes ensures (Enqueued(s, c) <==> OpenIn(g, s, c) == {}) && CounterOk(g, s, c) {
      InitReady(g, s, c);
    }
    forall c | Enqueued(s, c) ensures c in g.nodes {
      InitEnqueued(g, s, c);
    }
    hide Enqueued, CounterOk;
  }

  lemma InitCoherent(g: Dag, cfg: Config, s: State)
    requires Init(g, s) && Shaped(g, s)
    ensures Coherent(g, cfg, s) && SlotsOk(cfg, s) && FlagOk(g, s)
  {
  }

  lemma InitSkip(g: Dag, cfg: Config, s: State)
    requires Init(g, s) && Shaped(g, s)
    ensures SkipOk(g, cfg, s)
  {
  }

  lemma InitQueue(g: Dag, cfg: Config, s: State)
    requires Init(g, s) && Shaped(g, s)
    ensures QueueOk(g, s) && NoneDropped(g, cfg, s)
  {
    forall c ensures Enqueued(s, c) <==> c in s.ready {
      InitEnqueued(g, s, c);
    }
    hide Enqueued;
  }

  lemma InitInv(g: Dag, cfg: Config, s: State)
    requires WellFormed(g) && Init(g, s)
    ensures Inv(g, cfg, s)
  {
    hide Coherent, Counted, QueueOk, EnqueuedOk, PushOk, NoneMissed, NoneDropped, SkipOk, FlagOk, SlotsOk, WellFormed;
    WellFormedKeys(g);
    assert Shaped(g, s);
    InitBoard(g, s);
    InitCoherent(g, cfg, s);
    InitQueue(g, cfg, s);
    InitSkip(g, cfg, s);
  }

  /* ---- whole runs ---- */

  lemma {:induction false} StepsKeepInv(g: Dag, cfg: Config, s: State, acts: seq<Step>, t: State)
    requires WellFormed(g) && Inv(g, cfg, s) && Steps(g, cfg, s, acts, t)
    ensures Inv(g, cfg, t)
    decreases |acts|
  {
    hide Inv, WellFormed, Apply, Enabled;
    if acts != [] {
      StepKeepsInv(g, cfg, s, acts[0]);
      StepsKeepInv(g, cfg, Apply(g, cfg, s, acts[0]), acts[1..], t);
    }
  }

  lemma ReachableInv(g: Dag, cfg: Config, s: State)
    requires WellFormed(g) && Reachable(g, cfg, s)
    ensures Inv(g, cfg, s)
  {
    hide Inv, WellFormed, Init;
    var s0, acts :| Init(g, s0) && Steps(g, cfg, s0, acts, s);
    InitInv(g, cfg, s0);
    StepsKeepInv(g, cfg, s0, acts, s);
  }
}
