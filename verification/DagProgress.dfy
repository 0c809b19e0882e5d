/** Runs make progress: every run does a bounded amount of work, and every state
    short of the end can go on to it. */
module DagProgress {
  import opened TaskCommon
  import opened Graphs
  import opened DagProtocol
  import opened DagInvariant
  import opened DagScheduler
  import opened DagWorkers
  import opened DagChildren
  import opened DagSkipping
  import opened DagRuns
  import opened DagLog

  /** The work a node's task and bookkeeping can still cost once it executes. */
  ghost function Full(g: Dag, n: Id): nat
    requires n in g.down
  {
    5 + 3 * |g.down[n]| + 2 * |g.nodes|
  }

  ghost function PhaseLeft(g: Dag, n: Id, ph: Phase): nat
    requires n in g.down
  {
    var d := |g.down[n]|;
    match ph
    case Executing => Full(g, n)
    case Reported(_) => Full(g, n) - 1
    case Looking(k) => if k <= d then 2 + 3 * (d - k) else 2
    case Decrementing(k) => if k <= d then 1 + 3 * (d - k) else 1
    case Pushing(k) => if k <= d then 3 * (d - k) else 0
    case Marking => 3 + 2 * |g.nodes|
    case Visiting(visited, todo) => 2 + 2 * (|todo| + |g.nodes - visited|)
    case Recording(visited, todo, _) => 3 + 2 * (|todo| + |g.nodes - visited|)
    case Leaving => 1
  }

  ghost function PcLeft(g: Dag, n: Id, pc: Pc): nat
    requires n in g.down
  {
    match pc
    case Check(id) => if id == n then Full(g, n) + 6 else 0
    case FailCheck(id) => if id == n then Full(g, n) + 5 else 0
    case Guard(id) => if id == n then Full(g, n) + 4 else 0
    case SetRunning(id) => if id == n then Full(g, n) + 3 else 0
    case Increment(id) => if id == n then Full(g, n) + 2 else 0
    case Post(id) => if id == n then Full(g, n) + 1 else 0
    case _ => 0
  }

  /** How many working steps `n` can still be the reason for. */
  ghost function Left(g: Dag, s: State, n: Id): nat
    requires Shaped(g, s) && n in g.nodes
  {
    if n in s.workers then PhaseLeft(g, n, s.workers[n])
    else if Holds(s.pc, n) || Launches(s.pc, n) then PcLeft(g, n, s.pc)
    else if n in s.ready || (s.status[n].Pending? && !Enqueued(s, n)) then Full(g, n) + 7
    else 0
  }

  ghost function Work(g: Dag, s: State): set<(Id, nat)>
    requires Shaped(g, s)
  {
    set n, i: nat | n in g.nodes && i < Left(g, s, n) :: (n, i)
  }

  lemma WorkShrinks(g: Dag, s: State, t: State, w: Id)
    requires Shaped(g, s) && Shaped(g, t) && w in g.nodes
    requires forall n :: n in g.nodes ==> Left(g, t, n) <= Left(g, s, n)
    requires Left(g, t, w) < Left(g, s, w)
    ensures |Work(g, t)| < |Work(g, s)|
  {
    hide Left;
    var x := (w, Left(g, t, w));
    assert x in Work(g, s) && x !in Work(g, t);
    assert Work(g, t) <= Work(g, s);
    SubsetCount(Work(g, t), Work(g, s));
  }

  /** A step that only moves the scheduling thread around its loop. */
  predicate Spins(s: State, a: Step) {
    a.Scheduler? && (s.pc.Test? || s.pc.ExitTest? || s.pc.Wait? || s.pc.Finish? || (s.pc.Pop? && s.ready == []))
  }

  lemma SpinKeepsWork(g: Dag, cfg: Config, s: State)
    requires Shaped(g, s) && SchedulerEnabled(cfg, s) && Spins(s, Scheduler)
    ensures Shaped(g, SchedulerStep(cfg, s)) && Work(g, SchedulerStep(cfg, s)) == Work(g, s)
    ensures SchedulerStep(cfg, s).workers == s.workers && SchedulerStep(cfg, s).ready == s.ready
    ensures SchedulerStep(cfg, s).pc == NextPc(cfg, s)
  {
    var t := SchedulerStep(cfg, s);
    forall n | n in g.nodes ensures Left(g, t, n) == Left(g, s, n) {
    }
    hide Left;
  }

  /* ---- the scheduling thread works ---- */

  lemma HeldWorks(g: Dag, cfg: Config, s: State, id: Id)
    requires Shaped(g, s) && SchedulerEnabled(cfg, s) && Holds(s.pc, id) && id in g.nodes
    requires s.status[id].Pending? && id !in s.workers && id !in s.ready && Enqueued(s, id)
    ensures Shaped(g, SchedulerStep(cfg, s)) && |Work(g, SchedulerStep(cfg, s))| < |Work(g, s)|
  {
    var t := SchedulerStep(cfg, s);
    HeldStep(cfg, s, id);
    hide SchedulerStep, SchedulerEnabled, Work, Full;
    assert Shaped(g, t);
    forall n | n in g.nodes && n != id ensures Left(g, t, n) == Left(g, s, n) {
    }
    assert Left(g, t, id) < Left(g, s, id);
    hide Left;
    WorkShrinks(g, s, t, id);
  }

  /** What the scheduling thread does with the node it holds. */
  lemma HeldStep(cfg: Config, s: State, id: Id)
    requires SchedulerEnabled(cfg, s) && Holds(s.pc, id) && id in s.status && s.status[id].Pending?
    ensures var t := SchedulerStep(cfg, s);
            t.workers == s.workers && t.ready == s.ready && t.log == s.log && t.indegree == s.indegree &&
              t.results == s.results &&
            (match s.pc
             case Check(_) => t.pc == FailCheck(id) && t.status == s.status
             case FailCheck(_) => (t.pc == Guard(id) || t.pc == Test) && t.status == s.status
             case Guard(_) => t.pc == SetRunning(id) && t.status == s.status
             case _ => t.pc == Increment(id) && t.status == s.status[id := Running])
  {
  }

  lemma LaunchWorks(g: Dag, cfg: Config, s: State, id: Id)
    requires Shaped(g, s) && SchedulerEnabled(cfg, s) && Launches(s.pc, id) && id in g.nodes && id !in s.workers
    ensures Shaped(g, SchedulerStep(cfg, s)) && |Work(g, SchedulerStep(cfg, s))| < |Work(g, s)|
  {
    var t := SchedulerStep(cfg, s);
    LaunchStep(cfg, s, id);
    hide SchedulerStep, SchedulerEnabled, Work, Full;
    assert Shaped(g, t);
    assert forall n :: Enqueued(t, n) == Enqueued(s, n);
    forall n | n in g.nodes && n != id ensures Left(g, t, n) == Left(g, s, n) {
    }
    assert Left(g, t, id) < Left(g, s, id) by { FullIsPhase(g, id); }
    hide Left;
    WorkShrinks(g, s, t, id);
  }

  lemma LaunchStep(cfg: Config, s: State, id: Id)
    requires SchedulerEnabled(cfg, s) && Launches(s.pc, id)
    ensures var t := SchedulerStep(cfg, s);
            t.status == s.status && t.ready == s.ready && t.indegree == s.indegree && t.results == s.results &&
            (match s.pc
             case Increment(_) => t.pc == Post(id) && t.workers == s.workers && t.log == s.log + [Start(id)]
             case _ => t.pc == Test && t.workers == s.workers[id := Executing] && t.log == s.log)
  {
  }

  lemma FullIsPhase(g: Dag, id: Id)
    requires id in g.down
    ensures PhaseLeft(g, id, Executing) <= Full(g, id)
  {
  }

  lemma DistinctHead(q: seq<Id>)
    requires q != [] && Distinct(q)
    ensures q[0] !in q[1..]
  {
    assert forall i :: 0 <= i < |q| - 1 ==> q[1..][i] == q[i + 1];
  }

  lemma PopWorks(g: Dag, cfg: Config, s: State)
    requires Shaped(g, s) && s.pc.Pop? && s.ready != [] && QueueOk(g, s) && s.ready[0] !in s.workers
    ensures Shaped(g, SchedulerStep(cfg, s)) && |Work(g, SchedulerStep(cfg, s))| < |Work(g, s)|
  {
    var t := SchedulerStep(cfg, s);
    var id := s.ready[0];
    assert id in s.ready;
    assert Shaped(g, t);
    assert s.ready == [id] + t.ready;
    DistinctHead(s.ready);
    forall n | n in g.nodes && n != id ensures Left(g, t, n) == Left(g, s, n) {
      assert n in t.ready <==> n in s.ready;
    }
    assert Left(g, t, id) < Left(g, s, id);
    hide Left, Work;
    WorkShrinks(g, s, t, id);
  }

  lemma SchedulerWorks(g: Dag, cfg: Config, s: State)
    requires Inv(g, cfg, s) && SchedulerEnabled(cfg, s) && !Spins(s, Scheduler)
    ensures Shaped(g, s) && Shaped(g, SchedulerStep(cfg, s)) && |Work(g, SchedulerStep(cfg, s))| < |Work(g, s)|
  {
    hide Inv, Work, SchedulerStep;
    InvIsShaped(g, cfg, s);
    if s.pc.Increment? || s.pc.Post? {
      LaunchedIsRunning(g, cfg, s, s.pc.id);
      LaunchWorks(g, cfg, s, s.pc.id);
    } else if s.pc.Pop? {
      InvQueue(g, cfg, s);
      PopWorks(g, cfg, s);
    } else {
      HeldIsPending(g, cfg, s, s.pc.id);
      InvQueue(g, cfg, s);
      HeldWorks(g, cfg, s, s.pc.id);
    }
  }

  lemma InvQueue(g: Dag, cfg: Config, s: State)
    requires Inv(g, cfg, s)
    ensures QueueOk(g, s) && forall c :: c in s.ready ==> c !in s.workers && !Holds(s.pc, c)
  {
    hide Counted, EnqueuedOk, PushOk, NoneMissed, NoneDropped, SkipOk, FlagOk;
    forall c | c in s.ready ensures c !in s.workers {
      assert NodeOk(g, s, c);
    }
  }

  /* ---- a worker works ---- */

  /** Nothing but `w` moves, and no other node gets more to do. */
  lemma WorkerWorksIf(g: Dag, s: State, t: State, w: Id)
    requires Shaped(g, s) && Shaped(g, t) && w in s.workers && t.pc == s.pc
    requires forall n :: n != w ==>
               (n in t.workers <==> n in s.workers) && (n in s.workers ==> t.workers[n] == s.workers[n])
    requires forall n :: n in s.ready ==> n in t.ready
    requires forall n :: n in t.ready && n !in s.ready ==> !Enqueued(s, n) && n in s.status && s.status[n].Pending?
    requires forall n :: Enqueued(s, n) ==> Enqueued(t, n)
    requires forall n :: n in g.nodes && t.status[n].Pending? ==> s.status[n].Pending?
    requires Left(g, t, w) < Left(g, s, w)
    ensures |Work(g, t)| < |Work(g, s)|
  {
    hide PhaseLeft, PcLeft, Full;
    forall n | n in g.nodes && n != w ensures Left(g, t, n) <= Left(g, s, n) {
    }
    hide Left, Work;
    WorkShrinks(g, s, t, w);
  }

  lemma LeavingLeft(g: Dag, cfg: Config, s: State, w: Id)
    requires Inv(g, cfg, s) && w in s.workers && s.workers[w].Leaving?
    ensures Shaped(g, s) && w in g.nodes
    ensures var t := s.(workers := s.workers - {w}, running := s.running - 1); Left(g, t, w) == 0
  {
    hide Inv;
    WorkerFacts(g, cfg, s, w);
    InvQueue(g, cfg, s);
  }

  lemma OwnWorks(g: Dag, cfg: Config, s: State, w: Id, o: Status)
    requires Inv(g, cfg, s) && Shaped(g, s) && w in s.workers
    requires s.workers[w].Executing? || s.workers[w].Reported? || s.workers[w].Leaving?
    ensures Shaped(g, WorkerStep(g, cfg, s, w, o)) && |Work(g, WorkerStep(g, cfg, s, w, o))| < |Work(g, s)|
  {
    hide Inv, Work;
    WorkerFacts(g, cfg, s, w);
    hide NodeOk, PhaseOk;
    var t := WorkerStep(g, cfg, s, w, o);
    OwnMoves(g, cfg, s, w, o);
    if s.workers[w].Leaving? {
      LeavingLeft(g, cfg, s, w);
    } else {
      OwnLeft(g, s, w, t.workers[w]);
    }
    hide WorkerStep;
    assert forall n :: Enqueued(s, n) ==> Enqueued(t, n);
    hide Left;
    WorkerWorksIf(g, s, t, w);
  }

  /** The steps of a worker around its task, apart from what they do to its own phase. */
  lemma OwnMoves(g: Dag, cfg: Config, s: State, w: Id, o: Status)
    requires Shaped(g, s) && w in s.workers
    requires s.workers[w].Executing? || s.workers[w].Reported? || s.workers[w].Leaving?
    requires !s.status[w].Pending?
    ensures var t := WorkerStep(g, cfg, s, w, o);
            Shaped(g, t) && t.pc == s.pc && t.ready == s.ready && s.log <= t.log &&
            (forall n :: n in g.nodes && t.status[n].Pending? ==> s.status[n].Pending?) &&
            (match s.workers[w]
             case Executing => t.workers == s.workers[w := Reported(o)]
             case Reported(st) => t.workers == s.workers[w := AfterResult(st)]
             case _ => t == s.(workers := s.workers - {w}, running := s.running - 1))
  {
    hide ChildStep, MarkStep, VisitStep, RecordStep;
  }

  lemma OwnLeft(g: Dag, s: State, w: Id, ph: Phase)
    requires Shaped(g, s) && w in s.workers
    requires (s.workers[w].Executing? && ph.Reported?) || (s.workers[w].Reported? && ph == AfterResult(s.workers[w].st))
    ensures PhaseLeft(g, w, ph) < PhaseLeft(g, w, s.workers[w])
  {
  }

  lemma ChildWorks(g: Dag, cfg: Config, s: State, w: Id, k: nat, o: Status)
    requires WellFormed(g) && Inv(g, cfg, s) && Shaped(g, s) && w in s.workers
    requires s.workers[w] == Looking(k) || s.workers[w] == Decrementing(k) || s.workers[w] == Pushing(k)
    ensures Shaped(g, WorkerStep(g, cfg, s, w, o)) && |Work(g, WorkerStep(g, cfg, s, w, o))| < |Work(g, s)|
  {
    hide Inv, Work, WellFormed;
    WorkerFacts(g, cfg, s, w);
    assert k <= |g.down[w]| && (!s.workers[w].Looking? ==> k < |g.down[w]|);
    hide NodeOk, PhaseOk;
    var t := WorkerStep(g, cfg, s, w, o);
    if k < |g.down[w]| {
      WellFormedChild(g, w, k);
      if s.workers[w].Pushing? {
        InvPushed(g, cfg, s, w, g.down[w][k]);
      }
    }
    ChildMoves(g, cfg, s, w, k, o);
    assert PhaseLeft(g, w, t.workers[w]) < PhaseLeft(g, w, s.workers[w]);
    hide WorkerStep, PhaseLeft;
    assert Left(g, t, w) < Left(g, s, w);
    assert forall n :: Enqueued(s, n) ==> Enqueued(t, n);
    hide Left;
    WorkerWorksIf(g, s, t, w);
  }

  /** One step at child number `k`, apart from the counter. */
  lemma ChildMoves(g: Dag, cfg: Config, s: State, w: Id, k: nat, o: Status)
    requires Shaped(g, s) && w in s.workers && k <= |g.down[w]| && (k < |g.down[w]| ==> g.down[w][k] in g.nodes)
    requires s.workers[w] == Looking(k) || s.workers[w] == Decrementing(k) || s.workers[w] == Pushing(k)
    requires s.workers[w].Looking? || k < |g.down[w]|
    ensures var t := WorkerStep(g, cfg, s, w, o);
            Shaped(g, t) && t.pc == s.pc && t.status == s.status && s.log <= t.log && w in t.workers &&
            t.workers == s.workers[w := t.workers[w]] &&
            t.ready == (if s.workers[w].Pushing? then s.ready + [g.down[w][k]] else s.ready) &&
            (match s.workers[w]
             case Looking(_) =>
               t.workers[w] == Leaving ||
               (k < |g.down[w]| && (t.workers[w] == Looking(k + 1) || t.workers[w] == Decrementing(k)))
             case Decrementing(_) => t.workers[w] == Pushing(k) || t.workers[w] == Looking(k + 1)
             case _ => t.workers[w] == Looking(k + 1))
  {
    hide MarkStep, VisitStep, RecordStep;
  }

  lemma InvPushed(g: Dag, cfg: Config, s: State, w: Id, c: Id)
    requires Inv(g, cfg, s) && Pushes(g, s, w, c)
    ensures c in s.status && !Enqueued(s, c) && s.status[c].Pending?
  {
    hide Coherent, Counted, QueueOk, EnqueuedOk, PushOk, NoneMissed, NoneDropped, SkipOk, FlagOk;
    InvIsShaped(g, cfg, s);
    PushedFacts(g, s, w, c);
  }

  /** The nodes still to be seen plus those queued: each pass step uses up one. */
  lemma DiscoverCount(nodes: set<Id>, list: seq<Id>, visited: set<Id>, todo: seq<Id>)
    requires Distinct(todo) && Elements(todo) <= visited && Elements(list) <= nodes
    ensures var r := Discover(list, visited, todo); |r.1| + |nodes - r.0| == |todo| + |nodes - visited|
  {
    hide Discover, Distinct, Elements;
    DiscoverSpec(list, visited, todo);
    var r := Discover(list, visited, todo);
    DistinctCount(todo);
    DistinctCount(r.1);
    var unseen := Elements(list) - visited;
    assert |Elements(todo) + unseen| == |Elements(todo)| + |unseen| by {
      assert Elements(todo) !! unseen;
    }
    assert nodes - r.0 == (nodes - visited) - unseen;
    assert |(nodes - visited) - unseen| == |nodes - visited| - |unseen|;
  }

  lemma MarkWorks(g: Dag, cfg: Config, s: State, w: Id, o: Status)
    requires WellFormed(g) && Inv(g, cfg, s) && Shaped(g, s) && w in s.workers && s.workers[w].Marking?
    ensures Shaped(g, WorkerStep(g, cfg, s, w, o)) && |Work(g, WorkerStep(g, cfg, s, w, o))| < |Work(g, s)|
  {
    hide Inv, Work, WellFormed, Discover, Distinct, Elements;
    var t := WorkerStep(g, cfg, s, w, o);
    ChildrenOf(g, w);
    NoElements();
    NoneDistinct();
    DiscoverCount(g.nodes, g.down[w], {}, []);
    assert g.nodes - {} == g.nodes;
    assert Shaped(g, t);
    assert Left(g, t, w) < Left(g, s, w);
    WorkerWorksIf(g, s, t, w);
  }

  lemma VisitLeft(g: Dag, w: Id, visited: set<Id>, todo: seq<Id>)
    requires w in g.down
    ensures PhaseLeft(g, w, Leaving) < PhaseLeft(g, w, Visiting(visited, todo))
    ensures todo != [] ==> PhaseLeft(g, w, Visiting(visited, todo[1..])) < PhaseLeft(g, w, Visiting(visited, todo))
    ensures todo != [] ==>
              PhaseLeft(g, w, Recording(visited, todo[1..], todo[0])) < PhaseLeft(g, w, Visiting(visited, todo))
  {
  }

  lemma VisitWorks(g: Dag, cfg: Config, s: State, w: Id, o: Status)
    requires WellFormed(g) && Inv(g, cfg, s) && Shaped(g, s) && w in s.workers && s.workers[w].Visiting?
    ensures Shaped(g, WorkerStep(g, cfg, s, w, o)) && |Work(g, WorkerStep(g, cfg, s, w, o))| < |Work(g, s)|
  {
    hide Inv, Work, WellFormed, PhaseLeft, PcLeft;
    var t := WorkerStep(g, cfg, s, w, o);
    var visited, todo := s.workers[w].visited, s.workers[w].todo;
    VisitLeft(g, w, visited, todo);
    assert Shaped(g, t);
    assert t.pc == s.pc && t.ready == s.ready && t.log == s.log && w in t.workers;
    assert Left(g, t, w) < Left(g, s, w);
    assert forall n :: n in g.nodes && t.status[n].Pending? ==> s.status[n].Pending?;
    hide Left, WorkerStep;
    WorkerWorksIf(g, s, t, w);
  }

  lemma RecordWorks(g: Dag, cfg: Config, s: State, w: Id, o: Status)
    requires WellFormed(g) && Inv(g, cfg, s) && Shaped(g, s) && w in s.workers && s.workers[w].Recording?
    ensures Shaped(g, WorkerStep(g, cfg, s, w, o)) && |Work(g, WorkerStep(g, cfg, s, w, o))| < |Work(g, s)|
  {
    hide Inv, Work, WellFormed, Discover, Distinct, Elements;
    var t := WorkerStep(g, cfg, s, w, o);
    var visited, todo, c := s.workers[w].visited, s.workers[w].todo, s.workers[w].child;
    RecordingSweep(g, cfg, s, w, visited, todo, c);
    ChildrenOf(g, c);
    DiscoverCount(g.nodes, g.down[c], visited, todo);
    assert Shaped(g, t);
    assert Left(g, t, w) < Left(g, s, w);
    WorkerWorksIf(g, s, t, w);
  }

  lemma RecordingSweep(g: Dag, cfg: Config, s: State, w: Id, visited: set<Id>, todo: seq<Id>, c: Id)
    requires Inv(g, cfg, s) && w in s.workers && s.workers[w] == Recording(visited, todo, c)
    ensures Distinct(todo) && Elements(todo) <= visited && c in g.nodes
  {
    hide Coherent, Counted, QueueOk, EnqueuedOk, PushOk, NoneMissed, NoneDropped, SkipOk, FlagOk, Elements;
    SweepOkAt(g, cfg, s, w);
  }

  lemma WorkerWorks(g: Dag, cfg: Config, s: State, w: Id, o: Status)
    requires WellFormed(g) && Inv(g, cfg, s) && Shaped(g, s) && w in s.workers
    ensures Shaped(g, WorkerStep(g, cfg, s, w, o)) && |Work(g, WorkerStep(g, cfg, s, w, o))| < |Work(g, s)|
  {
    hide Inv, Work, WellFormed, WorkerStep;
    match s.workers[w]
    case Looking(k) => ChildWorks(g, cfg, s, w, k, o);
    case Decrementing(k) => ChildWorks(g, cfg, s, w, k, o);
    case Pushing(k) => ChildWorks(g, cfg, s, w, k, o);
    case Marking => MarkWorks(g, cfg, s, w, o);
    case Visiting(_, _) => VisitWorks(g, cfg, s, w, o);
    case Recording(_, _, _) => RecordWorks(g, cfg, s, w, o);
    case _ => OwnWorks(g, cfg, s, w, o);
  }

  /* ---- bounded work ---- */

  /** The steps of a run that are not mere turns of the scheduling loop. */
  ghost function WorkingSteps(g: Dag, cfg: Config, s: State, acts: seq<Step>, t: State): nat
    requires Steps(g, cfg, s, acts, t)
    decreases |acts|
  {
    if acts == [] then 0
    else (if Spins(s, acts[0]) then 0 else 1) + WorkingSteps(g, cfg, Apply(g, cfg, s, acts[0]), acts[1..], t)
  }

  /** However long a run turns, its working steps are paid for by the nodes' work. */
  lemma {:induction false} BoundedWork(g: Dag, cfg: Config, s: State, acts: seq<Step>, t: State)
    requires WellFormed(g) && Inv(g, cfg, s) && Steps(g, cfg, s, acts, t)
    ensures Shaped(g, s) && Shaped(g, t) && WorkingSteps(g, cfg, s, acts, t) + |Work(g, t)| <= |Work(g, s)|
    decreases |acts|
  {
    hide Inv, WellFormed, Work;
    InvIsShaped(g, cfg, s);
    if acts != [] {
      StepKeepsInv(g, cfg, s, acts[0]);
      match acts[0] {
        case Scheduler =>
          if Spins(s, acts[0]) { SpinKeepsWork(g, cfg, s); } else { SchedulerWorks(g, cfg, s); }
        case Worker(w, o) => WorkerWorks(g, cfg, s, w, o);
      }
      hide Spins;
      BoundedWork(g, cfg, Apply(g, cfg, s, acts[0]), acts[1..], t);
    }
  }

  /** A run of a whole DAG takes at most `Full(g, n) + 7` working steps per node. */
  lemma RunIsBounded(g: Dag, cfg: Config, s: State, acts: seq<Step>, t: State)
    requires WellFormed(g) && Init(g, s) && Steps(g, cfg, s, acts, t)
    ensures forall n :: n in g.nodes ==> n in g.down
    ensures WorkingSteps(g, cfg, s, acts, t) <=
              |set n, i: nat | n in g.nodes && n in g.down && i < Full(g, n) + 7 :: (n, i)|
  {
    hide Inv, Full, Steps, WorkingSteps;
    WellFormedKeys(g);
    hide WellFormed;
    InitInv(g, cfg, s);
    BoundedWork(g, cfg, s, acts, t);
    forall n | n in g.nodes ensures Left(g, s, n) <= Full(g, n) + 7 {
      assert s.workers == map[] && s.pc == Test;
    }
    hide Left, Init;
    var bound := set n, i: nat | n in g.nodes && n in g.down && i < Full(g, n) + 7 :: (n, i);
    assert Work(g, s) <= bound;
    SubsetCount(Work(g, s), bound);
  }

  /* ---- the end can always be reached ---- */

  ghost function TurnsLeft(s: State): nat {
    match s.pc
    case ExitTest => if s.ready == [] then 2 else 6
    case Wait => 5
    case Test => 4
    case Pop => 3
    case Finish => 1
    case _ => 0
  }

  lemma IdleScheduler(g: Dag, cfg: Config, s: State)
    requires Inv(g, cfg, s) && s.workers == map[] && !s.pc.Done?
    ensures SchedulerEnabled(cfg, s)
    ensures Spins(s, Scheduler) ==> TurnsLeft(SchedulerStep(cfg, s)) < TurnsLeft(s)
  {
    hide Coherent, Counted, QueueOk, EnqueuedOk, PushOk, NoneMissed, NoneDropped, SkipOk, FlagOk;
  }

  /** From every reachable state the run can be brought to its end; so there is
      always an enabled step, and the wait is never one that nothing can end. */
  lemma {:induction false} CanFinish(g: Dag, cfg: Config, s: State) returns (acts: seq<Step>, t: State)
    requires WellFormed(g) && Inv(g, cfg, s) && Shaped(g, s)
    ensures Steps(g, cfg, s, acts, t) && t.pc.Done?
    decreases |Work(g, s)|, TurnsLeft(s)
  {
    hide Inv, WellFormed, Work, TurnsLeft;
    if s.pc.Done? {
      return [], s;
    }
    var a: Step;
    if s.workers != map[] {
      var w :| w in s.workers;
      a := Worker(w, Success);
      WorkerWorks(g, cfg, s, w, Success);
    } else {
      a := Scheduler;
      IdleScheduler(g, cfg, s);
      if Spins(s, a) { SpinKeepsWork(g, cfg, s); } else { SchedulerWorks(g, cfg, s); }
    }
    StepKeepsInv(g, cfg, s, a);
    var rest;
    rest, t := CanFinish(g, cfg, Apply(g, cfg, s, a));
    acts := [a] + rest;
    assert acts[1..] == rest;
  }

  lemma NeverStuck(g: Dag, cfg: Config, s: State) returns (acts: seq<Step>, t: State)
    requires WellFormed(g) && Reachable(g, cfg, s)
    ensures Steps(g, cfg, s, acts, t) && t.pc.Done? && (s.pc.Done? || (acts != [] && Enabled(g, cfg, s, acts[0])))
  {
    hide Inv, WellFormed, Reachable;
    ReachableInv(g, cfg, s);
    InvIsShaped(g, cfg, s);
    acts, t := CanFinish(g, cfg, s);
  }
}
