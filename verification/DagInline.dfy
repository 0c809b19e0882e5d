/** The executor on a pool thread: each node is run in place by the scheduling thread
    (the synchronous branch of `submitNodeAsync`), so `execute` is a plain sequential program. */
module DagInline {
  import opened TaskCommon
  import opened Graphs
  import opened DagProtocol
  import opened DagInvariant
  import opened DagRuns
  import opened DagProgress
  import opened DagVerdict
  import opened DagConfluence

  lemma {:induction false} StepsSnoc(g: Dag, cfg: Config, s: State, acts: seq<Step>, t: State, a: Step)
    requires Steps(g, cfg, s, acts, t) && Enabled(g, cfg, t, a)
    ensures Steps(g, cfg, s, acts + [a], Apply(g, cfg, t, a))
    decreases |acts|
  {
    hide Enabled, Apply;
    if acts == [] {
      assert ([a])[1..] == [];
      assert acts + [a] == [a];
    } else {
      assert (acts + [a])[1..] == acts[1..] + [a];
      StepsSnoc(g, cfg, Apply(g, cfg, s, acts[0]), acts[1..], t, a);
    }
  }

  lemma ReachableSnoc(g: Dag, cfg: Config, s: State, a: Step)
    requires Reachable(g, cfg, s) && Enabled(g, cfg, s, a)
    ensures Reachable(g, cfg, Apply(g, cfg, s, a))
  {
    hide Enabled, Apply, Init, Steps;
    var s0, acts :| Init(g, s0) && Steps(g, cfg, s0, acts, s);
    StepsSnoc(g, cfg, s0, acts, s, a);
  }

  /** Only the phase of `w` and shared data other than the scheduling thread's place differ. */
  ghost predicate OnlyMoves(s: State, t: State, w: Id) {
    t.pc == s.pc && w in t.workers && t.workers == s.workers[w := t.workers[w]]
  }

  lemma ChildMoves(g: Dag, s: State, w: Id, k: nat)
    requires Shaped(g, s) && w in s.workers
    ensures OnlyMoves(s, ChildStep(g, s, w, k), w)
  {
  }

  lemma SkipMoves(g: Dag, cfg: Config, s: State, w: Id, visited: set<Id>, todo: seq<Id>, c: Id)
    requires Shaped(g, s) && w in s.workers
    ensures OnlyMoves(s, MarkStep(g, cfg, s, w), w)
    ensures OnlyMoves(s, VisitStep(g, s, w, visited, todo), w)
    ensures OnlyMoves(s, RecordStep(g, s, w, visited, todo, c), w)
  {
    hide Discover;
  }

  lemma WorkerMoves(g: Dag, cfg: Config, s: State, w: Id, o: Status)
    requires Shaped(g, s) && w in s.workers
    ensures var t := WorkerStep(g, cfg, s, w, o);
            OnlyMoves(s, t, w) || (t.pc == s.pc && t.workers == s.workers - {w})
  {
    hide ChildStep, MarkStep, VisitStep, RecordStep, OnlyMoves;
    match s.workers[w] {
      case Looking(k) => ChildMoves(g, s, w, k);
      case Decrementing(k) => ChildMoves(g, s, w, k);
      case Pushing(k) => ChildMoves(g, s, w, k);
      case Marking => SkipMoves(g, cfg, s, w, {}, [], w);
      case Visiting(visited, todo) => SkipMoves(g, cfg, s, w, visited, todo, w);
      case Recording(visited, todo, c) => SkipMoves(g, cfg, s, w, visited, todo, c);
      case _ => OwnMoves(g, cfg, s, w, o);
    }
  }

  lemma OwnMoves(g: Dag, cfg: Config, s: State, w: Id, o: Status)
    requires Shaped(g, s) && w in s.workers
    requires s.workers[w].Executing? || s.workers[w].Reported? || s.workers[w].Leaving?
    ensures var t := WorkerStep(g, cfg, s, w, o);
            OnlyMoves(s, t, w) || (t.pc == s.pc && t.workers == s.workers - {w})
  {
    hide ChildStep, MarkStep, VisitStep, RecordStep;
  }

  /** A worker's step leaves the scheduling thread and the other workers where they are. */
  lemma WorkerStaysLocal(g: Dag, cfg: Config, s: State, w: Id, o: Status)
    requires Shaped(g, s) && w in s.workers
    ensures var t := WorkerStep(g, cfg, s, w, o); t.pc == s.pc && t.workers - {w} == s.workers - {w}
  {
    hide WorkerStep;
    WorkerMoves(g, cfg, s, w, o);
  }

  lemma WorkerReports(g: Dag, cfg: Config, s: State, w: Id, f: Id -> Status)
    requires Shaped(g, s) && w in s.workers && OutcomesAre(s, f)
    ensures OutcomesAre(WorkerStep(g, cfg, s, w, f(w)), f)
  {
    hide Discover;
  }

  lemma SchedulerReports(cfg: Config, s: State, f: Id -> Status)
    requires SchedulerEnabled(cfg, s) && OutcomesAre(s, f)
    ensures OutcomesAre(SchedulerStep(cfg, s), f)
    ensures SchedulerStep(cfg, s).workers == if s.pc.Post? then s.workers[s.pc.id := Executing] else s.workers
  {
  }

  class DagExecutor {
    const g: Dag
    const cfg: Config
    const outcome: Id -> Status
    var s: State

    ghost predicate Valid()
      reads this
    {
      WellFormed(g) && Reachable(g, cfg, s) && Shaped(g, s) && OutcomesAre(s, outcome)
    }

    constructor (g: Dag, cfg: Config, outcome: Id -> Status, start: State)
      requires WellFormed(g) && Init(g, start)
      ensures Valid() && s == start && this.g == g && this.cfg == cfg && this.outcome == outcome
    {
      this.g, this.cfg, this.outcome, s := g, cfg, outcome, start;
      new;
      InitRun(g, cfg, start);
    }

    /** Run the task of `w` and then all of `onNodeFinished`. */
    method RunNode(w: Id)
      requires Valid() && w in s.workers
      modifies this
      ensures Valid() && s.workers == old(s.workers) - {w} && s.pc == old(s.pc)
      ensures |Work(g, s)| < |Work(g, old(s))|
    {
      hide Reachable, WellFormed, Work, OutcomesAre, WorkerStep;
      while w in s.workers
        invariant Valid() && s.workers - {w} == old(s.workers) - {w} && s.pc == old(s.pc)
        invariant w in s.workers ==> |Work(g, s)| <= |Work(g, old(s))|
        invariant w !in s.workers ==> |Work(g, s)| < |Work(g, old(s))|
        decreases |Work(g, s)|
      {
        StepIn(g, cfg, s, w, outcome);
        s := WorkerStep(g, cfg, s, w, outcome(w));
      }
    }

    /** The scheduling loop: it always ends, in a state that the concurrent executor can reach too. */
    method Execute()
      requires Valid() && s.workers == map[]
      modifies this
      ensures Valid() && s.pc.Done?
    {
      hide Reachable, WellFormed, Work, OutcomesAre, SchedulerStep, TurnsLeft;
      while !s.pc.Done?
        invariant Valid() && s.workers == map[]
        decreases |Work(g, s)|, TurnsLeft(s)
      {
        var pc := s.pc;
        SchedulerIn(g, cfg, s, outcome);
        s := SchedulerStep(cfg, s);
        if pc.Post? {
          RunNode(pc.id);
        }
      }
    }
  }

  lemma InitRun(g: Dag, cfg: Config, s: State)
    requires WellFormed(g) && Init(g, s)
    ensures Reachable(g, cfg, s) && Shaped(g, s) && forall f :: OutcomesAre(s, f)
  {
    assert Steps(g, cfg, s, [], s);
  }

  lemma StepIn(g: Dag, cfg: Config, s: State, w: Id, f: Id -> Status)
    requires WellFormed(g) && Reachable(g, cfg, s) && Shaped(g, s) && OutcomesAre(s, f) && w in s.workers
    ensures var t := WorkerStep(g, cfg, s, w, f(w));
            Reachable(g, cfg, t) && Shaped(g, t) && OutcomesAre(t, f) && |Work(g, t)| < |Work(g, s)| &&
            t.workers - {w} == s.workers - {w} && t.pc == s.pc
  {
    hide Reachable, WellFormed, Inv, Work, OutcomesAre, WorkerStep;
    ReachableInv(g, cfg, s);
    ReachableSnoc(g, cfg, s, Worker(w, f(w)));
    WorkerWorks(g, cfg, s, w, f(w));
    WorkerReports(g, cfg, s, w, f);
    WorkerStaysLocal(g, cfg, s, w, f(w));
  }

  lemma SchedulerIn(g: Dag, cfg: Config, s: State, f: Id -> Status)
    requires WellFormed(g) && Reachable(g, cfg, s) && Shaped(g, s) && OutcomesAre(s, f) && s.workers == map[] &&
             !s.pc.Done?
    ensures SchedulerEnabled(cfg, s)
    ensures var t := SchedulerStep(cfg, s);
            Reachable(g, cfg, t) && Shaped(g, t) && OutcomesAre(t, f) &&
            t.workers == (if s.pc.Post? then map[s.pc.id := Executing] else map[]) &&
            |Work(g, t)| <= |Work(g, s)| && (|Work(g, t)| == |Work(g, s)| ==> TurnsLeft(t) < TurnsLeft(s))
  {
    hide Reachable, WellFormed, Inv, Work, OutcomesAre, SchedulerStep, TurnsLeft;
    ReachableInv(g, cfg, s);
    IdleScheduler(g, cfg, s);
    ReachableSnoc(g, cfg, s, Scheduler);
    if Spins(s, Scheduler) { SpinKeepsWork(g, cfg, s); } else { SchedulerWorks(g, cfg, s); }
    SchedulerReports(cfg, s, f);
  }

  /** Whatever the concurrent executor ends with, the sequential one ends with the same. */
  method RunSequentially(g: Dag, cfg: Config, outcome: Id -> Status, start: State, ghost d: Config, ghost t: State)
    returns (s: State)
    requires WellFormed(g) && Acyclic(g.down) && Init(g, start) && CompleteRun(g, d, t, outcome)
    ensures s.pc == t.pc
    ensures (cfg.failPolicy.SkipDownstream? && d.failPolicy.SkipDownstream?) || !SomeFailure(g, outcome) ==>
              s.status == t.status
  {
    hide WellFormed, Acyclic, Reachable, OutcomesAre, SomeFailure;
    var x := new DagExecutor(g, cfg, outcome, start);
    assert start.workers == map[];
    x.Execute();
    s := x.s;
    SameEnd(g, cfg, d, s, t, outcome);
  }
}
