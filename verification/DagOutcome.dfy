/** What holds when `execute` returns, whatever the interleaving. */
module DagOutcome {
  import opened TaskCommon
  import opened Graphs
  import opened DagProtocol
  import opened DagInvariant
  import opened DagScheduler
  import opened DagRuns
  import opened DagLog

  /* ---- a node with an empty name is never run ---- */

  /** The scheduling thread is not about to run `n`, nor is any worker. */
  ghost predicate Ignored(s: State, n: Id) {
    && n !in s.workers
    && !Holds(s.pc, n) && !Launches(s.pc, n)
    && (n in s.status ==> s.status[n].Pending? || s.status[n].Skipped?)
  }

  lemma SchedulerKeepsIgnored(cfg: Config, s: State, n: Id)
    requires Ignored(s, n) && Nameless(n) && SchedulerEnabled(cfg, s)
    ensures Ignored(SchedulerStep(cfg, s), n)
  {
    if Effective(s) {
      hide NextPc, SchedulerEnabled;
    } else {
      NextPcIgnores(cfg, s, n);
      hide NextPc, SchedulerEnabled, Effect, Effective;
    }
  }

  lemma NextPcIgnores(cfg: Config, s: State, n: Id)
    requires !Holds(s.pc, n) && !Launches(s.pc, n)
    ensures !Holds(NextPc(cfg, s), n) && !Launches(NextPc(cfg, s), n)
  {
    hide Slots, FailedFast, Submittable;
  }

  lemma WorkerKeepsIgnored(g: Dag, cfg: Config, s: State, w: Id, o: Status, n: Id)
    requires Ignored(s, n) && Shaped(g, s) && w in s.workers
    ensures Ignored(WorkerStep(g, cfg, s, w, o), n)
  {
    hide ChildStep, MarkStep, VisitStep, RecordStep;
    match s.workers[w] {
      case Looking(k) => ChildKeepsIgnored(g, s, w, k, n);
      case Decrementing(k) => ChildKeepsIgnored(g, s, w, k, n);
      case Pushing(k) => ChildKeepsIgnored(g, s, w, k, n);
      case Marking => PassKeepsIgnored(g, cfg, s, w, {}, [], w, n);
      case Visiting(visited, todo) => PassKeepsIgnored(g, cfg, s, w, visited, todo, w, n);
      case Recording(visited, todo, c) => PassKeepsIgnored(g, cfg, s, w, visited, todo, c, n);
      case _ =>
    }
  }

  lemma ChildKeepsIgnored(g: Dag, s: State, w: Id, k: nat, n: Id)
    requires Ignored(s, n) && Shaped(g, s) && w in s.workers
    ensures Ignored(ChildStep(g, s, w, k), n)
  {
  }

  lemma PassKeepsIgnored(g: Dag, cfg: Config, s: State, w: Id, visited: set<Id>, todo: seq<Id>, c: Id, n: Id)
    requires Ignored(s, n) && Shaped(g, s) && w in s.workers
    ensures Ignored(MarkStep(g, cfg, s, w), n)
    ensures Ignored(VisitStep(g, s, w, visited, todo), n)
    ensures Ignored(RecordStep(g, s, w, visited, todo, c), n)
  {
    hide Discover;
  }

  lemma {:induction false} StepsKeepIgnored(g: Dag, cfg: Config, s: State, acts: seq<Step>, t: State, n: Id)
    requires Ignored(s, n) && Nameless(n) && Steps(g, cfg, s, acts, t)
    ensures Ignored(t, n)
    decreases |acts|
  {
    hide Ignored;
    if acts != [] {
      match acts[0] {
        case Scheduler => SchedulerKeepsIgnored(cfg, s, n);
        case Worker(w, o) => WorkerKeepsIgnored(g, cfg, s, w, o, n);
      }
      StepsKeepIgnored(g, cfg, Apply(g, cfg, s, acts[0]), acts[1..], t, n);
    }
  }

  lemma NamelessNeverRuns(g: Dag, cfg: Config, s: State, n: Id)
    requires Reachable(g, cfg, s) && Nameless(n)
    ensures n !in s.workers && (n in s.status ==> s.status[n].Pending? || s.status[n].Skipped?)
  {
    var s0, acts :| Init(g, s0) && Steps(g, cfg, s0, acts, s);
    StepsKeepIgnored(g, cfg, s0, acts, s, n);
  }

  /* ---- one node at the end ---- */

  ghost predicate DepsSucceeded(g: Dag, s: State, n: Id)
    requires n in g.deps
  {
    forall p :: p in g.deps[n] ==> p in s.status && s.status[p].Success?
  }

  ghost predicate HasFailedAncestor(g: Dag, s: State, n: Id) {
    exists a :: Blocks(g, s, a, n)
  }

  lemma EndedNode(g: Dag, cfg: Config, s: State, n: Id)
    requires Inv(g, cfg, s) && s.pc.Done? && n in g.nodes
    ensures Shaped(g, s) && s.workers == map[] && s.ready == [] && !s.status[n].Running? && NodeOk(g, s, n)
  {
    hide Counted, QueueOk, EnqueuedOk, PushOk, NoneMissed, NoneDropped, SkipOk;
    assert NodeOk(g, s, n);
  }

  /** With no worker left, an edge is open exactly when its source has not succeeded. */
  lemma OpenAtEnd(g: Dag, s: State, n: Id)
    requires WellFormed(g) && Shaped(g, s) && s.workers == map[] && n in g.nodes
    ensures OpenIn(g, s, n) == {} <==> DepsSucceeded(g, s, n)
  {
    if DepsSucceeded(g, s, n) {
      forall p, k: nat | p in g.down && k < |g.down[p]| && g.down[p][k] == n ensures Dealt(g, s, p) > k {
        assert Edge(g.down, p, n);
      }
    } else {
      var p :| p in g.deps[n] && !(p in s.status && s.status[p].Success?);
      assert Edge(g.down, p, n);
      var k :| 0 <= k < |g.down[p]| && g.down[p][k] == n;
      assert (p, k) in OpenIn(g, s, n);
    }
  }

  lemma EnqueuedAtEnd(g: Dag, cfg: Config, s: State, n: Id)
    requires WellFormed(g) && Inv(g, cfg, s) && s.pc.Done? && n in g.nodes
    ensures Shaped(g, s) && n in g.deps
    ensures Enqueued(s, n) ==> DepsSucceeded(g, s, n) && !s.status[n].Skipped?
    ensures DepsSucceeded(g, s, n) && !s.status[n].Skipped? ==> Enqueued(s, n)
    ensures Enqueued(s, n) && s.status[n].Pending? ==> FailedFast(cfg, s) || Nameless(n)
    ensures Active(s.status[n]) ==> Enqueued(s, n)
  {
    hide Coherent, Counted, QueueOk, PushOk, SkipOk, FlagOk, OpenIn;
    EndedNode(g, cfg, s, n);
    OpenAtEnd(g, s, n);
    hide WellFormed, DepsSucceeded;
    assert forall w :: !Pushes(g, s, w, n);
  }

  lemma SkippedAtEnd(g: Dag, cfg: Config, s: State, n: Id)
    requires WellFormed(g) && Inv(g, cfg, s) && s.pc.Done? && cfg.failPolicy.SkipDownstream? && n in g.nodes
    ensures Shaped(g, s) && (s.status[n].Skipped? <==> HasFailedAncestor(g, s, n))
  {
    hide Coherent, Counted, QueueOk, EnqueuedOk, PushOk, NoneMissed, NoneDropped, FlagOk, Ancestor, WellFormed;
    EndedNode(g, cfg, s, n);
    if HasFailedAncestor(g, s, n) {
      var a :| Blocks(g, s, a, n);
      FailsIsNotSuccess(g, cfg, s, a);
      EndedNode(g, cfg, s, a);
      assert Swept(s, a);
    }
  }

  /** `n` was submitted once, and its own result became its status. */
  ghost predicate RanOnce(s: State, n: Id) {
    && n in s.results && n in s.status && s.status[n] == NodeStatus(s.results[n])
    && Start(n) in s.log && End(n, s.results[n]) in s.log
  }

  /** SkipDownstream, for every graph, interleaving and set of task outcomes:
      the nodes with a failed proper ancestor are exactly the skipped ones; the
      nodes that ran are exactly the named ones whose dependencies all succeeded;
      every other node was left alone. */
  lemma SkipDownstreamOutcome(g: Dag, cfg: Config, s: State, n: Id)
    requires WellFormed(g) && Reachable(g, cfg, s) && s.pc.Done? && cfg.failPolicy.SkipDownstream? && n in g.nodes
    ensures n in s.status && n in g.deps
    ensures s.status[n].Skipped? <==> HasFailedAncestor(g, s, n)
    ensures Finished(s.status[n]) <==> !Nameless(n) && DepsSucceeded(g, s, n)
    ensures s.status[n].Pending? <==> !HasFailedAncestor(g, s, n) && (Nameless(n) || !DepsSucceeded(g, s, n))
    ensures Finished(s.status[n]) ==> RanOnce(s, n)
    ensures !Finished(s.status[n]) ==> Start(n) !in s.log && !HasEnded(s.log, n)
    ensures s.status[n].Skipped? ==> n in s.results && s.results[n].Skipped?
  {
    hide Inv, WellFormed, Reachable, DepsSucceeded, HasFailedAncestor, LogOk, NodeOk, Enqueued, HasEnded, RanOnce;
    ReachableInv(g, cfg, s);
    ReachableLog(g, cfg, s);
    if Nameless(n) { NamelessNeverRuns(g, cfg, s, n); }
    EndedNode(g, cfg, s, n);
    LoggedAtEnd(g, s, n);
    EnqueuedAtEnd(g, cfg, s, n);
    SkippedAtEnd(g, cfg, s, n);
    if s.status[n].Skipped? {
      SkippedHasResult(g, cfg, s, n);
      BlockedAtEnd(g, cfg, s, n);
    }
  }

  lemma BlockedAtEnd(g: Dag, cfg: Config, s: State, n: Id)
    requires WellFormed(g) && Inv(g, cfg, s) && s.workers == map[] && n in g.nodes && HasFailedAncestor(g, s, n)
    ensures n in g.deps && !DepsSucceeded(g, s, n)
  {
    WellFormedKeys(g);
    hide Coherent, Counted, QueueOk, EnqueuedOk, PushOk, NoneMissed, NoneDropped, FlagOk, SkipOk, Ancestor, OpenIn,
         WellFormed;
    var a :| Blocks(g, s, a, n);
    var b, k := BlockedNode(g, cfg, s, a, n);
    OpenAtEnd(g, s, n);
  }

  lemma LoggedAtEnd(g: Dag, s: State, n: Id)
    requires LogOk(g, s) && s.pc.Done? && n in g.nodes && Shaped(g, s) && NodeOk(g, s, n) && !s.status[n].Running?
    ensures Finished(s.status[n]) ==> RanOnce(s, n)
    ensures !Finished(s.status[n]) ==> Start(n) !in s.log && !HasEnded(s.log, n)
    ensures s.status[n].Skipped? && n in s.results ==> s.results[n].Skipped?
  {
    hide Orderly;
  }

  lemma SkippedHasResult(g: Dag, cfg: Config, s: State, n: Id)
    requires Inv(g, cfg, s) && s.workers == map[] && Shaped(g, s) && n in g.nodes && s.status[n].Skipped?
    ensures n in s.results
  {
    hide Coherent, Counted, QueueOk, EnqueuedOk, PushOk, NoneMissed, NoneDropped, FlagOk, Ancestor;
  }

  /* ---- nothing is left behind ---- */

  /** Every task reported one of the four ordinary results. */
  ghost predicate OrdinaryRun(s: State) {
    forall n, st :: End(n, st) in s.log ==> Finished(st)
  }

  /** A dependency that has not succeeded explains why a node was left Pending:
      it is Pending too, or it ended with a result that is not ordinary. */
  lemma UnmetDependency(g: Dag, cfg: Config, s: State, x: Id) returns (p: Id)
    requires WellFormed(g) && Inv(g, cfg, s) && LogOk(g, s) && s.pc.Done? && !FailedFast(cfg, s) && OrdinaryRun(s)
    requires x in g.nodes && x in s.status && s.status[x].Pending? && !Nameless(x)
    ensures p in g.nodes && Edge(g.down, p, x) && p in s.status && s.status[p].Pending?
  {
    hide Inv, LogOk, WellFormed, Ancestor;
    EnqueuedAtEnd(g, cfg, s, x);
    p :| p in g.deps[x] && !(p in s.status && s.status[p].Success?);
    WellFormedDep(g, p, x);
    EdgeIsAncestor(g.down, p, x);
    EndedNode(g, cfg, s, p);
    EndedNode(g, cfg, s, x);
    if s.status[p].Skipped? {
      SkippedSpreads(g, cfg, s, p, x);
      assert false;
    }
    if Finished(s.status[p]) {
      FinishedIsOrdinary(g, s, p);
      assert Fails(s, p);
      FailureSpreads(g, cfg, s, p, x);
      assert false;
    }
  }

  lemma WellFormedDep(g: Dag, p: Id, x: Id)
    requires WellFormed(g) && x in g.nodes && x in g.deps && p in g.deps[x]
    ensures p in g.nodes && Edge(g.down, p, x)
  {
  }

  lemma FinishedIsOrdinary(g: Dag, s: State, p: Id)
    requires LogOk(g, s) && OrdinaryRun(s) && p in g.nodes && Shaped(g, s) && NodeOk(g, s, p) && Finished(s.status[p])
    ensures p in s.results && Finished(s.results[p]) && s.status[p] == s.results[p]
  {
    hide Orderly;
    assert End(p, s.results[p]) in s.log;
  }

  lemma FailureSpreads(g: Dag, cfg: Config, s: State, p: Id, x: Id)
    requires WellFormed(g) && Inv(g, cfg, s) && s.pc.Done? && !FailedFast(cfg, s) && x in g.nodes && Fails(s, p) &&
             Ancestor(g.down, p, x)
    ensures Shaped(g, s) && s.status[x].Skipped?
  {
    hide Coherent, Counted, QueueOk, EnqueuedOk, PushOk, NoneMissed, NoneDropped, SkipOk, Ancestor, WellFormed;
    FailsIsNotSuccess(g, cfg, s, p);
    EndedNode(g, cfg, s, p);
    assert Blocks(g, s, p, x);
    SkippedAtEnd(g, cfg, s, x);
  }

  lemma SkippedSpreads(g: Dag, cfg: Config, s: State, p: Id, x: Id)
    requires WellFormed(g) && Inv(g, cfg, s) && s.pc.Done? && p in g.nodes && x in g.nodes && Edge(g.down, p, x)
    requires Shaped(g, s) && s.status[p].Skipped?
    ensures s.status[x].Skipped?
  {
    hide Coherent, Counted, QueueOk, EnqueuedOk, PushOk, NoneMissed, NoneDropped, FlagOk, Ancestor, WellFormed;
    var a :| Blocks(g, s, a, p);
    AncestorExtends(g.down, a, p, x);
    assert Blocks(g, s, a, x);
    SkippedAtEnd(g, cfg, s, x);
  }

  /** With ordinary results, a node is left Pending only because of a node with
      an empty name at or above it. */
  lemma LeftBehind(g: Dag, cfg: Config, s: State, n: Id) returns (x: Id)
    requires WellFormed(g) && Acyclic(g.down) && Reachable(g, cfg, s) && s.pc.Done? && !FailedFast(cfg, s) &&
             OrdinaryRun(s)
    requires n in g.nodes && n in s.status && s.status[n].Pending?
    ensures x in g.nodes && Nameless(x) && (x == n || Ancestor(g.down, x, n))
  {
    hide Inv, LogOk, WellFormed, Reachable, Ancestor, Acyclic, Edge;
    ReachableInv(g, cfg, s);
    ReachableLog(g, cfg, s);
    var waiting := set y | y in g.nodes && y in s.status && s.status[y].Pending? && (y == n || Ancestor(g.down, y, n));
    assert n in waiting;
    x := AcyclicHasSource(g.down, waiting);
    if !Nameless(x) {
      var p := UnmetDependency(g, cfg, s, x);
      AncestorPrepend(g.down, p, x, n);
      assert false;
    }
  }

  /** ... and conversely, so this says exactly which nodes a run leaves behind. */
  lemma LeftBehindExactly(g: Dag, cfg: Config, s: State, n: Id)
    requires WellFormed(g) && Acyclic(g.down) && Reachable(g, cfg, s) && s.pc.Done? &&
             cfg.failPolicy.SkipDownstream? && OrdinaryRun(s)
    requires n in g.nodes
    ensures n in s.status
    ensures s.status[n].Pending? <==>
              !HasFailedAncestor(g, s, n) &&
              exists x :: x in g.nodes && Nameless(x) && (x == n || Ancestor(g.down, x, n))
  {
    hide Inv, LogOk, WellFormed, Reachable, Ancestor, Acyclic, HasFailedAncestor, DepsSucceeded;
    SkipDownstreamOutcome(g, cfg, s, n);
    if s.status[n].Pending? {
      var x := LeftBehind(g, cfg, s, n);
    } else if exists x :: x in g.nodes && Nameless(x) && (x == n || Ancestor(g.down, x, n)) {
      var x :| x in g.nodes && Nameless(x) && (x == n || Ancestor(g.down, x, n));
      NamelessNeverRuns(g, cfg, s, x);
      ReachableInv(g, cfg, s);
      if Finished(s.status[n]) {
        FinishedAncestor(g, cfg, s, x, n);
        assert false;
      }
    }
  }

  lemma FinishedAncestor(g: Dag, cfg: Config, s: State, x: Id, n: Id)
    requires WellFormed(g) && Inv(g, cfg, s) && n in g.nodes && n in s.status && Finished(s.status[n]) &&
             Ancestor(g.down, x, n)
    ensures x in s.status && s.status[x].Success?
  {
    hide Counted, QueueOk, PushOk, NoneMissed, NoneDropped, FlagOk, SkipOk, Ancestor, WellFormed;
    EnqueuedAncestor(g, cfg, s, x, n);
  }

  /* ---- the verdict ---- */

  /** The DAG is reported as failed exactly when some task reported a failure. */
  lemma Verdict(g: Dag, cfg: Config, s: State)
    requires WellFormed(g) && Reachable(g, cfg, s) && s.pc.Done?
    ensures s.pc.result.Success? || s.pc.result.Failed?
    ensures s.pc.result.Failed? <==> exists n :: n in g.nodes && Fails(s, n)
  {
    hide Coherent, Counted, QueueOk, EnqueuedOk, PushOk, NoneMissed, NoneDropped, SkipOk, WellFormed, Reachable;
    ReachableInv(g, cfg, s);
    if exists n :: n in g.nodes && Fails(s, n) {
      var n :| n in g.nodes && Fails(s, n);
      EndedNode(g, cfg, s, n);
    }
  }

  ghost predicate AllSucceeded(g: Dag, s: State) {
    forall n :: n in g.nodes ==> n in s.status && s.status[n].Success?
  }

  ghost predicate AllNamed(g: Dag) {
    forall n :: n in g.nodes ==> !Nameless(n)
  }

  lemma NotFailed(g: Dag, cfg: Config, s: State)
    requires Inv(g, cfg, s) && s.pc.Done?
    ensures s.failed <==> s.pc.result.Failed?
  {
    hide Coherent, Counted, QueueOk, EnqueuedOk, PushOk, NoneMissed, NoneDropped, SkipOk;
  }

  lemma SkippedHasCause(g: Dag, cfg: Config, s: State, n: Id)
    requires Inv(g, cfg, s) && n in g.nodes && n in s.status && s.status[n].Skipped?
    ensures cfg.failPolicy.SkipDownstream? && exists a :: a in g.nodes && Fails(s, a)
  {
    hide Counted, QueueOk, EnqueuedOk, PushOk, NoneMissed, NoneDropped, FlagOk, Ancestor;
    var a :| Blocks(g, s, a, n);
    FailsIsNotSuccess(g, cfg, s, a);
  }
}
