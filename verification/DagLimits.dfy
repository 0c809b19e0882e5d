/** Limits that hold throughout every run: slots, order of events, counters,
    and what fail-fast still lets through. */
module DagLimits {
  import opened TaskCommon
  import opened Graphs
  import opened DagProtocol
  import opened DagInvariant
  import opened DagScheduler
  import opened DagWorkers
  import opened DagSkipping
  import opened DagRuns
  import opened DagLog
  import opened DagOutcome

  /* ---- slots ---- */

  ghost function InFlight(s: State): set<Id> {
    s.workers.Keys + (if s.pc.Post? then {s.pc.id} else {})
  }

  ghost function RunningNodes(s: State): set<Id> {
    set n | n in s.status && s.status[n].Running?
  }

  /** The setting, where it is a positive signed 32-bit number. */
  predicate Honoured(maxParallel: nat) {
    1 <= maxParallel < 0x8000_0000
  }

  /** It reads as zero or as a negative number. */
  predicate Clamped(maxParallel: nat) {
    maxParallel == 0 || 0x8000_0000 <= maxParallel < 0x1_0000_0000
  }

  /** The running count is the number of nodes in flight, and neither it nor the number of Running nodes exceeds the
      setting, or one where the setting reads as zero or less. */
  lemma SlotLimit(g: Dag, cfg: Config, s: State)
    requires WellFormed(g) && Reachable(g, cfg, s)
    ensures s.running == |InFlight(s)|
    ensures Honoured(cfg.maxParallel) ==> s.running <= cfg.maxParallel && |RunningNodes(s)| <= cfg.maxParallel
    ensures Clamped(cfg.maxParallel) ==> s.running <= 1 && |RunningNodes(s)| <= 1
  {
    hide Coherent, Counted, QueueOk, EnqueuedOk, PushOk, NoneMissed, NoneDropped, SkipOk, FlagOk, WellFormed, Reachable;
    ReachableInv(g, cfg, s);
    assert |s.workers.Keys| == |s.workers|;
    var launching := if s.pc.Increment? || s.pc.Post? then {s.pc.id} else {};
    if s.pc.Post? {
      LaunchedIsRunning(g, cfg, s, s.pc.id);
    }
    forall n | n in RunningNodes(s) ensures n in s.workers.Keys + launching {
      RunningIsInFlight(g, cfg, s, n);
    }
    SubsetCount(RunningNodes(s), s.workers.Keys + launching);
    assert |s.workers.Keys + launching| <= |s.workers.Keys| + |launching|;
  }

  lemma RunningIsInFlight(g: Dag, cfg: Config, s: State, n: Id)
    requires Inv(g, cfg, s) && n in s.status && s.status[n].Running?
    ensures n in s.workers || Launches(s.pc, n)
  {
    hide Counted, QueueOk, EnqueuedOk, PushOk, NoneMissed, NoneDropped, SkipOk, FlagOk;
    assert NodeOk(g, s, n);
  }

  /* ---- order ---- */

  /** A node starts only after it was announced ready, and that only after each of
      its dependencies had ended in success. */
  lemma StartAfterDependencies(g: Dag, cfg: Config, s: State, i: nat, c: Id, p: Id)
    requires WellFormed(g) && Reachable(g, cfg, s) && i < |s.log| && s.log[i] == Start(c)
    requires c in g.deps && p in g.deps[c]
    ensures exists r, e :: 0 <= e < r < i && s.log[r] == Ready(c) && s.log[e] == End(p, Success)
  {
    hide WellFormed, Reachable, Agrees, Fits;
    ReachableLog(g, cfg, s);
    assert Fits(g, s.log[..i], Start(c));
    FitsMeaning(g, s.log[..i], c);
    var r :| 0 <= r < i && s.log[..i][r] == Ready(c);
    assert Fits(g, s.log[..r], s.log[r]);
    FitsMeaning(g, s.log[..r], c);
    var e :| 0 <= e < r && s.log[..r][e] == End(p, Success);
  }

  lemma FitsMeaning(g: Dag, log: seq<Event>, c: Id)
    ensures Fits(g, log, Start(c)) ==> Ready(c) in log
    ensures Fits(g, log, Ready(c)) ==> c in g.deps && forall p :: p in g.deps[c] ==> End(p, Success) in log
  {
  }

  /** Two events of a run about one node are of different kinds, unless they
      report the same skipped node for different reasons. */
  lemma AtMostOnce(g: Dag, cfg: Config, s: State, i: nat, j: nat)
    requires WellFormed(g) && Reachable(g, cfg, s) && i < j < |s.log|
    ensures s.log[i].Ready? && s.log[j].Ready? ==> s.log[i].id != s.log[j].id
    ensures s.log[i].Start? && s.log[j].Start? ==> s.log[i].id != s.log[j].id
    ensures s.log[i].End? && s.log[j].End? ==> s.log[i].id != s.log[j].id
    ensures s.log[i].SkippedBy? && s.log[j].Start? ==> s.log[i].id != s.log[j].id
    ensures s.log[i].Start? && s.log[j].SkippedBy? ==> s.log[i].id != s.log[j].id
  {
    hide WellFormed, Reachable;
    ReachableLog(g, cfg, s);
    assert Fits(g, s.log[..j], s.log[j]);
    assert s.log[..j][i] == s.log[i];
    assert s.log[i].End? ==> HasEnded(s.log[..j], s.log[i].id);
    if s.log[i].SkippedBy? && s.log[j].Start? {
      StartedIsNotSkipped(g, s, i, j);
    }
    if s.log[i].Start? && s.log[j].SkippedBy? {
      StartedIsNotSkipped(g, s, j, i);
    }
  }

  lemma StartedIsNotSkipped(g: Dag, s: State, i: nat, j: nat)
    requires LogOk(g, s) && i < |s.log| && j < |s.log| && s.log[i].SkippedBy? && s.log[j].Start?
    ensures s.log[i].id != s.log[j].id
  {
    hide Orderly;
    assert SkippedBy(s.log[i].id, s.log[i].upstream) in s.log;
    assert Start(s.log[j].id) in s.log;
  }

  /** A node that is not skipped shows as its counter the number of its
      dependency edges not yet dealt with; what is queued or held is Pending. */
  lemma CounterMeaning(g: Dag, cfg: Config, s: State, c: Id)
    requires WellFormed(g) && Reachable(g, cfg, s) && c in g.nodes
    ensures Shaped(g, s)
    ensures !s.status[c].Skipped? ==> s.indegree[c] == |OpenIn(g, s, c)|
    ensures c in s.ready || Holds(s.pc, c) ==> s.status[c].Pending? && s.indegree[c] == 0
  {
    hide Coherent, NoneMissed, PushOk, NoneDropped, SkipOk, FlagOk, WellFormed, Reachable, OpenIn;
    ReachableInv(g, cfg, s);
    assert CounterOk(g, s, c);
    if Holds(s.pc, c) { HeldIsPending(g, cfg, s, c); }
  }

  /** The skipping pass only ever overwrites Pending or Skipped. */
  lemma SkipsOnlyPending(g: Dag, cfg: Config, s: State, w: Id, c: Id, todo: seq<Id>)
    requires WellFormed(g) && Reachable(g, cfg, s) && w in s.workers && s.workers[w].Visiting? &&
             s.workers[w].todo == [c] + todo
    ensures c in s.status && (s.status[c].Pending? || s.status[c].Skipped?) && c !in s.workers && c !in s.ready
  {
    hide Inv, WellFormed, Reachable, OpenIn;
    ReachableInv(g, cfg, s);
    VisitedNext(g, cfg, s, w, c, todo);
    WorkerFacts(g, cfg, s, w);
    VisitedIsIdle(g, cfg, s, w, c, todo);
  }

  lemma VisitedIsIdle(g: Dag, cfg: Config, s: State, w: Id, c: Id, todo: seq<Id>)
    requires WellFormed(g) && Inv(g, cfg, s) && w in s.workers && s.workers[w].Visiting? &&
             s.workers[w].todo == [c] + todo
    ensures c !in s.workers && c !in s.ready
  {
    hide Coherent, Counted, EnqueuedOk, PushOk, NoneMissed, NoneDropped, SkipOk, FlagOk, OpenIn, WellFormed;
    WorkerFacts(g, cfg, s, w);
    NextInSweep(g, cfg, s, w, s.workers[w].visited, todo, c);
    MarkedFacts(g, cfg, s, w, c);
  }

  /** A child found Skipped, Failed, Timeout or Canceled is passed over, its counter and all else left alone; any other
      child is counted down next. */
  lemma ClosedChildIsPassed(g: Dag, cfg: Config, s: State, w: Id, k: nat, o: Status)
    requires Shaped(g, s) && w in s.workers && s.workers[w] == Looking(k) && k < |g.down[w]| && g.down[w][k] in g.nodes
    ensures WorkerStep(g, cfg, s, w, o) ==
              Move(s, w, if s.status[g.down[w][k]] in {Status.Skipped, Status.Failed, Status.Timeout, Status.Canceled}
                         then Looking(k + 1) else Decrementing(k))
  {
  }

  /* ---- the end ---- */

  /** When the exit test has passed nothing is queued or in flight, and after
      the return no thread can take another step. */
  lemma SoundReturn(g: Dag, cfg: Config, s: State, a: Step)
    requires WellFormed(g) && Reachable(g, cfg, s) && (s.pc.Finish? || s.pc.Done?)
    ensures s.ready == [] && s.workers == map[] && s.running == 0
    ensures s.pc.Done? ==> !Enabled(g, cfg, s, a)
    ensures forall w, c :: !Pushes(g, s, w, c)
  {
    hide Coherent, Counted, QueueOk, EnqueuedOk, PushOk, NoneMissed, NoneDropped, SkipOk, WellFormed, Reachable;
    ReachableInv(g, cfg, s);
  }

  /* ---- fail-fast ---- */

  /** The node, if any, with which the scheduling thread is already past the failure check. */
  ghost function PastCheck(s: State): set<Id> {
    if s.pc.Guard? || s.pc.SetRunning? || s.pc.Increment? then {s.pc.id} else {}
  }

  lemma FailFastStep(g: Dag, cfg: Config, s: State, a: Step, n: Id)
    requires Enabled(g, cfg, s, a) && FailedFast(cfg, s)
    ensures FailedFast(cfg, Apply(g, cfg, s, a))
    ensures n in PastCheck(Apply(g, cfg, s, a)) || Start(n) in Apply(g, cfg, s, a).log ==>
              n in PastCheck(s) || Start(n) in s.log
  {
    hide SchedulerStep, WorkerStep, PastCheck, FailedFast;
    match a {
      case Scheduler => FailFastScheduler(cfg, s, n);
      case Worker(w, o) => FailFastWorker(g, cfg, s, w, o, n);
    }
  }

  lemma FailFastScheduler(cfg: Config, s: State, n: Id)
    requires SchedulerEnabled(cfg, s) && FailedFast(cfg, s)
    ensures var t := SchedulerStep(cfg, s);
            FailedFast(cfg, t) && (n in PastCheck(t) || Start(n) in t.log ==> n in PastCheck(s) || Start(n) in s.log)
  {
    if Effective(s) {
      hide NextPc, SchedulerEnabled;
    } else {
      NextPcPastCheck(cfg, s, n);
      hide NextPc, SchedulerEnabled, Effect, Effective;
    }
  }

  lemma NextPcPastCheck(cfg: Config, s: State, n: Id)
    requires FailedFast(cfg, s) && !Effective(s)
    ensures n in PastCheck(s.(pc := NextPc(cfg, s))) ==> n in PastCheck(s)
  {
    hide Slots, Submittable;
  }

  lemma FailFastWorker(g: Dag, cfg: Config, s: State, w: Id, o: Status, n: Id)
    requires Shaped(g, s) && w in s.workers && FailedFast(cfg, s)
    ensures var t := WorkerStep(g, cfg, s, w, o);
            FailedFast(cfg, t) && (n in PastCheck(t) || Start(n) in t.log ==> n in PastCheck(s) || Start(n) in s.log)
  {
    hide Discover;
  }

  lemma {:induction false} FailFastSteps(g: Dag, cfg: Config, s: State, acts: seq<Step>, t: State, n: Id)
    requires Steps(g, cfg, s, acts, t) && FailedFast(cfg, s)
    ensures Start(n) in t.log ==> n in PastCheck(s) || Start(n) in s.log
    ensures n in PastCheck(t) ==> n in PastCheck(s) || Start(n) in s.log
    decreases |acts|
  {
    if acts != [] {
      FailFastStep(g, cfg, s, acts[0], n);
      hide Apply, PastCheck;
      FailFastSteps(g, cfg, Apply(g, cfg, s, acts[0]), acts[1..], t, n);
    }
  }

  /** Under fail-fast, once the failure is recorded at most one more node is
      started in whatever follows, and only if the scheduling thread was already
      past the check; and no node is ever skipped. */
  lemma FailFastLimit(g: Dag, cfg: Config, s: State, acts: seq<Step>, t: State, n: Id, m: Id)
    requires Steps(g, cfg, s, acts, t) && cfg.failPolicy.FailFast? && s.failed
    requires Start(n) in t.log && Start(n) !in s.log && Start(m) in t.log && Start(m) !in s.log
    ensures n == m && PastCheck(s) == {n}
  {
    FailFastSteps(g, cfg, s, acts, t, n);
    FailFastSteps(g, cfg, s, acts, t, m);
  }

  lemma FailFastNeverSkips(g: Dag, cfg: Config, s: State, n: Id)
    requires WellFormed(g) && Reachable(g, cfg, s) && cfg.failPolicy.FailFast? && n in g.nodes
    ensures n in s.status && !s.status[n].Skipped? && !WasSkipped(s.log, n)
  {
    hide Inv, WellFormed, Reachable, Orderly;
    ReachableInv(g, cfg, s);
    ReachableLog(g, cfg, s);
    if s.status[n].Skipped? {
      SkippedHasCause(g, cfg, s, n);
    }
  }
}
