/** The event log of a run: each node becomes ready, starts and ends at most
    once, in that order, and never before its dependencies have succeeded. */
module DagLog {
  import opened TaskCommon
  import opened Graphs
  import opened DagProtocol
  import opened DagInvariant
  import opened DagScheduler
  import opened DagWorkers
  import opened DagChildren
  import opened DagSkipping
  import opened DagRuns

  ghost predicate WasSkipped(log: seq<Event>, c: Id) {
    exists w :: SkippedBy(c, w) in log
  }

  ghost predicate HasEnded(log: seq<Event>, c: Id) {
    exists st :: End(c, st) in log
  }

  /** Event `e` may follow the events of `log`. */
  ghost predicate Fits(g: Dag, log: seq<Event>, e: Event) {
    match e
    case Ready(c) =>
      && c in g.deps && Ready(c) !in log && !WasSkipped(log, c)
      && forall p :: p in g.deps[c] ==> End(p, Success) in log
    case Start(c) => Ready(c) in log && Start(c) !in log
    case End(c, _) => Start(c) in log && !HasEnded(log, c)
    case SkippedBy(c, w) =>
      && Ready(c) !in log && Ancestor(g.down, w, c)
      && exists st :: FailureLike(st) && End(w, st) in log
  }

  ghost predicate Orderly(g: Dag, log: seq<Event>) {
    forall i :: 0 <= i < |log| ==> Fits(g, log[..i], log[i])
  }

  lemma OrderlyAppend(g: Dag, log: seq<Event>, e: Event)
    requires Orderly(g, log) && Fits(g, log, e)
    ensures Orderly(g, log + [e])
  {
    hide Fits;
    var log' := log + [e];
    forall i | 0 <= i < |log'| ensures Fits(g, log'[..i], log'[i]) {
      if i < |log| {
        assert log'[..i] == log[..i] && log'[i] == log[i];
      } else {
        assert log'[..i] == log;
      }
    }
  }

  /** The log agrees with the state it led to. */
  ghost predicate Agrees(g: Dag, s: State) {
    && Shaped(g, s)
    && (forall n, st :: End(n, st) in s.log <==> n in s.results && s.results[n] == st && !s.status[n].Skipped?)
    && (forall n :: Start(n) in s.log <==>
          n in g.nodes && (s.status[n].Running? || Finished(s.status[n])) && s.pc != Increment(n))
    && (forall n, w :: SkippedBy(n, w) in s.log ==> n in g.nodes && s.status[n].Skipped?)
  }

  ghost predicate LogOk(g: Dag, s: State) {
    Agrees(g, s) && Orderly(g, s.log)
  }

  predicate Active(st: Status) {
    st.Running? || Finished(st)
  }

  /** Nothing that the log speaks of changes between `s` and `t`. */
  ghost predicate LogSilent(g: Dag, s: State, t: State)
    requires Shaped(g, s) && Shaped(g, t)
  {
    && t.log == s.log
    && (forall n :: n in g.nodes ==>
          (Active(t.status[n]) && t.pc != Increment(n) <==> Active(s.status[n]) && s.pc != Increment(n)))
    && (forall n :: n in g.nodes && s.status[n].Skipped? ==> t.status[n].Skipped?)
    && (forall n :: n in g.nodes && t.status[n].Skipped? && !s.status[n].Skipped? ==> n !in s.results)
    && (forall n :: n in g.nodes && !t.status[n].Skipped? ==>
          (n in t.results <==> n in s.results) && (n in s.results ==> t.results[n] == s.results[n]))
  }

  lemma SilentKeepsLog(g: Dag, s: State, t: State)
    requires LogOk(g, s) && Shaped(g, t) && LogSilent(g, s, t)
    ensures LogOk(g, t)
  {
    hide Orderly;
  }

  lemma StartKeepsLog(g: Dag, cfg: Config, s: State, t: State, id: Id)
    requires Inv(g, cfg, s) && LogOk(g, s) && s.pc == Increment(id)
    requires t == s.(pc := Post(id), running := s.running + 1, log := s.log + [Start(id)])
    ensures LogOk(g, t)
  {
    hide Inv, Orderly, Agrees, Fits;
    LogIsShaped(g, s);
    LaunchedIsRunning(g, cfg, s, id);
    ActiveIsEnqueued(g, cfg, s, id);
    StartAgrees(g, s, t, id);
    OrderlyAppend(g, s.log, Start(id));
  }

  lemma StartAgrees(g: Dag, s: State, t: State, id: Id)
    requires Agrees(g, s) && s.pc == Increment(id) && id in g.nodes && s.status[id].Running? && Ready(id) in s.log
    requires t == s.(pc := Post(id), running := s.running + 1, log := s.log + [Start(id)])
    ensures Agrees(g, t) && Fits(g, s.log, Start(id))
  {
    assert forall e :: e in t.log <==> e in s.log || e == Start(id);
  }

  lemma ActiveIsEnqueued(g: Dag, cfg: Config, s: State, id: Id)
    requires Inv(g, cfg, s) && Shaped(g, s) && id in g.nodes && Active(s.status[id])
    ensures Ready(id) in s.log
  {
    hide Coherent, Counted, QueueOk, PushOk, NoneMissed, NoneDropped, SkipOk, FlagOk;
    assert Enqueued(s, id);
  }

  lemma QuietScheduler(cfg: Config, s: State)
    requires SchedulerEnabled(cfg, s) && !s.pc.Increment? && !s.pc.SetRunning?
    ensures var t := SchedulerStep(cfg, s);
            t.status == s.status && t.results == s.results && t.log == s.log && !t.pc.Increment?
  {
    if Effective(s) {
      hide NextPc, SchedulerEnabled;
    } else {
      hide Effect;
      NextPcQuiet(cfg, s);
      hide NextPc, SchedulerEnabled, Effective;
    }
  }

  lemma NextPcQuiet(cfg: Config, s: State)
    requires !s.pc.Increment? && !Effective(s)
    ensures !NextPc(cfg, s).Increment?
  {
    hide Slots, FailedFast, Submittable;
  }

  lemma SchedulerKeepsLog(g: Dag, cfg: Config, s: State)
    requires Inv(g, cfg, s) && LogOk(g, s) && SchedulerEnabled(cfg, s)
    ensures LogOk(g, SchedulerStep(cfg, s))
  {
    hide Inv, LogOk;
    LogIsShaped(g, s);
    hide SchedulerStep, SchedulerEnabled;
    if s.pc.Increment? {
      IncrementStep(cfg, s, s.pc.id);
      StartKeepsLog(g, cfg, s, SchedulerStep(cfg, s), s.pc.id);
    } else if s.pc.SetRunning? {
      RunningKeepsLog(g, cfg, s, s.pc.id);
    } else {
      ShapedStep(g, cfg, s);
      QuietScheduler(cfg, s);
      SilentKeepsLog(g, s, SchedulerStep(cfg, s));
    }
  }

  lemma IncrementStep(cfg: Config, s: State, id: Id)
    requires s.pc == Increment(id)
    ensures SchedulerEnabled(cfg, s)
    ensures SchedulerStep(cfg, s) == s.(pc := Post(id), running := s.running + 1, log := s.log + [Start(id)])
  {
    hide NextPc;
  }

  lemma RunningKeepsLog(g: Dag, cfg: Config, s: State, id: Id)
    requires Inv(g, cfg, s) && LogOk(g, s) && s.pc == SetRunning(id)
    ensures SchedulerEnabled(cfg, s) && LogOk(g, SchedulerStep(cfg, s))
  {
    hide Inv, LogOk, NextPc;
    LogIsShaped(g, s);
    HeldIsPending(g, cfg, s, id);
    SilentKeepsLog(g, s, SchedulerStep(cfg, s));
  }

  lemma ShapedStep(g: Dag, cfg: Config, s: State)
    requires Inv(g, cfg, s) && SchedulerEnabled(cfg, s)
    ensures Shaped(g, SchedulerStep(cfg, s))
  {
    hide Inv;
    SchedulerKeepsInv(g, cfg, s);
    InvIsShaped(g, cfg, SchedulerStep(cfg, s));
  }

  lemma InvIsShaped(g: Dag, cfg: Config, s: State)
    requires Inv(g, cfg, s)
    ensures Shaped(g, s)
  {
    hide Counted, QueueOk, EnqueuedOk, PushOk, NoneMissed, NoneDropped, SkipOk, FlagOk;
  }

  lemma LogIsShaped(g: Dag, s: State)
    requires LogOk(g, s)
    ensures Shaped(g, s)
  {
  }

  lemma EndAgrees(g: Dag, s: State, t: State, w: Id, o: Status)
    requires Agrees(g, s) && Shaped(g, t) && w in g.nodes && w !in s.results && s.status[w].Running? &&
             s.pc != Increment(w)
    requires t.results == s.results[w := o] && t.log == s.log + [End(w, o)] && t.status == s.status && t.pc == s.pc
    ensures Agrees(g, t) && Fits(g, s.log, End(w, o))
  {
    assert forall e :: e in t.log <==> e in s.log || e == End(w, o);
  }

  lemma ReturnKeepsLog(g: Dag, cfg: Config, s: State, t: State, w: Id, o: Status)
    requires Inv(g, cfg, s) && LogOk(g, s) && w in s.workers && s.workers[w].Executing?
    requires t == Move(s, w, Reported(o)).(results := s.results[w := o], log := s.log + [End(w, o)])
    ensures LogOk(g, t)
  {
    hide Inv, Orderly, Agrees, Fits;
    WorkerFacts(g, cfg, s, w);
    EndAgrees(g, s, t, w, o);
    OrderlyAppend(g, s.log, End(w, o));
  }

  /** A node about to be pushed has seen every dependency end in success. */
  lemma PushedDeps(g: Dag, cfg: Config, s: State, w: Id, c: Id)
    requires WellFormed(g) && Inv(g, cfg, s) && LogOk(g, s) && Pushes(g, s, w, c)
    ensures Shaped(g, s) && c in g.nodes && c in g.deps && s.status[c].Pending? && !Enqueued(s, c)
    ensures forall p :: p in g.deps[c] ==> End(p, Success) in s.log
  {
    hide Coherent, Counted, QueueOk, EnqueuedOk, NoneMissed, NoneDropped, SkipOk, FlagOk, OpenIn, Orderly;
    PushedFacts(g, s, w, c);
    forall p | p in g.deps[c] ensures End(p, Success) in s.log {
      assert Edge(g.down, p, c);
      ClosedMeansDepsSucceeded(g, cfg, s, p, c);
      SuccessIsSettled(g, cfg, s, p);
    }
  }

  lemma SuccessIsSettled(g: Dag, cfg: Config, s: State, p: Id)
    requires Coherent(g, cfg, s) && p in g.nodes && s.status[p].Success?
    ensures p in s.results && s.results[p].Success?
  {
    assert NodeOk(g, s, p);
  }

  lemma PushKeepsLog(g: Dag, cfg: Config, s: State, t: State, w: Id, k: nat, c: Id)
    requires WellFormed(g) && Inv(g, cfg, s) && LogOk(g, s) && w in g.down && w in s.workers
    requires s.workers[w] == Pushing(k) && k < |g.down[w]| && c == g.down[w][k] && t == Pushed(s, w, k, c)
    ensures LogOk(g, t)
  {
    hide Inv, Orderly, WellFormed, Agrees, Fits;
    assert Pushes(g, s, w, c);
    PushedDeps(g, cfg, s, w, c);
    ReadyAgrees(g, s, t, c);
    OrderlyAppend(g, s.log, Ready(c));
  }

  lemma ReadyAgrees(g: Dag, s: State, t: State, c: Id)
    requires Agrees(g, s) && Shaped(g, t) && c in g.deps && c in g.nodes && s.status[c].Pending? && !Enqueued(s, c)
    requires forall p :: p in g.deps[c] ==> End(p, Success) in s.log
    requires t.results == s.results && t.log == s.log + [Ready(c)] && t.status == s.status && t.pc == s.pc
    ensures Agrees(g, t) && Fits(g, s.log, Ready(c))
  {
    assert forall e :: e in t.log <==> e in s.log || e == Ready(c);
  }

  lemma RecordAgrees(g: Dag, s: State, t: State, w: Id, c: Id)
    requires Agrees(g, s) && Shaped(g, t) && w in g.nodes && Fails(s, w) && !s.status[w].Skipped?
    requires c in g.nodes && s.status[c].Skipped? && Ancestor(g.down, w, c) && Ready(c) !in s.log
    requires t.results == s.results[c := Skipped] && t.log == s.log + [SkippedBy(c, w)] && t.status == s.status &&
             t.pc == s.pc
    ensures Agrees(g, t)
  {
    hide Ancestor, Shaped;
    assert forall n, st :: End(n, st) in t.log <==> End(n, st) in s.log;
    assert forall n :: Start(n) in t.log <==> Start(n) in s.log;
    assert forall n, v :: SkippedBy(n, v) in t.log <==> SkippedBy(n, v) in s.log || (n == c && v == w);
  }

  lemma SkipFits(g: Dag, s: State, w: Id, c: Id)
    requires Agrees(g, s) && w in g.nodes && Fails(s, w) && !s.status[w].Skipped? && Ancestor(g.down, w, c) &&
             Ready(c) !in s.log
    ensures Fits(g, s.log, SkippedBy(c, w))
  {
    hide Ancestor;
    assert End(w, s.results[w]) in s.log;
  }

  lemma RecordKeepsLog(g: Dag, cfg: Config, s: State, t: State, w: Id, c: Id, visited: set<Id>, todo: seq<Id>)
    requires WellFormed(g) && Inv(g, cfg, s) && LogOk(g, s) && w in s.workers
    requires s.workers[w].Recording? && s.workers[w].child == c && t == Went(s, w, c, visited, todo)
    ensures LogOk(g, t)
  {
    hide Inv, Orderly, WellFormed, Ancestor, Agrees, Fits;
    WorkerFacts(g, cfg, s, w);
    RecordedChild(g, cfg, s, w, c);
    RecordAgrees(g, s, t, w, c);
    SkipFits(g, s, w, c);
    OrderlyAppend(g, s.log, SkippedBy(c, w));
  }

  lemma RecordedChild(g: Dag, cfg: Config, s: State, w: Id, c: Id)
    requires WellFormed(g) && Inv(g, cfg, s) && w in s.workers && s.workers[w].Recording? && s.workers[w].child == c
    ensures Shaped(g, s) && c in g.nodes && s.status[c].Skipped? && Ancestor(g.down, w, c) && Ready(c) !in s.log
  {
    hide Coherent, Counted, QueueOk, PushOk, NoneMissed, NoneDropped, SkipOk, FlagOk, OpenIn;
    SweepOkAt(g, cfg, s, w);
    assert !Enqueued(s, c);
  }

  lemma OtherWorkerKeepsLog(g: Dag, cfg: Config, s: State, w: Id, o: Status)
    requires Inv(g, cfg, s) && LogOk(g, s) && Shaped(g, s) && w in s.workers
    requires s.workers[w].Looking? || s.workers[w].Decrementing? || s.workers[w].Marking? || s.workers[w].Leaving?
    ensures LogOk(g, WorkerStep(g, cfg, s, w, o))
  {
    hide Inv, LogOk, Discover;
    var t := WorkerStep(g, cfg, s, w, o);
    assert t.status == s.status && t.results == s.results && t.log == s.log && t.pc == s.pc && Shaped(g, t);
    hide WorkerStep;
    SilentKeepsLog(g, s, t);
  }

  lemma SettleKeepsLog(g: Dag, cfg: Config, s: State, w: Id, o: Status)
    requires Inv(g, cfg, s) && LogOk(g, s) && Shaped(g, s) && w in s.workers && s.workers[w].Reported?
    ensures LogOk(g, WorkerStep(g, cfg, s, w, o))
  {
    hide Inv, LogOk;
    WorkerFacts(g, cfg, s, w);
    assert s.status[w].Running?;
    hide NodeOk, PhaseOk, Holds, Enqueued, ChildStep, MarkStep, VisitStep, RecordStep;
    var t := WorkerStep(g, cfg, s, w, o);
    assert t.status == s.status[w := NodeStatus(s.workers[w].st)] && t.results == s.results && t.log == s.log &&
           t.pc == s.pc;
    assert Shaped(g, t);
    hide WorkerStep, LogSilent;
    SettleIsSilent(g, s, t, w, s.workers[w].st);
    SilentKeepsLog(g, s, t);
  }

  lemma SettleIsSilent(g: Dag, s: State, t: State, w: Id, st: Status)
    requires Shaped(g, s) && Shaped(g, t) && w in g.nodes && s.status[w].Running? && s.pc != Increment(w)
    requires t.status == s.status[w := NodeStatus(st)] && t.results == s.results && t.log == s.log && t.pc == s.pc
    ensures LogSilent(g, s, t)
  {
  }

  lemma VisitKeepsLog(g: Dag, cfg: Config, s: State, w: Id, o: Status)
    requires WellFormed(g) && Inv(g, cfg, s) && LogOk(g, s) && Shaped(g, s) && w in s.workers && s.workers[w].Visiting?
    ensures LogOk(g, WorkerStep(g, cfg, s, w, o))
  {
    hide Inv, LogOk, WellFormed, OpenIn;
    WorkerFacts(g, cfg, s, w);
    var t := WorkerStep(g, cfg, s, w, o);
    var todo := s.workers[w].todo;
    if todo != [] {
      assert todo == [todo[0]] + todo[1..];
      VisitedNext(g, cfg, s, w, todo[0], todo[1..]);
    }
    assert LogSilent(g, s, t);
    SilentKeepsLog(g, s, t);
  }

  lemma VisitedNext(g: Dag, cfg: Config, s: State, w: Id, c: Id, todo: seq<Id>)
    requires WellFormed(g) && Inv(g, cfg, s) && w in s.workers && s.workers[w].Visiting? &&
             s.workers[w].todo == [c] + todo
    ensures Shaped(g, s) && c in g.nodes && (s.status[c].Pending? || s.status[c].Skipped?) && NodeOk(g, s, c)
  {
    hide Coherent, Counted, QueueOk, EnqueuedOk, PushOk, NoneMissed, NoneDropped, SkipOk, FlagOk, OpenIn, WellFormed;
    WorkerFacts(g, cfg, s, w);
    NextInSweep(g, cfg, s, w, s.workers[w].visited, todo, c);
    MarkedFacts(g, cfg, s, w, c);
  }

  lemma WorkerKeepsLog(g: Dag, cfg: Config, s: State, w: Id, o: Status)
    requires WellFormed(g) && Inv(g, cfg, s) && LogOk(g, s) && Shaped(g, s) && w in s.workers
    ensures LogOk(g, WorkerStep(g, cfg, s, w, o))
  {
    hide Inv, LogOk, WellFormed, Discover, NodeOk;
    WorkerFacts(g, cfg, s, w);
    var t := WorkerStep(g, cfg, s, w, o);
    match s.workers[w]
    case Executing => ReturnKeepsLog(g, cfg, s, t, w, o);
    case Reported(_) => SettleKeepsLog(g, cfg, s, w, o);
    case Pushing(k) =>
      WellFormedChild(g, w, k);
      PushKeepsLog(g, cfg, s, t, w, k, g.down[w][k]);
    case Visiting(_, _) => VisitKeepsLog(g, cfg, s, w, o);
    case Recording(_, _, c) => RecordKeepsLog(g, cfg, s, t, w, c, t.workers[w].visited, t.workers[w].todo);
    case _ => OtherWorkerKeepsLog(g, cfg, s, w, o);
  }

  lemma InitLog(g: Dag, s: State)
    requires WellFormed(g) && Init(g, s)
    ensures LogOk(g, s)
  {
    WellFormedKeys(g);
    hide WellFormed;
    assert Agrees(g, s) by {
      assert forall e :: e in s.log ==> e.Ready?;
    }
    hide Agrees;
    forall i | 0 <= i < |s.log| ensures Fits(g, s.log[..i], s.log[i]) {
      InitFits(g, s, i);
    }
  }

  lemma InitFits(g: Dag, s: State, i: nat)
    requires Init(g, s) && i < |s.log|
    ensures Fits(g, s.log[..i], s.log[i])
  {
    var c := s.ready[i];
    assert c in s.ready;
    forall j | 0 <= j < i ensures s.log[..i][j] == Ready(s.ready[j]) && s.ready[j] != c {
    }
  }

  lemma {:induction false} StepsKeepLog(g: Dag, cfg: Config, s: State, acts: seq<Step>, t: State)
    requires WellFormed(g) && Inv(g, cfg, s) && LogOk(g, s) && Steps(g, cfg, s, acts, t)
    ensures LogOk(g, t)
    decreases |acts|
  {
    hide Inv, WellFormed, LogOk;
    if acts != [] {
      assert Enabled(g, cfg, s, acts[0]);
      StepKeepsInv(g, cfg, s, acts[0]);
      match acts[0] {
        case Scheduler => SchedulerKeepsLog(g, cfg, s);
        case Worker(w, o) => WorkerKeepsLog(g, cfg, s, w, o);
      }
      hide Apply, Enabled;
      StepsKeepLog(g, cfg, Apply(g, cfg, s, acts[0]), acts[1..], t);
    }
  }

  lemma ReachableLog(g: Dag, cfg: Config, s: State)
    requires WellFormed(g) && Reachable(g, cfg, s)
    ensures LogOk(g, s)
  {
    hide Inv, WellFormed, Init, LogOk;
    var s0, acts :| Init(g, s0) && Steps(g, cfg, s0, acts, s);
    InitInv(g, cfg, s0);
    InitLog(g, s0);
    StepsKeepLog(g, cfg, s0, acts, s);
  }
}
