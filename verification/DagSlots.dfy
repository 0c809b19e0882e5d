/** The slots are used: the scheduling thread fills them as far as there are ready nodes. */
module DagSlots {
  import opened TaskCommon
  import opened Graphs
  import opened DagProtocol
  import opened DagInvariant
  import opened DagScheduler
  import opened DagRuns
  import opened DagLog
  import opened DagLimits
  import opened DagInline

  /** The scheduling thread goes for a node exactly while there is a free slot. */
  lemma GoesOnExactly(cfg: Config, s: State)
    requires s.pc.Test?
    ensures SchedulerStep(cfg, s).pc == Pop || SchedulerStep(cfg, s).pc == ExitTest
    ensures Honoured(cfg.maxParallel) ==> (SchedulerStep(cfg, s).pc == Pop <==> s.running < cfg.maxParallel)
    ensures Clamped(cfg.maxParallel) ==> (SchedulerStep(cfg, s).pc == Pop <==> s.running < 1)
  {
  }

  /** It waits only while some worker is at work and nothing is ready, and fail-fast has nothing to say. */
  lemma WaitsForWorkers(g: Dag, cfg: Config, s: State)
    requires WellFormed(g) && Reachable(g, cfg, s) && s.pc.Wait?
    ensures SchedulerEnabled(cfg, s) <==> s.ready != [] || s.workers == map[] || (cfg.failPolicy.FailFast? && s.failed)
  {
    hide WellFormed, Reachable, Coherent, Counted, QueueOk, EnqueuedOk, PushOk, NoneMissed, NoneDropped, SkipOk, FlagOk;
    ReachableInv(g, cfg, s);
    assert s.running == |s.workers|;
  }

  /** Some run leads from `s` to `t`. */
  ghost predicate Leads(g: Dag, cfg: Config, s: State, t: State) {
    exists acts :: Steps(g, cfg, s, acts, t)
  }

  lemma LeadsNowhere(g: Dag, cfg: Config, s: State)
    ensures Leads(g, cfg, s, s)
  {
    assert Steps(g, cfg, s, [], s);
  }

  lemma LeadsOn(g: Dag, cfg: Config, s: State, t: State, u: State)
    requires Leads(g, cfg, s, t) && SchedulerEnabled(cfg, t) && Shaped(g, t) && u == SchedulerStep(cfg, t)
    ensures Leads(g, cfg, s, u)
  {
    hide Steps, SchedulerStep;
    var acts :| Steps(g, cfg, s, acts, t);
    StepsSnoc(g, cfg, s, acts, t, Scheduler);
    assert Steps(g, cfg, s, acts + [Scheduler], u);
  }

  lemma {:induction false} StepsConcat(g: Dag, cfg: Config, s: State, a: seq<Step>, t: State, b: seq<Step>, u: State)
    requires Steps(g, cfg, s, a, t) && Steps(g, cfg, t, b, u)
    ensures Steps(g, cfg, s, a + b, u)
    decreases |a|
  {
    hide Enabled, Apply;
    if a == [] {
      assert a + b == b;
    } else {
      assert (a + b)[1..] == a[1..] + b;
      StepsConcat(g, cfg, Apply(g, cfg, s, a[0]), a[1..], t, b, u);
    }
  }

  lemma LeadsTransitive(g: Dag, cfg: Config, s: State, t: State, u: State)
    requires Leads(g, cfg, s, t) && Leads(g, cfg, t, u)
    ensures Leads(g, cfg, s, u)
  {
    hide Steps;
    var a :| Steps(g, cfg, s, a, t);
    var b :| Steps(g, cfg, t, b, u);
    StepsConcat(g, cfg, s, a, t, b, u);
    assert Steps(g, cfg, s, a + b, u);
  }

  lemma LeadsReachable(g: Dag, cfg: Config, s: State, t: State)
    requires Reachable(g, cfg, s) && Leads(g, cfg, s, t)
    ensures Reachable(g, cfg, t)
  {
    hide Steps, Init;
    var s0, a :| Init(g, s0) && Steps(g, cfg, s0, a, s);
    var b :| Steps(g, cfg, s, b, t);
    StepsConcat(g, cfg, s0, a, s, b, t);
    assert Steps(g, cfg, s0, a + b, t);
  }

  /** The state after the first ready node has been submitted. */
  function Submitted(s: State): State
    requires s.ready != []
  {
    var id := s.ready[0];
    s.(ready := s.ready[1..], status := s.status[id := Running], running := s.running + 1,
       log := s.log + [Start(id)], workers := s.workers[id := Executing])
  }

  /** With a free slot and no failure, the first ready node is submitted, and nothing else happens on the way. */
  lemma SubmitsFirst(g: Dag, cfg: Config, s: State)
    requires Shaped(g, s) && s.pc.Test? && s.ready != [] && !s.failed && !Nameless(s.ready[0])
    requires s.ready[0] in s.status && s.status[s.ready[0]].Pending? && s.running < Slots(cfg.maxParallel)
    ensures Leads(g, cfg, s, Submitted(s))
  {
    hide Leads, Slots;
    var id := s.ready[0];
    LeadsNowhere(g, cfg, s);
    var s1 := s.(pc := Pop);
    LeadsOn(g, cfg, s, s, s1);
    var s2 := s1.(pc := Check(id), ready := s.ready[1..]);
    LeadsOn(g, cfg, s, s1, s2);
    var s3 := s2.(pc := FailCheck(id));
    LeadsOn(g, cfg, s, s2, s3);
    var s4 := s3.(pc := Guard(id));
    LeadsOn(g, cfg, s, s3, s4);
    var s5 := s4.(pc := SetRunning(id));
    LeadsOn(g, cfg, s, s4, s5);
    SubmitsHeld(g, cfg, s, s5, id);
  }

  lemma SubmitsHeld(g: Dag, cfg: Config, s: State, s5: State, id: Id)
    requires Shaped(g, s5) && s5.pc == SetRunning(id) && id in s5.status && Leads(g, cfg, s, s5)
    ensures Leads(g, cfg, s, s5.(pc := Test, status := s5.status[id := Running], running := s5.running + 1,
                                 log := s5.log + [Start(id)], workers := s5.workers[id := Executing]))
  {
    hide Leads;
    var s6 := s5.(pc := Increment(id), status := s5.status[id := Running]);
    LeadsOn(g, cfg, s, s5, s6);
    var s7 := s6.(pc := Post(id), running := s6.running + 1, log := s6.log + [Start(id)]);
    LeadsOn(g, cfg, s, s6, s7);
    LeadsOn(g, cfg, s, s7, s7.(pc := Test, workers := s7.workers[id := Executing]));
  }

  ghost predicate AllReadyNamed(s: State) {
    forall n <- s.ready :: !Nameless(n)
  }

  lemma FirstIsSubmittable(g: Dag, cfg: Config, s: State)
    requires Inv(g, cfg, s) && s.ready != []
    ensures Shaped(g, s) && s.ready[0] in s.status && s.status[s.ready[0]].Pending?
  {
    hide Coherent, Counted, EnqueuedOk, PushOk, NoneMissed, NoneDropped, SkipOk, FlagOk;
    InvIsShaped(g, cfg, s);
    assert s.ready[0] in s.ready;
  }

  /** Any number of ready nodes, as far as the setting has room for them, can come to run at the same time. */
  lemma {:induction false} FillsSlots(g: Dag, cfg: Config, s: State, k: nat) returns (t: State)
    requires WellFormed(g) && Reachable(g, cfg, s) && s.pc.Test? && !s.failed && AllReadyNamed(s) && k <= |s.ready|
    requires (Honoured(cfg.maxParallel) && s.running + k <= cfg.maxParallel) ||
             (Clamped(cfg.maxParallel) && s.running + k <= 1)
    ensures Reachable(g, cfg, t) && Leads(g, cfg, s, t)
    ensures t.running == s.running + k && t.workers.Keys == s.workers.Keys + Elements(s.ready[..k])
    decreases k
  {
    hide WellFormed, Reachable, Leads, Inv;
    t := s;
    LeadsNowhere(g, cfg, s);
    if k > 0 {
      ReachableInv(g, cfg, s);
      FirstIsSubmittable(g, cfg, s);
      SubmitsFirst(g, cfg, s);
      var u := Submitted(s);
      LeadsReachable(g, cfg, s, u);
      assert forall n <- u.ready :: n in s.ready;
      t := FillsSlots(g, cfg, u, k - 1);
      LeadsTransitive(g, cfg, s, u, t);
      assert s.ready[..k] == [s.ready[0]] + u.ready[..k - 1];
    }
  }
}
