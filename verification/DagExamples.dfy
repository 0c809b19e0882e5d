/** Concrete inputs that show why the verdict and the report of a cycle need their conditions. */
module DagExamples {
  import opened TaskCommon
  import opened Graphs
  import opened DagBuilder
  import opened DagValidator
  import opened DagGraphs
  import opened DagService
  import opened DagProtocol
  import opened DagInline

  /** A DAG of one node without edges. */
  function Single(n: Id): Dag {
    Dag({n}, map[n := []], map[n := []])
  }

  function Begin(n: Id): State {
    State(Test, [n], 0, false, map[n := Pending], map[n := 0], map[], map[], [Ready(n)])
  }

  lemma SingleSound(n: Id)
    ensures WellFormed(Single(n)) && Acyclic(Single(n).down) && Init(Single(n), Begin(n))
  {
    var g := Single(n);
    assert forall p, c :: !Edge(g.down, p, c);
    assert Open(g.down, map[], n) == {};
    forall c ensures !IsCycle(g.down, c) {
      if |c| > 0 {
        assert !Edge(g.down, c[|c| - 1], c[0]);
      }
    }
    assert Begin(n).ready == [n];
  }

  /** A list of one spec without dependencies. */
  function Lone(n: string, run: string): seq<Spec> {
    [Spec(TaskId(n, run), [])]
  }

  /** It passes validation and builds that DAG. */
  lemma LoneBuildsSingle(n: string, run: string)
    ensures AllPresent(Lone(n, run)) && !HasCycle(Lone(n, run))
    ensures InRun(Built(Lone(n, run)), run) && Names(Built(Lone(n, run)), run) == Single(n)
  {
    var specs := Lone(n, run);
    assert forall id, dep :: !DependsOn(specs, id, dep);
    hide Names, InRun, Built, DependsOn, NodesAre, CountersSet;
    ValidSpecsBuildDag(specs, run);
    BuiltIsSound(specs, run);
    var d := Names(Built(specs), run);
    assert specs[0].id.value == n;
    assert d.nodes == {n};
    NoEdgesNoLists(d, n);
  }

  lemma NoEdgesNoLists(d: Dag, n: Id)
    requires WellFormed(d) && d.nodes == {n} && forall a, b :: !Edge(d.down, a, b)
    ensures d == Single(n)
  {
    HeadIsMember(d.down[n]);
    HeadIsMember(d.deps[n]);
    assert forall x :: x in d.down[n] ==> Edge(d.down, n, x);
    assert forall x :: x in d.deps[n] ==> Edge(d.down, x, n);
  }

  lemma HeadIsMember(ids: seq<Id>)
    ensures ids == [] || ids[0] in ids
  {
  }

  ghost predicate After(n: Id, cfg: Config, s: State) {
    Reachable(Single(n), cfg, s) && Shaped(Single(n), s)
  }

  lemma Starts(n: Id, cfg: Config)
    ensures After(n, cfg, Begin(n))
  {
    SingleSound(n);
    InitRun(Single(n), cfg, Begin(n));
  }

  lemma Schedules(n: Id, cfg: Config, s: State, t: State)
    requires After(n, cfg, s) && SchedulerEnabled(cfg, s)
    requires t == SchedulerStep(cfg, s) && Shaped(Single(n), t)
    ensures After(n, cfg, t)
  {
    hide Reachable;
    ReachableSnoc(Single(n), cfg, s, Scheduler);
  }

  lemma Works(n: Id, cfg: Config, s: State, o: Status, t: State)
    requires After(n, cfg, s) && n in s.workers
    requires t == WorkerStep(Single(n), cfg, s, n, o) && Shaped(Single(n), t)
    ensures After(n, cfg, t)
  {
    hide Reachable;
    ReachableSnoc(Single(n), cfg, s, Worker(n, o));
  }

  /** A node with an empty name is popped, taken for an empty queue and lost; the DAG still reports Success. */
  lemma LostNode(cfg: Config, run: string) returns (s: State)
    ensures AllPresent(Lone("", run)) && !HasCycle(Lone("", run)) && InRun(Built(Lone("", run)), run)
    ensures Reachable(Names(Built(Lone("", run)), run), cfg, s) && s.pc == Done(Success) &&
            s.status == map["" := Pending]
  {
    LoneBuildsSingle("", run);
    hide Reachable, Names, InRun, Built, AllPresent, HasCycle;
    var n := "";
    Starts(n, cfg);
    var s0 := Begin(n);
    var s1 := s0.(pc := Pop);
    Schedules(n, cfg, s0, s1);
    var s2 := s1.(pc := ExitTest, ready := []);
    Schedules(n, cfg, s1, s2);
    s := Returns(n, cfg, s2);
  }

  /** The scheduling thread submits the only node. */
  lemma Submits(n: Id, cfg: Config) returns (s: State)
    requires !Nameless(n)
    ensures After(n, cfg, s)
    ensures s == State(Test, [], 1, false, map[n := Running], map[n := 0], map[], map[n := Executing],
            [Ready(n), Start(n)])
  {
    hide Reachable;
    Starts(n, cfg);
    var s0 := Begin(n);
    var s1 := s0.(pc := Pop);
    Schedules(n, cfg, s0, s1);
    var s2 := s1.(pc := Check(n), ready := []);
    Schedules(n, cfg, s1, s2);
    var s3 := s2.(pc := FailCheck(n));
    Schedules(n, cfg, s2, s3);
    var s4 := s3.(pc := Guard(n));
    Schedules(n, cfg, s3, s4);
    var s5 := s4.(pc := SetRunning(n));
    Schedules(n, cfg, s4, s5);
    s := Launch(n, cfg, s5);
  }

  lemma Launch(n: Id, cfg: Config, s0: State) returns (s: State)
    requires After(n, cfg, s0) && s0 == Begin(n).(pc := SetRunning(n), ready := [])
    ensures After(n, cfg, s)
    ensures s == State(Test, [], 1, false, map[n := Running], map[n := 0], map[], map[n := Executing],
            [Ready(n), Start(n)])
  {
    hide Reachable;
    assert map[n := Pending][n := Running] == map[n := Running];
    var s1 := s0.(pc := Increment(n), status := map[n := Running]);
    Schedules(n, cfg, s0, s1);
    assert [Ready(n)] + [Start(n)] == [Ready(n), Start(n)];
    var s2 := s1.(pc := Post(n), running := 1, log := [Ready(n), Start(n)]);
    Schedules(n, cfg, s1, s2);
    var none: map<Id, Phase> := map[];
    assert none[n := Executing] == map[n := Executing];
    s := s2.(pc := Test, workers := map[n := Executing]);
    Schedules(n, cfg, s2, s);
  }

  /** A task that reports a result outside the ordinary four leaves its node Failed and the DAG successful. */
  lemma OddResult(n: Id, cfg: Config, odd: Status, run: string) returns (s: State)
    requires !Nameless(n) && !Finished(odd)
    ensures AllPresent(Lone(n, run)) && !HasCycle(Lone(n, run)) && InRun(Built(Lone(n, run)), run)
    ensures Reachable(Names(Built(Lone(n, run)), run), cfg, s) && s.pc == Done(Success) && s.status == map[n := Failed]
  {
    LoneBuildsSingle(n, run);
    hide Reachable, Names, InRun, Built, AllPresent, HasCycle;
    var s0 := Submits(n, cfg);
    var s1 := s0.(workers := map[n := Reported(odd)], results := map[n := odd], log := s0.log + [End(n, odd)]);
    assert s0.workers[n := Reported(odd)] == s1.workers && s0.results[n := odd] == s1.results;
    Works(n, cfg, s0, odd, s1);
    var s2 := s1.(workers := map[n := Leaving], status := map[n := Failed]);
    assert s1.workers[n := Leaving] == s2.workers && s1.status[n := Failed] == s2.status;
    Works(n, cfg, s1, odd, s2);
    var s3 := s2.(workers := map[], running := 0);
    assert s2.workers - {n} == s3.workers;
    Works(n, cfg, s2, odd, s3);
    s := Returns(n, cfg, s3);
  }

  lemma Returns(n: Id, cfg: Config, s: State) returns (t: State)
    requires After(n, cfg, s) && (s.pc == Test || s.pc == ExitTest) && s.ready == [] && s.running == 0 && !s.failed
    ensures Reachable(Single(n), cfg, t) && t == s.(pc := Done(Success))
  {
    hide Reachable;
    var s1 := if s.pc.Test? then s.(pc := Pop) else s;
    if s.pc.Test? { Schedules(n, cfg, s, s1); }
    var s2 := s1.(pc := ExitTest);
    if s1.pc.Pop? { Schedules(n, cfg, s1, s2); }
    var s3 := s2.(pc := Finish);
    Schedules(n, cfg, s2, s3);
    t := s3.(pc := Done(Success));
    Schedules(n, cfg, s3, t);
  }

  /** A task that depends on an undeclared empty name. */
  function Dangling(run: string): seq<Spec> {
    [Spec(TaskId("a", run), [TaskId("", run)])]
  }

  lemma DanglingFacts(run: string)
    ensures !AllPresent(Dangling(run)) && !HasCycle(Dangling(run)) && forall dep :: !Absent(Dangling(run), dep)
  {
    var specs := Dangling(run);
    assert forall id, dep :: DependsOn(specs, id, dep) ==> id == "a" && dep == "";
    assert specs[0].id.value == "a" && specs[0].deps[0].value == "";
    assert DependsOn(specs, "a", "") && !Declared(specs, "");
    hide DependsOn;
    forall c ensures !DependencyCycle(specs, c) {
      CycleCloses(specs, c);
    }
  }

  lemma CycleCloses(specs: seq<Spec>, c: seq<string>)
    ensures DependencyCycle(specs, c) && |c| >= 2 ==> DependsOn(specs, c[|c| - 1], c[|c| - 2])
  {
    hide DependsOn;
    if DependencyCycle(specs, c) && |c| >= 2 {
      assert DependsOn(specs, c[|c| - 2 + 1], c[|c| - 2]);
    }
  }

  /** The check for missing dependencies passes over the empty name, and a cycle without nodes is reported. */
  method EmptyDependency(run: string) returns (r: ValidateResult)
    ensures r == ValidateResult(false, CycleDetected, [])
  {
    DanglingFacts(run);
    hide AllPresent, HasCycle, Absent, Dangling, Declared, DependencyCycle;
    r := Validate(Dangling(run));
  }
}
