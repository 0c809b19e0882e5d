/** From a list of specs to the result the caller sees (server/src/dag/dag_service.cpp, `runDag`). */
module DagEndToEnd {
  import opened TaskCommon
  import opened Graphs
  import opened DagBuilder
  import opened DagValidator
  import opened DagGraphs
  import opened DagService
  import opened DagProtocol
  import opened DagInvariant
  import opened DagOutcome
  import opened DagVerdict
  import opened DagConfluence

  /** `run` is the run id of the stamped specs: the one passed in, or the one they all carry already. */
  ghost predicate RunIs(specs: seq<Spec>, runId: string, run: string) {
    if runId != "" then run == runId else OneRun(specs, run)
  }

  lemma StampedIsOneRun(specs: seq<Spec>, runId: string, run: string)
    requires RunIs(specs, runId, run)
    ensures OneRun(Stamped(specs, runId), run)
  {
  }

  /** The graph that `runDag` builds and runs, by names. */
  ghost function RunGraph(specs: seq<Spec>, runId: string, run: string): Dag
    requires RunIs(specs, runId, run)
  {
    StampedIsOneRun(specs, runId, run);
    BuiltIsSound(Stamped(specs, runId), run);
    Names(Built(Stamped(specs, runId)), run)
  }

  ghost predicate Below(specs: seq<Spec>, path: seq<string>) {
    forall i {:trigger path[i]} :: 0 <= i && i + 1 < |path| ==> DependsOn(specs, path[i + 1], path[i])
  }

  /** `n` depends, directly or through others, on `a`. */
  ghost predicate DependsThrough(specs: seq<Spec>, n: string, a: string) {
    exists path :: |path| >= 2 && path[0] == a && path[|path| - 1] == n && Below(specs, path)
  }

  lemma AncestorIsDependency(specs: seq<Spec>, e: Succ, a: string, n: string)
    requires forall x, y :: Edge(e, x, y) <==> DependsOn(specs, y, x)
    ensures Ancestor(e, a, n) <==> DependsThrough(specs, n, a)
  {
    hide Edge, DependsOn;
    if Ancestor(e, a, n) {
      var p :| Connects(e, p, a, n);
      assert Below(specs, p);
    }
    if DependsThrough(specs, n, a) {
      var p :| |p| >= 2 && p[0] == a && p[|p| - 1] == n && Below(specs, p);
      assert Connects(e, p, a, n);
    }
  }

  /** What the executor may rely on for specs that pass validation. */
  lemma RunGraphFacts(specs: seq<Spec>, runId: string, run: string)
    requires RunIs(specs, runId, run) && AllPresent(specs) && !HasCycle(specs)
    ensures var d := RunGraph(specs, runId, run);
            WellFormed(d) && Acyclic(d.down) && d.nodes == IdsOf(specs) &&
            forall a, n :: Ancestor(d.down, a, n) <==> DependsThrough(specs, n, a)
  {
    hide Names, InRun, WellFormed, Mirrored, OneRun, Built, AllPresent, HasCycle, Acyclic, Ancestor, DependsThrough,
      Stamped, IdsOf, DependsOn, Edge, NodesAre;
    var stamped := Stamped(specs, runId);
    StampedIsOneRun(specs, runId, run);
    SameVerdict(specs, runId);
    ValidSpecsBuildDag(stamped, run);
    BuiltIsSound(stamped, run);
    var d := RunGraph(specs, runId, run);
    forall a, b ensures Edge(d.down, a, b) <==> DependsOn(specs, b, a) {
      StampedDependsOn(specs, runId, b, a);
    }
    forall a, n ensures Ancestor(d.down, a, n) <==> DependsThrough(specs, n, a) {
      AncestorIsDependency(specs, d.down, a, n);
    }
  }

  /** Told from the specs and the outcomes: the task has a name, and so has everything it depends on, where every task
      succeeds. */
  ghost predicate TaskRuns(specs: seq<Spec>, f: Id -> Status, n: string) {
    n in IdsOf(specs) && n != "" && forall a :: DependsThrough(specs, n, a) ==> a != "" && f(a).Success?
  }

  ghost predicate TaskDoomed(specs: seq<Spec>, f: Id -> Status, n: string) {
    exists a :: DependsThrough(specs, n, a) && TaskRuns(specs, f, a) && FailureLike(f(a))
  }

  lemma TaskRunsExactly(specs: seq<Spec>, runId: string, run: string, f: Id -> Status, n: string)
    requires RunIs(specs, runId, run) && AllPresent(specs) && !HasCycle(specs)
    ensures WouldRun(RunGraph(specs, runId, run), f, n) <==> TaskRuns(specs, f, n)
  {
    hide AllPresent, HasCycle, Ancestor, DependsThrough, RunGraph, WellFormed, Acyclic, IdsOf, RunIs;
    RunGraphFacts(specs, runId, run);
    var d := RunGraph(specs, runId, run);
    if TaskRuns(specs, f, n) {
      forall a | Ancestor(d.down, a, n) ensures Clears(f, a) {
        assert DependsThrough(specs, n, a);
      }
    }
    if WouldRun(d, f, n) {
      forall a | DependsThrough(specs, n, a) ensures a != "" && f(a).Success? {
        assert Ancestor(d.down, a, n);
      }
    }
  }

  /** The result of `runDag` on specs that pass validation, under either policy and for every interleaving: Failed
      exactly when some task that runs fails. */
  lemma RunDagVerdict(specs: seq<Spec>, runId: string, run: string, cfg: Config, s: State, f: Id -> Status)
    requires RunIs(specs, runId, run) && AllPresent(specs) && !HasCycle(specs)
    requires CompleteRun(RunGraph(specs, runId, run), cfg, s, f)
    ensures s.pc.result.Success? || s.pc.result.Failed?
    ensures s.pc.result.Failed? <==> exists n :: TaskRuns(specs, f, n) && FailureLike(f(n))
  {
    hide AllPresent, HasCycle, RunGraph, CompleteRun, TaskRuns, WouldRun, RunIs, Acyclic, WellFormed;
    RunGraphFacts(specs, runId, run);
    var d := RunGraph(specs, runId, run);
    FailedExactly(d, cfg, s, f);
    forall n ensures WouldRun(d, f, n) <==> TaskRuns(specs, f, n) {
      TaskRunsExactly(specs, runId, run, f, n);
    }
  }

  /** The status of every task at the end, unless fail-fast cut the run short. */
  lemma RunDagFate(specs: seq<Spec>, runId: string, run: string, cfg: Config, s: State, f: Id -> Status, n: string)
    requires RunIs(specs, runId, run) && AllPresent(specs) && !HasCycle(specs)
    requires CompleteRun(RunGraph(specs, runId, run), cfg, s, f) && n in IdsOf(specs)
    requires cfg.failPolicy.SkipDownstream? || !exists x :: TaskRuns(specs, f, x) && FailureLike(f(x))
    ensures n in s.status
    ensures s.status[n] ==
              if TaskRuns(specs, f, n) then NodeStatus(f(n)) else if TaskDoomed(specs, f, n) then Skipped else Pending
  {
    hide AllPresent, HasCycle, RunGraph, CompleteRun, TaskRuns, WouldRun, RunIs, Acyclic, WellFormed, IdsOf, Ancestor,
      DependsThrough;
    RunGraphFacts(specs, runId, run);
    var d := RunGraph(specs, runId, run);
    forall x ensures WouldRun(d, f, x) <==> TaskRuns(specs, f, x) {
      TaskRunsExactly(specs, runId, run, f, x);
    }
    FateExactly(d, cfg, s, f, n);
    assert Doomed(d, f, n) <==> TaskDoomed(specs, f, n) by {
      if a :| Ancestor(d.down, a, n) && WouldRun(d, f, a) && FailureLike(f(a)) {
        assert DependsThrough(specs, n, a) && TaskRuns(specs, f, a);
      }
      if a :| DependsThrough(specs, n, a) && TaskRuns(specs, f, a) && FailureLike(f(a)) {
        assert Ancestor(d.down, a, n) && WouldRun(d, f, a);
      }
    }
  }

  ghost predicate Named(specs: seq<Spec>) {
    forall n <- IdsOf(specs) :: n != ""
  }

  /** The documented outcome of `runDag` under SkipDownstream, for named specs and ordinary results: a task is skipped
      exactly when some task it depends on, directly or through others, failed, timed out or was canceled; every other
      task ran once and holds its own result; and the call reports Success exactly when every task succeeded. */
  lemma RunDagOutcome(specs: seq<Spec>, runId: string, run: string, cfg: Config, s: State, n: string)
    requires RunIs(specs, runId, run) && AllPresent(specs) && !HasCycle(specs) && Named(specs)
    requires Reachable(RunGraph(specs, runId, run), cfg, s) && s.pc.Done? && cfg.failPolicy.SkipDownstream? &&
             OrdinaryRun(s)
    requires n in IdsOf(specs)
    ensures n in s.status
    ensures if exists a :: DependsThrough(specs, n, a) && Fails(s, a)
            then s.status[n].Skipped?
            else RanOnce(s, n) && Finished(s.status[n]) && s.status[n] == s.results[n]
    ensures s.pc.result.Success? <==> forall x <- IdsOf(specs) :: x in s.status && s.status[x].Success?
  {
    hide AllPresent, HasCycle, RunGraph, Reachable, WellFormed, RunIs, Acyclic, Ancestor, DependsThrough, RanOnce,
      OrdinaryRun, IdsOf, WouldRun, SomeFailure, OutcomesAre;
    RunGraphFacts(specs, runId, run);
    var d := RunGraph(specs, runId, run);
    assert AllNamed(d);
    SkipDownstreamNamed(d, cfg, s, n);
    var f := OutcomesExist(d, cfg, s);
    AllRanOrdinary(d, cfg, s, f);
    assert HasFailedAncestor(d, s, n) <==> exists a :: DependsThrough(specs, n, a) && Fails(s, a) by {
      if a :| DependsThrough(specs, n, a) && Fails(s, a) {
        assert Blocks(d, s, a, n);
      }
      if a :| Blocks(d, s, a, n) {
        assert DependsThrough(specs, n, a) && Fails(s, a);
      }
    }
  }

  lemma AllRanOrdinary(d: Dag, cfg: Config, s: State, f: Id -> Status)
    requires CompleteRun(d, cfg, s, f) && Acyclic(d.down) && cfg.failPolicy.SkipDownstream? && OrdinaryRun(s) &&
             AllNamed(d)
    ensures s.pc.result.Success? <==> AllSucceeded(d, s)
  {
    hide WellFormed, Acyclic, Reachable, WouldRun, SomeFailure, RanOnce;
    forall n | WouldRun(d, f, n) ensures Finished(f(n)) {
      WouldBeNode(d, f, n);
      FateExactly(d, cfg, s, f, n);
      SkipDownstreamNamed(d, cfg, s, n);
      RanIsLogged(d, cfg, s, f, n);
    }
    VerdictExact(d, cfg, s, f);
  }

  lemma RanIsLogged(d: Dag, cfg: Config, s: State, f: Id -> Status, n: Id)
    requires CompleteRun(d, cfg, s, f) && cfg.failPolicy.SkipDownstream? && n in d.nodes && n in s.status &&
             Finished(s.status[n])
    ensures End(n, f(n)) in s.log
  {
    hide WellFormed, Reachable;
    SkipDownstreamOutcome(d, cfg, s, n);
  }
}
