/** The outcome of a DAG does not depend on the interleaving or on the number of slots. */
module DagConfluence {
  import opened TaskCommon
  import opened Graphs
  import opened DagProtocol
  import opened DagInvariant
  import opened DagRuns
  import opened DagLog
  import opened DagOutcome
  import opened DagVerdict

  /** What a parent must be like for its children to be skipped. */
  ghost predicate Spoils(s: State, f: Id -> Status, p: Id) {
    p in s.status && (s.status[p].Skipped? || (Finished(s.status[p]) && FailureLike(f(p))))
  }

  /** A node is skipped exactly when some dependency is skipped or failed. */
  lemma SkippedByParent(g: Dag, cfg: Config, s: State, f: Id -> Status, n: Id)
    requires CompleteRun(g, cfg, s, f) && cfg.failPolicy.SkipDownstream? && n in g.nodes
    ensures n in s.status && (s.status[n].Skipped? <==> exists p :: Edge(g.down, p, n) && Spoils(s, f, p))
  {
    hide Inv, Reachable, DepsSucceeded, Ancestor, RanOnce, HasEnded, Finished;
    SkipDownstreamOutcome(g, cfg, s, n);
    WellFormedKeys(g);
    hide WellFormed;
    if s.status[n].Skipped? {
      var a :| Blocks(g, s, a, n);
      var p := AncestorLastEdge(g.down, a, n);
      OwnOutcome(g, cfg, s, f, p);
      SkipDownstreamOutcome(g, cfg, s, p);
      assert p == a || Blocks(g, s, a, p);
      assert Spoils(s, f, p);
    }
    if p :| Edge(g.down, p, n) && Spoils(s, f, p) {
      OwnOutcome(g, cfg, s, f, p);
      SkipDownstreamOutcome(g, cfg, s, p);
      EdgeIsAncestor(g.down, p, n);
      if s.status[p].Skipped? {
        var a :| Blocks(g, s, a, p);
        AncestorExtends(g.down, a, p, n);
        assert Blocks(g, s, a, n);
      } else {
        assert Blocks(g, s, p, n);
      }
    }
  }

  /** Two complete runs of the same DAG with the same task outcomes end with the same verdict, whatever their policies,
      interleavings, orders of iteration and numbers of slots; and with the same status at every node, if both skip
      downstream or nothing fails. */
  lemma SameEnd(g: Dag, c: Config, d: Config, s: State, t: State, f: Id -> Status)
    requires CompleteRun(g, c, s, f) && CompleteRun(g, d, t, f) && Acyclic(g.down)
    ensures s.pc == t.pc
    ensures (c.failPolicy.SkipDownstream? && d.failPolicy.SkipDownstream?) || !SomeFailure(g, f) ==>
              s.status == t.status
  {
    hide Inv, Acyclic, LogOk, SomeFailure, WellFormed, Reachable, OutcomesAre;
    FailedExactly(g, c, s, f);
    FailedExactly(g, d, t, f);
    CompleteFacts(g, c, s, f);
    CompleteFacts(g, d, t, f);
    if (c.failPolicy.SkipDownstream? && d.failPolicy.SkipDownstream?) || !SomeFailure(g, f) {
      forall n | n in g.nodes ensures s.status[n] == t.status[n] {
        FateExactly(g, c, s, f, n);
        FateExactly(g, d, t, f, n);
      }
    }
  }

  /** The documented outcome, for named nodes and ordinary results: skipped below a failure,
      and otherwise run exactly once and holding its own result. */
  lemma SkipDownstreamNamed(g: Dag, cfg: Config, s: State, n: Id)
    requires WellFormed(g) && Acyclic(g.down) && Reachable(g, cfg, s) && s.pc.Done? && cfg.failPolicy.SkipDownstream?
    requires AllNamed(g) && OrdinaryRun(s) && n in g.nodes
    ensures n in s.status
    ensures if HasFailedAncestor(g, s, n) then s.status[n].Skipped?
            else RanOnce(s, n) && Finished(s.status[n]) && s.status[n] == s.results[n]
  {
    hide Inv, WellFormed, Reachable, Acyclic, HasFailedAncestor, DepsSucceeded, LogOk;
    SkipDownstreamOutcome(g, cfg, s, n);
    LeftBehindExactly(g, cfg, s, n);
    ReachableInv(g, cfg, s);
    EndedNode(g, cfg, s, n);
    if Finished(s.status[n]) {
      assert End(n, s.results[n]) in s.log;
    }
  }
}
