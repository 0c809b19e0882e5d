/** The verdict of a DAG, told from the graph and the task outcomes alone. */
module DagVerdict {
  import opened TaskCommon
  import opened Graphs
  import opened DagProtocol
  import opened DagInvariant
  import opened DagRuns
  import opened DagLog
  import opened DagOutcome

  /** Every task that ran reported what `f` says of it. */
  ghost predicate OutcomesAre(s: State, f: Id -> Status) {
    forall n, st :: End(n, st) in s.log ==> st == f(n)
  }

  /** A complete run of `g`, under either policy, with task outcomes `f`. */
  ghost predicate CompleteRun(g: Dag, cfg: Config, s: State, f: Id -> Status) {
    WellFormed(g) && Reachable(g, cfg, s) && s.pc.Done? && OutcomesAre(s, f)
  }

  /** Every run has task outcomes. */
  lemma OutcomesExist(g: Dag, cfg: Config, s: State) returns (f: Id -> Status)
    requires WellFormed(g) && Reachable(g, cfg, s)
    ensures OutcomesAre(s, f)
  {
    hide WellFormed, Reachable, Orderly;
    ReachableLog(g, cfg, s);
    var results := s.results;
    f := n => if n in results then results[n] else Success;
  }

  /** Known before the run: `n` has a name, and so has everything above it, where every task succeeds. */
  ghost predicate WouldRun(g: Dag, f: Id -> Status, n: Id) {
    n in g.nodes && !Nameless(n) && forall a :: Ancestor(g.down, a, n) ==> Clears(f, a)
  }

  predicate Clears(f: Id -> Status, a: Id) {
    !Nameless(a) && f(a).Success?
  }

  ghost predicate SomeFailure(g: Dag, f: Id -> Status) {
    exists n :: WouldRun(g, f, n) && FailureLike(f(n))
  }

  lemma CompleteFacts(g: Dag, cfg: Config, s: State, f: Id -> Status)
    requires CompleteRun(g, cfg, s, f)
    ensures Inv(g, cfg, s) && LogOk(g, s) && Shaped(g, s)
  {
    hide Inv, WellFormed, Reachable, LogOk;
    ReachableInv(g, cfg, s);
    ReachableLog(g, cfg, s);
    LogIsShaped(g, s);
  }

  /** A node that ran holds the status its own outcome gives it, and fails exactly when that outcome is a failure. */
  lemma OwnOutcome(g: Dag, cfg: Config, s: State, f: Id -> Status, n: Id)
    requires CompleteRun(g, cfg, s, f) && n in g.nodes
    ensures n in s.status
    ensures s.status[n].Pending? || s.status[n].Skipped? || Finished(s.status[n])
    ensures Finished(s.status[n]) ==> s.status[n] == NodeStatus(f(n)) && !Nameless(n)
    ensures Fails(s, n) <==> Finished(s.status[n]) && FailureLike(f(n))
  {
    hide Inv, WellFormed, Reachable, LogOk;
    CompleteFacts(g, cfg, s, f);
    EndedNode(g, cfg, s, n);
    if Nameless(n) { NamelessNeverRuns(g, cfg, s, n); }
    LoggedAtEnd(g, s, n);
    if Finished(s.status[n]) {
      assert End(n, s.results[n]) in s.log;
    }
  }

  /** What ran would run. */
  lemma RanWouldRun(g: Dag, cfg: Config, s: State, f: Id -> Status, n: Id)
    requires CompleteRun(g, cfg, s, f) && n in g.nodes && n in s.status && Finished(s.status[n])
    ensures WouldRun(g, f, n)
  {
    hide Inv, LogOk, Ancestor, Finished;
    CompleteFacts(g, cfg, s, f);
    OwnOutcome(g, cfg, s, f, n);
    forall a | Ancestor(g.down, a, n) ensures Clears(f, a) {
      FinishedAncestor(g, cfg, s, a, n);
      SuccessClears(g, cfg, s, f, a);
    }
  }

  lemma SuccessClears(g: Dag, cfg: Config, s: State, f: Id -> Status, a: Id)
    requires CompleteRun(g, cfg, s, f) && a in s.status && s.status[a].Success?
    ensures Clears(f, a) && a in g.nodes
  {
    hide Inv, LogOk, WellFormed, Reachable;
    CompleteFacts(g, cfg, s, f);
    OwnOutcome(g, cfg, s, f, a);
  }

  /** A parent of a node that would run would run itself, and succeed. */
  lemma ParentWouldRun(g: Dag, f: Id -> Status, p: Id, n: Id)
    requires WellFormed(g) && WouldRun(g, f, n) && Edge(g.down, p, n)
    ensures WouldRun(g, f, p) && f(p).Success?
  {
    WellFormedKeys(g);
    hide WellFormed, Ancestor;
    EdgeIsAncestor(g.down, p, n);
    forall a | Ancestor(g.down, a, p) ensures Clears(f, a) {
      AncestorExtends(g.down, a, p, n);
    }
  }

  /** Unless fail-fast cut the run short, everything that would run did. */
  lemma WouldRunRan(g: Dag, cfg: Config, s: State, f: Id -> Status, n: Id)
    requires CompleteRun(g, cfg, s, f) && Acyclic(g.down) && !FailedFast(cfg, s) && WouldRun(g, f, n)
    ensures n in s.status && Finished(s.status[n])
  {
    hide Inv, LogOk, WellFormed, Reachable, Ancestor, Acyclic, Edge, WouldRun, Finished, FailedFast;
    CompleteFacts(g, cfg, s, f);
    var waiting := set x | x in g.nodes && WouldRun(g, f, x) && !Finished(s.status[x]);
    if waiting != {} {
      var x := AcyclicHasSource(g.down, waiting);
      ReadyRan(g, cfg, s, f, waiting, x);
      assert false;
    }
    assert n in g.nodes by { WouldBeNode(g, f, n); }
    assert n !in waiting;
  }

  lemma WouldBeNode(g: Dag, f: Id -> Status, n: Id)
    requires WouldRun(g, f, n)
    ensures n in g.nodes && !Nameless(n)
  {
  }

  /** The first of those not to have run would have had nothing to wait for. */
  lemma ReadyRan(g: Dag, cfg: Config, s: State, f: Id -> Status, waiting: set<Id>, x: Id)
    requires CompleteRun(g, cfg, s, f) && !FailedFast(cfg, s) && Shaped(g, s) && WouldRun(g, f, x)
    requires waiting == set y | y in g.nodes && WouldRun(g, f, y) && !Finished(s.status[y])
    requires !FedFrom(g.down, waiting, x)
    ensures x in g.nodes && Finished(s.status[x])
  {
    hide Inv, LogOk, WellFormed, Reachable, Ancestor, Edge, WouldRun, FailedFast;
    WouldBeNode(g, f, x);
    CompleteFacts(g, cfg, s, f);
    EnqueuedAtEnd(g, cfg, s, x);
    OwnOutcome(g, cfg, s, f, x);
    assert DepsSucceeded(g, s, x) by {
      forall p | p in g.deps[x] ensures p in s.status && s.status[p].Success? {
        WellFormedDep(g, p, x);
        ParentWouldRun(g, f, p, x);
        assert p !in waiting;
        OwnOutcome(g, cfg, s, f, p);
      }
    }
    NotSkipped(g, cfg, s, f, x);
  }

  /** What would run is never skipped. */
  lemma NotSkipped(g: Dag, cfg: Config, s: State, f: Id -> Status, x: Id)
    requires CompleteRun(g, cfg, s, f) && WouldRun(g, f, x)
    ensures x in s.status && !s.status[x].Skipped?
  {
    hide Inv, LogOk, WellFormed, Reachable, Ancestor, Finished;
    CompleteFacts(g, cfg, s, f);
    if s.status[x].Skipped? {
      SkippedHasCause(g, cfg, s, x);
      SkippedAtEnd(g, cfg, s, x);
      var a :| Blocks(g, s, a, x);
      assert Clears(f, a);
      FailsIsNode(g, cfg, s, a);
      OwnOutcome(g, cfg, s, f, a);
      assert false;
    }
  }

  lemma FailsIsNode(g: Dag, cfg: Config, s: State, a: Id)
    requires Inv(g, cfg, s) && Fails(s, a)
    ensures a in g.nodes
  {
    hide Inv;
    InvIsShaped(g, cfg, s);
  }

  /** The DAG is reported as failed exactly when some task that would run fails: under either policy, for every
      interleaving and every number of slots. */
  lemma FailedExactly(g: Dag, cfg: Config, s: State, f: Id -> Status)
    requires CompleteRun(g, cfg, s, f) && Acyclic(g.down)
    ensures s.pc.result.Success? || s.pc.result.Failed?
    ensures s.pc.result.Failed? <==> SomeFailure(g, f)
  {
    hide WellFormed, Reachable, Acyclic, WouldRun, Finished, OutcomesAre;
    Verdict(g, cfg, s);
    if s.pc.result.Failed? {
      var n :| n in g.nodes && Fails(s, n);
      OwnOutcome(g, cfg, s, f, n);
      RanWouldRun(g, cfg, s, f, n);
    } else if SomeFailure(g, f) {
      var n :| WouldRun(g, f, n) && FailureLike(f(n));
      CompleteFacts(g, cfg, s, f);
      NotFailed(g, cfg, s);
      WouldRunRan(g, cfg, s, f, n);
      WouldBeNode(g, f, n);
      OwnOutcome(g, cfg, s, f, n);
      assert false;
    }
  }

  /** Known before the run: something above `n` would run and fail. */
  ghost predicate Doomed(g: Dag, f: Id -> Status, n: Id) {
    exists a :: Ancestor(g.down, a, n) && WouldRun(g, f, a) && FailureLike(f(a))
  }

  /** The fate of every node, unless fail-fast cut the run short: it ran exactly if it would run, it is skipped exactly
      if it is doomed, and otherwise it was left alone. */
  lemma FateExactly(g: Dag, cfg: Config, s: State, f: Id -> Status, n: Id)
    requires CompleteRun(g, cfg, s, f) && Acyclic(g.down) && n in g.nodes
    requires cfg.failPolicy.SkipDownstream? || !SomeFailure(g, f)
    ensures n in s.status
    ensures s.status[n] == if WouldRun(g, f, n) then NodeStatus(f(n)) else if Doomed(g, f, n) then Skipped else Pending
  {
    hide Inv, LogOk, WellFormed, Reachable, Acyclic, WouldRun, OutcomesAre;
    CompleteFacts(g, cfg, s, f);
    FailedExactly(g, cfg, s, f);
    NotFailed(g, cfg, s);
    OwnOutcome(g, cfg, s, f, n);
    if WouldRun(g, f, n) {
      WouldRunRan(g, cfg, s, f, n);
    } else {
      if Finished(s.status[n]) {
        RanWouldRun(g, cfg, s, f, n);
        assert false;
      }
      SkippedExactly(g, cfg, s, f, n);
    }
  }

  lemma SkippedExactly(g: Dag, cfg: Config, s: State, f: Id -> Status, n: Id)
    requires CompleteRun(g, cfg, s, f) && Acyclic(g.down) && n in g.nodes && !FailedFast(cfg, s)
    requires cfg.failPolicy.SkipDownstream? || !SomeFailure(g, f)
    ensures n in s.status && (s.status[n].Skipped? <==> Doomed(g, f, n))
  {
    hide Inv, LogOk, WellFormed, Reachable, Acyclic, WouldRun, OutcomesAre, Ancestor, Finished;
    CompleteFacts(g, cfg, s, f);
    if s.status[n].Skipped? {
      SkippedHasCause(g, cfg, s, n);
      SkippedAtEnd(g, cfg, s, n);
      var a :| Blocks(g, s, a, n);
      FailsIsNode(g, cfg, s, a);
      OwnOutcome(g, cfg, s, f, a);
      RanWouldRun(g, cfg, s, f, a);
    }
    if a :| Ancestor(g.down, a, n) && WouldRun(g, f, a) && FailureLike(f(a)) {
      WouldRunRan(g, cfg, s, f, a);
      WouldBeNode(g, f, a);
      OwnOutcome(g, cfg, s, f, a);
      assert Blocks(g, s, a, n);
      SkippedAtEnd(g, cfg, s, n);
    }
  }

  ghost predicate AllClear(g: Dag, f: Id -> Status) {
    forall n :: n in g.nodes ==> Clears(f, n)
  }

  /** Every node succeeded exactly when every node has a name and every task succeeds. */
  lemma AllSucceededExactly(g: Dag, cfg: Config, s: State, f: Id -> Status)
    requires CompleteRun(g, cfg, s, f) && Acyclic(g.down)
    ensures AllSucceeded(g, s) <==> AllClear(g, f)
  {
    hide Reachable, Acyclic, Finished, OutcomesAre, Ancestor;
    if AllSucceeded(g, s) {
      forall n | n in g.nodes ensures Clears(f, n) {
        SuccessClears(g, cfg, s, f, n);
      }
    }
    if AllClear(g, f) {
      ClearIsNotFailure(g, f);
      forall n | n in g.nodes ensures n in s.status && s.status[n].Success? {
        ClearWouldRun(g, f, n);
        FateExactly(g, cfg, s, f, n);
      }
    }
  }

  lemma ClearWouldRun(g: Dag, f: Id -> Status, n: Id)
    requires WellFormed(g) && AllClear(g, f) && n in g.nodes
    ensures WouldRun(g, f, n)
  {
    forall a | Ancestor(g.down, a, n) ensures Clears(f, a) {
      var p :| Connects(g.down, p, a, n);
      assert Edge(g.down, p[0], p[1]);
    }
  }

  /** If nothing that would run is out of the ordinary, and nothing fails, then everything is clear. */
  lemma OrdinaryIsClear(g: Dag, f: Id -> Status)
    requires WellFormed(g) && Acyclic(g.down) && AllNamed(g) && !SomeFailure(g, f)
    requires forall n :: WouldRun(g, f, n) ==> Finished(f(n))
    ensures AllClear(g, f)
  {
    WellFormedKeys(g);
    hide WellFormed, Acyclic, Edge, WouldRun;
    var rest := set n | n in g.nodes && !WouldRun(g, f, n);
    if rest != {} {
      var x := AcyclicHasSource(g.down, rest);
      SourceWouldRun(g, f, rest, x);
      assert false;
    }
    forall n | n in g.nodes ensures Clears(f, n) {
      assert n !in rest;
    }
  }

  lemma SourceWouldRun(g: Dag, f: Id -> Status, rest: set<Id>, x: Id)
    requires g.down.Keys == g.nodes && AllNamed(g) && !SomeFailure(g, f) && x in g.nodes
    requires forall n :: WouldRun(g, f, n) ==> Finished(f(n))
    requires rest == (set n | n in g.nodes && !WouldRun(g, f, n)) && !FedFrom(g.down, rest, x)
    ensures WouldRun(g, f, x)
  {
    hide Ancestor;
    forall a | Ancestor(g.down, a, x) ensures Clears(f, a) {
      var p := AncestorLastEdge(g.down, a, x);
      assert p in g.nodes && p !in rest;
      assert Clears(f, p);
    }
  }

  /** "Success iff every node succeeded", under either policy, exactly when some task that would run fails, or when
      every node has a name and every task that would run reports an ordinary result. */
  lemma VerdictExact(g: Dag, cfg: Config, s: State, f: Id -> Status)
    requires CompleteRun(g, cfg, s, f) && Acyclic(g.down)
    ensures (s.pc.result.Success? <==> AllSucceeded(g, s)) <==>
              SomeFailure(g, f) || (AllNamed(g) && forall n :: WouldRun(g, f, n) ==> Finished(f(n)))
  {
    hide WellFormed, Reachable, Acyclic, WouldRun, OutcomesAre, SomeFailure;
    FailedExactly(g, cfg, s, f);
    AllSucceededExactly(g, cfg, s, f);
    if SomeFailure(g, f) {
      ClearIsNotFailure(g, f);
    } else if AllNamed(g) && forall n :: WouldRun(g, f, n) ==> Finished(f(n)) {
      OrdinaryIsClear(g, f);
    } else if AllClear(g, f) {
      forall n | WouldRun(g, f, n) ensures Finished(f(n)) {
        WouldBeNode(g, f, n);
      }
    }
  }

  lemma ClearIsNotFailure(g: Dag, f: Id -> Status)
    ensures !(AllClear(g, f) && SomeFailure(g, f))
  {
    hide Ancestor;
  }
}
