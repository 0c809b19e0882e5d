/** First ready, first started. */
module DagOrder {
  import opened TaskCommon
  import opened Graphs
  import opened DagProtocol
  import opened DagLimits

  /** The nodes announced ready, and the nodes started, in the order of the log. */
  function Readies(log: seq<Event>): seq<Id> {
    if log == [] then []
    else
      var last := log[|log| - 1];
      Readies(log[..|log| - 1]) + (if last.Ready? then [last.id] else [])
  }

  function Starts(log: seq<Event>): seq<Id> {
    if log == [] then []
    else
      var last := log[|log| - 1];
      Starts(log[..|log| - 1]) + (if last.Start? then [last.id] else [])
  }

  /** `a` is `b` with some members left out, in the same order. */
  ghost predicate IsSub(a: seq<Id>, b: seq<Id>) {
    if a == [] then true
    else if b == [] then false
    else IsSub(a, b[..|b| - 1]) || (a[|a| - 1] == b[|b| - 1] && IsSub(a[..|a| - 1], b[..|b| - 1]))
  }

  lemma SubMore(a: seq<Id>, b: seq<Id>, x: Id)
    ensures IsSub(a, b) ==> IsSub(a, b + [x]) && IsSub(a + [x], b + [x])
  {
    var c := b + [x];
    assert c[..|c| - 1] == b && (a + [x])[..|a + [x]| - 1] == a;
  }

  lemma {:induction false} SubLess(a: seq<Id>, b: seq<Id>, x: Id)
    requires IsSub(a + [x], b)
    ensures IsSub(a, b)
    decreases |b|
  {
    assert (a + [x])[..|a + [x]| - 1] == a;
    if IsSub(a + [x], b[..|b| - 1]) {
      SubLess(a, b[..|b| - 1], x);
    }
    if a != [] {
      assert IsSub(a, b[..|b| - 1]);
    }
  }

  lemma SubAll(a: seq<Id>, b: seq<Id>, rest: seq<Id>)
    requires IsSub(a, b)
    ensures IsSub(a, b + rest)
    decreases |rest|
  {
    if rest == [] {
      assert b + rest == b;
    } else {
      var front := rest[..|rest| - 1];
      SubAll(a, b, front);
      SubMore(a, b + front, rest[|rest| - 1]);
      assert b + rest == (b + front) + [rest[|rest| - 1]];
    }
  }

  /** The node that the scheduling thread has taken from the queue and not yet started. */
  function InHand(pc: Pc): seq<Id> {
    match pc
    case Check(id) => [id]
    case FailCheck(id) => [id]
    case Guard(id) => [id]
    case SetRunning(id) => [id]
    case Increment(id) => [id]
    case _ => []
  }

  /** The queue is the end of what was announced, and what was started, with the node in hand, is taken in order from
      what stood before. */
  ghost predicate InOrder(s: State) {
    exists popped :: Popped(s, popped)
  }

  ghost predicate Popped(s: State, popped: seq<Id>) {
    Readies(s.log) == popped + s.ready && IsSub(Starts(s.log) + InHand(s.pc), popped)
  }

  lemma LogSnoc(log: seq<Event>, e: Event)
    ensures Readies(log + [e]) == Readies(log) + (if e.Ready? then [e.id] else [])
    ensures Starts(log + [e]) == Starts(log) + (if e.Start? then [e.id] else [])
  {
    assert (log + [e])[..|log + [e]| - 1] == log;
  }

  lemma Same(s: State, t: State)
    requires InOrder(s) && t.log == s.log && t.ready == s.ready && (InHand(t.pc) == InHand(s.pc) || InHand(t.pc) == [])
    ensures InOrder(t)
  {
    hide Readies, Starts, IsSub;
    var popped :| Popped(s, popped);
    assert Starts(s.log) + [] == Starts(s.log);
    if InHand(t.pc) != InHand(s.pc) {
      SubLess(Starts(s.log), popped, InHand(s.pc)[0]);
    }
    assert Popped(t, popped);
  }

  lemma PopKeepsOrder(s: State)
    requires InOrder(s) && s.pc.Pop? && s.ready != []
    ensures InOrder(PopReady(s))
  {
    hide Readies, Starts, IsSub;
    var popped :| Popped(s, popped);
    var t, id := PopReady(s), s.ready[0];
    var now := popped + [id];
    assert popped + s.ready == now + t.ready;
    SubMore(Starts(s.log), popped, id);
    assert Starts(s.log) + [] == Starts(s.log);
    assert Popped(t, now);
  }

  lemma StartKeepsOrder(s: State, id: Id)
    requires InOrder(s) && s.pc == Increment(id)
    ensures InOrder(s.(pc := Post(id), running := s.running + 1, log := s.log + [Start(id)]))
  {
    hide Readies, Starts, IsSub;
    var popped :| Popped(s, popped);
    var t := s.(pc := Post(id), running := s.running + 1, log := s.log + [Start(id)]);
    LogSnoc(s.log, Start(id));
    assert Readies(s.log) + [] == Readies(s.log) && Starts(t.log) + [] == Starts(t.log);
    assert Popped(t, popped);
  }

  lemma SchedulerKeepsOrder(cfg: Config, s: State)
    requires InOrder(s) && SchedulerEnabled(cfg, s)
    ensures InOrder(SchedulerStep(cfg, s))
  {
    hide InOrder, NextPc;
    if s.pc.Pop? && s.ready != [] {
      PopKeepsOrder(s);
    } else if s.pc.Increment? {
      StartKeepsOrder(s, s.pc.id);
    } else if Effective(s) {
      Same(s, SchedulerStep(cfg, s));
    } else {
      NextInHand(cfg, s);
      Same(s, SchedulerStep(cfg, s));
    }
  }

  lemma NextInHand(cfg: Config, s: State)
    requires !Effective(s)
    ensures InHand(NextPc(cfg, s)) == InHand(s.pc) || InHand(NextPc(cfg, s)) == []
  {
    hide Slots, FailedFast, Submittable;
  }

  /** A node is pushed and announced, or the queue stays as it is and no node is announced or started. */
  ghost predicate Announces(s: State, t: State) {
    t.pc == s.pc &&
    ((t.ready == s.ready && t.log == s.log) ||
     (exists c :: t.ready == s.ready + [c] && t.log == s.log + [Ready(c)]) ||
     (exists e :: t.ready == s.ready && t.log == s.log + [e] && !e.Ready? && !e.Start?))
  }

  lemma WorkerEvents(g: Dag, cfg: Config, s: State, w: Id, o: Status)
    requires Shaped(g, s) && w in s.workers
    ensures Announces(s, WorkerStep(g, cfg, s, w, o))
  {
    hide ChildStep, MarkStep, VisitStep, RecordStep, Announces;
    match s.workers[w] {
      case Looking(k) => ChildEvents(g, s, w, k);
      case Decrementing(k) => ChildEvents(g, s, w, k);
      case Pushing(k) => ChildEvents(g, s, w, k);
      case Marking => PassEvents(g, cfg, s, w, {}, [], w);
      case Visiting(visited, todo) => PassEvents(g, cfg, s, w, visited, todo, w);
      case Recording(visited, todo, c) => PassEvents(g, cfg, s, w, visited, todo, c);
      case _ => OwnEvents(g, cfg, s, w, o);
    }
  }

  lemma OwnEvents(g: Dag, cfg: Config, s: State, w: Id, o: Status)
    requires Shaped(g, s) && w in s.workers
    requires s.workers[w].Executing? || s.workers[w].Reported? || s.workers[w].Leaving?
    ensures Announces(s, WorkerStep(g, cfg, s, w, o))
  {
    hide ChildStep, MarkStep, VisitStep, RecordStep;
  }

  lemma ChildEvents(g: Dag, s: State, w: Id, k: nat)
    requires Shaped(g, s) && w in s.workers
    ensures Announces(s, ChildStep(g, s, w, k))
  {
  }

  lemma PassEvents(g: Dag, cfg: Config, s: State, w: Id, visited: set<Id>, todo: seq<Id>, c: Id)
    requires Shaped(g, s) && w in s.workers
    ensures Announces(s, MarkStep(g, cfg, s, w))
    ensures Announces(s, VisitStep(g, s, w, visited, todo))
    ensures Announces(s, RecordStep(g, s, w, visited, todo, c))
  {
    hide Discover;
  }

  lemma WorkerKeepsOrder(g: Dag, cfg: Config, s: State, w: Id, o: Status)
    requires InOrder(s) && Shaped(g, s) && w in s.workers
    ensures InOrder(WorkerStep(g, cfg, s, w, o))
  {
    hide WorkerStep, Readies, Starts, IsSub;
    WorkerEvents(g, cfg, s, w, o);
    var t := WorkerStep(g, cfg, s, w, o);
    var popped :| Popped(s, popped);
    if t.log != s.log {
      var e := t.log[|t.log| - 1];
      assert t.log == s.log + [e];
      LogSnoc(s.log, e);
      if e.Ready? {
        assert popped + (s.ready + [e.id]) == (popped + s.ready) + [e.id];
      } else {
        assert Readies(s.log) + [] == Readies(s.log);
      }
      assert Starts(s.log) + [] == Starts(s.log);
    }
    assert Popped(t, popped);
  }

  lemma InitInOrder(g: Dag, s: State)
    requires Init(g, s)
    ensures InOrder(s)
  {
    AllReady(s.ready, s.log);
    assert Popped(s, []) by {
      assert [] + s.ready == s.ready;
    }
  }

  lemma {:induction false} AllReady(ids: seq<Id>, log: seq<Event>)
    requires |log| == |ids| && forall i :: 0 <= i < |ids| ==> log[i] == Ready(ids[i])
    ensures Readies(log) == ids && Starts(log) == []
    decreases |ids|
  {
    if ids != [] {
      var n := |ids| - 1;
      AllReady(ids[..n], log[..n]);
      assert ids == ids[..n] + [ids[n]];
    }
  }

  lemma {:induction false} StepsKeepOrder(g: Dag, cfg: Config, s: State, acts: seq<Step>, t: State)
    requires InOrder(s) && Steps(g, cfg, s, acts, t)
    ensures InOrder(t)
    decreases |acts|
  {
    hide InOrder;
    if acts != [] {
      match acts[0] {
        case Scheduler => SchedulerKeepsOrder(cfg, s);
        case Worker(w, o) => WorkerKeepsOrder(g, cfg, s, w, o);
      }
      StepsKeepOrder(g, cfg, Apply(g, cfg, s, acts[0]), acts[1..], t);
    }
  }

  /** In every run the nodes start in the order in which they became ready, some perhaps left out. */
  lemma FirstReadyFirstStarted(g: Dag, cfg: Config, s: State)
    requires Reachable(g, cfg, s)
    ensures IsSub(Starts(s.log), Readies(s.log))
  {
    hide Init, Steps, Readies, Starts, IsSub;
    var s0, acts :| Init(g, s0) && Steps(g, cfg, s0, acts, s);
    InitInOrder(g, s0);
    StepsKeepOrder(g, cfg, s0, acts, s);
    var popped :| Popped(s, popped);
    if InHand(s.pc) == [] {
      assert Starts(s.log) + [] == Starts(s.log);
    } else {
      SubLess(Starts(s.log), popped, InHand(s.pc)[0]);
    }
    SubAll(Starts(s.log), popped, s.ready);
  }

  /* ---- the same, by places in the log ---- */

  /** `x` stands before `y` in `s`. */
  ghost predicate Before<T(!new)>(s: seq<T>, x: T, y: T) {
    exists i, j :: 0 <= i < j < |s| && s[i] == x && s[j] == y
  }

  lemma {:induction false} SubHolds(a: seq<Id>, b: seq<Id>, x: Id)
    requires IsSub(a, b) && x in a
    ensures x in b
    decreases |b|
  {
    var b', a' := b[..|b| - 1], a[..|a| - 1];
    if IsSub(a, b') {
      SubHolds(a, b', x);
    } else if x != a[|a| - 1] {
      assert a == a' + [a[|a| - 1]];
      SubHolds(a', b', x);
    }
  }

  lemma {:induction false} SubBefore(a: seq<Id>, b: seq<Id>, x: Id, y: Id)
    requires IsSub(a, b) && Before(a, x, y)
    ensures Before(b, x, y)
    decreases |b|
  {
    var i, j :| 0 <= i < j < |a| && a[i] == x && a[j] == y;
    var b', a' := b[..|b| - 1], a[..|a| - 1];
    if IsSub(a, b') {
      SubBefore(a, b', x, y);
      BeforeMore(b', x, y, b[|b| - 1]);
      assert b == b' + [b[|b| - 1]];
    } else if j < |a| - 1 {
      assert a'[i] == x && a'[j] == y;
      SubBefore(a', b', x, y);
      BeforeMore(b', x, y, b[|b| - 1]);
      assert b == b' + [b[|b| - 1]];
    } else {
      assert a'[i] == x;
      SubHolds(a', b', x);
      var k :| 0 <= k < |b'| && b'[k] == x;
      assert b[k] == x && b[|b| - 1] == y;
    }
  }

  lemma BeforeMore<T(!new)>(s: seq<T>, x: T, y: T, z: T)
    requires Before(s, x, y)
    ensures Before(s + [z], x, y)
  {
    var i, j :| 0 <= i < j < |s| && s[i] == x && s[j] == y;
    assert (s + [z])[i] == x && (s + [z])[j] == y;
  }

  lemma BeforeLast<T(!new)>(s: seq<T>, x: T, y: T)
    requires x in s
    ensures Before(s + [y], x, y)
  {
    var i :| 0 <= i < |s| && s[i] == x;
    assert (s + [y])[i] == x && (s + [y])[|s|] == y;
  }

  lemma {:induction false} Started(log: seq<Event>, x: Id)
    ensures Start(x) in log <==> x in Starts(log)
    ensures Ready(x) in log <==> x in Readies(log)
    decreases |log|
  {
    if log != [] {
      var front, last := log[..|log| - 1], log[|log| - 1];
      Started(front, x);
      assert log == front + [last];
      LogSnoc(front, last);
    }
  }

  lemma {:induction false} StartsBefore(log: seq<Event>, x: Id, y: Id)
    requires Before(log, Start(x), Start(y))
    ensures Before(Starts(log), x, y)
    decreases |log|
  {
    var i, j :| 0 <= i < j < |log| && log[i] == Start(x) && log[j] == Start(y);
    var front, last := log[..|log| - 1], log[|log| - 1];
    assert log == front + [last];
    LogSnoc(front, last);
    assert front[i] == Start(x);
    if j < |log| - 1 {
      assert front[j] == Start(y);
      StartsBefore(front, x, y);
      if last.Start? {
        BeforeMore(Starts(front), x, y, last.id);
      } else {
        assert Starts(front) + [] == Starts(front);
      }
    } else {
      Started(front, x);
      BeforeLast(Starts(front), x, y);
    }
  }

  lemma {:induction false} ReadiesBefore(log: seq<Event>, x: Id, y: Id)
    requires Before(Readies(log), x, y)
    ensures Before(log, Ready(x), Ready(y))
    decreases |log|
  {
    var front, last := log[..|log| - 1], log[|log| - 1];
    assert log == front + [last];
    LogSnoc(front, last);
    var i, j :| 0 <= i < j < |Readies(log)| && Readies(log)[i] == x && Readies(log)[j] == y;
    if j < |Readies(front)| {
      assert Readies(front)[i] == x && Readies(front)[j] == y;
      ReadiesBefore(front, x, y);
      BeforeMore(front, Ready(x), Ready(y), last);
    } else {
      assert Readies(front)[i] == x;
      Started(front, x);
      BeforeLast(front, Ready(x), Ready(y));
    }
  }

  /** Of two nodes that started, the one that became ready first started first. */
  lemma StartsInReadyOrder(g: Dag, cfg: Config, s: State, a: Id, b: Id, i: nat, j: nat, k: nat, l: nat)
    requires WellFormed(g) && Reachable(g, cfg, s)
    requires i < j < |s.log| && s.log[i] == Ready(a) && s.log[j] == Ready(b)
    requires k < |s.log| && l < |s.log| && s.log[k] == Start(a) && s.log[l] == Start(b)
    ensures k < l
  {
    hide WellFormed, Reachable, Readies, Starts, IsSub;
    AtMostOnce(g, cfg, s, i, j);
    if l <= k {
      assert Before(s.log, Start(b), Start(a));
      StartsBefore(s.log, b, a);
      FirstReadyFirstStarted(g, cfg, s);
      SubBefore(Starts(s.log), Readies(s.log), b, a);
      ReadiesBefore(s.log, b, a);
      var p, q :| 0 <= p < q < |s.log| && s.log[p] == Ready(b) && s.log[q] == Ready(a);
      ReadyOnce(g, cfg, s, p, j);
      ReadyOnce(g, cfg, s, i, q);
      assert false;
    }
  }

  lemma ReadyOnce(g: Dag, cfg: Config, s: State, i: nat, j: nat)
    requires WellFormed(g) && Reachable(g, cfg, s) && i < |s.log| && j < |s.log|
    requires s.log[i].Ready? && s.log[j].Ready? && s.log[i].id == s.log[j].id
    ensures i == j
  {
    hide WellFormed, Reachable;
    if i < j {
      AtMostOnce(g, cfg, s, i, j);
    } else if j < i {
      AtMostOnce(g, cfg, s, j, i);
    }
  }
}
