/** What every step of the executor keeps. */
module DagInvariant {
  import opened TaskCommon
  import opened Graphs
  import opened DagProtocol

  /** The scheduling thread has popped `id` and not yet changed its status. */
  predicate Holds(pc: Pc, id: Id) {
    (pc.Check? || pc.FailCheck? || pc.Guard? || pc.SetRunning?) && pc.id == id
  }

  /** The scheduling thread has set `id` Running and not yet posted it. */
  predicate Launches(pc: Pc, id: Id) {
    (pc.Increment? || pc.Post?) && pc.id == id
  }

  predicate Enqueued(s: State, id: Id) {
    Ready(id) in s.log
  }

  /* ---- statuses, results and worker phases agree ---- */

  ghost predicate Fails(s: State, n: Id) {
    n in s.results && FailureLike(s.results[n])
  }

  ghost predicate Settled(s: State, n: Id) {
    n in s.results && n in s.status && Finished(s.status[n]) && s.status[n] == NodeStatus(s.results[n])
  }

  ghost predicate PhaseOk(g: Dag, cfg: Config, s: State, w: Id)
    requires Shaped(g, s) && w in s.workers
  {
    match s.workers[w]
    case Executing => s.status[w].Running? && w !in s.results
    case Reported(st) => s.status[w].Running? && w in s.results && s.results[w] == st
    case Looking(k) => k <= |g.down[w]| && Settled(s, w) && s.results[w].Success?
    case Decrementing(k) => k < |g.down[w]| && Settled(s, w) && s.results[w].Success?
    case Pushing(k) => k < |g.down[w]| && Settled(s, w) && s.results[w].Success?
    case Marking => Settled(s, w) && Fails(s, w)
    case Visiting(_, _) => Settled(s, w) && Fails(s, w) && s.failed && cfg.failPolicy.SkipDownstream?
    case Recording(_, _, _) => Settled(s, w) && Fails(s, w) && s.failed && cfg.failPolicy.SkipDownstream?
    case Leaving => Settled(s, w) && (Fails(s, w) ==> s.failed)
  }

  ghost predicate NodeOk(g: Dag, s: State, n: Id)
    requires Shaped(g, s) && n in g.nodes
  {
    match s.status[n]
    case Pending => n !in s.workers && n !in s.results
    case Running => if n in s.workers then s.workers[n].Executing? || s.workers[n].Reported?
                    else Launches(s.pc, n) && n !in s.results
    case Skipped => n !in s.workers && (n in s.results ==> s.results[n].Skipped?)
    case _ => Settled(s, n) && (n !in s.workers && Fails(s, n) ==> s.failed)
  }

  ghost predicate PcOk(g: Dag, s: State)
    requires Shaped(g, s)
  {
    && (forall id :: Holds(s.pc, id) ==> id in g.nodes && s.status[id].Pending?)
    && (forall id :: Launches(s.pc, id) ==> id in g.nodes && s.status[id].Running? && id !in s.workers)
  }

  ghost predicate Coherent(g: Dag, cfg: Config, s: State) {
    && Shaped(g, s)
    && (forall w :: w in s.workers ==> PhaseOk(g, cfg, s, w))
    && (forall n :: n in g.nodes ==> NodeOk(g, s, n))
    && PcOk(g, s)
  }

  /* ---- the dependency counters ---- */

  /** How many of the edges leaving `p` its worker has dealt with. */
  ghost function Dealt(g: Dag, s: State, p: Id): nat
    requires Shaped(g, s) && p in g.nodes
  {
    if p in s.workers && !s.workers[p].Leaving? then
      match s.workers[p]
      case Looking(k) => k
      case Decrementing(k) => k
      case Pushing(k) => k + 1
      case _ => 0
    else if s.status[p].Success? then |g.down[p]|
    else 0
  }

  ghost function DealtMap(g: Dag, s: State): map<Id, nat>
    requires Shaped(g, s)
  {
    map p | p in g.nodes :: Dealt(g, s, p)
  }

  ghost function OpenIn(g: Dag, s: State, c: Id): set<(Id, nat)>
    requires Shaped(g, s)
  {
    Open(g.down, DealtMap(g, s), c)
  }

  ghost predicate CounterOk(g: Dag, s: State, c: Id)
    requires Shaped(g, s) && c in g.nodes
  {
    && |OpenIn(g, s, c)| <= s.indegree[c]
    && (!s.status[c].Skipped? ==> |OpenIn(g, s, c)| == s.indegree[c])
  }

  ghost predicate Counted(g: Dag, s: State) {
    Shaped(g, s) && forall c :: c in g.nodes ==> CounterOk(g, s, c)
  }

  /* ---- the ready queue ---- */

  ghost predicate Pushes(g: Dag, s: State, w: Id, c: Id) {
    w in s.workers && w in g.down && s.workers[w].Pushing? &&
    s.workers[w].k < |g.down[w]| && g.down[w][s.workers[w].k] == c
  }

  ghost predicate QueueOk(g: Dag, s: State) {
    && Distinct(s.ready)
    && (forall c :: c in s.ready ==> Enqueued(s, c) && c in s.status && s.status[c].Pending? && !Holds(s.pc, c))
    && (forall c :: Holds(s.pc, c) ==> Enqueued(s, c))
  }

  /** A node is enqueued only with no open edge left, and stays unskipped. */
  ghost predicate EnqueuedOk(g: Dag, s: State)
    requires Shaped(g, s)
  {
    && (forall c :: Enqueued(s, c) ==> c in g.nodes && OpenIn(g, s, c) == {} && !s.status[c].Skipped?)
    && (forall c :: c in g.nodes && (s.status[c].Running? || Finished(s.status[c])) ==> Enqueued(s, c))
  }

  ghost predicate PushOk(g: Dag, s: State)
    requires Shaped(g, s)
  {
    && (forall w, c :: Pushes(g, s, w, c) ==>
          c in g.nodes && OpenIn(g, s, c) == {} && !Enqueued(s, c) && s.status[c].Pending?)
    && (forall w, v, c :: Pushes(g, s, w, c) && Pushes(g, s, v, c) ==> w == v)
  }

  /** A node with no open edge left has been enqueued or is about to be. */
  ghost predicate NoneMissed(g: Dag, s: State)
    requires Shaped(g, s)
  {
    forall c :: c in g.nodes && OpenIn(g, s, c) == {} && !s.status[c].Skipped? ==>
      Enqueued(s, c) || exists w :: Pushes(g, s, w, c)
  }

  /** An enqueued node waits in the queue or with the scheduling thread, unless
      fail-fast or an empty name made the thread drop it. */
  ghost predicate NoneDropped(g: Dag, cfg: Config, s: State)
    requires Shaped(g, s)
  {
    forall c :: c in g.nodes && Enqueued(s, c) && s.status[c].Pending? ==>
      c in s.ready || Holds(s.pc, c) || FailedFast(cfg, s) || Nameless(c)
  }

  /* ---- slots ---- */

  /** The scheduling thread has seen a free slot and not yet filled it. */
  predicate Reserves(pc: Pc) {
    pc.Pop? || pc.Check? || pc.FailCheck? || pc.Guard? || pc.SetRunning? || pc.Increment? || pc.Post?
  }

  ghost predicate SlotsOk(cfg: Config, s: State) {
    && s.running == |s.workers| + (if s.pc.Post? then 1 else 0)
    && |s.workers| + (if Reserves(s.pc) then 1 else 0) <= Slots(cfg.maxParallel)
  }

  /* ---- skipping ---- */

  ghost predicate Blocks(g: Dag, s: State, a: Id, n: Id) {
    Ancestor(g.down, a, n) && Fails(s, a)
  }

  /** A breadth-first pass from `w`: everything seen is a descendant; what has
      left the queue is Skipped and its children have been seen. */
  ghost predicate Sweep(g: Dag, s: State, w: Id, visited: set<Id>, pending: set<Id>)
    requires Shaped(g, s)
  {
    && pending <= visited <= g.nodes
    && (forall v :: v in visited ==> Ancestor(g.down, w, v))
    && (forall v :: Edge(g.down, w, v) ==> v in visited)
    && (forall v :: v in visited - pending ==> s.status[v].Skipped?)
    && (forall v, u :: v in visited - pending && Edge(g.down, v, u) ==> u in visited)
  }

  ghost predicate SweepOk(g: Dag, s: State, w: Id)
    requires Shaped(g, s) && w in s.workers
  {
    match s.workers[w]
    case Visiting(visited, todo) =>
      Distinct(todo) && Sweep(g, s, w, visited, Elements(todo))
    case Recording(visited, todo, c) =>
      Distinct(todo) && c !in todo && c in g.nodes && s.status[c].Skipped? &&
      Sweep(g, s, w, visited, Elements(todo) + {c})
    case _ => true
  }

  /** The failure of `n` has been acted on in full. */
  ghost predicate Swept(s: State, n: Id) {
    Fails(s, n) && n in s.status && Finished(s.status[n]) && (n in s.workers ==> s.workers[n].Leaving?)
  }

  ghost predicate SkipOk(g: Dag, cfg: Config, s: State) {
    && Shaped(g, s)
    && (forall w :: w in s.workers ==> SweepOk(g, s, w))
    && (forall n :: n in g.nodes && s.status[n].Skipped? ==>
          cfg.failPolicy.SkipDownstream? && exists a :: Blocks(g, s, a, n))
    && (cfg.failPolicy.SkipDownstream? ==>
          forall n, v :: Swept(s, n) && Ancestor(g.down, n, v) ==> v in g.nodes && s.status[v].Skipped?)
    && (forall n :: n in g.nodes && s.status[n].Skipped? ==>
          n in s.results || exists w :: w in s.workers && s.workers[w].Recording? && s.workers[w].child == n)
  }

  /* ---- the failed flag and the end ---- */

  ghost predicate FlagOk(g: Dag, s: State) {
    && (s.failed ==> exists n :: n in g.nodes && Fails(s, n))
    && (s.pc.Finish? || s.pc.Done? ==> s.ready == [] && s.workers == map[])
    && (s.pc.Done? ==> s.pc.result == if s.failed then Failed else Success)
  }

  ghost predicate Inv(g: Dag, cfg: Config, s: State) {
    && Coherent(g, cfg, s)
    && Counted(g, s)
    && QueueOk(g, s)
    && EnqueuedOk(g, s)
    && PushOk(g, s)
    && NoneMissed(g, s)
    && NoneDropped(g, cfg, s)
    && SlotsOk(cfg, s)
    && SkipOk(g, cfg, s)
    && FlagOk(g, s)
  }
}
