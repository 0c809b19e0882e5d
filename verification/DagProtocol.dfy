/** The DAG executor (server/src/dag/dag_executor.cpp) as a step machine.

    One scheduling thread fills free slots from the ready queue; every node in
    flight belongs to a worker that, once the task has returned, walks the
    node's children or skips its descendants.  A step is one shared-memory
    action of one thread, so a run is an arbitrary interleaving.  Task
    outcomes are chosen freely at each completion. */
module DagProtocol {
  import opened TaskCommon
  import opened Graphs

  datatype FailPolicy = FailFast | SkipDownstream

  /** `maxParallel` is an unsigned 32-bit setting. */
  datatype Config = Config(failPolicy: FailPolicy, maxParallel: nat)

  /** The setting read as a signed 32-bit number, and at least one. */
  function Slots(maxParallel: nat): int {
    var signed := if maxParallel < 0x8000_0000 then maxParallel else maxParallel - 0x1_0000_0000;
    if signed <= 0 then 1 else signed
  }

  /** The built graph: dependencies and their mirror image, both with repetitions. */
  datatype Dag = Dag(nodes: set<Id>, deps: map<Id, seq<Id>>, down: Succ)

  /** What `DagBuilder::build` establishes for specs whose dependencies are all present. */
  ghost predicate WellFormed(g: Dag) {
    && g.deps.Keys == g.nodes
    && g.down.Keys == g.nodes
    && (forall p, c :: Edge(g.down, p, c) ==> c in g.nodes && p in g.deps[c])
    && (forall c, p :: c in g.nodes && p in g.deps[c] ==> Edge(g.down, p, c))
    && (forall c :: c in g.nodes ==> |Open(g.down, map[], c)| == |g.deps[c]|)
  }

  lemma WellFormedKeys(g: Dag)
    requires WellFormed(g)
    ensures g.down.Keys == g.nodes && g.deps.Keys == g.nodes
  {
  }

  /** Where the scheduling thread stands in `execute` and `submitNodeAsync`. */
  datatype Pc =
    | Test
    | Pop
    | Check(id: Id)
    | FailCheck(id: Id)
    | Guard(id: Id)
    | SetRunning(id: Id)
    | Increment(id: Id)
    | Post(id: Id)
    | ExitTest
    | Wait
    | Finish
    | Done(result: Status)

  /** Where a worker stands: in the task itself, then in `onNodeFinished`. */
  datatype Phase =
    | Executing
    | Reported(st: Status)
    | Looking(k: nat)
    | Decrementing(k: nat)
    | Pushing(k: nat)
    | Marking
    | Visiting(visited: set<Id>, todo: seq<Id>)
    | Recording(visited: set<Id>, todo: seq<Id>, child: Id)
    | Leaving

  /** The node events sent to the log stream, in the order they are sent. */
  datatype Event =
    | Ready(id: Id)
    | Start(id: Id)
    | End(id: Id, st: Status)
    | SkippedBy(id: Id, upstream: Id)

  datatype State = State(
    pc: Pc,
    ready: seq<Id>,
    running: int,
    failed: bool,
    status: map<Id, Status>,
    indegree: map<Id, int>,
    results: map<Id, Status>,
    workers: map<Id, Phase>,
    log: seq<Event>)

  /** The state in which the scheduling loop starts: `initReadyQueue` has pushed
      the nodes whose counter is zero, in the order in which the node table
      happens to be iterated. */
  ghost predicate Init(g: Dag, s: State) {
    && s.pc == Test
    && s.running == 0
    && !s.failed
    && s.status == (map n | n in g.nodes :: Pending)
    && s.indegree == (map n | n in g.nodes && n in g.deps :: |g.deps[n]| as int)
    && s.results == map[]
    && s.workers == map[]
    && Distinct(s.ready)
    && (forall n :: n in s.ready <==> n in g.nodes && n in g.deps && g.deps[n] == [])
    && s.log == seq(|s.ready|, i requires 0 <= i < |s.ready| => Ready(s.ready[i]))
  }

  ghost predicate Shaped(g: Dag, s: State) {
    && g.down.Keys == g.nodes
    && s.status.Keys == g.nodes
    && s.indegree.Keys == g.nodes
    && s.results.Keys <= g.nodes
    && s.workers.Keys <= g.nodes
  }

  /* ---- the scheduling thread ---- */

  predicate FailedFast(cfg: Config, s: State) {
    cfg.failPolicy.FailFast? && s.failed
  }

  /** The predicate of the condition-variable wait. */
  predicate WakeUp(cfg: Config, s: State) {
    s.ready != [] || s.running == 0 || FailedFast(cfg, s)
  }

  predicate SchedulerEnabled(cfg: Config, s: State) {
    match s.pc
    case Done(_) => false
    case Wait => WakeUp(cfg, s)
    case _ => true
  }

  /** A node found missing or no longer Pending is dropped by both status guards. */
  predicate Submittable(s: State, id: Id) {
    id in s.status && s.status[id].Pending?
  }

  /** Where the scheduling thread goes from a point at which it changes nothing but its place. */
  function NextPc(cfg: Config, s: State): Pc {
    match s.pc
    case Test => if s.running < Slots(cfg.maxParallel) then Pop else ExitTest
    case Pop => ExitTest
    case Check(id) => if id in s.status && !s.status[id].Pending? then Test else FailCheck(id)
    case FailCheck(id) => if FailedFast(cfg, s) then Test else Guard(id)
    case Guard(id) => if Submittable(s, id) then SetRunning(id) else Test
    case ExitTest => if s.ready == [] && s.running == 0 then Finish else Wait
    case Wait => Test
    case Finish => Done(if s.failed then Failed else Success)
    case other => other
  }

  predicate Nameless(id: Id) {
    |id| == 0
  }

  /** An empty id is taken to mean that the queue was empty. */
  function PopReady(s: State): State
    requires s.ready != []
  {
    s.(pc := if Nameless(s.ready[0]) then ExitTest else Check(s.ready[0]), ready := s.ready[1..])
  }

  predicate Effective(s: State) {
    s.pc.SetRunning? || s.pc.Increment? || s.pc.Post? || (s.pc.Pop? && s.ready != [])
  }

  function Effect(s: State): State
    requires Effective(s)
  {
    match s.pc
    case SetRunning(id) => s.(pc := Increment(id), status := s.status[id := Running])
    case Increment(id) => s.(pc := Post(id), running := s.running + 1, log := s.log + [Start(id)])
    case Post(id) => s.(pc := Test, workers := s.workers[id := Executing])
    case _ => PopReady(s)
  }

  function SchedulerStep(cfg: Config, s: State): State
    requires SchedulerEnabled(cfg, s)
  {
    if Effective(s) then Effect(s) else s.(pc := NextPc(cfg, s))
  }

  /* ---- a worker ---- */

  /** The status a node takes from its task's result. */
  function NodeStatus(st: Status): Status {
    match st
    case Success => Success
    case Timeout => Timeout
    case Canceled => Canceled
    case _ => Failed
  }

  /** Push the not yet visited members of `list` onto the BFS queue. */
  function Discover(list: seq<Id>, visited: set<Id>, todo: seq<Id>): (r: (set<Id>, seq<Id>)) {
    if list == [] then (visited, todo)
    else if list[0] in visited then Discover(list[1..], visited, todo)
    else Discover(list[1..], visited + {list[0]}, todo + [list[0]])
  }

  predicate ClosedToParents(st: Status) {
    st.Skipped? || FailureLike(st)
  }

  function Move(s: State, w: Id, ph: Phase): State {
    s.(workers := s.workers[w := ph])
  }

  /** Deal with child number `k`: look whether it is still open, count it down, push it. */
  function ChildStep(g: Dag, s: State, w: Id, k: nat): State
    requires Shaped(g, s) && w in s.workers
  {
    if k >= |g.down[w]| then Move(s, w, Leaving)
    else if g.down[w][k] !in g.nodes then Move(s, w, Looking(k + 1))
    else
      var c := g.down[w][k];
      match s.workers[w]
      case Decrementing(_) =>
        var degree := s.indegree[c] - 1;
        Move(s, w, if degree == 0 then Pushing(k) else Looking(k + 1)).(indegree := s.indegree[c := degree])
      case Pushing(_) =>
        Move(s, w, Looking(k + 1)).(ready := s.ready + [c], log := s.log + [Ready(c)])
      case _ =>
        Move(s, w, if ClosedToParents(s.status[c]) then Looking(k + 1) else Decrementing(k))
  }

  function MarkStep(g: Dag, cfg: Config, s: State, w: Id): State
    requires Shaped(g, s) && w in s.workers
  {
    var found := Discover(g.down[w], {}, []);
    Move(s, w, if cfg.failPolicy.FailFast? then Leaving else Visiting(found.0, found.1)).(failed := true)
  }

  function VisitStep(g: Dag, s: State, w: Id, visited: set<Id>, todo: seq<Id>): State {
    if todo == [] then Move(s, w, Leaving)
    else if todo[0] !in g.nodes then Move(s, w, Visiting(visited, todo[1..]))
    else Move(s, w, Recording(visited, todo[1..], todo[0])).(status := s.status[todo[0] := Skipped])
  }

  function RecordStep(g: Dag, s: State, w: Id, visited: set<Id>, todo: seq<Id>, c: Id): State {
    var found := if c in g.down then Discover(g.down[c], visited, todo) else (visited, todo);
    Move(s, w, Visiting(found.0, found.1))
      .(results := s.results[c := Skipped], log := s.log + [SkippedBy(c, w)])
  }

  function AfterResult(st: Status): Phase {
    if st.Success? then Looking(0) else if FailureLike(st) then Marking else Leaving
  }

  /** `outcome` is what the task returns; only a worker that is executing looks at it. */
  function WorkerStep(g: Dag, cfg: Config, s: State, w: Id, outcome: Status): State
    requires Shaped(g, s) && w in s.workers
  {
    match s.workers[w]
    case Executing =>
      Move(s, w, Reported(outcome)).(results := s.results[w := outcome], log := s.log + [End(w, outcome)])
    case Reported(st) => Move(s, w, AfterResult(st)).(status := s.status[w := NodeStatus(st)])
    case Looking(k) => ChildStep(g, s, w, k)
    case Decrementing(k) => ChildStep(g, s, w, k)
    case Pushing(k) => ChildStep(g, s, w, k)
    case Marking => MarkStep(g, cfg, s, w)
    case Visiting(visited, todo) => VisitStep(g, s, w, visited, todo)
    case Recording(visited, todo, c) => RecordStep(g, s, w, visited, todo, c)
    case Leaving => s.(workers := s.workers - {w}, running := s.running - 1)
  }

  /* ---- runs ---- */

  datatype Step = Scheduler | Worker(id: Id, outcome: Status)

  ghost predicate Enabled(g: Dag, cfg: Config, s: State, a: Step) {
    Shaped(g, s) &&
    match a
    case Scheduler => SchedulerEnabled(cfg, s)
    case Worker(w, _) => w in s.workers
  }

  ghost function Apply(g: Dag, cfg: Config, s: State, a: Step): State
    requires Enabled(g, cfg, s, a)
  {
    match a
    case Scheduler => SchedulerStep(cfg, s)
    case Worker(w, outcome) => WorkerStep(g, cfg, s, w, outcome)
  }

  /** `t` follows from `s` by the steps `acts`, in that order. */
  ghost predicate Steps(g: Dag, cfg: Config, s: State, acts: seq<Step>, t: State)
    decreases |acts|
  {
    if acts == [] then s == t
    else Enabled(g, cfg, s, acts[0]) && Steps(g, cfg, Apply(g, cfg, s, acts[0]), acts[1..], t)
  }

  ghost predicate Reachable(g: Dag, cfg: Config, s: State) {
    exists s0, acts :: Init(g, s0) && Steps(g, cfg, s0, acts, s)
  }
}
