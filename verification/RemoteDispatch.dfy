/** Dispatching a task to a worker, with failover (server/src/execution/remote_strategy.cpp). */
module RemoteDispatch {
  import opened TaskCommon
  import opened WorkerSelection
  import opened WorkerRegistry

  /** What came of one HTTP call: the deadline had passed before it, there was no answer, or an answer
      with its status code and, if the body was JSON, whether it acknowledges the task. */
  datatype Reply =
    | ExpiredBefore
    | NoResponse(canceled: bool, expired: bool)
    | Http(code: int, ack: Option<bool>)

  datatype TaskResult = TaskResult(status: Status, workerId: string)

  datatype AttemptResult = AttemptResult(result: TaskResult, retryable: bool)

  const COOLDOWN := 5 * SECOND

  predicate RetryableHttpStatus(code: int) {
    500 <= code <= 599
  }

  function DispatchOnce(workerId: string, reply: Reply): AttemptResult {
    match reply
    case ExpiredBefore => AttemptResult(TaskResult(Timeout, workerId), false)
    case NoResponse(canceled, expired) =>
      if canceled then AttemptResult(TaskResult(Canceled, workerId), false)
      else if expired then AttemptResult(TaskResult(Timeout, workerId), false)
      else AttemptResult(TaskResult(Failed, workerId), true)
    case Http(code, ack) =>
      if code < 200 || code >= 300 then AttemptResult(TaskResult(Failed, workerId), RetryableHttpStatus(code))
      else if ack.None? then AttemptResult(TaskResult(Failed, workerId), false)
      else AttemptResult(TaskResult(if ack.value then Success else Failed, workerId), false)
  }

  function MaxAttempts(configured: int): nat {
    1 + (if configured < 0 then 0 else configured)
  }

  /** Everything a dispatch meets from outside, by attempt number (from 1; 0 is the first check):
      a pending cancel or timeout, the clock at the pick and at the cooldown mark, the reply,
      and what other threads did to the table before the pick. */
  datatype World = World(
    abort: nat -> Option<Status>,
    pickClock: nat -> int,
    reply: nat -> Reply,
    markClock: nat -> int,
    others: (nat, Workers) -> Workers)

  /** One trip through the attempt loop that reached a worker. */
  datatype Attempt = Attempt(
    seen: Workers,
    cursors: map<string, nat>,
    pickedAt: int,
    worker: WorkerInfo,
    outcome: AttemptResult,
    markedAt: int,
    after: map<string, nat>)
  {
    /** The table this attempt leaves. */
    function Left(): Workers {
      if outcome.retryable then Marked(seen, worker.id, markedAt + COOLDOWN) else seen
    }
  }

  /** Attempt `n + 1` is a pick from the table it saw and the mapped reply. */
  ghost predicate Honest(roundRobin: bool, queue: string, world: World, a: Attempt, n: nat) {
    a.pickedAt == world.pickClock(n + 1) && a.markedAt == world.markClock(n + 1) &&
    Picks(roundRobin, a.seen, queue, a.pickedAt, a.cursors, Some(a.worker), a.after) &&
    a.outcome == DispatchOnce(a.worker.id, world.reply(n + 1))
  }

  /** The table and the cursors left by the attempts so far. */
  function LeftBy(attempts: seq<Attempt>, workers: Workers): Workers {
    if attempts == [] then workers else attempts[|attempts| - 1].Left()
  }

  function CursorsAfter(attempts: seq<Attempt>, cursors: map<string, nat>): map<string, nat> {
    if attempts == [] then cursors else attempts[|attempts| - 1].after
  }

  /** What attempt `n` saw is what the attempts before it left, as others have changed it since. */
  ghost predicate Chained(world: World, attempts: seq<Attempt>, workers: Workers, cursors: map<string, nat>, n: nat)
    requires n < |attempts|
  {
    attempts[n].seen == world.others(n + 1, LeftBy(attempts[..n], workers)) &&
    attempts[n].cursors == CursorsAfter(attempts[..n], cursors)
  }

  ghost predicate Trace(roundRobin: bool, queue: string, world: World, attempts: seq<Attempt>,
                        workers: Workers, cursors: map<string, nat>)
  {
    forall n :: 0 <= n < |attempts| ==>
      Honest(roundRobin, queue, world, attempts[n], n) && Chained(world, attempts, workers, cursors, n)
  }

  /** Why the loop ended, and with what result. */
  ghost predicate Ended(queue: string, world: World, attempts: seq<Attempt>, workers: Workers, max: nat,
                        result: TaskResult)
  {
    var n := |attempts|;
    if n > 0 && (!attempts[n - 1].outcome.retryable || n == max) then
      result == attempts[n - 1].outcome.result
    else
      n < max &&
      match world.abort(n + 1)
      case Some(st) => result == TaskResult(st, "")
      case None =>
        Pool(world.others(n + 1, LeftBy(attempts, workers)), queue, world.pickClock(n + 1)) == {} &&
        result == TaskResult(Failed, if n == 0 then "" else attempts[n - 1].worker.id)
  }

  ghost predicate KeepsKeys(world: World) {
    forall n, ws :: Keyed(ws) ==> Keyed(world.others(n, ws))
  }

  lemma TraceGrows(roundRobin: bool, queue: string, world: World, attempts: seq<Attempt>,
                   workers: Workers, cursors: map<string, nat>, a: Attempt)
    requires Trace(roundRobin, queue, world, attempts, workers, cursors)
    requires Honest(roundRobin, queue, world, a, |attempts|)
    requires a.seen == world.others(|attempts| + 1, LeftBy(attempts, workers))
    requires a.cursors == CursorsAfter(attempts, cursors)
    ensures Trace(roundRobin, queue, world, attempts + [a], workers, cursors)
  {
    hide Honest, LeftBy, CursorsAfter;
    var longer := attempts + [a];
    forall n | 0 <= n < |longer|
      ensures Honest(roundRobin, queue, world, longer[n], n) && Chained(world, longer, workers, cursors, n)
    {
      assert longer[..n] == attempts[..n];
      if n == |attempts| {
        assert attempts[..n] == attempts;
      } else {
        assert Chained(world, attempts, workers, cursors, n);
      }
    }
  }

  /** `RemoteExecutionStrategy::execute`. */
  method Execute(reg: ServerWorkerRegistry, cfgQueue: string, bodyOk: bool, configured: int, world: World)
    returns (result: TaskResult, attempts: seq<Attempt>)
    requires reg.Valid() && KeepsKeys(world)
    modifies reg, reg.selector
    ensures reg.Valid()
    ensures world.abort(0).Some? ==> attempts == [] && result == TaskResult(world.abort(0).value, "")
    ensures world.abort(0).None? && !bodyOk ==> attempts == [] && result == TaskResult(Failed, "")
    ensures world.abort(0).None? && bodyOk ==>
              var queue := if cfgQueue == "" then "default" else cfgQueue;
              var max := if configured < 0 then 1 else 1 + configured;
              Trace(reg.roundRobin, queue, world, attempts, old(reg.workers), old(reg.selector.queueIndex)) &&
              Ended(queue, world, attempts, old(reg.workers), max, result) &&
              forall a <- attempts :: Serves(a.worker, queue, a.pickedAt)
    ensures |attempts| <= if configured < 0 then 1 else 1 + configured
    ensures forall n :: 0 <= n < |attempts| - 1 ==> attempts[n].outcome.retryable
    ensures forall n :: 1 <= n <= |attempts| ==> world.abort(n).None?
  {
    hide Picks, Trace, Pool, Honest, Keyed, Serves;
    attempts := [];
    var aborted := world.abort(0);
    if aborted.Some? {
      return TaskResult(aborted.value, ""), attempts;
    }
    result := TaskResult(Failed, "");
    if !bodyOk {
      return;
    }
    var queue := Queue(cfgQueue);
    var max := MaxAttempts(configured);
    ghost var workers, cursors := reg.workers, reg.selector.queueIndex;
    TraceStarts(reg.roundRobin, queue, world, workers, cursors);
    for attempt := 1 to max + 1
      invariant |attempts| == attempt - 1
      invariant reg.Valid()
      invariant reg.workers == LeftBy(attempts, workers) && reg.selector.queueIndex == CursorsAfter(attempts, cursors)
      invariant Trace(reg.roundRobin, queue, world, attempts, workers, cursors)
      invariant forall n :: 0 <= n < |attempts| ==> attempts[n].outcome.retryable
      invariant forall n :: 1 <= n <= |attempts| ==> world.abort(n).None?
      invariant forall a <- attempts :: Serves(a.worker, queue, a.pickedAt)
      invariant attempts != [] ==> result == attempts[|attempts| - 1].outcome.result
      invariant result.workerId == if attempts == [] then "" else attempts[|attempts| - 1].worker.id
    {
      aborted := world.abort(attempt);
      if aborted.Some? {
        return TaskResult(aborted.value, ""), attempts;
      }
      var tried := TryOnce(reg, queue, attempt, world);
      if tried.None? {
        return result.(status := Failed), attempts;
      }
      var a := tried.value;
      TraceGrows(reg.roundRobin, queue, world, attempts, workers, cursors, a);
      attempts := attempts + [a];
      result := a.outcome.result;
      if !a.outcome.retryable || attempt == max {
        return;
      }
    }
  }

  /** The body of the loop after the check: pick, send, and mark the worker if the attempt may be repeated. */
  method TryOnce(reg: ServerWorkerRegistry, queue: string, attempt: nat, world: World) returns (r: Option<Attempt>)
    requires reg.Valid() && KeepsKeys(world) && attempt >= 1
    modifies reg, reg.selector
    ensures reg.Valid()
    ensures r.None? ==> Pool(world.others(attempt, old(reg.workers)), queue, world.pickClock(attempt)) == {}
    ensures r.Some? ==>
              Honest(reg.roundRobin, queue, world, r.value, attempt - 1) &&
              r.value.seen == world.others(attempt, old(reg.workers)) &&
                r.value.cursors == old(reg.selector.queueIndex) &&
              reg.workers == r.value.Left() && reg.selector.queueIndex == r.value.after &&
              r.value.outcome.result.workerId == r.value.worker.id && Serves(r.value.worker, queue, r.value.pickedAt)
    ensures r.Some? && r.value.outcome.retryable ==>
              r.value.worker.id in reg.workers &&
              reg.workers[r.value.worker.id].dispatchCooldownUntil == world.markClock(attempt) + 5_000_000_000
  {
    hide Picks, Pool, DispatchOnce, Keyed, Serves;
    reg.workers := world.others(attempt, reg.workers);
    var before := reg.selector.queueIndex;
    var now := world.pickClock(attempt);
    var picked := reg.PickWorkerForQueue(queue, now);
    PickNone(reg.roundRobin, reg.workers, queue, now, before, picked, reg.selector.queueIndex);
    if picked.None? {
      return None;
    }
    PickIsPooled(reg.roundRobin, reg.workers, queue, now, before, picked, reg.selector.queueIndex);
    var worker := picked.value;
    var outcome := DispatchOnce(worker.id, world.reply(attempt));
    DispatchNames(worker.id, world.reply(attempt));
    r := Some(Attempt(reg.workers, before, now, worker, outcome, world.markClock(attempt), reg.selector.queueIndex));
    if outcome.retryable {
      reg.MarkDispatchFailure(worker.id, COOLDOWN, world.markClock(attempt));
    }
  }

  function Queue(configured: string): string {
    if configured == "" then "default" else configured
  }

  lemma TraceStarts(roundRobin: bool, queue: string, world: World, workers: Workers, cursors: map<string, nat>)
    ensures Trace(roundRobin, queue, world, [], workers, cursors)
  {
  }

  lemma PickNone(roundRobin: bool, workers: Workers, queue: string, now: int,
                 cursors: map<string, nat>, r: Option<WorkerInfo>, after: map<string, nat>)
    requires Picks(roundRobin, workers, queue, now, cursors, r, after)
    ensures r.None? ==> Pool(workers, queue, now) == {}
    ensures r.Some? ==> r.value.id in workers
  {
  }

  /** Only a missing answer or a server error is worth another attempt, and it counts as a failure until then. */
  lemma DispatchNames(id: string, reply: Reply)
    ensures DispatchOnce(id, reply).result.workerId == id
    ensures DispatchOnce(id, reply).retryable <==>
              reply == NoResponse(false, false) || (reply.Http? && 500 <= reply.code < 600)
    ensures DispatchOnce(id, reply).retryable ==> DispatchOnce(id, reply).result.status == Failed
    ensures DispatchOnce(id, reply).result.status == Canceled <==> reply.NoResponse? && reply.canceled
    ensures DispatchOnce(id, reply).result.status == Timeout <==>
              reply.ExpiredBefore? || (reply.NoResponse? && !reply.canceled && reply.expired)
    ensures DispatchOnce(id, reply).result.status in {Success, Failed, Canceled, Timeout}
    ensures DispatchOnce(id, reply).result.status == Success <==>
              reply.Http? && 200 <= reply.code < 300 && reply.ack == Some(true)
  {
  }

  /* ---- failover ---- */

  /** The table changes from `ws` to `ws'` by cooldown marks only, made between two clock readings. */
  ghost predicate OnlyMarks(ws: Workers, ws': Workers, from: int, to: int) {
    ws'.Keys == ws.Keys &&
    forall id <- ws :: ws'[id] == ws[id] || MarkedBetween(ws[id], ws'[id], from, to)
  }

  ghost predicate MarkedBetween(w: WorkerInfo, w': WorkerInfo, from: int, to: int) {
    w' == w.(dispatchCooldownUntil := w'.dispatchCooldownUntil) &&
    from + COOLDOWN <= w'.dispatchCooldownUntil <= to + COOLDOWN
  }

  /** Between one attempt and the next, only marks: the attempt's own and those of others. */
  ghost predicate Follows(a: Attempt, b: Attempt) {
    a.outcome.retryable && a.worker.id in a.seen && a.pickedAt <= a.markedAt <= b.pickedAt &&
    OnlyMarks(a.Left(), b.seen, a.markedAt, b.pickedAt)
  }

  ghost predicate Failover(attempts: seq<Attempt>) {
    forall n :: 0 <= n < |attempts| - 1 ==> Follows(attempts[n], attempts[n + 1])
  }

  /** A worker once attempted stays in cooldown for five seconds from its mark. */
  lemma {:induction false} StaysMarked(attempts: seq<Attempt>, i: nat, j: nat)
    requires i < j < |attempts| && Failover(attempts)
    ensures attempts[i].markedAt <= attempts[j].pickedAt
    ensures attempts[i].worker.id in attempts[j].seen
    ensures attempts[j].seen[attempts[i].worker.id].dispatchCooldownUntil >= attempts[i].markedAt + 5_000_000_000
    decreases j
  {
    var p := attempts[j - 1];
    assert Follows(p, attempts[j - 1 + 1]);
    if i < j - 1 {
      StaysMarked(attempts, i, j - 1);
    }
  }

  /** Inside the cooldown windows a worker is attempted again only when every candidate is cooling down. */
  lemma RepeatOnlyWhenAllCool(roundRobin: bool, queue: string, world: World, attempts: seq<Attempt>, i: nat, j: nat)
    requires i < j < |attempts| && Failover(attempts)
    requires Honest(roundRobin, queue, world, attempts[j], j)
    requires attempts[j].pickedAt < attempts[i].markedAt + COOLDOWN
    requires attempts[i].worker.id == attempts[j].worker.id
    ensures forall x <- Candidates(attempts[j].seen, queue, attempts[j].pickedAt, true) ::
              attempts[j].seen[x].IsCoolingDown(attempts[j].pickedAt)
  {
    hide Picks, Pool, Failover;
    var b := attempts[j];
    StaysMarked(attempts, i, j);
    PickIsPooled(roundRobin, b.seen, queue, b.pickedAt, b.cursors, Some(b.worker), b.after);
    CoolingPick(b.seen, queue, b.pickedAt, b.worker.id);
  }

  /** With no marks but the dispatch's own, a worker not attempted keeps its record. */
  lemma {:induction false} UntriedUnchanged(attempts: seq<Attempt>, j: nat, x: string)
    requires j < |attempts|
    requires forall n :: 0 <= n < j ==> attempts[n + 1].seen == attempts[n].Left()
    requires forall n :: 0 <= n < j ==> attempts[n].worker.id != x
    ensures x in attempts[j].seen <==> x in attempts[0].seen
    ensures x in attempts[j].seen ==> attempts[j].seen[x] == attempts[0].seen[x]
    decreases j
  {
    if j > 0 {
      UntriedUnchanged(attempts, j - 1, x);
      assert attempts[j - 1 + 1].seen == attempts[j - 1].Left();
    }
  }

  /** Attempts go to different workers until every candidate not already cooling at the start has been tried. */
  lemma DistinctUntilAllTried(roundRobin: bool, queue: string, world: World, attempts: seq<Attempt>, i: nat, j: nat)
    requires i < j < |attempts| && Failover(attempts)
    requires forall n :: 0 <= n < j ==> attempts[n + 1].seen == attempts[n].Left()
    requires Honest(roundRobin, queue, world, attempts[j], j)
    requires attempts[j].pickedAt < attempts[i].markedAt + COOLDOWN
    requires attempts[i].worker.id == attempts[j].worker.id
    ensures forall x <- Candidates(attempts[j].seen, queue, attempts[j].pickedAt, true) ::
              (exists n :: 0 <= n < j && attempts[n].worker.id == x) ||
              (x in attempts[0].seen && attempts[0].seen[x].IsCoolingDown(attempts[j].pickedAt))
  {
    hide Failover, Honest, Eligible;
    RepeatOnlyWhenAllCool(roundRobin, queue, world, attempts, i, j);
    forall x <- Candidates(attempts[j].seen, queue, attempts[j].pickedAt, true)
      ensures (exists n :: 0 <= n < j && attempts[n].worker.id == x) ||
              (x in attempts[0].seen && attempts[0].seen[x].IsCoolingDown(attempts[j].pickedAt))
    {
      if forall n :: 0 <= n < j ==> attempts[n].worker.id != x {
        UntriedUnchanged(attempts, j, x);
      }
    }
  }

  /** Around attempt `n` the clocks run forward and the other threads only mark cooldowns. */
  ghost predicate CalmAt(world: World, n: nat) {
    world.pickClock(n) <= world.markClock(n) <= world.pickClock(n + 1) &&
    forall ws :: OthersMark(world, n, ws)
  }

  ghost predicate OthersMark(world: World, n: nat, ws: Workers) {
    OnlyMarks(ws, world.others(n + 1, ws), world.markClock(n), world.pickClock(n + 1))
  }

  ghost predicate Calm(world: World) {
    forall n: nat :: CalmAt(world, n)
  }

  lemma {:induction false} ClockRises(world: World, m: nat, n: nat)
    requires Calm(world) && m <= n
    ensures world.pickClock(m) <= world.pickClock(n) && world.markClock(m) <= world.markClock(n)
    ensures world.pickClock(n) <= world.markClock(n)
    decreases n
  {
    hide OnlyMarks;
    assert CalmAt(world, n);
    if m < n {
      ClockRises(world, m, n - 1);
      assert CalmAt(world, n - 1);
    }
  }

  /** What a trace says about one attempt. */
  lemma TraceAt(roundRobin: bool, queue: string, world: World, attempts: seq<Attempt>,
                workers: Workers, cursors: map<string, nat>, n: nat)
    requires Trace(roundRobin, queue, world, attempts, workers, cursors) && n < |attempts|
    ensures Honest(roundRobin, queue, world, attempts[n], n)
    ensures attempts[n].pickedAt == world.pickClock(n + 1) && attempts[n].markedAt == world.markClock(n + 1)
    ensures attempts[n].worker.id in attempts[n].seen
    ensures attempts[n].seen == world.others(n + 1, if n == 0 then workers else attempts[n - 1].Left())
  {
    hide Picks;
    var a := attempts[n];
    assert Chained(world, attempts, workers, cursors, n);
    PickNone(roundRobin, a.seen, queue, a.pickedAt, a.cursors, Some(a.worker), a.after);
    if n > 0 {
      assert attempts[..n][n - 1] == attempts[n - 1];
    }
  }

  /** In a calm world the attempts of one dispatch form a failover chain. */
  lemma TraceIsFailover(roundRobin: bool, queue: string, world: World, attempts: seq<Attempt>,
                        workers: Workers, cursors: map<string, nat>)
    requires Trace(roundRobin, queue, world, attempts, workers, cursors) && Calm(world)
    requires forall n :: 0 <= n < |attempts| - 1 ==> attempts[n].outcome.retryable
    ensures Failover(attempts)
  {
    hide Trace, Honest, OnlyMarks;
    forall n | 0 <= n < |attempts| - 1 ensures Follows(attempts[n], attempts[n + 1]) {
      TraceAt(roundRobin, queue, world, attempts, workers, cursors, n);
      TraceAt(roundRobin, queue, world, attempts, workers, cursors, n + 1);
      assert CalmAt(world, n + 1);
      assert OthersMark(world, n + 1, attempts[n].Left());
    }
  }

  /** A whole dispatch left alone by other threads, with nobody cooling down at its start and every pick
      within five seconds of the first failure: as long as some candidate is untried, the next attempt is to one. */
  lemma UndisturbedFailover(roundRobin: bool, queue: string, world: World, attempts: seq<Attempt>,
                            workers: Workers, cursors: map<string, nat>, i: nat, j: nat, x: string)
    requires Trace(roundRobin, queue, world, attempts, workers, cursors) && Calm(world)
    requires forall n, ws :: world.others(n, ws) == ws
    requires forall n :: 0 <= n < |attempts| - 1 ==> attempts[n].outcome.retryable
    requires forall id <- workers :: !workers[id].IsCoolingDown(world.pickClock(1))
    requires i < j < |attempts| && attempts[j].pickedAt < attempts[0].markedAt + COOLDOWN
    requires x in Candidates(attempts[j].seen, queue, attempts[j].pickedAt, true)
    requires forall n :: 0 <= n < j ==> attempts[n].worker.id != x
    ensures attempts[i].worker.id != attempts[j].worker.id
  {
    hide Trace, Honest, Failover, Calm, Candidates;
    TraceIsFailover(roundRobin, queue, world, attempts, workers, cursors);
    forall n | 0 <= n < j ensures attempts[n + 1].seen == attempts[n].Left() {
      TraceAt(roundRobin, queue, world, attempts, workers, cursors, n + 1);
    }
    TraceAt(roundRobin, queue, world, attempts, workers, cursors, 0);
    TraceAt(roundRobin, queue, world, attempts, workers, cursors, i);
    TraceAt(roundRobin, queue, world, attempts, workers, cursors, j);
    ClockRises(world, 1, j + 1);
    ClockRises(world, 1, i + 1);
    if attempts[i].worker.id == attempts[j].worker.id {
      DistinctUntilAllTried(roundRobin, queue, world, attempts, i, j);
      assert false;
    }
  }
}
