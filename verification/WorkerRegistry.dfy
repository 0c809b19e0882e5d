/** The master's table of workers (server/src/worker/server_worker_registry.cpp). */
module WorkerRegistry {
  import opened TaskCommon
  import opened WorkerSelection

  /** What one pick may return, and the round-robin cursors it leaves. */
  ghost predicate Picks(roundRobin: bool, workers: Workers, queue: string, now: int,
                        cursors: map<string, nat>, r: Option<WorkerInfo>, after: map<string, nat>)
  {
    var pool := Pool(workers, queue, now);
    if pool == {} then r.None? && after == cursors
    else
      r.Some? && r.value.id in workers && workers[r.value.id] == r.value &&
      if roundRobin then
        var turn := Turn(pool, if queue in cursors then cursors[queue] else 0);
        r.value.id == turn.0 && after == cursors[queue := turn.1]
      else IsLightest(workers, pool, r.value) && after == cursors
  }

  /** Either selector picks from the pool. */
  lemma PickIsPooled(roundRobin: bool, workers: Workers, queue: string, now: int,
                     cursors: map<string, nat>, r: Option<WorkerInfo>, after: map<string, nat>)
    requires Picks(roundRobin, workers, queue, now, cursors, r, after) && r.Some?
    ensures r.value.id in Pool(workers, queue, now) && Serves(r.value, queue, now)
  {
    hide Pool, Sorted, Serves;
    PoolMeaning(workers, queue, now);
    var pool := Pool(workers, queue, now);
    if roundRobin {
      SortedMeaning(pool);
    }
  }

  /** A pick is determined by the table, the clock and the cursor. */
  lemma PicksUnique(roundRobin: bool, workers: Workers, queue: string, now: int, cursors: map<string, nat>,
                    r: Option<WorkerInfo>, after: map<string, nat>, r': Option<WorkerInfo>, after': map<string, nat>)
    requires Keyed(workers)
    requires Picks(roundRobin, workers, queue, now, cursors, r, after)
    requires Picks(roundRobin, workers, queue, now, cursors, r', after')
    ensures r == r' && after == after'
  {
    hide Pool, Turn, IsLightest;
    if Pool(workers, queue, now) != {} && !roundRobin {
      LightestUnique(workers, Pool(workers, queue, now), r.value, r'.value);
    }
  }

  /** Pruning at the clock reading of the pick changes no pick of either selector. */
  lemma PruningKeepsPicks(roundRobin: bool, workers: Workers, queue: string, now: int, pruneAfter: int,
                          cursors: map<string, nat>, r: Option<WorkerInfo>, after: map<string, nat>)
    ensures Picks(roundRobin, workers, queue, now, cursors, r, after) <==>
            Picks(roundRobin, Pruned(workers, now, pruneAfter), queue, now, cursors, r, after)
  {
    hide Pool, Turn, IsLightest, Pruned;
    var rest := Pruned(workers, now, pruneAfter);
    PruningKeepsPool(workers, queue, now, pruneAfter);
    if r.Some? {
      PruningKeepsLightest(workers, queue, now, pruneAfter, r.value);
      if Picks(roundRobin, workers, queue, now, cursors, r, after) {
        PickIsPooled(roundRobin, workers, queue, now, cursors, r, after);
      }
      if Picks(roundRobin, rest, queue, now, cursors, r, after) {
        PickIsPooled(roundRobin, rest, queue, now, cursors, r, after);
        PoolKnown(workers, queue, now);
      }
    }
  }

  function Marked(workers: Workers, id: string, until: int): Workers {
    if id in workers then workers[id := workers[id].(dispatchCooldownUntil := until)] else workers
  }

  class ServerWorkerRegistry {
    var workers: Workers
    const roundRobin: bool
    const selector: RoundRobinSelector

    ghost predicate Valid()
      reads this
    {
      Keyed(workers)
    }

    constructor (roundRobin: bool)
      ensures Valid() && workers == map[] && this.roundRobin == roundRobin
      ensures fresh(selector) && selector.queueIndex == map[]
    {
      this.roundRobin := roundRobin;
      workers := map[];
      selector := new RoundRobinSelector();
    }

    /** Registering counts as a heartbeat and replaces the whole record. */
    method UpsertWorker(info: WorkerInfo, now: int)
      requires Valid()
      modifies this
      ensures Valid() && workers == old(workers)[info.id := info.(lastHeartbeat := now)]
    {
      workers := workers[info.id := info.(lastHeartbeat := now)];
    }

    method RemoveWorker(id: string)
      requires Valid()
      modifies this
      ensures Valid() && workers == old(workers) - {id}
    {
      workers := workers - {id};
    }

    method TouchHeartbeat(id: string, runningTasks: int, now: int) returns (found: bool)
      requires Valid()
      modifies this
      ensures Valid() && (found <==> id in old(workers))
      ensures workers == if found
                         then old(workers)[id := old(workers)[id].(lastHeartbeat := now, runningTasks := runningTasks)]
                         else old(workers)
    {
      if id !in workers {
        return false;
      }
      workers := workers[id := workers[id].(lastHeartbeat := now, runningTasks := runningTasks)];
      return true;
    }

    method MarkDispatchFailure(id: string, cooldown: int, now: int)
      requires Valid()
      modifies this
      ensures Valid() && workers == Marked(old(workers), id, now + cooldown)
    {
      if id !in workers {
        return;
      }
      workers := workers[id := workers[id].(dispatchCooldownUntil := now + cooldown)];
    }

    method PickWorkerForQueue(queue: string, now: int) returns (r: Option<WorkerInfo>)
      requires Valid()
      modifies selector
      ensures Picks(roundRobin, workers, queue, now, old(selector.queueIndex), r, selector.queueIndex)
    {
      hide Pool, Turn, IsLightest;
      if roundRobin {
        r := selector.Pick(workers, queue, now);
      } else {
        r := LeastLoadPick(workers, queue, now);
        LightestIsFiled(workers, queue, now);
      }
    }

    method PruneDeadWorkers(pruneAfter: int, now: int)
      requires Valid()
      modifies this
      ensures Valid() && workers == Pruned(old(workers), now, pruneAfter)
      ensures forall id <- old(workers) :: id !in workers <==>
                var silent := now - old(workers)[id].lastHeartbeat;
                silent >= 10_000_000_000 && silent / 1_000_000 > pruneAfter
    {
      hide Prunable;
      ghost var before := workers;
      var todo := workers.Keys;
      while todo != {}
        invariant todo <= workers.Keys
        invariant forall id :: id in workers <==> id in before && (id in todo || !Prunable(before[id], now, pruneAfter))
        invariant forall id <- workers :: workers[id] == before[id]
        decreases |todo|
      {
        var id :| id in todo;
        todo := todo - {id};
        if Prunable(workers[id], now, pruneAfter) {
          workers := workers - {id};
        }
      }
      forall id | id in before ensures id !in workers <==> Prunable(before[id], now, pruneAfter) {
      }
      PrunableMeaning(before, now, pruneAfter);
    }
  }

  lemma PrunableMeaning(workers: Workers, now: int, pruneAfter: int)
    ensures forall id <- workers :: Prunable(workers[id], now, pruneAfter) <==>
              var silent := now - workers[id].lastHeartbeat;
              silent >= 10_000_000_000 && silent / 1_000_000 > pruneAfter
  {
  }

  lemma LightestIsFiled(workers: Workers, queue: string, now: int)
    ensures forall w :: IsLightest(workers, Pool(workers, queue, now), w) ==> w.id in workers && workers[w.id] == w
  {
  }
}
