/** Choosing a worker for a queue (server/src/worker/worker_info.h, worker_selector.cpp).
    Clock readings are parameters, in nanoseconds; one reading serves a whole pick. */
module WorkerSelection {
  import opened TaskCommon

  const SECOND := 1_000_000_000
  const MILLISECOND := 1_000_000

  datatype WorkerInfo = WorkerInfo(
    id: string,
    host: string,
    port: int,
    queues: seq<string>,
    runningTasks: int,
    lastHeartbeat: int,
    maxRunningTasks: int,
    dispatchCooldownUntil: int)
  {
    predicate IsAlive(now: int) { now - lastHeartbeat < 10 * SECOND }
    predicate IsFull() { runningTasks >= maxRunningTasks }
    predicate IsCoolingDown(now: int) { now < dispatchCooldownUntil }
  }

  type Workers = map<string, WorkerInfo>

  /** Every record is filed under its own id. */
  ghost predicate Keyed(workers: Workers) {
    forall id <- workers :: workers[id].id == id
  }

  /* ---- the order of ids ---- */

  /** Lexicographic, as `std::string::operator<`. */
  predicate Less(a: string, b: string) {
    if b == "" then false
    else if a == "" then true
    else if a[0] != b[0] then a[0] < b[0]
    else Less(a[1..], b[1..])
  }

  lemma {:induction false} LessTotal(a: string, b: string)
    ensures (if Less(a, b) then 1 else 0) + (if Less(b, a) then 1 else 0) + (if a == b then 1 else 0) == 1
  {
    if a != "" && b != "" && a[0] == b[0] {
      LessTotal(a[1..], b[1..]);
      assert a == b <==> a[1..] == b[1..] by {
        assert a == [a[0]] + a[1..] && b == [b[0]] + b[1..];
      }
    }
  }

  lemma {:induction false} LessTransitive(a: string, b: string, c: string)
    requires Less(a, b) && Less(b, c)
    ensures Less(a, c)
  {
    if a != "" && a[0] == b[0] && b[0] == c[0] {
      LessTransitive(a[1..], b[1..], c[1..]);
    }
  }

  /** The order of a dictionary: at the first difference the smaller character decides, and a prefix comes first. */
  lemma {:induction false} LessMeaning(a: string, b: string)
    ensures Less(a, b) <==>
              exists k :: 0 <= k <= |a| && k < |b| && a[..k] == b[..k] && (k == |a| || a[k] < b[k])
  {
    if a != "" && b != "" && a[0] == b[0] {
      LessMeaning(a[1..], b[1..]);
      var c, d := a[1..], b[1..];
      if k :| 0 <= k <= |c| && k < |d| && c[..k] == d[..k] && (k == |c| || c[k] < d[k]) {
        assert a[..k + 1] == [a[0]] + a[1..][..k] && b[..k + 1] == [b[0]] + b[1..][..k];
      }
      if k :| 0 <= k <= |a| && k < |b| && a[..k] == b[..k] && (k == |a| || a[k] < b[k]) {
        assert k > 0;
        assert a[1..][..k - 1] == a[..k][1..] && b[1..][..k - 1] == b[..k][1..];
      }
    } else if b != "" {
      assert a[..0] == b[..0];
      forall k | 0 <= k <= |a| && k < |b| && a[..k] == b[..k] ensures k == 0 || a[0] == b[0] {
        SameHead(a, b, k);
      }
    }
  }

  lemma SameHead(a: string, b: string, k: nat)
    requires k <= |a| && k < |b| && a[..k] == b[..k]
    ensures k == 0 || a[0] == b[0]
  {
    if k > 0 {
      assert a[..k][0] == a[0] && b[..k][0] == b[0];
    }
  }

  predicate IsLeast(m: string, ids: set<string>) {
    m in ids && forall x <- ids :: x == m || Less(m, x)
  }

  lemma {:induction false} LeastExists(ids: set<string>) returns (m: string)
    requires ids != {}
    ensures IsLeast(m, ids)
    decreases |ids|
  {
    hide Less;
    var x :| x in ids;
    m := x;
    if ids - {x} == {} {
      assert ids == {x};
    } else {
      var n := LeastExists(ids - {x});
      LessTotal(x, n);
      if Less(n, x) {
        m := n;
        forall y <- ids ensures y == n || Less(n, y) {
          assert y == x || y in ids - {x};
        }
      } else {
        forall y <- ids ensures y == x || Less(x, y) {
          if y != x && y != n {
            LessTransitive(x, n, y);
          }
        }
      }
    }
  }

  lemma LeastUnique(ids: set<string>, m: string, n: string)
    requires IsLeast(m, ids) && IsLeast(n, ids)
    ensures m == n
  {
    LessTotal(m, n);
  }

  lemma LeastFacts(ids: set<string>)
    requires ids != {}
    ensures exists m :: IsLeast(m, ids)
    ensures forall m, n :: IsLeast(m, ids) && IsLeast(n, ids) ==> m == n
  {
    var m := LeastExists(ids);
    forall m, n | IsLeast(m, ids) && IsLeast(n, ids) ensures m == n {
      LeastUnique(ids, m, n);
    }
  }

  function Least(ids: set<string>): (m: string)
    requires ids != {}
    ensures IsLeast(m, ids)
  {
    LeastFacts(ids);
    var m :| IsLeast(m, ids);
    m
  }

  /** The ids in increasing order: what sorting them must give. */
  function Sorted(ids: set<string>): (r: seq<string>)
    decreases |ids|
  {
    if ids == {} then [] else [Least(ids)] + Sorted(ids - {Least(ids)})
  }

  lemma {:induction false} SortedMeaning(ids: set<string>)
    ensures |Sorted(ids)| == |ids|
    ensures forall x :: x in Sorted(ids) <==> x in ids
    ensures forall i, j :: 0 <= i < j < |ids| ==> Less(Sorted(ids)[i], Sorted(ids)[j])
    ensures forall i, j :: 0 <= i < j < |ids| ==> Sorted(ids)[i] != Sorted(ids)[j]
    decreases |ids|
  {
    hide Less;
    if ids != {} {
      var m := Least(ids);
      var rest := ids - {m};
      SortedMeaning(rest);
      assert Sorted(ids) == [m] + Sorted(rest);
      forall i, j | 0 <= i < j < |ids|
        ensures Less(Sorted(ids)[i], Sorted(ids)[j]) && Sorted(ids)[i] != Sorted(ids)[j]
      {
        assert Sorted(ids)[j] == Sorted(rest)[j - 1];
        assert Sorted(rest)[j - 1] in rest;
      }
    }
  }

  /* ---- candidates ---- */

  predicate QueueMatch(w: WorkerInfo, queue: string) {
    if queue == "" then true
    else if w.queues == [] then queue == "default"
    else queue in w.queues
  }

  predicate Eligible(w: WorkerInfo, queue: string, now: int, includeCoolingDown: bool) {
    w.IsAlive(now) && QueueMatch(w, queue) && !w.IsFull() && (includeCoolingDown || !w.IsCoolingDown(now))
  }

  function Candidates(workers: Workers, queue: string, now: int, includeCoolingDown: bool): set<string> {
    set id <- workers | Eligible(workers[id], queue, now, includeCoolingDown)
  }

  /** Who a pick chooses among: the candidates out of cooldown, or all of them if there are none. */
  function Pool(workers: Workers, queue: string, now: int): set<string> {
    var rested := Candidates(workers, queue, now, false);
    if rested != {} then rested else Candidates(workers, queue, now, true)
  }

  /** Told by the record: alive within the last ten seconds, with room for a task, and serving the queue. A worker
      without queues serves "default", and every worker serves the empty name. */
  predicate Serves(w: WorkerInfo, queue: string, now: int) {
    now - w.lastHeartbeat < 10_000_000_000 && w.runningTasks < w.maxRunningTasks &&
    (queue == "" || queue in w.queues || (w.queues == [] && queue == "default"))
  }

  /** A pick chooses among the workers that serve the queue and are not cooling down, or among all that serve it if they
      all are. */
  lemma PoolMeaning(workers: Workers, queue: string, now: int)
    ensures forall id :: id in Pool(workers, queue, now) <==>
              id in workers && Serves(workers[id], queue, now) &&
              (workers[id].dispatchCooldownUntil <= now ||
               forall x <- workers :: Serves(workers[x], queue, now) ==> now < workers[x].dispatchCooldownUntil)
  {
    var rested, all := Candidates(workers, queue, now, false), Candidates(workers, queue, now, true);
    forall id | id in workers
      ensures id in all <==> Serves(workers[id], queue, now)
      ensures id in rested <==> Serves(workers[id], queue, now) && workers[id].dispatchCooldownUntil <= now
    {
    }
    hide Eligible, Serves, Candidates;
  }

  /** So it finds nobody exactly when nobody serves the queue. */
  lemma PoolEmpty(workers: Workers, queue: string, now: int)
    ensures Pool(workers, queue, now) == {} <==> forall id <- workers :: !Serves(workers[id], queue, now)
  {
    hide Pool, Serves;
    PoolMeaning(workers, queue, now);
    if id :| id in workers && Serves(workers[id], queue, now) {
      if x :| x in workers && Serves(workers[x], queue, now) && workers[x].dispatchCooldownUntil <= now {
        assert x in Pool(workers, queue, now);
      } else {
        assert id in Pool(workers, queue, now);
      }
    }
  }

  /** The loop of `collect_candidates`; the map is visited in any order. */
  method CollectCandidates(workers: Workers, queue: string, now: int, includeCoolingDown: bool)
    returns (candidates: set<string>)
    ensures candidates == Candidates(workers, queue, now, includeCoolingDown)
  {
    hide Eligible;
    candidates := {};
    var todo := workers.Keys;
    while todo != {}
      invariant todo <= workers.Keys
      invariant candidates == set id <- workers | id !in todo && Eligible(workers[id], queue, now, includeCoolingDown)
      decreases |todo|
    {
      var id :| id in todo;
      todo := todo - {id};
      if Eligible(workers[id], queue, now, includeCoolingDown) {
        candidates := candidates + {id};
      }
    }
  }

  method CollectPool(workers: Workers, queue: string, now: int) returns (candidates: set<string>)
    ensures candidates == Pool(workers, queue, now)
  {
    candidates := CollectCandidates(workers, queue, now, false);
    if candidates == {} {
      candidates := CollectCandidates(workers, queue, now, true);
    }
  }

  /** A pool member that is cooling down shows that every candidate is. */
  lemma CoolingPick(workers: Workers, queue: string, now: int, id: string)
    requires id in Pool(workers, queue, now) && workers[id].IsCoolingDown(now)
    ensures forall x <- Candidates(workers, queue, now, true) :: workers[x].IsCoolingDown(now)
  {
    assert Candidates(workers, queue, now, false) == {};
    forall x <- Candidates(workers, queue, now, true) ensures workers[x].IsCoolingDown(now) {
      assert x in Candidates(workers, queue, now, false) <==> !workers[x].IsCoolingDown(now);
    }
  }

  /* ---- least load ---- */

  /** `a` is preferred to `b`: fewer running tasks, then the smaller id. */
  predicate Lighter(a: WorkerInfo, b: WorkerInfo) {
    a.runningTasks < b.runningTasks || (a.runningTasks == b.runningTasks && Less(a.id, b.id))
  }

  lemma LighterTransitive(a: WorkerInfo, b: WorkerInfo, c: WorkerInfo)
    requires Lighter(a, b) && Lighter(b, c)
    ensures Lighter(a, c)
  {
    hide Less;
    if Less(a.id, b.id) && Less(b.id, c.id) {
      LessTransitive(a.id, b.id, c.id);
    }
  }

  ghost predicate IsLightest(workers: Workers, pool: set<string>, w: WorkerInfo) {
    w.id in pool && w.id in workers && workers[w.id] == w &&
    forall x <- pool :: x in workers && (x == w.id || Lighter(w, workers[x]))
  }

  /** The preferred worker is unique, so the order in which the map is visited does not matter. */
  lemma LightestUnique(workers: Workers, pool: set<string>, v: WorkerInfo, w: WorkerInfo)
    requires Keyed(workers) && IsLightest(workers, pool, v) && IsLightest(workers, pool, w)
    ensures v == w
  {
    LessTotal(v.id, w.id);
  }

  /** One turn of the search. */
  lemma LightestStep(workers: Workers, seen: set<string>, best: WorkerInfo, id: string)
    requires Keyed(workers) && IsLightest(workers, seen, best) && id in workers && id !in seen
    ensures Lighter(workers[id], best) ==> IsLightest(workers, seen + {id}, workers[id])
    ensures !Lighter(workers[id], best) ==> IsLightest(workers, seen + {id}, best)
  {
    hide Lighter;
    var info := workers[id];
    Prefer(best, info);
    if Lighter(info, best) {
      forall x <- seen ensures Lighter(info, workers[x]) {
        if x != best.id {
          LighterTransitive(info, best, workers[x]);
        }
      }
    }
  }

  lemma LightestFirst(workers: Workers, id: string)
    requires Keyed(workers) && id in workers
    ensures IsLightest(workers, {id}, workers[id])
  {
  }

  /** `LeastLoadSelector::pick`. */
  method LeastLoadPick(workers: Workers, queue: string, now: int) returns (r: Option<WorkerInfo>)
    requires Keyed(workers)
    ensures r.None? <==> forall id <- workers :: !Serves(workers[id], queue, now)
    ensures r.None? <==> Pool(workers, queue, now) == {}
    ensures r.Some? ==> IsLightest(workers, Pool(workers, queue, now), r.value) && Serves(r.value, queue, now)
  {
    hide Less, Lighter, Pool, IsLightest, Serves;
    PoolEmpty(workers, queue, now);
    var pool := CollectPool(workers, queue, now);
    PoolKnown(workers, queue, now);
    var todo := pool;
    ghost var seen: set<string> := {};
    r := None;
    while todo != {}
      invariant seen + todo == pool && seen !! todo
      invariant r.None? <==> seen == {}
      invariant r.Some? ==> IsLightest(workers, seen, r.value)
      decreases |todo|
    {
      var id :| id in todo;
      var info := workers[id];
      if r.None? {
        LightestFirst(workers, id);
        assert seen + {id} == {id};
        r := Some(info);
      } else {
        Prefer(r.value, info);
        LightestStep(workers, seen, r.value, id);
        if info.runningTasks < r.value.runningTasks ||
           (info.runningTasks == r.value.runningTasks && Less(info.id, r.value.id)) {
          r := Some(info);
        }
      }
      MoveOne(seen, todo, id);
      todo, seen := todo - {id}, seen + {id};
    }
    assert seen + {} == seen;
    if r.Some? {
      LightestServes(workers, queue, now, r.value);
    }
  }

  lemma LightestServes(workers: Workers, queue: string, now: int, w: WorkerInfo)
    requires IsLightest(workers, Pool(workers, queue, now), w)
    ensures Serves(w, queue, now)
  {
    hide Pool, Lighter, Serves;
    PoolMeaning(workers, queue, now);
  }

  lemma MoveOne(seen: set<string>, todo: set<string>, id: string)
    requires id in todo && seen !! todo
    ensures (seen + {id}) + (todo - {id}) == seen + todo && (seen + {id}) !! (todo - {id})
    ensures |todo - {id}| < |todo| && seen + {id} != {}
  {
  }

  lemma Prefer(a: WorkerInfo, b: WorkerInfo)
    ensures Lighter(b, a) <==> b.runningTasks < a.runningTasks || (b.runningTasks == a.runningTasks && Less(b.id, a.id))
    ensures a.id != b.id && !Lighter(b, a) ==> Lighter(a, b)
  {
    LessTotal(a.id, b.id);
  }

  lemma PoolKnown(workers: Workers, queue: string, now: int)
    ensures forall id <- Pool(workers, queue, now) :: id in workers
  {
  }

  /* ---- round robin ---- */

  /** Which candidate a stored cursor means, out of `k`. */
  function Clamp(cursor: nat, k: nat): (i: nat)
    requires k > 0
    ensures i < k
  {
    if cursor >= k then 0 else cursor
  }

  class RoundRobinSelector {
    var queueIndex: map<string, nat>

    constructor ()
      ensures queueIndex == map[]
    {
      queueIndex := map[];
    }

    function Cursor(queue: string): nat
      reads this
    {
      if queue in queueIndex then queueIndex[queue] else 0
    }

    /** `RoundRobinSelector::pick`. */
    method Pick(workers: Workers, queue: string, now: int) returns (r: Option<WorkerInfo>)
      requires Keyed(workers)
      modifies this
      ensures Pool(workers, queue, now) == {} ==> r.None? && queueIndex == old(queueIndex)
      ensures Pool(workers, queue, now) != {} ==>
                r.Some? && r.value.id in workers && r.value == workers[r.value.id] && Serves(r.value, queue, now) &&
                (r.value.id, Cursor(queue)) == Turn(Pool(workers, queue, now), old(Cursor(queue))) &&
                queueIndex == old(queueIndex)[queue := Cursor(queue)]
    {
      hide Pool, Sorted, Serves;
      PoolMeaning(workers, queue, now);
      var candidates := CollectPool(workers, queue, now);
      if candidates == {} {
        return None;
      }
      PoolKnown(workers, queue, now);
      SortedMeaning(candidates);
      var sorted := Sorted(candidates);
      var cursor := Cursor(queue);
      if cursor >= |sorted| {
        cursor := 0;
      }
      queueIndex := queueIndex[queue := (cursor + 1) % |sorted|];
      assert sorted[cursor] in candidates;
      return Some(workers[sorted[cursor]]);
    }
  }

  /** One pick, as a function: the id taken and the next cursor. */
  function Turn(pool: set<string>, cursor: nat): (r: (string, nat))
    requires pool != {}
  {
    SortedMeaning(pool);
    var i := Clamp(cursor, |pool|);
    (Sorted(pool)[i], (i + 1) % |pool|)
  }

  /** The ids taken by `n` picks in a row from an unchanging pool. */
  function Turns(pool: set<string>, cursor: nat, n: nat): seq<string>
    requires pool != {}
    decreases n
  {
    if n == 0 then []
    else [Turn(pool, cursor).0] + Turns(pool, Turn(pool, cursor).1, n - 1)
  }

  /** `j` places after `i` on a ring of `k`, for one round at most. */
  function Around(i: nat, j: nat, k: nat): (r: nat)
    requires i < k && j <= k
    ensures r < k
  {
    if i + j < k then i + j else i + j - k
  }

  lemma NextAround(i: nat, k: nat)
    requires i < k
    ensures (i + 1) % k == Around(i, 1, k)
  {
  }

  lemma {:induction false} TurnAt(pool: set<string>, cursor: nat, n: nat, j: nat)
    requires pool != {} && j < n <= |pool|
    ensures |Turns(pool, cursor, n)| == n && |Sorted(pool)| == |pool|
    ensures Turns(pool, cursor, n)[j] == Sorted(pool)[Around(Clamp(cursor, |pool|), j, |pool|)]
    decreases n
  {
    hide Sorted, Turns;
    var k := |pool|;
    SortedMeaning(pool);
    TurnsUnfold(pool, cursor, n);
    var i := Clamp(cursor, k);
    var next := Turn(pool, cursor).1;
    NextAround(i, k);
    TurnsCount(pool, next, n - 1);
    var later := Turns(pool, next, n - 1);
    assert Turns(pool, cursor, n) == [Sorted(pool)[i]] + later;
    if j > 0 {
      TurnAt(pool, next, n - 1, j - 1);
      assert Turns(pool, cursor, n)[j] == later[j - 1];
      assert Around(next, j - 1, k) == Around(i, j, k);
    }
  }

  lemma TurnsUnfold(pool: set<string>, cursor: nat, n: nat)
    requires pool != {} && n > 0
    ensures Turns(pool, cursor, n) == [Turn(pool, cursor).0] + Turns(pool, Turn(pool, cursor).1, n - 1)
  {
    hide Turn;
  }

  lemma {:induction false} TurnsCount(pool: set<string>, cursor: nat, n: nat)
    requires pool != {}
    ensures |Turns(pool, cursor, n)| == n
    decreases n
  {
    hide Turn;
    if n > 0 {
      TurnsCount(pool, Turn(pool, cursor).1, n - 1);
    }
  }

  /** From any stored cursor, as many picks as there are candidates take each of them exactly once. */
  lemma RoundRobinFair(pool: set<string>, cursor: nat)
    requires pool != {}
    ensures var picked := Turns(pool, cursor, |pool|);
            |picked| == |pool| &&
            (forall i, j :: 0 <= i < j < |picked| ==> picked[i] != picked[j]) &&
            (forall x :: x in picked <==> x in pool)
  {
    hide Turns, Sorted;
    var k := |pool|;
    var c := Clamp(cursor, k);
    var picked := Turns(pool, cursor, k);
    TurnsCount(pool, cursor, k);
    SortedMeaning(pool);
    forall j | 0 <= j < k ensures picked[j] == Sorted(pool)[Around(c, j, k)] {
      TurnAt(pool, cursor, k, j);
    }
    forall x | x in pool ensures x in picked {
      var n :| 0 <= n < k && Sorted(pool)[n] == x;
      var j := if n >= c then n - c else n - c + k;
      assert picked[j] == x;
    }
  }

  /* ---- pruning ---- */

  /** Dead, and for longer than `pruneAfter` whole milliseconds. */
  predicate Prunable(w: WorkerInfo, now: int, pruneAfter: int) {
    !w.IsAlive(now) && (now - w.lastHeartbeat) / MILLISECOND > pruneAfter
  }

  function Pruned(workers: Workers, now: int, pruneAfter: int): Workers {
    map id <- workers | !Prunable(workers[id], now, pruneAfter) :: workers[id]
  }

  /** Pruning removes no candidate, so at the same clock reading both selectors pick as before. */
  lemma PruningKeepsPool(workers: Workers, queue: string, now: int, pruneAfter: int)
    ensures Pool(Pruned(workers, now, pruneAfter), queue, now) == Pool(workers, queue, now)
    ensures forall id <- Pool(workers, queue, now) ::
              id in Pruned(workers, now, pruneAfter) && Pruned(workers, now, pruneAfter)[id] == workers[id]
  {
    var rest := Pruned(workers, now, pruneAfter);
    forall cooling ensures Candidates(rest, queue, now, cooling) == Candidates(workers, queue, now, cooling) {
    }
    assert Candidates(rest, queue, now, false) == Candidates(workers, queue, now, false);
    assert Candidates(rest, queue, now, true) == Candidates(workers, queue, now, true);
  }

  lemma PruningKeepsLightest(workers: Workers, queue: string, now: int, pruneAfter: int, w: WorkerInfo)
    ensures IsLightest(workers, Pool(workers, queue, now), w) <==>
            IsLightest(Pruned(workers, now, pruneAfter), Pool(Pruned(workers, now, pruneAfter), queue, now), w)
  {
    hide Pool, Pruned, Lighter;
    PruningKeepsPool(workers, queue, now, pruneAfter);
    PoolKnown(workers, queue, now);
  }
}
