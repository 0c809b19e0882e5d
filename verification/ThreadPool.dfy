/** The pool that runs DAG nodes (server/src/dag/dag_thread_pool.cpp). `RaiseStop`, `ClearQueues`, `Retire`, `Enqueue`,
    `SpawnLocked` and `TakeJob` are single steps, between which other threads may take theirs: each keeps `Valid`,
    whatever state it finds. `Start`, `Stop`, `Post` and `MaybeSpawnWorker` string them together. */
module ThreadPool {
  import opened TaskCommon

  datatype Priority = Low | Normal | High | Critical | Unknown

  datatype Job = Job(id: nat, priority: Priority)

  /** Smaller classes go first. */
  function PriorityIndex(p: Priority): (c: nat)
    ensures c < 4
  {
    match p
    case Critical => 0
    case High => 1
    case Normal => 2
    case Low => 3
    case Unknown => 2
  }

  /* ---- specification: one list in order of arrival ---- */

  /** The jobs of class `c`, oldest first. */
  function OfClass(js: seq<Job>, c: nat): seq<Job> {
    if js == [] then []
    else (if PriorityIndex(js[0].priority) == c then [js[0]] else []) + OfClass(js[1..], c)
  }

  function FirstOf(js: seq<Job>, c: nat): (i: nat)
    requires OfClass(js, c) != []
    ensures i < |js| && PriorityIndex(js[i].priority) == c
    ensures forall k :: 0 <= k < i ==> PriorityIndex(js[k].priority) != c
  {
    if PriorityIndex(js[0].priority) == c then 0 else 1 + FirstOf(js[1..], c)
  }

  /** `i` is the place of the oldest job of the most urgent class present. */
  ghost predicate Foremost(js: seq<Job>, i: nat) {
    i < |js| &&
    (forall k :: 0 <= k < |js| ==> PriorityIndex(js[i].priority) <= PriorityIndex(js[k].priority)) &&
    (forall k :: 0 <= k < i ==> PriorityIndex(js[i].priority) < PriorityIndex(js[k].priority))
  }

  lemma ForemostUnique(js: seq<Job>, i: nat, j: nat)
    requires Foremost(js, i) && Foremost(js, j)
    ensures i == j
  {
    var a, b := PriorityIndex(js[i].priority), PriorityIndex(js[j].priority);
    assert a == b;
  }

  /** Normal and unknown priorities share a queue. */
  predicate SameGroup(p: Priority, q: Priority) {
    p == q || ((p.Normal? || p.Unknown?) && (q.Normal? || q.Unknown?))
  }

  /** Told by the priorities: `i` is the place of a Critical job if there is one, else of a High one if there is one,
      of a Low one only if there are no others; and of the oldest in its group. */
  ghost predicate MostUrgent(js: seq<Job>, i: nat) {
    i < |js| &&
    (js[i].priority.Critical? || forall k :: 0 <= k < |js| ==> !js[k].priority.Critical?) &&
    (js[i].priority.Critical? || js[i].priority.High? || forall k :: 0 <= k < |js| ==> !js[k].priority.High?) &&
    (js[i].priority.Low? ==> forall k :: 0 <= k < |js| ==> js[k].priority.Low?) &&
    (forall k :: 0 <= k < i ==> !SameGroup(js[k].priority, js[i].priority))
  }

  lemma ForemostMeaning(js: seq<Job>, i: nat)
    ensures Foremost(js, i) <==> MostUrgent(js, i)
  {
    if Foremost(js, i) {
      var c := PriorityIndex(js[i].priority);
      assert forall k :: 0 <= k < |js| ==> c <= PriorityIndex(js[k].priority);
      assert forall k :: 0 <= k < i ==> c < PriorityIndex(js[k].priority);
    }
    if MostUrgent(js, i) {
      forall k | 0 <= k < |js| ensures PriorityIndex(js[i].priority) <= PriorityIndex(js[k].priority) {
        assert js[k].priority.Critical? || js[k].priority.High? || js[k].priority.Normal? || js[k].priority.Unknown? ||
               js[k].priority.Low?;
      }
      forall k | 0 <= k < i ensures PriorityIndex(js[i].priority) < PriorityIndex(js[k].priority) {
        assert !SameGroup(js[k].priority, js[i].priority);
      }
    }
  }

  lemma MostUrgentUnique(js: seq<Job>, i: nat, j: nat)
    requires MostUrgent(js, i) && MostUrgent(js, j)
    ensures i == j
  {
    ForemostMeaning(js, i);
    ForemostMeaning(js, j);
    ForemostUnique(js, i, j);
  }

  function Without(js: seq<Job>, i: nat): seq<Job>
    requires i < |js|
  {
    js[..i] + js[i + 1..]
  }

  lemma {:induction false} OfClassSnoc(js: seq<Job>, j: Job, c: nat)
    ensures OfClass(js + [j], c) == OfClass(js, c) + (if PriorityIndex(j.priority) == c then [j] else [])
  {
    hide PriorityIndex;
    if js == [] {
      assert js + [j] == [j] + js;
      OfClassCons(j, js, c);
    } else {
      OfClassSnoc(js[1..], j, c);
      OfClassHead(js, c);
      assert js + [j] == [js[0]] + (js[1..] + [j]);
      OfClassCons(js[0], js[1..] + [j], c);
      hide OfClass;
    }
  }

  /** Removing the oldest job of class `c` pops the front of queue `c` and no other. */
  lemma {:induction false} OfClassPop(js: seq<Job>, c: nat, d: nat)
    requires OfClass(js, c) != []
    ensures js[FirstOf(js, c)] == OfClass(js, c)[0]
    ensures OfClass(Without(js, FirstOf(js, c)), d) == if d == c then OfClass(js, c)[1..] else OfClass(js, d)
  {
    hide PriorityIndex, OfClass, FirstOf, Without;
    FirstOfHead(js, c);
    OfClassHead(js, c);
    OfClassHead(js, d);
    if PriorityIndex(js[0].priority) == c {
      WithoutHead(js);
    } else {
      var i := FirstOf(js[1..], c);
      OfClassPop(js[1..], c, d);
      WithoutCons(js, i + 1);
      OfClassCons(js[0], Without(js[1..], i), d);
    }
  }

  lemma FirstOfHead(js: seq<Job>, c: nat)
    requires OfClass(js, c) != []
    ensures js != []
    ensures PriorityIndex(js[0].priority) == c ==> FirstOf(js, c) == 0
    ensures PriorityIndex(js[0].priority) != c ==>
              OfClass(js[1..], c) != [] && FirstOf(js, c) == 1 + FirstOf(js[1..], c)
  {
    hide PriorityIndex;
  }

  lemma WithoutHead(js: seq<Job>)
    requires js != []
    ensures Without(js, 0) == js[1..]
  {
  }

  lemma WithoutCons(js: seq<Job>, i: nat)
    requires 0 < i < |js|
    ensures Without(js, i) == [js[0]] + Without(js[1..], i - 1)
  {
    var a, b := Without(js, i), [js[0]] + Without(js[1..], i - 1);
    assert |a| == |b| && forall k :: 0 <= k < |a| ==> a[k] == b[k];
  }

  lemma OfClassHead(js: seq<Job>, c: nat)
    requires js != []
    ensures OfClass(js, c) == (if PriorityIndex(js[0].priority) == c then [js[0]] else []) + OfClass(js[1..], c)
    ensures PriorityIndex(js[0].priority) == c ==> OfClass(js, c)[1..] == OfClass(js[1..], c)
  {
    hide PriorityIndex;
  }

  lemma OfClassCons(j: Job, js: seq<Job>, c: nat)
    ensures OfClass([j] + js, c) == (if PriorityIndex(j.priority) == c then [j] else []) + OfClass(js, c)
  {
    assert ([j] + js)[1..] == js;
  }

  lemma {:induction false} OfClassEmpty(js: seq<Job>, c: nat, k: nat)
    requires OfClass(js, c) == [] && k < |js|
    ensures PriorityIndex(js[k].priority) != c
  {
    if k > 0 {
      OfClassEmpty(js[1..], c, k - 1);
    }
  }

  /** The first job of the first non-empty queue is the foremost of the list. */
  lemma FrontIsForemost(js: seq<Job>, c: nat)
    requires OfClass(js, c) != [] && forall d :: 0 <= d < c ==> OfClass(js, d) == []
    ensures Foremost(js, FirstOf(js, c))
  {
    forall k | 0 <= k < |js| ensures PriorityIndex(js[k].priority) >= c {
      if PriorityIndex(js[k].priority) < c {
        OfClassEmpty(js, PriorityIndex(js[k].priority), k);
      }
    }
  }

  /** Every accepted job is waiting, taken or discarded, and only one of these. */
  ghost predicate Accounted(accepted: seq<Job>, pending: seq<Job>, taken: seq<Job>, discarded: seq<Job>) {
    multiset(accepted) == multiset(pending) + multiset(taken) + multiset(discarded)
  }

  lemma AccountDrop(a: seq<Job>, p: seq<Job>, t: seq<Job>, d: seq<Job>)
    requires Accounted(a, p, t, d)
    ensures Accounted(a, [], t, d + p)
  {
  }

  lemma AccountPost(a: seq<Job>, p: seq<Job>, t: seq<Job>, d: seq<Job>, j: Job)
    requires Accounted(a, p, t, d)
    ensures Accounted(a + [j], p + [j], t, d)
  {
  }

  lemma AccountTake(a: seq<Job>, p: seq<Job>, t: seq<Job>, d: seq<Job>, i: nat)
    requires Accounted(a, p, t, d) && i < |p|
    ensures Accounted(a, Without(p, i), t + [p[i]], d)
  {
    assert p == p[..i] + [p[i]] + p[i + 1..];
  }

  /** The four queues hold the list, class by class. */
  ghost predicate Queued(queues: seq<seq<Job>>, pending: seq<Job>) {
    |queues| == 4 && forall c :: 0 <= c < 4 ==> queues[c] == OfClass(pending, c)
  }

  lemma QueuedNone()
    ensures Queued([[], [], [], []], [])
  {
  }

  lemma QueuedPost(queues: seq<seq<Job>>, pending: seq<Job>, j: Job)
    requires Queued(queues, pending)
    ensures |queues| == 4
    ensures var c := PriorityIndex(j.priority); Queued(queues[c := queues[c] + [j]], pending + [j])
  {
    hide OfClass;
    forall c | 0 <= c < 4
      ensures OfClass(pending + [j], c) == OfClass(pending, c) + (if PriorityIndex(j.priority) == c then [j] else [])
    {
      OfClassSnoc(pending, j, c);
    }
  }

  /** Taking from the front of the first non-empty queue. */
  lemma QueuedTake(queues: seq<seq<Job>>, pending: seq<Job>, c: nat) returns (i: nat)
    requires Queued(queues, pending) && c < 4 && queues[c] != [] && forall d :: 0 <= d < c ==> queues[d] == []
    ensures Foremost(pending, i) && pending[i] == queues[c][0]
    ensures Queued(queues[c := queues[c][1..]], Without(pending, i))
  {
    hide OfClass, FirstOf;
    i := FirstOf(pending, c);
    FrontIsForemost(pending, c);
    forall d | 0 <= d < 4
      ensures pending[i] == OfClass(pending, c)[0]
      ensures OfClass(Without(pending, i), d) == if d == c then OfClass(pending, c)[1..] else OfClass(pending, d)
    {
      OfClassPop(pending, c, d);
    }
  }

  lemma QueuedEmpty(queues: seq<seq<Job>>, pending: seq<Job>)
    requires Queued(queues, pending)
    ensures |queues| == 4
    ensures pending == [] <==> forall d :: 0 <= d < 4 ==> queues[d] == []
  {
    hide OfClass;
    ClassesOfNothing();
    if pending != [] {
      ClassPresent(pending, 0);
    }
  }

  /** Queued jobs outnumber the idle workers, and there is room for one more. */
  predicate Grows(workers: nat, maxWorkers: nat, busy: nat, queued: nat) {
    workers < maxWorkers && queued > 0 && workers < busy + queued
  }

  /* ---- the pool ---- */

  class DagThreadPool {
    /** Critical, High, Normal, Low. */
    var queues: seq<seq<Job>>
    var workers: nat
    var busy: nat
    var maxWorkers: nat
    var stopping: bool

    /** Jobs waiting, in order of arrival, and everything that ever became of the accepted ones. */
    ghost var pending: seq<Job>
    ghost var accepted: seq<Job>
    ghost var taken: seq<Job>
    ghost var discarded: seq<Job>
    /** The size the pool was started with; 0 when it is not running. */
    ghost var base: nat

    ghost predicate Valid()
      reads this
    {
      Queued(queues, pending) &&
      Accounted(accepted, pending, taken, discarded) &&
      maxWorkers == 4 * base && base <= workers <= maxWorkers && busy <= workers
    }

    constructor ()
      ensures Valid() && !stopping && base == 0 && pending == [] && accepted == []
    {
      queues := [[], [], [], []];
      workers, busy, maxWorkers, stopping := 0, 0, 0, false;
      pending, accepted, taken, discarded, base := [], [], [], [], 0;
    }

    /** A running pool is left alone; otherwise jobs posted earlier are dropped. */
    method Start(n: nat)
      requires Valid()
      modifies this
      ensures Valid() && accepted == old(accepted) && taken == old(taken)
      ensures if old(workers) > 0
              then base == old(base) && pending == old(pending) && workers == old(workers)
              else base == n == workers && pending == [] && !stopping && discarded == old(discarded + pending)
    {
      hide Queued, Accounted;
      QueuedNone();
      if workers > 0 {
        return;
      }
      stopping := false;
      maxWorkers := n * 4;
      queues := [[], [], [], []];
      workers := n;
      AccountDrop(accepted, pending, taken, discarded);
      pending, discarded, base := [], discarded + pending, n;
    }

    /** The first step of `stop`, outside the lock: only the first caller goes on. Jobs may still be queued. */
    method RaiseStop() returns (first: bool)
      requires Valid()
      modifies this`stopping
      ensures Valid() && stopping && (first <==> !old(stopping))
    {
      first := !stopping;
      stopping := true;
    }

    /** The locked section of `stop`: what is queued by now is discarded. */
    method ClearQueues()
      requires Valid()
      modifies this`queues, this`pending, this`discarded
      ensures Valid() && pending == [] && discarded == old(discarded + pending)
    {
      hide Queued, Accounted;
      QueuedNone();
      queues := [[], [], [], []];
      AccountDrop(accepted, pending, taken, discarded);
      pending, discarded := [], discarded + pending;
    }

    /** The end of `stop`: the workers have left, as they do once the pool is stopping and holds no job. */
    method Retire()
      requires Valid() && stopping && pending == []
      modifies this`workers, this`busy, this`maxWorkers, this`base
      ensures Valid() && workers == 0 && base == 0
    {
      hide Queued, Accounted;
      workers, busy, maxWorkers, base := 0, 0, 0, 0;
    }

    /** The three steps of `stop` with no other thread between them. */
    method Stop()
      requires Valid()
      modifies this
      ensures Valid() && stopping && accepted == old(accepted) && taken == old(taken)
      ensures if old(stopping)
              then workers == old(workers) && pending == old(pending) && discarded == old(discarded)
              else workers == 0 && pending == [] && discarded == old(discarded + pending)
    {
      hide Queued, Accounted;
      var first := RaiseStop();
      if !first {
        return;
      }
      ClearQueues();
      Retire();
    }

    /** The locked section of `post`: a job is accepted unless the pool is stopping. */
    method Enqueue(job: Job) returns (ok: bool)
      requires Valid()
      modifies this`queues, this`pending, this`accepted
      ensures Valid() && (ok <==> !stopping)
      ensures pending == if ok then old(pending) + [job] else old(pending)
      ensures accepted == if ok then old(accepted) + [job] else old(accepted)
    {
      hide Queued, Accounted;
      if stopping {
        return false;
      }
      var idx := PriorityIndex(job.priority);
      QueuedPost(queues, pending, job);
      queues := queues[idx := queues[idx] + [job]];
      AccountPost(accepted, pending, taken, discarded, job);
      pending, accepted := pending + [job], accepted + [job];
      return true;
    }

    /** `post`: an empty job is ignored; after an accepted one the pool may grow by one worker. */
    method Post(job: Option<Job>)
      requires Valid()
      modifies this
      ensures Valid() && base == old(base) && taken == old(taken) && discarded == old(discarded)
      ensures pending == if job.Some? && !old(stopping) then old(pending) + [job.value] else old(pending)
      ensures accepted == if job.Some? && !old(stopping) then old(accepted) + [job.value] else old(accepted)
      ensures workers == old(workers) +
                         (if job.Some? && !old(stopping) &&
                           Grows(old(workers), maxWorkers, busy, |pending|) then 1 else 0)
    {
      hide Queued, Accounted;
      if job.None? {
        return;
      }
      var ok := Enqueue(job.value);
      if ok {
        MaybeSpawnWorker();
      }
    }

    /** One more worker when jobs outnumber the idle ones, up to four times the starting size. The flag is read before
        the lock is taken, so it says nothing about the locked section itself. */
    method MaybeSpawnWorker()
      requires Valid()
      modifies this`workers
      ensures Valid()
      ensures workers == old(workers) + (if !stopping && Grows(old(workers), maxWorkers, busy, |pending|) then 1 else 0)
    {
      hide Queued, Accounted;
      if stopping {
        return;
      }
      SpawnLocked();
    }

    /** The locked section of `maybeSpawnWorker`. */
    method SpawnLocked()
      requires Valid()
      modifies this`workers
      ensures Valid()
      ensures workers == old(workers) + (if Grows(old(workers), maxWorkers, busy, |pending|) then 1 else 0)
    {
      hide OfClass, Accounted;
      var spare := if workers > busy then workers - busy else 0;
      if workers >= maxWorkers {
        return;
      }
      var queued := 0;
      for c := 0 to 4
        invariant queued == CountBelow(pending, c)
      {
        queued := queued + |queues[c]|;
      }
      CountAll(pending);
      if queued > 0 && spare < queued {
        workers := workers + 1;
      }
    }

    /** A worker that holds a job counts itself busy while it runs it. */
    method BeginJob()
      requires Valid() && busy < workers
      modifies this`busy
      ensures Valid() && busy == old(busy) + 1
    {
      hide Queued, Accounted;
      busy := busy + 1;
    }

    method EndJob()
      requires Valid() && busy > 0
      modifies this`busy
      ensures Valid() && busy == old(busy) - 1
    {
      hide Queued, Accounted;
      busy := busy - 1;
    }

    predicate HasJobs()
      reads this
      requires |queues| == 4
    {
      queues[0] != [] || queues[1] != [] || queues[2] != [] || queues[3] != []
    }

    /** `take_job`, entered when its wait predicate holds. A pool that is stopping still hands out what it holds. */
    method TakeJob() returns (r: Option<Job>)
      requires Valid() && |queues| == 4 && (stopping || HasJobs())
      modifies this
      ensures Valid() && base == old(base) && workers == old(workers) && accepted == old(accepted) &&
              discarded == old(discarded)
      ensures r.None? <==> stopping && old(pending) == []
      ensures r.None? ==> pending == old(pending) && taken == old(taken)
      ensures r.Some? ==> taken == old(taken) + [r.value] &&
                          exists i: nat :: MostUrgent(old(pending), i) && r.value == old(pending)[i] &&
                            pending == Without(old(pending), i)
    {
      hide Queued, Accounted;
      QueuedEmpty(queues, pending);
      if stopping && !HasJobs() {
        return None;
      }
      for c := 0 to 4
        invariant pending == old(pending) && queues == old(queues) && taken == old(taken)
        invariant forall d :: 0 <= d < c ==> queues[d] == []
      {
        if queues[c] != [] {
          var job := queues[c][0];
          ghost var i := QueuedTake(queues, pending, c);
          ForemostMeaning(pending, i);
          AccountTake(accepted, pending, taken, discarded, i);
          queues := queues[c := queues[c][1..]];
          taken, pending := taken + [job], Without(pending, i);
          return Some(job);
        }
      }
      assert false;
      return None;
    }
  }

  lemma ClassesOfNothing()
    ensures forall c :: OfClass([], c) == []
  {
  }

  /** How many jobs have a class below `c`. */
  ghost function CountBelow(js: seq<Job>, c: nat): nat {
    if c == 0 then 0 else CountBelow(js, c - 1) + |OfClass(js, c - 1)|
  }

  lemma {:induction false} CountAll(js: seq<Job>)
    ensures CountBelow(js, 4) == |js|
  {
    CountFour(js);
    if js != [] {
      CountAll(js[1..]);
      CountFour(js[1..]);
    }
  }

  lemma CountFour(js: seq<Job>)
    ensures CountBelow(js, 4) == |OfClass(js, 0)| + |OfClass(js, 1)| + |OfClass(js, 2)| + |OfClass(js, 3)|
  {
    assert CountBelow(js, 1) == |OfClass(js, 0)|;
    assert CountBelow(js, 2) == CountBelow(js, 1) + |OfClass(js, 1)|;
    assert CountBelow(js, 3) == CountBelow(js, 2) + |OfClass(js, 2)|;
  }

  /* ---- what a whole run of takes gives ---- */

  /** `out` is what successive takes return from `js` until nothing is left. */
  ghost predicate Drains(js: seq<Job>, out: seq<Job>)
    decreases |js|
  {
    if js == [] then out == []
    else out != [] && exists i: nat :: MostUrgent(js, i) && out[0] == js[i] && Drains(Without(js, i), out[1..])
  }

  function ByClass(js: seq<Job>): seq<Job> {
    OfClass(js, 0) + OfClass(js, 1) + OfClass(js, 2) + OfClass(js, 3)
  }

  /** The jobs of some priorities, oldest first. */
  function Only(js: seq<Job>, keep: set<Priority>): seq<Job> {
    if js == [] then [] else (if js[0].priority in keep then [js[0]] else []) + Only(js[1..], keep)
  }

  lemma {:induction false} OnlyClass(js: seq<Job>)
    ensures OfClass(js, 0) == Only(js, {Critical})
    ensures OfClass(js, 1) == Only(js, {High})
    ensures OfClass(js, 2) == Only(js, {Normal, Unknown})
    ensures OfClass(js, 3) == Only(js, {Low})
  {
    if js != [] {
      OnlyClass(js[1..]);
    }
  }

  /** Taking until nothing is left returns the Critical jobs, then the High, then the Normal and the unknown
      together, then the Low, each in order of arrival. */
  lemma DrainOrder(js: seq<Job>, out: seq<Job>)
    requires Drains(js, out)
    ensures out == Only(js, {Critical}) + Only(js, {High}) + Only(js, {Normal, Unknown}) +
                   Only(js, {Low})
  {
    DrainsByClass(js, out);
    OnlyClass(js);
  }

  lemma {:induction false} DrainsByClass(js: seq<Job>, out: seq<Job>)
    requires Drains(js, out)
    ensures out == ByClass(js)
    decreases |js|
  {
    hide OfClass;
    if js == [] {
      ClassesOfNothing();
    } else {
      var i: nat :| MostUrgent(js, i) && out[0] == js[i] && Drains(Without(js, i), out[1..]);
      ForemostMeaning(js, i);
      DrainsByClass(Without(js, i), out[1..]);
      TakeByClass(js, i);
      assert out == [out[0]] + out[1..];
    }
  }

  lemma {:induction false} ClassAbsent(js: seq<Job>, c: nat)
    requires forall k :: 0 <= k < |js| ==> PriorityIndex(js[k].priority) != c
    ensures OfClass(js, c) == []
  {
    if js != [] {
      ClassAbsent(js[1..], c);
    }
  }

  lemma {:induction false} ClassPresent(js: seq<Job>, i: nat)
    requires i < |js|
    ensures OfClass(js, PriorityIndex(js[i].priority)) != []
  {
    if i > 0 {
      ClassPresent(js[1..], i - 1);
    }
  }

  lemma TakeByClass(js: seq<Job>, i: nat)
    requires Foremost(js, i)
    ensures ByClass(js) == [js[i]] + ByClass(Without(js, i))
  {
    hide OfClass;
    var c := PriorityIndex(js[i].priority);
    ClassPresent(js, i);
    forall d | 0 <= d < c ensures OfClass(js, d) == [] {
      ClassAbsent(js, d);
    }
    FrontIsForemost(js, c);
    ForemostUnique(js, i, FirstOf(js, c));
    hide PriorityIndex, FirstOf, Without, Foremost;
    OfClassPop(js, c, 0);
    OfClassPop(js, c, 1);
    OfClassPop(js, c, 2);
    OfClassPop(js, c, 3);
    var q := OfClass(js, c);
    assert q == [q[0]] + q[1..];
    FrontOfFour(js[i], q[1..], OfClass(js, 1), OfClass(js, 2), OfClass(js, 3));
  }

  /** The first of four lists put together leaves from the front, if those before its own are empty. */
  lemma FrontOfFour(j: Job, rest: seq<Job>, b: seq<Job>, c: seq<Job>, d: seq<Job>)
    ensures ([j] + rest) + b + c + d == [j] + (rest + b + c + d)
    ensures [] + ([j] + rest) + c + d == [j] + ([] + rest + c + d)
    ensures [] + [] + ([j] + rest) + d == [j] + ([] + [] + rest + d)
    ensures [] + [] + [] + ([j] + rest) == [j] + ([] + [] + [] + rest)
  {
  }
}
