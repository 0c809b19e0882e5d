/** DAG and template tasks that run further tasks, and the depth that stops them
    (server/src/dag/dag_service.cpp, server/src/runner/task_runner.cpp, server/src/execution). */
module Nesting {
  import opened TaskCommon
  import opened Text
  import opened CronParser
  import opened CronRoundTrip

  const MAX_NESTING_DEPTH := 10

  /** `depth` is the body's own "_nesting_depth" number, `depthParam` the text of the same name among the
      parameters of a task. */
  datatype Body = Body(depth: Option<int>, tasks: seq<Task>)
  datatype Task = Task(kind: Kind, depthParam: Option<string>)
  datatype Kind = Leaf | DagTask(body: Body) | TemplateTask(template: string, params: string)

  /** The template store and renderer: a rendered body may name its own template again. */
  type Render = (string, string) -> Option<Body>

  /** `std::to_string`. */
  function ToString(n: int): string {
    if n < 0 then "-" + Decimal(-n) else Decimal(n)
  }

  lemma StoiToString(n: int)
    requires INT_MIN <= n <= INT_MAX
    ensures Stoi(ToString(n)) == Some(n)
  {
    hide Decimal, Value, DigitCount;
    var m := if n < 0 then -n else n;
    var s := Decimal(m);
    assert s + "" == s;
    if n < 0 {
      DecimalValue(m);
      CountDigits(s, "");
      assert ToString(n)[1..] == s;
      assert s[..|s|] == s;
    } else {
      StoiDecimal(n, "");
    }
  }

  /** The depth a task runs at (`dispatchExec`): its parameter, or 0 if that is missing or not a number. */
  function DepthOf(t: Task): int {
    if t.depthParam.Some? && Stoi(t.depthParam.value).Some? then Stoi(t.depthParam.value).value else 0
  }

  /** The body a task hands to the DAG service: a DAG's own body with a readable parameter put over its depth,
      or the rendered template with the task's depth put over it. */
  function BodyRun(render: Render, t: Task): Option<Body> {
    match t.kind
    case Leaf => None
    case DagTask(body) =>
      if t.depthParam.Some? && Stoi(t.depthParam.value).Some?
      then Some(body.(depth := Stoi(t.depthParam.value)))
      else Some(body)
    case TemplateTask(id, params) =>
      var body := render(id, params);
      if body.Some? then Some(body.value.(depth := Some(DepthOf(t)))) else None
  }

  /** The service stamps every child with one more than the body's depth. */
  function Stamp(body: Body, child: Task): Task {
    child.(depthParam := Some(ToString((if body.depth.Some? then body.depth.value else 0) + 1)))
  }

  /** The tasks that running `t` runs in turn. */
  function Children(render: Render, t: Task): seq<Task> {
    if DepthOf(t) >= MAX_NESTING_DEPTH then []
    else
      var body := BodyRun(render, t);
      if body.None? then []
      else seq(|body.value.tasks|, i requires 0 <= i < |body.value.tasks| => Stamp(body.value, body.value.tasks[i]))
  }

  /** Its depth parameter is a number, as on every task the service has stamped. */
  predicate Stamped(t: Task) {
    t.depthParam.Some? && Stoi(t.depthParam.value).Some?
  }

  lemma {:induction false} StoiInRange(s: string)
    requires Stoi(s).Some?
    ensures INT_MIN <= Stoi(s).value <= INT_MAX
  {
    if s != "" && Space(s[0]) {
      StoiInRange(s[1..]);
    }
  }

  /** Whatever a child says about its own depth, it runs exactly one level below its stamped parent. */
  lemma ChildDepth(render: Render, t: Task, i: nat)
    requires Stamped(t) && i < |Children(render, t)|
    ensures Stamped(Children(render, t)[i]) && DepthOf(Children(render, t)[i]) == DepthOf(t) + 1
    ensures DepthOf(t) < MAX_NESTING_DEPTH
  {
    hide Stoi, ToString;
    StoiInRange(t.depthParam.value);
    StoiToString(DepthOf(t) + 1);
  }

  /** The depth a task claims for the body it runs: the body's own number for a DAG without a readable parameter, and
      the depth it runs at otherwise. */
  function Claimed(t: Task): int {
    if !Stamped(t) && t.kind.DagTask? && t.kind.body.depth.Some? then t.kind.body.depth.value else DepthOf(t)
  }

  /** The claim leaves room for one level more in an `int`. */
  predicate Enters(t: Task) {
    Stamped(t) || INT_MIN <= Claimed(t) < INT_MAX
  }

  /** The children of any task, submitted from outside or not, run one level below what it claims, each stamped. */
  lemma TopChildDepth(render: Render, t: Task, i: nat)
    requires i < |Children(render, t)| && Enters(t)
    ensures Stamped(Children(render, t)[i]) && DepthOf(Children(render, t)[i]) == Claimed(t) + 1
    ensures Enters(Children(render, t)[i]) && DepthOf(t) < MAX_NESTING_DEPTH
  {
    hide Stoi, ToString;
    if Stamped(t) {
      ChildDepth(render, t, i);
    } else {
      StoiToString(1);
      if t.kind.DagTask? && t.kind.body.depth.Some? {
        StoiToString(t.kind.body.depth.value + 1);
      }
    }
  }

  /** Each task is a child of the one before. */
  ghost predicate Chain(render: Render, ts: seq<Task>) {
    forall i :: 0 <= i < |ts| - 1 ==> ts[i + 1] in Children(render, ts[i])
  }

  lemma NextInChain(render: Render, t: Task, u: Task)
    requires u in Children(render, t) && Enters(t)
    ensures Stamped(u) && Enters(u) && DepthOf(u) == Claimed(t) + 1 && DepthOf(t) < MAX_NESTING_DEPTH
  {
    hide Children, Stamped, Enters, Claimed, DepthOf;
    var k :| 0 <= k < |Children(render, t)| && Children(render, t)[k] == u;
    TopChildDepth(render, t, k);
  }

  /** From the second task of a chain on, the depth is what the first one claims plus the distance. */
  lemma {:induction false} ChainDepth(render: Render, ts: seq<Task>, i: nat)
    requires Chain(render, ts) && i < |ts| && Enters(ts[0])
    ensures Enters(ts[i])
    ensures i > 0 ==> Stamped(ts[i]) && DepthOf(ts[i]) == Claimed(ts[0]) + i
    ensures i < |ts| - 1 ==> DepthOf(ts[i]) < MAX_NESTING_DEPTH
  {
    hide DepthOf, Children, Enters;
    if i > 0 {
      ChainDepth(render, ts, i - 1);
      assert ts[i - 1 + 1] in Children(render, ts[i - 1]);
      NextInChain(render, ts[i - 1], ts[i]);
    }
    if i < |ts| - 1 {
      assert ts[i + 1] in Children(render, ts[i]);
      NextInChain(render, ts[i], ts[i + 1]);
    }
  }

  /** No chain of nested runs from any task is longer than its claim allows: at most 11 tasks from a claim of 0. */
  lemma ChainBound(render: Render, ts: seq<Task>)
    requires Chain(render, ts) && |ts| > 0 && Enters(ts[0])
    ensures |ts| <= 2 || |ts| <= MAX_NESTING_DEPTH - Claimed(ts[0]) + 1
    ensures Stamped(ts[0]) ==> |ts| == 1 || |ts| <= MAX_NESTING_DEPTH - DepthOf(ts[0]) + 1
  {
    hide DepthOf, Chain, Enters;
    if |ts| > 1 {
      ChainDepth(render, ts, |ts| - 2);
    }
  }

  function Room(t: Task): nat {
    if DepthOf(t) < MAX_NESTING_DEPTH then MAX_NESTING_DEPTH - DepthOf(t) else 0
  }

  /** Running any task to the end, templates that call themselves included: the tasks run, in depth-first order. */
  function RunAll(render: Render, t: Task): (r: seq<Task>)
    requires Enters(t)
    ensures r != [] && r[0] == t
    ensures forall x <- r[1..] :: Stamped(x) && Claimed(t) < DepthOf(x)
    ensures Claimed(t) < MAX_NESTING_DEPTH ==> forall x <- r[1..] :: DepthOf(x) <= MAX_NESTING_DEPTH
    decreases if Stamped(t) then 0 else 1, Room(t), 1, 0
  {
    [t] + RunBelow(render, t, 0)
  }

  /** What running `t` runs in turn, from its child number `i` on. */
  function RunBelow(render: Render, t: Task, i: nat): (r: seq<Task>)
    requires Enters(t)
    ensures forall x <- r :: Stamped(x) && Claimed(t) < DepthOf(x)
    ensures Claimed(t) < MAX_NESTING_DEPTH ==> forall x <- r :: DepthOf(x) <= MAX_NESTING_DEPTH
    ensures i < |Children(render, t)| ==> Children(render, t)[i] in r
    ensures i >= |Children(render, t)| ==> r == []
    decreases if Stamped(t) then 0 else 1, Room(t), 0, |Children(render, t)| - i
  {
    if i >= |Children(render, t)| then []
    else
      TopChildDepth(render, t, i);
      var first := RunAll(render, Children(render, t)[i]);
      var rest := RunBelow(render, t, i + 1);
      assert first == [first[0]] + first[1..];
      first + rest
  }

  /** Nothing below a task runs deeper than the limit exactly when its claim is below the limit or it runs nothing. */
  lemma LimitKeptExactly(render: Render, t: Task)
    requires Enters(t)
    ensures (forall x <- RunBelow(render, t, 0) :: DepthOf(x) <= MAX_NESTING_DEPTH) <==>
            Claimed(t) < MAX_NESTING_DEPTH || Children(render, t) == []
  {
    hide Children, Claimed, DepthOf, Enters;
    if Children(render, t) != [] {
      TopChildDepth(render, t, 0);
      assert Children(render, t)[0] in RunBelow(render, t, 0);
    }
  }

  /* ---- everything is run ---- */

  function Flat(runs: seq<seq<Task>>): seq<Task> {
    if runs == [] then [] else runs[0] + Flat(runs[1..])
  }

  /** What each child runs, child by child. */
  function Runs(render: Render, t: Task, i: nat): (r: seq<seq<Task>>)
    requires Enters(t) && i <= |Children(render, t)|
    ensures |r| == |Children(render, t)| - i
    decreases |Children(render, t)| - i
  {
    if i == |Children(render, t)| then []
    else
      TopChildDepth(render, t, i);
      [RunAll(render, Children(render, t)[i])] + Runs(render, t, i + 1)
  }

  lemma {:induction false} RunsAt(render: Render, t: Task, i: nat, k: nat)
    requires Enters(t) && i <= k < |Children(render, t)|
    ensures Enters(Children(render, t)[k]) && Runs(render, t, i)[k - i] == RunAll(render, Children(render, t)[k])
    decreases k - i
  {
    hide Children, Enters, RunAll;
    TopChildDepth(render, t, i);
    if i < k {
      RunsAt(render, t, i + 1, k);
    }
  }

  lemma {:induction false} BelowIsRuns(render: Render, t: Task, i: nat)
    requires Enters(t) && i <= |Children(render, t)|
    ensures RunBelow(render, t, i) == Flat(Runs(render, t, i))
    decreases |Children(render, t)| - i
  {
    hide Children, Enters;
    if i < |Children(render, t)| {
      TopChildDepth(render, t, i);
      BelowIsRuns(render, t, i + 1);
      assert Runs(render, t, i)[1..] == Runs(render, t, i + 1);
    }
  }

  /** A run is the task itself and then what each of its children runs, in order, and nothing else. */
  lemma RunAllExactly(render: Render, t: Task)
    requires Enters(t)
    ensures RunAll(render, t) == [t] + Flat(Runs(render, t, 0))
  {
    hide Children, Enters;
    BelowIsRuns(render, t, 0);
  }

  lemma {:induction false} FlatHolds(runs: seq<seq<Task>>, x: Task)
    ensures x in Flat(runs) <==> exists k :: 0 <= k < |runs| && x in runs[k]
  {
    if runs != [] {
      FlatHolds(runs[1..], x);
      if x in Flat(runs[1..]) {
        var k :| 0 <= k < |runs[1..]| && x in runs[1..][k];
        assert x in runs[k + 1];
      }
      if k :| 0 <= k < |runs| && x in runs[k] {
        if k > 0 {
          assert x in runs[1..][k - 1];
        }
      }
    }
  }

  /** What is run below `t` is what one of its children runs. */
  lemma BelowIsSomeChild(render: Render, t: Task, x: Task)
    requires Enters(t)
    ensures forall k :: 0 <= k < |Children(render, t)| ==> Enters(Children(render, t)[k])
    ensures x in RunBelow(render, t, 0) <==>
              exists k :: 0 <= k < |Children(render, t)| && x in RunAll(render, Children(render, t)[k])
  {
    hide Children, Enters, RunAll, RunBelow;
    BelowIsRuns(render, t, 0);
    var runs := Runs(render, t, 0);
    forall k | 0 <= k < |Children(render, t)|
      ensures Enters(Children(render, t)[k]) && runs[k] == RunAll(render, Children(render, t)[k])
    {
      RunsAt(render, t, 0, k);
    }
    hide Runs;
    FlatHolds(runs, x);
  }

  /** Whatever is run has all its children run too. */
  lemma {:induction false} RunAllClosed(render: Render, t: Task, x: Task, c: Task)
    requires Enters(t) && x in RunAll(render, t) && c in Children(render, x)
    ensures c in RunAll(render, t)
    decreases if Stamped(t) then 0 else 1, Room(t)
  {
    hide Children, Enters, RunBelow;
    if x == t {
      BelowIsSomeChild(render, t, c);
      var k :| 0 <= k < |Children(render, t)| && Children(render, t)[k] == c;
      assert c in RunAll(render, c);
    } else {
      BelowIsSomeChild(render, t, x);
      var k :| 0 <= k < |Children(render, t)| && x in RunAll(render, Children(render, t)[k]);
      TopChildDepth(render, t, k);
      ClaimIsDepth(t, Children(render, t)[k]);
      RunAllClosed(render, Children(render, t)[k], x, c);
      BelowIsSomeChild(render, t, c);
    }
  }

  lemma ClaimIsDepth(t: Task, c: Task)
    requires Stamped(c) && DepthOf(c) == Claimed(t) + 1 && DepthOf(t) < MAX_NESTING_DEPTH
    ensures Stamped(t) ==> Room(c) < Room(t)
  {
  }

  lemma ChainFront(render: Render, ts: seq<Task>)
    requires Chain(render, ts) && |ts| > 1
    ensures Chain(render, ts[..|ts| - 1])
  {
    hide Children;
    var front := ts[..|ts| - 1];
    forall i | 0 <= i < |front| - 1 ensures front[i + 1] in Children(render, front[i]) {
      assert ts[i + 1] in Children(render, ts[i]);
    }
  }

  /** Every chain from `t` ends in a task that is run. */
  lemma {:induction false} ChainIsRun(render: Render, t: Task, ts: seq<Task>)
    requires Enters(t) && Chain(render, ts) && |ts| > 0 && ts[0] == t
    ensures ts[|ts| - 1] in RunAll(render, t)
    decreases |ts|
  {
    hide Children, Enters, RunAll;
    if |ts| == 1 {
      RunAllExactly(render, t);
    } else {
      var front := ts[..|ts| - 1];
      ChainFront(render, ts);
      ChainIsRun(render, t, front);
      assert ts[|ts| - 2 + 1] in Children(render, ts[|ts| - 2]);
      RunAllClosed(render, t, front[|front| - 1], ts[|ts| - 1]);
    }
  }

  /** And every task that is run is the end of a chain from `t`. */
  lemma {:induction false} RunIsChained(render: Render, t: Task, x: Task) returns (ts: seq<Task>)
    requires Enters(t) && x in RunAll(render, t)
    ensures Chain(render, ts) && |ts| > 0 && ts[0] == t && ts[|ts| - 1] == x
    decreases if Stamped(t) then 0 else 1, Room(t)
  {
    hide Children, Enters, RunBelow;
    if x == t {
      ts := [t];
    } else {
      BelowIsSomeChild(render, t, x);
      var k :| 0 <= k < |Children(render, t)| && x in RunAll(render, Children(render, t)[k]);
      TopChildDepth(render, t, k);
      ClaimIsDepth(t, Children(render, t)[k]);
      var rest := RunIsChained(render, Children(render, t)[k], x);
      ChainCons(render, t, rest);
      ts := [t] + rest;
    }
  }

  /** The children of a task: none for a leaf or at the limit; below it, one for each task of the body or of the
      rendered template, in order and of the same kind. */
  lemma ChildrenMeaning(render: Render, t: Task)
    ensures DepthOf(t) >= 10 || t.kind.Leaf? ==> Children(render, t) == []
    ensures DepthOf(t) < 10 && t.kind.DagTask? ==> SameKinds(Children(render, t), t.kind.body.tasks)
    ensures DepthOf(t) < 10 && t.kind.TemplateTask? ==>
              match render(t.kind.template, t.kind.params)
              case Some(body) => SameKinds(Children(render, t), body.tasks)
              case None => Children(render, t) == []
  {
    hide Stoi, ToString;
  }

  ghost predicate SameKinds(children: seq<Task>, tasks: seq<Task>) {
    |children| == |tasks| && forall k :: 0 <= k < |tasks| ==> children[k].kind == tasks[k].kind
  }

  /* ---- the bounds are reached ---- */

  /** A DAG submitted with a depth of its own, at the limit. */
  function AtLimit(): Task {
    Task(DagTask(Body(Some(MAX_NESTING_DEPTH), [Task(Leaf, None)])), None)
  }

  /** Its child runs one level deeper than the limit. */
  lemma LimitExceeded(render: Render)
    ensures Enters(AtLimit()) && Claimed(AtLimit()) == MAX_NESTING_DEPTH
    ensures exists x <- RunBelow(render, AtLimit(), 0) :: DepthOf(x) == MAX_NESTING_DEPTH + 1
  {
    hide Stoi, ToString;
    var t := AtLimit();
    assert |Children(render, t)| == 1;
    TopChildDepth(render, t, 0);
    assert Children(render, t)[0] in RunBelow(render, t, 0);
  }

  /** A template that renders to one task calling it again, and that task at depth `d`. */
  function Again(): Render {
    (id, params) => Some(Body(None, [Task(TemplateTask(id, params), None)]))
  }

  function Caller(id: string, params: string, d: int): Task {
    Task(TemplateTask(id, params), Some(ToString(d)))
  }

  lemma CallsAgain(id: string, params: string, t: Task)
    requires t.kind == TemplateTask(id, params) && DepthOf(t) < MAX_NESTING_DEPTH
    ensures Children(Again(), t) == [Caller(id, params, DepthOf(t) + 1)]
  {
    hide Stoi, ToString;
  }

  lemma CallerDepth(id: string, params: string, d: int)
    requires INT_MIN <= d <= INT_MAX
    ensures Stamped(Caller(id, params, d)) && DepthOf(Caller(id, params, d)) == d
  {
    hide Stoi, ToString;
    StoiToString(d);
  }

  lemma {:induction false} SelfCallChain(id: string, params: string, d: int) returns (ts: seq<Task>)
    requires INT_MIN <= d <= MAX_NESTING_DEPTH
    ensures Chain(Again(), ts) && |ts| == MAX_NESTING_DEPTH - d + 1 && ts[0] == Caller(id, params, d)
    decreases MAX_NESTING_DEPTH - d
  {
    hide Caller, Children, DepthOf, Stamped;
    ts := [Caller(id, params, d)];
    if d < MAX_NESTING_DEPTH {
      var rest := SelfCallChain(id, params, d + 1);
      CallerDepth(id, params, d);
      CallerKind(id, params, d);
      CallsAgain(id, params, ts[0]);
      ts := ts + rest;
      ChainCons(Again(), Caller(id, params, d), rest);
    }
  }

  lemma CallerKind(id: string, params: string, d: int)
    ensures Caller(id, params, d).kind == TemplateTask(id, params)
  {
  }

  lemma ChainCons(render: Render, t: Task, rest: seq<Task>)
    requires Chain(render, rest) && |rest| > 0 && rest[0] in Children(render, t)
    ensures Chain(render, [t] + rest)
  {
    hide Children;
    var ts := [t] + rest;
    forall i | 0 <= i < |ts| - 1 ensures ts[i + 1] in Children(render, ts[i]) {
      if i > 0 {
        assert rest[i - 1 + 1] in Children(render, rest[i - 1]);
      }
    }
  }

  /** A self-calling template submitted from outside, without a depth, makes a chain of exactly the length allowed. */
  lemma BoundReached(id: string, params: string) returns (ts: seq<Task>)
    ensures Chain(Again(), ts) && ts != [] && ts[0] == Task(TemplateTask(id, params), None)
    ensures Enters(ts[0]) && |ts| == MAX_NESTING_DEPTH - Claimed(ts[0]) + 1
  {
    var t := Task(TemplateTask(id, params), None);
    hide Caller, Children, Chain;
    CallsAgain(id, params, t);
    var rest := SelfCallChain(id, params, 1);
    ChainCons(Again(), t, rest);
    ts := [t] + rest;
  }
}
