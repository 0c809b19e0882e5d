/** The second half of `DagBuilder::validate`: the coloured depth-first search
    that extracts a cycle, and the verdict as a whole. */
module DagValidator {
  import opened Graphs
  import opened DagBuilder

  const ON_STACK := 1
  const FINISHED := 2

  /** The stack is a path of distinct tasks, each with its position on record. */
  ghost predicate StackOk(edges: Succ, stackPos: map<string, nat>, stack: seq<string>) {
    && IsPath(edges, stack)
    && (forall x :: x in stackPos ==> stackPos[x] < |stack| && stack[stackPos[x]] == x)
    && (forall i :: 0 <= i < |stack| ==> stack[i] in stackPos && stackPos[stack[i]] == i)
  }

  ghost predicate ColorOk(color: map<string, int>, stackPos: map<string, nat>, finished: seq<string>) {
    && (forall x :: x in color ==> color[x] == ON_STACK || color[x] == FINISHED)
    && (forall x :: x in stackPos <==> x in color && color[x] == ON_STACK)
    && (forall x :: x in finished <==> x in color && color[x] == FINISHED)
  }

  ghost predicate TargetsIn(edges: Succ, ids: set<string>) {
    forall a, b :: Edge(edges, a, b) ==> b in ids
  }

  /** Moreover a finished task has only finished successors, finished before it. */
  ghost predicate SearchOk(edges: Succ, color: map<string, int>, stackPos: map<string, nat>, stack: seq<string>,
                           finished: seq<string>)
  {
    StackOk(edges, stackPos, stack) && ColorOk(color, stackPos, finished) && PostOrder(edges, finished)
  }

  lemma PathAppend(edges: Succ, stack: seq<string>, node: string)
    requires IsPath(edges, stack) && (stack != [] ==> Edge(edges, stack[|stack| - 1], node))
    ensures IsPath(edges, stack + [node])
  {
    var now := stack + [node];
    forall i | 0 <= i && i + 1 < |now| ensures Edge(edges, now[i], now[i + 1]) {
      assert now[i] == stack[i];
      if i + 1 < |stack| { assert now[i + 1] == stack[i + 1]; }
    }
  }

  lemma EnterStack(edges: Succ, stackPos: map<string, nat>, stack: seq<string>, node: string)
    requires StackOk(edges, stackPos, stack) && node !in stackPos
    requires stack != [] ==> Edge(edges, stack[|stack| - 1], node)
    ensures StackOk(edges, stackPos[node := |stack|], stack + [node])
  {
    PathAppend(edges, stack, node);
    hide IsPath;
    var now := stack + [node];
    assert forall i :: 0 <= i < |stack| ==> now[i] == stack[i];
  }

  lemma LeaveStack(edges: Succ, stackPos: map<string, nat>, stack: seq<string>, node: string)
    requires StackOk(edges, stackPos, stack + [node])
    ensures StackOk(edges, stackPos - {node}, stack)
  {
    var was := stack + [node];
    PathPrefix(edges, was, |stack|);
    assert was[..|stack|] == stack;
    hide IsPath;
    assert forall i :: 0 <= i < |stack| ==> was[i] == stack[i];
    assert was[|stack|] == node;
    assert stackPos[node] == |stack|;
  }

  lemma PostOrderAppend(edges: Succ, finished: seq<string>, node: string)
    requires PostOrder(edges, finished) && forall y :: Edge(edges, node, y) ==> y in finished
    ensures PostOrder(edges, finished + [node])
  {
    var now := finished + [node];
    forall i, y | 0 <= i < |now| && Edge(edges, now[i], y) ensures y in now[..i] {
      if i < |finished| {
        assert now[..i] == finished[..i];
      } else {
        assert now[..i] == finished;
      }
    }
  }

  lemma EnterKeepsOk(edges: Succ, color: map<string, int>, stackPos: map<string, nat>, stack: seq<string>,
                     finished: seq<string>, node: string)
    requires SearchOk(edges, color, stackPos, stack, finished) && node !in color
    requires stack != [] ==> Edge(edges, stack[|stack| - 1], node)
    ensures SearchOk(edges, color[node := ON_STACK], stackPos[node := |stack|], stack + [node], finished)
  {
    hide StackOk, PostOrder;
    EnterStack(edges, stackPos, stack, node);
  }

  lemma LeaveKeepsOk(edges: Succ, color: map<string, int>, stackPos: map<string, nat>, stack: seq<string>,
                     finished: seq<string>, node: string)
    requires SearchOk(edges, color, stackPos, stack + [node], finished) && node in stackPos
    requires forall y :: Edge(edges, node, y) ==> y in finished
    ensures SearchOk(edges, color[node := FINISHED], stackPos - {node}, stack, finished + [node])
  {
    hide StackOk, PostOrder;
    LeaveStack(edges, stackPos, stack, node);
    PostOrderAppend(edges, finished, node);
  }

  lemma StackIsPath(edges: Succ, color: map<string, int>, stackPos: map<string, nat>, stack: seq<string>,
                    finished: seq<string>)
    requires SearchOk(edges, color, stackPos, stack, finished)
    ensures IsPath(edges, stack)
  {
  }

  lemma ColorFacts(edges: Succ, color: map<string, int>, stackPos: map<string, nat>, stack: seq<string>,
                   finished: seq<string>, x: string)
    requires SearchOk(edges, color, stackPos, stack, finished)
    ensures x in color && color[x] == ON_STACK ==> x in stackPos && stackPos[x] < |stack| && stack[stackPos[x]] == x
    ensures x in color && color[x] != ON_STACK ==> x in finished
    ensures x in stack ==> x in stackPos
    ensures x in finished ==> x in color
  {
    hide IsPath, PostOrder;
  }

  /** The part of a path from `start` on, closed by an edge back, is a cycle. */
  lemma CycleOfSuffix(edges: Succ, stack: seq<string>, start: nat)
    requires IsPath(edges, stack) && start < |stack| && Edge(edges, stack[|stack| - 1], stack[start])
    ensures IsCycle(edges, stack[start..])
  {
    var tail := stack[start..];
    forall i | 0 <= i && i + 1 < |tail| ensures Edge(edges, tail[i], tail[i + 1]) {
      assert tail[i] == stack[start + i] && tail[i + 1] == stack[start + i + 1];
    }
    assert tail[|tail| - 1] == stack[|stack| - 1];
  }

  /** The variables that the recursive search shares (captured by reference in the source). */
  class CycleSearch {
    const edges: Succ
    var color: map<string, int>
    var stackPos: map<string, nat>
    var stack: seq<string>
    var cycleNodes: seq<string>
    /** Tasks in the order in which the search finished with them. */
    ghost var finished: seq<string>

    constructor (edges: Succ)
      ensures this.edges == edges && color == map[] && stack == [] && finished == [] && Valid()
    {
      this.edges := edges;
      color, stackPos, stack, cycleNodes := map[], map[], [], [];
      finished := [];
    }

    ghost predicate Valid()
      reads this
    {
      SearchOk(edges, color, stackPos, stack, finished) && cycleNodes == []
    }

    /** Copy the part of the stack from `start` on. */
    method ReportCycle(start: nat)
      requires Valid() && start < |stack|
      modifies this`cycleNodes
      ensures cycleNodes == stack[start..]
    {
      hide SearchOk;
      for i := start to |stack|
        invariant cycleNodes == stack[start..i]
      {
        cycleNodes := cycleNodes + [stack[i]];
      }
    }

    /** The search reaches `node`. */
    method Enter(node: string)
      requires Valid() && node !in color && (stack != [] ==> Edge(edges, stack[|stack| - 1], node))
      modifies this`color, this`stackPos, this`stack
      ensures Valid() && stack == old(stack) + [node] && color == old(color)[node := ON_STACK]
    {
      hide SearchOk;
      EnterKeepsOk(edges, color, stackPos, stack, finished, node);
      color := color[node := ON_STACK];
      stackPos := stackPos[node := |stack|];
      stack := stack + [node];
    }

    /** The search is done with `node`, the top of the stack. */
    method Leave(node: string, ghost below: seq<string>)
      requires Valid() && stack == below + [node] && forall y :: Edge(edges, node, y) ==> y in finished
      modifies this`color, this`stackPos, this`stack, this`finished
      ensures Valid() && stack == below && finished == old(finished) + [node] && color == old(color)[node := FINISHED]
    {
      hide SearchOk;
      ColorFacts(edges, color, stackPos, stack, finished, node);
      LeaveKeepsOk(edges, color, stackPos, below, finished, node);
      color := color[node := FINISHED];
      stackPos := stackPos - {node};
      stack := stack[..|stack| - 1];
      finished := finished + [node];
    }

    method Dfs(node: string, ghost ids: set<string>) returns (found: bool)
      requires Valid() && node !in color && node in ids && color.Keys <= ids && TargetsIn(edges, ids)
      requires stack != [] ==> Edge(edges, stack[|stack| - 1], node)
      modifies this
      ensures found ==> IsCycle(edges, cycleNodes)
      ensures !found ==> Valid() && stack == old(stack) && node in finished && color.Keys <= ids
      ensures !found ==> old(finished) <= finished && old(color.Keys) <= color.Keys
      decreases ids - color.Keys
    {
      hide SearchOk, IsCycle;
      ghost var below, known := stack, color.Keys;
      Enter(node);
      var outs := if node in edges then edges[node] else [];
      for k := 0 to |outs|
        invariant Valid() && stack == below + [node] && known + {node} <= color.Keys <= ids && old(finished) <= finished
        invariant forall j :: 0 <= j < k ==> outs[j] in finished
      {
        var nxt := outs[k];
        assert Edge(edges, node, nxt) && nxt in ids;
        ColorFacts(edges, color, stackPos, stack, finished, nxt);
        if nxt !in color {
          assert ids - color.Keys < ids - known by {
            assert node in ids - known;
          }
          var deeper := Dfs(nxt, ids);
          if deeper {
            return true;
          }
        } else if color[nxt] == ON_STACK {
          StackIsPath(edges, color, stackPos, stack, finished);
          CycleOfSuffix(edges, stack, stackPos[nxt]);
          ReportCycle(stackPos[nxt]);
          return true;
        }
      }
      Leave(node, below);
      return false;
    }
  }

  /** Search from every task, in whatever order the set is iterated. */
  method FindCycle(edges: Succ, ids: set<string>) returns (cycleNodes: seq<string>)
    requires TargetsIn(edges, ids)
    ensures cycleNodes != [] ==> IsCycle(edges, cycleNodes)
    ensures cycleNodes == [] <==> Acyclic(edges)
  {
    var search := new CycleSearch(edges);
    var rest := ids;
    while rest != {}
      invariant search.Valid() && search.stack == [] && search.edges == edges && search.color.Keys <= ids
      invariant rest <= ids && forall x :: x in ids && x !in rest ==> x in search.finished
      decreases rest
    {
      var id :| id in rest;
      rest := rest - {id};
      if id !in search.color {
        var found := search.Dfs(id, ids);
        if found {
          return search.cycleNodes;
        }
      }
    }
    assert Acyclic(edges) by {
      forall c ensures !IsCycle(edges, c) {
        if IsCycle(edges, c) {
          NoCycleThroughPostOrder(edges, search.finished, c, 0);
        }
      }
    }
    return [];
  }

  /* ---- the verdict ---- */

  method CollectIds(specs: seq<Spec>) returns (ids: set<string>)
    ensures ids == IdsOf(specs)
  {
    ids := {};
    for i := 0 to |specs|
      invariant ids == IdsOf(specs[..i])
    {
      assert IdsOf(specs[..i + 1]) == IdsOf(specs[..i]) + {specs[i].id.value} by {
        assert forall j :: 0 <= j < i ==> specs[..i + 1][j] == specs[..i][j];
        assert specs[..i + 1][i] == specs[i];
        forall x | x in IdsOf(specs[..i]) ensures x in IdsOf(specs[..i + 1]) {
          var j :| 0 <= j < i && specs[..i][j].id.value == x;
          assert specs[..i + 1][j].id.value == x;
        }
      }
      ids := ids + {specs[i].id.value};
    }
    assert specs[..|specs|] == specs;
  }

  /** Dependency `dep` of some task is absent.  Empty names are not looked up. */
  ghost predicate Absent(specs: seq<Spec>, dep: string) {
    dep != "" && !Declared(specs, dep) && exists id :: DependsOn(specs, id, dep)
  }

  /** Dependency `j` of spec `i` is the first absent one, in the order of the list. */
  ghost predicate FirstAbsentAt(specs: seq<Spec>, i: nat, j: nat) {
    i < |specs| && j < |specs[i].deps| && Absent(specs, specs[i].deps[j].value) &&
    forall a, b :: 0 <= a < |specs| && 0 <= b < |specs[a].deps| && (a < i || (a == i && b < j)) ==>
      !Absent(specs, specs[a].deps[b].value)
  }

  ghost predicate FirstAbsent(specs: seq<Spec>, dep: string) {
    exists i: nat, j: nat :: FirstAbsentAt(specs, i, j) && specs[i].deps[j].value == dep
  }

  lemma AbsentHere(specs: seq<Spec>, i: nat, j: nat)
    requires i < |specs| && j < |specs[i].deps|
    ensures var dep := specs[i].deps[j].value; Absent(specs, dep) <==> dep != "" && dep !in IdsOf(specs)
  {
    var dep := specs[i].deps[j].value;
    assert DependsOn(specs, specs[i].id.value, dep);
    DeclaredIsId(specs, dep);
  }

  lemma DeclaredIsId(specs: seq<Spec>, name: string)
    ensures Declared(specs, name) <==> name in IdsOf(specs)
  {
  }

  method FindMissing(specs: seq<Spec>, ids: set<string>) returns (missing: seq<string>)
    requires ids == IdsOf(specs)
    ensures missing == [] <==> forall dep :: !Absent(specs, dep)
    ensures missing != [] ==> |missing| == 1 && Absent(specs, missing[0]) && FirstAbsent(specs, missing[0])
  {
    hide Absent, IdsOf;
    for i := 0 to |specs|
      invariant forall a, b :: 0 <= a < i && 0 <= b < |specs[a].deps| ==> !Absent(specs, specs[a].deps[b].value)
    {
      for j := 0 to |specs[i].deps|
        invariant forall b :: 0 <= b < j ==> !Absent(specs, specs[i].deps[b].value)
      {
        var dep := specs[i].deps[j].value;
        AbsentHere(specs, i, j);
        if dep != "" && dep !in ids {
          assert FirstAbsentAt(specs, i, j);
          return [dep];
        }
      }
    }
    forall dep ensures !Absent(specs, dep) {
      AbsentIsListed(specs, dep);
    }
    return [];
  }

  lemma AbsentIsListed(specs: seq<Spec>, dep: string)
    ensures Absent(specs, dep) ==>
              exists i, j :: 0 <= i < |specs| && 0 <= j < |specs[i].deps| && specs[i].deps[j].value == dep
  {
  }

  /** No edge of the table comes from an undeclared name exactly when every dependency is declared. */
  lemma SourcesDeclared(specs: seq<Spec>)
    ensures SourcesIn(EdgesOf(specs), IdsOf(specs)) <==> AllPresent(specs)
  {
    hide EdgesOf;
    forall id, dep ensures Edge(EdgesOf(specs), dep, id) <==> DependsOn(specs, id, dep) {
      EdgesMeaning(specs, dep, id);
    }
    hide Edge, DependsOn;
  }

  ghost predicate HasCycle(specs: seq<Spec>) {
    exists c :: DependencyCycle(specs, c)
  }

  lemma CycleFree(specs: seq<Spec>)
    ensures HasCycle(specs) <==> !Acyclic(EdgesOf(specs))
  {
    if HasCycle(specs) {
      var c :| DependencyCycle(specs, c);
      CycleMeaning(specs, c);
    }
    if !Acyclic(EdgesOf(specs)) {
      var c :| IsCycle(EdgesOf(specs), c);
      CycleMeaning(specs, c);
    }
  }

  /** For every list of specs (repeated ids, repeated dependencies, self-loops,
      empty names) and every iteration order of the tables:
      - ok exactly when every dependency is declared and there is no cycle;
      - the first missing dependency is named;
      - a reported cycle is a genuine one, and one is reported whenever there is
        one, so the list stays empty only for an undeclared empty dependency. */
  method Validate(specs: seq<Spec>) returns (r: ValidateResult)
    ensures r.ok <==> AllPresent(specs) && !HasCycle(specs)
    ensures r.ok <==> r.error.NoError?
    ensures r.error.MissingDependency? <==> exists dep :: Absent(specs, dep)
    ensures r.error.MissingDependency? ==> FirstAbsent(specs, r.error.name)
    ensures r.cycleNodes != [] ==> r.error.CycleDetected? && DependencyCycle(specs, r.cycleNodes)
    ensures r.error.CycleDetected? ==> (r.cycleNodes != [] <==> HasCycle(specs))
    ensures r.error.CycleDetected? && r.cycleNodes == [] ==>
              !Declared(specs, "") && exists id :: DependsOn(specs, id, "")
  {
    hide Acyclic, AllPresent, SourcesIn, DependencyCycle, HasCycle, FirstAbsent;
    var ids := CollectIds(specs);
    var missing := FindMissing(specs, ids);
    if missing != [] {
      assert !AllPresent(specs) by { AbsentIsNotPresent(specs, missing[0]); }
      return ValidateResult(false, MissingDependency(missing[0]), []);
    }
    var edges, indegree := BuildTables(specs, ids);
    assert TargetsIn(edges, ids) by {
      forall a, b | Edge(edges, a, b) ensures b in ids { EdgeTargets(specs, a, b); }
    }
    var visitedCount := KahnCount(edges, ids, indegree);
    SourcesDeclared(specs);
    CycleFree(specs);
    if visitedCount != |ids| {
      var cycleNodes := FindCycle(edges, ids);
      if cycleNodes != [] { CycleMeaning(specs, cycleNodes); }
      if !AllPresent(specs) { OnlyEmptyMissing(specs); }
      return ValidateResult(false, CycleDetected, cycleNodes);
    }
    return ValidateResult(true, NoError, []);
  }

  lemma AbsentIsNotPresent(specs: seq<Spec>, dep: string)
    requires Absent(specs, dep)
    ensures !AllPresent(specs)
  {
  }

  lemma OnlyEmptyMissing(specs: seq<Spec>)
    requires !AllPresent(specs) && forall dep :: !Absent(specs, dep)
    ensures !Declared(specs, "") && exists id :: DependsOn(specs, id, "")
  {
    var id, dep :| DependsOn(specs, id, dep) && !Declared(specs, dep);
    assert !Absent(specs, dep);
  }
}
