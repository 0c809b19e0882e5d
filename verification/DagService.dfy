/** From task specs to a runnable DAG (server/src/dag/dag_service.cpp): stamp the
    run id, validate, build.  What comes out is what the executor relies on. */
module DagService {
  import opened TaskCommon
  import opened Graphs
  import opened DagBuilder
  import opened DagValidator
  import opened DagGraphs
  import opened DagProtocol

  ghost predicate OneRun(specs: seq<Spec>, run: string) {
    forall i :: 0 <= i < |specs| ==>
      specs[i].id.runId == run && forall j :: 0 <= j < |specs[i].deps| ==> specs[i].deps[j].runId == run
  }

  /** Names of the nodes of one run, with their edges: the graph the executor walks. */
  ghost predicate InRun(v: GraphView, run: string) {
    forall k :: k in v ==> v[k].id.runId == run && MakeKey(v[k].id) == k
  }

  function NamesOf(ids: seq<TaskId>): seq<string> {
    seq(|ids|, i requires 0 <= i < |ids| => ids[i].value)
  }

  function Key(name: string, run: string): string {
    MakeKey(TaskId(name, run))
  }

  function NodeNames(v: GraphView): set<string> {
    set k | k in v :: v[k].id.value
  }

  lemma NameHasKey(v: GraphView, run: string, n: string)
    requires InRun(v, run)
    ensures n in NodeNames(v) <==> Key(n, run) in v
    ensures Key(n, run) in v ==> v[Key(n, run)].id == TaskId(n, run)
  {
    if Key(n, run) in v {
      MakeKeyInjective(v[Key(n, run)].id, TaskId(n, run));
    }
  }

  ghost function Names(v: GraphView, run: string): Dag
    requires InRun(v, run)
  {
    var nodes := NodeNames(v);
    assert forall n :: n in nodes ==> Key(n, run) in v by {
      forall n | n in nodes ensures Key(n, run) in v { NameHasKey(v, run, n); }
    }
    Dag(nodes,
        map n | n in nodes :: NamesOf(v[Key(n, run)].deps),
        map n | n in nodes :: NamesOf(v[Key(n, run)].downstream))
  }

  /* ---- the same construction on names ---- */

  function NameEnsured(d: Dag, n: string): Dag {
    if n in d.nodes then d else Dag(d.nodes + {n}, d.deps[n := []], d.down[n := []])
  }

  function NameLinked(d: Dag, id: string, dep: string): Dag
    requires id in d.deps
  {
    var e := NameEnsured(d.(deps := d.deps[id := d.deps[id] + [dep]]), dep);
    e.(down := AddEdge(e.down, dep, id))
  }

  lemma SetNodeName(v: GraphView, run: string, x: NodeView, n: string)
    requires InRun(v, run) && x.id.runId == run
    ensures var w := v[MakeKey(x.id) := x];
            InRun(w, run) && (n in NodeNames(w) <==> n in NodeNames(v) || n == x.id.value) &&
            (n in NodeNames(v) ==> Key(n, run) in v) && (n in NodeNames(w) ==> Key(n, run) in w) &&
            (n in NodeNames(w) ==> w[Key(n, run)] == if n == x.id.value then x else v[Key(n, run)])
  {
    var w := v[MakeKey(x.id) := x];
    assert InRun(w, run);
    assert x.id == TaskId(x.id.value, run);
    NameHasKey(v, run, n);
    NameHasKey(w, run, n);
    if Key(n, run) == MakeKey(x.id) {
      MakeKeyInjective(TaskId(n, run), x.id);
    }
  }

  lemma SetNameAt(v: GraphView, run: string, x: NodeView, n: string)
    requires InRun(v, run) && x.id.runId == run
    ensures InRun(v[MakeKey(x.id) := x], run)
    ensures var d, e := Names(v, run), Names(v[MakeKey(x.id) := x], run);
            && (n in e.nodes <==> n in d.nodes || n == x.id.value)
            && (n in e.nodes ==> e.deps[n] == if n == x.id.value then NamesOf(x.deps) else d.deps[n])
            && (n in e.nodes ==> e.down[n] == if n == x.id.value then NamesOf(x.downstream) else d.down[n])
  {
    SetNodeName(v, run, x, n);
    hide NamesOf, InRun, MakeKey;
  }

  /** Filing one node changes one name's entry. */
  lemma SetNames(v: GraphView, run: string, x: NodeView)
    requires InRun(v, run) && x.id.runId == run
    ensures InRun(v[MakeKey(x.id) := x], run)
    ensures var d, n := Names(v, run), x.id.value;
            Names(v[MakeKey(x.id) := x], run) ==
              Dag(d.nodes + {n}, d.deps[n := NamesOf(x.deps)], d.down[n := NamesOf(x.downstream)])
  {
    hide Names, NamesOf, InRun, NodeNames, MakeKey;
    var w := v[MakeKey(x.id) := x];
    SetNameAt(v, run, x, x.id.value);
    var d, e := Names(v, run), Names(w, run);
    NamesKeys(v, run);
    NamesKeys(w, run);
    forall n
      ensures n in e.nodes <==> n in d.nodes || n == x.id.value
      ensures n in e.nodes ==> e.deps[n] == (if n == x.id.value then NamesOf(x.deps) else d.deps[n])
      ensures n in e.nodes ==> e.down[n] == (if n == x.id.value then NamesOf(x.downstream) else d.down[n])
    {
      SetNameAt(v, run, x, n);
    }
    assert e.nodes == d.nodes + {x.id.value};
    assert e.deps == d.deps[x.id.value := NamesOf(x.deps)];
    assert e.down == d.down[x.id.value := NamesOf(x.downstream)];
  }

  lemma NamesKeys(v: GraphView, run: string)
    requires InRun(v, run)
    ensures var d := Names(v, run); d.deps.Keys == d.nodes && d.down.Keys == d.nodes
  {
  }

  lemma NodeOfKey(v: GraphView, run: string, id: TaskId)
    requires InRun(v, run) && id.runId == run
    ensures id.value in Names(v, run).nodes <==> MakeKey(id) in v
    ensures MakeKey(id) in v ==>
              v[MakeKey(id)].id == id && Names(v, run).deps[id.value] == NamesOf(v[MakeKey(id)].deps) &&
              Names(v, run).down[id.value] == NamesOf(v[MakeKey(id)].downstream)
  {
    assert id == TaskId(id.value, run);
    NameHasKey(v, run, id.value);
  }

  lemma EnsuredNames(v: GraphView, run: string, id: TaskId)
    requires InRun(v, run) && id.runId == run
    ensures InRun(Ensured(v, id), run)
    ensures Names(Ensured(v, id), run) == NameEnsured(Names(v, run), id.value)
  {
    hide Names, InRun, MakeKey;
    NodeOfKey(v, run, id);
    if MakeKey(id) !in v {
      SetNames(v, run, NodeView(id, [], [], 0, Pending));
    }
  }

  lemma DependencyNames(v: GraphView, run: string, id: TaskId, dep: TaskId)
    requires InRun(v, run) && id.runId == run && MakeKey(id) in v
    ensures InRun(WithDependency(v, id, dep), run) && id.value in Names(v, run).deps
    ensures Names(WithDependency(v, id, dep), run) ==
              (var d := Names(v, run); d.(deps := d.deps[id.value := d.deps[id.value] + [dep.value]]))
  {
    hide Names, InRun, MakeKey;
    var x := v[MakeKey(id)];
    NodeOfKey(v, run, id);
    NamesKeys(v, run);
    SetNames(v, run, x.(deps := x.deps + [dep]));
    assert NamesOf(x.deps + [dep]) == NamesOf(x.deps) + [dep.value];
    var d := Names(v, run);
    assert d.nodes + {id.value} == d.nodes && d.down[id.value := d.down[id.value]] == d.down;
  }

  lemma DownstreamNames(v: GraphView, run: string, id: TaskId, child: TaskId)
    requires InRun(v, run) && id.runId == run && MakeKey(id) in v
    ensures InRun(WithDownstream(v, id, child), run) && id.value in Names(v, run).down
    ensures Names(WithDownstream(v, id, child), run) ==
              (var d := Names(v, run); d.(down := AddEdge(d.down, id.value, child.value)))
  {
    hide Names, InRun, MakeKey;
    var x := v[MakeKey(id)];
    NodeOfKey(v, run, id);
    NamesKeys(v, run);
    SetNames(v, run, x.(downstream := x.downstream + [child]));
    assert NamesOf(x.downstream + [child]) == NamesOf(x.downstream) + [child.value];
    var d := Names(v, run);
    assert d.nodes + {id.value} == d.nodes && d.deps[id.value := d.deps[id.value]] == d.deps;
  }

  lemma LinkedNames(v: GraphView, run: string, id: TaskId, dep: TaskId)
    requires InRun(v, run) && id.runId == run && dep.runId == run && MakeKey(id) in v
    ensures InRun(Linked(v, id, dep), run) && id.value in Names(v, run).deps
    ensures Names(Linked(v, id, dep), run) == NameLinked(Names(v, run), id.value, dep.value)
  {
    hide Names, InRun, MakeKey;
    DependencyNames(v, run, id, dep);
    var w := WithDependency(v, id, dep);
    EnsuredNames(w, run, dep);
    DownstreamNames(Ensured(w, dep), run, dep, id);
  }

  /* ---- what the construction keeps ---- */

  /** The two edge lists mirror each other entry by entry, repetitions included. */
  ghost predicate Mirrored(d: Dag) {
    forall p, c :: p in d.down && c in d.deps ==> multiset(d.down[p])[c] == multiset(d.deps[c])[p]
  }

  lemma EnsuredEdge(d: Dag, n: string, a: string, b: string)
    requires WellFormed(d)
    ensures Edge(NameEnsured(d, n).down, a, b) <==> Edge(d.down, a, b)
  {
  }

  lemma EnsuredOpen(d: Dag, n: string, c: string)
    requires WellFormed(d) && c in NameEnsured(d, n).nodes
    ensures var e := NameEnsured(d, n); c in e.deps && |Open(e.down, map[], c)| == |e.deps[c]|
  {
    var e := NameEnsured(d, n);
    if n !in d.nodes {
      assert Open(e.down, map[], c) == Open(d.down, map[], c);
      if c == n { NoneOpen(d, n); }
    }
  }

  lemma EnsuredWellFormed(d: Dag, n: string)
    requires WellFormed(d)
    ensures WellFormed(NameEnsured(d, n))
  {
    var e := NameEnsured(d, n);
    forall a, b ensures Edge(e.down, a, b) <==> Edge(d.down, a, b) {
      EnsuredEdge(d, n, a, b);
    }
    forall c | c in e.nodes ensures c in e.deps && |Open(e.down, map[], c)| == |e.deps[c]| {
      EnsuredOpen(d, n, c);
    }
    hide Edge, Open;
  }

  lemma EnsuredMirrored(d: Dag, n: string)
    requires WellFormed(d) && Mirrored(d)
    ensures Mirrored(NameEnsured(d, n))
  {
    var e := NameEnsured(d, n);
    forall p, c | p in e.down && c in e.deps ensures multiset(e.down[p])[c] == multiset(e.deps[c])[p] {
      if n !in d.nodes {
        if c == n && p != n { assert !Edge(d.down, p, c); }
        if p == n && c != n { assert p !in d.deps[c]; }
      }
    }
  }

  lemma NoneOpen(d: Dag, n: string)
    requires WellFormed(d) && n !in d.nodes
    ensures Open(d.down, map[], n) == {}
  {
    forall x | x in Open(d.down, map[], n) ensures false {
      assert Edge(d.down, x.0, n);
    }
  }

  /** The edge itself, between two nodes that are both there. */
  function WithEdge(m: Dag, id: string, dep: string): Dag
    requires id in m.deps
  {
    m.(deps := m.deps[id := m.deps[id] + [dep]], down := AddEdge(m.down, dep, id))
  }

  lemma LinkedForm(d: Dag, id: string, dep: string)
    requires d.deps.Keys == d.nodes && id in d.nodes
    ensures id in NameEnsured(d, dep).deps && NameLinked(d, id, dep) == WithEdge(NameEnsured(d, dep), id, dep)
  {
    if dep !in d.nodes {
      assert d.deps[id := d.deps[id] + [dep]][dep := []] == d.deps[dep := []][id := d.deps[id] + [dep]];
    }
  }

  lemma WithEdgeDeps(m: Dag, id: string, dep: string, c: string, p: string)
    requires id in m.deps && c in m.deps
    ensures p in WithEdge(m, id, dep).deps[c] <==> p in m.deps[c] || (p == dep && c == id)
  {
  }

  lemma WithEdgeWellFormed(m: Dag, id: string, dep: string)
    requires WellFormed(m) && id in m.nodes && dep in m.nodes
    ensures WellFormed(WithEdge(m, id, dep))
  {
    var e := WithEdge(m, id, dep);
    forall a, b ensures Edge(e.down, a, b) <==> Edge(m.down, a, b) || (a == dep && b == id) {
      AddEdgeMeaning(m.down, dep, id, a, b);
    }
    forall c | c in e.nodes ensures c in e.deps && |Open(e.down, map[], c)| == |e.deps[c]| {
      AddEdgeOpen(m.down, dep, id, c);
    }
    forall c, p | c in m.nodes ensures p in e.deps[c] <==> p in m.deps[c] || (p == dep && c == id) {
      WithEdgeDeps(m, id, dep, c, p);
    }
    assert e.deps.Keys == e.nodes && e.down.Keys == e.nodes;
    hide Edge, Open, AddEdge, WithEdge;
  }

  lemma WithEdgeMirrored(m: Dag, id: string, dep: string)
    requires Mirrored(m) && id in m.deps && dep in m.down
    ensures Mirrored(WithEdge(m, id, dep))
  {
    var e := WithEdge(m, id, dep);
    forall p, c | p in e.down && c in e.deps ensures multiset(e.down[p])[c] == multiset(e.deps[c])[p] {
      assert multiset(m.down[p])[c] == multiset(m.deps[c])[p];
      assert multiset(m.down[p] + [id]) == multiset(m.down[p]) + multiset{id};
      assert multiset(m.deps[c] + [dep]) == multiset(m.deps[c]) + multiset{dep};
    }
  }

  /** One dependency more keeps the graph sound. */
  lemma LinkedSound(d: Dag, id: string, dep: string)
    requires WellFormed(d) && Mirrored(d) && id in d.nodes
    ensures WellFormed(NameLinked(d, id, dep)) && Mirrored(NameLinked(d, id, dep))
    ensures forall a, b :: Edge(NameLinked(d, id, dep).down, a, b) <==> Edge(d.down, a, b) || (a == dep && b == id)
    ensures NameLinked(d, id, dep).nodes == d.nodes + {dep}
  {
    hide WellFormed, Mirrored;
    WellFormedKeys(d);
    LinkedForm(d, id, dep);
    var m := NameEnsured(d, dep);
    EnsuredWellFormed(d, dep);
    EnsuredMirrored(d, dep);
    WellFormedKeys(m);
    WithEdgeWellFormed(m, id, dep);
    WithEdgeMirrored(m, id, dep);
    forall a, b ensures Edge(NameLinked(d, id, dep).down, a, b) <==> Edge(d.down, a, b) || (a == dep && b == id) {
      EnsuredEdge(d, dep, a, b);
      AddEdgeMeaning(m.down, dep, id, a, b);
    }
  }

  /* ---- the whole construction ---- */

  /** The graph after the first pass and the links `done`. */
  ghost predicate SoundFor(v: GraphView, run: string, done: seq<Spec>) {
    InRun(v, run) &&
    var d := Names(v, run);
    WellFormed(d) && Mirrored(d) && forall a, b :: Edge(d.down, a, b) <==> DependsOn(done, b, a)
  }

  lemma EnsuredKeepsSound(v: GraphView, run: string, id: TaskId, done: seq<Spec>)
    requires SoundFor(v, run, done) && id.runId == run
    ensures SoundFor(Ensured(v, id), run, done)
    ensures Names(Ensured(v, id), run).nodes == Names(v, run).nodes + {id.value}
    ensures MakeKey(id) in Ensured(v, id)
  {
    hide WellFormed, Mirrored, Names, InRun;
    EnsuredNames(v, run, id);
    var d := Names(v, run);
    EnsuredWellFormed(d, id.value);
    EnsuredMirrored(d, id.value);
    forall a, b ensures Edge(NameEnsured(d, id.value).down, a, b) <==> Edge(d.down, a, b) {
      EnsuredEdge(d, id.value, a, b);
    }
    hide Edge;
  }

  lemma DependsOnMore(done: seq<Spec>, spec: Spec, j: nat, id: string, dep: string)
    requires j < |spec.deps|
    ensures DependsOn(done + [spec.(deps := spec.deps[..j + 1])], id, dep) <==>
              DependsOn(done + [spec.(deps := spec.deps[..j])], id, dep) ||
              (id == spec.id.value && dep == spec.deps[j].value)
  {
    var x, y := done + [spec.(deps := spec.deps[..j])], done + [spec.(deps := spec.deps[..j + 1])];
    DependsOnLast(x, id, dep);
    DependsOnLast(y, id, dep);
    assert x[..|done|] == done == y[..|done|];
    assert forall k :: 0 <= k < j ==> spec.deps[..j + 1][k] == spec.deps[..j][k];
    assert spec.deps[..j + 1][j] == spec.deps[j];
  }

  lemma LinkStepSound(w: GraphView, run: string, spec: Spec, j: nat, done: seq<Spec>)
    requires j < |spec.deps| && spec.id.runId == run && spec.deps[j].runId == run && MakeKey(spec.id) in w
    requires SoundFor(w, run, done + [spec.(deps := spec.deps[..j])])
    ensures SoundFor(Linked(w, spec.id, spec.deps[j]), run, done + [spec.(deps := spec.deps[..j + 1])])
    ensures Names(Linked(w, spec.id, spec.deps[j]), run).nodes == Names(w, run).nodes + {spec.deps[j].value}
  {
    hide WellFormed, Mirrored, Names, InRun, DependsOn, Linked, MakeKey;
    var dep := spec.deps[j];
    NodeOfKey(w, run, spec.id);
    LinkedNames(w, run, spec.id, dep);
    LinkedSound(Names(w, run), spec.id.value, dep.value);
    forall a, b
      ensures DependsOn(done + [spec.(deps := spec.deps[..j + 1])], a, b) <==>
                DependsOn(done + [spec.(deps := spec.deps[..j])], a, b) || (a == spec.id.value && b == dep.value)
    {
      DependsOnMore(done, spec, j, a, b);
    }
    hide NameLinked;
    var d, e := Names(w, run), Names(Linked(w, spec.id, dep), run);
    forall a, b ensures Edge(e.down, a, b) <==> DependsOn(done + [spec.(deps := spec.deps[..j + 1])], b, a) {
      assert Edge(e.down, a, b) <==> Edge(d.down, a, b) || (a == dep.value && b == spec.id.value);
    }
  }

  lemma NoDependencies(done: seq<Spec>, spec: Spec, a: string, b: string)
    requires spec.deps == []
    ensures DependsOn(done + [spec], a, b) <==> DependsOn(done, a, b)
  {
    DependsOnLast(done + [spec], a, b);
    assert (done + [spec])[..|done|] == done;
  }

  function DepNames(spec: Spec, j: nat): set<string>
    requires j <= |spec.deps|
  {
    set i | 0 <= i < j :: spec.deps[i].value
  }

  lemma {:induction false} LinkedAllSound(v: GraphView, run: string, spec: Spec, j: nat, done: seq<Spec>)
    requires SoundFor(v, run, done) && spec.id.runId == run && MakeKey(spec.id) in v
    requires j <= |spec.deps| && forall i :: 0 <= i < |spec.deps| ==> spec.deps[i].runId == run
    ensures SoundFor(LinkedAll(v, spec.id, spec.deps[..j]), run, done + [spec.(deps := spec.deps[..j])])
    ensures Names(LinkedAll(v, spec.id, spec.deps[..j]), run).nodes == Names(v, run).nodes + DepNames(spec, j)
    decreases j
  {
    hide WellFormed, Mirrored, Names, InRun, DependsOn, Edge, MakeKey, Linked;
    if j == 0 {
      assert spec.deps[..0] == [];
      forall a, b ensures DependsOn(done + [spec.(deps := [])], a, b) <==> DependsOn(done, a, b) {
        NoDependencies(done, spec.(deps := []), a, b);
      }
    } else {
      LinkedAllSound(v, run, spec, j - 1, done);
      assert spec.deps[..j][..j - 1] == spec.deps[..j - 1];
      hide SoundFor;
      LinkStepSound(LinkedAll(v, spec.id, spec.deps[..j - 1]), run, spec, j - 1, done);
      assert DepNames(spec, j) == DepNames(spec, j - 1) + {spec.deps[j - 1].value};
    }
  }

  /** Declared names and the names their dependencies use. */
  ghost predicate NodesAre(d: Dag, ids: set<string>, specs: seq<Spec>) {
    forall n :: n in d.nodes <==> n in ids || exists id :: DependsOn(specs, id, n)
  }

  lemma EmptySound(run: string)
    ensures SoundFor(map[], run, []) && Names(map[], run).nodes == {}
  {
  }

  lemma {:induction false} EnsuredSpecsSound(specs: seq<Spec>, run: string)
    requires OneRun(specs, run)
    ensures SoundFor(EnsuredSpecs(specs), run, [])
    ensures Names(EnsuredSpecs(specs), run).nodes == IdsOf(specs)
    decreases |specs|
  {
    hide SoundFor, Names, Ensured;
    if specs == [] {
      EmptySound(run);
    } else {
      var n := |specs| - 1;
      EnsuredSpecsSound(specs[..n], run);
      EnsuredKeepsSound(EnsuredSpecs(specs[..n]), run, specs[n].id, []);
      assert IdsOf(specs) == IdsOf(specs[..n]) + {specs[n].id.value} by {
        assert forall i :: 0 <= i < n ==> specs[..n][i] == specs[i];
        forall x | x in IdsOf(specs[..n]) ensures x in IdsOf(specs) {
          var i :| 0 <= i < n && specs[..n][i].id.value == x;
          assert specs[i].id.value == x;
        }
      }
    }
  }

  lemma NodesStep(d: Dag, ids: set<string>, specs: seq<Spec>, n: nat, e: Dag)
    requires n < |specs| && NodesAre(d, ids, specs[..n]) && specs[n].id.value in ids
    requires e.nodes == d.nodes + {specs[n].id.value} + DepNames(specs[n], |specs[n].deps|)
    ensures NodesAre(e, ids, specs[..n + 1])
  {
    var more := specs[..n + 1];
    assert more[..n] == specs[..n] && more[n] == specs[n];
    forall x ensures x in e.nodes <==> x in ids || exists id :: DependsOn(more, id, x) {
      forall id { DependsOnLast(more, id, x); }
      if x in DepNames(specs[n], |specs[n].deps|) {
        assert DependsOn(more, specs[n].id.value, x);
      }
      if exists id :: DependsOn(specs[..n], id, x) {
        var id :| DependsOn(specs[..n], id, x);
        assert DependsOn(more, id, x);
      }
      hide DependsOn;
    }
  }

  lemma NodesStart(d: Dag, ids: set<string>)
    requires d.nodes == ids
    ensures NodesAre(d, ids, [])
  {
  }

  lemma LinkSpecSound(w: GraphView, run: string, specs: seq<Spec>, n: nat, ids: set<string>)
    requires n < |specs| && specs[n].id.runId == run
    requires forall j :: 0 <= j < |specs[n].deps| ==> specs[n].deps[j].runId == run
    requires SoundFor(w, run, specs[..n]) && specs[n].id.value in ids && NodesAre(Names(w, run), ids, specs[..n])
    ensures var y := LinkedAll(Ensured(w, specs[n].id), specs[n].id, specs[n].deps);
            SoundFor(y, run, specs[..n + 1]) && NodesAre(Names(y, run), ids, specs[..n + 1])
  {
    hide SoundFor, Names, NodesAre, Ensured, LinkedAll, MakeKey, InRun, DependsOn;
    var spec := specs[n];
    SoundInRun(w, run, specs[..n]);
    EnsuredKeepsSound(w, run, spec.id, specs[..n]);
    var x := Ensured(w, spec.id);
    LinkedAllSound(x, run, spec, |spec.deps|, specs[..n]);
    assert spec.deps[..|spec.deps|] == spec.deps && spec.(deps := spec.deps) == spec;
    assert specs[..n] + [spec] == specs[..n + 1];
    var y := LinkedAll(x, spec.id, spec.deps);
    SoundInRun(x, run, specs[..n]);
    SoundInRun(y, run, specs[..n + 1]);
    NodesStep(Names(w, run), ids, specs, n, Names(y, run));
  }

  lemma {:induction false} LinkedSpecsSound(v: GraphView, run: string, specs: seq<Spec>, n: nat)
    requires SoundFor(v, run, []) && OneRun(specs, run) && n <= |specs| && Names(v, run).nodes == IdsOf(specs)
    ensures SoundFor(LinkedSpecs(v, specs[..n]), run, specs[..n])
    ensures NodesAre(Names(LinkedSpecs(v, specs[..n]), run), IdsOf(specs), specs[..n])
    decreases n
  {
    hide SoundFor, Names, NodesAre, Ensured, LinkedAll, MakeKey, InRun, DependsOn;
    SoundInRun(v, run, []);
    if n == 0 {
      assert specs[..0] == [];
      NodesStart(Names(v, run), IdsOf(specs));
    } else {
      LinkedSpecsSound(v, run, specs, n - 1);
      assert specs[..n][..n - 1] == specs[..n - 1];
      assert specs[n - 1].id.value in IdsOf(specs);
      LinkSpecSound(LinkedSpecs(v, specs[..n - 1]), run, specs, n - 1, IdsOf(specs));
    }
  }

  lemma SoundInRun(v: GraphView, run: string, done: seq<Spec>)
    requires SoundFor(v, run, done)
    ensures InRun(v, run)
  {
  }

  lemma RecomputedNameAt(v: GraphView, run: string, n: string)
    requires InRun(v, run) && InRun(Recomputed(v), run)
    ensures var d, e := Names(v, run), Names(Recomputed(v), run);
            (n in e.nodes <==> n in d.nodes) && (n in d.nodes ==> e.deps[n] == d.deps[n] && e.down[n] == d.down[n])
  {
    hide MakeKey, NamesOf;
    NameHasKey(v, run, n);
    NameHasKey(Recomputed(v), run, n);
    hide NodeNames, InRun;
  }

  lemma RecomputedNames(v: GraphView, run: string)
    requires InRun(v, run)
    ensures InRun(Recomputed(v), run) && Names(Recomputed(v), run) == Names(v, run)
  {
    assert InRun(Recomputed(v), run);
    hide Names, InRun, Recomputed, MakeKey;
    NamesKeys(v, run);
    NamesKeys(Recomputed(v), run);
    var d, e := Names(v, run), Names(Recomputed(v), run);
    forall n
      ensures (n in e.nodes <==> n in d.nodes) && (n in d.nodes ==> e.deps[n] == d.deps[n] && e.down[n] == d.down[n])
    {
      RecomputedNameAt(v, run, n);
    }
    assert e.nodes == d.nodes && e.deps == d.deps && e.down == d.down;
  }

  /** The counter every node starts with is the length of its dependency list. */
  ghost predicate CountersSet(v: GraphView) {
    forall k :: k in v ==> v[k].indegree == |v[k].deps|
  }

  /** Specs of one run build into a graph the executor can rely on: both edge
      lists hold exactly the dependency relation and mirror each other, and the
      nodes are the declared tasks, plus any undeclared dependency. */
  lemma BuiltIsSound(specs: seq<Spec>, run: string)
    requires OneRun(specs, run)
    ensures InRun(Built(specs), run) && CountersSet(Built(specs))
    ensures WellFormed(Names(Built(specs), run)) && Mirrored(Names(Built(specs), run))
    ensures forall a, b :: Edge(Names(Built(specs), run).down, a, b) <==> DependsOn(specs, b, a)
    ensures NodesAre(Names(Built(specs), run), IdsOf(specs), specs)
  {
    hide Names, NodesAre, InRun, IdsOf, DependsOn, WellFormed, Mirrored, OneRun, LinkedSpecs, EnsuredSpecs;
    EnsuredSpecsSound(specs, run);
    LinkedSpecsSound(EnsuredSpecs(specs), run, specs, |specs|);
    assert specs[..|specs|] == specs;
    RecomputedNames(LinkedSpecs(EnsuredSpecs(specs), specs), run);
  }

  lemma CycleOfNames(e: Succ, specs: seq<Spec>, c: seq<string>)
    requires forall a, b :: Edge(e, a, b) <==> DependsOn(specs, b, a)
    ensures IsCycle(e, c) <==> DependencyCycle(specs, c)
  {
    hide Edge, DependsOn;
  }

  /** ... and if the specs are valid, the graph is acyclic and has no other nodes. */
  lemma ValidSpecsBuildDag(specs: seq<Spec>, run: string)
    requires OneRun(specs, run) && AllPresent(specs) && !HasCycle(specs)
    ensures InRun(Built(specs), run)
    ensures var d := Names(Built(specs), run); WellFormed(d) && Acyclic(d.down) && d.nodes == IdsOf(specs)
  {
    hide Names, InRun, WellFormed, Mirrored, OneRun, Built;
    BuiltIsSound(specs, run);
    var d := Names(Built(specs), run);
    forall c ensures !IsCycle(d.down, c) {
      CycleOfNames(d.down, specs, c);
    }
    forall n ensures n in d.nodes <==> n in IdsOf(specs) {
      if exists id :: DependsOn(specs, id, n) {
        var id :| DependsOn(specs, id, n);
        assert Declared(specs, n);
      }
    }
  }

  /* ---- DagService::runDag up to the executor ---- */

  function StampSpec(spec: Spec, run: string): Spec {
    Spec(spec.id.(runId := run), seq(|spec.deps|, i requires 0 <= i < |spec.deps| => spec.deps[i].(runId := run)))
  }

  function Stamped(specs: seq<Spec>, run: string): seq<Spec> {
    if run == "" then specs else seq(|specs|, i requires 0 <= i < |specs| => StampSpec(specs[i], run))
  }

  lemma StampedDependsOn(specs: seq<Spec>, run: string, id: string, dep: string)
    ensures DependsOn(Stamped(specs, run), id, dep) <==> DependsOn(specs, id, dep)
    ensures Declared(Stamped(specs, run), id) <==> Declared(specs, id)
  {
    var t := Stamped(specs, run);
    if DependsOn(specs, id, dep) {
      var i, j :| 0 <= i < |specs| && 0 <= j < |specs[i].deps| && specs[i].id.value == id &&
        specs[i].deps[j].value == dep;
      assert t[i].id.value == id && t[i].deps[j].value == dep;
    }
    if Declared(specs, id) {
      var i :| 0 <= i < |specs| && specs[i].id.value == id;
      assert t[i].id.value == id;
    }
  }

  /** Stamp every spec and its dependencies with the run id; validate; build.
      With a run id, or with specs that already share one, a graph is returned
      exactly for valid specs, and it is a well-formed DAG on the declared names. */
  method Prepare(specs: seq<Spec>, runId: string, ghost run: string) returns (r: ValidateResult, graph: DagGraph?)
    requires runId != "" ==> run == runId
    ensures r.ok <==> AllPresent(specs) && !HasCycle(specs)
    ensures r.ok <==> graph != null
    ensures graph != null ==> graph.Valid() && graph.View() == Built(Stamped(specs, runId))
    ensures graph != null && (runId != "" || OneRun(specs, run)) ==>
              InRun(graph.View(), run) &&
              var d := Names(graph.View(), run); WellFormed(d) && Acyclic(d.down) && d.nodes == IdsOf(specs)
  {
    hide Names, InRun, WellFormed, Built, AllPresent, HasCycle;
    var builder := [];
    for i := 0 to |specs|
      invariant builder == Stamped(specs[..i], runId)
    {
      var spec := specs[i];
      if runId != "" {
        spec := StampSpec(spec, runId);
      }
      builder := builder + [spec];
      assert specs[..i + 1] == specs[..i] + [specs[i]];
    }
    assert specs[..|specs|] == specs;
    SameVerdict(specs, runId);
    r := Validate(builder);
    if !r.ok {
      return r, null;
    }
    graph := Build(builder);
    if runId != "" || OneRun(specs, run) {
      assert OneRun(builder, run);
      ValidSpecsBuildDag(builder, run);
    }
  }

  lemma IdsAreDeclared(specs: seq<Spec>, x: string)
    ensures x in IdsOf(specs) <==> Declared(specs, x)
  {
  }

  /** Stamping changes neither the names nor the relation between them. */
  lemma SameVerdict(specs: seq<Spec>, run: string)
    ensures AllPresent(Stamped(specs, run)) <==> AllPresent(specs)
    ensures HasCycle(Stamped(specs, run)) <==> HasCycle(specs)
    ensures IdsOf(Stamped(specs, run)) == IdsOf(specs)
  {
    var t := Stamped(specs, run);
    forall id, dep ensures DependsOn(t, id, dep) <==> DependsOn(specs, id, dep) {
      StampedDependsOn(specs, run, id, dep);
    }
    forall id ensures Declared(t, id) <==> Declared(specs, id) {
      StampedDependsOn(specs, run, id, id);
    }
    forall x ensures x in IdsOf(t) <==> x in IdsOf(specs) {
      IdsAreDeclared(t, x);
      IdsAreDeclared(specs, x);
    }
    hide DependsOn, Declared, Stamped, IdsOf;
    forall c ensures DependencyCycle(t, c) <==> DependencyCycle(specs, c) {
    }
  }
}
