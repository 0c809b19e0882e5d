/** Rendering whole JSON templates, and what rendering depends on. */
module TemplateTrees {
  import opened TaskCommon
  import opened Template

  /** `isParamInject_`: an object with the single field "$param", holding a string. */
  predicate IsParamInject(node: Json) {
    node.Obj? && |node.fields| == 1 && node.fields[0].key == "$param" && node.fields[0].value.Str?
  }

  function RenderNode(ps: Params, show: Printer, node: Json): Outcome<Json>
    decreases node
  {
    match node
    case Obj(fields) =>
      if IsParamInject(node) then ResolvePath(ps, fields[0].value.s)
      else
        var r := RenderFields(ps, show, fields);
        if r.Ok? then Ok(Obj(r.value)) else Err(r.error)
    case Arr(items) =>
      var r := RenderItems(ps, show, items);
      if r.Ok? then Ok(Arr(r.value)) else Err(r.error)
    case Str(s) =>
      var r := Fill(ps, show, Split(s));
      if r.Ok? then Ok(Str(r.value)) else Err(r.error)
    case _ => Ok(node)
  }

  function RenderFields(ps: Params, show: Printer, fields: seq<Member>): Outcome<seq<Member>>
    decreases fields
  {
    if fields == [] then Ok([])
    else
      var v := RenderNode(ps, show, fields[0].value);
      if v.Err? then Err(v.error)
      else
        var rest := RenderFields(ps, show, fields[1..]);
        if rest.Err? then rest else Ok([Member(fields[0].key, v.value)] + rest.value)
  }

  function RenderItems(ps: Params, show: Printer, items: seq<Json>): Outcome<seq<Json>>
    decreases items
  {
    if items == [] then Ok([])
    else
      var v := RenderNode(ps, show, items[0]);
      if v.Err? then Err(v.error)
      else
        var rest := RenderItems(ps, show, items[1..]);
        if rest.Err? then rest else Ok([v.value] + rest.value)
  }

  /* ---- the paths a template names, in the order they are looked up ---- */

  function SegmentPaths(segs: seq<Segment>): seq<string> {
    if segs == [] then []
    else (if segs[0].Hole? then [Trim(segs[0].raw)] else []) + SegmentPaths(segs[1..])
  }

  function Paths(node: Json): seq<string>
    decreases node
  {
    match node
    case Obj(fields) => if IsParamInject(node) then [fields[0].value.s] else FieldPaths(fields)
    case Arr(items) => ItemPaths(items)
    case Str(s) => SegmentPaths(Split(s))
    case _ => []
  }

  function FieldPaths(fields: seq<Member>): seq<string>
    decreases fields
  {
    if fields == [] then [] else Paths(fields[0].value) + FieldPaths(fields[1..])
  }

  function ItemPaths(items: seq<Json>): seq<string>
    decreases items
  {
    if items == [] then [] else Paths(items[0]) + ItemPaths(items[1..])
  }

  /** The error of the first path that does not resolve. */
  function FirstError(ps: Params, paths: seq<string>): Option<string> {
    if paths == [] then None
    else
      var r := ResolvePath(ps, paths[0]);
      if r.Err? then Some(r.error) else FirstError(ps, paths[1..])
  }

  ghost predicate AllResolve(ps: Params, paths: seq<string>) {
    forall p <- paths :: ResolvePath(ps, p).Ok?
  }

  /** `r` fails exactly with the first error among `paths`. */
  predicate FailsAs<T(==)>(r: Outcome<T>, e: Option<string>) {
    match r case Ok(_) => e == None case Err(m) => e == Some(m)
  }

  lemma {:induction false} FirstErrorAppend(ps: Params, a: seq<string>, b: seq<string>)
    ensures FirstError(ps, a + b) == if FirstError(ps, a).Some? then FirstError(ps, a) else FirstError(ps, b)
  {
    hide ResolvePath;
    if a == [] {
      assert a + b == b;
    } else {
      assert (a + b)[1..] == a[1..] + b;
      FirstErrorAppend(ps, a[1..], b);
    }
  }

  lemma {:induction false} FirstErrorNone(ps: Params, paths: seq<string>)
    ensures FirstError(ps, paths) == None <==> AllResolve(ps, paths)
  {
    hide ResolvePath;
    if paths != [] {
      FirstErrorNone(ps, paths[1..]);
      assert paths == [paths[0]] + paths[1..];
    }
  }

  lemma {:induction false} FillFails(ps: Params, show: Printer, segs: seq<Segment>)
    ensures FailsAs(Fill(ps, show, segs), FirstError(ps, SegmentPaths(segs)))
  {
    hide ResolvePath, Trim, ParamToString;
    if segs != [] {
      FillFails(ps, show, segs[1..]);
      if segs[0].Hole? {
        var p := Trim(segs[0].raw);
        assert ([p] + SegmentPaths(segs[1..]))[1..] == SegmentPaths(segs[1..]);
      } else {
        assert [] + SegmentPaths(segs[1..]) == SegmentPaths(segs[1..]);
      }
    }
  }

  /** Rendering fails exactly when some named path does not resolve, with the first such path's error. */
  lemma {:induction false} RenderFails(ps: Params, show: Printer, node: Json)
    ensures FailsAs(RenderNode(ps, show, node), FirstError(ps, Paths(node)))
    decreases node
  {
    hide ResolvePath, Fill, Split;
    match node {
      case Obj(fields) =>
        if IsParamInject(node) {
          assert [fields[0].value.s][1..] == [];
        } else {
          FieldsFail(ps, show, fields);
        }
      case Arr(items) => ItemsFail(ps, show, items);
      case Str(s) => FillFails(ps, show, Split(s));
      case _ =>
    }
  }

  lemma {:induction false} FieldsFail(ps: Params, show: Printer, fields: seq<Member>)
    ensures FailsAs(RenderFields(ps, show, fields), FirstError(ps, FieldPaths(fields)))
    decreases fields
  {
    hide ResolvePath, RenderNode, Paths;
    if fields != [] {
      RenderFails(ps, show, fields[0].value);
      FieldsFail(ps, show, fields[1..]);
      FirstErrorAppend(ps, Paths(fields[0].value), FieldPaths(fields[1..]));
    }
  }

  lemma {:induction false} ItemsFail(ps: Params, show: Printer, items: seq<Json>)
    ensures FailsAs(RenderItems(ps, show, items), FirstError(ps, ItemPaths(items)))
    decreases items
  {
    hide ResolvePath, RenderNode, Paths;
    if items != [] {
      RenderFails(ps, show, items[0]);
      ItemsFail(ps, show, items[1..]);
      FirstErrorAppend(ps, Paths(items[0]), ItemPaths(items[1..]));
    }
  }

  lemma RenderSucceedsExactly(ps: Params, show: Printer, node: Json)
    ensures RenderNode(ps, show, node).Ok? <==> AllResolve(ps, Paths(node))
  {
    RenderFails(ps, show, node);
    FirstErrorNone(ps, Paths(node));
  }

  /* ---- templates without placeholders ---- */

  lemma {:induction false} FillKeepsText(ps: Params, show: Printer, segs: seq<Segment>)
    requires SegmentPaths(segs) == []
    ensures Fill(ps, show, segs) == Ok(Join(segs))
  {
    if segs != [] {
      assert segs[0].Lit?;
      FillKeepsText(ps, show, segs[1..]);
    }
  }

  /** A template that names no parameter is returned as it is. */
  lemma {:induction false} NoPathsUnchanged(ps: Params, show: Printer, node: Json)
    requires Paths(node) == []
    ensures RenderNode(ps, show, node) == Ok(node)
    decreases node
  {
    hide Fill, Split, Join;
    match node {
      case Obj(fields) => FieldsUnchanged(ps, show, fields);
      case Arr(items) => ItemsUnchanged(ps, show, items);
      case Str(s) => FillKeepsText(ps, show, Split(s)); SplitJoins(s);
      case _ =>
    }
  }

  lemma {:induction false} FieldsUnchanged(ps: Params, show: Printer, fields: seq<Member>)
    requires FieldPaths(fields) == []
    ensures RenderFields(ps, show, fields) == Ok(fields)
    decreases fields
  {
    hide RenderNode, Paths;
    if fields != [] {
      NoPathsUnchanged(ps, show, fields[0].value);
      FieldsUnchanged(ps, show, fields[1..]);
      assert fields == [fields[0]] + fields[1..];
    }
  }

  lemma {:induction false} ItemsUnchanged(ps: Params, show: Printer, items: seq<Json>)
    requires ItemPaths(items) == []
    ensures RenderItems(ps, show, items) == Ok(items)
    decreases items
  {
    hide RenderNode, Paths;
    if items != [] {
      NoPathsUnchanged(ps, show, items[0]);
      ItemsUnchanged(ps, show, items[1..]);
      assert items == [items[0]] + items[1..];
    }
  }

  /* ---- what rendering depends on ---- */

  function Root(path: string): string {
    SplitDots(path)[0]
  }

  /** `ps` and `qs` treat the parameter `name` alike. */
  predicate Alike(ps: Params, qs: Params, name: string) {
    if name in ps then name in qs && ps[name] == qs[name] else name !in qs
  }

  ghost predicate Agree(ps: Params, qs: Params, paths: seq<string>) {
    forall p <- paths :: Alike(ps, qs, Root(p))
  }

  lemma AgreeParts(ps: Params, qs: Params, a: seq<string>, b: seq<string>)
    requires Agree(ps, qs, a + b)
    ensures Agree(ps, qs, a) && Agree(ps, qs, b)
  {
    hide Root, Alike;
    forall p <- a ensures Alike(ps, qs, Root(p)) { assert p in a + b; }
    forall p <- b ensures Alike(ps, qs, Root(p)) { assert p in a + b; }
  }

  lemma AgreeResolve(ps: Params, qs: Params, path: string)
    requires Alike(ps, qs, Root(path))
    ensures ResolvePath(ps, path) == ResolvePath(qs, path)
  {
    hide SplitDots, Descend;
  }

  lemma {:induction false} FillDepends(ps: Params, qs: Params, show: Printer, segs: seq<Segment>)
    requires Agree(ps, qs, SegmentPaths(segs))
    ensures Fill(ps, show, segs) == Fill(qs, show, segs)
  {
    hide ResolvePath, Trim, Agree, ParamToString;
    if segs != [] {
      var first := if segs[0].Hole? then [Trim(segs[0].raw)] else [];
      AgreeParts(ps, qs, first, SegmentPaths(segs[1..]));
      FillDepends(ps, qs, show, segs[1..]);
      if segs[0].Hole? {
        AgreeOne(ps, qs, first[0]);
      }
    }
  }

  lemma AgreeOne(ps: Params, qs: Params, path: string)
    requires Agree(ps, qs, [path])
    ensures ResolvePath(ps, path) == ResolvePath(qs, path)
  {
    hide Root, Alike, ResolvePath;
    assert path in [path];
    AgreeResolve(ps, qs, path);
  }

  /** Two parameter sets that agree on every root name in the template render it alike. */
  lemma {:induction false} RenderDependsOnNames(ps: Params, qs: Params, show: Printer, node: Json)
    requires Agree(ps, qs, Paths(node))
    ensures RenderNode(ps, show, node) == RenderNode(qs, show, node)
    decreases node
  {
    hide ResolvePath, Fill, Split, Agree;
    match node {
      case Obj(fields) =>
        if IsParamInject(node) {
          AgreeOne(ps, qs, fields[0].value.s);
        } else {
          FieldsDepend(ps, qs, show, fields);
        }
      case Arr(items) => ItemsDepend(ps, qs, show, items);
      case Str(s) => FillDepends(ps, qs, show, Split(s));
      case _ =>
    }
  }

  lemma {:induction false} FieldsDepend(ps: Params, qs: Params, show: Printer, fields: seq<Member>)
    requires Agree(ps, qs, FieldPaths(fields))
    ensures RenderFields(ps, show, fields) == RenderFields(qs, show, fields)
    decreases fields
  {
    hide RenderNode, Paths, Agree;
    if fields != [] {
      AgreeParts(ps, qs, Paths(fields[0].value), FieldPaths(fields[1..]));
      RenderDependsOnNames(ps, qs, show, fields[0].value);
      FieldsDepend(ps, qs, show, fields[1..]);
    }
  }

  lemma {:induction false} ItemsDepend(ps: Params, qs: Params, show: Printer, items: seq<Json>)
    requires Agree(ps, qs, ItemPaths(items))
    ensures RenderItems(ps, show, items) == RenderItems(qs, show, items)
    decreases items
  {
    hide RenderNode, Paths, Agree;
    if items != [] {
      AgreeParts(ps, qs, Paths(items[0]), ItemPaths(items[1..]));
      RenderDependsOnNames(ps, qs, show, items[0]);
      ItemsDepend(ps, qs, show, items[1..]);
    }
  }

  /* ---- shape ---- */

  /** An object whose only field is "$param" with a string is replaced by the value of that path, whatever its type. */
  lemma InjectMeaning(ps: Params, show: Printer, path: string)
    ensures RenderNode(ps, show, Obj([Member("$param", Str(path))])) == ResolvePath(ps, path)
  {
    hide ResolvePath;
  }

  /** Any other object stays an object, with its keys; an array stays an array; text stays text, its placeholders
      filled; anything else stays as it is. */
  lemma RenderedForm(ps: Params, show: Printer, node: Json)
    requires RenderNode(ps, show, node).Ok?
    ensures var r := RenderNode(ps, show, node).value;
            match node
            case Obj(fields) =>
              (|fields| == 1 && fields[0].key == "$param" && fields[0].value.Str?) ||
              (r.Obj? && |r.fields| == |fields| &&
               forall k :: 0 <= k < |fields| ==>
                 r.fields[k].key == fields[k].key && RenderNode(ps, show, fields[k].value) == Ok(r.fields[k].value))
            case Arr(items) =>
              r.Arr? && |r.items| == |items| &&
              forall k :: 0 <= k < |items| ==> RenderNode(ps, show, items[k]) == Ok(r.items[k])
            case Str(s) => r.Str? && Fill(ps, show, Split(s)) == Ok(r.s)
            case _ => r == node
  {
    hide Fill, Split, ResolvePath, RenderFields, RenderItems;
    match node {
      case Obj(fields) =>
        if !IsParamInject(node) {
          RenderKeepsKeys(ps, show, fields, 0);
          var r := RenderFields(ps, show, fields).value;
          forall k | 0 <= k < |fields|
            ensures r[k].key == fields[k].key && RenderNode(ps, show, fields[k].value) == Ok(r[k].value)
          {
            RenderKeepsKeys(ps, show, fields, k);
          }
        }
      case Arr(items) =>
        RenderKeepsItems(ps, show, items, 0);
        var r := RenderItems(ps, show, items).value;
        forall k | 0 <= k < |items| ensures RenderNode(ps, show, items[k]) == Ok(r[k]) {
          RenderKeepsItems(ps, show, items, k);
        }
      case _ =>
    }
  }

  lemma {:induction false} RenderKeepsItems(ps: Params, show: Printer, items: seq<Json>, k: nat)
    requires RenderItems(ps, show, items).Ok?
    ensures |RenderItems(ps, show, items).value| == |items|
    ensures k < |items| ==> RenderNode(ps, show, items[k]) == Ok(RenderItems(ps, show, items).value[k])
  {
    hide RenderNode;
    if items != [] {
      RenderKeepsItems(ps, show, items[1..], if k > 0 then k - 1 else 0);
    }
  }

  predicate Resolves(ps: Params, seg: Segment) {
    seg.Lit? || ResolvePath(ps, Trim(seg.raw)).Ok?
  }

  /** What one segment contributes, by itself. */
  function Piece(ps: Params, show: Printer, seg: Segment): string
    requires Resolves(ps, seg)
  {
    match seg
    case Lit(t) => t
    case Hole(raw) => ParamToString(show, ResolvePath(ps, Trim(raw)).value)
  }

  function Pieces(ps: Params, show: Printer, segs: seq<Segment>): seq<string>
    requires forall i :: 0 <= i < |segs| ==> Resolves(ps, segs[i])
  {
    seq(|segs|, i requires 0 <= i < |segs| => Piece(ps, show, segs[i]))
  }

  function Flat(parts: seq<string>): string {
    if parts == [] then "" else parts[0] + Flat(parts[1..])
  }

  /** When everything resolves, the result is the concatenation of what each segment contributes by itself: no value is
      looked at again, whatever it looks like and whatever stands beside it. */
  lemma {:induction false} ValuesAreNotRescanned(ps: Params, show: Printer, segs: seq<Segment>)
    requires forall i :: 0 <= i < |segs| ==> Resolves(ps, segs[i])
    ensures Fill(ps, show, segs) == Ok(Flat(Pieces(ps, show, segs)))
  {
    hide ResolvePath, Trim, ParamToString;
    if segs != [] {
      ValuesAreNotRescanned(ps, show, segs[1..]);
      var parts := Pieces(ps, show, segs);
      assert parts[1..] == Pieces(ps, show, segs[1..]);
      assert parts[0] == Piece(ps, show, segs[0]);
      assert "" + parts[0] == parts[0];
    }
  }

  /** An object or array keeps its length, and an object its keys in order. */
  lemma {:induction false} RenderKeepsKeys(ps: Params, show: Printer, fields: seq<Member>, k: nat)
    requires RenderFields(ps, show, fields).Ok?
    ensures |RenderFields(ps, show, fields).value| == |fields|
    ensures k < |fields| ==> RenderFields(ps, show, fields).value[k].key == fields[k].key &&
                             RenderNode(ps, show, fields[k].value) == Ok(RenderFields(ps, show, fields).value[k].value)
  {
    hide RenderNode;
    if fields != [] {
      RenderKeepsKeys(ps, show, fields[1..], if k > 0 then k - 1 else 0);
    }
  }
}
