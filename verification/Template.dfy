/** Template rendering over JSON trees (server/src/template/template_renderer.cpp). */
module Template {
  import opened TaskCommon
  import opened Text

  /** `Num` stands for a number that is not an integer, by its printed form.
      Object fields are listed in iteration order. */
  datatype Json =
    | Null
    | Bool(b: bool)
    | Int(i: int)
    | Num(digits: string)
    | Str(s: string)
    | Arr(items: seq<Json>)
    | Obj(fields: seq<Member>)

  datatype Member = Member(key: string, value: Json)

  type Params = map<string, Json>

  /** How values other than strings and booleans are printed; left open. */
  type Printer = Json -> string

  datatype Outcome<T> = Ok(value: T) | Err(error: string)

  /* ---- segments: what a template string means ---- */

  datatype Segment = Lit(text: string) | Hole(raw: string)

  const OPEN := "{{"
  const CLOSE := "}}"

  /** Literal text and placeholders, left to right; an unclosed brace pair is text. */
  function Split(s: string): (r: seq<Segment>)
    decreases |s|
  {
    if s == "" then []
    else
      match StartOf(s, 0)
      case Plain => [Lit(s)]
      case Unclosed(i) => [Lit(s[..i]), Lit(s[i..])]
      case Placeholder(i, j) => [Lit(s[..i]), Hole(s[i + 2..j])] + Split(s[j + 2..])
  }

  function Source(seg: Segment): string {
    match seg case Lit(t) => t case Hole(raw) => OPEN + raw + CLOSE
  }

  function Join(segs: seq<Segment>): string {
    if segs == [] then "" else Source(segs[0]) + Join(segs[1..])
  }

  lemma CutTwice(s: string, i: nat, j: nat)
    requires At(s, OPEN, i) && At(s, CLOSE, j) && i + 2 <= j
    ensures j + 2 <= |s| && s == s[..i] + ((OPEN + s[i + 2..j] + CLOSE) + s[j + 2..])
  {
    assert s == s[..i] + s[i..i + 2] + s[i + 2..j] + s[j..j + 2] + s[j + 2..];
  }

  lemma JoinTwo(x: Segment, y: Segment, rest: seq<Segment>)
    ensures Join([x, y] + rest) == Source(x) + (Source(y) + Join(rest))
  {
    var segs := [x, y] + rest;
    assert segs[1..] == [y] + rest;
    assert ([y] + rest)[1..] == rest;
  }

  /** The three ways a template string can start. */
  datatype Start = Plain | Unclosed(i: nat) | Placeholder(i: nat, j: nat)

  function StartOf(s: string, pos: nat): (r: Start)
    requires pos <= |s|
    ensures r.Unclosed? ==> pos <= r.i <= |s| - 2
    ensures r.Placeholder? ==> pos <= r.i && r.i + 2 <= r.j <= |s| - 2
  {
    var f := Find(s, OPEN, pos);
    if f.None? then Plain
    else
      var g := Find(s, CLOSE, f.value + 2);
      if g.None? then Unclosed(f.value) else Placeholder(f.value, g.value)
  }

  lemma StartShift(s: string, pos: nat)
    requires pos <= |s|
    ensures StartOf(s, pos) == match StartOf(s[pos..], 0)
                               case Plain => Plain
                               case Unclosed(i) => Unclosed(pos + i)
                               case Placeholder(i, j) => Placeholder(pos + i, pos + j)
  {
    hide Find;
    FindShift(s, OPEN, pos, 0);
    var f := Find(s, OPEN, pos);
    if f.Some? {
      FindShift(s, CLOSE, pos, f.value - pos + 2);
    }
  }

  lemma SplitFrom(s: string, pos: nat)
    requires pos < |s|
    ensures Split(s[pos..]) == match StartOf(s, pos)
                               case Plain => [Lit(s[pos..])]
                               case Unclosed(i) => [Lit(s[pos..i]), Lit(s[i..])]
                               case Placeholder(i, j) => [Lit(s[pos..i]), Hole(s[i + 2..j])] + Split(s[j + 2..])
  {
    hide StartOf;
    StartShift(s, pos);
    var w := s[pos..];
    match StartOf(w, 0) {
      case Plain =>
      case Unclosed(i) =>
        SliceOfRest(s, pos, 0, i);
        RestOfRest(s, pos, i);
        assert w[..i] == w[0..i];
      case Placeholder(i, j) =>
        SliceOfRest(s, pos, 0, i);
        SliceOfRest(s, pos, i + 2, j);
        RestOfRest(s, pos, j + 2);
        assert w[..i] == w[0..i];
    }
  }

  /** The segments are the template, cut up: nothing is lost or invented. */
  lemma {:induction false} SplitJoins(s: string)
    ensures Join(Split(s)) == s
    decreases |s|
  {
    hide Join, StartOf;
    if s == "" {
      JoinText("", "");
    } else {
      StartMeaning(s, 0);
      match StartOf(s, 0) {
        case Plain => JoinText("", s);
        case Unclosed(i) => JoinText(s[..i], s[i..]);
        case Placeholder(i, j) =>
          CutTwice(s, i, j);
          SplitJoins(s[j + 2..]);
          JoinTwo(Lit(s[..i]), Hole(s[i + 2..j]), Split(s[j + 2..]));
      }
    }
  }

  lemma JoinText(a: string, b: string)
    ensures Join(Split("")) == ""
    ensures Join([Lit(b)]) == b
    ensures Join([Lit(a), Lit(b)]) == a + b
  {
    assert [Lit(b)][1..] == [];
    assert b + "" == b;
    assert [Lit(a), Lit(b)][1..] == [Lit(b)];
  }

  ghost predicate Without(s: string, pat: string) {
    forall i :: 0 <= i ==> !At(s, pat, i)
  }

  /** How the cut falls: text before a placeholder holds no opening pair, a placeholder holds no
      closing pair, and only the last segment can be text with an unclosed pair, at its start. */
  ghost predicate WellCut(segs: seq<Segment>, k: nat)
    requires k < |segs|
  {
    match segs[k]
    case Hole(raw) => Without(raw, CLOSE)
    case Lit(t) => Without(t, OPEN) || (k == |segs| - 1 && At(t, OPEN, 0) && Without(t[2..], CLOSE))
  }

  lemma WithoutWithin(s: string, pat: string, from: nat, to: nat)
    requires from <= to <= |s|
    requires forall i :: from <= i < to ==> !At(s, pat, i) || i + |pat| > to
    ensures |pat| > 0 ==> Without(s[from..to], pat)
  {
    if |pat| > 0 {
      forall i | 0 <= i ensures !At(s[from..to], pat, i) {
        if i + |pat| <= to - from {
          SliceOfSlice(s, from, to, i, i + |pat|);
          assert !At(s, pat, from + i);
        }
      }
    }
  }

  /** What the two searches found. */
  lemma StartMeaning(s: string, pos: nat)
    requires pos <= |s|
    ensures match StartOf(s, pos)
            case Plain => Without(s[pos..], OPEN)
            case Unclosed(i) => At(s, OPEN, i) && Without(s[pos..i], OPEN) && Without(s[i + 2..], CLOSE)
            case Placeholder(i, j) =>
              At(s, OPEN, i) && At(s, CLOSE, j) && Without(s[pos..i], OPEN) && Without(s[i + 2..j], CLOSE)
  {
    hide At, Without, Find;
    var n := |s|;
    FindMeaning(s, OPEN, pos);
    var f := Find(s, OPEN, pos);
    if f.None? {
      WithoutWithin(s, OPEN, pos, n);
      assert s[pos..n] == s[pos..];
    } else {
      WithoutWithin(s, OPEN, pos, f.value);
      FindMeaning(s, CLOSE, f.value + 2);
      var g := Find(s, CLOSE, f.value + 2);
      WithoutWithin(s, CLOSE, f.value + 2, if g.None? then n else g.value);
      assert s[f.value + 2..n] == s[f.value + 2..];
    }
  }

  lemma {:induction false} SplitWellCut(s: string, k: nat)
    requires k < |Split(s)|
    ensures WellCut(Split(s), k)
    decreases |s|
  {
    hide At, Without, StartOf;
    StartMeaning(s, 0);
    match StartOf(s, 0) {
      case Plain =>
        assert s[0..] == s;
      case Unclosed(i) =>
        assert s[0..i] == s[..i];
        OpenHere(s, i);
        assert s[i + 2..] == s[i..][2..];
      case Placeholder(i, j) =>
        assert s[0..i] == s[..i];
        if k >= 2 {
          SplitWellCut(s[j + 2..], k - 2);
        }
    }
  }

  lemma OpenHere(s: string, i: nat)
    requires At(s, OPEN, i)
    ensures i + 2 <= |s| && At(s[i..], OPEN, 0)
  {
    assert s[i..][0..2] == s[i..i + 2];
  }

  /* ---- the braces themselves ---- */

  lemma FindsPair(a: string, c: char, rest: string, from: nat)
    requires c !in a && from <= |a|
    ensures Find(a + [c, c] + rest, [c, c], from) == Some(|a|)
    decreases |a| - from
  {
    var s := a + [c, c] + rest;
    if from < |a| {
      assert s[from..from + 2][0] == s[from] && s[from] in a;
      FindsPair(a, c, rest, from + 1);
    } else {
      assert s[from..from + 2] == [c, c];
    }
  }

  lemma FindsNoPair(a: string, c: char, from: nat)
    requires c !in a
    ensures Find(a, [c, c], from) == None
    decreases |a| - from
  {
    if from + 2 <= |a| {
      assert a[from..from + 2][0] == a[from] && a[from] in a;
      FindsNoPair(a, c, from + 1);
    }
  }

  /** A placeholder is what stands between two opening and two closing braces; what follows is cut up by itself. */
  lemma SplitPlaceholder(a: string, key: string, rest: string)
    requires '{' !in a && '}' !in key
    ensures Split(a + "{{" + key + "}}" + rest) == [Lit(a), Hole(key)] + Split(rest)
  {
    hide StartOf;
    var s := a + "{{" + key + "}}" + rest;
    var i, j := |a|, |a| + 2 + |key|;
    StartAtPlaceholder(a, key, rest);
    assert s[..i] == a && s[i + 2..j] == key && s[j + 2..] == rest;
  }

  lemma StartAtPlaceholder(a: string, key: string, rest: string)
    requires '{' !in a && '}' !in key
    ensures StartOf(a + "{{" + key + "}}" + rest, 0) == Placeholder(|a|, |a| + 2 + |key|)
  {
    hide Find;
    var tail := key + "}}" + rest;
    var b := a + "{{";
    var s := b + tail;
    assert a + "{{" + key + "}}" + rest == s && s == a + ['{', '{'] + tail;
    FindsPair(a, '{', tail, 0);
    FindsPair(key, '}', rest, 0);
    assert s[|b|..] == tail;
    FindShift(s, CLOSE, |b|, 0);
  }

  /** Text without braces is text, and so is an opening pair that is never closed. */
  lemma SplitText(a: string, b: string)
    requires '{' !in a && '}' !in b
    ensures a != "" ==> Split(a) == [Lit(a)]
    ensures Split(a + "{{" + b) == [Lit(a), Lit("{{" + b)]
  {
    hide StartOf;
    StartInText(a, b);
    var s := a + "{{" + b;
    assert s[..|a|] == a && s[|a|..] == "{{" + b;
  }

  lemma StartInText(a: string, b: string)
    requires '{' !in a && '}' !in b
    ensures StartOf(a, 0) == Plain
    ensures StartOf(a + "{{" + b, 0) == Unclosed(|a|)
  {
    hide Find;
    FindsNoPair(a, '{', 0);
    var p := a + "{{";
    var s := p + b;
    assert s == a + ['{', '{'] + b;
    FindsPair(a, '{', b, 0);
    FindsNoPair(b, '}', 0);
    assert s[|p|..] == b;
    FindShift(s, CLOSE, |p|, 0);
  }

  /* ---- looking a parameter up ---- */

  function SplitDots(path: string): (parts: seq<string>)
    ensures |parts| > 0
    decreases |path|
  {
    match Find(path, ".", 0)
    case None => [path]
    case Some(i) => [path[..i]] + SplitDots(path[i + 1..])
  }

  function JoinDots(parts: seq<string>): string
    requires |parts| > 0
  {
    if |parts| == 1 then parts[0] else parts[0] + "." + JoinDots(parts[1..])
  }

  /** Dotted paths are cut at every dot and nowhere else. */
  lemma {:induction false} SplitDotsJoins(path: string)
    ensures JoinDots(SplitDots(path)) == path
    ensures forall i :: 0 <= i < |SplitDots(path)| ==> '.' !in SplitDots(path)[i]
    decreases |path|
  {
    hide Find, At, JoinDots;
    var f := Find(path, ".", 0);
    FindMeaning(path, ".", 0);
    if f.None? {
      NoDotBefore(path, |path|);
      assert path[..|path|] == path;
      JoinOne(path);
    } else {
      var i := f.value;
      SplitDotsJoins(path[i + 1..]);
      NoDotBefore(path, i);
      JoinMore(path[..i], SplitDots(path[i + 1..]));
      CutAtDot(path, i);
    }
  }

  lemma NoDotBefore(path: string, n: nat)
    requires n <= |path| && forall k :: 0 <= k < n ==> !At(path, ".", k)
    ensures '.' !in path[..n]
  {
    forall k | 0 <= k < n ensures path[..n][k] != '.' {
      assert path[k..k + 1] == [path[k]];
      assert !At(path, ".", k);
    }
  }

  lemma CutAtDot(path: string, i: nat)
    requires At(path, ".", i)
    ensures i < |path| && path == path[..i] + "." + path[i + 1..]
  {
    assert path == path[..i] + path[i..i + 1] + path[i + 1..];
  }

  lemma JoinOne(part: string)
    ensures JoinDots([part]) == part
  {
  }

  lemma JoinMore(part: string, rest: seq<string>)
    requires |rest| > 0
    ensures JoinDots([part] + rest) == part + "." + JoinDots(rest)
  {
    assert ([part] + rest)[1..] == rest;
  }

  function Field(fields: seq<Member>, name: string): Option<Json> {
    if fields == [] then None
    else if fields[0].key == name then Some(fields[0].value)
    else Field(fields[1..], name)
  }

  /** The value under the first field of that name, if there is one. */
  lemma {:induction false} FieldMeaning(fields: seq<Member>, name: string)
    ensures Field(fields, name).Some? ==>
              exists i :: 0 <= i < |fields| && fields[i].key == name && fields[i].value == Field(fields, name).value &&
                forall k :: 0 <= k < i ==> fields[k].key != name
    ensures Field(fields, name).None? ==> forall k :: 0 <= k < |fields| ==> fields[k].key != name
  {
    if fields != [] && fields[0].key != name {
      FieldMeaning(fields[1..], name);
      if Field(fields[1..], name).Some? {
        var i :| 0 <= i < |fields[1..]| && fields[1..][i].key == name &&
          fields[1..][i].value == Field(fields[1..], name).value &&
          forall k :: 0 <= k < i ==> fields[1..][k].key != name;
        assert fields[i + 1].key == name;
        forall k | 0 <= k < i + 1 ensures fields[k].key != name {
          if k > 0 {
            assert fields[1..][k - 1].key != name;
          }
        }
      } else {
        forall k | 0 <= k < |fields| ensures fields[k].key != name {
          if k > 0 {
            assert fields[1..][k - 1].key != name;
          }
        }
      }
    }
  }

  /** Follow `parts` from `cur`; `parent` is the name just followed. */
  function Descend(cur: Json, parent: string, parts: seq<string>): Outcome<Json>
    decreases |parts|
  {
    if parts == [] then Ok(cur)
    else if !cur.Obj? then Err("param is not object: " + parent)
    else
      match Field(cur.fields, parts[0])
      case None => Err("missing param field: " + parts[0])
      case Some(v) => Descend(v, parts[0], parts[1..])
  }

  function Lookup(ps: Params, parts: seq<string>): Outcome<Json>
    requires |parts| > 0
  {
    if parts[0] !in ps then Err("missing param: " + parts[0])
    else Descend(ps[parts[0]], parts[0], parts[1..])
  }

  function ResolvePath(ps: Params, path: string): Outcome<Json> {
    Lookup(ps, SplitDots(path))
  }

  lemma FindsDot(path: string, rest: string, from: nat)
    requires '.' !in path && from <= |path|
    ensures Find(path + "." + rest, ".", from) == Some(|path|)
    ensures Find(path, ".", from) == None
    decreases |path| - from
  {
    var s := path + "." + rest;
    if from < |path| {
      assert s[from..from + 1] == [s[from]] && path[from..from + 1] == [path[from]];
      assert s[from] == path[from] && path[from] in path;
      FindsDot(path, rest, from + 1);
    } else {
      assert s[from..from + 1] == ".";
    }
  }

  lemma {:induction false} SplitDotsSnoc(path: string, name: string)
    requires '.' !in name
    ensures SplitDots(path + "." + name) == SplitDots(path) + [name]
    decreases |path|
  {
    FindMeaning(path, ".", 0);
    var f := Find(path, ".", 0);
    var s := path + "." + name;
    if f.None? {
      NoDotBefore(path, |path|);
      assert path[..|path|] == path;
      FindsDot(path, name, 0);
      FindsDot(name, "", 0);
      assert s[..|path|] == path && s[|path| + 1..] == name;
      assert SplitDots(name) == [name];
    } else {
      var i := f.value;
      NoDotBefore(path, i);
      CutAtDot(path, i);
      var a, b := path[..i], path[i + 1..];
      SplitDotsSnoc(b, name);
      FindsDot(a, b + "." + name, 0);
      assert s == a + "." + (b + "." + name);
      assert s[..i] == a && s[i + 1..] == b + "." + name;
    }
  }

  lemma {:induction false} DescendSnoc(cur: Json, parent: string, parts: seq<string>, name: string)
    ensures var r := Descend(cur, parent, parts);
            Descend(cur, parent, parts + [name]) ==
              if r.Err? then r
              else if !r.value.Obj? then
                Err("param is not object: " + (if parts == [] then parent else parts[|parts| - 1]))
              else if Field(r.value.fields, name).None? then Err("missing param field: " + name)
              else Ok(Field(r.value.fields, name).value)
    decreases |parts|
  {
    hide Field;
    if parts == [] {
      assert parts + [name] == [name];
      assert [name][1..] == [];
    } else {
      assert (parts + [name])[1..] == parts[1..] + [name];
      if cur.Obj? {
        var f := Field(cur.fields, parts[0]);
        if f.Some? {
          DescendSnoc(f.value, parts[0], parts[1..], name);
        }
      }
    }
  }

  /** A path with one name more goes one field deeper. */
  lemma PathStep(ps: Params, path: string, name: string)
    requires '.' !in name
    ensures var r, deeper := ResolvePath(ps, path), ResolvePath(ps, path + "." + name);
            if r.Err? then deeper == r
            else if !r.value.Obj? then deeper.Err?
            else if Field(r.value.fields, name).None? then deeper == Err("missing param field: " + name)
            else deeper == Ok(Field(r.value.fields, name).value)
  {
    hide SplitDots, Field;
    SplitDotsSnoc(path, name);
    var parts := SplitDots(path);
    if parts[0] in ps {
      DescendSnoc(ps[parts[0]], parts[0], parts[1..], name);
      assert (parts + [name])[1..] == parts[1..] + [name];
    }
  }

  lemma SplitDotsFrom(path: string, start: nat)
    requires start <= |path|
    ensures Find(path, ".", start).None? ==> SplitDots(path[start..]) == [path[start..]]
    ensures Find(path, ".", start).Some? ==>
              var dot := Find(path, ".", start).value;
              start <= dot < |path| && SplitDots(path[start..]) == [path[start..dot]] + SplitDots(path[dot + 1..])
  {
    FindShift(path, ".", start, 0);
    if Find(path, ".", start).Some? {
      var dot := Find(path, ".", start).value;
      assert path[start..][..dot - start] == path[start..dot];
      assert path[start..][dot - start + 1..] == path[dot + 1..];
    }
  }

  /** The first loop of `resolveParamPath_`. */
  method CutPath(path: string) returns (parts: seq<string>)
    ensures parts == SplitDots(path)
  {
    hide SplitDots, At;
    parts := [];
    var start := 0;
    assert path[0..] == path;
    while true
      invariant 0 <= start <= |path|
      invariant parts + SplitDots(path[start..]) == SplitDots(path)
      decreases |path| - start
    {
      SplitDotsFrom(path, start);
      var f := Find(path, ".", start);
      if f.None? {
        return parts + [path[start..]];
      }
      var dot := f.value;
      ghost var rest := SplitDots(path[dot + 1..]);
      assert parts + ([path[start..dot]] + rest) == (parts + [path[start..dot]]) + rest;
      parts := parts + [path[start..dot]];
      start := dot + 1;
    }
  }

  /** `resolveParamPath_`: cut the path at its dots, then walk down. */
  method ResolveParamPath(ps: Params, path: string) returns (r: Outcome<Json>)
    ensures r == ResolvePath(ps, path)
  {
    hide SplitDots;
    var parts := CutPath(path);
    if parts[0] !in ps {
      return Err("missing param: " + parts[0]);
    }
    var cur := ps[parts[0]];
    for i := 1 to |parts|
      invariant Descend(cur, parts[i - 1], parts[i..]) == ResolvePath(ps, path)
    {
      if !cur.Obj? {
        return Err("param is not object: " + parts[i - 1]);
      }
      assert parts[i..][1..] == parts[i + 1..];
      match Field(cur.fields, parts[i]) {
        case None => return Err("missing param field: " + parts[i]);
        case Some(v) => cur := v;
      }
    }
    return Ok(cur);
  }

  /** A key without a dot is one name, so the direct lookup and the path walk agree. */
  lemma DotFreeKey(ps: Params, key: string)
    requires Find(key, ".", 0).None?
    ensures ResolvePath(ps, key) == if key in ps then Ok(ps[key]) else Err("missing param: " + key)
    ensures SplitDots(key) == [key]
  {
  }

  /* ---- keys ---- */

  function TrimFront(s: string): string {
    if s != "" && Space(s[0]) then TrimFront(s[1..]) else s
  }

  function TrimBack(s: string): string {
    if s != "" && Space(s[|s| - 1]) then TrimBack(s[..|s| - 1]) else s
  }

  function Trim(s: string): string {
    TrimBack(TrimFront(s))
  }

  ghost predicate AllSpace(s: string) {
    forall i :: 0 <= i < |s| ==> Space(s[i])
  }

  lemma {:induction false} TrimFrontMeaning(s: string) returns (n: nat)
    ensures n <= |s| && TrimFront(s) == s[n..] && AllSpace(s[..n])
    ensures n < |s| ==> !Space(s[n])
  {
    n := 0;
    if s != "" && Space(s[0]) {
      var m := TrimFrontMeaning(s[1..]);
      n := m + 1;
      assert s[..n] == [s[0]] + s[1..][..m];
    }
  }

  lemma AllSpaceSnoc(s: string, c: char)
    requires AllSpace(s) && Space(c)
    ensures AllSpace(s + [c])
  {
  }

  lemma {:induction false} TrimBackMeaning(s: string) returns (n: nat)
    ensures n <= |s| && TrimBack(s) == s[..n] && AllSpace(s[n..])
    ensures n > 0 ==> !Space(s[n - 1])
  {
    hide Space;
    n := |s|;
    if s != "" && Space(s[|s| - 1]) {
      var front := s[..|s| - 1];
      n := TrimBackMeaning(front);
      assert front[..n] == s[..n];
      assert s[n..] == front[n..] + [s[|s| - 1]];
      AllSpaceSnoc(front[n..], s[|s| - 1]);
      assert n > 0 ==> front[n - 1] == s[n - 1];
    }
  }

  /** Trimming drops white space at both ends and nothing else. */
  lemma TrimMeaning(s: string) returns (before: string, after: string)
    ensures s == before + Trim(s) + after && AllSpace(before) && AllSpace(after)
    ensures Trim(s) != "" ==> !Space(Trim(s)[0]) && !Space(Trim(s)[|Trim(s)| - 1])
  {
    var i := TrimFrontMeaning(s);
    var n := TrimBackMeaning(s[i..]);
    before, after := s[..i], s[i..][n..];
  }

  /** The two erasing loops on a key. */
  method TrimKey(raw: string) returns (key: string)
    ensures key == Trim(raw)
  {
    key := raw;
    while key != "" && Space(key[0])
      invariant TrimFront(key) == TrimFront(raw)
      decreases |key|
    {
      key := key[1..];
    }
    while key != "" && Space(key[|key| - 1])
      invariant TrimBack(key) == Trim(raw)
      decreases |key|
    {
      key := key[..|key| - 1];
    }
  }

  /* ---- strings ---- */

  function ParamToString(show: Printer, v: Json): string {
    match v
    case Str(s) => s
    case Bool(b) => if b then "true" else "false"
    case _ => show(v)
  }

  function Prefixed(text: string, o: Outcome<string>): Outcome<string> {
    if o.Ok? then Ok(text + o.value) else o
  }

  /** Substitute once, left to right; the first unresolved placeholder is the error. */
  function Fill(ps: Params, show: Printer, segs: seq<Segment>): Outcome<string> {
    if segs == [] then Ok("")
    else
      match segs[0]
      case Lit(t) => Prefixed(t, Fill(ps, show, segs[1..]))
      case Hole(raw) => Plugged("", show, ResolvePath(ps, Trim(raw)), Fill(ps, show, segs[1..]))
  }

  /** `text`, then the value of a placeholder, then the rest. */
  function Plugged(text: string, show: Printer, v: Outcome<Json>, rest: Outcome<string>): Outcome<string> {
    if v.Err? then Err(v.error) else Prefixed(text + ParamToString(show, v.value), rest)
  }

  /** What a placeholder for one name leaves in the text: a string as it is, true or false for a truth value, and
      what the printer makes of anything else. */
  lemma PlaceholderPrints(ps: Params, show: Printer, raw: string)
    requires Find(Trim(raw), ".", 0).None? && Trim(raw) in ps
    ensures Fill(ps, show, [Hole(raw)]) ==
              var v := ps[Trim(raw)];
              Ok(if v.Str? then v.s else if v.Bool? then (if v.b then "true" else "false") else show(v))
  {
    hide Trim, Find;
    DotFreeKey(ps, Trim(raw));
    var shown := ParamToString(show, ps[Trim(raw)]);
    assert [Hole(raw)][1..] == [];
    assert "" + shown == shown && shown + "" == shown;
  }

  lemma PrefixedTwice(a: string, b: string, o: Outcome<string>)
    ensures Prefixed(a, Prefixed(b, o)) == Prefixed(a + b, o)
  {
    if o.Ok? {
      assert a + (b + o.value) == a + b + o.value;
    }
  }

  /** One turn of the scan, on the specification's side. */
  lemma FillTwo(ps: Params, show: Printer, lit: string, raw: string, rest: seq<Segment>)
    ensures Fill(ps, show, [Lit(lit), Hole(raw)] + rest) ==
              Plugged(lit, show, ResolvePath(ps, Trim(raw)), Fill(ps, show, rest))
  {
    hide ResolvePath, Trim, ParamToString;
    var segs := [Lit(lit), Hole(raw)] + rest;
    assert segs[1..] == [Hole(raw)] + rest;
    assert ([Hole(raw)] + rest)[1..] == rest;
    var r := ResolvePath(ps, Trim(raw));
    if r.Ok? {
      var shown := ParamToString(show, r.value);
      assert "" + shown == shown;
      PrefixedTwice(lit, shown, Fill(ps, show, rest));
    }
  }

  lemma PrefixedNothing(out: string, o: Outcome<string>)
    ensures Prefixed("", o) == o
    ensures Prefixed(out, Ok("")) == Ok(out)
  {
    assert out + "" == out;
    if o.Ok? {
      assert "" + o.value == o.value;
    }
  }

  lemma FillText(ps: Params, show: Printer, a: string, b: string)
    ensures Fill(ps, show, [Lit(a), Lit(b)]) == Ok(a + b)
    ensures Fill(ps, show, [Lit(b)]) == Ok(b)
  {
    hide ResolvePath, Trim, Plugged;
    var one, two := [Lit(b)], [Lit(a), Lit(b)];
    assert one[1..] == [] && two[1..] == one;
    assert Fill(ps, show, one[1..]) == Ok("");
    assert Fill(ps, show, one) == Prefixed(b, Ok(""));
    PrefixedNothing(b, Ok(b));
    assert Fill(ps, show, two) == Prefixed(a, Fill(ps, show, one));
  }

  /** The parameter a key names: by path when it has a dot, directly otherwise. */
  method ResolveKey(ps: Params, key: string) returns (r: Outcome<Json>)
    ensures r == ResolvePath(ps, key)
  {
    if Find(key, ".", 0).Some? {
      r := ResolveParamPath(ps, key);
    } else {
      DotFreeKey(ps, key);
      r := if key in ps then Ok(ps[key]) else Err("missing param: " + key);
    }
  }

  /** The in-place scan is "split, then substitute once". */
  method RenderString(ps: Params, show: Printer, s: string) returns (r: Outcome<string>)
    ensures r == Fill(ps, show, Split(s))
  {
    hide Find, Split, Fill, ResolvePath, Trim, ParamToString;
    if s == "" {
      FillNothing(ps, show);
      return Ok(s);
    }
    var out := "";
    var pos := 0;
    ghost var meaning := Fill(ps, show, Split(s));
    assert s[0..] == s;
    PrefixedNothing("", meaning);
    while pos < |s|
      invariant 0 <= pos <= |s|
      invariant meaning == Prefixed(out, Fill(ps, show, Split(s[pos..])))
      decreases |s| - pos
    {
      SplitFrom(s, pos);
      var f := Find(s, OPEN, pos);
      if f.None? {
        FillText(ps, show, "", s[pos..]);
        return Ok(out + s[pos..]);
      }
      var start := f.value;
      var text := s[pos..start];
      var g := Find(s, CLOSE, start + 2);
      if g.None? {
        FillText(ps, show, text, s[start..]);
        return Ok(out + (text + s[start..]));
      }
      var end := g.value;
      var raw := s[start + 2..end];
      FillTwo(ps, show, text, raw, Split(s[end + 2..]));
      var key := TrimKey(raw);
      var v := ResolveKey(ps, key);
      if v.Err? {
        return Err(v.error);
      }
      var shown := ParamToString(show, v.value);
      PrefixedTwice(out, text + shown, Fill(ps, show, Split(s[end + 2..])));
      out := out + (text + shown);
      pos := end + 2;
    }
    assert s[pos..] == "";
    FillNothing(ps, show);
    PrefixedNothing(out, meaning);
    return Ok(out);
  }

  lemma FillNothing(ps: Params, show: Printer)
    ensures Fill(ps, show, Split("")) == Ok("")
  {
  }
}
