/** Five-field cron expressions (server/src/scheduler/cron_parser.cpp). A thrown exception is `None`. */
module CronParser {
  import opened TaskCommon
  import opened Text

  /* ---- std::stoi ---- */

  const INT_MIN := -0x8000_0000
  const INT_MAX := 0x7fff_ffff

  predicate Digit(c: char) {
    '0' <= c <= '9'
  }

  /** How many digits `s` starts with. */
  function DigitCount(s: string): (n: nat)
    ensures n <= |s| && forall i :: 0 <= i < n ==> Digit(s[i])
    ensures n < |s| ==> !Digit(s[n])
  {
    if s != "" && Digit(s[0]) then 1 + DigitCount(s[1..]) else 0
  }

  function Value(ds: string): nat
    requires forall i :: 0 <= i < |ds| ==> Digit(ds[i])
  {
    if ds == "" then 0
    else
      assert Digit(ds[|ds| - 1]);
      10 * Value(ds[..|ds| - 1]) + (ds[|ds| - 1] as int - '0' as int)
  }

  function Unsigned(s: string, negative: bool): Option<int> {
    var n := DigitCount(s);
    if n == 0 then None
    else
      var size: int := Value(s[..n]);
      var v := if negative then -size else size;
      if INT_MIN <= v <= INT_MAX then Some(v) else None
  }

  /** White space, an optional sign, then digits; anything after them is ignored. */
  function Stoi(s: string): Option<int> {
    if s != "" && Space(s[0]) then Stoi(s[1..])
    else if s != "" && (s[0] == '-' || s[0] == '+') then Unsigned(s[1..], s[0] == '-')
    else Unsigned(s, false)
  }

  /* ---- one token: a range with a step ---- */

  datatype Range = Range(lo: int, hi: int, step: int)
  {
    predicate Covers(v: int)
      requires step > 0
    {
      lo <= v <= hi && (v - lo) % step == 0
    }
  }

  function StepOf(token: string, slash: Option<nat>): Option<int> {
    if slash.None? then Some(1)
    else if slash.value + 1 >= |token| then None
    else
      var step := Stoi(token[slash.value + 1..]);
      if step.Some? && step.value > 0 then step else None
  }

  function BoundsOf(base: string, min: int, max: int): Option<(int, int)> {
    if base == "*" then Some((min, max))
    else
      var dash := Find(base, "-", 0);
      if dash.None? then
        var v := Stoi(base);
        if v.None? || v.value < min || v.value > max then None else Some((v.value, v.value))
      else if dash.value == 0 || dash.value + 1 >= |base| then None
      else
        var lo := Stoi(base[..dash.value]);
        var hi := Stoi(base[dash.value + 1..]);
        if lo.None? || hi.None? || lo.value < min || hi.value > max || lo.value > hi.value then None
        else Some((lo.value, hi.value))
  }

  /** What a token means, or `None` where the code throws. */
  function RangeOf(token: string, min: int, max: int): (r: Option<Range>)
    ensures r.Some? ==> r.value.step > 0 && token != ""
    ensures r.Some? && min <= max ==> min <= r.value.lo <= r.value.hi <= max
  {
    if token == "" then None
    else
      var slash := Find(token, "/", 0);
      var base := if slash.None? then token else token[..slash.value];
      var step := StepOf(token, slash);
      var bounds := BoundsOf(base, min, max);
      if step.None? || bounds.None? then None
      else Some(Range(bounds.value.0, bounds.value.1, step.value))
  }

  ghost predicate Increasing(vs: seq<int>) {
    forall i, j :: 0 <= i < j < |vs| ==> vs[i] < vs[j]
  }

  /** `parseRange`: the covered values, in order. */
  method ParseRange(token: string, min: int, max: int) returns (r: Option<seq<int>>)
    requires min <= max
    ensures r.Some? <==> RangeOf(token, min, max).Some?
    ensures r.Some? ==> Increasing(r.value) && forall v :: v in r.value <==> RangeOf(token, min, max).value.Covers(v)
  {
    hide StepOf, BoundsOf, Find;
    if token == "" {
      return None;
    }
    var slash := Find(token, "/", 0);
    var base := if slash.None? then token else token[..slash.value];
    var step := StepOf(token, slash);
    if step.None? {
      return None;
    }
    var bounds := BoundsOf(base, min, max);
    if bounds.None? {
      return None;
    }
    var lo, hi := bounds.value.0, bounds.value.1;
    assert RangeOf(token, min, max) == Some(Range(lo, hi, step.value));
    var vs := RangeValues(Range(lo, hi, step.value));
    return Some(vs);
  }

  /** The filling loop of `parseRange`. */
  method RangeValues(range: Range) returns (vs: seq<int>)
    requires range.step > 0
    ensures Increasing(vs)
    ensures forall v :: v in vs <==> range.Covers(v)
  {
    vs := [];
    var v := range.lo;
    ghost var n := 0;
    while v <= range.hi
      invariant v == range.lo + n * range.step && n == |vs|
      invariant forall i :: 0 <= i < n ==> vs[i] == range.lo + i * range.step
      invariant forall i :: 0 <= i < n ==> vs[i] <= range.hi
      decreases range.hi - v
    {
      vs := vs + [v];
      StepOnce(n, range.step);
      v, n := v + range.step, n + 1;
    }
    forall i, j | 0 <= i < j < n ensures vs[i] < vs[j] {
      StepsRise(i, j, range.step);
    }
    forall i | 0 <= i < n ensures range.Covers(vs[i]) {
      StepsDivide(i, range.step);
    }
    forall w | range.Covers(w) ensures w in vs {
      var i := (w - range.lo) / range.step;
      Quotient(w - range.lo, range.step);
      if i >= n {
        StepsRise(n, i, range.step);
      }
      assert vs[i] == w;
    }
  }

  lemma StepOnce(n: nat, step: int)
    ensures (n + 1) * step == n * step + step
  {
  }

  lemma StepsRise(i: nat, j: nat, step: int)
    requires step > 0 && i <= j
    ensures i * step <= j * step
    ensures i < j ==> i * step < j * step
  {
    assert j * step == i * step + (j - i) * step;
  }

  lemma StepsDivide(i: nat, step: int)
    requires step > 0
    ensures i * step >= 0 && (i * step) % step == 0
  {
    var q, r := (i * step) / step, (i * step) % step;
    assert (i - q) * step == r;
    if i - q >= 1 {
      assert (i - q) * step == step + (i - q - 1) * step;
    } else if i - q <= -1 {
      assert (q - i) * step == step + (q - i - 1) * step;
    }
  }

  lemma Quotient(d: nat, step: int)
    requires step > 0 && d % step == 0
    ensures d / step >= 0 && (d / step) * step == d
  {
  }

  /* ---- one field: tokens between commas ---- */

  /** A comma at the very end starts no token. */
  function Tokens(field: string, start: nat): seq<string>
    decreases |field| - start
  {
    if start >= |field| then []
    else
      var end := Find(field, ",", start);
      if end.None? then [field[start..]]
      else [field[start..end.value]] + Tokens(field, end.value + 1)
  }

  ghost predicate AllParse(tokens: seq<string>, min: int, max: int) {
    forall t <- tokens :: RangeOf(t, min, max).Some?
  }

  ghost predicate Covers(tokens: seq<string>, min: int, max: int, v: int) {
    exists t <- tokens :: TokenCovers(t, min, max, v)
  }

  predicate TokenCovers(t: string, min: int, max: int, v: int) {
    RangeOf(t, min, max).Some? && RangeOf(t, min, max).value.Covers(v)
  }

  lemma CoversSnoc(tokens: seq<string>, t: string, min: int, max: int, v: int)
    ensures Covers(tokens + [t], min, max, v) <==> Covers(tokens, min, max, v) || TokenCovers(t, min, max, v)
    ensures AllParse(tokens + [t], min, max) <==> AllParse(tokens, min, max) && RangeOf(t, min, max).Some?
  {
    hide TokenCovers, RangeOf;
    var longer := tokens + [t];
    assert t in longer;
    assert forall x <- tokens :: x in longer;
    assert forall x <- longer :: x in tokens || x == t;
  }

  lemma AllParsePrefix(a: seq<string>, b: seq<string>, t: string, min: int, max: int)
    requires t in b && RangeOf(t, min, max).None?
    ensures !AllParse(a + b, min, max)
  {
    hide RangeOf;
    assert t in a + b;
  }

  /** The next token of a field, and where the one after it starts. */
  method NextToken(field: string, start: nat) returns (token: string, next: nat)
    requires start < |field|
    ensures start < next && Tokens(field, start) == [token] + Tokens(field, next)
  {
    hide Find;
    var end := Find(field, ",", start);
    if end.None? {
      token, next := field[start..], |field|;
    } else {
      token, next := field[start..end.value], end.value + 1;
    }
  }

  lemma TokensEnd(field: string, start: nat)
    requires start >= |field|
    ensures Tokens(field, start) == []
  {
  }

  /** `seen` marks the values that some token covers. */
  ghost predicate Marks(seen: seq<bool>, tokens: seq<string>, min: int, max: int) {
    |seen| == max - min + 1 && forall i :: 0 <= i < |seen| ==> (seen[i] <==> Covers(tokens, min, max, min + i))
  }

  lemma MarksSnoc(before: seq<bool>, after: seq<bool>, tokens: seq<string>, t: string, min: int, max: int)
    requires Marks(before, tokens, min, max) && |after| == |before|
    requires forall i :: 0 <= i < |after| ==> (after[i] <==> before[i] || TokenCovers(t, min, max, min + i))
    ensures Marks(after, tokens + [t], min, max)
  {
    hide Covers, TokenCovers;
    forall i | 0 <= i < |after| ensures after[i] <==> Covers(tokens + [t], min, max, min + i) {
      CoversSnoc(tokens, t, min, max, min + i);
      assert before[i] <==> Covers(tokens, min, max, min + i);
    }
  }

  /** The token loop of `parseField`: which values some token covers. */
  method MarkSeen(field: string, min: int, max: int) returns (seen: Option<seq<bool>>)
    requires min <= max
    ensures seen.Some? <==> AllParse(Tokens(field, 0), min, max)
    ensures seen.Some? ==> Marks(seen.value, Tokens(field, 0), min, max)
  {
    hide RangeOf, TokenCovers, AllParse, Covers, Tokens, Marks;
    var marks := new bool[max - min + 1](i => false);
    var start := 0;
    ghost var done: seq<string> := [];
    NothingCovered(marks[..], min, max);
    assert [] + Tokens(field, 0) == Tokens(field, 0);
    while start < |field|
      invariant done + Tokens(field, start) == Tokens(field, 0)
      invariant AllParse(done, min, max) && Marks(marks[..], done, min, max)
      decreases |field| - start
    {
      var token, next := NextToken(field, start);
      var values := ParseRange(token, min, max);
      if values.None? {
        AllParsePrefix(done, Tokens(field, start), token, min, max);
        return None;
      }
      ghost var before := marks[..];
      MarkAll(marks, values.value, min, max, token);
      MarksSnoc(before, marks[..], done, token, min, max);
      CoversSnoc(done, token, min, max, min);
      assert (done + [token]) + Tokens(field, next) == done + ([token] + Tokens(field, next));
      done, start := done + [token], next;
    }
    TokensEnd(field, start);
    assert done + [] == done;
    return Some(marks[..]);
  }

  lemma NothingCovered(seen: seq<bool>, min: int, max: int)
    requires |seen| == max - min + 1 && forall i :: 0 <= i < |seen| ==> !seen[i]
    ensures AllParse([], min, max) && Marks(seen, [], min, max)
  {
  }

  method MarkAll(marks: array<bool>, values: seq<int>, min: int, max: int, token: string)
    requires min <= max && marks.Length == max - min + 1
    requires RangeOf(token, min, max).Some?
    requires forall v :: v in values <==> RangeOf(token, min, max).value.Covers(v)
    modifies marks
    ensures forall i :: 0 <= i < marks.Length ==> (marks[i] <==> old(marks[i]) || TokenCovers(token, min, max, min + i))
  {
    hide RangeOf;
    for k := 0 to |values|
      invariant forall i :: 0 <= i < marks.Length ==> (marks[i] <==> old(marks[i]) || min + i in values[..k])
    {
      assert values[k] in values;
      marks[values[k] - min] := true;
      assert values[..k + 1] == values[..k] + [values[k]];
    }
    assert values[..|values|] == values;
  }

  /** The collecting loop of `parseField`. */
  method Collect(seen: seq<bool>, min: int) returns (vs: seq<int>)
    ensures Increasing(vs)
    ensures forall v :: v in vs <==> 0 <= v - min < |seen| && seen[v - min]
  {
    vs := [];
    for i := 0 to |seen|
      invariant Increasing(vs)
      invariant forall v :: v in vs <==> 0 <= v - min < i && seen[v - min]
    {
      if seen[i] {
        ghost var old_vs := vs;
        vs := vs + [min + i];
        forall a, b | 0 <= a < b < |vs| ensures vs[a] < vs[b] {
          assert old_vs[a] in old_vs;
        }
      }
    }
  }

  lemma CoveredInBounds(tokens: seq<string>, min: int, max: int, v: int)
    requires min <= max && Covers(tokens, min, max, v)
    ensures min <= v <= max
  {
    hide RangeOf;
    var t :| t in tokens && TokenCovers(t, min, max, v);
  }

  lemma FirstIsCovered(field: string, min: int, max: int) returns (v: int)
    requires field != "" && min <= max && AllParse(Tokens(field, 0), min, max)
    ensures Covers(Tokens(field, 0), min, max, v)
  {
    hide RangeOf, Find;
    var t := Tokens(field, 0)[0];
    assert t in Tokens(field, 0);
    v := RangeOf(t, min, max).value.lo;
    assert 0 % RangeOf(t, min, max).value.step == 0;
    assert TokenCovers(t, min, max, v);
  }

  /** `parseField`: the values some token covers, each once, in order; it throws exactly on an empty field
      or a bad token, and never for want of values. */
  method ParseField(field: string, min: int, max: int) returns (r: Option<seq<int>>)
    requires min <= max
    ensures r.Some? <==> field != "" && AllParse(Tokens(field, 0), min, max)
    ensures r.Some? ==> Meant(field, min, max, r.value)
  {
    hide RangeOf, AllParse, Covers, Tokens;
    if field == "" {
      return None;
    }
    var seen := MarkSeen(field, min, max);
    if seen.None? {
      return None;
    }
    var vs := Collect(seen.value, min);
    forall v ensures v in vs <==> Covers(Tokens(field, 0), min, max, v) {
      if Covers(Tokens(field, 0), min, max, v) {
        CoveredInBounds(Tokens(field, 0), min, max, v);
        assert min + (v - min) == v;
      }
    }
    var w := FirstIsCovered(field, min, max);
    assert w in vs;
    if vs == [] {
      return None;
    }
    return Some(vs);
  }

  ghost predicate Meant(field: string, min: int, max: int, vs: seq<int>) {
    vs != [] && Increasing(vs) && forall v :: v in vs <==> Covers(Tokens(field, 0), min, max, v)
  }

  /* ---- the whole expression ---- */

  datatype Cron = Cron(minutes: seq<int>, hours: seq<int>, days: seq<int>, months: seq<int>, weekdays: seq<int>)

  function SpaceEnd(s: string, i: nat): (j: nat)
    requires i <= |s|
    ensures i <= j <= |s| && (j < |s| ==> s[j] != ' ') && forall k :: i <= k < j ==> s[k] == ' '
    decreases |s| - i
  {
    if i < |s| && s[i] == ' ' then SpaceEnd(s, i + 1) else i
  }

  function WordEnd(s: string, i: nat): (j: nat)
    requires i <= |s|
    ensures i <= j <= |s| && (j < |s| ==> s[j] == ' ') && forall k :: i <= k < j ==> s[k] != ' '
    ensures i < |s| && s[i] != ' ' ==> i < j
    decreases |s| - i
  {
    if i < |s| && s[i] != ' ' then WordEnd(s, i + 1) else i
  }

  /** The runs of characters other than blanks, from place `i` on. */
  function Words(s: string, i: nat): (r: seq<string>)
    requires i <= |s|
    decreases |s| - i
  {
    var a := SpaceEnd(s, i);
    if a == |s| then []
    else
      var b := WordEnd(s, a);
      [s[a..b]] + Words(s, b)
  }

  /** The scanning loops of `parse`; `None` unless there are exactly five fields. */
  method SplitFields(spec: string) returns (r: Option<seq<string>>)
    ensures r == if |Words(spec, 0)| == 5 then Some(Words(spec, 0)) else None
  {
    hide SpaceEnd, WordEnd;
    var fields: seq<string> := [];
    var i := 0;
    assert fields + Words(spec, 0) == Words(spec, 0);
    while i < |spec| && |fields| < 5
      invariant 0 <= i <= |spec| && |fields| <= 5
      invariant fields + Words(spec, i) == Words(spec, 0)
      decreases |spec| - i
    {
      var start := SkipBlanks(spec, i);
      i := start;
      if i >= |spec| {
        EndsAt(spec, i);
        break;
      }
      i := SkipWord(spec, start);
      assert Words(spec, start) == [spec[start..i]] + Words(spec, i) by { WordsHere(spec, start); }
      assert (fields + [spec[start..i]]) + Words(spec, i) == fields + ([spec[start..i]] + Words(spec, i));
      fields := fields + [spec[start..i]];
    }
    i := SkipBlanks(spec, i);
    EndsAt(spec, i);
    if |fields| != 5 || i < |spec| {
      return None;
    }
    assert fields + [] == fields;
    return Some(fields);
  }

  method SkipBlanks(s: string, from: nat) returns (i: nat)
    requires from <= |s|
    ensures i == SpaceEnd(s, from) && Words(s, i) == Words(s, from)
  {
    i := from;
    while i < |s| && s[i] == ' '
      invariant from <= i <= |s| && SpaceEnd(s, i) == SpaceEnd(s, from)
    {
      i := i + 1;
    }
  }

  method SkipWord(s: string, from: nat) returns (i: nat)
    requires from < |s| && s[from] != ' '
    ensures from < i <= |s| && i == WordEnd(s, from)
  {
    i := from;
    while i < |s| && s[i] != ' '
      invariant from <= i <= |s| && WordEnd(s, i) == WordEnd(s, from)
    {
      i := i + 1;
    }
  }

  lemma WordsHere(s: string, i: nat)
    requires i < |s| && s[i] != ' '
    ensures Words(s, i) == [s[i..WordEnd(s, i)]] + Words(s, WordEnd(s, i))
  {
  }

  lemma EndsAt(s: string, i: nat)
    requires i <= |s| && (i == |s| || s[i] != ' ')
    ensures Words(s, i) == [] <==> i == |s|
  {
  }

  /** Limits of field `k`: minute, hour, day of month, month, day of week. */
  function Lo(k: nat): int {
    if k == 2 || k == 3 then 1 else 0
  }

  function Hi(k: nat): int {
    match k case 0 => 59 case 1 => 23 case 2 => 31 case 3 => 12 case _ => 6
  }

  ghost predicate Wellformed(spec: string) {
    |Words(spec, 0)| == 5 &&
    forall k :: 0 <= k < 5 ==> AllParse(Tokens(Words(spec, 0)[k], 0), Lo(k), Hi(k))
  }

  ghost predicate Says(spec: string, cron: Cron) {
    var w := Words(spec, 0);
    |w| == 5 &&
    Meant(w[0], Lo(0), Hi(0), cron.minutes) && Meant(w[1], Lo(1), Hi(1), cron.hours) &&
    Meant(w[2], Lo(2), Hi(2), cron.days) && Meant(w[3], Lo(3), Hi(3), cron.months) &&
    Meant(w[4], Lo(4), Hi(4), cron.weekdays)
  }

  lemma {:induction false} WordsNonEmpty(s: string, i: nat, k: nat)
    requires i <= |s| && k < |Words(s, i)|
    ensures Words(s, i)[k] != "" && ' ' !in Words(s, i)[k]
    decreases |s| - i
  {
    var b := WordEnd(s, SpaceEnd(s, i));
    if k > 0 {
      WordsNonEmpty(s, b, k - 1);
    }
  }

  /** `parse`. */
  method Parse(spec: string) returns (r: Option<Cron>)
    ensures r.Some? <==> Wellformed(spec)
    ensures r.Some? ==> Says(spec, r.value)
  {
    hide AllParse, Words, Tokens, Meant;
    var fields := SplitFields(spec);
    if fields.None? {
      return None;
    }
    var w := fields.value;
    forall k | 0 <= k < 5 ensures w[k] != "" {
      WordsNonEmpty(spec, 0, k);
    }
    var minutes := ParseField(w[0], 0, 59);
    if minutes.None? { assert !AllParse(Tokens(Words(spec, 0)[0], 0), Lo(0), Hi(0)); return None; }
    var hours := ParseField(w[1], 0, 23);
    if hours.None? { assert !AllParse(Tokens(Words(spec, 0)[1], 0), Lo(1), Hi(1)); return None; }
    var days := ParseField(w[2], 1, 31);
    if days.None? { assert !AllParse(Tokens(Words(spec, 0)[2], 0), Lo(2), Hi(2)); return None; }
    var months := ParseField(w[3], 1, 12);
    if months.None? { assert !AllParse(Tokens(Words(spec, 0)[3], 0), Lo(3), Hi(3)); return None; }
    var weekdays := ParseField(w[4], 0, 6);
    if weekdays.None? { assert !AllParse(Tokens(Words(spec, 0)[4], 0), Lo(4), Hi(4)); return None; }
    return Some(Cron(minutes.value, hours.value, days.value, months.value, weekdays.value));
  }
}
