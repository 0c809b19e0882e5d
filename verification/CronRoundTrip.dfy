/** Writing cron expressions down and reading them back. */
module CronRoundTrip {
  import opened TaskCommon
  import opened Text
  import opened CronParser

  function DigitOf(d: nat): char
    requires d < 10
  {
    (d + '0' as int) as char
  }

  function Decimal(n: nat): string {
    if n < 10 then [DigitOf(n)] else Decimal(n / 10) + [DigitOf(n % 10)]
  }

  ghost predicate AllDigits(s: string) {
    forall i :: 0 <= i < |s| ==> Digit(s[i])
  }

  lemma {:induction false} DecimalValue(n: nat)
    ensures Decimal(n) != "" && AllDigits(Decimal(n)) && Value(Decimal(n)) == n
  {
    if n < 10 {
      assert Decimal(n)[..0] == "";
    } else {
      DecimalValue(n / 10);
      var s := Decimal(n / 10);
      assert Decimal(n)[..|s|] == s;
    }
  }

  lemma {:induction false} CountDigits(s: string, rest: string)
    requires AllDigits(s) && (rest == "" || !Digit(rest[0]))
    ensures DigitCount(s + rest) == |s|
  {
    if s == "" {
      assert s + rest == rest;
    } else {
      assert (s + rest)[1..] == s[1..] + rest;
      CountDigits(s[1..], rest);
    }
  }

  /** Reading digits back, whatever follows them, after white space and a sign; out of range there is no number. */
  lemma StoiDigits(space: string, negative: bool, signed: bool, digits: string, rest: string)
    requires forall c <- space :: Space(c)
    requires digits != "" && AllDigits(digits) && (rest == "" || !Digit(rest[0])) && (negative ==> signed)
    ensures var v: int := Value(digits);
            Stoi(space + (if !signed then "" else if negative then "-" else "+") + digits + rest) ==
              if negative then (if v <= 0x8000_0000 then Some(-v) else None)
              else (if v <= 0x7fff_ffff then Some(v) else None)
  {
    hide Value, Unsigned, Stoi;
    var sign := if !signed then "" else if negative then "-" else "+";
    var s := sign + (digits + rest);
    assert space + sign + digits + rest == space + s;
    StoiSkips(space, s);
    UnsignedDigits(digits, rest, negative);
    SignRead(digits + rest, negative, signed);
  }

  lemma SignRead(s: string, negative: bool, signed: bool)
    requires s != "" && Digit(s[0]) && (negative ==> signed)
    ensures Stoi((if !signed then "" else if negative then "-" else "+") + s) == Unsigned(s, negative)
  {
    hide Unsigned;
    if signed {
      var sign := if negative then "-" else "+";
      assert (sign + s)[1..] == s && (sign + s)[0] == sign[0];
    } else {
      assert "" + s == s;
    }
  }

  lemma UnsignedDigits(digits: string, rest: string, negative: bool)
    requires digits != "" && AllDigits(digits) && (rest == "" || !Digit(rest[0]))
    ensures digits + rest != "" && Digit((digits + rest)[0])
    ensures var v: int := Value(digits);
            Unsigned(digits + rest, negative) ==
              if negative then (if v <= 0x8000_0000 then Some(-v) else None)
              else (if v <= 0x7fff_ffff then Some(v) else None)
  {
    hide Value, DigitCount;
    CountDigits(digits, rest);
    assert (digits + rest)[..|digits|] == digits;
    assert Digit(digits[0]) && (digits + rest)[0] == digits[0];
  }

  lemma {:induction false} StoiSkips(space: string, s: string)
    requires forall c <- space :: Space(c)
    ensures Stoi(space + s) == Stoi(s)
  {
    hide Unsigned;
    if space == "" {
      assert space + s == s;
    } else {
      assert space[0] in space;
      assert (space + s)[1..] == space[1..] + s;
      StoiSkips(space[1..], s);
    }
  }

  /** Without a digit after the white space and the sign there is no number. */
  lemma StoiNothing(space: string, sign: string, rest: string)
    requires forall c <- space :: Space(c)
    requires sign == "" || sign == "-" || sign == "+"
    requires rest == "" || (!Digit(rest[0]) && !Space(rest[0]) && (sign == "" ==> rest[0] != '-' && rest[0] != '+'))
    ensures Stoi(space + sign + rest) == None
  {
    var s := sign + rest;
    assert space + sign + rest == space + s;
    StoiSkips(space, s);
    if sign != "" {
      assert s[1..] == rest;
    }
  }

  /** Reading a number back. */
  lemma StoiDecimal(n: nat, rest: string)
    requires rest == "" || !Digit(rest[0])
    ensures Stoi(Decimal(n) + rest) == if n <= 0x7fff_ffff then Some(n) else None
  {
    hide Decimal, Value, Stoi;
    DecimalValue(n);
    StoiDigits("", false, false, Decimal(n), rest);
    assert "" + "" + Decimal(n) + rest == Decimal(n) + rest;
  }

  lemma {:induction false} FindFirst(a: string, c: char, rest: string, from: nat)
    requires c !in a && from <= |a|
    ensures Find(a + [c] + rest, [c], from) == Some(|a|)
    decreases |a| - from
  {
    var s := a + [c] + rest;
    assert s[from..from + 1] == [s[from]];
    if from < |a| {
      FindFirst(a, c, rest, from + 1);
    }
  }

  lemma {:induction false} FindMissing(a: string, c: char, from: nat)
    requires c !in a
    ensures Find(a, [c], from) == None
    decreases |a| - from
  {
    if from + 1 <= |a| {
      assert a[from..from + 1] == [a[from]];
      FindMissing(a, c, from + 1);
    }
  }

  lemma DecimalPlain(n: nat)
    ensures '/' !in Decimal(n) && '-' !in Decimal(n) && ',' !in Decimal(n) && ' ' !in Decimal(n)
    ensures Decimal(n) != "" && Decimal(n) != "*" && Digit(Decimal(n)[0])
  {
    hide Decimal, Value;
    DecimalValue(n);
    var s := Decimal(n);
    forall c <- s ensures Digit(c) {
      var i :| 0 <= i < |s| && s[i] == c;
    }
    assert Digit(s[0]);
  }

  /* ---- tokens ---- */

  /** A token as it is written: a star, a number or a span of numbers, with or without a step. */
  datatype Bounds = Star | One(n: nat) | Span(lo: nat, hi: nat)
  datatype Token = Token(bounds: Bounds, step: Option<nat>)

  function ShowBounds(b: Bounds): string {
    match b
    case Star => "*"
    case One(n) => Decimal(n)
    case Span(lo, hi) => Decimal(lo) + "-" + Decimal(hi)
  }

  function ShowToken(t: Token): string {
    if t.step.None? then ShowBounds(t.bounds) else ShowBounds(t.bounds) + "/" + Decimal(t.step.value)
  }

  /** Which tokens a field within `min` and `max` takes. */
  predicate Accepts(min: int, max: int, t: Token) {
    (t.step.Some? ==> 0 < t.step.value <= 0x7fff_ffff) &&
    match t.bounds
    case Star => true
    case One(n) => min <= n <= max
    case Span(lo, hi) => min <= lo && lo <= hi && hi <= max
  }

  /** Which values a token stands for: a star for every value, a number for itself, a span for everything between; with
      a step, every so many values from the first. */
  predicate StandsFor(min: int, max: int, t: Token, v: int)
    requires Accepts(min, max, t)
  {
    var step: int := if t.step.Some? then t.step.value else 1;
    match t.bounds
    case Star => min <= v <= max && (v - min) % step == 0
    case One(n) => v == n
    case Span(lo, hi) => lo <= v <= hi && (v - lo) % step == 0
  }

  lemma BoundsPlain(b: Bounds)
    ensures '/' !in ShowBounds(b) && ',' !in ShowBounds(b) && ' ' !in ShowBounds(b) && ShowBounds(b) != ""
  {
    hide Decimal;
    match b {
      case Star =>
      case One(n) => DecimalPlain(n);
      case Span(lo, hi) => DecimalPlain(lo); DecimalPlain(hi);
    }
  }

  lemma TokenPlain(t: Token)
    ensures ',' !in ShowToken(t) && ' ' !in ShowToken(t) && ShowToken(t) != ""
  {
    hide Decimal, ShowBounds;
    BoundsPlain(t.bounds);
    if t.step.Some? {
      DecimalPlain(t.step.value);
    }
  }

  lemma BoundsRead(b: Bounds, min: int, max: int)
    requires 0 <= min <= max <= 0x7fff_ffff
    ensures BoundsOf(ShowBounds(b), min, max) ==
              match b
              case Star => Some((min, max))
              case One(n) => if min <= n <= max then Some((n, n)) else None
              case Span(lo, hi) => if min <= lo && lo <= hi && hi <= max then Some((lo, hi)) else None
  {
    hide Decimal, Stoi, Find;
    match b {
      case Star =>
      case One(n) =>
        DecimalPlain(n);
        FindMissing(Decimal(n), '-', 0);
        StoiDecimal(n, "");
        assert Decimal(n) + "" == Decimal(n);
      case Span(lo, hi) => SpanRead(lo, hi, min, max);
    }
  }

  lemma SpanRead(lo: nat, hi: nat, min: int, max: int)
    requires 0 <= min <= max <= 0x7fff_ffff
    ensures BoundsOf(ShowBounds(Span(lo, hi)), min, max) ==
              if min <= lo && lo <= hi && hi <= max then Some((lo, hi)) else None
  {
    hide Decimal, Stoi, Find;
    var a, b := Decimal(lo), Decimal(hi);
    var s := a + "-" + b;
    DecimalPlain(lo);
    DecimalPlain(hi);
    FindFirst(a, '-', b, 0);
    StoiDecimal(lo, "");
    StoiDecimal(hi, "");
    assert a + "" == a && b + "" == b;
    assert s[..|a|] == a && s[|a| + 1..] == b;
    assert s[0] == a[0];
  }

  lemma StepRead(b: Bounds, k: nat)
    ensures var s := ShowBounds(b) + "/" + Decimal(k);
            Find(s, "/", 0) == Some(|ShowBounds(b)|) && s[..|ShowBounds(b)|] == ShowBounds(b) &&
            StepOf(s, Find(s, "/", 0)) == if 0 < k <= 0x7fff_ffff then Some(k) else None
  {
    hide Decimal, Stoi, Find, ShowBounds;
    var a, d := ShowBounds(b), Decimal(k);
    var s := a + "/" + d;
    BoundsPlain(b);
    DecimalPlain(k);
    FindFirst(a, '/', d, 0);
    StoiDecimal(k, "");
    assert d + "" == d && s[|a| + 1..] == d;
  }

  /** Every way of writing a token is read as it is meant, and refused exactly where a number is out of bounds, a span
      runs backwards or a step is zero. */
  lemma TokenRoundTrip(t: Token, min: int, max: int, v: int)
    requires 0 <= min <= max <= 0x7fff_ffff
    ensures RangeOf(ShowToken(t), min, max).Some? <==> Accepts(min, max, t)
    ensures Accepts(min, max, t) ==> (RangeOf(ShowToken(t), min, max).value.Covers(v) <==> StandsFor(min, max, t, v))
  {
    hide Decimal, Stoi, Find, BoundsOf, StepOf, ShowBounds;
    BoundsRead(t.bounds, min, max);
    BoundsPlain(t.bounds);
    if t.step.Some? {
      StepRead(t.bounds, t.step.value);
    } else {
      FindMissing(ShowBounds(t.bounds), '/', 0);
      NoStep(ShowBounds(t.bounds));
    }
    OneValue(v, t);
  }

  lemma NoStep(token: string)
    ensures StepOf(token, None) == Some(1)
  {
  }

  lemma OneValue(v: int, t: Token)
    ensures t.bounds.One? && t.step.Some? && t.step.value > 0 ==>
              (t.bounds.n <= v <= t.bounds.n && (v - t.bounds.n) % t.step.value == 0 <==> v == t.bounds.n)
  {
    if t.step.Some? && t.step.value > 0 {
      assert 0 % t.step.value == 0;
    }
  }

  /* ---- fields ---- */

  predicate AllAccepted(min: int, max: int, ts: seq<Token>) {
    forall t <- ts :: Accepts(min, max, t)
  }

  function ShowField(ts: seq<Token>): string
    requires ts != []
  {
    if |ts| == 1 then ShowToken(ts[0]) else ShowToken(ts[0]) + "," + ShowField(ts[1..])
  }

  function Shown(ts: seq<Token>): seq<string> {
    seq(|ts|, i requires 0 <= i < |ts| => ShowToken(ts[i]))
  }

  lemma {:induction false} TokensShift(p: string, s: string, start: nat)
    requires start <= |s|
    ensures Tokens(p + s, |p| + start) == Tokens(s, start)
    decreases |s| - start
  {
    hide Find;
    var w := p + s;
    if start < |s| {
      FindShift(w, ",", |p|, start);
      assert w[|p|..] == s;
      var e := Find(s, ",", start);
      if e.None? {
        SliceBehind(p, s, start, |s|);
        assert w[|p| + start..] == w[|p| + start..|p| + |s|] && s[start..] == s[start..|s|];
      } else {
        SliceBehind(p, s, start, e.value);
        TokensShift(p, s, e.value + 1);
      }
    }
  }

  lemma {:induction false} TokensOfShown(ts: seq<Token>)
    requires ts != []
    ensures Tokens(ShowField(ts), 0) == Shown(ts) && ShowField(ts) != "" && ' ' !in ShowField(ts)
    decreases |ts|
  {
    hide ShowToken, Find;
    var a := ShowToken(ts[0]);
    TokenPlain(ts[0]);
    if |ts| == 1 {
      FindMissing(a, ',', 0);
      assert a[0..] == a;
    } else {
      var b := ShowField(ts[1..]);
      TokensOfShown(ts[1..]);
      FindFirst(a, ',', b, 0);
      var p := a + ",";
      TokensShift(p, b, 0);
      assert ShowField(ts) == p + b;
      assert (p + b)[0..|a|] == a;
      assert Shown(ts) == [a] + Shown(ts[1..]);
    }
  }

  /** A field written as a list of tokens is taken exactly if every token is, and then holds what some token stands
      for. */
  lemma FieldRoundTrip(ts: seq<Token>, min: int, max: int, v: int)
    requires 0 <= min <= max <= 0x7fff_ffff && ts != []
    ensures AllParse(Tokens(ShowField(ts), 0), min, max) <==> AllAccepted(min, max, ts)
    ensures AllAccepted(min, max, ts) ==>
              (Covers(Tokens(ShowField(ts), 0), min, max, v) <==> exists t <- ts :: StandsFor(min, max, t, v))
  {
    hide ShowField, RangeOf, ShowToken, Tokens, Accepts, StandsFor;
    TokensOfShown(ts);
    var ss := Shown(ts);
    forall i | 0 <= i < |ts|
      ensures ts[i] in ts && ss[i] in ss
      ensures RangeOf(ss[i], min, max).Some? <==> Accepts(min, max, ts[i])
      ensures Accepts(min, max, ts[i]) ==> (TokenCovers(ss[i], min, max, v) <==> StandsFor(min, max, ts[i], v))
    {
      TokenRoundTrip(ts[i], min, max, v);
    }
    if AllAccepted(min, max, ts) {
      if Covers(ss, min, max, v) {
        var s :| s in ss && TokenCovers(s, min, max, v);
        var i :| 0 <= i < |ss| && ss[i] == s;
        assert StandsFor(min, max, ts[i], v);
      }
      if t :| t in ts && StandsFor(min, max, t, v) {
        var i :| 0 <= i < |ts| && ts[i] == t;
        assert TokenCovers(ss[i], min, max, v);
      }
    }
  }

  /* ---- whole expressions ---- */

  function ShowWords(ws: seq<string>): string {
    if ws == [] then "" else if |ws| == 1 then ws[0] else ws[0] + " " + ShowWords(ws[1..])
  }

  lemma {:induction false} SpaceShift(p: string, s: string, i: nat)
    requires i <= |s|
    ensures SpaceEnd(p + s, |p| + i) == |p| + SpaceEnd(s, i)
    decreases |s| - i
  {
    if i < |s| && s[i] == ' ' {
      SpaceShift(p, s, i + 1);
    }
  }

  lemma {:induction false} WordShift(p: string, s: string, i: nat)
    requires i <= |s|
    ensures WordEnd(p + s, |p| + i) == |p| + WordEnd(s, i)
    decreases |s| - i
  {
    if i < |s| && s[i] != ' ' {
      WordShift(p, s, i + 1);
    }
  }

  lemma {:induction false} WordsShift(p: string, s: string, i: nat)
    requires i <= |s|
    ensures Words(p + s, |p| + i) == Words(s, i)
    decreases |s| - i
  {
    hide SpaceEnd, WordEnd;
    SpaceShift(p, s, i);
    var a := SpaceEnd(s, i);
    if a < |s| {
      WordShift(p, s, a);
      var b := WordEnd(s, a);
      SliceBehind(p, s, a, b);
      WordsShift(p, s, b);
    }
  }

  lemma {:induction false} WordEndsAt(w: string, rest: string, i: nat)
    requires ' ' !in w && i <= |w| && (rest == "" || rest[0] == ' ')
    ensures WordEnd(w + rest, i) == |w|
    decreases |w| - i
  {
    if i < |w| {
      assert (w + rest)[i] == w[i];
      WordEndsAt(w, rest, i + 1);
    }
  }

  lemma FirstWord(w: string, rest: string)
    requires w != "" && ' ' !in w && (rest == "" || rest[0] == ' ')
    ensures Words(w + rest, 0) == [w] + Words(rest, 0)
  {
    hide Words, WordEnd;
    var s := w + rest;
    assert s[0] == w[0] && w[0] in w;
    WordsHere(s, 0);
    WordEndsAt(w, rest, 0);
    assert s[0..|w|] == w;
    WordsShift(w, rest, 0);
  }

  lemma SkipOneBlank(s: string)
    ensures Words(" " + s, 0) == Words(s, 0)
  {
    hide SpaceEnd, WordEnd;
    WordsShift(" ", s, 0);
    assert SpaceEnd(" " + s, 0) == SpaceEnd(" " + s, 1) by { BlankFirst(s); }
  }

  lemma BlankFirst(s: string)
    ensures SpaceEnd(" " + s, 0) == SpaceEnd(" " + s, 1)
  {
  }

  lemma {:induction false} WordsOfShown(ws: seq<string>)
    requires forall w <- ws :: w != "" && ' ' !in w
    ensures Words(ShowWords(ws), 0) == ws
    decreases |ws|
  {
    hide Words;
    if ws == [] {
      EndsAt("", 0);
    } else {
      assert ws[0] in ws;
      if |ws| == 1 {
        FirstWord(ws[0], "");
        EndsAt("", 0);
        assert ws[0] + "" == ws[0];
      } else {
        var rest := ShowWords(ws[1..]);
        assert forall w <- ws[1..] :: w in ws;
        WordsOfShown(ws[1..]);
        FirstWord(ws[0], " " + rest);
        SkipOneBlank(rest);
        assert ws[0] + " " + rest == ws[0] + (" " + rest);
      }
    }
  }

  /** Five lists of tokens. */
  predicate Written(fs: seq<seq<Token>>) {
    |fs| == 5 && forall k :: 0 <= k < 5 ==> fs[k] != []
  }

  /** Each token suits its field: minutes 0 to 59, hours 0 to 23, days 1 to 31, months 1 to 12, days of the week 0 to
      6. */
  predicate Suits(fs: seq<seq<Token>>)
    requires Written(fs)
  {
    AllAccepted(0, 59, fs[0]) && AllAccepted(0, 23, fs[1]) && AllAccepted(1, 31, fs[2]) && AllAccepted(1, 12, fs[3]) &&
    AllAccepted(0, 6, fs[4])
  }

  function ShowCron(fs: seq<seq<Token>>): string
    requires Written(fs)
  {
    ShowWords([ShowField(fs[0]), ShowField(fs[1]), ShowField(fs[2]), ShowField(fs[3]), ShowField(fs[4])])
  }

  lemma SuitsAt(fs: seq<seq<Token>>)
    requires Written(fs)
    ensures Suits(fs) <==> forall k :: 0 <= k < 5 ==> AllAccepted(Lo(k), Hi(k), fs[k])
  {
    hide AllAccepted;
    assert Lo(0) == 0 && Hi(0) == 59 && Lo(1) == 0 && Hi(1) == 23 && Lo(2) == 1 && Hi(2) == 31;
    assert Lo(3) == 1 && Hi(3) == 12 && Lo(4) == 0 && Hi(4) == 6;
  }

  /** The values of field `k`. */
  function Part(cron: Cron, k: nat): seq<int> {
    match k
    case 0 => cron.minutes
    case 1 => cron.hours
    case 2 => cron.days
    case 3 => cron.months
    case _ => cron.weekdays
  }

  lemma SaysParts(spec: string, cron: Cron, k: nat)
    requires Says(spec, cron) && k < 5
    ensures Meant(Words(spec, 0)[k], Lo(k), Hi(k), Part(cron, k))
  {
    hide Words, Meant;
  }

  lemma WordsOfCron(fs: seq<seq<Token>>)
    requires Written(fs)
    ensures |Words(ShowCron(fs), 0)| == 5
    ensures forall k :: 0 <= k < 5 ==> Words(ShowCron(fs), 0)[k] == ShowField(fs[k])
  {
    hide Words, ShowField, ShowWords;
    var ws := [ShowField(fs[0]), ShowField(fs[1]), ShowField(fs[2]), ShowField(fs[3]), ShowField(fs[4])];
    forall k | 0 <= k < 5 ensures ws[k] == ShowField(fs[k]) && ws[k] != "" && ' ' !in ws[k] {
      TokensOfShown(fs[k]);
    }
    WordsOfShown(ws);
  }

  /** An expression of any five lists of tokens is accepted exactly if every token suits its field, and then what is
      read back is what was written: each field holds the values its tokens stand for. */
  lemma CronRoundTrip(fs: seq<seq<Token>>)
    requires Written(fs)
    ensures Wellformed(ShowCron(fs)) <==> Suits(fs)
    ensures forall cron, k, v :: Suits(fs) && Says(ShowCron(fs), cron) && 0 <= k < 5 ==>
              (v in Part(cron, k) <==> Means(fs[k], Lo(k), Hi(k), v))
  {
    hide Words, ShowField, ShowCron, Tokens, AllParse, Covers, Says, Part, Means, AllAccepted;
    var spec := ShowCron(fs);
    WordsOfCron(fs);
    SuitsAt(fs);
    forall k | 0 <= k < 5
      ensures AllParse(Tokens(Words(spec, 0)[k], 0), Lo(k), Hi(k)) <==> AllAccepted(Lo(k), Hi(k), fs[k])
    {
      FieldRoundTrip(fs[k], Lo(k), Hi(k), 0);
    }
    forall cron, k, v | Suits(fs) && Says(spec, cron) && 0 <= k < 5
      ensures v in Part(cron, k) <==> Means(fs[k], Lo(k), Hi(k), v)
    {
      SaysParts(spec, cron, k);
      FieldMeans(fs[k], Lo(k), Hi(k), v);
    }
  }

  ghost predicate Means(ts: seq<Token>, min: int, max: int, v: int) {
    AllAccepted(min, max, ts) && exists t <- ts :: StandsFor(min, max, t, v)
  }

  lemma FieldMeans(ts: seq<Token>, min: int, max: int, v: int)
    requires 0 <= min <= max <= 0x7fff_ffff && ts != [] && AllAccepted(min, max, ts)
    ensures Covers(Tokens(ShowField(ts), 0), min, max, v) <==> Means(ts, min, max, v)
  {
    hide ShowField, Tokens, AllParse, Covers, StandsFor, Accepts;
    FieldRoundTrip(ts, min, max, v);
  }

  /** Five stars mean every minute. */
  lemma EveryMinute(cron: Cron, v: int)
    requires Says("* * * * *", cron)
    ensures v in cron.minutes <==> 0 <= v <= 59
    ensures v in cron.hours <==> 0 <= v <= 23
    ensures v in cron.days <==> 1 <= v <= 31
    ensures v in cron.months <==> 1 <= v <= 12
    ensures v in cron.weekdays <==> 0 <= v <= 6
  {
    hide Says, Words, Tokens, Covers;
    var star := [Token(Star, None)];
    var fs := [star, star, star, star, star];
    assert ShowCron(fs) == "* * * * *" by { StarsShown(); }
    CronRoundTrip(fs);
    StarMeans(0, 59, v);
    StarMeans(0, 23, v);
    StarMeans(1, 31, v);
    StarMeans(1, 12, v);
    StarMeans(0, 6, v);
    assert v in Part(cron, 0) <==> Means(star, Lo(0), Hi(0), v);
    assert v in Part(cron, 1) <==> Means(star, Lo(1), Hi(1), v);
    assert v in Part(cron, 2) <==> Means(star, Lo(2), Hi(2), v);
    assert v in Part(cron, 3) <==> Means(star, Lo(3), Hi(3), v);
    assert v in Part(cron, 4) <==> Means(star, Lo(4), Hi(4), v);
  }

  lemma StarsShown()
    ensures var star := [Token(Star, None)]; ShowCron([star, star, star, star, star]) == "* * * * *"
  {
    var w := ["*", "*", "*", "*", "*"];
    assert w[1..] == ["*", "*", "*", "*"];
    assert w[1..][1..] == ["*", "*", "*"];
    assert w[1..][1..][1..] == ["*", "*"];
    assert w[1..][1..][1..][1..] == ["*"];
  }

  lemma StarMeans(min: int, max: int, v: int)
    ensures Means([Token(Star, None)], min, max, v) <==> min <= v <= max
  {
    assert Token(Star, None) in [Token(Star, None)];
  }
}
