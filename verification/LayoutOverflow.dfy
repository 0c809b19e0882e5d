/** The second half of the canvas layout: levels hold four slots, and what does
    not fit moves on to the next level. */
module LayoutOverflow {
  import opened Graphs
  import opened DagBuilder
  import opened LayoutLevels

  const MAX_SLOTS := 4
  const BASE_HEIGHT := 150.0

  /** What the layout looks at in a canvas item.  Keys are compared only, so a
      key stands here for its place in the order of all keys. */
  datatype Item = Item(container: bool, height: real, childCount: nat, key: int)

  type Items = map<Id, Item>

  function Ceil(x: real): int {
    -(-x).Floor
  }

  /** A container takes one slot per started standard height, one to five of them. */
  function SlotCount(it: Item): int {
    if !it.container then 1
    else if it.height <= 0.0 then 1
    else
      var n := Ceil(it.height / BASE_HEIGHT);
      if n < 1 then 1 else if n > 5 then 5 else n
  }

  function Slots(items: Items, n: Id): (r: int)
    ensures 1 <= r <= MAX_SLOTS
  {
    if n !in items then 1
    else if SlotCount(items[n]) < MAX_SLOTS then SlotCount(items[n]) else MAX_SLOTS
  }

  /* ---- the two orders ---- */

  datatype Order = Display | Push

  /** `displayCmp` puts nodes with many children first, `pushCmp` those with few. */
  predicate Before(o: Order, a: Item, b: Item) {
    var aHas, bHas := a.childCount > 0, b.childCount > 0;
    if aHas != bHas then (if o.Display? then aHas else bHas)
    else if a.childCount != b.childCount then
      (if o.Display? then a.childCount > b.childCount else a.childCount < b.childCount)
    else a.key < b.key
  }

  predicate NotAfter(o: Order, items: Items, a: Id, b: Id) {
    a in items && b in items && !Before(o, items[b], items[a])
  }

  ghost predicate SortedBy(o: Order, items: Items, s: seq<Id>) {
    forall i, j :: 0 <= i < j < |s| ==> NotAfter(o, items, s[i], s[j])
  }

  function InsertInto(o: Order, items: Items, x: Id, s: seq<Id>): seq<Id> {
    if s == [] || NotAfter(o, items, x, s[0]) then [x] + s
    else [s[0]] + InsertInto(o, items, x, s[1..])
  }

  function Sort(o: Order, items: Items, s: seq<Id>): seq<Id> {
    if s == [] then [] else InsertInto(o, items, s[0], Sort(o, items, s[1..]))
  }

  lemma NotAfterTrans(o: Order, items: Items, a: Id, b: Id, c: Id)
    requires NotAfter(o, items, a, b) && NotAfter(o, items, b, c)
    ensures NotAfter(o, items, a, c)
  {
  }

  lemma NotAfterTotal(o: Order, items: Items, a: Id, b: Id)
    requires a in items && b in items && !NotAfter(o, items, a, b)
    ensures NotAfter(o, items, b, a)
  {
  }

  lemma {:induction false} InsertMultiset(o: Order, items: Items, x: Id, s: seq<Id>)
    ensures multiset(InsertInto(o, items, x, s)) == multiset(s) + multiset{x}
    decreases |s|
  {
    hide NotAfter;
    if s != [] && !NotAfter(o, items, x, s[0]) {
      InsertMultiset(o, items, x, s[1..]);
      assert s == [s[0]] + s[1..];
    }
  }

  /** A list whose head may stand before every other member, and whose tail is sorted, is sorted. */
  lemma SortedCons(o: Order, items: Items, x: Id, s: seq<Id>)
    requires SortedBy(o, items, s) && forall y :: y in s ==> NotAfter(o, items, x, y)
    ensures SortedBy(o, items, [x] + s)
  {
    hide NotAfter;
    var r := [x] + s;
    forall i, j | 0 <= i < j < |r| ensures NotAfter(o, items, r[i], r[j]) {
      assert r[j] == s[j - 1];
      if i > 0 { assert r[i] == s[i - 1]; }
    }
  }

  lemma HeadFirst(o: Order, items: Items, s: seq<Id>, y: Id)
    requires SortedBy(o, items, s) && s != [] && y in s[1..]
    ensures NotAfter(o, items, s[0], y)
  {
    hide NotAfter;
    var k :| 0 <= k < |s[1..]| && s[1..][k] == y;
    assert s[k + 1] == y;
  }

  lemma {:induction false} InsertSpec(o: Order, items: Items, x: Id, s: seq<Id>)
    requires SortedBy(o, items, s) && x in items && forall y :: y in s ==> y in items
    ensures SortedBy(o, items, InsertInto(o, items, x, s))
    decreases |s|
  {
    hide NotAfter;
    if s == [] {
    } else if NotAfter(o, items, x, s[0]) {
      forall y | y in s ensures NotAfter(o, items, x, y) {
        if y != s[0] {
          assert s == [s[0]] + s[1..];
          HeadFirst(o, items, s, y);
          NotAfterTrans(o, items, x, s[0], y);
        }
      }
      SortedCons(o, items, x, s);
    } else {
      var t := s[1..];
      assert forall i :: 0 <= i < |t| ==> t[i] == s[i + 1];
      InsertSpec(o, items, x, t);
      var q := InsertInto(o, items, x, t);
      InsertMultiset(o, items, x, t);
      NotAfterTotal(o, items, x, s[0]);
      forall y | y in q ensures NotAfter(o, items, s[0], y) {
        assert y in multiset(q);
        if y != x {
          assert y in multiset(t);
          HeadFirst(o, items, s, y);
        }
      }
      SortedCons(o, items, s[0], q);
    }
  }

  lemma {:induction false} SortSpec(o: Order, items: Items, s: seq<Id>)
    requires forall y :: y in s ==> y in items
    ensures multiset(Sort(o, items, s)) == multiset(s) && SortedBy(o, items, Sort(o, items, s))
    decreases |s|
  {
    if s != [] {
      SortSpec(o, items, s[1..]);
      assert s == [s[0]] + s[1..];
      var t := Sort(o, items, s[1..]);
      forall y | y in t ensures y in items {
        assert y in multiset(t);
      }
      InsertSpec(o, items, s[0], t);
      InsertMultiset(o, items, s[0], t);
    }
  }

  lemma PermutationFacts(s: seq<Id>, t: seq<Id>)
    requires multiset(s) == multiset(t) && Distinct(s)
    ensures Distinct(t) && Elements(t) == Elements(s) && |t| == |s|
  {
    forall x ensures x in s <==> x in t {
      assert x in multiset(s) <==> x in multiset(t);
    }
    assert |multiset(s)| == |multiset(t)|;
    forall i, j | 0 <= i < j < |t| ensures t[i] != t[j] {
      if t[i] == t[j] {
        TwiceInMultiset(t, i, j);
        OnceInMultiset(s, t[i]);
      }
    }
  }

  lemma TwiceInMultiset(t: seq<Id>, i: nat, j: nat)
    requires i < j < |t| && t[i] == t[j]
    ensures multiset(t)[t[i]] >= 2
  {
    assert t == t[..i] + [t[i]] + t[i + 1..j] + [t[j]] + t[j + 1..];
  }

  lemma {:induction false} OnceInMultiset(s: seq<Id>, x: Id)
    requires Distinct(s)
    ensures multiset(s)[x] == if x in s then 1 else 0
    decreases |s|
  {
    if s != [] {
      OnceInMultiset(s[1..], x);
      assert s == [s[0]] + s[1..];
      assert s[0] !in s[1..];
    }
  }

  /* ---- slots of a list ---- */

  function Total(items: Items, s: seq<Id>): (r: int)
    ensures r >= |s|
  {
    if s == [] then 0 else Slots(items, s[0]) + Total(items, s[1..])
  }

  lemma {:induction false} TotalAppend(items: Items, s: seq<Id>, t: seq<Id>)
    ensures Total(items, s + t) == Total(items, s) + Total(items, t)
    decreases |s|
  {
    if s == [] {
      assert s + t == t;
    } else {
      assert (s + t)[1..] == s[1..] + t;
      TotalAppend(items, s[1..], t);
    }
  }

  function Without(t: seq<Id>, i: nat): seq<Id>
    requires i < |t|
  {
    t[..i] + t[i + 1..]
  }

  lemma WithoutMultiset(t: seq<Id>, i: nat)
    requires i < |t|
    ensures multiset(t) == multiset(Without(t, i)) + multiset{t[i]}
  {
    assert t == t[..i] + [t[i]] + t[i + 1..];
  }

  lemma WithoutTotal(items: Items, t: seq<Id>, i: nat)
    requires i < |t|
    ensures Total(items, t) == Slots(items, t[i]) + Total(items, Without(t, i))
  {
    hide Slots;
    var a, b := t[..i], t[i + 1..];
    assert t == a + ([t[i]] + b);
    TotalAppend(items, a, b);
    TotalAppend(items, a, [t[i]] + b);
    assert ([t[i]] + b)[1..] == b;
  }

  lemma {:induction false} TotalPermutes(items: Items, s: seq<Id>, t: seq<Id>)
    requires multiset(s) == multiset(t)
    ensures Total(items, s) == Total(items, t)
    decreases |s|
  {
    hide Slots, Total;
    if s == [] {
      assert |multiset(t)| == 0;
    } else {
      assert s[0] in multiset(t);
      var i :| 0 <= i < |t| && t[i] == s[0];
      WithoutMultiset(s, 0);
      WithoutMultiset(t, i);
      assert multiset(Without(s, 0)) == multiset(s) - multiset{s[0]};
      assert multiset(Without(t, i)) == multiset(t) - multiset{s[0]};
      TotalPermutes(items, Without(s, 0), Without(t, i));
      WithoutTotal(items, s, 0);
      WithoutTotal(items, t, i);
    }
  }

  lemma SameElementsSameTotal(items: Items, s: seq<Id>, t: seq<Id>)
    requires Distinct(s) && Distinct(t) && forall x :: x in s <==> x in t
    ensures multiset(s) == multiset(t) && Total(items, s) == Total(items, t)
  {
    forall x ensures multiset(s)[x] == multiset(t)[x] {
      OnceInMultiset(s, x);
      OnceInMultiset(t, x);
    }
    TotalPermutes(items, s, t);
  }

  /* ---- one level ---- */

  /** Which nodes leave a level that is too full: the shortest prefix of the push
      order whose removal brings the level down to four slots. */
  method SplitLevel(items: Items, nodesAt: seq<Id>) returns (kept: seq<Id>, overflow: seq<Id>)
    requires nodesAt != [] && Distinct(nodesAt) && forall n :: n in nodesAt ==> n in items
    ensures Distinct(kept) && Distinct(overflow) && kept != []
    ensures forall n :: n in nodesAt <==> n in kept || n in overflow
    ensures forall n :: n in kept ==> n !in overflow
    ensures Total(items, kept) <= MAX_SLOTS
    ensures overflow == [] <==> Total(items, nodesAt) <= MAX_SLOTS
    ensures overflow != [] ==> Total(items, kept) + Slots(items, overflow[|overflow| - 1]) > MAX_SLOTS
    ensures forall a, b :: a in overflow && b in kept ==> NotAfter(Push, items, a, b)
    ensures SortedBy(Display, items, kept) && SortedBy(Push, items, overflow)
  {
    hide SlotCount, NotAfter;
    var display := Sort(Display, items, nodesAt);
    SortSpec(Display, items, nodesAt);
    PermutationFacts(nodesAt, display);
    TotalPermutes(items, nodesAt, display);
    var totalSlots := SumSlots(items, display);
    if totalSlots <= MAX_SLOTS {
      SameMembers(nodesAt, display);
      return display, [];
    }
    var pushList := Sort(Push, items, nodesAt);
    SortSpec(Push, items, nodesAt);
    PermutationFacts(nodesAt, pushList);
    TotalPermutes(items, nodesAt, pushList);
    var cut := CutAt(items, pushList, totalSlots);
    kept := FilterOut(items, display, pushList[..cut]);
    overflow := pushList[..cut];
    SplitFacts(items, nodesAt, display, pushList, cut, kept);
  }

  lemma SameMembers(s: seq<Id>, t: seq<Id>)
    requires Elements(s) == Elements(t)
    ensures forall n :: n in s <==> n in t
  {
    forall n ensures n in s <==> n in t {
      assert n in Elements(s) <==> n in Elements(t);
    }
  }

  method SumSlots(items: Items, display: seq<Id>) returns (total: int)
    ensures total == Total(items, display)
  {
    total := 0;
    for i := 0 to |display|
      invariant total == Total(items, display[..i])
    {
      assert display[..i + 1] == display[..i] + [display[i]];
      TotalAppend(items, display[..i], [display[i]]);
      total := total + Slots(items, display[i]);
    }
    assert display[..|display|] == display;
  }

  /** How many nodes to push: stop as soon as the rest fits. */
  method CutAt(items: Items, pushList: seq<Id>, total: int) returns (cut: nat)
    requires total == Total(items, pushList) && total > MAX_SLOTS
    ensures 0 < cut < |pushList|
    ensures Total(items, pushList[cut..]) <= MAX_SLOTS < Total(items, pushList[cut - 1..])
  {
    hide SlotCount;
    var left := total;
    cut := 0;
    assert pushList[0..] == pushList;
    while left > MAX_SLOTS
      invariant cut <= |pushList| && left == Total(items, pushList[cut..])
      invariant cut > 0 ==> Total(items, pushList[cut - 1..]) > MAX_SLOTS
      decreases |pushList| - cut
    {
      assert pushList[cut..][1..] == pushList[cut + 1..];
      left := left - Slots(items, pushList[cut]);
      cut := cut + 1;
    }
    assert pushList[cut - 1..][1..] == pushList[cut..];
  }

  method FilterOut(items: Items, display: seq<Id>, gone: seq<Id>) returns (kept: seq<Id>)
    requires Distinct(display) && SortedBy(Display, items, display)
    ensures Distinct(kept) && SortedBy(Display, items, kept)
    ensures forall n :: n in kept <==> n in display && n !in gone
  {
    hide NotAfter;
    kept := [];
    for i := 0 to |display|
      invariant Distinct(kept) && SortedBy(Display, items, kept)
      invariant forall n :: n in kept <==> n in display[..i] && n !in gone
    {
      assert display[..i + 1] == display[..i] + [display[i]];
      if display[i] !in gone {
        forall k | 0 <= k < |kept| ensures kept[k] != display[i] && NotAfter(Display, items, kept[k], display[i]) {
          assert kept[k] in display[..i];
        }
        kept := kept + [display[i]];
      }
    }
    assert display[..|display|] == display;
  }

  lemma RestMembers(nodesAt: seq<Id>, display: seq<Id>, pushList: seq<Id>, cut: nat, kept: seq<Id>)
    requires Distinct(pushList) && cut <= |pushList| && Elements(display) == Elements(nodesAt) == Elements(pushList)
    requires forall n :: n in kept <==> n in display && n !in pushList[..cut]
    ensures forall n :: n in kept <==> n in pushList[cut..]
    ensures forall n :: n in nodesAt <==> n in kept || n in pushList[..cut]
  {
    SameMembers(nodesAt, display);
    SameMembers(nodesAt, pushList);
    assert pushList == pushList[..cut] + pushList[cut..];
    forall n | n in pushList[cut..] ensures n !in pushList[..cut] {
      var j :| 0 <= j < |pushList[cut..]| && pushList[cut..][j] == n;
      assert pushList[cut + j] == n;
    }
  }

  lemma SplitOrder(items: Items, pushList: seq<Id>, cut: nat)
    requires SortedBy(Push, items, pushList) && cut <= |pushList|
    ensures SortedBy(Push, items, pushList[..cut])
    ensures forall a, b :: a in pushList[..cut] && b in pushList[cut..] ==> NotAfter(Push, items, a, b)
  {
    hide NotAfter;
    forall a, b | a in pushList[..cut] && b in pushList[cut..] ensures NotAfter(Push, items, a, b) {
      var i :| 0 <= i < cut && pushList[..cut][i] == a;
      var j :| 0 <= j < |pushList[cut..]| && pushList[cut..][j] == b;
      assert pushList[i] == a && pushList[cut + j] == b;
    }
  }

  lemma SplitFacts(items: Items, nodesAt: seq<Id>, display: seq<Id>, pushList: seq<Id>, cut: nat, kept: seq<Id>)
    requires Distinct(pushList) && SortedBy(Push, items, pushList) && 0 < cut < |pushList|
    requires Elements(display) == Elements(nodesAt) == Elements(pushList)
    requires Distinct(kept) && forall n :: n in kept <==> n in display && n !in pushList[..cut]
    requires Total(items, pushList[cut..]) <= MAX_SLOTS < Total(items, pushList[cut - 1..])
    ensures kept != [] && Distinct(pushList[..cut]) && SortedBy(Push, items, pushList[..cut])
    ensures forall n :: n in nodesAt <==> n in kept || n in pushList[..cut]
    ensures Total(items, kept) <= MAX_SLOTS && Total(items, kept) + Slots(items, pushList[cut - 1]) > MAX_SLOTS
    ensures forall a, b :: a in pushList[..cut] && b in kept ==> NotAfter(Push, items, a, b)
  {
    hide NotAfter, Slots, SortedBy;
    RestMembers(nodesAt, display, pushList, cut, kept);
    SplitOrder(items, pushList, cut);
    var rest := pushList[cut..];
    assert rest[0] in kept;
    SameElementsSameTotal(items, kept, rest);
    assert pushList[cut - 1..][1..] == rest;
  }

  /* ---- all levels ---- */

  type Buckets = map<int, seq<Id>>

  function Bucket(b: Buckets, lvl: int): seq<Id> {
    if lvl in b then b[lvl] else []
  }

  /** Where every node stands: finished levels below `lvl`, waiting buckets from `lvl` on. */
  ghost predicate Placed(nodes: seq<Id>, at: map<Id, int>, buckets: Buckets, finals: Buckets, lvl: int) {
    && at.Keys == Elements(nodes)
    && (forall l :: Distinct(Bucket(buckets, l)) && Distinct(Bucket(finals, l)))
    && (forall l, n :: l >= lvl ==> (n in Bucket(buckets, l) <==> n in at && at[n] == l))
    && (forall l, n :: n in Bucket(finals, l) <==> n in at && at[n] == l && l < lvl)
  }

  ghost predicate LevelsFit(items: Items, finals: Buckets) {
    forall l :: l in finals ==>
      finals[l] != [] && Total(items, finals[l]) <= MAX_SLOTS && SortedBy(Display, items, finals[l])
  }

  /** Whoever was pushed past a finished level comes no later in the push order than whoever stayed there. */
  ghost predicate Passing(items: Items, level: map<Id, int>, at: map<Id, int>, lvl: int) {
    forall n, b :: n in at && b in at && LevelOf(level, n) <= at[b] < at[n] && at[b] < lvl ==>
        NotAfter(Push, items, n, b)
  }

  /** Level `l` has kept somebody, and somebody who moved on would not have fitted in with those it kept. */
  ghost predicate Full(items: Items, level: map<Id, int>, at: map<Id, int>, finals: Buckets, l: int) {
    l in finals && finals[l] != [] &&
    exists m :: m in at && LevelOf(level, m) <= l < at[m] && Total(items, finals[l]) + Slots(items, m) > MAX_SLOTS
  }

  /** Every finished level that somebody was pushed past was full. */
  ghost predicate PassedFull(items: Items, level: map<Id, int>, at: map<Id, int>, finals: Buckets, lvl: int) {
    forall n, l :: n in at && LevelOf(level, n) <= l < at[n] && l < lvl ==> Full(items, level, at, finals, l)
  }

  /** Beyond the level in hand nobody has moved yet. */
  ghost predicate Unmoved(level: map<Id, int>, at: map<Id, int>, lvl: int) {
    forall n :: n in at && at[n] > lvl ==> at[n] == LevelOf(level, n)
  }

  ghost predicate Filled(nodes: seq<Id>, level: map<Id, int>, buckets: Buckets) {
    && (forall l :: Distinct(Bucket(buckets, l)))
    && (forall l, n :: n in Bucket(buckets, l) <==> n in nodes && LevelOf(level, n) == l)
  }

  lemma FillOne(nodes: seq<Id>, level: map<Id, int>, buckets: Buckets, n: Id)
    requires Filled(nodes, level, buckets) && n !in nodes
    ensures var l := LevelOf(level, n); Filled(nodes + [n], level, buckets[l := Bucket(buckets, l) + [n]])
  {
    var l := LevelOf(level, n);
    var b := buckets[l := Bucket(buckets, l) + [n]];
    assert n !in Bucket(buckets, l);
    forall m ensures Distinct(Bucket(b, m)) {
      assert Distinct(Bucket(buckets, m));
      if m == l { DistinctConcat(Bucket(buckets, m), [n]); }
    }
    hide Distinct;
    forall m, x ensures x in Bucket(b, m) <==> x in nodes + [n] && LevelOf(level, x) == m {
      assert x in Bucket(buckets, m) <==> x in nodes && LevelOf(level, x) == m;
    }
  }

  lemma FilledIsPlaced(nodes: seq<Id>, level: map<Id, int>, buckets: Buckets, at: map<Id, int>)
    requires Filled(nodes, level, buckets) && at == (map n | n in nodes :: LevelOf(level, n)) &&
             forall n :: 1 <= LevelOf(level, n)
    ensures Placed(nodes, at, buckets, map[], 1)
  {
  }

  /** The computed levels, as buckets. */
  method FillBuckets(nodes: seq<Id>, level: map<Id, int>) returns (buckets: Buckets, ghost at: map<Id, int>)
    requires Distinct(nodes) && forall n :: 1 <= LevelOf(level, n)
    ensures at == (map n | n in nodes :: LevelOf(level, n)) && Placed(nodes, at, buckets, map[], 1)
  {
    buckets := map[];
    for i := 0 to |nodes|
      invariant Filled(nodes[..i], level, buckets)
    {
      hide Filled;
      var n := nodes[i];
      var l := LevelOf(level, n);
      assert nodes[..i + 1] == nodes[..i] + [n];
      FillOne(nodes[..i], level, buckets, n);
      buckets := buckets[l := Bucket(buckets, l) + [n]];
    }
    assert nodes[..|nodes|] == nodes;
    at := map n | n in nodes :: LevelOf(level, n);
    FilledIsPlaced(nodes, level, buckets, at);
  }

  lemma EmptyLevel(nodes: seq<Id>, at: map<Id, int>, buckets: Buckets, finals: Buckets, lvl: int)
    requires Placed(nodes, at, buckets, finals, lvl) && Bucket(buckets, lvl) == []
    ensures Placed(nodes, at, buckets, finals, lvl + 1)
    ensures forall n :: n in at && at[n] >= lvl ==> at[n] >= lvl + 1
  {
    forall n | n in at && at[n] >= lvl ensures at[n] >= lvl + 1 {
      assert at[n] == lvl <==> n in Bucket(buckets, lvl);
    }
  }

  ghost function Moved(at: map<Id, int>, overflow: seq<Id>, lvl: int): map<Id, int> {
    map n | n in at :: if n in overflow then lvl + 1 else at[n]
  }

  /** What it means for the bucket at `lvl` to be split. */
  ghost predicate Split(buckets: Buckets, lvl: int, kept: seq<Id>, overflow: seq<Id>) {
    && Distinct(kept) && Distinct(overflow)
    && (forall n :: n in Bucket(buckets, lvl) <==> n in kept || n in overflow)
    && (forall n :: n in kept ==> n !in overflow)
  }

  lemma FullLevelAt(nodes: seq<Id>, at: map<Id, int>, buckets: Buckets, finals: Buckets, lvl: int, kept: seq<Id>,
                    overflow: seq<Id>, l: int, n: Id)
    requires Placed(nodes, at, buckets, finals, lvl) && Split(buckets, lvl, kept, overflow)
    ensures var a := Moved(at, overflow, lvl);
            && (l >= lvl + 1 ==>
                  (n in Bucket(buckets[lvl + 1 := Bucket(buckets, lvl + 1) + overflow], l) <==> n in a && a[n] == l))
            && (n in Bucket(finals[lvl := kept], l) <==> n in a && a[n] == l && l < lvl + 1)
  {
    assert l >= lvl ==> (n in Bucket(buckets, l) <==> n in at && at[n] == l);
    assert n in Bucket(buckets, lvl) <==> n in at && at[n] == lvl;
    assert n in Bucket(finals, l) <==> n in at && at[n] == l && l < lvl;
    hide Placed;
  }

  lemma FullDistinct(nodes: seq<Id>, at: map<Id, int>, buckets: Buckets, finals: Buckets, lvl: int, kept: seq<Id>,
                     overflow: seq<Id>, l: int)
    requires Placed(nodes, at, buckets, finals, lvl) && Split(buckets, lvl, kept, overflow)
    ensures Distinct(Bucket(buckets[lvl + 1 := Bucket(buckets, lvl + 1) + overflow], l)) &&
            Distinct(Bucket(finals[lvl := kept], l))
  {
    assert Distinct(Bucket(buckets, l)) && Distinct(Bucket(finals, l));
    forall n | n in Bucket(buckets, lvl + 1) ensures n !in overflow {
      assert at[n] == lvl + 1 && n !in Bucket(buckets, lvl);
    }
    hide Placed;
    DistinctConcat(Bucket(buckets, lvl + 1), overflow);
  }

  lemma FullLevel(nodes: seq<Id>, at: map<Id, int>, buckets: Buckets, finals: Buckets, lvl: int, kept: seq<Id>,
                  overflow: seq<Id>)
    requires Placed(nodes, at, buckets, finals, lvl) && Split(buckets, lvl, kept, overflow)
    ensures Placed(nodes, Moved(at, overflow, lvl), buckets[lvl + 1 := Bucket(buckets, lvl + 1) + overflow],
            finals[lvl := kept], lvl + 1)
  {
    var b, f, a := buckets[lvl + 1 := Bucket(buckets, lvl + 1) + overflow], finals[lvl := kept],
      Moved(at, overflow, lvl);
    hide Placed, Bucket, Distinct, Split, Waits, Rests;
    forall l ensures Distinct(Bucket(b, l)) && Distinct(Bucket(f, l)) {
      FullDistinct(nodes, at, buckets, finals, lvl, kept, overflow, l);
    }
    FullWaits(nodes, at, buckets, finals, lvl, kept, overflow);
    PlacedKeys(nodes, at, buckets, finals, lvl);
    assert a.Keys == at.Keys;
    IsPlaced(nodes, a, b, f, lvl + 1);
  }

  ghost predicate Waits(at: map<Id, int>, buckets: Buckets, lvl: int) {
    forall l, n :: l >= lvl ==> (n in Bucket(buckets, l) <==> n in at && at[n] == l)
  }

  ghost predicate Rests(at: map<Id, int>, finals: Buckets, lvl: int) {
    forall l, n :: n in Bucket(finals, l) <==> n in at && at[n] == l && l < lvl
  }

  lemma FullWaits(nodes: seq<Id>, at: map<Id, int>, buckets: Buckets, finals: Buckets, lvl: int, kept: seq<Id>,
                  overflow: seq<Id>)
    requires Placed(nodes, at, buckets, finals, lvl) && Split(buckets, lvl, kept, overflow)
    ensures Waits(Moved(at, overflow, lvl), buckets[lvl + 1 := Bucket(buckets, lvl + 1) + overflow], lvl + 1)
    ensures Rests(Moved(at, overflow, lvl), finals[lvl := kept], lvl + 1)
  {
    hide Placed, Bucket, Split, Moved;
    var b, f, a := buckets[lvl + 1 := Bucket(buckets, lvl + 1) + overflow], finals[lvl := kept],
      Moved(at, overflow, lvl);
    forall l, n | l >= lvl + 1 ensures n in Bucket(b, l) <==> n in a && a[n] == l {
      FullLevelAt(nodes, at, buckets, finals, lvl, kept, overflow, l, n);
    }
    forall l, n ensures n in Bucket(f, l) <==> n in a && a[n] == l && l < lvl + 1 {
      FullLevelAt(nodes, at, buckets, finals, lvl, kept, overflow, l, n);
    }
  }

  lemma PlacedKeys(nodes: seq<Id>, at: map<Id, int>, buckets: Buckets, finals: Buckets, lvl: int)
    requires Placed(nodes, at, buckets, finals, lvl)
    ensures at.Keys == Elements(nodes)
  {
  }

  lemma IsPlaced(nodes: seq<Id>, at: map<Id, int>, buckets: Buckets, finals: Buckets, lvl: int)
    requires at.Keys == Elements(nodes)
    requires forall l :: Distinct(Bucket(buckets, l)) && Distinct(Bucket(finals, l))
    requires Waits(at, buckets, lvl) && Rests(at, finals, lvl)
    ensures Placed(nodes, at, buckets, finals, lvl)
  {
    hide Bucket, Distinct;
  }

  lemma DistinctConcat(s: seq<Id>, t: seq<Id>)
    requires Distinct(s) && Distinct(t) && forall n :: n in s ==> n !in t
    ensures Distinct(s + t)
  {
    var r := s + t;
    forall i, j | 0 <= i < j < |r| ensures r[i] != r[j] {
      if i < |s| && j >= |s| { assert r[i] in s && r[j] in t; }
    }
  }

  lemma NoLevels(items: Items)
    ensures LevelsFit(items, map[])
  {
  }

  lemma FitsMore(items: Items, finals: Buckets, lvl: int, kept: seq<Id>)
    requires LevelsFit(items, finals) && kept != [] && Total(items, kept) <= MAX_SLOTS && SortedBy(Display, items, kept)
    ensures LevelsFit(items, finals[lvl := kept])
  {
  }

  lemma BucketFacts(items: Items, nodes: seq<Id>, at: map<Id, int>, buckets: Buckets, finals: Buckets, lvl: int)
    requires Placed(nodes, at, buckets, finals, lvl) && forall n :: n in nodes ==> n in items
    ensures Distinct(Bucket(buckets, lvl))
    ensures forall n :: n in Bucket(buckets, lvl) ==> n in items && n in at && at[n] == lvl
  {
    hide Distinct;
    forall n | n in Bucket(buckets, lvl) ensures n in items && n in at && at[n] == lvl {
      assert n in at && at[n] == lvl;
      assert n in Elements(nodes);
    }
  }

  lemma NoOverflow(nodes: seq<Id>, at: map<Id, int>, buckets: Buckets, finals: Buckets, lvl: int)
    requires Placed(nodes, at, buckets[lvl := Bucket(buckets, lvl) + []], finals, lvl)
    ensures Placed(nodes, at, buckets, finals, lvl)
  {
    hide Placed;
    var b := buckets[lvl := Bucket(buckets, lvl) + []];
    assert Bucket(buckets, lvl) + [] == Bucket(buckets, lvl);
    forall l ensures Bucket(b, l) == Bucket(buckets, l) {
    }
    SameBuckets(nodes, at, b, buckets, finals, lvl);
  }

  lemma SameBuckets(nodes: seq<Id>, at: map<Id, int>, b: Buckets, buckets: Buckets, finals: Buckets, lvl: int)
    requires Placed(nodes, at, b, finals, lvl) && forall l :: Bucket(b, l) == Bucket(buckets, l)
    ensures Placed(nodes, at, buckets, finals, lvl)
  {
    hide Bucket, Distinct;
    forall l ensures Distinct(Bucket(buckets, l)) {
      assert Distinct(Bucket(b, l));
    }
    forall l, n | l >= lvl ensures n in Bucket(buckets, l) <==> n in at && at[n] == l {
      assert n in Bucket(b, l) <==> n in at && at[n] == l;
    }
  }

  lemma AllPlaced(nodes: seq<Id>, at: map<Id, int>, buckets: Buckets, finals: Buckets, lvl: int)
    requires Placed(nodes, at, buckets, finals, lvl) && forall n :: n in at ==> at[n] < lvl
    ensures forall l, n :: n in Bucket(finals, l) <==> n in at && at[n] == l
    ensures forall l :: l in finals ==> Distinct(finals[l])
  {
    forall l | l in finals ensures Distinct(finals[l]) {
      assert Distinct(Bucket(finals, l));
    }
  }

  ghost function Waiting(at: map<Id, int>, lvl: int): set<Id> {
    set n | n in at && at[n] >= lvl
  }

  ghost predicate InRange(level: map<Id, int>, at: map<Id, int>, maxLevel: int) {
    forall n :: n in at ==> LevelOf(level, n) <= at[n] <= maxLevel
  }

  lemma LevelShrinks(at: map<Id, int>, overflow: seq<Id>, lvl: int, x: Id)
    requires x in at && at[x] == lvl && x !in overflow && forall n :: n in overflow ==> n in at && at[n] == lvl
    ensures Waiting(Moved(at, overflow, lvl), lvl + 1) < Waiting(at, lvl)
  {
    assert x in Waiting(at, lvl) && x !in Waiting(Moved(at, overflow, lvl), lvl + 1);
  }

  /** One non-empty level: keep what fits, push the rest. */
  method PlaceLevel(items: Items, ghost nodes: seq<Id>, ghost level: map<Id, int>, ghost at0: map<Id, int>,
                    buckets0: Buckets, finals0: Buckets, lvl: int, maxLevel0: int)
    returns (buckets: Buckets, finals: Buckets, maxLevel: int, ghost at: map<Id, int>)
    requires Placed(nodes, at0, buckets0, finals0, lvl) && LevelsFit(items, finals0) && InRange(level, at0, maxLevel0)
    requires Bucket(buckets0, lvl) != [] && lvl <= maxLevel0 && forall n :: n in nodes ==> n in items
    requires Passing(items, level, at0, lvl) && Unmoved(level, at0, lvl) && PassedFull(items, level, at0, finals0, lvl)
    ensures Placed(nodes, at, buckets, finals, lvl + 1) && LevelsFit(items, finals) && InRange(level, at, maxLevel)
    ensures at.Keys == at0.Keys && Waiting(at, lvl + 1) < Waiting(at0, lvl)
    ensures forall n :: n in at0 ==> at[n] == at0[n] || (at0[n] == lvl && at[n] == lvl + 1)
    ensures Passing(items, level, at, lvl + 1) && Unmoved(level, at, lvl + 1)
    ensures PassedFull(items, level, at, finals, lvl + 1)
  {
    hide LevelsFit, Placed, Total, SortedBy, NotAfter, Waiting, Moved, Passing, Unmoved, PassedFull, LevelOf;
    var nodesAt := Bucket(buckets0, lvl);
    BucketFacts(items, nodes, at0, buckets0, finals0, lvl);
    var kept, overflow := SplitLevel(items, nodesAt);
    FullLevel(nodes, at0, buckets0, finals0, lvl, kept, overflow);
    FitsMore(items, finals0, lvl, kept);
    assert kept[0] in nodesAt;
    LevelShrinks(at0, overflow, lvl, kept[0]);
    at := Moved(at0, overflow, lvl);
    MovedInRange(level, at0, overflow, lvl, maxLevel0);
    assert forall n :: n in at0 && at0[n] == lvl ==> n in kept || n in overflow by {
      BucketHolds(nodes, at0, buckets0, finals0, lvl);
    }
    MovedPasses(items, level, at0, lvl, kept, overflow);
    MovedFull(items, level, at0, finals0, lvl, kept, overflow, maxLevel0);
    MovedStep(at0, overflow, lvl);
    finals := finals0[lvl := kept];
    buckets, maxLevel := buckets0, maxLevel0;
    if overflow != [] {
      buckets := buckets0[lvl + 1 := Bucket(buckets0, lvl + 1) + overflow];
      maxLevel := if maxLevel0 < lvl + 1 then lvl + 1 else maxLevel0;
    } else {
      NoOverflow(nodes, at, buckets0, finals, lvl + 1);
    }
  }

  lemma BucketHolds(nodes: seq<Id>, at: map<Id, int>, buckets: Buckets, finals: Buckets, lvl: int)
    requires Placed(nodes, at, buckets, finals, lvl)
    ensures forall n :: n in at && at[n] == lvl ==> n in Bucket(buckets, lvl)
  {
  }

  lemma MovedPasses(items: Items, level: map<Id, int>, at: map<Id, int>, lvl: int, kept: seq<Id>, overflow: seq<Id>)
    requires Passing(items, level, at, lvl) && Unmoved(level, at, lvl)
    requires forall n :: n in at && at[n] == lvl ==> n in kept || n in overflow
    requires forall n :: n in overflow ==> n in at && at[n] == lvl
    requires forall a, b :: a in overflow && b in kept ==> NotAfter(Push, items, a, b)
    ensures Passing(items, level, Moved(at, overflow, lvl), lvl + 1) &&
            Unmoved(level, Moved(at, overflow, lvl), lvl + 1)
  {
    hide NotAfter, LevelOf;
    var now := Moved(at, overflow, lvl);
    forall n, b | n in now && b in now && LevelOf(level, n) <= now[b] < now[n] && now[b] < lvl + 1
      ensures NotAfter(Push, items, n, b)
    {
      assert b !in overflow;
      if now[b] < lvl {
        assert NotAfter(Push, items, n, b);
      } else {
        assert n in overflow && b in kept;
      }
    }
  }

  lemma MovedStep(at: map<Id, int>, overflow: seq<Id>, lvl: int)
    requires forall n :: n in overflow ==> n in at && at[n] == lvl
    ensures var now := Moved(at, overflow, lvl);
            now.Keys == at.Keys && forall n :: n in at ==> now[n] == at[n] || (at[n] == lvl && now[n] == lvl + 1)
  {
  }

  /** What was full stays full, and the level in hand is full if anybody leaves it. */
  lemma MovedFull(items: Items, level: map<Id, int>, at: map<Id, int>, finals: Buckets, lvl: int,
                  kept: seq<Id>, overflow: seq<Id>, maxLevel: int)
    requires PassedFull(items, level, at, finals, lvl) && Unmoved(level, at, lvl) && InRange(level, at, maxLevel)
    requires forall n :: n in overflow ==> n in at && at[n] == lvl
    requires kept != []
    requires overflow != [] ==> Total(items, kept) + Slots(items, overflow[|overflow| - 1]) > MAX_SLOTS
    ensures PassedFull(items, level, Moved(at, overflow, lvl), finals[lvl := kept], lvl + 1)
  {
    hide LevelOf, Total, Slots;
    var now, after := Moved(at, overflow, lvl), finals[lvl := kept];
    forall n, l | n in now && LevelOf(level, n) <= l < now[n] && l < lvl + 1 ensures Full(items, level, now, after, l) {
      if l < lvl {
        assert Full(items, level, at, finals, l);
        StaysFull(items, level, at, finals, lvl, kept, overflow, l);
      } else {
        assert n in overflow;
        var m := overflow[|overflow| - 1];
        assert m in overflow && LevelOf(level, m) <= lvl < now[m];
      }
    }
  }

  lemma StaysFull(items: Items, level: map<Id, int>, at: map<Id, int>, finals: Buckets, lvl: int,
                  kept: seq<Id>, overflow: seq<Id>, l: int)
    requires Full(items, level, at, finals, l) && l < lvl && forall n :: n in overflow ==> n in at && at[n] == lvl
    ensures Full(items, level, Moved(at, overflow, lvl), finals[lvl := kept], l)
  {
    hide LevelOf, Total, Slots;
    var m :| m in at && LevelOf(level, m) <= l < at[m] && Total(items, finals[l]) + Slots(items, m) > MAX_SLOTS;
    var now := Moved(at, overflow, lvl);
    assert m in now && LevelOf(level, m) <= l < now[m];
  }

  lemma EmptyPasses(items: Items, level: map<Id, int>, at: map<Id, int>, finals: Buckets, lvl: int)
    requires Passing(items, level, at, lvl) && Unmoved(level, at, lvl) && PassedFull(items, level, at, finals, lvl)
    requires forall n :: n in at && at[n] >= lvl ==> at[n] >= lvl + 1
    ensures Passing(items, level, at, lvl + 1) && Unmoved(level, at, lvl + 1) &&
            PassedFull(items, level, at, finals, lvl + 1)
  {
    hide NotAfter, LevelOf, Full;
  }

  lemma MovedInRange(level: map<Id, int>, at: map<Id, int>, overflow: seq<Id>, lvl: int, maxLevel: int)
    requires InRange(level, at, maxLevel) && forall n :: n in overflow ==> n in at && at[n] == lvl
    ensures Moved(at, overflow, lvl).Keys == at.Keys
    ensures InRange(level, Moved(at, overflow, lvl), if maxLevel < lvl + 1 then lvl + 1 else maxLevel)
    ensures overflow == [] ==> InRange(level, Moved(at, overflow, lvl), maxLevel)
  {
  }

  /** Level by level, as long as the last level used keeps moving away. */
  method Distribute(items: Items, nodes: seq<Id>, level: map<Id, int>, maxLevel0: int)
    returns (finals: Buckets, ghost at: map<Id, int>)
    requires Distinct(nodes) && forall n :: n in nodes ==> n in items
    requires forall n :: 1 <= LevelOf(level, n) <= maxLevel0
    ensures at.Keys == Elements(nodes) && forall n :: n in at ==> LevelOf(level, n) <= at[n]
    ensures forall l, n :: n in Bucket(finals, l) <==> n in at && at[n] == l
    ensures forall l :: l in finals ==> Distinct(finals[l])
    ensures LevelsFit(items, finals)
    ensures forall n, b :: n in at && b in at && LevelOf(level, n) <= at[b] < at[n] ==> NotAfter(Push, items, n, b)
    ensures forall n, l :: n in at && LevelOf(level, n) <= l < at[n] ==> Full(items, level, at, finals, l)
  {
    hide LevelsFit, Placed, Passing, Unmoved, NotAfter, PassedFull, Full;
    var buckets;
    buckets, at := FillBuckets(nodes, level);
    finals := map[];
    var maxLevel := maxLevel0;
    var lvl := 1;
    NoLevels(items);
    StartPasses(items, level, at, finals);
    while lvl <= maxLevel
      invariant Placed(nodes, at, buckets, finals, lvl) && LevelsFit(items, finals)
      invariant at.Keys == Elements(nodes) && InRange(level, at, maxLevel)
      invariant Passing(items, level, at, lvl) && Unmoved(level, at, lvl) && PassedFull(items, level, at, finals, lvl)
      decreases Waiting(at, lvl), maxLevel - lvl
    {
      if Bucket(buckets, lvl) == [] {
        EmptyLevel(nodes, at, buckets, finals, lvl);
        EmptyPasses(items, level, at, finals, lvl);
        assert Waiting(at, lvl + 1) == Waiting(at, lvl);
      } else {
        buckets, finals, maxLevel, at := PlaceLevel(items, nodes, level, at, buckets, finals, lvl, maxLevel);
      }
      lvl := lvl + 1;
    }
    AllPlaced(nodes, at, buckets, finals, lvl);
    AllPassed(items, level, at, finals, lvl);
  }

  lemma StartPasses(items: Items, level: map<Id, int>, at: map<Id, int>, finals: Buckets)
    requires forall n :: n in at ==> at[n] == LevelOf(level, n) >= 1
    ensures Passing(items, level, at, 1) && Unmoved(level, at, 1) && PassedFull(items, level, at, finals, 1)
  {
    hide NotAfter, Full;
  }

  lemma AllPassed(items: Items, level: map<Id, int>, at: map<Id, int>, finals: Buckets, lvl: int)
    requires Passing(items, level, at, lvl) && PassedFull(items, level, at, finals, lvl)
    requires forall n :: n in at ==> at[n] < lvl
    ensures forall n, b :: n in at && b in at && LevelOf(level, n) <= at[b] < at[n] ==> NotAfter(Push, items, n, b)
    ensures forall n, l :: n in at && LevelOf(level, n) <= l < at[n] ==> Full(items, level, at, finals, l)
  {
    hide NotAfter, LevelOf, Full;
  }
}
