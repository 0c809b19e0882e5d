/** Per-task log buffers and paged reading (server/src/log/task_log_buffer.cpp). Sequence numbers are unbounded here. */
module TaskLogs {

  datatype Key = Key(id: string, runId: string)

  datatype LogRecord = LogRecord(taskId: Key, runId: string, seqNo: nat, message: string)

  datatype PerTaskBuf = PerTaskBuf(q: seq<LogRecord>, nextSeq: nat, lastTouch: int)

  datatype Page = Page(nextFrom: nat, records: seq<LogRecord>)

  /* ---- specification: everything ever appended under a key ---- */

  /** Record `i` carries number `i + 1`. */
  ghost predicate Numbered(h: seq<LogRecord>) {
    forall i :: 0 <= i < |h| ==> h[i].seqNo == i + 1
  }

  /** The last `max` records. */
  function Kept(h: seq<LogRecord>, max: nat): seq<LogRecord> {
    if |h| <= max then h else h[|h| - max..]
  }

  /** The smallest number not yet trimmed away. */
  function Oldest(h: seq<LogRecord>, max: nat): (n: nat)
    ensures n >= 1
  {
    if |h| <= max then 1 else |h| - max + 1
  }

  /** Where a page asked from `from` begins, as a place in the history. */
  function Begin(h: seq<LogRecord>, max: nat, from: nat): (a: nat)
    ensures a <= |h|
  {
    var first := if from < Oldest(h, max) then Oldest(h, max) else from;
    if first > |h| then |h| else first - 1
  }

  function End(h: seq<LogRecord>, max: nat, from: nat, limit: nat): (b: nat)
    ensures Begin(h, max, from) <= b <= |h|
    ensures Begin(h, max, from) < |h| ==> Begin(h, max, from) < b
  {
    var b := Begin(h, max, from) + if limit == 0 then 1 else limit;
    if b < |h| then b else |h|
  }

  /** A page has the smaller of the limit and the number of retained records from the start number on: exactly those
      whose numbers are at least the start, are still retained, and come among the first so many. */
  lemma PageIsFull(h: seq<LogRecord>, max: nat, from: nat, limit: nat)
    requires Numbered(h) && limit >= 1
    ensures var first := if from < |h| - max + 1 then |h| - max + 1 else if from < 1 then 1 else from;
            var count := if first > |h| then 0 else |h| - first + 1;
            var records := PageOf(h, max, from, limit).records;
            |records| == (if limit < count then limit else count) &&
            forall i :: 0 <= i < |records| ==> records[i] == h[first - 1 + i] && records[i].seqNo == first + i
  {
  }

  /** A page is a stretch of the history; an empty page leaves the reader where it was. */
  function PageOf(h: seq<LogRecord>, max: nat, from: nat, limit: nat): Page {
    var a, b := Begin(h, max, from), End(h, max, from, limit);
    Page(if a == b then from else b + 1, h[a..b])
  }

  /* ---- the buffer ---- */

  class TaskLogBuffer {
    const max: nat
    var bufs: map<Key, PerTaskBuf>
    /** What was appended under each key since it was last cleared or pruned. */
    ghost var history: map<Key, seq<LogRecord>>

    ghost predicate Valid()
      reads this
    {
      history.Keys == bufs.Keys && forall k <- bufs :: Holds(bufs[k], history[k], max)
    }

    constructor (perTaskMaxRecords: nat)
      ensures Valid() && max == perTaskMaxRecords && history == map[]
    {
      max := perTaskMaxRecords;
      bufs, history := map[], map[];
    }

    ghost function Past(k: Key): seq<LogRecord>
      reads this
    {
      if k in history then history[k] else []
    }

    method Append(rec: LogRecord, now: int) returns (stored: LogRecord)
      requires Valid()
      modifies this
      ensures Valid()
      ensures stored == rec.(runId := if rec.runId == "" then rec.taskId.runId else rec.runId,
                             seqNo := |old(Past(rec.taskId))| + 1)
      ensures history == old(history)[rec.taskId := old(Past(rec.taskId)) + [stored]]
      ensures rec.taskId in bufs && bufs[rec.taskId].lastTouch == now
      ensures forall k <- bufs :: k == rec.taskId || (k in old(bufs) && bufs[k] == old(bufs)[k])
    {
      hide Holds, Kept;
      var k := rec.taskId;
      var b := if k in bufs then bufs[k] else PerTaskBuf([], 1, now);
      ghost var h := Past(k);
      assert Holds(b, h, max) by { NewHolds(now, max); }
      stored := rec.(runId := if rec.runId == "" then rec.taskId.runId else rec.runId, seqNo := b.nextSeq);
      assert b.nextSeq == |h| + 1 by { HoldsNumbers(b, h, max); }
      var q := Trim(b.q + [stored], max);
      AppendHolds(b, h, stored, max, now);
      bufs := bufs[k := PerTaskBuf(q, b.nextSeq + 1, now)];
      history := history[k := h + [stored]];
    }

    /** `get`: reads only. */
    method Get(k: Key, from: nat, limit: nat) returns (page: Page)
      requires Valid()
      ensures page == PageOf(Past(k), max, from, limit)
    {
      if k !in bufs || bufs[k].q == [] {
        if k in bufs {
          assert Holds(bufs[k], history[k], max);
        }
        return Page(from, []);
      }
      var q := bufs[k].q;
      ghost var h := history[k];
      assert Holds(bufs[k], h, max);
      var records := Select(q, h, max, from, limit);
      if records != [] {
        page := Page(records[|records| - 1].seqNo + 1, records);
      } else {
        page := Page(from, records);
      }
    }

    method Tail(k: Key, n: nat) returns (out: seq<LogRecord>)
      requires Valid()
      ensures out == Kept(Past(k), if n < max then n else max)
    {
      if k !in bufs {
        return [];
      }
      var q := bufs[k].q;
      assert Holds(bufs[k], history[k], max);
      var start := if n >= |q| then 0 else |q| - n;
      out := [];
      for i := start to |q|
        invariant out == q[start..i]
      {
        out := out + [q[i]];
      }
      assert q[start..|q|] == q[start..];
    }

    method Clear(k: Key)
      requires Valid()
      modifies this
      ensures Valid() && history == old(history) - {k}
    {
      bufs, history := bufs - {k}, history - {k};
    }

    /** Buffers not touched for longer than `maxAge` milliseconds go; the others stay as they are. */
    method PruneOlderThan(maxAge: int, now: int)
      requires Valid()
      modifies this
      ensures Valid()
      ensures history.Keys == set k <- old(bufs) | !Aged(old(bufs)[k], maxAge, now)
      ensures forall k <- history :: history[k] == old(history)[k] && bufs[k] == old(bufs)[k]
      ensures forall k <- old(bufs) :: old(bufs)[k].lastTouch <= now ==>
                (k !in history <==> (now - old(bufs)[k].lastTouch) / 1_000_000 > maxAge)
    {
      hide Holds;
      ghost var before, past := bufs, history;
      var todo := bufs.Keys;
      while todo != {}
        invariant todo <= bufs.Keys && history.Keys == bufs.Keys
        invariant forall k :: k in bufs <==> k in before && (k in todo || !Aged(before[k], maxAge, now))
        invariant forall k <- bufs :: bufs[k] == before[k] && history[k] == past[k]
        decreases |todo|
      {
        var k :| k in todo;
        todo := todo - {k};
        if Aged(bufs[k], maxAge, now) {
          bufs, history := bufs - {k}, history - {k};
        }
      }
    }
  }

  /** Age in whole milliseconds, dropping the fraction, from a clock in nanoseconds. */
  predicate Aged(b: PerTaskBuf, maxAge: int, now: int) {
    var d := now - b.lastTouch;
    (if d >= 0 then d / 1_000_000 else -(-d / 1_000_000)) > maxAge
  }

  /** The buffer holds the last `max` of its history, and numbers on from it. */
  ghost predicate Holds(b: PerTaskBuf, h: seq<LogRecord>, max: nat) {
    Numbered(h) && b.nextSeq == |h| + 1 && b.q == Kept(h, max)
  }

  lemma NewHolds(now: int, max: nat)
    ensures Holds(PerTaskBuf([], 1, now), [], max)
  {
  }

  lemma HoldsNumbers(b: PerTaskBuf, h: seq<LogRecord>, max: nat)
    requires Holds(b, h, max)
    ensures b.nextSeq == |h| + 1
  {
  }

  lemma AppendHolds(b: PerTaskBuf, h: seq<LogRecord>, r: LogRecord, max: nat, now: int)
    requires Holds(b, h, max) && r.seqNo == b.nextSeq
    ensures Holds(PerTaskBuf(Kept(b.q + [r], max), b.nextSeq + 1, now), h + [r], max)
  {
    assert Kept(Kept(h, max) + [r], max) == Kept(h + [r], max);
  }

  /** The trimming loop of `append`. */
  method Trim(records: seq<LogRecord>, max: nat) returns (q: seq<LogRecord>)
    ensures q == Kept(records, max)
  {
    q := records;
    while |q| > max
      invariant Kept(q, max) == Kept(records, max)
      decreases |q|
    {
      q := q[1..];
    }
  }

  /** The scanning loop of `get`. */
  method Select(q: seq<LogRecord>, ghost h: seq<LogRecord>, ghost max: nat, from: nat, limit: nat)
    returns (records: seq<LogRecord>)
    requires Numbered(h) && q == Kept(h, max)
    ensures records == PageOf(h, max, from, limit).records
    ensures records != [] ==> records[|records| - 1].seqNo + 1 == PageOf(h, max, from, limit).nextFrom
  {
    hide Begin, End, Kept, Numbered, Oldest;
    records := [];
    ghost var a, lim, off := Begin(h, max, from), (if limit == 0 then 1 else limit), |h| - |q|;
    KeptAt(h, max);
    BeginMeaning(h, max, from);
    EndMeaning(h, max, from, limit);
    for i := 0 to |q|
      invariant records == if off + i <= a then [] else h[a..off + i]
      invariant off + i <= a || off + i - a < lim
    {
      assert q[i] == h[off + i];
      if q[i].seqNo >= from {
        assert records + [h[off + i]] == h[a..off + i + 1];
        records := records + [q[i]];
        if |records| >= limit {
          return;
        }
      }
    }
  }

  lemma EndMeaning(h: seq<LogRecord>, max: nat, from: nat, limit: nat)
    requires Numbered(h)
    ensures var a, lim := Begin(h, max, from), if limit == 0 then 1 else limit;
            End(h, max, from, limit) == (if a + lim < |h| then a + lim else |h|)
    ensures forall i :: 0 <= i < |h| ==> h[i].seqNo == i + 1
  {
  }

  /** The kept records are the history from the oldest retained number on. */
  lemma KeptAt(h: seq<LogRecord>, max: nat)
    ensures |Kept(h, max)| == |h| - (Oldest(h, max) - 1)
    ensures forall i :: 0 <= i < |Kept(h, max)| ==> Kept(h, max)[i] == h[Oldest(h, max) - 1 + i]
  {
  }

  lemma BeginMeaning(h: seq<LogRecord>, max: nat, from: nat)
    requires Numbered(h)
    ensures Begin(h, max, from) >= Oldest(h, max) - 1
    ensures forall i :: Oldest(h, max) - 1 <= i < |h| ==> (h[i].seqNo >= from <==> i >= Begin(h, max, from))
  {
    OldestInside(h, max);
    hide Oldest;
  }

  lemma OldestInside(h: seq<LogRecord>, max: nat)
    ensures Oldest(h, max) - 1 <= |h|
  {
  }

  /* ---- a reader following `nextFrom` while others append ---- */

  datatype Event = Write(rec: LogRecord) | Read(limit: nat)

  /** What was appended, where the reader stands, and what it has got so far. */
  datatype Session = Session(h: seq<LogRecord>, from: nat, got: seq<LogRecord>)

  function Advance(s: Session, max: nat, e: Event): Session {
    match e
    case Write(rec) => s.(h := s.h + [rec.(seqNo := |s.h| + 1)])
    case Read(limit) =>
      var page := PageOf(s.h, max, s.from, limit);
      s.(from := page.nextFrom, got := s.got + page.records)
  }

  function Run(s: Session, max: nat, events: seq<Event>): Session
    decreases |events|
  {
    if events == [] then s
    else Advance(Run(s, max, events[..|events| - 1]), max, events[|events| - 1])
  }

  /** What the reader got is genuine and lies between its start and where it stands. */
  ghost predicate Genuine(s: Session, start: nat) {
    Numbered(s.h) && start <= s.from && (s.from == start || s.from <= |s.h| + 1) &&
    forall i :: 0 <= i < |s.got| ==> GotFrom(s, start, s.got[i])
  }

  ghost predicate GotFrom(s: Session, start: nat, g: LogRecord) {
    start <= g.seqNo < s.from && 1 <= g.seqNo <= |s.h| && s.h[g.seqNo - 1] == g
  }

  ghost predicate Ordered(got: seq<LogRecord>) {
    forall i, j :: 0 <= i < j < |got| ==> got[i].seqNo < got[j].seqNo
  }

  /** What the reader passed over without getting it had been trimmed. */
  ghost predicate Complete(s: Session, max: nat, start: nat) {
    forall i :: Oldest(s.h, max) - 1 <= i < |s.h| && start <= i + 1 < s.from ==> s.h[i] in s.got
  }

  ghost predicate Sound(s: Session, max: nat, start: nat) {
    Genuine(s, start) && Ordered(s.got) && Complete(s, max, start)
  }

  lemma WriteKeepsSound(s: Session, max: nat, start: nat, rec: LogRecord)
    requires Sound(s, max, start)
    ensures Sound(Advance(s, max, Write(rec)), max, start)
  {
    hide Ordered, GotFrom;
    var s' := Advance(s, max, Write(rec));
    assert Complete(s', max, start) by {
      forall i | Oldest(s'.h, max) - 1 <= i < |s'.h| && start <= i + 1 < s'.from ensures s'.h[i] in s'.got {
        assert i < |s.h|;
        assert s.h[i] in s.got;
      }
    }
    forall i | 0 <= i < |s.got| ensures GotFrom(s', start, s.got[i]) {
      GotAfterWrite(s, start, s.got[i], rec, max);
    }
  }

  lemma GotAfterWrite(s: Session, start: nat, g: LogRecord, rec: LogRecord, max: nat)
    requires GotFrom(s, start, g)
    ensures GotFrom(Advance(s, max, Write(rec)), start, g)
  {
  }

  /** A page: its numbers run on from where it begins, none before the reader's place, all retained ones included. */
  lemma PageMeaning(h: seq<LogRecord>, max: nat, from: nat, limit: nat)
    requires Numbered(h)
    ensures var a, page := Begin(h, max, from), PageOf(h, max, from, limit);
            a + |page.records| <= |h| && page.nextFrom >= from &&
            (page.records == [] ==> page.nextFrom == from) &&
            (page.records != [] ==> page.nextFrom == a + |page.records| + 1 && from <= a + 1) &&
            (forall i :: 0 <= i < |page.records| ==> page.records[i] == h[a + i] && h[a + i].seqNo == a + i + 1)
  {
  }

  /** Every retained record that the reader passes over is on the page. */
  lemma PageCovers(h: seq<LogRecord>, max: nat, from: nat, limit: nat, i: nat)
    requires Oldest(h, max) - 1 <= i < |h| && from <= i + 1 < PageOf(h, max, from, limit).nextFrom
    ensures h[i] in PageOf(h, max, from, limit).records
  {
    var a, page := Begin(h, max, from), PageOf(h, max, from, limit);
    assert page.records[i - a] == h[i];
  }

  lemma ReadKeepsSound(s: Session, max: nat, start: nat, limit: nat)
    requires Sound(s, max, start)
    ensures Sound(Advance(s, max, Read(limit)), max, start)
  {
    hide Begin, PageOf, Oldest, GotFrom;
    var page := PageOf(s.h, max, s.from, limit);
    var more := page.records;
    var s' := s.(from := page.nextFrom, got := s.got + more);
    assert s' == Advance(s, max, Read(limit));
    PageMeaning(s.h, max, s.from, limit);
    forall i | 0 <= i < |s.got| ensures GotFrom(s', start, s.got[i]) && s.got[i].seqNo < s.from {
      GotLater(s, s', start, s.got[i]);
    }
    forall i | 0 <= i < |more| ensures GotFrom(s', start, more[i]) {
      GotNow(s', start, more[i]);
    }
    assert forall i :: 0 <= i < |s'.got| ==> s'.got[i] == if i < |s.got| then s.got[i] else more[i - |s.got|];
    ReadKeepsComplete(s, max, start, limit);
  }

  lemma ReadKeepsComplete(s: Session, max: nat, start: nat, limit: nat)
    requires Complete(s, max, start)
    ensures Complete(Advance(s, max, Read(limit)), max, start)
  {
    hide Begin, PageOf, Oldest;
    var page := PageOf(s.h, max, s.from, limit);
    forall i | Oldest(s.h, max) - 1 <= i < |s.h| && start <= i + 1 < page.nextFrom
      ensures s.h[i] in s.got + page.records
    {
      if i + 1 < s.from {
        assert s.h[i] in s.got;
      } else {
        PageCovers(s.h, max, s.from, limit, i);
      }
    }
  }

  lemma GotLater(s: Session, s': Session, start: nat, g: LogRecord)
    requires GotFrom(s, start, g) && s'.h == s.h && s'.from >= s.from
    ensures GotFrom(s', start, g) && g.seqNo < s.from
  {
  }

  lemma GotNow(s: Session, start: nat, g: LogRecord)
    requires start <= g.seqNo < s.from && 1 <= g.seqNo <= |s.h| && s.h[g.seqNo - 1] == g
    ensures GotFrom(s, start, g)
  {
  }

  /** However appends and reads interleave, the reader sees strictly increasing numbers, only genuine records,
      and misses none that is still retained. */
  lemma {:induction false} ReaderSound(max: nat, h: seq<LogRecord>, start: nat, events: seq<Event>)
    requires Numbered(h)
    ensures Sound(Run(Session(h, start, []), max, events), max, start)
    decreases |events|
  {
    hide Sound, Advance;
    var s := Session(h, start, []);
    if events == [] {
      StartSound(h, start, max);
    } else {
      var front := events[..|events| - 1];
      ReaderSound(max, h, start, front);
      match events[|events| - 1] {
        case Write(rec) => WriteKeepsSound(Run(s, max, front), max, start, rec);
        case Read(limit) => ReadKeepsSound(Run(s, max, front), max, start, limit);
      }
    }
  }

  lemma StartSound(h: seq<LogRecord>, start: nat, max: nat)
    requires Numbered(h)
    ensures Sound(Session(h, start, []), max, start)
  {
  }

  /** `n` reads in a row, with nothing appended meanwhile. */
  function Reads(limit: nat, n: nat): seq<Event> {
    seq(n, _ => Read(limit))
  }

  lemma PageAt(h: seq<LogRecord>, max: nat, from: nat, limit: nat)
    ensures var a, page := Begin(h, max, from), PageOf(h, max, from, limit);
            a + |page.records| <= |h| && page.records == h[a..a + |page.records|] &&
            Begin(h, max, page.nextFrom) == a + |page.records| &&
            (page.records == [] ==> a == |h|)
  {
  }

  /** With nothing appended, enough reads give exactly the retained records from the start number, each once, in order,
      and then the reader stands past the end. */
  lemma {:induction false} ReadsDrain(max: nat, h: seq<LogRecord>, start: nat, limit: nat, n: nat)
    requires Numbered(h)
    ensures var a := Begin(h, max, start);
            var s := Run(Session(h, start, []), max, Reads(limit, n));
            s.h == h && Begin(h, max, s.from) == a + |s.got| <= |h| && s.got == h[a..a + |s.got|] &&
            (|s.got| >= n || a + |s.got| == |h|)
    decreases n
  {
    hide Begin, PageOf;
    var s0 := Session(h, start, []);
    if n == 0 {
      assert Run(s0, max, []) == s0;
    } else {
      ReadsDrain(max, h, start, limit, n - 1);
      var s := Run(s0, max, Reads(limit, n - 1));
      ReadsUnfold(s0, max, limit, n);
      DrainOnce(h, max, start, s, limit);
    }
  }

  lemma ReadsUnfold(s: Session, max: nat, limit: nat, n: nat)
    requires n > 0
    ensures Run(s, max, Reads(limit, n)) == Advance(Run(s, max, Reads(limit, n - 1)), max, Read(limit))
  {
    hide Advance;
    assert Reads(limit, n)[..n - 1] == Reads(limit, n - 1);
  }

  lemma DrainOnce(h: seq<LogRecord>, max: nat, start: nat, s: Session, limit: nat)
    requires var a := Begin(h, max, start);
             s.h == h && Begin(h, max, s.from) == a + |s.got| <= |h| && s.got == h[a..a + |s.got|]
    ensures var a, t := Begin(h, max, start), Advance(s, max, Read(limit));
            t.h == h && Begin(h, max, t.from) == a + |t.got| <= |h| && t.got == h[a..a + |t.got|] &&
            (|t.got| > |s.got| || a + |t.got| == |h|)
  {
    hide Begin, PageOf;
    PageAt(h, max, s.from, limit);
    var page := PageOf(h, max, s.from, limit);
    var a := Begin(h, max, start);
    assert s.got + page.records == h[a..a + |s.got| + |page.records|];
  }
}
