/** The next time a cron expression fires (server/src/scheduler/cron_parser.cpp, `next`). */
module CronNext {
  import opened TaskCommon
  import opened CronParser

  /** The broken-down local time of a minute; `localtime_r` is a parameter. */
  datatype Calendar = Calendar(month: nat, day: nat, weekday: nat, hour: nat, minute: nat)

  predicate Proper(c: Calendar) {
    1 <= c.month <= 12 && 1 <= c.day <= 31 && c.weekday <= 6 && c.hour <= 23 && c.minute <= 59
  }

  /** Both day fields must hold. */
  predicate Matches(cron: Cron, c: Calendar) {
    c.month in cron.months && c.day in cron.days && c.weekday in cron.weekdays && c.hour in cron.hours &&
    c.minute in cron.minutes
  }

  const MINUTE := 60_000_000_000

  /** Division that drops the fraction, as `time_point_cast` does. */
  function Truncate(a: int, b: int): int
    requires b > 0
  {
    if a >= 0 then a / b else -(-a / b)
  }

  /** The first minute looked at, for a clock reading in nanoseconds. */
  function Base(now: int): int {
    Truncate(now, MINUTE) + 1
  }

  const MAX_CHECKS := 525_600

  /** `m` is the first minute that starts strictly after `now`. */
  ghost predicate FirstAfter(now: int, m: int) {
    m * 60_000_000_000 > now && (m - 1) * 60_000_000_000 <= now
  }

  /** The search starts at the first minute after now, except before the epoch, off a whole minute:
      there it starts one minute late. */
  lemma BaseExact(now: int)
    ensures FirstAfter(now, Base(now)) <==> now >= 0 || now % 60_000_000_000 == 0
    ensures now < 0 && now % 60_000_000_000 != 0 ==> FirstAfter(now, Base(now) - 1)
  {
  }

  predicate Within(vs: seq<int>, size: nat) {
    forall v <- vs :: 0 <= v < size
  }

  /** The values index the lookup tables safely. */
  ghost predicate Fits(cron: Cron) {
    Within(cron.minutes, 60) && Within(cron.hours, 24) && Within(cron.days, 32) && Within(cron.months, 13) &&
    Within(cron.weekdays, 7)
  }

  lemma MeantWithin(field: string, min: int, max: int, vs: seq<int>)
    requires 0 <= min <= max && Meant(field, min, max, vs)
    ensures Within(vs, max + 1)
  {
    hide Covers;
    forall v <- vs ensures 0 <= v <= max {
      CoveredInBounds(Tokens(field, 0), min, max, v);
    }
  }

  /** Every parsed expression fits the tables. */
  lemma ParsedFits(spec: string, cron: Cron)
    requires Says(spec, cron)
    ensures Fits(cron)
  {
    hide Meant, Words, Within;
    var w := Words(spec, 0);
    MeantWithin(w[0], 0, 59, cron.minutes);
    MeantWithin(w[1], 0, 23, cron.hours);
    MeantWithin(w[2], 1, 31, cron.days);
    MeantWithin(w[3], 1, 12, cron.months);
    MeantWithin(w[4], 0, 6, cron.weekdays);
  }

  /** One lookup table. */
  method Lookup(vs: seq<int>, size: nat) returns (table: array<bool>)
    requires Within(vs, size)
    ensures fresh(table) && table.Length == size
    ensures forall i :: 0 <= i < size ==> (table[i] <==> i in vs)
  {
    table := new bool[size](i => false);
    for k := 0 to |vs|
      invariant forall i :: 0 <= i < size ==> (table[i] <==> i in vs[..k])
    {
      assert vs[k] in vs;
      table[vs[k]] := true;
      assert vs[..k + 1] == vs[..k] + [vs[k]];
    }
    assert vs[..|vs|] == vs;
  }

  ghost predicate Earliest(cron: Cron, local: int -> Calendar, now: int, m: int) {
    m * 60_000_000_000 > now && Matches(cron, local(m)) &&
    forall k :: k * 60_000_000_000 > now && k < m ==> !Matches(cron, local(k))
  }

  /** `next`, as the number of a minute: the first match in a year of minutes, or `None` where it throws. It is the
      earliest matching minute after `now`, unless the clock is before the epoch, off a whole minute, and the minute
      skipped matches. */
  method Next(cron: Cron, local: int -> Calendar, now: int) returns (r: Option<int>)
    requires Fits(cron)
    requires forall m :: Proper(local(m))
    ensures r.Some? ==> Base(now) <= r.value < Base(now) + 525_600 && Matches(cron, local(r.value))
    ensures forall m :: Base(now) <= m < (if r.Some? then r.value else Base(now) + 525_600) ==>
              !Matches(cron, local(m))
    ensures r.Some? ==> (Earliest(cron, local, now, r.value) <==>
                           now >= 0 || now % 60_000_000_000 == 0 || !Matches(cron, local(Base(now) - 1)))
  {
    hide Base, Within;
    var minutes := Lookup(cron.minutes, 60);
    var hours := Lookup(cron.hours, 24);
    var days := Lookup(cron.days, 32);
    var months := Lookup(cron.months, 13);
    var weekdays := Lookup(cron.weekdays, 7);
    var base := Base(now);
    for i := 0 to MAX_CHECKS
      invariant forall m :: base <= m < base + i ==> !Matches(cron, local(m))
    {
      var tm := local(base + i);
      assert Proper(tm);
      if !months[tm.month] { continue; }
      if !days[tm.day] { continue; }
      if !weekdays[tm.weekday] { continue; }
      if !hours[tm.hour] { continue; }
      if !minutes[tm.minute] { continue; }
      EarliestAmong(cron, local, now, base + i);
      return Some(base + i);
    }
    return None;
  }

  lemma EarliestAmong(cron: Cron, local: int -> Calendar, now: int, r: int)
    requires Base(now) <= r && Matches(cron, local(r))
    requires forall m :: Base(now) <= m < r ==> !Matches(cron, local(m))
    ensures Earliest(cron, local, now, r) <==>
              now >= 0 || now % 60_000_000_000 == 0 || !Matches(cron, local(Base(now) - 1))
  {
    hide Matches, Base;
    BaseExact(now);
    var first := if now >= 0 || now % 60_000_000_000 == 0 then Base(now) else Base(now) - 1;
    forall k ensures k * MINUTE > now <==> k >= first {
    }
  }
}
