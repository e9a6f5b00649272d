/** The schedule ticker of internal/api/scheduler.go.  Instants are nanoseconds since the
    Unix epoch; the zone offset is a whole number of minutes and may change between ticks. */
module Scheduler {
  import opened Text

  const MINUTE: int := 60_000_000_000
  const MAX_HISTORY_ENTRIES: nat := 50
  const MAX_INT64: int := 0x7fff_ffff_ffff_ffff

  datatype Schedule = Schedule(id: string, name: string, enabled: bool, action: string,
                               time: string, days: seq<int>)

  /** One tick: its instant, the zone offset in force, and the schedules copied under lock. */
  datatype Tick = Tick(now: int, zone: int, schedules: seq<Schedule>)

  datatype Firing = Firing(schedule: Schedule, minute: int)

  /** `fired` records every schedule handed to execute, with the minute of its tick. */
  datatype State = State(lastFire: map<string, int>, fired: seq<Firing>)

  /* ---------- clock arithmetic ---------- */

  function Minute(now: int): int {
    now / MINUTE
  }

  /** now.Truncate(time.Minute) */
  function Truncate(now: int): int {
    now - now % MINUTE
  }

  lemma TruncateIsMinute(a: int, b: int)
    ensures Truncate(Truncate(a)) == Truncate(a)
    ensures Truncate(a) == Truncate(b) <==> Minute(a) == Minute(b)
    ensures Minute(Truncate(a)) == Minute(a)
  {
  }

  lemma MinuteMonotone(a: int, b: int)
    requires a <= b
    ensures Minute(a) <= Minute(b)
  {
  }

  function Hour(t: Tick): int {
    (Minute(t.now) + t.zone) / 60 % 24
  }

  function MinuteOfHour(t: Tick): int {
    (Minute(t.now) + t.zone) % 60
  }

  /** Sunday is 0; the epoch was a Thursday. */
  function Weekday(t: Tick): int {
    ((Minute(t.now) + t.zone) / 1440 + 4) % 7
  }

  /** The local time in minutes, counted from the Thursday that began the epoch. */
  function Local(t: Tick): int {
    Minute(t.now) + t.zone
  }

  /** Hour, minute and weekday are a faithful reading of the local minute: they determine it
      within its week, day by day from a Thursday on. */
  lemma ClockFace(t: Tick)
    ensures 0 <= Hour(t) < 24 && 0 <= MinuteOfHour(t) < 60 && 0 <= Weekday(t) < 7
    ensures
      var dayOfWeek := (Weekday(t) - 4) % 7;
      (Minute(t.now) + t.zone) % (7 * 1440) == dayOfWeek * 1440 + Hour(t) * 60 + MinuteOfHour(t)
  {
    var local := Minute(t.now) + t.zone;
    var day, inDay := local / 1440, local % 1440;
    assert local == day * 1440 + inDay;
    SplitDay(day, inDay);
    assert Hour(t) == inDay / 60 && MinuteOfHour(t) == inDay % 60;
    var week, weekDay := day / 7, day % 7;
    assert local == week * 10080 + (weekDay * 1440 + inDay);
    SplitWeek(week, weekDay * 1440 + inDay);
    assert (day + 4) % 7 == (weekDay + 4) % 7;
  }

  lemma SplitDay(day: int, inDay: int)
    requires 0 <= inDay < 1440
    ensures (day * 1440 + inDay) / 60 % 24 == inDay / 60 && (day * 1440 + inDay) % 60 == inDay % 60
  {
    var h, m := inDay / 60, inDay % 60;
    assert day * 1440 + inDay == (day * 24 + h) * 60 + m;
    assert (day * 1440 + inDay) / 60 == day * 24 + h;
  }

  lemma SplitWeek(week: int, inWeek: int)
    requires 0 <= inWeek < 10080
    ensures (week * 10080 + inWeek) % 10080 == inWeek
  {
  }

  /* ---------- matching ---------- */

  predicate AllDigits(s: string) {
    s != "" && forall i :: 0 <= i < |s| ==> IsDigit(s[i])
  }

  /** strconv.Atoi: an optional sign, then digits, within the range of a 64-bit int. */
  function Atoi(s: string): Option<int> {
    var signed := s != "" && (s[0] == '+' || s[0] == '-');
    var digits := if signed then s[1..] else s;
    if !AllDigits(digits) then None
    else
      var n := if signed && s[0] == '-' then -FromDecimal(digits) else FromDecimal(digits);
      if -MAX_INT64 - 1 <= n <= MAX_INT64 then Some(n) else None
  }

  predicate TimeMatches(s: Schedule, hour: int, min: int, weekday: int) {
    var parts := Split(s.time, ':');
    |parts| == 2 && Atoi(parts[0]) == Some(hour) && Atoi(parts[1]) == Some(min) && weekday in s.days
  }

  predicate Due(s: Schedule, t: Tick) {
    s.enabled && TimeMatches(s, Hour(t), MinuteOfHour(t), Weekday(t))
  }

  function TwoDigits(n: nat): string {
    if n < 10 then "0" + Decimal(n) else Decimal(n)
  }

  lemma TwoDigitsAtoi(n: nat)
    requires n < 100
    ensures Atoi(TwoDigits(n)) == Some(n) && ':' !in TwoDigits(n)
  {
    DecimalRoundTrip(n);
    var d := TwoDigits(n);
    if n < 10 {
      assert d[..1] == "0" && d[..1][..0] == "";
      assert FromDecimal("0") == 0;
      assert d[1] == DIGITS[n];
    }
    assert !(d[0] == '+' || d[0] == '-');
  }

  /** A schedule saved as HH:MM is due in exactly the minutes it names on its days. */
  lemma SavedTimeMatches(s: Schedule, hour: nat, min: nat, h: int, m: int, weekday: int)
    requires hour < 24 && min < 60 && s.time == TwoDigits(hour) + ":" + TwoDigits(min)
    ensures TimeMatches(s, h, m, weekday) <==> h == hour && m == min && weekday in s.days
  {
    TwoDigitsAtoi(hour);
    TwoDigitsAtoi(min);
    SplitPiece(TwoDigits(hour), TwoDigits(min), ':');
    SplitWhole(TwoDigits(min), ':');
    assert Split(s.time, ':') == [TwoDigits(hour), TwoDigits(min)];
  }

  /** A saved schedule is due exactly when it is enabled, the local clock shows its time, and
      the local day, Sunday being 0, is one of its days. */
  lemma DueIff(s: Schedule, t: Tick, hour: nat, min: nat)
    requires hour < 24 && min < 60 && s.time == TwoDigits(hour) + ":" + TwoDigits(min)
    ensures Due(s, t) <==> s.enabled && Local(t) % 1440 == hour * 60 + min && (Local(t) / 1440 + 4) % 7 in s.days
  {
    SavedTimeMatches(s, hour, min, Hour(t), MinuteOfHour(t), Weekday(t));
    ClockOfDay(t, hour, min);
    hide TimeMatches, Hour, MinuteOfHour, TwoDigits;
  }

  lemma ClockOfDay(t: Tick, hour: nat, min: nat)
    requires hour < 24 && min < 60
    ensures Hour(t) == hour && MinuteOfHour(t) == min <==> Local(t) % 1440 == hour * 60 + min
    ensures Weekday(t) == (Local(t) / 1440 + 4) % 7
  {
    var local := Local(t);
    var day, inDay := local / 1440, local % 1440;
    assert local == day * 1440 + inDay;
    SplitDay(day, inDay);
    assert inDay == inDay / 60 * 60 + inDay % 60;
  }

  /** A time without a colon, or with more than one, never comes. */
  lemma MalformedNeverDue(s: Schedule, t: Tick)
    ensures (':' !in s.time || exists i, k :: 0 <= i < k < |s.time| && s.time[i] == s.time[k] == ':') ==> !Due(s, t)
  {
    if ':' !in s.time {
      SplitWhole(s.time, ':');
    } else if i, k :| 0 <= i < k < |s.time| && s.time[i] == s.time[k] == ':' {
      TwoColons(s.time, i, k);
    }
  }

  lemma TwoColons(time: string, i: nat, k: nat)
    requires i < k < |time| && time[i] == time[k] == ':'
    ensures |Split(time, ':')| > 2
  {
    var a, b, c := time[..i], time[i + 1..k], time[k + 1..];
    assert time == a + [':'] + (b + [':'] + c);
    SplitConcat(a, b + [':'] + c, ':');
    SplitConcat(b, c, ':');
  }

  /* ---------- steps ---------- */

  predicate AlreadyFired(lastFire: map<string, int>, id: string, now: int) {
    id in lastFire && Truncate(lastFire[id]) == Truncate(now)
  }

  function Visit(st: State, t: Tick, s: Schedule): State {
    if Due(s, t) && !AlreadyFired(st.lastFire, s.id, t.now) then
      State(st.lastFire[s.id := Truncate(t.now)], st.fired + [Firing(s, Minute(t.now))])
    else st
  }

  function VisitAll(st: State, t: Tick, schedules: seq<Schedule>): State {
    if schedules == [] then st
    else Visit(VisitAll(st, t, schedules[..|schedules| - 1]), t, schedules[|schedules| - 1])
  }

  function Reach(ticks: seq<Tick>): State {
    if ticks == [] then State(map[], [])
    else
      var t := ticks[|ticks| - 1];
      VisitAll(Reach(ticks[..|ticks| - 1]), t, t.schedules)
  }

  /** How often the schedules with this ID fired in this minute. */
  function Count(fired: seq<Firing>, id: string, minute: int): nat {
    if fired == [] then 0
    else
      var f := fired[|fired| - 1];
      Count(fired[..|fired| - 1], id, minute) + if f.schedule.id == id && f.minute == minute then 1 else 0
  }

  predicate Nondecreasing(ticks: seq<Tick>) {
    forall i, j :: 0 <= i < j < |ticks| ==> ticks[i].now <= ticks[j].now
  }

  /* ---------- at most once a minute ---------- */

  /** What the state at or before minute `current` knows about one ID and one minute. */
  predicate Known(st: State, id: string, minute: int, current: int) {
    if id !in st.lastFire then Count(st.fired, id, minute) == 0
    else
      var last := Minute(st.lastFire[id]);
      && last <= current
      && Count(st.fired, id, minute) <= 1
      && (minute > last ==> Count(st.fired, id, minute) == 0)
      && (minute == last ==> Count(st.fired, id, minute) == 1)
  }

  lemma VisitKnown(st: State, t: Tick, s: Schedule, id: string, minute: int)
    requires Known(st, id, minute, Minute(t.now))
    ensures Known(Visit(st, t, s), id, minute, Minute(t.now))
  {
  }

  lemma {:induction false} VisitAllKnown(st: State, t: Tick, schedules: seq<Schedule>, id: string, minute: int)
    requires Known(st, id, minute, Minute(t.now))
    ensures Known(VisitAll(st, t, schedules), id, minute, Minute(t.now))
  {
    if schedules != [] {
      var front := schedules[..|schedules| - 1];
      VisitAllKnown(st, t, front, id, minute);
      VisitKnown(VisitAll(st, t, front), t, schedules[|schedules| - 1], id, minute);
    }
  }

  lemma {:induction false} ReachKnown(ticks: seq<Tick>, id: string, minute: int, now: int)
    requires Nondecreasing(ticks) && forall i :: 0 <= i < |ticks| ==> ticks[i].now <= now
    ensures Known(Reach(ticks), id, minute, Minute(now))
  {
    if ticks != [] {
      var front, t := ticks[..|ticks| - 1], ticks[|ticks| - 1];
      ReachKnown(front, id, minute, t.now);
      VisitAllKnown(Reach(front), t, t.schedules, id, minute);
      MinuteMonotone(t.now, now);
    }
  }

  /** Over any nondecreasing ticks and arbitrarily changing schedule lists, each schedule ID
      fires at most once per clock minute. */
  lemma AtMostOncePerMinute(ticks: seq<Tick>, id: string, minute: int)
    requires Nondecreasing(ticks)
    ensures Count(Reach(ticks).fired, id, minute) <= 1
  {
    if ticks != [] {
      ReachKnown(ticks, id, minute, ticks[|ticks| - 1].now);
    }
  }

  /* ---------- exactly once ---------- */

  /** Ticks at most a minute apart that start by the beginning of a minute and go on to its
      end have one inside it. */
  lemma {:induction false} TickInside(ticks: seq<Tick>, minute: int) returns (i: nat)
    requires |ticks| > 0 && ticks[0].now <= minute * MINUTE
    requires ticks[|ticks| - 1].now >= (minute + 1) * MINUTE
    requires forall k :: 0 <= k < |ticks| - 1 ==> ticks[k + 1].now - ticks[k].now <= MINUTE
    ensures i < |ticks| && Minute(ticks[i].now) == minute
  {
    i := 0;
    while ticks[i].now < minute * MINUTE
      invariant i < |ticks| && ticks[i].now < (minute + 1) * MINUTE
      decreases |ticks| - i
    {
      i := i + 1;
    }
  }

  /** In every tick of this minute the schedule is listed, due, and alone with its ID. */
  predicate SteadyIn(ticks: seq<Tick>, s: Schedule, minute: int) {
    forall i :: 0 <= i < |ticks| && Minute(ticks[i].now) == minute ==> Steady(ticks[i], s)
  }

  predicate Steady(t: Tick, s: Schedule) {
    s in t.schedules && Due(s, t) && forall k :: 0 <= k < |t.schedules| && t.schedules[k].id == s.id ==> t.schedules[k] == s
  }

  /** Firings of this ID in this minute are all of this very schedule. */
  predicate OnlyThis(fired: seq<Firing>, s: Schedule, minute: int) {
    forall k :: 0 <= k < |fired| && fired[k].schedule.id == s.id && fired[k].minute == minute ==> fired[k].schedule == s
  }

  lemma {:induction false} VisitAllOnlyThis(st: State, t: Tick, schedules: seq<Schedule>, s: Schedule, minute: int)
    requires OnlyThis(st.fired, s, minute)
    requires Minute(t.now) == minute ==>
      forall k :: 0 <= k < |schedules| && schedules[k].id == s.id ==> schedules[k] == s
    ensures OnlyThis(VisitAll(st, t, schedules).fired, s, minute)
  {
    if schedules != [] {
      VisitAllOnlyThis(st, t, schedules[..|schedules| - 1], s, minute);
    }
  }

  lemma {:induction false} ReachOnlyThis(ticks: seq<Tick>, s: Schedule, minute: int)
    requires SteadyIn(ticks, s, minute)
    ensures OnlyThis(Reach(ticks).fired, s, minute)
  {
    if ticks != [] {
      var front, t := ticks[..|ticks| - 1], ticks[|ticks| - 1];
      assert forall i :: 0 <= i < |front| ==> front[i] == ticks[i];
      assert SteadyIn(front, s, minute);
      ReachOnlyThis(front, s, minute);
      assert t == ticks[|ticks| - 1];
      VisitAllOnlyThis(Reach(front), t, t.schedules, s, minute);
    }
  }

  lemma {:induction false} CountGrows(st: State, t: Tick, schedules: seq<Schedule>, id: string, minute: int)
    ensures Count(VisitAll(st, t, schedules).fired, id, minute) >= Count(st.fired, id, minute)
  {
    if schedules != [] {
      var front := schedules[..|schedules| - 1];
      CountGrows(st, t, front, id, minute);
      var fired := VisitAll(st, t, front).fired;
      var longer := fired + [Firing(schedules[|schedules| - 1], Minute(t.now))];
      assert longer[..|longer| - 1] == fired;
    }
  }

  lemma VisitFires(st: State, t: Tick, s: Schedule)
    requires Known(st, s.id, Minute(t.now), Minute(t.now)) && Due(s, t)
    ensures Count(Visit(st, t, s).fired, s.id, Minute(t.now)) >= 1
  {
  }

  lemma {:induction false} TickFires(st: State, t: Tick, schedules: seq<Schedule>, s: Schedule)
    requires Known(st, s.id, Minute(t.now), Minute(t.now)) && s in schedules && Due(s, t)
    ensures Count(VisitAll(st, t, schedules).fired, s.id, Minute(t.now)) >= 1
  {
    var front, last := schedules[..|schedules| - 1], schedules[|schedules| - 1];
    assert schedules == front + [last];
    VisitAllKnown(st, t, front, s.id, Minute(t.now));
    if last == s {
      VisitFires(VisitAll(st, t, front), t, s);
    } else {
      TickFires(st, t, front, s);
      assert VisitAll(VisitAll(st, t, front), t, [last]) == Visit(VisitAll(st, t, front), t, last);
      CountGrows(VisitAll(st, t, front), t, [last], s.id, Minute(t.now));
    }
  }

  lemma {:induction false} FiredByTick(ticks: seq<Tick>, i: nat, s: Schedule)
    requires Nondecreasing(ticks) && i < |ticks| && Steady(ticks[i], s)
    ensures Count(Reach(ticks).fired, s.id, Minute(ticks[i].now)) >= 1
  {
    var front, t := ticks[..|ticks| - 1], ticks[|ticks| - 1];
    if i == |ticks| - 1 {
      ReachKnown(front, s.id, Minute(t.now), t.now);
      TickFires(Reach(front), t, t.schedules, s);
    } else {
      FiredByTick(front, i, s);
      CountGrows(Reach(front), t, t.schedules, s.id, Minute(ticks[i].now));
    }
  }

  lemma {:induction false} CountedIsThere(fired: seq<Firing>, s: Schedule, minute: int)
    requires Count(fired, s.id, minute) >= 1 && OnlyThis(fired, s, minute)
    ensures Firing(s, minute) in fired
  {
    var front, f := fired[..|fired| - 1], fired[|fired| - 1];
    assert f in fired;
    if !(f.schedule.id == s.id && f.minute == minute) {
      CountedIsThere(front, s, minute);
    }
  }

  lemma OnceWhenDue(ticks: seq<Tick>, s: Schedule, minute: int)
    requires Nondecreasing(ticks) && |ticks| > 0
    requires ticks[0].now <= minute * MINUTE && ticks[|ticks| - 1].now >= (minute + 1) * MINUTE
    requires forall k :: 0 <= k < |ticks| - 1 ==> ticks[k + 1].now - ticks[k].now <= MINUTE
    requires SteadyIn(ticks, s, minute)
    ensures Count(Reach(ticks).fired, s.id, minute) == 1 && Firing(s, minute) in Reach(ticks).fired
  {
    var i := TickInside(ticks, minute);
    FiredByTick(ticks, i, s);
    AtMostOncePerMinute(ticks, s.id, minute);
    ReachOnlyThis(ticks, s, minute);
    CountedIsThere(Reach(ticks).fired, s, minute);
  }

  /** Enabled, and the local clock shows hour and min on one of the schedule's days. */
  predicate ShowsTime(t: Tick, s: Schedule, hour: nat, min: nat) {
    s.enabled && Local(t) % 1440 == hour * 60 + min && (Local(t) / 1440 + 4) % 7 in s.days
  }

  /** Listed, and alone with its ID. */
  predicate ListedAlone(t: Tick, s: Schedule) {
    s in t.schedules && forall k :: 0 <= k < |t.schedules| && t.schedules[k].id == s.id ==> t.schedules[k] == s
  }

  /** If ticks at most 60 s apart cover a clock minute in which the local time is that of an
      enabled schedule, on one of its days, and the schedule stays listed, unchanged and alone
      with its ID, then it fires in that minute, and exactly once. */
  lemma ExactlyOnce(ticks: seq<Tick>, s: Schedule, minute: int, hour: nat, min: nat)
    requires Nondecreasing(ticks) && |ticks| > 0
    requires ticks[0].now <= minute * MINUTE && ticks[|ticks| - 1].now >= (minute + 1) * MINUTE
    requires forall k :: 0 <= k < |ticks| - 1 ==> ticks[k + 1].now - ticks[k].now <= MINUTE
    requires hour < 24 && min < 60 && s.time == TwoDigits(hour) + ":" + TwoDigits(min)
    requires forall i :: 0 <= i < |ticks| && Minute(ticks[i].now) == minute ==>
      ListedAlone(ticks[i], s) && ShowsTime(ticks[i], s, hour, min)
    ensures Count(Reach(ticks).fired, s.id, minute) == 1 && Firing(s, minute) in Reach(ticks).fired
  {
    forall i | 0 <= i < |ticks| && Minute(ticks[i].now) == minute
      ensures Steady(ticks[i], s)
    {
      DueIff(s, ticks[i], hour, min);
      hide Due, Minute, TwoDigits;
    }
    hide Due, Minute, Steady, TwoDigits, Reach, Count, Nondecreasing;
    OnceWhenDue(ticks, s, minute);
  }

  /* ---------- why a schedule fired ---------- */

  predicate FiredBy(f: Firing, t: Tick) {
    f.schedule in t.schedules && f.minute == Minute(t.now) && Due(f.schedule, t)
  }

  lemma {:induction false} TickFirings(st: State, t: Tick, schedules: seq<Schedule>)
    ensures forall f :: f in VisitAll(st, t, schedules).fired ==>
      f in st.fired || (f.schedule in schedules && f.minute == Minute(t.now) && Due(f.schedule, t))
  {
    if schedules != [] {
      TickFirings(st, t, schedules[..|schedules| - 1]);
      hide Due, Minute, AlreadyFired;
    }
  }

  lemma {:induction false} FiringsAreDue(ticks: seq<Tick>, f: Firing)
    requires f in Reach(ticks).fired
    ensures exists i :: 0 <= i < |ticks| && FiredBy(f, ticks[i])
  {
    var front, t := ticks[..|ticks| - 1], ticks[|ticks| - 1];
    TickFirings(Reach(front), t, t.schedules);
    hide Due, Minute;
    if f in Reach(front).fired {
      FiringsAreDue(front, f);
      var i :| 0 <= i < |front| && FiredBy(f, front[i]);
      assert ticks[i] == front[i];
    } else {
      assert FiredBy(f, ticks[|ticks| - 1]);
    }
  }

  /** Whatever was executed was listed at some tick of that minute, enabled, and, if its time
      was saved as HH:MM, at that local time on one of its days. */
  lemma FiredWhenDue(ticks: seq<Tick>, f: Firing, hour: nat, min: nat) returns (i: nat)
    requires f in Reach(ticks).fired
    requires hour < 24 && min < 60 && f.schedule.time == TwoDigits(hour) + ":" + TwoDigits(min)
    ensures i < |ticks| && f.schedule in ticks[i].schedules && Minute(ticks[i].now) == f.minute
    ensures ShowsTime(ticks[i], f.schedule, hour, min)
  {
    hide Due, Minute, Reach, TwoDigits, Local, FiredBy;
    FiringsAreDue(ticks, f);
    i :| 0 <= i < |ticks| && FiredBy(f, ticks[i]);
    FiredByShows(f, ticks[i], hour, min);
  }

  lemma FiredByShows(f: Firing, t: Tick, hour: nat, min: nat)
    requires FiredBy(f, t)
    requires hour < 24 && min < 60 && f.schedule.time == TwoDigits(hour) + ":" + TwoDigits(min)
    ensures f.schedule in t.schedules && Minute(t.now) == f.minute && ShowsTime(t, f.schedule, hour, min)
  {
    DueIff(f.schedule, t, hour, min);
    hide Due, Minute, TwoDigits, Local;
  }

  /** A tick executes what it executes in the order of its list. */
  lemma {:induction false} InListOrder(st: State, t: Tick, schedules: seq<Schedule>) returns (at: seq<nat>)
    ensures forall m, n :: 0 <= m < n < |at| ==> at[m] < at[n]
    ensures forall n :: 0 <= n < |at| ==> at[n] < |schedules|
    ensures var fired := VisitAll(st, t, schedules).fired;
      && |fired| == |st.fired| + |at| && st.fired <= fired
      && forall n :: 0 <= n < |at| ==> fired[|st.fired| + n] == Firing(schedules[at[n]], Minute(t.now))
  {
    at := [];
    if schedules != [] {
      var front, last := schedules[..|schedules| - 1], schedules[|schedules| - 1];
      at := InListOrder(st, t, front);
      var before := VisitAll(st, t, front);
      if Due(last, t) && !AlreadyFired(before.lastFire, last.id, t.now) {
        at := at + [|front|];
      }
      hide Due, Minute, AlreadyFired;
    }
  }

  /* ---------- exactly when a schedule fires ---------- */

  /** Some listed schedule with this ID is due. */
  predicate DueAt(t: Tick, id: string) {
    exists k :: 0 <= k < |t.schedules| && t.schedules[k].id == id && Due(t.schedules[k], t)
  }

  lemma NotDueNotFired(st: State, t: Tick, s: Schedule, id: string, minute: int)
    requires s.id == id ==> !Due(s, t) || Minute(t.now) != minute
    ensures Count(Visit(st, t, s).fired, id, minute) == Count(st.fired, id, minute)
  {
    hide Due, Minute, AlreadyFired;
    var longer := st.fired + [Firing(s, Minute(t.now))];
    assert longer[..|longer| - 1] == st.fired;
  }

  lemma {:induction false} NothingFired(st: State, t: Tick, schedules: seq<Schedule>, id: string, minute: int)
    requires Minute(t.now) == minute ==>
      forall k :: 0 <= k < |schedules| && schedules[k].id == id ==> !Due(schedules[k], t)
    ensures Count(VisitAll(st, t, schedules).fired, id, minute) == Count(st.fired, id, minute)
  {
    hide Due, Minute, Count, Visit;
    if schedules != [] {
      var front := schedules[..|schedules| - 1];
      NothingFired(st, t, front, id, minute);
      NotDueNotFired(VisitAll(st, t, front), t, schedules[|schedules| - 1], id, minute);
    }
  }

  predicate DueIn(t: Tick, id: string, minute: int) {
    Minute(t.now) == minute && DueAt(t, id)
  }

  /** Was the ID due at some tick of this minute? */
  predicate DueInMinute(ticks: seq<Tick>, id: string, minute: int) {
    exists i :: 0 <= i < |ticks| && DueIn(ticks[i], id, minute)
  }

  lemma DueInMinuteStep(ticks: seq<Tick>, id: string, minute: int)
    requires ticks != []
    ensures
      var front, t := ticks[..|ticks| - 1], ticks[|ticks| - 1];
      DueInMinute(ticks, id, minute) <==> DueInMinute(front, id, minute) || DueIn(t, id, minute)
  {
    hide DueIn;
    var front := ticks[..|ticks| - 1];
    assert forall i :: 0 <= i < |front| ==> front[i] == ticks[i];
    if i :| 0 <= i < |front| && DueIn(front[i], id, minute) {
      assert DueIn(ticks[i], id, minute);
    }
  }

  lemma FrontNondecreasing(ticks: seq<Tick>)
    requires Nondecreasing(ticks) && ticks != []
    ensures
      var front, now := ticks[..|ticks| - 1], ticks[|ticks| - 1].now;
      Nondecreasing(front) && forall i :: 0 <= i < |front| ==> front[i].now <= now
  {
  }

  /** In each clock minute an ID fires exactly if it is due at some tick in it. */
  lemma {:induction false} FiredIff(ticks: seq<Tick>, id: string, minute: int)
    requires Nondecreasing(ticks)
    ensures Count(Reach(ticks).fired, id, minute) == if DueInMinute(ticks, id, minute) then 1 else 0
  {
    AtMostOncePerMinute(ticks, id, minute);
    if ticks != [] {
      var front, t := ticks[..|ticks| - 1], ticks[|ticks| - 1];
      FrontNondecreasing(ticks);
      FiredIff(front, id, minute);
      DueInMinuteStep(ticks, id, minute);
      TickCounts(front, t, id, minute);
      hide Count, DueInMinute, DueIn, Nondecreasing;
    }
  }

  /** What one more tick adds. */
  lemma TickCounts(front: seq<Tick>, t: Tick, id: string, minute: int)
    requires Nondecreasing(front) && forall i :: 0 <= i < |front| ==> front[i].now <= t.now
    ensures
      var before, after := Reach(front).fired, VisitAll(Reach(front), t, t.schedules).fired;
      if DueIn(t, id, minute) then Count(after, id, minute) >= 1
      else Count(after, id, minute) == Count(before, id, minute)
  {
    if DueIn(t, id, minute) {
      var k :| 0 <= k < |t.schedules| && t.schedules[k].id == id && Due(t.schedules[k], t);
      ReachKnown(front, id, Minute(t.now), t.now);
      hide Due, Count, Known, Reach, VisitAll;
      TickFires(Reach(front), t, t.schedules, t.schedules[k]);
    } else {
      NothingFired(Reach(front), t, t.schedules, id, minute);
    }
  }

  /** Does the ID fire at tick k? */
  predicate FiresAt(ticks: seq<Tick>, k: nat, id: string)
    requires k < |ticks|
  {
    var minute := Minute(ticks[k].now);
    Count(Reach(ticks[..k + 1]).fired, id, minute) > Count(Reach(ticks[..k]).fired, id, minute)
  }

  lemma PrefixNondecreasing(ticks: seq<Tick>, k: nat)
    requires Nondecreasing(ticks) && k <= |ticks|
    ensures Nondecreasing(ticks[..k])
  {
  }

  /** An ID fires at a tick exactly if it is due there and was not at an earlier tick of the
      same clock minute, whatever the zone offsets. */
  lemma FiresAtFirstDue(ticks: seq<Tick>, k: nat, id: string)
    requires Nondecreasing(ticks) && k < |ticks|
    ensures FiresAt(ticks, k, id) <==>
      DueAt(ticks[k], id) && forall j :: 0 <= j < k ==> !DueIn(ticks[j], id, Minute(ticks[k].now))
  {
    var minute := Minute(ticks[k].now);
    PrefixNondecreasing(ticks, k);
    PrefixNondecreasing(ticks, k + 1);
    FiredIff(ticks[..k], id, minute);
    FiredIff(ticks[..k + 1], id, minute);
    assert ticks[..k + 1][..k] == ticks[..k] && ticks[..k + 1][k] == ticks[k];
    DueInMinuteStep(ticks[..k + 1], id, minute);
    assert DueIn(ticks[k], id, minute) <==> DueAt(ticks[k], id);
    assert forall j :: 0 <= j < k ==> ticks[..k][j] == ticks[j];
    hide Count, DueIn, DueAt, Minute, Reach;
    if j :| 0 <= j < k && DueIn(ticks[j], id, minute) {
      assert DueIn(ticks[..k][j], id, minute);
    }
  }

  /** Zone offsets change between clock minutes only. */
  predicate OneZonePerMinute(ticks: seq<Tick>) {
    forall i, k :: 0 <= i < |ticks| && 0 <= k < |ticks| && Minute(ticks[i].now) == Minute(ticks[k].now) ==>
      ticks[i].zone == ticks[k].zone
  }

  /** The ID fires twice at one local time. */
  predicate FiresTwice(ticks: seq<Tick>, i: nat, k: nat, id: string)
    requires i < k < |ticks|
  {
    FiresAt(ticks, i, id) && FiresAt(ticks, k, id) && Local(ticks[i]) == Local(ticks[k])
  }

  /** The ID is due at one local time before and after the zone offset went back. */
  predicate DueAgain(ticks: seq<Tick>, i: nat, k: nat, id: string)
    requires i < k < |ticks|
  {
    && DueAt(ticks[i], id) && DueAt(ticks[k], id)
    && Local(ticks[i]) == Local(ticks[k]) && ticks[k].zone < ticks[i].zone
  }

  /** The tick of this minute at which the ID fires. */
  lemma {:induction false} FirstDue(ticks: seq<Tick>, i: nat, id: string) returns (f: nat)
    requires Nondecreasing(ticks) && i < |ticks| && DueAt(ticks[i], id)
    ensures f <= i && Minute(ticks[f].now) == Minute(ticks[i].now) && FiresAt(ticks, f, id)
    decreases i
  {
    FiresAtFirstDue(ticks, i, id);
    hide FiresAt, DueAt, Minute, Nondecreasing;
    if FiresAt(ticks, i, id) {
      f := i;
    } else {
      var j :| 0 <= j < i && DueIn(ticks[j], id, Minute(ticks[i].now));
      f := FirstDue(ticks, j, id);
    }
  }

  lemma TwiceMeansBack(ticks: seq<Tick>, i: nat, k: nat, id: string)
    requires Nondecreasing(ticks) && i < k < |ticks| && FiresTwice(ticks, i, k, id)
    ensures DueAgain(ticks, i, k, id)
  {
    FiresAtFirstDue(ticks, i, id);
    FiresAtFirstDue(ticks, k, id);
    MinuteMonotone(ticks[i].now, ticks[k].now);
    assert !DueIn(ticks[i], id, Minute(ticks[k].now));
    hide FiresAt, DueAt, Minute;
  }

  lemma OrderByMinute(ticks: seq<Tick>, a: nat, b: nat)
    requires Nondecreasing(ticks) && a < |ticks| && b < |ticks| && Minute(ticks[a].now) < Minute(ticks[b].now)
    ensures a < b
  {
  }

  lemma BackMeansTwice(ticks: seq<Tick>, i: nat, k: nat, id: string) returns (i1: nat, k1: nat)
    requires Nondecreasing(ticks) && OneZonePerMinute(ticks) && i < k < |ticks| && DueAgain(ticks, i, k, id)
    ensures i1 < k1 < |ticks| && FiresTwice(ticks, i1, k1, id)
  {
    i1 := FirstDue(ticks, i, id);
    k1 := FirstDue(ticks, k, id);
    MinuteMonotone(ticks[i].now, ticks[k].now);
    OrderByMinute(ticks, i1, k1);
    hide FiresAt, DueAt, Minute;
  }

  /** Over any nondecreasing ticks, an ID fires at two ticks of one local time exactly if it is
      due at one local time before and after the zone offset went back. */
  lemma TwiceIff(ticks: seq<Tick>, id: string)
    requires Nondecreasing(ticks) && OneZonePerMinute(ticks)
    ensures (exists i, k :: 0 <= i < k < |ticks| && FiresTwice(ticks, i, k, id))
       <==> exists i, k :: 0 <= i < k < |ticks| && DueAgain(ticks, i, k, id)
  {
    hide FiresTwice, DueAgain, Nondecreasing, OneZonePerMinute;
    if i, k :| 0 <= i < k < |ticks| && FiresTwice(ticks, i, k, id) {
      TwiceMeansBack(ticks, i, k, id);
    }
    if i, k :| 0 <= i < k < |ticks| && DueAgain(ticks, i, k, id) {
      var i1, k1 := BackMeansTwice(ticks, i, k, id);
    }
  }

  /* ---------- history ---------- */

  function Newest<T>(all: seq<T>): seq<T> {
    if |all| > MAX_HISTORY_ENTRIES then all[|all| - MAX_HISTORY_ENTRIES..] else all
  }

  /** Adding to the trimmed history is trimming after adding: it is always the newest part. */
  lemma NewestIsEnough<T>(all: seq<T>, entry: T)
    ensures Newest(Newest(all) + [entry]) == Newest(all + [entry])
  {
  }

  /* ---------- the class ---------- */

  class Ticker<H(0)> {
    var lastFire: map<string, int>
    var history: seq<H>
    ghost var fired: seq<Firing>
    ghost var recorded: seq<H>

    ghost function Abs(): State
      reads this
    {
      State(lastFire, fired)
    }

    ghost predicate Valid()
      reads this
    {
      history == Newest(recorded)
    }

    constructor ()
      ensures Valid() && Abs() == Reach([]) && recorded == []
    {
      lastFire, history := map[], [];
      fired, recorded := [], [];
    }

    method MarkFired(id: string, now: int)
      modifies this`lastFire
      ensures lastFire == old(lastFire)[id := Truncate(now)]
    {
      lastFire := lastFire[id := Truncate(now)];
    }

    /** tick; `executed` are the schedules passed to execute, in order. */
    method Tick(t: Tick) returns (executed: seq<Schedule>)
      modifies this`lastFire, this`fired
      ensures Abs() == VisitAll(old(Abs()), t, t.schedules)
      ensures fired == old(fired) + seq(|executed|, i requires 0 <= i < |executed| => Firing(executed[i], Minute(t.now)))
    {
      var hour, min, weekday := Hour(t), MinuteOfHour(t), Weekday(t);
      executed := [];
      for k := 0 to |t.schedules|
        invariant Abs() == VisitAll(old(Abs()), t, t.schedules[..k])
        invariant fired == old(fired) + seq(|executed|, i requires 0 <= i < |executed| => Firing(executed[i], Minute(t.now)))
      {
        var sched := t.schedules[k];
        assert t.schedules[..k + 1][..k] == t.schedules[..k];
        if !sched.enabled {
          continue;
        }
        if !TimeMatches(sched, hour, min, weekday) {
          continue;
        }
        if AlreadyFired(lastFire, sched.id, t.now) {
          continue;
        }
        MarkFired(sched.id, t.now);
        executed := executed + [sched];
        fired := fired + [Firing(sched, Minute(t.now))];
      }
      assert t.schedules[..|t.schedules|] == t.schedules;
    }

    method AddHistory(entry: H)
      requires Valid()
      modifies this`history, this`recorded
      ensures Valid() && recorded == old(recorded) + [entry]
    {
      NewestIsEnough(recorded, entry);
      history := history + [entry];
      if |history| > MAX_HISTORY_ENTRIES {
        history := history[|history| - MAX_HISTORY_ENTRIES..];
      }
      recorded := recorded + [entry];
    }

    /** The newest entries, most recent first. */
    method GetHistory() returns (result: seq<H>)
      requires Valid()
      ensures |result| == if |recorded| > MAX_HISTORY_ENTRIES then MAX_HISTORY_ENTRIES else |recorded|
      ensures forall i :: 0 <= i < |result| ==> result[i] == recorded[|recorded| - 1 - i]
    {
      var n := |history|;
      var copy := new H[n];
      for i := 0 to n
        invariant forall k :: 0 <= k < i ==> copy[n - 1 - k] == history[k]
      {
        copy[n - 1 - i] := history[i];
      }
      assert forall k :: 0 <= k < n ==> copy[k] == copy[n - 1 - (n - 1 - k)];
      result := copy[..];
    }
  }
}
