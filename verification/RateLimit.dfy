/** The sliding-window limiters of internal/api/middleware.go (lines 209-322) and the order of
    allow and record in the login handler (internal/api/handlers_auth.go, lines 91-112).
    Both limiters keep a list of times per IP.  The API limiter counts a request when it is
    allowed; the login limiter counts a failed attempt when it is recorded, later. */
module RateLimit {

  datatype Limiter = Limiter(max: nat, window: int, countsOnAllow: bool)

  /** One lock-protected step with the clock reading it uses.  Leave ends a login attempt
      that is not recorded (it succeeded or its request was malformed). */
  datatype Op =
    | Allow(ip: string, now: int)
    | Record(ip: string, now: int)
    | Sweep(now: int)
    | Leave(ip: string)

  type State = map<string, seq<int>>

  /** The times later than the cutoff, in order. */
  function After(times: seq<int>, cutoff: int): seq<int> {
    if times == [] then []
    else
      var front, last := times[..|times| - 1], times[|times| - 1];
      if last > cutoff then After(front, cutoff) + [last] else After(front, cutoff)
  }

  /** The times in the half-open interval (lo, hi]. */
  function Within(times: seq<int>, lo: int, hi: int): seq<int> {
    if times == [] then []
    else
      var front, last := times[..|times| - 1], times[|times| - 1];
      if lo < last <= hi then Within(front, lo, hi) + [last] else Within(front, lo, hi)
  }

  function Times(s: State, ip: string): seq<int> {
    if ip in s then s[ip] else []
  }

  /** Is an entry dropped by a sweep that read the clock at `now`? */
  predicate Stale(times: seq<int>, cutoff: int) {
    |times| == 0 || times[|times| - 1] < cutoff
  }

  function Swept(s: State, cutoff: int): State {
    map ip | ip in s && !Stale(s[ip], cutoff) :: s[ip]
  }

  predicate Decision(c: Limiter, s: State, ip: string, now: int) {
    |After(Times(s, ip), now - c.window)| < c.max
  }

  function Next(c: Limiter, s: State, op: Op): State {
    match op
    case Allow(ip, now) =>
      var recent := After(Times(s, ip), now - c.window);
      s[ip := if c.countsOnAllow && |recent| < c.max then recent + [now] else recent]
    case Record(ip, now) => s[ip := Times(s, ip) + [now]]
    case Sweep(now) => Swept(s, now - c.window)
    case Leave(_) => s
  }

  function Reach(c: Limiter, ops: seq<Op>): State {
    if ops == [] then map[] else Next(c, Reach(c, ops[..|ops| - 1]), ops[|ops| - 1])
  }

  /* ---------- the reference: a log that is never trimmed ---------- */

  /** The plain rule: fewer than `max` logged times in the window that ends now. */
  predicate Room(c: Limiter, log: seq<int>, now: int) {
    |After(log, now - c.window)| < c.max
  }

  function LogNext(c: Limiter, log: seq<int>, op: Op, ip: string): seq<int> {
    match op
    case Allow(i, now) => if i == ip && c.countsOnAllow && Room(c, log, now) then log + [now] else log
    case Record(i, now) => if i == ip then log + [now] else log
    case _ => log
  }

  /** Every time ever counted against `ip`, judged by the plain rule; sweeps play no part. */
  function Logged(c: Limiter, ops: seq<Op>, ip: string): seq<int> {
    if ops == [] then [] else LogNext(c, Logged(c, ops[..|ops| - 1], ip), ops[|ops| - 1], ip)
  }

  /** All clock readings so far are at most `t`. */
  predicate AllUpTo(ops: seq<Op>, t: int) {
    forall i :: 0 <= i < |ops| ==> ops[i].Leave? || ops[i].now <= t
  }

  /** Allow and record read the clock under the lock, so no reading made before them is
      later; a sweep reads it before taking the lock and may be late by any amount. */
  predicate Ordered(ops: seq<Op>) {
    forall j :: 0 <= j < |ops| && (ops[j].Allow? || ops[j].Record?) ==> AllUpTo(ops[..j], ops[j].now)
  }

  lemma OrderedFront(ops: seq<Op>)
    requires Ordered(ops) && ops != []
    ensures Ordered(ops[..|ops| - 1])
    ensures ops[|ops| - 1].Allow? || ops[|ops| - 1].Record? ==> AllUpTo(ops[..|ops| - 1], ops[|ops| - 1].now)
  {
  }

  /* ---------- filters ---------- */

  lemma {:induction false} AfterAppend(times: seq<int>, t: int, cutoff: int)
    ensures After(times + [t], cutoff) == if t > cutoff then After(times, cutoff) + [t] else After(times, cutoff)
  {
  }

  lemma {:induction false} AfterMembers(times: seq<int>, cutoff: int)
    ensures forall t :: t in After(times, cutoff) <==> t in times && t > cutoff
  {
    if times != [] {
      var front, last := times[..|times| - 1], times[|times| - 1];
      AfterMembers(front, cutoff);
      assert forall t :: t in times <==> t in front || t == last;
    }
  }

  /** Trimming at an earlier cutoff is forgotten by a later one. */
  lemma {:induction false} AfterTwice(times: seq<int>, early: int, late: int)
    requires early <= late
    ensures After(After(times, early), late) == After(times, late)
    ensures |After(times, late)| <= |After(times, early)|
  {
    if times != [] {
      var front, last := times[..|times| - 1], times[|times| - 1];
      AfterTwice(front, early, late);
      if last > early {
        AfterAppend(After(front, early), last, late);
      }
    }
  }

  lemma {:induction false} WithinIsShorter(times: seq<int>, lo: int, hi: int)
    ensures |Within(times, lo, hi)| <= |After(times, lo)|
  {
    if times != [] {
      WithinIsShorter(times[..|times| - 1], lo, hi);
    }
  }

  lemma {:induction false} WithinUpToNow(times: seq<int>, lo: int, hi: int)
    requires forall i :: 0 <= i < |times| ==> times[i] <= hi
    ensures Within(times, lo, hi) == After(times, lo)
  {
    if times != [] {
      WithinUpToNow(times[..|times| - 1], lo, hi);
    }
  }

  predicate Sorted(times: seq<int>) {
    forall i, j :: 0 <= i < j < |times| ==> times[i] <= times[j]
  }

  lemma {:induction false} AfterSorted(times: seq<int>, cutoff: int)
    requires Sorted(times)
    ensures Sorted(After(times, cutoff))
  {
    if times != [] {
      var front := times[..|times| - 1];
      AfterSorted(front, cutoff);
      AfterMembers(front, cutoff);
      var kept := After(times, cutoff);
      forall i, j | 0 <= i < j < |kept|
        ensures kept[i] <= kept[j]
      {
        if j == |After(front, cutoff)| {
          assert kept[i] == After(front, cutoff)[i] && kept[i] in After(front, cutoff);
        }
      }
    }
  }

  lemma SortedAppend(times: seq<int>, t: int)
    requires Sorted(times) && forall x :: x in times ==> x <= t
    ensures Sorted(times + [t])
  {
    var longer := times + [t];
    forall i, j | 0 <= i < j < |longer|
      ensures longer[i] <= longer[j]
    {
      assert longer[i] in times;
    }
  }

  /* ---------- the trimmed and swept lists refine the log ---------- */

  lemma TrimmedAgrees(stored: seq<int>, log: seq<int>, now: int, early: int, late: int)
    requires early <= late
    requires After(stored, late) == After(log, late)
    ensures After(After(stored, early), late) == After(log, late)
    ensures After(After(stored, early) + [now], late) == After(log + [now], late)
    ensures After(stored + [now], late) == After(log + [now], late)
  {
    AfterTwice(stored, early, late);
    AfterAppend(After(stored, early), now, late);
    AfterAppend(stored, now, late);
    AfterAppend(log, now, late);
  }

  /** What a step does to the list of one IP. */
  function StoredNext(c: Limiter, stored: seq<int>, op: Op, ip: string): seq<int> {
    match op
    case Allow(i, now) =>
      var recent := After(stored, now - c.window);
      if i != ip then stored else if c.countsOnAllow && |recent| < c.max then recent + [now] else recent
    case Record(i, now) => if i == ip then stored + [now] else stored
    case Sweep(now) => if Stale(stored, now - c.window) then [] else stored
    case Leave(_) => stored
  }

  lemma NextOfOneIp(c: Limiter, s: State, op: Op, ip: string)
    ensures Times(Next(c, s, op), ip) == StoredNext(c, Times(s, ip), op, ip)
  {
  }

  /** Sorted, with nothing later than `t`. */
  predicate SortedUpTo(times: seq<int>, t: int) {
    Sorted(times) && forall x :: x in times ==> x <= t
  }

  lemma StepSorted(c: Limiter, stored: seq<int>, op: Op, ip: string, t: int)
    requires Sorted(stored)
    requires op.Allow? || op.Record? ==> SortedUpTo(stored, op.now) && op.now <= t
    requires SortedUpTo(stored, t)
    ensures SortedUpTo(StoredNext(c, stored, op, ip), t)
  {
    if op.Allow? {
      var recent := After(stored, op.now - c.window);
      AfterSorted(stored, op.now - c.window);
      AfterMembers(stored, op.now - c.window);
      SortedAppend(recent, op.now);
    } else if op.Record? {
      SortedAppend(stored, op.now);
    }
  }

  lemma {:induction false} StoredSorted(c: Limiter, ops: seq<Op>, ip: string, t: int)
    requires Ordered(ops) && AllUpTo(ops, t)
    ensures SortedUpTo(Times(Reach(c, ops), ip), t)
    decreases |ops|
  {
    if ops != [] {
      var front, last := ops[..|ops| - 1], ops[|ops| - 1];
      OrderedFront(ops);
      assert AllUpTo(front, t);
      StoredSorted(c, front, ip, t);
      if last.Allow? || last.Record? {
        StoredSorted(c, front, ip, last.now);
      }
      NextOfOneIp(c, Reach(c, front), last, ip);
      StepSorted(c, Times(Reach(c, front), ip), last, ip, t);
    }
  }

  lemma StaleIsEmpty(stored: seq<int>, early: int, late: int)
    requires Sorted(stored) && Stale(stored, early) && early <= late
    ensures After(stored, late) == []
  {
  }

  lemma AllowAgrees(c: Limiter, stored: seq<int>, log: seq<int>, ip: string, now: int, t: int)
    requires now <= t
    requires After(stored, t - c.window) == After(log, t - c.window)
    requires After(stored, now - c.window) == After(log, now - c.window)
    ensures After(StoredNext(c, stored, Allow(ip, now), ip), t - c.window)
         == After(LogNext(c, log, Allow(ip, now), ip), t - c.window)
  {
    hide After;
    var early, late := now - c.window, t - c.window;
    var recent := After(stored, early);
    TrimmedAgrees(stored, log, now, early, late);
    var op := Allow(ip, now);
    if c.countsOnAllow && |recent| < c.max {
      assert StoredNext(c, stored, op, ip) == recent + [now];
      assert LogNext(c, log, op, ip) == log + [now];
    } else {
      assert StoredNext(c, stored, op, ip) == recent;
      assert LogNext(c, log, op, ip) == log;
    }
  }

  lemma StepAgrees(c: Limiter, stored: seq<int>, log: seq<int>, op: Op, ip: string, t: int)
    requires op.Leave? || op.now <= t
    requires Sorted(stored)
    requires After(stored, t - c.window) == After(log, t - c.window)
    requires op.Allow? ==> After(stored, op.now - c.window) == After(log, op.now - c.window)
    ensures After(StoredNext(c, stored, op, ip), t - c.window) == After(LogNext(c, log, op, ip), t - c.window)
  {
    if op.Allow? {
      if op.ip == ip {
        AllowAgrees(c, stored, log, ip, op.now, t);
      }
    } else if op.Record? {
      TrimmedAgrees(stored, log, op.now, t - c.window, t - c.window);
    } else if op.Sweep? {
      if Stale(stored, op.now - c.window) {
        StaleIsEmpty(stored, op.now - c.window, t - c.window);
      }
    }
  }

  /** From any reading on that no earlier step exceeds, the stored list and the full log
      have the same recent part. */
  lemma {:induction false} StoredAgrees(c: Limiter, ops: seq<Op>, ip: string, t: int)
    requires Ordered(ops) && AllUpTo(ops, t)
    ensures After(Times(Reach(c, ops), ip), t - c.window) == After(Logged(c, ops, ip), t - c.window)
    decreases |ops|
  {
    if ops != [] {
      var front, last := ops[..|ops| - 1], ops[|ops| - 1];
      OrderedFront(ops);
      assert AllUpTo(front, t);
      StoredAgrees(c, front, ip, t);
      if last.Allow? {
        StoredAgrees(c, front, ip, last.now);
      }
      StoredSorted(c, front, ip, t);
      NextOfOneIp(c, Reach(c, front), last, ip);
      StepAgrees(c, Times(Reach(c, front), ip), Logged(c, front, ip), last, ip, t);
    }
  }

  /** The limiter decides every request as the plain rule on the full log does, whatever
      was trimmed or swept before. */
  lemma DecisionIsReference(c: Limiter, ops: seq<Op>, ip: string, now: int)
    requires Ordered(ops) && AllUpTo(ops, now)
    ensures Decision(c, Reach(c, ops), ip, now) == Room(c, Logged(c, ops, ip), now)
  {
    StoredAgrees(c, ops, ip, now);
  }

  function WithoutSweeps(ops: seq<Op>): seq<Op> {
    if ops == [] then []
    else
      var front, last := ops[..|ops| - 1], ops[|ops| - 1];
      if last.Sweep? then WithoutSweeps(front) else WithoutSweeps(front) + [last]
  }

  lemma {:induction false} LogIgnoresSweeps(c: Limiter, ops: seq<Op>, ip: string)
    ensures Logged(c, WithoutSweeps(ops), ip) == Logged(c, ops, ip)
  {
    if ops != [] {
      var front, last := ops[..|ops| - 1], ops[|ops| - 1];
      LogIgnoresSweeps(c, front, ip);
      if !last.Sweep? {
        var kept := WithoutSweeps(front) + [last];
        assert kept[..|kept| - 1] == WithoutSweeps(front);
      }
    }
  }

  lemma {:induction false} SweepFreeOrdered(ops: seq<Op>)
    requires Ordered(ops)
    ensures Ordered(WithoutSweeps(ops))
    ensures forall t :: AllUpTo(ops, t) ==> AllUpTo(WithoutSweeps(ops), t)
  {
    if ops != [] {
      var front, last := ops[..|ops| - 1], ops[|ops| - 1];
      OrderedFront(ops);
      SweepFreeOrdered(front);
      assert forall t :: AllUpTo(ops, t) ==> AllUpTo(front, t) && (last.Leave? || ops[|ops| - 1].now <= t);
      var kept := WithoutSweeps(front);
      if !last.Sweep? {
        forall j | 0 <= j < |kept + [last]| && ((kept + [last])[j].Allow? || (kept + [last])[j].Record?)
          ensures AllUpTo((kept + [last])[..j], (kept + [last])[j].now)
        {
          assert (kept + [last])[..j] == kept[..j];
        }
      }
    }
  }

  /** Inserting or removing sweeps changes no decision. */
  lemma SweepsChangeNothing(c: Limiter, ops: seq<Op>, ip: string, now: int)
    requires Ordered(ops) && AllUpTo(ops, now)
    ensures Decision(c, Reach(c, ops), ip, now) == Decision(c, Reach(c, WithoutSweeps(ops)), ip, now)
  {
    SweepFreeOrdered(ops);
    DecisionIsReference(c, ops, ip, now);
    DecisionIsReference(c, WithoutSweeps(ops), ip, now);
    LogIgnoresSweeps(c, ops, ip);
  }

  /** A sweep leaves exactly the entries with some time that is still in the window of its
      clock reading, or on its edge, and leaves them as they were. */
  lemma SweepLeaves(c: Limiter, ops: seq<Op>, now: int, ip: string)
    requires Ordered(ops)
    ensures
      var s, swept := Reach(c, ops), Reach(c, ops + [Sweep(now)]);
      && (ip in swept <==> ip in s && exists t :: t in s[ip] && t >= now - c.window)
      && (ip in swept ==> swept[ip] == s[ip])
  {
    var s := Reach(c, ops);
    assert (ops + [Sweep(now)])[..|ops|] == ops;
    if ip in s {
      AlwaysSorted(c, ops, ip);
      var times := s[ip];
      if |times| > 0 {
        assert times[|times| - 1] in times;
      }
    }
  }

  lemma {:induction false} LatestReading(ops: seq<Op>) returns (t: int)
    ensures AllUpTo(ops, t)
  {
    if ops == [] {
      t := 0;
    } else {
      var front, last := ops[..|ops| - 1], ops[|ops| - 1];
      var before := LatestReading(front);
      t := if last.Leave? || last.now <= before then before else last.now;
      assert forall i :: 0 <= i < |front| ==> ops[i] == front[i];
    }
  }

  lemma AlwaysSorted(c: Limiter, ops: seq<Op>, ip: string)
    requires Ordered(ops)
    ensures Sorted(Times(Reach(c, ops), ip))
  {
    var t := LatestReading(ops);
    StoredSorted(c, ops, ip, t);
  }

  /* ---------- the API limiter ---------- */

  /** The times at which the API limiter let `ip` through. */
  function Admitted(c: Limiter, ops: seq<Op>, ip: string): seq<int> {
    if ops == [] then []
    else
      var front, last := ops[..|ops| - 1], ops[|ops| - 1];
      var log := Admitted(c, front, ip);
      if last.Allow? && last.ip == ip && Decision(c, Reach(c, front), ip, last.now) then log + [last.now] else log
  }

  predicate NoRecords(ops: seq<Op>) {
    forall i :: 0 <= i < |ops| ==> !ops[i].Record?
  }

  lemma {:induction false} AdmittedIsLogged(c: Limiter, ops: seq<Op>, ip: string)
    requires c.countsOnAllow && Ordered(ops) && NoRecords(ops)
    ensures Admitted(c, ops, ip) == Logged(c, ops, ip)
  {
    if ops != [] {
      var front, last := ops[..|ops| - 1], ops[|ops| - 1];
      OrderedFront(ops);
      assert NoRecords(front) && !ops[|ops| - 1].Record?;
      AdmittedIsLogged(c, front, ip);
      if last.Allow? {
        DecisionIsReference(c, front, ip, last.now);
      }
    }
  }

  lemma {:induction false} AdmittedByNow(c: Limiter, ops: seq<Op>, ip: string, t: int)
    requires AllUpTo(ops, t)
    ensures forall i :: 0 <= i < |Admitted(c, ops, ip)| ==> Admitted(c, ops, ip)[i] <= t
  {
    if ops != [] {
      var front := ops[..|ops| - 1];
      assert AllUpTo(front, t);
      AdmittedByNow(c, front, ip, t);
    }
  }

  lemma WindowGrows(c: Limiter, log: seq<int>, a: int, t: int)
    requires Room(c, log, a)
    requires |Within(log, t - c.window, t)| <= c.max
    ensures |Within(log + [a], t - c.window, t)| <= c.max
  {
    assert (log + [a])[..|log|] == log;
    if t - c.window < a <= t {
      AfterTwice(log, a - c.window, t - c.window);
      WithinIsShorter(log, t - c.window, t);
    }
  }

  /** Every interval (t - window, t] holds at most `max` admitted requests of one IP. */
  lemma {:induction false} AtMostMaxPerWindow(c: Limiter, ops: seq<Op>, ip: string, t: int)
    requires c.countsOnAllow && Ordered(ops) && NoRecords(ops)
    ensures |Within(Admitted(c, ops, ip), t - c.window, t)| <= c.max
  {
    if ops != [] {
      var front, last := ops[..|ops| - 1], ops[|ops| - 1];
      OrderedFront(ops);
      assert NoRecords(front);
      AtMostMaxPerWindow(c, front, ip, t);
      if last.Allow? && last.ip == ip && Decision(c, Reach(c, front), ip, last.now) {
        AdmittedIsLogged(c, front, ip);
        DecisionIsReference(c, front, ip, last.now);
        WindowGrows(c, Admitted(c, front, ip), last.now, t);
      }
    }
  }

  /** A request is refused exactly when its own window already holds `max` admitted ones. */
  lemma RefusedExactlyWhenFull(c: Limiter, ops: seq<Op>, ip: string, now: int)
    requires c.countsOnAllow && Ordered(ops) && NoRecords(ops) && AllUpTo(ops, now)
    ensures !Decision(c, Reach(c, ops), ip, now)
       <==> |Within(Admitted(c, ops, ip), now - c.window, now)| == c.max
  {
    DecisionIsReference(c, ops, ip, now);
    AdmittedIsLogged(c, ops, ip);
    AdmittedByNow(c, ops, ip, now);
    WithinUpToNow(Admitted(c, ops, ip), now - c.window, now);
    AtMostMaxPerWindow(c, ops, ip, now);
  }

  /* ---------- the login limiter ---------- */

  /** Attempts of `ip` that were allowed and have not ended yet. */
  function InFlight(c: Limiter, ops: seq<Op>, ip: string): int {
    if ops == [] then 0
    else
      var front, last := ops[..|ops| - 1], ops[|ops| - 1];
      InFlight(c, front, ip) +
      match last {
        case Allow(i, now) => if i == ip && Decision(c, Reach(c, front), ip, now) then 1 else 0
        case Record(i, _) => if i == ip then -1 else 0
        case Leave(i) => if i == ip then -1 else 0
        case Sweep(_) => 0
      }
  }

  /** Attempts end only after they began, and at most `k` are under way at any moment. */
  predicate AtMostInFlight(c: Limiter, ops: seq<Op>, ip: string, k: nat) {
    0 <= InFlight(c, ops, ip) <= k && (ops == [] || AtMostInFlight(c, ops[..|ops| - 1], ip, k))
  }

  /** Every admitted attempt of `ip` was admitted at or before `t`. */
  predicate AdmittedUpTo(c: Limiter, ops: seq<Op>, ip: string, t: int) {
    ops == [] ||
    (AdmittedUpTo(c, ops[..|ops| - 1], ip, t) &&
     var last := ops[|ops| - 1];
     (last.Allow? && last.ip == ip && Decision(c, Reach(c, ops[..|ops| - 1]), ip, last.now) ==> last.now <= t))
  }

  lemma {:induction false} LateAdmission(c: Limiter, ops: seq<Op>, ip: string, t: int, now: int)
    requires !AdmittedUpTo(c, ops, ip, t) && AllUpTo(ops, now)
    ensures t < now
  {
    var front := ops[..|ops| - 1];
    if AdmittedUpTo(c, front, ip, t) {
      assert ops[|ops| - 1].now <= now;
    } else {
      assert AllUpTo(front, now);
      LateAdmission(c, front, ip, t, now);
    }
  }

  lemma AdmissionFits(c: Limiter, log: seq<int>, a: int, flying: int, k: nat, t: int)
    requires Room(c, log, a) && a <= t && flying + 1 <= k
    ensures |After(log, t - c.window)| + flying + 1 <= c.max - 1 + k
  {
    AfterTwice(log, a - c.window, t - c.window);
  }

  lemma FailureFits(c: Limiter, log: seq<int>, now: int, flying: int, bound: int, t: int)
    requires flying >= 1 && |Within(log, t - c.window, t)| <= bound
    requires t < now || |After(log, t - c.window)| + flying <= bound
    ensures |Within(log + [now], t - c.window, t)| <= bound
    ensures |After(log, t - c.window)| + flying <= bound ==>
      |After(log + [now], t - c.window)| + flying - 1 <= bound
  {
    assert (log + [now])[..|log|] == log;
    AfterAppend(log, now, t - c.window);
    WithinIsShorter(log + [now], t - c.window, t);
  }

  /** With at most k attempts of one IP in flight, every interval (t - window, t] holds at
      most max - 1 + k recorded failures; while t is not before the last admission, the
      attempts still in flight are covered by the same bound. */
  lemma {:induction false} FailuresPerWindow(c: Limiter, ops: seq<Op>, ip: string, k: nat, t: int)
    requires !c.countsOnAllow && Ordered(ops) && k >= 1 && AtMostInFlight(c, ops, ip, k)
    ensures |Within(Logged(c, ops, ip), t - c.window, t)| <= c.max - 1 + k
    ensures AdmittedUpTo(c, ops, ip, t) ==>
      |After(Logged(c, ops, ip), t - c.window)| + InFlight(c, ops, ip) <= c.max - 1 + k
  {
    if ops != [] {
      var front, last := ops[..|ops| - 1], ops[|ops| - 1];
      OrderedFront(ops);
      FailuresPerWindow(c, front, ip, k, t);
      var log, flying := Logged(c, front, ip), InFlight(c, front, ip);
      if last.Allow? && last.ip == ip && Decision(c, Reach(c, front), ip, last.now) {
        DecisionIsReference(c, front, ip, last.now);
        if last.now <= t {
          AdmissionFits(c, log, last.now, flying, k, t);
        }
      } else if last.Record? && last.ip == ip {
        if !AdmittedUpTo(c, front, ip, t) {
          LateAdmission(c, front, ip, t, last.now);
        }
        FailureFits(c, log, last.now, flying, c.max - 1 + k, t);
      }
    }
  }

  /** Attempts made one after the other never exceed the limit itself. */
  lemma SequentialFailures(c: Limiter, ops: seq<Op>, ip: string, t: int)
    requires !c.countsOnAllow && Ordered(ops) && AtMostInFlight(c, ops, ip, 1)
    ensures |Within(Logged(c, ops, ip), t - c.window, t)| <= c.max
  {
    FailuresPerWindow(c, ops, ip, 1, t);
  }

  /* ---------- the bound is the exact one ---------- */

  function Zeros(n: nat): seq<int> {
    seq(n, _ => 0)
  }

  lemma {:induction false} ZerosAreRecent(n: nat, window: int)
    requires window > 0
    ensures After(Zeros(n), -window) == Zeros(n) && Within(Zeros(n), -window, 0) == Zeros(n)
  {
    if n > 0 {
      assert Zeros(n)[..n - 1] == Zeros(n - 1) && Zeros(n - 1) + [0] == Zeros(n);
      ZerosAreRecent(n - 1, window);
    }
  }

  /** A history at instant 0: n failures of `ip` so far, and f attempts in flight. */
  predicate AtZero(c: Limiter, ops: seq<Op>, ip: string, k: nat, n: nat, f: nat) {
    && (forall i :: 0 <= i < |ops| ==> (ops[i].Allow? || ops[i].Record?) && ops[i].now == 0)
    && Times(Reach(c, ops), ip) == Zeros(n) && Logged(c, ops, ip) == Zeros(n)
    && InFlight(c, ops, ip) == f && AtMostInFlight(c, ops, ip, k)
  }

  lemma OneMoreAllow(c: Limiter, ops: seq<Op>, ip: string, k: nat, n: nat, f: nat)
    requires !c.countsOnAllow && c.window > 0 && AtZero(c, ops, ip, k, n, f) && n < c.max && f < k
    ensures AtZero(c, ops + [Allow(ip, 0)], ip, k, n, f + 1)
  {
    assert (ops + [Allow(ip, 0)])[..|ops|] == ops;
    ZerosAreRecent(n, c.window);
  }

  lemma OneMoreRecord(c: Limiter, ops: seq<Op>, ip: string, k: nat, n: nat, f: nat)
    requires !c.countsOnAllow && AtZero(c, ops, ip, k, n, f) && f > 0
    ensures AtZero(c, ops + [Record(ip, 0)], ip, k, n + 1, f - 1)
  {
    assert (ops + [Record(ip, 0)])[..|ops|] == ops;
    assert Zeros(n) + [0] == Zeros(n + 1);
  }

  lemma {:induction false} FailOneByOne(c: Limiter, ip: string, k: nat, n: nat) returns (ops: seq<Op>)
    requires !c.countsOnAllow && c.window > 0 && k >= 1 && n <= c.max
    ensures AtZero(c, ops, ip, k, n, 0)
  {
    if n == 0 {
      ops := [];
    } else {
      var before := FailOneByOne(c, ip, k, n - 1);
      OneMoreAllow(c, before, ip, k, n - 1, 0);
      OneMoreRecord(c, before + [Allow(ip, 0)], ip, k, n - 1, 1);
      ops := before + [Allow(ip, 0)] + [Record(ip, 0)];
    }
  }

  lemma {:induction false} AllowTogether(c: Limiter, before: seq<Op>, ip: string, k: nat, n: nat, f: nat)
    returns (ops: seq<Op>)
    requires !c.countsOnAllow && c.window > 0 && AtZero(c, before, ip, k, n, 0) && n < c.max && f <= k
    ensures AtZero(c, ops, ip, k, n, f)
  {
    if f == 0 {
      ops := before;
    } else {
      var fewer := AllowTogether(c, before, ip, k, n, f - 1);
      OneMoreAllow(c, fewer, ip, k, n, f - 1);
      ops := fewer + [Allow(ip, 0)];
    }
  }

  lemma {:induction false} RecordTogether(c: Limiter, before: seq<Op>, ip: string, k: nat, n: nat, f: nat)
    returns (ops: seq<Op>)
    requires !c.countsOnAllow && AtZero(c, before, ip, k, n, f)
    ensures AtZero(c, ops, ip, k, n + f, 0)
    decreases f
  {
    if f == 0 {
      ops := before;
    } else {
      OneMoreRecord(c, before, ip, k, n, f);
      ops := RecordTogether(c, before + [Record(ip, 0)], ip, k, n + 1, f - 1);
    }
  }

  lemma AtZeroShows(c: Limiter, ops: seq<Op>, ip: string, k: nat, n: nat, f: nat)
    requires AtZero(c, ops, ip, k, n, f) && c.window > 0
    ensures Ordered(ops) && AtMostInFlight(c, ops, ip, k)
    ensures |Within(Logged(c, ops, ip), 0 - c.window, 0)| == n
  {
    ZerosAreRecent(n, c.window);
    hide Reach, InFlight, AtMostInFlight, Within, After;
  }

  /** FailuresPerWindow is the exact bound: for every limit and every k, some history with at
      most k attempts in flight has max - 1 + k failures in one window. */
  lemma BoundIsReached(c: Limiter, ip: string, k: nat) returns (ops: seq<Op>)
    requires !c.countsOnAllow && c.max >= 1 && c.window > 0 && k >= 1
    ensures Ordered(ops) && AtMostInFlight(c, ops, ip, k)
    ensures |Within(Logged(c, ops, ip), 0 - c.window, 0)| == c.max - 1 + k
  {
    hide AtZero, AtMostInFlight, Ordered, Within, Logged;
    var one := FailOneByOne(c, ip, k, c.max - 1);
    var two := AllowTogether(c, one, ip, k, c.max - 1, k);
    ops := RecordTogether(c, two, ip, k, c.max - 1, k);
    AtZeroShows(c, ops, ip, k, c.max - 1 + k, 0);
  }

  /** The limiter keeps its own limit. */
  predicate KeepsMax(c: Limiter, ops: seq<Op>, ip: string, t: int) {
    |Within(Logged(c, ops, ip), t - c.window, t)| <= c.max
  }

  lemma {:induction false} FewerInFlight(c: Limiter, ops: seq<Op>, ip: string, k: nat, more: nat)
    requires AtMostInFlight(c, ops, ip, k) && k <= more
    ensures AtMostInFlight(c, ops, ip, more)
  {
    if ops != [] {
      FewerInFlight(c, ops[..|ops| - 1], ip, k, more);
    }
  }

  lemma {:induction false} NothingAdmitted(c: Limiter, ops: seq<Op>, ip: string, k: nat)
    requires c.max == 0 && AtMostInFlight(c, ops, ip, k)
    ensures InFlight(c, ops, ip) == 0 && Logged(c, ops, ip) == []
  {
    if ops != [] {
      NothingAdmitted(c, ops[..|ops| - 1], ip, k);
    }
  }

  lemma {:induction false} EmptyWindow(times: seq<int>, lo: int, hi: int)
    requires hi <= lo
    ensures Within(times, lo, hi) == []
  {
    if times != [] {
      EmptyWindow(times[..|times| - 1], lo, hi);
    }
  }

  /** The limit itself holds in every history with at most k attempts in flight exactly when k
      is at most one (or there is nothing to count: no attempt is allowed, or the window is
      empty). */
  lemma MaxIsKeptIff(c: Limiter, ip: string, k: nat)
    requires !c.countsOnAllow
    ensures (forall ops, t :: Ordered(ops) && AtMostInFlight(c, ops, ip, k) ==> KeepsMax(c, ops, ip, t))
      <==> k <= 1 || c.max == 0 || c.window <= 0
  {
    if k <= 1 || c.max == 0 || c.window <= 0 {
      forall ops, t | Ordered(ops) && AtMostInFlight(c, ops, ip, k)
        ensures KeepsMax(c, ops, ip, t)
      {
        if k <= 1 {
          FewerInFlight(c, ops, ip, k, 1);
          SequentialFailures(c, ops, ip, t);
        } else if c.max == 0 {
          NothingAdmitted(c, ops, ip, k);
        } else {
          EmptyWindow(Logged(c, ops, ip), t - c.window, t);
        }
      }
    } else {
      var ops := BoundIsReached(c, ip, k);
      assert !KeepsMax(c, ops, ip, 0);
    }
  }

  /* ---------- the classes ---------- */

  /** Compacts the times after the cutoff to the front of the slice they came from, as
      `recent := times[:0]` followed by appends does. */
  method CompactInPlace(buf: array<int>, cutoff: int) returns (kept: nat)
    modifies buf
    ensures kept <= buf.Length
    ensures buf[..kept] == After(old(buf[..]), cutoff)
  {
    kept := 0;
    for i := 0 to buf.Length
      invariant kept <= i
      invariant buf[..kept] == After(old(buf[..i]), cutoff)
      invariant forall k :: i <= k < buf.Length ==> buf[k] == old(buf[k])
    {
      ghost var before := old(buf[..i]);
      assert buf[i] == old(buf[i]);
      assert old(buf[..i + 1]) == before + [buf[i]];
      AfterAppend(before, buf[i], cutoff);
      if buf[i] > cutoff {
        buf[kept] := buf[i];
        kept := kept + 1;
      }
    }
    assert old(buf[..buf.Length]) == old(buf[..]);
  }

  method Trim(times: seq<int>, cutoff: int) returns (recent: seq<int>)
    ensures recent == After(times, cutoff)
  {
    var buf := new int[|times|](i requires 0 <= i < |times| => times[i]);
    assert buf[..] == times;
    var kept := CompactInPlace(buf, cutoff);
    recent := buf[..kept];
  }

  method SweepEntries(s: State, cutoff: int) returns (r: State)
    ensures r == Swept(s, cutoff)
  {
    r := s;
    var todo := s.Keys;
    while todo != {}
      invariant todo <= s.Keys
      invariant r.Keys == set ip | ip in s && (ip in todo || !Stale(s[ip], cutoff))
      invariant forall ip :: ip in r ==> r[ip] == s[ip]
    {
      var ip :| ip in todo;
      if Stale(s[ip], cutoff) {
        r := r - {ip};
      }
      todo := todo - {ip};
    }
  }

  class ApiRateLimiter {
    var requests: State
    const max: nat
    const window: int

    ghost function Config(): Limiter {
      Limiter(max, window, true)
    }

    constructor (max: nat, window: int)
      ensures requests == map[] && Config() == Limiter(max, window, true)
    {
      requests := map[];
      this.max, this.window := max, window;
    }

    method Allow(ip: string, now: int) returns (ok: bool)
      modifies this
      ensures ok == Decision(Config(), old(requests), ip, now)
      ensures requests == Next(Config(), old(requests), Op.Allow(ip, now))
    {
      var cutoff := now - window;
      var recent := Trim(if ip in requests then requests[ip] else [], cutoff);
      requests := requests[ip := recent];
      if |recent| >= max {
        return false;
      }
      requests := requests[ip := recent + [now]];
      ok := true;
    }

    method Sweep(now: int)
      modifies this
      ensures requests == Next(Config(), old(requests), Op.Sweep(now))
    {
      requests := SweepEntries(requests, now - window);
    }
  }

  class LoginRateLimiter {
    var attempts: State
    const max: nat
    const window: int

    ghost function Config(): Limiter {
      Limiter(max, window, false)
    }

    constructor (max: nat, window: int)
      ensures attempts == map[] && Config() == Limiter(max, window, false)
    {
      attempts := map[];
      this.max, this.window := max, window;
    }

    method Allow(ip: string, now: int) returns (ok: bool)
      modifies this
      ensures ok == Decision(Config(), old(attempts), ip, now)
      ensures attempts == Next(Config(), old(attempts), Op.Allow(ip, now))
    {
      var recent := Trim(if ip in attempts then attempts[ip] else [], now - window);
      attempts := attempts[ip := recent];
      ok := |recent| < max;
    }

    method Record(ip: string, now: int)
      modifies this
      ensures attempts == Next(Config(), old(attempts), Op.Record(ip, now))
    {
      attempts := attempts[ip := (if ip in attempts then attempts[ip] else []) + [now]];
    }

    method Sweep(now: int)
      modifies this
      ensures attempts == Next(Config(), old(attempts), Op.Sweep(now))
    {
      attempts := SweepEntries(attempts, now - window);
    }
  }
}
