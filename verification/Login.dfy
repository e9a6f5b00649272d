/** The order of steps in handleLogin (internal/api/handlers_auth.go, lines 91-130): rate limit,
    request body, credentials, session. */
module Login {
  import opened Text
  import opened RateLimit
  import Sessions

  datatype Request = Malformed | Credentials(correct: bool)

  /** One call: its address and request, and the clock readings of allow and record. */
  datatype Attempt = Attempt(ip: string, request: Request, allowAt: int, recordAt: int)

  /** What a call does to the limiter, given the limiter's decision. */
  function Script(a: Attempt, allowed: bool): seq<Op> {
    if !allowed then [Allow(a.ip, a.allowAt)]
    else if a.request == Credentials(false) then [Allow(a.ip, a.allowAt), Record(a.ip, a.recordAt)]
    else [Allow(a.ip, a.allowAt), Leave(a.ip)]
  }

  function Play(c: Limiter, s: State, ops: seq<Op>): State
    decreases |ops|
  {
    if ops == [] then s else Play(c, Next(c, s, ops[0]), ops[1..])
  }

  lemma PlayScript(c: Limiter, s: State, a: Attempt, allowed: bool)
    ensures
      var s1 := Next(c, s, Allow(a.ip, a.allowAt));
      Play(c, s, Script(a, allowed)) ==
        if allowed && a.request == Credentials(false) then Next(c, s1, Record(a.ip, a.recordAt)) else s1
  {
    var ops := Script(a, allowed);
    if allowed {
      assert ops[1..] == [ops[1]];
      PlayOne(c, Next(c, s, ops[0]), ops[1]);
    } else {
      PlayOne(c, s, ops[0]);
    }
  }

  lemma PlayOne(c: Limiter, s: State, op: Op)
    ensures Play(c, s, [op]) == Next(c, s, op)
  {
  }

  /** `token` is None when no random bytes could be had. */
  method HandleLogin(limiter: LoginRateLimiter, store: Sessions.SessionStore, a: Attempt,
                     token: Option<string>, createAt: int)
    returns (status: int)
    modifies limiter, store
    ensures
      var allowed := Decision(limiter.Config(), old(limiter.attempts), a.ip, a.allowAt);
      && limiter.attempts == Play(limiter.Config(), old(limiter.attempts), Script(a, allowed))
      && status == (if !allowed then 429
                    else if a.request.Malformed? then 400
                    else if !a.request.correct then 401
                    else if token.None? then 500
                    else 200)
    ensures store.sessions ==
      if status == 200 then Sessions.Next(store.ttl, old(store.sessions), Sessions.Create(token.value, createAt))
      else old(store.sessions)
  {
    PlayScript(limiter.Config(), limiter.attempts, a, Decision(limiter.Config(), limiter.attempts, a.ip, a.allowAt));
    hide Play;
    var allowed := limiter.Allow(a.ip, a.allowAt);
    if !allowed {
      return 429;
    }
    if a.request.Malformed? {
      return 400;
    }
    if !a.request.correct {
      limiter.Record(a.ip, a.recordAt);
      return 401;
    }
    if token.None? {
      return 500;
    }
    store.Create(token.value, createAt);
    status := 200;
  }

  /** The limiter's steps when calls are handled one after the other. */
  function History(c: Limiter, attempts: seq<Attempt>): seq<Op> {
    if attempts == [] then []
    else
      var before, a := History(c, attempts[..|attempts| - 1]), attempts[|attempts| - 1];
      before + Script(a, Decision(c, Reach(c, before), a.ip, a.allowAt))
  }

  /** How one more step changes the number of attempts under way. */
  lemma OneMoreStep(c: Limiter, ops: seq<Op>, op: Op, ip: string)
    requires AtMostInFlight(c, ops, ip, 1)
    ensures
      var n := InFlight(c, ops, ip) +
        (if op.Sweep? || op.ip != ip then 0
         else if op.Allow? then (if Decision(c, Reach(c, ops), ip, op.now) then 1 else 0)
         else -1);
      InFlight(c, ops + [op], ip) == n && (0 <= n <= 1 ==> AtMostInFlight(c, ops + [op], ip, 1))
  {
  }

  lemma {:induction false} OneAtATime(c: Limiter, attempts: seq<Attempt>, ip: string)
    ensures AtMostInFlight(c, History(c, attempts), ip, 1) && InFlight(c, History(c, attempts), ip) == 0
  {
    if attempts != [] {
      OneAtATime(c, attempts[..|attempts| - 1], ip);
      var before, a := History(c, attempts[..|attempts| - 1]), attempts[|attempts| - 1];
      hide AtMostInFlight, InFlight, Reach, Decision;
      var first := before + [Allow(a.ip, a.allowAt)];
      OneMoreStep(c, before, Allow(a.ip, a.allowAt), ip);
      if Decision(c, Reach(c, before), a.ip, a.allowAt) {
        var last := if a.request == Credentials(false) then Record(a.ip, a.recordAt) else Leave(a.ip);
        assert History(c, attempts) == first + [last];
        OneMoreStep(c, first, last, ip);
      }
    }
  }

  /** A call counts against its address exactly if it is let through with wrong credentials,
      and then once, at the clock reading of record. */
  lemma CallCounts(c: Limiter, attempts: seq<Attempt>, a: Attempt, ip: string)
    requires !c.countsOnAllow
    ensures
      var before := History(c, attempts);
      Logged(c, History(c, attempts + [a]), ip) ==
        if a.ip == ip && Decision(c, Reach(c, before), a.ip, a.allowAt) && a.request == Credentials(false)
        then Logged(c, before, ip) + [a.recordAt] else Logged(c, before, ip)
  {
    var before := History(c, attempts);
    assert (attempts + [a])[..|attempts|] == attempts;
    var allowed := Decision(c, Reach(c, before), a.ip, a.allowAt);
    hide Decision, Reach;
    var first := before + [Allow(a.ip, a.allowAt)];
    LogOneMore(c, before, Allow(a.ip, a.allowAt), ip);
    if allowed {
      var last := if a.request == Credentials(false) then Record(a.ip, a.recordAt) else Leave(a.ip);
      assert before + Script(a, true) == first + [last];
      LogOneMore(c, first, last, ip);
    }
  }

  lemma LogOneMore(c: Limiter, ops: seq<Op>, op: Op, ip: string)
    ensures Logged(c, ops + [op], ip) == LogNext(c, Logged(c, ops, ip), op, ip)
  {
    assert (ops + [op])[..|ops|] == ops;
  }

  /** Calls handled one after the other leave at most `max` failures of one address in any
      window, whatever the passwords tried. */
  lemma FailuresOneAfterTheOther(c: Limiter, attempts: seq<Attempt>, ip: string, t: int)
    requires !c.countsOnAllow && Ordered(History(c, attempts))
    ensures |Within(Logged(c, History(c, attempts), ip), t - c.window, t)| <= c.max
  {
    OneAtATime(c, attempts, ip);
    SequentialFailures(c, History(c, attempts), ip, t);
  }
}
