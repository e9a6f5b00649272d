/** Login sessions (internal/api/handlers_auth.go, lines 14-89): a map from token to expiry,
    pruned by a periodic reaper and by lookups that find a token expired. */
module Sessions {

  type Token = string

  /** The lock-protected steps.  A call of Valid is a Lookup, which reads the entry and
      compares it with the clock, followed by a Drop, in a step of its own, if it found the
      token expired.  The reaper reads the clock before it takes the lock. */
  datatype Op =
    | Create(token: Token, now: int)
    | Lookup(token: Token, now: int)
    | Drop(token: Token, now: int)
    | Delete(token: Token)
    | Reap(now: int)

  type State = map<Token, int>

  function Reaped(s: State, now: int): State {
    map t | t in s && !(now > s[t]) :: s[t]
  }

  function Next(ttl: int, s: State, op: Op): State {
    match op
    case Create(t, now) => s[t := now + ttl]
    case Lookup(_, _) => s
    case Drop(t, _) => s - {t}
    case Delete(t) => s - {t}
    case Reap(now) => Reaped(s, now)
  }

  function Reach(ttl: int, ops: seq<Op>): State {
    if ops == [] then map[] else Next(ttl, Reach(ttl, ops[..|ops| - 1]), ops[|ops| - 1])
  }

  /** What a Lookup answers. */
  predicate Answer(s: State, t: Token, now: int) {
    t in s && !(now > s[t])
  }

  /* ---------- the reference: when was the token created, was it deleted? ---------- */

  /** The creation time of a token that was created and not deleted since, by logout only. */
  function Created(ops: seq<Op>): map<Token, int> {
    if ops == [] then map[]
    else
      var before := Created(ops[..|ops| - 1]);
      match ops[|ops| - 1]
      case Create(t, now) => before[t := now]
      case Delete(t) => before - {t}
      case _ => before
  }

  predicate RefAnswer(ttl: int, ops: seq<Op>, t: Token, now: int) {
    t in Created(ops) && now <= Created(ops)[t] + ttl
  }

  predicate EverCreated(ops: seq<Op>, t: Token) {
    exists i :: 0 <= i < |ops| && ops[i].Create? && ops[i].token == t
  }

  /** Readings behind removals made so far are at most `now`. */
  predicate RemovalsUpTo(ops: seq<Op>, now: int) {
    forall i :: 0 <= i < |ops| && (ops[i].Drop? || ops[i].Reap?) ==> ops[i].now <= now
  }

  /** A history that can happen: tokens are fresh (32 random bytes), a lookup reads the clock
      after every earlier removal did, and a Drop follows a Lookup that found the token
      expired at the same reading. */
  predicate Possible(ttl: int, ops: seq<Op>) {
    ops == [] ||
    (Possible(ttl, ops[..|ops| - 1]) &&
     PossibleStep(ttl, ops[..|ops| - 1], ops[|ops| - 1]))
  }

  predicate PossibleStep(ttl: int, front: seq<Op>, op: Op) {
    match op
    case Create(t, _) => !EverCreated(front, t)
    case Lookup(_, now) => RemovalsUpTo(front, now)
    case Drop(t, now) =>
      exists i :: 0 <= i < |front| && front[i] == Lookup(t, now)
        && t in Reach(ttl, front[..i]) && now > Reach(ttl, front[..i])[t]
    case _ => true
  }

  /* ---------- every history ---------- */

  lemma {:induction false} OnlyCreatedTokens(ttl: int, ops: seq<Op>, t: Token)
    ensures t in Reach(ttl, ops) || t in Created(ops) ==> EverCreated(ops, t)
  {
    if ops != [] {
      var front := ops[..|ops| - 1];
      OnlyCreatedTokens(ttl, front, t);
      if EverCreated(front, t) {
        var i :| 0 <= i < |front| && front[i].Create? && front[i].token == t;
        assert ops[i] == front[i];
      }
      if ops[|ops| - 1].Create? && ops[|ops| - 1].token == t {
        assert EverCreated(ops, t);
      }
    }
  }

  /** What the map holds is a live token with its true expiry; a live token it has lost
      expired before some earlier removal's clock reading. */
  ghost predicate Sound(ttl: int, ops: seq<Op>, t: Token) {
    var s, created := Reach(ttl, ops), Created(ops);
    && (t in s ==> t in created && s[t] == created[t] + ttl)
    && (t in created && t !in s ==> !RemovalsUpTo(ops, created[t] + ttl))
  }

  /** An expiry once read stays the true expiry of that token for as long as it is live. */
  lemma {:induction false} ExpiryIsForever(ttl: int, ops: seq<Op>, i: nat, t: Token)
    requires Possible(ttl, ops) && i <= |ops| && t in Created(ops[..i]) && t in Created(ops)
    ensures Created(ops)[t] == Created(ops[..i])[t]
  {
    if i < |ops| {
      var front := ops[..|ops| - 1];
      assert ops[..i] == front[..i];
      OnlyCreatedTokens(ttl, front[..i], t);
      var k :| 0 <= k < i && ops[k].Create? && ops[k].token == t;
      assert front[k] == ops[k] && EverCreated(front, t);
      ExpiryIsForever(ttl, front, i, t);
    } else {
      assert ops[..i] == ops;
    }
  }

  lemma {:induction false} PossiblePrefix(ttl: int, ops: seq<Op>, i: nat)
    requires Possible(ttl, ops) && i <= |ops|
    ensures Possible(ttl, ops[..i])
  {
    if i < |ops| {
      var front := ops[..|ops| - 1];
      PossiblePrefix(ttl, front, i);
      assert front[..i] == ops[..i];
    } else {
      assert ops[..i] == ops;
    }
  }

  lemma RemovalsGrow(ops: seq<Op>, now: int)
    requires ops != []
    ensures RemovalsUpTo(ops, now) ==> RemovalsUpTo(ops[..|ops| - 1], now)
    ensures RemovalsUpTo(ops, now) && (ops[|ops| - 1].Drop? || ops[|ops| - 1].Reap?) ==> ops[|ops| - 1].now <= now
  {
  }

  lemma {:induction false} StaysSound(ttl: int, ops: seq<Op>, t: Token)
    requires Possible(ttl, ops)
    ensures Sound(ttl, ops, t)
    decreases |ops|
  {
    if ops != [] {
      var front, last := ops[..|ops| - 1], ops[|ops| - 1];
      StaysSound(ttl, front, t);
      if t in Created(front) {
        RemovalsGrow(ops, Created(front)[t] + ttl);
      }
      match last
      case Create(u, now) =>
      case Lookup(_, _) =>
      case Drop(u, now) =>
        if u == t && t in Created(ops) {
          DropWasDue(ttl, front, t, now);
        }
      case Delete(_) =>
      case Reap(_) =>
    }
  }

  /** A Drop removes only a token whose true expiry lies before the reading behind it. */
  lemma DropWasDue(ttl: int, front: seq<Op>, t: Token, now: int)
    requires Possible(ttl, front) && PossibleStep(ttl, front, Drop(t, now)) && t in Created(front)
    ensures now > Created(front)[t] + ttl
    decreases |front|, 0
  {
    var i :| 0 <= i < |front| && front[i] == Lookup(t, now)
      && t in Reach(ttl, front[..i]) && now > Reach(ttl, front[..i])[t];
    PossiblePrefix(ttl, front, i);
    StaysSound(ttl, front[..i], t);
    ExpiryIsForever(ttl, front, i, t);
  }

  /** Valid(token) holds exactly when the token was created, not deleted since, and the clock
      has not passed creation + ttl, whatever the reaper and lazy deletions did meanwhile. */
  lemma ValidIsExact(ttl: int, ops: seq<Op>, t: Token, now: int)
    requires Possible(ttl, ops + [Lookup(t, now)])
    ensures Answer(Reach(ttl, ops), t, now) == RefAnswer(ttl, ops, t, now)
  {
    var all := ops + [Lookup(t, now)];
    assert all[..|all| - 1] == ops;
    StaysSound(ttl, ops, t);
    assert forall later :: now <= later ==> RemovalsUpTo(ops, later);
  }

  /** The token was created by the i-th step and not deleted since, by logout only. */
  predicate CreatedBy(ops: seq<Op>, t: Token, i: nat) {
    && i < |ops| && ops[i].Create? && ops[i].token == t
    && forall k :: i < k < |ops| ==> ops[k] != Delete(t) && !(ops[k].Create? && ops[k].token == t)
  }

  lemma {:induction false} CreatedMeans(ops: seq<Op>, t: Token)
    ensures t in Created(ops) <==> exists i: nat :: CreatedBy(ops, t, i)
    ensures forall i: nat :: CreatedBy(ops, t, i) ==> t in Created(ops) && Created(ops)[t] == ops[i].now
  {
    if ops != [] {
      var front, last := ops[..|ops| - 1], ops[|ops| - 1];
      CreatedMeans(front, t);
      assert forall k :: 0 <= k < |front| ==> front[k] == ops[k];
      if last == Delete(t) {
      } else if last.Create? && last.token == t {
        assert CreatedBy(ops, t, |ops| - 1);
      } else {
        forall i: nat
          ensures CreatedBy(ops, t, i) <==> CreatedBy(front, t, i)
        {
        }
      }
    }
  }

  /** The same told by the steps: a valid token was created, at most ttl ago, and no logout
      came after that. */
  lemma ValidIff(ttl: int, ops: seq<Op>, t: Token, now: int)
    requires Possible(ttl, ops + [Lookup(t, now)])
    ensures Answer(Reach(ttl, ops), t, now) <==> exists i: nat :: CreatedBy(ops, t, i) && now <= ops[i].now + ttl
  {
    ValidIsExact(ttl, ops, t, now);
    CreatedMeans(ops, t);
  }

  /** A reaper pass leaves exactly the entries that had not expired when it read the clock, as
      they were; a lazy deletion takes out its token alone. */
  lemma PruningRemoves(ttl: int, ops: seq<Op>, t: Token, u: Token, now: int)
    ensures
      var s, reaped, dropped := Reach(ttl, ops), Reach(ttl, ops + [Reap(now)]), Reach(ttl, ops + [Drop(u, now)]);
      && (t in reaped <==> t in s && now <= s[t]) && (t in reaped ==> reaped[t] == s[t])
      && (t in dropped <==> t in s && t != u) && (t in dropped ==> dropped[t] == s[t])
  {
    assert (ops + [Reap(now)])[..|ops|] == ops && (ops + [Drop(u, now)])[..|ops|] == ops;
  }

  function WithoutPruning(ops: seq<Op>): seq<Op> {
    if ops == [] then []
    else
      var front, last := ops[..|ops| - 1], ops[|ops| - 1];
      if last.Drop? || last.Reap? then WithoutPruning(front) else WithoutPruning(front) + [last]
  }

  lemma {:induction false} UnprunedState(ttl: int, ops: seq<Op>)
    ensures Created(WithoutPruning(ops)) == Created(ops)
    ensures forall t :: t in Reach(ttl, WithoutPruning(ops)) <==> t in Created(ops)
    ensures forall t :: t in Created(ops) ==> Reach(ttl, WithoutPruning(ops))[t] == Created(ops)[t] + ttl
  {
    if ops != [] {
      var front, last := ops[..|ops| - 1], ops[|ops| - 1];
      UnprunedState(ttl, front);
      if !(last.Drop? || last.Reap?) {
        var kept := WithoutPruning(front) + [last];
        assert kept[..|kept| - 1] == WithoutPruning(front);
      }
    }
  }

  /** Leaving out every reaper pass and every lazy deletion changes no answer. */
  lemma PruningChangesNothing(ttl: int, ops: seq<Op>, t: Token, now: int)
    requires Possible(ttl, ops + [Lookup(t, now)])
    ensures Answer(Reach(ttl, ops), t, now) == Answer(Reach(ttl, WithoutPruning(ops)), t, now)
  {
    ValidIsExact(ttl, ops, t, now);
    UnprunedState(ttl, ops);
  }

  /* ---------- the class ---------- */

  class SessionStore {
    var sessions: State
    const ttl: int

    constructor (ttl: int)
      ensures sessions == map[] && this.ttl == ttl
    {
      sessions := map[];
      this.ttl := ttl;
    }

    method Create(token: Token, now: int)
      modifies this
      ensures sessions == Next(ttl, old(sessions), Op.Create(token, now))
    {
      sessions := sessions[token := now + ttl];
    }

    /** The read and the comparison in Valid; `expired` asks for a Drop. */
    method Lookup(token: Token, now: int) returns (ok: bool, expired: bool)
      ensures ok == Answer(sessions, token, now)
      ensures expired == (token in sessions && now > sessions[token])
    {
      if token !in sessions {
        return false, false;
      }
      if now > sessions[token] {
        return false, true;
      }
      return true, false;
    }

    /** The deletion in Valid, and Delete. */
    method Remove(token: Token)
      modifies this
      ensures sessions == old(sessions) - {token}
    {
      sessions := sessions - {token};
    }

    /** One pass of the reaper. */
    method Reap(now: int)
      modifies this
      ensures sessions == Next(ttl, old(sessions), Op.Reap(now))
    {
      var todo := sessions.Keys;
      while todo != {}
        invariant todo <= sessions.Keys
        invariant sessions.Keys == set t | t in old(sessions) && (t in todo || !(now > old(sessions)[t]))
        invariant forall t :: t in sessions ==> sessions[t] == old(sessions)[t]
      {
        var token :| token in todo;
        if now > sessions[token] {
          sessions := sessions - {token};
        }
        todo := todo - {token};
      }
    }
  }
}
