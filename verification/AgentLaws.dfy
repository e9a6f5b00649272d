/** What a run of the agent loop does, told by the replies, the tables and the confirmations
    alone: which calls are executed, when a run ends, what the user and the model are told. */
module AgentLaws {
  import opened Text
  import opened LlmTools
  import opened Agent

  predicate Increasing(at: seq<nat>) {
    forall m, n :: 0 <= m < n < |at| ==> at[m] < at[n]
  }

  /* ---------- which calls are executed ---------- */

  function Shifted(at: seq<nat>): (r: seq<nat>)
    ensures |r| == |at| && forall n :: 0 <= n < |at| ==> r[n] == at[n] + 1
  {
    seq(|at|, n requires 0 <= n < |at| => at[n] + 1)
  }

  lemma ShiftedMembers(at: seq<nat>, k: nat)
    ensures k in Shifted(at) <==> k > 0 && k - 1 in at
  {
    if k > 0 && k - 1 in at {
      var n :| 0 <= n < |at| && at[n] == k - 1;
      assert Shifted(at)[n] == k;
    }
  }

  /** No call up to the k-th was cut off by the client leaving. */
  predicate Reached(attempts: seq<Attempt>, k: nat) {
    k < |attempts| && forall m :: 0 <= m <= k ==> !attempts[m].cancelled
  }

  lemma ReachedLater(attempts: seq<Attempt>, k: nat)
    requires attempts != []
    ensures Reached(attempts, k) <==> !attempts[0].cancelled && (k == 0 || Reached(attempts[1..], k - 1))
    ensures Reached(attempts, k) ==> k < |attempts|
  {
    if k > 0 && !attempts[0].cancelled && Reached(attempts[1..], k - 1) {
      forall m | 0 <= m <= k
        ensures !attempts[m].cancelled
      {
        assert m > 0 ==> attempts[m] == attempts[1..][m - 1];
      }
    }
    if k > 0 && Reached(attempts, k) {
      forall m | 0 <= m <= k - 1
        ensures !attempts[1..][m].cancelled
      {
        assert attempts[1..][m] == attempts[m + 1];
      }
    }
  }

  /** The positions of the executed calls among the attempts. */
  ghost predicate Spots(c: Config, attempts: seq<Attempt>, executed: seq<ToolCall>, at: seq<nat>) {
    && Increasing(at) && |at| == |executed|
    && (forall n :: 0 <= n < |at| ==> at[n] < |attempts| && executed[n] == attempts[at[n]].call)
    && (forall k: nat :: k in at <==> RunsAt(c, attempts, k))
  }

  predicate RunsAt(c: Config, attempts: seq<Attempt>, k: nat) {
    Reached(attempts, k) && Judge(c, attempts[k].call) == Runs
  }

  lemma RunsAtLater(c: Config, attempts: seq<Attempt>, k: nat)
    requires attempts != [] && !attempts[0].cancelled
    ensures RunsAt(c, attempts, k) <==>
      if k == 0 then Judge(c, attempts[0].call) == Runs else RunsAt(c, attempts[1..], k - 1)
  {
    ReachedLater(attempts, k);
    assert 0 < k < |attempts| ==> attempts[k] == attempts[1..][k - 1];
    hide Judge;
  }

  lemma NoSpots(c: Config, attempts: seq<Attempt>)
    requires attempts == [] || attempts[0].cancelled
    ensures Spots(c, attempts, BatchExecuted(c, Handled(attempts)), [])
  {
    assert Handled(attempts) == [];
  }

  lemma MoreSpots(c: Config, attempts: seq<Attempt>, later: seq<ToolCall>, at: seq<nat>) returns (r: seq<nat>)
    requires attempts != [] && !attempts[0].cancelled && Spots(c, attempts[1..], later, at)
    ensures Spots(c, attempts, (if Judge(c, attempts[0].call) == Runs then [attempts[0].call] else []) + later, r)
  {
    hide Judge, RunsAt;
    var first: seq<nat> := if Judge(c, attempts[0].call) == Runs then [0] else [];
    r := first + Shifted(at);
    forall k: nat
      ensures k in r <==> RunsAt(c, attempts, k)
    {
      RunsAtLater(c, attempts, k);
      ShiftedMembers(at, k);
      assert k in r <==> k in first || k in Shifted(at);
    }
    ShiftedOrder(at, first);
  }

  lemma ShiftedOrder(at: seq<nat>, first: seq<nat>)
    requires Increasing(at) && (first == [] || first == [0])
    ensures Increasing(first + Shifted(at))
  {
  }

  lemma {:induction false} BatchSpots(c: Config, attempts: seq<Attempt>) returns (at: seq<nat>)
    ensures Spots(c, attempts, BatchExecuted(c, Handled(attempts)), at)
  {
    if attempts == [] || attempts[0].cancelled {
      NoSpots(c, attempts);
      at := [];
    } else {
      var rest := BatchSpots(c, attempts[1..]);
      at := MoreSpots(c, attempts, BatchExecuted(c, Handled(attempts[1..])), rest);
      assert Handled(attempts)[1..] == Handled(attempts[1..]);
      hide Judge, Spots;
    }
  }

  /** Two calls of the reply change state. */
  predicate TwoChanges(c: Config, attempts: seq<Attempt>) {
    exists a, b :: 0 <= a < b < |attempts| && Changes(c, attempts[a].call) && Changes(c, attempts[b].call)
  }

  predicate Changes(c: Config, call: ToolCall) {
    call.name in c.tools.allowed && call.name !in c.tools.readOnly
  }

  lemma {:induction false} CountsChanges(c: Config, calls: seq<ToolCall>)
    ensures |Changing(c, calls)| >= 1 <==> exists a :: 0 <= a < |calls| && Changes(c, calls[a])
    ensures |Changing(c, calls)| >= 2 <==>
      exists a, b :: 0 <= a < b < |calls| && Changes(c, calls[a]) && Changes(c, calls[b])
  {
    if calls != [] {
      var front, last := calls[..|calls| - 1], calls[|calls| - 1];
      CountsChanges(c, front);
      assert forall a :: 0 <= a < |front| ==> calls[a] == front[a];
      assert Changes(c, last) <==> StateChanging(c, last);
      hide Changes, StateChanging;
      if a, b :| 0 <= a < b < |front| && Changes(c, front[a]) && Changes(c, front[b]) {
        assert Changes(c, calls[a]) && Changes(c, calls[b]);
      }
      if a :| 0 <= a < |front| && Changes(c, front[a]) {
        assert Changes(c, calls[a]);
      }
      if a, b :| 0 <= a < b < |calls| && Changes(c, calls[a]) && Changes(c, calls[b]) {
        assert b == |front| ==> Changes(c, front[a]);
        assert b < |front| ==> Changes(c, front[a]) && Changes(c, front[b]);
      }
    }
  }

  lemma BulkPendingIff(c: Config, attempts: seq<Attempt>)
    ensures NeedsBulk(c, attempts) <==> TwoChanges(c, attempts) && BulkId(c, Calls(attempts)) !in c.confirmed
  {
    CountsChanges(c, Calls(attempts));
    var calls := Calls(attempts);
    assert forall a :: 0 <= a < |attempts| ==> calls[a] == attempts[a].call;
    hide Changing, BulkId, Changes, Calls;
    if TwoChanges(c, attempts) {
      var a, b :| 0 <= a < b < |attempts| && Changes(c, attempts[a].call) && Changes(c, attempts[b].call);
      assert Changes(c, calls[a]) && Changes(c, calls[b]);
    }
    if a, b :| 0 <= a < b < |calls| && Changes(c, calls[a]) && Changes(c, calls[b]) {
      assert Changes(c, attempts[a].call) && Changes(c, attempts[b].call);
    }
  }

  /** In every turn of every run, exactly those calls of the reply are executed, in their order
      and each as often as it stands there, that were reached before the client left, exist,
      are allowed by the mode, are confirmed if destructive, and come in a reply with at most
      one state-changing call unless its bulk ID was supplied. */
  lemma ExecutedExactly(c: Config, history: seq<Message>, turns: seq<Turn>, i: nat) returns (at: seq<nat>)
    requires i < |WholeRun(c, history, turns).executed|
    ensures i < |turns| && Increasing(at)
    ensures var executed := WholeRun(c, history, turns).executed[i];
      match turns[i].reply {
        case Answer(_, attempts, _, _) =>
          && |at| == |executed|
          && (forall n :: 0 <= n < |at| ==> at[n] < |attempts| && executed[n] == attempts[at[n]].call)
          && (forall k: nat :: k in at <==>
                && k < |attempts| && (forall m :: 0 <= m <= k ==> !attempts[m].cancelled)
                && attempts[k].call.name in c.tools.allowed
                && (c.readOnly ==> attempts[k].call.name in c.tools.readOnly)
                && (attempts[k].call.name in c.tools.destructive ==> ConfirmId(c, attempts[k].call) in c.confirmed)
                && (TwoChanges(c, attempts) ==> BulkId(c, Calls(attempts)) in c.confirmed))
        case _ => executed == []
      }
  {
    EachTurnExecuted(c, Opening(history), 0, turns, i);
    hide Run, BatchExecuted, Handled, BulkId, ConfirmId, Calls;
    at := [];
    if turns[i].reply.Answer? {
      var attempts := turns[i].reply.attempts;
      BulkPendingIff(c, attempts);
      hide NeedsBulk, TwoChanges;
      if !NeedsBulk(c, attempts) {
        at := BatchSpots(c, attempts);
      }
    }
  }

  /** The same of one call: it is among the executed ones exactly if it passes every check. */
  lemma ExecutedIff(c: Config, history: seq<Message>, turns: seq<Turn>, i: nat, call: ToolCall)
    requires i < |WholeRun(c, history, turns).executed|
    ensures i < |turns|
    ensures call in WholeRun(c, history, turns).executed[i] <==>
      match turns[i].reply {
        case Answer(_, attempts, _, _) =>
          && (exists k :: 0 <= k < |attempts| && attempts[k].call == call && Reached(attempts, k))
          && call.name in c.tools.allowed
          && (c.readOnly ==> call.name in c.tools.readOnly)
          && (call.name in c.tools.destructive ==> ConfirmId(c, call) in c.confirmed)
          && (TwoChanges(c, attempts) ==> BulkId(c, Calls(attempts)) in c.confirmed)
        case _ => false
      }
  {
    var at := ExecutedExactly(c, history, turns, i);
    var executed := WholeRun(c, history, turns).executed[i];
    hide WholeRun, ConfirmId, BulkId, Calls, TwoChanges, Increasing;
    if turns[i].reply.Answer? {
      var attempts := turns[i].reply.attempts;
      if call in executed {
        var n :| 0 <= n < |executed| && executed[n] == call;
        assert at[n] in at && Reached(attempts, at[n]);
      }
      if k :| 0 <= k < |attempts| && attempts[k].call == call && Reached(attempts, k) {
        if k in at {
          var n :| 0 <= n < |at| && at[n] == k;
          assert executed[n] == call;
        }
      }
    }
  }

  /* ---------- confirmation IDs ---------- */

  ghost predicate Injective(c: Config) {
    forall a, b :: c.hash(a) == c.hash(b) ==> a == b
  }

  lemma FirstCutUnique(a: string, b: string, x: string, y: string, sep: char)
    requires a + [sep] + x == b + [sep] + y && sep !in a && sep !in b
    ensures a == b && x == y
  {
    var s := a + [sep] + x;
    assert s[|a|] == sep && s[|b|] == sep;
    assert forall k :: 0 <= k < |a| ==> s[k] == a[k];
    assert forall k :: 0 <= k < |b| ==> s[k] == b[k];
    assert |a| == |b|;
    assert a == s[..|a|] && b == s[..|b|];
    assert x == s[|a| + 1..] && y == s[|b| + 1..];
  }

  lemma SameTail(front: string, x: string, y: string)
    ensures front + x == front + y <==> x == y
  {
    assert (front + x)[|front|..] == x && (front + y)[|front|..] == y;
  }

  /** A confirmation of one call is one of that tool with those arguments, and no other. */
  lemma ConfirmIdTellsApart(c: Config, x: ToolCall, y: ToolCall)
    requires Injective(c) && ':' !in x.name && ':' !in y.name
    ensures ConfirmId(c, x) == ConfirmId(c, y) <==> x.name == y.name && c.normalize(x.args) == c.normalize(y.args)
  {
    var tx, ty := x.name + ":" + c.normalize(x.args), y.name + ":" + c.normalize(y.args);
    SameTail("confirm:", c.hash(tx), c.hash(ty));
    if tx == ty {
      FirstCutUnique(x.name, y.name, c.normalize(x.args), c.normalize(y.args), ':');
    }
  }

  /** It never counts as the confirmation of a whole reply. */
  lemma ConfirmIsNotBulk(c: Config, x: ToolCall, calls: seq<ToolCall>)
    ensures ConfirmId(c, x) != BulkId(c, calls)
  {
    hide BulkText;
    assert ConfirmId(c, x)[0] == 'c' && BulkId(c, calls)[0] == 'b';
  }

  /** Read-only and unknown calls, and the order of the others, do not matter to the bulk ID. */
  lemma OtherCallsDoNotMatter(c: Config, calls1: seq<ToolCall>, calls2: seq<ToolCall>)
    requires forall x :: Changes(c, x) ==> multiset(calls1)[x] == multiset(calls2)[x]
    ensures BulkId(c, calls1) == BulkId(c, calls2)
  {
    forall x: ToolCall
      ensures multiset(Changing(c, calls1))[x] == multiset(Changing(c, calls2))[x]
    {
      ChangingMultiset(c, calls1, x);
      ChangingMultiset(c, calls2, x);
    }
    hide Changing, BulkId;
    BulkIdCanonical(c, calls1, calls2);
  }

  /** The texts of the state-changing calls do matter. */
  lemma BulkIdTellsApart(c: Config, calls1: seq<ToolCall>, calls2: seq<ToolCall>)
    requires Injective(c) && SelfDelimiting(Parts(c, Changing(c, calls1)) + Parts(c, Changing(c, calls2)))
    ensures BulkId(c, calls1) == BulkId(c, calls2)
      <==> multiset(Parts(c, Changing(c, calls1))) == multiset(Parts(c, Changing(c, calls2)))
  {
    SameTail("bulk:", c.hash(BulkText(c, calls1)), c.hash(BulkText(c, calls2)));
    hide BulkText, Parts, Changing, SelfDelimiting;
    BulkTextTellsApart(c, calls1, calls2);
  }

  /* ---------- how many writes ---------- */

  /** The positions of the calls that are not read-only. */
  function WriteSpots(c: Config, calls: seq<ToolCall>): set<int> {
    set i | 0 <= i < |calls| && calls[i].name !in c.tools.readOnly
  }

  lemma {:induction false} WritesCounted(c: Config, calls: seq<ToolCall>)
    ensures Writes(c, calls) == |WriteSpots(c, calls)|
  {
    if calls == [] {
      assert WriteSpots(c, calls) == {};
    } else {
      var front, last := calls[..|calls| - 1], calls[|calls| - 1];
      WritesCounted(c, front);
      assert calls == front + [last];
      WritesConcat(c, front, [last]);
      assert Writes(c, [last]) == if last.name in c.tools.readOnly then 0 else 1;
      assert forall k :: 0 <= k < |front| ==> calls[k] == front[k];
      hide Writes;
      var more: set<int> := if last.name in c.tools.readOnly then {} else {|front|};
      assert WriteSpots(c, calls) == WriteSpots(c, front) + more;
    }
  }

  /* ---------- when a run ends ---------- */

  /** The reply waits for the confirmation of all its calls together. */
  predicate BulkPending(c: Config, attempts: seq<Attempt>) {
    TwoChanges(c, attempts) && BulkId(c, Calls(attempts)) !in c.confirmed
  }

  predicate ClientLeft(attempts: seq<Attempt>) {
    exists k :: 0 <= k < |attempts| && attempts[k].cancelled
  }

  /** 50 writes have been made, and no client left and no confirmation is waited for. */
  predicate UsedUp(c: Config, reply: Reply, writes: nat) {
    && reply.Answer? && reply.attempts != [] && !BulkPending(c, reply.attempts)
    && !ClientLeft(reply.attempts) && writes >= 50
  }

  /** Is this the last turn, when `writes` calls that are not read-only have been executed? */
  predicate EndsHere(c: Config, reply: Reply, writes: nat) {
    || !reply.Answer? || reply.attempts == []
    || (!BulkPending(c, reply.attempts) && (ClientLeft(reply.attempts) || writes >= 50))
  }

  lemma {:induction false} LeftIff(attempts: seq<Attempt>)
    ensures |Handled(attempts)| < |attempts| <==> ClientLeft(attempts)
    ensures |Handled(attempts)| <= |attempts|
  {
    if attempts != [] {
      LeftIff(attempts[1..]);
      if k :| 0 <= k < |attempts[1..]| && attempts[1..][k].cancelled {
        assert attempts[k + 1].cancelled;
      }
      if k :| 0 < k < |attempts| && attempts[k].cancelled {
        assert attempts[1..][k - 1].cancelled;
      }
    }
  }

  lemma StopsIff(c: Config, writes: nat, reply: Reply)
    ensures Stops(c, writes, reply) <==> EndsHere(c, reply, writes + Writes(c, TurnExecuted(c, reply)))
    ensures OverBudget(c, writes, reply) <==> UsedUp(c, reply, writes + Writes(c, TurnExecuted(c, reply)))
  {
    if reply.Answer? {
      BulkPendingIff(c, reply.attempts);
      LeftIff(reply.attempts);
      hide NeedsBulk, TwoChanges, BulkId, ClientLeft, Handled, Writes, TurnExecuted;
    }
  }

  lemma TotalCons(c: Config, first: seq<ToolCall>, later: seq<seq<ToolCall>>, n: nat)
    requires n <= |later|
    ensures TotalWrites(c, ([first] + later)[..n + 1]) == Writes(c, first) + TotalWrites(c, later[..n])
  {
    assert ([first] + later)[..n + 1][1..] == later[..n];
  }

  /** The last of the executed turns, and none before it, ends the run; only the end of the
      turns can come first. */
  ghost predicate EndsProperly(c: Config, turns: seq<Turn>, executed: seq<seq<ToolCall>>, writes: nat) {
    && |executed| <= |turns|
    && (forall i :: 0 <= i < |executed| - 1 ==>
          !EndsHere(c, turns[i].reply, writes + TotalWrites(c, executed[..i + 1])))
    && (|executed| < |turns| ==>
          |executed| > 0 && EndsHere(c, turns[|executed| - 1].reply, writes + TotalWrites(c, executed)))
  }

  lemma EndsNow(c: Config, turns: seq<Turn>, first: seq<ToolCall>, writes: nat)
    requires turns != [] && EndsHere(c, turns[0].reply, writes + Writes(c, first))
    ensures EndsProperly(c, turns, [first], writes)
  {
    hide EndsHere, Writes;
    assert [first][1..] == [];
    assert TotalWrites(c, [first]) == Writes(c, first) + TotalWrites(c, [first][1..]);
  }

  lemma EndsOneLater(c: Config, turns: seq<Turn>, first: seq<ToolCall>, later: seq<seq<ToolCall>>, writes: nat)
    requires turns != [] && !EndsHere(c, turns[0].reply, writes + Writes(c, first))
    requires EndsProperly(c, turns[1..], later, writes + Writes(c, first))
    ensures EndsProperly(c, turns, [first] + later, writes)
  {
    hide EndsHere, Writes;
    var executed := [first] + later;
    forall i | 0 <= i < |executed| - 1
      ensures !EndsHere(c, turns[i].reply, writes + TotalWrites(c, executed[..i + 1]))
    {
      TotalCons(c, first, later, i);
      if i == 0 {
        assert later[..0] == [];
      } else {
        assert turns[i] == turns[1..][i - 1];
        assert later[..i] == later[..i - 1 + 1];
      }
    }
    TotalCons(c, first, later, |later|);
    assert executed[..|later| + 1] == executed && later[..|later|] == later;
  }

  lemma {:induction false} EndsFrom(c: Config, ms: seq<Message>, writes: nat, turns: seq<Turn>)
    requires |ms| >= 1
    ensures EndsProperly(c, turns, Run(c, ms, writes, turns).executed, writes)
    decreases |turns|
  {
    hide *;
    if turns == [] {
      NoTurns(c, ms, writes);
      NoEnd(c, writes);
    } else {
      var reply := turns[0].reply;
      var first := TurnExecuted(c, reply);
      RunExecuted(c, ms, writes, turns);
      StopsIff(c, writes, reply);
      GoesOnAfter(c, writes, reply);
      if Stops(c, writes, reply) {
        assert [first] + [] == [first];
        EndsNow(c, turns, first, writes);
      } else {
        var next, total := Continued(c, ms, turns[0]), WritesAfter(c, writes, reply);
        EndsFrom(c, next, total, turns[1..]);
        EndsOneLater(c, turns, first, Run(c, next, total, turns[1..]).executed, writes);
      }
    }
  }

  lemma NoEnd(c: Config, writes: nat)
    ensures EndsProperly(c, [], [], writes)
  {
  }

  /** A run goes on exactly until a turn ends it: no answer, an answer without tool calls, a
      client that left, or 50 writes made (which a reply that waits for confirmation does not
      check). */
  lemma RunEnds(c: Config, history: seq<Message>, turns: seq<Turn>)
    ensures EndsProperly(c, turns, WholeRun(c, history, turns).executed, 0)
  {
    hide Run, EndsProperly;
    EndsFrom(c, Opening(history), 0, turns);
  }

  /* ---------- what the model is told ---------- */

  /** The tool message for a call: the tool's whole result if it ran, else why it did not. */
  function Told(c: Config, attempts: seq<Attempt>, a: Attempt): string {
    if BulkPending(c, attempts) then PENDING_BULK
    else if a.call.name !in c.tools.allowed then "{\"error\":\"" + ("Unknown tool: " + a.call.name) + "\"}"
    else if c.readOnly && a.call.name !in c.tools.readOnly then "{\"error\":\"" + BLOCKED + "\"}"
    else if a.call.name in c.tools.destructive && ConfirmId(c, a.call) !in c.confirmed then PENDING_ONE
    else a.result
  }

  lemma AnswerTold(c: Config, attempts: seq<Attempt>, k: nat)
    requires k < |attempts| && !Halts(c, Answer("", attempts, Usage(0, 0, 0), None))
    ensures k < |ToolMessages(c, attempts)|
    ensures ToolMessages(c, attempts)[k]
         == Message("tool", Told(c, attempts, attempts[k]), [], attempts[k].call.id)
  {
    BulkPendingIff(c, attempts);
    hide BulkId, TwoChanges, ConfirmId;
    if !NeedsBulk(c, attempts) {
      HandledIsPrefix(attempts);
      assert Handled(attempts)[k] == attempts[k];
      AnsweredTold(c, attempts, attempts[k]);
    }
    hide Answered, NeedsBulk, Handled;
  }

  lemma AnsweredTold(c: Config, attempts: seq<Attempt>, a: Attempt)
    requires !BulkPending(c, attempts)
    ensures Answered(c, a) == Message("tool", Told(c, attempts, a), [], a.call.id)
  {
    hide BulkPending, ConfirmId;
  }

  /** What is shown of a conversation: all of it up to 50 messages, else the first and the 49
      most recent; the first with the fresh system prompt. */
  predicate ShowsNewest(shown: seq<Message>, ms: seq<Message>, prompt: string) {
    && |ms| >= 1 && |shown| == (if |ms| <= 50 then |ms| else 50)
    && shown[0] == ms[0].(content := prompt)
    && forall k :: 1 <= k < |shown| ==> shown[k] == ms[|ms| - |shown| + k]
  }

  lemma ShownIsNewest(ms: seq<Message>, prompt: string)
    requires |ms| >= 1
    ensures ShowsNewest(Shown(ms, prompt), ms, prompt)
  {
  }

  lemma NotHalted(c: Config, history: seq<Message>, turns: seq<Turn>, i: nat)
    requires i + 1 < |WholeRun(c, history, turns).asked|
    ensures i < |turns| && turns[i].reply.Answer? && !Halts(c, turns[i].reply)
  {
    GoesOn(c, Opening(history), 0, turns, i);
  }

  lemma {:induction false} GoesOn(c: Config, ms: seq<Message>, writes: nat, turns: seq<Turn>, i: nat)
    requires |ms| >= 1 && i + 1 < |Run(c, ms, writes, turns).asked|
    ensures i < |turns| && turns[i].reply.Answer? && !Halts(c, turns[i].reply)
    decreases |turns|
  {
    var t := turns[0];
    assert |Pass(c, ms, writes, t).asked| <= 1;
    hide Pass, Halts, OverBudget, Continued, WritesAfter;
    assert !Stops(c, writes, t.reply);
    if i > 0 {
      GoesOn(c, Continued(c, ms, t), WritesAfter(c, writes, t.reply), turns[1..], i - 1);
    }
  }

  /** The request after a reply is the conversation with the reply and one tool message for
      each of its calls, in order; each says what became of its call. */
  lemma ModelIsTold(c: Config, history: seq<Message>, turns: seq<Turn>, i: nat) returns (answers: seq<Message>)
    requires i + 1 < |WholeRun(c, history, turns).asked|
    ensures |WholeRun(c, history, turns).asked| <= |turns| && turns[i].reply.Answer?
    ensures
      var asked, attempts := WholeRun(c, history, turns).asked, turns[i].reply.attempts;
      && |answers| == |attempts|
      && (forall k :: 0 <= k < |attempts| ==>
            answers[k] == Message("tool", Told(c, attempts, attempts[k]), [], attempts[k].call.id))
      && ShowsNewest(asked[i + 1],
           asked[i] + [Message("assistant", turns[i].reply.content, Calls(attempts), "")] + answers, turns[i + 1].prompt)
  {
    UntrimmedShown(c, history, turns, i + 1);
    NotHalted(c, history, turns, i);
    var asked, reply := WholeRun(c, history, turns).asked, turns[i].reply;
    hide WholeRun, BulkId, TwoChanges, ConfirmId, Told, Shown, ShowsNewest, ToolMessages;
    answers := ToolMessages(c, reply.attempts);
    ShownIsNewest(Untrimmed(c, history, turns, asked, i + 1), turns[i + 1].prompt);
    forall k | 0 <= k < |reply.attempts|
      ensures answers[k] == Message("tool", Told(c, reply.attempts, reply.attempts[k]), [], reply.attempts[k].call.id)
    {
      AnswerTold(c, reply.attempts, k);
    }
  }

  /* ---------- what the user is shown ---------- */

  /** What follows the last turn's events: the error that the writes are used up, if they are. */
  function Limit(c: Config, reply: Reply, writes: nat): seq<Event> {
    if UsedUp(c, reply, writes) then [Error(LIMIT_REACHED)] else []
  }

  ghost predicate InStream(c: Config, turns: seq<Turn>, events: seq<Event>, executed: seq<seq<ToolCall>>, writes: nat,
      i: nat, before: seq<Event>, after: seq<Event>)
  {
    && i < |executed| <= |turns| && events == before + TurnEvents(c, turns[i].reply) + after
    && (i == |executed| - 1 ==> after == Limit(c, turns[i].reply, writes + TotalWrites(c, executed)))
  }

  lemma StreamNow(c: Config, turns: seq<Turn>, first: seq<ToolCall>, writes: nat)
    requires turns != []
    ensures
      var after := Limit(c, turns[0].reply, writes + Writes(c, first));
      InStream(c, turns, TurnEvents(c, turns[0].reply) + after, [first], writes, 0, [], after)
  {
    hide TurnEvents, Limit, Writes;
    assert [first][1..] == [];
    assert TotalWrites(c, [first]) == Writes(c, first) + TotalWrites(c, [first][1..]);
    assert [] + TurnEvents(c, turns[0].reply) == TurnEvents(c, turns[0].reply);
  }

  lemma StreamFirst(c: Config, turns: seq<Turn>, first: seq<ToolCall>, events: seq<Event>,
      executed: seq<seq<ToolCall>>, writes: nat)
    requires turns != [] && |executed| < |turns| && (executed == [] ==> events == [])
    requires !EndsHere(c, turns[0].reply, writes + Writes(c, first))
    ensures InStream(c, turns, TurnEvents(c, turns[0].reply) + events, [first] + executed, writes, 0, [], events)
  {
    assert !UsedUp(c, turns[0].reply, writes + Writes(c, first));
    hide TurnEvents, UsedUp, Writes, EndsHere;
    assert [first][1..] == [];
    assert TotalWrites(c, [first]) == Writes(c, first) + TotalWrites(c, [first][1..]);
    assert [] + TurnEvents(c, turns[0].reply) == TurnEvents(c, turns[0].reply);
    assert executed == [] ==> [first] + executed == [first];
  }

  lemma StreamLater(c: Config, turns: seq<Turn>, first: seq<ToolCall>, events: seq<Event>,
      executed: seq<seq<ToolCall>>, writes: nat, i: nat, before: seq<Event>, after: seq<Event>)
    requires turns != [] && InStream(c, turns[1..], events, executed, writes + Writes(c, first), i, before, after)
    ensures
      var now := TurnEvents(c, turns[0].reply);
      InStream(c, turns, now + events, [first] + executed, writes, i + 1, now + before, after)
  {
    hide TurnEvents, Limit, Writes;
    var now := TurnEvents(c, turns[0].reply);
    assert now + (before + TurnEvents(c, turns[1..][i].reply) + after)
        == now + before + TurnEvents(c, turns[1..][i].reply) + after;
    TotalCons(c, first, executed, |executed|);
    assert ([first] + executed)[..|executed| + 1] == [first] + executed && executed[..|executed|] == executed;
  }

  lemma RunEvents(c: Config, ms: seq<Message>, writes: nat, turns: seq<Turn>)
    requires |ms| >= 1 && turns != []
    ensures
      var t := turns[0];
      Run(c, ms, writes, turns).events == TurnEvents(c, t.reply) +
        if Stops(c, writes, t.reply) then Limit(c, t.reply, writes + Writes(c, TurnExecuted(c, t.reply)))
        else Run(c, Continued(c, ms, t), WritesAfter(c, writes, t.reply), turns[1..]).events
  {
    hide *;
    PassTold(c, ms, writes, turns[0]);
    EventsUnfold(c, ms, writes, turns);
    var now := TurnEvents(c, turns[0].reply);
    var limit := Limit(c, turns[0].reply, writes + Writes(c, TurnExecuted(c, turns[0].reply)));
    assert now + limit + [] == now + limit && now + [] == now;
  }

  lemma EventsUnfold(c: Config, ms: seq<Message>, writes: nat, turns: seq<Turn>)
    requires |ms| >= 1 && turns != []
    ensures
      var t := turns[0];
      Run(c, ms, writes, turns).events == Pass(c, ms, writes, t).events +
        if Stops(c, writes, t.reply) then []
        else Run(c, Continued(c, ms, t), WritesAfter(c, writes, t.reply), turns[1..]).events
  {
    hide Pass, Stops, Continued, WritesAfter, OverBudget;
    assert Stops(c, writes, turns[0].reply) ==> Run(c, ms, writes, turns).events + [] == Run(c, ms, writes, turns).events;
  }

  lemma NothingExecuted(c: Config, ms: seq<Message>, writes: nat, turns: seq<Turn>)
    requires |ms| >= 1 && Run(c, ms, writes, turns).executed == []
    ensures Run(c, ms, writes, turns).events == []
  {
    if turns != [] {
      RunExecuted(c, ms, writes, turns);
    }
  }

  lemma RunStep(c: Config, ms: seq<Message>, writes: nat, turns: seq<Turn>)
    requires |ms| >= 1 && Run(c, ms, writes, turns).executed != []
    ensures turns != []
    ensures
      var t, o := turns[0], Run(c, ms, writes, turns);
      var first, now := TurnExecuted(c, t.reply), TurnEvents(c, t.reply);
      if EndsHere(c, t.reply, writes + Writes(c, first)) then
        o.executed == [first] && o.events == now + Limit(c, t.reply, writes + Writes(c, first))
      else
        t.reply.Answer? &&
        var later := Run(c, Continued(c, ms, t), writes + Writes(c, first), turns[1..]);
        && o.executed == [first] + later.executed && o.events == now + later.events
        && |later.executed| < |turns| && (later.executed == [] ==> later.events == [])
  {
    hide *;
    NoTurns(c, ms, writes);
    var t := turns[0];
    RunExecuted(c, ms, writes, turns);
    RunEvents(c, ms, writes, turns);
    StopsIff(c, writes, t.reply);
    GoesOnAfter(c, writes, t.reply);
    var first := TurnExecuted(c, t.reply);
    if EndsHere(c, t.reply, writes + Writes(c, first)) {
      assert [first] + [] == [first];
    } else {
      ExecutedFits(c, Continued(c, ms, t), writes + Writes(c, first), turns[1..]);
    }
  }

  lemma NoTurns(c: Config, ms: seq<Message>, writes: nat)
    requires |ms| >= 1
    ensures Run(c, ms, writes, []) == NOTHING && NOTHING.executed == []
  {
  }

  lemma GoesOnAfter(c: Config, writes: nat, reply: Reply)
    ensures WritesAfter(c, writes, reply) == writes + Writes(c, TurnExecuted(c, reply))
    ensures !Stops(c, writes, reply) ==> reply.Answer?
  {
    hide OverBudget, TurnExecuted, Writes;
  }

  lemma ExecutedFits(c: Config, ms: seq<Message>, writes: nat, turns: seq<Turn>)
    requires |ms| >= 1
    ensures |Run(c, ms, writes, turns).executed| <= |turns|
    ensures Run(c, ms, writes, turns).executed == [] ==> Run(c, ms, writes, turns).events == []
  {
    hide Run;
    EndsFrom(c, ms, writes, turns);
    if Run(c, ms, writes, turns).executed == [] {
      NothingExecuted(c, ms, writes, turns);
    }
  }

  lemma {:induction false} TurnInStream(c: Config, ms: seq<Message>, writes: nat, turns: seq<Turn>, i: nat)
    returns (before: seq<Event>, after: seq<Event>)
    requires |ms| >= 1 && i < |Run(c, ms, writes, turns).executed|
    ensures var o := Run(c, ms, writes, turns); InStream(c, turns, o.events, o.executed, writes, i, before, after)
    decreases |turns|
  {
    hide *;
    RunStep(c, ms, writes, turns);
    var t := turns[0];
    var first := TurnExecuted(c, t.reply);
    if EndsHere(c, t.reply, writes + Writes(c, first)) {
      StreamNow(c, turns, first, writes);
      before, after := [], Limit(c, t.reply, writes + Writes(c, first));
    } else {
      var total := writes + Writes(c, first);
      var later := Run(c, Continued(c, ms, t), total, turns[1..]);
      if i == 0 {
        StreamFirst(c, turns, first, later.events, later.executed, writes);
        before, after := [], later.events;
      } else {
        before, after := TurnInStream(c, Continued(c, ms, t), total, turns[1..], i - 1);
        StreamLater(c, turns, first, later.events, later.executed, writes, i - 1, before, after);
        before := TurnEvents(c, t.reply) + before;
      }
    }
  }

  lemma PassTold(c: Config, ms: seq<Message>, writes: nat, t: Turn)
    requires |ms| >= 1
    ensures
      var limit := Limit(c, t.reply, writes + Writes(c, TurnExecuted(c, t.reply)));
      && Pass(c, ms, writes, t).events == TurnEvents(c, t.reply) + limit
      && (!Stops(c, writes, t.reply) ==> limit == [])
  {
    StopsIff(c, writes, t.reply);
    assert OverBudget(c, writes, t.reply) ==> Stops(c, writes, t.reply);
    hide OverBudget, TurnEvents, Stops, UsedUp, EndsHere, TurnExecuted, Writes;
  }

  /** The events for one call: its start and its end, and what the tool printed if it ran. */
  predicate ShownFor(c: Config, a: Attempt, piece: seq<Event>) {
    var name, start := a.call.name, ToolStart(a.call.name, a.call.args);
    if name !in c.tools.allowed then piece == [start, ToolDone(name, "Unknown tool: " + name)]
    else if c.readOnly && name !in c.tools.readOnly then piece == [start, ToolDone(name, BLOCKED)]
    else if name in c.tools.destructive && ConfirmId(c, a.call) !in c.confirmed then
      piece == [start, ConfirmRequired(name, a.call.args, ConfirmId(c, a.call), c.describe(a.call))]
    else
      && |piece| == |a.progress| + 2 && piece[0] == start
      && (forall k :: 0 <= k < |a.progress| ==> piece[k + 1] == ToolProgress(name, a.progress[k]))
      && piece[|a.progress| + 1] == ToolDone(name, if |a.result| <= 2000 then a.result else a.result[..2000] + "...")
  }

  lemma PieceOfCall(c: Config, a: Attempt)
    ensures ShownFor(c, a, [ToolStart(a.call.name, a.call.args)] + Closing(c, a))
  {
    hide ConfirmId;
  }

  /** A stretch of a stretch. */
  lemma Inside<T>(b: seq<T>, x: seq<T>, a: seq<T>, l: seq<T>, m: seq<T>, r: seq<T>)
    requires x == l + m + r
    ensures b + x + a == (b + l) + m + (r + a)
  {
  }

  lemma BatchUnfolds(c: Config, attempts: seq<Attempt>)
    requires attempts != [] && !attempts[0].cancelled
    ensures
      var a := attempts[0];
      BatchEvents(c, Handled(attempts))
        == [ToolStart(a.call.name, a.call.args)] + Closing(c, a) + BatchEvents(c, Handled(attempts[1..]))
  {
    hide Closing;
    assert Handled(attempts)[1..] == Handled(attempts[1..]);
  }

  lemma {:induction false} PieceInBatch(c: Config, attempts: seq<Attempt>, k: nat)
    returns (before: seq<Event>, piece: seq<Event>, after: seq<Event>)
    requires Reached(attempts, k)
    ensures BatchEvents(c, Handled(attempts)) == before + piece + after && ShownFor(c, attempts[k], piece)
  {
    ReachedLater(attempts, k);
    hide ShownFor, Closing, BatchEvents, Handled, Reached;
    var first := [ToolStart(attempts[0].call.name, attempts[0].call.args)] + Closing(c, attempts[0]);
    var later := BatchEvents(c, Handled(attempts[1..]));
    BatchUnfolds(c, attempts);
    if k == 0 {
      PieceOfCall(c, attempts[0]);
      before, piece, after := [], first, later;
      assert [] + first == first;
    } else {
      before, piece, after := PieceInBatch(c, attempts[1..], k - 1);
      Inside(first, later, [], before, piece, after);
      assert first + later + [] == first + later && after + [] == after;
      before := first + before;
    }
  }

  /** The events of a turn in the whole stream, Done included. */
  lemma TurnInWhole(c: Config, history: seq<Message>, turns: seq<Turn>, i: nat)
    returns (before: seq<Event>, after: seq<Event>)
    requires i < |WholeRun(c, history, turns).executed|
    ensures i < |turns| && WholeRun(c, history, turns).events == before + TurnEvents(c, turns[i].reply) + after
  {
    var o := Run(c, Opening(history), 0, turns);
    hide Run, TurnEvents, Limit, Opening;
    var a;
    before, a := TurnInStream(c, Opening(history), 0, turns, i);
    after := a + [Done(o.usage)];
    var now := TurnEvents(c, turns[i].reply);
    assert before + now + a + [Done(o.usage)] == before + now + (a + [Done(o.usage)]);
  }

  /** The parts of a turn with tool calls. */
  lemma TurnParts(c: Config, reply: Reply)
    requires reply.Answer? && reply.attempts != []
    ensures
      var calls := Calls(reply.attempts);
      TurnEvents(c, reply) == Lead(reply.content) +
        if BulkPending(c, reply.attempts) then [ConfirmRequired(BULK_NAME, "", BulkId(c, calls), c.describeBulk(calls))]
        else BatchEvents(c, Handled(reply.attempts))
  {
    BulkPendingIff(c, reply.attempts);
    hide NeedsBulk, TwoChanges, BatchEvents, Handled, Lead, BulkId, Calls;
  }

  /** Every call that is reached, in a reply that does not wait for confirmation, is shown. */
  lemma CallIsShown(c: Config, history: seq<Message>, turns: seq<Turn>, i: nat, k: nat)
    returns (before: seq<Event>, piece: seq<Event>, after: seq<Event>)
    requires i < |WholeRun(c, history, turns).executed| && i < |turns|
    requires turns[i].reply.Answer? && !BulkPending(c, turns[i].reply.attempts) && Reached(turns[i].reply.attempts, k)
    ensures WholeRun(c, history, turns).events == before + piece + after
    ensures ShownFor(c, turns[i].reply.attempts[k], piece)
  {
    hide WholeRun, TurnEvents, BatchEvents, ShownFor, Lead, BulkPending, Handled;
    var reply := turns[i].reply;
    var b, a := TurnInWhole(c, history, turns, i);
    TurnParts(c, reply);
    before, piece, after := PieceInBatch(c, reply.attempts, k);
    var lead := Lead(reply.content);
    assert lead + (before + piece + after) == (lead + before) + piece + after;
    Inside(b, TurnEvents(c, reply), a, lead + before, piece, after);
    before, after := b + (lead + before), after + a;
  }

  /** A reply that waits for confirmation shows the one request for it, after its text. */
  lemma BulkIsAsked(c: Config, history: seq<Message>, turns: seq<Turn>, i: nat)
    returns (before: seq<Event>, after: seq<Event>)
    requires i < |WholeRun(c, history, turns).executed| && i < |turns|
    requires turns[i].reply.Answer? && BulkPending(c, turns[i].reply.attempts)
    ensures
      var calls := Calls(turns[i].reply.attempts);
      WholeRun(c, history, turns).events
        == before + [ConfirmRequired(BULK_NAME, "", BulkId(c, calls), c.describeBulk(calls))] + after
  {
    var reply := turns[i].reply;
    assert reply.attempts != [];
    hide WholeRun, TurnEvents, Lead, BulkPending, BulkId, Calls;
    var b, a := TurnInWhole(c, history, turns, i);
    TurnParts(c, reply);
    var calls, lead := Calls(reply.attempts), Lead(reply.content);
    var ask := [ConfirmRequired(BULK_NAME, "", BulkId(c, calls), c.describeBulk(calls))];
    assert lead + ask + [] == lead + ask;
    Inside(b, TurnEvents(c, reply), a, lead, ask, []);
    before, after := b + lead, [] + a;
  }

  /** The text beside tool calls is shown before them, without surrounding blanks. */
  lemma TextIsShown(c: Config, history: seq<Message>, turns: seq<Turn>, i: nat)
    returns (before: seq<Event>, after: seq<Event>)
    requires i < |WholeRun(c, history, turns).executed| && i < |turns|
    requires turns[i].reply.Answer? && turns[i].reply.attempts != [] && TrimSpace(turns[i].reply.content) != ""
    ensures WholeRun(c, history, turns).events
         == before + [Token(TrimSpace(turns[i].reply.content) + "\n")] + after
  {
    hide *;
    var reply := turns[i].reply;
    var b, a := TurnInWhole(c, history, turns, i);
    var rest := LeadFirst(c, reply);
    var lead := [Token(TrimSpace(reply.content) + "\n")];
    assert [] + lead + rest == lead + rest;
    Inside(b, TurnEvents(c, reply), a, [], lead, rest);
    before, after := b + [], rest + a;
  }

  lemma LeadFirst(c: Config, reply: Reply) returns (rest: seq<Event>)
    requires reply.Answer? && reply.attempts != [] && TrimSpace(reply.content) != ""
    ensures TurnEvents(c, reply) == [Token(TrimSpace(reply.content) + "\n")] + rest
  {
    TurnParts(c, reply);
    hide TurnEvents, TrimSpace, BulkPending, BatchEvents, Handled, BulkId, Calls;
    var calls := Calls(reply.attempts);
    rest := if BulkPending(c, reply.attempts) then [ConfirmRequired(BULK_NAME, "", BulkId(c, calls), c.describeBulk(calls))]
      else BatchEvents(c, Handled(reply.attempts));
  }

  /** The final answer: the streamed tokens, else the reply's text, else an apology. */
  predicate FinalText(reply: Reply, shown: seq<Event>)
    requires reply.Answer?
  {
    if reply.content == "" then shown == [Token(FALLBACK)]
    else
      match reply.stream
      case None => shown == [Token(reply.content)]
      case Some(tokens) =>
        if |tokens| == 0 then shown == [Token(reply.content)]
        else |shown| == |tokens| && forall k :: 0 <= k < |tokens| ==> shown[k] == Token(tokens[k])
  }

  /** A reply without tool calls is the last thing shown. */
  lemma FinalAnswer(c: Config, history: seq<Message>, turns: seq<Turn>) returns (before: seq<Event>, shown: seq<Event>)
    requires
      var n := |WholeRun(c, history, turns).executed|;
      0 < n <= |turns| && turns[n - 1].reply.Answer? && turns[n - 1].reply.attempts == []
    ensures
      var o := WholeRun(c, history, turns);
      && o.events == before + shown + [Done(o.usage)]
      && FinalText(turns[|o.executed| - 1].reply, shown)
  {
    var o := Run(c, Opening(history), 0, turns);
    var reply := turns[|o.executed| - 1].reply;
    var b, a := TurnInStream(c, Opening(history), 0, turns, |o.executed| - 1);
    assert a == [];
    shown := FinalEvents(reply.content, reply.stream);
    assert TurnEvents(c, reply) == shown;
    hide Run, TurnEvents;
    assert b + shown + [] == b + shown;
    before := b;
  }

  /** A run that ends for any other reason ends with its error, or without one. */
  lemma LastWords(c: Config, history: seq<Message>, turns: seq<Turn>) returns (before: seq<Event>)
    requires var n := |WholeRun(c, history, turns).executed|; 0 < n <= |turns|
    ensures
      var o := WholeRun(c, history, turns);
      var reply := turns[|o.executed| - 1].reply;
      && (reply.Failed? ==> o.events == before + [Error("LLM error: " + reply.error)] + [Done(o.usage)])
      && (UsedUp(c, reply, TotalWrites(c, o.executed)) ==> o.events == before + [Error(LIMIT_REACHED)] + [Done(o.usage)])
  {
    var o := Run(c, Opening(history), 0, turns);
    var reply := turns[|o.executed| - 1].reply;
    var b, a := TurnInStream(c, Opening(history), 0, turns, |o.executed| - 1);
    assert o.events == b + TurnEvents(c, reply) + a && a == Limit(c, reply, TotalWrites(c, o.executed));
    before := if reply.Failed? then b else b + TurnEvents(c, reply);
    assert reply.Failed? ==> TurnEvents(c, reply) == [Error("LLM error: " + reply.error)] && a == [];
    hide Run, TurnEvents, UsedUp, TotalWrites;
    assert reply.Failed? ==> b + [Error("LLM error: " + reply.error)] + [] == b + [Error("LLM error: " + reply.error)];
  }

  /* ---------- usage ---------- */

  /** One component of the usage, added up over the turns; a cancelled turn has none. */
  function Spent(turns: seq<Turn>, of: Usage -> int): int {
    if turns == [] then 0
    else
      (match turns[0].reply
       case Cancelled => 0
       case Failed(_, usage) => of(usage)
       case Answer(_, _, usage, _) => of(usage)) + Spent(turns[1..], of)
  }

  lemma {:induction false} TotalIsSpent(turns: seq<Turn>)
    ensures TotalUsage(turns).prompt == Spent(turns, (u: Usage) => u.prompt)
    ensures TotalUsage(turns).completion == Spent(turns, (u: Usage) => u.completion)
    ensures TotalUsage(turns).total == Spent(turns, (u: Usage) => u.total)
  {
    if turns != [] {
      TotalIsSpent(turns[1..]);
    }
  }

  /** The usage reported with Done is, component by component, that of the turns taken. */
  lemma UsageIsSpent(c: Config, history: seq<Message>, turns: seq<Turn>)
    ensures
      var o := WholeRun(c, history, turns);
      && |o.executed| <= |turns|
      && var taken := turns[..|o.executed|];
      && o.usage.prompt == Spent(taken, (u: Usage) => u.prompt)
      && o.usage.completion == Spent(taken, (u: Usage) => u.completion)
      && o.usage.total == Spent(taken, (u: Usage) => u.total)
      && |o.events| > 0 && o.events[|o.events| - 1] == Done(o.usage)
  {
    UsageIsTotal(c, Opening(history), 0, turns);
    hide Run, TotalUsage, Spent;
    TotalIsSpent(turns[..|WholeRun(c, history, turns).executed|]);
  }
}
