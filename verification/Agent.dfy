/** The LLM agent loop of internal/api/llm_agent.go.  The model, the user's disconnection and
    the tools are adversaries: a run is driven by a list of turns that says, for each pass of
    the loop, what they do.  Any list is allowed, so whatever is proved holds of every run. */
module Agent {
  import opened Text
  import opened LlmTools

  const MAX_AGENT_ITERATIONS: nat := 50
  const MAX_CONVERSATION_MESSAGES: nat := 50

  datatype ToolCall = ToolCall(id: string, name: string, args: string)

  datatype Message = Message(role: string, content: string, calls: seq<ToolCall>, callId: string)

  datatype Usage = Usage(prompt: int, completion: int, total: int)

  datatype Event =
    | Token(text: string)
    | ToolStart(name: string, args: string)
    | ToolProgress(name: string, line: string)
    | ToolDone(name: string, result: string)
    | ConfirmRequired(name: string, args: string, confirmId: string, description: string)
    | Error(text: string)
    | Done(usage: Usage)

  /** A tool call of a reply, with what happens around it: the client may be gone before it
      starts; if it runs, these progress lines and this result come of it. */
  datatype Attempt = Attempt(call: ToolCall, cancelled: bool, progress: seq<string>, result: string)

  /** stream: the tokens of the second, streamed request for a final answer, if it succeeds. */
  datatype Reply =
    | Cancelled
    | Failed(error: string, usage: Usage)
    | Answer(content: string, attempts: seq<Attempt>, usage: Usage, stream: Option<seq<string>>)

  /** One pass of the loop; the system prompt is rebuilt for each. */
  datatype Turn = Turn(prompt: string, reply: Reply)

  /** The confirmed IDs are those the user supplied; hash, normalize and the descriptions are
      library code or presentation. */
  datatype Config = Config(tools: Tools, readOnly: bool, confirmed: set<string>,
                           hash: string -> string, normalize: string -> string,
                           describe: ToolCall -> string, describeBulk: seq<ToolCall> -> string)

  const FALLBACK := "I encountered an issue processing that request. Please try again or start a new conversation if the context has grown too large."
  const BLOCKED := "Action blocked: chat is in read-only mode"
  const LIMIT_REACHED := "Safety limit reached (50 write operations)"
  const PENDING_BULK := "{\"status\":\"pending_confirmation\",\"message\":\"Waiting for user to confirm this bulk operation.\"}"
  const PENDING_ONE := "{\"status\":\"pending_confirmation\",\"message\":\"Waiting for user to confirm this destructive action.\"}"
  const BULK_NAME := "bulk_operation"

  /* ---------- confirmation IDs ---------- */

  function ConfirmId(c: Config, call: ToolCall): string {
    "confirm:" + c.hash(call.name + ":" + c.normalize(call.args))
  }

  predicate StateChanging(c: Config, call: ToolCall) {
    call.name in c.tools.allowed && call.name !in c.tools.readOnly
  }

  function Part(c: Config, call: ToolCall): string {
    call.name + ":" + c.normalize(call.args)
  }

  /** The state-changing calls, in order. */
  function Changing(c: Config, calls: seq<ToolCall>): seq<ToolCall> {
    if calls == [] then []
    else
      var front, last := calls[..|calls| - 1], calls[|calls| - 1];
      if StateChanging(c, last) then Changing(c, front) + [last] else Changing(c, front)
  }

  function Parts(c: Config, calls: seq<ToolCall>): (parts: seq<string>)
    ensures |parts| == |calls|
  {
    seq(|calls|, i requires 0 <= i < |calls| => Part(c, calls[i]))
  }

  /** Byte-wise order of strings. */
  predicate Le(a: string, b: string) {
    a == "" || (b != "" && (a[0] < b[0] || (a[0] == b[0] && Le(a[1..], b[1..]))))
  }

  predicate Ordered(s: seq<string>) {
    forall i, j :: 0 <= i < j < |s| ==> Le(s[i], s[j])
  }

  lemma {:induction false} LeTotal(a: string, b: string)
    ensures Le(a, b) || Le(b, a)
  {
    if a != "" && b != "" && a[0] == b[0] {
      LeTotal(a[1..], b[1..]);
    }
  }

  lemma {:induction false} LeTransitive(a: string, b: string, d: string)
    requires Le(a, b) && Le(b, d)
    ensures Le(a, d)
  {
    if a != "" && a[0] == b[0] && b[0] == d[0] {
      LeTransitive(a[1..], b[1..], d[1..]);
    }
  }

  lemma {:induction false} LeAntisymmetric(a: string, b: string)
    requires Le(a, b) && Le(b, a)
    ensures a == b
  {
    if a != "" {
      LeAntisymmetric(a[1..], b[1..]);
      assert a == [a[0]] + a[1..] && b == [b[0]] + b[1..];
    }
  }

  /** sort.Strings, as the values it leaves in the slice. */
  function Sort(s: seq<string>): seq<string> {
    if s == [] then [] else Insert(s[0], Sort(s[1..]))
  }

  function Insert(x: string, s: seq<string>): seq<string> {
    if s == [] then [x] else if Le(x, s[0]) then [x] + s else [s[0]] + Insert(x, s[1..])
  }

  lemma OrderedCons(x: string, s: seq<string>)
    requires Ordered(s) && forall y :: y in s ==> Le(x, y)
    ensures Ordered([x] + s)
  {
    var r := [x] + s;
    forall i, j | 0 <= i < j < |r|
      ensures Le(r[i], r[j])
    {
      assert r[j] == s[j - 1] && s[j - 1] in s;
    }
  }

  lemma LeFirst(x: string, s: seq<string>)
    requires Ordered(s) && s != [] && Le(x, s[0])
    ensures forall y :: y in s ==> Le(x, y)
  {
    forall y | y in s
      ensures Le(x, y)
    {
      var j :| 0 <= j < |s| && s[j] == y;
      if j > 0 {
        LeTransitive(x, s[0], s[j]);
      }
    }
  }

  lemma {:induction false} InsertMembers(x: string, s: seq<string>)
    ensures multiset(Insert(x, s)) == multiset(s) + multiset{x}
    ensures forall y :: y in Insert(x, s) <==> y == x || y in s
  {
    if s != [] {
      assert s == [s[0]] + s[1..];
      InsertMembers(x, s[1..]);
      hide Le;
    }
  }

  lemma {:induction false} InsertOrdered(x: string, s: seq<string>)
    requires Ordered(s)
    ensures Ordered(Insert(x, s))
  {
    if s == [] || Le(x, s[0]) {
      if s != [] {
        LeFirst(x, s);
      }
      OrderedCons(x, s);
    } else {
      LeTotal(x, s[0]);
      InsertOrdered(x, s[1..]);
      InsertMembers(x, s[1..]);
      assert forall y :: y in s[1..] ==> Le(s[0], y);
      hide Le;
      OrderedCons(s[0], Insert(x, s[1..]));
    }
  }

  lemma {:induction false} SortOrders(s: seq<string>)
    ensures Ordered(Sort(s)) && multiset(Sort(s)) == multiset(s)
  {
    if s != [] {
      SortOrders(s[1..]);
      InsertOrdered(s[0], Sort(s[1..]));
      InsertMembers(s[0], Sort(s[1..]));
      assert s == [s[0]] + s[1..];
    }
  }

  lemma SameFirst(a: seq<string>, b: seq<string>)
    requires Ordered(a) && Ordered(b) && multiset(a) == multiset(b) && a != [] && b != []
    ensures a[0] == b[0]
  {
    assert a[0] in multiset(b) && b[0] in multiset(a);
    var i :| 0 <= i < |b| && b[i] == a[0];
    var j :| 0 <= j < |a| && a[j] == b[0];
    if i > 0 && j > 0 {
      LeAntisymmetric(a[0], b[0]);
    }
  }

  lemma RemoveAt<T>(a: seq<T>, k: nat)
    requires k < |a|
    ensures multiset(a[..k] + a[k + 1..]) == multiset(a) - multiset{a[k]}
  {
    assert a == a[..k] + [a[k]] + a[k + 1..];
  }

  lemma TailMultiset<T>(a: seq<T>)
    requires a != []
    ensures multiset(a[1..]) == multiset(a) - multiset{a[0]}
  {
    assert a == [a[0]] + a[1..];
  }

  /** A multiset has only one ordered listing. */
  lemma {:induction false} OrderedUnique(a: seq<string>, b: seq<string>)
    requires Ordered(a) && Ordered(b) && multiset(a) == multiset(b)
    ensures a == b
  {
    assert |a| == |multiset(a)| == |multiset(b)| == |b|;
    if a != [] {
      SameFirst(a, b);
      TailMultiset(a);
      TailMultiset(b);
      OrderedUnique(a[1..], b[1..]);
      assert a == [a[0]] + a[1..] && b == [b[0]] + b[1..];
    }
  }

  /** The text that is hashed for a bulk confirmation. */
  function BulkText(c: Config, calls: seq<ToolCall>): string {
    Join(Sort(Parts(c, Changing(c, calls))), "|")
  }

  function BulkId(c: Config, calls: seq<ToolCall>): string {
    "bulk:" + c.hash(BulkText(c, calls))
  }

  /** Takes one call out of a list: its part goes with it. */
  lemma PickOut(c: Config, a: seq<ToolCall>, x: ToolCall) returns (rest: seq<ToolCall>)
    requires x in a
    ensures |rest| == |a| - 1 && multiset(rest) == multiset(a) - multiset{x}
    ensures multiset(Parts(c, a)) == multiset(Parts(c, rest)) + multiset{Part(c, x)}
  {
    var k :| 0 <= k < |a| && a[k] == x;
    rest := a[..k] + a[k + 1..];
    RemoveAt(a, k);
    var ps := Parts(c, a);
    assert ps == ps[..k] + [Part(c, x)] + ps[k + 1..];
    assert Parts(c, rest) == ps[..k] + ps[k + 1..];
  }

  lemma {:induction false} PartsMultiset(c: Config, a: seq<ToolCall>, b: seq<ToolCall>)
    requires multiset(a) == multiset(b)
    ensures multiset(Parts(c, a)) == multiset(Parts(c, b))
    decreases |a|
  {
    if a == [] {
      assert |multiset(b)| == 0;
      assert b == [];
    } else {
      var x := a[0];
      assert x in multiset(b);
      var restA := PickOut(c, a, x);
      var restB := PickOut(c, b, x);
      PartsMultiset(c, restA, restB);
    }
  }

  /** The bulk ID depends only on which state-changing calls there are: reordering the calls,
      or adding or removing read-only or unknown ones, leaves it as it is. */
  lemma BulkIdCanonical(c: Config, calls1: seq<ToolCall>, calls2: seq<ToolCall>)
    requires multiset(Changing(c, calls1)) == multiset(Changing(c, calls2))
    ensures BulkText(c, calls1) == BulkText(c, calls2) && BulkId(c, calls1) == BulkId(c, calls2)
  {
    var p1, p2 := Parts(c, Changing(c, calls1)), Parts(c, Changing(c, calls2));
    PartsMultiset(c, Changing(c, calls1), Changing(c, calls2));
    SortOrders(p1);
    SortOrders(p2);
    OrderedUnique(Sort(p1), Sort(p2));
  }

  lemma {:induction false} ChangingMultiset(c: Config, calls: seq<ToolCall>, x: ToolCall)
    ensures multiset(Changing(c, calls))[x] == if StateChanging(c, x) then multiset(calls)[x] else 0
  {
    if calls != [] {
      var front, last := calls[..|calls| - 1], calls[|calls| - 1];
      ChangingMultiset(c, front, x);
      assert calls == front + [last];
    }
  }

  lemma ReorderingKeepsBulkId(c: Config, calls1: seq<ToolCall>, calls2: seq<ToolCall>)
    requires multiset(calls1) == multiset(calls2)
    ensures BulkId(c, calls1) == BulkId(c, calls2)
  {
    forall x: ToolCall
      ensures multiset(Changing(c, calls1))[x] == multiset(Changing(c, calls2))[x]
    {
      ChangingMultiset(c, calls1, x);
      ChangingMultiset(c, calls2, x);
    }
    BulkIdCanonical(c, calls1, calls2);
  }

  /* ---------- what the bulk ID tells apart ---------- */

  /** No part goes on with the separator where another one ends. */
  predicate SelfDelimiting(parts: seq<string>) {
    forall p, q :: p in parts && q in parts ==> !(p + "|" <= q)
  }

  lemma JoinStarts(a: seq<string>)
    requires a != []
    ensures Join(a, "|") == a[0] + if |a| == 1 then "" else "|" + Join(a[1..], "|")
  {
  }

  lemma JoinNotEmpty(a: seq<string>)
    requires "" !in a
    ensures a != [] ==> Join(a, "|") != ""
  {
    if a != [] {
      JoinStarts(a);
      assert a[0] in a;
    }
  }

  /** Where a joined text goes on after its first part, it goes on with the separator. */
  lemma FirstPart(x: string, b: seq<string>)
    requires b != [] && x <= Join(b, "|") && |x| > |b[0]|
    ensures b[0] + "|" <= x
  {
    JoinStarts(b);
    var s := Join(b, "|");
    assert |b| > 1;
    assert x == s[..|x|] && x[..|b[0]|] == b[0] && x[|b[0]|] == s[|b[0]|] == '|';
    assert x[..|b[0]| + 1] == b[0] + "|";
  }

  lemma {:induction false} JoinTellsApart(a: seq<string>, b: seq<string>)
    requires SelfDelimiting(a + b) && "" !in a + b && Join(a, "|") == Join(b, "|")
    ensures a == b
  {
    if a == [] || b == [] {
      JoinNotEmpty(a);
      JoinNotEmpty(b);
    } else {
      var s := Join(a, "|");
      JoinStarts(a);
      JoinStarts(b);
      assert a[0] <= s && b[0] <= s;
      assert a[0] in a + b && b[0] in a + b;
      if |a[0]| > |b[0]| {
        FirstPart(a[0], b);
      } else if |b[0]| > |a[0]| {
        FirstPart(b[0], a);
      }
      assert s[|a[0]|..] == if |a| == 1 then "" else "|" + Join(a[1..], "|");
      assert s[|b[0]|..] == if |b| == 1 then "" else "|" + Join(b[1..], "|");
      if |a| > 1 && |b| > 1 {
        assert Join(a[1..], "|") == s[|a[0]|..][1..] && Join(b[1..], "|") == s[|b[0]|..][1..];
        assert forall p :: p in a[1..] + b[1..] ==> p in a + b;
        JoinTellsApart(a[1..], b[1..]);
      }
      assert a == [a[0]] + a[1..] && b == [b[0]] + b[1..];
    }
  }

  lemma SameMembers(a: seq<string>, b: seq<string>)
    requires multiset(a) == multiset(b)
    ensures forall p :: p in a <==> p in b
  {
    assert forall p :: p in a <==> p in multiset(a);
    assert forall p :: p in b <==> p in multiset(b);
  }

  /** As long as no call's text goes on with the separator where another's ends (no JSON text
      does), the hashed text tells different multisets of calls' texts apart. */
  lemma BulkTextTellsApart(c: Config, calls1: seq<ToolCall>, calls2: seq<ToolCall>)
    requires SelfDelimiting(Parts(c, Changing(c, calls1)) + Parts(c, Changing(c, calls2)))
    ensures BulkText(c, calls1) == BulkText(c, calls2)
      <==> multiset(Parts(c, Changing(c, calls1))) == multiset(Parts(c, Changing(c, calls2)))
  {
    var p1, p2 := Parts(c, Changing(c, calls1)), Parts(c, Changing(c, calls2));
    PartsNotEmpty(c, Changing(c, calls1));
    PartsNotEmpty(c, Changing(c, calls2));
    SortOrders(p1);
    SortOrders(p2);
    SameMembers(p1, Sort(p1));
    SameMembers(p2, Sort(p2));
    hide Changing, Parts, Sort, Join, Ordered, Le;
    if multiset(p1) == multiset(p2) {
      OrderedUnique(Sort(p1), Sort(p2));
    }
    if BulkText(c, calls1) == BulkText(c, calls2) {
      assert forall p :: p in Sort(p1) + Sort(p2) ==> p in p1 + p2;
      JoinTellsApart(Sort(p1), Sort(p2));
    }
  }

  lemma PartsNotEmpty(c: Config, calls: seq<ToolCall>)
    ensures "" !in Parts(c, calls)
  {
    assert forall i :: 0 <= i < |calls| ==> ':' in Part(c, calls[i]);
  }

  lemma SortedPair(p: string, q: string)
    requires Le(p, q)
    ensures Sort([p, q]) == [p, q]
  {
    assert [p, q][1..] == [q] && [q][1..] == [];
    assert Sort([q]) == [q];
  }

  lemma {:induction false} LeAfter(front: string, a: string, b: string)
    requires Le(a, b)
    ensures Le(front + a, front + b)
  {
    if front == "" {
      assert front + a == a && front + b == b;
    } else {
      assert (front + a)[1..] == front[1..] + a && (front + b)[1..] == front[1..] + b;
      LeAfter(front[1..], a, b);
    }
  }

  lemma BothChanging(c: Config, x: ToolCall, y: ToolCall)
    requires StateChanging(c, x) && StateChanging(c, y)
    ensures Changing(c, [x, y]) == [x, y]
  {
    assert [x, y][..1] == [x] && [x][..0] == [];
    assert Changing(c, [x]) == [x];
  }

  lemma TextOfPair(c: Config, x: ToolCall, y: ToolCall)
    requires StateChanging(c, x) && StateChanging(c, y) && Le(Part(c, x), Part(c, y))
    ensures Parts(c, Changing(c, [x, y])) == [Part(c, x), Part(c, y)]
    ensures BulkText(c, [x, y]) == Part(c, x) + "|" + Part(c, y)
  {
    BothChanging(c, x, y);
    assert Parts(c, [x, y]) == [Part(c, x), Part(c, y)];
    hide Le, Part;
    SortedPair(Part(c, x), Part(c, y));
    assert Join([Part(c, x), Part(c, y)][1..], "|") == Part(c, y);
  }

  lemma DifferentPairs(p: string, q: string, r: string, s: string)
    requires p != r && p != s
    ensures multiset([p, q]) != multiset([r, s])
  {
    assert p in multiset([p, q]) && p !in multiset([r, s]);
  }

  /** Arguments that are not JSON are hashed as they are, and may hold the separator: two
      different pairs of calls have the same text. */
  lemma BulkTextCollides(c: Config, name: string)
    requires name in c.tools.allowed && name !in c.tools.readOnly
    requires forall s :: s in {"a|" + name + ":b", "c", "a", "b|" + name + ":c"} ==> c.normalize(s) == s
    ensures
      var one := [ToolCall("1", name, "a|" + name + ":b"), ToolCall("2", name, "c")];
      var two := [ToolCall("1", name, "a"), ToolCall("2", name, "b|" + name + ":c")];
      BulkText(c, one) == BulkText(c, two)
      && multiset(Parts(c, Changing(c, one))) != multiset(Parts(c, Changing(c, two)))
  {
    var n := name + ":";
    var x, y := ToolCall("1", name, "a|" + name + ":b"), ToolCall("2", name, "c");
    var u, v := ToolCall("1", name, "a"), ToolCall("2", name, "b|" + name + ":c");
    LeAfter(n, x.args, y.args);
    LeAfter(n, u.args, v.args);
    assert Part(c, x) == n + x.args && Part(c, y) == n + y.args;
    assert Part(c, u) == n + u.args && Part(c, v) == n + v.args;
    assert n + x.args + "|" + (n + y.args) == n + u.args + "|" + (n + v.args);
    assert |n + u.args| < |n + x.args| && |n + u.args| < |n + v.args|;
    assert (n + u.args)[|n|] == 'a' && (n + y.args)[|n|] == 'c';
    hide Le, BulkText, Changing, Parts;
    TextOfPair(c, x, y);
    TextOfPair(c, u, v);
    DifferentPairs(n + u.args, n + v.args, n + x.args, n + y.args);
  }

  /* ---------- one batch of tool calls ---------- */

  datatype Verdict = Unknown | Blocked | Pending | Runs

  /** What the checks before execution decide, in their order. */
  function Judge(c: Config, call: ToolCall): Verdict {
    if call.name !in c.tools.allowed then Unknown
    else if c.readOnly && call.name !in c.tools.readOnly then Blocked
    else if call.name in c.tools.destructive && ConfirmId(c, call) !in c.confirmed then Pending
    else Runs
  }

  function ErrorJson(text: string): string {
    "{\"error\":\"" + text + "\"}"
  }

  /** truncate(s, maxLen) */
  function Truncate(s: string, maxLen: nat): string {
    if |s| <= maxLen then s else s[..maxLen] + "..."
  }

  function Progress(name: string, lines: seq<string>): (events: seq<Event>)
    ensures |events| == |lines|
  {
    seq(|lines|, i requires 0 <= i < |lines| => ToolProgress(name, lines[i]))
  }

  /** The events between the start of a call and the end of its handling. */
  function Closing(c: Config, a: Attempt): seq<Event> {
    var call := a.call;
    match Judge(c, call)
    case Unknown => [ToolDone(call.name, "Unknown tool: " + call.name)]
    case Blocked => [ToolDone(call.name, BLOCKED)]
    case Pending => [ConfirmRequired(call.name, call.args, ConfirmId(c, call), c.describe(call))]
    case Runs => Progress(call.name, a.progress) + [ToolDone(call.name, Truncate(a.result, 2000))]
  }

  function ToolMessage(call: ToolCall, content: string): Message {
    Message("tool", content, [], call.id)
  }

  function Answered(c: Config, a: Attempt): Message {
    var content :=
      match Judge(c, a.call)
      case Unknown => ErrorJson("Unknown tool: " + a.call.name)
      case Blocked => ErrorJson(BLOCKED)
      case Pending => PENDING_ONE
      case Runs => a.result;
    ToolMessage(a.call, content)
  }

  /** The attempts that are handled: those before the client is found gone. */
  function Handled(attempts: seq<Attempt>): seq<Attempt> {
    if attempts == [] || attempts[0].cancelled then [] else [attempts[0]] + Handled(attempts[1..])
  }

  function BatchEvents(c: Config, handled: seq<Attempt>): seq<Event> {
    if handled == [] then []
    else [ToolStart(handled[0].call.name, handled[0].call.args)] + Closing(c, handled[0]) + BatchEvents(c, handled[1..])
  }

  function BatchMessages(c: Config, handled: seq<Attempt>): (ms: seq<Message>)
    ensures |ms| == |handled|
  {
    seq(|handled|, i requires 0 <= i < |handled| => Answered(c, handled[i]))
  }

  function BatchExecuted(c: Config, handled: seq<Attempt>): seq<ToolCall> {
    if handled == [] then []
    else if Judge(c, handled[0].call) == Runs then [handled[0].call] + BatchExecuted(c, handled[1..])
    else BatchExecuted(c, handled[1..])
  }

  function Writes(c: Config, calls: seq<ToolCall>): nat {
    if calls == [] then 0
    else (if calls[0].name in c.tools.readOnly then 0 else 1) + Writes(c, calls[1..])
  }

  function Calls(attempts: seq<Attempt>): (calls: seq<ToolCall>)
    ensures |calls| == |attempts|
  {
    seq(|attempts|, i requires 0 <= i < |attempts| => attempts[i].call)
  }

  predicate NeedsBulk(c: Config, attempts: seq<Attempt>) {
    |Changing(c, Calls(attempts))| >= 2 && BulkId(c, Calls(attempts)) !in c.confirmed
  }

  /* ---------- one turn ---------- */

  function Tokens(texts: seq<string>): (events: seq<Event>)
    ensures |events| == |texts|
  {
    seq(|texts|, i requires 0 <= i < |texts| => Token(texts[i]))
  }

  function FinalEvents(content: string, stream: Option<seq<string>>): seq<Event> {
    if content == "" then [Token(FALLBACK)]
    else if stream.None? || stream.value == [] then [Token(content)]
    else Tokens(stream.value)
  }

  function Lead(content: string): seq<Event> {
    if TrimSpace(content) != "" then [Token(TrimSpace(content) + "\n")] else []
  }

  function TurnEvents(c: Config, reply: Reply): seq<Event> {
    match reply
    case Cancelled => []
    case Failed(e, _) => [Error("LLM error: " + e)]
    case Answer(content, attempts, _, stream) =>
      if attempts == [] then FinalEvents(content, stream)
      else if NeedsBulk(c, attempts) then
        Lead(content) + [ConfirmRequired(BULK_NAME, "", BulkId(c, Calls(attempts)), c.describeBulk(Calls(attempts)))]
      else Lead(content) + BatchEvents(c, Handled(attempts))
  }

  function TurnExecuted(c: Config, reply: Reply): seq<ToolCall> {
    if reply.Answer? && !NeedsBulk(c, reply.attempts) then BatchExecuted(c, Handled(reply.attempts)) else []
  }

  /** Does the run end with this turn, whatever the budget? */
  predicate Halts(c: Config, reply: Reply) {
    match reply
    case Answer(_, attempts, _, _) =>
      attempts == [] || (!NeedsBulk(c, attempts) && |Handled(attempts)| < |attempts|)
    case _ => true
  }

  function PendingMessages(calls: seq<ToolCall>): (ms: seq<Message>)
    ensures |ms| == |calls|
  {
    seq(|calls|, i requires 0 <= i < |calls| => ToolMessage(calls[i], PENDING_BULK))
  }

  /** The tool messages that answer a reply. */
  function ToolMessages(c: Config, attempts: seq<Attempt>): seq<Message> {
    if NeedsBulk(c, attempts) then PendingMessages(Calls(attempts)) else BatchMessages(c, Handled(attempts))
  }

  function AddUsage(a: Usage, b: Usage): Usage {
    Usage(a.prompt + b.prompt, a.completion + b.completion, a.total + b.total)
  }

  function TurnUsage(reply: Reply): Usage {
    match reply
    case Cancelled => Usage(0, 0, 0)
    case Failed(_, u) => u
    case Answer(_, _, u, _) => u
  }

  /* ---------- the conversation ---------- */

  /** trimMessages */
  function TrimMessages(ms: seq<Message>, maxCount: nat): seq<Message>
    requires maxCount >= 1 && |ms| >= 1
  {
    if |ms| <= maxCount then ms else [ms[0]] + ms[|ms| - (maxCount - 1)..]
  }

  /** What the model is shown in a turn. */
  function Shown(ms: seq<Message>, prompt: string): seq<Message>
    requires |ms| >= 1
  {
    TrimMessages(ms[0 := ms[0].(content := prompt)], MAX_CONVERSATION_MESSAGES)
  }

  function Assistant(content: string, calls: seq<ToolCall>): Message {
    Message("assistant", content, calls, "")
  }

  /** The conversation after a turn whose reply has tool calls. */
  function Continued(c: Config, ms: seq<Message>, t: Turn): (r: seq<Message>)
    requires |ms| >= 1 && t.reply.Answer?
    ensures |r| >= 1
  {
    Shown(ms, t.prompt) + [Assistant(t.reply.content, Calls(t.reply.attempts))] + ToolMessages(c, t.reply.attempts)
  }

  /* ---------- a whole run ---------- */

  /** events: what was streamed, without the final Done; executed: the calls run in each turn;
      asked: what the model was shown in each request for a reply; streamed: what it was shown
      in requests for a streamed answer; usage: the total. */
  datatype Outcome = Outcome(events: seq<Event>, executed: seq<seq<ToolCall>>, asked: seq<seq<Message>>,
                             streamed: seq<seq<Message>>, usage: Usage)

  const NOTHING := Outcome([], [], [], [], Usage(0, 0, 0))

  function Then(a: Outcome, b: Outcome): Outcome {
    Outcome(a.events + b.events, a.executed + b.executed, a.asked + b.asked, a.streamed + b.streamed,
            AddUsage(a.usage, b.usage))
  }

  /** What one turn adds. */
  function TurnOutcome(c: Config, ms: seq<Message>, t: Turn): Outcome
    requires |ms| >= 1
  {
    var shown := Shown(ms, t.prompt);
    Outcome(TurnEvents(c, t.reply), [TurnExecuted(c, t.reply)],
            if t.reply.Cancelled? then [] else [shown],
            if t.reply.Answer? && t.reply.attempts == [] && t.reply.content != "" then [shown] else [],
            TurnUsage(t.reply))
  }

  function WritesAfter(c: Config, writes: nat, reply: Reply): nat {
    writes + Writes(c, TurnExecuted(c, reply))
  }

  /** Is the budget of writes used up after this turn? */
  predicate OverBudget(c: Config, writes: nat, reply: Reply) {
    !Halts(c, reply) && !NeedsBulk(c, reply.attempts) && WritesAfter(c, writes, reply) >= MAX_AGENT_ITERATIONS
  }

  predicate Stops(c: Config, writes: nat, reply: Reply) {
    Halts(c, reply) || OverBudget(c, writes, reply)
  }

  /** What one pass adds: the turn, and the error if it uses up the budget. */
  function Pass(c: Config, ms: seq<Message>, writes: nat, t: Turn): Outcome
    requires |ms| >= 1
  {
    var now := TurnOutcome(c, ms, t);
    if OverBudget(c, writes, t.reply) then now.(events := now.events + [Error(LIMIT_REACHED)]) else now
  }

  /** The run from a conversation and a count of writes so far; when the turns run out, the
      client is gone. */
  function Run(c: Config, ms: seq<Message>, writes: nat, turns: seq<Turn>): Outcome
    requires |ms| >= 1
    decreases |turns|
  {
    if turns == [] then NOTHING
    else
      var t := turns[0];
      var now := Pass(c, ms, writes, t);
      if Stops(c, writes, t.reply) then now
      else Then(now, Run(c, Continued(c, ms, t), WritesAfter(c, writes, t.reply), turns[1..]))
  }

  function Opening(history: seq<Message>): (ms: seq<Message>)
    ensures |ms| >= 1
  {
    [Message("system", "", [], "")] + history
  }

  function Finished(o: Outcome): Outcome {
    o.(events := o.events + [Done(o.usage)])
  }

  /** A run as the client sees it: the events end with Done and the total usage. */
  function WholeRun(c: Config, history: seq<Message>, turns: seq<Turn>): Outcome {
    Finished(Run(c, Opening(history), 0, turns))
  }

  /* ---------- the loop itself ---------- */

  lemma {:induction false} WritesConcat(c: Config, a: seq<ToolCall>, b: seq<ToolCall>)
    ensures Writes(c, a + b) == Writes(c, a) + Writes(c, b)
  {
    if a == [] {
      assert a + b == b;
    } else {
      assert (a + b)[1..] == a[1..] + b;
      WritesConcat(c, a[1..], b);
    }
  }

  /** makeBulkConfirmID, with the count that the loop takes beside it. */
  method MakeBulkConfirmId(c: Config, calls: seq<ToolCall>) returns (id: string, count: nat)
    ensures id == BulkId(c, calls) && count == |Changing(c, calls)|
  {
    var parts: seq<string> := [];
    for k := 0 to |calls|
      invariant parts == Parts(c, Changing(c, calls[..k]))
    {
      var tc := calls[k];
      assert calls[..k + 1][..k] == calls[..k];
      if tc.name in c.tools.allowed && tc.name !in c.tools.readOnly {
        parts := parts + [tc.name + ":" + c.normalize(tc.args)];
      }
    }
    assert calls[..|calls|] == calls;
    id := "bulk:" + c.hash(Join(Sort(parts), "|"));
    count := |parts|;
  }

  /** The handling of one tool call: the checks in order, then the tool itself. */
  method HandleCall(c: Config, a: Attempt) returns (events: seq<Event>, message: Message, ran: bool)
    ensures events == [ToolStart(a.call.name, a.call.args)] + Closing(c, a)
    ensures message == Answered(c, a) && ran == (Judge(c, a.call) == Runs)
  {
    var name := a.call.name;
    events := [ToolStart(name, a.call.args)];
    ran := false;
    if name !in c.tools.allowed {
      events := events + [ToolDone(name, "Unknown tool: " + name)];
      message := ToolMessage(a.call, ErrorJson("Unknown tool: " + name));
      return;
    }
    if c.readOnly && name !in c.tools.readOnly {
      events := events + [ToolDone(name, BLOCKED)];
      message := ToolMessage(a.call, ErrorJson(BLOCKED));
      return;
    }
    var confirmId := ConfirmId(c, a.call);
    if name in c.tools.destructive && confirmId !in c.confirmed {
      events := events + [ConfirmRequired(name, a.call.args, confirmId, c.describe(a.call))];
      message := ToolMessage(a.call, PENDING_ONE);
      return;
    }
    events := events + (Progress(name, a.progress) + [ToolDone(name, Truncate(a.result, 2000))]);
    message := ToolMessage(a.call, a.result);
    ran := true;
  }

  lemma BatchOfNone(c: Config)
    ensures BatchEvents(c, []) == [] && BatchExecuted(c, []) == []
  {
  }

  lemma BatchStep(c: Config, a: Attempt, rest: seq<Attempt>, events: seq<Event>, executed: seq<ToolCall>)
    ensures
      var all, more := [a] + rest, [ToolStart(a.call.name, a.call.args)] + Closing(c, a);
      && events + BatchEvents(c, all) == events + more + BatchEvents(c, rest)
      && executed + BatchExecuted(c, all)
           == (if Judge(c, a.call) == Runs then executed + [a.call] else executed) + BatchExecuted(c, rest)
  {
  }

  /** The loop over the tool calls of a reply; `gone` when the client left before its end. */
  method ExecuteCalls(c: Config, attempts: seq<Attempt>)
    returns (events: seq<Event>, messages: seq<Message>, executed: seq<ToolCall>, writes: nat, gone: bool)
    ensures events == BatchEvents(c, Handled(attempts))
    ensures messages == BatchMessages(c, Handled(attempts))
    ensures executed == BatchExecuted(c, Handled(attempts)) && writes == Writes(c, executed)
    ensures gone == (|Handled(attempts)| < |attempts|)
  {
    hide Closing, Judge, Answered, BatchEvents, BatchExecuted;
    events, messages, executed, writes := [], [], [], 0;
    ghost var all := Handled(attempts);
    BatchOfNone(c);
    ghost var rest := all;
    assert attempts[0..] == attempts;
    for k := 0 to |attempts|
      invariant rest == Handled(attempts[k..]) && k <= |all| && rest == all[k..]
      invariant events + BatchEvents(c, rest) == BatchEvents(c, all)
      invariant executed + BatchExecuted(c, rest) == BatchExecuted(c, all)
      invariant messages == BatchMessages(c, all)[..k]
      invariant writes == Writes(c, executed)
    {
      var a := attempts[k];
      assert attempts[k..][0] == a && attempts[k..][1..] == attempts[k + 1..];
      if a.cancelled {
        return events, messages, executed, writes, true;
      }
      BatchStep(c, a, Handled(attempts[k + 1..]), events, executed);
      rest := Handled(attempts[k + 1..]);
      assert all[k] == a;
      var more, message, ran := HandleCall(c, a);
      events, messages := events + more, messages + [message];
      if ran {
        WritesConcat(c, executed, [a.call]);
        executed := executed + [a.call];
        if a.call.name !in c.tools.readOnly {
          writes := writes + 1;
        }
      }
    }
    gone := false;
  }

  lemma ThenAssociative(a: Outcome, b: Outcome, d: Outcome)
    ensures Then(Then(a, b), d) == Then(a, Then(b, d))
    ensures Then(a, NOTHING) == a
  {
  }

  /** One pass from the reply on, when it has tool calls. */
  method AnswerCalls(c: Config, reply: Reply)
    returns (events: seq<Event>, messages: seq<Message>, executed: seq<ToolCall>, writes: nat, gone: bool, bulk: bool)
    requires reply.Answer? && reply.attempts != []
    ensures events == TurnEvents(c, reply) && executed == TurnExecuted(c, reply)
    ensures messages == ToolMessages(c, reply.attempts) && writes == Writes(c, executed)
    ensures bulk == NeedsBulk(c, reply.attempts) && gone == Halts(c, reply)
  {
    var Answer(content, attempts, _, _) := reply;
    events := [];
    var trimmed := TrimSpace(content);
    if trimmed != "" {
      events := events + [Token(trimmed + "\n")];
    }
    assert events == Lead(content);
    var bulkConfirmId, count := MakeBulkConfirmId(c, Calls(attempts));
    bulk := count >= 2 && bulkConfirmId !in c.confirmed;
    if bulk {
      events := events + [ConfirmRequired(BULK_NAME, "", bulkConfirmId, c.describeBulk(Calls(attempts)))];
      return events, PendingMessages(Calls(attempts)), [], 0, false, true;
    }
    var more;
    more, messages, executed, writes, gone := ExecuteCalls(c, attempts);
    events := events + more;
  }

  /** One pass of the loop over a conversation and a count of writes. */
  method OnePass(c: Config, before: seq<Message>, writes: nat, t: Turn)
    returns (now: Outcome, messages: seq<Message>, total: nat, stop: bool)
    requires |before| >= 1
    ensures now == Pass(c, before, writes, t) && stop == Stops(c, writes, t.reply)
    ensures !stop ==> messages == Continued(c, before, t) && total == WritesAfter(c, writes, t.reply)
  {
    messages, total, stop := before, writes, true;
    if t.reply.Cancelled? {
      return Outcome([], [[]], [], [], Usage(0, 0, 0)), messages, total, stop;
    }
    messages := messages[0 := messages[0].(content := t.prompt)];
    messages := TrimMessages(messages, MAX_CONVERSATION_MESSAGES);
    if t.reply.Failed? {
      var failure := [Error("LLM error: " + t.reply.error)];
      return Outcome(failure, [[]], [messages], [], t.reply.usage), messages, total, stop;
    }
    var Answer(content, attempts, usage, stream) := t.reply;
    if |attempts| == 0 {
      var streamed := if content != "" then [messages] else [];
      return Outcome(FinalEvents(content, stream), [[]], [messages], streamed, usage), messages, total, stop;
    }
    var events, replies, executed, more, gone, bulk := AnswerCalls(c, t.reply);
    if gone {
      return Outcome(events, [executed], [messages], [], usage), messages, total, stop;
    }
    total := writes + more;
    stop := !bulk && total >= MAX_AGENT_ITERATIONS;
    now := Outcome(if stop then events + [Error(LIMIT_REACHED)] else events, [executed], [messages], [], usage);
    messages := messages + [Assistant(content, Calls(attempts))] + replies;
  }

  lemma RunFrom(c: Config, ms: seq<Message>, writes: nat, turns: seq<Turn>, k: nat, o: Outcome)
    requires |ms| >= 1 && k < |turns|
    ensures
      var now, reply := Pass(c, ms, writes, turns[k]), turns[k].reply;
      Then(o, Run(c, ms, writes, turns[k..])) ==
        if Stops(c, writes, reply) then Then(o, now)
        else Then(Then(o, now), Run(c, Continued(c, ms, turns[k]), WritesAfter(c, writes, reply), turns[k + 1..]))
  {
    hide Pass, Continued, WritesAfter, NeedsBulk, OverBudget;
    var t := turns[k];
    assert turns[k..][0] == t && turns[k..][1..] == turns[k + 1..];
    if !Stops(c, writes, t.reply) {
      var later := Run(c, Continued(c, ms, t), WritesAfter(c, writes, t.reply), turns[k + 1..]);
      ThenAssociative(o, Pass(c, ms, writes, t), later);
    }
  }

  lemma NothingMore(c: Config, ms: seq<Message>, writes: nat, turns: seq<Turn>, o: Outcome)
    requires |ms| >= 1
    ensures Then(o, Run(c, ms, writes, turns[|turns|..])) == o
  {
  }

  lemma NothingFirst(o: Outcome)
    ensures Then(NOTHING, o) == o
  {
  }

  /** runAgentLoop. */
  method RunAgentLoop(c: Config, history: seq<Message>, turns: seq<Turn>) returns (o: Outcome)
    ensures o == WholeRun(c, history, turns)
  {
    hide Pass, Stops, Continued, WritesAfter, Run, Then;
    o := NOTHING;
    var messages := Opening(history);
    var writeIterations: nat := 0;
    NothingFirst(Run(c, messages, 0, turns));
    assert turns[0..] == turns;
    for k := 0 to |turns|
      invariant |messages| >= 1
      invariant Then(o, Run(c, messages, writeIterations, turns[k..])) == Run(c, Opening(history), 0, turns)
    {
      RunFrom(c, messages, writeIterations, turns, k, o);
      var now, next, total, stop := OnePass(c, messages, writeIterations, turns[k]);
      o := Then(o, now);
      if stop {
        return Finished(o);
      }
      messages, writeIterations := next, total;
    }
    NothingMore(c, messages, writeIterations, turns, o);
    o := Finished(o);
  }

  /* ---------- safety of every run ---------- */

  /** What may be executed in a turn: calls of that reply that exist, that the mode allows and,
      if destructive, that the user confirmed one by one; nothing at all from a reply with two
      or more state-changing calls unless the user supplied the ID made from those calls (for
      which sets of calls it tells apart see BulkTextTellsApart). */
  predicate SafeBatch(c: Config, reply: Reply, executed: seq<ToolCall>) {
    executed != [] ==>
      && reply.Answer?
      && (|Changing(c, Calls(reply.attempts))| >= 2 ==> BulkId(c, Calls(reply.attempts)) in c.confirmed)
      && forall i :: 0 <= i < |executed| ==> SafeCall(c, reply, executed[i])
  }

  predicate SafeCall(c: Config, reply: Reply, call: ToolCall)
    requires reply.Answer?
  {
    && call in Calls(reply.attempts)
    && call.name in c.tools.allowed
    && (c.readOnly ==> call.name in c.tools.readOnly)
    && (call.name in c.tools.destructive ==> ConfirmId(c, call) in c.confirmed)
  }

  /** Of the calls that are handled, exactly those are executed that the checks let run. */
  lemma {:induction false} ExecutedAsJudged(c: Config, handled: seq<Attempt>, call: ToolCall)
    ensures call in BatchExecuted(c, handled) <==> call in Calls(handled) && Judge(c, call) == Runs
  {
    if handled != [] {
      ExecutedAsJudged(c, handled[1..], call);
      assert Calls(handled) == [handled[0].call] + Calls(handled[1..]);
    }
  }

  lemma {:induction false} HandledIsPrefix(attempts: seq<Attempt>)
    ensures Handled(attempts) <= attempts
  {
    if attempts != [] && !attempts[0].cancelled {
      HandledIsPrefix(attempts[1..]);
      assert attempts == [attempts[0]] + attempts[1..];
    }
  }

  lemma TurnIsSafe(c: Config, reply: Reply)
    ensures SafeBatch(c, reply, TurnExecuted(c, reply))
  {
    var executed := TurnExecuted(c, reply);
    if executed != [] {
      forall i | 0 <= i < |executed|
        ensures SafeCall(c, reply, executed[i])
      {
        var handled := Handled(reply.attempts);
        ExecutedAsJudged(c, handled, executed[i]);
        HandledIsPrefix(reply.attempts);
        assert Calls(handled) == Calls(reply.attempts)[..|handled|];
      }
    }
  }

  /** Whatever the model replies, every turn of a run executes only what SafeBatch allows. */
  lemma {:induction false} RunIsSafe(c: Config, ms: seq<Message>, writes: nat, turns: seq<Turn>)
    requires |ms| >= 1
    ensures
      var executed := Run(c, ms, writes, turns).executed;
      |executed| <= |turns| && forall i :: 0 <= i < |executed| ==> SafeBatch(c, turns[i].reply, executed[i])
    decreases |turns|
  {
    if turns == [] {
      assert Run(c, ms, writes, turns).executed == [];
    } else {
      TurnIsSafe(c, turns[0].reply);
      RunExecuted(c, ms, writes, turns);
      hide Run, Continued, WritesAfter, Stops, TurnExecuted, SafeBatch;
      if !Stops(c, writes, turns[0].reply) {
        RunIsSafe(c, Continued(c, ms, turns[0]), WritesAfter(c, writes, turns[0].reply), turns[1..]);
      }
    }
  }

  /* ---------- the budget ---------- */

  function TotalWrites(c: Config, batches: seq<seq<ToolCall>>): nat {
    if batches == [] then 0 else Writes(c, batches[0]) + TotalWrites(c, batches[1..])
  }

  /** All turns but the last stay below the limit together. */
  lemma {:induction false} BudgetBeforeLast(c: Config, ms: seq<Message>, writes: nat, turns: seq<Turn>)
    requires |ms| >= 1 && writes < MAX_AGENT_ITERATIONS
    ensures
      var executed := Run(c, ms, writes, turns).executed;
      executed == [] || writes + TotalWrites(c, executed[..|executed| - 1]) < MAX_AGENT_ITERATIONS
    decreases |turns|
  {
    if turns == [] {
      assert Run(c, ms, writes, turns).executed == [];
    } else {
      var reply := turns[0].reply;
      RunExecuted(c, ms, writes, turns);
      if Stops(c, writes, reply) {
        assert [TurnExecuted(c, reply)][..0] == [];
      } else {
        WithinBudget(c, writes, reply);
        var total := WritesAfter(c, writes, reply);
        var later := Run(c, Continued(c, ms, turns[0]), total, turns[1..]).executed;
        assert writes + Writes(c, TurnExecuted(c, reply)) == total;
        hide Run, Continued, WritesAfter, Writes, Stops, TurnExecuted;
        BudgetBeforeLast(c, Continued(c, ms, turns[0]), total, turns[1..]);
        TotalWritesCons(c, TurnExecuted(c, reply), later);
      }
    }
  }

  lemma RunExecuted(c: Config, ms: seq<Message>, writes: nat, turns: seq<Turn>)
    requires |ms| >= 1 && turns != []
    ensures
      var t := turns[0];
      Run(c, ms, writes, turns).executed == [TurnExecuted(c, t.reply)] +
        if Stops(c, writes, t.reply) then []
        else Run(c, Continued(c, ms, t), WritesAfter(c, writes, t.reply), turns[1..]).executed
  {
    hide Continued, WritesAfter, Stops, TurnExecuted, OverBudget;
  }

  lemma WithinBudget(c: Config, writes: nat, reply: Reply)
    requires writes < MAX_AGENT_ITERATIONS && !Stops(c, writes, reply)
    ensures WritesAfter(c, writes, reply) < MAX_AGENT_ITERATIONS
  {
  }

  lemma TotalWritesCons(c: Config, first: seq<ToolCall>, later: seq<seq<ToolCall>>)
    ensures var all := [first] + later; later != [] ==>
      TotalWrites(c, all[..|all| - 1]) == Writes(c, first) + TotalWrites(c, later[..|later| - 1])
    ensures later == [] ==> ([first] + later)[..0] == []
  {
    if later != [] {
      var all := [first] + later;
      assert all[..|all| - 1] == [first] + later[..|later| - 1];
      assert ([first] + later[..|later| - 1])[1..] == later[..|later| - 1];
    }
  }

  lemma {:induction false} ChangingCons(c: Config, x: ToolCall, calls: seq<ToolCall>)
    ensures |Changing(c, [x] + calls)| == |Changing(c, calls)| + if StateChanging(c, x) then 1 else 0
  {
    if calls == [] {
      assert [x] + calls == [x] && [x][..0] == [];
    } else {
      assert ([x] + calls)[..|calls|] == [x] + calls[..|calls| - 1];
      ChangingCons(c, x, calls[..|calls| - 1]);
    }
  }

  lemma {:induction false} WritesAreChanging(c: Config, attempts: seq<Attempt>)
    ensures Writes(c, BatchExecuted(c, Handled(attempts))) <= |Changing(c, Calls(attempts))|
  {
    if attempts != [] {
      var rest := attempts[1..];
      WritesAreChanging(c, rest);
      assert Calls(attempts) == [attempts[0].call] + Calls(rest);
      ChangingCons(c, attempts[0].call, Calls(rest));
      if !attempts[0].cancelled {
        assert Handled(attempts)[1..] == Handled(rest);
        var e := BatchExecuted(c, Handled(rest));
        assert ([attempts[0].call] + e)[1..] == e;
      }
    }
  }

  /** Has the user supplied no ID of a bulk confirmation? */
  predicate NoBulkConfirmed(c: Config) {
    forall id :: id in c.confirmed ==> !("bulk:" <= id)
  }

  lemma OneWriteAtMost(c: Config, reply: Reply)
    requires NoBulkConfirmed(c)
    ensures Writes(c, TurnExecuted(c, reply)) <= 1
  {
    if reply.Answer? && !NeedsBulk(c, reply.attempts) {
      var id := BulkId(c, Calls(reply.attempts));
      assert id[..5] == "bulk:";
      WritesAreChanging(c, reply.attempts);
    }
  }

  lemma {:induction false} TotalWritesLast(c: Config, batches: seq<seq<ToolCall>>)
    requires batches != []
    ensures TotalWrites(c, batches) == TotalWrites(c, batches[..|batches| - 1]) + Writes(c, batches[|batches| - 1])
  {
    if |batches| > 1 {
      TotalWritesLast(c, batches[1..]);
      assert batches[1..][..|batches| - 2] == batches[..|batches| - 1][1..];
    }
  }

  lemma {:induction false} EachTurnExecuted(c: Config, ms: seq<Message>, writes: nat, turns: seq<Turn>, i: nat)
    requires |ms| >= 1 && i < |Run(c, ms, writes, turns).executed|
    ensures i < |turns| && Run(c, ms, writes, turns).executed[i] == TurnExecuted(c, turns[i].reply)
    decreases |turns|
  {
    if i > 0 {
      EachTurnExecuted(c, Continued(c, ms, turns[0]), WritesAfter(c, writes, turns[0].reply), turns[1..], i - 1);
    }
  }

  /** A run performs at most 49 writes and those of its last turn, which come from a reply whose
      bulk ID was confirmed unless it holds one at most; without any bulk confirmation a run
      performs at most 50 writes. */
  lemma WriteBudget(c: Config, history: seq<Message>, turns: seq<Turn>)
    ensures
      var executed := WholeRun(c, history, turns).executed;
      executed != [] ==>
        && TotalWrites(c, executed) <= MAX_AGENT_ITERATIONS - 1 + Writes(c, executed[|executed| - 1])
        && (NoBulkConfirmed(c) ==> TotalWrites(c, executed) <= MAX_AGENT_ITERATIONS)
  {
    hide Run, TotalWrites, Writes, TurnExecuted;
    var ms := Opening(history);
    var executed := Run(c, ms, 0, turns).executed;
    BudgetBeforeLast(c, ms, 0, turns);
    if executed != [] {
      TotalWritesLast(c, executed);
      EachTurnExecuted(c, ms, 0, turns, |executed| - 1);
      if NoBulkConfirmed(c) {
        OneWriteAtMost(c, turns[|executed| - 1].reply);
      }
    }
  }

  /* ---------- the grammar of the event stream ---------- */

  /** Where a reader of the stream stands: between items, inside the named tool call, after an
      error, at the end, or lost. */
  datatype Phase = Between | Inside(name: string) | Ending | Ended | Lost

  function Read(p: Phase, e: Event): Phase {
    match p
    case Between =>
      (match e
       case Token(_) => Between
       case ConfirmRequired(name, _, _, _) => if name == BULK_NAME then Between else Lost
       case ToolStart(name, _) => Inside(name)
       case Error(_) => Ending
       case Done(_) => Ended
       case _ => Lost)
    case Inside(name) =>
      (match e
       case ToolProgress(n, _) => if n == name then p else Lost
       case ToolDone(n, _) => if n == name then Between else Lost
       case ConfirmRequired(n, _, _, _) => if n == name then Between else Lost
       case _ => Lost)
    case Ending => if e.Done? then Ended else Lost
    case _ => Lost
  }

  function ReadAll(p: Phase, events: seq<Event>): Phase
    decreases |events|
  {
    if events == [] then p else ReadAll(Read(p, events[0]), events[1..])
  }

  lemma {:induction false} ReadConcat(p: Phase, a: seq<Event>, b: seq<Event>)
    ensures ReadAll(p, a + b) == ReadAll(ReadAll(p, a), b)
    decreases |a|
  {
    if a == [] {
      assert a + b == b;
    } else {
      assert (a + b)[1..] == a[1..] + b;
      ReadConcat(Read(p, a[0]), a[1..], b);
    }
  }

  lemma {:induction false} TokensRead(texts: seq<string>)
    ensures ReadAll(Between, Tokens(texts)) == Between
  {
    if texts != [] {
      assert Tokens(texts)[1..] == Tokens(texts[1..]);
      TokensRead(texts[1..]);
    }
  }

  lemma {:induction false} ProgressRead(name: string, lines: seq<string>)
    ensures ReadAll(Inside(name), Progress(name, lines)) == Inside(name)
  {
    if lines != [] {
      assert Progress(name, lines)[1..] == Progress(name, lines[1..]);
      ProgressRead(name, lines[1..]);
    }
  }

  lemma ClosingRead(c: Config, a: Attempt)
    ensures ReadAll(Inside(a.call.name), Closing(c, a)) == Between
  {
    if Judge(c, a.call) == Runs {
      ProgressRead(a.call.name, a.progress);
      ReadConcat(Inside(a.call.name), Progress(a.call.name, a.progress),
        [ToolDone(a.call.name, Truncate(a.result, 2000))]);
    }
  }

  lemma {:induction false} BatchRead(c: Config, handled: seq<Attempt>)
    ensures ReadAll(Between, BatchEvents(c, handled)) == Between
  {
    if handled != [] {
      var a := handled[0];
      var start := [ToolStart(a.call.name, a.call.args)];
      var rest := BatchEvents(c, handled[1..]);
      assert start[1..] == [];
      assert ReadAll(Between, start) == Inside(a.call.name);
      ClosingRead(c, a);
      ReadConcat(Between, start, Closing(c, a));
      ReadConcat(Between, start + Closing(c, a), rest);
      BatchRead(c, handled[1..]);
    }
  }

  lemma TurnRead(c: Config, reply: Reply)
    ensures ReadAll(Between, TurnEvents(c, reply)) == if reply.Failed? then Ending else Between
  {
    match reply
    case Cancelled =>
    case Failed(e, _) =>
      assert [Error("LLM error: " + e)][1..] == [];
    case Answer(content, attempts, _, stream) =>
      if attempts == [] {
        FinalRead(content, stream);
      } else {
        var lead := Lead(content);
        assert lead != [] ==> lead[1..] == [];
        assert ReadAll(Between, lead) == Between;
        if NeedsBulk(c, attempts) {
          var ask := [ConfirmRequired(BULK_NAME, "", BulkId(c, Calls(attempts)), c.describeBulk(Calls(attempts)))];
          assert ask[1..] == [];
          ReadConcat(Between, lead, ask);
        } else {
          ReadConcat(Between, lead, BatchEvents(c, Handled(attempts)));
          BatchRead(c, Handled(attempts));
        }
      }
  }

  lemma FinalRead(content: string, stream: Option<seq<string>>)
    ensures ReadAll(Between, FinalEvents(content, stream)) == Between
  {
    var events := FinalEvents(content, stream);
    if content == "" || stream.None? || stream.value == [] {
      assert events[1..] == [];
    } else {
      TokensRead(stream.value);
    }
  }

  lemma PassRead(c: Config, ms: seq<Message>, writes: nat, t: Turn)
    requires |ms| >= 1
    ensures
      var p := ReadAll(Between, Pass(c, ms, writes, t).events);
      (p == Between || p == Ending) && (!Stops(c, writes, t.reply) ==> p == Between)
  {
    TurnRead(c, t.reply);
    if OverBudget(c, writes, t.reply) {
      assert [Error(LIMIT_REACHED)][1..] == [];
      ReadConcat(Between, TurnEvents(c, t.reply), [Error(LIMIT_REACHED)]);
    }
  }

  lemma {:induction false} RunRead(c: Config, ms: seq<Message>, writes: nat, turns: seq<Turn>)
    requires |ms| >= 1
    ensures var p := ReadAll(Between, Run(c, ms, writes, turns).events); p == Between || p == Ending
    decreases |turns|
  {
    if turns != [] {
      hide Pass, Continued, WritesAfter, Stops;
      var t := turns[0];
      PassRead(c, ms, writes, t);
      if !Stops(c, writes, t.reply) {
        var later := Run(c, Continued(c, ms, t), WritesAfter(c, writes, t.reply), turns[1..]);
        ReadConcat(Between, Pass(c, ms, writes, t).events, later.events);
        RunRead(c, Continued(c, ms, t), WritesAfter(c, writes, t.reply), turns[1..]);
      }
    }
  }

  /** Every run streams (token | bulk confirm_required | tool_start tool_progress* (tool_done |
      confirm_required))* error? done, each tool's events under its own name. */
  lemma StreamIsWellFormed(c: Config, history: seq<Message>, turns: seq<Turn>)
    ensures ReadAll(Between, WholeRun(c, history, turns).events) == Ended
  {
    hide Run;
    var o := Run(c, Opening(history), 0, turns);
    RunRead(c, Opening(history), 0, turns);
    ReadConcat(Between, o.events, [Done(o.usage)]);
    assert [Done(o.usage)][1..] == [];
  }

  /* ---------- the conversation ---------- */

  /** Every tool call of the reply got exactly one tool message, with its ID, in call order. */
  predicate AnswersEveryCall(calls: seq<ToolCall>, ms: seq<Message>) {
    |ms| == |calls| && forall i :: 0 <= i < |calls| ==> ms[i].role == "tool" && ms[i].callId == calls[i].id
  }

  lemma ContinuedAnswers(c: Config, reply: Reply)
    requires reply.Answer? && !Halts(c, reply)
    ensures AnswersEveryCall(Calls(reply.attempts), ToolMessages(c, reply.attempts))
  {
    HandledIsPrefix(reply.attempts);
  }

  /** Is this what the model may be shown: at most 50 messages, the fresh system prompt first? */
  predicate ShownWell(ms: seq<Message>, prompt: string) {
    1 <= |ms| <= MAX_CONVERSATION_MESSAGES && ms[0].role == "system" && ms[0].content == prompt
  }

  /** The request after this one is the same conversation with the reply and one answer per tool
      call added, the prompt renewed and the middle trimmed. */
  predicate Follows(c: Config, shown: seq<Message>, t: Turn, next: seq<Message>, prompt: string) {
    |shown| >= 1 && t.reply.Answer? &&
    var answers := ToolMessages(c, t.reply.attempts);
    && AnswersEveryCall(Calls(t.reply.attempts), answers)
    && next == Shown(shown + [Assistant(t.reply.content, Calls(t.reply.attempts))] + answers, prompt)
  }

  lemma {:induction false} Conversation(c: Config, ms: seq<Message>, writes: nat, turns: seq<Turn>)
    requires |ms| >= 1 && ms[0].role == "system"
    ensures
      var o := Run(c, ms, writes, turns);
      && |o.asked| <= |turns|
      && (o.asked != [] ==> o.asked[0] == Shown(ms, turns[0].prompt))
      && (forall i :: 0 <= i < |o.asked| ==> ShownWell(o.asked[i], turns[i].prompt))
      && (forall i :: 0 <= i < |o.asked| - 1 ==> Follows(c, o.asked[i], turns[i], o.asked[i + 1], turns[i + 1].prompt))
      && (o.streamed != [] ==> o.asked != [] && o.streamed == [o.asked[|o.asked| - 1]])
    decreases |turns|
  {
    if turns != [] {
      var t := turns[0];
      if !Stops(c, writes, t.reply) {
        ContinuedAnswers(c, t.reply);
        Conversation(c, Continued(c, ms, t), WritesAfter(c, writes, t.reply), turns[1..]);
      }
    }
  }

  /** Every request shows the model at most 50 messages with the fresh system prompt first, and
      before the next one every tool call of the reply was answered, once and in order. */
  lemma EveryRequest(c: Config, history: seq<Message>, turns: seq<Turn>)
    ensures
      var o := WholeRun(c, history, turns);
      && |o.asked| <= |turns|
      && (forall i :: 0 <= i < |o.asked| ==> ShownWell(o.asked[i], turns[i].prompt))
      && (forall i :: 0 <= i < |o.asked| - 1 ==> Follows(c, o.asked[i], turns[i], o.asked[i + 1], turns[i + 1].prompt))
      && (o.streamed != [] ==> o.asked != [] && o.streamed == [o.asked[|o.asked| - 1]])
  {
    Conversation(c, Opening(history), 0, turns);
  }

  /* ---------- tool messages after trimming ---------- */

  /** A reply and tool messages after it, of which the last answers one of its calls. */
  predicate Holds(part: seq<Message>) {
    && |part| >= 2 && part[0].role == "assistant"
    && (forall k :: 0 < k < |part| - 1 ==> part[k].role == "tool")
    && exists j :: 0 <= j < |part[0].calls| && part[0].calls[j].id == part[|part| - 1].callId
  }

  predicate HeldBy(ms: seq<Message>, a: nat, i: nat)
    requires a < i < |ms|
  {
    Holds(ms[a..i + 1])
  }

  predicate Anchored(ms: seq<Message>, i: nat)
    requires i < |ms|
  {
    ms[i].role == "tool" ==> exists a :: 0 <= a < i && HeldBy(ms, a, i)
  }

  /** Every tool message follows the reply whose call it answers. */
  predicate AllAnchored(ms: seq<Message>) {
    forall i :: 0 <= i < |ms| ==> Anchored(ms, i)
  }

  /** Trimming leaves the messages alone or does not cut before a tool message. */
  predicate CleanCut(ms: seq<Message>) {
    |ms| <= MAX_CONVERSATION_MESSAGES || ms[|ms| - (MAX_CONVERSATION_MESSAGES - 1)].role != "tool"
  }

  /** The same stretch of messages in another conversation. */
  lemma AnchoredElsewhere(ms: seq<Message>, i: nat, other: seq<Message>, k: nat, a: nat)
    requires i < |ms| && k < |other| && ms[i] == other[k]
    requires a < i && HeldBy(ms, a, i) && i - a <= k && other[k - (i - a)..k + 1] == ms[a..i + 1]
    ensures Anchored(other, k)
  {
    hide Holds;
    assert HeldBy(other, k - (i - a), k);
  }

  lemma PromptKeepsAnchors(ms: seq<Message>, prompt: string)
    requires |ms| >= 1 && ms[0].role == "system" && AllAnchored(ms)
    ensures AllAnchored(ms[0 := ms[0].(content := prompt)])
  {
    var r := ms[0 := ms[0].(content := prompt)];
    forall i | 0 <= i < |r|
      ensures Anchored(r, i)
    {
      assert Anchored(ms, i);
      if r[i].role == "tool" {
        var a :| 0 <= a < i && HeldBy(ms, a, i);
        assert ms[a..i + 1][0] == ms[a];
        assert r[a..i + 1] == ms[a..i + 1];
        hide Holds;
        AnchoredElsewhere(ms, i, r, i, a);
      }
    }
  }

  lemma NoToolBefore(ms: seq<Message>, a: nat, at: nat, cut: nat)
    requires a < at < |ms| && HeldBy(ms, a, at) && cut <= at && ms[cut].role != "tool" && ms[at].role == "tool"
    ensures cut <= a
  {
    assert forall k :: a < k < at ==> ms[k] == ms[a..at + 1][k - a];
  }

  /** The anchor of a tool message is not cut off unless the cut falls on a tool message. */
  lemma CutKeepsAnchors(ms: seq<Message>, cut: nat)
    requires AllAnchored(ms) && 0 < cut < |ms| && ms[0].role != "tool" && ms[cut].role != "tool"
    ensures AllAnchored([ms[0]] + ms[cut..])
  {
    var r := [ms[0]] + ms[cut..];
    forall i | 0 <= i < |r|
      ensures Anchored(r, i)
    {
      if r[i].role == "tool" {
        var at := i - 1 + cut;
        assert r[i] == ms[at] && Anchored(ms, at);
        var a :| 0 <= a < at && HeldBy(ms, a, at);
        NoToolBefore(ms, a, at, cut);
        hide Holds;
        assert r[a + 1 - cut..i + 1] == ms[a..at + 1];
        AnchoredElsewhere(ms, at, r, i, a);
      }
    }
  }

  lemma CutShows(ms: seq<Message>, prompt: string)
    requires |ms| >= 1 && ms[0].role == "system" && !CleanCut(ms)
    ensures !AllAnchored(Shown(ms, prompt))
  {
    var cut := |ms| - (MAX_CONVERSATION_MESSAGES - 1);
    assert Shown(ms, prompt)[1] == ms[cut];
    assert !Anchored(Shown(ms, prompt), 1);
  }

  /** What is shown leaves no tool message without its call exactly if the cut is clean. */
  lemma ShownAnchoredIff(ms: seq<Message>, prompt: string)
    requires |ms| >= 1 && ms[0].role == "system" && AllAnchored(ms)
    ensures AllAnchored(Shown(ms, prompt)) <==> CleanCut(ms)
  {
    var r := ms[0 := ms[0].(content := prompt)];
    PromptKeepsAnchors(ms, prompt);
    if |ms| > MAX_CONVERSATION_MESSAGES {
      var cut := |ms| - (MAX_CONVERSATION_MESSAGES - 1);
      assert r[cut] == ms[cut];
      if CleanCut(ms) {
        CutKeepsAnchors(r, cut);
      } else {
        CutShows(ms, prompt);
      }
    }
  }

  lemma AnswerHeld(ms: seq<Message>, content: string, calls: seq<ToolCall>, answers: seq<Message>, k: nat)
    requires AnswersEveryCall(calls, answers) && k < |answers|
    ensures Anchored(ms + [Assistant(content, calls)] + answers, |ms| + 1 + k)
  {
    var r := ms + [Assistant(content, calls)] + answers;
    var part := [Assistant(content, calls)] + answers[..k + 1];
    assert r[|ms|..|ms| + 1 + k + 1] == part;
    assert part[0].calls[k].id == part[|part| - 1].callId;
    assert Holds(part);
    assert HeldBy(r, |ms|, |ms| + 1 + k);
  }

  lemma PrefixAnchored(ms: seq<Message>, r: seq<Message>, i: nat)
    requires AllAnchored(ms) && ms <= r && i < |ms|
    ensures Anchored(r, i)
  {
    hide Holds;
    assert Anchored(ms, i) && r[i] == ms[i];
    if ms[i].role == "tool" {
      var a :| 0 <= a < i && HeldBy(ms, a, i);
      assert r[a..i + 1] == ms[a..i + 1];
      AnchoredElsewhere(ms, i, r, i, a);
    }
  }

  /** A reply with its answers keeps every tool message with its call. */
  lemma BatchAnchored(ms: seq<Message>, content: string, calls: seq<ToolCall>, answers: seq<Message>)
    requires AllAnchored(ms) && AnswersEveryCall(calls, answers)
    ensures AllAnchored(ms + [Assistant(content, calls)] + answers)
  {
    var r := ms + [Assistant(content, calls)] + answers;
    assert r[|ms|] == Assistant(content, calls);
    forall i | 0 <= i < |r|
      ensures Anchored(r, i)
    {
      hide Holds, AnswersEveryCall;
      if i < |ms| {
        PrefixAnchored(ms, r, i);
      } else if i > |ms| {
        AnswerHeld(ms, content, calls, answers, i - |ms| - 1);
      }
    }
  }

  /** The conversation before request i is trimmed for it. */
  function Untrimmed(c: Config, history: seq<Message>, turns: seq<Turn>, asked: seq<seq<Message>>, i: nat): seq<Message>
    requires i <= |asked| && |asked| <= |turns|
  {
    if i == 0 then Opening(history)
    else
      match turns[i - 1].reply
      case Answer(content, attempts, _, _) =>
        asked[i - 1] + [Assistant(content, Calls(attempts))] + ToolMessages(c, attempts)
      case _ => asked[i - 1]
  }

  lemma OpeningAnchored(history: seq<Message>)
    requires AllAnchored(history)
    ensures AllAnchored(Opening(history))
  {
    var r := Opening(history);
    forall i | 0 <= i < |r|
      ensures Anchored(r, i)
    {
      if i > 0 {
        assert Anchored(history, i - 1);
        if history[i - 1].role == "tool" {
          var a :| 0 <= a < i - 1 && HeldBy(history, a, i - 1);
          assert history[a..i - 1 + 1] == history[a..i];
          hide Holds;
          assert r[a + 1..i + 1] == history[a..i];
          AnchoredElsewhere(history, i - 1, r, i, a);
        }
      }
    }
  }

  lemma UntrimmedShown(c: Config, history: seq<Message>, turns: seq<Turn>, i: nat)
    requires i < |WholeRun(c, history, turns).asked|
    ensures
      var asked := WholeRun(c, history, turns).asked;
      && |asked| <= |turns|
      && var ms := Untrimmed(c, history, turns, asked, i);
      && |ms| >= 1 && ms[0].role == "system" && asked[i] == Shown(ms, turns[i].prompt)
      && (i > 0 ==>
            && turns[i - 1].reply.Answer?
            && AnswersEveryCall(Calls(turns[i - 1].reply.attempts), ToolMessages(c, turns[i - 1].reply.attempts)))
  {
    Conversation(c, Opening(history), 0, turns);
    var asked := WholeRun(c, history, turns).asked;
    hide Run, Shown, ToolMessages;
    if i > 0 {
      assert Follows(c, asked[i - 1], turns[i - 1], asked[i], turns[i].prompt);
      assert ShownWell(asked[i - 1], turns[i - 1].prompt);
    }
  }

  lemma AnchoredUntil(c: Config, history: seq<Message>, turns: seq<Turn>, i: nat)
    requires AllAnchored(history) && i < |WholeRun(c, history, turns).asked| <= |turns|
    requires i == 0 || AllAnchored(WholeRun(c, history, turns).asked[i - 1])
    ensures
      var asked := WholeRun(c, history, turns).asked;
      AllAnchored(asked[i]) <==> CleanCut(Untrimmed(c, history, turns, asked, i))
  {
    var asked := WholeRun(c, history, turns).asked;
    UntrimmedShown(c, history, turns, i);
    OpeningAnchored(history);
    hide WholeRun, AllAnchored, CleanCut, Shown, ToolMessages, AnswersEveryCall, Opening;
    if i > 0 {
      var reply := turns[i - 1].reply;
      BatchAnchored(asked[i - 1], reply.content, Calls(reply.attempts), ToolMessages(c, reply.attempts));
    }
    ShownAnchoredIff(Untrimmed(c, history, turns, asked, i), turns[i].prompt);
  }

  /** The requests up to the n-th show no tool message without the call it answers exactly if
      none of them was trimmed right before a tool message. */
  lemma {:induction false} RequestsAnchoredIff(c: Config, history: seq<Message>, turns: seq<Turn>, n: nat)
    requires AllAnchored(history) && n <= |WholeRun(c, history, turns).asked| <= |turns|
    ensures
      var asked := WholeRun(c, history, turns).asked;
      (forall i :: 0 <= i < n ==> AllAnchored(asked[i]))
        <==> forall i :: 0 <= i < n ==> CleanCut(Untrimmed(c, history, turns, asked, i))
  {
    hide WholeRun, AllAnchored, CleanCut, Untrimmed;
    if n > 0 {
      RequestsAnchoredIff(c, history, turns, n - 1);
      if forall i :: 0 <= i < n - 1 ==> AllAnchored(WholeRun(c, history, turns).asked[i]) {
        AnchoredUntil(c, history, turns, n - 1);
      }
    }
  }

  /** A reply with 49 or more tool calls is cut off from its answers in the next request. */
  lemma LongBatchIsCut(c: Config, history: seq<Message>, turns: seq<Turn>, i: nat)
    requires 0 < i < |WholeRun(c, history, turns).asked| <= |turns|
    requires turns[i - 1].reply.Answer? && |turns[i - 1].reply.attempts| >= MAX_CONVERSATION_MESSAGES - 1
    ensures !AllAnchored(WholeRun(c, history, turns).asked[i])
  {
    UntrimmedShown(c, history, turns, i);
    UntrimmedShown(c, history, turns, i - 1);
    var asked := WholeRun(c, history, turns).asked;
    var reply := turns[i - 1].reply;
    LongAnswers(asked[i - 1], Assistant(reply.content, Calls(reply.attempts)), Calls(reply.attempts),
      ToolMessages(c, reply.attempts));
    hide WholeRun, ToolMessages, AnswersEveryCall, CleanCut, Shown, AllAnchored;
    CutShows(Untrimmed(c, history, turns, asked, i), turns[i].prompt);
  }

  lemma LongAnswers(shown: seq<Message>, reply: Message, calls: seq<ToolCall>, answers: seq<Message>)
    requires AnswersEveryCall(calls, answers) && |answers| >= MAX_CONVERSATION_MESSAGES - 1 && |shown| >= 1
    ensures !CleanCut(shown + [reply] + answers)
  {
    var ms := shown + [reply] + answers;
    assert ms[|ms| - (MAX_CONVERSATION_MESSAGES - 1)] == answers[|answers| - (MAX_CONVERSATION_MESSAGES - 1)];
  }

  /* ---------- usage ---------- */

  function TotalUsage(turns: seq<Turn>): Usage {
    if turns == [] then Usage(0, 0, 0) else AddUsage(TurnUsage(turns[0].reply), TotalUsage(turns[1..]))
  }

  lemma PassUsage(c: Config, ms: seq<Message>, writes: nat, t: Turn)
    requires |ms| >= 1
    ensures |Pass(c, ms, writes, t).executed| == 1 && Pass(c, ms, writes, t).usage == TurnUsage(t.reply)
  {
  }

  lemma TotalUsageCons(turns: seq<Turn>, n: nat)
    requires n < |turns|
    ensures TotalUsage(turns[..n + 1]) == AddUsage(TurnUsage(turns[0].reply), TotalUsage(turns[1..][..n]))
    ensures n == 0 ==> TotalUsage(turns[..n + 1]) == TurnUsage(turns[0].reply)
  {
    assert turns[..n + 1][1..] == turns[1..][..n];
  }

  /** The usage reported at the end is the sum over the turns that took place. */
  lemma {:induction false} UsageIsTotal(c: Config, ms: seq<Message>, writes: nat, turns: seq<Turn>)
    requires |ms| >= 1
    ensures
      var o := Run(c, ms, writes, turns);
      |o.executed| <= |turns| && o.usage == TotalUsage(turns[..|o.executed|])
    decreases |turns|
  {
    if turns != [] {
      var t := turns[0];
      hide Pass, Continued, WritesAfter, NeedsBulk, OverBudget, TurnUsage;
      PassUsage(c, ms, writes, t);
      if Stops(c, writes, t.reply) {
        TotalUsageCons(turns, 0);
      } else {
        UsageIsTotal(c, Continued(c, ms, t), WritesAfter(c, writes, t.reply), turns[1..]);
        TotalUsageCons(turns, |Run(c, Continued(c, ms, t), WritesAfter(c, writes, t.reply), turns[1..]).executed|);
        hide TotalUsage;
      }
    }
  }
}
