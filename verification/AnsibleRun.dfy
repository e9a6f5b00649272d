/** The output broadcaster of one playbook run (internal/api/ansible_runner.go, lines 15-79).
    First the protocol as a state machine over its lock-protected steps, then what holds of
    every interleaving of them, then the class that performs the steps. */
module AnsibleRun {

  const CHANNEL_CAPACITY: nat := 256

  datatype Status = Running | Success | Failed

  /** A subscriber's channel together with what its reader already has: the snapshot that
      `subscribe` returned, the lines received since, and the lines still buffered. */
  datatype Chan = Chan(snapshot: seq<string>, received: seq<string>, pending: seq<string>, closed: bool) {
    function Delivered(): seq<string> {
      snapshot + received + pending
    }
  }

  /** `chans` lists every channel ever handed out; `subs` holds positions in it. */
  datatype State = State(output: seq<string>, status: Status, exitCode: int, chans: seq<Chan>, subs: seq<nat>)

  datatype Step =
    | AddLine(line: string)
    | Subscribe
    | Receive(ch: nat)
    | Unsubscribe(ch: nat)
    | Finish(exitCode: int)

  const INIT := State([], Running, 0, [], [])

  /** A non-blocking send: a full buffer loses the line. */
  function Offer(ch: Chan, line: string): Chan {
    if |ch.pending| < CHANNEL_CAPACITY then ch.(pending := ch.pending + [line]) else ch
  }

  /** A receive on an empty channel waits (or reports the close): nothing changes. */
  function Take(ch: Chan): Chan {
    if |ch.pending| == 0 then ch
    else ch.(received := ch.received + [ch.pending[0]], pending := ch.pending[1..])
  }

  /** Removes the first occurrence of `x`. */
  function Without<T(==)>(s: seq<T>, x: T): seq<T> {
    if s == [] then [] else if s[0] == x then s[1..] else [s[0]] + Without(s[1..], x)
  }

  function Next(s: State, step: Step): State {
    match step
    case AddLine(line) =>
      s.(output := s.output + [line],
         chans := seq(|s.chans|, i requires 0 <= i < |s.chans| =>
           if i in s.subs then Offer(s.chans[i], line) else s.chans[i]))
    case Subscribe =>
      if s.status != Running then s
      else s.(chans := s.chans + [Chan(s.output, [], [], false)], subs := s.subs + [|s.chans|])
    case Receive(c) =>
      if c < |s.chans| then s.(chans := s.chans[c := Take(s.chans[c])]) else s
    case Unsubscribe(c) =>
      s.(subs := Without(s.subs, c))
    case Finish(code) =>
      s.(exitCode := code, status := if code == 0 then Success else Failed,
         chans := seq(|s.chans|, i requires 0 <= i < |s.chans| =>
           if i in s.subs then s.chans[i].(closed := true) else s.chans[i]),
         subs := [])
  }

  /** The state after performing `steps` in order; any interleaving is such a list. */
  function Reach(steps: seq<Step>): State {
    if steps == [] then INIT else Next(Reach(steps[..|steps| - 1]), steps[|steps| - 1])
  }

  /* ---------- reference notions, read off the step list ---------- */

  /** Every line ever printed, in order. */
  function Lines(steps: seq<Step>): seq<string> {
    if steps == [] then []
    else
      var last := steps[|steps| - 1];
      Lines(steps[..|steps| - 1]) + if last.AddLine? then [last.line] else []
  }

  /** Is `a` what remains of `b` after deleting some of its elements? */
  ghost predicate Subsequence(a: seq<string>, b: seq<string>) {
    a == [] ||
    (b != [] &&
     ((a[|a| - 1] == b[|b| - 1] && Subsequence(a[..|a| - 1], b[..|b| - 1])) ||
      Subsequence(a, b[..|b| - 1])))
  }

  predicate Attached(steps: seq<Step>, c: nat) {
    c in Reach(steps).subs
  }

  /** The output at the last moment channel `c` was attached. */
  function SeenOutput(steps: seq<Step>, c: nat): seq<string> {
    if steps == [] then []
    else if Attached(steps, c) then Lines(steps)
    else SeenOutput(steps[..|steps| - 1], c)
  }

  /** Did some line find channel `c` attached and full? */
  predicate Overflowed(steps: seq<Step>, c: nat) {
    steps != [] &&
    var before := Reach(steps[..|steps| - 1]);
    Overflowed(steps[..|steps| - 1], c) ||
    (steps[|steps| - 1].AddLine? && c in before.subs && c < |before.chans|
     && |before.chans[c].pending| >= CHANNEL_CAPACITY)
  }

  /** Was `c` taken off the subscriber list by its own reader? */
  predicate Left(steps: seq<Step>, c: nat) {
    steps != [] &&
    (Left(steps[..|steps| - 1], c) ||
     (steps[|steps| - 1] == Unsubscribe(c) && Attached(steps[..|steps| - 1], c)))
  }

  /* ---------- invariants of every interleaving ---------- */

  predicate Distinct<T(==)>(s: seq<T>) {
    forall i, j :: 0 <= i < j < |s| ==> s[i] != s[j]
  }

  lemma DistinctConcat<T>(a: seq<T>, b: seq<T>)
    requires Distinct(a) && Distinct(b) && forall x :: x in a ==> x !in b
    ensures Distinct(a + b)
  {
    forall i, j | 0 <= i < j < |a + b|
      ensures (a + b)[i] != (a + b)[j]
    {
      if i < |a| <= j {
        assert (a + b)[i] in a && (a + b)[j] in b;
      }
    }
  }

  lemma {:induction false} WithoutDistinct<T>(s: seq<T>, x: T)
    requires Distinct(s)
    ensures Distinct(Without(s, x))
    ensures forall y :: y in Without(s, x) <==> y in s && y != x
  {
    if s != [] {
      assert s == [s[0]] + s[1..];
      if s[0] != x {
        WithoutDistinct(s[1..], x);
        DistinctConcat([s[0]], Without(s[1..], x));
      }
    }
  }

  lemma NotBefore<T>(s: seq<T>, k: nat)
    requires Distinct(s) && k < |s|
    ensures s[k] !in s[..k] && forall i :: k < i < |s| ==> s[i] != s[k]
  {
  }

  lemma {:induction false} WithoutAt<T>(s: seq<T>, i: nat, x: T)
    requires i < |s| && s[i] == x && forall k :: 0 <= k < i ==> s[k] != x
    ensures Without(s, x) == s[..i] + s[i + 1..]
  {
    if i > 0 {
      WithoutAt(s[1..], i - 1, x);
      assert s[..i] == [s[0]] + s[1..][..i - 1];
    }
  }

  lemma {:induction false} WithoutAbsent<T>(s: seq<T>, x: T)
    requires x !in s
    ensures Without(s, x) == s
  {
    if s != [] {
      WithoutAbsent(s[1..], x);
    }
  }

  /** The subscriber list holds exactly the channels that are open and not unsubscribed,
      each once, and it is empty as soon as the run is over.  So no line is ever sent to a
      closed channel and no channel is closed twice. */
  lemma {:induction false} SubscribersAreTheOpenChannels(steps: seq<Step>)
    ensures
      var s := Reach(steps);
      && Distinct(s.subs)
      && (forall c: nat :: c in s.subs <==> c < |s.chans| && !s.chans[c].closed && !Left(steps, c))
      && (s.status != Running ==> s.subs == [])
      && (forall c: nat :: Left(steps, c) ==> c < |s.chans|)
  {
    if steps != [] {
      var front, last := steps[..|steps| - 1], steps[|steps| - 1];
      SubscribersAreTheOpenChannels(front);
      var s0 := Reach(front);
      match last
      case AddLine(_) =>
      case Subscribe =>
        DistinctConcat(s0.subs, [|s0.chans|]);
      case Receive(_) =>
      case Unsubscribe(c) =>
        WithoutDistinct(s0.subs, c);
      case Finish(_) =>
    }
  }

  lemma {:induction false} OutputIsEveryLine(steps: seq<Step>)
    ensures Reach(steps).output == Lines(steps)
  {
    if steps != [] {
      OutputIsEveryLine(steps[..|steps| - 1]);
    }
  }

  lemma SubsequenceGrows(a: seq<string>, b: seq<string>, x: string)
    requires Subsequence(a, b)
    ensures Subsequence(a, b + [x]) && Subsequence(a + [x], b + [x])
  {
  }

  lemma {:induction false} SubsequenceRefl(a: seq<string>)
    ensures Subsequence(a, a)
  {
    if a != [] {
      SubsequenceRefl(a[..|a| - 1]);
    }
  }

  /** What holds of one channel: it never invents or reorders lines, and it has everything
      that was printed while it was attached exactly when its buffer never overflowed. */
  ghost predicate Faithful(ch: Chan, seen: seq<string>, output: seq<string>, overflowed: bool) {
    && Subsequence(ch.Delivered(), output)
    && |ch.Delivered()| <= |seen|
    && (overflowed <==> ch.Delivered() != seen)
    && (overflowed ==> |ch.Delivered()| < |seen|)
  }

  lemma StepKeepsDelivered(ch: Chan)
    ensures Take(ch).Delivered() == ch.Delivered()
  {
  }

  ghost predicate FaithfulAfter(steps: seq<Step>, c: nat) {
    c < |Reach(steps).chans| &&
    Faithful(Reach(steps).chans[c], SeenOutput(steps, c), Lines(steps), Overflowed(steps, c))
  }

  lemma DeliveryOfNew(front: seq<Step>, c: nat)
    requires c == |Reach(front).chans| && Reach(front).status == Running
    ensures FaithfulAfter(front + [Subscribe], c)
  {
    var steps := front + [Subscribe];
    assert steps[..|steps| - 1] == front;
    OutputIsEveryLine(front);
    OutputIsEveryLine(steps);
    assert Reach(steps).chans[c].Delivered() == Lines(steps);
    SubsequenceRefl(Lines(steps));
    NotOverflowedBefore(front, c);
    SeenIsCurrent(steps, c);
  }

  lemma DeliveryOfLine(front: seq<Step>, line: string, c: nat)
    requires FaithfulAfter(front, c)
    ensures FaithfulAfter(front + [AddLine(line)], c)
  {
    var steps := front + [AddLine(line)];
    assert steps[..|steps| - 1] == front;
    var s0 := Reach(front);
    var ch0, ch := s0.chans[c], Reach(steps).chans[c];
    SubsequenceGrows(ch0.Delivered(), Lines(front), line);
    if c in s0.subs {
      SeenIsCurrent(front, c);
      SeenIsCurrent(steps, c);
      if |ch0.pending| < CHANNEL_CAPACITY {
        assert ch.Delivered() == ch0.Delivered() + [line];
      }
    }
  }

  lemma DeliveryOfOther(front: seq<Step>, last: Step, c: nat)
    requires FaithfulAfter(front, c) && !last.AddLine?
    ensures FaithfulAfter(front + [last], c)
  {
    var steps := front + [last];
    assert steps[..|steps| - 1] == front;
    var ch0, ch := Reach(front).chans[c], Reach(steps).chans[c];
    StepKeepsDelivered(ch0);
    assert ch.Delivered() == ch0.Delivered();
    assert Lines(steps) == Lines(front);
    SeenUnchanged(front, last, c);
  }

  /** In every interleaving, snapshot ++ received ++ pending is a subsequence of the run's
      output; it equals the output up to the channel's last attached moment if and only if
      no line ever found the channel with CHANNEL_CAPACITY lines pending. */
  lemma {:induction false} Delivery(steps: seq<Step>, c: nat)
    requires c < |Reach(steps).chans|
    ensures Faithful(Reach(steps).chans[c], SeenOutput(steps, c), Lines(steps), Overflowed(steps, c))
  {
    var front, last := steps[..|steps| - 1], steps[|steps| - 1];
    assert steps == front + [last];
    if c == |Reach(front).chans| {
      DeliveryOfNew(front, c);
    } else {
      Delivery(front, c);
      if last.AddLine? {
        DeliveryOfLine(front, last.line, c);
      } else {
        DeliveryOfOther(front, last, c);
      }
    }
  }

  lemma SeenIsCurrent(steps: seq<Step>, c: nat)
    requires Attached(steps, c)
    ensures SeenOutput(steps, c) == Lines(steps)
  {
  }

  lemma SeenUnchanged(front: seq<Step>, last: Step, c: nat)
    requires !last.AddLine? && c < |Reach(front).chans|
    ensures SeenOutput(front + [last], c) == SeenOutput(front, c)
  {
    var steps := front + [last];
    assert steps[..|steps| - 1] == front;
    SubscribersAreTheOpenChannels(front);
    if last.Unsubscribe? {
      WithoutDistinct(Reach(front).subs, last.ch);
    }
    if Attached(steps, c) {
      assert Attached(front, c);
      assert Lines(steps) == Lines(front);
    }
  }

  lemma {:induction false} NotOverflowedBefore(steps: seq<Step>, c: nat)
    requires c >= |Reach(steps).chans|
    ensures !Overflowed(steps, c)
  {
    if steps != [] {
      NotOverflowedBefore(steps[..|steps| - 1], c);
    }
  }

  /* ---------- how a run ends ---------- */

  /** The k-th step is the last Finish. */
  predicate LastFinish(steps: seq<Step>, k: nat) {
    k < |steps| && steps[k].Finish? && forall m :: k < m < |steps| ==> !steps[m].Finish?
  }

  /** A run is running exactly until it is finished; then its exit code is the one it was last
      finished with, and it was a success exactly if that is 0. */
  lemma {:induction false} StatusIsLastFinish(steps: seq<Step>)
    ensures Reach(steps).status == Running <==> forall k :: 0 <= k < |steps| ==> !steps[k].Finish?
    ensures forall k: nat :: LastFinish(steps, k) ==>
      && Reach(steps).exitCode == steps[k].exitCode
      && (Reach(steps).status == Success <==> steps[k].exitCode == 0)
      && (Reach(steps).status == Failed <==> steps[k].exitCode != 0)
  {
    if steps != [] {
      var front, last := steps[..|steps| - 1], steps[|steps| - 1];
      StatusIsLastFinish(front);
      assert forall k :: 0 <= k < |front| ==> front[k] == steps[k];
      if !last.Finish? {
        forall k: nat | LastFinish(steps, k)
          ensures LastFinish(front, k) && front[k] == steps[k]
        {
        }
      }
    }
  }

  /** The k-th step finishes the run while channel c is attached. */
  predicate FinishedOn(steps: seq<Step>, k: nat, c: nat)
    requires k < |steps|
  {
    steps[k].Finish? && Attached(steps[..k], c)
  }

  lemma ClosedStep(s: State, step: Step, c: nat)
    requires c < |s.chans|
    ensures c < |Next(s, step).chans|
    ensures Next(s, step).chans[c].closed <==> s.chans[c].closed || (step.Finish? && c in s.subs)
  {
  }

  lemma FinishedOnPrefix(steps: seq<Step>, c: nat)
    requires steps != []
    ensures
      var n := |steps| - 1;
      (exists k :: 0 <= k < |steps| && FinishedOn(steps, k, c)) <==>
        (exists k :: 0 <= k < n && FinishedOn(steps[..n], k, c)) || FinishedOn(steps, n, c)
  {
    var n := |steps| - 1;
    var front := steps[..n];
    forall k | 0 <= k < n
      ensures FinishedOn(steps, k, c) == FinishedOn(front, k, c)
    {
      assert steps[..k] == front[..k] && steps[k] == front[k];
      hide Attached;
    }
    hide FinishedOn;
    if k :| 0 <= k < n && FinishedOn(front, k, c) {
      assert FinishedOn(steps, k, c);
    }
  }

  /** A channel is closed exactly if it was attached when the run was finished. */
  lemma {:induction false} ClosedIff(steps: seq<Step>, c: nat)
    requires c < |Reach(steps).chans|
    ensures Reach(steps).chans[c].closed <==> exists k :: 0 <= k < |steps| && FinishedOn(steps, k, c)
  {
    assert steps != [];
    var n := |steps| - 1;
    var front := steps[..n];
    assert Reach(steps) == Next(Reach(front), steps[n]);
    assert FinishedOn(steps, n, c) <==> steps[n].Finish? && c in Reach(front).subs;
    hide Reach, Next, FinishedOn;
    FinishedOnPrefix(steps, c);
    if c < |Reach(front).chans| {
      ClosedIff(front, c);
      ClosedStep(Reach(front), steps[n], c);
    } else {
      NewIsOpen(Reach(front), steps[n], c);
      NeverFinishedOn(front, c);
    }
  }

  lemma NewIsOpen(s: State, step: Step, c: nat)
    requires |s.chans| <= c < |Next(s, step).chans|
    ensures !Next(s, step).chans[c].closed && !step.Finish?
  {
  }

  lemma NeverFinishedOn(steps: seq<Step>, c: nat)
    requires c >= |Reach(steps).chans|
    ensures !exists k :: 0 <= k < |steps| && FinishedOn(steps, k, c)
  {
    hide Reach;
    forall k | 0 <= k < |steps|
      ensures !FinishedOn(steps, k, c)
    {
      NotYetThere(steps, k, c);
    }
  }

  lemma {:induction false} NotYetThere(steps: seq<Step>, k: nat, c: nat)
    requires k <= |steps| && c >= |Reach(steps).chans|
    ensures !Attached(steps[..k], c)
  {
    if k == |steps| {
      assert steps[..k] == steps;
      SubscribersAreTheOpenChannels(steps);
    } else {
      assert steps[..|steps| - 1][..k] == steps[..k];
      NotYetThere(steps[..|steps| - 1], k, c);
    }
  }

  function Receives(c: nat, n: nat): seq<Step> {
    seq(n, _ => Receive(c))
  }

  /** A reader that goes on receiving gets the buffered lines, in order, and all of them in the
      end. */
  lemma {:induction false} ReaderGetsAll(steps: seq<Step>, c: nat, n: nat)
    requires c < |Reach(steps).chans| && n <= |Reach(steps).chans[c].pending|
    ensures
      var before, s := Reach(steps).chans[c], Reach(steps + Receives(c, n));
      && c < |s.chans|
      && s.chans[c].received == before.received + before.pending[..n] && s.chans[c].pending == before.pending[n..]
    decreases n
  {
    if n == 0 {
      assert steps + Receives(c, 0) == steps;
    } else {
      var next := steps + [Receive(c)];
      ReceiveOne(steps, c);
      hide Reach;
      ReaderGetsAll(next, c, n - 1);
      assert steps + Receives(c, n) == next + Receives(c, n - 1);
      var ch := Reach(steps).chans[c];
      assert ch.received + [ch.pending[0]] + ch.pending[1..][..n - 1] == ch.received + ch.pending[..n];
      assert ch.pending[1..][n - 1..] == ch.pending[n..];
    }
  }

  lemma ReceiveOne(steps: seq<Step>, c: nat)
    requires c < |Reach(steps).chans| && |Reach(steps).chans[c].pending| > 0
    ensures
      var ch, s1 := Reach(steps).chans[c], Reach(steps + [Receive(c)]);
      && c < |s1.chans|
      && s1.chans[c].received == ch.received + [ch.pending[0]] && s1.chans[c].pending == ch.pending[1..]
  {
    assert (steps + [Receive(c)])[..|steps|] == steps;
  }

  /* ---------- the class ---------- */

  /** A buffered Go channel of lines. */
  class Channel {
    ghost const id: nat
    var buf: seq<string>
    var closed: bool
    ghost var snapshot: seq<string>
    ghost var received: seq<string>

    ghost function View(): Chan
      reads this
    {
      Chan(snapshot, received, buf, closed)
    }

    constructor (ghost id: nat, ghost snapshot: seq<string>)
      ensures this.id == id && View() == Chan(snapshot, [], [], false)
    {
      this.id := id;
      buf, closed := [], false;
      this.snapshot, received := snapshot, [];
    }

    /** `select { case ch <- line: default: }`; sending on a closed channel panics. */
    method TrySend(line: string)
      requires !closed
      modifies this
      ensures View() == Offer(old(View()), line)
    {
      if |buf| < CHANNEL_CAPACITY {
        buf := buf + [line];
      }
    }

    /** Closing a closed channel panics. */
    method Close()
      requires !closed
      modifies this
      ensures View() == old(View()).(closed := true)
    {
      closed := true;
    }

    /** One receive; `ready` is false when nothing is buffered. */
    method Receive() returns (line: string, ready: bool)
      modifies this
      ensures View() == Take(old(View()))
      ensures ready == (|old(buf)| > 0) && (ready ==> line == old(buf)[0])
    {
      ready := |buf| > 0;
      line := "";
      if ready {
        line := buf[0];
        buf, received := buf[1..], received + [line];
      }
    }
  }

  class Run {
    var output: seq<string>
    var status: Status
    var exitCode: int
    var subs: seq<Channel>
    ghost var issued: seq<Channel>

    ghost predicate Valid()
      reads this, issued
    {
      && (forall i :: 0 <= i < |issued| ==> issued[i].id == i)
      && (forall i :: 0 <= i < |subs| ==> subs[i] in issued && !subs[i].closed)
      && Distinct(subs)
    }

    ghost function Ids(s: seq<Channel>): seq<nat> {
      seq(|s|, i requires 0 <= i < |s| => s[i].id)
    }

    ghost function Abs(): State
      reads this, issued
    {
      State(output, status, exitCode,
        seq(|issued|, i requires 0 <= i < |issued| reads this, issued => issued[i].View()), Ids(subs))
    }

    lemma IdsInSubs(ch: Channel)
      requires Valid() && ch in issued
      ensures ch.id in Ids(subs) <==> ch in subs
    {
      if ch.id in Ids(subs) {
        var i :| 0 <= i < |subs| && Ids(subs)[i] == ch.id;
        assert subs[i] in issued;
      }
      if ch in subs {
        var i :| 0 <= i < |subs| && subs[i] == ch;
        assert Ids(subs)[i] == ch.id;
      }
    }

    constructor ()
      ensures Valid() && Abs() == INIT
    {
      output, status, exitCode := [], Running, 0;
      subs, issued := [], [];
    }

    method AddLine(line: string)
      requires Valid()
      modifies this, subs
      ensures Valid() && issued == old(issued)
      ensures Abs() == Next(old(Abs()), Step.AddLine(line))
    {
      hide Distinct;
      output := output + [line];
      for k := 0 to |subs|
        invariant subs == old(subs) && issued == old(issued) && output == old(output) + [line]
        invariant status == old(status) && exitCode == old(exitCode)
        invariant Valid()
        invariant forall ch :: ch in subs[..k] ==> ch.View() == Offer(old(ch.View()), line)
        invariant forall ch :: ch in issued && ch !in subs[..k] ==> ch.View() == old(ch.View())
      {
        NotBefore(subs, k);
        subs[k].TrySend(line);
        assert subs[..k + 1] == subs[..k] + [subs[k]];
      }
      assert subs[..|subs|] == subs;
      forall i | 0 <= i < |issued|
        ensures i in old(Ids(subs)) <==> issued[i] in subs
      {
        IdsInSubs(issued[i]);
      }
      assert Abs().chans == Next(old(Abs()), Step.AddLine(line)).chans;
    }

    /** Closes every subscriber's channel. */
    method CloseAll()
      requires Valid()
      modifies subs
      ensures forall ch :: ch in issued ==>
        ch.View() == if ch in subs then old(ch.View()).(closed := true) else old(ch.View())
    {
      hide Distinct;
      for k := 0 to |subs|
        invariant forall i :: k <= i < |subs| ==> !subs[i].closed
        invariant forall ch :: ch in subs[..k] ==> ch.View() == old(ch.View()).(closed := true)
        invariant forall ch :: ch in issued && ch !in subs[..k] ==> ch.View() == old(ch.View())
      {
        NotBefore(subs, k);
        subs[k].Close();
        assert subs[..k + 1] == subs[..k] + [subs[k]];
      }
      assert subs[..|subs|] == subs;
    }

    method Finish(code: int)
      requires Valid()
      modifies this, subs
      ensures Valid() && issued == old(issued)
      ensures Abs() == Next(old(Abs()), Step.Finish(code))
      ensures exitCode == code && status == if code == 0 then Success else Failed
    {
      hide Distinct;
      forall i | 0 <= i < |issued|
        ensures i in Ids(subs) <==> issued[i] in subs
      {
        IdsInSubs(issued[i]);
      }
      CloseAll();
      exitCode := code;
      if code == 0 {
        status := Success;
      } else {
        status := Failed;
      }
      subs := [];
      DistinctNone();
      assert Abs().chans == Next(old(Abs()), Step.Finish(code)).chans;
    }

    lemma DistinctNone()
      ensures Distinct<Channel>([])
    {
    }

    method Subscribe() returns (snapshot: seq<string>, ch: Channel?)
      requires Valid()
      modifies this
      ensures Valid() && Abs() == Next(old(Abs()), Step.Subscribe)
      ensures snapshot == output
      ensures ch == null <==> status != Running
      ensures ch == null ==> issued == old(issued)
      ensures ch != null ==> fresh(ch) && issued == old(issued) + [ch] && ch.View() == Chan(snapshot, [], [], false)
    {
      snapshot := output;
      if status != Running {
        return snapshot, null;
      }
      var c := new Channel(|issued|, snapshot);
      DistinctConcat(subs, [c]);
      subs := subs + [c];
      issued := issued + [c];
      assert Abs().chans == old(Abs()).chans + [c.View()];
      assert Abs().subs == old(Abs()).subs + [c.id];
      ch := c;
    }

    method Receive(ch: Channel) returns (line: string, ready: bool)
      requires Valid() && ch in issued
      modifies ch
      ensures Valid() && Abs() == Next(old(Abs()), Step.Receive(ch.id))
      ensures ready == (|old(ch.buf)| > 0) && (ready ==> line == old(ch.buf)[0])
    {
      line, ready := ch.Receive();
      assert Abs().chans == old(Abs()).chans[ch.id := ch.View()];
    }

    method Unsubscribe(ch: Channel)
      requires Valid() && ch in issued
      modifies this
      ensures Valid() && issued == old(issued)
      ensures Abs() == Next(old(Abs()), Step.Unsubscribe(ch.id))
    {
      for i := 0 to |subs|
        invariant subs == old(subs) && output == old(output) && status == old(status)
        invariant exitCode == old(exitCode) && issued == old(issued) && Valid()
        invariant forall k :: 0 <= k < i ==> subs[k] != ch
      {
        if subs[i] == ch {
          WithoutAt(subs, i, ch);
          WithoutIds(subs, ch);
          WithoutDistinct(subs, ch);
          subs := subs[..i] + subs[i + 1..];
          return;
        }
      }
      assert subs == subs[..|subs|];
      WithoutAbsent(subs, ch);
      WithoutIds(subs, ch);
    }

    lemma {:induction false} WithoutIds(s: seq<Channel>, ch: Channel)
      requires Valid() && ch in issued && forall i :: 0 <= i < |s| ==> s[i] in issued
      ensures Ids(Without(s, ch)) == Without(Ids(s), ch.id)
    {
      if s != [] {
        assert Ids(s)[1..] == Ids(s[1..]);
        assert s[0] in issued;
        if s[0] != ch {
          WithoutIds(s[1..], ch);
        }
      }
    }
  }
}
