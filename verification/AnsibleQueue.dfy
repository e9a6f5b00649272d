/** The queue of automatic playbook runs (internal/api/ansible_runner.go, lines 81-255) and the
    check a manual run makes (internal/api/handlers_ansible_run.go, lines 86-94).  A step is one
    stretch of code under a mutex; deciding to start a run, starting it, its end and the call of
    dequeueNext that follows are separate steps, so several runs may be under way at once. */
module AnsibleQueue {
  import opened Text
  import AnsibleRun

  datatype QueueEntry = QueueEntry(playbook: string, vms: seq<string>)

  /** Runs are numbered as they start.  `underWay` are those whose status is running; `launching`
      counts decisions to start a run that have not reached `start` yet; `owed` are ended runs
      whose goroutine has still to call dequeueNext. */
  datatype State<E> = State(current: Option<nat>, underWay: set<nat>, started: nat, launching: nat,
                            queue: seq<E>, owed: set<nat>)

  /** Manual is the handler's look at the status of the run that it read as the current one
      before; any run that ever started may be that one, and so may none.  Abandon is a launch
      given up (startFunc or the handler returns early).  A run whose process never ran does
      not call dequeueNext. */
  datatype Step<E> =
    | Enqueue(entry: E)
    | Manual(seen: Option<nat>)
    | DequeueNext(run: nat)
    | ClearQueue
    | Start
    | Abandon
    | Finish(run: nat, processRan: bool)
    | Clear

  function Init<E>(): State<E> {
    State(None, {}, 0, 0, [], {})
  }

  predicate Over<E>(s: State<E>, run: Option<nat>) {
    run.None? || run.value !in s.underWay
  }

  /** What enqueue checks: there is no current run, or it is over. */
  predicate Idle<E>(s: State<E>) {
    Over(s, s.current)
  }

  function Next<E>(s: State<E>, step: Step<E>): State<E> {
    match step
    case Enqueue(e) => if Idle(s) then s.(launching := s.launching + 1) else s.(queue := s.queue + [e])
    case Manual(seen) => if Over(s, seen) then s.(launching := s.launching + 1) else s
    case DequeueNext(r) =>
      if r !in s.owed then s
      else if |s.queue| == 0 then s.(owed := s.owed - {r})
      else s.(owed := s.owed - {r}, current := None, queue := s.queue[1..], launching := s.launching + 1)
    case ClearQueue => s.(queue := [])
    case Start =>
      if s.launching == 0 then s
      else s.(current := Some(s.started), underWay := s.underWay + {s.started}, started := s.started + 1,
              launching := s.launching - 1)
    case Abandon => if s.launching == 0 then s else s.(launching := s.launching - 1)
    case Finish(r, ran) =>
      if r !in s.underWay then s
      else s.(underWay := s.underWay - {r}, owed := if ran then s.owed + {r} else s.owed)
    case Clear => if Idle(s) then s.(current := None) else s
  }

  /** The entry that the step hands to startFunc once the lock is released, if any. */
  function HandsOver<E>(s: State<E>, step: Step<E>): seq<E> {
    match step
    case Enqueue(e) => if Idle(s) then [e] else []
    case DequeueNext(r) => if r in s.owed && |s.queue| > 0 then [s.queue[0]] else []
    case _ => []
  }

  /** Does the step decide that a run is to be started? */
  predicate Launches<E>(s: State<E>, step: Step<E>) {
    |HandsOver(s, step)| > 0 || (step.Manual? && Over(s, step.seen))
  }

  function Reach<E>(steps: seq<Step<E>>): State<E> {
    if |steps| == 0 then Init() else Next(Reach(steps[..|steps| - 1]), steps[|steps| - 1])
  }

  /* ---------- what happened, read off the step list ---------- */

  function Requested<E>(steps: seq<Step<E>>): seq<E> {
    if |steps| == 0 then []
    else
      var front, last := steps[..|steps| - 1], steps[|steps| - 1];
      if last.Enqueue? then Requested(front) + [last.entry] else Requested(front)
  }

  function Handed<E>(steps: seq<Step<E>>): seq<E> {
    if |steps| == 0 then []
    else
      var front := steps[..|steps| - 1];
      Handed(front) + HandsOver(Reach(front), steps[|steps| - 1])
  }

  function Dropped<E>(steps: seq<Step<E>>): seq<E> {
    if |steps| == 0 then []
    else
      var front := steps[..|steps| - 1];
      if steps[|steps| - 1].ClearQueue? then Dropped(front) + Reach(front).queue else Dropped(front)
  }

  /** Entries in the order they joined the queue. */
  function Joined<E>(steps: seq<Step<E>>): seq<E> {
    if |steps| == 0 then []
    else
      var front, last := steps[..|steps| - 1], steps[|steps| - 1];
      if last.Enqueue? && !Idle(Reach(front)) then Joined(front) + [last.entry] else Joined(front)
  }

  /** Entries in the order they left the queue, taken or cleared. */
  function Departed<E>(steps: seq<Step<E>>): seq<E> {
    if |steps| == 0 then []
    else
      var front, last := steps[..|steps| - 1], steps[|steps| - 1];
      match last
      case DequeueNext(_) => Departed(front) + HandsOver(Reach(front), last)
      case ClearQueue => Departed(front) + Reach(front).queue
      case _ => Departed(front)
  }

  /* ---------- every interleaving ---------- */

  /** First in, first out: what joined is what left followed by what waits, in order. */
  lemma {:induction false} FirstInFirstOut<E>(steps: seq<Step<E>>)
    ensures Joined(steps) == Departed(steps) + Reach(steps).queue
  {
    if steps != [] {
      var front, last := steps[..|steps| - 1], steps[|steps| - 1];
      FirstInFirstOut(front);
      var gone, q := Departed(front), Reach(front).queue;
      if last.Enqueue? && !Idle(Reach(front)) {
        assert gone + q + [last.entry] == gone + (q + [last.entry]);
      } else if last.DequeueNext? && q != [] {
        assert gone + q == gone + [q[0]] + q[1..];
      }
    }
  }

  /** One step moves requests between the three places and loses none. */
  lemma StepConserves<E>(s: State<E>, step: Step<E>)
    ensures
      var asked := if step.Enqueue? then [step.entry] else [];
      var dropped := if step.ClearQueue? then s.queue else [];
      multiset(s.queue) + multiset(asked)
        == multiset(HandsOver(s, step)) + multiset(Next(s, step).queue) + multiset(dropped)
  {
    if step.DequeueNext? && s.queue != [] {
      assert s.queue == [s.queue[0]] + s.queue[1..];
    }
  }

  lemma Rearrange<T>(r: multiset<T>, h: multiset<T>, q: multiset<T>, d: multiset<T>,
      r1: multiset<T>, h1: multiset<T>, q1: multiset<T>, d1: multiset<T>)
    requires r == h + q + d && q + r1 == h1 + q1 + d1
    ensures r + r1 == (h + h1) + q1 + (d + d1)
  {
    forall x: T
      ensures (r + r1)[x] == ((h + h1) + q1 + (d + d1))[x]
    {
      assert (q + r1)[x] == (h1 + q1 + d1)[x];
    }
  }

  /** No request is lost or doubled: each is handed to startFunc, waiting, or cleared. */
  lemma {:induction false} Conservation<E>(steps: seq<Step<E>>)
    ensures multiset(Requested(steps))
         == multiset(Handed(steps)) + multiset(Reach(steps).queue) + multiset(Dropped(steps))
  {
    if steps != [] {
      var front, last := steps[..|steps| - 1], steps[|steps| - 1];
      Conservation(front);
      StepConserves(Reach(front), last);
      var asked := if last.Enqueue? then [last.entry] else [];
      var dropped := if last.ClearQueue? then Reach(front).queue else [];
      assert Requested(steps) == Requested(front) + asked;
      assert Dropped(steps) == Dropped(front) + dropped;
      assert Handed(steps) == Handed(front) + HandsOver(Reach(front), last);
      Rearrange(multiset(Requested(front)), multiset(Handed(front)), multiset(Reach(front).queue),
        multiset(Dropped(front)), multiset(asked), multiset(HandsOver(Reach(front), last)),
        multiset(Reach(steps).queue), multiset(dropped));
    }
  }

  lemma {:induction false} DistinctMultiplicity<T>(s: seq<T>, x: T)
    requires AnsibleRun.Distinct(s)
    ensures multiset(s)[x] == if x in s then 1 else 0
  {
    if s != [] {
      assert s == [s[0]] + s[1..];
      DistinctMultiplicity(s[1..], x);
    }
  }

  /* ---------- requests told apart by their number ---------- */

  function Unnumbered<E>(s: seq<(nat, E)>): seq<E> {
    seq(|s|, i requires 0 <= i < |s| => s[i].1)
  }

  function WithNumber<E>(step: Step<E>, n: nat): Step<(nat, E)> {
    match step
    case Enqueue(e) => Enqueue((n, e))
    case Manual(seen) => Manual(seen)
    case DequeueNext(r) => DequeueNext(r)
    case ClearQueue => ClearQueue
    case Start => Start
    case Abandon => Abandon
    case Finish(r, ran) => Finish(r, ran)
    case Clear => Clear
  }

  /** The same steps with every request carrying its number. */
  function Numbered<E>(steps: seq<Step<E>>): seq<Step<(nat, E)>> {
    if |steps| == 0 then []
    else
      var front := steps[..|steps| - 1];
      Numbered(front) + [WithNumber(steps[|steps| - 1], |Requested(front)|)]
  }

  /** The runner never looks at the numbers: but for them, the runs are the same. */
  ghost predicate SameButNumbers<E>(n: State<(nat, E)>, s: State<E>) {
    && n.current == s.current && n.underWay == s.underWay && n.started == s.started
    && n.launching == s.launching && n.owed == s.owed && Unnumbered(n.queue) == s.queue
  }

  lemma NumbersUnseen<E>(n: State<(nat, E)>, s: State<E>, step: Step<E>, i: nat)
    requires SameButNumbers(n, s)
    ensures SameButNumbers(Next(n, WithNumber(step, i)), Next(s, step))
    ensures Unnumbered(HandsOver(n, WithNumber(step, i))) == HandsOver(s, step)
  {
  }

  predicate InOrder<E>(s: seq<(nat, E)>) {
    forall i :: 0 <= i < |s| ==> s[i].0 == i
  }

  lemma UnnumberedConcat<E>(a: seq<(nat, E)>, b: seq<(nat, E)>)
    ensures Unnumbered(a + b) == Unnumbered(a) + Unnumbered(b)
  {
  }

  lemma NumberedOneMore<E>(steps: seq<Step<E>>)
    requires steps != []
    ensures
      var front, last := steps[..|steps| - 1], steps[|steps| - 1];
      var n, m := Numbered(steps), Numbered(front);
      n[..|n| - 1] == m && n[|n| - 1] == WithNumber(last, |Requested(front)|)
  {
  }

  lemma {:induction false} NumberedReach<E>(steps: seq<Step<E>>)
    ensures SameButNumbers(Reach(Numbered(steps)), Reach(steps))
  {
    if steps != [] {
      var front := steps[..|steps| - 1];
      NumberedReach(front);
      NumberedOneMore(steps);
      NumbersUnseen(Reach(Numbered(front)), Reach(front), steps[|steps| - 1], |Requested(front)|);
    }
  }

  lemma {:induction false} NumberedHanded<E>(steps: seq<Step<E>>)
    ensures Unnumbered(Handed(Numbered(steps))) == Handed(steps)
  {
    if steps != [] {
      var front, last := steps[..|steps| - 1], steps[|steps| - 1];
      var n, step := Numbered(front), WithNumber(last, |Requested(front)|);
      NumberedHanded(front);
      NumberedReach(front);
      NumberedOneMore(steps);
      NumbersUnseen(Reach(n), Reach(front), last, |Requested(front)|);
      UnnumberedConcat(Handed(n), HandsOver(Reach(n), step));
      hide HandsOver, Next, Unnumbered;
    }
  }

  lemma {:induction false} NumberedDropped<E>(steps: seq<Step<E>>)
    ensures Unnumbered(Dropped(Numbered(steps))) == Dropped(steps)
  {
    if steps != [] {
      var front := steps[..|steps| - 1];
      NumberedDropped(front);
      NumberedReach(front);
      NumberedOneMore(steps);
      UnnumberedConcat(Dropped(Numbered(front)), Reach(Numbered(front)).queue);
      hide Next, Unnumbered;
    }
  }

  /** The numbers are 0, 1, 2, ... */
  lemma {:induction false} NumberedRequested<E>(steps: seq<Step<E>>)
    ensures InOrder(Requested(Numbered(steps)))
    ensures Unnumbered(Requested(Numbered(steps))) == Requested(steps)
  {
    if steps != [] {
      var front, last := steps[..|steps| - 1], steps[|steps| - 1];
      NumberedRequested(front);
      NumberedOneMore(steps);
      var asked := Requested(Numbered(front));
      assert |asked| == |Unnumbered(asked)|;
      if last.Enqueue? {
        UnnumberedConcat(asked, [(|asked|, last.entry)]);
        assert Unnumbered([(|asked|, last.entry)]) == [last.entry];
      }
    }
  }

  /** Without the numbers, what was handed over, waits and was dropped is just that. */
  lemma NumbersErased<E>(steps: seq<Step<E>>)
    ensures Unnumbered(Handed(Numbered(steps))) == Handed(steps)
    ensures Unnumbered(Reach(Numbered(steps)).queue) == Reach(steps).queue
    ensures Unnumbered(Dropped(Numbered(steps))) == Dropped(steps)
  {
    NumberedHanded(steps);
    NumberedReach(steps);
    NumberedDropped(steps);
  }

  /** The i-th request, told apart from all others by its number, is in exactly one place:
      handed to startFunc, waiting, or dropped by a clear. */
  lemma ExactlyOnePlace<E>(steps: seq<Step<E>>, i: nat)
    requires i < |Requested(steps)|
    ensures
      var n, x := Numbered(steps), (i, Requested(steps)[i]);
      var h, w, d := x in Handed(n), x in Reach(n).queue, x in Dropped(n);
      (h && !w && !d) || (!h && w && !d) || (!h && !w && d)
  {
    NumberedRequested(steps);
    var n, x := Numbered(steps), (i, Requested(steps)[i]);
    assert Requested(n)[i] == x;
    Conservation(n);
    DistinctMultiplicity(Requested(n), x);
    assert x in Handed(n) <==> x in multiset(Handed(n));
    assert x in Dropped(n) <==> x in multiset(Dropped(n));
    assert x in Reach(n).queue <==> x in multiset(Reach(n).queue);
  }

  /* ---------- launches and ends add up ---------- */

  /** Decisions to start a run. */
  function Decided<E>(steps: seq<Step<E>>): nat {
    if |steps| == 0 then 0
    else
      var front := steps[..|steps| - 1];
      if Launches(Reach(front), steps[|steps| - 1]) then Decided(front) + 1 else Decided(front)
  }

  /** Launches given up on their way. */
  function GivenUp<E>(steps: seq<Step<E>>): nat {
    if |steps| == 0 then 0
    else
      var front := steps[..|steps| - 1];
      if steps[|steps| - 1].Abandon? && Reach(front).launching > 0 then GivenUp(front) + 1 else GivenUp(front)
  }

  /** Every decision ends in a started run, is given up, or is still on its way. */
  lemma {:induction false} LaunchesAddUp<E>(steps: seq<Step<E>>)
    ensures Decided(steps) == Reach(steps).started + GivenUp(steps) + Reach(steps).launching
  {
    if steps != [] {
      LaunchesAddUp(steps[..|steps| - 1]);
    }
  }

  /** How often the goroutine of this run took its turn at the queue. */
  ghost function TurnsOf<E>(steps: seq<Step<E>>, r: nat): nat {
    if |steps| == 0 then 0
    else
      var front := steps[..|steps| - 1];
      if steps[|steps| - 1] == DequeueNext(r) && r in Reach(front).owed then TurnsOf(front, r) + 1 else TurnsOf(front, r)
  }

  /** A run takes its turn at the queue at most once, and not before it is over. */
  lemma {:induction false} OneTurnEach<E>(steps: seq<Step<E>>, r: nat)
    ensures
      var s := Reach(steps);
      && TurnsOf(steps, r) + (if r in s.owed then 1 else 0) <= 1
      && (r >= s.started || r in s.underWay ==> r !in s.owed && TurnsOf(steps, r) == 0)
  {
    if steps != [] {
      OneTurnEach(steps[..|steps| - 1], r);
      NumbersBelow(steps[..|steps| - 1]);
    }
  }

  /* ---------- one run at a time ---------- */

  /** Launches and runs take their course; nothing new is requested. */
  predicate Settling<E>(more: seq<Step<E>>) {
    forall i :: 0 <= i < |more| ==> more[i].Start? || more[i].Abandon? || more[i].Finish?
  }

  /** The number of runs under way after these steps. */
  function UnderWay<E>(steps: seq<Step<E>>): nat {
    |Reach(steps).underWay|
  }

  /** At no point are two runs under way, nor will there be two when the launches decided on
      so far take their course. */
  ghost predicate OneRun<E(!new)>(steps: seq<Step<E>>) {
    forall k, more :: 0 <= k <= |steps| && Settling(more) ==> UnderWay(steps[..k] + more) <= 1
  }

  /** Whoever decides to start a run does so while the check of enqueue would succeed and no
      launch decided on earlier is still on its way to `start`.  (enqueue makes that check
      itself; a manual run may have made it too early; dequeueNext does not make it.) */
  predicate Warranted<E>(s: State<E>, step: Step<E>) {
    Launches(s, step) ==> Idle(s) && s.launching == 0
  }

  predicate AllWarranted<E>(steps: seq<Step<E>>) {
    forall k :: 0 <= k < |steps| ==> Warranted(Reach(steps[..k]), steps[k])
  }

  /** The run under way, if any, is the current one, and nothing is being launched beside it. */
  predicate OnlyCurrent<E>(s: State<E>) {
    s.launching <= 1 &&
    (s.underWay == {} || (s.launching == 0 && s.current.Some? && s.underWay == {s.current.value}))
  }

  lemma StepOnlyCurrent<E>(s: State<E>, step: Step<E>)
    requires OnlyCurrent(s) && Warranted(s, step)
    ensures OnlyCurrent(Next(s, step))
  {
  }

  lemma {:induction false} WarrantedOnlyCurrent<E>(steps: seq<Step<E>>)
    requires AllWarranted(steps)
    ensures OnlyCurrent(Reach(steps))
  {
    if steps != [] {
      var front := steps[..|steps| - 1];
      assert forall k :: 0 <= k < |front| ==> steps[k] == front[k] && steps[..k] == front[..k];
      WarrantedOnlyCurrent(front);
      assert Warranted(Reach(steps[..|front|]), steps[|front|]);
      StepOnlyCurrent(Reach(front), steps[|front|]);
    }
  }

  lemma SettlingWarranted<E>(steps: seq<Step<E>>, k: nat, more: seq<Step<E>>)
    requires AllWarranted(steps) && k <= |steps| && Settling(more)
    ensures AllWarranted(steps[..k] + more)
  {
    var all := steps[..k] + more;
    forall i | 0 <= i < |all|
      ensures Warranted(Reach(all[..i]), all[i])
    {
      if i < k {
        assert all[..i] == steps[..i] && all[i] == steps[i];
      } else {
        assert all[i] == more[i - k];
      }
    }
  }

  lemma {:induction false} NumbersBelow<E>(steps: seq<Step<E>>)
    ensures forall r :: r in Reach(steps).underWay ==> r < Reach(steps).started
  {
    if steps != [] {
      NumbersBelow(steps[..|steps| - 1]);
    }
  }

  function Starts<E>(n: nat): seq<Step<E>> {
    seq(n, _ => Start)
  }

  /** Launches that all get through add up. */
  lemma {:induction false} AllStart<E>(steps: seq<Step<E>>, n: nat)
    requires n <= Reach(steps).launching
    ensures UnderWay(steps + Starts(n)) == UnderWay(steps) + n
    ensures Reach(steps + Starts(n)).launching == Reach(steps).launching - n
    decreases n
  {
    hide Reach, Next, AllWarranted, Warranted;
    if n == 0 {
      assert steps + Starts(0) == steps;
    } else {
      NumbersBelow(steps);
      StartAdds(Reach(steps));
      StepOn(steps, Reach(steps), Start);
      AllStart(steps + [Start], n - 1);
      assert steps + Starts(n) == steps + [Start] + Starts(n - 1);
    }
  }

  lemma StartAdds<E>(s: State<E>)
    requires s.launching > 0 && s.started !in s.underWay
    ensures |Next(s, Start).underWay| == |s.underWay| + 1 && Next(s, Start).launching == s.launching - 1
  {
  }

  lemma TwoAfterUnwarranted<E>(steps: seq<Step<E>>, k: nat)
    requires k < |steps| && !Warranted(Reach(steps[..k]), steps[k])
    ensures
      var now := steps[..k + 1];
      UnderWay(now + Starts(Reach(now).launching)) >= 2
  {
    var now, s := steps[..k + 1], Reach(steps[..k]);
    assert now[..k] == steps[..k];
    AllStart(now, Reach(now).launching);
    if !Idle(s) {
      assert {s.current.value} <= s.underWay;
      SubsetCount({s.current.value}, s.underWay);
    }
  }

  /** For every list of steps: there is never more than one run under way, whatever becomes of
      the launches, exactly when every decision to start a run comes while the current run is
      over and no earlier launch is still on its way. */
  lemma OneRunIff<E(!new)>(steps: seq<Step<E>>)
    ensures OneRun(steps) <==> AllWarranted(steps)
  {
    if AllWarranted(steps) {
      forall k, more: seq<Step<E>> | 0 <= k <= |steps| && Settling(more)
        ensures UnderWay(steps[..k] + more) <= 1
      {
        SettlingWarranted(steps, k, more);
        WarrantedOnlyCurrent(steps[..k] + more);
      }
    } else {
      var k :| 0 <= k < |steps| && !Warranted(Reach(steps[..k]), steps[k]);
      TwoAfterUnwarranted(steps, k);
      var now := steps[..k + 1];
      assert Settling(Starts<E>(Reach(now).launching));
    }
  }

  /** The same condition without the guard: no run is under way, and none is being launched. */
  lemma WarrantedMeansAlone<E>(steps: seq<Step<E>>)
    ensures AllWarranted(steps) <==>
      forall k :: 0 <= k < |steps| && Launches(Reach(steps[..k]), steps[k]) ==>
        Reach(steps[..k]).underWay == {} && Reach(steps[..k]).launching == 0
  {
    if AllWarranted(steps) {
      forall k | 0 <= k < |steps| && Launches(Reach(steps[..k]), steps[k])
        ensures Reach(steps[..k]).underWay == {} && Reach(steps[..k]).launching == 0
      {
        assert steps[..k] + [] == steps[..k];
        SettlingWarranted(steps, k, []);
        WarrantedOnlyCurrent(steps[..k]);
        assert Warranted(Reach(steps[..k]), steps[k]);
      }
    }
  }

  /** Both requests find the runner idle, and two runs are under way: the check and the start
      are separate steps. */
  lemma BothStart<E>(a: E, b: E)
    ensures UnderWay([Enqueue(a), Enqueue(b), Start, Start]) == 2
    ensures !AllWarranted([Enqueue(a), Enqueue(b), Start, Start])
  {
    var all := [Enqueue(a), Enqueue(b), Start, Start];
    assert all[..3][..2] == all[..2] && all[..2][..1] == all[..1] && all[..1][..0] == [];
    assert Reach(all[..0]) == Init();
    assert Reach(all[..1]) == Init().(launching := 1);
    assert Reach(all[..2]) == Init().(launching := 2);
    assert Reach(all[..3]) == State(Some(0), {0}, 1, 1, [], {});
    assert Reach(all) == State(Some(1), {0, 1}, 2, 0, [], {});
    assert !Warranted(Reach(all[..1]), all[1]);
  }

  /** The first run has ended with b waiting, and has not called dequeueNext yet. */
  lemma RunEndedInTheMeantime<E>(a: E, b: E)
    ensures
      var steps := [Enqueue(a), Start, Enqueue(b), Finish(0, true)];
      Reach(steps) == State(Some(0), {}, 1, 0, [b], {0}) && AllWarranted(steps)
  {
    var o1 := [Enqueue(a)];
    var o2 := o1 + [Start];
    var o3 := o2 + [Enqueue(b)];
    FromInit<E>();
    hide Reach, AllWarranted;
    StepOn([], Init(), Enqueue(a));
    assert [] + [Enqueue(a)] == o1;
    StepOn(o1, Init().(launching := 1), Start);
    var running: State<E> := State(Some(0), {0}, 1, 0, [], {});
    StepOn(o2, running, Enqueue(b));
    StepOn(o3, running.(queue := [b]), Finish(0, true));
    assert o3 + [Finish(0, true)] == [Enqueue(a), Start, Enqueue(b), Finish(0, true)];
  }

  /** A run ends, a run is started by hand before the first one calls dequeueNext, and
      dequeueNext starts a third beside it without looking, having made the runner forget the
      run under way. */
  lemma DequeueBesideManual<E>(a: E, b: E)
    ensures
      var before := [Enqueue(a), Start, Enqueue(b), Finish(0, true)] + [Manual(Some(0))] + [Start];
      var after := before + [DequeueNext(0)];
      && AllWarranted(before) && Reach(before).underWay == {1}
      && Reach(after).underWay == {1} && Idle(Reach(after))
      && Reach(after + [Start]).underWay == {1, 2}
  {
    var ended := [Enqueue(a), Start, Enqueue(b), Finish(0, true)];
    RunEndedInTheMeantime(a, b);
    hide Reach, AllWarranted;
    var s := State(Some(0), {}, 1, 0, [b], {0});
    StepOn(ended, s, Manual(Some(0)));
    StepOn(ended + [Manual(Some(0))], s.(launching := 1), Start);
    var manual := State(Some(1), {1}, 2, 0, [b], {0});
    var before := ended + [Manual(Some(0))] + [Start];
    StepOn(before, manual, DequeueNext(0));
    StepOn(before + [DequeueNext(0)], State(None, {1}, 2, 1, [], {}), Start);
  }

  lemma FromInit<E>()
    ensures Reach<E>([]) == Init() && AllWarranted<E>([])
  {
  }

  lemma StepOn<E>(steps: seq<Step<E>>, s: State<E>, step: Step<E>)
    requires Reach(steps) == s
    ensures Reach(steps + [step]) == Next(s, step)
    ensures AllWarranted(steps) && Warranted(s, step) ==> AllWarranted(steps + [step])
  {
    var all := steps + [step];
    assert all[..|steps|] == steps;
    forall k | 0 <= k < |steps|
      ensures all[..k] == steps[..k] && all[k] == steps[k]
    {
    }
  }

  /* ---------- the class ---------- */

  /** `runs` are all runs ever started, by number. */
  class Runner {
    var current: AnsibleRun.Run?
    var queue: seq<QueueEntry>
    ghost var currentNumber: Option<nat>
    ghost var runs: seq<AnsibleRun.Run>
    ghost var launching: nat
    ghost var owed: set<nat>

    ghost predicate Valid()
      reads this
    {
      && AnsibleRun.Distinct(runs)
      && match currentNumber {
           case None => current == null
           case Some(i) => i < |runs| && current == runs[i]
         }
    }

    ghost function Abs(): State<QueueEntry>
      reads this, runs
    {
      State(currentNumber, set i | 0 <= i < |runs| && runs[i].status == AnsibleRun.Running, |runs|, launching, queue, owed)
    }

    constructor ()
      ensures Valid() && Abs() == Init() && runs == []
    {
      current, queue := null, [];
      currentNumber, runs, launching, owed := None, [], 0, {};
    }

    /** The locked part of enqueue; `start` is what is then passed to startFunc. */
    method Enqueue(entry: QueueEntry) returns (start: Option<QueueEntry>)
      requires Valid()
      modifies this`queue, this`launching
      ensures Valid() && Abs() == Next(old(Abs()), Step.Enqueue(entry))
      ensures HandsOver(old(Abs()), Step.Enqueue(entry)) == if start.Some? then [start.value] else []
    {
      var isIdle := current == null || current.status != AnsibleRun.Running;
      if !isIdle {
        queue := queue + [entry];
        return None;
      }
      launching := launching + 1;
      start := Some(entry);
    }

    /** handleRunPlaybook's check of the run it read as the current one, number `seen`. */
    method CheckIdle(run: AnsibleRun.Run?, ghost seen: Option<nat>) returns (ok: bool)
      requires Valid()
      requires if seen.None? then run == null else seen.value < |runs| && run == runs[seen.value]
      modifies this`launching
      ensures Valid() && Abs() == Next(old(Abs()), Step.Manual(seen))
      ensures ok == Over(old(Abs()), seen)
    {
      if run != null {
        if run.status == AnsibleRun.Running {
          return false;
        }
      }
      launching := launching + 1;
      ok := true;
    }

    /** The locked part of dequeueNext, called by the goroutine of an ended run. */
    method DequeueNext(ghost run: nat) returns (start: Option<QueueEntry>)
      requires Valid() && run in owed
      modifies this`current, this`queue, this`currentNumber, this`launching, this`owed
      ensures Valid() && Abs() == Next(old(Abs()), Step.DequeueNext(run))
      ensures HandsOver(old(Abs()), Step.DequeueNext(run)) == if start.Some? then [start.value] else []
      ensures current == if start.Some? then null else old(current)
    {
      owed := owed - {run};
      if |queue| == 0 {
        return None;
      }
      var entry := queue[0];
      queue := queue[1..];
      current, currentNumber := null, None;
      launching := launching + 1;
      start := Some(entry);
    }

    method ClearQueue()
      requires Valid()
      modifies this`queue
      ensures Valid() && queue == [] && Abs() == Next(old(Abs()), Step.ClearQueue)
    {
      queue := [];
    }

    /** The locked part of start: the new run becomes the current one. */
    method Start() returns (run: AnsibleRun.Run)
      requires Valid() && launching > 0
      modifies this`current, this`currentNumber, this`runs, this`launching
      ensures Valid() && Abs() == Next(old(Abs()), Step.Start)
      ensures fresh(run) && run.Valid() && run.Abs() == AnsibleRun.INIT
      ensures current == run && runs == old(runs) + [run]
    {
      run := new AnsibleRun.Run();
      AnsibleRun.DistinctConcat(runs, [run]);
      current, currentNumber := run, Some(|runs|);
      runs, launching := runs + [run], launching - 1;
    }

    /** A run ends, whether or not its process ever ran; its subscribers are told. */
    method Finish(run: AnsibleRun.Run, ghost number: nat, exitCode: int, processRan: bool)
      requires Valid() && run.Valid() && number < |runs| && run == runs[number] && run.status == AnsibleRun.Running
      modifies this`owed, run, run.subs
      ensures Valid() && Abs() == Next(old(Abs()), Step.Finish(number, processRan))
      ensures run.Valid() && run.Abs() == AnsibleRun.Next(old(run.Abs()), AnsibleRun.Finish(exitCode))
    {
      run.Finish(exitCode);
      if processRan {
        owed := owed + {number};
      }
    }

    /** clear: forgets a run that is over. */
    method Clear()
      requires Valid()
      modifies this`current, this`currentNumber
      ensures Valid() && Abs() == Next(old(Abs()), Step.Clear)
      ensures current == if old(current) == null || old(current.status) != AnsibleRun.Running then null else old(current)
    {
      if current != null && current.status != AnsibleRun.Running {
        current, currentNumber := null, None;
      }
    }
  }
}
