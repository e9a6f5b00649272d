/** What a query of the event log answers, told by the lines of the file and the fields of their
    events alone; lines the log did not write itself; and when the log stops. */
module EventLogLaws {
  import opened Text
  import opened EventLog

  /* ---------- which events a query answers with ---------- */

  predicate Increasing(at: seq<nat>) {
    forall m, n :: 0 <= m < n < |at| ==> at[m] < at[n]
  }

  /** Where the matching events stand. */
  ghost predicate Spots(j: Codec, events: seq<Event>, opts: Opts, at: seq<nat>) {
    var matching := Filtered(j, events, opts);
    && |at| == |matching| && Increasing(at)
    && (forall n :: 0 <= n < |at| ==> at[n] < |events| && matching[n] == events[at[n]])
    && (forall k: nat :: k in at <==> k < |events| && Matches(j, events[k], opts))
  }

  lemma MoreSpots(j: Codec, front: seq<Event>, last: Event, opts: Opts, before: seq<nat>)
    requires Spots(j, front, opts, before)
    ensures Spots(j, front + [last], opts, if Matches(j, last, opts) then before + [|front|] else before)
  {
    var events := front + [last];
    FilteredOneMore(j, front, last, opts);
    assert forall k :: 0 <= k < |front| ==> events[k] == front[k];
    assert events[|front|] == last;
    hide Filtered;
    if Matches(j, last, opts) {
      var at := before + [|front|];
      hide Matches;
      assert forall k: nat :: k in at <==> k in before || k == |front|;
      assert Spots(j, events, opts, at);
    } else {
      hide Matches;
      assert Spots(j, events, opts, before);
    }
  }

  lemma FilteredOneMore(j: Codec, front: seq<Event>, last: Event, opts: Opts)
    ensures Filtered(j, front + [last], opts)
        == if Matches(j, last, opts) then Filtered(j, front, opts) + [last] else Filtered(j, front, opts)
  {
    assert (front + [last])[..|front|] == front;
  }

  lemma NoSpots(j: Codec, opts: Opts)
    ensures Spots(j, [], opts, [])
  {
  }

  lemma {:induction false} FilteredSpots(j: Codec, events: seq<Event>, opts: Opts) returns (at: seq<nat>)
    ensures Spots(j, events, opts, at)
  {
    hide *;
    if events == [] {
      NoSpots(j, opts);
      at := [];
    } else {
      var front, last := events[..|events| - 1], events[|events| - 1];
      var before := FilteredSpots(j, front, opts);
      MoreSpots(j, front, last, opts, before);
      assert front + [last] == events;
      at := if Matches(j, last, opts) then before + [|front|] else before;
    }
  }

  /** The k-th line of the file holds an event that passes every given filter. */
  predicate LinePasses(j: Codec, lines: seq<string>, opts: Opts, k: nat) {
    k < |lines| && j.parse(lines[k]).Some? &&
    var e := j.parse(lines[k]).value;
    && (opts.category != "" ==> e.category == opts.category)
    && (opts.actor != "" ==> e.actor == opts.actor)
    && (opts.resource != "" ==> Contains(j.toLower(e.resource), j.toLower(opts.resource)))
    && (opts.since.Some? ==>
          j.parseTime(e.timestamp).Some? && opts.since.value <= j.parseTime(e.timestamp).value)
  }

  /** The first line that a query looks at: that after the cursor's, or the first of all. */
  predicate StartsAt(j: Codec, lines: seq<string>, opts: Opts, from: nat) {
    if opts.before == "" then from == 0
    else
      && 0 < from <= |lines| && |Parsed(j, lines)| == |lines| && DistinctIds(Parsed(j, lines))
      && Parsed(j, lines)[from - 1].id == opts.before
  }

  /** A scan answers with the newest of the passing lines, newest first: line at[0], then line
      at[1], and so on; HasMore says whether some passing line is left out, and the total is
      that of all lines. */
  ghost predicate Answers(j: Codec, lines: seq<string>, opts: Opts, limit: nat, from: nat, r: Result, at: seq<nat>) {
    && |at| == |r.events| <= limit && (r.hasMore ==> |at| == limit) && r.total == |lines|
    && (forall m, n :: 0 <= m < n < |at| ==> at[n] < at[m])
    && (forall n :: 0 <= n < |at| ==> at[n] < |lines| && j.parse(lines[at[n]]) == Some(r.events[n]))
    && (forall k: nat :: k in at ==> from <= k && LinePasses(j, lines, opts, k))
    && (!r.hasMore <==> forall k: nat :: from <= k && LinePasses(j, lines, opts, k) ==> k in at)
    && (forall k: nat :: from <= k && LinePasses(j, lines, opts, k) && k !in at ==> OlderThanAll(k, at))
  }

  predicate OlderThanAll(k: nat, at: seq<nat>) {
    forall n :: 0 <= n < |at| ==> k < at[n]
  }

  lemma RestOfFile(j: Codec, s: State, lines: seq<string>, opts: Opts, limit: nat, from: nat)
    requires Agrees(j, s, lines) && Scannable(lines) && StartsAt(j, lines, opts, from)
    ensures from <= |lines| && |Parsed(j, lines)| == |lines|
    ensures
      var matching := Filtered(j, Parsed(j, lines)[from..], opts);
      var r := ScanResult(j, s.disk, opts, limit, s.count);
      r.events == Take(Reversed(matching), limit) && r.hasMore == (|matching| > limit) && r.total == |lines|
  {
    ParsedFrom(j, lines, 0);
    assert ScanResult(j, s.disk, opts, limit, s.count).total == |lines|;
    hide Agrees, Scannable, Parsed, Filtered, ScanResult, DistinctIds;
    if opts.before == "" {
      FilteredQuery(j, s, lines, opts, limit);
      assert Parsed(j, lines)[0..] == Parsed(j, lines);
    } else {
      CursorPage(j, s, lines, opts, limit, from - 1);
    }
  }

  lemma MatchesIsPasses(j: Codec, lines: seq<string>, opts: Opts, k: nat)
    requires EventLines(j, lines) && k < |lines| && |Parsed(j, lines)| == |lines|
    ensures EventLine(j, lines[k]) && Parsed(j, lines)[k] == j.parse(lines[k]).value
    ensures LinePasses(j, lines, opts, k) <==> Matches(j, Parsed(j, lines)[k], opts)
  {
    ParsedAll(j, lines);
    hide Contains;
  }

  /** The newest of some positions, newest first. */
  function Newest(at: seq<nat>, limit: nat): (r: seq<nat>)
    ensures |r| == (if |at| > limit then limit else |at|)
    ensures forall n :: 0 <= n < |r| ==> r[n] == at[|at| - 1 - n]
  {
    seq(if |at| > limit then limit else |at|, n requires 0 <= n < |at| => at[|at| - 1 - n])
  }

  lemma NewestMembers(at: seq<nat>, limit: nat)
    requires Increasing(at)
    ensures var r := Newest(at, limit); forall i :: 0 <= i < |at| ==> (at[i] in r <==> i >= |at| - |r|)
  {
    var r := Newest(at, limit);
    forall i | |at| - |r| <= i < |at|
      ensures at[i] in r
    {
      assert r[|at| - 1 - i] == at[i];
    }
  }

  lemma NewestInOrder(at: seq<nat>, limit: nat)
    requires Increasing(at)
    ensures
      var r := Newest(at, limit);
      (forall m, n :: 0 <= m < n < |r| ==> r[n] < r[m]) && forall k: nat :: k in r ==> k in at
  {
    var r := Newest(at, limit);
    forall m, n | 0 <= m < n < |r|
      ensures r[n] < r[m]
    {
      assert at[|at| - 1 - n] < at[|at| - 1 - m];
    }
  }

  lemma LeftOut(at: seq<nat>, limit: nat, k: nat)
    requires Increasing(at) && k in at && k !in Newest(at, limit)
    ensures OlderThanAll(k, Newest(at, limit)) && |at| > limit
  {
    var r := Newest(at, limit);
    NewestMembers(at, limit);
    var i :| 0 <= i < |at| && at[i] == k;
    assert i < |at| - |r|;
    forall n | 0 <= n < |r|
      ensures k < r[n]
    {
      assert at[i] < at[|at| - 1 - n];
    }
  }

  lemma OldestLeftOut(at: seq<nat>, limit: nat)
    requires Increasing(at) && |at| > limit
    ensures at[0] !in Newest(at, limit) && at[0] in at
  {
    NewestMembers(at, limit);
  }

  /** The positions of all passing lines, in the order of the file. */
  ghost predicate Passing(j: Codec, lines: seq<string>, opts: Opts, from: nat, at: seq<nat>, matching: seq<Event>) {
    && |at| == |matching| && Increasing(at)
    && (forall n :: 0 <= n < |at| ==> at[n] < |lines| && j.parse(lines[at[n]]) == Some(matching[n]))
    && (forall k: nat :: k in at <==> from <= k && LinePasses(j, lines, opts, k))
  }

  lemma NewestAnswers(j: Codec, lines: seq<string>, opts: Opts, limit: nat, from: nat, r: Result, at: seq<nat>,
      matching: seq<Event>)
    requires Passing(j, lines, opts, from, at, matching)
    requires r.events == Take(Reversed(matching), limit) && r.hasMore == (|matching| > limit) && r.total == |lines|
    ensures Answers(j, lines, opts, limit, from, r, Newest(at, limit))
  {
    NewestInOrder(at, limit);
    var newest := Newest(at, limit);
    if |at| > limit {
      OldestLeftOut(at, limit);
    }
    hide LinePasses, Increasing;
    forall k: nat | k in at && k !in newest
      ensures OlderThanAll(k, newest) && |at| > limit
    {
      LeftOut(at, limit, k);
    }
    hide OlderThanAll;
  }

  /** A query answers with exactly those events of the file that pass every given filter, from
      the cursor on if there is one: the newest of them, newest first, up to the limit; HasMore
      says exactly whether some are left out, and they are all older. */
  lemma QueryExactly(j: Codec, s: State, lines: seq<string>, opts: Opts, limit: nat, from: nat) returns (at: seq<nat>)
    requires Agrees(j, s, lines) && Scannable(lines) && StartsAt(j, lines, opts, from)
    ensures Answers(j, lines, opts, limit, from, ScanResult(j, s.disk, opts, limit, s.count), at)
  {
    hide Parsed, Filtered, ScanResult, Scannable, Answers, Spots, LinePasses;
    RestOfFile(j, s, lines, opts, limit, from);
    var events := Parsed(j, lines)[from..];
    var spots := FilteredSpots(j, events, opts);
    assert EventLines(j, lines);
    hide Agrees, EventLines, StartsAt, Take, Reversed, Matches;
    var places := SpotsPass(j, lines, opts, from, spots);
    at := Newest(places, limit);
    NewestAnswers(j, lines, opts, limit, from, ScanResult(j, s.disk, opts, limit, s.count), places,
      Filtered(j, events, opts));
  }

  function Shifted(at: seq<nat>, from: nat): (r: seq<nat>)
    ensures |r| == |at| && forall n :: 0 <= n < |at| ==> r[n] == at[n] + from
  {
    seq(|at|, n requires 0 <= n < |at| => at[n] + from)
  }

  lemma ShiftedMembers(at: seq<nat>, from: nat, k: nat)
    ensures k in Shifted(at, from) <==> from <= k && k - from in at
  {
    if from <= k && k - from in at {
      var n :| 0 <= n < |at| && at[n] == k - from;
      assert Shifted(at, from)[n] == k;
    }
  }

  /** The places of the matching events are the passing lines. */
  lemma SpotsPass(j: Codec, lines: seq<string>, opts: Opts, from: nat, at: seq<nat>) returns (places: seq<nat>)
    requires EventLines(j, lines) && |Parsed(j, lines)| == |lines| && from <= |lines|
    requires Spots(j, Parsed(j, lines)[from..], opts, at)
    ensures Passing(j, lines, opts, from, places, Filtered(j, Parsed(j, lines)[from..], opts))
  {
    places := Shifted(at, from);
    var events := Parsed(j, lines)[from..];
    forall k: nat
      ensures k in places <==> from <= k && LinePasses(j, lines, opts, k)
    {
      PlacePasses(j, lines, opts, from, at, k);
    }
    forall n | 0 <= n < |places|
      ensures places[n] < |lines| && j.parse(lines[places[n]]) == Some(Filtered(j, events, opts)[n])
    {
      MatchesIsPasses(j, lines, opts, places[n]);
      hide LinePasses, Matches, Filtered;
      assert events[at[n]] == Parsed(j, lines)[places[n]];
      assert EventLine(j, lines[places[n]]);
    }
    hide LinePasses, Matches, Filtered;
  }

  lemma PlacePasses(j: Codec, lines: seq<string>, opts: Opts, from: nat, at: seq<nat>, k: nat)
    requires EventLines(j, lines) && |Parsed(j, lines)| == |lines| && from <= |lines|
    requires Spots(j, Parsed(j, lines)[from..], opts, at)
    ensures k in Shifted(at, from) <==> from <= k && LinePasses(j, lines, opts, k)
  {
    ShiftedMembers(at, from, k);
    assert LinePasses(j, lines, opts, k) ==> k < |lines|;
    if from <= k < |lines| {
      MatchesIsPasses(j, lines, opts, k);
      assert Parsed(j, lines)[from..][k - from] == Parsed(j, lines)[k];
    }
    hide LinePasses, Matches, Filtered;
  }

  /** An uncut answer: an event is in it exactly if it is in the file and passes every filter. */
  lemma InAnswerIff(j: Codec, s: State, lines: seq<string>, opts: Opts, limit: nat, e: Event)
    requires Agrees(j, s, lines) && Scannable(lines) && opts.before == ""
    ensures
      var r := ScanResult(j, s.disk, opts, limit, s.count);
      !r.hasMore ==>
        (e in r.events <==> exists k :: 0 <= k < |lines| && j.parse(lines[k]) == Some(e) && LinePasses(j, lines, opts, k))
  {
    var at := QueryExactly(j, s, lines, opts, limit, 0);
    var r := ScanResult(j, s.disk, opts, limit, s.count);
    hide LinePasses, ScanResult, Agrees, Scannable;
    if e in r.events {
      var n :| 0 <= n < |r.events| && r.events[n] == e;
      assert at[n] in at;
    }
    if !r.hasMore {
      if k :| 0 <= k < |lines| && j.parse(lines[k]) == Some(e) && LinePasses(j, lines, opts, k) {
        assert k in at;
        var n :| 0 <= n < |at| && at[n] == k;
        assert r.events[n] == e;
      }
    }
  }

  /** A later `since` drops exactly the events before it. */
  lemma LaterSince(j: Codec, s: State, lines: seq<string>, opts: Opts, since: int, limit: nat, e: Event)
    requires Agrees(j, s, lines) && Scannable(lines) && opts.before == ""
    requires opts.since.Some? ==> opts.since.value <= since
    requires !ScanResult(j, s.disk, opts, limit, s.count).hasMore
    requires !ScanResult(j, s.disk, opts.(since := Some(since)), limit, s.count).hasMore
    ensures
      e in ScanResult(j, s.disk, opts.(since := Some(since)), limit, s.count).events <==>
        && e in ScanResult(j, s.disk, opts, limit, s.count).events
        && j.parseTime(e.timestamp).Some? && since <= j.parseTime(e.timestamp).value
  {
    InAnswerIff(j, s, lines, opts, limit, e);
    InAnswerIff(j, s, lines, opts.(since := Some(since)), limit, e);
    hide ScanResult, Agrees, Scannable, Contains;
  }

  /** Filters given together give the events that each of them gives. */
  lemma FiltersTogether(j: Codec, s: State, lines: seq<string>, opts: Opts, limit: nat, e: Event)
    requires Agrees(j, s, lines) && Scannable(lines) && opts.before == "" && limit >= |lines|
    ensures
      var none := Opts("", "", "", None, 0, "");
      e in ScanResult(j, s.disk, opts, limit, s.count).events <==>
        && e in ScanResult(j, s.disk, none.(category := opts.category), limit, s.count).events
        && e in ScanResult(j, s.disk, none.(actor := opts.actor), limit, s.count).events
        && e in ScanResult(j, s.disk, none.(resource := opts.resource), limit, s.count).events
        && e in ScanResult(j, s.disk, none.(since := opts.since), limit, s.count).events
  {
    var none := Opts("", "", "", None, 0, "");
    InLongAnswerIff(j, s, lines, opts, limit, e);
    InLongAnswerIff(j, s, lines, none.(category := opts.category), limit, e);
    InLongAnswerIff(j, s, lines, none.(actor := opts.actor), limit, e);
    InLongAnswerIff(j, s, lines, none.(resource := opts.resource), limit, e);
    InLongAnswerIff(j, s, lines, none.(since := opts.since), limit, e);
    hide ScanResult, Agrees, Scannable, Contains;
  }

  lemma {:induction false} FilteredIsShorter(j: Codec, events: seq<Event>, opts: Opts)
    ensures |Filtered(j, events, opts)| <= |events|
  {
    if events != [] {
      FilteredIsShorter(j, events[..|events| - 1], opts);
      hide Matches;
    }
  }

  lemma InLongAnswerIff(j: Codec, s: State, lines: seq<string>, opts: Opts, limit: nat, e: Event)
    requires Agrees(j, s, lines) && Scannable(lines) && opts.before == "" && limit >= |lines|
    ensures e in ScanResult(j, s.disk, opts, limit, s.count).events <==>
      exists k :: 0 <= k < |lines| && j.parse(lines[k]) == Some(e) && LinePasses(j, lines, opts, k)
  {
    RestOfFile(j, s, lines, opts, limit, 0);
    FilteredIsShorter(j, Parsed(j, lines)[0..], opts);
    hide ScanResult, Agrees, Scannable, LinePasses, Filtered, Parsed;
    InAnswerIff(j, s, lines, opts, limit, e);
  }

  /* ---------- lines the log did not write ---------- */

  /** A line that is not an event is passed over, by queries and when the cache is filled. */
  lemma {:induction false} GarbageIsSkipped(j: Codec, a: seq<string>, line: string, b: seq<string>, opts: Opts, found: bool)
    requires j.parse(line).None? && |line| < SCAN_LIMIT
    ensures Scan(j, a + [line] + b, opts, found) == Scan(j, a + b, opts, found)
    ensures Parsed(j, a + [line] + b) == Parsed(j, a + b)
    decreases |a|
  {
    var all := a + [line] + b;
    if a == [] {
      assert all[0] == line && all[1..] == b && a + b == b;
    } else {
      assert all[0] == a[0] == (a + b)[0];
      assert all[1..] == a[1..] + [line] + b && (a + b)[1..] == a[1..] + b;
      forall f: bool
        ensures Scan(j, a[1..] + [line] + b, opts, f) == Scan(j, a[1..] + b, opts, f)
      {
        GarbageIsSkipped(j, a[1..], line, b, opts, f);
      }
      GarbageIsSkipped(j, a[1..], line, b, opts, found);
      hide Matches;
    }
  }

  /** A line that does not fit the scanner's buffer ends the scan. */
  lemma {:induction false} LongLineEndsScan(j: Codec, a: seq<string>, line: string, b: seq<string>, opts: Opts, found: bool)
    requires |line| >= SCAN_LIMIT
    ensures Scan(j, a + [line] + b, opts, found) == Scan(j, a, opts, found)
    decreases |a|
  {
    var all := a + [line] + b;
    if a == [] {
      assert all[0] == line;
    } else {
      assert all[0] == a[0] && all[1..] == a[1..] + [line] + b;
      forall f: bool
        ensures Scan(j, a[1..] + [line] + b, opts, f) == Scan(j, a[1..], opts, f)
      {
        LongLineEndsScan(j, a[1..], line, b, opts, f);
      }
      hide Matches;
    }
  }

  /* ---------- when the log stops ---------- */

  /** A step whose write succeeds on a full file rotates it. */
  predicate Rotates(s: State, m: Emission) {
    s.open && m.writeOk && s.count + 1 > MAX_EVENTS
  }

  /** Every rotation so far succeeded. */
  predicate AllRotated(j: Codec, content: string, emissions: seq<Emission>) {
    forall k :: 0 <= k < |emissions| ==> RotatedAt(j, content, emissions, k)
  }

  predicate RotatedAt(j: Codec, content: string, emissions: seq<Emission>, k: nat)
    requires k < |emissions|
  {
    Rotates(Run(j, Open(j, content), emissions[..k]), emissions[k]) ==> emissions[k].rotation == Rotated
  }

  lemma AllRotatedStep(j: Codec, content: string, emissions: seq<Emission>)
    requires emissions != []
    ensures
      var n := |emissions| - 1;
      AllRotated(j, content, emissions) <==> AllRotated(j, content, emissions[..n]) && RotatedAt(j, content, emissions, n)
  {
    var n := |emissions| - 1;
    var front := emissions[..n];
    forall k | 0 <= k < n
      ensures RotatedAt(j, content, front, k) == RotatedAt(j, content, emissions, k)
    {
      hide Rotates, Run, Open;
      assert emissions[..k] == front[..k] && emissions[k] == front[k];
    }
    hide *;
    AllRotatedMore(j, content, emissions);
  }

  lemma AllRotatedMore(j: Codec, content: string, emissions: seq<Emission>)
    requires emissions != []
    requires
      var front := emissions[..|emissions| - 1];
      forall k :: 0 <= k < |front| ==> RotatedAt(j, content, front, k) == RotatedAt(j, content, emissions, k)
    ensures
      var n := |emissions| - 1;
      AllRotated(j, content, emissions) <==> AllRotated(j, content, emissions[..n]) && RotatedAt(j, content, emissions, n)
  {
    hide RotatedAt;
  }

  /** The log stays open exactly as long as every rotation succeeds; then nothing changes. */
  lemma {:induction false} OpenIff(j: Codec, content: string, emissions: seq<Emission>)
    ensures Run(j, Open(j, content), emissions).open <==> AllRotated(j, content, emissions)
  {
    if emissions != [] {
      var n := |emissions| - 1;
      OpenIff(j, content, emissions[..n]);
      AllRotatedStep(j, content, emissions);
      OpenAfter(j, Run(j, Open(j, content), emissions[..n]), emissions[n]);
      hide Open, AfterEmit, Rotates, AllRotated;
    }
  }

  lemma OpenAfter(j: Codec, s: State, m: Emission)
    ensures AfterEmit(j, s, m).open <==> s.open && (Rotates(s, m) ==> m.rotation == Rotated)
  {
  }

  lemma {:induction false} ClosedForGood(j: Codec, s: State, emissions: seq<Emission>)
    requires !s.open
    ensures Run(j, s, emissions) == s
  {
    if emissions != [] {
      ClosedForGood(j, s, emissions[..|emissions| - 1]);
    }
  }
}
