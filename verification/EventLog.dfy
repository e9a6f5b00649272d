/** The audit log of internal/api/eventlog.go: a JSONL file with append and rotation, a line
    count, a cache of the newest events, and queries served from the cache or the file. */
module EventLog {
  import opened Text

  const MAX_EVENTS: nat := 10000
  const ROTATE_KEEP: nat := 7500
  const CACHE_SIZE: nat := 200
  const SCAN_LIMIT: nat := 524288

  datatype Event = Event(id: string, timestamp: string, category: string, action: string, actor: string,
                         resource: string, result: string, detail: string, endpoint: string)

  /** The library functions the log relies on. */
  datatype Codec = Codec(marshal: Event -> string, parse: string -> Option<Event>,
                         toLower: string -> string, parseTime: string -> Option<int>)

  predicate GoodLine(line: string) {
    line != "" && '\n' !in line
  }

  /** json.Marshal gives one non-empty line, and json.Unmarshal undoes it. */
  ghost predicate Lawful(j: Codec) {
    forall e: Event :: GoodLine(j.marshal(e)) && j.parse(j.marshal(e)) == Some(e)
  }

  /* ---------- the file as text ---------- */

  /** The lines that opening and rotating see. */
  function FileLines(content: string): seq<string> {
    var lines := Split(TrimNewlines(content), '\n');
    if lines == [""] then [] else lines
  }

  /** The lines that bufio.Scanner sees. */
  function ScannerLines(content: string): seq<string> {
    var lines := Split(content, '\n');
    if lines[|lines| - 1] == "" then lines[..|lines| - 1] else lines
  }

  /** A file in which every line is ended by a newline. */
  function Render(lines: seq<string>): string {
    if lines == [] then "" else lines[0] + "\n" + Render(lines[1..])
  }

  /** What rotation writes: the lines joined, and a final newline unless that is empty. */
  function Rejoined(lines: seq<string>): string {
    var content := Join(lines, "\n");
    if content != "" then content + "\n" else content
  }

  function LastN<T>(s: seq<T>, n: nat): seq<T> {
    if |s| > n then s[|s| - n..] else s
  }

  predicate GoodLines(lines: seq<string>) {
    forall i :: 0 <= i < |lines| ==> GoodLine(lines[i])
  }

  lemma {:induction false} RejoinedIsRender(lines: seq<string>)
    requires GoodLines(lines)
    ensures Rejoined(lines) == Render(lines)
  {
    if |lines| == 1 {
      assert Render(lines[1..]) == "";
      assert lines[0] + "\n" + "" == lines[0] + "\n";
    } else if |lines| > 1 {
      RejoinedIsRender(lines[1..]);
      assert GoodLine(lines[1..][0]);
      assert Join(lines[1..], "\n") != "";
    }
  }

  lemma TrimRejoined(s: string)
    requires s != "" && s[|s| - 1] != '\n'
    ensures TrimNewlines(s + "\n") == s
  {
  }

  /** No line holds a newline, and the last one is not empty. */
  predicate LinesEndWell(lines: seq<string>) {
    && (forall i :: 0 <= i < |lines| ==> '\n' !in lines[i])
    && (lines != [] ==> lines[|lines| - 1] != "")
  }

  lemma {:induction false} JoinLast(lines: seq<string>)
    requires LinesEndWell(lines) && lines != []
    ensures var s := Join(lines, "\n"); s != "" && s[|s| - 1] != '\n'
  {
    if |lines| == 1 {
      assert lines[0][|lines[0]| - 1] in lines[0];
    } else {
      JoinLast(lines[1..]);
    }
  }

  /** What a rotation writes is read back as the lines it kept, well-formed or not. */
  lemma FileLinesOfJoin(lines: seq<string>)
    requires LinesEndWell(lines) && lines != []
    ensures FileLines(Join(lines, "\n") + "\n") == lines
  {
    JoinLast(lines);
    TrimRejoined(Join(lines, "\n"));
    forall p | p in lines
      ensures '\n' !in p
    {
      var i :| 0 <= i < |lines| && lines[i] == p;
    }
    SplitJoin(lines, '\n');
  }

  /** Reading back what was written gives the same lines. */
  lemma FileLinesOfRender(lines: seq<string>)
    requires GoodLines(lines)
    ensures FileLines(Render(lines)) == lines
  {
    RejoinedIsRender(lines);
    if lines != [] {
      assert GoodLine(lines[|lines| - 1]) && LinesEndWell(lines);
      JoinLast(lines);
      FileLinesOfJoin(lines);
    }
  }

  lemma {:induction false} SplitOfRender(lines: seq<string>)
    requires GoodLines(lines)
    ensures Split(Render(lines), '\n') == lines + [""]
  {
    if lines != [] {
      SplitOfRender(lines[1..]);
      SplitPiece(lines[0], Render(lines[1..]), '\n');
      assert lines[0] + ['\n'] + Render(lines[1..]) == Render(lines);
      assert [lines[0]] + (lines[1..] + [""]) == lines + [""];
    }
  }

  lemma ScannerLinesOfRender(lines: seq<string>)
    requires GoodLines(lines)
    ensures ScannerLines(Render(lines)) == lines
  {
    SplitOfRender(lines);
  }

  lemma {:induction false} RenderAppend(lines: seq<string>, line: string)
    ensures Render(lines + [line]) == Render(lines) + line + "\n"
  {
    if lines == [] {
      assert [line][1..] == [];
      assert Render([line]) == line + "\n" + "";
    } else {
      assert (lines + [line])[1..] == lines[1..] + [line];
      RenderAppend(lines[1..], line);
    }
  }

  /* ---------- the state and its steps ---------- */

  /** `open`: the file handle is usable. */
  datatype State = State(open: bool, disk: string, count: nat, cache: seq<Event>)

  /** How the environment lets a rotation go; WriteFails leaves some text behind. */
  datatype Rotation = Rotated | ReadFails | WriteFails(left: string) | ReopenFails

  /** One call of Emit with the event as stamped with its ID and time. */
  datatype Emission = Emission(event: Event, writeOk: bool, rotation: Rotation)

  /** The events of those lines that parse. */
  function Parsed(j: Codec, lines: seq<string>): seq<Event> {
    if lines == [] then []
    else
      match j.parse(lines[0])
      case Some(e) => [e] + Parsed(j, lines[1..])
      case None => Parsed(j, lines[1..])
  }

  function Loaded(j: Codec, text: string, lines: seq<string>): State {
    State(true, text, |lines|, Parsed(j, LastN(lines, CACHE_SIZE)))
  }

  function Open(j: Codec, content: string): State {
    var lines := FileLines(content);
    if |lines| > MAX_EVENTS then
      var keep := LastN(lines, ROTATE_KEEP);
      Loaded(j, Join(keep, "\n") + "\n", keep)
    else Loaded(j, content, lines)
  }

  function Rotate(s: State, rotation: Rotation): State {
    var lines := LastN(FileLines(s.disk), ROTATE_KEEP);
    match rotation
    case ReadFails => s.(open := false)
    case WriteFails(left) => s.(open := false, disk := left)
    case ReopenFails => s.(open := false, disk := Rejoined(lines), count := |lines|)
    case Rotated => s.(open := true, disk := Rejoined(lines), count := |lines|)
  }

  /** The part of Emit before any rotation. */
  function Appended(j: Codec, s: State, e: Event): State {
    var cache := (if |s.cache| >= CACHE_SIZE then s.cache[1..] else s.cache) + [e];
    State(true, s.disk + j.marshal(e) + "\n", s.count + 1, cache)
  }

  function AfterEmit(j: Codec, s: State, m: Emission): State {
    if !s.open || !m.writeOk then s
    else
      var s1 := Appended(j, s, m.event);
      if s1.count > MAX_EVENTS then Rotate(s1, m.rotation) else s1
  }

  function Run(j: Codec, s: State, emissions: seq<Emission>): State {
    if emissions == [] then s
    else AfterEmit(j, Run(j, s, emissions[..|emissions| - 1]), emissions[|emissions| - 1])
  }

  /* ---------- what the file should hold ---------- */

  function TrimmedTo(lines: seq<string>): seq<string> {
    if |lines| > MAX_EVENTS then LastN(lines, ROTATE_KEEP) else lines
  }

  function LinesAfter(j: Codec, lines: seq<string>, emissions: seq<Emission>): seq<string> {
    if emissions == [] then TrimmedTo(lines)
    else
      var before := LinesAfter(j, lines, emissions[..|emissions| - 1]);
      var m := emissions[|emissions| - 1];
      if m.writeOk then TrimmedTo(before + [j.marshal(m.event)]) else before
  }

  /** Everything the file ever held. */
  function History(j: Codec, lines: seq<string>, emissions: seq<Emission>): seq<string> {
    if emissions == [] then lines
    else
      var before := History(j, lines, emissions[..|emissions| - 1]);
      var m := emissions[|emissions| - 1];
      if m.writeOk then before + [j.marshal(m.event)] else before
  }

  /** Rotation only ever drops the oldest lines, and never one of the newest ROTATE_KEEP. */
  lemma {:induction false} NewestLinesKept(j: Codec, lines: seq<string>, emissions: seq<Emission>)
    ensures
      var kept, all := LinesAfter(j, lines, emissions), History(j, lines, emissions);
      && |kept| <= MAX_EVENTS && |kept| <= |all|
      && kept == all[|all| - |kept|..]
      && (|kept| == |all| || |kept| >= ROTATE_KEEP)
  {
    if emissions != [] {
      NewestLinesKept(j, lines, emissions[..|emissions| - 1]);
    }
  }

  /** A line that parses to an event with an ID. */
  predicate EventLine(j: Codec, line: string) {
    GoodLine(line) && j.parse(line).Some? && j.parse(line).value.id != ""
  }

  predicate EventLines(j: Codec, lines: seq<string>) {
    forall i :: 0 <= i < |lines| ==> EventLine(j, lines[i])
  }

  /** File, count and cache agree. */
  predicate Agrees(j: Codec, s: State, lines: seq<string>) {
    && EventLines(j, lines)
    && s.disk == Render(lines)
    && s.count == |lines| <= MAX_EVENTS
    && s.cache == Parsed(j, LastN(lines, CACHE_SIZE))
  }

  lemma {:induction false} ParsedAll(j: Codec, lines: seq<string>)
    requires EventLines(j, lines)
    ensures |Parsed(j, lines)| == |lines|
    ensures forall i :: 0 <= i < |lines| ==> Parsed(j, lines)[i] == j.parse(lines[i]).value
  {
    if lines != [] {
      assert EventLine(j, lines[0]);
      assert EventLines(j, lines[1..]);
      ParsedAll(j, lines[1..]);
    }
  }

  lemma EventLinesAreGood(j: Codec, lines: seq<string>)
    requires EventLines(j, lines)
    ensures GoodLines(lines)
  {
  }

  lemma LastNEventLines(j: Codec, lines: seq<string>, n: nat)
    requires EventLines(j, lines)
    ensures EventLines(j, LastN(lines, n))
  {
  }

  /** Opening an overlong file: what is written back is the newest ROTATE_KEEP lines. */
  lemma OpenRotates(j: Codec, lines: seq<string>)
    requires EventLines(j, lines) && lines != []
    ensures Join(lines, "\n") + "\n" == Render(lines)
  {
  }

  lemma OpenAgrees(j: Codec, lines: seq<string>)
    requires EventLines(j, lines)
    ensures Open(j, Render(lines)).open && Agrees(j, Open(j, Render(lines)), TrimmedTo(lines))
  {
    var content, kept := Render(lines), TrimmedTo(lines);
    EventLinesAreGood(j, lines);
    FileLinesOfRender(lines);
    LastNEventLines(j, lines, ROTATE_KEEP);
    if |lines| > MAX_EVENTS {
      OpenRotates(j, kept);
    }
    assert Open(j, content) == Loaded(j, Render(kept), kept);
  }

  lemma CacheAppend(j: Codec, lines: seq<string>, line: string, cache: seq<Event>)
    requires EventLines(j, lines) && EventLine(j, line)
    requires cache == Parsed(j, LastN(lines, CACHE_SIZE))
    ensures
      (if |cache| >= CACHE_SIZE then cache[1..] else cache) + [j.parse(line).value]
        == Parsed(j, LastN(lines + [line], CACHE_SIZE))
  {
    var longer := lines + [line];
    assert EventLines(j, longer);
    LastNEventLines(j, lines, CACHE_SIZE);
    LastNEventLines(j, longer, CACHE_SIZE);
    ParsedAll(j, LastN(lines, CACHE_SIZE));
    ParsedAll(j, LastN(longer, CACHE_SIZE));
  }

  lemma RotateAgrees(j: Codec, s: State, lines: seq<string>)
    requires EventLines(j, lines) && s.disk == Render(lines) && |lines| > ROTATE_KEEP
    requires s.cache == Parsed(j, LastN(lines, CACHE_SIZE))
    ensures Agrees(j, Rotate(s, Rotated), LastN(lines, ROTATE_KEEP))
  {
    var keep := LastN(lines, ROTATE_KEEP);
    EventLinesAreGood(j, lines);
    FileLinesOfRender(lines);
    LastNEventLines(j, lines, ROTATE_KEEP);
    EventLinesAreGood(j, keep);
    RejoinedIsRender(keep);
    assert LastN(keep, CACHE_SIZE) == LastN(lines, CACHE_SIZE);
  }

  lemma AppendAgrees(j: Codec, s: State, lines: seq<string>, e: Event)
    requires Lawful(j) && e.id != "" && Agrees(j, s, lines)
    ensures
      var s1, longer := Appended(j, s, e), lines + [j.marshal(e)];
      && EventLines(j, longer) && s1.disk == Render(longer) && s1.count == |longer|
      && s1.cache == Parsed(j, LastN(longer, CACHE_SIZE))
  {
    var line := j.marshal(e);
    assert GoodLine(line) && j.parse(line) == Some(e);
    assert EventLine(j, line);
    RenderAppend(lines, line);
    CacheAppend(j, lines, line, s.cache);
  }

  lemma TrimAgrees(j: Codec, s: State, lines: seq<string>, rotation: Rotation)
    requires EventLines(j, lines) && s.disk == Render(lines) && s.count == |lines|
    requires s.cache == Parsed(j, LastN(lines, CACHE_SIZE))
    ensures
      var s1 := if s.count > MAX_EVENTS then Rotate(s, rotation) else s;
      s1.open ==> Agrees(j, s1, TrimmedTo(lines))
  {
    hide EventLines, Render, Parsed, FileLines, Rejoined;
    if |lines| > MAX_EVENTS {
      RotateAgrees(j, s, lines);
    }
  }

  lemma EmitAgrees(j: Codec, s: State, lines: seq<string>, m: Emission)
    requires Lawful(j) && m.event.id != "" && s.open && Agrees(j, s, lines)
    ensures AfterEmit(j, s, m).open ==>
      Agrees(j, AfterEmit(j, s, m), if m.writeOk then TrimmedTo(lines + [j.marshal(m.event)]) else lines)
  {
    if m.writeOk {
      AppendAgrees(j, s, lines, m.event);
      hide Appended, Agrees, Rotate, TrimmedTo, LastN, Render, Parsed, EventLines;
      TrimAgrees(j, Appended(j, s, m.event), lines + [j.marshal(m.event)], m.rotation);
    }
  }

  /** After opening any well-formed file and any sequence of Emits, for as long as no rotation
      has failed: the count is the number of lines on disk, at most MAX_EVENTS of them, and
      the cache is exactly the newest min(CACHE_SIZE, count) events on disk, in order.  (A
      failed rotation closes the log, and from then on nothing changes.) */
  lemma {:induction false} AlwaysAgrees(j: Codec, lines: seq<string>, emissions: seq<Emission>)
    requires Lawful(j) && EventLines(j, lines)
    requires forall i :: 0 <= i < |emissions| ==> emissions[i].event.id != ""
    ensures
      var s := Run(j, Open(j, Render(lines)), emissions);
      s.open ==> Agrees(j, s, LinesAfter(j, lines, emissions))
  {
    if emissions == [] {
      OpenAgrees(j, lines);
    } else {
      var front := emissions[..|emissions| - 1];
      AlwaysAgrees(j, lines, front);
      var s := Run(j, Open(j, Render(lines)), front);
      if s.open {
        EmitAgrees(j, s, LinesAfter(j, lines, front), emissions[|emissions| - 1]);
      }
    }
  }

  /* ---------- files that are not well-formed ---------- */

  function Newlines(s: string): nat {
    if s == "" then 0 else Newlines(s[..|s| - 1]) + if s[|s| - 1] == '\n' then 1 else 0
  }

  lemma {:induction false} NewlinesConcat(a: string, b: string)
    ensures Newlines(a + b) == Newlines(a) + Newlines(b)
  {
    if b == "" {
      assert a + b == a;
    } else {
      assert (a + b)[..|a + b| - 1] == a + b[..|b| - 1];
      NewlinesConcat(a, b[..|b| - 1]);
    }
  }

  lemma {:induction false} SplitLength(s: string)
    ensures |Split(s, '\n')| == Newlines(s) + 1
  {
    if s != "" {
      SplitLength(s[1..]);
      assert s == [s[0]] + s[1..];
      NewlinesConcat([s[0]], s[1..]);
      assert [s[0]][..0] == "";
      assert Newlines([s[0]]) == if s[0] == '\n' then 1 else 0;
    }
  }

  lemma {:induction false} NoNewlines(s: string)
    requires '\n' !in s
    ensures Newlines(s) == 0
  {
    if s != "" {
      NoNewlines(s[..|s| - 1]);
    }
  }

  lemma {:induction false} TrimmedOff(s: string)
    ensures |TrimNewlines(s)| <= |s| && TrimNewlines(s) == s[..|TrimNewlines(s)|]
    ensures Newlines(s) == Newlines(TrimNewlines(s)) + |s| - |TrimNewlines(s)|
  {
    if s != "" && s[|s| - 1] == '\n' {
      TrimmedOff(s[..|s| - 1]);
    }
  }

  lemma FileLineCount(s: string)
    ensures |FileLines(s)| == if TrimNewlines(s) == "" then 0 else Newlines(TrimNewlines(s)) + 1
  {
    var t := TrimNewlines(s);
    SplitLength(t);
    if t != "" {
      assert t[0] != '\n' ==> |Split(t, '\n')[0]| > 0;
      assert t[0] == '\n' ==> |Split(t, '\n')| >= 2;
    }
  }

  lemma {:induction false} TrimmedEnd(s: string)
    ensures TrimNewlines(s) != "" ==> TrimNewlines(s)[|TrimNewlines(s)| - 1] != '\n'
  {
    if s != "" && s[|s| - 1] == '\n' {
      TrimmedEnd(s[..|s| - 1]);
    }
  }

  lemma FileLinesEndWell(content: string)
    ensures LinesEndWell(FileLines(content))
  {
    SplitClean(TrimNewlines(content), '\n');
    TrimmedEnd(content);
  }

  /** A text with a last line that is ended by a single newline. */
  predicate WellEnded(text: string) {
    TrimNewlines(text) != "" && text == TrimNewlines(text) + "\n"
  }

  lemma WellEndedCount(text: string)
    requires WellEnded(text)
    ensures |FileLines(text)| == Newlines(text) && FileLines(text) != []
  {
    FileLineCount(text);
    TrimmedOff(text);
  }

  /** Files whose lines are as many as their newlines. */
  lemma LinesAreNewlinesIff(content: string)
    ensures |FileLines(content)| == Newlines(content) <==> content == "" || WellEnded(content)
  {
    FileLineCount(content);
    TrimmedOff(content);
    if |content| == |TrimNewlines(content)| + 1 {
      TrimmedByNewline(content);
    }
    if content == "" {
      assert Newlines("") == 0;
    }
  }

  lemma AppendWellEnded(disk: string, line: string)
    requires GoodLine(line)
    ensures WellEnded(disk + line + "\n") && Newlines(disk + line + "\n") == Newlines(disk) + 1
  {
    var s := disk + line;
    assert line[|line| - 1] in line;
    assert s[|s| - 1] == line[|line| - 1];
    TrimRejoined(s);
    NewlinesConcat(disk, line);
    NoNewlines(line);
    NewlinesConcat(s, "\n");
    assert "\n"[..0] == "";
    assert Newlines("\n") == 1;
  }

  /** The count is right, and will stay right. */
  predicate InStep(s: State) {
    s.open && s.count == |FileLines(s.disk)| && WellEnded(s.disk)
  }

  lemma JoinedWellEnded(lines: seq<string>)
    requires LinesEndWell(lines) && lines != []
    ensures WellEnded(Join(lines, "\n") + "\n") && FileLines(Join(lines, "\n") + "\n") == lines
  {
    FileLinesOfJoin(lines);
    JoinLast(lines);
    TrimRejoined(Join(lines, "\n"));
  }

  lemma RotatedInStep(s: State)
    requires FileLines(s.disk) != []
    ensures InStep(Rotate(s, Rotated))
  {
    var keep := LastN(FileLines(s.disk), ROTATE_KEEP);
    FileLinesEndWell(s.disk);
    JoinLast(keep);
    JoinedWellEnded(keep);
    hide FileLines, Join, LinesEndWell, WellEnded;
  }

  lemma AppendedCounts(j: Codec, s: State, e: Event)
    requires Lawful(j)
    ensures
      var s1 := Appended(j, s, e);
      && s1.open && s1.count == s.count + 1 && WellEnded(s1.disk)
      && Newlines(s1.disk) == Newlines(s.disk) + 1
      && |FileLines(s1.disk)| == Newlines(s1.disk) && FileLines(s1.disk) != []
  {
    assert GoodLine(j.marshal(e));
    AppendWellEnded(s.disk, j.marshal(e));
    hide FileLines, WellEnded, Newlines;
    WellEndedCount(Appended(j, s, e).disk);
  }

  lemma StaysInStep(j: Codec, s: State, m: Emission)
    requires Lawful(j) && InStep(s) && m.rotation == Rotated
    ensures InStep(AfterEmit(j, s, m))
  {
    WellEndedCount(s.disk);
    AppendedCounts(j, s, m.event);
    hide FileLines, WellEnded, Newlines, Appended, Rotate;
    RotatedInStep(Appended(j, s, m.event));
  }

  function Written(emissions: seq<Emission>): nat {
    if emissions == [] then 0
    else
      var front := emissions[..|emissions| - 1];
      if emissions[|emissions| - 1].writeOk then Written(front) + 1 else Written(front)
  }

  /** No rotation yet: the count is that of the file as it was opened and of the writes since,
      while the file has as many lines as newlines once something was written. */
  predicate Unrotated(s: State, content: string, written: nat) {
    && s.open && s.count == |FileLines(content)| + written <= MAX_EVENTS
    && Newlines(s.disk) == Newlines(content) + written
    && (if written == 0 then s.disk == content else WellEnded(s.disk))
  }

  lemma UnrotatedStep(j: Codec, s: State, content: string, written: nat, m: Emission)
    requires Lawful(j) && Unrotated(s, content, written) && m.rotation == Rotated && m.writeOk
    ensures
      var s1 := AfterEmit(j, s, m);
      if |FileLines(content)| + written + 1 > MAX_EVENTS then InStep(s1) else Unrotated(s1, content, written + 1)
  {
    AppendedCounts(j, s, m.event);
    hide FileLines, WellEnded, Newlines, Appended, Rotate;
    RotatedInStep(Appended(j, s, m.event));
  }

  lemma OpenCounts(j: Codec, content: string)
    ensures
      var s := Open(j, content);
      if |FileLines(content)| > MAX_EVENTS then InStep(s) else Unrotated(s, content, 0)
  {
    FileLinesEndWell(content);
    if |FileLines(content)| > MAX_EVENTS {
      JoinedWellEnded(LastN(FileLines(content), ROTATE_KEEP));
    }
    hide FileLines, Join, WellEnded, Newlines;
  }

  lemma {:induction false} CountFollowed(j: Codec, content: string, emissions: seq<Emission>)
    requires Lawful(j) && forall i :: 0 <= i < |emissions| ==> emissions[i].rotation == Rotated
    ensures
      var s, written := Run(j, Open(j, content), emissions), Written(emissions);
      if |FileLines(content)| + written > MAX_EVENTS then InStep(s) else Unrotated(s, content, written)
  {
    OpenCounts(j, content);
    if emissions != [] {
      var front, m := emissions[..|emissions| - 1], emissions[|emissions| - 1];
      CountFollowed(j, content, front);
      var s := Run(j, Open(j, content), front);
      hide InStep, Unrotated, FileLines, Open;
      if m.writeOk {
        if |FileLines(content)| + Written(front) > MAX_EVENTS {
          StaysInStep(j, s, m);
        } else {
          UnrotatedStep(j, s, content, Written(front), m);
        }
      }
    }
  }

  /** For an arbitrary file and any sequence of Emits after opening it (whose rotations, if
      any, succeed): the count is right exactly when nothing was written yet, or the file was
      empty or ended in one newline after some text, or it has been rotated since. */
  lemma CountIsRightIff(j: Codec, content: string, emissions: seq<Emission>)
    requires Lawful(j) && forall i :: 0 <= i < |emissions| ==> emissions[i].rotation == Rotated
    ensures
      var s, written := Run(j, Open(j, content), emissions), Written(emissions);
      (s.count == |FileLines(s.disk)|) <==>
        || written == 0 || content == "" || WellEnded(content)
        || |FileLines(content)| + written > MAX_EVENTS
  {
    CountFollowed(j, content, emissions);
    LinesAreNewlinesIff(content);
    var s, written := Run(j, Open(j, content), emissions), Written(emissions);
    hide Run, Open, FileLines, WellEnded, Newlines, Written;
    if |FileLines(content)| + written <= MAX_EVENTS && written > 0 {
      WellEndedCount(s.disk);
    }
  }

  lemma TrimmedByNewline(s: string)
    requires |s| == |TrimNewlines(s)| + 1
    ensures s == TrimNewlines(s) + "\n"
  {
    TrimmedOff(s);
    assert s[|s| - 1] == '\n';
    assert s == s[..|s| - 1] + [s[|s| - 1]];
  }

  /* ---------- queries ---------- */

  datatype Opts = Opts(category: string, actor: string, resource: string, since: Option<int>,
                       limit: int, before: string)

  datatype Result = Result(events: seq<Event>, total: nat, hasMore: bool, nextBefore: string)

  function Clamped(limit: int): (n: nat)
    ensures 1 <= n <= 200 && (1 <= limit <= 200 ==> n == limit)
    ensures (limit > 200 ==> n == 200) && (limit <= 0 ==> n == 50)
  {
    if limit <= 0 then 50 else if limit > 200 then 200 else limit
  }

  predicate HasFilters(opts: Opts) {
    opts.category != "" || opts.actor != "" || opts.resource != "" || opts.since.Some? || opts.before != ""
  }

  predicate Matches(j: Codec, e: Event, opts: Opts) {
    && (opts.category != "" ==> e.category == opts.category)
    && (opts.actor != "" ==> e.actor == opts.actor)
    && (opts.resource != "" ==> Contains(j.toLower(e.resource), j.toLower(opts.resource)))
    && (opts.since.Some? ==>
          var t := j.parseTime(e.timestamp); t.Some? && t.value >= opts.since.value)
  }

  function Reversed<T>(s: seq<T>): (r: seq<T>)
    ensures |r| == |s|
    ensures forall i :: 0 <= i < |s| ==> r[i] == s[|s| - 1 - i]
  {
    seq(|s|, i requires 0 <= i < |s| => s[|s| - 1 - i])
  }

  function NextBefore(events: seq<Event>): string {
    if |events| > 0 then events[|events| - 1].id else ""
  }

  function Take<T>(s: seq<T>, n: nat): seq<T> {
    if |s| > n then s[..n] else s
  }

  /** The matching events in file order; `found` once the cursor event has been passed.  The
      scanner gives up at a line that does not fit its buffer. */
  function Scan(j: Codec, lines: seq<string>, opts: Opts, found: bool): seq<Event> {
    if lines == [] || |lines[0]| >= SCAN_LIMIT then []
    else
      match j.parse(lines[0])
      case None => Scan(j, lines[1..], opts, found)
      case Some(e) =>
        if !found then Scan(j, lines[1..], opts, e.id == opts.before)
        else if e.id == opts.before || !Matches(j, e, opts) then Scan(j, lines[1..], opts, found)
        else [e] + Scan(j, lines[1..], opts, found)
  }

  /** The answer of a scan of the whole file, newest first. */
  function ScanResult(j: Codec, disk: string, opts: Opts, limit: nat, total: nat): Result {
    var all := Scan(j, ScannerLines(disk), opts, opts.before == "");
    var events := Take(Reversed(all), limit);
    Result(events, total, |all| > limit, NextBefore(events))
  }

  predicate Scannable(lines: seq<string>) {
    forall i :: 0 <= i < |lines| ==> |lines[i]| < SCAN_LIMIT
  }

  lemma {:induction false} UnfilteredScan(j: Codec, lines: seq<string>, opts: Opts)
    requires EventLines(j, lines) && Scannable(lines) && !HasFilters(opts)
    ensures Scan(j, lines, opts, true) == Parsed(j, lines)
  {
    if lines != [] {
      assert EventLine(j, lines[0]);
      assert EventLines(j, lines[1..]) && Scannable(lines[1..]);
      UnfilteredScan(j, lines[1..], opts);
    }
  }

  /** A scan passes over everything up to the cursor's event. */
  lemma {:induction false} ScanAfterCursor(j: Codec, lines: seq<string>, opts: Opts, k: nat)
    requires EventLines(j, lines) && Scannable(lines)
    requires k < |lines| && j.parse(lines[k]).value.id == opts.before
    requires forall i :: 0 <= i < k ==> EventLine(j, lines[i]) && j.parse(lines[i]).value.id != opts.before
    ensures Scan(j, lines, opts, false) == Scan(j, lines[k + 1..], opts, true)
  {
    assert EventLine(j, lines[0]);
    if k > 0 {
      assert EventLines(j, lines[1..]) && Scannable(lines[1..]);
      ScanAfterCursor(j, lines[1..], opts, k - 1);
      assert lines[1..][k..] == lines[k + 1..];
    }
  }

  /** Without the cursor's event in the file nothing is returned. */
  lemma {:induction false} CursorMissing(j: Codec, lines: seq<string>, opts: Opts)
    requires EventLines(j, lines)
    requires forall i :: 0 <= i < |lines| ==> EventLine(j, lines[i]) && j.parse(lines[i]).value.id != opts.before
    ensures Scan(j, lines, opts, false) == []
  {
    if lines != [] {
      assert EventLine(j, lines[0]);
      assert EventLines(j, lines[1..]);
      CursorMissing(j, lines[1..], opts);
    }
  }

  /** The events that pass the filters, in order. */
  function Filtered(j: Codec, events: seq<Event>, opts: Opts): seq<Event> {
    if events == [] then []
    else
      var front, last := events[..|events| - 1], events[|events| - 1];
      if Matches(j, last, opts) then Filtered(j, front, opts) + [last] else Filtered(j, front, opts)
  }

  lemma {:induction false} FilteredCons(j: Codec, e: Event, events: seq<Event>, opts: Opts)
    ensures Filtered(j, [e] + events, opts)
      == if Matches(j, e, opts) then [e] + Filtered(j, events, opts) else Filtered(j, events, opts)
  {
    if events == [] {
      assert [e] + events == [e] && [e][..0] == [];
    } else {
      assert ([e] + events)[..|events|] == [e] + events[..|events| - 1];
      FilteredCons(j, e, events[..|events| - 1], opts);
    }
  }

  /** A filtered query without cursor answers with exactly the matching events of the file,
      newest first, cut at the limit, and says truly whether there are more. */
  lemma FilteredQuery(j: Codec, s: State, lines: seq<string>, opts: Opts, limit: nat)
    requires Agrees(j, s, lines) && Scannable(lines) && opts.before == ""
    ensures
      var matching := Filtered(j, Parsed(j, lines), opts);
      var r := ScanResult(j, s.disk, opts, limit, s.count);
      && r.events == Take(Reversed(matching), limit)
      && r.hasMore == (|matching| > limit)
  {
    EventLinesAreGood(j, lines);
    ScannerLinesOfRender(lines);
    ScanFilters(j, lines, opts);
  }

  lemma {:induction false} ScanFilters(j: Codec, lines: seq<string>, opts: Opts)
    requires EventLines(j, lines) && Scannable(lines)
    requires forall i :: 0 <= i < |lines| ==> EventLine(j, lines[i]) && j.parse(lines[i]).value.id != opts.before
    ensures Scan(j, lines, opts, true) == Filtered(j, Parsed(j, lines), opts)
  {
    if lines != [] {
      assert EventLine(j, lines[0]);
      assert EventLines(j, lines[1..]) && Scannable(lines[1..]);
      ScanFilters(j, lines[1..], opts);
      FilteredCons(j, j.parse(lines[0]).value, Parsed(j, lines[1..]), opts);
    }
  }

  /* ---------- pages after a cursor ---------- */

  predicate DistinctIds(events: seq<Event>) {
    forall i, k :: 0 <= i < k < |events| ==> events[i].id != events[k].id
  }

  lemma ParsedFrom(j: Codec, lines: seq<string>, k: nat)
    requires EventLines(j, lines) && k <= |lines|
    ensures |Parsed(j, lines)| == |lines| && Parsed(j, lines[k..]) == Parsed(j, lines)[k..]
  {
    ParsedAll(j, lines);
    ParsedAll(j, lines[k..]);
  }

  /** With the cursor on the k-th event of the file, a query answers with the matching events
      after it in the file, which are the newer ones. */
  lemma CursorPage(j: Codec, s: State, lines: seq<string>, opts: Opts, limit: nat, k: nat)
    requires Agrees(j, s, lines) && Scannable(lines) && DistinctIds(Parsed(j, lines))
    requires k < |lines| && k < |Parsed(j, lines)| && opts.before == Parsed(j, lines)[k].id
    ensures
      var newer := Filtered(j, Parsed(j, lines)[k + 1..], opts);
      var r := ScanResult(j, s.disk, opts, limit, s.count);
      r.events == Take(Reversed(newer), limit) && r.hasMore == (|newer| > limit)
  {
    EventLinesAreGood(j, lines);
    ScannerLinesOfRender(lines);
    ParsedAll(j, lines);
    forall i | 0 <= i < |lines|
      ensures EventLine(j, lines[i]) && (j.parse(lines[i]).value.id == opts.before <==> i == k)
    {
      assert Parsed(j, lines)[i] == j.parse(lines[i]).value;
    }
    ScanAfterCursor(j, lines, opts, k);
    var rest := lines[k + 1..];
    assert EventLines(j, rest) && Scannable(rest);
    forall i | 0 <= i < |rest|
      ensures EventLine(j, rest[i]) && j.parse(rest[i]).value.id != opts.before
    {
      assert rest[i] == lines[k + 1 + i];
    }
    ScanFilters(j, rest, opts);
    ParsedFrom(j, lines, k + 1);
    hide Scan, Parsed, Filtered;
  }

  lemma {:induction false} FilteredMembers(j: Codec, events: seq<Event>, opts: Opts)
    ensures forall i :: 0 <= i < |Filtered(j, events, opts)| ==> Filtered(j, events, opts)[i] in events
    ensures Filtered(j, events, opts) == [] <==> forall i :: 0 <= i < |events| ==> !Matches(j, events[i], opts)
  {
    if events != [] {
      FilteredMembers(j, events[..|events| - 1], opts);
      assert events[|events| - 1] in events;
    }
  }

  /** Pages drawn from events without a common one differ, unless both are empty. */
  lemma DisjointPages(a: seq<Event>, b: seq<Event>, newer: seq<Event>, older: seq<Event>, limit: nat)
    requires limit >= 1 && (a != [] || b != []) && forall e :: e in older ==> e !in newer
    requires forall i :: 0 <= i < |a| ==> a[i] in newer
    requires forall i :: 0 <= i < |b| ==> b[i] in older
    ensures Take(Reversed(a), limit) != Take(Reversed(b), limit)
  {
    if a != [] && b != [] {
      assert Take(Reversed(a), limit)[0] == a[|a| - 1];
      assert Take(Reversed(b), limit)[0] == b[|b| - 1];
    }
  }

  lemma NothingShared(events: seq<Event>, k: nat)
    requires DistinctIds(events) && k < |events|
    ensures forall e :: e in events[..k] ==> e !in events[k + 1..]
  {
  }

  /** The documentation promises the events before the cursor's.  The page is the documented
      one exactly when no event but the cursor's own passes the filters. */
  lemma CursorPageAsDocumentedIff(j: Codec, s: State, lines: seq<string>, opts: Opts, limit: nat, k: nat)
    requires Agrees(j, s, lines) && Scannable(lines) && DistinctIds(Parsed(j, lines)) && limit >= 1
    requires k < |lines| && k < |Parsed(j, lines)| && opts.before == Parsed(j, lines)[k].id
    ensures
      var events := Parsed(j, lines);
      (ScanResult(j, s.disk, opts, limit, s.count).events == Take(Reversed(Filtered(j, events[..k], opts)), limit))
        <==> forall i :: 0 <= i < |events| && i != k ==> !Matches(j, events[i], opts)
  {
    CursorPage(j, s, lines, opts, limit, k);
    var events := Parsed(j, lines);
    var older, newer := events[..k], events[k + 1..];
    FilteredMembers(j, older, opts);
    FilteredMembers(j, newer, opts);
    hide Agrees, Scannable, Matches, ScanResult, Parsed, Filtered, Take;
    var a, b := Filtered(j, newer, opts), Filtered(j, older, opts);
    if a == [] && b == [] {
      forall i | 0 <= i < |events| && i != k
        ensures !Matches(j, events[i], opts)
      {
        assert if i < k then older[i] == events[i] else newer[i - k - 1] == events[i];
      }
    } else {
      NothingShared(events, k);
      DisjointPages(a, b, newer, older, limit);
      assert forall i :: 0 <= i < |older| ==> older[i] == events[i];
      assert forall i :: 0 <= i < |newer| ==> newer[i] == events[k + 1 + i];
    }
  }

  lemma SliceFront<T>(s: seq<T>, n: nat)
    requires n < |s|
    ensures var rest := s[n..]; rest[..|rest| - 1] == s[..|s| - 1][n..] && rest[|rest| - 1] == s[|s| - 1]
  {
  }

  /** Where the q-th matching event stands. */
  lemma {:induction false} FilteredAt(j: Codec, events: seq<Event>, opts: Opts, q: nat) returns (k: nat)
    requires q < |Filtered(j, events, opts)|
    ensures k < |events| && events[k] == Filtered(j, events, opts)[q]
    ensures Filtered(j, events[k + 1..], opts) == Filtered(j, events, opts)[q + 1..]
  {
    var front, last := events[..|events| - 1], events[|events| - 1];
    var all := Filtered(j, events, opts);
    if q == |all| - 1 && Matches(j, last, opts) {
      k := |events| - 1;
      assert events[k + 1..] == [] && all[q + 1..] == [];
    } else {
      k := FilteredAt(j, front, opts, q);
      SliceFront(events, k + 1);
    }
  }

  lemma {:induction false} FilteredIgnoresCursor(j: Codec, events: seq<Event>, opts: Opts, before: string)
    ensures Filtered(j, events, opts.(before := before)) == Filtered(j, events, opts)
  {
    if events != [] {
      FilteredIgnoresCursor(j, events[..|events| - 1], opts, before);
    }
  }

  /** The oldest event of a page, and what is newer than it. */
  lemma PageTail(matching: seq<Event>, limit: nat)
    requires Take(Reversed(matching), limit) != []
    ensures
      var page := Take(Reversed(matching), limit);
      var q := |matching| - |page|;
      0 <= q < |matching| && page[|page| - 1] == matching[q] && Reversed(matching[q + 1..]) == page[..|page| - 1]
  {
  }

  lemma AfterPage(j: Codec, events: seq<Event>, opts: Opts, limit: nat) returns (k: nat)
    requires Take(Reversed(Filtered(j, events, opts)), limit) != []
    ensures
      var page := Take(Reversed(Filtered(j, events, opts)), limit);
      && k < |events| && events[k] == page[|page| - 1]
      && forall before :: Reversed(Filtered(j, events[k + 1..], opts.(before := before))) == page[..|page| - 1]
  {
    var matching := Filtered(j, events, opts);
    PageTail(matching, limit);
    k := FilteredAt(j, events, opts, |matching| - |Take(Reversed(matching), limit)|);
    hide Filtered, Take, Reversed;
    forall before
      ensures Filtered(j, events[k + 1..], opts.(before := before)) == Filtered(j, events[k + 1..], opts)
    {
      FilteredIgnoresCursor(j, events[k + 1..], opts, before);
    }
  }

  lemma AgreesParsed(j: Codec, s: State, lines: seq<string>)
    requires Agrees(j, s, lines)
    ensures |Parsed(j, lines)| == |lines|
  {
    ParsedAll(j, lines);
  }

  lemma ScanNextBefore(j: Codec, disk: string, opts: Opts, limit: nat, total: nat)
    ensures var r := ScanResult(j, disk, opts, limit, total); r.nextBefore == NextBefore(r.events)
  {
  }

  /** Following NextBefore of a first page never leads to an older event: the second page is
      the first one again without its oldest event. */
  lemma SecondPageIsTheFirst(j: Codec, s: State, lines: seq<string>, opts: Opts, limit: nat, limit2: nat)
    requires Agrees(j, s, lines) && Scannable(lines) && DistinctIds(Parsed(j, lines)) && opts.before == ""
    requires ScanResult(j, s.disk, opts, limit, s.count).events != []
    ensures
      var first := ScanResult(j, s.disk, opts, limit, s.count);
      var second := ScanResult(j, s.disk, opts.(before := first.nextBefore), limit2, s.count);
      second.events == Take(first.events[..|first.events| - 1], limit2)
  {
    hide Agrees, Scannable, DistinctIds, EventLines, Parsed, Filtered, Take, Reversed, ScanResult;
    FilteredQuery(j, s, lines, opts, limit);
    AgreesParsed(j, s, lines);
    var first := ScanResult(j, s.disk, opts, limit, s.count);
    ScanNextBefore(j, s.disk, opts, limit, s.count);
    var k := AfterPage(j, Parsed(j, lines), opts, limit);
    CursorPage(j, s, lines, opts.(before := first.nextBefore), limit2, k);
  }

  /** The same of the page that is served from the cache. */
  lemma LoadMoreRepeats(j: Codec, s: State, lines: seq<string>, opts: Opts)
    requires Agrees(j, s, lines) && Scannable(lines) && DistinctIds(Parsed(j, lines)) && !HasFilters(opts)
    requires s.count > 0
    ensures
      var limit := Clamped(opts.limit);
      var first := CacheResult(s.cache, limit, s.count);
      var second := ScanResult(j, s.disk, opts.(before := first.nextBefore), limit, s.count);
      first.events != [] && second.events == first.events[..|first.events| - 1]
  {
    var limit := Clamped(opts.limit);
    FastPathRefinesScan(j, s, lines, opts);
    ParsedAll(j, LastN(lines, CACHE_SIZE));
    LastNEventLines(j, lines, CACHE_SIZE);
    var first := CacheResult(s.cache, limit, s.count);
    assert first.events != [] && |first.events| <= limit;
    hide Agrees, Scannable, DistinctIds, Parsed, ScanResult, CacheResult;
    SecondPageIsTheFirst(j, s, lines, opts, limit, limit);
  }

  /** Three events, the cursor on the middle one: the first is documented, the last returned. */
  lemma CursorGoesForward(j: Codec, a: Event, b: Event, c: Event, limit: nat)
    requires Lawful(j) && DistinctIds([a, b, c]) && a.id != "" && b.id != "" && c.id != "" && limit >= 1
    requires Scannable([j.marshal(a), j.marshal(b), j.marshal(c)])
    ensures
      var s := Open(j, Render([j.marshal(a), j.marshal(b), j.marshal(c)]));
      ScanResult(j, s.disk, Opts("", "", "", None, 50, b.id), limit, s.count).events == [c]
  {
    var lines := [j.marshal(a), j.marshal(b), j.marshal(c)];
    var opts := Opts("", "", "", None, 50, b.id);
    ThreeEvents(j, a, b, c);
    assert Matches(j, c, opts) && [a, b, c][2..] == [c];
    hide *;
    OpenAgrees(j, lines);
    OneNewer(j, Open(j, Render(lines)), lines, opts, limit, 1, c);
  }

  lemma OneNewer(j: Codec, s: State, lines: seq<string>, opts: Opts, limit: nat, k: nat, e: Event)
    requires Agrees(j, s, lines) && Scannable(lines) && DistinctIds(Parsed(j, lines)) && limit >= 1
    requires k < |lines| && k < |Parsed(j, lines)| && opts.before == Parsed(j, lines)[k].id
    requires Parsed(j, lines)[k + 1..] == [e] && Matches(j, e, opts)
    ensures ScanResult(j, s.disk, opts, limit, s.count).events == [e]
  {
    CursorPage(j, s, lines, opts, limit, k);
    OneMatches(j, e, opts);
    hide Agrees, Scannable, Parsed, Filtered, ScanResult;
    assert Reversed([e]) == [e];
  }

  lemma ThreeEvents(j: Codec, a: Event, b: Event, c: Event)
    requires Lawful(j) && a.id != "" && b.id != "" && c.id != ""
    ensures var lines := [j.marshal(a), j.marshal(b), j.marshal(c)];
      EventLines(j, lines) && Parsed(j, lines) == [a, b, c] && TrimmedTo(lines) == lines
  {
    var lines := [j.marshal(a), j.marshal(b), j.marshal(c)];
    assert j.parse(j.marshal(a)) == Some(a) && j.parse(j.marshal(b)) == Some(b) && j.parse(j.marshal(c)) == Some(c);
    assert EventLines(j, lines);
    ParsedAll(j, lines);
  }

  lemma OneMatches(j: Codec, e: Event, opts: Opts)
    requires Matches(j, e, opts)
    ensures Filtered(j, [e], opts) == [e]
  {
    assert [e][..0] == [];
  }

  function CacheResult(cache: seq<Event>, limit: nat, count: nat): Result {
    var events := Take(Reversed(cache), limit);
    Result(events, count, |cache| > limit, NextBefore(events))
  }

  /** Wherever file, count and cache agree, an unfiltered query served from the cache gives
      the events and the cursor that a scan of the whole file would give; HasMore agrees too
      exactly when the limit is below the cache size or the log is no longer than the cache. */
  lemma FastPathRefinesScan(j: Codec, s: State, lines: seq<string>, opts: Opts)
    requires Agrees(j, s, lines) && Scannable(lines) && !HasFilters(opts)
    ensures
      var limit := Clamped(opts.limit);
      var fast, slow := CacheResult(s.cache, limit, s.count), ScanResult(j, s.disk, opts, limit, s.count);
      && fast.events == slow.events && fast.total == slow.total == |lines| && fast.nextBefore == slow.nextBefore
      && (fast.hasMore == slow.hasMore <==> limit < CACHE_SIZE || s.count <= CACHE_SIZE)
  {
    var limit := Clamped(opts.limit);
    EventLinesAreGood(j, lines);
    ScannerLinesOfRender(lines);
    UnfilteredScan(j, lines, opts);
    var recent := LastN(lines, CACHE_SIZE);
    LastNEventLines(j, lines, CACHE_SIZE);
    ParsedAll(j, lines);
    ParsedAll(j, recent);
    var all := Parsed(j, lines);
    assert s.cache == LastN(all, CACHE_SIZE);
    assert Take(Reversed(s.cache), limit) == Take(Reversed(all), limit);
  }

  /* ---------- the class ---------- */

  /** Turns a slice around in place. */
  method ReverseInPlace<T>(a: array<T>)
    modifies a
    ensures a[..] == Reversed(old(a[..]))
  {
    var i, k := 0, a.Length - 1;
    while i < k
      invariant 0 <= i <= a.Length && k == a.Length - 1 - i && i <= k + 1
      invariant forall m :: 0 <= m < i || k < m < a.Length ==> a[m] == old(a[a.Length - 1 - m])
      invariant forall m :: i <= m <= k ==> a[m] == old(a[m])
    {
      a[i], a[k] := a[k], a[i];
      i, k := i + 1, k - 1;
    }
    assert a[..] == Reversed(old(a[..]));
  }

  class Log {
    const json: Codec
    var open: bool
    var disk: string
    var count: nat
    var cache: seq<Event>

    ghost function Abs(): State
      reads this
    {
      State(open, disk, count, cache)
    }

    static method LoadCache(json: Codec, lines: seq<string>) returns (loaded: seq<Event>)
      ensures loaded == Parsed(json, LastN(lines, CACHE_SIZE))
    {
      var start := 0;
      if |lines| > CACHE_SIZE {
        start := |lines| - CACHE_SIZE;
      }
      var recent := lines[start..];
      assert recent == LastN(lines, CACHE_SIZE);
      hide LastN;
      loaded := [];
      assert recent[0..] == recent;
      for k := 0 to |recent|
        invariant loaded + Parsed(json, recent[k..]) == Parsed(json, recent)
      {
        assert recent[k..][1..] == recent[k + 1..];
        match json.parse(recent[k]) {
          case Some(e) =>
            assert loaded + ([e] + Parsed(json, recent[k + 1..])) == loaded + [e] + Parsed(json, recent[k + 1..]);
            loaded := loaded + [e];
          case None =>
        }
      }
    }

    /** NewEventLog on a readable (or absent, then empty) file. */
    constructor (json: Codec, content: string)
      ensures this.json == json && Abs() == Open(json, content)
    {
      var lines := FileLines(content);
      var text := content;
      if |lines| > MAX_EVENTS {
        lines := lines[|lines| - ROTATE_KEEP..];
        text := Join(lines, "\n") + "\n";
      }
      var loaded := LoadCache(json, lines);
      this.json := json;
      open, disk, count, cache := true, text, |lines|, loaded;
    }

    method RotateLocked(rotation: Rotation)
      modifies this
      ensures Abs() == Rotate(old(Abs()), rotation)
    {
      hide FileLines, Join;
      open := false;
      if rotation.ReadFails? {
        return;
      }
      var lines := FileLines(disk);
      if |lines| > ROTATE_KEEP {
        lines := lines[|lines| - ROTATE_KEEP..];
      }
      var content := Join(lines, "\n");
      if content != "" {
        content := content + "\n";
      }
      if rotation.WriteFails? {
        disk := rotation.left;
        return;
      }
      disk := content;
      count := |lines|;
      if rotation.ReopenFails? {
        return;
      }
      open := true;
    }

    /** Emit with the event already stamped; a write either succeeds or leaves no trace. */
    method Emit(m: Emission)
      modifies this
      ensures Abs() == AfterEmit(json, old(Abs()), m)
    {
      var data := json.marshal(m.event);
      if !open {
        return;
      }
      if !m.writeOk {
        return;
      }
      disk := disk + data + "\n";
      count := count + 1;
      if |cache| >= CACHE_SIZE {
        cache := cache[1..];
      }
      cache := cache + [m.event];
      if count > MAX_EVENTS {
        RotateLocked(m.rotation);
      }
    }

    method FromCache(limit: nat) returns (r: Result)
      ensures r == CacheResult(cache, limit, count)
    {
      var n := |cache|;
      var k := if limit > n then n else limit;
      var events: seq<Event> := [];
      for i := 0 to k
        invariant events == Reversed(cache)[..i]
      {
        events := events + [cache[n - 1 - i]];
      }
      r := Result(events, count, n > k, NextBefore(events));
    }

    /** The scanning loop. */
    method Collect(lines: seq<string>, opts: Opts) returns (all: seq<Event>)
      ensures all == Scan(json, lines, opts, opts.before == "")
    {
      all := [];
      var beforeFound := opts.before == "";
      var k := 0;
      ghost var goal := Scan(json, lines, opts, beforeFound);
      assert lines[0..] == lines;
      while k < |lines| && |lines[k]| < SCAN_LIMIT
        invariant k <= |lines|
        invariant all + Scan(json, lines[k..], opts, beforeFound) == goal
      {
        assert lines[k..][1..] == lines[k + 1..];
        var parsed := json.parse(lines[k]);
        k := k + 1;
        if parsed.None? {
          continue;
        }
        var e := parsed.value;
        if !beforeFound {
          beforeFound := e.id == opts.before;
          continue;
        }
        if e.id == opts.before || !Matches(json, e, opts) {
          continue;
        }
        ghost var rest := Scan(json, lines[k..], opts, beforeFound);
        assert all + ([e] + rest) == all + [e] + rest;
        all := all + [e];
      }
    }

    method ScanFile(opts: Opts, limit: nat, total: nat) returns (r: Result)
      ensures r == ScanResult(json, disk, opts, limit, total)
    {
      var all := Collect(ScannerLines(disk), opts);
      var slice := new Event[|all|](i requires 0 <= i < |all| => all[i]);
      assert slice[..] == all;
      ReverseInPlace(slice);
      var events := slice[..];
      var hasMore := |events| > limit;
      if hasMore {
        events := events[..limit];
      }
      r := Result(events, total, hasMore, NextBefore(events));
    }

    method Query(opts: Opts) returns (r: Result)
      ensures
        var limit := Clamped(opts.limit);
        r == if HasFilters(opts) then ScanResult(json, disk, opts, limit, count) else CacheResult(cache, limit, count)
    {
      var limit := Clamped(opts.limit);
      if !HasFilters(opts) {
        r := FromCache(limit);
      } else {
        r := ScanFile(opts, limit, count);
      }
    }
  }
}
