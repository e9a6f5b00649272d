/** Incremental decoding of server-sent events: streamClusterSSE (frontend/src/api/client.js),
    the chat store's line decoder (frontend/src/stores/chatStore.js), and the framing that
    both servers use (internal/api/handlers_clusters.go, internal/api/handlers_chat.go).
    Text arrives in chunks cut anywhere; JSON.parse is a parameter, None for a syntax error. */
module Sse {
  import opened Text

  datatype Kind = Done | Failure | Other

  datatype Ev = Ev(kind: Kind, body: string)

  type Parser = string -> Option<Ev>

  /** Open: the stream may go on.  Resolved and Rejected settle the promise. */
  datatype Outcome = Open | Resolved(ev: Ev) | Rejected(ev: Ev)

  datatype Decoded = Decoded(delivered: seq<Ev>, rest: string, outcome: Outcome)

  function Concat(chunks: seq<string>): string {
    if chunks == [] then "" else Concat(chunks[..|chunks| - 1]) + chunks[|chunks| - 1]
  }

  /* ---------- the frame decoder ---------- */

  /** The payload of a `data:` line, if it has one. */
  function Payload(line: string): Option<string> {
    if "data:" <= line && TrimSpace(line[5..]) != "" then Some(TrimSpace(line[5..])) else None
  }

  function Settles(ev: Ev): Outcome {
    match ev.kind
    case Done => Resolved(ev)
    case Failure => Rejected(ev)
    case Other => Open
  }

  /** Delivers the events of some lines, stopping at the first that settles. */
  function ReadLines(parse: Parser, lines: seq<string>, delivered: seq<Ev>): (seq<Ev>, Outcome) {
    if lines == [] then (delivered, Open)
    else
      var p := Payload(lines[0]);
      if p.None? || parse(p.value).None? then ReadLines(parse, lines[1..], delivered)
      else
        var ev := parse(p.value).value;
        if Settles(ev).Open? then ReadLines(parse, lines[1..], delivered + [ev])
        else (delivered + [ev], Settles(ev))
  }

  /** buf.indexOf('\n\n') */
  function BlankLine(s: string): (idx: int)
    ensures -1 <= idx && (idx >= 0 ==> idx + 2 <= |s| && s[idx] == s[idx + 1] == '\n')
  {
    if |s| < 2 then -1
    else if s[0] == '\n' && s[1] == '\n' then 0
    else var r := BlankLine(s[1..]); if r < 0 then -1 else r + 1
  }

  /** What the decoder makes of a whole text at once. */
  function Decode(parse: Parser, buf: string, delivered: seq<Ev>): Decoded
    decreases |buf|
  {
    var idx := BlankLine(buf);
    if idx < 0 then Decoded(delivered, buf, Open)
    else
      var (d, o) := ReadLines(parse, Split(buf[..idx], '\n'), delivered);
      if o.Open? then Decode(parse, buf[idx + 2..], d) else Decoded(d, buf[idx + 2..], o)
  }

  lemma {:induction false} BlankLineStays(a: string, b: string)
    requires BlankLine(a) >= 0
    ensures BlankLine(a + b) == BlankLine(a)
  {
    if !(a[0] == '\n' && a[1] == '\n') {
      assert (a + b)[1..] == a[1..] + b;
      BlankLineStays(a[1..], b);
    }
  }

  /** Decoding a text is decoding its first part and going on with what was left over: once
      settled, nothing that follows matters. */
  lemma {:induction false} DecodeInTwo(parse: Parser, a: string, b: string, delivered: seq<Ev>)
    ensures
      var first, whole := Decode(parse, a, delivered), Decode(parse, a + b, delivered);
      if first.outcome.Open? then whole == Decode(parse, first.rest + b, first.delivered)
      else whole.delivered == first.delivered && whole.outcome == first.outcome
    decreases |a|
  {
    var idx := BlankLine(a);
    if idx >= 0 {
      BlankLineStays(a, b);
      assert (a + b)[..idx] == a[..idx];
      assert (a + b)[idx + 2..] == a[idx + 2..] + b;
      var (d, o) := ReadLines(parse, Split(a[..idx], '\n'), delivered);
      if o.Open? {
        DecodeInTwo(parse, a[idx + 2..], b, d);
      }
    }
  }

  /** One chunk arrives: what is left over and the chunk are decoded, unless all is settled. */
  function Feed(parse: Parser, d: Decoded, chunk: string): Decoded {
    if d.outcome.Open? then Decode(parse, d.rest + chunk, d.delivered) else d
  }

  /** The reader: chunk by chunk, as they come. */
  function Stream(parse: Parser, chunks: seq<string>): Decoded {
    if chunks == [] then Decoded([], "", Open)
    else Feed(parse, Stream(parse, chunks[..|chunks| - 1]), chunks[|chunks| - 1])
  }

  /** However a text is cut into chunks, reading them one by one delivers and settles what
      decoding it whole does. */
  lemma {:induction false} CutsDoNotMatter(parse: Parser, chunks: seq<string>)
    ensures
      var read, whole := Stream(parse, chunks), Decode(parse, Concat(chunks), []);
      && read.delivered == whole.delivered && read.outcome == whole.outcome
      && (read.outcome.Open? ==> read.rest == whole.rest)
  {
    if chunks != [] {
      var front := chunks[..|chunks| - 1];
      CutsDoNotMatter(parse, front);
      DecodeInTwo(parse, Concat(front), chunks[|chunks| - 1], []);
    }
  }

  lemma {:induction false} SettledEarly(parse: Parser, chunks: seq<string>, k: nat)
    requires k <= |chunks| && !Stream(parse, chunks[..k]).outcome.Open?
    ensures Stream(parse, chunks) == Stream(parse, chunks[..k])
  {
    if k == |chunks| {
      assert chunks[..k] == chunks;
    } else {
      assert chunks[..|chunks| - 1][..k] == chunks[..k];
      SettledEarly(parse, chunks[..|chunks| - 1], k);
    }
  }

  /** The inner loop over the lines of one frame. */
  method ReadFrame(parse: Parser, frame: string, before: seq<Ev>) returns (delivered: seq<Ev>, outcome: Outcome)
    ensures (delivered, outcome) == ReadLines(parse, Split(frame, '\n'), before)
  {
    var lines := Split(frame, '\n');
    delivered := before;
    for k := 0 to |lines|
      invariant ReadLines(parse, lines[k..], delivered) == ReadLines(parse, lines, before)
    {
      var line := lines[k];
      assert lines[k..][1..] == lines[k + 1..];
      if !("data:" <= line) {
        continue;
      }
      var payload := TrimSpace(line[5..]);
      if payload == "" {
        continue;
      }
      match parse(payload) {
        case None =>
        case Some(ev) =>
          delivered := delivered + [ev];
          if ev.kind == Done {
            return delivered, Resolved(ev);
          }
          if ev.kind == Failure {
            return delivered, Rejected(ev);
          }
      }
    }
    outcome := Open;
  }

  /** streamClusterSSE after the response headers: the reader loop with its frame loop. */
  method StreamClusterSse(parse: Parser, chunks: seq<string>) returns (delivered: seq<Ev>, outcome: Outcome)
    ensures delivered == Stream(parse, chunks).delivered && outcome == Stream(parse, chunks).outcome
  {
    var buf := "";
    delivered := [];
    for k := 0 to |chunks|
      invariant Stream(parse, chunks[..k]) == Decoded(delivered, buf, Open)
    {
      assert chunks[..k + 1][..k] == chunks[..k];
      ghost var goal := Stream(parse, chunks[..k + 1]);
      buf := buf + chunks[k];
      var idx := BlankLine(buf);
      while idx != -1
        invariant idx == BlankLine(buf)
        invariant Decode(parse, buf, delivered) == goal
        decreases |buf|
      {
        var frame := buf[..idx];
        buf := buf[idx + 2..];
        delivered, outcome := ReadFrame(parse, frame, delivered);
        if !outcome.Open? {
          SettledEarly(parse, chunks, k + 1);
          return;
        }
        idx := BlankLine(buf);
      }
    }
    assert chunks[..|chunks|] == chunks;
    outcome := Open;
  }

  /* ---------- framed events ---------- */

  /** JSON text of an event: one line that begins and ends with a brace. */
  predicate IsJsonLine(p: string) {
    p != "" && '\n' !in p && Trimmed(p)
  }

  /** fmt.Fprintf(w, "data: %s\n\n", data) */
  function Frame(p: string): string {
    "data: " + p + "\n\n"
  }

  function FrameAll(ps: seq<string>): string {
    if ps == [] then "" else Frame(ps[0]) + FrameAll(ps[1..])
  }

  /** `ps` are JSON lines for the events `evs`, one each. */
  predicate TextsOf(parse: Parser, ps: seq<string>, evs: seq<Ev>) {
    |ps| == |evs| && forall i :: 0 <= i < |ps| ==> IsJsonLine(ps[i]) && parse(ps[i]) == Some(evs[i])
  }

  /** The number of events up to and including the first that settles. */
  function SettledAt(evs: seq<Ev>): (n: nat)
    ensures n <= |evs|
    ensures forall i :: 0 <= i < n - 1 ==> Settles(evs[i]).Open?
    ensures n < |evs| ==> n > 0 && !Settles(evs[n - 1]).Open?
  {
    if evs == [] then 0
    else if !Settles(evs[0]).Open? then 1
    else SettledAt(evs[1..]) + 1
  }

  /** What the last of some delivered events settles. */
  function Ending(evs: seq<Ev>): Outcome {
    if evs == [] then Open else Settles(evs[|evs| - 1])
  }

  lemma {:induction false} BlankLineAfter(a: string, rest: string)
    requires '\n' !in a
    ensures BlankLine(a + "\n\n" + rest) == |a|
  {
    var s := a + "\n\n" + rest;
    if a != "" {
      assert s[0] == a[0];
      assert s[1..] == a[1..] + "\n\n" + rest;
      BlankLineAfter(a[1..], rest);
    }
  }

  lemma ReadOneLine(parse: Parser, p: string, delivered: seq<Ev>)
    requires IsJsonLine(p) && parse(p).Some?
    ensures
      var ev := parse(p).value;
      ReadLines(parse, ["data: " + p], delivered) == (delivered + [ev], Settles(ev))
  {
    var lines := ["data: " + p];
    PayloadOfLine(p);
    assert lines[1..] == [];
  }

  lemma FrameRead(parse: Parser, p: string, rest: string, delivered: seq<Ev>)
    requires IsJsonLine(p) && parse(p).Some?
    ensures
      var ev := parse(p).value;
      Decode(parse, Frame(p) + rest, delivered) ==
        if Settles(ev).Open? then Decode(parse, rest, delivered + [ev])
        else Decoded(delivered + [ev], rest, Settles(ev))
  {
    var line := "data: " + p;
    var buf := Frame(p) + rest;
    assert buf == line + "\n\n" + rest;
    BlankLineAfter(line, rest);
    assert buf[..|line|] == line && buf[|line| + 2..] == rest;
    SplitWhole(line, '\n');
    ReadOneLine(parse, p, delivered);
  }

  lemma PayloadOfLine(p: string)
    requires IsJsonLine(p)
    ensures Payload("data: " + p) == Some(p)
  {
    var line := "data: " + p;
    assert line[..5] == "data:";
    var t := line[5..];
    assert t[0] == ' ' && t[1..] == p;
    assert TrimLeft(t) == TrimLeft(p) == p;
    assert TrimRight(p) == p;
  }

  /** The delivered events and the outcome that reading all of `evs` should add. */
  function Expected(delivered: seq<Ev>, evs: seq<Ev>): (seq<Ev>, Outcome) {
    (delivered + evs[..SettledAt(evs)], Ending(evs[..SettledAt(evs)]))
  }

  lemma ExpectedStep(delivered: seq<Ev>, evs: seq<Ev>)
    requires evs != []
    ensures Expected(delivered, evs) ==
      if Settles(evs[0]).Open? then Expected(delivered + [evs[0]], evs[1..])
      else (delivered + [evs[0]], Settles(evs[0]))
  {
    if Settles(evs[0]).Open? {
      var n := SettledAt(evs[1..]);
      assert evs[..n + 1] == [evs[0]] + evs[1..][..n];
      assert delivered + [evs[0]] + evs[1..][..n] == delivered + evs[..n + 1];
    } else {
      assert evs[..1] == [evs[0]];
    }
  }

  lemma {:induction false} DecodeFramed(parse: Parser, ps: seq<string>, evs: seq<Ev>, delivered: seq<Ev>)
    requires TextsOf(parse, ps, evs)
    ensures
      var d := Decode(parse, FrameAll(ps), delivered);
      (d.delivered, d.outcome) == Expected(delivered, evs)
  {
    if ps == [] {
      assert delivered + evs[..0] == delivered;
    } else {
      assert IsJsonLine(ps[0]) && parse(ps[0]) == Some(evs[0]);
      var rest := FrameAll(ps[1..]);
      FrameRead(parse, ps[0], rest, delivered);
      ExpectedStep(delivered, evs);
      if Settles(evs[0]).Open? {
        DecodeFramed(parse, ps[1..], evs[1..], delivered + [evs[0]]);
      }
    }
  }

  lemma StreamSettles(parse: Parser, ps: seq<string>, evs: seq<Ev>, chunks: seq<string>)
    requires TextsOf(parse, ps, evs) && Concat(chunks) == FrameAll(ps)
    ensures
      var d, n := Stream(parse, chunks), SettledAt(evs);
      d.delivered == evs[..n] && d.outcome == Ending(evs[..n])
  {
    CutsDoNotMatter(parse, chunks);
    DecodeFramed(parse, ps, evs, []);
    assert [] + evs[..SettledAt(evs)] == evs[..SettledAt(evs)];
  }

  /** The n-th event is the first done or error. */
  predicate FirstEnd(evs: seq<Ev>, n: nat) {
    n < |evs| && evs[n].kind != Other && forall m :: 0 <= m < n ==> evs[m].kind == Other
  }

  lemma {:induction false} SettledIsFirstEnd(evs: seq<Ev>)
    ensures
      var n := SettledAt(evs);
      if exists i :: 0 <= i < |evs| && evs[i].kind != Other then n > 0 && FirstEnd(evs, n - 1) else n == |evs|
  {
    if evs != [] && evs[0].kind == Other {
      SettledIsFirstEnd(evs[1..]);
      assert forall i :: 0 < i < |evs| ==> evs[i] == evs[1..][i - 1];
      if i :| 0 <= i < |evs| && evs[i].kind != Other {
        assert evs[1..][i - 1].kind != Other;
      }
      if i :| 0 <= i < |evs[1..]| && evs[1..][i].kind != Other {
        assert evs[i + 1].kind != Other;
      }
    }
  }

  /** For every list of framed events and every way of cutting their text into chunks, the
      decoder delivers exactly the events up to and including the first done or error, and
      resolves with it if it is done, rejects with it if it is an error; without any it
      delivers them all and stays open. */
  lemma StreamDeliversFramed(parse: Parser, ps: seq<string>, evs: seq<Ev>, chunks: seq<string>)
    requires TextsOf(parse, ps, evs) && Concat(chunks) == FrameAll(ps)
    ensures
      var d := Stream(parse, chunks);
      && (forall n: nat :: FirstEnd(evs, n) ==>
            && d.delivered == evs[..n + 1]
            && d.outcome == if evs[n].kind == Done then Resolved(evs[n]) else Rejected(evs[n]))
      && ((forall n :: 0 <= n < |evs| ==> evs[n].kind == Other) ==> d.delivered == evs && d.outcome == Open)
  {
    StreamSettles(parse, ps, evs, chunks);
    SettledIsFirstEnd(evs);
    hide Stream;
    var n := SettledAt(evs);
    forall k: nat | FirstEnd(evs, k)
      ensures n == k + 1
    {
      assert evs[k].kind != Other;
    }
    if forall i :: 0 <= i < |evs| ==> evs[i].kind == Other {
      assert evs[..n] == evs;
    }
  }

  /** Told by the outcome. */
  lemma OutcomeIff(parse: Parser, ps: seq<string>, evs: seq<Ev>, chunks: seq<string>, ev: Ev)
    requires TextsOf(parse, ps, evs) && Concat(chunks) == FrameAll(ps)
    ensures
      var o := Stream(parse, chunks).outcome;
      && (o == Resolved(ev) <==> exists n: nat :: FirstEnd(evs, n) && evs[n] == ev && ev.kind == Done)
      && (o == Rejected(ev) <==> exists n: nat :: FirstEnd(evs, n) && evs[n] == ev && ev.kind == Failure)
      && (o == Open <==> forall n :: 0 <= n < |evs| ==> evs[n].kind == Other)
  {
    StreamDeliversFramed(parse, ps, evs, chunks);
    SettledIsFirstEnd(evs);
    hide Stream;
    if n :| 0 <= n < |evs| && evs[n].kind != Other {
      assert FirstEnd(evs, SettledAt(evs) - 1);
    }
  }

  /* ---------- what the decoder passes over ---------- */

  /** The first of two newlines in a row. */
  predicate TwoNewlines(s: string, i: nat) {
    i + 1 < |s| && s[i] == '\n' && s[i + 1] == '\n'
  }

  lemma {:induction false} BlankLineIsFirst(s: string)
    ensures BlankLine(s) < 0 <==> forall i: nat :: !TwoNewlines(s, i)
    ensures BlankLine(s) >= 0 ==> TwoNewlines(s, BlankLine(s)) && forall i: nat :: i < BlankLine(s) ==> !TwoNewlines(s, i)
  {
    if |s| >= 2 && !TwoNewlines(s, 0) {
      BlankLineIsFirst(s[1..]);
      forall i: nat
        ensures TwoNewlines(s, i) <==> i > 0 && TwoNewlines(s[1..], i - 1)
      {
      }
      if BlankLine(s[1..]) >= 0 {
        assert TwoNewlines(s, BlankLine(s[1..]) + 1);
      }
    } else if |s| >= 2 {
      assert TwoNewlines(s, 0);
    }
  }

  /** A frame that is not finished yet waits for the rest. */
  lemma UnfinishedWaits(parse: Parser, s: string, delivered: seq<Ev>)
    requires forall i: nat :: !TwoNewlines(s, i)
    ensures Decode(parse, s, delivered) == Decoded(delivered, s, Open)
  {
    BlankLineIsFirst(s);
  }

  /** Blanks around a payload do not matter, a carriage return at its end included. */
  lemma BlanksDoNotMatter(p: string, before: string, after: string)
    requires p != "" && Trimmed(p) && AllSpace(before) && AllSpace(after)
    ensures Payload("data:" + (before + p + after)) == Some(p)
  {
    var line := "data:" + (before + p + after);
    assert line[..5] == "data:" && line[5..] == before + p + after;
    TrimSpaceExact(before, p, after);
  }

  /** Comments, other fields, empty data and data that is not JSON are passed over. */
  lemma {:induction false} OtherLinesPassed(parse: Parser, a: seq<string>, line: string, b: seq<string>, delivered: seq<Ev>)
    requires "data:" <= line && TrimSpace(line[5..]) != "" ==> parse(TrimSpace(line[5..])).None?
    ensures ReadLines(parse, a + [line] + b, delivered) == ReadLines(parse, a + b, delivered)
    decreases |a|
  {
    var all := a + [line] + b;
    if a == [] {
      assert all[0] == line && all[1..] == b && a + b == b;
    } else {
      assert all[0] == a[0] == (a + b)[0];
      assert all[1..] == a[1..] + [line] + b && (a + b)[1..] == a[1..] + b;
      hide TrimSpace;
      forall d: seq<Ev>
        ensures ReadLines(parse, a[1..] + [line] + b, d) == ReadLines(parse, a[1..] + b, d)
      {
        OtherLinesPassed(parse, a[1..], line, b, d);
      }
    }
  }

  /* ---------- the chat store's line decoder ---------- */

  /** The payloads of complete lines. */
  function ChatPayloads(lines: seq<string>): seq<string> {
    if lines == [] then []
    else
      var front, line := lines[..|lines| - 1], lines[|lines| - 1];
      if "data: " <= line then ChatPayloads(front) + [line[6..]] else ChatPayloads(front)
  }

  /** Complete lines and the unfinished last one. */
  function Lines(text: string): (seq<string>, string) {
    var pieces := Split(text, '\n');
    (pieces[..|pieces| - 1], pieces[|pieces| - 1])
  }

  function PutFirst(c: char, pieces: seq<string>): (r: seq<string>)
    requires |pieces| > 0
    ensures |r| == |pieces|
  {
    [[c] + pieces[0]] + pieces[1..]
  }

  lemma PutFirstInTwo(c: char, pieces: seq<string>, more: seq<string>)
    requires |pieces| > 1
    ensures
      var r := PutFirst(c, pieces);
      && PutFirst(c, pieces[..|pieces| - 1] + more) == r[..|r| - 1] + more
      && r[|r| - 1] == pieces[|pieces| - 1]
  {
  }

  lemma SplitHead(s: string)
    requires s != ""
    ensures s[0] != '\n' ==> Split(s, '\n') == PutFirst(s[0], Split(s[1..], '\n'))
    ensures s[0] == '\n' ==> Split(s, '\n') == [""] + Split(s[1..], '\n')
  {
  }

  /** Every piece of `a` but the last, then the pieces of the last one followed by `b`. */
  function SplitOn(pieces: seq<string>, b: string): seq<string>
    requires |pieces| > 0
  {
    pieces[..|pieces| - 1] + Split(pieces[|pieces| - 1] + b, '\n')
  }

  lemma SplitOnPutFirst(c: char, pieces: seq<string>, b: string)
    requires |pieces| > 0 && c != '\n' && |SplitOn(pieces, b)| > 0
    ensures PutFirst(c, SplitOn(pieces, b)) == SplitOn(PutFirst(c, pieces), b)
  {
    var last := pieces[|pieces| - 1];
    if |pieces| > 1 {
      PutFirstInTwo(c, pieces, Split(last + b, '\n'));
    } else {
      var s := [c] + last + b;
      assert s[0] == c && s[1..] == last + b;
      SplitHead(s);
      assert SplitOn(pieces, b) == Split(last + b, '\n');
      assert SplitOn(PutFirst(c, pieces), b) == Split(s, '\n');
    }
  }

  /** Splitting a text in two goes on from the unfinished last piece. */
  lemma {:induction false} SplitInTwo(a: string, b: string)
    ensures Split(a + b, '\n') == SplitOn(Split(a, '\n'), b)
  {
    if a == "" {
      assert "" + b == b && a + b == b;
    } else {
      var ra := Split(a[1..], '\n');
      assert (a + b)[1..] == a[1..] + b && (a + b)[0] == a[0];
      SplitInTwo(a[1..], b);
      SplitHead(a);
      SplitHead(a + b);
      if a[0] == '\n' {
        assert SplitOn([""] + ra, b) == [""] + SplitOn(ra, b);
      } else {
        SplitOnPutFirst(a[0], ra, b);
      }
    }
  }

  lemma {:induction false} ChatPayloadsConcat(a: seq<string>, b: seq<string>)
    ensures ChatPayloads(a + b) == ChatPayloads(a) + ChatPayloads(b)
  {
    if b == [] {
      assert a + b == a;
    } else {
      assert (a + b)[..|a + b| - 1] == a + b[..|b| - 1];
      ChatPayloadsConcat(a, b[..|b| - 1]);
    }
  }

  /** The chat store, too, passes over lines that are not data. */
  lemma OtherChatLinesPassed(a: seq<string>, line: string, b: seq<string>)
    requires !("data: " <= line)
    ensures ChatPayloads(a + [line] + b) == ChatPayloads(a + b)
  {
    ChatPayloadsConcat(a + [line], b);
    ChatPayloadsConcat(a, [line]);
    ChatPayloadsConcat(a, b);
    assert [line][..0] == [];
  }

  /** One more chunk: the new complete lines come after the old ones. */
  lemma LinesInTwo(a: string, b: string)
    ensures
      var more := Lines(Lines(a).1 + b);
      && Lines(a + b).1 == more.1
      && ChatPayloads(Lines(a + b).0) == ChatPayloads(Lines(a).0) + ChatPayloads(more.0)
  {
    SplitInTwo(a, b);
    var done, more := Lines(a).0, Split(Lines(a).1 + b, '\n');
    assert Split(a + b, '\n') == done + more;
    assert (done + more)[..|done + more| - 1] == done + more[..|more| - 1];
    ChatPayloadsConcat(done, more[..|more| - 1]);
  }

  /** The inner loop over complete lines. */
  method ChatLines(lines: seq<string>, before: seq<string>) returns (payloads: seq<string>)
    ensures payloads == before + ChatPayloads(lines)
  {
    payloads := before;
    for i := 0 to |lines|
      invariant payloads == before + ChatPayloads(lines[..i])
    {
      assert lines[..i + 1][..i] == lines[..i];
      if "data: " <= lines[i] {
        payloads := payloads + [lines[i][6..]];
      }
    }
    assert lines[..|lines|] == lines;
  }

  /** The payloads so far and the unfinished line. */
  datatype Chat = Chat(payloads: seq<string>, buffer: string)

  function FeedChat(s: Chat, chunk: string): Chat {
    var (lines, rest) := Lines(s.buffer + chunk);
    Chat(s.payloads + ChatPayloads(lines), rest)
  }

  /** The chat store's reader, chunk by chunk. */
  function ChatStream(chunks: seq<string>): Chat {
    if chunks == [] then Chat([], "") else FeedChat(ChatStream(chunks[..|chunks| - 1]), chunks[|chunks| - 1])
  }

  /** However a text is cut, the chat store sees the payloads of its complete lines. */
  lemma {:induction false} ChatCutsDoNotMatter(chunks: seq<string>)
    ensures ChatStream(chunks) == Chat(ChatPayloads(Lines(Concat(chunks)).0), Lines(Concat(chunks)).1)
  {
    if chunks != [] {
      var front := chunks[..|chunks| - 1];
      ChatCutsDoNotMatter(front);
      LinesInTwo(Concat(front), chunks[|chunks| - 1]);
    }
  }

  /** The chat store's reader loop; JSON.parse is applied to each payload as it comes. */
  method StreamChat(chunks: seq<string>) returns (payloads: seq<string>)
    ensures payloads == ChatStream(chunks).payloads
  {
    var buffer := "";
    payloads := [];
    for k := 0 to |chunks|
      invariant ChatStream(chunks[..k]) == Chat(payloads, buffer)
    {
      assert chunks[..k + 1][..k] == chunks[..k];
      buffer := buffer + chunks[k];
      var lines := Split(buffer, '\n');
      buffer := lines[|lines| - 1];
      payloads := ChatLines(lines[..|lines| - 1], payloads);
    }
    assert chunks[..|chunks|] == chunks;
  }

  lemma LinesOfFrame(p: string, rest: string)
    requires IsJsonLine(p)
    ensures Lines(Frame(p) + rest) == (["data: " + p, ""] + Lines(rest).0, Lines(rest).1)
  {
    var line, text := "data: " + p, Frame(p) + rest;
    var t := "\n" + rest;
    assert text == line + ['\n'] + t;
    SplitPiece(line, t, '\n');
    assert t == "" + ['\n'] + rest;
    SplitPiece("", rest, '\n');
    var pieces := Split(rest, '\n');
    assert Split(text, '\n') == [line, ""] + pieces;
    assert ([line, ""] + pieces)[..|pieces| + 1] == [line, ""] + pieces[..|pieces| - 1];
  }

  lemma FramePayload(p: string)
    ensures ChatPayloads(["data: " + p, ""]) == [p]
  {
    var line := "data: " + p;
    assert [line, ""][..1] == [line] && [line][..0] == [];
    assert line[..6] == "data: " && line[6..] == p;
    assert ChatPayloads([line]) == [] + [p];
  }

  lemma {:induction false} LinesOfFramed(ps: seq<string>)
    requires forall i :: 0 <= i < |ps| ==> IsJsonLine(ps[i])
    ensures ChatPayloads(Lines(FrameAll(ps)).0) == ps && Lines(FrameAll(ps)).1 == ""
  {
    if ps != [] {
      LinesOfFramed(ps[1..]);
      assert IsJsonLine(ps[0]);
      var rest := FrameAll(ps[1..]);
      LinesOfFrame(ps[0], rest);
      ChatPayloadsConcat(["data: " + ps[0], ""], Lines(rest).0);
      FramePayload(ps[0]);
      assert ps == [ps[0]] + ps[1..];
    }
  }

  /** However framed payloads are cut, the chat store sees every one, in order. */
  lemma ChatReadsFramed(ps: seq<string>, chunks: seq<string>)
    requires Concat(chunks) == FrameAll(ps) && forall i :: 0 <= i < |ps| ==> IsJsonLine(ps[i])
    ensures ChatStream(chunks) == Chat(ps, "")
  {
    ChatCutsDoNotMatter(chunks);
    LinesOfFramed(ps);
  }

  /** From the same framed text, however it is cut for either, both decoders see the same
      payloads: the chat store all of them, the frame decoder those up to the first that
      settles. */
  lemma DecodersAgree(parse: Parser, ps: seq<string>, evs: seq<Ev>, chunks1: seq<string>, chunks2: seq<string>)
    requires TextsOf(parse, ps, evs) && Concat(chunks1) == FrameAll(ps) && Concat(chunks2) == FrameAll(ps)
    ensures
      var payloads, delivered := ChatStream(chunks2).payloads, Stream(parse, chunks1).delivered;
      && payloads == ps
      && delivered == evs[..SettledAt(evs)]
      && forall i :: 0 <= i < |delivered| ==> parse(payloads[i]) == Some(delivered[i])
  {
    StreamSettles(parse, ps, evs, chunks1);
    forall i | 0 <= i < |ps|
      ensures IsJsonLine(ps[i])
    {
      assert parse(ps[i]) == Some(evs[i]);
    }
    ChatReadsFramed(ps, chunks2);
  }

  /* ---------- the standard's reading ---------- */

  /** The field value of a `data` line: one leading space is dropped. */
  function FieldValue(line: string): string
    requires "data:" <= line
  {
    var v := line[5..];
    if v != "" && v[0] == ' ' then v[1..] else v
  }

  /** Interpreting an event stream of LF-ended lines (WHATWG HTML, section 9.2.6): the data of
      the dispatched events; `buffer` is the data buffer.  Other fields carry no data. */
  function Interpret(lines: seq<string>, buffer: string): seq<string> {
    if lines == [] then []
    else if lines[0] == "" then
      if buffer == "" then Interpret(lines[1..], "")
      else [if buffer[|buffer| - 1] == '\n' then buffer[..|buffer| - 1] else buffer] + Interpret(lines[1..], "")
    else if "data:" <= lines[0] then Interpret(lines[1..], buffer + FieldValue(lines[0]) + "\n")
    else Interpret(lines[1..], buffer)
  }

  /** A client that follows the standard reads the same payloads from the framed text. */
  lemma {:induction false} StandardReadsFramed(ps: seq<string>)
    requires forall i :: 0 <= i < |ps| ==> IsJsonLine(ps[i])
    ensures Interpret(Lines(FrameAll(ps)).0, "") == ps
  {
    if ps != [] {
      StandardReadsFramed(ps[1..]);
      assert IsJsonLine(ps[0]);
      var rest := Lines(FrameAll(ps[1..])).0;
      LinesOfFrame(ps[0], FrameAll(ps[1..]));
      InterpretFrame(ps[0], rest);
    }
  }

  lemma InterpretFrame(p: string, rest: seq<string>)
    ensures Interpret(["data: " + p, ""] + rest, "") == [p] + Interpret(rest, "")
  {
    var line := "data: " + p;
    var lines, after := ["data: " + p, ""] + rest, [""] + rest;
    assert lines[0] == line && lines[1..] == after;
    assert after[0] == "" && after[1..] == rest;
    assert line[..5] == "data:" && line[5] == ' ' && line[5..][1..] == p;
    assert FieldValue(line) == p;
    assert "" + p + "\n" == p + "\n" && (p + "\n")[..|p|] == p;
    assert Interpret(lines, "") == Interpret(after, p + "\n");
  }
}
