/** Shell quoting for commands sent over SSH (pkg/kubevirt/ssh.go), against a reference
    word splitter for the POSIX shell language (POSIX.1-2017 XCU sections 2.2.1, 2.2.2, 2.3). */
module Shell {
  import opened Text

  /* ---------- the source's quoting ---------- */

  /** strings.ReplaceAll(s, "'", "'\\''") */
  function EscapeQuotes(s: string): string {
    if s == "" then ""
    else (if s[0] == '\'' then "'\\''" else [s[0]]) + EscapeQuotes(s[1..])
  }

  function ShellQuote(s: string): string {
    "'" + EscapeQuotes(s) + "'"
  }

  function QuoteAll(args: seq<string>): (parts: seq<string>)
    ensures |parts| == |args|
    ensures forall i :: 0 <= i < |args| ==> parts[i] == ShellQuote(args[i])
  {
    seq(|args|, i requires 0 <= i < |args| => ShellQuote(args[i]))
  }

  /** The command that uploads a file: `sh -c 'cat > "$1"' _ <path>`. */
  function UploadCommand(remotePath: string): string {
    "sh -c 'cat > \"$1\"' _ " + ShellQuote(remotePath)
  }

  /** The command that downloads a file. */
  function DownloadCommand(remotePath: string): string {
    "cat " + ShellQuote(remotePath)
  }

  /* ---------- the shell's reading of a command line ---------- */

  datatype Mode = Blank | Word | Single | Double

  /** Characters that an unquoted word may hold and that no rule of the shell treats
      specially (no operator, expansion, pattern, comment, assignment or tilde character). */
  predicate Plain(c: char) {
    'a' <= c <= 'z' || 'A' <= c <= 'Z' || IsDigit(c) || c == '-' || c == '_' || c == '/' || c == '.'
  }

  /** Characters a backslash escapes between double quotes. */
  predicate Escapable(c: char) {
    c == '$' || c == '`' || c == '"' || c == '\\'
  }

  /** Reads `s` and returns the fields of one simple command; None when the text holds an
      operator, an expansion or an unfinished quotation.  `cur` is the word being read. */
  function Lex(s: string, mode: Mode, cur: string, done: seq<string>): Option<seq<string>> {
    if s == "" then
      match mode
      case Blank => Some(done)
      case Word => Some(done + [cur])
      case _ => None
    else
      var c, rest := s[0], s[1..];
      match mode
      case Single =>
        if c == '\'' then Lex(rest, Word, cur, done) else Lex(rest, Single, cur + [c], done)
      case Double =>
        if c == '"' then Lex(rest, Word, cur, done)
        else if c == '$' || c == '`' then None
        else if c == '\\' && rest != "" && Escapable(rest[0]) then
          Lex(rest[1..], Double, cur + [rest[0]], done)
        else if c == '\\' && rest != "" && rest[0] == '\n' then Lex(rest[1..], Double, cur, done)
        else Lex(rest, Double, cur + [c], done)
      case _ =>
        var word := if mode == Blank then "" else cur;
        if c == ' ' || c == '\t' then
          Lex(rest, Blank, "", if mode == Blank then done else done + [cur])
        else if c == '\'' then Lex(rest, Single, word, done)
        else if c == '"' then Lex(rest, Double, word, done)
        else if c == '\\' then
          if rest == "" then None
          else if rest[0] == '\n' then Lex(rest[1..], mode, cur, done)
          else Lex(rest[1..], Word, word + [rest[0]], done)
        else if Plain(c) then Lex(rest, Word, word + [c], done)
        else None
  }

  /** The fields of a command line. */
  function Fields(s: string): Option<seq<string>> {
    Lex(s, Blank, "", [])
  }

  /* ---------- quoting survives splitting ---------- */

  lemma {:induction false} EscapedInside(a: string, rest: string, cur: string, done: seq<string>)
    ensures Lex(EscapeQuotes(a) + "'" + rest, Single, cur, done) == Lex(rest, Word, cur + a, done)
    decreases |a|
  {
    var s := EscapeQuotes(a) + "'" + rest;
    if a == "" {
      assert s[0] == '\'' && s[1..] == rest;
      assert cur + a == cur;
    } else {
      var t := EscapeQuotes(a[1..]) + "'" + rest;
      assert cur + [a[0]] + a[1..] == cur + a;
      EscapedInside(a[1..], rest, cur + [a[0]], done);
      if a[0] == '\'' {
        assert s == "'\\''" + t;
        assert s[1..] == "\\''" + t;
        var s1 := s[1..];
        assert s1[1..] == "''" + t;
        assert s1[1..][1..] == "'" + t;
        var s2 := s1[1..][1..];
        assert s2[1..] == t;
        assert Lex(s, Single, cur, done) == Lex(s1, Word, cur, done);
        assert Lex(s1, Word, cur, done) == Lex(s2, Word, cur + ['\''], done);
      } else {
        assert s[0] == a[0] && s[1..] == t;
      }
    }
  }

  /** One quoted argument is read back as one more (possibly empty) word. */
  lemma QuotedWord(a: string, rest: string, done: seq<string>)
    ensures Lex(ShellQuote(a) + rest, Blank, "", done) == Lex(rest, Word, a, done)
  {
    var s := ShellQuote(a) + rest;
    assert s[0] == '\'' && s[1..] == EscapeQuotes(a) + "'" + rest;
    EscapedInside(a, rest, "", done);
    assert "" + a == a;
  }

  lemma {:induction false} LexJoined(args: seq<string>, done: seq<string>)
    ensures Lex(Join(QuoteAll(args), " "), Blank, "", done) == Some(done + args)
    decreases |args|
  {
    var parts := QuoteAll(args);
    if |args| == 0 {
      assert done + args == done;
    } else if |args| == 1 {
      assert parts[0] + "" == parts[0];
      QuotedWord(args[0], "", done);
      assert done + args == done + [args[0]];
    } else {
      assert parts[1..] == QuoteAll(args[1..]);
      var tail := Join(QuoteAll(args[1..]), " ");
      assert Join(parts, " ") == parts[0] + (" " + tail);
      QuotedWord(args[0], " " + tail, done);
      assert (" " + tail)[1..] == tail;
      LexJoined(args[1..], done + [args[0]]);
      assert done + [args[0]] + args[1..] == done + args;
    }
  }

  /** Every list of arguments comes back from the shell exactly as it was given. */
  lemma JoinShellRoundTrip(args: seq<string>)
    ensures Fields(Join(QuoteAll(args), " ")) == Some(args)
  {
    LexJoined(args, []);
    assert [] + args == args;
  }

  /** joinShell: quotes each argument into a fresh slice, then joins with blanks. */
  method JoinShell(args: seq<string>) returns (command: string)
    ensures command == Join(QuoteAll(args), " ")
    ensures Fields(command) == Some(args)
  {
    var parts := new string[|args|](_ => "");
    for i := 0 to |args|
      invariant forall k :: 0 <= k < i ==> parts[k] == ShellQuote(args[k])
    {
      parts[i] := ShellQuote(args[i]);
    }
    assert parts[..] == QuoteAll(args);
    JoinShellRoundTrip(args);
    command := Join(parts[..], " ");
  }

  predicate AllPlain(w: string) {
    forall i :: 0 <= i < |w| ==> Plain(w[i])
  }

  lemma {:induction false} PlainRun(w: string, rest: string, cur: string, done: seq<string>)
    requires AllPlain(w)
    ensures Lex(w + rest, Word, cur, done) == Lex(rest, Word, cur + w, done)
    decreases |w|
  {
    if w == "" {
      assert w + rest == rest && cur + w == cur;
    } else {
      var s := w + rest;
      assert s[0] == w[0] && s[1..] == w[1..] + rest;
      assert Plain(w[0]);
      assert Lex(s, Word, cur, done) == Lex(w[1..] + rest, Word, cur + [w[0]], done);
      PlainRun(w[1..], rest, cur + [w[0]], done);
      assert cur + [w[0]] + w[1..] == cur + w;
    }
  }

  /** A plain word followed by a blank is one field. */
  lemma PlainWord(w: string, rest: string, done: seq<string>)
    requires w != "" && AllPlain(w)
    ensures Lex(w + " " + rest, Blank, "", done) == Lex(rest, Blank, "", done + [w])
  {
    var s := w + " " + rest;
    var t := " " + rest;
    assert s[0] == w[0] && s[1..] == w[1..] + t;
    assert Plain(w[0]);
    assert "" + [w[0]] == [w[0]];
    assert Lex(s, Blank, "", done) == Lex(w[1..] + t, Word, [w[0]], done);
    PlainRun(w[1..], t, [w[0]], done);
    assert [w[0]] + w[1..] == w;
    assert t[0] == ' ' && t[1..] == rest;
  }

  /** A final quoted word ends the command. */
  lemma LastQuoted(a: string, done: seq<string>)
    ensures Lex(ShellQuote(a), Blank, "", done) == Some(done + [a])
  {
    assert ShellQuote(a) + "" == ShellQuote(a);
    QuotedWord(a, "", done);
  }

  lemma FiveFields(w1: string, w2: string, script: string, w3: string, a: string)
    requires w1 != "" && AllPlain(w1) && w2 != "" && AllPlain(w2) && w3 != "" && AllPlain(w3)
    ensures Fields(w1 + " " + (w2 + " " + (ShellQuote(script) + (" " + (w3 + " " + ShellQuote(a))))))
         == Some([w1, w2, script, w3, a])
  {
    var r3 := w3 + " " + ShellQuote(a);
    var r2 := ShellQuote(script) + (" " + r3);
    var r1 := w2 + " " + r2;
    PlainWord(w1, r1, []);
    assert [] + [w1] == [w1];
    PlainWord(w2, r2, [w1]);
    assert [w1] + [w2] == [w1, w2];
    QuotedWord(script, " " + r3, [w1, w2]);
    assert (" " + r3)[1..] == r3;
    assert [w1, w2] + [script] == [w1, w2, script];
    PlainWord(w3, ShellQuote(a), [w1, w2, script]);
    assert [w1, w2, script] + [w3] == [w1, w2, script, w3];
    LastQuoted(a, [w1, w2, script, w3]);
    assert [w1, w2, script, w3] + [a] == [w1, w2, script, w3, a];
  }

  lemma {:induction false} NoQuotesEscape(s: string)
    requires '\'' !in s
    ensures EscapeQuotes(s) == s
  {
    if s != "" {
      NoQuotesEscape(s[1..]);
    }
  }

  const SCRIPT := "cat > \"$1\""

  lemma Reassociate(a: string, b: string, c: string, d: string, q: string)
    ensures a + b + c + d + q == a + (b + (c + (d + q)))
  {
  }

  lemma UploadLiteral(script: string)
    requires script == "cat > \"$1\""
    ensures "sh -c 'cat > \"$1\"' _ " == "sh " + "-c " + ("'" + script + "'") + " _ "
  {
  }

  lemma UploadCommandShape(script: string, remotePath: string)
    requires script == "cat > \"$1\""
    ensures UploadCommand(remotePath)
         == "sh" + " " + ("-c" + " " + (ShellQuote(script) + (" " + ("_" + " " + ShellQuote(remotePath)))))
  {
    assert '\'' !in script;
    NoQuotesEscape(script);
    hide EscapeQuotes;
    var q := ShellQuote(remotePath);
    UploadLiteral(script);
    Reassociate("sh ", "-c ", "'" + script + "'", " _ ", q);
    assert " _ " + q == " " + ("_" + " " + q);
    assert "sh" + " " == "sh " && "-c" + " " == "-c ";
  }

  /** Whatever the path, the upload command is the five words sh, -c, the script, _ and
      the path itself: nothing in the path is interpreted by the remote shell. */
  lemma UploadCommandFields(remotePath: string)
    ensures Fields(UploadCommand(remotePath)) == Some(["sh", "-c", SCRIPT, "_", remotePath])
  {
    hide Lex, EscapeQuotes, ShellQuote, UploadCommand;
    UploadCommandShape(SCRIPT, remotePath);
    FiveFields("sh", "-c", SCRIPT, "_", remotePath);
  }

  lemma DownloadCommandFields(remotePath: string)
    ensures Fields(DownloadCommand(remotePath)) == Some(["cat", remotePath])
  {
    assert "cat" + " " == "cat ";
    assert DownloadCommand(remotePath) == "cat" + " " + ShellQuote(remotePath);
    assert AllPlain("cat");
    PlainWord("cat", ShellQuote(remotePath), []);
    assert [] + ["cat"] == ["cat"];
    LastQuoted(remotePath, ["cat"]);
    assert ["cat"] + [remotePath] == ["cat", remotePath];
  }
}
