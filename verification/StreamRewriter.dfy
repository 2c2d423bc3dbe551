/**
 The line-aware reader that renames `event: response.done` to `event: response.completed`
 in a server-sent-event stream. Text is modelled as strings whose characters stand for bytes.
 The theorems relate any sequence of Read calls, over any chunking of the source, to a
 line-by-line specification.
 */
module StreamRewriter {
  import opened Common

  const PREFIX: string := "event:"
  const OLD_NAME: string := "response.done"
  const NEW_LINE: string := "event: response.completed"

  // ----- One line ------------------------------------------------------------------------

  /** The UTF-8 encodings of the characters that count as white space. */
  const SPACES: seq<string> := [
    "\t", "\n", "\U{000B}", "\U{000C}", "\r", " ",
    "\U{00C2}\U{0085}", "\U{00C2}\U{00A0}", "\U{00E1}\U{009A}\U{0080}",
    "\U{00E2}\U{0080}\U{0080}", "\U{00E2}\U{0080}\U{0081}", "\U{00E2}\U{0080}\U{0082}",
    "\U{00E2}\U{0080}\U{0083}", "\U{00E2}\U{0080}\U{0084}", "\U{00E2}\U{0080}\U{0085}",
    "\U{00E2}\U{0080}\U{0086}", "\U{00E2}\U{0080}\U{0087}", "\U{00E2}\U{0080}\U{0088}",
    "\U{00E2}\U{0080}\U{0089}", "\U{00E2}\U{0080}\U{008A}",
    "\U{00E2}\U{0080}\U{00A8}", "\U{00E2}\U{0080}\U{00A9}", "\U{00E2}\U{0080}\U{00AF}",
    "\U{00E2}\U{0081}\U{009F}", "\U{00E3}\U{0080}\U{0080}"]

  /** The length of the white-space character at the start of `s`, or 0. */
  function LeadingSpace(s: string): (n: nat)
    ensures n <= |s|
  {
    if |s| >= 1 && s[..1] in SPACES then 1
    else if |s| >= 2 && s[..2] in SPACES then 2
    else if |s| >= 3 && s[..3] in SPACES then 3
    else 0
  }

  function TrailingSpace(s: string): (n: nat)
    ensures n <= |s|
  {
    if |s| >= 1 && s[|s| - 1..] in SPACES then 1
    else if |s| >= 2 && s[|s| - 2..] in SPACES then 2
    else if |s| >= 3 && s[|s| - 3..] in SPACES then 3
    else 0
  }

  function TrimLeft(s: string): string
    decreases |s|
  {
    if LeadingSpace(s) == 0 then s else TrimLeft(s[LeadingSpace(s)..])
  }

  function TrimRight(s: string): string
    decreases |s|
  {
    if TrailingSpace(s) == 0 then s else TrimRight(s[..|s| - TrailingSpace(s)])
  }

  /** White space removed at both ends. */
  function TrimSpace(s: string): string {
    TrimRight(TrimLeft(s))
  }

  lemma {:induction false} TrimLeftIsSuffix(s: string) returns (i: nat)
    ensures i <= |s| && TrimLeft(s) == s[i..]
    decreases |s|
  {
    hide LeadingSpace;
    i := 0;
    if LeadingSpace(s) > 0 {
      var rest := TrimLeftIsSuffix(s[LeadingSpace(s)..]);
      i := LeadingSpace(s) + rest;
    }
  }

  lemma {:induction false} TrimRightIsPrefix(s: string)
    ensures TrimRight(s) <= s
    decreases |s|
  {
    hide TrailingSpace;
    if TrailingSpace(s) > 0 {
      TrimRightIsPrefix(s[..|s| - TrailingSpace(s)]);
    }
  }

  lemma TrimmedIsStretch(s: string) returns (i: nat)
    ensures i + |TrimSpace(s)| <= |s| && TrimSpace(s) == s[i..i + |TrimSpace(s)|]
  {
    hide TrimLeft, TrimRight;
    i := TrimLeftIsSuffix(s);
    TrimRightIsPrefix(TrimLeft(s));
  }

  /** The line terminator that a line carries: `\r\n`, `\n` or none. */
  function Terminator(line: string): (t: string)
    ensures |t| <= |line|
  {
    var n := |line|;
    if n > 0 && line[n - 1] == '\n' then
      if n >= 2 && line[n - 2] == '\r' then "\r\n" else "\n"
    else ""
  }

  function Body(line: string): string {
    line[..|line| - |Terminator(line)|]
  }

  lemma LineHasParts(line: string)
    ensures line == Body(line) + Terminator(line)
  {
    var t, k := Terminator(line), |Body(line)|;
    assert |t| > 0 ==> line[k] == t[0];
    assert |t| > 1 ==> line[k + 1] == t[1];
  }

  predicate IsDoneEvent(line: string) {
    PREFIX <= Body(line) && TrimSpace(Body(line)[|PREFIX|..]) == OLD_NAME
  }

  function RewriteLine(line: string): string {
    if IsDoneEvent(line) then NEW_LINE + Terminator(line) else line
  }

  predicate OneLine(line: string) {
    line != "" && line[|line| - 1] == '\n' && '\n' !in line[..|line| - 1]
  }

  /** A rewritten line is a line again, terminated as before. */
  lemma RewriteKeepsLine(line: string)
    ensures Terminator(RewriteLine(line)) == Terminator(line)
    ensures OneLine(line) ==> OneLine(RewriteLine(line))
    ensures '\n' !in line ==> '\n' !in RewriteLine(line)
    ensures line != "" ==> RewriteLine(line) != ""
  {
    NewLineEndsInD();
    TerminatorKinds(line);
    hide IsDoneEvent, Terminator, Body, OneLine;
    Terminated(NEW_LINE, Terminator(line));
  }

  lemma TerminatorKinds(line: string)
    ensures Terminator(line) == "" || Terminator(line) == "\n" || Terminator(line) == "\r\n"
    ensures OneLine(line) ==> Terminator(line) != ""
    ensures '\n' !in line ==> Terminator(line) == ""
  {}

  lemma NewLineEndsInD()
    ensures '\n' !in NEW_LINE && |NEW_LINE| == 25 && NEW_LINE[24] == 'd'
  {
    assert NEW_LINE[24] == 'd';
  }

  /** A terminator is recognised behind any text that does not end in a carriage return. */
  lemma Terminated(text: string, t: string)
    requires text != "" && text[|text| - 1] !in "\r\n" && '\n' !in text
    requires t == "" || t == "\n" || t == "\r\n"
    ensures Terminator(text + t) == t && Body(text + t) == text
    ensures if t == "" then '\n' !in text + t else OneLine(text + t)
  {
    var line := text + t;
    if t == "" {
      assert line == text;
    } else if t == "\n" {
      assert line[..|line| - 1] == text;
    } else {
      assert line[..|line| - 1] == text + "\r";
    }
  }

  /** The new event name is not the old one, so rewriting twice changes nothing more. */
  lemma RewriteLineIdempotent(line: string)
    ensures RewriteLine(RewriteLine(line)) == RewriteLine(line)
  {
    hide TrimSpace;
    if IsDoneEvent(line) {
      NewLineEndsInD();
      Terminated(NEW_LINE, Terminator(line));
      NewNameIsNotOld();
    }
  }

  lemma NewNameIsNotOld()
    ensures TrimSpace(NEW_LINE[|PREFIX|..]) != OLD_NAME
  {
    hide TrimSpace;
    var value := NEW_LINE[|PREFIX|..];
    var i := TrimmedIsStretch(value);
    if |TrimSpace(value)| == |OLD_NAME| {
      OldNameIsNoStretch(i);
    }
  }

  lemma OldNameIsNoStretch(k: nat)
    requires k + |OLD_NAME| <= |NEW_LINE[|PREFIX|..]|
    ensures NEW_LINE[|PREFIX|..][k..k + |OLD_NAME|] != OLD_NAME
  {
    var value := NEW_LINE[|PREFIX|..];
    assert value == " response.completed";
    var stretch := value[k..k + 13];
    assert stretch[0] == value[k] && stretch[9] == value[k + 9];
    assert value[k] == 'r' ==> k == 1;
  }

  // ----- Which lines change, and into what ------------------------------------------------

  predicate AllSpaces(cs: seq<string>) {
    forall c <- cs :: c in SPACES
  }

  /** `t` is the whole terminator of `text + t`, not the end of one that begins in `text`. */
  predicate TerminatedBy(text: string, t: string) {
    || (t == "" && (text == "" || text[|text| - 1] != '\n'))
    || (t == "\n" && (text == "" || text[|text| - 1] != '\r'))
    || t == "\r\n"
  }

  /** White-space characters differ in their first and in their last byte from those of other lengths. */
  lemma SpaceBytes(w: string)
    requires w in SPACES
    ensures 1 <= |w| <= 3
    ensures |w| == 1 ==> w[0] <= ' '
    ensures |w| == 2 ==> w[0] == '\U{00C2}' && w[1] > ' '
    ensures |w| == 3 ==> w[0] > '\U{00C2}' && w[1] > ' ' && w[1] != '\U{00C2}' && w[2] > ' '
  {
    var k :| 0 <= k < |SPACES| && w == SPACES[k];
  }

  lemma LeadingSpaceIs(w: string, rest: string)
    requires w in SPACES
    ensures LeadingSpace(w + rest) == |w| && (w + rest)[|w|..] == rest
  {
    hide SPACES;
    var s := w + rest;
    SpaceBytes(w);
    assert s[..|w|] == w;
    if |w| > 1 && s[..1] in SPACES {
      SpaceBytes(s[..1]);
    }
    if |w| > 2 && s[..2] in SPACES {
      SpaceBytes(s[..2]);
    }
  }

  lemma TrailingSpaceIs(front: string, w: string)
    requires w in SPACES
    ensures TrailingSpace(front + w) == |w| && (front + w)[..|front|] == front
  {
    hide SPACES;
    var s := front + w;
    SpaceBytes(w);
    assert s[|s| - |w|..] == w;
    if |w| > 1 && s[|s| - 1..] in SPACES {
      SpaceBytes(s[|s| - 1..]);
    }
    if |w| > 2 && s[|s| - 2..] in SPACES {
      SpaceBytes(s[|s| - 2..]);
    }
  }

  /** Text that begins and ends with letters keeps them when trimmed. */
  lemma LettersStay(front: string, back: string)
    requires front != "" && ' ' < front[0] < '\U{0080}'
    requires back != "" && ' ' < back[|back| - 1] < '\U{0080}'
    ensures LeadingSpace(front) == 0 && TrailingSpace(back) == 0
  {
    hide SPACES;
    var n, m := LeadingSpace(front), TrailingSpace(back);
    if n > 0 {
      SpaceBytes(front[..n]);
    }
    if m > 0 {
      SpaceEnd(back[|back| - m..]);
    }
  }

  lemma SpaceEnd(w: string)
    requires w in SPACES
    ensures w != "" && (w[|w| - 1] <= ' ' || w[|w| - 1] >= '\U{0080}')
  {
    var k :| 0 <= k < |SPACES| && w == SPACES[k];
  }

  lemma {:induction false} TrimLeftOf(cs: seq<string>, rest: string)
    requires AllSpaces(cs) && LeadingSpace(rest) == 0
    ensures TrimLeft(Flatten(cs) + rest) == rest
  {
    hide SPACES, LeadingSpace;
    if cs == [] {
      assert Flatten(cs) + rest == rest;
    } else {
      LeadingSpaceIs(cs[0], Flatten(cs[1..]) + rest);
      SpaceBytes(cs[0]);
      ConcatAssociates(cs[0], Flatten(cs[1..]), rest);
      TrimLeftOf(cs[1..], rest);
    }
  }

  lemma {:induction false} TrimRightOf(front: string, cs: seq<string>)
    requires AllSpaces(cs) && TrailingSpace(front) == 0
    ensures TrimRight(front + Flatten(cs)) == front
    decreases |cs|
  {
    hide SPACES, TrailingSpace;
    if cs == [] {
      assert front + Flatten(cs) == front;
    } else {
      var most, last := cs[..|cs| - 1], cs[|cs| - 1];
      FlattenSnoc(most, last);
      assert most + [last] == cs;
      SpaceBytes(last);
      ConcatAssociates(front, Flatten(most), last);
      TrailingSpaceIs(front + Flatten(most), last);
      TrimRightOf(front, most);
    }
  }

  /** An SSE line that names the event `response.done`, with any white space around the name. */
  predicate IsDoneLine(line: string, before: seq<string>, after: seq<string>, t: string) {
    && AllSpaces(before) && AllSpaces(after) && TerminatedBy(Flatten(after), t)
    && line == "event:" + (Flatten(before) + ("response.done" + Flatten(after))) + t
  }

  /** Such a line becomes the line of the event `response.completed`, terminated alike. */
  lemma DoneLineIsRenamed(line: string, before: seq<string>, after: seq<string>, t: string)
    requires IsDoneLine(line, before, after, t)
    ensures RewriteLine(line) == "event: response.completed" + t
  {
    hide SPACES, TrimLeft, TrimRight, LeadingSpace, TrailingSpace, Terminator;
    var name := "response.done" + Flatten(after);
    var value := Flatten(before) + name;
    var body := "event:" + value;
    LettersStay(name, "response.done");
    TrimLeftOf(before, name);
    TrimRightOf("response.done", after);
    EndsLike(body, name, Flatten(after));
    TerminatorBehind(body, t);
    assert (body + t)[..|body|] == body;
    assert body[6..] == value && |PREFIX| == 6 && PREFIX <= body;
  }

  lemma EndsLike(body: string, name: string, tail: string)
    requires |body| >= |name| && body[|body| - |name|..] == name && name == "response.done" + tail
    ensures body != "" && body[|body| - 1] == if tail == "" then 'e' else tail[|tail| - 1]
  {
    assert body[|body| - 1] == name[|name| - 1];
  }

  lemma TerminatorBehind(text: string, t: string)
    requires text != "" && TerminatedBy(text, t)
    ensures Terminator(text + t) == t
  {
    var line := text + t;
    if t == "" {
      assert line == text;
    } else if t == "\n" {
      assert line[|line| - 1] == '\n' && line[|line| - 2] == text[|text| - 1];
    } else {
      assert line[|line| - 1] == '\n' && line[|line| - 2] == '\r';
    }
  }

  /** No other line changes: a changed line has the shape of the lemma above. */
  lemma OnlyDoneLinesChange(line: string)
    ensures RewriteLine(line) != line ==>
              exists before: seq<string>, after: seq<string>, t: string :: IsDoneLine(line, before, after, t)
  {
    hide SPACES, TrimLeft, TrimRight, LeadingSpace, TrailingSpace;
    if IsDoneEvent(line) {
      var t := Terminator(line);
      var value := Body(line)[|PREFIX|..];
      var before := SpacesCutLeft(value);
      var after := SpacesCutRight(TrimLeft(value));
      LineHasParts(line);
      assert Body(line) == "event:" + value;
      TerminatorsOwnText(line, Flatten(after));
      assert IsDoneLine(line, before, after, t);
    }
  }

  lemma {:induction false} SpacesCutLeft(s: string) returns (cs: seq<string>)
    ensures AllSpaces(cs) && s == Flatten(cs) + TrimLeft(s)
    decreases |s|
  {
    hide SPACES;
    var n := LeadingSpace(s);
    if n == 0 {
      cs := [];
      assert Flatten(cs) + s == s;
    } else {
      var rest := SpacesCutLeft(s[n..]);
      cs := [s[..n]] + rest;
      assert cs[1..] == rest && s == s[..n] + s[n..];
      ConcatAssociates(s[..n], Flatten(rest), TrimLeft(s));
    }
  }

  lemma {:induction false} SpacesCutRight(s: string) returns (cs: seq<string>)
    ensures AllSpaces(cs) && s == TrimRight(s) + Flatten(cs)
    decreases |s|
  {
    hide SPACES;
    var n := TrailingSpace(s);
    if n == 0 {
      cs := [];
      assert s + Flatten(cs) == s;
    } else {
      var k := |s| - n;
      assert s[k..] in SPACES && TrimRight(s) == TrimRight(s[..k]) && s == s[..k] + s[k..];
      hide TrimRight, TrailingSpace, Flatten;
      var rest := SpacesCutRight(s[..k]);
      cs := rest + [s[k..]];
      FlattenSnoc(rest, s[k..]);
      ConcatAssociates(TrimRight(s), Flatten(rest), s[k..]);
    }
  }

  lemma TerminatorsOwnText(line: string, tail: string)
    requires |tail| <= |Body(line)| && Body(line)[|Body(line)| - |tail|..] == tail
    ensures TerminatedBy(tail, Terminator(line))
  {
    var body := Body(line);
    assert tail != "" ==> tail[|tail| - 1] == body[|body| - 1] == line[|body| - 1];
  }
  /** Of the single bytes below 128 exactly six are white space. */
  lemma AsciiSpaces(c: char)
    requires c < '\U{0080}'
    ensures [c] in SPACES <==> c in "\t\n\U{000B}\U{000C}\r "
  {
    assert SPACES[0] == "\t" && SPACES[1] == "\n" && SPACES[2] == "\U{000B}";
    assert SPACES[3] == "\U{000C}" && SPACES[4] == "\r" && SPACES[5] == " ";
    if [c] in SPACES {
      SingleSpaces([c]);
    }
  }

  lemma SingleSpaces(w: string)
    requires w in SPACES && |w| == 1
    ensures w[0] in "\t\n\U{000B}\U{000C}\r "
  {
    var k :| 0 <= k < |SPACES| && w == SPACES[k];
    assert k < 6;
  }


  // ----- The whole stream ------------------------------------------------------------------

  /** The position of the first newline, or the length when there is none. */
  function FirstNewline(s: string): (i: nat)
    ensures i <= |s| && (i < |s| ==> s[i] == '\n')
    ensures forall k :: 0 <= k < i ==> s[k] != '\n'
  {
    if s == "" || s[0] == '\n' then 0 else 1 + FirstNewline(s[1..])
  }

  /** Every newline-terminated line rewritten, then the last partial line. */
  function RewriteStream(s: string): string
    decreases |s|
  {
    var i := FirstNewline(s);
    if i < |s| then RewriteLine(s[..i + 1]) + RewriteStream(s[i + 1..])
    else if s == "" then "" else RewriteLine(s)
  }

  lemma FirstNewlineIs(line: string, rest: string)
    requires '\n' !in line
    ensures FirstNewline(line + "\n" + rest) == |line|
    ensures FirstNewline(line) == |line|
  {
    var s := line + "\n" + rest;
    assert forall k :: 0 <= k < |line| ==> s[k] == line[k] && line[k] != '\n';
    assert s[|line|] == '\n';
  }

  function JoinLines(lines: seq<string>): string {
    if lines == [] then "" else lines[0] + "\n" + JoinLines(lines[1..])
  }

  function RewriteLines(lines: seq<string>): string {
    if lines == [] then "" else RewriteLine(lines[0] + "\n") + RewriteLines(lines[1..])
  }

  /** For a stream given as newline-free lines and a partial last one, the rewriting is per line. */
  lemma {:induction false} RewriteStreamIsPerLine(lines: seq<string>, last: string)
    requires (forall line <- lines :: '\n' !in line) && '\n' !in last
    ensures RewriteStream(JoinLines(lines) + last) ==
            RewriteLines(lines) + (if last == "" then "" else RewriteLine(last))
  {
    hide RewriteLine, FirstNewline;
    if lines == [] {
      assert JoinLines(lines) + last == last;
      FirstNewlineIs(last, "");
    } else {
      var tail := JoinLines(lines[1..]) + last;
      var s := JoinLines(lines) + last;
      assert s == lines[0] + "\n" + tail;
      FirstNewlineIs(lines[0], tail);
      assert s[..|lines[0]| + 1] == lines[0] + "\n" && s[|lines[0]| + 1..] == tail;
      RewriteStreamIsPerLine(lines[1..], last);
    }
  }

  /** Every stream is such a list of lines. */
  lemma {:induction false} EveryStreamIsLines(s: string) returns (lines: seq<string>, last: string)
    ensures (forall line <- lines :: '\n' !in line) && '\n' !in last
    ensures s == JoinLines(lines) + last
    decreases |s|
  {
    var i := FirstNewline(s);
    if i < |s| {
      lines, last := EveryStreamIsLines(s[i + 1..]);
      assert s == s[..i] + "\n" + s[i + 1..];
      assert ([s[..i]] + lines)[1..] == lines;
      lines := [s[..i]] + lines;
    } else {
      lines, last := [], s;
    }
  }

  /** Rewriting a complete line in front of a stream does not touch the rest. */
  lemma RewriteStreamCons(line: string, rest: string)
    requires OneLine(line)
    ensures RewriteStream(line + rest) == RewriteLine(line) + RewriteStream(rest)
  {
    var body := line[..|line| - 1];
    assert line == body + "\n";
    assert line + rest == body + "\n" + rest;
    FirstNewlineIs(body, rest);
    assert (line + rest)[..|line|] == line && (line + rest)[|line|..] == rest;
  }

  /** Rewriting a stream twice is rewriting it once. */
  lemma {:induction false} RewriteStreamIdempotent(s: string)
    ensures RewriteStream(RewriteStream(s)) == RewriteStream(s)
    decreases |s|
  {
    hide RewriteLine;
    var i := FirstNewline(s);
    if i < |s| {
      var line := s[..i + 1];
      assert line[..|line| - 1] == s[..i];
      RewriteKeepsLine(line);
      RewriteLineIdempotent(line);
      RewriteStreamCons(RewriteLine(line), RewriteStream(s[i + 1..]));
      RewriteStreamIdempotent(s[i + 1..]);
    } else if s != "" {
      assert s[..i] == s;
      RewriteKeepsLine(s);
      RewriteLineIdempotent(s);
      FirstNewlineIs(RewriteLine(s), "");
    }
  }

  // ----- The reader ------------------------------------------------------------------------

  datatype IoError = EOF | OtherError(message: string)

  /** One answer of the underlying reader: data, possibly together with its final error. */
  datatype Chunk = Chunk(data: string, err: Option<IoError>)

  /** A source that ends: some answer carries an error. */
  predicate Ends(script: seq<Chunk>) {
    script != [] && (script[0].err.Some? || Ends(script[1..]))
  }

  /** All the data up to the error, and that error. */
  function Payload(script: seq<Chunk>): string {
    if script == [] then "" else if script[0].err.Some? then script[0].data
    else script[0].data + Payload(script[1..])
  }

  function FinalError(script: seq<Chunk>): IoError
    requires Ends(script)
  {
    if script[0].err.Some? then script[0].err.value else FinalError(script[1..])
  }

  /** The answers up to the first with an error give the data, and that error ends them. */
  lemma {:induction false} ScriptEnds(before: seq<Chunk>, last: Chunk, after: seq<Chunk>)
    requires (forall c <- before :: c.err.None?) && last.err.Some?
    ensures var script := before + ([last] + after);
            && Ends(script) && FinalError(script) == last.err.value
            && Payload(script) == Payload(before) + last.data
    decreases |before|
  {
    var script := before + ([last] + after);
    if before == [] {
      assert script == [last] + after && Payload(before) + last.data == last.data;
    } else {
      assert script[1..] == before[1..] + ([last] + after);
      assert before[0] in before && forall c <- before[1..] :: c in before;
      ScriptEnds(before[1..], last, after);
      assert script[0] == before[0] && Payload(script) == before[0].data + Payload(script[1..]);
      assert Payload(before) == before[0].data + Payload(before[1..]);
      hide Payload, Ends, FinalError;
      ConcatAssociates(before[0].data, Payload(before[1..]), last.data);
    }
  }

  datatype ReaderState = ReaderState(out: string, pending: string, srcErr: Option<IoError>, script: seq<Chunk>) {
    predicate Valid() {
      && '\n' !in pending
      && (srcErr.None? ==> Ends(script))
    }

    /** Everything still to be delivered. */
    function Owed(): string {
      out + RewriteStream(pending + if srcErr.Some? then "" else Payload(script))
    }

    /** The error the stream ends with. */
    function End(): IoError
      requires Valid()
    {
      if srcErr.Some? then srcErr.value else FinalError(script)
    }
  }

  /** The complete lines of `s`, rewritten, and what follows the last newline. */
  function SplitLines(s: string): (split: (string, string))
    ensures '\n' !in split.1
    decreases |s|
  {
    var i := FirstNewline(s);
    if i < |s| then
      var rest := SplitLines(s[i + 1..]);
      (RewriteLine(s[..i + 1]) + rest.0, rest.1)
    else
      assert s[..i] == s;
      ("", s)
  }

  /** The split lines can be delivered before the rest of the stream is known. */
  lemma {:induction false} SplitLinesOwes(s: string, more: string)
    ensures RewriteStream(s + more) == SplitLines(s).0 + RewriteStream(SplitLines(s).1 + more)
    decreases |s|
  {
    hide RewriteLine;
    var i := FirstNewline(s);
    if i < |s| {
      var line := s[..i + 1];
      assert line[..|line| - 1] == s[..i];
      assert s + more == line + (s[i + 1..] + more);
      RewriteStreamCons(line, s[i + 1..] + more);
      SplitLinesOwes(s[i + 1..], more);
    }
  }

  /** The loop of Read: fetch chunks until output is ready or the source has ended. */
  function Fill(st: ReaderState): (filled: ReaderState)
    requires st.Valid()
    decreases |st.script|
  {
    if st.out != "" then st
    else if st.srcErr.Some? then
      if st.pending == "" then st else st.(out := RewriteLine(st.pending), pending := "")
    else
      var chunk := st.script[0];
      var split := SplitLines(st.pending + chunk.data);
      Fill(ReaderState(split.0, split.1, chunk.err, st.script[1..]))
  }

  /** A partial line that gets no more data stays as it is. */
  lemma SplitPartial(pending: string)
    requires '\n' !in pending
    ensures SplitLines(pending + "") == ("", pending)
  {
    assert pending + "" == pending;
    FirstNewlineIs(pending, "");
  }

  /** Filling delivers nothing yet and loses nothing; an empty buffer means the end. */
  /** At the source's end the partial line is all that is left. */
  lemma FlushKeepsOwed(st: ReaderState)
    requires st.Valid() && st.out == "" && st.srcErr.Some?
    ensures Fill(st).Valid() && Fill(st).Owed() == st.Owed() && Fill(st).End() == st.End()
    ensures Fill(st).out == "" ==> Fill(st).srcErr.Some? && Fill(st).Owed() == ""
  {
    hide RewriteLine;
    assert st.pending + "" == st.pending;
    FirstNewlineIs(st.pending, "");
    RewriteKeepsLine(st.pending);
    assert RewriteStream("") == "";
  }

  lemma {:induction false} FillKeepsOwed(st: ReaderState)
    requires st.Valid()
    ensures var f := Fill(st);
            && f.Valid() && f.Owed() == st.Owed() && f.End() == st.End()
            && (f.out == "" ==> f.srcErr.Some? && f.Owed() == "")
    decreases |st.script|
  {
    hide RewriteLine, SplitLines, RewriteStream;
    if st.out == "" {
      if st.srcErr.Some? {
        FlushKeepsOwed(st);
      } else {
        var chunk := st.script[0];
        var split := SplitLines(st.pending + chunk.data);
        var next := ReaderState(split.0, split.1, chunk.err, st.script[1..]);
        FillKeepsOwed(next);
        var more := if chunk.err.Some? then "" else Payload(st.script[1..]);
        SplitLinesOwes(st.pending + chunk.data, more);
        assert (st.pending + chunk.data) + more == st.pending + Payload(st.script);
      }
    }
  }

  /** One Read call with a buffer of `n` bytes: new state, data and error. */
  function ReadSpec(st: ReaderState, n: nat): (ReaderState, string, Option<IoError>)
    requires st.Valid()
  {
    FillKeepsOwed(st);
    var f := Fill(st);
    if f.out == "" then (f, "", Some(f.End()))
    else
      var k := if n < |f.out| then n else |f.out|;
      (f.(out := f.out[k..]), f.out[..k], None)
  }

  /** A call returns a piece of what is owed, or the source's error once nothing is owed. */
  lemma ReadDelivers(st: ReaderState, n: nat)
    requires st.Valid()
    ensures var (after, data, err) := ReadSpec(st, n);
            && after.Valid() && after.End() == st.End()
            && st.Owed() == data + after.Owed()
            && (err.Some? <==> st.Owed() == "")
            && (err.Some? ==> err == Some(st.End()) && data == "")
            && (err.None? && n > 0 ==> data != "")
  {
    hide RewriteStream, Fill;
    FillKeepsOwed(st);
    var f := Fill(st);
    if f.out != "" {
      var k := if n < |f.out| then n else |f.out|;
      assert f.out == f.out[..k] + f.out[k..];
    }
  }

  class Source {
    var script: seq<Chunk>

    constructor (script: seq<Chunk>)
      ensures this.script == script
    {
      this.script := script;
    }

    method Read() returns (chunk: Chunk)
      requires script != []
      modifies this
      ensures chunk == old(script[0]) && script == old(script[1..])
    {
      chunk := script[0];
      script := script[1..];
    }
  }

  class CodexEventRewriter {
    const src: Source
    var out: string
    var pending: string
    var srcErr: Option<IoError>

    function State(): ReaderState
      reads this, src
    {
      ReaderState(out, pending, srcErr, src.script)
    }

    constructor (src: Source)
      requires Ends(src.script)
      ensures this.src == src && State() == ReaderState("", "", None, src.script)
    {
      this.src := src;
      out, pending, srcErr := "", "", None;
    }

    method Consume(chunk: string)
      modifies this`out, this`pending
      ensures var split := SplitLines(old(pending) + chunk);
              out == old(out) + split.0 && pending == split.1
    {
      pending := pending + chunk;
      ghost var split := SplitLines(pending);
      while true
        invariant var rest := SplitLines(pending);
                  old(out) + split.0 == out + rest.0 && split.1 == rest.1
        decreases |pending|
      {
        var idx := FirstNewline(pending);
        if idx == |pending| {
          assert out + "" == out;
          return;
        }
        var line := pending[..idx + 1];
        ConcatAssociates(out, RewriteLine(line), SplitLines(pending[idx + 1..]).0);
        out := out + RewriteLine(line);
        pending := pending[idx + 1..];
      }
    }

    method Read(n: nat) returns (data: string, err: Option<IoError>)
      requires State().Valid()
      modifies this, src
      ensures State().Valid()
      ensures (State(), data, err) == ReadSpec(old(State()), n)
    {
      hide RewriteLine, SplitLines, RewriteStream;
      FillKeepsOwed(State());
      ghost var goal := Fill(State());
      while |out| == 0
        invariant State().Valid() && Fill(State()) == goal
        decreases |src.script|
      {
        if srcErr.Some? {
          if |pending| > 0 {
            RewriteKeepsLine(pending);
            out := RewriteLine(pending);
            pending := "";
            break;
          }
          return "", srcErr;
        }
        SplitPartial(pending);
        var chunk := src.Read();
        if |chunk.data| > 0 {
          Consume(chunk.data);
        }
        if chunk.err.Some? {
          srcErr := chunk.err;
        }
      }
      var k := if n < |out| then n else |out|;
      data, err := out[..k], None;
      out := out[k..];
    }
  }

  // ----- Runs of Read calls ------------------------------------------------------------------

  /** The data and final state of a sequence of Read calls, stopping at the first error. */
  function ReadAll(st: ReaderState, sizes: seq<nat>): (string, Option<IoError>)
    requires st.Valid()
    decreases |sizes|
  {
    if sizes == [] then ("", None)
    else
      ReadDelivers(st, sizes[0]);
      var (after, data, err) := ReadSpec(st, sizes[0]);
      if err.Some? then ("", err)
      else
        var (rest, end) := ReadAll(after, sizes[1..]);
        (data + rest, end)
  }

  /** Reads return a prefix of what is owed; an error comes only after all of it. */
  lemma {:induction false} ReadAllDelivers(st: ReaderState, sizes: seq<nat>)
    requires st.Valid()
    ensures var (data, end) := ReadAll(st, sizes);
            && data <= st.Owed()
            && (end.Some? ==> data == st.Owed() && end == Some(st.End()))
            && ((forall n <- sizes :: n > 0) && |sizes| > |st.Owed()| ==> end.Some?)
    decreases |sizes|
  {
    hide ReadSpec, ReaderState.Owed;
    if sizes != [] {
      ReadDelivers(st, sizes[0]);
      var (after, data, err) := ReadSpec(st, sizes[0]);
      if err.None? {
        ReadAllDelivers(after, sizes[1..]);
        var rest := ReadAll(after, sizes[1..]).0;
        assert (data + after.Owed())[..|data| + |rest|] == data + rest;
        if (forall n <- sizes :: n > 0) && |sizes| > |st.Owed()| {
          assert sizes[0] in sizes;
          assert forall n <- sizes[1..] :: n in sizes;
          assert data != "" && |sizes[1..]| > |after.Owed()|;
        }
      }
    }
  }

  /**
   For every chunking of a source and every sequence of reads, the bytes returned are a prefix
   of the rewritten stream, the source's own error follows only after all of it, and enough
   reads with non-empty buffers get there.
   */
  lemma ReaderMeetsSpecification(script: seq<Chunk>, sizes: seq<nat>)
    requires Ends(script)
    ensures ReaderState("", "", None, script).Valid()
    ensures var (data, end) := ReadAll(ReaderState("", "", None, script), sizes);
            var whole := RewriteStream(Payload(script));
            && data <= whole
            && (end.Some? ==> data == whole && end.value == FinalError(script))
            && ((forall n <- sizes :: n > 0) && |sizes| > |whole| ==> end.Some?)
  {
    var st := ReaderState("", "", None, script);
    assert "" + Payload(script) == Payload(script);
    assert st.Owed() == RewriteStream(Payload(script));
    ReadAllDelivers(st, sizes);
  }

  /**
   A source that sends one line naming `response.done`, in whatever pieces, is read as the line
   naming `response.completed`, followed by the source's own error.
   */
  lemma DoneEventIsRead(script: seq<Chunk>, sizes: seq<nat>)
    requires Ends(script) && Payload(script) == "event: response.done\n"
    requires |sizes| > 26 && forall n <- sizes :: n > 0
    ensures ReaderState("", "", None, script).Valid()
    ensures ReadAll(ReaderState("", "", None, script), sizes) ==
            ("event: response.completed\n", Some(FinalError(script)))
  {
    hide ReadAll, Payload, FinalError, RewriteLine, RewriteStream;
    var line := "event: response.done\n";
    ReaderMeetsSpecification(script, sizes);
    SpacedName();
    DoneLineIsRenamed(line, [" "], [], "\n");
    assert OneLine(line);
    RewriteStreamCons(line, "");
    NothingRewritten();
    assert line + "" == line;
    var renamed := "event: response.completed\n";
    assert RewriteLine(line) == "event: response.completed" + "\n" == renamed;
    assert RewriteStream(line) == renamed + "" == renamed && |renamed| == 26;
  }

  lemma SpacedName()
    ensures IsDoneLine("event: response.done\n", [" "], [], "\n")
  {
    hide SPACES, Flatten;
    AsciiSpaces(' ');
    OneSpace();
    Spelled();
  }

  lemma OneSpace()
    ensures Flatten([" "]) == " " && Flatten<char>([]) == ""
  {
    assert Flatten([" "]) == " " + Flatten<char>([]);
  }

  lemma Spelled()
    ensures "event:" + (" " + ("response.done" + "")) + "\n" == "event: response.done\n"
  {}

  lemma NothingRewritten()
    ensures RewriteStream("") == ""
  {}
}
