/**
 Writing a remote file through shell commands: one that truncates it and then one per chunk
 that decodes base64 and appends. The remote side is a file map driven by the text of each
 command, read with the lexer of `ShellCommands`; a command that fails may have done part of
 its work.
 */
module RemoteFiles {
  import opened Common
  import opened ShellCommands
  import Base64

  const CHUNK_SIZE: nat := 48000

  type Files = map<string, Bytes>

  /** How the remote end of one command goes; a broken one got `progress` bytes far. */
  datatype Outcome = Completed | Broken(progress: nat)

  /** How command number `n` goes; those not listed complete. */
  function OutcomeAt(outcomes: seq<Outcome>, n: nat): Outcome {
    if n < |outcomes| then outcomes[n] else Completed
  }

  function Later(outcomes: seq<Outcome>, n: nat): seq<Outcome> {
    if n < |outcomes| then outcomes[n..] else []
  }

  // ----- The commands ----------------------------------------------------------------------

  function SuClaworc(cmd: string): string {
    "su claworc -c " + ShellQuote(cmd)
  }

  function TruncateCommand(path: string): string {
    "> " + ShellQuote(path)
  }

  function AppendCommand(path: string, chunk: Bytes): string {
    "echo '" + Base64.Encode(chunk) + "' | base64 -d >> " + ShellQuote(path)
  }

  /** The path without control characters. */
  function Sanitized(path: string): string {
    if path == "" then ""
    else (if path[0] >= ' ' && path[0] != '\U{007F}' then [path[0]] else "") + Sanitized(path[1..])
  }

  // ----- The remote host -------------------------------------------------------------------

  /** The command that `su claworc -c` hands to the inner shell. */
  function InnerOf(tokens: seq<Token>): Option<string> {
    if |tokens| == 4 && tokens[..3] == [Word("su"), Word("claworc"), Word("-c")] && tokens[3].Word?
    then Some(tokens[3].text) else None
  }

  /** What `echo` prints is its word and a newline, which `base64 -d` ignores. */
  function EchoDecode(word: string): Option<Bytes> {
    Base64.Decode(WithoutNewlines(word + "\n"))
  }

  function WithoutNewlines(s: string): string {
    if s == "" then "" else (if s[0] == '\n' then "" else [s[0]]) + WithoutNewlines(s[1..])
  }

  /** The first `n` bytes, or all of them. */
  function Upto(data: Bytes, n: nat): Bytes {
    if n < |data| then data[..n] else data
  }

  /** The files after the inner shell ran a truncating or an appending command. */
  function RunInner(files: Files, tokens: seq<Token>, outcome: Outcome): Files {
    if |tokens| == 2 && tokens[0] == Operator(">") && tokens[1].Word? then
      if outcome.Completed? || outcome.progress > 0 then files[tokens[1].text := []] else files
    else if |tokens| == 7 && tokens[0] == Word("echo") && tokens[1].Word?
         && tokens[2..6] == [Operator("|"), Word("base64"), Word("-d"), Operator(">>")] && tokens[6].Word?
         && EchoDecode(tokens[1].text).Some? then
      var path := tokens[6].text;
      var data := EchoDecode(tokens[1].text).value;
      var was := if path in files then files[path] else [];
      files[path := was + if outcome.Completed? then data else Upto(data, outcome.progress)]
    else files
  }

  /** The files after a login shell was sent the command text. */
  function Execute(files: Files, cmd: string, outcome: Outcome): Files {
    match Lex(cmd)
    case None => files
    case Some(tokens) =>
      match InnerOf(tokens) {
        case None => files
        case Some(inner) =>
          match Lex(inner)
          case None => files
          case Some(innerTokens) => RunInner(files, innerTokens, outcome)
      }
  }

  class RemoteHost {
    var files: Files
    var outcomes: seq<Outcome>     // how the coming commands go; afterwards all complete

    function Next(): Outcome
      reads this
    {
      OutcomeAt(outcomes, 0)
    }

    constructor (files: Files, outcomes: seq<Outcome>)
      ensures this.files == files && this.outcomes == outcomes
    {
      this.files, this.outcomes := files, outcomes;
    }

    method RunCommand(cmd: string) returns (ok: bool)
      modifies this
      ensures files == Execute(old(files), cmd, old(Next()))
      ensures ok <==> old(Next()).Completed?
      ensures outcomes == Later(old(outcomes), 1)
    {
      var outcome := Next();
      files := Execute(files, cmd, outcome);
      outcomes := Later(outcomes, 1);
      ok := outcome.Completed?;
    }
  }

  // ----- What the commands do --------------------------------------------------------------

  lemma WrappedRuns(files: Files, cmd: string, outcome: Outcome)
    ensures Execute(files, SuClaworc(cmd), outcome) ==
            match Lex(cmd) case None => files case Some(tokens) => RunInner(files, tokens, outcome)
  {
    hide Scan, ShellQuote, Plain, RunInner;
    PlainLiterals();
    var t3 := ShellQuote(cmd);
    var t2 := "-c" + " " + t3;
    var t1 := "claworc" + " " + t2;
    assert "su claworc -c " + t3 == "su" + " " + t1;
    PlainWord("su", t1);
    PlainWord("claworc", t2);
    PlainWord("-c", t3);
    QuotedLastWord(cmd);
    var tokens := [Word("su"), Word("claworc"), Word("-c"), Word(cmd)];
    assert [Word("su")] + ([Word("claworc")] + ([Word("-c")] + [Word(cmd)])) == tokens;
    assert tokens[..3] == [Word("su"), Word("claworc"), Word("-c")];
  }

  /** The truncating command empties exactly the named file. */
  lemma TruncateRuns(files: Files, path: string, outcome: Outcome)
    ensures Execute(files, SuClaworc(TruncateCommand(path)), outcome) ==
            if outcome.Completed? || outcome.progress > 0 then files[path := []] else files
  {
    hide ShellQuote, Execute;
    WrappedRuns(files, TruncateCommand(path), outcome);
    TruncateLexes(path);
  }

  lemma TruncateLexes(path: string)
    ensures Lex(TruncateCommand(path)) == Some([Operator(">"), Word(path)])
  {
    hide ShellQuote;
    var cmd := TruncateCommand(path);
    var rest := " " + ShellQuote(path);
    assert cmd == ">" + rest && cmd[1..] == rest;
    BlankEndsWord(ShellQuote(path), "");
    QuotedLastWord(path);
    assert [Operator(">")] + [Word(path)] == [Operator(">"), Word(path)];
  }

  /** The appending command appends exactly the chunk, or a prefix of it when it breaks. */
  lemma AppendRuns(files: Files, path: string, chunk: Bytes, outcome: Outcome)
    requires path in files
    ensures Execute(files, SuClaworc(AppendCommand(path, chunk)), outcome) ==
            files[path := files[path] + if outcome.Completed? then chunk else Upto(chunk, outcome.progress)]
  {
    hide ShellQuote, Execute, AppendCommand, Base64.Encode, Base64.Decode, Lex;
    WrappedRuns(files, AppendCommand(path, chunk), outcome);
    AppendLexes(path, chunk);
    EchoedChunkDecodes(chunk);
    var tokens := AppendTokens(path, Base64.Encode(chunk));
    assert tokens[2..6] == [Operator("|"), Word("base64"), Word("-d"), Operator(">>")];
  }

  function AppendTokens(path: string, text: string): seq<Token> {
    [Word("echo"), Word(text), Operator("|"), Word("base64"), Word("-d"), Operator(">>"), Word(path)]
  }

  lemma AppendLexes(path: string, chunk: Bytes)
    ensures Lex(AppendCommand(path, chunk)) == Some(AppendTokens(path, Base64.Encode(chunk)))
  {
    hide ShellQuote, Scan, Plain, Base64.Encode;
    PlainLiterals();
    var b64 := Base64.Encode(chunk);
    EncodedIsUnescaped(chunk);
    var t3 := "base64 -d >> " + ShellQuote(path);
    var t2 := "| " + t3;
    var t1 := ShellQuote(b64) + (" " + t2);
    assert AppendCommand(path, chunk) == "echo" + " " + t1;
    PlainWord("echo", t1);
    QuotedScansBack(b64, " " + t2, None);
    BlankEndsWord(t2, b64);
    PipeScansBack(t3);
    DecodeAndAppendLexes(path);
    assert [Word("echo")] + ([Word(b64)] + ([Operator("|")] + AppendTokens(path, b64)[3..])) == AppendTokens(path, b64);
  }

  lemma DecodeAndAppendLexes(path: string)
    ensures Scan("base64 -d >> " + ShellQuote(path), None) ==
            Some([Word("base64"), Word("-d"), Operator(">>"), Word(path)])
  {
    hide ShellQuote, Scan, Plain;
    PlainLiterals();
    var t6 := ShellQuote(path);
    var t5 := ">> " + t6;
    var t4 := "-d" + " " + t5;
    assert "base64 -d >> " + t6 == "base64" + " " + t4;
    PlainWord("base64", t4);
    PlainWord("-d", t5);
    AppendToScansBack(t6);
    QuotedLastWord(path);
    assert [Word("base64")] + ([Word("-d")] + ([Operator(">>")] + [Word(path)])) ==
           [Word("base64"), Word("-d"), Operator(">>"), Word(path)];
  }

  lemma PipeScansBack(rest: string)
    ensures Scan("| " + rest, None) == Behind([Operator("|")], Scan(rest, None))
  {
    assert ("| " + rest)[1..] == " " + rest && ("| " + rest)[1] == ' ';
    assert [] + [Operator("|")] == [Operator("|")];
    BlankEndsWord(rest, "");
  }

  lemma AppendToScansBack(rest: string)
    ensures Scan(">> " + rest, None) == Behind([Operator(">>")], Scan(rest, None))
  {
    assert (">> " + rest)[2..] == " " + rest;
    BlankEndsWord(rest, "");
  }

  /** Base64 text contains no quote, so quoting it by hand is quoting it. */
  lemma EncodedIsUnescaped(chunk: Bytes)
    ensures ShellQuote(Base64.Encode(chunk)) == "'" + Base64.Encode(chunk) + "'"
  {
    hide Base64.Encode;
    Base64.EncodedCharacters(chunk);
    NothingToEscape(Base64.Encode(chunk));
  }

  lemma {:induction false} NothingToEscape(s: string)
    requires '\'' !in s
    ensures EscapeQuotes(s) == s
    decreases |s|
  {
    if s != "" {
      assert s[0] in s && forall c <- s[1..] :: c in s;
      NothingToEscape(s[1..]);
    }
  }

  /** The shell's decoder gives back the chunk that was encoded. */
  lemma EchoedChunkDecodes(chunk: Bytes)
    ensures EchoDecode(Base64.Encode(chunk)) == Some(chunk)
  {
    hide Base64.Encode, Base64.Decode;
    Base64.EncodedCharacters(chunk);
    NewlineIsDropped(Base64.Encode(chunk));
    Base64.RoundTrip(chunk);
  }

  lemma {:induction false} NewlineIsDropped(s: string)
    requires '\n' !in s
    ensures WithoutNewlines(s + "\n") == s
    decreases |s|
  {
    if s != "" {
      assert s[0] in s && forall c <- s[1..] :: c in s;
      assert (s + "\n")[1..] == s[1..] + "\n";
      NewlineIsDropped(s[1..]);
    }
  }

  // ----- WriteFile -------------------------------------------------------------------------

  predicate WholeChunks(data: Bytes, length: nat) {
    length % CHUNK_SIZE == 0 || length == |data|
  }

  function ChunkCount(data: Bytes): (n: nat)
    ensures forall k: nat :: k < n <==> k * 48000 < |data|
  {
    (|data| + (CHUNK_SIZE - 1)) / CHUNK_SIZE
  }

  function ChunkLength(data: Bytes, k: nat): (n: nat)
    requires k < ChunkCount(data)
    ensures n == if (k + 1) * 48000 > |data| then |data| - k * 48000 else 48000
    ensures 0 < n
  {
    if (k + 1) * CHUNK_SIZE > |data| then |data| - k * CHUNK_SIZE else CHUNK_SIZE
  }

  /** The number of the first command that breaks, if one does. */
  function FirstBroken(outcomes: seq<Outcome>): (first: Option<nat>)
    ensures match first
            case None => forall j: nat :: OutcomeAt(outcomes, j).Completed?
            case Some(k) =>
              OutcomeAt(outcomes, k).Broken? && forall j: nat :: j < k ==> OutcomeAt(outcomes, j).Completed?
  {
    if outcomes == [] then None
    else if outcomes[0].Broken? then Some(0)
    else
      assert forall j: nat :: j > 0 ==> OutcomeAt(outcomes, j) == OutcomeAt(outcomes[1..], j - 1);
      match FirstBroken(outcomes[1..])
      case None => None
      case Some(k) => Some(k + 1)
  }

  /** Where the file ends when the command for chunk `k` broke after `progress` bytes. */
  function KeptLength(data: Bytes, k: nat, progress: nat): (length: nat)
    requires k < ChunkCount(data)
    ensures k * CHUNK_SIZE <= length <= |data|
  {
    k * CHUNK_SIZE + if progress < ChunkLength(data, k) then progress else ChunkLength(data, k)
  }

  /** Command 0 truncates, command `k + 1` appends chunk `k`, and the first to break is the last one sent. */
  function Written(files: Files, path: string, data: Bytes, outcomes: seq<Outcome>): (Files, bool) {
    match FirstBroken(outcomes)
    case None => (files[path := data], true)
    case Some(k) =>
      var progress := OutcomeAt(outcomes, k).progress;
      if k > ChunkCount(data) then (files[path := data], true)
      else if k == 0 then (if progress > 0 then files[path := []] else files, false)
      else (files[path := data[..KeptLength(data, k - 1, progress)]], false)
  }

  method SanitizePath(path: string) returns (clean: string)
    ensures clean == Sanitized(path)
  {
    clean := "";
    for i := 0 to |path|
      invariant clean == Sanitized(path[..i])
    {
      SanitizedSnoc(path[..i], path[i]);
      assert path[..i] + [path[i]] == path[..i + 1];
      if path[i] >= ' ' && path[i] != '\U{007F}' {
        clean := clean + [path[i]];
      }
    }
    assert path[..|path|] == path;
  }

  lemma {:induction false} SanitizedSnoc(path: string, last: char)
    ensures Sanitized(path + [last]) ==
            if last >= ' ' && last != '\U{007F}' then Sanitized(path) + [last] else Sanitized(path)
    decreases |path|
  {
    if path != "" {
      assert (path + [last])[1..] == path[1..] + [last];
      SanitizedSnoc(path[1..], last);
    } else {
      assert (path + [last])[1..] == "";
    }
  }

  lemma NothingUpto(data: Bytes)
    ensures Upto(data, 0) == []
    ensures forall i: nat :: i >= |data| ==> Upto(data, i) == data
  {}

  lemma GrownPrefix(data: Bytes, i: nat)
    requires i < |data|
    ensures var end := if i + CHUNK_SIZE > |data| then |data| else i + CHUNK_SIZE;
            Upto(data, i) + data[i..end] == Upto(data, i + CHUNK_SIZE)
  {}

  /** The first `n` commands complete. */
  ghost predicate Fine(outcomes: seq<Outcome>, n: nat) {
    forall j: nat :: j < n ==> OutcomeAt(outcomes, j).Completed?
  }

  lemma OneMore(outcomes: seq<Outcome>, n: nat)
    ensures Fine(outcomes, 0)
    ensures Later(outcomes, 0) == outcomes && Later(Later(outcomes, n), 1) == Later(outcomes, n + 1)
    ensures OutcomeAt(Later(outcomes, n), 0) == OutcomeAt(outcomes, n)
    ensures Fine(outcomes, n) && OutcomeAt(outcomes, n).Completed? ==> Fine(outcomes, n + 1)
  {}

  lemma BrokenAt(files: Files, path: string, data: Bytes, outcomes: seq<Outcome>, k: nat)
    requires k * CHUNK_SIZE < |data| && Fine(outcomes, k + 1) && OutcomeAt(outcomes, k + 1).Broken?
    ensures var i := k * CHUNK_SIZE;
            var end := if i + CHUNK_SIZE > |data| then |data| else i + CHUNK_SIZE;
            var part := Upto(data[i..end], OutcomeAt(outcomes, k + 1).progress);
            Written(files, path, data, outcomes) == (files[path := Upto(data, i) + part], false)
  {
    var i := k * CHUNK_SIZE;
    var end := if i + CHUNK_SIZE > |data| then |data| else i + CHUNK_SIZE;
    var progress := OutcomeAt(outcomes, k + 1).progress;
    assert FirstBroken(outcomes) == Some(k + 1);
    assert k < ChunkCount(data);
    assert Upto(data, i) + Upto(data[i..end], progress) == data[..KeptLength(data, k, progress)];
  }

  lemma BrokenFirst(files: Files, path: string, data: Bytes, outcomes: seq<Outcome>)
    requires OutcomeAt(outcomes, 0).Broken?
    ensures Written(files, path, data, outcomes) ==
            (if OutcomeAt(outcomes, 0).progress > 0 then files[path := []] else files, false)
  {
    assert FirstBroken(outcomes) == Some(0);
  }

  lemma AllSent(files: Files, path: string, data: Bytes, outcomes: seq<Outcome>, k: nat)
    requires |data| <= k * CHUNK_SIZE && Fine(outcomes, k + 1)
    ensures Written(files, path, data, outcomes) == (files[path := data], true)
  {
    assert k >= ChunkCount(data);
  }

  /** The files and the answer are those of `Written`, for every way the commands go. */
  method WriteFile(host: RemoteHost, path: string, data: Bytes) returns (ok: bool)
    modifies host
    ensures (host.files, ok) == Written(old(host.files), Sanitized(path), data, old(host.outcomes))
  {
    hide Execute, SuClaworc, TruncateCommand, AppendCommand, Upto, Written, Fine, Later, OutcomeAt;
    NothingUpto(data);
    ghost var outcomes := host.outcomes;
    OneMore(outcomes, 0);
    var clean := SanitizePath(path);
    TruncateRuns(host.files, clean, host.Next());
    ok := host.RunCommand(SuClaworc(TruncateCommand(clean)));
    if !ok {
      BrokenFirst(old(host.files), clean, data, outcomes);
      return;
    }
    var i := 0;
    ghost var k := 0;
    while i < |data|
      invariant i == k * CHUNK_SIZE
      invariant host.files == old(host.files)[clean := Upto(data, i)]
      invariant host.outcomes == Later(outcomes, k + 1) && Fine(outcomes, k + 1)
      decreases |data| - i
    {
      var end := if i + CHUNK_SIZE > |data| then |data| else i + CHUNK_SIZE;
      var chunk := data[i..end];
      OneMore(outcomes, k + 1);
      ghost var outcome := host.Next();
      AppendRuns(host.files, clean, chunk, outcome);
      ok := host.RunCommand(SuClaworc(AppendCommand(clean, chunk)));
      if !ok {
        BrokenAt(old(host.files), clean, data, outcomes, k);
        assert host.files == old(host.files)[clean := Upto(data, i) + Upto(chunk, outcome.progress)];
        return;
      }
      GrownPrefix(data, i);
      i := i + CHUNK_SIZE;
      k := k + 1;
    }
    AllSent(old(host.files), clean, data, outcomes, k);
    return true;
  }

  /** A write succeeds if and only if the truncation and all chunks' commands complete. */
  lemma WriteSucceedsIff(files: Files, path: string, data: Bytes, outcomes: seq<Outcome>)
    ensures var (after, ok) := Written(files, path, data, outcomes);
            && (ok <==> forall j: nat :: j <= ChunkCount(data) ==> OutcomeAt(outcomes, j).Completed?)
            && (ok ==> after == files[path := data])
  {}

  /**
   A write whose command for chunk `k` is the first to break leaves the data up to where it
   broke, which is made of whole chunks if and only if the command did nothing or all of its work.
   */
  lemma FailureLeavesPrefix(files: Files, path: string, data: Bytes, outcomes: seq<Outcome>, k: nat)
    requires k < ChunkCount(data) && FirstBroken(outcomes) == Some(k + 1)
    ensures var (after, ok) := Written(files, path, data, outcomes);
            var progress := OutcomeAt(outcomes, k + 1).progress;
            var length := KeptLength(data, k, progress);
            && !ok && after == files[path := data[..length]]
            && length == k * 48000 + (if progress < ChunkLength(data, k) then progress else ChunkLength(data, k))
            && (WholeChunks(data, length) <==> progress == 0 || progress >= ChunkLength(data, k))
  {
    var progress := OutcomeAt(outcomes, k + 1).progress;
    var length := ChunkLength(data, k);
    if progress < length {
      RemainderOf(k, progress);
    } else if length == CHUNK_SIZE {
      RemainderOf(k + 1, 0);
    }
  }

  lemma RemainderOf(k: nat, progress: nat)
    requires progress < CHUNK_SIZE
    ensures (k * CHUNK_SIZE + progress) % CHUNK_SIZE == progress
  {}

  /** Two bytes to write, and the connection breaks after one of them: part of a chunk stays. */
  lemma PartialChunkIsLeft()
    ensures Written(map[], "f", [1, 2], [Completed, Broken(1)]) == (map["f" := [1]], false)
    ensures !WholeChunks([1, 2], 1)
  {
    assert ChunkCount([1, 2]) == 1;
    assert OutcomeAt([Completed, Broken(1)], 0) == Completed && OutcomeAt([Completed, Broken(1)], 1) == Broken(1);
    assert FirstBroken([Completed, Broken(1)]) == Some(1);
    assert KeptLength([1, 2], 0, 1) == 1;
    assert [1, 2][..1] == [1];
  }
}
