/**
 Commands the control plane sends to a remote shell. The shell side is a lexer for sections
 2.2.1 (backslash) and 2.2.2 (single quotes) of the POSIX Shell Command Language with the
 operators used here. Outside quotes it accepts, besides those, only characters that mean
 themselves everywhere, so a successful lex also shows that nothing else was left unquoted.
 */
module ShellCommands {
  import opened Common

  // ----- The shell's view ------------------------------------------------------------------

  datatype Token = Word(text: string) | Operator(text: string)

  predicate IsBlank(c: char) {
    c == ' ' || c == '\t'
  }

  /** Characters taken literally wherever they stand; the lexer accepts no others unquoted. */
  predicate IsOrdinary(c: char) {
    'a' <= c <= 'z' || 'A' <= c <= 'Z' || '0' <= c <= '9' || c == '-' || c == '_' || c == '/' || c == '.'
  }

  function Flush(word: Option<string>): seq<Token> {
    match word case None => [] case Some(w) => [Word(w)]
  }

  function Grow(word: Option<string>, more: string): Option<string> {
    match word case None => Some(more) case Some(w) => Some(w + more)
  }

  /** `first` in front of the tokens, unless lexing failed. */
  function Behind(first: seq<Token>, tokens: Option<seq<Token>>): Option<seq<Token>> {
    match tokens case None => None case Some(ts) => Some(first + ts)
  }

  /** Lexing outside quotes; `word` is the word being collected, if any. */
  function Scan(s: string, word: Option<string>): Option<seq<Token>>
    decreases |s|
  {
    if s == "" then Some(Flush(word))
    else if IsBlank(s[0]) then Behind(Flush(word), Scan(s[1..], None))
    else if s[0] == '\'' then ScanQuoted(s[1..], Grow(word, ""))
    else if s[0] == '\\' then
      if |s| < 2 then None
      else if s[1] == '\n' then Scan(s[2..], word)
      else Scan(s[2..], Grow(word, [s[1]]))
    else if s[0] == '>' then
      if word.Some? then None
      else if |s| >= 2 && s[1] == '>' then Behind([Operator(">>")], Scan(s[2..], None))
      else if |s| >= 2 && s[1] in "&|" then None
      else Behind([Operator(">")], Scan(s[1..], None))
    else if s[0] == '|' then
      if |s| >= 2 && s[1] in "|&" then None
      else Behind(Flush(word) + [Operator("|")], Scan(s[1..], None))
    else if IsOrdinary(s[0]) then Scan(s[1..], Grow(word, [s[0]]))
    else None
  }

  /** Lexing inside single quotes, where only the closing quote is special. */
  function ScanQuoted(s: string, word: Option<string>): Option<seq<Token>>
    decreases |s|
  {
    if s == "" then None
    else if s[0] == '\'' then Scan(s[1..], word)
    else ScanQuoted(s[1..], Grow(word, [s[0]]))
  }

  /** Between single quotes every character but the quote stands for itself. */
  lemma {:induction false} QuotedText(s: string, rest: string, word: Option<string>)
    requires '\'' !in s && word.Some?
    ensures ScanQuoted(s + "'" + rest, word) == Scan(rest, Grow(word, s))
    decreases |s|
  {
    var text := s + "'" + rest;
    if s == "" {
      assert text[1..] == rest && word.value + "" == word.value;
    } else {
      assert text[0] == s[0] && text[1..] == s[1..] + "'" + rest;
      QuotedText(s[1..], rest, Grow(word, [s[0]]));
      assert word.value + s == (word.value + [s[0]]) + s[1..];
    }
  }

  /** Outside quotes a backslash makes the next character stand for itself. */
  lemma EscapedCharacter(c: char, rest: string, word: Option<string>)
    requires c != '\n'
    ensures Scan("\\" + ([c] + rest), word) == Scan(rest, Grow(word, [c]))
  {
    assert ("\\" + ([c] + rest))[2..] == rest;
  }

  /** Whatever else is no letter, digit or one of `-_/.` is refused outside quotes. */
  lemma SpecialsAreRefused(c: char, rest: string, word: Option<string>)
    requires !('a' <= c <= 'z') && !('A' <= c <= 'Z') && !('0' <= c <= '9')
    requires c !in "-_/." && c !in " \t" && c != '\'' && c != '\\' && c != '>' && c != '|'
    ensures Scan([c] + rest, word) == None
  {}

  lemma GrowTwice(word: Option<string>, a: string, b: string)
    ensures Grow(Grow(word, a), b) == Grow(word, a + b)
  {
    if word.Some? {
      ConcatAssociates(word.value, a, b);
    }
  }

  lemma QuotedCharacter(c: char, rest: string, word: Option<string>)
    requires c != '\''
    ensures ScanQuoted([c] + rest, word) == ScanQuoted(rest, Grow(word, [c]))
  {
    assert ([c] + rest)[1..] == rest;
  }

  lemma PlainCharacter(c: char, rest: string, word: Option<string>)
    requires IsOrdinary(c)
    ensures Scan([c] + rest, word) == Scan(rest, Grow(word, [c]))
  {
    assert ([c] + rest)[1..] == rest;
  }

  function Lex(s: string): Option<seq<Token>> {
    Scan(s, None)
  }

  function Words(texts: seq<string>): seq<Token> {
    if texts == [] then [] else [Word(texts[0])] + Words(texts[1..])
  }

  // ----- Quoting ---------------------------------------------------------------------------

  /** Every single quote replaced by: close quote, escaped quote, open quote. */
  function EscapeQuotes(s: string): string {
    if s == "" then ""
    else (if s[0] == '\'' then "'\\''" else [s[0]]) + EscapeQuotes(s[1..])
  }

  function ShellQuote(s: string): string {
    "'" + EscapeQuotes(s) + "'"
  }

  lemma {:induction false} EscapedScansBack(s: string, rest: string, word: Option<string>)
    requires word.Some?
    ensures ScanQuoted(EscapeQuotes(s) + "'" + rest, word) == Scan(rest, Grow(word, s))
    decreases |s|
  {
    if s == "" {
      var text := EscapeQuotes(s) + "'" + rest;
      assert text[0] == '\'' && text[1..] == rest;
      assert word.value + "" == word.value;
    } else {
      hide Scan, ScanQuoted;
      var tail := EscapeQuotes(s[1..]) + "'" + rest;
      var text := EscapeQuotes(s) + "'" + rest;
      GrowTwice(word, [s[0]], s[1..]);
      assert s == [s[0]] + s[1..];
      if s[0] == '\'' {
        assert text == "'\\''" + tail;
        CloseEscapeOpen(tail, word);
      } else {
        assert text == [s[0]] + tail;
        QuotedCharacter(s[0], tail, word);
      }
      EscapedScansBack(s[1..], rest, Grow(word, [s[0]]));
    }
  }

  /** The escape sequence adds one quote character to the word. */
  lemma CloseEscapeOpen(tail: string, word: Option<string>)
    requires word.Some?
    ensures ScanQuoted("'\\''" + tail, word) == ScanQuoted(tail, Grow(word, "'"))
  {
    var text := "'\\''" + tail;
    var escaped := "\\''" + tail;
    var reopened := "'" + tail;
    var grown := Grow(word, "'");
    assert text[0] == '\'' && text[1..] == escaped;
    assert escaped[0] == '\\' && [escaped[1]] == "'" && escaped[2..] == reopened;
    assert Scan(escaped, word) == Scan(reopened, grown);
    assert reopened[1..] == tail && grown.value + "" == grown.value;
    assert Scan(reopened, grown) == ScanQuoted(tail, grown);
  }

  /** A shell reads a quoted string back as exactly that string, inside any word. */
  lemma QuotedScansBack(s: string, rest: string, word: Option<string>)
    ensures Scan(ShellQuote(s) + rest, word) == Scan(rest, Grow(word, s))
  {
    var text := ShellQuote(s) + rest;
    assert text[1..] == EscapeQuotes(s) + "'" + rest;
    EscapedScansBack(s, rest, Grow(word, ""));
    assert "" + s == s;
    if word.Some? {
      assert (word.value + "") + s == word.value + s;
    }
  }

  predicate Plain(w: string) {
    forall c <- w :: IsOrdinary(c)
  }

  /** A run of ordinary characters is read as part of a word. */
  lemma {:induction false} PlainScansBack(w: string, rest: string, word: Option<string>)
    requires w != "" && Plain(w)
    ensures Scan(w + rest, word) == Scan(rest, Grow(word, w))
    decreases |w|
  {
    hide Scan;
    assert w[0] in w && w == [w[0]] + w[1..];
    ConcatAssociates([w[0]], w[1..], rest);
    PlainCharacter(w[0], w[1..] + rest, word);
    GrowTwice(word, [w[0]], w[1..]);
    if |w| == 1 {
      assert w[1..] == "" && w[1..] + rest == rest && w == [w[0]];
    } else {
      assert forall c <- w[1..] :: c in w;
      PlainScansBack(w[1..], rest, Grow(word, [w[0]]));
    }
  }

  lemma BlankEndsWord(rest: string, w: string)
    ensures Scan(" " + rest, Some(w)) == Behind([Word(w)], Scan(rest, None))
    ensures Scan(" " + rest, None) == Scan(rest, None)
  {
    assert (" " + rest)[1..] == rest;
    if Scan(rest, None).Some? {
      assert [] + Scan(rest, None).value == Scan(rest, None).value;
    }
  }

  lemma EndOfText(w: string)
    ensures Scan("", Some(w)) == Some([Word(w)])
  {}

  /** A plain word followed by a blank. */
  lemma PlainWord(w: string, rest: string)
    requires w != "" && Plain(w)
    ensures Scan(w + " " + rest, None) == Behind([Word(w)], Scan(rest, None))
  {
    assert w + " " + rest == w + (" " + rest);
    PlainScansBack(w, " " + rest, None);
    BlankEndsWord(rest, w);
  }

  /** A quoted string at the end of the text is the last word. */
  lemma QuotedLastWord(s: string)
    ensures Scan(ShellQuote(s), None) == Some([Word(s)])
  {
    QuotedScansBack(s, "", None);
    assert ShellQuote(s) + "" == ShellQuote(s);
  }

  // ----- ExecOpenclaw ----------------------------------------------------------------------

  const MAX_ARGS: nat := 65535

  function Join(parts: seq<string>): string {
    if parts == [] then "" else if |parts| == 1 then parts[0] else parts[0] + " " + Join(parts[1..])
  }

  function QuoteAll(args: seq<string>): (parts: seq<string>)
    ensures |parts| == |args|
    ensures forall k :: 0 <= k < |args| ==> parts[k] == ShellQuote(args[k])
  {
    if args == [] then [] else [ShellQuote(args[0])] + QuoteAll(args[1..])
  }

  /** The command line that the inner shell runs. */
  function InnerCommand(args: seq<string>): string {
    Join(["openclaw"] + QuoteAll(args))
  }

  function OpenclawCommand(args: seq<string>): string {
    "su - claworc -c " + ShellQuote(InnerCommand(args))
  }

  /** The command string sent over SSH, or nothing when there are too many arguments. */
  method ExecOpenclaw(args: seq<string>) returns (cmd: Option<string>)
    ensures cmd == if |args| > 65535 then None else Some(OpenclawCommand(args))
  {
    if |args| > MAX_ARGS {
      return None;
    }
    var parts := new string[|args| + 1];
    parts[0] := "openclaw";
    for j := 0 to |args|
      invariant parts[0] == "openclaw"
      invariant forall k :: 0 <= k < j ==> parts[k + 1] == ShellQuote(args[k])
    {
      parts[j + 1] := ShellQuote(args[j]);
    }
    assert parts[..] == ["openclaw"] + QuoteAll(args);
    return Some("su - claworc -c " + ShellQuote(Join(parts[..])));
  }

  lemma {:induction false} JoinedWordsScanBack(args: seq<string>)
    requires args != []
    ensures Scan(Join(QuoteAll(args)), None) == Some(Words(args))
    decreases |args|
  {
    hide ShellQuote;
    var parts := QuoteAll(args);
    if |args| == 1 {
      QuotedLastWord(args[0]);
      assert Words(args) == [Word(args[0])];
    } else {
      assert parts[1..] == QuoteAll(args[1..]);
      var tail := Join(parts[1..]);
      assert Join(parts) == ShellQuote(args[0]) + (" " + tail);
      QuotedScansBack(args[0], " " + tail, None);
      BlankEndsWord(tail, args[0]);
      JoinedWordsScanBack(args[1..]);
    }
  }

  /**
   Both shells read back what was meant: the login shell sees `su - claworc -c` and one word,
   and that word is `openclaw` followed by exactly the given arguments.
   */
  lemma OpenclawArgumentsSurvive(args: seq<string>)
    ensures Lex(OpenclawCommand(args)) ==
            Some([Word("su"), Word("-"), Word("claworc"), Word("-c"), Word(InnerCommand(args))])
    ensures Lex(InnerCommand(args)) == Some([Word("openclaw")] + Words(args))
  {
    SuPrefix(InnerCommand(args));
    OpenclawWord(args);
  }

  lemma PlainLiterals()
    ensures Plain("su") && Plain("-") && Plain("claworc") && Plain("-c") && Plain("openclaw")
    ensures Plain("echo") && Plain("base64") && Plain("-d")
  {}

  lemma SuPrefix(inner: string)
    ensures Scan("su - claworc -c " + ShellQuote(inner), None) ==
            Some([Word("su"), Word("-"), Word("claworc"), Word("-c"), Word(inner)])
  {
    hide Scan, ShellQuote, Plain;
    PlainLiterals();
    var t4 := ShellQuote(inner);
    var t3 := "-c" + " " + t4;
    var t2 := "claworc" + " " + t3;
    var t1 := "-" + " " + t2;
    assert "su - claworc -c " + t4 == "su" + " " + t1;
    PlainWord("su", t1);
    PlainWord("-", t2);
    PlainWord("claworc", t3);
    PlainWord("-c", t4);
    QuotedLastWord(inner);
    assert [Word("su")] + ([Word("-")] + ([Word("claworc")] + ([Word("-c")] + [Word(inner)]))) ==
           [Word("su"), Word("-"), Word("claworc"), Word("-c"), Word(inner)];
  }

  lemma OpenclawWord(args: seq<string>)
    ensures Scan(InnerCommand(args), None) == Some([Word("openclaw")] + Words(args))
  {
    hide Scan, ShellQuote, Plain;
    PlainLiterals();
    var parts := ["openclaw"] + QuoteAll(args);
    if args == [] {
      PlainScansBack("openclaw", "", None);
      EndOfText("openclaw");
      assert "openclaw" + "" == "openclaw";
      assert parts == ["openclaw"] && [Word("openclaw")] + Words(args) == [Word("openclaw")];
    } else {
      assert parts[1..] == QuoteAll(args);
      PlainWord("openclaw", Join(QuoteAll(args)));
      JoinedWordsScanBack(args);
    }
  }
}
