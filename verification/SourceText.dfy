/**
 The two scanners of the model-catalog script: removing TypeScript comments while respecting
 string literals, and extracting a balanced bracket expression.
 */
module SourceText {
  import opened Common

  predicate IsQuote(c: char) {
    c == '"' || c == '\'' || c == '`'
  }

  // ----- Tokens ----------------------------------------------------------------------------------

  datatype Token = Literal(text: string) | Block | Line | Plain(c: char)

  /** The end of the literal quoted by `q` whose inside is scanned from `i`; unterminated ones end the text. */
  function LiteralEnd(text: string, q: char, i: nat): (end: nat)
    requires i <= |text|
    ensures i <= end <= |text|
    decreases |text| - i
  {
    if i == |text| then i
    else if text[i] == '\\' && i + 1 < |text| then LiteralEnd(text, q, i + 2)
    else if text[i] == q then i + 1
    else LiteralEnd(text, q, i + 1)
  }

  function BlockEnd(text: string, i: nat): (end: nat)
    requires i <= |text|
    ensures i <= end <= |text|
    decreases |text| - i
  {
    if i + 1 >= |text| then |text|
    else if text[i] == '*' && text[i + 1] == '/' then i + 2
    else BlockEnd(text, i + 1)
  }

  function LineEnd(text: string, i: nat): (end: nat)
    requires i <= |text|
    ensures i <= end <= |text|
    decreases |text| - i
  {
    if i == |text| || text[i] == '\n' then i else LineEnd(text, i + 1)
  }

  predicate Starts(text: string, c: char, d: char) {
    |text| > 1 && text[0] == c && text[1] == d
  }

  function FirstEnd(text: string): (end: nat)
    requires text != ""
    ensures 0 < end <= |text|
  {
    if IsQuote(text[0]) then LiteralEnd(text, text[0], 1)
    else if Starts(text, '/', '*') then BlockEnd(text, 2)
    else if Starts(text, '/', '/') then LineEnd(text, 2)
    else 1
  }

  function FirstToken(text: string): Token
    requires text != ""
  {
    if IsQuote(text[0]) then Literal(text[..FirstEnd(text)])
    else if Starts(text, '/', '*') then Block
    else if Starts(text, '/', '/') then Line
    else Plain(text[0])
  }

  function Lex(text: string): seq<Token> {
    if text == "" then [] else [FirstToken(text)] + Lex(text[FirstEnd(text)..])
  }

  /** What is left of a token: literals and plain characters stay, a block comment becomes a space. */
  function Render(t: Token): string {
    match t
    case Literal(s) => s
    case Block => " "
    case Line => ""
    case Plain(c) => [c]
  }

  function Strip(text: string): string {
    if text == "" then "" else Render(FirstToken(text)) + Strip(text[FirstEnd(text)..])
  }

  // ----- strip_comments -----------------------------------------------------------------------

  lemma {:induction false} LiteralEndAt(text: string, q: char, i: nat, j: nat)
    requires i <= j <= |text|
    ensures i + LiteralEnd(text[i..], q, j - i) == LiteralEnd(text, q, j)
    decreases |text| - j
  {
    if j < |text| {
      assert text[i..][j - i] == text[j];
      if text[j] == '\\' && j + 1 < |text| {
        LiteralEndAt(text, q, i, j + 2);
      } else if text[j] != q {
        LiteralEndAt(text, q, i, j + 1);
      }
    }
  }

  lemma {:induction false} BlockEndAt(text: string, i: nat, j: nat)
    requires i <= j <= |text|
    ensures i + BlockEnd(text[i..], j - i) == BlockEnd(text, j)
    decreases |text| - j
  {
    if j + 1 < |text| {
      assert text[i..][j - i] == text[j] && text[i..][j - i + 1] == text[j + 1];
      if !(text[j] == '*' && text[j + 1] == '/') {
        BlockEndAt(text, i, j + 1);
      }
    }
  }

  lemma {:induction false} LineEndAt(text: string, i: nat, j: nat)
    requires i <= j <= |text|
    ensures i + LineEnd(text[i..], j - i) == LineEnd(text, j)
    decreases |text| - j
  {
    if j < |text| {
      assert text[i..][j - i] == text[j];
      if text[j] != '\n' {
        LineEndAt(text, i, j + 1);
      }
    }
  }

  /** Where the token at `i` ends, and what it leaves. */
  function EndAt(text: string, i: nat): (end: nat)
    requires i < |text|
    ensures i < end <= |text|
  {
    i + FirstEnd(text[i..])
  }

  function KeptAt(text: string, i: nat): string
    requires i < |text|
  {
    Render(FirstToken(text[i..]))
  }

  lemma StripAt(text: string, i: nat)
    requires i < |text|
    ensures Strip(text[i..]) == KeptAt(text, i) + Strip(text[EndAt(text, i)..])
  {
    hide FirstEnd, FirstToken, Render;
    assert text[i..][FirstEnd(text[i..])..] == text[i + FirstEnd(text[i..])..];
  }

  lemma TokenAt(text: string, i: nat)
    requires i < |text|
    ensures if IsQuote(text[i]) then
              EndAt(text, i) == LiteralEnd(text, text[i], i + 1) && KeptAt(text, i) == text[i..EndAt(text, i)]
            else if text[i] == '/' && i + 1 < |text| && text[i + 1] == '*' then
              EndAt(text, i) == BlockEnd(text, i + 2) && KeptAt(text, i) == " "
            else if text[i] == '/' && i + 1 < |text| && text[i + 1] == '/' then
              EndAt(text, i) == LineEnd(text, i + 2) && KeptAt(text, i) == ""
            else
              EndAt(text, i) == i + 1 && KeptAt(text, i) == [text[i]]
  {
    hide LiteralEnd, BlockEnd, LineEnd;
    assert text[i..][0] == text[i];
    if IsQuote(text[i]) {
      LiteralEndAt(text, text[i], i, i + 1);
      assert text[i..][..FirstEnd(text[i..])] == text[i..EndAt(text, i)];
    } else if i + 1 < |text| {
      assert text[i..][1] == text[i + 1];
      BlockEndAt(text, i, i + 2);
      LineEndAt(text, i, i + 2);
    }
  }

  lemma SliceGrows(text: string, start: nat, i: nat)
    requires start <= i < |text|
    ensures text[start..i] + [text[i]] == text[start..i + 1]
  {}

  method CopyLiteral(text: string, start: nat) returns (literal: string, next: nat)
    requires start < |text| && IsQuote(text[start])
    ensures var end := LiteralEnd(text, text[start], start + 1);
            literal == text[start..end] && (next == end || next > end == |text|)
  {
    var i, n := start, |text|;
    var q := text[i];
    ghost var end := LiteralEnd(text, q, i + 1);
    literal := [q];
    i := i + 1;
    while i < n
      invariant start < i <= n && literal == text[start..i]
      invariant LiteralEnd(text, q, i) == end
      decreases n - i
    {
      var ch := text[i];
      SliceGrows(text, start, i);
      literal := literal + [ch];
      if ch == '\\' && i + 1 < n {
        i := i + 1;
        SliceGrows(text, start, i);
        literal := literal + [text[i]];
      } else if ch == q {
        break;
      }
      i := i + 1;
    }
    next := i + 1;
  }

  method SkipBlock(text: string, start: nat) returns (next: nat)
    requires start + 1 < |text|
    ensures var end := BlockEnd(text, start + 2); next == end || next > end == |text|
  {
    var i, n := start + 2, |text|;
    while i + 1 < n && !(text[i] == '*' && text[i + 1] == '/')
      invariant i <= n && BlockEnd(text, i) == BlockEnd(text, start + 2)
    {
      i := i + 1;
    }
    next := i + 2;
  }

  method SkipLine(text: string, start: nat) returns (next: nat)
    requires start + 1 < |text| && text[start] == text[start + 1] == '/'
    ensures next == LineEnd(text, start + 2)
  {
    next := start;
    while next < |text| && text[next] != '\n'
      invariant start <= next <= |text| && LineEnd(text, next) == LineEnd(text, start + 2)
    {
      next := next + 1;
    }
  }

  /** strip_comments; its three inner loops are the methods above. */
  method StripComments(text: string) returns (result: string)
    ensures result == Strip(text)
  {
    hide LiteralEnd, BlockEnd, LineEnd, EndAt, KeptAt;
    result := "";
    var i, n := 0, |text|;
    assert text[0..] == text;
    while i < n
      invariant i <= n ==> result + Strip(text[i..]) == Strip(text)
      invariant i > n ==> result == Strip(text)
      decreases n - i
    {
      ghost var before, end := result, EndAt(text, i);
      StripAt(text, i);
      TokenAt(text, i);
      ConcatAssociates(before, KeptAt(text, i), Strip(text[end..]));
      var c := text[i];
      if IsQuote(c) {
        var literal;
        literal, i := CopyLiteral(text, i);
        result := result + literal;
      } else if c == '/' && i + 1 < n && text[i + 1] == '*' {
        i := SkipBlock(text, i);
        result := result + " ";
      } else if c == '/' && i + 1 < n && text[i + 1] == '/' {
        i := SkipLine(text, i);
        assert result + "" == result;
      } else {
        result := result + [c];
        i := i + 1;
      }
      assert i == end || i > end == n;
      assert end == n ==> text[end..] == "";
    }
  }

  // ----- What stripping keeps -----------------------------------------------------------------

  function KeptOf(t: Token): seq<Token> {
    match t
    case Line => []
    case Block => [Plain(' ')]
    case _ => [t]
  }

  function Kept(tokens: seq<Token>): seq<Token> {
    if tokens == [] then [] else KeptOf(tokens[0]) + Kept(tokens[1..])
  }

  lemma KeptCons(t: Token, rest: seq<Token>)
    ensures Kept([t] + rest) == KeptOf(t) + Kept(rest)
  {
    assert ([t] + rest)[1..] == rest;
  }

  function Literals(tokens: seq<Token>): seq<string> {
    if tokens == [] then []
    else (if tokens[0].Literal? then [tokens[0].text] else []) + Literals(tokens[1..])
  }

  predicate HasComment(tokens: seq<Token>) {
    exists t <- tokens :: t.Block? || t.Line?
  }

  /** A terminated literal ends where it ends whatever follows it. */
  lemma {:induction false} LiteralEndStays(text: string, q: char, i: nat, end: nat, rest: string)
    requires i <= |text| && end == LiteralEnd(text, q, i) && (end < |text| || rest == "")
    requires q != '\\'
    ensures LiteralEnd(text[..end] + rest, q, i) == end
    decreases |text| - i
  {
    var copy := text[..end] + rest;
    if end == |text| {
      assert copy == text;
    } else {
      assert i < end by {
        assert i < |text|;
      }
      assert copy[i] == text[i];
      if text[i] == '\\' && i + 1 < |text| {
        LiteralEndStays(text, q, i + 2, end, rest);
      } else if text[i] != q {
        LiteralEndStays(text, q, i + 1, end, rest);
      }
    }
  }

  /** Unless a comment comes first, stripping keeps the first character. */
  lemma StripKeepsHead(text: string)
    requires text != "" && !Starts(text, '/', '/') && !Starts(text, '/', '*')
    ensures Strip(text) != "" && Strip(text)[0] == text[0]
  {}

  /** The token left of the first one is the first token of the stripped text. */
  lemma FirstOfStrip(text: string)
    requires text != "" && !FirstToken(text).Line?
    ensures var kept, rest := Render(FirstToken(text)), Strip(text[FirstEnd(text)..]);
            && kept != "" && FirstEnd(kept + rest) == |kept|
            && [FirstToken(kept + rest)] == KeptOf(FirstToken(text))
  {
    var n := FirstEnd(text);
    var kept, rest := Render(FirstToken(text)), Strip(text[n..]);
    assert (kept + rest)[0] == kept[0];
    if IsQuote(text[0]) {
      LiteralEndStays(text, text[0], 1, n, rest);
      assert (kept + rest)[..n] == kept;
    } else if FirstToken(text).Plain? && text[0] == '/' && text[1..] != "" {
      StripKeepsHead(text[1..]);
      assert (kept + rest)[1] == rest[0];
    }
  }

  /** The tokens of the stripped text are the tokens that stripping keeps, literals included. */
  lemma {:induction false} LexOfStrip(text: string)
    ensures Lex(Strip(text)) == Kept(Lex(text))
    decreases |text|
  {
    hide FirstToken, FirstEnd, Render, Kept, KeptOf;
    if text == "" {
      assert Kept([]) == [] by { KeptNothing(); }
    } else {
      var t, tail := FirstToken(text), text[FirstEnd(text)..];
      LexOfStrip(tail);
      KeptCons(t, Lex(tail));
      LeavesToken(text);
      if t.Line? {
        assert Strip(text) == "" + Strip(tail) == Strip(tail);
        assert [] + Kept(Lex(tail)) == Kept(Lex(tail));
      } else {
        assert (Render(t) + Strip(tail))[|Render(t)|..] == Strip(tail);
      }
    }
  }

  lemma KeptNothing()
    ensures Kept([]) == []
  {}

  lemma LeavesToken(text: string)
    requires text != ""
    ensures var t := FirstToken(text);
            if t.Line? then Render(t) == "" && KeptOf(t) == []
            else
              var rest := Strip(text[FirstEnd(text)..]);
              Render(t) != "" && FirstEnd(Render(t) + rest) == |Render(t)|
              && KeptOf(t) == [FirstToken(Render(t) + rest)]
  {
    hide FirstEnd, FirstToken, Strip;
    if !FirstToken(text).Line? {
      FirstOfStrip(text);
    }
  }

  lemma {:induction false} KeptHasNoComment(tokens: seq<Token>)
    ensures !HasComment(Kept(tokens))
  {
    if tokens != [] {
      KeptHasNoComment(tokens[1..]);
      forall t | t in Kept(tokens) ensures !t.Block? && !t.Line? {
        assert t in KeptOf(tokens[0]) || t in Kept(tokens[1..]);
      }
    }
  }

  lemma {:induction false} KeptHasSameLiterals(tokens: seq<Token>)
    ensures Literals(Kept(tokens)) == Literals(tokens)
  {
    if tokens != [] {
      var rest := Kept(tokens[1..]);
      KeptHasSameLiterals(tokens[1..]);
      if tokens[0].Line? {
        assert Kept(tokens) == rest;
      } else {
        var head := KeptOf(tokens[0])[0];
        assert ([head] + rest)[1..] == rest;
        assert head.Literal? <==> tokens[0].Literal?;
      }
    }
  }

  lemma {:induction false} StripIsRendered(text: string)
    ensures Strip(text) == Flatten(Rendered(Lex(text)))
    decreases |text|
  {
    hide FirstToken, FirstEnd, Render;
    if text != "" {
      var tail := text[FirstEnd(text)..];
      StripIsRendered(tail);
      var tokens := [FirstToken(text)] + Lex(tail);
      assert tokens[1..] == Lex(tail);
      assert Rendered(tokens)[1..] == Rendered(Lex(tail));
    }
  }

  function Rendered(tokens: seq<Token>): (r: seq<string>)
    ensures |r| == |tokens|
  {
    seq(|tokens|, k requires 0 <= k < |tokens| => Render(tokens[k]))
  }

  lemma RenderedCons(t: Token, rest: seq<Token>)
    ensures Flatten(Rendered([t] + rest)) == Render(t) + Flatten(Rendered(rest))
  {
    assert Rendered([t] + rest)[1..] == Rendered(rest);
  }

  lemma {:induction false} KeptRendersAlike(tokens: seq<Token>)
    ensures Flatten(Rendered(Kept(tokens))) == Flatten(Rendered(tokens))
  {
    hide Rendered, Flatten, Kept;
    if tokens == [] {
      KeptNothing();
    } else {
      var t, rest := tokens[0], tokens[1..];
      assert tokens == [t] + rest;
      KeptRendersAlike(rest);
      KeptCons(t, rest);
      RenderedCons(t, rest);
      if t.Line? {
        assert [] + Kept(rest) == Kept(rest);
        assert "" + Flatten(Rendered(rest)) == Flatten(Rendered(rest));
      } else {
        RenderedCons(KeptOf(t)[0], Kept(rest));
      }
    }
  }

  /**
   For every text: what is stripped holds no comment, has the same string literals in the same
   order, and stripping again changes nothing.
   */
  lemma StripIsClean(text: string)
    ensures !HasComment(Lex(Strip(text)))
    ensures Literals(Lex(Strip(text))) == Literals(Lex(text))
    ensures Strip(Strip(text)) == Strip(text)
  {
    hide Strip, Lex, HasComment, Literals, Kept, Rendered;
    LexOfStrip(text);
    KeptHasNoComment(Lex(text));
    KeptHasSameLiterals(Lex(text));
    StripIsRendered(Strip(text));
    StripIsRendered(text);
    KeptRendersAlike(Lex(text));
  }

  // ----- What each construct becomes ------------------------------------------------------------

  lemma StripOf(first: string, rest: string)
    requires first != "" && FirstEnd(first + rest) == |first|
    ensures Strip(first + rest) == Render(FirstToken(first + rest)) + Strip(rest)
  {
    hide FirstEnd, FirstToken, Render;
    assert (first + rest)[|first|..] == rest;
  }

  /** A line comment goes, and the newline that ends it stays. */
  lemma LineCommentGoes(x: string, y: string)
    requires '\n' !in x
    ensures Strip("//" + x + ("\n" + y)) == "\n" + Strip(y)
    ensures Strip("//" + x) == ""
  {
    hide LineEnd;
    var comment, rest := "//" + x, "\n" + y;
    LineEndIs(comment + rest, 2, |comment|);
    StripOf(comment, rest);
    assert "" + Strip(rest) == Strip(rest);
    StripOf("\n", y);
    assert comment + "" == comment;
    LineEndIs(comment, 2, |comment|);
    StripOf(comment, "");
  }

  lemma {:induction false} LineEndIs(text: string, i: nat, end: nat)
    requires i <= end <= |text| && (end == |text| || text[end] == '\n')
    requires forall k :: i <= k < end ==> text[k] != '\n'
    ensures LineEnd(text, i) == end
    decreases end - i
  {
    if i < end {
      LineEndIs(text, i + 1, end);
    }
  }

  /** The first place where `star slash` stands in the text is at `at`. */
  predicate FirstClose(text: string, at: nat) {
    && at + 1 < |text| && text[at] == '*' && text[at + 1] == '/'
    && forall k :: 0 <= k < at ==> !(text[k] == '*' && text[k + 1] == '/')
  }

  predicate NoClose(text: string) {
    forall k :: 0 <= k < |text| - 1 ==> !(text[k] == '*' && text[k + 1] == '/')
  }

  /** A block comment becomes a space, up to the first end mark after its beginning. */
  lemma BlockCommentGoes(x: string, y: string)
    requires FirstClose(x + "*/", |x|)
    ensures Strip("/*" + (x + "*/") + y) == " " + Strip(y)
  {
    hide BlockEnd;
    var inside := x + "*/";
    var comment := "/*" + inside;
    var text := comment + y;
    forall k | 2 <= k < |comment| - 2 ensures !(text[k] == '*' && text[k + 1] == '/') {
      assert text[k] == inside[k - 2] && text[k + 1] == inside[k - 1];
    }
    BlockEndIs(text, 2, |comment| - 2);
    StripOf(comment, y);
  }

  /** Without an end mark it reaches to the end of the text. */
  lemma OpenBlockCommentGoes(x: string)
    requires NoClose(x)
    ensures Strip("/*" + x) == " "
  {
    hide BlockEnd;
    var comment := "/*" + x;
    assert comment + "" == comment;
    forall k | 2 <= k < |comment| - 1 ensures !(comment[k] == '*' && comment[k + 1] == '/') {
      assert comment[k] == x[k - 2] && comment[k + 1] == x[k - 1];
    }
    BlockNeverEnds(comment, 2);
    StripOf(comment, "");
  }

  lemma {:induction false} BlockEndIs(text: string, i: nat, at: nat)
    requires i <= at && at + 1 < |text| && text[at] == '*' && text[at + 1] == '/'
    requires forall k :: i <= k < at ==> !(text[k] == '*' && text[k + 1] == '/')
    ensures BlockEnd(text, i) == at + 2
    decreases at - i
  {
    if i < at {
      BlockEndIs(text, i + 1, at);
    }
  }

  lemma {:induction false} BlockNeverEnds(text: string, i: nat)
    requires i <= |text|
    requires forall k :: i <= k < |text| - 1 ==> !(text[k] == '*' && text[k + 1] == '/')
    ensures BlockEnd(text, i) == |text|
    decreases |text| - i
  {
    if i + 1 < |text| {
      BlockNeverEnds(text, i + 1);
    }
  }

  /** The inside of a literal: other characters, and escapes of any character, its quote included. */
  predicate Inside(pieces: seq<string>, q: char) {
    forall p <- pieces :: (|p| == 1 && p[0] != q && p[0] != '\\') || (|p| == 2 && p[0] == '\\')
  }

  predicate Quote(q: char) {
    q in "\"'`"
  }

  /** A closed literal stays as it is, and what follows it is stripped on its own. */
  lemma ClosedLiteralStays(q: char, pieces: seq<string>, y: string)
    requires Quote(q) && Inside(pieces, q)
    ensures var literal := [q] + Flatten(pieces) + [q]; Strip(literal + y) == literal + Strip(y)
  {
    hide LiteralEnd;
    var literal := [q] + Flatten(pieces) + [q];
    var text := literal + y;
    assert text == [q] + (Flatten(pieces) + ([q] + y));
    LiteralEndIs([q], q, pieces, [q] + y);
    assert ([q] + y)[0] == q;
    StripOf(literal, y);
    assert text[..|literal|] == literal;
  }

  lemma {:induction false} LiteralEndIs(front: string, q: char, pieces: seq<string>, rest: string)
    requires Inside(pieces, q) && rest != "" && rest[0] == q && q != '\\'
    ensures LiteralEnd(front + (Flatten(pieces) + rest), q, |front|) == |front| + |Flatten(pieces)| + 1
    decreases |pieces|
  {
    var text := front + (Flatten(pieces) + rest);
    if pieces == [] {
      assert Flatten(pieces) + rest == rest && text[|front|] == rest[0];
    } else {
      var p, tail := pieces[0], Flatten(pieces[1..]) + rest;
      assert p in pieces && forall other <- pieces[1..] :: other in pieces;
      ConcatAssociates(p, Flatten(pieces[1..]), rest);
      ConcatAssociates(front, p, tail);
      assert text == (front + p) + tail && text[|front|] == p[0];
      LiteralEndIs(front + p, q, pieces[1..], rest);
    }
  }

  /** Every other character stays, unless it begins a comment. */
  lemma PlainCharacterStays(c: char, y: string)
    requires !Quote(c) && !(c == '/' && y != "" && (y[0] == '/' || y[0] == '*'))
    ensures Strip([c] + y) == [c] + Strip(y)
  {
    StripOf([c], y);
  }

  // ----- balanced_extract ---------------------------------------------------------------------

  /** Bracket depth, the quote of the literal the scan is inside of, and a pending escape. */
  datatype Scan = Scan(depth: int, quote: Option<char>, escaped: bool)

  function Read(s: Scan, c: char, open: char, close: char): Scan {
    if s.escaped then s.(escaped := false)
    else if s.quote.Some? then
      if c == '\\' then s.(escaped := true) else if s.quote == Some(c) then s.(quote := None) else s
    else if IsQuote(c) then s.(quote := Some(c))
    else if c == open then s.(depth := s.depth + 1)
    else if c == close then s.(depth := s.depth - 1)
    else s
  }

  function Scanned(text: string, open: char, close: char): Scan {
    if text == "" then Scan(0, None, false)
    else Read(Scanned(text[..|text| - 1], open, close), text[|text| - 1], open, close)
  }

  /** The text ends with the bracket that brings the depth back to 0. */
  predicate Balanced(text: string, open: char, close: char) {
    text != "" &&
    var s := Scanned(text[..|text| - 1], open, close);
    s.depth == 1 && Scanned(text, open, close) == Scan(0, None, false)
  }

  ghost predicate NoneBalanced(text: string, start: nat, end: nat, open: char, close: char)
    requires end <= |text|
  {
    forall k | start <= k <= end :: !Balanced(text[start..k], open, close)
  }

  /** `r` is the shortest balanced slice from `start`; there is none exactly when `r` is None. */
  ghost predicate IsExtract(text: string, start: nat, open: char, close: char, r: Option<string>) {
    if start >= |text| || text[start] != open then r == None
    else match r
      case None => NoneBalanced(text, start, |text|, open, close)
      case Some(s) =>
        && s != "" && start + |s| <= |text| && s == text[start..start + |s|] && Balanced(s, open, close)
        && NoneBalanced(text, start, start + |s| - 1, open, close)
  }

  method BalancedExtract(text: string, start: nat, open: char, close: char) returns (r: Option<string>)
    ensures IsExtract(text, start, open, close, r)
  {
    if start >= |text| || text[start] != open {
      return None;
    }
    hide Balanced, Scanned, NoneBalanced;
    var depth, inStr, strChar, i := 0, false, '\0', start;
    ScannedNothing(text, start, open, close);
    while i < |text|
      invariant start <= i
      invariant NoneBalanced(text, start, if i <= |text| then i else |text|, open, close)
      invariant i <= |text| ==>
                  Scanned(text[start..i], open, close) == Scan(depth, if inStr then Some(strChar) else None, false)
      decreases |text| - i
    {
      var c := text[i];
      ScannedNext(text, start, i, open, close);
      if inStr {
        if c == '\\' {
          if i + 1 < |text| {
            ScannedNext(text, start, i + 1, open, close);
          }
          i := i + 2;
          continue;
        }
        if c == strChar {
          inStr := false;
        }
      } else if IsQuote(c) {
        inStr := true;
        strChar := c;
      } else if c == open {
        depth := depth + 1;
      } else if c == close {
        depth := depth - 1;
        if depth == 0 {
          return Some(text[start..i + 1]);
        }
      }
      i := i + 1;
    }
    return None;
  }

  lemma ScannedNothing(text: string, start: nat, open: char, close: char)
    requires start <= |text|
    ensures Scanned(text[start..start], open, close) == Scan(0, None, false)
    ensures NoneBalanced(text, start, start, open, close)
  {}

  lemma ScannedNext(text: string, start: nat, i: nat, open: char, close: char)
    requires start <= i < |text|
    ensures Scanned(text[start..i + 1], open, close) == Read(Scanned(text[start..i], open, close), text[i], open, close)
    ensures Balanced(text[start..i + 1], open, close) <==>
            Scanned(text[start..i], open, close).depth == 1
            && Scanned(text[start..i + 1], open, close) == Scan(0, None, false)
    ensures NoneBalanced(text, start, i, open, close) && !Balanced(text[start..i + 1], open, close) ==>
              NoneBalanced(text, start, i + 1, open, close)
  {
    assert text[start..i + 1][..i - start] == text[start..i];
  }

  /** An extracted slice is its own extraction at index 0, and no proper prefix of it is balanced. */
  lemma ExtractOfExtract(text: string, start: nat, open: char, close: char, s: string)
    requires IsExtract(text, start, open, close, Some(s))
    ensures IsExtract(s, 0, open, close, Some(s))
    ensures forall k | 0 <= k < |s| :: !Balanced(s[..k], open, close)
  {
    assert s[0] == open;
    forall k | 0 <= k < |s| ensures !Balanced(s[0..k], open, close) && !Balanced(s[..k], open, close) {
      assert s[0..k] == s[..k] == text[start..start + k];
    }
  }

  /** Inside an extracted slice the depth is positive: its last bracket closes its first. */
  lemma {:induction false} DepthInside(s: string, open: char, close: char, k: nat)
    requires IsExtract(s, 0, open, close, Some(s)) && !IsQuote(open) && 0 < k < |s|
    ensures Scanned(s[..k], open, close).depth > 0
  {
    if k == 1 {
      assert s[..1][..0] == "";
    } else {
      DepthInside(s, open, close, k - 1);
      assert s[..k][..k - 1] == s[..k - 1];
      assert s[0..k] == s[..k];
      assert !Balanced(s[0..k], open, close);
      QuietWhenZero(Scanned(s[..k - 1], open, close), s[k - 1], open, close);
    }
  }

  /** A step that takes the depth from 1 to 0 is not inside a literal. */
  lemma QuietWhenZero(before: Scan, c: char, open: char, close: char)
    ensures Read(before, c, open, close).depth >= before.depth - 1
    ensures before.depth == 1 && Read(before, c, open, close).depth == 0 ==>
              Read(before, c, open, close) == Scan(0, before.quote, before.escaped)
              && before.quote == None && !before.escaped
  {}

  /** A closed literal outside of others leaves the scan as it was, whatever brackets it holds. */
  lemma QuotedBracketsDoNotCount(before: string, q: char, pieces: seq<string>, open: char, close: char)
    requires Quote(q) && Inside(pieces, q)
    requires Scanned(before, open, close).quote == None && !Scanned(before, open, close).escaped
    ensures Scanned(before + ([q] + Flatten(pieces) + [q]), open, close) == Scanned(before, open, close)
  {
    hide Scanned;
    var s := Scanned(before, open, close);
    var entered, inside := before + [q], before + [q] + Flatten(pieces);
    ScannedSnoc(before, q, open, close);
    assert Scanned(entered, open, close) == Scan(s.depth, Some(q), false);
    ScannedInside(entered, q, pieces, open, close);
    ScannedSnoc(inside, q, open, close);
    assert before + ([q] + Flatten(pieces) + [q]) == inside + [q];
  }

  lemma ScannedSnoc(text: string, c: char, open: char, close: char)
    ensures Scanned(text + [c], open, close) == Read(Scanned(text, open, close), c, open, close)
  {
    assert (text + [c])[..|text|] == text;
  }

  lemma {:induction false} ScannedInside(text: string, q: char, pieces: seq<string>, open: char, close: char)
    requires Quote(q) && Inside(pieces, q)
    requires Scanned(text, open, close).quote == Some(q) && !Scanned(text, open, close).escaped
    ensures Scanned(text + Flatten(pieces), open, close) == Scanned(text, open, close)
    decreases |pieces|
  {
    hide Scanned;
    if pieces == [] {
      assert text + Flatten(pieces) == text;
    } else {
      var p := pieces[0];
      assert p in pieces && forall other <- pieces[1..] :: other in pieces;
      ScannedSnoc(text, p[0], open, close);
      if |p| == 2 {
        ScannedSnoc(text + [p[0]], p[1], open, close);
        assert text + [p[0]] + [p[1]] == text + p;
      } else {
        assert text + [p[0]] == text + p;
      }
      ScannedInside(text + p, q, pieces[1..], open, close);
      ConcatAssociates(text, p, Flatten(pieces[1..]));
    }
  }

  /** Outside of literals an opening bracket adds one to the depth and a closing one takes one away. */
  lemma BracketsCount(before: string, c: char, open: char, close: char)
    requires !Quote(c) && open != close
    requires Scanned(before, open, close).quote == None && !Scanned(before, open, close).escaped
    ensures var (s, after) := (Scanned(before, open, close), Scanned(before + [c], open, close));
            && after.quote == None && !after.escaped
            && after.depth == s.depth + if c == open then 1 else if c == close then -1 else 0
  {
    hide Scanned;
    ScannedSnoc(before, c, open, close);
  }
}
