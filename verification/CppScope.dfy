/** The C++ scope lexer: blanks comments and literals, measures brace depth, and finds the end of a namespace block. */
module CppScope {
  import opened Wrappers

  datatype Mode = Code | LineComment | BlockComment | Literal(quote: char)

  function Blank(c: char): char {
    if c == '\n' then '\n' else ' '
  }

  predicate IsQuote(c: char) {
    c == '"' || c == '\''
  }

  function Prepend(prefix: string, r: Result<string>): Result<string> {
    if r.Failure? then Failure else Success(prefix + r.value)
  }

  /** The rest of the source in a lexer mode; an open comment or literal at the end, or a raw literal, is refused. */
  function Lex(mode: Mode, s: string): Result<string>
    decreases |s|
  {
    if s == [] then
      if mode == Code || mode == LineComment then Success("") else Failure
    else
      var c, two := s[0], |s| > 1;
      match mode
      case Code =>
        if two && c == '/' && s[1] == '/' then Prepend("  ", Lex(LineComment, s[2..]))
        else if two && c == '/' && s[1] == '*' then Prepend("  ", Lex(BlockComment, s[2..]))
        else if two && c == 'R' && s[1] == '"' then Failure
        else if IsQuote(c) then Prepend(" ", Lex(Literal(c), s[1..]))
        else Prepend([c], Lex(Code, s[1..]))
      case LineComment => Prepend([Blank(c)], Lex(if c == '\n' then Code else LineComment, s[1..]))
      case BlockComment =>
        if two && c == '*' && s[1] == '/' then Prepend("  ", Lex(Code, s[2..]))
        else Prepend([Blank(c)], Lex(BlockComment, s[1..]))
      case Literal(quote) =>
        if two && c == '\\' then Prepend([' ', Blank(s[1])], Lex(mode, s[2..]))
        else if c == quote then Prepend(" ", Lex(Code, s[1..]))
        else Prepend([Blank(c)], Lex(mode, s[1..]))
  }

  /** Blanking only: every character stays or becomes a space, and newlines stay where they are. */
  predicate Blanked(s: string, r: string) {
    |r| == |s| && forall i | 0 <= i < |s| :: (r[i] == s[i] || r[i] == ' ') && (r[i] == '\n' <==> s[i] == '\n')
  }

  /** Nothing in the text can start a comment or a literal. */
  predicate Inert(r: string) {
    && (forall i | 0 <= i < |r| :: !IsQuote(r[i]))
    && (forall i | 0 <= i < |r| - 1 :: r[i] == '/' ==> r[i + 1] != '/' && r[i + 1] != '*')
  }

  lemma BlankedPrepend(a: string, pa: string, b: string, r: string)
    requires Blanked(a, pa) && Blanked(b, r)
    ensures Blanked(a + b, pa + r)
  {
  }

  lemma InertPrepend(prefix: string, r: string)
    requires Inert(r) && forall c <- prefix :: c == ' ' || c == '\n'
    ensures Inert(prefix + r)
  {
    var all := prefix + r;
    assert forall i | 0 <= i < |prefix| :: all[i] == prefix[i] && prefix[i] in prefix;
    forall i | 0 <= i < |all| - 1 && all[i] == '/' ensures all[i + 1] != '/' && all[i + 1] != '*' {
      assert r[i - |prefix|] == '/' && r[i - |prefix| + 1] == all[i + 1];
    }
  }

  lemma InertCode(c: char, r: string)
    requires Inert(r) && !IsQuote(c) && (c == '/' && r != [] ==> r[0] != '/' && r[0] != '*')
    ensures Inert([c] + r)
  {
    var all := [c] + r;
    forall i | 0 <= i < |all| - 1 && all[i] == '/' ensures all[i + 1] != '/' && all[i + 1] != '*' {
      assert all[i + 1] == r[i];
      assert i > 0 ==> r[i - 1] == '/';
    }
  }

  /** Opens a two-character comment start or end, or an escape. */
  predicate Double(mode: Mode, s: string) {
    |s| > 1
    && match mode
       case Code => s[0] == '/' && (s[1] == '/' || s[1] == '*')
       case LineComment => false
       case BlockComment => s[0] == '*' && s[1] == '/'
       case Literal(_) => s[0] == '\\'
  }

  /** Ordinary code, copied as it is. */
  predicate Kept(mode: Mode, s: string) {
    s != [] && mode == Code && !Double(mode, s) && !IsQuote(s[0])
  }

  function Written(mode: Mode, s: string): string
    requires s != []
  {
    if Kept(mode, s) then [s[0]]
    else if Double(mode, s) then [Blank(s[0]), Blank(s[1])]
    else [Blank(s[0])]
  }

  function Next(mode: Mode, s: string): Mode
    requires s != []
  {
    match mode
    case Code => if Double(mode, s) then (if s[1] == '/' then LineComment else BlockComment) else if IsQuote(s[0]) then Literal(s[0]) else Code
    case LineComment => if s[0] == '\n' then Code else LineComment
    case BlockComment => if Double(mode, s) then Code else BlockComment
    case Literal(quote) => if !Double(mode, s) && s[0] == quote then Code else mode
  }

  predicate IsLexerMode(mode: Mode) {
    mode.Literal? ==> IsQuote(mode.quote)
  }

  /** The lexer as one uniform step. */
  lemma {:induction false} LexStep(mode: Mode, s: string)
    requires s != [] && IsLexerMode(mode)
    ensures IsLexerMode(Next(mode, s))
    ensures Lex(mode, s) ==
      if Kept(mode, s) && |s| > 1 && s[0] == 'R' && s[1] == '"' then Failure
      else Prepend(Written(mode, s), Lex(Next(mode, s), s[|Written(mode, s)|..]))
  {
  }

  /** Sanitizing keeps length and newlines, blanks what it changes, and leaves nothing that could be lexed away again. */
  lemma {:induction false} LexBlanks(mode: Mode, s: string)
    requires IsLexerMode(mode)
    ensures var r := Lex(mode, s); r.Success? ==> Blanked(s, r.value) && Inert(r.value)
    decreases |s|
  {
    if s != [] {
      hide Lex;
      LexStep(mode, s);
      if Lex(mode, s).Success? {
        var written := Written(mode, s);
        var head, tail := s[..|written|], s[|written|..];
        LexBlanks(Next(mode, s), tail);
        var rest := Lex(Next(mode, s), tail).value;
        assert s == head + tail && Blanked(head, written);
        BlankedPrepend(head, written, tail, rest);
        if Kept(mode, s) {
          assert rest != [] ==> rest[0] == tail[0] || rest[0] == ' ';
          InertCode(s[0], rest);
        } else {
          InertPrepend(written, rest);
        }
      }
    }
  }

  /** Inert text passes through the lexer unchanged. */
  lemma {:induction false} InertPasses(r: string)
    requires Inert(r)
    ensures Lex(Code, r) == Success(r)
    decreases |r|
  {
    if r != [] {
      assert forall i | 0 <= i < |r| - 1 :: r[1..][i] == r[i + 1];
      InertPasses(r[1..]);
      assert [r[0]] + r[1..] == r;
    }
  }

  /** Sanitizing an accepted source again changes nothing. */
  lemma {:induction false} SanitizeIsIdempotent(source: string)
    ensures var r := Lex(Code, source); r.Success? ==> Lex(Code, r.value) == r
  {
    LexBlanks(Code, source);
    if Lex(Code, source).Success? {
      InertPasses(Lex(Code, source).value);
    }
  }

  lemma PrependTwice(a: string, b: string, r: Result<string>)
    ensures Prepend(a + b, r) == Prepend(a, Prepend(b, r))
  {
    if r.Success? {
      assert (a + b) + r.value == a + (b + r.value);
    }
  }

  // ---------------------------------------------------------------- what the source consists of

  /** `Line` and `Block` hold the text of a comment, `Quoted` that between the quotes. */
  datatype Token = Plain(c: char) | Line(text: string) | Block(text: string) | Quoted(quote: char, text: string)

  function Text(token: Token): string {
    match token
    case Plain(c) => [c]
    case Line(text) => "//" + text
    case Block(text) => "/*" + text + "*/"
    case Quoted(quote, text) => [quote] + text + [quote]
  }

  /** How many backslashes stand directly before position `i`. */
  function Backslashes(s: string, i: nat): nat
    requires i <= |s|
  {
    if i > 0 && s[i - 1] == '\\' then 1 + Backslashes(s, i - 1) else 0
  }

  predicate Escaped(s: string, i: nat)
    requires i <= |s|
  {
    Backslashes(s, i) % 2 == 1
  }

  predicate StartsWith(s: string, a: char, b: char) {
    |s| > 1 && s[0] == a && s[1] == b
  }

  /**
   * The token is one, given the text that follows it: a line comment ends before the first newline or at the end, a
   * block comment at the first end mark, a literal at the first quote of its kind that is not escaped; anything else
   * is a character that starts none of them, and no raw literal.
   */
  predicate IsToken(token: Token, after: string) {
    match token
    case Plain(c) =>
      c != '"' && c != '\''
      && !StartsWith([c] + after, '/', '/') && !StartsWith([c] + after, '/', '*') && !StartsWith([c] + after, 'R', '"')
    case Line(text) => '\n' !in text && (after != [] ==> after[0] == '\n')
    case Block(text) => forall i | 0 <= i < |text| :: !StartsWith((text + "*/")[i..], '*', '/')
    case Quoted(quote, text) =>
      && (quote == '"' || quote == '\'')
      && (forall i | 0 <= i < |text| && text[i] == quote :: Escaped(text, i))
      && !Escaped(text, |text|)
  }

  predicate Tokenised(s: string, tokens: seq<Token>)
    decreases |tokens|
  {
    if tokens == [] then s == []
    else
      var text := Text(tokens[0]);
      text <= s && IsToken(tokens[0], s[|text|..]) && Tokenised(s[|text|..], tokens[1..])
  }

  function Blanks(s: string): string {
    seq(|s|, i requires 0 <= i < |s| => if s[i] == '\n' then '\n' else ' ')
  }

  /** Code stays, character by character; comments and literals become blanks of the same shape. */
  function Rendered(tokens: seq<Token>): string {
    if tokens == [] then ""
    else (if tokens[0].Plain? then [tokens[0].c] else Blanks(Text(tokens[0]))) + Rendered(tokens[1..])
  }

  lemma BlanksAppend(a: string, b: string)
    ensures Blanks(a + b) == Blanks(a) + Blanks(b)
  {
  }

  lemma {:induction false} LineLexes(text: string, after: string)
    requires IsToken(Line(text), after)
    ensures Lex(LineComment, text + after) == Prepend(Blanks(text), Lex(Code, after))
    decreases |text|
  {
    if text == [] {
      assert text + after == after && Blanks(text) == "";
      PrependNothing(Lex(Code, after));
    } else {
      assert text[0] in text;
      assert (text + after)[1..] == text[1..] + after;
      LineLexes(text[1..], after);
      assert Blanks(text) == [' '] + Blanks(text[1..]);
      PrependTwice([' '], Blanks(text[1..]), Lex(Code, after));
    }
  }

  lemma {:induction false} BlockLexes(text: string, after: string)
    requires IsToken(Block(text), after)
    ensures Lex(BlockComment, text + "*/" + after) == Prepend(Blanks(text + "*/"), Lex(Code, after))
    decreases |text|
  {
    var all := text + "*/" + after;
    if text == [] {
      assert all == "*/" + after && all[2..] == after && Blanks(text + "*/") == "  ";
    } else {
      var rest := text[1..];
      assert all == [text[0]] + (rest + "*/" + after) && all[1..] == rest + "*/" + after;
      assert !StartsWith((text + "*/")[0..], '*', '/');
      assert all[1] == (text + "*/")[1];
      forall i | 0 <= i < |rest| ensures !StartsWith((rest + "*/")[i..], '*', '/') {
        assert (rest + "*/")[i..] == (text + "*/")[i + 1..];
      }
      BlockLexes(rest, after);
      assert Blanks(text + "*/") == [Blank(text[0])] + Blanks(rest + "*/");
      PrependTwice([Blank(text[0])], Blanks(rest + "*/"), Lex(Code, after));
    }
  }

  /** Dropping an unescaped start changes no escape behind it. */
  lemma {:induction false} BackslashesBehind(text: string, n: nat, i: nat)
    requires n <= i <= |text|
    requires (n == 1 && text[0] != '\\') || (n == 2 && text[0] == '\\')
    ensures Escaped(text[n..], i - n) <==> Escaped(text, i)
    decreases i
  {
    if i == n {
      assert Backslashes(text, 0) == 0;
      assert n == 2 ==> Backslashes(text, 1) == 1;
    } else {
      assert text[n..][i - n - 1] == text[i - 1];
      BackslashesBehind(text, n, i - 1);
    }
  }

  lemma FirstBackslash(text: string)
    requires text != []
    ensures Backslashes(text, 0) == 0 && Backslashes(text, 1) == if text[0] == '\\' then 1 else 0
  {
  }

  lemma {:induction false} QuotedLexes(quote: char, text: string, after: string)
    requires IsToken(Quoted(quote, text), after)
    ensures Lex(Literal(quote), text + [quote] + after) == Prepend(Blanks(text + [quote]), Lex(Code, after))
    decreases |text|
  {
    var all := text + [quote] + after;
    if text == [] {
      assert all == [quote] + after && all[1..] == after && Blanks(text + [quote]) == " ";
    } else {
      var n := if text[0] == '\\' then 2 else 1;
      FirstBackslash(text);
      assert all[0] == text[0] && (n == 2 ==> all[1] == text[1]);
      assert n == 2 ==> Blanks(text[..n]) == [' ', Blank(text[1])];
      assert n == 1 ==> Blanks(text[..n]) == [Blank(text[0])];
      var head, rest := text[..n], text[n..];
      assert text == head + rest;
      assert all[n..] == rest + [quote] + after;
      forall i | n <= i <= |text| ensures Escaped(rest, i - n) <==> Escaped(text, i) {
        BackslashesBehind(text, n, i);
      }
      forall i | 0 <= i < |rest| && rest[i] == quote ensures Escaped(rest, i) {
        assert text[i + n] == quote;
      }
      QuotedLexes(quote, rest, after);
      assert text + [quote] == head + (rest + [quote]);
      BlanksAppend(head, rest + [quote]);
      PrependTwice(Blanks(head), Blanks(rest + [quote]), Lex(Code, after));
    }
  }

  /** Any tokenisation gives what the lexer gives. */
  lemma {:induction false} TokensAreLexed(s: string, tokens: seq<Token>)
    requires Tokenised(s, tokens)
    ensures Lex(Code, s) == Success(Rendered(tokens))
    decreases |tokens|
  {
    if tokens != [] {
      var token, text := tokens[0], Text(tokens[0]);
      var after := s[|text|..];
      assert s == text + after;
      TokensAreLexed(after, tokens[1..]);
      TokenLexes(token, after);
    }
  }

  lemma {:induction false} TokenLexes(token: Token, after: string)
    requires IsToken(token, after)
    ensures Lex(Code, Text(token) + after)
      == Prepend(if token.Plain? then [token.c] else Blanks(Text(token)), Lex(Code, after))
  {
    hide Lex, IsToken, Blanks;
    match token
    case Plain(c) => PlainLexes(c, after);
    case Line(text) => LineTokenLexes(text, after);
    case Block(text) => BlockTokenLexes(text, after);
    case Quoted(quote, text) => QuotedTokenLexes(quote, text, after);
  }

  lemma {:induction false} PlainLexes(c: char, after: string)
    requires IsToken(Plain(c), after)
    ensures Lex(Code, [c] + after) == Prepend([c], Lex(Code, after))
  {
    assert ([c] + after)[1..] == after;
  }

  lemma {:induction false} LineTokenLexes(text: string, after: string)
    requires IsToken(Line(text), after)
    ensures Lex(Code, Text(Line(text)) + after) == Prepend(Blanks(Text(Line(text))), Lex(Code, after))
  {
    hide IsToken;
    assert (Text(Line(text)) + after)[2..] == text + after;
    LineLexes(text, after);
    BlanksAppend("//", text);
    PrependTwice("  ", Blanks(text), Lex(Code, after));
    assert Blanks("//") == "  ";
  }

  lemma {:induction false} BlockTokenLexes(text: string, after: string)
    requires IsToken(Block(text), after)
    ensures Lex(Code, Text(Block(text)) + after) == Prepend(Blanks(Text(Block(text))), Lex(Code, after))
  {
    hide IsToken;
    assert (Text(Block(text)) + after)[2..] == text + "*/" + after && Text(Block(text)) == "/*" + (text + "*/");
    BlockLexes(text, after);
    BlanksAppend("/*", text + "*/");
    PrependTwice("  ", Blanks(text + "*/"), Lex(Code, after));
    assert Blanks("/*") == "  ";
  }

  lemma {:induction false} QuotedTokenLexes(quote: char, text: string, after: string)
    requires IsToken(Quoted(quote, text), after)
    ensures Lex(Code, Text(Quoted(quote, text)) + after) == Prepend(Blanks(Text(Quoted(quote, text))), Lex(Code, after))
  {
    var token := Quoted(quote, text);
    assert IsQuote(quote);
    hide IsToken;
    assert (Text(token) + after)[1..] == text + [quote] + after && Text(token) == [quote] + (text + [quote]);
    QuotedLexes(quote, text, after);
    BlanksAppend([quote], text + [quote]);
    PrependTwice(" ", Blanks(text + [quote]), Lex(Code, after));
    assert Blanks([quote]) == " ";
  }

  lemma {:induction false} LineEnds(s: string) returns (text: string, after: string)
    requires Lex(LineComment, s).Success?
    ensures s == text + after && IsToken(Line(text), after) && Lex(Code, after).Success?
    decreases |s|
  {
    if s == [] || s[0] == '\n' {
      text, after := "", s;
    } else {
      text, after := LineEnds(s[1..]);
      text := [s[0]] + text;
    }
  }

  lemma {:induction false} BlockEnds(s: string) returns (text: string, after: string)
    requires Lex(BlockComment, s).Success?
    ensures s == text + "*/" + after && IsToken(Block(text), after) && Lex(Code, after).Success?
    decreases |s|
  {
    if StartsWith(s, '*', '/') {
      text, after := "", s[2..];
    } else {
      var rest;
      rest, after := BlockEnds(s[1..]);
      text := [s[0]] + rest;
      var marked := text + "*/";
      assert s == marked + after;
      forall i | 0 <= i < |text| ensures !StartsWith(marked[i..], '*', '/') {
        if i == 0 {
          assert marked[0] == s[0] && marked[1] == s[1];
        } else {
          assert marked[i..] == (rest + "*/")[i - 1..];
        }
      }
    }
  }

  lemma {:induction false} QuotedEnds(quote: char, s: string) returns (text: string, after: string)
    requires IsQuote(quote) && Lex(Literal(quote), s).Success?
    ensures s == text + [quote] + after && IsToken(Quoted(quote, text), after) && Lex(Code, after).Success?
    decreases |s|
  {
    if s[0] == quote {
      text, after := "", s[1..];
    } else {
      var n := if s[0] == '\\' then 2 else 1;
      var rest;
      assert |s| >= n;
      rest, after := QuotedEnds(quote, s[n..]);
      text := s[..n] + rest;
      assert text[n..] == rest;
      forall i | n <= i <= |text| ensures Escaped(rest, i - n) <==> Escaped(text, i) {
        BackslashesBehind(text, n, i);
      }
      assert Backslashes(text, 0) == 0 && (n == 2 ==> Backslashes(text, 1) == 1);
    }
  }

  /** Whatever the lexer accepts consists of tokens. */
  lemma {:induction false} LexedHasTokens(s: string) returns (tokens: seq<Token>)
    requires Lex(Code, s).Success?
    ensures Tokenised(s, tokens)
    decreases |s|
  {
    if s == [] {
      tokens := [];
    } else {
      var token, after := FirstToken(s);
      var rest := LexedHasTokens(after);
      tokens := [token] + rest;
      assert s[|Text(token)|..] == after;
    }
  }

  lemma FirstToken(s: string) returns (token: Token, after: string)
    requires s != [] && Lex(Code, s).Success?
    ensures s == Text(token) + after && IsToken(token, after) && Lex(Code, after).Success?
    ensures |after| < |s|
  {
    if StartsWith(s, '/', '/') {
      var text;
      text, after := LineEnds(s[2..]);
      token := Line(text);
    } else if StartsWith(s, '/', '*') {
      var text;
      text, after := BlockEnds(s[2..]);
      token := Block(text);
    } else if IsQuote(s[0]) {
      var text;
      text, after := QuotedEnds(s[0], s[1..]);
      token := Quoted(s[0], text);
    } else {
      token, after := Plain(s[0]), s[1..];
      assert s == [s[0]] + after;
    }
  }

  /** Sanitizing succeeds exactly on a source that consists of tokens, and gives its code with everything else blanked. */
  lemma {:induction false} SanitizeMeans(source: string)
    ensures Lex(Code, source).Success? <==> exists tokens :: Tokenised(source, tokens)
    ensures forall tokens | Tokenised(source, tokens) :: Lex(Code, source) == Success(Rendered(tokens))
  {
    hide Lex, Tokenised, Rendered;
    forall tokens | Tokenised(source, tokens) ensures Lex(Code, source) == Success(Rendered(tokens)) {
      TokensAreLexed(source, tokens);
    }
    if Lex(Code, source).Success? {
      var found := LexedHasTokens(source);
      assert Tokenised(source, found);
      assert exists tokens :: Tokenised(source, tokens);
    }
  }

  /** The lexer loop: an index, a state and a growing output. */
  method Sanitize(source: string) returns (r: Result<string>)
    ensures r == Lex(Code, source)
    ensures r.Success? ==> Blanked(source, r.value) && Inert(r.value)
    ensures r.Success? <==> exists tokens :: Tokenised(source, tokens)
    ensures forall tokens | Tokenised(source, tokens) :: r == Success(Rendered(tokens))
  {
    LexBlanks(Code, source);
    SanitizeMeans(source);
    var sanitized, index: nat, mode := "", 0, Code;
    assert source[0..] == source;
    PrependNothing(Lex(Code, source));
    while index < |source|
      invariant index <= |source|
      invariant Lex(Code, source) == Prepend(sanitized, Lex(mode, source[index..]))
      decreases |source| - index
    {
      var rest := source[index..];
      var current := source[index];
      var two := index + 1 < |source|;
      assert |rest| > 1 <==> two;
      assert rest[1..] == source[index + 1..];
      assert two ==> rest[2..] == source[index + 2..];
      var written, next := [Blank(current)], mode;
      if mode == Code {
        if two && current == '/' && source[index + 1] == '/' {
          written, next := "  ", LineComment;
        } else if two && current == '/' && source[index + 1] == '*' {
          written, next := "  ", BlockComment;
        } else if two && current == 'R' && source[index + 1] == '"' {
          return Failure;
        } else if IsQuote(current) {
          written, next := " ", Literal(current);
        } else {
          written := [current];
        }
      } else if mode == LineComment {
        if current == '\n' {
          next := Code;
        }
      } else if mode == BlockComment {
        if two && current == '*' && source[index + 1] == '/' {
          written, next := "  ", Code;
        }
      } else if two && current == '\\' {
        written := [' ', Blank(source[index + 1])];
      } else if current == mode.quote {
        written, next := " ", Code;
      }
      PrependTwice(sanitized, written, Lex(next, source[index + |written|..]));
      sanitized := sanitized + written;
      index := index + |written|;
      mode := next;
    }
    assert source[index..] == [];
    assert sanitized + "" == sanitized;
    if mode != Code && mode != LineComment {
      return Failure;
    }
    return Success(sanitized);
  }

  lemma PrependNothing(r: Result<string>)
    ensures Prepend("", r) == r
  {
    if r.Success? {
      assert "" + r.value == r.value;
    }
  }

  // ---------------------------------------------------------------- brace depth

  function Count(s: string, c: char): nat {
    if s == [] then 0 else Count(s[..|s| - 1], c) + (if s[|s| - 1] == c then 1 else 0)
  }

  /** Opening minus closing braces before position `i`. */
  function Depth(s: string, i: nat): int
    requires i <= |s|
  {
    Count(s[..i], '{') - Count(s[..i], '}')
  }

  predicate Balanced(s: string) {
    (forall i | 0 <= i <= |s| :: Depth(s, i) >= 0) && Depth(s, |s|) == 0
  }

  lemma DepthStep(s: string, i: nat)
    requires i < |s|
    ensures Depth(s, 0) == 0
    ensures Depth(s, i + 1) == Depth(s, i) + (if s[i] == '{' then 1 else if s[i] == '}' then -1 else 0)
  {
    assert s[..i + 1] == s[..i] + [s[i]];
    assert s[..i + 1][..i] == s[..i];
  }

  /** Accepts exactly the balanced sources, and gives the depth at every position and at the end. */
  method BraceDepths(s: string) returns (r: Result<seq<int>>)
    ensures r.Success? <==> Balanced(s)
    ensures r.Success? ==> |r.value| == |s| + 1 && forall i | 0 <= i <= |s| :: r.value[i] == Depth(s, i)
  {
    hide Depth;
    var depths, depth := [], 0;
    StartsAtZero(s);
    for i := 0 to |s|
      invariant |depths| == i && depth == Depth(s, i) >= 0
      invariant forall j | 0 <= j < i :: depths[j] == Depth(s, j) >= 0
    {
      DepthStep(s, i);
      depths := depths + [depth];
      if s[i] == '{' {
        depth := depth + 1;
      } else if s[i] == '}' {
        depth := depth - 1;
        if depth < 0 {
          return Failure;
        }
      }
    }
    if depth != 0 {
      return Failure;
    }
    depths := depths + [depth];
    return Success(depths);
  }

  lemma StartsAtZero(s: string)
    ensures Depth(s, 0) == 0
  {
  }

  lemma {:induction false} DepthWithin(s: string, a: nat, b: nat, j: nat)
    requires a <= b <= |s| && j <= b - a
    ensures Depth(s[a..b], j) == Depth(s, a + j) - Depth(s, a)
    decreases j
  {
    hide Depth;
    StartsAtZero(s[a..b]);
    if j > 0 {
      DepthWithin(s, a, b, j - 1);
      DepthStep(s[a..b], j - 1);
      DepthStep(s, a + j - 1);
      assert s[a..b][j - 1] == s[a + j - 1];
    }
  }

  /** `closing` is the brace that matches `opening`: exactly a balanced text lies between them. */
  predicate Pair(s: string, opening: nat, closing: nat) {
    opening < closing < |s| && s[opening] == '{' && s[closing] == '}' && Balanced(s[opening + 1..closing])
  }

  /** Between the opening brace of a block and a position, text is balanced exactly when depth came back to the block's own. */
  lemma BalancedWithin(s: string, opening: nat, p: nat)
    requires opening < p <= |s| && s[opening] == '{'
    ensures Balanced(s[opening + 1..p]) <==>
      Depth(s, p) == Depth(s, opening) + 1 && forall k | opening < k <= p :: Depth(s, k) >= Depth(s, opening) + 1
  {
    hide Depth;
    DepthStep(s, opening);
    var inner := s[opening + 1..p];
    forall j | 0 <= j <= |inner| ensures Depth(inner, j) == Depth(s, opening + 1 + j) - Depth(s, opening + 1) {
      DepthWithin(s, opening + 1, p, j);
    }
    if Balanced(inner) {
      forall k | opening < k <= p ensures Depth(s, k) >= Depth(s, opening) + 1 {
        assert Depth(inner, k - opening - 1) >= 0;
      }
    }
  }

  /** A brace has at most one match. */
  lemma MatchIsUnique(s: string, opening: nat, a: nat, b: nat)
    requires Pair(s, opening, a) && Pair(s, opening, b)
    ensures a == b
  {
    hide Depth;
    BalancedWithin(s, opening, a);
    BalancedWithin(s, opening, b);
    DepthStep(s, a);
    DepthStep(s, b);
  }

  /**
   * The search for the end of a top-level block: the first closing brace at depth one. It always finds one, and it
   * is the match of the opening brace.
   */
  method FindClosing(s: string, depths: seq<int>, opening: nat) returns (closing: nat)
    requires Balanced(s) && |depths| == |s| + 1 && forall i | 0 <= i <= |s| :: depths[i] == Depth(s, i)
    requires opening < |s| && s[opening] == '{' && depths[opening] == 0
    ensures Pair(s, opening, closing)
  {
    hide Depth;
    DepthStep(s, opening);
    closing := opening + 1;
    while closing < |s| && !(s[closing] == '}' && depths[closing] == 1)
      invariant opening < closing <= |s|
      invariant forall k | opening < k <= closing :: Depth(s, k) >= 1
    {
      DepthStep(s, closing);
      closing := closing + 1;
    }
    assert closing < |s|;
    BalancedWithin(s, opening, closing);
  }

  /** A position of a top-level block lies directly in it, at depth one, exactly when every brace before it in the block is matched. */
  lemma DirectlyInside(s: string, opening: nat, closing: nat, p: nat)
    requires Balanced(s) && Pair(s, opening, closing) && Depth(s, opening) == 0 && opening < p <= closing
    ensures Depth(s, p) == 1 <==> Balanced(s[opening + 1..p])
  {
    hide Depth;
    BalancedWithin(s, opening, closing);
    BalancedWithin(s, opening, p);
  }
}
