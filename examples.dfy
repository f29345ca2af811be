/** Concrete runs of the tokenizer on small inputs.  A run is written as the list
    of configurations the loop passes through; `TraceRun` turns such a list into
    a statement about `Run`, and the transition lemmas below justify each step
    from the bytes of the input alone. */
module Examples {
  import opened CharClass
  import opened Tokens
  import opened Scanner

  /** `cs` lists the configurations of consecutive loop iterations. */
  predicate IsTrace(contents: Chars, cs: seq<Config>)
  {
    forall i | 0 <= i < |cs| - 1 :: TokensExist(contents, cs[i]) && Step(contents, cs[i]) == cs[i + 1]
  }

  /** A trace that ends outside the loop is what the loop computes from its first
      configuration, given at least as many iterations as the trace has steps. */
  lemma {:induction false} TraceRun(contents: Chars, cs: seq<Config>, fuel: nat)
    requires |cs| > 0 && IsTrace(contents, cs) && !TokensExist(contents, cs[|cs| - 1])
    requires fuel >= |cs| - 1
    ensures Run(contents, cs[0], fuel) == cs[|cs| - 1]
    decreases |cs|
  {
    if |cs| > 1 {
      assert IsTrace(contents, cs[1..]);
      TraceRun(contents, cs[1..], fuel - 1);
    }
  }

  /** One iteration takes `c` to `d`. */
  predicate StepsTo(contents: Chars, c: Config, d: Config)
  {
    TokensExist(contents, c) && Step(contents, c) == d
  }

  /** Three consecutive iterations make a trace. */
  lemma Trace3(contents: Chars, cs: seq<Config>)
    requires |cs| == 4
    requires StepsTo(contents, cs[0], cs[1]) && StepsTo(contents, cs[1], cs[2])
    requires StepsTo(contents, cs[2], cs[3])
    ensures IsTrace(contents, cs)
  {
    forall i | 0 <= i < |cs| - 1
      ensures TokensExist(contents, cs[i]) && Step(contents, cs[i]) == cs[i + 1]
    {
      assert i == 0 || i == 1 || i == 2;
    }
  }

  /** Five consecutive iterations make a trace. */
  lemma Trace5(contents: Chars, cs: seq<Config>)
    requires |cs| == 6
    requires StepsTo(contents, cs[0], cs[1]) && StepsTo(contents, cs[1], cs[2])
    requires StepsTo(contents, cs[2], cs[3]) && StepsTo(contents, cs[3], cs[4])
    requires StepsTo(contents, cs[4], cs[5])
    ensures IsTrace(contents, cs)
  {
    forall i | 0 <= i < |cs| - 1
      ensures TokensExist(contents, cs[i]) && Step(contents, cs[i]) == cs[i + 1]
    {
      assert i == 0 || i == 1 || i == 2 || i == 3 || i == 4;
    }
  }

  // ---------------------------------------------------------------------------
  // One iteration, from the bytes of the input

  /** The byte at the cursor, or "" at the end. */
  lemma LookAheadIs(contents: Chars, c: Config)
    ensures c.currentChar < |contents| ==> LookAhead(contents, c) == [contents[c.currentChar]]
    ensures c.currentChar >= |contents| ==> LookAhead(contents, c) == []
  {
  }

  /** Start moves to the state of the class of the byte it consumes. */
  lemma StartOn(contents: Chars, c: Config, t: State)
    requires c.state == Start && c.currentChar < |contents|
    requires var b := contents[c.currentChar];
      || (t == State.Operator && b in OperatorBytes) || (t == State.Seperator && b in SeperatorBytes)
      || (t == State.Identifier && IsLetter(b)) || (t == State.Number && IsDigit(b))
      || (t == Start && b !in OperatorBytes && b !in SeperatorBytes && !IsLetter(b) && !IsDigit(b))
    ensures Step(contents, c) == Config(t, c.tokens, c.currentChar + 1, c.startChar)
  {
    OneByteOperator([contents[c.currentChar]]);
    OneByteSeperator([contents[c.currentChar]]);
    StartStep(contents, c);
  }

  /** Final starts a new window at the cursor. */
  lemma Restart(contents: Chars, c: Config)
    requires c.state == Final
    ensures Step(contents, c) == Config(Start, c.tokens, c.currentChar, c.currentChar)
  {
  }

  /** A building state advances over a byte of its class. */
  lemma Grow(contents: Chars, c: Config)
    requires c.currentChar < |contents|
    requires var b := contents[c.currentChar];
      || (c.state == State.Operator && b in OperatorBytes)
      || (c.state == State.Identifier && (IsLetter(b) || IsDigit(b)))
      || ((c.state == State.Number || c.state == State.Decimal) && IsDigit(b))
    ensures Step(contents, c) == Config(c.state, c.tokens, c.currentChar + 1, c.startChar)
  {
    LookAheadIs(contents, c);
    OneByteOperator([contents[c.currentChar]]);
  }

  /** A dot after the digits of a Number moves to Decimal and consumes it. */
  lemma Dot(contents: Chars, c: Config)
    requires c.state == State.Number && c.currentChar < |contents| && contents[c.currentChar] == '.'
    ensures Step(contents, c) == Config(State.Decimal, c.tokens, c.currentChar + 1, c.startChar)
  {
    LookAheadIs(contents, c);
  }

  /** The lookahead byte `b` would extend the window of state `s`. */
  predicate Extends(s: State, b: Byte)
  {
    match s
    case Operator => b in OperatorBytes
    case Identifier => IsLetter(b) || IsDigit(b)
    case Number => IsDigit(b) || b == '.'
    case Decimal => IsDigit(b)
    case _ => false
  }

  /** The lookahead cannot extend the window: it is the end of the input, or a
      byte that does not extend the state. */
  lemma StuckOn(contents: Chars, c: Config)
    requires c.currentChar < |contents| ==> !Extends(c.state, contents[c.currentChar])
    ensures CannotExtend(contents, c)
  {
    LookAheadIs(contents, c);
    EmptyInNoClass();
    if c.currentChar < |contents| {
      OneByteOperator([contents[c.currentChar]]);
    }
  }

  /** An Identifier whose whole window is a keyword and whose lookahead cannot
      extend it becomes a Keyword without consuming a byte. */
  lemma ToKeyword(contents: Chars, c: Config, w: Chars)
    requires c.startChar <= c.currentChar <= |contents| && w == contents[c.startChar..c.currentChar]
    requires c.state == State.Identifier && IsKeyword(w)
    requires c.currentChar < |contents| ==> !Extends(c.state, contents[c.currentChar])
    ensures Step(contents, c) == Config(State.Keyword, c.tokens, c.currentChar, c.startChar)
  {
    StuckOn(contents, c);
    StepPushes(contents, c);
    GetCharAtRange(contents, c.startChar, c.currentChar);
  }

  /** A state whose window the lookahead cannot extend pushes the window (an
      Identifier only if the window is not a keyword); Seperator and Keyword
      push it at once.  The token is the window without its newlines. */
  lemma Stop(contents: Chars, c: Config, w: Chars)
    requires c.startChar <= c.currentChar <= |contents| && w == contents[c.startChar..c.currentChar]
    requires c.state != Start && c.state != Final
    requires c.currentChar < |contents| ==> !Extends(c.state, contents[c.currentChar])
    requires c.state == State.Identifier ==> !IsKeyword(w)
    ensures Step(contents, c) ==
      Config(Final, c.tokens + [Token(KindOf(c.state), StripNewlines(w))], c.currentChar, c.startChar)
  {
    StuckOn(contents, c);
    StepPushes(contents, c);
    GetCharAtRange(contents, c.startChar, c.currentChar);
  }

  /** The same, for a window without newlines: the token is the window itself. */
  lemma StopPlain(contents: Chars, c: Config, w: Chars)
    requires c.startChar <= c.currentChar <= |contents| && w == contents[c.startChar..c.currentChar]
    requires NoNewline(w)
    requires c.state != Start && c.state != Final
    requires c.currentChar < |contents| ==> !Extends(c.state, contents[c.currentChar])
    requires c.state == State.Identifier ==> !IsKeyword(w)
    ensures Step(contents, c) == Config(Final, c.tokens + [Token(KindOf(c.state), w)], c.currentChar, c.startChar)
  {
    Stop(contents, c, w);
    StripNewlinesIdentity(w);
  }

  // ---------------------------------------------------------------------------
  // Examples
  //
  // Each example is split in two: a `...Trace` lemma justifies every iteration
  // of the listed run, and the example lemma turns the run into a statement
  // about `Run` for any number of iterations at least as large as the run.

  /** "3.14": a digit starts a Number, the dot moves it to Decimal, and the
      remaining digits extend the Decimal. */
  lemma DecimalTrace(s: Chars, cs: seq<Config>)
    requires s == "3.14"
    requires cs == [Initial,
                    Config(State.Number, [], 1, 0),
                    Config(State.Decimal, [], 2, 0),
                    Config(State.Decimal, [], 3, 0),
                    Config(State.Decimal, [], 4, 0),
                    Config(Final, [Token(TokenType.Decimal, "3.14")], 4, 0)]
    ensures IsTrace(s, cs)
  {
    StartOn(s, cs[0], State.Number);
    Dot(s, cs[1]);
    Grow(s, cs[2]);
    Grow(s, cs[3]);
    StopPlain(s, cs[4], s);
    Trace5(s, cs);
  }

  /** "3.14" is one Decimal token. */
  lemma DecimalExample(n: nat)
    requires n >= 5
    ensures !TokensExist("3.14", Run("3.14", Initial, n))
    ensures Run("3.14", Initial, n).tokens == [Token(TokenType.Decimal, "3.14")]
  {
    var s: Chars := "3.14";
    var cs := [Initial,
               Config(State.Number, [], 1, 0),
               Config(State.Decimal, [], 2, 0),
               Config(State.Decimal, [], 3, 0),
               Config(State.Decimal, [], 4, 0),
               Config(Final, [Token(TokenType.Decimal, "3.14")], 4, 0)];
    DecimalTrace(s, cs);
    TraceRun(s, cs, n);
  }

  /** "ints": the Identifier extends over every letter; only then is the whole
      window tested against the keywords, and "ints" is not one. */
  lemma WholeWindowKeywordTrace(s: Chars, cs: seq<Config>)
    requires s == "ints"
    requires cs == [Initial,
                    Config(State.Identifier, [], 1, 0),
                    Config(State.Identifier, [], 2, 0),
                    Config(State.Identifier, [], 3, 0),
                    Config(State.Identifier, [], 4, 0),
                    Config(Final, [Token(TokenType.Identifier, "ints")], 4, 0)]
    ensures IsTrace(s, cs)
  {
    StartOn(s, cs[0], State.Identifier);
    Grow(s, cs[1]);
    Grow(s, cs[2]);
    Grow(s, cs[3]);
    StopPlain(s, cs[4], s);
    Trace5(s, cs);
  }

  /** "ints" is one Identifier: the keyword test needs the whole window, so the
      keyword prefix "int" does not split it. */
  lemma WholeWindowKeywordExample(n: nat)
    requires n >= 5
    ensures !TokensExist("ints", Run("ints", Initial, n))
    ensures Run("ints", Initial, n).tokens == [Token(TokenType.Identifier, "ints")]
  {
    var s: Chars := "ints";
    var cs := [Initial,
               Config(State.Identifier, [], 1, 0),
               Config(State.Identifier, [], 2, 0),
               Config(State.Identifier, [], 3, 0),
               Config(State.Identifier, [], 4, 0),
               Config(Final, [Token(TokenType.Identifier, "ints")], 4, 0)];
    WholeWindowKeywordTrace(s, cs);
    TraceRun(s, cs, n);
  }

  /** Two operator bytes: the Operator state extends the window while the
      lookahead is an operator byte. */
  lemma GreedyOperatorTrace(s: Chars, cs: seq<Config>)
    requires |s| == 2 && s[0] in OperatorBytes && s[1] in OperatorBytes
    requires cs == [Initial,
                    Config(State.Operator, [], 1, 0),
                    Config(State.Operator, [], 2, 0),
                    Config(Final, [Token(TokenType.Operator, s)], 2, 0)]
    ensures IsTrace(s, cs)
  {
    assert StepsTo(s, cs[0], cs[1]) by { StartOn(s, cs[0], State.Operator); }
    assert StepsTo(s, cs[1], cs[2]) by { Grow(s, cs[1]); }
    assert StepsTo(s, cs[2], cs[3]) by {
      assert NoNewline(s) by {
        forall i | 0 <= i < |s| ensures s[i] != '\n' {
          assert i == 0 || i == 1;
        }
      }
      StopPlain(s, cs[2], s);
    }
    Trace3(s, cs);
  }

  /** Two operator bytes make one Operator token, not two, whether or not the
      pair is itself in the operator set ("<=" is, "<>" is not). */
  lemma GreedyOperatorExample(s: Chars, n: nat)
    requires |s| == 2 && s[0] in OperatorBytes && s[1] in OperatorBytes
    requires n >= 3
    ensures !TokensExist(s, Run(s, Initial, n))
    ensures Run(s, Initial, n).tokens == [Token(TokenType.Operator, s)]
  {
    var cs := [Initial,
               Config(State.Operator, [], 1, 0),
               Config(State.Operator, [], 2, 0),
               Config(Final, [Token(TokenType.Operator, s)], 2, 0)];
    GreedyOperatorTrace(s, cs);
    TraceRun(s, cs, n);
  }

  /** "!=": Start moves over '!', which is in no class, and then '=' starts an
      Operator whose window begins at '!'. */
  lemma SkippedPrefixTrace(s: Chars, cs: seq<Config>)
    requires s == "!="
    requires cs == [Initial,
                    Config(Start, [], 1, 0),
                    Config(State.Operator, [], 2, 0),
                    Config(Final, [Token(TokenType.Operator, "!=")], 2, 0)]
    ensures IsTrace(s, cs)
  {
    StartOn(s, cs[0], Start);
    StartOn(s, cs[1], State.Operator);
    StopPlain(s, cs[2], s);
    Trace3(s, cs);
  }

  /** "!=": the skipped '!' becomes the first byte of the Operator token "!=". */
  lemma SkippedPrefixExample(n: nat)
    requires n >= 3
    ensures !TokensExist("!=", Run("!=", Initial, n))
    ensures Run("!=", Initial, n).tokens == [Token(TokenType.Operator, "!=")]
  {
    var s: Chars := "!=";
    var cs := [Initial,
               Config(Start, [], 1, 0),
               Config(State.Operator, [], 2, 0),
               Config(Final, [Token(TokenType.Operator, "!=")], 2, 0)];
    SkippedPrefixTrace(s, cs);
    TraceRun(s, cs, n);
  }

  /** The value `create_token` gives the window "\nint". */
  lemma LeadingNewlineStripped()
    ensures StripNewlines("\nint") == "int"
  {
    var s: Chars := "\nint";
    assert s[1..] == "int";
    StripNewlinesIdentity("int");
  }

  /** "\nint": Start moves over the newline, then "int" is read into a window
      that still begins with the newline. */
  lemma KeywordAfterNewlineTrace(s: Chars, cs: seq<Config>)
    requires s == "\nint"
    requires cs == [Initial,
                    Config(Start, [], 1, 0),
                    Config(State.Identifier, [], 2, 0),
                    Config(State.Identifier, [], 3, 0),
                    Config(State.Identifier, [], 4, 0),
                    Config(Final, [Token(TokenType.Identifier, "int")], 4, 0)]
    ensures IsTrace(s, cs)
  {
    StartOn(s, cs[0], Start);
    StartOn(s, cs[1], State.Identifier);
    Grow(s, cs[2]);
    Grow(s, cs[3]);
    Stop(s, cs[4], s);
    LeadingNewlineStripped();
    Trace5(s, cs);
  }

  /** "\nint": the raw window "\nint" is not a keyword, so "int" comes out as an
      Identifier once the newline is removed. */
  lemma KeywordAfterNewlineExample(n: nat)
    requires n >= 5
    ensures !TokensExist("\nint", Run("\nint", Initial, n))
    ensures Run("\nint", Initial, n).tokens == [Token(TokenType.Identifier, "int")]
  {
    var s: Chars := "\nint";
    var cs := [Initial,
               Config(Start, [], 1, 0),
               Config(State.Identifier, [], 2, 0),
               Config(State.Identifier, [], 3, 0),
               Config(State.Identifier, [], 4, 0),
               Config(Final, [Token(TokenType.Identifier, "int")], 4, 0)];
    KeywordAfterNewlineTrace(s, cs);
    TraceRun(s, cs, n);
  }

  /** "int": the Identifier reaches the end of the input, the whole window is a
      keyword, so it moves to Keyword without consuming a byte. */
  lemma KeywordTrace(s: Chars, cs: seq<Config>)
    requires s == "int"
    requires cs == [Initial,
                    Config(State.Identifier, [], 1, 0),
                    Config(State.Identifier, [], 2, 0),
                    Config(State.Identifier, [], 3, 0),
                    Config(State.Keyword, [], 3, 0),
                    Config(Final, [Token(TokenType.Keyword, "int")], 3, 0)]
    ensures IsTrace(s, cs)
  {
    StartOn(s, cs[0], State.Identifier);
    Grow(s, cs[1]);
    Grow(s, cs[2]);
    ToKeyword(s, cs[3], s);
    StopPlain(s, cs[4], s);
    Trace5(s, cs);
  }

  /** "int" is one Keyword token. */
  lemma KeywordExample(n: nat)
    requires n >= 5
    ensures !TokensExist("int", Run("int", Initial, n))
    ensures Run("int", Initial, n).tokens == [Token(TokenType.Keyword, "int")]
  {
    var s: Chars := "int";
    var cs := [Initial,
               Config(State.Identifier, [], 1, 0),
               Config(State.Identifier, [], 2, 0),
               Config(State.Identifier, [], 3, 0),
               Config(State.Keyword, [], 3, 0),
               Config(Final, [Token(TokenType.Keyword, "int")], 3, 0)];
    KeywordTrace(s, cs);
    TraceRun(s, cs, n);
  }

  /** "( ": each separator is pushed in the iteration after it is read, without
      looking ahead. */
  lemma SeperatorTrace(s: Chars, cs: seq<Config>)
    requires s == "( "
    requires cs == [Initial,
                    Config(State.Seperator, [], 1, 0),
                    Config(Final, [Token(TokenType.Seperator, "(")], 1, 0),
                    Config(Start, [Token(TokenType.Seperator, "(")], 1, 1),
                    Config(State.Seperator, [Token(TokenType.Seperator, "(")], 2, 1),
                    Config(Final, [Token(TokenType.Seperator, "("), Token(TokenType.Seperator, " ")], 2, 1)]
    ensures IsTrace(s, cs)
  {
    StartOn(s, cs[0], State.Seperator);
    StopPlain(s, cs[1], "(");
    Restart(s, cs[2]);
    StartOn(s, cs[3], State.Seperator);
    StopPlain(s, cs[4], " ");
    Trace5(s, cs);
  }

  /** "( ": a space is a separator, so this is two Seperator tokens. */
  lemma SeperatorExample(n: nat)
    requires n >= 5
    ensures !TokensExist("( ", Run("( ", Initial, n))
    ensures Run("( ", Initial, n).tokens ==
      [Token(TokenType.Seperator, "("), Token(TokenType.Seperator, " ")]
  {
    var s: Chars := "( ";
    var cs := [Initial,
               Config(State.Seperator, [], 1, 0),
               Config(Final, [Token(TokenType.Seperator, "(")], 1, 0),
               Config(Start, [Token(TokenType.Seperator, "(")], 1, 1),
               Config(State.Seperator, [Token(TokenType.Seperator, "(")], 2, 1),
               Config(Final, [Token(TokenType.Seperator, "("), Token(TokenType.Seperator, " ")], 2, 1)];
    SeperatorTrace(s, cs);
    TraceRun(s, cs, n);
  }

  /** "a;": the Identifier stops in the middle of the input, because ';' is not
      alphanumeric; then ';' is read from a fresh window. */
  lemma IdentifierThenSeperatorTrace(s: Chars, cs: seq<Config>)
    requires s == "a;"
    requires cs == [Initial,
                    Config(State.Identifier, [], 1, 0),
                    Config(Final, [Token(TokenType.Identifier, "a")], 1, 0),
                    Config(Start, [Token(TokenType.Identifier, "a")], 1, 1),
                    Config(State.Seperator, [Token(TokenType.Identifier, "a")], 2, 1),
                    Config(Final, [Token(TokenType.Identifier, "a"), Token(TokenType.Seperator, ";")], 2, 1)]
    ensures IsTrace(s, cs)
  {
    assert StepsTo(s, cs[0], cs[1]) by { StartOn(s, cs[0], State.Identifier); }
    assert StepsTo(s, cs[1], cs[2]) by { StopPlain(s, cs[1], "a"); }
    assert StepsTo(s, cs[2], cs[3]) by { Restart(s, cs[2]); }
    assert StepsTo(s, cs[3], cs[4]) by { StartOn(s, cs[3], State.Seperator); }
    assert StepsTo(s, cs[4], cs[5]) by { StopPlain(s, cs[4], ";"); }
    Trace5(s, cs);
  }

  /** "a;" is an Identifier followed by a Seperator. */
  lemma IdentifierThenSeperatorExample(n: nat)
    requires n >= 5
    ensures !TokensExist("a;", Run("a;", Initial, n))
    ensures Run("a;", Initial, n).tokens ==
      [Token(TokenType.Identifier, "a"), Token(TokenType.Seperator, ";")]
  {
    var s: Chars := "a;";
    var cs := [Initial,
               Config(State.Identifier, [], 1, 0),
               Config(Final, [Token(TokenType.Identifier, "a")], 1, 0),
               Config(Start, [Token(TokenType.Identifier, "a")], 1, 1),
               Config(State.Seperator, [Token(TokenType.Identifier, "a")], 2, 1),
               Config(Final, [Token(TokenType.Identifier, "a"), Token(TokenType.Seperator, ";")], 2, 1)];
    IdentifierThenSeperatorTrace(s, cs);
    TraceRun(s, cs, n);
  }

  /** "=1": the Operator stops in the middle of the input, because '1' is not an
      operator byte; then '1' starts a Number. */
  lemma OperatorThenNumberTrace(s: Chars, cs: seq<Config>)
    requires s == "=1"
    requires cs == [Initial,
                    Config(State.Operator, [], 1, 0),
                    Config(Final, [Token(TokenType.Operator, "=")], 1, 0),
                    Config(Start, [Token(TokenType.Operator, "=")], 1, 1),
                    Config(State.Number, [Token(TokenType.Operator, "=")], 2, 1),
                    Config(Final, [Token(TokenType.Operator, "="), Token(TokenType.Number, "1")], 2, 1)]
    ensures IsTrace(s, cs)
  {
    assert StepsTo(s, cs[0], cs[1]) by { StartOn(s, cs[0], State.Operator); }
    assert StepsTo(s, cs[1], cs[2]) by { StopPlain(s, cs[1], "="); }
    assert StepsTo(s, cs[2], cs[3]) by { Restart(s, cs[2]); }
    assert StepsTo(s, cs[3], cs[4]) by { StartOn(s, cs[3], State.Number); }
    assert StepsTo(s, cs[4], cs[5]) by { StopPlain(s, cs[4], "1"); }
    Trace5(s, cs);
  }

  /** "=1" is an Operator followed by a Number. */
  lemma OperatorThenNumberExample(n: nat)
    requires n >= 5
    ensures !TokensExist("=1", Run("=1", Initial, n))
    ensures Run("=1", Initial, n).tokens ==
      [Token(TokenType.Operator, "="), Token(TokenType.Number, "1")]
  {
    var s: Chars := "=1";
    var cs := [Initial,
               Config(State.Operator, [], 1, 0),
               Config(Final, [Token(TokenType.Operator, "=")], 1, 0),
               Config(Start, [Token(TokenType.Operator, "=")], 1, 1),
               Config(State.Number, [Token(TokenType.Operator, "=")], 2, 1),
               Config(Final, [Token(TokenType.Operator, "="), Token(TokenType.Number, "1")], 2, 1)];
    OperatorThenNumberTrace(s, cs);
    TraceRun(s, cs, n);
  }
}
