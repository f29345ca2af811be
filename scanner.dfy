/** The tokenizer's state machine as a pure step function over the values of its
    four mutable fields, with the invariant every reachable configuration keeps. */
module Scanner {
  import opened CharClass
  import opened Tokens

  datatype State = Start | Final | Operator | Seperator | Identifier | Keyword | Number | Decimal

  /** The fields `state`, `tokens`, `current_char` and `start_char` of a tokenizer. */
  datatype Config = Config(state: State, tokens: seq<Token>, currentChar: nat, startChar: nat)

  /** The configuration `create_tokenizer` builds. */
  const Initial: Config := Config(Start, [], 0, 0)

  function Min(a: nat, b: nat): nat { if a <= b then a else b }

  /** `get_char_at`: the slice `contents[start..end]`, or "" when that range is
      not inside the buffer. */
  function GetCharAt(contents: Chars, start: nat, end: nat): Chars
  {
    if start <= end <= |contents| then contents[start..end] else []
  }

  /** `look_ahead`: the byte at the cursor. */
  function LookAhead(contents: Chars, c: Config): Chars
  {
    GetCharAt(contents, c.currentChar, c.currentChar + 1)
  }

  /** `get_current_char`: the byte just before the cursor. */
  function GetCurrentChar(contents: Chars, c: Config): Chars
    requires c.currentChar >= 1
  {
    GetCharAt(contents, c.currentChar - 1, c.currentChar)
  }

  /** `get_window`: the text of the token being built. */
  function GetWindow(contents: Chars, c: Config): Chars
  {
    GetCharAt(contents, c.startChar, c.currentChar)
  }

  /** `tokens_exist`: the loop condition of `tokenize`. */
  predicate TokensExist(contents: Chars, c: Config)
  {
    c.currentChar < |contents| || c.state != Final
  }

  /** Push a token of the given kind built from the window, and go to Final. */
  function Emit(contents: Chars, c: Config, kind: TokenType): Config
  {
    c.(tokens := c.tokens + [CreateToken(kind, GetWindow(contents, c))], state := Final)
  }

  function Advance(c: Config): Config
  {
    c.(currentChar := c.currentChar + 1)
  }

  /** One iteration of the loop in `tokenize`. */
  function Step(contents: Chars, c: Config): Config
  {
    match c.state
    case Start =>
      var c1 := Advance(c);
      var ch := GetCurrentChar(contents, c1);
      var s1 := if IsOperator(ch) then State.Operator else c1.state;
      var s2 := if IsSeperator(ch) then State.Seperator else s1;
      var s3 := if IsAlpha(ch) then State.Identifier else s2;
      var s4 := if IsNumber(ch) then State.Number else s3;
      c1.(state := s4)
    case Final =>
      c.(startChar := c.currentChar, state := Start)
    case Operator =>
      if IsOperator(LookAhead(contents, c)) then Advance(c)
      else Emit(contents, c, TokenType.Operator)
    case Seperator =>
      Emit(contents, c, TokenType.Seperator)
    case Identifier =>
      if IsAlphanumeric(LookAhead(contents, c)) then Advance(c)
      else if IsKeyword(GetWindow(contents, c)) then c.(state := State.Keyword)
      else Emit(contents, c, TokenType.Identifier)
    case Keyword =>
      Emit(contents, c, TokenType.Keyword)
    case Number =>
      if IsNumber(LookAhead(contents, c)) then Advance(c)
      else if LookAhead(contents, c) == "." then Advance(c.(state := State.Decimal))
      else Emit(contents, c, TokenType.Number)
    case Decimal =>
      if IsNumber(LookAhead(contents, c)) then Advance(c)
      else Emit(contents, c, TokenType.Decimal)
  }

  /** At most `fuel` iterations of the loop in `tokenize`, stopping early when
      `tokens_exist` is false. */
  function Run(contents: Chars, c: Config, fuel: nat): Config
    decreases fuel
  {
    if fuel == 0 || !TokensExist(contents, c) then c
    else Run(contents, Step(contents, c), fuel - 1)
  }

  /** The token kind a building state emits. */
  function KindOf(s: State): TokenType
    requires s != Start && s != Final
  {
    match s
    case Operator => TokenType.Operator
    case Seperator => TokenType.Seperator
    case Identifier => TokenType.Identifier
    case Keyword => TokenType.Keyword
    case Number => TokenType.Number
    case Decimal => TokenType.Decimal
  }

  /** The window is well placed; only Start can run past the end of the buffer. */
  ghost predicate Placed(contents: Chars, c: Config)
  {
    c.startChar <= c.currentChar && c.startChar <= |contents| &&
    (c.state != Start ==> c.currentChar <= |contents|)
  }

  ghost predicate AllWellFormed(ts: seq<Token>)
  {
    forall t | t in ts :: WellFormed(t)
  }

  /** The tokens so far cover the input up to the window (up to the cursor in
      Final, where the window has just been emitted). */
  ghost predicate Covered(contents: Chars, c: Config)
    requires Placed(contents, c)
  {
    Flatten(c.tokens) ==
      StripNewlines(contents[..if c.state == Final then c.currentChar else c.startChar])
  }

  /** What the window looks like in each state. */
  ghost predicate Shaped(contents: Chars, c: Config)
    requires Placed(contents, c)
  {
    if c.state == Start then Unclassified(contents[c.startChar..Min(c.currentChar, |contents|)])
    else if c.state == Final then c.currentChar > 0 && CoreByte(contents[c.currentChar - 1])
    else Emittable(KindOf(c.state), contents[c.startChar..c.currentChar])
  }

  /** The invariant of the loop in `tokenize`. */
  ghost predicate Inv(contents: Chars, c: Config)
  {
    Placed(contents, c) && AllWellFormed(c.tokens) && Covered(contents, c) && Shaped(contents, c)
  }

  // ---------------------------------------------------------------------------
  // Slices

  /** Slices inside the buffer are the buffer's bytes; any other range (past the
      end, or with its start after its end) gives "". */
  lemma GetCharAtRange(contents: Chars, start: nat, end: nat)
    ensures start <= end <= |contents| ==> GetCharAt(contents, start, end) == contents[start..end]
    ensures !(start <= end <= |contents|) ==> GetCharAt(contents, start, end) == []
    ensures start < |contents| ==> GetCharAt(contents, start, start + 1) == [contents[start]]
  {
  }

  /** At or past the end of the buffer the lookahead is "" and extends nothing. */
  lemma LookAheadAtEnd(contents: Chars, c: Config)
    requires c.currentChar >= |contents|
    ensures LookAhead(contents, c) == []
    ensures !IsOperator(LookAhead(contents, c)) && !IsAlphanumeric(LookAhead(contents, c))
    ensures !IsNumber(LookAhead(contents, c)) && LookAhead(contents, c) != "."
  {
    EmptyInNoClass();
  }

  /** A nonempty lookahead is the byte at the cursor, inside the buffer. */
  lemma LookAheadInside(contents: Chars, c: Config)
    requires LookAhead(contents, c) != []
    ensures c.currentChar < |contents| && LookAhead(contents, c) == [contents[c.currentChar]]
  {
  }

  // ---------------------------------------------------------------------------
  // One step

  /** The cursor never moves back and moves by at most one; `start_char` changes
      only in Final, where it becomes `current_char`; `tokens` only grows, by at
      most one token. */
  lemma StepCursor(contents: Chars, c: Config)
    requires c.startChar <= c.currentChar
    ensures var d := Step(contents, c);
      c.currentChar <= d.currentChar <= c.currentChar + 1 &&
      d.startChar <= d.currentChar &&
      (d.startChar != c.startChar ==> c.state == Final && d.startChar == c.currentChar) &&
      (c.state == Final ==> d.startChar == d.currentChar == c.currentChar && d.state == Start) &&
      d.tokens[..|c.tokens|] == c.tokens && |c.tokens| <= |d.tokens| <= |c.tokens| + 1
  {
  }

  /** The Start state consumes one byte and moves to the class of that byte,
      keeping the window start; a byte in no class (or the end of the buffer)
      leaves it in Start. */
  lemma StartStep(contents: Chars, c: Config)
    requires c.state == Start
    ensures var d := Step(contents, c);
      d.currentChar == c.currentChar + 1 && d.startChar == c.startChar && d.tokens == c.tokens &&
      (c.currentChar >= |contents| ==> d.state == Start) &&
      (c.currentChar < |contents| ==>
        var b := contents[c.currentChar];
        (d.state == Start <==> !Classified(b)) &&
        (d.state == State.Operator <==> IsOperator([b])) &&
        (d.state == State.Seperator <==> IsSeperator([b])) &&
        (d.state == State.Identifier <==> IsAlpha([b])) &&
        (d.state == State.Number <==> IsNumber([b])))
  {
    GetCharAtRange(contents, c.currentChar, c.currentChar + 1);
    if c.currentChar < |contents| {
      ClassesDisjoint(contents[c.currentChar]);
    } else {
      EmptyInNoClass();
    }
  }

  /** Emit on a window inside the buffer. */
  lemma EmitIs(contents: Chars, c: Config, kind: TokenType)
    requires c.startChar <= c.currentChar <= |contents|
    ensures Emit(contents, c, kind) ==
      Config(Final, c.tokens + [CreateToken(kind, contents[c.startChar..c.currentChar])], c.currentChar, c.startChar)
  {
    GetCharAtRange(contents, c.startChar, c.currentChar);
  }

  /** Taking a token from the window keeps the coverage of the input. */
  lemma EmitCovers(contents: Chars, c: Config, kind: TokenType)
    requires c.startChar <= c.currentChar <= |contents|
    requires Flatten(c.tokens) == StripNewlines(contents[..c.startChar])
    ensures Flatten(c.tokens + [CreateToken(kind, contents[c.startChar..c.currentChar])]) ==
      StripNewlines(contents[..c.currentChar])
  {
    var w := contents[c.startChar..c.currentChar];
    FlattenSnoc(c.tokens, CreateToken(kind, w));
    StripNewlinesAppend(contents[..c.startChar], w);
    assert contents[..c.startChar] + w == contents[..c.currentChar];
  }

  /** An emittable window is nonempty, ends with a byte that can end a token, and
      gives a well-formed token. */
  lemma WindowReady(contents: Chars, c: Config, kind: TokenType)
    requires c.startChar <= c.currentChar <= |contents|
    requires AllWellFormed(c.tokens)
    requires Emittable(kind, contents[c.startChar..c.currentChar])
    ensures c.startChar < c.currentChar && CoreByte(contents[c.currentChar - 1])
    ensures AllWellFormed(c.tokens + [CreateToken(kind, contents[c.startChar..c.currentChar])])
  {
    var w := contents[c.startChar..c.currentChar];
    var t := CreateToken(kind, w);
    EmittableEnds(kind, w);
    assert w[|w| - 1] == contents[c.currentChar - 1];
    CreateTokenWellFormed(kind, w);
    assert forall u | u in c.tokens + [t] :: u in c.tokens || u == t;
  }

  /** A Final configuration whose tokens cover the input up to the cursor, which
      follows a byte that can end a token, satisfies the invariant. */
  lemma FinalShapeInv(contents: Chars, d: Config)
    requires d.state == Final && d.startChar <= d.currentChar <= |contents|
    requires AllWellFormed(d.tokens)
    requires Flatten(d.tokens) == StripNewlines(contents[..d.currentChar])
    requires d.currentChar > 0 && CoreByte(contents[d.currentChar - 1])
    ensures Inv(contents, d)
  {
  }

  /** Taking a token from a window that ends with a byte that can end a token
      (Emit) keeps the invariant, when the new token is well formed. */
  lemma EmitInv(contents: Chars, c: Config, kind: TokenType)
    requires c.startChar < c.currentChar <= |contents|
    requires Flatten(c.tokens) == StripNewlines(contents[..c.startChar])
    requires AllWellFormed(c.tokens + [CreateToken(kind, contents[c.startChar..c.currentChar])])
    requires CoreByte(contents[c.currentChar - 1])
    ensures Inv(contents, Emit(contents, c, kind))
  {
    var ts := c.tokens + [CreateToken(kind, contents[c.startChar..c.currentChar])];
    EmitIs(contents, c, kind);
    EmitCovers(contents, c, kind);
    FinalShapeInv(contents, Config(Final, ts, c.currentChar, c.startChar));
  }

  /** Moving the cursor over the byte at it, into a building state whose shape
      the longer window has, keeps the invariant. */
  lemma AdvanceInv(contents: Chars, c: Config, s: State)
    requires c.startChar <= c.currentChar < |contents|
    requires AllWellFormed(c.tokens)
    requires Flatten(c.tokens) == StripNewlines(contents[..c.startChar])
    requires s != Start && s != Final
    requires Emittable(KindOf(s), contents[c.startChar..c.currentChar + 1])
    ensures Inv(contents, c.(state := s, currentChar := c.currentChar + 1))
  {
    var d := Config(s, c.tokens, c.currentChar + 1, c.startChar);
    assert Placed(contents, d);
    assert Covered(contents, d) by {
      assert d.state != Final && d.startChar == c.startChar;
    }
    assert Shaped(contents, d) by {
      assert d.state != Start && d.state != Final;
    }
  }

  /** The window extended by the byte at the cursor. */
  lemma WindowSnoc(contents: Chars, c: Config)
    requires c.startChar <= c.currentChar < |contents|
    ensures contents[c.startChar..c.currentChar + 1] ==
            contents[c.startChar..c.currentChar] + [contents[c.currentChar]]
  {
  }

  lemma StartInv(contents: Chars, c: Config)
    requires Inv(contents, c) && c.state == Start
    ensures Inv(contents, Step(contents, c))
  {
    var d := Step(contents, c);
    StartStep(contents, c);
    var i := c.currentChar;
    var p := contents[c.startChar..Min(i, |contents|)];
    assert Unclassified(p);
    if i < |contents| {
      var b := contents[i];
      assert p == contents[c.startChar..i];
      WindowSnoc(contents, c);
      if Classified(b) {
        StartCore(KindOf(d.state), p, b);
        AdvanceInv(contents, c, d.state);
      } else {
        assert d == c.(currentChar := i + 1);
        assert Unclassified(p + [b]);
        assert Placed(contents, d) && Covered(contents, d) && Shaped(contents, d);
      }
    } else {
      assert d == c.(currentChar := i + 1);
      assert Placed(contents, d) && Covered(contents, d) && Shaped(contents, d);
    }
  }

  lemma FinalInv(contents: Chars, c: Config)
    requires Inv(contents, c) && c.state == Final
    ensures Inv(contents, Step(contents, c))
  {
    var d := Step(contents, c);
    assert d == Config(Start, c.tokens, c.currentChar, c.currentChar);
    assert Placed(contents, d) && Covered(contents, d);
    assert contents[d.startChar..Min(d.currentChar, |contents|)] == [];
    assert Shaped(contents, d);
  }

  lemma OperatorInv(contents: Chars, c: Config)
    requires Inv(contents, c) && c.state == State.Operator
    ensures Inv(contents, Step(contents, c))
  {
    var w := contents[c.startChar..c.currentChar];
    var d := Step(contents, c);
    assert Emittable(TokenType.Operator, w);
    if IsOperator(LookAhead(contents, c)) {
      assert d == c.(state := State.Operator, currentChar := c.currentChar + 1);
      LookAheadInside(contents, c);
      WindowSnoc(contents, c);
      GrowCore(TokenType.Operator, w, contents[c.currentChar]);
      AdvanceInv(contents, c, State.Operator);
    } else {
      assert d == Emit(contents, c, TokenType.Operator);
      WindowReady(contents, c, TokenType.Operator);
      EmitInv(contents, c, TokenType.Operator);
    }
  }

  lemma SeperatorInv(contents: Chars, c: Config)
    requires Inv(contents, c) && c.state == State.Seperator
    ensures Inv(contents, Step(contents, c))
  {
    assert Emittable(TokenType.Seperator, contents[c.startChar..c.currentChar]);
    assert Step(contents, c) == Emit(contents, c, TokenType.Seperator);
    WindowReady(contents, c, TokenType.Seperator);
    EmitInv(contents, c, TokenType.Seperator);
  }

  lemma IdentifierInv(contents: Chars, c: Config)
    requires Inv(contents, c) && c.state == State.Identifier
    ensures Inv(contents, Step(contents, c))
  {
    var w := contents[c.startChar..c.currentChar];
    var d := Step(contents, c);
    assert Emittable(TokenType.Identifier, w);
    GetCharAtRange(contents, c.startChar, c.currentChar);
    if IsAlphanumeric(LookAhead(contents, c)) {
      assert d == c.(state := State.Identifier, currentChar := c.currentChar + 1);
      LookAheadInside(contents, c);
      WindowSnoc(contents, c);
      GrowCore(TokenType.Identifier, w, contents[c.currentChar]);
      AdvanceInv(contents, c, State.Identifier);
    } else if IsKeyword(GetWindow(contents, c)) {
      assert d == c.(state := State.Keyword);
      assert Placed(contents, d) && Covered(contents, d);
      assert Shaped(contents, d);
    } else {
      assert d == Emit(contents, c, TokenType.Identifier);
      WindowReady(contents, c, TokenType.Identifier);
      EmitInv(contents, c, TokenType.Identifier);
    }
  }

  lemma KeywordInv(contents: Chars, c: Config)
    requires Inv(contents, c) && c.state == State.Keyword
    ensures Inv(contents, Step(contents, c))
  {
    assert Emittable(TokenType.Keyword, contents[c.startChar..c.currentChar]);
    assert Step(contents, c) == Emit(contents, c, TokenType.Keyword);
    WindowReady(contents, c, TokenType.Keyword);
    EmitInv(contents, c, TokenType.Keyword);
  }

  /** A dot after the digits of a number moves to Decimal and takes the dot. */
  lemma NumberDotInv(contents: Chars, c: Config)
    requires Inv(contents, c) && c.state == State.Number
    requires LookAhead(contents, c) == "."
    ensures Inv(contents, c.(state := State.Decimal, currentChar := c.currentChar + 1))
  {
    var w := contents[c.startChar..c.currentChar];
    assert Emittable(TokenType.Number, w);
    LookAheadInside(contents, c);
    WindowSnoc(contents, c);
    DotCore(w);
    AdvanceInv(contents, c, State.Decimal);
  }

  lemma NumberInv(contents: Chars, c: Config)
    requires Inv(contents, c) && c.state == State.Number
    ensures Inv(contents, Step(contents, c))
  {
    var w := contents[c.startChar..c.currentChar];
    var la := LookAhead(contents, c);
    var d := Step(contents, c);
    assert Emittable(TokenType.Number, w);
    if IsNumber(la) {
      assert d == c.(state := State.Number, currentChar := c.currentChar + 1);
      LookAheadInside(contents, c);
      WindowSnoc(contents, c);
      GrowCore(TokenType.Number, w, contents[c.currentChar]);
      AdvanceInv(contents, c, State.Number);
    } else if la == "." {
      assert d == c.(state := State.Decimal, currentChar := c.currentChar + 1);
      NumberDotInv(contents, c);
    } else {
      assert d == Emit(contents, c, TokenType.Number);
      WindowReady(contents, c, TokenType.Number);
      EmitInv(contents, c, TokenType.Number);
    }
  }

  lemma DecimalInv(contents: Chars, c: Config)
    requires Inv(contents, c) && c.state == State.Decimal
    ensures Inv(contents, Step(contents, c))
  {
    var w := contents[c.startChar..c.currentChar];
    var d := Step(contents, c);
    assert Emittable(TokenType.Decimal, w);
    if IsNumber(LookAhead(contents, c)) {
      assert d == c.(state := State.Decimal, currentChar := c.currentChar + 1);
      LookAheadInside(contents, c);
      WindowSnoc(contents, c);
      GrowCore(TokenType.Decimal, w, contents[c.currentChar]);
      AdvanceInv(contents, c, State.Decimal);
    } else {
      assert d == Emit(contents, c, TokenType.Decimal);
      WindowReady(contents, c, TokenType.Decimal);
      EmitInv(contents, c, TokenType.Decimal);
    }
  }

  /** Every loop iteration keeps the invariant. */
  lemma StepInv(contents: Chars, c: Config)
    requires Inv(contents, c)
    ensures Inv(contents, Step(contents, c))
  {
    match c.state
    case Start => StartInv(contents, c);
    case Final => FinalInv(contents, c);
    case Operator => OperatorInv(contents, c);
    case Seperator => SeperatorInv(contents, c);
    case Identifier => IdentifierInv(contents, c);
    case Keyword => KeywordInv(contents, c);
    case Number => NumberInv(contents, c);
    case Decimal => DecimalInv(contents, c);
  }

  /** What an emitting step promises about the token it pushes: it is the window
      with newlines removed, of the kind of the state, well formed, and the
      lookahead could not have extended it (greedy matching); an Identifier is
      emitted only when its raw window is not a keyword. */
  lemma EmitStep(contents: Chars, c: Config)
    requires Inv(contents, c)
    requires |Step(contents, c).tokens| > |c.tokens|
    ensures c.state != Start && c.state != Final
    ensures var d := Step(contents, c);
      var la := LookAhead(contents, c);
      d.state == Final && d.currentChar == c.currentChar && d.startChar == c.startChar &&
      d.tokens == c.tokens + [Token(KindOf(c.state), StripNewlines(contents[c.startChar..c.currentChar]))] &&
      WellFormed(d.tokens[|c.tokens|]) &&
      (c.state == State.Operator ==> !IsOperator(la)) &&
      (c.state == State.Identifier ==> !IsAlphanumeric(la) && !IsKeyword(contents[c.startChar..c.currentChar])) &&
      (c.state == State.Number ==> !IsNumber(la) && la != ".") &&
      (c.state == State.Decimal ==> !IsNumber(la))
  {
    StepInv(contents, c);
    GetCharAtRange(contents, c.startChar, c.currentChar);
    assert Step(contents, c).tokens[|c.tokens|] in Step(contents, c).tokens;
  }

  /** The lookahead cannot extend the window: the conditions under which
      Operator, Identifier, Number and Decimal stop growing.  Seperator and
      Keyword never look ahead. */
  predicate CannotExtend(contents: Chars, c: Config)
  {
    var la := LookAhead(contents, c);
    match c.state
    case Operator => !IsOperator(la)
    case Identifier => !IsAlphanumeric(la)
    case Number => !IsNumber(la) && la != "."
    case Decimal => !IsNumber(la)
    case _ => true
  }

  /** The converse of EmitStep, anywhere in the input: a building state whose
      window the lookahead cannot extend pushes the window, without newlines, as
      a token of its kind and moves to Final; the one exception is an Identifier
      whose whole window is a keyword, which moves to Keyword and pushes nothing. */
  lemma StepPushes(contents: Chars, c: Config)
    requires c.state != Start && c.state != Final
    requires CannotExtend(contents, c)
    ensures var w := GetWindow(contents, c);
      Step(contents, c) ==
        if c.state == State.Identifier && IsKeyword(w) then c.(state := State.Keyword)
        else Config(Final, c.tokens + [Token(KindOf(c.state), StripNewlines(w))], c.currentChar, c.startChar)
  {
  }

  /** A building state pushes a token exactly when the lookahead cannot extend
      its window, except for an Identifier whose whole window is a keyword. */
  lemma PushIff(contents: Chars, c: Config)
    requires c.state != Start && c.state != Final
    ensures |Step(contents, c).tokens| > |c.tokens| <==>
      CannotExtend(contents, c) && !(c.state == State.Identifier && IsKeyword(GetWindow(contents, c)))
  {
  }

  // ---------------------------------------------------------------------------
  // Whole runs

  lemma RunInv(contents: Chars, c: Config, fuel: nat)
    requires Inv(contents, c)
    ensures Inv(contents, Run(contents, c, fuel))
  {
    forall e | Inv(contents, e) && TokensExist(contents, e)
      ensures Inv(contents, Step(contents, e))
    {
      StepInv(contents, e);
    }
    RunPreserves(contents, c, fuel, e => Inv(contents, e));
  }

  /** A property of configurations that every iteration keeps holds after any
      number of iterations. */
  lemma {:induction false} RunPreserves(contents: Chars, c: Config, fuel: nat, P: Config -> bool)
    requires P(c)
    requires forall e | P(e) && TokensExist(contents, e) :: P(Step(contents, e))
    ensures P(Run(contents, c, fuel))
    decreases fuel
  {
    if fuel > 0 && TokensExist(contents, c) {
      var d := Step(contents, c);
      assert Run(contents, c, fuel) == Run(contents, d, fuel - 1);
      RunPreserves(contents, d, fuel - 1, P);
    }
  }

  /** Over a whole run the cursor and the window start never move back and the
      token list is only appended to. */
  lemma {:induction false} RunMonotone(contents: Chars, c: Config, fuel: nat)
    requires c.startChar <= c.currentChar
    ensures var d := Run(contents, c, fuel);
      c.currentChar <= d.currentChar <= c.currentChar + fuel &&
      c.startChar <= d.startChar <= d.currentChar &&
      |c.tokens| <= |d.tokens| && d.tokens[..|c.tokens|] == c.tokens
    decreases fuel
  {
    if fuel > 0 && TokensExist(contents, c) {
      var s := Step(contents, c);
      StepCursor(contents, c);
      RunMonotone(contents, s, fuel - 1);
      var d := Run(contents, s, fuel - 1);
      assert d.tokens[..|s.tokens|][..|c.tokens|] == d.tokens[..|c.tokens|];
    }
  }

  /** Where the loop stops: after `k` of at most `fuel` iterations, because the
      fuel is used up or the loop condition is false.  That is the result of the
      whole run; it keeps the invariant and, when the loop condition is false,
      covers the input. */
  lemma LoopExit(contents: Chars, c0: Config, fuel: nat, c: Config, k: nat)
    requires Inv(contents, c0)
    requires k <= fuel && c == Run(contents, c0, k)
    requires k == fuel || !TokensExist(contents, c)
    ensures c == Run(contents, c0, fuel) && Inv(contents, c)
    ensures !TokensExist(contents, c) ==> Flatten(c.tokens) == StripNewlines(contents)
    ensures forall t | t in c.tokens :: WellFormed(t)
  {
    if k < fuel {
      RunStops(contents, c0, k, fuel);
    }
    RunInv(contents, c0, fuel);
    if !TokensExist(contents, c) {
      ExitCovers(contents, c);
    }
  }

  /** A run of `k + 1` iterations is one more iteration after a run of `k`, as
      long as the loop condition still holds. */
  lemma {:induction false} RunExtend(contents: Chars, c: Config, k: nat)
    requires TokensExist(contents, Run(contents, c, k))
    ensures Run(contents, c, k + 1) == Step(contents, Run(contents, c, k))
    decreases k
  {
    if k > 0 {
      var d := Step(contents, c);
      assert Run(contents, c, k + 1) == Run(contents, d, k);
      assert Run(contents, c, k) == Run(contents, d, k - 1);
      RunExtend(contents, d, k - 1);
    }
  }

  /** Once the loop condition is false, more iterations change nothing. */
  lemma {:induction false} RunStops(contents: Chars, c: Config, k: nat, n: nat)
    requires k <= n && !TokensExist(contents, Run(contents, c, k))
    ensures Run(contents, c, n) == Run(contents, c, k)
    decreases k
  {
    if k > 0 && TokensExist(contents, c) {
      var d := Step(contents, c);
      assert Run(contents, c, k) == Run(contents, d, k - 1);
      assert Run(contents, c, n) == Run(contents, d, n - 1);
      RunStops(contents, d, k - 1, n - 1);
    } else {
      assert Run(contents, c, k) == c;
      assert Run(contents, c, n) == c;
    }
  }

  /** The initial configuration satisfies the invariant. */
  lemma InitialInv(contents: Chars)
    ensures Inv(contents, Initial)
  {
    assert contents[..0] == [];
  }

  /** When the loop exits, the cursor is exactly at the end of the buffer, the
      buffer is not empty and its last byte is one that can end a token; the
      concatenated token values are the whole buffer without its newlines. */
  lemma ExitCovers(contents: Chars, c: Config)
    requires Inv(contents, c) && !TokensExist(contents, c)
    ensures c.currentChar == |contents| > 0
    ensures CoreByte(contents[|contents| - 1])
    ensures Flatten(c.tokens) == StripNewlines(contents)
  {
    assert c.state == Final;
    assert c.currentChar == |contents|;
    assert contents[..|contents|] == contents;
  }

  /** The main property: if `tokenize` returns, the tokens, concatenated, are the
      whole input with its newlines removed, and each of them is well formed. */
  lemma TokenizeCovers(contents: Chars, fuel: nat)
    requires !TokensExist(contents, Run(contents, Initial, fuel))
    ensures Flatten(Run(contents, Initial, fuel).tokens) == StripNewlines(contents)
    ensures forall t | t in Run(contents, Initial, fuel).tokens :: WellFormed(t)
  {
    InitialInv(contents);
    RunInv(contents, Initial, fuel);
    ExitCovers(contents, Run(contents, Initial, fuel));
  }

  /** Start at or past the end of the buffer never leaves Start: each iteration
      only moves the cursor. */
  lemma {:induction false} StartPastEndStays(contents: Chars, c: Config, fuel: nat)
    requires c.state == Start && c.currentChar >= |contents|
    ensures Run(contents, c, fuel) == c.(currentChar := c.currentChar + fuel)
    ensures TokensExist(contents, Run(contents, c, fuel))
    decreases fuel
  {
    if fuel > 0 {
      StartStep(contents, c);
      StartPastEndStays(contents, Step(contents, c), fuel - 1);
    }
  }

  /** On empty input `tokenize` never returns. */
  lemma EmptyInputNeverExits(fuel: nat)
    ensures TokensExist([], Run([], Initial, fuel))
    ensures Run([], Initial, fuel).tokens == []
  {
    StartPastEndStays([], Initial, fuel);
  }

  /** On input whose last byte can end no token (a trailing newline, or a byte
      such as `!`), `tokenize` never returns. */
  lemma TrailingSkippedByteNeverExits(contents: Chars, fuel: nat)
    requires |contents| > 0 && !CoreByte(contents[|contents| - 1])
    ensures TokensExist(contents, Run(contents, Initial, fuel))
  {
    InitialInv(contents);
    RunInv(contents, Initial, fuel);
    if !TokensExist(contents, Run(contents, Initial, fuel)) {
      ExitCovers(contents, Run(contents, Initial, fuel));
    }
  }
}
