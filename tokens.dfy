/** Tokens, token kinds, and the shapes a token's text can have. */
module Tokens {
  import opened CharClass

  /** The kinds of token the tokenizer emits (the source spells "Seperator"). */
  datatype TokenType = Keyword | Identifier | Operator | Seperator | Number | Decimal

  datatype Token = Token(tokenType: TokenType, value: Chars)

  predicate NoNewline(s: Chars) { forall i | 0 <= i < |s| :: s[i] != '\n' }

  /** `str::replace(value, "\n", "")`: every newline byte removed. */
  function StripNewlines(s: Chars): (r: Chars)
    ensures NoNewline(r)
    ensures |r| <= |s|
  {
    if s == [] then []
    else if s[0] == '\n' then StripNewlines(s[1..])
    else [s[0]] + StripNewlines(s[1..])
  }

  /** `create_token`: the value is the given slice without its newlines. */
  function CreateToken(tokenType: TokenType, value: Chars): (t: Token)
    ensures t.tokenType == tokenType && NoNewline(t.value)
  {
    Token(tokenType, StripNewlines(value))
  }

  /** The token values, concatenated in order. */
  function Flatten(ts: seq<Token>): Chars
  {
    if ts == [] then [] else Flatten(ts[..|ts| - 1]) + ts[|ts| - 1].value
  }

  // ---------------------------------------------------------------------------
  // Shapes of the core of a token (the text after the skipped bytes)

  predicate AllOperators(s: Chars) { forall i | 0 <= i < |s| :: IsOperator([s[i]]) }

  predicate AllAlphanumeric(s: Chars) { forall i | 0 <= i < |s| :: IsAlphanumeric([s[i]]) }

  predicate AllDigits(s: Chars) { forall i | 0 <= i < |s| :: IsDigit(s[i]) }

  /** One or more digits, a dot, then zero or more digits. */
  predicate IsDecimalCore(s: Chars)
    decreases |s|
  {
    |s| >= 2 &&
    if s[|s| - 1] == '.' then AllDigits(s[..|s| - 1])
    else IsDigit(s[|s| - 1]) && IsDecimalCore(s[..|s| - 1])
  }

  /** What the core of a token of the given kind looks like. */
  predicate CoreShape(kind: TokenType, core: Chars)
  {
    match kind
    case Operator => |core| > 0 && AllOperators(core)
    case Seperator => |core| == 1 && IsSeperator(core)
    case Identifier => IsAlpha(core) && AllAlphanumeric(core)
    case Keyword => IsKeyword(core)
    case Number => |core| > 0 && AllDigits(core)
    case Decimal => IsDecimalCore(core)
  }

  /** A token as the tokenizer can emit it: no newline in its value; a keyword is
      exactly a keyword; any other kind is a run of skipped bytes followed by a
      core of its kind. */
  predicate WellFormed(t: Token)
  {
    NoNewline(t.value) &&
    if t.tokenType == Keyword then IsKeyword(t.value)
    else CoreShape(t.tokenType, Core(t.value))
  }

  /** What a window must look like for a token of the given kind to be taken
      from it: a whole keyword, or skipped bytes followed by a core of the kind. */
  predicate Emittable(kind: TokenType, w: Chars)
  {
    if kind == Keyword then IsKeyword(w) else CoreShape(kind, Core(w))
  }

  // ---------------------------------------------------------------------------
  // Lemmas

  /** Removing newlines distributes over concatenation. */
  lemma {:induction false} StripNewlinesAppend(a: Chars, b: Chars)
    ensures StripNewlines(a + b) == StripNewlines(a) + StripNewlines(b)
  {
    if a == [] {
      assert a + b == b;
    } else {
      assert (a + b)[0] == a[0];
      assert (a + b)[1..] == a[1..] + b;
      StripNewlinesAppend(a[1..], b);
    }
  }

  /** A slice without newlines is left as it is. */
  lemma {:induction false} StripNewlinesIdentity(s: Chars)
    requires NoNewline(s)
    ensures StripNewlines(s) == s
  {
    if s != [] {
      StripNewlinesIdentity(s[1..]);
    }
  }

  /** An independent description of StripNewlines: every byte other than a newline
      occurs as often in the result as in the input. */
  lemma {:induction false} StripNewlinesCounts(s: Chars, b: Byte)
    requires b != '\n'
    ensures multiset(StripNewlines(s))[b] == multiset(s)[b]
    ensures multiset(StripNewlines(s))['\n'] == 0
  {
    if s != [] {
      assert s == [s[0]] + s[1..];
      StripNewlinesCounts(s[1..], b);
    }
  }

  /** Removing newlines keeps the split into skipped bytes and core: newlines
      are skipped bytes, and the core starts with a classified byte. */
  lemma {:induction false} StripNewlinesCore(s: Chars)
    ensures Core(StripNewlines(s)) == StripNewlines(Core(s))
  {
    if s == [] {
    } else if Classified(s[0]) {
      assert s[0] != '\n';
      assert StripNewlines(s)[0] == s[0];
    } else if s[0] == '\n' {
      StripNewlinesCore(s[1..]);
    } else {
      var r := StripNewlines(s);
      assert r == [s[0]] + StripNewlines(s[1..]);
      assert r[1..] == StripNewlines(s[1..]);
      StripNewlinesCore(s[1..]);
    }
  }

  lemma {:induction false} DecimalCoreBytes(s: Chars)
    requires IsDecimalCore(s)
    ensures forall i | 0 <= i < |s| :: IsDigit(s[i]) || s[i] == '.'
    ensures IsDigit(s[0])
    decreases |s|
  {
    var p := s[..|s| - 1];
    if s[|s| - 1] != '.' {
      DecimalCoreBytes(p);
    }
    assert forall i | 0 <= i < |s| - 1 :: s[i] == p[i];
  }

  /** A core of any kind is nonempty and made of bytes that can end a token;
      in particular it holds no newline. */
  lemma CoreShapeBytes(kind: TokenType, core: Chars)
    requires CoreShape(kind, core)
    ensures |core| > 0
    ensures forall i | 0 <= i < |core| :: CoreByte(core[i])
    ensures NoNewline(core)
  {
    match kind
    case Identifier =>
      forall i | 0 <= i < |core| ensures CoreByte(core[i]) {
        AlphanumericIsAlphaOrNumber([core[i]]);
      }
    case Keyword => KeywordLetters(core);
    case Decimal => DecimalCoreBytes(core);
    case Seperator => assert core == [core[0]];
    case _ =>
  }

  /** `create_token` on a window whose core has the shape of the kind gives a
      well-formed token. */
  lemma CreateTokenWellFormed(kind: TokenType, w: Chars)
    requires Emittable(kind, w)
    ensures WellFormed(CreateToken(kind, w))
  {
    if kind == Keyword {
      KeywordLetters(w);
      StripNewlinesIdentity(w);
    } else {
      CoreShapeBytes(kind, Core(w));
      StripNewlinesCore(w);
      StripNewlinesIdentity(Core(w));
    }
  }

  /** Flatten of a longer sequence adds the new token's value at the end. */
  lemma FlattenSnoc(ts: seq<Token>, t: Token)
    ensures Flatten(ts + [t]) == Flatten(ts) + t.value
  {
    assert (ts + [t])[..|ts|] == ts;
  }

  /** The first classified byte after skipped bytes starts a core of its class. */
  lemma StartCore(kind: TokenType, p: Chars, b: Byte)
    requires Unclassified(p)
    requires || (kind == Operator && IsOperator([b]))
             || (kind == Seperator && IsSeperator([b]))
             || (kind == Identifier && IsAlpha([b]))
             || (kind == Number && IsNumber([b]))
    ensures Emittable(kind, p + [b])
  {
    SkippedLenOfUnclassified(p);
    CoreSnoc(p, b);
    assert Core(p) == [];
    assert Core(p + [b]) == [b];
    if kind == Identifier {
      AlphanumericIsAlphaOrNumber([b]);
    }
  }

  /** A byte of the right class extends a core of Operator, Identifier, Number
      or Decimal. */
  lemma GrowCore(kind: TokenType, w: Chars, b: Byte)
    requires Emittable(kind, w)
    requires || (kind == Operator && IsOperator([b]))
             || (kind == Identifier && IsAlphanumeric([b]))
             || ((kind == Number || kind == Decimal) && IsNumber([b]))
    ensures Emittable(kind, w + [b])
  {
    CoreShapeBytes(kind, Core(w));
    CoreSnoc(w, b);
    var core := Core(w) + [b];
    assert core[..|core| - 1] == Core(w);
    if kind == Identifier {
      assert core[..1] == Core(w)[..1];
    }
  }

  /** A dot after the digits of a Number core makes a Decimal core. */
  lemma DotCore(w: Chars)
    requires Emittable(Number, w)
    ensures Emittable(Decimal, w + ['.'])
  {
    CoreSnoc(w, '.');
    var core := Core(w) + ['.'];
    assert core[..|core| - 1] == Core(w);
  }

  /** An emittable window is nonempty and ends with a byte that can end a token. */
  lemma EmittableEnds(kind: TokenType, w: Chars)
    requires Emittable(kind, w)
    ensures |w| > 0 && CoreByte(w[|w| - 1])
  {
    var core := if kind == Keyword then w else Core(w);
    CoreShapeBytes(kind, core);
    assert core[|core| - 1] == w[|w| - 1];
  }
}
