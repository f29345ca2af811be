/** The `Tokenizer` object: four mutable fields over an immutable source buffer,
    and the loop that drives the state machine. */
module Lexer {
  import opened CharClass
  import opened Tokens
  import opened Scanner

  class Tokenizer {
    var state: State
    var tokens: seq<Token>
    var currentChar: nat
    var startChar: nat
    const contents: Chars

    /** The values of the mutable fields. */
    function Snapshot(): Config
      reads this
    {
      Config(state, tokens, currentChar, startChar)
    }

    ghost predicate Valid()
      reads this
    {
      Inv(contents, Snapshot())
    }

    /** `create_tokenizer`: state Start, both cursors at 0, no tokens. */
    constructor CreateTokenizer(contents: Chars)
      ensures this.contents == contents
      ensures state == Start && tokens == [] && currentChar == 0 && startChar == 0
      ensures Valid()
    {
      this.contents := contents;
      state := Start;
      tokens := [];
      currentChar := 0;
      startChar := 0;
      new;
      InitialInv(contents);
    }

    /** `next_character`. */
    method NextCharacter()
      modifies this`currentChar
      ensures currentChar == old(currentChar) + 1
    {
      currentChar := currentChar + 1;
    }

    /** `transition` (and `State::transition`, which it forwards to). */
    method Transition(s: State)
      modifies this`state
      ensures state == s
    {
      state := s;
    }

    /** `get_tokens`. */
    method GetTokens() returns (r: seq<Token>)
      ensures r == tokens
    {
      r := tokens;
    }

    /** One iteration of the loop in `tokenize`: the `match` on the state. */
    method Iterate()
      modifies this
      ensures Snapshot() == Step(contents, old(Snapshot()))
    {
      match state {
        case Start =>
          NextCharacter();
          if IsOperator(GetCurrentChar(contents, Snapshot())) {
            Transition(State.Operator);
          }
          if IsSeperator(GetCurrentChar(contents, Snapshot())) {
            Transition(State.Seperator);
          }
          if IsAlpha(GetCurrentChar(contents, Snapshot())) {
            Transition(State.Identifier);
          }
          if IsNumber(GetCurrentChar(contents, Snapshot())) {
            Transition(State.Number);
          }
        case Final =>
          startChar := currentChar;
          Transition(Start);
        case Operator =>
          if IsOperator(LookAhead(contents, Snapshot())) {
            NextCharacter();
          } else {
            tokens := tokens + [CreateToken(TokenType.Operator, GetWindow(contents, Snapshot()))];
            Transition(Final);
          }
        case Seperator =>
          tokens := tokens + [CreateToken(TokenType.Seperator, GetWindow(contents, Snapshot()))];
          Transition(Final);
        case Identifier =>
          if IsAlphanumeric(LookAhead(contents, Snapshot())) {
            NextCharacter();
          } else if IsKeyword(GetWindow(contents, Snapshot())) {
            Transition(State.Keyword);
          } else {
            tokens := tokens + [CreateToken(TokenType.Identifier, GetWindow(contents, Snapshot()))];
            Transition(Final);
          }
        case Keyword =>
          tokens := tokens + [CreateToken(TokenType.Keyword, GetWindow(contents, Snapshot()))];
          Transition(Final);
        case Number =>
          if IsNumber(LookAhead(contents, Snapshot())) {
            NextCharacter();
          } else if LookAhead(contents, Snapshot()) == "." {
            Transition(State.Decimal);
            NextCharacter();
          } else {
            tokens := tokens + [CreateToken(TokenType.Number, GetWindow(contents, Snapshot()))];
            Transition(Final);
          }
        case Decimal =>
          if IsNumber(LookAhead(contents, Snapshot())) {
            NextCharacter();
          } else {
            tokens := tokens + [CreateToken(TokenType.Decimal, GetWindow(contents, Snapshot()))];
            Transition(Final);
          }
      }
    }

    /** `tokenize`, for at most `fuel` iterations of its loop (the loop in the
        source need not terminate).  `finished` says whether the loop condition
        became false; if so, the tokens cover the whole input. */
    method Tokenize(fuel: nat) returns (finished: bool)
      requires Valid()
      modifies this
      ensures Valid()
      ensures Snapshot() == Run(contents, old(Snapshot()), fuel)
      ensures finished <==> !TokensExist(contents, Snapshot())
      ensures finished ==> Flatten(tokens) == StripNewlines(contents)
      ensures forall t | t in tokens :: WellFormed(t)
    {
      ghost var c0 := Snapshot();
      var remaining: nat := fuel;
      while remaining > 0 && TokensExist(contents, Snapshot())
        invariant remaining <= fuel && Snapshot() == Run(contents, c0, fuel - remaining)
        decreases remaining
      {
        RunExtend(contents, c0, fuel - remaining);
        Iterate();
        remaining := remaining - 1;
      }
      LoopExit(contents, c0, fuel, Snapshot(), fuel - remaining);
      finished := !TokensExist(contents, Snapshot());
    }
  }
}
