# Junk-Compiler tokenizer, modelled in Dafny

`src/main.rs` holds a tokenizer for a toy language.  A `Tokenizer` holds the
source text and four mutable fields: `state`, `tokens`, `current_char` and
`start_char`.  `tokenize` loops while `tokens_exist` holds.  Every iteration runs
one arm of a `match` on the state.  An arm moves the cursor forward by one,
changes the state, or pushes a `Token` built from the window
`contents[start_char..current_char]`, with its newlines removed.  The kinds of
token are Keyword, Identifier, Operator, Seperator, Number and Decimal.  The
character classes are applied to one-character slices: `is_operator` and
`is_seperator` look the slice up in a set, and `is_number`, `is_alpha` and
`is_alphanumeric` test its first character.  The keyword test is the one
exception: it looks the whole window up in the keyword set.

The model has five modules:

- `CharClass` (`char_class.dfy`) holds the character-class predicates.  A byte
  is a `char` below 256, and a slice is a sequence of bytes.  Each Rust `HashSet`
  becomes a constant set literal.  Classification is ASCII.
- `Tokens` (`tokens.dfy`) holds `TokenType`, `Token`, `create_token`
  (`StripNewlines`) and a description of the text a token of each kind can have.
- `Scanner` (`scanner.dfy`) holds the loop body as a pure function `Step` on the
  four fields (`Config`) and `Run`, which is at most `fuel` iterations of the
  loop.  It also holds the invariant `Inv` that every iteration keeps, and the
  lemmas about whole runs.
- `Lexer` (`lexer.dfy`) holds the `Tokenizer` class with the source's fields and
  methods.  `Iterate` (one pass of the loop body) is proved against `Step`, and
  `Tokenize` against `Run`.  The constructor, `NextCharacter`, `Transition` and
  `GetTokens` state their effect on the fields directly.
- `Examples` (`examples.dfy`) holds complete runs on small inputs.  They show
  greedy operators, the keyword upgrade, decimals, separators, skipped bytes
  and tokens that end in the middle of the input.

The data model: `Scanner.State` is `enum State` (src/main.rs:171-181), whose
`transition` (src/main.rs:183-187) is an assignment of the state;
`Tokens.TokenType` is `enum TokenType` (src/main.rs:189-197); `Tokens.Token` is
`struct Token` (src/main.rs:199-203); `Scanner.Config` holds the four mutable
fields of `struct Tokenizer` (src/main.rs:21-27), and `Lexer.Tokenizer` holds them
as fields, with the source text as a constant.

The main result is `Scanner.TokenizeCovers`.  Whenever the loop exits, the token
values, concatenated in order, are the whole input with its newlines removed.
Every token is also well formed: a keyword is exactly a keyword, and any other
token is a run of skipped bytes followed by a core of its kind.  The loop does
not always exit.  `EmptyInputNeverExits` and `TrailingSkippedByteNeverExits`
prove that it never exits on empty input, nor on input whose last byte can end
no token at all, such as a trailing newline, `!` or a tab.

Behaviour of the code worth knowing:

- There are no string or character literal states, and there is no error result.
  A byte in no class (a newline, `!`, `.`, a tab) is skipped without a token, and
  `start_char` is not reset.  The skipped byte therefore becomes the first byte
  of the next token's window: `!=` is one Operator `!=`.
- A space is a separator, and it becomes a Seperator token.
- The keyword test sees the raw window, skipped bytes included.  A keyword that
  follows a newline (`"\nint"`) is therefore emitted as Identifier `int`.
- The Operator state extends over any run of one-byte operators.  It never checks
  the whole window against the operator set, so `<>` becomes one Operator token;
  its two-byte entries never match.
- `tokenize` need not terminate (see above).
- A token ends in the middle of the input as soon as the lookahead cannot
  extend it: `a;` is Identifier `a` then Seperator `;`, and `=1` is Operator `=`
  then Number `1`.

## Model

| member | source | states |
|---|---|---|
| CharClass.OneByteOperator | src/main.rs:238-242 | a slice of at most one byte is an operator exactly when it is one of `= < > + - *`; the two-byte entries never match |
| CharClass.OneByteSeperator | src/main.rs:244-247 | a slice of at most one byte is a separator exactly when it is one of `(`, `)`, `{`, `}`, `;` and space |
| CharClass.EmptyInNoClass | src/main.rs:150-159 | the "" that an out-of-range `get_char_at` yields is in no class, not alphanumeric, and not a keyword |
| CharClass.ClassesDisjoint | src/main.rs:46-60 | operator, separator, alphabetic and numeric bytes are pairwise disjoint, so at most one of Start's sequential `if`s fires |
| CharClass.AlphanumericIsAlphaOrNumber | src/main.rs:217-236 | `is_alphanumeric` holds exactly when `is_alpha` or `is_number` holds |
| CharClass.KeywordLetters | src/main.rs:205-208 | every keyword is nonempty and made of letters only |
| CharClass.SkippedLen | src/main.rs:46-60 | the leading run of bytes that Start skips: all of them are unclassified, and the byte after them is classified |
| CharClass.SkippedLenSnoc | src/main.rs:46-60 | appending a byte to a window grows its skipped run only while no classified byte has been seen |
| Tokens.StripNewlines | src/main.rs:162 | `str::replace(value, "\n", "")`: the result has no newline and is no longer than the input |
| Tokens.StripNewlinesCounts | src/main.rs:162 | every byte other than a newline occurs as often in the result as in the input, and the result has no newline |
| Tokens.StripNewlinesAppend | src/main.rs:162 | removing newlines distributes over concatenation |
| Tokens.StripNewlinesIdentity | src/main.rs:162 | a slice without newlines is unchanged |
| Tokens.CreateToken | src/main.rs:161-167 | the token has the given kind and a value without newlines |
| Tokens.CreateTokenWellFormed | src/main.rs:161-167 | a window of the right shape gives a well-formed token |
| Tokens.CoreShapeBytes | src/main.rs:65-115 | the core of a token of any kind is nonempty, holds no newline, and is made of bytes that can end a token |
| CharClass.IsKeyword | src/main.rs:205-208 | `is_keyword`: membership of the window in `{int, double, char, str}` (definition; see `KeywordLetters`) |
| CharClass.IsNumber | src/main.rs:217-222 | `is_number`: the first character is a digit, as the loop that returns on its first pass decides (definition) |
| CharClass.IsAlpha | src/main.rs:224-229 | `is_alpha`: the first character is a letter (definition) |
| CharClass.IsAlphanumeric | src/main.rs:231-236 | `is_alphanumeric`: the first character is a letter or a digit (definition; see `AlphanumericIsAlphaOrNumber`) |
| CharClass.IsOperator | src/main.rs:238-242 | `is_operator`: membership in the operator set (definition; see `OneByteOperator`) |
| CharClass.IsSeperator | src/main.rs:244-247 | `is_seperator`: membership in the separator set (definition; see `OneByteSeperator`) |
| Scanner.GetCharAt | src/main.rs:150-159 | `get_char_at`: the slice, or "" when `get` gives `None` (definition; see `GetCharAtRange`) |
| Scanner.LookAhead | src/main.rs:130-132 | `look_ahead`: the one-byte slice at the cursor (definition; see `LookAheadAtEnd`) |
| Scanner.GetCurrentChar | src/main.rs:142-144 | `get_current_char`: the one-byte slice before the cursor (definition; see `StartStep`) |
| Scanner.GetWindow | src/main.rs:146-148 | `get_window`: the slice from `start_char` to `current_char` (definition; see `EmitStep`) |
| Scanner.TokensExist | src/main.rs:121-123 | `tokens_exist`, the loop condition (definition; see `RunStops`, `ExitCovers`) |
| Scanner.Step | src/main.rs:45-116 | one pass of the `match` in `tokenize`, arm by arm (definition; see `StepInv`, `StepCursor`, `StartStep`, `EmitStep`, `StepPushes`, `PushIff`) |
| Scanner.Run | src/main.rs:44-117 | at most `fuel` passes of the loop, stopping when `tokens_exist` is false (definition; see `RunInv`, `RunStops`, `TokenizeCovers`) |
| Scanner.CannotExtend | src/main.rs:66-115 | the lookahead conditions under which Operator, Identifier, Number and Decimal stop extending the window (definition) |
| Scanner.GetCharAtRange | src/main.rs:150-159 | a range inside the buffer gives the buffer's bytes; any other range, past the end or with its start after its end, gives "" |
| Scanner.LookAheadAtEnd | src/main.rs:130-132 | at or past the end of input the lookahead is "" and extends no token |
| Scanner.StepCursor | src/main.rs:43-118 | one iteration moves `current_char` forward by at most one and never back; `start_char` changes only in Final, where it becomes `current_char`; `tokens` only grows, by at most one |
| Scanner.StartStep | src/main.rs:46-60 | Start consumes one byte and moves to the state of that byte's class; a byte in no class, or the end of input, leaves it in Start |
| Scanner.EmitStep | src/main.rs:65-115 | a step that pushes a token pushes the window without newlines, of the kind of the state, well formed, and only when the lookahead cannot extend it; an Identifier is pushed only when its window is not a keyword |
| Scanner.StepPushes | src/main.rs:65-115 | the converse of `EmitStep`, anywhere in the input: a building state whose lookahead cannot extend the window pushes the window without newlines as a token of its kind and moves to Final, except that an Identifier whose window is a keyword moves to Keyword |
| Scanner.PushIff | src/main.rs:65-115 | a building state pushes a token exactly when its lookahead cannot extend the window, unless it is an Identifier whose window is a keyword |
| Scanner.StepInv | src/main.rs:43-118 | every iteration keeps the invariant: the window lies inside the buffer, the tokens so far are well formed and cover the input up to the window, and the window has the shape of the state |
| Scanner.InitialInv | src/main.rs:30-41 | the initial configuration satisfies the invariant |
| Scanner.RunInv | src/main.rs:44-117 | the invariant holds after any number of iterations |
| Scanner.RunPreserves | src/main.rs:44-117 | any property that every iteration keeps holds after any number of iterations |
| Scanner.RunMonotone | src/main.rs:44-117 | over a whole run, `current_char` grows by at most the number of iterations and `start_char` never moves back; tokens are only appended |
| Scanner.RunExtend | src/main.rs:43-118 | if the loop condition still holds, `k + 1` iterations are one more iteration after `k` |
| Scanner.RunStops | src/main.rs:121-123 | once `tokens_exist` is false, further iterations change nothing |
| Scanner.LoopExit | src/main.rs:43-118 | where the loop stops, the configuration is the run's result and keeps the invariant; if `tokens_exist` is false there, the tokens cover the input |
| Scanner.ExitCovers | src/main.rs:121-123 | when the loop exits, `current_char` is the length of the nonempty input, the last byte can end a token, and the token values concatenate to the input without newlines |
| Scanner.TokenizeCovers | src/main.rs:43-118 | if `tokenize` returns, the concatenated token values are the input without newlines, and every token is well formed |
| Scanner.StartPastEndStays | src/main.rs:46-60 | Start at or past the end of input never leaves Start; each iteration only moves the cursor |
| Scanner.EmptyInputNeverExits | src/main.rs:121-123 | on empty input the loop condition stays true forever and no token is pushed |
| Scanner.TrailingSkippedByteNeverExits | src/main.rs:44-60 | on input whose last byte can end no token (a newline, `!`, a tab: anything but a classified byte or `.`), the loop never exits |
| Lexer.Tokenizer.CreateTokenizer | src/main.rs:30-41 | state Start, `current_char == start_char == 0`, no tokens, and the invariant holds |
| Lexer.Tokenizer.NextCharacter | src/main.rs:125-127 | `current_char` grows by one, and nothing else changes |
| Lexer.Tokenizer.Transition | src/main.rs:138-140 | the state becomes the given state, and nothing else changes |
| Lexer.Tokenizer.GetTokens | src/main.rs:134-136 | returns the tokens |
| Lexer.Tokenizer.Iterate | src/main.rs:45-116 | the fields after one arm of the `match` are `Step` of the fields before |
| Lexer.Tokenizer.Tokenize | src/main.rs:43-118 | the fields after the loop are `Run` of the fields before; `finished` holds exactly when `tokens_exist` is false; if it holds, the tokens cover the input without newlines; all tokens are well formed |
| Examples.TraceRun | src/main.rs:43-118 | following a trace of consecutive iterations that ends with the loop condition false gives the result of the loop |
| Examples.StartOn | src/main.rs:46-60 | Start moves to Operator, Seperator, Identifier or Number according to the class of the byte it consumes, and stays in Start on a byte in no class |
| Examples.Grow | src/main.rs:65-115 | Operator, Identifier, Number and Decimal advance over a lookahead byte of their class |
| Examples.Dot | src/main.rs:98-101 | Number with a `.` lookahead moves to Decimal and consumes the dot |
| Examples.StuckOn | src/main.rs:65-115 | at the end of the input, or before a byte that does not extend the state, the lookahead cannot extend the window |
| Examples.ToKeyword | src/main.rs:77-83 | an Identifier whose whole window is a keyword and whose lookahead cannot extend it moves to Keyword without consuming a byte, anywhere in the input |
| Examples.Stop | src/main.rs:65-115 | a state whose lookahead cannot extend its window, anywhere in the input, pushes the window without newlines as a token of its kind and moves to Final (an Identifier only if the window is not a keyword); Seperator and Keyword push at once |
| Examples.DecimalExample | src/main.rs:94-115 | `3.14` gives one token, Decimal `3.14` |
| Examples.WholeWindowKeywordExample | src/main.rs:77-93 | `ints` gives one Identifier `ints`, not Keyword `int` followed by more |
| Examples.GreedyOperatorExample | src/main.rs:65-72 | any two operator bytes give one Operator token of both bytes |
| Examples.SkippedPrefixExample | src/main.rs:46-60 | `!=` gives one Operator `!=`: the skipped `!` prefixes the window |
| Examples.KeywordAfterNewlineExample | src/main.rs:46-93 | `"\nint"` gives Identifier `int`, since the keyword test sees the raw window `"\nint"` |
| Examples.KeywordExample | src/main.rs:77-93 | `int` gives one token, Keyword `int` |
| Examples.SeperatorExample | src/main.rs:73-76 | `( ` gives Seperator `(` then Seperator ` `: a space is a separator |
| Examples.IdentifierThenSeperatorExample | src/main.rs:46-89 | `a;` gives Identifier `a` then Seperator `;`: the Identifier is pushed in the middle of the input |
| Examples.OperatorThenNumberExample | src/main.rs:46-106 | `=1` gives Operator `=` then Number `1`: the Operator is pushed in the middle of the input |

## Left out

- `main` (src/main.rs:5-19) is not modelled.  It reads a file and prints the tokens, which is I/O.
- `is_end_of_token` and `clean` are not modelled because nothing calls them.  The unused `std::thread::current` import is left out for the same reason.
- Unicode is not modelled.  The model works on bytes with ASCII classes.  `str::get` returning `None` on a range that is not on a character boundary, and the Unicode meaning of `is_numeric` and `is_alphabetic`, are both left out.
- The `HashSet` that each predicate rebuilds on every call is not modelled; each set is a constant.
- `usize` overflow of the cursor is not modelled (the integers are unbounded).  The `current_char - 1` in `get_current_char` is only reached after `next_character`, so it never underflows.
- Scanner.TrailingSkippedByteNeverExits: covers only a last byte that can end no token.  A trailing `.` that no Number consumes, as in `a.`, also makes the loop run forever, and no lemma states that case.
- General termination is not proved.  The loop provably runs forever on some inputs (`Scanner.EmptyInputNeverExits`, `Scanner.TrailingSkippedByteNeverExits`).
- Lexer.Tokenizer.Tokenize: runs at most `fuel` iterations and reports through `finished` whether the loop condition became false.  The source's loop has no bound, so its promises are stated for the case where the loop exits.
- `get_tokens` takes the tokenizer by value.  The model returns the token sequence and leaves out the move of ownership.
- Lexer.Tokenizer.Iterate: the loop body of `tokenize`, written as a method of its own so that the loop can be proved one iteration at a time.
- The Examples lemmas cover only a few small inputs.  The general statements are the Scanner lemmas.
