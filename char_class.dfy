/** Character classes of the tokenizer.

    The source buffer is treated as a sequence of bytes.  A byte is written as the
    `char` with the same code, so that literals such as "int" can be used directly.
    Every class predicate takes a slice (a `&str` in the source); the tokenizer
    only ever hands them slices of at most one byte, or a whole window for
    `IsKeyword`.  Classification is ASCII: bytes 128..255 are in no class.
 */
module CharClass {

  /** One byte of the source buffer. */
  type Byte = c: char | c as int < 256 witness ' '

  /** A slice of the source buffer (a `&str` in the source). */
  type Chars = seq<Byte>

  const Keywords: set<Chars> := {"int", "double", "char", "str"}

  /** The operator set mixes one- and two-byte entries. */
  const Operators: set<Chars> := {"=", "==", "<", ">", "<=", ">=", "!=", "+", "-", "*", "=>"}

  /** A space is a separator. */
  const Seperators: set<Chars> := {"(", ")", "{", "}", " ", ";"}

  /** The one-byte entries of `Operators`. */
  const OperatorBytes: set<Byte> := {'=', '<', '>', '+', '-', '*'}

  /** The entries of `Seperators`, all of one byte. */
  const SeperatorBytes: set<Byte> := {'(', ')', '{', '}', ' ', ';'}

  /** `char::is_numeric` on ASCII. */
  predicate IsDigit(b: Byte) { '0' <= b <= '9' }

  /** `char::is_alphabetic` on ASCII. */
  predicate IsLetter(b: Byte) { 'a' <= b <= 'z' || 'A' <= b <= 'Z' }

  predicate IsKeyword(s: Chars) { s in Keywords }

  /** `is_number` returns from inside its loop, so only the first byte decides. */
  predicate IsNumber(s: Chars) { |s| > 0 && IsDigit(s[0]) }

  predicate IsAlpha(s: Chars) { |s| > 0 && IsLetter(s[0]) }

  predicate IsAlphanumeric(s: Chars) { |s| > 0 && (IsLetter(s[0]) || IsDigit(s[0])) }

  predicate IsOperator(s: Chars) { s in Operators }

  predicate IsSeperator(s: Chars) { s in Seperators }

  /** A byte that moves the Start state somewhere else. */
  predicate Classified(b: Byte) {
    IsOperator([b]) || IsSeperator([b]) || IsAlpha([b]) || IsNumber([b])
  }

  /** A byte that can end a completed token: a classified byte, or the dot of a decimal. */
  predicate CoreByte(b: Byte) { Classified(b) || b == '.' }

  /** Bytes that the Start state skips over. */
  predicate Unclassified(s: Chars) { forall i | 0 <= i < |s| :: !Classified(s[i]) }

  /** Length of the leading run of bytes that the Start state skips. */
  function SkippedLen(s: Chars): (n: nat)
    ensures n <= |s|
    ensures Unclassified(s[..n])
    ensures n < |s| ==> Classified(s[n])
  {
    if |s| == 0 || Classified(s[0]) then 0 else 1 + SkippedLen(s[1..])
  }

  /** The part of a window after the skipped bytes. */
  function Core(s: Chars): Chars { s[SkippedLen(s)..] }

  // ---------------------------------------------------------------------------
  // Facts about the classes

  /** An operator slice of at most one byte is one of the six one-byte operators:
      the two-byte entries of the set can never match a lookahead. */
  lemma OneByteOperator(s: Chars)
    requires |s| <= 1
    ensures IsOperator(s) <==> |s| == 1 && s[0] in OperatorBytes
  {
    if |s| == 1 {
      assert s == [s[0]];
    }
  }

  /** A separator slice of at most one byte is one of the separator bytes; in
      particular the space is a separator. */
  lemma OneByteSeperator(s: Chars)
    requires |s| <= 1
    ensures IsSeperator(s) <==> |s| == 1 && s[0] in SeperatorBytes
  {
    if |s| == 1 {
      assert s == [s[0]];
    }
  }

  /** The empty slice (what an out-of-range lookup yields) is in no class. */
  lemma EmptyInNoClass()
    ensures !IsOperator([]) && !IsSeperator([]) && !IsAlpha([]) && !IsNumber([])
    ensures !IsAlphanumeric([]) && !IsKeyword([])
  {
  }

  /** The four Start classes are pairwise disjoint, so at most one of the
      sequential tests in the Start state fires. */
  lemma ClassesDisjoint(b: Byte)
    ensures IsOperator([b]) ==> !IsSeperator([b]) && !IsAlpha([b]) && !IsNumber([b])
    ensures IsSeperator([b]) ==> !IsAlpha([b]) && !IsNumber([b])
    ensures IsAlpha([b]) ==> !IsNumber([b])
  {
  }

  /** Alphanumeric is exactly alphabetic or numeric. */
  lemma AlphanumericIsAlphaOrNumber(s: Chars)
    ensures IsAlphanumeric(s) <==> IsAlpha(s) || IsNumber(s)
  {
  }

  /** A keyword is made of letters only, so none of its bytes is skipped. */
  lemma KeywordLetters(s: Chars)
    requires IsKeyword(s)
    ensures |s| > 0 && forall i | 0 <= i < |s| :: IsLetter(s[i])
  {
  }

  /** Appending one byte to a window: the skipped run grows only while no
      classified byte has been seen. */
  lemma {:induction false} SkippedLenSnoc(s: Chars, b: Byte)
    ensures SkippedLen(s + [b]) ==
            if SkippedLen(s) < |s| || Classified(b) then SkippedLen(s) else |s| + 1
  {
    if |s| == 0 {
    } else {
      assert (s + [b])[0] == s[0];
      assert (s + [b])[1..] == s[1..] + [b];
      if !Classified(s[0]) {
        SkippedLenSnoc(s[1..], b);
      }
    }
  }

  /** A window that has a core keeps the same split when extended. */
  lemma {:induction false} CoreSnoc(s: Chars, b: Byte)
    requires SkippedLen(s) < |s| || Classified(b)
    ensures SkippedLen(s + [b]) == SkippedLen(s)
    ensures Core(s + [b]) == Core(s) + [b]
  {
    SkippedLenSnoc(s, b);
    var k := SkippedLen(s);
    assert (s + [b])[k..] == s[k..] + [b];
  }

  /** A window made only of skipped bytes is all skipped. */
  lemma {:induction false} SkippedLenOfUnclassified(s: Chars)
    requires Unclassified(s)
    ensures SkippedLen(s) == |s|
  {
    if |s| > 0 {
      assert s[0] == s[0];
      SkippedLenOfUnclassified(s[1..]);
    }
  }
}
