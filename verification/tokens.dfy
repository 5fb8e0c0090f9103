/** Tokens as the lexer hands them to the parser: a kind and an optional literal value. */
module Tokens {

  /** A 32-bit signed integer, the width in which the lexer stores integer and character literals. */
  newtype int32 = x: int | -0x8000_0000 <= x < 0x8000_0000

  /** A floating literal, carried as its IEEE-754 bit pattern; the front end never computes with it. */
  datatype FloatBits = FloatBits(bits: bv64)

  /**
   * The token kinds the parser distinguishes, as an enumeration of distinct codes. The parser only
   * compares kinds for equality, so the numbering carries no meaning; `Other` stands for every kind
   * the parser never names (other operators, the end-of-file marker, ...).
   */
  newtype TokenKind = k: int | 0 <= k < 40
  const KwAuto: TokenKind := 0
  const KwChar: TokenKind := 1
  const KwShort: TokenKind := 2
  const KwInt: TokenKind := 3
  const KwLong: TokenKind := 4
  const KwFloat: TokenKind := 5
  const KwDouble: TokenKind := 6
  const KwSigned: TokenKind := 7
  const KwUnsigned: TokenKind := 8
  const KwIf: TokenKind := 9
  const KwElse: TokenKind := 10
  const KwDo: TokenKind := 11
  const KwWhile: TokenKind := 12
  const KwFor: TokenKind := 13
  const KwBreak: TokenKind := 14
  const KwContinue: TokenKind := 15
  const KwReturn: TokenKind := 16
  const Identifier: TokenKind := 17
  const CharConstant: TokenKind := 18
  const StringLiteral: TokenKind := 19
  const NumericConstant: TokenKind := 20
  const LParen: TokenKind := 21
  const RParen: TokenKind := 22
  const LBrace: TokenKind := 23
  const RBrace: TokenKind := 24
  const Semi: TokenKind := 25
  const Comma: TokenKind := 26
  const Star: TokenKind := 27
  const Equal: TokenKind := 28
  const PlusEqual: TokenKind := 29
  const StarEqual: TokenKind := 30
  const MinusEqual: TokenKind := 31
  const SlashEqual: TokenKind := 32
  const PercentEqual: TokenKind := 33
  const LessLessEqual: TokenKind := 34
  const GreaterGreaterEqual: TokenKind := 35
  const PipeEqual: TokenKind := 36
  const AmpEqual: TokenKind := 37
  const CaretEqual: TokenKind := 38
  const Other: TokenKind := 39

  /** The literal payload of a token: nothing, an int32, a double or a string. */
  datatype TokenValue = NoValue | IntValue(i: int32) | DoubleValue(d: FloatBits) | StringValue(s: string)

  datatype Token = Token(kind: TokenKind, value: TokenValue)

  /** A token that carries no value, such as a keyword or a punctuator. */
  function Tok(k: TokenKind): Token {
    Token(k, NoValue)
  }

  /** An identifier token spelling `name`. */
  function IdentTok(name: string): Token {
    Token(Identifier, StringValue(name))
  }

  /** The nine keywords that may start a type. */
  predicate IsTypeKeyword(k: TokenKind) {
    k == KwAuto || k == KwChar || k == KwShort || k == KwInt || k == KwLong ||
    k == KwFloat || k == KwDouble || k == KwSigned || k == KwUnsigned
  }

  /** The eleven assignment operators. */
  predicate IsAssignOperator(k: TokenKind) {
    k == Equal || k == PlusEqual || k == StarEqual || k == MinusEqual || k == SlashEqual || k == PercentEqual ||
    k == LessLessEqual || k == GreaterGreaterEqual || k == PipeEqual || k == AmpEqual || k == CaretEqual
  }

  /** `toks` holds the elements `xs` starting at index `pos`. */
  ghost predicate At<T>(toks: seq<T>, pos: nat, xs: seq<T>)
    decreases |xs|
  {
    pos + |xs| <= |toks| && (xs == [] || (toks[pos] == xs[0] && At(toks, pos + 1, xs[1..])))
  }

  /** The first index at or after `pos` that does not hold a type keyword (`pos` itself when past the end). */
  function TypeRunEnd(toks: seq<Token>, pos: nat): (e: nat)
    ensures pos <= e
    ensures pos < e ==> e <= |toks|
    ensures forall i :: pos <= i < e ==> IsTypeKeyword(toks[i].kind)
    ensures e < |toks| ==> !IsTypeKeyword(toks[e].kind)
    decreases |toks| - pos
  {
    if pos < |toks| && IsTypeKeyword(toks[pos].kind) then TypeRunEnd(toks, pos + 1) else pos
  }

  /** The first index at or after `pos` that does not hold a `*` (`pos` itself when past the end). */
  function StarRunEnd(toks: seq<Token>, pos: nat): (e: nat)
    ensures pos <= e
    ensures pos < e ==> e <= |toks|
    ensures forall i :: pos <= i < e ==> toks[i].kind == Star
    ensures e < |toks| ==> toks[e].kind != Star
    decreases |toks| - pos
  {
    if pos < |toks| && toks[pos].kind == Star then StarRunEnd(toks, pos + 1) else pos
  }

  /** `At` splits along a concatenation. */
  lemma {:induction false} AtSplit<T>(toks: seq<T>, pos: nat, a: seq<T>, b: seq<T>)
    ensures At(toks, pos, a + b) <==> At(toks, pos, a) && At(toks, pos + |a|, b)
    decreases |a|
  {
    if a == [] {
      assert a + b == b;
    } else {
      assert (a + b)[1..] == a[1..] + b;
      AtSplit(toks, pos + 1, a[1..], b);
    }
  }

  /** Where a concatenation is placed, so are its two parts, one after the other. */
  lemma AtParts<T>(toks: seq<T>, pos: nat, whole: seq<T>, a: seq<T>, b: seq<T>)
    requires whole == a + b && At(toks, pos, whole)
    ensures At(toks, pos, a) && At(toks, pos + |a|, b)
  {
    AtSplit(toks, pos, a, b);
  }

  /** The elements `At` places. */
  lemma {:induction false} AtIndex<T>(toks: seq<T>, pos: nat, xs: seq<T>, i: nat)
    requires At(toks, pos, xs) && i < |xs|
    ensures toks[pos + i] == xs[i]
    decreases i
  {
    if i > 0 {
      AtIndex(toks, pos + 1, xs[1..], i - 1);
    }
  }

  /** A sequence holds itself from its start. */
  lemma {:induction false} AtSelf<T>(toks: seq<T>, pos: nat)
    requires pos <= |toks|
    ensures At(toks, pos, toks[pos..])
    decreases |toks| - pos
  {
    if pos < |toks| {
      assert toks[pos..][1..] == toks[pos + 1..];
      AtSelf(toks, pos + 1);
    }
  }

  /** What `At` says of a prefix of a sequence holds of the whole sequence. */
  lemma {:induction false} AtPrefix<T>(toks: seq<T>, len: nat, pos: nat, xs: seq<T>)
    requires len <= |toks| && At(toks[..len], pos, xs)
    ensures At(toks, pos, xs)
    decreases |xs|
  {
    if xs != [] {
      AtPrefix(toks, len, pos + 1, xs[1..]);
    }
  }

  /** A non-empty sequence is its head in front of its tail. */
  lemma SeqCons<T>(s: seq<T>)
    requires s != []
    ensures [s[0]] + s[1..] == s
  {
  }

  /** Concatenation is associative. */
  lemma SeqAssoc<T>(a: seq<T>, b: seq<T>, c: seq<T>)
    ensures a + b + c == a + (b + c)
  {
  }
}
