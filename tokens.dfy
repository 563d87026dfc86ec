/** The token stream consumed by the TEXTURES parser. The tokenizer itself
    (splitting text into tokens, stripping quotes, converting numerals) is
    not part of this model: a stream is a sequence of tokens, each carrying
    its text and its integer and floating-point readings, and a cursor that
    designates the current token. Past the last token the current token is
    an empty one. */
module Tokens {
  import opened Text

  datatype Token = Token(text: string, intValue: int, floatValue: real)

  /** What the stream yields past its end. */
  const NoToken := Token("", 0, 0.0)

  /** The token at position [p], or the empty token past the end. */
  function At(toks: seq<Token>, p: nat): (t: Token)
    ensures p >= |toks| ==> t == NoToken
  {
    if p < |toks| then toks[p] else NoToken
  }

  /** The cursor after moving [n] tokens forward from [p]; it never moves
      past the end of the stream. */
  function Step(toks: seq<Token>, p: nat, n: nat): (q: nat)
    requires p <= |toks|
    ensures p <= q <= |toks|
    ensures q == p + n || q == |toks|
  {
    if p + n <= |toks| then p + n else |toks|
  }

  /** The token at [p] reads exactly [s]. */
  predicate IsAt(toks: seq<Token>, p: nat, s: string) {
    At(toks, p).text == s
  }

  /** The token at [p] reads [s], ignoring case. */
  predicate IsAtNC(toks: seq<Token>, p: nat, s: string) {
    EqualsNoCase(At(toks, p).text, s)
  }

  /** A token stream with a cursor (the Tokenizer collaborator). */
  class Tokenizer {
    const tokens: seq<Token>
    var pos: nat

    ghost predicate Valid()
      reads this
    {
      pos <= |tokens|
    }

    constructor (toks: seq<Token>)
      ensures Valid() && tokens == toks && pos == 0
    {
      tokens := toks;
      pos := 0;
    }

    function Current(): Token
      reads this
    {
      At(tokens, pos)
    }

    /** The current token reads exactly [s]. */
    predicate Check(s: string)
      reads this
    {
      IsAt(tokens, pos, s)
    }

    /** The current token reads [s], ignoring case. */
    predicate CheckNC(s: string)
      reads this
    {
      IsAtNC(tokens, pos, s)
    }

    /** The token after the current one reads exactly [s]. */
    predicate CheckNext(s: string)
      reads this
    {
      IsAt(tokens, pos + 1, s)
    }

    predicate AtEnd()
      reads this
    {
      pos >= |tokens|
    }

    predicate CheckOrEnd(s: string)
      reads this
    {
      AtEnd() || Check(s)
    }

    /** Moves [n] tokens forward. */
    method Adv(n: nat)
      requires Valid()
      modifies this
      ensures Valid() && pos == Step(tokens, old(pos), n)
    {
      pos := Step(tokens, pos, n);
    }

    /** Moves to the next token and returns it. */
    method Next() returns (t: Token)
      requires Valid()
      modifies this
      ensures Valid() && pos == Step(tokens, old(pos), 1) && t == At(tokens, pos)
    {
      pos := Step(tokens, pos, 1);
      t := At(tokens, pos);
    }

    /** When the next token reads [s], moves [n] tokens forward. */
    method AdvIfNext(s: string, n: nat) returns (moved: bool)
      requires Valid()
      modifies this
      ensures Valid() && moved == IsAt(tokens, old(pos) + 1, s)
      ensures pos == if moved then Step(tokens, old(pos), n) else old(pos)
    {
      moved := CheckNext(s);
      if moved {
        pos := Step(tokens, pos, n);
      }
    }
  }
}
