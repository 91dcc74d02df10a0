/** The token source the parser reads from. Scanning rules are not part of
    this model: a lexer is a finite sequence of tokens that, once exhausted,
    keeps returning an EOF token. */
module Lexing {
  import opened Tokens

  /** The token returned after the end of the sequence. */
  const EofToken: Token := Token(EOF, "")

  /** The token at position `i` of the stream: the i-th token, or EOF past the end. */
  function At(tokens: seq<Token>, i: nat): (t: Token)
    ensures i >= |tokens| ==> t.kind == EOF
    ensures t.kind != EOF ==> i < |tokens|
  {
    if i < |tokens| then tokens[i] else EofToken
  }

  class Lexer {
    const tokens: seq<Token>
    /** How many tokens have been handed out. */
    var pos: nat

    constructor (tokens: seq<Token>)
      ensures this.tokens == tokens && pos == 0
    {
      this.tokens := tokens;
      pos := 0;
    }

    method GetNextToken() returns (t: Token)
      modifies this
      ensures t == At(tokens, old(pos)) && pos == old(pos) + 1
    {
      t := if pos < |tokens| then tokens[pos] else EofToken;
      pos := pos + 1;
    }
  }
}
