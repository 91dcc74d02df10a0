/** Token kinds, tokens and the keyword table of token/token.go. */
module Tokens {
  import opened Wrappers

  /** The token kinds. Go represents each kind by a string constant; the
      constructor names follow those constants. IDENTIFIER and RETURN are
      used by the parser but declared outside token/token.go. */
  datatype TokenType =
    | ILLEGAL | EOF
    | IDENT | INT
    | LET | FUNCTION
    | COMMA | SEMICOLON
    | LPAREN | RPAREN | LBRACKET | RBRACKET | LSQPAREN | RSQPAREN
    | EQUAL | PLUS
    | IDENTIFIER | RETURN

  /** The string that represents a kind in Go (it appears in error messages). */
  function Name(t: TokenType): string
  {
    match t
    case ILLEGAL => "ILLEGAL"
    case EOF => "EOF"
    case IDENT => "IDENT"
    case INT => "INT"
    case LET => "LET"
    case FUNCTION => "FUNCTION"
    case COMMA => ","
    case SEMICOLON => ";"
    case LPAREN => "("
    case RPAREN => ")"
    case LBRACKET => "{"
    case RBRACKET => "}"
    case LSQPAREN => "["
    case RSQPAREN => "]"
    case EQUAL => "="
    case PLUS => "+"
    case IDENTIFIER => "IDENTIFIER"
    case RETURN => "RETURN"
  }

  /** Reads a kind back from its string. */
  function KindOfName(s: string): Option<TokenType>
  {
    if s == "ILLEGAL" then Some(ILLEGAL)
    else if s == "EOF" then Some(EOF)
    else if s == "IDENT" then Some(IDENT)
    else if s == "INT" then Some(INT)
    else if s == "LET" then Some(LET)
    else if s == "FUNCTION" then Some(FUNCTION)
    else if s == "," then Some(COMMA)
    else if s == ";" then Some(SEMICOLON)
    else if s == "(" then Some(LPAREN)
    else if s == ")" then Some(RPAREN)
    else if s == "{" then Some(LBRACKET)
    else if s == "}" then Some(RBRACKET)
    else if s == "[" then Some(LSQPAREN)
    else if s == "]" then Some(RSQPAREN)
    else if s == "=" then Some(EQUAL)
    else if s == "+" then Some(PLUS)
    else if s == "IDENTIFIER" then Some(IDENTIFIER)
    else if s == "RETURN" then Some(RETURN)
    else None
  }

  /** Every kind is recovered from its string. */
  lemma NameRoundTrip(t: TokenType)
    ensures KindOfName(Name(t)) == Some(t)
  {
    match t
    case ILLEGAL =>
    case EOF =>
    case IDENT =>
    case INT =>
    case LET =>
    case FUNCTION =>
    case COMMA =>
    case SEMICOLON =>
    case LPAREN =>
    case RPAREN =>
    case LBRACKET =>
    case RBRACKET =>
    case LSQPAREN =>
    case RSQPAREN =>
    case EQUAL =>
    case PLUS =>
    case IDENTIFIER =>
    case RETURN =>
  }

  /** The kind strings are pairwise distinct, so comparing two kinds by their
      strings (as Go does) is the same as comparing the kinds. */
  lemma NamesDistinct(a: TokenType, b: TokenType)
    ensures Name(a) == Name(b) <==> a == b
  {
    NameRoundTrip(a);
    NameRoundTrip(b);
  }

  datatype Token = Token(kind: TokenType, literal: string)

  /** The keyword table: source text to keyword token. */
  const KeywordTable: map<string, Token> :=
    map["let" := Token(LET, "let"), "fn" := Token(FUNCTION, "fn")]

  /** The table has exactly the two keywords "let" and "fn". */
  lemma KeywordTableShape()
    ensures KeywordTable.Keys == {"let", "fn"}
    ensures |KeywordTable| == 2
  {
    assert "let" != "fn";
  }

  /** Looks a source word up in the keyword table; None is Go's `ok == false`. */
  function MapSourceToToken(source: string): (r: Option<Token>)
    ensures r.Some? <==> source == "let" || source == "fn"
    ensures source == "let" ==> r == Some(Token(LET, "let"))
    ensures source == "fn" ==> r == Some(Token(FUNCTION, "fn"))
    ensures r.Some? ==> r.value.literal == source
  {
    if source in KeywordTable then Some(KeywordTable[source]) else None
  }
}
