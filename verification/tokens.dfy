/** Lexical token kinds of the SQL SELECT scanner, their integer codes
    (the Go constants are consecutive from ILLEGAL = 0) and their names. */
module Tokens {

  datatype Option<T> = None | Some(value: T)

  datatype Token =
    // special tokens
    | Illegal | Eof | Ws
    // literals
    | Ident | Number | String
    // single characters
    | Asterisk | Comma | ParenL | ParenR
    // comparison operators
    | Eq | Ne | Gt | Lt | Ge | Le
    // keywords
    | Select | From | Where | And | Or

  /** A token paired with the exact text it was scanned from. */
  datatype Lexeme = Lexeme(tok: Token, lit: string)

  /** Number of declared tokens. */
  const TokenCount: nat := 21

  /** The integer value of each constant: its position in declaration order. */
  function Code(t: Token): (n: nat)
    ensures n < TokenCount
  {
    match t
    case Illegal => 0
    case Eof => 1
    case Ws => 2
    case Ident => 3
    case Number => 4
    case String => 5
    case Asterisk => 6
    case Comma => 7
    case ParenL => 8
    case ParenR => 9
    case Eq => 10
    case Ne => 11
    case Gt => 12
    case Lt => 13
    case Ge => 14
    case Le => 15
    case Select => 16
    case From => 17
    case Where => 18
    case And => 19
    case Or => 20
  }

  /** The declared token with integer value `n`, if any. */
  function FromCode(n: int): (r: Option<Token>)
    ensures r.Some? <==> 0 <= n < TokenCount
    ensures r.Some? ==> Code(r.value) == n
  {
    if n == 0 then Some(Illegal)
    else if n == 1 then Some(Eof)
    else if n == 2 then Some(Ws)
    else if n == 3 then Some(Ident)
    else if n == 4 then Some(Number)
    else if n == 5 then Some(String)
    else if n == 6 then Some(Asterisk)
    else if n == 7 then Some(Comma)
    else if n == 8 then Some(ParenL)
    else if n == 9 then Some(ParenR)
    else if n == 10 then Some(Eq)
    else if n == 11 then Some(Ne)
    else if n == 12 then Some(Gt)
    else if n == 13 then Some(Lt)
    else if n == 14 then Some(Ge)
    else if n == 15 then Some(Le)
    else if n == 16 then Some(Select)
    else if n == 17 then Some(From)
    else if n == 18 then Some(Where)
    else if n == 19 then Some(And)
    else if n == 20 then Some(Or)
    else None
  }

  /** The upper-case name of a declared token. */
  function Name(t: Token): string
  {
    match t
    case Illegal => "ILLEGAL"
    case Eof => "EOF"
    case Ws => "WS"
    case Ident => "IDENT"
    case Number => "NUMBER"
    case String => "STRING"
    case Asterisk => "ASTERISK"
    case Comma => "COMMA"
    case ParenL => "PAREN_L"
    case ParenR => "PAREN_R"
    case Eq => "EQ"
    case Ne => "NE"
    case Gt => "GT"
    case Lt => "LT"
    case Ge => "GE"
    case Le => "LE"
    case Select => "SELECT"
    case From => "FROM"
    case Where => "WHERE"
    case And => "AND"
    case Or => "OR"
  }

  /** `Token(n).String()`: the name of the token with value `n`, or "UNKNOWN". */
  function CodeName(n: int): string
  {
    match FromCode(n)
    case Some(t) => Name(t)
    case None => "UNKNOWN"
  }

  /** The codes are a bijection between the declared tokens and 0 .. 20. */
  lemma CodeRoundTrip(t: Token)
    ensures FromCode(Code(t)) == Some(t)
  {
  }

  lemma CodeInjective(a: Token, b: Token)
    ensures Code(a) == Code(b) ==> a == b
  {
    CodeRoundTrip(a);
    CodeRoundTrip(b);
  }

  /** Every declared token renders as its own name, and none renders as "UNKNOWN". */
  lemma CodeNameOfToken(t: Token)
    ensures CodeName(Code(t)) == Name(t)
    ensures Name(t) != "UNKNOWN"
  {
    CodeRoundTrip(t);
  }

  /** Values outside the declared constants render as "UNKNOWN", and only those. */
  lemma CodeNameUnknown(n: int)
    ensures CodeName(n) == "UNKNOWN" <==> !(0 <= n < TokenCount)
  {
    if 0 <= n < TokenCount {
      CodeNameOfToken(FromCode(n).value);
    }
  }

  /** The token whose name is `s`, if any: the inverse of `Name`. */
  function FromName(s: string): (r: Option<Token>)
  {
    if s == "ILLEGAL" then Some(Illegal)
    else if s == "EOF" then Some(Eof)
    else if s == "WS" then Some(Ws)
    else if s == "IDENT" then Some(Ident)
    else if s == "NUMBER" then Some(Number)
    else if s == "STRING" then Some(String)
    else if s == "ASTERISK" then Some(Asterisk)
    else if s == "COMMA" then Some(Comma)
    else if s == "PAREN_L" then Some(ParenL)
    else if s == "PAREN_R" then Some(ParenR)
    else if s == "EQ" then Some(Eq)
    else if s == "NE" then Some(Ne)
    else if s == "GT" then Some(Gt)
    else if s == "LT" then Some(Lt)
    else if s == "GE" then Some(Ge)
    else if s == "LE" then Some(Le)
    else if s == "SELECT" then Some(Select)
    else if s == "FROM" then Some(From)
    else if s == "WHERE" then Some(Where)
    else if s == "AND" then Some(And)
    else if s == "OR" then Some(Or)
    else None
  }

  lemma NameRoundTrip(t: Token)
    ensures FromName(Name(t)) == Some(t)
  {
  }

  /** No two tokens share a name. */
  lemma NameInjective(a: Token, b: Token)
    ensures Name(a) == Name(b) ==> a == b
  {
    NameRoundTrip(a);
    NameRoundTrip(b);
  }
}
