/** Results and syntax errors shared by both parsers. */
module Parsing {
  import opened Tokens
  import opened TokenStream

  /** The construct a parser expected where it found something else. */
  datatype Expected =
    | SelectKeyword   // the statement does not start with SELECT
    | FromKeyword     // the field list is not followed by FROM
    | WhereKeyword    // the table list is followed by neither WHERE nor the end
    | FieldName       // a list entry is neither an identifier nor `*`
    | TableName       // the older parser's table is not an identifier
    | Operand         // a condition operand is neither `(` nor an identifier
    | Conjunction     // an operand is followed by none of AND, OR, `)` or the end
    | ClosingParen    // only the corrected condition parser: a `(` operand left open

  datatype SyntaxError =
    | Unexpected(found: string, expected: Expected)
      /** A field or table list failed; the cause is the list's own error. */
    | InFields(cause: SyntaxError)

  datatype Result<T> = Ok(value: T) | Err(error: SyntaxError)

  datatype Parsed<T> = Parsed(result: Result<T>, next: int)

  /** A measure that shrinks with every token read from inside the stream. */
  function Remaining(toks: seq<Lexeme>, k: int): nat
  {
    if k <= |toks| then |toks| + 1 - k else 0
  }

  /** The result of a list parse with `items` already read in front of it. */
  function Prefixed<T>(items: seq<T>, p: Parsed<seq<T>>): Parsed<seq<T>>
  {
    Parsed(if p.result.Ok? then Ok(items + p.result.value) else p.result, p.next)
  }

  lemma PrefixedEmpty<T>(p: Parsed<seq<T>>)
    ensures Prefixed([], p) == p
  {
    if p.result.Ok? {
      assert [] + p.result.value == p.result.value;
    }
  }

  lemma PrefixedTwice<T>(a: seq<T>, b: seq<T>, p: Parsed<seq<T>>)
    ensures Prefixed(a, Prefixed(b, p)) == Prefixed(a + b, p)
  {
    if p.result.Ok? {
      assert a + (b + p.result.value) == (a + b) + p.result.value;
    }
  }
}
