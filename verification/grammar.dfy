/** What the SELECT parser and the condition parser compute, as functions of
    the token stream and the stream index they start from. Each returns the
    result and the stream index the parser is left at (counting a pushed-back
    token as not read). */
module Grammar {
  import opened Tokens
  import opened TokenStream
  import opened Ast
  import opened Parsing

  /** One entry of parseCommaDelimIdents: a name (IDENT or `*`) and, when an
      IDENT follows it, that IDENT as the alias. */
  function FieldEntry(toks: seq<Lexeme>, k: int): (p: Parsed<Field>)
    ensures p.next > k
  {
    var a := NextNonWs(toks, k);
    if a.lex.tok != Ident && a.lex.tok != Asterisk then
      Parsed(Err(Unexpected(a.lex.lit, FieldName)), a.next)
    else
      var b := NextNonWs(toks, a.next);
      if b.lex.tok == Ident then Parsed(Ok(Field(a.lex.lit, b.lex.lit)), b.next)
      else Parsed(Ok(Field(a.lex.lit, "")), a.next)
  }

  /** parseCommaDelimIdents: entries separated by commas; the token after the
      last entry is pushed back. */
  function FieldList(toks: seq<Lexeme>, k: int): (p: Parsed<seq<Field>>)
    ensures p.next > k
    decreases Remaining(toks, k)
  {
    var e := FieldEntry(toks, k);
    if e.result.Err? then Parsed(Err(e.result.error), e.next)
    else
      var c := NextNonWs(toks, e.next);
      if c.lex.tok != Comma then Parsed(Ok([e.result.value]), c.next - 1)
      else
        NextInside(toks, e.next);
        Prefixed([e.result.value], FieldList(toks, c.next))
  }

  /** Parse: SELECT, a field list, FROM, a table list, then WHERE or EOF. */
  function Statement(toks: seq<Lexeme>, k: int): (p: Parsed<SelectStatement>)
    ensures p.next > k
  {
    var a := NextNonWs(toks, k);
    if a.lex.tok != Select then Parsed(Err(Unexpected(a.lex.lit, SelectKeyword)), a.next)
    else
      var fields := FieldList(toks, a.next);
      if fields.result.Err? then Parsed(Err(InFields(fields.result.error)), fields.next)
      else
        var b := NextNonWs(toks, fields.next);
        if b.lex.tok != From then Parsed(Err(Unexpected(b.lex.lit, FromKeyword)), b.next)
        else
          var tables := FieldList(toks, b.next);
          if tables.result.Err? then Parsed(Err(InFields(tables.result.error)), tables.next)
          else
            var c := NextNonWs(toks, tables.next);
            if c.lex.tok != Where && c.lex.tok != Eof then
              Parsed(Err(Unexpected(c.lex.lit, WhereKeyword)), c.next)
            else
              Parsed(Ok(SelectStatement(fields.result.value, tables.result.value)), c.next)
  }

  /** Every operator of a condition tree is AND or OR. */
  predicate WellFormed(c: Cond)
  {
    match c
    case Comp(_) => true
    case Conj(op, l, r) => (op == And || op == Or) && WellFormed(l) && WellFormed(r)
  }

  /** parseCondTree: an operand, then what follows it. */
  function CondTree(toks: seq<Lexeme>, k: int): (p: Parsed<Cond>)
    ensures p.next > k
    ensures p.result.Ok? ==> WellFormed(p.result.value)
    decreases Remaining(toks, k), 1
  {
    var left := CondOperand(toks, k);
    if left.result.Err? then left else CondAfter(toks, k, left)
  }

  /** The left operand of parseCondTree: a parenthesised tree or an IDENT leaf. */
  function CondOperand(toks: seq<Lexeme>, k: int): (p: Parsed<Cond>)
    ensures p.next > k
    ensures p.result.Ok? ==> WellFormed(p.result.value)
    decreases Remaining(toks, k), 0
  {
    var a := NextNonWs(toks, k);
    if a.lex.tok == ParenL then
      NextInside(toks, k);
      CondTree(toks, a.next)
    else if a.lex.tok == Ident then Parsed(Ok(Comp(a.lex.lit)), a.next)
    else Parsed(Err(Unexpected(a.lex.lit, Operand)), a.next)
  }

  /** What parseCondTree does after the operand `left` of the tree that started
      at `k`: AND or OR and the right-hand tree, after which a `)` is consumed
      and any other token pushed back; or `)` or EOF, which ends the tree. */
  function CondAfter(toks: seq<Lexeme>, k: int, left: Parsed<Cond>): (p: Parsed<Cond>)
    requires left.result.Ok? && left.next > k && WellFormed(left.result.value)
    ensures p.next > left.next
    ensures p.result.Ok? ==> WellFormed(p.result.value)
    decreases Remaining(toks, k), 0
  {
    var b := NextNonWs(toks, left.next);
    if b.lex.tok == And || b.lex.tok == Or then
      NextInside(toks, left.next);
      var right := CondTree(toks, b.next);
      if right.result.Err? then right
      else
        var c := NextNonWs(toks, right.next);
        Parsed(Ok(Conj(b.lex.tok, left.result.value, right.result.value)),
               if c.lex.tok == ParenR then c.next else c.next - 1)
    else if b.lex.tok == ParenR then Parsed(left.result, b.next)
    else if b.lex.tok != Eof then Parsed(Err(Unexpected(b.lex.lit, Conjunction)), b.next)
    else Parsed(left.result, b.next)
  }
}
