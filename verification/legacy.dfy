/** The older statement parser: SELECT, a comma-separated list of bare field
    names, FROM and a single table name. It has the same one-slot pushback
    buffer as the newer parser and no aliases. */
module Legacy {
  import opened Tokens
  import opened Lexer
  import opened Scanning
  import opened TokenStream
  import opened Parsing

  datatype SelectStatement = SelectStatement(fields: seq<string>, tableName: string)

  /** The field loop of Parse: IDENT or `*` entries separated by commas; the
      token after the last entry is pushed back. A bad entry's error is
      returned as it is. */
  function FieldNames(toks: seq<Lexeme>, k: int): (p: Parsed<seq<string>>)
    ensures p.next > k
    decreases Remaining(toks, k)
  {
    var a := NextNonWs(toks, k);
    if a.lex.tok != Ident && a.lex.tok != Asterisk then
      Parsed(Err(Unexpected(a.lex.lit, FieldName)), a.next)
    else
      var b := NextNonWs(toks, a.next);
      if b.lex.tok != Comma then Parsed(Ok([a.lex.lit]), b.next - 1)
      else
        NextInside(toks, a.next);
        Prefixed([a.lex.lit], FieldNames(toks, b.next))
  }

  /** Parse: SELECT, the field names, FROM, then one IDENT as the table name;
      nothing after the table name is read. */
  function Statement(toks: seq<Lexeme>, k: int): (p: Parsed<SelectStatement>)
    ensures p.next > k
  {
    var a := NextNonWs(toks, k);
    if a.lex.tok != Select then Parsed(Err(Unexpected(a.lex.lit, SelectKeyword)), a.next)
    else
      var fields := FieldNames(toks, a.next);
      if fields.result.Err? then Parsed(Err(fields.result.error), fields.next)
      else
        var b := NextNonWs(toks, fields.next);
        if b.lex.tok != From then Parsed(Err(Unexpected(b.lex.lit, FromKeyword)), b.next)
        else
          var c := NextNonWs(toks, b.next);
          if c.lex.tok != Ident then Parsed(Err(Unexpected(c.lex.lit, TableName)), c.next)
          else Parsed(Ok(SelectStatement(fields.result.value, c.lex.lit)), c.next)
  }

  class Parser {
    const scanner: Scanner
    /** The last token read from the scanner and its literal. */
    var bufTok: Token
    var bufLit: string
    /** 1 when the buffered token is pushed back, else 0. */
    var bufN: int
    /** How many tokens have been taken from the scanner. */
    ghost var consumed: nat

    ghost function Toks(): seq<Lexeme>
    {
      Tokenize(scanner.input)
    }

    /** The stream index of the token the next `Scan` returns. */
    ghost function Index(): int
      reads this
    {
      consumed - bufN
    }

    ghost predicate Valid()
      reads this, scanner
    {
      scanner.Valid()
      && (bufN == 0 || bufN == 1)
      && scanner.pos == PosAfter(scanner.input, consumed)
      && Lexeme(bufTok, bufLit) == TokAt(Toks(), consumed - 1)
    }

    constructor (q: string)
      ensures Valid() && fresh(scanner)
      ensures scanner.input == q && Index() == 0
    {
      scanner := new Scanner(q);
      bufTok, bufLit, bufN := Illegal, "", 0;
      consumed := 0;
    }

    /** The pushed-back token if there is one, else a fresh token from the
        scanner, which is kept in the buffer. */
    method Scan() returns (tok: Token, lit: string)
      requires Valid()
      modifies this, scanner
      ensures Valid()
      ensures Lexeme(tok, lit) == TokAt(Toks(), old(Index()))
      ensures Index() == old(Index()) + 1 && bufN == 0
      ensures old(bufN) != 0 ==> consumed == old(consumed) && scanner.pos == old(scanner.pos)
    {
      if bufN != 0 {
        bufN := 0;
        return bufTok, bufLit;
      }
      LexAt(scanner.input, consumed);
      tok, lit := scanner.Scan();
      bufTok, bufLit := tok, lit;
      consumed := consumed + 1;
    }

    method ScanIgnoreWhitespace() returns (tok: Token, lit: string)
      requires Valid()
      modifies this, scanner
      ensures Valid() && bufN == 0
      ensures NextNonWs(Toks(), old(Index())) == Read(Lexeme(tok, lit), Index())
    {
      tok, lit := Scan();
      if tok == Ws {
        tok, lit := Scan();
      }
    }

    method UnScan()
      requires Valid()
      modifies this
      ensures Valid() && bufN == 1
      ensures Index() == old(consumed) - 1 && consumed == old(consumed)
      ensures bufTok == old(bufTok) && bufLit == old(bufLit)
    {
      bufN := 1;
    }

    method Parse() returns (r: Result<SelectStatement>)
      requires Valid()
      modifies this, scanner
      ensures Valid()
      ensures var p := Statement(Toks(), old(Index()));
        r == p.result && Index() == p.next
    {
      ghost var k0 := Index();
      var tok, lit := ScanIgnoreWhitespace();
      if tok != Select {
        return Err(Unexpected(lit, SelectKeyword));
      }

      ghost var k1 := Index();
      var fields: seq<string> := [];
      PrefixedEmpty(FieldNames(Toks(), k1));
      while true
        invariant Valid()
        invariant FieldNames(Toks(), k1) == Prefixed(fields, FieldNames(Toks(), Index()))
        decreases Remaining(Toks(), Index())
      {
        ghost var k := Index();
        ghost var before := fields;
        tok, lit := ScanIgnoreWhitespace();
        if tok != Ident && tok != Asterisk {
          assert FieldNames(Toks(), k) == Parsed(Err(Unexpected(lit, FieldName)), Index());
          return Err(Unexpected(lit, FieldName));
        }
        var name := lit;
        ghost var nameEnd := Index();
        fields := fields + [name];
        tok, lit := ScanIgnoreWhitespace();
        if tok != Comma {
          UnScan();
          assert FieldNames(Toks(), k) == Parsed(Ok([name]), Index());
          break;
        }
        NextInside(Toks(), nameEnd);
        assert FieldNames(Toks(), k) == Prefixed([name], FieldNames(Toks(), Index()));
        PrefixedTwice(before, [name], FieldNames(Toks(), Index()));
      }
      assert FieldNames(Toks(), k1) == Parsed(Ok(fields), Index());

      tok, lit := ScanIgnoreWhitespace();
      if tok != From {
        return Err(Unexpected(lit, FromKeyword));
      }

      tok, lit := ScanIgnoreWhitespace();
      if tok != Ident {
        return Err(Unexpected(lit, TableName));
      }
      return Ok(SelectStatement(fields, lit));
    }
  }
}
