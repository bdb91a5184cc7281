/** The SELECT parser and the condition parser: a scanner plus a one-slot
    buffer holding the last token read, which `Unscan` pushes back. Every
    method is proved to leave the parser where the matching function of
    module Grammar says and to return what it says. */
module SqlParser {
  import opened Tokens
  import opened Lexer
  import opened Scanning
  import opened TokenStream
  import opened Ast
  import opened Parsing
  import opened Grammar
  import Corrected

  class Parser {
    const scanner: Scanner
    /** The last token read from the scanner and its literal. */
    var bufTok: Token
    var bufLit: string
    /** 1 when the buffered token is pushed back, else 0. */
    var bufN: int
    /** How many tokens have been taken from the scanner. */
    ghost var consumed: nat

    /** The token stream of the whole input. */
    ghost function Toks(): seq<Lexeme>
    {
      Tokenize(scanner.input)
    }

    /** The stream index of the token the next `Scan` returns. */
    ghost function Index(): int
      reads this
    {
      consumed - bufN
    }

    ghost predicate Valid()
      reads this, scanner
    {
      scanner.Valid()
      && (bufN == 0 || bufN == 1)
      && scanner.pos == PosAfter(scanner.input, consumed)
      && Lexeme(bufTok, bufLit) == TokAt(Toks(), consumed - 1)
    }

    constructor (s: string)
      ensures Valid() && fresh(scanner)
      ensures scanner.input == s && Index() == 0
    {
      scanner := new Scanner(s);
      bufTok, bufLit, bufN := Illegal, "", 0;
      consumed := 0;
    }

    /** The next token: the pushed-back one if there is one, otherwise a fresh
        token from the scanner, which is kept in the buffer. */
    method Scan() returns (tok: Token, lit: string)
      requires Valid()
      modifies this, scanner
      ensures Valid()
      ensures Lexeme(tok, lit) == TokAt(Toks(), old(Index()))
      ensures Index() == old(Index()) + 1 && bufN == 0
      ensures old(bufN) != 0 ==> consumed == old(consumed) && scanner.pos == old(scanner.pos)
    {
      if bufN != 0 {
        bufN := 0;
        return bufTok, bufLit;
      }
      LexAt(scanner.input, consumed);
      tok, lit := scanner.Scan();
      bufTok, bufLit := tok, lit;
      consumed := consumed + 1;
    }

    /** The next token, after skipping one WS token if the next is WS. */
    method ScanIgnoreWhitespace() returns (tok: Token, lit: string)
      requires Valid()
      modifies this, scanner
      ensures Valid() && bufN == 0
      ensures NextNonWs(Toks(), old(Index())) == Read(Lexeme(tok, lit), Index())
    {
      tok, lit := Scan();
      if tok == Ws {
        tok, lit := Scan();
      }
    }

    /** Pushes the last token read back: the next `Scan` returns it again.
        Pushing back twice is the same as once. */
    method Unscan()
      requires Valid()
      modifies this
      ensures Valid() && bufN == 1
      ensures Index() == old(consumed) - 1 && consumed == old(consumed)
      ensures bufTok == old(bufTok) && bufLit == old(bufLit)
    {
      bufN := 1;
    }

    /** parseCommaDelimIdents: a comma-separated list of fields, each a name
        (IDENT or `*`) with an optional IDENT alias. */
    method ParseCommaDelimIdents() returns (r: Result<seq<Field>>)
      requires Valid()
      modifies this, scanner
      ensures Valid()
      ensures var p := FieldList(Toks(), old(Index()));
        r == p.result && Index() == p.next
    {
      ghost var k0 := Index();
      var fields: seq<Field> := [];
      PrefixedEmpty(FieldList(Toks(), k0));
      while true
        invariant Valid()
        invariant FieldList(Toks(), k0) == Prefixed(fields, FieldList(Toks(), Index()))
        decreases Remaining(Toks(), Index())
      {
        ghost var k := Index();
        ghost var before := fields;
        var tok, lit := ScanIgnoreWhitespace();
        if tok != Ident && tok != Asterisk {
          assert FieldEntry(Toks(), k) == Parsed(Err(Unexpected(lit, FieldName)), Index());
          return Err(Unexpected(lit, FieldName));
        }
        ghost var nameEnd := Index();
        var f := Field(lit, "");
        tok, lit := ScanIgnoreWhitespace();
        ghost var entryEnd := nameEnd;
        if tok == Ident {
          f := f.(alias := lit);
          entryEnd := Index();
          tok, lit := ScanIgnoreWhitespace();
        }
        assert FieldEntry(Toks(), k) == Parsed(Ok(f), entryEnd);
        fields := fields + [f];
        if tok != Comma {
          Unscan();
          return Ok(fields);
        }
        NextInside(Toks(), entryEnd);
        assert FieldList(Toks(), k) == Prefixed([f], FieldList(Toks(), Index()));
        PrefixedTwice(before, [f], FieldList(Toks(), Index()));
      }
    }

    /** Parse: a SELECT statement up to and including the WHERE or EOF token. */
    method Parse() returns (r: Result<SelectStatement>)
      requires Valid()
      modifies this, scanner
      ensures Valid()
      ensures var p := Statement(Toks(), old(Index()));
        r == p.result && Index() == p.next
    {
      var tok, lit := ScanIgnoreWhitespace();
      if tok != Select {
        return Err(Unexpected(lit, SelectKeyword));
      }
      var selFields := ParseCommaDelimIdents();
      if selFields.Err? {
        return Err(InFields(selFields.error));
      }
      tok, lit := ScanIgnoreWhitespace();
      if tok != From {
        return Err(Unexpected(lit, FromKeyword));
      }
      var tables := ParseCommaDelimIdents();
      if tables.Err? {
        return Err(InFields(tables.error));
      }
      tok, lit := ScanIgnoreWhitespace();
      if tok != Where && tok != Eof {
        return Err(Unexpected(lit, WhereKeyword));
      }
      return Ok(SelectStatement(selFields.value, tables.value));
    }

    /** parseCondTree: a condition tree, recursing into parentheses and into
        the right-hand side of AND and OR. */
    method ParseCondTree() returns (r: Result<Cond>)
      requires Valid()
      modifies this, scanner
      ensures Valid()
      ensures var p := CondTree(Toks(), old(Index()));
        r == p.result && Index() == p.next
      decreases Remaining(Toks(), Index())
    {
      ghost var k0 := Index();
      var left: Cond;
      var tok, lit := ScanIgnoreWhitespace();
      if tok == ParenL {
        NextInside(Toks(), k0);
        var l := ParseCondTree();
        if l.Err? {
          return l;
        }
        left := l.value;
      } else if tok == Ident {
        left := Comp(lit);
      } else {
        return Err(Unexpected(lit, Operand));
      }
      ghost var operand := Parsed(Ok(left), Index());
      assert operand == CondOperand(Toks(), k0);
      ghost var after := CondAfter(Toks(), k0, operand);
      assert CondTree(Toks(), k0) == after;

      tok, lit := ScanIgnoreWhitespace();
      if tok == And || tok == Or {
        var op := tok;
        NextInside(Toks(), operand.next);
        var right := ParseCondTree();
        if right.Err? {
          return right;
        }
        tok, lit := ScanIgnoreWhitespace();
        if tok != ParenR {
          Unscan();
        }
        return Ok(Conj(op, left, right.value));
      } else if tok == ParenR {
        return Ok(left);
      } else if tok != Eof {
        return Err(Unexpected(lit, Conjunction));
      }
      return Ok(left);
    }

    /** parseCondTree with its two parenthesis faults corrected: the `)` that
        closes a `(` operand is read right after the operand's tree, and a `)`
        or EOF after an operand is pushed back for the enclosing call. */
    method ParseCondTreeCorrected() returns (r: Result<Cond>)
      requires Valid()
      modifies this, scanner
      ensures Valid()
      ensures var p := Corrected.Tree(Toks(), old(Index()));
        r == p.result && Index() == p.next
      decreases Remaining(Toks(), Index())
    {
      ghost var k0 := Index();
      var left: Cond;
      var tok, lit := ScanIgnoreWhitespace();
      if tok == ParenL {
        NextInside(Toks(), k0);
        var inner := ParseCondTreeCorrected();
        if inner.Err? {
          return inner;
        }
        tok, lit := ScanIgnoreWhitespace();
        if tok != ParenR {
          return Err(Unexpected(lit, ClosingParen));
        }
        left := inner.value;
      } else if tok == Ident {
        left := Comp(lit);
      } else {
        return Err(Unexpected(lit, Operand));
      }
      ghost var operand := Parsed(Ok(left), Index());
      assert operand == Corrected.Primary(Toks(), k0);
      assert Corrected.Tree(Toks(), k0) == Corrected.After(Toks(), k0, operand);

      tok, lit := ScanIgnoreWhitespace();
      if tok == And || tok == Or {
        var op := tok;
        NextInside(Toks(), operand.next);
        var right := ParseCondTreeCorrected();
        if right.Err? {
          return right;
        }
        return Ok(Conj(op, left, right.value));
      } else if tok == ParenR || tok == Eof {
        Unscan();
        return Ok(left);
      }
      return Err(Unexpected(lit, Conjunction));
    }
  }
}
