/** What every parse outcome looks like, for any token stream: a successful
    list is never empty and stops before a token that is not a comma, and an
    error always names the literal of the last token read together with the
    construct that was expected there. */
module Outcomes {
  import opened Tokens
  import opened TokenStream
  import opened Ast
  import opened Parsing
  import opened Grammar
  import Legacy

  /** The error a list parser reports at the token it stopped on. */
  predicate FieldError(toks: seq<Lexeme>, p: Parsed<seq<Field>>)
  {
    p.result.Err? ==> p.result.error == Unexpected(TokAt(toks, p.next - 1).lit, FieldName)
  }

  lemma FieldEntryOutcome(toks: seq<Lexeme>, k: int)
    ensures var p := FieldEntry(toks, k);
      p.result.Err? ==> p.result.error == Unexpected(TokAt(toks, p.next - 1).lit, FieldName)
  {
    SkipsAtMostOneWs(toks, k);
  }

  /** An entry succeeds exactly when the first lexeme read is IDENT or `*`. The
      field's name is that lexeme's literal. Its alias is the literal of an
      IDENT read right after it, or "" when anything else follows, and that
      lexeme is left unread. */
  lemma FieldEntryResult(toks: seq<Lexeme>, k: int)
    ensures var a, p := NextNonWs(toks, k), FieldEntry(toks, k);
      var b := NextNonWs(toks, a.next);
      && (p.result.Ok? <==> a.lex.tok == Ident || a.lex.tok == Asterisk)
      && (p.result.Ok? ==> p.result.value.name == a.lex.lit)
      && (p.result.Ok? && b.lex.tok == Ident ==> p.result.value.alias == b.lex.lit && p.next == b.next)
      && (p.result.Ok? && b.lex.tok != Ident ==> p.result.value.alias == "" && p.next == a.next)
  {
  }

  /** parseCommaDelimIdents either returns a non-empty list and leaves a
      non-comma token next, or fails on a token that is not a field name. */
  lemma {:induction false} FieldListOutcome(toks: seq<Lexeme>, k: int)
    ensures var p := FieldList(toks, k);
      (p.result.Ok? ==> |p.result.value| >= 1 && TokAt(toks, p.next).tok != Comma)
      && FieldError(toks, p)
    decreases Remaining(toks, k)
  {
    var e := FieldEntry(toks, k);
    FieldEntryOutcome(toks, k);
    if e.result.Ok? {
      var c := NextNonWs(toks, e.next);
      SkipsAtMostOneWs(toks, e.next);
      if c.lex.tok == Comma {
        NextInside(toks, e.next);
        FieldListOutcome(toks, c.next);
      }
    }
  }

  /** A statement Parse returns has at least one field and one table, and the
      last token read was WHERE or EOF. */
  lemma StatementSucceeds(toks: seq<Lexeme>, k: int)
    ensures var p := Statement(toks, k);
      p.result.Ok? ==>
        |p.result.value.fieldList| >= 1 && |p.result.value.tableList| >= 1
        && TokAt(toks, p.next - 1).tok in {Where, Eof}
  {
    if Statement(toks, k).result.Ok? {
      var a := NextNonWs(toks, k);
      var fields := FieldList(toks, a.next);
      FieldListOutcome(toks, a.next);
      var b := NextNonWs(toks, fields.next);
      var tables := FieldList(toks, b.next);
      FieldListOutcome(toks, b.next);
      SkipsAtMostOneWs(toks, tables.next);
    }
  }

  /** The errors Parse can report, each naming the last token read. */
  predicate StatementError(toks: seq<Lexeme>, p: Parsed<SelectStatement>)
  {
    p.result.Err? ==> var found := TokAt(toks, p.next - 1).lit;
      p.result.error in {Unexpected(found, SelectKeyword), Unexpected(found, FromKeyword),
                         Unexpected(found, WhereKeyword), InFields(Unexpected(found, FieldName))}
  }

  /** Parse fails with one of four errors, each naming the last token read. */
  lemma StatementFails(toks: seq<Lexeme>, k: int)
    ensures StatementError(toks, Statement(toks, k))
  {
    var a := NextNonWs(toks, k);
    SkipsAtMostOneWs(toks, k);
    if a.lex.tok != Select {
      assert Statement(toks, k) == Parsed(Err(Unexpected(a.lex.lit, SelectKeyword)), a.next);
      return;
    }
    var fields := FieldList(toks, a.next);
    FieldListOutcome(toks, a.next);
    if fields.result.Err? {
      assert Statement(toks, k) == Parsed(Err(InFields(fields.result.error)), fields.next);
      return;
    }
    var b := NextNonWs(toks, fields.next);
    SkipsAtMostOneWs(toks, fields.next);
    if b.lex.tok != From {
      assert Statement(toks, k) == Parsed(Err(Unexpected(b.lex.lit, FromKeyword)), b.next);
      return;
    }
    var tables := FieldList(toks, b.next);
    FieldListOutcome(toks, b.next);
    if tables.result.Err? {
      assert Statement(toks, k) == Parsed(Err(InFields(tables.result.error)), tables.next);
      return;
    }
    var c := NextNonWs(toks, tables.next);
    SkipsAtMostOneWs(toks, tables.next);
    if c.lex.tok != Where && c.lex.tok != Eof {
      assert Statement(toks, k) == Parsed(Err(Unexpected(c.lex.lit, WhereKeyword)), c.next);
    }
  }

  /** Every error of parseCondTree names the last token read and says an
      operand or a conjunction was expected there. */
  predicate CondError(toks: seq<Lexeme>, p: Parsed<Cond>)
  {
    p.result.Err? ==> var found := TokAt(toks, p.next - 1).lit;
      p.result.error in {Unexpected(found, Operand), Unexpected(found, Conjunction)}
  }

  lemma {:induction false} CondTreeOutcome(toks: seq<Lexeme>, k: int)
    ensures CondError(toks, CondTree(toks, k))
    decreases Remaining(toks, k), 1
  {
    CondOperandOutcome(toks, k);
    var left := CondOperand(toks, k);
    if left.result.Ok? {
      CondAfterOutcome(toks, k, left);
    }
  }

  lemma {:induction false} CondOperandOutcome(toks: seq<Lexeme>, k: int)
    ensures CondError(toks, CondOperand(toks, k))
    decreases Remaining(toks, k), 0
  {
    var a := NextNonWs(toks, k);
    SkipsAtMostOneWs(toks, k);
    if a.lex.tok == ParenL {
      NextInside(toks, k);
      CondTreeOutcome(toks, a.next);
    }
  }

  lemma {:induction false} CondAfterOutcome(toks: seq<Lexeme>, k: int, left: Parsed<Cond>)
    requires left.result.Ok? && left.next > k && WellFormed(left.result.value)
    ensures CondError(toks, CondAfter(toks, k, left))
    decreases Remaining(toks, k), 0
  {
    var b := NextNonWs(toks, left.next);
    SkipsAtMostOneWs(toks, left.next);
    if b.lex.tok == And || b.lex.tok == Or {
      NextInside(toks, left.next);
      CondTreeOutcome(toks, b.next);
    }
  }

  /** A first lexeme that is neither `(` nor IDENT is an operand error naming
      that lexeme, and the tree parse stops right after it. */
  lemma OperandError(toks: seq<Lexeme>, k: int)
    requires NextNonWs(toks, k).lex.tok != ParenL && NextNonWs(toks, k).lex.tok != Ident
    ensures var a := NextNonWs(toks, k);
      && CondOperand(toks, k) == Parsed(Err(Unexpected(a.lex.lit, Operand)), a.next)
      && CondTree(toks, k) == Parsed(Err(Unexpected(a.lex.lit, Operand)), a.next)
  {
  }

  /** After an operand, a lexeme other than AND, OR, `)` or EOF is a
      conjunction error naming that lexeme, and the parse stops right after it. */
  lemma ConjunctionError(toks: seq<Lexeme>, k: int, left: Cond, m: int)
    requires CondOperand(toks, k) == Parsed(Ok(left), m)
    requires NextNonWs(toks, m).lex.tok !in {And, Or, ParenR, Eof}
    ensures var b := NextNonWs(toks, m);
      CondTree(toks, k) == Parsed(Err(Unexpected(b.lex.lit, Conjunction)), b.next)
  {
  }

  /** The older parser's field loop: the same shape as parseCommaDelimIdents. */
  lemma {:induction false} FieldNamesOutcome(toks: seq<Lexeme>, k: int)
    ensures var p := Legacy.FieldNames(toks, k);
      (p.result.Ok? ==> |p.result.value| >= 1 && TokAt(toks, p.next).tok != Comma)
      && (p.result.Err? ==> p.result.error == Unexpected(TokAt(toks, p.next - 1).lit, FieldName))
    decreases Remaining(toks, k)
  {
    var a := NextNonWs(toks, k);
    SkipsAtMostOneWs(toks, k);
    if a.lex.tok == Ident || a.lex.tok == Asterisk {
      var b := NextNonWs(toks, a.next);
      SkipsAtMostOneWs(toks, a.next);
      if b.lex.tok == Comma {
        NextInside(toks, a.next);
        FieldNamesOutcome(toks, b.next);
      }
    }
  }

  /** A statement the older Parse returns has at least one field, and its table
      name is the IDENT read last. */
  lemma LegacySucceeds(toks: seq<Lexeme>, k: int)
    ensures var p := Legacy.Statement(toks, k);
      p.result.Ok? ==>
        |p.result.value.fields| >= 1 && TokAt(toks, p.next - 1) == Lexeme(Ident, p.result.value.tableName)
  {
    if Legacy.Statement(toks, k).result.Ok? {
      var a := NextNonWs(toks, k);
      var fields := Legacy.FieldNames(toks, a.next);
      FieldNamesOutcome(toks, a.next);
      var b := NextNonWs(toks, fields.next);
      SkipsAtMostOneWs(toks, b.next);
    }
  }

  /** The older Parse fails with one of four errors, each naming the last token
      read. */
  lemma LegacyFails(toks: seq<Lexeme>, k: int)
    ensures var p := Legacy.Statement(toks, k);
      p.result.Err? ==> var found := TokAt(toks, p.next - 1).lit;
        p.result.error in {Unexpected(found, SelectKeyword), Unexpected(found, FieldName),
                           Unexpected(found, FromKeyword), Unexpected(found, TableName)}
  {
    var a := NextNonWs(toks, k);
    SkipsAtMostOneWs(toks, k);
    if a.lex.tok != Select {
      return;
    }
    var fields := Legacy.FieldNames(toks, a.next);
    FieldNamesOutcome(toks, a.next);
    if fields.result.Err? {
      return;
    }
    var b := NextNonWs(toks, fields.next);
    SkipsAtMostOneWs(toks, fields.next);
    if b.lex.tok != From {
      return;
    }
    SkipsAtMostOneWs(toks, b.next);
  }
}
