/** Reading back what the printers print: a printed field list, statement or
    field-name list, placed anywhere in a token stream, is parsed back to the
    value it was printed from; and from the printed text itself the parser
    objects return that value. */
module RoundTrip {
  import opened Tokens
  import opened TokenStream
  import opened Ast
  import opened Parsing
  import opened Grammar
  import opened Rendering
  import SqlParser
  import Legacy

  /** `xs` sits in the stream at index `k`. */
  predicate Occurs(toks: seq<Lexeme>, k: int, xs: seq<Lexeme>)
  {
    0 <= k && k + |xs| <= |toks| && forall i :: 0 <= i < |xs| ==> toks[k + i] == xs[i]
  }

  lemma OccursAt(toks: seq<Lexeme>, k: int, xs: seq<Lexeme>, i: int)
    requires Occurs(toks, k, xs) && 0 <= i < |xs|
    ensures TokAt(toks, k + i) == xs[i]
  {
  }

  lemma OccursSplit(toks: seq<Lexeme>, k: int, a: seq<Lexeme>, b: seq<Lexeme>)
    requires Occurs(toks, k, a + b)
    ensures Occurs(toks, k, a) && Occurs(toks, k + |a|, b)
  {
    assert forall i :: 0 <= i < |a| ==> (a + b)[i] == a[i];
    forall i | 0 <= i < |b|
      ensures toks[k + |a| + i] == b[i]
    {
      assert (a + b)[|a| + i] == b[i];
    }
  }

  lemma OccursWhole(toks: seq<Lexeme>)
    ensures Occurs(toks, 0, toks)
  {
  }

  /** Reading again from where a list parse pushed back its last token gives
      that token again. */
  lemma PushBackReread(toks: seq<Lexeme>, n: int)
    requires NextNonWs(toks, n).lex.tok != Ws
    ensures NextNonWs(toks, NextNonWs(toks, n).next - 1) == NextNonWs(toks, n)
  {
  }

  /** One WS lexeme in front of a field list is skipped by its first read. */
  lemma SkipLeadingWs(toks: seq<Lexeme>, k: int)
    requires TokAt(toks, k).tok == Ws && TokAt(toks, k + 1).tok != Ws
    ensures FieldList(toks, k) == FieldList(toks, k + 1)
  {
    assert FieldEntry(toks, k) == FieldEntry(toks, k + 1);
  }

  lemma LegacySkipLeadingWs(toks: seq<Lexeme>, k: int)
    requires TokAt(toks, k).tok == Ws && TokAt(toks, k + 1).tok != Ws
    ensures Legacy.FieldNames(toks, k) == Legacy.FieldNames(toks, k + 1)
  {
  }

  lemma FieldsTokensStart(fs: seq<Field>)
    requires |fs| >= 1
    ensures |FieldsTokens(fs)| >= 1 && FieldsTokens(fs)[0] == NameLexeme(fs[0].name)
  {
  }

  /** An entry followed by something other than a comma ends the list. */
  lemma FieldListLast(toks: seq<Lexeme>, k: int, f: Field, j: int)
    requires FieldEntry(toks, k) == Parsed(Ok(f), j) && NextNonWs(toks, j).lex.tok != Comma
    ensures FieldList(toks, k) == Parsed(Ok([f]), NextNonWs(toks, j).next - 1)
  {
  }

  /** An entry followed by a comma and a space continues the list after them. */
  lemma FieldListCons(toks: seq<Lexeme>, k: int, f: Field, j: int)
    requires FieldEntry(toks, k) == Parsed(Ok(f), j) && TokAt(toks, j) == Lexeme(Comma, ",")
    ensures FieldList(toks, k) == Prefixed([f], FieldList(toks, j + 1))
  {
    assert NextNonWs(toks, j) == Read(Lexeme(Comma, ","), j + 1);
  }

  /** A printed field is read back as one entry, provided no IDENT follows it
      (which would be taken as its alias). */
  lemma FieldEntryRendered(toks: seq<Lexeme>, k: int, f: Field)
    requires Occurs(toks, k, FieldTokens(f))
    requires NextNonWs(toks, k + |FieldTokens(f)|).lex.tok != Ident
    ensures FieldEntry(toks, k) == Parsed(Ok(f), k + |FieldTokens(f)|)
  {
    var xs := FieldTokens(f);
    OccursAt(toks, k, xs, 0);
    if |f.alias| >= 1 {
      OccursAt(toks, k, xs, 1);
      OccursAt(toks, k, xs, 2);
    }
  }

  /** Where the pieces of a printed list of two or more fields sit: the first
      field at `k`, then a comma, a space and the rest of the list. */
  lemma {:induction false} FieldsLayout(toks: seq<Lexeme>, k: int, fs: seq<Field>)
    requires |fs| >= 2 && Occurs(toks, k, FieldsTokens(fs))
    ensures var m := |FieldTokens(fs[0])|;
      Occurs(toks, k, FieldTokens(fs[0]))
      && TokAt(toks, k + m) == Lexeme(Comma, ",") && TokAt(toks, k + m + 1) == Blank
      && TokAt(toks, k + m + 2).tok != Ws
      && Occurs(toks, k + m + 2, FieldsTokens(fs[1..]))
      && |FieldsTokens(fs)| == m + 2 + |FieldsTokens(fs[1..])|
  {
    var head, sep, rest := FieldTokens(fs[0]), [Lexeme(Comma, ","), Blank], FieldsTokens(fs[1..]);
    var m := |head|;
    assert FieldsTokens(fs) == head + sep + rest;
    OccursSplit(toks, k, head + sep, rest);
    OccursSplit(toks, k, head, sep);
    OccursAt(toks, k + m, sep, 0);
    OccursAt(toks, k + m, sep, 1);
    FieldsTokensStart(fs[1..]);
    OccursAt(toks, k + m + 2, rest, 0);
  }

  /** A printed non-empty field list is read back entry by entry, provided
      the lexeme after it is neither an IDENT nor a comma; the parse stops
      with that lexeme pushed back. */
  lemma {:induction false} FieldListRendered(toks: seq<Lexeme>, k: int, fs: seq<Field>, end: int)
    requires |fs| >= 1 && Occurs(toks, k, FieldsTokens(fs)) && end == k + |FieldsTokens(fs)|
    requires NextNonWs(toks, end).lex.tok != Ident && NextNonWs(toks, end).lex.tok != Comma
    ensures FieldList(toks, k) == Parsed(Ok(fs), NextNonWs(toks, end).next - 1)
    decreases |fs|, 1
  {
    if |fs| == 1 {
      SingleFieldRendered(toks, k, fs, end);
    } else {
      FieldListMore(toks, k, fs, end);
    }
  }

  /** A printed list of two or more: the head, then the rest recursively. */
  lemma {:induction false} FieldListMore(toks: seq<Lexeme>, k: int, fs: seq<Field>, end: int)
    requires |fs| >= 2 && Occurs(toks, k, FieldsTokens(fs)) && end == k + |FieldsTokens(fs)|
    requires NextNonWs(toks, end).lex.tok != Ident && NextNonWs(toks, end).lex.tok != Comma
    ensures FieldList(toks, k) == Parsed(Ok(fs), NextNonWs(toks, end).next - 1)
    decreases |fs|, 0
  {
    var j := k + |FieldTokens(fs[0])| + 2;
    FieldListHead(toks, k, fs, j);
    FieldListRendered(toks, j, fs[1..], end);
    FieldListJoin(toks, k, fs, j, NextNonWs(toks, end).next - 1);
  }

  /** The head read, then the tail read: the whole list. */
  lemma FieldListJoin(toks: seq<Lexeme>, k: int, fs: seq<Field>, j: int, n: int)
    requires |fs| >= 2 && FieldList(toks, k) == Prefixed([fs[0]], FieldList(toks, j))
    requires FieldList(toks, j) == Parsed(Ok(fs[1..]), n)
    ensures FieldList(toks, k) == Parsed(Ok(fs), n)
  {
    assert [fs[0]] + fs[1..] == fs;
  }

  /** The first field of a printed list of two or more is read back, and the
      list parse goes on with the rest of the printed list. */
  lemma {:induction false} FieldListHead(toks: seq<Lexeme>, k: int, fs: seq<Field>, j: int)
    requires |fs| >= 2 && Occurs(toks, k, FieldsTokens(fs)) && j == k + |FieldTokens(fs[0])| + 2
    ensures FieldList(toks, k) == Prefixed([fs[0]], FieldList(toks, j))
    ensures Occurs(toks, j, FieldsTokens(fs[1..]))
    ensures k + |FieldsTokens(fs)| == j + |FieldsTokens(fs[1..])|
  {
    var m := |FieldTokens(fs[0])|;
    FieldsLayout(toks, k, fs);
    FieldEntryRendered(toks, k, fs[0]);
    FieldListCons(toks, k, fs[0], k + m);
    SkipLeadingWs(toks, k + m + 1);
  }

  lemma SingleFieldRendered(toks: seq<Lexeme>, k: int, fs: seq<Field>, end: int)
    requires |fs| == 1 && Occurs(toks, k, FieldsTokens(fs)) && end == k + |FieldsTokens(fs)|
    requires NextNonWs(toks, end).lex.tok != Ident && NextNonWs(toks, end).lex.tok != Comma
    ensures FieldList(toks, k) == Parsed(Ok(fs), NextNonWs(toks, end).next - 1)
  {
    assert FieldsTokens(fs) == FieldTokens(fs[0]);
    FieldEntryRendered(toks, k, fs[0]);
    FieldListLast(toks, k, fs[0], end);
    assert [fs[0]] == fs;
  }

  /** A printed clause (keyword, space, field list): the keyword is read, then
      the list is read back. */
  lemma {:induction false} ClauseRendered(toks: seq<Lexeme>, k: int, keyword: Token, fs: seq<Field>, end: int)
    requires |fs| >= 1 && Occurs(toks, k, ClauseTokens(keyword, fs))
    requires keyword == Select || keyword == From
    requires end == k + |ClauseTokens(keyword, fs)|
    requires NextNonWs(toks, end).lex.tok != Ident && NextNonWs(toks, end).lex.tok != Comma
    ensures NextNonWs(toks, k) == Read(Lexeme(keyword, Name(keyword)), k + 1)
    ensures FieldList(toks, k + 1) == Parsed(Ok(fs), NextNonWs(toks, end).next - 1)
  {
    var kw := [Lexeme(keyword, Name(keyword))];
    OccursSplit(toks, k, kw + [Blank], FieldsTokens(fs));
    OccursSplit(toks, k, kw, [Blank]);
    OccursAt(toks, k, kw, 0);
    OccursAt(toks, k + 1, [Blank], 0);
    FieldsTokensStart(fs);
    OccursAt(toks, k + 2, FieldsTokens(fs), 0);
    SkipLeadingWs(toks, k + 1);
    FieldListRendered(toks, k + 2, fs, end);
  }

  /** Where the two clauses of a printed statement sit: the SELECT clause at
      `k`, then a space, then the FROM clause. */
  lemma {:induction false} StatementLayout(toks: seq<Lexeme>, k: int, st: SelectStatement)
    requires Occurs(toks, k, StatementTokens(st))
    ensures var n := k + |ClauseTokens(Select, st.fieldList)|;
      Occurs(toks, k, ClauseTokens(Select, st.fieldList))
      && TokAt(toks, n) == Blank && TokAt(toks, n + 1) == Lexeme(From, Name(From))
      && Occurs(toks, n + 1, ClauseTokens(From, st.tableList))
      && k + |StatementTokens(st)| == n + 1 + |ClauseTokens(From, st.tableList)|
  {
    var sel := ClauseTokens(Select, st.fieldList);
    var from := ClauseTokens(From, st.tableList);
    OccursSplit(toks, k, sel + [Blank], from);
    OccursSplit(toks, k, sel, [Blank]);
    OccursAt(toks, k + |sel|, [Blank], 0);
    OccursAt(toks, k + |sel| + 1, from, 0);
  }

  /** Statement from its parts: SELECT, a field list that ends where FROM
      follows, and a table list whose follower is WHERE or EOF. */
  lemma StatementOfParts(toks: seq<Lexeme>, k: int, st: SelectStatement, n: int, end: int)
    requires NextNonWs(toks, k) == Read(Lexeme(Select, Name(Select)), k + 1)
    requires FieldList(toks, k + 1) == Parsed(Ok(st.fieldList), n)
    requires NextNonWs(toks, n) == Read(Lexeme(From, Name(From)), n + 1)
    requires FieldList(toks, n + 1) == Parsed(Ok(st.tableList), NextNonWs(toks, end).next - 1)
    requires NextNonWs(toks, end).lex.tok == Where || NextNonWs(toks, end).lex.tok == Eof
    ensures Statement(toks, k) == Parsed(Ok(st), NextNonWs(toks, end).next)
  {
    PushBackReread(toks, end);
  }

  /** A printed statement with non-empty lists, followed by WHERE or end of
      input, is parsed back to the statement, and the parse stops after that
      WHERE or EOF. */
  lemma {:induction false} StatementRendered(toks: seq<Lexeme>, k: int, st: SelectStatement, end: int)
    requires |st.fieldList| >= 1 && |st.tableList| >= 1
    requires Occurs(toks, k, StatementTokens(st)) && end == k + |StatementTokens(st)|
    requires NextNonWs(toks, end).lex.tok == Where || NextNonWs(toks, end).lex.tok == Eof
    ensures Statement(toks, k) == Parsed(Ok(st), NextNonWs(toks, end).next)
  {
    var n := k + |ClauseTokens(Select, st.fieldList)|;
    StatementLayout(toks, k, st);
    assert NextNonWs(toks, n) == Read(Lexeme(From, Name(From)), n + 2);
    ClauseRendered(toks, k, Select, st.fieldList, n);
    ClauseRendered(toks, n + 1, From, st.tableList, end);
    StatementOfParts(toks, k, st, n + 1, end);
  }

  /** Parsing the text of a printed valid statement gives the statement back;
      the parse ends after the EOF lexeme. */
  lemma ParseRoundTrip(st: SelectStatement)
    requires ValidStatement(st)
    ensures var toks := Tokenize(StatementString(st));
      Statement(toks, 0) == Parsed(Ok(st), |toks| + 1)
  {
    StatementTokenizes(st);
    var toks := Tokenize(StatementString(st));
    OccursWhole(toks);
    StatementRendered(toks, 0, st, |toks|);
  }

  /** The parser object, run on the printed text of a valid statement,
      returns the statement. */
  method ParseRendered(st: SelectStatement) returns (r: Result<SelectStatement>)
    requires ValidStatement(st)
    ensures r == Ok(st)
  {
    var p := new SqlParser.Parser(StatementString(st));
    ParseRoundTrip(st);
    r := p.Parse();
  }

  // ---------------------------------------------------------------------------
  // The older parser

  /** Fields without aliases. */
  function Bare(names: seq<string>): (fs: seq<Field>)
    ensures |fs| == |names|
    ensures forall i :: 0 <= i < |names| ==> fs[i] == Field(names[i], "")
  {
    seq(|names|, i requires 0 <= i < |names| => Field(names[i], ""))
  }

  /** The statement the newer printer prints for the older parser's result. */
  function Printed(names: seq<string>, table: string): (st: SelectStatement)
    ensures st.fieldList == Bare(names) && st.tableList == [Field(table, "")]
  {
    SelectStatement(Bare(names), [Field(table, "")])
  }

  lemma NamesLast(toks: seq<Lexeme>, k: int, name: string)
    requires TokAt(toks, k) == NameLexeme(name) && NextNonWs(toks, k + 1).lex.tok != Comma
    ensures Legacy.FieldNames(toks, k) == Parsed(Ok([name]), NextNonWs(toks, k + 1).next - 1)
  {
  }

  lemma NamesCons(toks: seq<Lexeme>, k: int, name: string)
    requires TokAt(toks, k) == NameLexeme(name) && TokAt(toks, k + 1) == Lexeme(Comma, ",")
    ensures Legacy.FieldNames(toks, k) == Prefixed([name], Legacy.FieldNames(toks, k + 2))
  {
    assert NextNonWs(toks, k + 1) == Read(Lexeme(Comma, ","), k + 2);
  }

  /** A field-name list printed as bare fields is read back by the older
      parser, provided the lexeme after it is not a comma. */
  lemma {:induction false} FieldNamesRendered(toks: seq<Lexeme>, k: int, names: seq<string>, end: int)
    requires |names| >= 1 && Occurs(toks, k, FieldsTokens(Bare(names)))
    requires end == k + |FieldsTokens(Bare(names))| && NextNonWs(toks, end).lex.tok != Comma
    ensures Legacy.FieldNames(toks, k) == Parsed(Ok(names), NextNonWs(toks, end).next - 1)
    decreases |names|, 1
  {
    if |names| == 1 {
      var fs := Bare(names);
      assert FieldsTokens(fs) == [NameLexeme(names[0])];
      OccursAt(toks, k, FieldsTokens(fs), 0);
      NamesLast(toks, k, names[0]);
      assert [names[0]] == names;
    } else {
      FieldNamesMore(toks, k, names, end);
    }
  }

  /** A printed name list of two or more: the head, then the rest recursively. */
  lemma {:induction false} FieldNamesMore(toks: seq<Lexeme>, k: int, names: seq<string>, end: int)
    requires |names| >= 2 && Occurs(toks, k, FieldsTokens(Bare(names)))
    requires end == k + |FieldsTokens(Bare(names))| && NextNonWs(toks, end).lex.tok != Comma
    ensures Legacy.FieldNames(toks, k) == Parsed(Ok(names), NextNonWs(toks, end).next - 1)
    decreases |names|, 0
  {
    NamesHead(toks, k, names);
    FieldNamesRendered(toks, k + 3, names[1..], end);
    NamesJoin(toks, k, names, NextNonWs(toks, end).next - 1);
  }

  /** The first name of a printed list of two or more is read back, and the
      loop goes on after the comma and the space with the rest of the list. */
  lemma NamesHead(toks: seq<Lexeme>, k: int, names: seq<string>)
    requires |names| >= 2 && Occurs(toks, k, FieldsTokens(Bare(names)))
    ensures Legacy.FieldNames(toks, k) == Prefixed([names[0]], Legacy.FieldNames(toks, k + 3))
    ensures Occurs(toks, k + 3, FieldsTokens(Bare(names[1..])))
    ensures |FieldsTokens(Bare(names))| == 3 + |FieldsTokens(Bare(names[1..]))|
  {
    var fs := Bare(names);
    assert FieldTokens(fs[0]) == [NameLexeme(names[0])];
    FieldsLayout(toks, k, fs);
    OccursAt(toks, k, FieldTokens(fs[0]), 0);
    assert fs[1..] == Bare(names[1..]);
    LegacySkipLeadingWs(toks, k + 2);
    NamesCons(toks, k, names[0]);
  }

  lemma NamesJoin(toks: seq<Lexeme>, k: int, names: seq<string>, n: int)
    requires |names| >= 2 && Legacy.FieldNames(toks, k) == Prefixed([names[0]], Legacy.FieldNames(toks, k + 3))
    requires Legacy.FieldNames(toks, k + 3) == Parsed(Ok(names[1..]), n)
    ensures Legacy.FieldNames(toks, k) == Parsed(Ok(names), n)
  {
    assert [names[0]] + names[1..] == names;
  }

  /** Legacy Parse from its parts: SELECT, a name list that ends where FROM
      follows, and an IDENT. */
  lemma LegacyOfParts(toks: seq<Lexeme>, k: int, names: seq<string>, table: string, n: int)
    requires TokAt(toks, k) == Lexeme(Select, Name(Select))
    requires Legacy.FieldNames(toks, k + 1) == Parsed(Ok(names), n)
    requires NextNonWs(toks, n) == Read(Lexeme(From, Name(From)), n + 1)
    requires NextNonWs(toks, n + 1) == Read(Lexeme(Ident, table), n + 3)
    ensures Legacy.Statement(toks, k) == Parsed(Ok(Legacy.SelectStatement(names, table)), n + 3)
  {
  }

  /** The SELECT clause of a printed statement, read by the older parser. */
  lemma {:induction false} LegacyClauseRendered(toks: seq<Lexeme>, k: int, names: seq<string>, end: int)
    requires |names| >= 1 && Occurs(toks, k, ClauseTokens(Select, Bare(names)))
    requires end == k + |ClauseTokens(Select, Bare(names))| && NextNonWs(toks, end).lex.tok != Comma
    ensures TokAt(toks, k) == Lexeme(Select, Name(Select))
    ensures Legacy.FieldNames(toks, k + 1) == Parsed(Ok(names), NextNonWs(toks, end).next - 1)
  {
    var fs := Bare(names);
    var kw := [Lexeme(Select, Name(Select))];
    OccursSplit(toks, k, kw + [Blank], FieldsTokens(fs));
    OccursSplit(toks, k, kw, [Blank]);
    OccursAt(toks, k, kw, 0);
    OccursAt(toks, k + 1, [Blank], 0);
    FieldsTokensStart(fs);
    OccursAt(toks, k + 2, FieldsTokens(fs), 0);
    LegacySkipLeadingWs(toks, k + 1);
    FieldNamesRendered(toks, k + 2, names, end);
  }

  /** The older parser reads back a statement printed with bare field names and
      one table name, and reads nothing after the table name. */
  lemma {:induction false} LegacyStatementRendered(toks: seq<Lexeme>, k: int, names: seq<string>, table: string, end: int)
    requires |names| >= 1 && table != "*"
    requires Occurs(toks, k, StatementTokens(Printed(names, table)))
    requires end == k + |StatementTokens(Printed(names, table))|
    ensures Legacy.Statement(toks, k) == Parsed(Ok(Legacy.SelectStatement(names, table)), end)
  {
    var st := Printed(names, table);
    var from := ClauseTokens(From, st.tableList);
    var n := k + |ClauseTokens(Select, Bare(names))|;
    StatementLayout(toks, k, st);
    assert NextNonWs(toks, n) == Read(Lexeme(From, Name(From)), n + 2);
    LegacyClauseRendered(toks, k, names, n);
    assert from == [Lexeme(From, Name(From)), Blank, Lexeme(Ident, table)];
    OccursAt(toks, n + 1, from, 1);
    OccursAt(toks, n + 1, from, 2);
    LegacyOfParts(toks, k, names, table, n + 1);
  }

  /** The printed text of a statement with bare field names and one table is
      read back by the older parser, which stops after the table name. */
  lemma LegacyRoundTrip(names: seq<string>, table: string)
    requires |names| >= 1 && ValidFields(Bare(names)) && IsName(table)
    ensures var toks := Tokenize(StatementString(Printed(names, table)));
      Legacy.Statement(toks, 0) == Parsed(Ok(Legacy.SelectStatement(names, table)), |toks|)
  {
    var st := Printed(names, table);
    assert ValidFields(st.tableList);
    StatementTokenizes(st);
    var toks := Tokenize(StatementString(st));
    OccursWhole(toks);
    LegacyStatementRendered(toks, 0, names, table, |toks|);
  }

  /** The older parser object, run on such a text, returns the statement. */
  method LegacyParseRendered(names: seq<string>, table: string) returns (r: Result<Legacy.SelectStatement>)
    requires |names| >= 1 && ValidFields(Bare(names)) && IsName(table)
    ensures r == Ok(Legacy.SelectStatement(names, table))
  {
    var p := new Legacy.Parser(StatementString(Printed(names, table)));
    LegacyRoundTrip(names, table);
    r := p.Parse();
  }
}
