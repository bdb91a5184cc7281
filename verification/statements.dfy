/** The statements of the parsers' examples, each given as the token stream
    its text scans to: what Parse returns for it and where it stops. */
module StatementExamples {
  import opened Tokens
  import opened TokenStream
  import opened Ast
  import opened Parsing
  import opened Grammar
  import opened Rendering
  import opened RoundTrip
  import Legacy

  function Word(t: Token): Lexeme { Lexeme(t, Name(t)) }

  /** `foo`: not SELECT. */
  lemma NoSelect(toks: seq<Lexeme>)
    requires |toks| == 1 && toks[0] == Id("foo")
    ensures Statement(toks, 0).result == Err(Unexpected("foo", SelectKeyword))
    ensures Legacy.Statement(toks, 0).result == Err(Unexpected("foo", SelectKeyword))
  {
  }

  /** `SELECT !`: the field list fails on the ILLEGAL `!`; the newer parser
      wraps the list's error. */
  lemma NoField(toks: seq<Lexeme>)
    requires |toks| == 3 && toks[0] == Word(Select) && toks[1] == Blank && toks[2] == Lexeme(Illegal, "!")
    ensures Statement(toks, 0).result == Err(InFields(Unexpected("!", FieldName)))
    ensures Legacy.Statement(toks, 0).result == Err(Unexpected("!", FieldName))
  {
  }

  /** `SELECT field1 alias1 BAD`: the newer parser takes `alias1` as an alias
      and fails on `BAD` where FROM belongs. */
  lemma AliasThenNoFrom(toks: seq<Lexeme>)
    requires |toks| == 7 && toks[0] == Word(Select) && toks[1] == Blank && toks[2] == Id("field1")
    requires toks[3] == Blank && toks[4] == Id("alias1") && toks[5] == Blank && toks[6] == Id("BAD")
    ensures Statement(toks, 0).result == Err(Unexpected("BAD", FromKeyword))
  {
  }

  /** `SELECT field xxx`: the older parser has no aliases and fails on `xxx`. */
  lemma LegacyNoFrom(toks: seq<Lexeme>)
    requires |toks| == 5 && toks[0] == Word(Select) && toks[1] == Blank && toks[2] == Id("field")
    requires toks[3] == Blank && toks[4] == Id("xxx")
    ensures Legacy.Statement(toks, 0).result == Err(Unexpected("xxx", FromKeyword))
  {
  }

  /** `SELECT field1 alias1 FROM table1 talias1 BAD`: a token other than WHERE
      or EOF after the table list. */
  lemma NoWhere(toks: seq<Lexeme>)
    requires |toks| == 13 && toks[0] == Word(Select) && toks[1] == Blank && toks[2] == Id("field1")
    requires toks[3] == Blank && toks[4] == Id("alias1") && toks[5] == Blank && toks[6] == Word(From)
    requires toks[7] == Blank && toks[8] == Id("table1") && toks[9] == Blank && toks[10] == Id("talias1")
    requires toks[11] == Blank && toks[12] == Id("BAD")
    ensures Statement(toks, 0).result == Err(Unexpected("BAD", WhereKeyword))
  {
  }

  /** `SELECT field FROM *`: the older parser wants an IDENT as the table. */
  lemma LegacyNoTable(toks: seq<Lexeme>)
    requires |toks| == 7 && toks[0] == Word(Select) && toks[1] == Blank && toks[2] == Id("field")
    requires toks[3] == Blank && toks[4] == Word(From) && toks[5] == Blank && toks[6] == Lexeme(Asterisk, "*")
    ensures Legacy.Statement(toks, 0).result == Err(Unexpected("*", TableName))
  {
  }

  /** `SELECT first_name, last_name, age FROM my_table`: three fields without
      aliases and one table; the parse stops after EOF. */
  lemma ThreeFields(toks: seq<Lexeme>)
    requires |toks| == 13 && toks[0] == Word(Select) && toks[1] == Blank && toks[2] == Id("first_name")
    requires toks[3] == Lexeme(Comma, ",") && toks[4] == Blank && toks[5] == Id("last_name")
    requires toks[6] == Lexeme(Comma, ",") && toks[7] == Blank && toks[8] == Id("age")
    requires toks[9] == Blank && toks[10] == Word(From) && toks[11] == Blank && toks[12] == Id("my_table")
    ensures Statement(toks, 0) == Parsed(Ok(SelectStatement(
      [Field("first_name", ""), Field("last_name", ""), Field("age", "")], [Field("my_table", "")])), 14)
  {
    var first, last, age := Field("first_name", ""), Field("last_name", ""), Field("age", "");
    var table := Field("my_table", "");
    assert FieldEntry(toks, 1) == Parsed(Ok(first), 3);
    FieldListCons(toks, 1, first, 3);
    assert FieldEntry(toks, 4) == Parsed(Ok(last), 6);
    FieldListCons(toks, 4, last, 6);
    assert FieldEntry(toks, 7) == Parsed(Ok(age), 9);
    FieldListLast(toks, 7, age, 9);
    assert [first] + ([last] + [age]) == [first, last, age];
    assert FieldEntry(toks, 11) == Parsed(Ok(table), 13);
    FieldListLast(toks, 11, table, 13);
    StatementOfParts(toks, 0, SelectStatement([first, last, age], [table]), 10, 13);
  }

  /** The same statement read by the older parser, which stops right after
      the table name. */
  lemma ThreeNames(toks: seq<Lexeme>)
    requires |toks| == 13 && toks[0] == Word(Select) && toks[1] == Blank && toks[2] == Id("first_name")
    requires toks[3] == Lexeme(Comma, ",") && toks[4] == Blank && toks[5] == Id("last_name")
    requires toks[6] == Lexeme(Comma, ",") && toks[7] == Blank && toks[8] == Id("age")
    requires toks[9] == Blank && toks[10] == Word(From) && toks[11] == Blank && toks[12] == Id("my_table")
    ensures Legacy.Statement(toks, 0) == Parsed(Ok(Legacy.SelectStatement(["first_name", "last_name", "age"], "my_table")), 13)
  {
    LegacySkipLeadingWs(toks, 1);
    NamesCons(toks, 2, "first_name");
    LegacySkipLeadingWs(toks, 4);
    NamesCons(toks, 5, "last_name");
    LegacySkipLeadingWs(toks, 7);
    NamesLast(toks, 8, "age");
    assert ["first_name"] + (["last_name"] + ["age"]) == ["first_name", "last_name", "age"];
    LegacyOfParts(toks, 0, ["first_name", "last_name", "age"], "my_table", 10);
  }

  /** `field1 alias1, field2 alias2, field3`: parseCommaDelimIdents pairs each
      name with the IDENT after it and stops before EOF. */
  lemma AliasedList(toks: seq<Lexeme>)
    requires |toks| == 11 && toks[0] == Id("field1") && toks[1] == Blank && toks[2] == Id("alias1")
    requires toks[3] == Lexeme(Comma, ",") && toks[4] == Blank && toks[5] == Id("field2")
    requires toks[6] == Blank && toks[7] == Id("alias2") && toks[8] == Lexeme(Comma, ",")
    requires toks[9] == Blank && toks[10] == Id("field3")
    ensures FieldList(toks, 0)
      == Parsed(Ok([Field("field1", "alias1"), Field("field2", "alias2"), Field("field3", "")]), 11)
  {
    var f1, f2, f3 := Field("field1", "alias1"), Field("field2", "alias2"), Field("field3", "");
    assert FieldEntry(toks, 0) == Parsed(Ok(f1), 3);
    FieldListCons(toks, 0, f1, 3);
    assert FieldEntry(toks, 4) == Parsed(Ok(f2), 8);
    FieldListCons(toks, 4, f2, 8);
    assert FieldEntry(toks, 9) == Parsed(Ok(f3), 11);
    FieldListLast(toks, 9, f3, 11);
    assert [f1] + ([f2] + [f3]) == [f1, f2, f3];
  }
}
