/** The token sequences the printers produce, and the proof that scanning a
    printed statement or condition gives those tokens back. A printed text is
    a run of simple lexemes (words, single spaces and punctuation) laid side
    by side so that no lexeme runs into the next. */
module Rendering {
  import opened Tokens
  import opened Lexer
  import opened TokenStream
  import opened Ast

  // ---------------------------------------------------------------------------
  // Names

  /** Identifier characters, all of them. */
  predicate IdentChars(w: string)
  {
    |w| == 0 || (IsIdentChar(w[0]) && IdentChars(w[1..]))
  }

  lemma {:induction false} IdentCharsAll(w: string, k: nat)
    requires IdentChars(w) && k < |w|
    ensures IsIdentChar(w[k])
    decreases k
  {
    if k > 0 {
      IdentCharsAll(w[1..], k - 1);
    }
  }

  /** What the scanner reads as one identifier: a letter, then identifier characters. */
  predicate IsWord(w: string)
  {
    |w| >= 1 && IsLetter(w[0]) && IdentChars(w[1..])
  }

  /** A name that scans back as an IDENT: a word that is no keyword. */
  predicate IsName(w: string)
  {
    IsWord(w) && KeywordOf(w) == Ident
  }

  /** A field the printer can print and the parser read back: a name or `*`,
      and no alias or a name as alias. */
  predicate ValidField(f: Field)
  {
    (f.name == "*" || IsName(f.name)) && (|f.alias| < 1 || IsName(f.alias))
  }

  predicate ValidFields(fs: seq<Field>)
  {
    forall i :: 0 <= i < |fs| ==> ValidField(fs[i])
  }

  /** A statement that prints and reads back: both lists non-empty and valid. */
  predicate ValidStatement(st: SelectStatement)
  {
    |st.fieldList| >= 1 && |st.tableList| >= 1
    && ValidFields(st.fieldList) && ValidFields(st.tableList)
  }

  /** A condition tree whose operators are AND or OR and whose leaves are names. */
  predicate ValidCond(c: Cond)
  {
    match c
    case Comp(ident) => IsName(ident)
    case Conj(op, left, right) => (op == And || op == Or) && ValidCond(left) && ValidCond(right)
  }

  // ---------------------------------------------------------------------------
  // Printed lexemes

  /** A lexeme the printers emit: a word scanned as its keyword or IDENT, one
      space, or one punctuation character. */
  predicate Simple(l: Lexeme)
  {
    match l.tok
    case Ws => l.lit == " "
    case Comma => l.lit == ","
    case Asterisk => l.lit == "*"
    case ParenL => l.lit == "("
    case ParenR => l.lit == ")"
    case Ident => IsWord(l.lit) && KeywordOf(l.lit) == Ident
    case Select => IsWord(l.lit) && KeywordOf(l.lit) == Select
    case From => IsWord(l.lit) && KeywordOf(l.lit) == From
    case Where => IsWord(l.lit) && KeywordOf(l.lit) == Where
    case And => IsWord(l.lit) && KeywordOf(l.lit) == And
    case Or => IsWord(l.lit) && KeywordOf(l.lit) == Or
    case _ => false
  }

  /** `b` printed right after `a` does not run into it: no identifier character
      after a word, no whitespace after a space. */
  predicate Separated(a: Lexeme, b: Lexeme)
  {
    (IsWord(a.lit) ==> |b.lit| >= 1 && !IsIdentChar(b.lit[0]))
    && (a.tok == Ws ==> b.tok != Ws)
  }

  /** Simple lexemes, each separated from the next. */
  predicate Printable(ls: seq<Lexeme>)
  {
    (forall i :: 0 <= i < |ls| ==> Simple(ls[i]))
    && (forall i :: 0 < i < |ls| ==> Separated(ls[i - 1], ls[i]))
  }

  lemma PrintableCons(l: Lexeme, ls: seq<Lexeme>)
    requires Simple(l) && Printable(ls) && (|ls| >= 1 ==> Separated(l, ls[0]))
    ensures Printable([l] + ls)
  {
    var r := [l] + ls;
    forall i | 0 < i < |r|
      ensures Separated(r[i - 1], r[i])
    {
      if i > 1 {
        assert r[i - 1] == ls[i - 2] && r[i] == ls[i - 1];
      }
    }
  }

  lemma PrintableTail(ls: seq<Lexeme>)
    requires Printable(ls) && |ls| >= 1
    ensures Simple(ls[0]) && Printable(ls[1..])
    ensures |ls| >= 2 ==> Separated(ls[0], ls[1])
  {
    var t := ls[1..];
    forall i | 0 < i < |t|
      ensures Separated(t[i - 1], t[i])
    {
      assert t[i - 1] == ls[i] && t[i] == ls[i + 1];
    }
  }

  /** The text of a lexeme sequence: its literals side by side. */
  function Lits(ls: seq<Lexeme>): (s: string)
    ensures |ls| >= 1 ==> |s| >= |ls[0].lit|
  {
    if |ls| == 0 then [] else ls[0].lit + Lits(ls[1..])
  }

  /** A simple lexeme is one scan long, so the character after it decides
      whether it ends there. */
  lemma SimpleStart(l: Lexeme)
    requires Simple(l)
    ensures |l.lit| >= 1 && l.lit[0] != EofRune
    ensures IsWhitespace(l.lit[0]) <==> l.tok == Ws
  {
    if IsWord(l.lit) {
      KeywordOfRange(l.lit);
    }
  }

  /** A simple lexeme scans as itself when the character after it (if any)
      cannot continue it. */
  lemma ScanSimple(s: string, p: nat, l: Lexeme)
    requires Simple(l) && p + |l.lit| <= |s| && s[p..p + |l.lit|] == l.lit
    requires p + |l.lit| < |s| ==> var c := s[p + |l.lit|];
      c != EofRune && (IsWord(l.lit) ==> !IsIdentChar(c)) && (l.tok == Ws ==> !IsWhitespace(c))
    ensures ScanAt(s, p) == Scanned(l, p + |l.lit|)
  {
    SimpleStart(l);
    assert s[p] == l.lit[0];
    if IsWord(l.lit) {
      ScanWord(s, p, l.lit);
    } else if l.tok == Ws {
      assert RunEnd(s, p + 1, Space) == p + 1;
    }
  }

  /** A word followed by a character that is neither an identifier character
      nor a NUL scans as the keyword or IDENT it spells. */
  lemma ScanWord(s: string, p: nat, w: string)
    requires IsWord(w) && p + |w| <= |s| && s[p..p + |w|] == w
    requires p + |w| < |s| ==> s[p + |w|] != EofRune && !IsIdentChar(s[p + |w|])
    ensures ScanAt(s, p) == Scanned(Lexeme(KeywordOf(w), w), p + |w|)
  {
    var n := p + |w|;
    assert s[p] == w[0];
    forall k | p + 1 <= k < n
      ensures InRun(s[k], IdentPart)
    {
      assert s[k] == w[1..][k - p - 1];
      IdentCharsAll(w[1..], k - p - 1);
    }
    assert RunEnd(s, p + 1, IdentPart) == n;
  }

  /** The first lexeme of a printed text scans as itself, and the text after
      it is the text of the remaining lexemes. */
  lemma ScanFirst(s: string, p: nat, ls: seq<Lexeme>)
    requires p <= |s| && s[p..] == Lits(ls) && Printable(ls) && |ls| > 0
    ensures var n := p + |ls[0].lit|;
      n <= |s| && s[n..] == Lits(ls[1..]) && Printable(ls[1..])
      && ScanAt(s, p) == Scanned(ls[0], n)
  {
    var l := ls[0];
    var n := p + |l.lit|;
    assert s[p..][..|l.lit|] == l.lit;
    assert s[p..n] == l.lit;
    assert s[n..] == s[p..][|l.lit|..];
    PrintableTail(ls);
    if |ls| > 1 {
      SimpleStart(ls[1]);
      assert s[n] == ls[1].lit[0];
    }
    ScanSimple(s, p, l);
  }

  lemma LexCons(s: string, p: nat, l: Lexeme, n: nat)
    requires p < |s| && ScanAt(s, p) == Scanned(l, n)
    ensures Lex(s, p) == [l] + Lex(s, n)
  {
  }

  /** Scanning the printed text of printable lexemes, from the position it
      starts at, gives the lexemes back. */
  lemma {:induction false} ScansPrinted(s: string, p: nat, ls: seq<Lexeme>)
    requires p <= |s| && s[p..] == Lits(ls) && Printable(ls)
    ensures Lex(s, p) == ls
    decreases |ls|
  {
    if |ls| > 0 {
      var n := p + |ls[0].lit|;
      ScanFirst(s, p, ls);
      ScansPrinted(s, n, ls[1..]);
      LexCons(s, p, ls[0], n);
      assert ls == [ls[0]] + ls[1..];
    } else {
      assert |s[p..]| == 0;
    }
  }

  /** Printable lexemes tokenize from their own text. */
  lemma Tokenizes(ls: seq<Lexeme>)
    requires Printable(ls)
    ensures Tokenize(Lits(ls)) == ls
  {
    ScansPrinted(Lits(ls), 0, ls);
  }

  lemma LitsOne(l: Lexeme)
    ensures Lits([l]) == l.lit
  {
    assert [l][1..] == [];
  }

  lemma LitsPair(l: Lexeme, m: Lexeme)
    ensures Lits([l, m]) == l.lit + m.lit
  {
    assert [l, m][1..] == [m];
    LitsOne(m);
  }

  lemma {:induction false} LitsAppend(a: seq<Lexeme>, b: seq<Lexeme>)
    ensures Lits(a + b) == Lits(a) + Lits(b)
    decreases |a|
  {
    if |a| > 0 {
      assert (a + b)[0] == a[0] && (a + b)[1..] == a[1..] + b;
      LitsAppend(a[1..], b);
    } else {
      assert a + b == b;
    }
  }

  /** Two printable sequences side by side are printable when the last lexeme
      of the first is separated from the first of the second. */
  lemma PrintableAppend(a: seq<Lexeme>, b: seq<Lexeme>)
    requires Printable(a) && Printable(b)
    requires |a| >= 1 && |b| >= 1 ==> Separated(a[|a| - 1], b[0])
    ensures Printable(a + b)
  {
    var r := a + b;
    forall i | 0 < i < |r|
      ensures Separated(r[i - 1], r[i])
    {
      if i < |a| {
        assert r[i - 1] == a[i - 1] && r[i] == a[i];
      } else if i == |a| {
        assert r[i - 1] == a[|a| - 1] && r[i] == b[0];
      } else {
        assert r[i - 1] == b[i - 1 - |a|] && r[i] == b[i - |a|];
      }
    }
  }

  /** Printable, non-empty, and neither starting nor ending in a space: such a
      sequence can go on either side of a space. */
  predicate Block(ls: seq<Lexeme>)
  {
    |ls| >= 1 && Printable(ls) && ls[0].tok != Ws && ls[|ls| - 1].tok != Ws
  }

  /** Blocks joined by a lexeme sequence `sep` that is printable and starts
      and ends with lexemes that may touch a block. */
  lemma Join(a: seq<Lexeme>, sep: seq<Lexeme>, b: seq<Lexeme>)
    requires Block(a) && Block(b) && Printable(sep) && |sep| >= 1
    requires Separated(a[|a| - 1], sep[0]) && Separated(sep[|sep| - 1], b[0])
    ensures Block(a + sep + b) && Lits(a + sep + b) == Lits(a) + Lits(sep) + Lits(b)
  {
    PrintableAppend(a, sep);
    PrintableAppend(a + sep, b);
    LitsAppend(a, sep);
    LitsAppend(a + sep, b);
  }

  /** Two blocks with one space between them. */
  lemma SpaceJoin(a: seq<Lexeme>, b: seq<Lexeme>)
    requires Block(a) && Block(b)
    ensures Block(a + [Blank] + b) && Lits(a + [Blank] + b) == Lits(a) + " " + Lits(b)
  {
    LitsOne(Blank);
    Join(a, [Blank], b);
  }

  /** A block in parentheses. */
  lemma Parenthesised(x: seq<Lexeme>)
    requires Block(x)
    ensures var open, close := [Lexeme(ParenL, "(")], [Lexeme(ParenR, ")")];
      Block(open + x + close) && Lits(open + x + close) == "(" + Lits(x) + ")"
  {
    var open, close := [Lexeme(ParenL, "(")], [Lexeme(ParenR, ")")];
    LitsOne(open[0]);
    LitsOne(close[0]);
    Join(open, x, close);
  }

  /** A single simple lexeme other than a space is a block. */
  lemma SingleBlock(l: Lexeme)
    requires Simple(l) && l.tok != Ws
    ensures Block([l]) && Lits([l]) == l.lit
  {
    LitsOne(l);
  }

  /** The lexeme of a keyword spelled as its name is a block. */
  lemma KeywordBlock(t: Token)
    requires t == Select || t == From || t == And || t == Or
    ensures Block([Lexeme(t, Name(t))]) && Lits([Lexeme(t, Name(t))]) == Name(t)
  {
    KeywordIgnoresCase(Name(t), t);
    if t == Select {
      assert IdentChars("ELECT");
      SingleBlock(Lexeme(Select, "SELECT"));
    } else if t == From {
      assert IdentChars("ROM");
      SingleBlock(Lexeme(From, "FROM"));
    } else if t == And {
      assert IdentChars("ND");
      SingleBlock(Lexeme(And, "AND"));
    } else {
      assert IdentChars("R");
      SingleBlock(Lexeme(Or, "OR"));
    }
  }

  // ---------------------------------------------------------------------------
  // Fields and statements

  const Blank: Lexeme := Lexeme(Ws, " ")

  /** The lexeme of an identifier. */
  function Id(name: string): Lexeme { Lexeme(Ident, name) }

  /** The lexeme of a field name: `*` or an IDENT. */
  function NameLexeme(name: string): Lexeme
  {
    if name == "*" then Lexeme(Asterisk, "*") else Lexeme(Ident, name)
  }

  /** The lexemes of a printed field: the name, then a space and the alias. */
  function FieldTokens(f: Field): seq<Lexeme>
  {
    if |f.alias| < 1 then [NameLexeme(f.name)]
    else [NameLexeme(f.name)] + [Blank] + [Lexeme(Ident, f.alias)]
  }

  /** The lexemes of a printed field list: fields separated by a comma and a space. */
  function FieldsTokens(fs: seq<Field>): seq<Lexeme>
  {
    if |fs| < 1 then []
    else if |fs| == 1 then FieldTokens(fs[0])
    else FieldTokens(fs[0]) + [Lexeme(Comma, ","), Blank] + FieldsTokens(fs[1..])
  }

  /** The lexemes of a keyword followed by a space and a field list. */
  function ClauseTokens(keyword: Token, fs: seq<Field>): seq<Lexeme>
  {
    [Lexeme(keyword, Name(keyword))] + [Blank] + FieldsTokens(fs)
  }

  /** The lexemes of a printed statement. */
  function StatementTokens(st: SelectStatement): seq<Lexeme>
  {
    ClauseTokens(Select, st.fieldList) + [Blank] + ClauseTokens(From, st.tableList)
  }

  lemma NameBlock(name: string)
    requires name == "*" || IsName(name)
    ensures Block([NameLexeme(name)]) && Lits([NameLexeme(name)]) == name
  {
    SingleBlock(NameLexeme(name));
  }

  /** A printed field is a block and its text is what the field printer prints. */
  lemma FieldBlock(f: Field)
    requires ValidField(f)
    ensures Block(FieldTokens(f)) && Lits(FieldTokens(f)) == FieldString(f)
  {
    NameBlock(f.name);
    if |f.alias| >= 1 {
      NameBlock(f.alias);
      SpaceJoin([NameLexeme(f.name)], [Lexeme(Ident, f.alias)]);
    }
  }

  lemma CommaBlank()
    ensures Printable([Lexeme(Comma, ","), Blank]) && Lits([Lexeme(Comma, ","), Blank]) == ", "
  {
    LitsPair(Lexeme(Comma, ","), Blank);
  }

  /** A printed non-empty field list is a block whose text is what the list
      printer prints. */
  lemma {:induction false} FieldsBlock(fs: seq<Field>)
    requires |fs| >= 1 && ValidFields(fs)
    ensures Block(FieldsTokens(fs)) && Lits(FieldsTokens(fs)) == FieldsString(fs)
    decreases |fs|
  {
    FieldBlock(fs[0]);
    if |fs| >= 2 {
      var sep := [Lexeme(Comma, ","), Blank];
      FieldsBlock(fs[1..]);
      CommaBlank();
      Join(FieldTokens(fs[0]), sep, FieldsTokens(fs[1..]));
      assert FieldsTokens(fs) == FieldTokens(fs[0]) + sep + FieldsTokens(fs[1..]);
    }
  }

  /** A printed keyword clause is a block: the keyword, a space and the list. */
  lemma ClauseBlock(keyword: Token, fs: seq<Field>)
    requires keyword == Select || keyword == From
    requires |fs| >= 1 && ValidFields(fs)
    ensures Block(ClauseTokens(keyword, fs))
    ensures Lits(ClauseTokens(keyword, fs)) == Name(keyword) + " " + FieldsString(fs)
  {
    KeywordBlock(keyword);
    FieldsBlock(fs);
    SpaceJoin([Lexeme(keyword, Name(keyword))], FieldsTokens(fs));
  }

  lemma StatementText(fields: string, tables: string)
    ensures ("SELECT" + " " + fields) + " " + ("FROM" + " " + tables)
      == "SELECT " + fields + " FROM " + tables
  {
  }

  /** A printed valid statement is a block whose text is what the statement
      printer prints. */
  lemma StatementBlock(st: SelectStatement)
    requires ValidStatement(st)
    ensures Block(StatementTokens(st)) && Lits(StatementTokens(st)) == StatementString(st)
  {
    var select, from := ClauseTokens(Select, st.fieldList), ClauseTokens(From, st.tableList);
    ClauseBlock(Select, st.fieldList);
    ClauseBlock(From, st.tableList);
    SpaceJoin(select, from);
    assert StatementTokens(st) == select + [Blank] + from;
    StatementText(FieldsString(st.fieldList), FieldsString(st.tableList));
  }

  /** The printed statement scans back to its lexemes. */
  lemma StatementTokenizes(st: SelectStatement)
    requires ValidStatement(st)
    ensures Tokenize(StatementString(st)) == StatementTokens(st)
  {
    StatementBlock(st);
    Tokenizes(StatementTokens(st));
  }

  // ---------------------------------------------------------------------------
  // Conditions

  /** The lexemes of a printed condition tree. */
  function CondTokens(c: Cond): seq<Lexeme>
  {
    match c
    case Comp(ident) => [Lexeme(Ident, ident)]
    case Conj(op, left, right) =>
      [Lexeme(ParenL, "(")]
      + (CondTokens(left) + [Blank] + [Lexeme(op, Name(op))] + [Blank] + CondTokens(right))
      + [Lexeme(ParenR, ")")]
  }

  lemma CondText(l: string, op: string, r: string)
    ensures "(" + (l + " " + op + " " + r) + ")" == "(" + l + " " + op + " " + r + ")"
  {
  }

  /** A printed condition is a block whose text is what the tree printer prints. */
  lemma {:induction false} CondBlock(c: Cond)
    requires ValidCond(c)
    ensures Block(CondTokens(c)) && Lits(CondTokens(c)) == CondString(c)
  {
    match c
    case Comp(ident) =>
      LitsOne(Lexeme(Ident, ident));
    case Conj(op, left, right) =>
      CondBlock(left);
      CondBlock(right);
      KeywordBlock(op);
      var l, r := CondTokens(left), CondTokens(right);
      var opl := [Lexeme(op, Name(op))];
      SpaceJoin(l, opl);
      SpaceJoin(l + [Blank] + opl, r);
      Parenthesised(l + [Blank] + opl + [Blank] + r);
      CondText(CondString(left), Name(op), CondString(right));
  }

  /** The printed condition scans back to its lexemes. */
  lemma CondTokenizes(c: Cond)
    requires ValidCond(c)
    ensures Tokenize(CondString(c)) == CondTokens(c)
  {
    CondBlock(c);
    Tokenizes(CondTokens(c));
  }
}
