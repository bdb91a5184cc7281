/** parseCondTree corrected: a parenthesised operand is closed by the `)`
    read right after its inner tree, and a tree followed by `)` or the end of
    input leaves that token for whoever reads next. The grammar is
      tree    := primary [(AND | OR) tree]
      primary := IDENT | '(' tree ')'
    Module CorrectedFacts proves that printing a condition and parsing it
    back gives the condition again, and that the corrected parser reads the
    example conditions of the tests as the tests expect. */
module Corrected {
  import opened Tokens
  import opened TokenStream
  import opened Ast
  import opened Parsing
  import opened Grammar

  /** An operand: an IDENT leaf, or `(`, a tree and the `)` that closes it. */
  function Primary(toks: seq<Lexeme>, k: int): (p: Parsed<Cond>)
    ensures p.next > k
    ensures p.result.Ok? ==> WellFormed(p.result.value)
    decreases Remaining(toks, k), 0
  {
    var a := NextNonWs(toks, k);
    if a.lex.tok == ParenL then
      NextInside(toks, k);
      var inner := Tree(toks, a.next);
      if inner.result.Err? then inner
      else
        var c := NextNonWs(toks, inner.next);
        if c.lex.tok == ParenR then Parsed(inner.result, c.next)
        else Parsed(Err(Unexpected(c.lex.lit, ClosingParen)), c.next)
    else if a.lex.tok == Ident then Parsed(Ok(Comp(a.lex.lit)), a.next)
    else Parsed(Err(Unexpected(a.lex.lit, Operand)), a.next)
  }

  /** A tree: an operand, then what follows it. */
  function Tree(toks: seq<Lexeme>, k: int): (p: Parsed<Cond>)
    ensures p.next > k
    ensures p.result.Ok? ==> WellFormed(p.result.value)
    decreases Remaining(toks, k), 1
  {
    var left := Primary(toks, k);
    if left.result.Err? then left else After(toks, k, left)
  }

  /** After the operand `left` of the tree that started at `k`: AND or OR and
      the right-hand tree; or `)` or EOF, which ends the tree and is pushed
      back. */
  function After(toks: seq<Lexeme>, k: int, left: Parsed<Cond>): (p: Parsed<Cond>)
    requires left.result.Ok? && left.next > k && WellFormed(left.result.value)
    ensures p.next >= left.next
    ensures p.result.Ok? ==> WellFormed(p.result.value)
    decreases Remaining(toks, k), 0
  {
    var b := NextNonWs(toks, left.next);
    if b.lex.tok == And || b.lex.tok == Or then
      NextInside(toks, left.next);
      var right := Tree(toks, b.next);
      if right.result.Err? then right
      else Parsed(Ok(Conj(b.lex.tok, left.result.value, right.result.value)), right.next)
    else if b.lex.tok == ParenR || b.lex.tok == Eof then Parsed(left.result, b.next - 1)
    else Parsed(Err(Unexpected(b.lex.lit, Conjunction)), b.next)
  }
}

/** What the corrected condition parser reads. */
module CorrectedFacts {
  import opened Tokens
  import opened TokenStream
  import opened Ast
  import opened Parsing
  import opened Grammar
  import opened Rendering
  import opened RoundTrip
  import opened CondFacts
  import opened Corrected

  // ---------------------------------------------------------------------------
  // Steps

  lemma TreeSkip(toks: seq<Lexeme>, j: int)
    requires TokAt(toks, j).tok == Ws && TokAt(toks, j + 1).tok != Ws
    ensures Tree(toks, j) == Tree(toks, j + 1)
  {
    assert NextNonWs(toks, j) == NextNonWs(toks, j + 1);
    var left := Primary(toks, j);
    assert left == Primary(toks, j + 1);
    if left.result.Ok? {
      assert After(toks, j, left) == After(toks, j + 1, left);
    }
  }

  lemma Leaf(toks: seq<Lexeme>, k: int, name: string)
    requires TokAt(toks, k) == Id(name)
    ensures Primary(toks, k) == Parsed(Ok(Comp(name)), k + 1)
  {
  }

  /** `(`, a tree ending at `n`, and a `)` there. */
  lemma Group(toks: seq<Lexeme>, k: int, c: Cond, n: int)
    requires TokAt(toks, k) == Open && Tree(toks, k + 1) == Parsed(Ok(c), n)
    requires NextNonWs(toks, n).lex.tok == ParenR
    ensures Primary(toks, k) == Parsed(Ok(c), NextNonWs(toks, n).next)
  {
    NextInside(toks, k);
  }

  lemma Conjoin(toks: seq<Lexeme>, k: int, left: Cond, m: int, op: Token, right: Cond, n: int)
    requires Primary(toks, k) == Parsed(Ok(left), m)
    requires NextNonWs(toks, m).lex.tok == op && (op == And || op == Or)
    requires Tree(toks, NextNonWs(toks, m).next) == Parsed(Ok(right), n)
    ensures Tree(toks, k) == Parsed(Ok(Conj(op, left, right)), n)
  {
    NextInside(toks, m);
  }

  /** An operand followed by `)` or the end of input is the whole tree, and
      that token is left unread. */
  lemma End(toks: seq<Lexeme>, k: int, left: Cond, m: int)
    requires Primary(toks, k) == Parsed(Ok(left), m)
    requires NextNonWs(toks, m).lex.tok in {ParenR, Eof}
    ensures Tree(toks, k) == Parsed(Ok(left), NextNonWs(toks, m).next - 1)
  {
  }

  // ---------------------------------------------------------------------------
  // Printing then parsing gives the condition back

  lemma ValidIsWellFormed(c: Cond)
    requires ValidCond(c)
    ensures WellFormed(c)
  {
  }

  /** A printed condition starts with an IDENT or a `(`. */
  lemma FirstLexeme(c: Cond)
    ensures |CondTokens(c)| >= 1 && CondTokens(c)[0].tok in {Ident, ParenL}
  {
  }

  /** A printed condition in the stream, followed by anything, is read back as
      one operand that ends right after it. */
  lemma {:induction false} PrimaryRendered(toks: seq<Lexeme>, k: int, c: Cond)
    requires WellFormed(c) && Occurs(toks, k, CondTokens(c))
    ensures Primary(toks, k) == Parsed(Ok(c), k + |CondTokens(c)|)
    decreases c
  {
    match c
    case Comp(name) =>
      LeafAt(toks, k, name);
      Leaf(toks, k, name);
    case Conj(op, left, right) =>
      var l, r := |CondTokens(left)|, |CondTokens(right)|;
      ConjLayout(toks, k, c, l, r);
      PrimaryRendered(toks, k + 1, left);
      PrimaryRendered(toks, k + 4 + l, right);
      FirstLexeme(right);
      OccursAt(toks, k + 4 + l, CondTokens(right), 0);
      GroupedConj(toks, k, left, l, op, right, r);
  }

  /** `(`, an operand of `l` lexemes, ` op `, an operand of `r` lexemes, and a
      `)`: one operand, the conjunction of the two, ending after the `)`. */
  lemma GroupedConj(toks: seq<Lexeme>, k: int, left: Cond, l: int, op: Token, right: Cond, r: int)
    requires op == And || op == Or
    requires TokAt(toks, k) == Open && Primary(toks, k + 1) == Parsed(Ok(left), k + 1 + l)
    requires TokAt(toks, k + 1 + l) == Blank && TokAt(toks, k + 2 + l) == Lexeme(op, Name(op))
    requires TokAt(toks, k + 3 + l) == Blank && TokAt(toks, k + 4 + l).tok in {Ident, ParenL}
    requires Primary(toks, k + 4 + l) == Parsed(Ok(right), k + 4 + l + r)
    requires TokAt(toks, k + 4 + l + r) == Close
    ensures Primary(toks, k) == Parsed(Ok(Conj(op, left, right)), k + 5 + l + r)
  {
    var m, e := k + 1 + l, k + 4 + l + r;
    RightBeforeClose(toks, m + 2, right, e);
    ConjBeforeClose(toks, k + 1, left, m, op, right, e);
    assert NextNonWs(toks, e) == Read(Close, e + 1);
    Group(toks, k, Conj(op, left, right), e);
  }

  /** An operand ending at `m`, then ` op ` and a tree ending at `e`: the
      tree from `j` is the conjunction of the two and also ends at `e`. */
  lemma ConjBeforeClose(toks: seq<Lexeme>, j: int, left: Cond, m: int, op: Token, right: Cond, e: int)
    requires op == And || op == Or
    requires Primary(toks, j) == Parsed(Ok(left), m)
    requires TokAt(toks, m) == Blank && TokAt(toks, m + 1) == Lexeme(op, Name(op))
    requires Tree(toks, m + 2) == Parsed(Ok(right), e)
    ensures Tree(toks, j) == Parsed(Ok(Conj(op, left, right)), e)
  {
    assert NextNonWs(toks, m) == Read(Lexeme(op, Name(op)), m + 2);
    Conjoin(toks, j, left, m, op, right, e);
  }

  /** A blank, then an operand ending at `e` right before a `)`: the tree
      after the blank is that operand alone. */
  lemma RightBeforeClose(toks: seq<Lexeme>, i: int, right: Cond, e: int)
    requires TokAt(toks, i) == Blank && TokAt(toks, i + 1).tok in {Ident, ParenL}
    requires Primary(toks, i + 1) == Parsed(Ok(right), e)
    requires TokAt(toks, e) == Close
    ensures Tree(toks, i) == Parsed(Ok(right), e)
  {
    assert NextNonWs(toks, e) == Read(Close, e + 1);
    End(toks, i + 1, right, e);
    TreeSkip(toks, i);
  }

  /** The corrected parser reads every printed condition back as itself and
      stops at the end of input. */
  lemma {:induction false} FixedRoundTrip(c: Cond)
    requires ValidCond(c)
    ensures var toks := Tokenize(CondString(c));
      Tree(toks, 0) == Parsed(Ok(c), |toks|)
  {
    CondTokenizes(c);
    ValidIsWellFormed(c);
    var toks := CondTokens(c);
    OccursWhole(toks);
    PrimaryRendered(toks, 0, c);
    End(toks, 0, c, |toks|);
  }

  /** In particular the condition the uncorrected parser misreads. */
  lemma NestedReadBack()
    ensures Tree(Tokenize(CondString(Nested)), 0).result == Ok(Nested)
  {
    OneLetterName('A');
    OneLetterName('B');
    OneLetterName('C');
    OneLetterName('D');
    FixedRoundTrip(Nested);
  }

  // ---------------------------------------------------------------------------
  // The test conditions

  /** A chain of names to the end of input nests to the right. */
  lemma {:induction false} ChainRead(toks: seq<Lexeme>, k: int, names: seq<string>, op: Token)
    requires |names| >= 1 && (op == And || op == Or)
    requires Occurs(toks, k, ChainTokens(names, op)) && k + |ChainTokens(names, op)| == |toks|
    ensures Tree(toks, k) == Parsed(Ok(RightChain(names, op)), |toks|)
    decreases |names|
  {
    if |names| == 1 {
      OccursAt(toks, k, ChainTokens(names, op), 0);
      Leaf(toks, k, names[0]);
      End(toks, k, Comp(names[0]), k + 1);
    } else {
      ChainLayout(toks, k, names, op);
      OccursAt(toks, k + 4, ChainTokens(names[1..], op), 0);
      ChainRead(toks, k + 4, names[1..], op);
      TreeSkip(toks, k + 3);
      Leaf(toks, k, names[0]);
      Conjoin(toks, k, Comp(names[0]), k + 1, op, RightChain(names[1..], op), |toks|);
    }
  }

  /** `A AND B AND C AND D`, read as the test expects, as the uncorrected parser reads it too. */
  lemma FourAndsFixed()
    ensures var toks := Tokenize("A AND B AND C AND D");
      Tree(toks, 0)
      == Parsed(Ok(Conj(And, Comp("A"), Conj(And, Comp("B"), Conj(And, Comp("C"), Comp("D"))))), |toks|)
  {
    var names := ["A", "B", "C", "D"];
    FourAndsText();
    FourAndsTree();
    OneLetterName('A');
    OneLetterName('B');
    OneLetterName('C');
    OneLetterName('D');
    ChainBlock(names, And);
    var toks := ChainTokens(names, And);
    Tokenizes(toks);
    OccursWhole(toks);
    ChainRead(toks, 0, names, And);
  }

  /** The operand `(A AND B)` followed by ` OR`. */
  lemma GroupABFixed(toks: seq<Lexeme>)
    requires |toks| >= 9 && toks[0] == Open && toks[1] == Id("A") && toks[2] == Blank
    requires toks[3] == AndWord && toks[4] == Blank && toks[5] == Id("B") && toks[6] == Close
    requires toks[7] == Blank && toks[8] == OrWord
    ensures Primary(toks, 0) == Parsed(Ok(Conj(And, Comp("A"), Comp("B"))), 7)
  {
    Leaf(toks, 5, "B");
    End(toks, 5, Comp("B"), 6);
    TreeSkip(toks, 4);
    Leaf(toks, 1, "A");
    Conjoin(toks, 1, Comp("A"), 2, And, Comp("B"), 6);
    Group(toks, 0, Conj(And, Comp("A"), Comp("B")), 6);
  }

  /** `(A AND B)` on its own: the group is the whole tree, and the corrected
      parser stops at the end of input. */
  lemma GroupAloneFixed(toks: seq<Lexeme>)
    requires |toks| == 7 && toks[0] == Open && toks[1] == Id("A") && toks[2] == Blank
    requires toks[3] == AndWord && toks[4] == Blank && toks[5] == Id("B") && toks[6] == Close
    ensures Tree(toks, 0) == Parsed(Ok(Conj(And, Comp("A"), Comp("B"))), 7)
  {
    var ab := Conj(And, Comp("A"), Comp("B"));
    Leaf(toks, 5, "B");
    End(toks, 5, Comp("B"), 6);
    TreeSkip(toks, 4);
    Leaf(toks, 1, "A");
    Conjoin(toks, 1, Comp("A"), 2, And, Comp("B"), 6);
    Group(toks, 0, ab, 6);
    End(toks, 0, ab, 7);
  }

  /** `(A AND B) OR C`, read as the test expects, as the uncorrected parser reads it too. */
  lemma GroupThenNameFixed(toks: seq<Lexeme>)
    requires |toks| == 11 && toks[0] == Open && toks[1] == Id("A") && toks[2] == Blank
    requires toks[3] == AndWord && toks[4] == Blank && toks[5] == Id("B") && toks[6] == Close
    requires toks[7] == Blank && toks[8] == OrWord && toks[9] == Blank && toks[10] == Id("C")
    ensures Tree(toks, 0) == Parsed(Ok(Conj(Or, Conj(And, Comp("A"), Comp("B")), Comp("C"))), 11)
  {
    var ab := Conj(And, Comp("A"), Comp("B"));
    GroupABFixed(toks);
    Leaf(toks, 10, "C");
    End(toks, 10, Comp("C"), 11);
    TreeSkip(toks, 9);
    Conjoin(toks, 0, ab, 7, Or, Comp("C"), 11);
  }

  /** `(A AND B) OR (C AND D)`, read as the test expects, as the uncorrected parser reads it too. */
  lemma TwoGroupsFixed(toks: seq<Lexeme>)
    requires |toks| == 17 && toks[0] == Open && toks[1] == Id("A") && toks[2] == Blank
    requires toks[3] == AndWord && toks[4] == Blank && toks[5] == Id("B") && toks[6] == Close
    requires toks[7] == Blank && toks[8] == OrWord && toks[9] == Blank && toks[10] == Open
    requires toks[11] == Id("C") && toks[12] == Blank && toks[13] == AndWord && toks[14] == Blank
    requires toks[15] == Id("D") && toks[16] == Close
    ensures Tree(toks, 0)
      == Parsed(Ok(Conj(Or, Conj(And, Comp("A"), Comp("B")), Conj(And, Comp("C"), Comp("D")))), 17)
  {
    var ab, cd := Conj(And, Comp("A"), Comp("B")), Conj(And, Comp("C"), Comp("D"));
    GroupABFixed(toks);
    Leaf(toks, 15, "D");
    End(toks, 15, Comp("D"), 16);
    TreeSkip(toks, 14);
    Leaf(toks, 11, "C");
    Conjoin(toks, 11, Comp("C"), 12, And, Comp("D"), 16);
    Group(toks, 10, cd, 16);
    End(toks, 10, cd, 17);
    TreeSkip(toks, 9);
    Conjoin(toks, 0, ab, 7, Or, cd, 17);
  }

  /** `(D OR E) AND F)` from its `(` at 15: the tree (D OR E) AND F, ending
      before the last `)`. */
  lemma InnerTailFixed(toks: seq<Lexeme>)
    requires |toks| == 27
    requires toks[15] == Open && toks[16] == Id("D") && toks[17] == Blank && toks[18] == OrWord
    requires toks[19] == Blank && toks[20] == Id("E") && toks[21] == Close && toks[22] == Blank
    requires toks[23] == AndWord && toks[24] == Blank && toks[25] == Id("F") && toks[26] == Close
    ensures Tree(toks, 15) == Parsed(Ok(Conj(And, Conj(Or, Comp("D"), Comp("E")), Comp("F"))), 26)
  {
    var de := Conj(Or, Comp("D"), Comp("E"));
    Leaf(toks, 20, "E");
    End(toks, 20, Comp("E"), 21);
    TreeSkip(toks, 19);
    Leaf(toks, 16, "D");
    Conjoin(toks, 16, Comp("D"), 17, Or, Comp("E"), 21);
    Group(toks, 15, de, 21);
    Leaf(toks, 25, "F");
    End(toks, 25, Comp("F"), 26);
    TreeSkip(toks, 24);
    Conjoin(toks, 15, de, 22, And, Comp("F"), 26);
  }

  /** The right-hand group of `(A AND B) OR (C AND (D OR E) AND F)`, from its
      `(` at 10. */
  lemma InnerGroupFixed(toks: seq<Lexeme>)
    requires |toks| == 27 && toks[10] == Open
    requires toks[11] == Id("C") && toks[12] == Blank && toks[13] == AndWord && toks[14] == Blank
    requires toks[15] == Open && toks[16] == Id("D") && toks[17] == Blank && toks[18] == OrWord
    requires toks[19] == Blank && toks[20] == Id("E") && toks[21] == Close && toks[22] == Blank
    requires toks[23] == AndWord && toks[24] == Blank && toks[25] == Id("F") && toks[26] == Close
    ensures Tree(toks, 10)
      == Parsed(Ok(Conj(And, Comp("C"), Conj(And, Conj(Or, Comp("D"), Comp("E")), Comp("F")))), 27)
  {
    var def := Conj(And, Conj(Or, Comp("D"), Comp("E")), Comp("F"));
    var cdef := Conj(And, Comp("C"), def);
    InnerTailFixed(toks);
    TreeSkip(toks, 14);
    Leaf(toks, 11, "C");
    Conjoin(toks, 11, Comp("C"), 12, And, def, 26);
    Group(toks, 10, cdef, 26);
    End(toks, 10, cdef, 27);
  }

  /** `(A AND B) OR (C AND (D OR E) AND F)`, read as the test expects, as the
      uncorrected parser reads it too. */
  lemma NestedGroupsFixed(toks: seq<Lexeme>)
    requires |toks| == 27 && toks[0] == Open && toks[1] == Id("A") && toks[2] == Blank
    requires toks[3] == AndWord && toks[4] == Blank && toks[5] == Id("B") && toks[6] == Close
    requires toks[7] == Blank && toks[8] == OrWord && toks[9] == Blank && toks[10] == Open
    requires toks[11] == Id("C") && toks[12] == Blank && toks[13] == AndWord && toks[14] == Blank
    requires toks[15] == Open && toks[16] == Id("D") && toks[17] == Blank && toks[18] == OrWord
    requires toks[19] == Blank && toks[20] == Id("E") && toks[21] == Close && toks[22] == Blank
    requires toks[23] == AndWord && toks[24] == Blank && toks[25] == Id("F") && toks[26] == Close
    ensures Tree(toks, 0)
      == Parsed(Ok(Conj(Or, Conj(And, Comp("A"), Comp("B")),
                       Conj(And, Comp("C"), Conj(And, Conj(Or, Comp("D"), Comp("E")), Comp("F"))))), 27)
  {
    var ab := Conj(And, Comp("A"), Comp("B"));
    var cdef := Conj(And, Comp("C"), Conj(And, Conj(Or, Comp("D"), Comp("E")), Comp("F")));
    GroupABFixed(toks);
    InnerGroupFixed(toks);
    TreeSkip(toks, 9);
    Conjoin(toks, 0, ab, 7, Or, cdef, 27);
  }

  // ---------------------------------------------------------------------------
  // Unbalanced parentheses are rejected or left unread

  /** `(A AND B` is an error: the `(` is never closed. */
  lemma UnclosedGroupFixed(toks: seq<Lexeme>)
    requires |toks| == 6 && toks[0] == Open && toks[1] == Id("A") && toks[2] == Blank
    requires toks[3] == AndWord && toks[4] == Blank && toks[5] == Id("B")
    ensures Tree(toks, 0) == Parsed(Err(Unexpected("", ClosingParen)), 7)
  {
    Leaf(toks, 5, "B");
    End(toks, 5, Comp("B"), 6);
    TreeSkip(toks, 4);
    Leaf(toks, 1, "A");
    Conjoin(toks, 1, Comp("A"), 2, And, Comp("B"), 6);
    NextInside(toks, 0);
  }

  /** In `A AND B)` the tree A AND B ends before the `)`, which is left for
      the caller. */
  lemma StrayCloseFixed(toks: seq<Lexeme>)
    requires |toks| == 6 && toks[0] == Id("A") && toks[1] == Blank && toks[2] == AndWord
    requires toks[3] == Blank && toks[4] == Id("B") && toks[5] == Close
    ensures Tree(toks, 0) == Parsed(Ok(Conj(And, Comp("A"), Comp("B"))), 5)
    ensures TokAt(toks, 5) == Close
  {
    Leaf(toks, 4, "B");
    End(toks, 4, Comp("B"), 5);
    TreeSkip(toks, 3);
    Leaf(toks, 0, "A");
    Conjoin(toks, 0, Comp("A"), 1, And, Comp("B"), 5);
  }
}
