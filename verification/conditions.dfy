/** Facts about parseCondTree as written: right-nested chains, the example
    conditions of its tests, its acceptance of unbalanced parentheses, and a
    printed condition it reads back as a different tree. */
module CondFacts {
  import opened Tokens
  import opened Lexer
  import opened TokenStream
  import opened Ast
  import opened Parsing
  import opened Grammar
  import opened Rendering
  import opened RoundTrip

  const Open: Lexeme := Lexeme(ParenL, "(")
  const Close: Lexeme := Lexeme(ParenR, ")")
  const AndWord: Lexeme := Lexeme(And, "AND")
  const OrWord: Lexeme := Lexeme(Or, "OR")

  /** Whitespace before a tree is skipped: the tree read from a WS token is the
      tree read from the token after it. */
  lemma CondTreeSkip(toks: seq<Lexeme>, j: int)
    requires TokAt(toks, j).tok == Ws && TokAt(toks, j + 1).tok != Ws
    ensures CondTree(toks, j) == CondTree(toks, j + 1)
  {
    assert NextNonWs(toks, j) == NextNonWs(toks, j + 1);
    var left := CondOperand(toks, j);
    assert left == CondOperand(toks, j + 1);
    if left.result.Ok? {
      assert CondAfter(toks, j, left) == CondAfter(toks, j + 1, left);
    }
  }

  // ---------------------------------------------------------------------------
  // Chains: `A op B op C ...` without parentheses

  /** Names joined by one operator, nested to the right. */
  function RightChain(names: seq<string>, op: Token): (c: Cond)
    requires |names| >= 1
    ensures c.Comp? <==> |names| == 1
  {
    if |names| == 1 then Comp(names[0])
    else Conj(op, Comp(names[0]), RightChain(names[1..], op))
  }

  /** The lexemes of `names` joined by ` op `. */
  function ChainTokens(names: seq<string>, op: Token): seq<Lexeme>
    requires |names| >= 1
  {
    if |names| == 1 then [Id(names[0])]
    else [Id(names[0])] + [Blank] + [Lexeme(op, Name(op))] + [Blank] + ChainTokens(names[1..], op)
  }

  /** The text of `names` joined by ` op `. */
  function ChainString(names: seq<string>, op: Token): string
    requires |names| >= 1
  {
    if |names| == 1 then names[0]
    else names[0] + " " + Name(op) + " " + ChainString(names[1..], op)
  }

  predicate AllNames(names: seq<string>)
  {
    forall i :: 0 <= i < |names| ==> IsName(names[i])
  }

  lemma AllNamesTail(names: seq<string>)
    requires |names| >= 1 && AllNames(names)
    ensures IsName(names[0]) && AllNames(names[1..])
  {
    assert forall i :: 0 <= i < |names[1..]| ==> names[1..][i] == names[i + 1];
  }

  /** A printed chain is a block whose text is the chain's text. */
  lemma {:induction false} ChainBlock(names: seq<string>, op: Token)
    requires |names| >= 1 && (op == And || op == Or) && AllNames(names)
    ensures Block(ChainTokens(names, op)) && Lits(ChainTokens(names, op)) == ChainString(names, op)
    decreases |names|
  {
    AllNamesTail(names);
    SingleBlock(Id(names[0]));
    if |names| >= 2 {
      var head, opl, rest := [Id(names[0])], [Lexeme(op, Name(op))], ChainTokens(names[1..], op);
      ChainBlock(names[1..], op);
      KeywordBlock(op);
      SpaceJoin(head, opl);
      SpaceJoin(head + [Blank] + opl, rest);
    }
  }

  /** The first four lexemes of a chain of two or more names, and the rest. */
  lemma ChainLayout(toks: seq<Lexeme>, k: int, names: seq<string>, op: Token)
    requires |names| >= 2 && Occurs(toks, k, ChainTokens(names, op))
    ensures TokAt(toks, k) == Id(names[0]) && TokAt(toks, k + 1) == Blank
    ensures TokAt(toks, k + 2) == Lexeme(op, Name(op)) && TokAt(toks, k + 3) == Blank
    ensures Occurs(toks, k + 4, ChainTokens(names[1..], op))
    ensures |ChainTokens(names, op)| == 4 + |ChainTokens(names[1..], op)|
  {
    var head, rest := [Id(names[0])] + [Blank] + [Lexeme(op, Name(op))] + [Blank], ChainTokens(names[1..], op);
    OccursSplit(toks, k, head, rest);
    OccursAt(toks, k, head, 0);
    OccursAt(toks, k, head, 1);
    OccursAt(toks, k, head, 2);
    OccursAt(toks, k, head, 3);
  }

  /** An IDENT is a leaf operand. */
  lemma LeafOperand(toks: seq<Lexeme>, k: int, name: string)
    requires TokAt(toks, k) == Id(name)
    ensures CondOperand(toks, k) == Parsed(Ok(Comp(name)), k + 1)
  {
  }

  /** A `(` operand is the tree after it. */
  lemma ParenOperand(toks: seq<Lexeme>, k: int, c: Cond, n: int)
    requires TokAt(toks, k) == Open && CondTree(toks, k + 1) == Parsed(Ok(c), n)
    ensures CondOperand(toks, k) == Parsed(Ok(c), n)
  {
    NextInside(toks, k);
  }

  /** An operand followed by AND or OR and a right-hand tree makes a
      conjunction; after it a `)` is consumed and any other token pushed back. */
  lemma ConjStep(toks: seq<Lexeme>, k: int, left: Cond, m: int, op: Token, right: Cond, n: int)
    requires CondOperand(toks, k) == Parsed(Ok(left), m)
    requires NextNonWs(toks, m).lex.tok == op && (op == And || op == Or)
    requires CondTree(toks, NextNonWs(toks, m).next) == Parsed(Ok(right), n)
    ensures var c := NextNonWs(toks, n);
      CondTree(toks, k) == Parsed(Ok(Conj(op, left, right)), if c.lex.tok == ParenR then c.next else c.next - 1)
  {
    NextInside(toks, m);
  }

  /** An operand followed by `)` or the end of input is the whole tree. */
  lemma EndStep(toks: seq<Lexeme>, k: int, left: Cond, m: int)
    requires CondOperand(toks, k) == Parsed(Ok(left), m)
    requires NextNonWs(toks, m).lex.tok in {ParenR, Eof}
    ensures CondTree(toks, k) == Parsed(Ok(left), NextNonWs(toks, m).next)
  {
  }

  /** A chain of names read to the end of the input parses as the chain nested
      to the right, the way the AND branch recurses into its right-hand side. */
  lemma {:induction false} ChainParsed(toks: seq<Lexeme>, k: int, names: seq<string>, op: Token)
    requires |names| >= 1 && (op == And || op == Or)
    requires Occurs(toks, k, ChainTokens(names, op)) && k + |ChainTokens(names, op)| == |toks|
    ensures CondTree(toks, k) == Parsed(Ok(RightChain(names, op)), |toks| + 1)
    decreases |names|
  {
    if |names| == 1 {
      OccursAt(toks, k, ChainTokens(names, op), 0);
      LeafOperand(toks, k, names[0]);
      EndStep(toks, k, Comp(names[0]), k + 1);
    } else {
      ChainLayout(toks, k, names, op);
      OccursAt(toks, k + 4, ChainTokens(names[1..], op), 0);
      ChainParsed(toks, k + 4, names[1..], op);
      CondTreeSkip(toks, k + 3);
      LeafOperand(toks, k, names[0]);
      ConjStep(toks, k, Comp(names[0]), k + 1, op, RightChain(names[1..], op), |toks| + 1);
    }
  }

  lemma ChainCons(name: string, rest: seq<string>, op: Token)
    requires |rest| >= 1
    ensures ChainString([name] + rest, op) == name + " " + Name(op) + " " + ChainString(rest, op)
    ensures RightChain([name] + rest, op) == Conj(op, Comp(name), RightChain(rest, op))
  {
    assert ([name] + rest)[1..] == rest;
  }

  /** A single letter is a name: no keyword is one letter long. */
  lemma OneLetterName(c: char)
    requires IsLetter(c)
    ensures IsName([c])
  {
    assert |Upper([c])| == 1;
  }

  /** The chain of A, B, C and D under AND prints as the test's text. */
  lemma FourAndsText()
    ensures ChainString(["A", "B", "C", "D"], And) == "A AND B AND C AND D"
  {
    var cd := ["C"] + ["D"];
    var bcd := ["B"] + cd;
    ChainCons("C", ["D"], And);
    ChainCons("B", cd, And);
    ChainCons("A", bcd, And);
    assert Name(And) == "AND";
    assert ChainString(["D"], And) == "D";
    assert ChainString(cd, And) == "C AND D";
    assert ChainString(bcd, And) == "B AND C AND D";
    assert ["A"] + bcd == ["A", "B", "C", "D"];
  }

  /** The chain of A, B, C and D under AND nests to the right. */
  lemma FourAndsTree()
    ensures RightChain(["A", "B", "C", "D"], And)
      == Conj(And, Comp("A"), Conj(And, Comp("B"), Conj(And, Comp("C"), Comp("D"))))
  {
    var cd := ["C"] + ["D"];
    var bcd := ["B"] + cd;
    ChainCons("C", ["D"], And);
    ChainCons("B", cd, And);
    ChainCons("A", bcd, And);
    assert RightChain(["D"], And) == Comp("D");
    assert ["A"] + bcd == ["A", "B", "C", "D"];
  }

  /** `A AND B AND C AND D` parses as A AND (B AND (C AND D)). */
  lemma FourAnds()
    ensures var toks := Tokenize("A AND B AND C AND D");
      CondTree(toks, 0)
      == Parsed(Ok(Conj(And, Comp("A"), Conj(And, Comp("B"), Conj(And, Comp("C"), Comp("D"))))), |toks| + 1)
  {
    var names := ["A", "B", "C", "D"];
    FourAndsText();
    FourAndsTree();
    OneLetterName('A');
    OneLetterName('B');
    OneLetterName('C');
    OneLetterName('D');
    ChainBlock(names, And);
    var toks := ChainTokens(names, And);
    Tokenizes(toks);
    OccursWhole(toks);
    ChainParsed(toks, 0, names, And);
  }

  // ---------------------------------------------------------------------------
  // The remaining test conditions, as the lexemes the scanner yields for them

  /** The operand `(A AND B)` followed by ` OR`. */
  lemma GroupAB(toks: seq<Lexeme>)
    requires |toks| >= 9 && toks[0] == Open && toks[1] == Id("A") && toks[2] == Blank
    requires toks[3] == AndWord && toks[4] == Blank && toks[5] == Id("B") && toks[6] == Close
    requires toks[7] == Blank && toks[8] == OrWord
    ensures CondOperand(toks, 0) == Parsed(Ok(Conj(And, Comp("A"), Comp("B"))), 8)
  {
    LeafOperand(toks, 5, "B");
    EndStep(toks, 5, Comp("B"), 6);
    CondTreeSkip(toks, 4);
    LeafOperand(toks, 1, "A");
    ConjStep(toks, 1, Comp("A"), 2, And, Comp("B"), 7);
    ParenOperand(toks, 0, Conj(And, Comp("A"), Comp("B")), 8);
  }

  /** `(A AND B)` on its own parses as A AND B; the closing `)` is consumed
      as the end of the inner tree, then EOF ends the outer one. */
  lemma GroupAlone(toks: seq<Lexeme>)
    requires |toks| == 7 && toks[0] == Open && toks[1] == Id("A") && toks[2] == Blank
    requires toks[3] == AndWord && toks[4] == Blank && toks[5] == Id("B") && toks[6] == Close
    ensures CondTree(toks, 0) == Parsed(Ok(Conj(And, Comp("A"), Comp("B"))), 8)
  {
    var ab := Conj(And, Comp("A"), Comp("B"));
    LeafOperand(toks, 5, "B");
    EndStep(toks, 5, Comp("B"), 6);
    CondTreeSkip(toks, 4);
    LeafOperand(toks, 1, "A");
    ConjStep(toks, 1, Comp("A"), 2, And, Comp("B"), 7);
    ParenOperand(toks, 0, ab, 7);
    EndStep(toks, 0, ab, 7);
  }

  /** `(A AND B) OR C` parses as (A AND B) OR C. */
  lemma GroupThenName(toks: seq<Lexeme>)
    requires |toks| == 11 && toks[0] == Open && toks[1] == Id("A") && toks[2] == Blank
    requires toks[3] == AndWord && toks[4] == Blank && toks[5] == Id("B") && toks[6] == Close
    requires toks[7] == Blank && toks[8] == OrWord && toks[9] == Blank && toks[10] == Id("C")
    ensures CondTree(toks, 0) == Parsed(Ok(Conj(Or, Conj(And, Comp("A"), Comp("B")), Comp("C"))), 12)
  {
    var ab := Conj(And, Comp("A"), Comp("B"));
    GroupAB(toks);
    LeafOperand(toks, 10, "C");
    EndStep(toks, 10, Comp("C"), 11);
    CondTreeSkip(toks, 9);
    ConjStep(toks, 0, ab, 8, Or, Comp("C"), 12);
  }

  /** `(A AND B) OR (C AND D)` parses as (A AND B) OR (C AND D). */
  lemma TwoGroups(toks: seq<Lexeme>)
    requires |toks| == 17 && toks[0] == Open && toks[1] == Id("A") && toks[2] == Blank
    requires toks[3] == AndWord && toks[4] == Blank && toks[5] == Id("B") && toks[6] == Close
    requires toks[7] == Blank && toks[8] == OrWord && toks[9] == Blank && toks[10] == Open
    requires toks[11] == Id("C") && toks[12] == Blank && toks[13] == AndWord && toks[14] == Blank
    requires toks[15] == Id("D") && toks[16] == Close
    ensures CondTree(toks, 0)
      == Parsed(Ok(Conj(Or, Conj(And, Comp("A"), Comp("B")), Conj(And, Comp("C"), Comp("D")))), 18)
  {
    var ab, cd := Conj(And, Comp("A"), Comp("B")), Conj(And, Comp("C"), Comp("D"));
    GroupAB(toks);
    LeafOperand(toks, 15, "D");
    EndStep(toks, 15, Comp("D"), 16);
    CondTreeSkip(toks, 14);
    LeafOperand(toks, 11, "C");
    ConjStep(toks, 11, Comp("C"), 12, And, Comp("D"), 17);
    ParenOperand(toks, 10, cd, 17);
    EndStep(toks, 10, cd, 17);
    CondTreeSkip(toks, 9);
    ConjStep(toks, 0, ab, 8, Or, cd, 18);
  }

  /** `(D OR E) AND F)` from its `(` at 15: the tree (D OR E) AND F, which
      consumes the last `)`. */
  lemma InnerTail(toks: seq<Lexeme>)
    requires |toks| == 27
    requires toks[15] == Open && toks[16] == Id("D") && toks[17] == Blank && toks[18] == OrWord
    requires toks[19] == Blank && toks[20] == Id("E") && toks[21] == Close && toks[22] == Blank
    requires toks[23] == AndWord && toks[24] == Blank && toks[25] == Id("F") && toks[26] == Close
    ensures CondTree(toks, 15) == Parsed(Ok(Conj(And, Conj(Or, Comp("D"), Comp("E")), Comp("F"))), 27)
  {
    var de := Conj(Or, Comp("D"), Comp("E"));
    LeafOperand(toks, 20, "E");
    EndStep(toks, 20, Comp("E"), 21);
    CondTreeSkip(toks, 19);
    LeafOperand(toks, 16, "D");
    ConjStep(toks, 16, Comp("D"), 17, Or, Comp("E"), 22);
    ParenOperand(toks, 15, de, 23);
    LeafOperand(toks, 25, "F");
    EndStep(toks, 25, Comp("F"), 26);
    CondTreeSkip(toks, 24);
    ConjStep(toks, 15, de, 23, And, Comp("F"), 27);
  }

  /** The right-hand group of `(A AND B) OR (C AND (D OR E) AND F)`, from
      its `(` at 10: C AND ((D OR E) AND F), ending at the end of input. */
  lemma InnerGroup(toks: seq<Lexeme>)
    requires |toks| == 27 && toks[10] == Open
    requires toks[11] == Id("C") && toks[12] == Blank && toks[13] == AndWord && toks[14] == Blank
    requires toks[15] == Open && toks[16] == Id("D") && toks[17] == Blank && toks[18] == OrWord
    requires toks[19] == Blank && toks[20] == Id("E") && toks[21] == Close && toks[22] == Blank
    requires toks[23] == AndWord && toks[24] == Blank && toks[25] == Id("F") && toks[26] == Close
    ensures CondTree(toks, 10)
      == Parsed(Ok(Conj(And, Comp("C"), Conj(And, Conj(Or, Comp("D"), Comp("E")), Comp("F")))), 28)
  {
    var def := Conj(And, Conj(Or, Comp("D"), Comp("E")), Comp("F"));
    var cdef := Conj(And, Comp("C"), def);
    InnerTail(toks);
    CondTreeSkip(toks, 14);
    LeafOperand(toks, 11, "C");
    ConjStep(toks, 11, Comp("C"), 12, And, def, 27);
    ParenOperand(toks, 10, cdef, 27);
    EndStep(toks, 10, cdef, 27);
  }

  /** `(A AND B) OR (C AND (D OR E) AND F)` parses as
      (A AND B) OR (C AND ((D OR E) AND F)). */
  lemma NestedGroups(toks: seq<Lexeme>)
    requires |toks| == 27 && toks[0] == Open && toks[1] == Id("A") && toks[2] == Blank
    requires toks[3] == AndWord && toks[4] == Blank && toks[5] == Id("B") && toks[6] == Close
    requires toks[7] == Blank && toks[8] == OrWord && toks[9] == Blank && toks[10] == Open
    requires toks[11] == Id("C") && toks[12] == Blank && toks[13] == AndWord && toks[14] == Blank
    requires toks[15] == Open && toks[16] == Id("D") && toks[17] == Blank && toks[18] == OrWord
    requires toks[19] == Blank && toks[20] == Id("E") && toks[21] == Close && toks[22] == Blank
    requires toks[23] == AndWord && toks[24] == Blank && toks[25] == Id("F") && toks[26] == Close
    ensures CondTree(toks, 0)
      == Parsed(Ok(Conj(Or, Conj(And, Comp("A"), Comp("B")),
                       Conj(And, Comp("C"), Conj(And, Conj(Or, Comp("D"), Comp("E")), Comp("F"))))), 28)
  {
    var ab := Conj(And, Comp("A"), Comp("B"));
    var cdef := Conj(And, Comp("C"), Conj(And, Conj(Or, Comp("D"), Comp("E")), Comp("F")));
    GroupAB(toks);
    InnerGroup(toks);
    CondTreeSkip(toks, 9);
    ConjStep(toks, 0, ab, 8, Or, cdef, 28);
  }

  // ---------------------------------------------------------------------------
  // Unbalanced parentheses

  /** A `(` that is never closed is accepted: `(A AND B` parses as A AND B. */
  lemma UnclosedGroup(toks: seq<Lexeme>)
    requires |toks| == 6 && toks[0] == Open && toks[1] == Id("A") && toks[2] == Blank
    requires toks[3] == AndWord && toks[4] == Blank && toks[5] == Id("B")
    ensures CondTree(toks, 0) == Parsed(Ok(Conj(And, Comp("A"), Comp("B"))), 8)
  {
    var ab := Conj(And, Comp("A"), Comp("B"));
    LeafOperand(toks, 5, "B");
    EndStep(toks, 5, Comp("B"), 6);
    CondTreeSkip(toks, 4);
    LeafOperand(toks, 1, "A");
    ConjStep(toks, 1, Comp("A"), 2, And, Comp("B"), 7);
    ParenOperand(toks, 0, ab, 7);
    EndStep(toks, 0, ab, 7);
  }

  /** A `)` that closes nothing is consumed without complaint: `A AND B)`
      parses as A AND B and leaves only the end of input. */
  lemma StrayClose(toks: seq<Lexeme>)
    requires |toks| == 6 && toks[0] == Id("A") && toks[1] == Blank && toks[2] == AndWord
    requires toks[3] == Blank && toks[4] == Id("B") && toks[5] == Close
    ensures CondTree(toks, 0) == Parsed(Ok(Conj(And, Comp("A"), Comp("B"))), 6)
  {
    LeafOperand(toks, 4, "B");
    EndStep(toks, 4, Comp("B"), 5);
    CondTreeSkip(toks, 3);
    LeafOperand(toks, 0, "A");
    ConjStep(toks, 0, Comp("A"), 1, And, Comp("B"), 6);
  }


  // ---------------------------------------------------------------------------
  // A printed condition read back as a different tree

  /** The lexemes of a printed conjunction, position by position: the
      parentheses, the blanks and the operator, ... */
  lemma ConjTokensAt(c: Cond, l: int, r: int)
    requires c.Conj? && l == |CondTokens(c.left)| && r == |CondTokens(c.right)|
    ensures |CondTokens(c)| == l + r + 5 && CondTokens(c)[0] == Open
    ensures CondTokens(c)[1 + l] == Blank && CondTokens(c)[2 + l] == Lexeme(c.op, Name(c.op))
    ensures CondTokens(c)[3 + l] == Blank && CondTokens(c)[4 + l + r] == Close
  {
    var a, z, o := CondTokens(c.left), CondTokens(c.right), Lexeme(c.op, Name(c.op));
    assert CondTokens(c) == [Open] + (a + [Blank] + [o] + [Blank] + z) + [Close];
    Framed(a, z, Open, Blank, o, Close);
  }

  /** ... the left operand ... */
  lemma ConjLeftAt(c: Cond)
    requires c.Conj?
    ensures |CondTokens(c)| == |CondTokens(c.left)| + |CondTokens(c.right)| + 5
    ensures forall i :: 0 <= i < |CondTokens(c.left)| ==> CondTokens(c)[1 + i] == CondTokens(c.left)[i]
  {
    var a, z, o := CondTokens(c.left), CondTokens(c.right), Lexeme(c.op, Name(c.op));
    assert CondTokens(c) == [Open] + (a + [Blank] + [o] + [Blank] + z) + [Close];
    Framed(a, z, Open, Blank, o, Close);
  }

  /** ... and the right operand. */
  lemma ConjRightAt(c: Cond, l: int)
    requires c.Conj? && l == |CondTokens(c.left)|
    ensures |CondTokens(c)| == l + |CondTokens(c.right)| + 5
    ensures forall i :: 0 <= i < |CondTokens(c.right)| ==> CondTokens(c)[4 + l + i] == CondTokens(c.right)[i]
  {
    var a, z, o := CondTokens(c.left), CondTokens(c.right), Lexeme(c.op, Name(c.op));
    assert CondTokens(c) == [Open] + (a + [Blank] + [o] + [Blank] + z) + [Close];
    Framed(a, z, Open, Blank, o, Close);
  }

  /** Positions in `[p] + (a + [b] + [o] + [b] + z) + [q]`. */
  lemma Framed<T>(a: seq<T>, z: seq<T>, p: T, b: T, o: T, q: T)
    ensures var xs := [p] + (a + [b] + [o] + [b] + z) + [q];
      |xs| == |a| + |z| + 5 && xs[0] == p && xs[1 + |a|] == b && xs[2 + |a|] == o
      && xs[3 + |a|] == b && xs[4 + |a| + |z|] == q
      && (forall i :: 0 <= i < |a| ==> xs[1 + i] == a[i])
      && (forall i :: 0 <= i < |z| ==> xs[4 + |a| + i] == z[i])
  {
    var mid := a + [b] + [o] + [b] + z;
    var xs := [p] + mid + [q];
    assert forall i :: 0 <= i < |a| ==> xs[1 + i] == mid[i] == a[i];
    assert forall i :: 0 <= i < |z| ==> xs[4 + |a| + i] == mid[3 + |a| + i] == z[i];
  }

  /** The lexemes of a printed conjunction: `(`, the left operand (`l` lexemes),
      ` op `, the right operand (`r` lexemes) and `)`. */
  lemma ConjLayout(toks: seq<Lexeme>, k: int, c: Cond, l: int, r: int)
    requires c.Conj? && Occurs(toks, k, CondTokens(c))
    requires l == |CondTokens(c.left)| && r == |CondTokens(c.right)|
    ensures TokAt(toks, k) == Open && Occurs(toks, k + 1, CondTokens(c.left))
    ensures TokAt(toks, k + 1 + l) == Blank && TokAt(toks, k + 2 + l) == Lexeme(c.op, Name(c.op))
    ensures TokAt(toks, k + 3 + l) == Blank && Occurs(toks, k + 4 + l, CondTokens(c.right))
    ensures TokAt(toks, k + 4 + l + r) == Close && |CondTokens(c)| == l + r + 5
  {
    var xs := CondTokens(c);
    ConjTokensAt(c, l, r);
    ConjLeftAt(c);
    ConjRightAt(c, l);
    OccursAt(toks, k, xs, 0);
    OccursAt(toks, k, xs, 1 + l);
    OccursAt(toks, k, xs, 2 + l);
    OccursAt(toks, k, xs, 3 + l);
    OccursAt(toks, k, xs, 4 + l + r);
    forall i | 0 <= i < l
      ensures toks[k + 1 + i] == CondTokens(c.left)[i]
    {
      assert toks[k + (1 + i)] == xs[1 + i];
    }
    forall i | 0 <= i < r
      ensures toks[k + 4 + l + i] == CondTokens(c.right)[i]
    {
      assert toks[k + (4 + l + i)] == xs[4 + l + i];
    }
  }

  /** ((A AND (B OR C)) OR D) */
  const Nested: Cond := Conj(Or, Conj(And, Comp("A"), Conj(Or, Comp("B"), Comp("C"))), Comp("D"))

  /** A AND ((B OR C) OR D): what parseCondTree makes of the printed Nested. */
  const NestedMisread: Cond := Conj(And, Comp("A"), Conj(Or, Conj(Or, Comp("B"), Comp("C")), Comp("D")))

  lemma LeafAt(toks: seq<Lexeme>, k: int, name: string)
    requires Occurs(toks, k, CondTokens(Comp(name)))
    ensures TokAt(toks, k) == Id(name)
  {
    OccursAt(toks, k, CondTokens(Comp(name)), 0);
  }

  lemma NestedLayout(toks: seq<Lexeme>)
    requires Occurs(toks, 0, CondTokens(Nested)) && |toks| == |CondTokens(Nested)|
    ensures |toks| == 19 && toks[0] == Open && toks[1] == Open && toks[2] == Id("A")
    ensures toks[3] == Blank && toks[4] == AndWord && toks[5] == Blank && toks[6] == Open
    ensures toks[7] == Id("B") && toks[8] == Blank && toks[9] == OrWord && toks[10] == Blank
    ensures toks[11] == Id("C") && toks[12] == Close && toks[13] == Close && toks[14] == Blank
    ensures toks[15] == OrWord && toks[16] == Blank && toks[17] == Id("D") && toks[18] == Close
  {
    var left := Conj(And, Comp("A"), Conj(Or, Comp("B"), Comp("C")));
    var inner := Conj(Or, Comp("B"), Comp("C"));
    assert |CondTokens(inner)| == 7;
    assert |CondTokens(left)| == 13;
    assert Name(And) == "AND" && Name(Or) == "OR";
    ConjLayout(toks, 0, Nested, 13, 1);
    ConjLayout(toks, 1, left, 1, 7);
    ConjLayout(toks, 6, inner, 1, 1);
    LeafAt(toks, 2, "A");
    LeafAt(toks, 7, "B");
    LeafAt(toks, 11, "C");
    LeafAt(toks, 17, "D");
  }

  /** The steps of parseCondTree over the lexemes of ((A AND (B OR C)) OR D):
      the `)` after C ends the tree C, the `)` after it is consumed by the
      tree B OR C, and OR D then continues the tree A AND ... . */
  lemma NestedSteps(toks: seq<Lexeme>)
    requires |toks| == 19 && toks[0] == Open && toks[1] == Open && toks[2] == Id("A")
    requires toks[3] == Blank && toks[4] == AndWord && toks[5] == Blank && toks[6] == Open
    requires toks[7] == Id("B") && toks[8] == Blank && toks[9] == OrWord && toks[10] == Blank
    requires toks[11] == Id("C") && toks[12] == Close && toks[13] == Close && toks[14] == Blank
    requires toks[15] == OrWord && toks[16] == Blank && toks[17] == Id("D") && toks[18] == Close
    ensures CondTree(toks, 0) == Parsed(Ok(NestedMisread), 21)
  {
    var bc := Conj(Or, Comp("B"), Comp("C"));
    var bcd := Conj(Or, bc, Comp("D"));
    LeafOperand(toks, 11, "C");
    EndStep(toks, 11, Comp("C"), 12);
    CondTreeSkip(toks, 10);
    LeafOperand(toks, 7, "B");
    ConjStep(toks, 7, Comp("B"), 8, Or, Comp("C"), 13);
    ParenOperand(toks, 6, bc, 14);
    LeafOperand(toks, 17, "D");
    EndStep(toks, 17, Comp("D"), 18);
    CondTreeSkip(toks, 16);
    ConjStep(toks, 6, bc, 14, Or, Comp("D"), 19);
    CondTreeSkip(toks, 5);
    LeafOperand(toks, 2, "A");
    ConjStep(toks, 2, Comp("A"), 3, And, bcd, 19);
    ParenOperand(toks, 1, NestedMisread, 19);
    EndStep(toks, 1, NestedMisread, 19);
    ParenOperand(toks, 0, NestedMisread, 20);
    EndStep(toks, 0, NestedMisread, 20);
  }

  /** parseCondTree reads the printed form of Nested, without error, as a
      different tree: printing and parsing do not round-trip. */
  lemma NestedMisparsed()
    ensures ValidCond(Nested) && NestedMisread != Nested
    ensures CondTree(Tokenize(CondString(Nested)), 0).result == Ok(NestedMisread)
  {
    OneLetterName('A');
    OneLetterName('B');
    OneLetterName('C');
    OneLetterName('D');
    CondTokenizes(Nested);
    var toks := CondTokens(Nested);
    OccursWhole(toks);
    NestedLayout(toks);
    NestedSteps(toks);
  }

  /** The printed form of Nested. */
  lemma NestedText()
    ensures CondString(Nested) == "((A AND (B OR C)) OR D)"
  {
    assert Name(And) == "AND" && Name(Or) == "OR";
    assert CondString(Conj(Or, Comp("B"), Comp("C"))) == "(B OR C)";
    assert CondString(Nested.left) == "(A AND (B OR C))";
  }
}
