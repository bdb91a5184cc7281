/** What one call of the scanner returns, as pure functions of the input and the
    read position: character classes, maximal runs, operators, quoted strings,
    and the properties the scanner promises about them. */
module Lexer {
  import opened Tokens

  /** The rune `read` returns at end of input. An input NUL reads the same, so the
      scanner cannot tell the two apart. */
  const EofRune: char := '\0'

  predicate IsWhitespace(c: char) { c == ' ' || c == '\t' || c == '\n' }

  predicate IsLetter(c: char) { ('a' <= c <= 'z') || ('A' <= c <= 'Z') }

  predicate IsDigit(c: char) { '0' <= c <= '9' }

  predicate IsIdentChar(c: char)
  {
    IsLetter(c) || IsDigit(c) || c == '_' || c == '.' || c == '-' || c == '*'
  }

  predicate IsOpChar(c: char) { c == '=' || c == '!' || c == '<' || c == '>' }

  /** Characters that continue a number: digits, '-' and '.'. */
  predicate IsNumberChar(c: char) { IsDigit(c) || c == '-' || c == '.' }

  /** The three kinds of run the scanner gathers with one loop each. */
  datatype RunKind = Space | IdentPart | NumberPart

  predicate InRun(c: char, kind: RunKind)
  {
    match kind
    case Space => IsWhitespace(c)
    case IdentPart => IsIdentChar(c)
    case NumberPart => IsNumberChar(c)
  }

  /** The character `read` returns at position `i`. */
  function At(s: string, i: nat): char
  {
    if i < |s| then s[i] else EofRune
  }

  /** The position after a `read` at `i`: reading at end of input consumes nothing. */
  function Advance(s: string, i: nat): nat
  {
    if i < |s| then i + 1 else i
  }

  /** The end of the maximal run of `kind` characters starting at `i`. */
  function RunEnd(s: string, i: nat, kind: RunKind): (j: nat)
    requires i <= |s|
    ensures i <= j <= |s|
    ensures forall k :: i <= k < j ==> InRun(s[k], kind)
    ensures j == |s| || !InRun(s[j], kind)
    decreases |s| - i
  {
    if i < |s| && InRun(s[i], kind) then RunEnd(s, i + 1, kind) else i
  }

  /** Where a run loop leaves the reader when the run ends at `j`: the character
      that stopped it is put back, except a NUL, which reads as end of input and
      is not put back. */
  function StopAfter(s: string, j: nat): nat
    requires j <= |s|
  {
    if j < |s| && s[j] == EofRune then j + 1 else j
  }

  function Last(w: string): char
    requires |w| >= 1
  {
    w[|w| - 1]
  }

  /** One scanned lexeme and the read position after it. */
  datatype Scanned = Scanned(lex: Lexeme, next: nat)

  function UpperChar(c: char): char
  {
    if 'a' <= c <= 'z' then (c as int - 32) as char else c
  }

  /** ASCII upper-casing (identifier characters are all ASCII). */
  function Upper(w: string): (u: string)
    ensures |u| == |w|
  {
    seq(|w|, i requires 0 <= i < |w| => UpperChar(w[i]))
  }

  /** The token an identifier literal scans as: a keyword when its upper-cased
      spelling is one, IDENT otherwise. */
  function KeywordOf(w: string): Token
  {
    var u := Upper(w);
    if u == "SELECT" then Select
    else if u == "FROM" then From
    else if u == "WHERE" then Where
    else if u == "AND" then And
    else if u == "OR" then Or
    else Ident
  }

  predicate IsKeyword(t: Token) { t == Select || t == From || t == Where || t == And || t == Or }

  /** Two strings that differ only in the case of ASCII letters. */
  predicate EqualIgnoringCase(w: string, v: string)
  {
    |w| == |v| && forall i :: 0 <= i < |w| ==> UpperChar(w[i]) == UpperChar(v[i])
  }

  /** A run of whitespace from `i`; the literal is the whole run. */
  function WhitespaceAt(s: string, i: nat): Scanned
    requires i < |s|
  {
    var j := RunEnd(s, i + 1, Space);
    Scanned(Lexeme(Ws, s[i..j]), StopAfter(s, j))
  }

  /** An identifier or keyword from `i`; the literal keeps its casing. */
  function IdentAt(s: string, i: nat): Scanned
    requires i < |s|
  {
    var j := RunEnd(s, i + 1, IdentPart);
    Scanned(Lexeme(KeywordOf(s[i..j]), s[i..j]), StopAfter(s, j))
  }

  /** A number from `i`: the first character and the run of number characters. */
  function NumberAt(s: string, i: nat): Scanned
    requires i < |s|
  {
    var j := RunEnd(s, i + 1, NumberPart);
    Scanned(Lexeme(Number, s[i..j]), StopAfter(s, j))
  }

  /** An operator starting with the operator character at `i`. */
  function OpAt(s: string, i: nat): (r: Scanned)
    requires i < |s| && IsOpChar(s[i])
  {
    var c, d := s[i], At(s, i + 1);
    if c == '!' then
      if d == '=' then Scanned(Lexeme(Ne, "!="), i + 2)
      else Scanned(Lexeme(Illegal, if d == EofRune then "!" else ['!', d]), Advance(s, i + 1))
    else if c == '=' then Scanned(Lexeme(Eq, "="), i + 1)
    else if c == '<' then
      if d == '=' then Scanned(Lexeme(Le, "<="), i + 2) else Scanned(Lexeme(Lt, "<"), i + 1)
    else
      if d == '=' then Scanned(Lexeme(Ge, ">="), i + 2) else Scanned(Lexeme(Gt, ">"), i + 1)
  }

  predicate IsQuote(c: char) { c == '\'' || c == '"' }

  /** The rest of a quoted string after its opening quote: whether it was closed,
      the text gathered (with the closing quote when closed) and the position after. */
  datatype QuotedRest = QuotedRest(closed: bool, text: string, next: nat)

  function QuotedTail(s: string, j: nat, term: char): (r: QuotedRest)
    requires j <= |s|
    ensures j <= r.next <= |s|
    decreases |s| - j
  {
    if j == |s| then QuotedRest(false, [], j)
    else if s[j] == EofRune || s[j] == '\n' then QuotedRest(false, [], j + 1)
    else if s[j] == '\\' then
      var r := QuotedTail(s, Advance(s, j + 1), term);
      QuotedRest(r.closed, ['\\', At(s, j + 1)] + r.text, r.next)
    else if s[j] == term then QuotedRest(true, [term], j + 1)
    else
      var r := QuotedTail(s, j + 1, term);
      QuotedRest(r.closed, [s[j]] + r.text, r.next)
  }

  /** A quoted string opened by the quote at `i`. */
  function QuotedAt(s: string, i: nat): Scanned
    requires i < |s|
  {
    var r := QuotedTail(s, i + 1, s[i]);
    Scanned(Lexeme(if r.closed then String else Illegal, [s[i]] + r.text), r.next)
  }

  /** What one call of `Scan` returns from read position `i`. */
  function ScanAt(s: string, i: nat): (r: Scanned)
    requires i <= |s|
    ensures i <= r.next <= |s|
    ensures i < |s| ==> i < r.next
  {
    var c := At(s, i);
    if IsWhitespace(c) then WhitespaceAt(s, i)
    else if IsLetter(c) then IdentAt(s, i)
    else if IsDigit(c) || c == '-' then NumberAt(s, i)
    else if IsOpChar(c) then OpAt(s, i)
    else if IsQuote(c) then QuotedAt(s, i)
    else if c == EofRune then Scanned(Lexeme(Eof, ""), Advance(s, i))
    else if c == '*' then Scanned(Lexeme(Asterisk, "*"), i + 1)
    else if c == ',' then Scanned(Lexeme(Comma, ","), i + 1)
    else if c == '(' then Scanned(Lexeme(ParenL, "("), i + 1)
    else if c == ')' then Scanned(Lexeme(ParenR, ")"), i + 1)
    else Scanned(Lexeme(Illegal, [c]), i + 1)
  }

  // ---------------------------------------------------------------------------
  // Properties of a single scan

  /** A whitespace character starts one WS token whose literal is the maximal run
      of whitespace; the character that ends the run is not consumed (unless it
      is a NUL, which reads as end of input). */
  lemma WhitespaceRun(s: string, i: nat)
    requires i < |s| && IsWhitespace(s[i])
    ensures var r := ScanAt(s, i);
      var j := i + |r.lex.lit|;
      && r.lex.tok == Ws && j <= |s| && r.lex.lit == s[i..j] && |r.lex.lit| >= 1
      && (forall k :: i <= k < j ==> IsWhitespace(s[k]))
      && (j == |s| || !IsWhitespace(s[j]))
      && r.next == StopAfter(s, j)
  {
  }

  /** A letter starts a maximal run of identifier characters, whose literal is
      returned as is; the token is the keyword it spells, ignoring case, or IDENT. */
  lemma IdentifierRun(s: string, i: nat)
    requires i < |s| && IsLetter(s[i])
    ensures var r := ScanAt(s, i);
      var j := i + |r.lex.lit|;
      && j <= |s| && r.lex.lit == s[i..j] && |r.lex.lit| >= 1
      && (forall k :: i <= k < j ==> IsIdentChar(s[k]))
      && (j == |s| || !IsIdentChar(s[j]))
      && r.lex.tok == KeywordOf(r.lex.lit)
      && r.next == StopAfter(s, j)
  {
  }

  /** A digit or '-' starts a NUMBER over the maximal run of digits, '-' and '.'. */
  lemma NumberRun(s: string, i: nat)
    requires i < |s| && (IsDigit(s[i]) || s[i] == '-')
    ensures var r := ScanAt(s, i);
      var j := i + |r.lex.lit|;
      && r.lex.tok == Number && j <= |s| && r.lex.lit == s[i..j] && |r.lex.lit| >= 1
      && (forall k :: i < k < j ==> IsNumberChar(s[k]))
      && (j == |s| || !IsNumberChar(s[j]))
      && r.next == StopAfter(s, j)
  {
  }

  /** A lone '-' is a NUMBER with literal "-". */
  lemma LoneMinusIsNumber(s: string, i: nat)
    requires i < |s| && s[i] == '-' && (i + 1 == |s| || !IsNumberChar(s[i + 1]))
    ensures ScanAt(s, i).lex == Lexeme(Number, "-")
  {
    assert s[i..i + 1] == "-";
  }

  lemma UpperOfUpperName(t: Token)
    requires IsKeyword(t)
    ensures Upper(Name(t)) == Name(t)
  {
    var n := Name(t);
    forall k | 0 <= k < |n| ensures Upper(n)[k] == n[k] {
    }
  }

  /** Keyword recognition ignores case: an identifier literal scans as keyword `t`
      exactly when it spells the name of `t` in any mix of cases. */
  lemma KeywordIgnoresCase(w: string, t: Token)
    requires IsKeyword(t)
    ensures KeywordOf(w) == t <==> EqualIgnoringCase(w, Name(t))
  {
    UpperOfUpperName(t);
    if EqualIgnoringCase(w, Name(t)) {
      assert Upper(w) == Upper(Name(t));
    }
    if KeywordOf(w) == t {
      assert Upper(w) == Name(t);
      forall k | 0 <= k < |w| ensures UpperChar(w[k]) == UpperChar(Name(t)[k]) {
        assert Upper(w)[k] == UpperChar(w[k]);
        assert Upper(Name(t))[k] == UpperChar(Name(t)[k]);
      }
    }
  }

  /** Two spellings that differ only in case scan as the same token. */
  lemma KeywordOfCaseInvariant(w: string, v: string)
    requires EqualIgnoringCase(w, v)
    ensures KeywordOf(w) == KeywordOf(v)
  {
    assert Upper(w) == Upper(v);
  }

  /** KeywordOf only returns a keyword token or IDENT. */
  lemma KeywordOfRange(w: string)
    ensures KeywordOf(w) == Ident || IsKeyword(KeywordOf(w))
  {
  }

  /** The six operators, and '!' not followed by '=': the character after it
      is read and kept in the ILLEGAL literal, except a NUL, which is read
      but not kept. */
  lemma Operators(s: string, i: nat)
    requires i < |s| && IsOpChar(s[i])
    ensures var r := ScanAt(s, i);
      && (s[i] == '=' ==> r == Scanned(Lexeme(Eq, "="), i + 1))
      && (s[i] == '!' && At(s, i + 1) == '=' ==> r == Scanned(Lexeme(Ne, "!="), i + 2))
      && (s[i] == '!' && i + 1 < |s| && s[i + 1] != '=' && s[i + 1] != EofRune ==>
            r == Scanned(Lexeme(Illegal, ['!', s[i + 1]]), i + 2))
      && (s[i] == '!' && i + 1 == |s| ==> r == Scanned(Lexeme(Illegal, "!"), i + 1))
      && (s[i] == '!' && i + 1 < |s| && s[i + 1] == EofRune ==> r == Scanned(Lexeme(Illegal, "!"), i + 2))
      && (s[i] == '<' && At(s, i + 1) == '=' ==> r == Scanned(Lexeme(Le, "<="), i + 2))
      && (s[i] == '<' && At(s, i + 1) != '=' ==> r == Scanned(Lexeme(Lt, "<"), i + 1))
      && (s[i] == '>' && At(s, i + 1) == '=' ==> r == Scanned(Lexeme(Ge, ">="), i + 2))
      && (s[i] == '>' && At(s, i + 1) != '=' ==> r == Scanned(Lexeme(Gt, ">"), i + 1))
  {
  }

  /** The body of a quoted string as the scanner accepts it: no bare newline, NUL
      or quote, and every backslash followed by one more character that it
      escapes (whatever that character is). */
  predicate EscapedBody(b: string, term: char)
    decreases |b|
  {
    if b == [] then true
    else if b[0] == '\\' then |b| >= 2 && EscapedBody(b[2..], term)
    else b[0] != term && b[0] != '\n' && b[0] != EofRune && EscapedBody(b[1..], term)
  }

  /** Puts `text` in front of what the rest of a quoted string gathers. */
  function Prepend(text: string, r: QuotedRest): QuotedRest
  {
    QuotedRest(r.closed, text + r.text, r.next)
  }

  lemma PrependTwice(a: string, b: string, r: QuotedRest)
    ensures Prepend(a, Prepend(b, r)) == Prepend(a + b, r)
  {
    assert a + (b + r.text) == (a + b) + r.text;
  }

  /** One ordinary character of a quoted string is kept and scanning goes on. */
  lemma PlainStep(s: string, j: nat, term: char)
    requires j < |s| && s[j] !in {EofRune, '\n', '\\', term}
    ensures QuotedTail(s, j, term) == Prepend([s[j]], QuotedTail(s, j + 1, term))
  {
  }

  /** A backslash is kept together with the character after it (the
      end-of-input rune when there is none), which is not looked at. */
  lemma EscapeStep(s: string, j: nat, term: char)
    requires j < |s| && s[j] == '\\'
    ensures QuotedTail(s, j, term) == Prepend(['\\', At(s, j + 1)], QuotedTail(s, Advance(s, j + 1), term))
  {
  }

  lemma SliceFront(s: string, j: nat, n: nat)
    requires j < n <= |s|
    ensures s[j..n] == [s[j]] + s[j + 1..n] && s[j..n][0] == s[j] && s[j..n][1..] == s[j + 1..n]
  {
  }

  lemma SliceFront2(s: string, j: nat, n: nat)
    requires j + 1 < n <= |s|
    ensures s[j..n] == [s[j], s[j + 1]] + s[j + 2..n]
    ensures s[j..n][0] == s[j] && s[j..n][1] == s[j + 1] && s[j..n][2..] == s[j + 2..n]
  {
  }

  lemma AppendAssoc(x: string, y: string, z: string)
    ensures x + (y + z) == (x + y) + z
  {
  }

  /** An escaped body followed by the quote closes the string there. */
  lemma {:induction false} QuotedTailCloses(s: string, j: nat, n: nat, term: char)
    requires IsQuote(term) && j <= n < |s| && EscapedBody(s[j..n], term) && s[n] == term
    ensures QuotedTail(s, j, term) == QuotedRest(true, s[j..n + 1], n + 1)
    decreases n - j
  {
    if j == n {
      assert s[j..n + 1] == [term];
    } else if s[j] == '\\' {
      SliceFront2(s, j, n);
      EscapeStep(s, j, term);
      QuotedTailCloses(s, j + 2, n, term);
      SliceFront2(s, j, n + 1);
    } else {
      SliceFront(s, j, n);
      PlainStep(s, j, term);
      QuotedTailCloses(s, j + 1, n, term);
      SliceFront(s, j, n + 1);
    }
  }

  /** `r` gathered exactly the input from `j` to `r.next`: an escaped body and
      then the quote `term`. */
  predicate ClosedShape(s: string, j: nat, term: char, r: QuotedRest)
  {
    j < r.next <= |s| && r.text == s[j..r.next] && s[r.next - 1] == term
    && EscapedBody(s[j..r.next - 1], term)
  }

  lemma ClosedShapeEscape(s: string, j: nat, term: char, r: QuotedRest)
    requires j + 1 < |s| && s[j] == '\\' && ClosedShape(s, j + 2, term, r)
    ensures ClosedShape(s, j, term, QuotedRest(r.closed, ['\\', s[j + 1]] + r.text, r.next))
  {
    SliceFront2(s, j, r.next);
    SliceFront2(s, j, r.next - 1);
  }

  lemma ClosedShapePlain(s: string, j: nat, term: char, r: QuotedRest)
    requires j < |s| && s[j] !in {'\\', term, '\n', EofRune} && ClosedShape(s, j + 1, term, r)
    ensures ClosedShape(s, j, term, QuotedRest(r.closed, [s[j]] + r.text, r.next))
  {
    SliceFront(s, j, r.next);
    SliceFront(s, j, r.next - 1);
  }

  /** Conversely, a string the scanner closes consists of exactly the characters
      it consumed: an escaped body followed by the quote. */
  lemma {:induction false} QuotedTailClosed(s: string, j: nat, term: char)
    requires j <= |s|
    requires QuotedTail(s, j, term).closed
    ensures ClosedShape(s, j, term, QuotedTail(s, j, term))
    decreases |s| - j
  {
    if s[j] == '\\' {
      // a backslash at end of input is followed by end of input: not closed
      assert j + 1 < |s|;
      QuotedTailClosed(s, j + 2, term);
      ClosedShapeEscape(s, j, term, QuotedTail(s, j + 2, term));
    } else if s[j] == term {
    } else {
      QuotedTailClosed(s, j + 1, term);
      ClosedShapePlain(s, j, term, QuotedTail(s, j + 1, term));
    }
  }

  /** An escaped body that runs into end of input, a newline or a NUL leaves the
      string unterminated: ILLEGAL, with everything consumed before that
      terminator as the literal; the newline or NUL is consumed but not kept. */
  lemma {:induction false} QuotedTailUnterminated(s: string, j: nat, n: nat, term: char)
    requires j <= n <= |s| && EscapedBody(s[j..n], term)
    requires n == |s| || s[n] == '\n' || s[n] == EofRune
    ensures QuotedTail(s, j, term) == QuotedRest(false, s[j..n], Advance(s, n))
    decreases n - j
  {
    if j == n {
    } else if s[j] == '\\' {
      SliceFront2(s, j, n);
      EscapeStep(s, j, term);
      QuotedTailUnterminated(s, j + 2, n, term);
    } else {
      SliceFront(s, j, n);
      PlainStep(s, j, term);
      QuotedTailUnterminated(s, j + 1, n, term);
    }
  }

  /** A backslash as the last input character escapes the end of input: the
      scanner writes the end-of-input rune (NUL) into the literal and then
      reports the string unterminated. */
  lemma {:induction false} QuotedTailBackslashAtEnd(s: string, j: nat, term: char)
    requires j < |s| && s[|s| - 1] == '\\' && EscapedBody(s[j..|s| - 1], term)
    ensures QuotedTail(s, j, term) == QuotedRest(false, s[j..] + [EofRune], |s|)
    decreases |s| - j
  {
    if j == |s| - 1 {
      EscapeStep(s, j, term);
    } else if s[j] == '\\' {
      SliceFront2(s, j, |s| - 1);
      EscapeStep(s, j, term);
      QuotedTailBackslashAtEnd(s, j + 2, term);
      SliceFront2(s, j, |s|);
      AppendAssoc([s[j], s[j + 1]], s[j + 2..], [EofRune]);
    } else {
      SliceFront(s, j, |s| - 1);
      PlainStep(s, j, term);
      QuotedTailBackslashAtEnd(s, j + 1, term);
      SliceFront(s, j, |s|);
      AppendAssoc([s[j]], s[j + 1..], [EofRune]);
    }
  }

  lemma ScanAtQuote(s: string, i: nat)
    requires i < |s| && IsQuote(s[i])
    ensures ScanAt(s, i) == QuotedAt(s, i)
  {
  }

  /** A quote, an escaped body and the same quote scan as one STRING whose literal
      includes both quotes; an escaped quote inside does not close it. */
  lemma QuotedString(s: string, i: nat, n: nat)
    requires i < n < |s| && IsQuote(s[i]) && EscapedBody(s[i + 1..n], s[i]) && s[n] == s[i]
    ensures ScanAt(s, i) == Scanned(Lexeme(String, s[i..n + 1]), n + 1)
  {
    QuotedTailCloses(s, i + 1, n, s[i]);
    SliceFront(s, i, n + 1);
    ScanAtQuote(s, i);
  }

  /** Every STRING is an opening quote, an escaped body and the same quote, and its
      literal is exactly the input it consumed. */
  lemma StringShape(s: string, i: nat)
    requires i <= |s| && ScanAt(s, i).lex.tok == String
    ensures var r := ScanAt(s, i);
      i < |s| && IsQuote(s[i]) && i + 2 <= r.next && r.lex.lit == s[i..r.next]
      && s[r.next - 1] == s[i] && EscapedBody(s[i + 1..r.next - 1], s[i])
  {
    assert i < |s| && IsQuote(s[i]) by {
      KeywordOfRange(s[i..RunEnd(s, i + 1, IdentPart)]);
    }
    ScanAtQuote(s, i);
    StringShapeTail(s, i);
  }

  lemma StringShapeTail(s: string, i: nat)
    requires i < |s| && QuotedTail(s, i + 1, s[i]).closed
    ensures var r := QuotedAt(s, i);
      i + 2 <= r.next && r.lex.lit == s[i..r.next]
      && s[r.next - 1] == s[i] && EscapedBody(s[i + 1..r.next - 1], s[i])
  {
    var t := QuotedTail(s, i + 1, s[i]);
    QuotedTailClosed(s, i + 1, s[i]);
    assert QuotedAt(s, i) == Scanned(Lexeme(String, [s[i]] + t.text), t.next);
    SliceFront(s, i, t.next);
  }

  /** A quote and an escaped body ended by end of input, a newline or a NUL scan as
      ILLEGAL with the literal gathered before the terminator. */
  lemma UnterminatedString(s: string, i: nat, n: nat)
    requires i < n <= |s| && IsQuote(s[i]) && EscapedBody(s[i + 1..n], s[i])
    requires n == |s| || s[n] == '\n' || s[n] == EofRune
    ensures ScanAt(s, i) == Scanned(Lexeme(Illegal, s[i..n]), Advance(s, n))
  {
    QuotedTailUnterminated(s, i + 1, n, s[i]);
    SliceFront(s, i, n);
    ScanAtQuote(s, i);
  }

  /** A backslash as the last input character of an open string: the literal
      ends in the backslash and a NUL that is not in the input. */
  lemma BackslashAtEnd(s: string, i: nat)
    requires i + 1 < |s| && IsQuote(s[i]) && s[|s| - 1] == '\\' && EscapedBody(s[i + 1..|s| - 1], s[i])
    ensures ScanAt(s, i) == Scanned(Lexeme(Illegal, s[i..] + [EofRune]), |s|)
  {
    QuotedTailBackslashAtEnd(s, i + 1, s[i]);
    SliceFront(s, i, |s|);
    AppendAssoc([s[i]], s[i + 1..], [EofRune]);
    ScanAtQuote(s, i);
  }

  /** End of input scans as EOF with an empty literal, and consumes nothing, so
      every later call returns EOF again. */
  lemma EndOfInput(s: string)
    ensures ScanAt(s, |s|) == Scanned(Lexeme(Eof, ""), |s|)
  {
  }

  /** Punctuation scans as its one-character token; any other character that
      starts no token (`_` and `.` among them, which only continue an
      identifier) is ILLEGAL with that character as literal. */
  lemma SingleCharacters(s: string, i: nat)
    requires i < |s|
    ensures s[i] == '*' ==> ScanAt(s, i) == Scanned(Lexeme(Asterisk, "*"), i + 1)
    ensures s[i] == ',' ==> ScanAt(s, i) == Scanned(Lexeme(Comma, ","), i + 1)
    ensures s[i] == '(' ==> ScanAt(s, i) == Scanned(Lexeme(ParenL, "("), i + 1)
    ensures s[i] == ')' ==> ScanAt(s, i) == Scanned(Lexeme(ParenR, ")"), i + 1)
    ensures !IsWhitespace(s[i]) && !IsLetter(s[i]) && !IsDigit(s[i]) && s[i] != '-'
            && !IsOpChar(s[i]) && !IsQuote(s[i])
            && s[i] != '*' && s[i] != ',' && s[i] != '(' && s[i] != ')' && s[i] != EofRune
            ==> ScanAt(s, i) == Scanned(Lexeme(Illegal, [s[i]]), i + 1)
  {
  }
}
