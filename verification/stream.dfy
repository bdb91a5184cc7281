/** The token stream an input scans to, as a sequence indexed by how many
    `Scan` calls came before. Parsers are specified over this stream. */
module TokenStream {
  import opened Tokens
  import opened Lexer

  /** The lexemes scanned from position `p` until the input is used up. */
  function Lex(s: string, p: nat): (toks: seq<Lexeme>)
    requires p <= |s|
    ensures |toks| <= |s| - p
    decreases |s| - p
  {
    if p == |s| then []
    else
      var r := ScanAt(s, p);
      [r.lex] + Lex(s, r.next)
  }

  /** The lexemes of a whole input. */
  function Tokenize(s: string): seq<Lexeme>
  {
    Lex(s, 0)
  }

  /** The read position after `c` scans from position `p`. */
  function PosFrom(s: string, p: nat, c: nat): (q: nat)
    requires p <= |s|
    ensures p <= q <= |s|
    decreases c
  {
    if c == 0 then p else PosFrom(s, ScanAt(s, p).next, c - 1)
  }

  /** The read position after the first `c` scans of an input. */
  function PosAfter(s: string, c: nat): (q: nat)
    ensures q <= |s|
  {
    PosFrom(s, 0, c)
  }

  /** The `k`-th lexeme a parser is handed: the stream entry, EOF with an empty
      literal once the stream is used up, and the zero lexeme (ILLEGAL, "") at
      index -1, which is what the one-slot buffer holds before any scan. */
  function TokAt(toks: seq<Lexeme>, k: int): Lexeme
  {
    if k < 0 then Lexeme(Illegal, "")
    else if k < |toks| then toks[k]
    else Lexeme(Eof, "")
  }

  /** Scanning at end of input returns EOF and stays there. */
  lemma ScanAtEnd(s: string)
    ensures ScanAt(s, |s|) == Scanned(Lexeme(Eof, ""), |s|)
  {
  }

  lemma PosFromEnd(s: string, c: nat)
    ensures PosFrom(s, |s|, c) == |s|
  {
    if c > 0 {
      ScanAtEnd(s);
      PosFromEnd(s, c - 1);
    }
  }

  /** The `c`-th lexeme of the stream from `p` is what `Scan` returns after `c` scans. */
  lemma {:induction false} LexFrom(s: string, p: nat, c: nat)
    requires p <= |s|
    ensures TokAt(Lex(s, p), c) == ScanAt(s, PosFrom(s, p, c)).lex
    decreases c
  {
    if p == |s| {
      PosFromEnd(s, c);
      ScanAtEnd(s);
    } else if c > 0 {
      var r := ScanAt(s, p);
      LexFrom(s, r.next, c - 1);
    }
  }

  /** The link between the scanner object and the stream: the lexeme at index
      `c` is the one returned by the scan made from the position after `c` scans,
      and that scan moves the position to the one after `c + 1` scans. */
  lemma LexAt(s: string, c: nat)
    ensures TokAt(Tokenize(s), c) == ScanAt(s, PosAfter(s, c)).lex
    ensures ScanAt(s, PosAfter(s, c)).next == PosAfter(s, c + 1)
  {
    LexFrom(s, 0, c);
    PosFromStep(s, 0, c);
  }

  lemma {:induction false} PosFromStep(s: string, p: nat, c: nat)
    requires p <= |s|
    ensures ScanAt(s, PosFrom(s, p, c)).next == PosFrom(s, p, c + 1)
    decreases c
  {
    if c > 0 {
      PosFromStep(s, ScanAt(s, p).next, c - 1);
    }
  }

  /** Every lexeme of a non-empty input comes from a scan that advanced: the
      stream is exactly as long as the number of scans needed to use it up. */
  lemma {:induction false} LexLength(s: string, p: nat)
    requires p <= |s|
    ensures PosFrom(s, p, |Lex(s, p)|) == |s|
    decreases |s| - p
  {
    if p < |s| {
      LexLength(s, ScanAt(s, p).next);
    }
  }

  /** What `scanIgnoreWhitespace` hands back from stream index `k`. */
  datatype Read = Read(lex: Lexeme, next: int)

  /** The next lexeme from index `k`, skipping one WS lexeme if there is one:
      only one, so a second WS lexeme in a row is returned as it is. */
  function NextNonWs(toks: seq<Lexeme>, k: int): (r: Read)
    ensures k < r.next <= k + 2
  {
    var a := TokAt(toks, k);
    if a.tok == Ws then Read(TokAt(toks, k + 1), k + 2) else Read(a, k + 1)
  }

  /** scanIgnoreWhitespace returns the lexeme just before where it stops, and
      it reads two lexemes exactly when the first is WS: at most one WS is
      skipped, so a WS lexeme is returned when two come in a row. */
  lemma SkipsAtMostOneWs(toks: seq<Lexeme>, k: int)
    ensures var r := NextNonWs(toks, k);
      r.lex == TokAt(toks, r.next - 1)
      && (r.next == k + 2 <==> TokAt(toks, k).tok == Ws)
      && (r.lex.tok == Ws <==> TokAt(toks, k).tok == Ws && TokAt(toks, k + 1).tok == Ws)
  {
  }

  /** A lexeme other than ILLEGAL and EOF is read from inside the stream. */
  lemma NextInside(toks: seq<Lexeme>, k: int)
    ensures var r := NextNonWs(toks, k);
      r.lex.tok !in {Illegal, Eof} ==> 0 < r.next <= |toks|
  {
  }
}
