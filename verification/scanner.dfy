/** The character scanner: an object that reads one character at a time, can put
    the last character back, and gathers one token per `Scan` call. Each method
    is proved to return what the pure functions of module Lexer say. */
module Scanning {
  import opened Tokens
  import opened Lexer

  class Scanner {
    /** The whole input; the reader's position is `pos`. */
    const input: string
    var pos: nat
    /** Whether the last read consumed a character that `Unread` can put back
        (a read at end of input consumes nothing and cannot be undone). */
    var canUnread: bool

    ghost predicate Valid()
      reads this
    {
      pos <= |input| && (canUnread ==> 0 < pos)
    }

    constructor (s: string)
      ensures Valid() && input == s && pos == 0 && !canUnread
    {
      input := s;
      pos := 0;
      canUnread := false;
    }

    /** Reads the next character, or EofRune at end of input. */
    method Read() returns (ch: char)
      requires Valid()
      modifies this
      ensures Valid()
      ensures ch == At(input, old(pos)) && pos == Advance(input, old(pos))
      ensures canUnread == (old(pos) < |input|)
    {
      if pos < |input| {
        ch := input[pos];
        pos := pos + 1;
        canUnread := true;
      } else {
        ch := EofRune;
        canUnread := false;
      }
    }

    /** Puts back the character the last read consumed, if any; only once. */
    method Unread()
      requires Valid()
      modifies this
      ensures Valid() && !canUnread
      ensures pos == if old(canUnread) then old(pos) - 1 else old(pos)
    {
      if canUnread {
        pos := pos - 1;
        canUnread := false;
      }
    }

    /** Returns the next token and its literal. */
    method Scan() returns (tok: Token, lit: string)
      requires Valid()
      modifies this
      ensures Valid()
      ensures Scanned(Lexeme(tok, lit), pos) == ScanAt(input, old(pos))
    {
      var ch := Read();
      if IsWhitespace(ch) {
        Unread();
        tok, lit := ScanWhitespace();
      } else if IsLetter(ch) {
        Unread();
        tok, lit := ScanIdent();
      } else if IsDigit(ch) || ch == '-' {
        Unread();
        tok, lit := ScanNumber();
      } else if IsOpChar(ch) {
        Unread();
        tok, lit := ScanOp();
      } else if ch == '\'' {
        Unread();
        tok, lit := ScanStr('\'');
      } else if ch == '"' {
        Unread();
        tok, lit := ScanStr('"');
      } else if ch == EofRune {
        tok, lit := Eof, "";
      } else if ch == '*' {
        tok, lit := Asterisk, [ch];
      } else if ch == ',' {
        tok, lit := Comma, [ch];
      } else if ch == '(' {
        tok, lit := ParenL, [ch];
      } else if ch == ')' {
        tok, lit := ParenR, [ch];
      } else {
        tok, lit := Illegal, [ch];
      }
    }

    /** Reads the current character and every following character of `kind`.
        The loop stops at end of input (or a NUL) without putting anything back,
        and at any other character by putting it back. */
    method ReadRun(kind: RunKind) returns (lit: string)
      requires Valid() && pos < |input|
      modifies this
      ensures Valid()
      ensures var j := RunEnd(input, old(pos) + 1, kind);
        lit == input[old(pos)..j] && pos == StopAfter(input, j)
    {
      ghost var start := pos;
      var ch := Read();
      lit := [ch];
      while true
        invariant Valid() && start < pos <= |input|
        invariant lit == input[start..pos]
        invariant RunEnd(input, pos, kind) == RunEnd(input, start + 1, kind)
        decreases |input| - pos
      {
        ch := Read();
        if ch == EofRune {
          return;
        } else if !InRun(ch, kind) {
          Unread();
          return;
        } else {
          lit := lit + [ch];
        }
      }
    }

    /** Consumes the current whitespace character and all contiguous whitespace. */
    method ScanWhitespace() returns (tok: Token, lit: string)
      requires Valid() && pos < |input|
      modifies this
      ensures Valid()
      ensures Scanned(Lexeme(tok, lit), pos) == WhitespaceAt(input, old(pos))
    {
      lit := ReadRun(Space);
      tok := Ws;
    }

    /** Consumes the current character and all contiguous identifier characters;
        the upper-cased literal decides between a keyword and IDENT. */
    method ScanIdent() returns (tok: Token, lit: string)
      requires Valid() && pos < |input|
      modifies this
      ensures Valid()
      ensures Scanned(Lexeme(tok, lit), pos) == IdentAt(input, old(pos))
    {
      lit := ReadRun(IdentPart);
      var upper := Upper(lit);
      if upper == "SELECT" {
        tok := Select;
      } else if upper == "FROM" {
        tok := From;
      } else if upper == "WHERE" {
        tok := Where;
      } else if upper == "AND" {
        tok := And;
      } else if upper == "OR" {
        tok := Or;
      } else {
        tok := Ident;
      }
    }

    /** Consumes the current character and all contiguous digits, '-' and '.'. */
    method ScanNumber() returns (tok: Token, lit: string)
      requires Valid() && pos < |input|
      modifies this
      ensures Valid()
      ensures Scanned(Lexeme(tok, lit), pos) == NumberAt(input, old(pos))
    {
      lit := ReadRun(NumberPart);
      tok := Number;
    }

    /** Consumes an operator: =, !=, <, <=, > or >=. */
    method ScanOp() returns (tok: Token, lit: string)
      requires Valid() && pos < |input| && IsOpChar(input[pos])
      modifies this
      ensures Valid()
      ensures Scanned(Lexeme(tok, lit), pos) == OpAt(input, old(pos))
    {
      var ch := Read();
      lit := [ch];
      if ch == '!' {
        ch := Read();
        if ch != '=' {
          if ch != EofRune {
            lit := lit + [ch];
          }
          return Illegal, lit;
        }
        lit := lit + [ch];
        return Ne, lit;
      } else if ch == '=' {
        return Eq, lit;
      } else if ch == '<' {
        ch := Read();
        if ch != '=' {
          Unread();
          return Lt, lit;
        }
        lit := lit + [ch];
        return Le, lit;
      } else {
        // the only operator character left is '>'
        ch := Read();
        if ch != '=' {
          Unread();
          return Gt, lit;
        }
        lit := lit + [ch];
        return Ge, lit;
      }
    }

    /** Consumes the opening quote `term` and then characters up to the matching
        quote; a backslash copies itself and the character after it. A newline or
        end of input first makes the string ILLEGAL. */
    method ScanStr(term: char) returns (tok: Token, lit: string)
      requires Valid() && pos < |input| && input[pos] == term
      modifies this
      ensures Valid()
      ensures Scanned(Lexeme(tok, lit), pos) == QuotedAt(input, old(pos))
    {
      ghost var start := pos;
      var ch := Read();
      lit := [ch];
      ghost var body: string := [];
      while true
        invariant Valid() && start < pos <= |input|
        invariant lit == [term] + body
        invariant QuotedTail(input, start + 1, term) == Prepend(body, QuotedTail(input, pos, term))
        decreases |input| - pos
      {
        ghost var before := pos;
        ch := Read();
        if ch == EofRune || ch == '\n' {
          return Illegal, lit;
        } else if ch == '\\' {
          ch := Read();
          EscapeStep(input, before, term);
          PrependTwice(body, ['\\', ch], QuotedTail(input, pos, term));
          lit, body := lit + ['\\', ch], body + ['\\', ch];
        } else if ch == term {
          lit, body := lit + [ch], body + [ch];
          return String, lit;
        } else {
          PlainStep(input, before, term);
          PrependTwice(body, [ch], QuotedTail(input, pos, term));
          lit, body := lit + [ch], body + [ch];
        }
      }
    }
  }
}
