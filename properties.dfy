/** What the lexer of lex/token_loader.cc does with each kind of lexeme,
    stated on the text still to be read (module Lexemes), and what that
    means for the reading state (module Agreement ties the two). */
module Properties {
  import opened Wrappers
  import opened CLib
  import opened Types
  import opened Cursors
  import opened Scanner
  import opened Lexemes
  import opened Agreement

  /* Whitespace and the end of the input. */

  /** The whitespace skipped before a lexeme is exactly its leading run. */
  lemma {:induction false} SpaceRunOf(ws: seq<char>, u: seq<char>)
    requires forall i :: 0 <= i < |ws| ==> IsSpace(ws[i])
    requires u == [] || !IsSpace(u[0])
    ensures SpaceRun(ws + u) == |ws|
  {
    if ws != [] {
      assert (ws + u)[1..] == ws[1..] + u;
      SpaceRunOf(ws[1..], u);
    }
  }

  /** A lexeme after whitespace is scanned as it would be on its own, the
      offsets moved by the length of the whitespace. */
  lemma SkipsSpace(ws: seq<char>, u: seq<char>)
    requires forall i :: 0 <= i < |ws| ==> IsSpace(ws[i])
    requires u == [] || !IsSpace(u[0])
    ensures ScanText(ws + u) == Shift(ScanLexeme(u), |ws|)
  {
    SpaceRunOf(ws, u);
    assert (ws + u)[|ws|..] == u;
  }

  /** Input that is all whitespace yields the end-of-input token, placed
      after all of it and consuming nothing more. */
  lemma EndOfInput(ws: seq<char>)
    requires forall i :: 0 <= i < |ws| ==> IsSpace(ws[i])
    ensures ScanText(ws) == Scanned(EOI, "", IntValue(0), |ws|, |ws|)
  {
    assert ws + [] == ws;
    SkipsSpace(ws, []);
    assert ScanLexeme([]) == Mark(EOI, 0);
  }

  /* Progress: every scan stays within the text, and every token but the
     end-of-input token consumes at least one character. */

  /** What a scan of a text of length `n` may report: a token within the
      text, empty exactly when it is the end-of-input token, which stands at
      the end; or an error at most one read past the end (a quote that is
      the last character of the input is reported after two reads). */
  predicate Within(s: Scan, n: nat) {
    match s
    case Scanned(kind, _, _, start, end) =>
      start <= end <= n && (kind == EOI <==> start == end) && (kind == EOI ==> end == n)
    case Failed(_, at) => at <= n + 1
  }

  lemma ShiftWithin(s: Scan, k: nat, n: nat)
    requires Within(s, n)
    ensures Within(Shift(s, k), k + n)
  {
  }

  lemma {:induction false} ScanTextWithin(t: seq<char>)
    ensures Within(ScanText(t), |t|)
    decreases |t|, 1
  {
    var k := SpaceRun(t);
    ScanLexemeWithin(t[k..]);
    ShiftWithin(ScanLexeme(t[k..]), k, |t[k..]|);
  }

  lemma {:induction false} ScanLexemeWithin(u: seq<char>)
    ensures Within(ScanLexeme(u), |u|)
    decreases |u|, 0
  {
    if u == [] {
      assert ScanLexeme(u) == Mark(EOI, 0);
    } else if u[0] in SimpleTokens {
      ScansSimple(u);
    } else if u[0] == '/' {
      ScansSlash(u);
      if |u| >= 2 && u[1] == '*' {
        CommentScanWithin(u[2..]);
        ShiftWithin(CommentScan(u[2..]), 2, |u[2..]|);
      }
    } else if u[0] == '\'' {
      ScansQuote(u);
    } else if u[0] == '<' {
      ScansLess(u);
    } else if u[0] == '>' {
      ScansGreater(u);
    } else if u[0] == '=' {
      ScansEqual(u);
    } else if u[0] == '!' {
      ScansBang(u);
    } else if u[0] == '&' {
      ScansAmpersand(u);
    } else if u[0] == '|' {
      ScansBar(u);
    } else if u[0] == '"' {
      ScansDoubleQuote(u);
    } else {
      ScansWord(u);
      WordScanWithin(u);
    }
  }

  lemma {:induction false} CommentScanWithin(t: seq<char>)
    ensures Within(CommentScan(t), |t|)
    decreases |t|, 2
  {
    match FirstClose(t)
    case None =>
    case Some(j) =>
      ScanTextWithin(t[j + 2..]);
      ShiftWithin(ScanText(t[j + 2..]), j + 2, |t[j + 2..]|);
  }

  lemma WordScanWithin(u: seq<char>)
    ensures Within(WordScan(u), |u|)
  {
    var n := WordRun(u);
    if n > 0 && IsDigit(u[..n][0]) && !HasLetter(u[..n]) {
      match Stoi(u[..n])
      case None =>
      case Some(v) =>
    }
  }

  /** One call of `GetToken` consumes the token it returns and nothing
      beyond it; only the end-of-input token consumes nothing, and it
      leaves the loader at the end of the stream. */
  lemma LexConsumes(c: Cursor)
    requires c.Valid()
    ensures Lex(c).after.Valid() && Lex(c).after.source == c.source
    ensures Lex(c).out.Emit? && Lex(c).out.token.kind != EOI ==> Lex(c).after.Remaining() < c.Remaining()
    ensures Lex(c).out.Emit? && Lex(c).out.token.kind == EOI ==> Lex(c).after.current == Eof
  {
    var t := c.Rest();
    LexScan(c);
    ScanTextWithin(t);
    RestFromRemaining(c);
    var s := ScanText(t);
    if s.Scanned? {
      AdvanceByRemaining(c, s.end);
      AdvanceByRest(c, s.end);
    }
  }

  /* Single characters and two-character operators. */

  /** Each character of `kSimpleTokenMap` is a token of its own. */
  lemma SimpleToken(ch: char, rest: seq<char>)
    requires ch in SimpleTokens
    ensures ScanLexeme([ch] + rest) == Scanned(SimpleTokens[ch], "", IntValue(0), 0, 1)
  {
    ScansSimple([ch] + rest);
  }

  /** `<`, `>`, `=` and `!` followed by `=` are one two-character token. */
  lemma CompoundOperator(ch: char, rest: seq<char>)
    requires ch in Compound
    ensures ScanLexeme([ch, '='] + rest) == Scanned(Compound[ch], "", IntValue(0), 0, 2)
  {
    var u := [ch, '='] + rest;
    if ch == '<' { ScansLess(u); } else if ch == '>' { ScansGreater(u); }
    else if ch == '=' { ScansEqual(u); } else { ScansBang(u); }
  }

  /** Otherwise they are a one-character token and what follows is left
      to be read. */
  lemma SingleOperator(ch: char, rest: seq<char>)
    requires ch in Compound && (rest == [] || rest[0] != '=')
    ensures ScanLexeme([ch] + rest) == Scanned(Single[ch], "", IntValue(0), 0, 1)
  {
    var u := [ch] + rest;
    if ch == '<' { ScansLess(u); } else if ch == '>' { ScansGreater(u); }
    else if ch == '=' { ScansEqual(u); } else { ScansBang(u); }
  }

  /** `&&` and `||` are the logical operators; a lone `&` or `|` is an
      error reported after reading the character that follows it. */
  lemma LogicalOperator(ch: char, rest: seq<char>)
    requires ch == '&' || ch == '|'
    ensures ScanLexeme([ch, ch] + rest) == Scanned(if ch == '&' then OpAnd else OpOr, "", IntValue(0), 0, 2)
    ensures rest == [] || rest[0] != ch ==> ScanLexeme([ch] + rest) == Failed(UnrecognizedFollow, 1)
  {
    if ch == '&' {
      ScansAmpersand([ch, ch] + rest);
      ScansAmpersand([ch] + rest);
    } else {
      ScansBar([ch, ch] + rest);
      ScansBar([ch] + rest);
    }
  }

  /* Division and comments. */

  /** A `/` not followed by `*` is the division operator; what follows is
      left to be read. */
  lemma Division(rest: seq<char>)
    requires rest == [] || rest[0] != '*'
    ensures ScanLexeme(['/'] + rest) == Scanned(OpDiv, "", IntValue(0), 0, 1)
  {
    ScansSlash(['/'] + rest);
  }

  /** A comment yields no token: the scan goes on after its first `*` `/`,
      whatever the comment holds. */
  lemma CommentSkipped(body: seq<char>, rest: seq<char>)
    requires forall i :: 0 <= i < |body| ==> !ClosesAt(body + ['*', '/'], i)
    ensures ScanLexeme(['/', '*'] + body + ['*', '/'] + rest) == Shift(ScanText(rest), |body| + 4)
  {
    var u := ['/', '*'] + body + ['*', '/'] + rest;
    var t := body + ['*', '/'] + rest;
    assert u[2..] == t;
    CommentBodyClosed(body, rest);
    ScansSlash(u);
    ShiftShift(ScanText(rest), |body| + 2, 2);
  }

  /** The body of a comment closed by its first `*` `/` scans as the text
      after the close. */
  lemma CommentBodyClosed(body: seq<char>, rest: seq<char>)
    requires forall i :: 0 <= i < |body| ==> !ClosesAt(body + ['*', '/'], i)
    ensures CommentScan(body + ['*', '/'] + rest) == Shift(ScanText(rest), |body| + 2)
  {
    var t := body + ['*', '/'] + rest;
    forall i | 0 <= i < |body|
      ensures !ClosesAt(t, i)
    {
      assert !ClosesAt(body + ['*', '/'], i);
    }
    FirstCloseAt(t, |body|);
    assert t[|body| + 2..] == rest;
  }

  /** A close with none before it is the first close. */
  lemma FirstCloseAt(t: seq<char>, j: nat)
    requires ClosesAt(t, j) && forall i :: 0 <= i < j ==> !ClosesAt(t, i)
    ensures FirstClose(t) == Some(j)
  {
  }

  lemma ShiftShift(s: Scan, a: nat, b: nat)
    ensures Shift(Shift(s, a), b) == Shift(s, a + b)
  {
  }

  /** `*` `*` `/` closes a comment: a `*` that is not followed by `/` does
      not end it, and the next one may. */
  lemma StarStarSlash(rest: seq<char>)
    ensures ScanLexeme(['/', '*', '*', '*', '/'] + rest) == Shift(ScanText(rest), 5)
  {
    CommentSkipped(['*'], rest);
    assert ['/', '*'] + ['*'] + ['*', '/'] + rest == ['/', '*', '*', '*', '/'] + rest;
  }

  /** A comment that is never closed is an error reported at the end of
      the input. */
  lemma CommentUnterminated(body: seq<char>)
    requires forall i :: 0 <= i < |body| ==> !ClosesAt(body, i)
    ensures ScanLexeme(['/', '*'] + body) == Failed(UnterminatedComment, |body| + 2)
  {
    var u := ['/', '*'] + body;
    ScansSlash(u);
    assert u[2..] == body;
  }

  /* Character literals. */

  lemma EmptyChar(rest: seq<char>)
    ensures ScanLexeme(['\'', '\''] + rest) == Failed(EmptyCharConstant, 1)
  {
    ScansQuote(['\'', '\''] + rest);
  }

  /** The two escapes: `\n` is 10 and `\\` is 92. */
  lemma EscapedChar(rest: seq<char>)
    ensures ScanLexeme(['\'', '\\', 'n', '\''] + rest) == Scanned(ValueInt, "", IntValue(10), 0, 4)
    ensures ScanLexeme(['\'', '\\', '\\', '\''] + rest) == Scanned(ValueInt, "", IntValue(92), 0, 4)
  {
    ScansQuote(['\'', '\\', 'n', '\''] + rest);
    ScansQuote(['\'', '\\', '\\', '\''] + rest);
  }

  /** Any other escape, or a backslash at the end of the input, is an
      error. */
  lemma EscapeUnknown(rest: seq<char>)
    requires rest == [] || (rest[0] != 'n' && rest[0] != '\\')
    ensures ScanLexeme(['\'', '\\'] + rest) == Failed(UnknownEscape, 2)
  {
    ScansQuote(['\'', '\\'] + rest);
  }

  /** A plain character between quotes is its own code. */
  lemma PlainChar(ch: char, rest: seq<char>)
    requires ch != '\'' && ch != '\\'
    ensures ScanLexeme(['\'', ch, '\''] + rest) == Scanned(ValueInt, "", IntValue(ch as int as int32), 0, 3)
  {
    ScansQuote(['\'', ch, '\''] + rest);
  }

  /** A literal not closed right after its one character is an error. */
  lemma MultiChar(ch: char, rest: seq<char>)
    requires ch != '\'' && ch != '\\'
    requires rest == [] || rest[0] != '\''
    ensures ScanLexeme(['\'', ch] + rest) == Failed(MultiCharConstant, 2)
  {
    ScansQuote(['\'', ch] + rest);
  }

  /** An escaped literal (`\n` or `\\`) not closed right after its escape
      is the same error, one character further on. */
  lemma EscapedMultiChar(e: char, rest: seq<char>)
    requires e == 'n' || e == '\\'
    requires rest == [] || rest[0] != '\''
    ensures ScanLexeme(['\'', '\\', e] + rest) == Failed(MultiCharConstant, 3)
  {
    ScansQuote(['\'', '\\', e] + rest);
  }

  /* String literals. */

  /** Where a string literal with body `s` stops. */
  lemma StringEndOf(s: seq<char>, stop: char, rest: seq<char>)
    requires '"' !in s && '\n' !in s
    requires stop == '"' || stop == '\n'
    ensures StringEnd(['"'] + s + [stop] + rest, 1) == |s| + 1
  {
    var u := ['"'] + s + [stop] + rest;
    assert u[|s| + 1] == stop;
    assert forall j :: 1 <= j < |s| + 1 ==> u[j] == s[j - 1];
  }

  /** A string literal is the text between its quotes, taken as it is,
      and both quotes are consumed. */
  lemma StringLiteral(s: seq<char>, rest: seq<char>)
    requires '"' !in s && '\n' !in s
    ensures ScanLexeme(['"'] + s + ['"'] + rest) == Scanned(ValueString, s, NoValue, 0, |s| + 2)
  {
    var u := ['"'] + s + ['"'] + rest;
    ScansDoubleQuote(u);
    StringEndOf(s, '"', rest);
    assert u[1..|s| + 1] == s;
  }

  /** A newline inside a string literal is an error, reported on it. */
  lemma NewlineInString(s: seq<char>, rest: seq<char>)
    requires '"' !in s && '\n' !in s
    ensures ScanLexeme(['"'] + s + ['\n'] + rest) == Failed(EolInString, |s| + 1)
  {
    ScansDoubleQuote(['"'] + s + ['\n'] + rest);
    StringEndOf(s, '\n', rest);
  }

  /** So is the end of the input. */
  lemma EndInString(s: seq<char>)
    requires '"' !in s && '\n' !in s
    ensures ScanLexeme(['"'] + s) == Failed(EofInString, |s| + 1)
  {
    ScansDoubleQuote(['"'] + s);
    StringEndAtEnd(s);
  }

  lemma StringEndAtEnd(s: seq<char>)
    requires '"' !in s && '\n' !in s
    ensures StringEnd(['"'] + s, 1) == |s| + 1
  {
    var u := ['"'] + s;
    assert forall j :: 1 <= j < |u| ==> u[j] == s[j - 1];
  }

  /* Words: identifiers, keywords and numbers. */

  /** A word is the longest run of letters, digits, `_` and `.`. */
  lemma WordRunOf(w: seq<char>, rest: seq<char>)
    requires forall i :: 0 <= i < |w| ==> IsWordChar(w[i])
    requires rest == [] || !IsWordChar(rest[0])
    ensures WordRun(w + rest) == |w|
  {
    var u := w + rest;
    assert forall j :: 0 <= j < |w| ==> u[j] == w[j];
    assert |w| < |u| ==> u[|w|] == rest[0];
  }

  /** A word that does not start with a digit is the keyword it spells or
      an identifier, and its text is the token's text. */
  lemma IdentifierWord(w: seq<char>, rest: seq<char>)
    requires w != [] && !IsDigit(w[0])
    requires forall i :: 0 <= i < |w| ==> IsWordChar(w[i])
    requires rest == [] || !IsWordChar(rest[0])
    ensures ScanLexeme(w + rest) == Scanned(GetIdentifierType(w), w, NoValue, 0, |w|)
  {
    var u := w + rest;
    WordRunOf(w, rest);
    assert u[..|w|] == w;
    assert u[0] == w[0];
    ScansWord(u);
  }

  /** Exactly the six words of the keyword table are keywords. */
  lemma KeywordTable(w: string)
    ensures GetIdentifierType(w) != Identifier <==> w in {"else", "if", "print", "putc", "while", "do"}
    ensures GetIdentifierType("else") == KwElse && GetIdentifierType("if") == KwIf
    ensures GetIdentifierType("print") == KwPrint && GetIdentifierType("putc") == KwPutc
    ensures GetIdentifierType("while") == KwWhile && GetIdentifierType("do") == KwDo
  {
  }

  /** A number written in decimal reads back as its value when it fits an
      `int`, and is an error otherwise. */
  lemma IntegerLiteral(n: nat, rest: seq<char>)
    requires rest == [] || !IsWordChar(rest[0])
    ensures var s := DecimalString(n);
      ScanLexeme(s + rest) ==
        if n <= INT_MAX then Scanned(ValueInt, "", IntValue(n as int32), 0, |s|)
        else Failed(NumberOutOfRange, |s|)
  {
    var s := DecimalString(n);
    var u := s + rest;
    assert forall i :: 0 <= i < |s| ==> IsWordChar(s[i]);
    WordRunOf(s, rest);
    assert u[..|s|] == s && u[0] == s[0];
    assert !HasLetter(s) by {
      forall i | 0 <= i < |s|
        ensures !IsLetter(s[i])
      {
        assert IsDigit(s[i]);
      }
    }
    StoiOfDecimal(n, []);
    assert s + [] == s;
    ScansWord(u);
  }

  /** A word that starts with a digit and holds a letter or `_` is an
      invalid number, reported after the whole word. */
  lemma NumberInvalid(w: seq<char>, rest: seq<char>)
    requires w != [] && IsDigit(w[0]) && HasLetter(w)
    requires forall i :: 0 <= i < |w| ==> IsWordChar(w[i])
    requires rest == [] || !IsWordChar(rest[0])
    ensures ScanLexeme(w + rest) == Failed(InvalidNumber(w), |w|)
  {
    var u := w + rest;
    WordRunOf(w, rest);
    assert u[..|w|] == w && u[0] == w[0];
    ScansWord(u);
  }

  /** A word made of a run of decimal digits followed by digits and dots,
      the first of them a dot, is taken whole, but only the digits before
      the first dot give the value (`1.2.3` is the integer 1, `007` is 7);
      a value beyond `int` is an error reported after the word. */
  lemma DigitLedNumber(ds: string, tail: string, rest: seq<char>)
    requires ds != [] && AllDigits(ds)
    requires forall i :: 0 <= i < |tail| ==> IsDigit(tail[i]) || tail[i] == '.'
    requires tail == [] || tail[0] == '.'
    requires rest == [] || !IsWordChar(rest[0])
    ensures ScanLexeme(ds + tail + rest) ==
      if DecimalValue(ds) <= INT_MAX
      then Scanned(ValueInt, "", IntValue(DecimalValue(ds) as int32), 0, |ds| + |tail|)
      else Failed(NumberOutOfRange, |ds| + |tail|)
  {
    var w := ds + tail;
    var u := w + rest;
    assert ds + tail + rest == u;
    assert forall i :: 0 <= i < |w| ==> IsWordChar(w[i]) by {
      forall i | 0 <= i < |w|
        ensures IsWordChar(w[i])
      {
        if i >= |ds| {
          assert w[i] == tail[i - |ds|];
        }
      }
    }
    WordRunOf(w, rest);
    assert u[..|w|] == w && u[0] == w[0] == ds[0];
    assert !HasLetter(w) by {
      forall i | 0 <= i < |w|
        ensures !IsLetter(w[i])
      {
        if i >= |ds| {
          assert w[i] == tail[i - |ds|];
        }
      }
    }
    DigitRunOfDigits(ds, tail);
    assert w[..|ds|] == ds;
    ScansWord(u);
  }

  /** The two readings named above, as instances. */
  lemma DottedExamples()
    ensures ScanLexeme("1.2.3;") == Scanned(ValueInt, "", IntValue(1), 0, 5)
    ensures ScanLexeme("007") == Scanned(ValueInt, "", IntValue(7), 0, 3)
  {
    DigitLedNumber("1", ".2.3", ";");
    assert "1" + ".2.3" + ";" == "1.2.3;";
    assert DecimalValue("1") == 1;
    DigitLedNumber("007", "", []);
    assert "007" + "" + [] == "007";
    assert DecimalValue("007") == 7 by {
      assert "007"[..2] == "00" && "00"[..1] == "0" && "0"[..0] == "";
    }
  }

  /** A character that starts no token is an error reported on it. */
  lemma Unrecognized(ch: char, rest: seq<char>)
    requires StartsWord(ch) && !IsWordChar(ch)
    ensures ScanLexeme([ch] + rest) == Failed(UnrecognizedCharacter, 0)
  {
    ScansWord([ch] + rest);
  }

  /* Positions. */

  /** The counters stay those of the prefix read through a whole call of
      `GetToken`, so every token carries the line (one more than the
      newlines before it, comments included) and the column of its first
      character. */
  lemma TokenPosition(c: Cursor)
    requires c.Valid() && c.Counted()
    ensures Lex(c).after.Valid() && Lex(c).after.Counted()
    ensures ScanText(c.Rest()).Scanned? ==>
      var b := AdvanceBy(c, ScanText(c.Rest()).start);
      Lex(c).out.Emit? && Lex(c).out.token.line == LineAfter(c.source, b.pos) &&
      Lex(c).out.token.col == ColumnAfter(c.source, b.pos)
  {
    var s := ScanText(c.Rest());
    LexScan(c);
    if s.Scanned? {
      AdvanceByCounted(c, s.start);
      AdvanceByCounted(c, s.end);
    } else {
      AdvanceByCounted(c, s.at);
    }
  }

  /** The first `GetToken` reads the first character before it looks at
      it, because the initial character is a blank; so `last_char_` is set
      before it is read, and the first character read is on line 1 and in
      column 1 unless it is a newline. */
  lemma FirstRead(source: seq<char>)
    ensures SkipSpace(Initial(source)) == SkipSpace(Advance(Initial(source)))
    ensures SkipSpace(Initial(source)).last.Some?
    ensures source != [] && source[0] != '\n' ==> Advance(Initial(source)).line == 1 && Advance(Initial(source)).col == 1
  {
    var c := Initial(source);
    SkipSpaceSetsLast(Advance(c));
  }

  lemma {:induction false} SkipSpaceSetsLast(c: Cursor)
    requires c.Valid() && c.last.Some?
    ensures SkipSpace(c).last.Some?
    decreases c.Remaining()
  {
    if c.current.Ch? && IsSpace(c.current.c) {
      SkipSpaceSetsLast(Advance(c));
    }
  }
}
