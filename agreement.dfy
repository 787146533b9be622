/** The scanning functions of module Scanner, which follow the control
    flow of lex/token_loader.cc over a reading state, compute what the
    text-level description of module Lexemes says: `GetToken` from any
    reading state yields `ScanText` of the text still to be read, with the
    offsets it names turned into reading states. */
module Agreement {
  import opened Wrappers
  import opened CLib
  import opened Types
  import opened Cursors
  import opened Scanner
  import opened Lexemes

  /** A text-level outcome read from cursor `c`: the token's line and
      column are the counters reached at its first character, and the
      reading state left behind is the one `end` characters on. */
  function Place(s: Scan, c: Cursor): Step
    requires c.Valid()
  {
    match s
    case Scanned(kind, str, value, start, end) =>
      var b := AdvanceBy(c, start);
      Step(Emit(Token(kind, b.line, b.col, str, value)), AdvanceBy(c, end))
    case Failed(e, at) =>
      var a := AdvanceBy(c, at);
      Step(Abort(e, a.line, a.col), a)
  }

  /** Reading an outcome `k` characters on is reading it from the state
      `k` calls of `GetNextChar` later. */
  lemma ShiftPlace(s: Scan, k: nat, c: Cursor)
    requires c.Valid()
    ensures Place(Shift(s, k), c) == Place(s, AdvanceBy(c, k))
  {
    if s.Scanned? {
      ShiftScanned(s.kind, s.str, s.value, s.start, s.end, k, c);
    } else {
      ShiftFailed(s.error, s.at, k, c);
    }
  }

  lemma ShiftFailed(err: LexError, at: nat, k: nat, c: Cursor)
    requires c.Valid()
    ensures Place(Shift(Failed(err, at), k), c) == Place(Failed(err, at), AdvanceBy(c, k))
  {
    assert Shift(Failed(err, at), k) == Failed(err, k + at);
    var a := AdvanceBy(c, k + at);
    assert Place(Failed(err, k + at), c) == Step(Abort(err, a.line, a.col), a);
    AdvanceByAdd(c, k, at);
    assert Place(Failed(err, at), AdvanceBy(c, k)) == Step(Abort(err, a.line, a.col), a);
  }

  lemma ShiftScanned(kind: TokenType, str: string, value: Payload, start: nat, end: nat, k: nat, c: Cursor)
    requires c.Valid()
    ensures Place(Shift(Scanned(kind, str, value, start, end), k), c)
         == Place(Scanned(kind, str, value, start, end), AdvanceBy(c, k))
  {
    assert Shift(Scanned(kind, str, value, start, end), k) == Scanned(kind, str, value, k + start, k + end);
    var b, f := AdvanceBy(c, k + start), AdvanceBy(c, k + end);
    assert Place(Scanned(kind, str, value, k + start, k + end), c) == Step(Emit(Token(kind, b.line, b.col, str, value)), f);
    AdvanceByAdd(c, k, start);
    AdvanceByAdd(c, k, end);
    assert Place(Scanned(kind, str, value, start, end), AdvanceBy(c, k)) == Step(Emit(Token(kind, b.line, b.col, str, value)), f);
  }

  /** The whitespace loop of `GetToken` makes one `GetNextChar` call per
      leading whitespace character. */
  lemma {:induction false} SkipSpaceAdvance(c: Cursor)
    requires c.Valid()
    ensures SkipSpace(c) == AdvanceBy(c, SpaceRun(c.Rest()))
    ensures SkipSpace(c).Rest() == c.Rest()[SpaceRun(c.Rest())..]
    decreases c.Remaining()
  {
    if c.current.Ch? && IsSpace(c.current.c) {
      AdvanceRest(c);
      SkipSpaceAdvance(Advance(c));
    }
  }

  /** The comment loop skips to the first `*` `/` and scans on from there. */
  lemma {:induction false} CommentLoopScan(c: Cursor)
    requires c.Valid()
    ensures CommentLoop(c) == Place(CommentScan(c.Rest()), c)
    decreases c.Remaining(), 1
  {
    var t := c.Rest();
    if c.current == Ch('*') {
      var c1 := Advance(c);
      AdvanceRest(c);
      if c1.current == Ch('/') {
        var c2 := Advance(c1);
        AdvanceRest(c1);
        assert CommentLoop(c) == Lex(c2);
        assert t[0] == '*' && t[1] == '/';
        assert FirstClose(t) == Some(0);
        assert CommentScan(t) == Shift(ScanText(t[2..]), 2);
        LexScan(c2);
        assert AdvanceBy(c, 2) == c2;
        ShiftPlace(ScanText(t[2..]), 2, c);
      } else {
        assert CommentLoop(c) == CommentLoop(c1);
        CommentStep(c);
      }
    } else if c.current == Eof {
      assert t == [];
      assert CommentScan(t) == Failed(UnterminatedComment, 0);
      assert AdvanceBy(c, 0) == c;
    } else {
      assert CommentLoop(c) == CommentLoop(Advance(c));
      CommentStep(c);
    }
  }

  /** One character of a comment that does not close it. */
  lemma {:induction false} CommentStep(c: Cursor)
    requires c.Valid() && c.current.Ch?
    requires c.current == Ch('*') ==> Advance(c).current != Ch('/')
    requires CommentLoop(c) == CommentLoop(Advance(c))
    ensures CommentLoop(c) == Place(CommentScan(c.Rest()), c)
    decreases c.Remaining(), 0
  {
    var t := c.Rest();
    AdvanceRest(c);
    CommentLoopScan(Advance(c));
    assert !ClosesAt(t, 0);
    CommentScanStep(t);
    ShiftPlace(CommentScan(t[1..]), 1, c);
    assert AdvanceBy(c, 1) == Advance(c);
  }

  /** A comment body that is not closed at its first character scans as
      its tail does, one character further on. */
  lemma CommentScanStep(t: seq<char>)
    requires t != [] && !ClosesAt(t, 0)
    ensures CommentScan(t) == Shift(CommentScan(t[1..]), 1)
  {
    if |t| >= 2 {
      match FirstClose(t[1..])
      case None =>
        assert FirstClose(t) == None;
      case Some(j) =>
        assert FirstClose(t) == Some(j + 1);
        assert t[1..][j + 2..] == t[j + 3..];
    }
  }

  /** `GetToken` from any reading state yields the text-level scan of what
      is still to be read. */
  lemma {:induction false} LexScan(c: Cursor)
    requires c.Valid()
    ensures Lex(c) == Place(ScanText(c.Rest()), c)
    decreases c.Remaining(), 4
  {
    var t := c.Rest();
    var k := SpaceRun(t);
    SkipSpaceAdvance(c);
    DispatchScan(SkipSpace(c));
    ShiftPlace(ScanLexeme(t[k..]), k, c);
  }

  /** The dispatch on the first character of a lexeme. */
  lemma {:induction false} DispatchScan(d: Cursor)
    requires d.Valid()
    ensures Dispatch(d) == Place(ScanLexeme(d.Rest()), d)
    decreases d.Remaining(), 3
  {
    if d.current == Eof {
      DispatchEnd(d);
    } else if d.current == Ch('/') {
      if Advance(d).current == Ch('*') {
        DispatchComment(d);
      } else {
        DispatchDivision(d);
      }
    } else {
      DispatchOther(d);
    }
  }

  lemma DispatchEnd(d: Cursor)
    requires d.Valid() && d.current == Eof
    ensures Dispatch(d) == Place(ScanLexeme(d.Rest()), d)
  {
    DispatchesEnd(d);
    assert d.Rest() == [];
    PlaceMark(EOI, 0, d);
  }

  lemma {:induction false} DispatchComment(d: Cursor)
    requires d.Valid() && d.current == Ch('/') && Advance(d).current == Ch('*')
    ensures Dispatch(d) == Place(ScanLexeme(d.Rest()), d)
    decreases d.Remaining(), 2
  {
    var u := d.Rest();
    var c1 := Advance(d);
    var c2 := Advance(c1);
    DispatchesSlash(d);
    assert DivisionOrComment(c1, d.line, d.col) == CommentLoop(c2);
    NextChar(d);
    ScansSlash(u);
    AdvanceRest(d);
    AdvanceRest(c1);
    CommentLoopScan(c2);
    AdvanceByTwo(d);
    ShiftPlace(CommentScan(u[2..]), 2, d);
  }

  /** A token of no text and value 0, `len` characters long, read from `d`. */
  lemma PlaceMark(kind: TokenType, len: nat, d: Cursor)
    requires d.Valid()
    ensures Place(Mark(kind, len), d) == Step(Emit(IntToken(kind, d.line, d.col, 0)), AdvanceBy(d, len))
  {
    assert AdvanceBy(d, 0) == d;
  }

  lemma DispatchDivision(d: Cursor)
    requires d.Valid() && d.current == Ch('/') && Advance(d).current != Ch('*')
    ensures Dispatch(d) == Place(ScanLexeme(d.Rest()), d)
  {
    var e := Advance(d);
    DispatchesSlash(d);
    assert DivisionOrComment(e, d.line, d.col) == Step(Emit(IntToken(OpDiv, d.line, d.col, 0)), e);
    NextChar(d);
    ScansSlash(d.Rest());
    PlaceMark(OpDiv, 1, d);
    AdvanceByTwo(d);
  }

  /** Every dispatch on a character other than `/`. */
  lemma DispatchOther(d: Cursor)
    requires d.Valid() && d.current.Ch? && d.current != Ch('/')
    ensures Dispatch(d) == Place(ScanLexeme(d.Rest()), d)
  {
    var ch := d.current.c;
    if ch in SimpleTokens {
      DispatchSimple(d);
    } else if ch == '<' {
      DispatchesLess(d);
      ScansLess(d.Rest());
      FollowPlace(d, '=', OpLeq, OpLss);
    } else if ch == '>' {
      DispatchesGreater(d);
      ScansGreater(d.Rest());
      FollowPlace(d, '=', OpGeq, OpGtr);
    } else if ch == '=' {
      DispatchesEqual(d);
      ScansEqual(d.Rest());
      FollowPlace(d, '=', OpEq, OpAssign);
    } else if ch == '!' {
      DispatchesBang(d);
      ScansBang(d.Rest());
      FollowPlace(d, '=', OpNeq, OpNot);
    } else if ch == '&' {
      DispatchesAmpersand(d);
      ScansAmpersand(d.Rest());
      FollowPlace(d, '&', OpAnd, EOI);
    } else if ch == '|' {
      DispatchesBar(d);
      ScansBar(d.Rest());
      FollowPlace(d, '|', OpOr, EOI);
    } else if ch == '\'' {
      DispatchesQuote(d);
      ScansQuote(d.Rest());
      CharPlace(d);
    } else if ch == '"' {
      DispatchesDoubleQuote(d);
      ScansDoubleQuote(d.Rest());
      StringPlace(d);
    } else {
      DispatchesWord(d);
      ScansWord(d.Rest());
      WordPlace(d);
    }
  }

  lemma DispatchSimple(d: Cursor)
    requires d.Valid() && d.current.Ch? && d.current.c in SimpleTokens
    ensures Dispatch(d) == Place(ScanLexeme(d.Rest()), d)
  {
    DispatchesSimple(d);
    ScansSimple(d.Rest());
    PlaceMark(SimpleTokens[d.current.c], 1, d);
    AdvanceByTwo(d);
  }

  lemma FollowPlace(d: Cursor, expected: char, yes: TokenType, no: TokenType)
    requires d.Valid() && d.current.Ch?
    ensures Follow(Advance(d), expected, yes, no, d.line, d.col) == Place(FollowScan(d.Rest(), expected, yes, no), d)
  {
    NextChar(d);
    AdvanceByTwo(d);
    if Advance(d).current == Ch(expected) {
      FollowTaken(d, expected, yes, no);
    } else if no == EOI {
      FollowRefused(d, expected, yes);
    } else {
      FollowDeclined(d, expected, yes, no);
    }
  }

  lemma FollowTaken(d: Cursor, expected: char, yes: TokenType, no: TokenType)
    requires d.Valid() && d.current.Ch? && Advance(d).current == Ch(expected)
    requires |d.Rest()| >= 2 && d.Rest()[1] == expected
    requires AdvanceBy(d, 2) == Advance(Advance(d))
    ensures Follow(Advance(d), expected, yes, no, d.line, d.col) == Place(FollowScan(d.Rest(), expected, yes, no), d)
  {
    assert FollowScan(d.Rest(), expected, yes, no) == Mark(yes, 2);
    PlaceMark(yes, 2, d);
  }

  lemma FollowRefused(d: Cursor, expected: char, yes: TokenType)
    requires d.Valid() && d.current.Ch?
    requires !(|d.Rest()| >= 2 && d.Rest()[1] == expected)
    requires Advance(d).current != Ch(expected) && AdvanceBy(d, 1) == Advance(d)
    ensures Follow(Advance(d), expected, yes, EOI, d.line, d.col) == Place(FollowScan(d.Rest(), expected, yes, EOI), d)
  {
    assert FollowScan(d.Rest(), expected, yes, EOI) == Failed(UnrecognizedFollow, 1);
  }

  lemma FollowDeclined(d: Cursor, expected: char, yes: TokenType, no: TokenType)
    requires d.Valid() && d.current.Ch? && no != EOI
    requires !(|d.Rest()| >= 2 && d.Rest()[1] == expected)
    requires Advance(d).current != Ch(expected) && AdvanceBy(d, 1) == Advance(d)
    ensures Follow(Advance(d), expected, yes, no, d.line, d.col) == Place(FollowScan(d.Rest(), expected, yes, no), d)
  {
    assert FollowScan(d.Rest(), expected, yes, no) == Mark(no, 1);
    PlaceMark(no, 1, d);
  }

  /** Character literals. */
  lemma CharPlace(d: Cursor)
    requires d.Valid() && d.current == Ch('\'')
    ensures CharSplit(Advance(d), d.line, d.col) == Place(CharScan(d.Rest()), d)
  {
    var u, c1 := d.Rest(), Advance(d);
    AdvanceRest(d);
    assert AdvanceBy(d, 1) == c1;
    if c1.current == Ch('\'') {
      assert CharSplit(c1, d.line, d.col) == Step(Abort(EmptyCharConstant, c1.line, c1.col), c1);
      assert CharScan(u) == Failed(EmptyCharConstant, 1);
    } else if c1.current == Ch('\\') {
      EscapePlace(d);
    } else {
      var n: int32 := if c1.current.Ch? then c1.current.c as int as int32 else -1;
      assert CharSplit(c1, d.line, d.col) == CloseChar(c1, n, d.line, d.col);
      assert CharScan(u) == CloseQuote(u, 2, n);
      CloseCharPlace(d, 1, n);
    }
  }

  lemma EscapePlace(d: Cursor)
    requires d.Valid() && d.current == Ch('\'') && Advance(d).current == Ch('\\')
    ensures CharSplit(Advance(d), d.line, d.col) == Place(CharScan(d.Rest()), d)
  {
    var u, c1 := d.Rest(), Advance(d);
    var c2 := Advance(c1);
    AdvanceRest(d);
    assert AdvanceBy(d, 1) == c1;
    AdvanceBySucc(d, 1);
    Lookahead(d, 2);
    assert u[1] == '\\';
    if c2.current == Ch('n') {
      assert CharSplit(c1, d.line, d.col) == CloseChar(c2, 10, d.line, d.col);
      assert CharScan(u) == CloseQuote(u, 3, 10);
      CloseCharPlace(d, 2, 10);
    } else if c2.current == Ch('\\') {
      assert CharSplit(c1, d.line, d.col) == CloseChar(c2, 92, d.line, d.col);
      assert CharScan(u) == CloseQuote(u, 3, 92);
      CloseCharPlace(d, 2, 92);
    } else {
      assert CharSplit(c1, d.line, d.col) == Step(Abort(UnknownEscape, c2.line, c2.col), c2);
      assert CharScan(u) == Failed(UnknownEscape, 2);
    }
  }

  /** The closing quote of a character literal, after `i` characters of it. */
  lemma CloseCharPlace(d: Cursor, i: nat, n: int32)
    requires d.Valid()
    ensures CloseChar(AdvanceBy(d, i), n, d.line, d.col) == Place(CloseQuote(d.Rest(), i + 1, n), d)
  {
    var u := d.Rest();
    if i + 1 < |u| && u[i + 1] == '\'' {
      CloseCharFound(d, i, n);
    } else {
      CloseCharMissing(d, i, n);
    }
  }

  lemma CloseCharFound(d: Cursor, i: nat, n: int32)
    requires d.Valid() && i + 1 < |d.Rest()| && d.Rest()[i + 1] == '\''
    ensures CloseChar(AdvanceBy(d, i), n, d.line, d.col) == Place(CloseQuote(d.Rest(), i + 1, n), d)
  {
    AdvanceBySucc(d, i);
    AdvanceBySucc(d, i + 1);
    Lookahead(d, i + 1);
    assert CloseQuote(d.Rest(), i + 1, n) == Scanned(ValueInt, "", IntValue(n), 0, i + 2);
    assert AdvanceBy(d, 0) == d;
  }

  lemma CloseCharMissing(d: Cursor, i: nat, n: int32)
    requires d.Valid() && !(i + 1 < |d.Rest()| && d.Rest()[i + 1] == '\'')
    ensures CloseChar(AdvanceBy(d, i), n, d.line, d.col) == Place(CloseQuote(d.Rest(), i + 1, n), d)
  {
    var c1 := AdvanceBy(d, i + 1);
    AdvanceBySucc(d, i);
    Lookahead(d, i + 1);
    assert c1.current != Ch('\'');
    assert CloseChar(AdvanceBy(d, i), n, d.line, d.col) == Step(Abort(MultiCharConstant, c1.line, c1.col), c1);
    assert CloseQuote(d.Rest(), i + 1, n) == Failed(MultiCharConstant, i + 1);
  }

  /** String literals. */
  lemma StringPlace(d: Cursor)
    requires d.Valid() && d.current == Ch('"')
    ensures StringSplit(d, d.line, d.col) == Place(StringScan(d.Rest()), d)
  {
    var u := d.Rest();
    assert AdvanceBy(d, 0) == d;
    assert u[1..1] == "";
    StringLoopScan(d, 0, "");
  }

  /** The string loop, `i` characters into the literal, with the
      characters after the opening quote gathered so far. */
  lemma {:induction false} StringLoopScan(d: Cursor, i: nat, str: string)
    requires d.Valid() && d.current == Ch('"')
    requires i < |d.Rest()| && str == d.Rest()[1..i + 1]
    requires StringEnd(d.Rest(), 1) == StringEnd(d.Rest(), i + 1)
    ensures AdvanceBy(d, i).Valid() && AdvanceBy(d, i).current.Ch?
    ensures StringLoop(AdvanceBy(d, i), str, d.line, d.col) == Place(StringScan(d.Rest()), d)
    decreases |d.Rest()| - i
  {
    var u := d.Rest();
    Lookahead(d, i);
    if i + 1 < |u| && u[i + 1] != '"' && u[i + 1] != '\n' {
      StringLoopStep(d, i, str);
      StringLoopScan(d, i + 1, str + [u[i + 1]]);
    } else {
      Lookahead(d, i + 1);
      AdvanceBySucc(d, i);
      if i + 1 < |u| && u[i + 1] == '"' {
        AdvanceBySucc(d, i + 1);
        StringClosed(d, i, str);
      } else {
        StringBroken(d, i, str);
      }
    }
  }

  /** One character inside a string literal. */
  lemma StringLoopStep(d: Cursor, i: nat, str: string)
    requires d.Valid() && d.current == Ch('"')
    requires i + 1 < |d.Rest()| && str == d.Rest()[1..i + 1]
    requires d.Rest()[i + 1] != '"' && d.Rest()[i + 1] != '\n'
    requires AdvanceBy(d, i).current.Ch?
    ensures AdvanceBy(d, i + 1).current.Ch?
    ensures str + [d.Rest()[i + 1]] == d.Rest()[1..i + 2]
    ensures StringLoop(AdvanceBy(d, i), str, d.line, d.col)
         == StringLoop(AdvanceBy(d, i + 1), str + [d.Rest()[i + 1]], d.line, d.col)
  {
    var u := d.Rest();
    Lookahead(d, i + 1);
    AdvanceBySucc(d, i);
    assert AdvanceBy(d, i + 1).current == Ch(u[i + 1]);
  }

  lemma StringClosed(d: Cursor, i: nat, str: string)
    requires d.Valid() && d.current == Ch('"')
    requires i + 1 < |d.Rest()| && str == d.Rest()[1..i + 1] && d.Rest()[i + 1] == '"'
    requires StringEnd(d.Rest(), 1) == StringEnd(d.Rest(), i + 1)
    requires AdvanceBy(d, i).current.Ch?
    requires AdvanceBy(d, i + 1) == Advance(AdvanceBy(d, i))
    requires AdvanceBy(d, i + 2) == Advance(AdvanceBy(d, i + 1))
    requires AdvanceBy(d, i + 1).current == Ch('"')
    ensures StringLoop(AdvanceBy(d, i), str, d.line, d.col) == Place(StringScan(d.Rest()), d)
  {
    assert StringScan(d.Rest()) == Scanned(ValueString, str, NoValue, 0, i + 2);
    assert AdvanceBy(d, 0) == d;
  }

  lemma StringBroken(d: Cursor, i: nat, str: string)
    requires d.Valid() && d.current == Ch('"')
    requires i < |d.Rest()|
    requires i + 1 == |d.Rest()| || d.Rest()[i + 1] == '\n'
    requires StringEnd(d.Rest(), 1) == StringEnd(d.Rest(), i + 1)
    requires AdvanceBy(d, i).current.Ch?
    requires AdvanceBy(d, i + 1) == Advance(AdvanceBy(d, i))
    requires AdvanceBy(d, i + 1).current == if i + 1 < |d.Rest()| then Ch(d.Rest()[i + 1]) else Eof
    ensures StringLoop(AdvanceBy(d, i), str, d.line, d.col) == Place(StringScan(d.Rest()), d)
  {
    if i + 1 == |d.Rest()| {
      assert StringScan(d.Rest()) == Failed(EofInString, i + 1);
    } else {
      assert StringScan(d.Rest()) == Failed(EolInString, i + 1);
    }
  }

  /** Identifiers, keywords and integers. */
  lemma WordPlace(d: Cursor)
    requires d.Valid()
    ensures IdentifierOrInteger(d, d.line, d.col) == Place(WordScan(d.Rest()), d)
  {
    var u := d.Rest();
    var n := WordRun(u);
    WordLoopScan(d, 0);
    assert u[..0] == "";
    assert AdvanceBy(d, 0) == d;
    assert WordLoop(d, "", true) == Word(AdvanceBy(d, n), u[..n], !HasLetter(u[..n]));
  }
  /** The word loop, `i` characters into the word. */
  lemma {:induction false} WordLoopScan(d: Cursor, i: nat)
    requires d.Valid() && i <= WordRun(d.Rest())
    ensures WordLoop(AdvanceBy(d, i), d.Rest()[..i], !HasLetter(d.Rest()[..i]))
         == Word(AdvanceBy(d, WordRun(d.Rest())), d.Rest()[..WordRun(d.Rest())], !HasLetter(d.Rest()[..WordRun(d.Rest())]))
    decreases WordRun(d.Rest()) - i
  {
    var u := d.Rest();
    var c := AdvanceBy(d, i);
    Lookahead(d, i);
    if i < WordRun(u) {
      WordLoopStep(d, i);
      WordLoopScan(d, i + 1);
    } else {
      assert !(c.current.Ch? && IsWordChar(c.current.c));
    }
  }

  /** One character of a word. */
  lemma WordLoopStep(d: Cursor, i: nat)
    requires d.Valid() && i < WordRun(d.Rest())
    ensures WordLoop(AdvanceBy(d, i), d.Rest()[..i], !HasLetter(d.Rest()[..i]))
         == WordLoop(AdvanceBy(d, i + 1), d.Rest()[..i + 1], !HasLetter(d.Rest()[..i + 1]))
  {
    var u := d.Rest();
    var c := AdvanceBy(d, i);
    Lookahead(d, i);
    AdvanceBySucc(d, i);
    assert c.current == Ch(u[i]) && IsWordChar(u[i]);
    assert u[..i + 1] == u[..i] + [u[i]];
    HasLetterSnoc(u[..i], u[i]);
  }

  lemma HasLetterSnoc(w: string, ch: char)
    ensures HasLetter(w + [ch]) <==> HasLetter(w) || IsLetter(ch)
  {
    if HasLetter(w + [ch]) {
      var i :| 0 <= i < |w + [ch]| && IsLetter((w + [ch])[i]);
      if i < |w| {
        assert IsLetter(w[i]);
      }
    }
    if HasLetter(w) {
      var i :| 0 <= i < |w| && IsLetter(w[i]);
      assert IsLetter((w + [ch])[i]);
    }
    if IsLetter(ch) {
      assert IsLetter((w + [ch])[|w|]);
    }
  }
}
