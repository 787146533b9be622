/** `lex::TokenLoader` (lex/token_loader.h, lex/token_loader.cc): the
    reading state as fields that every scanning routine updates in place.
    Each method is proved to compute exactly what its specification function
    says, from the state it is called in: `GetNextChar` is `Cursors.Advance`,
    `GetToken` is `Scanner.Lex`, and every other routine is the function of
    the same name in module Scanner. */
module Loader {
  import opened Wrappers
  import opened CLib
  import opened Types
  import opened Cursors
  import opened Scanner

  class TokenLoader {
    /** The stream (`source_fs_`) and how much of it has been read. */
    const source: seq<char>
    var pos: nat
    var current: Cur
    /** `last_char_`: None until the first `GetNextChar`. */
    var last: Option<Cur>
    var line: int
    var col: int

    function State(): Cursor
      reads this
    {
      Cursor(source, pos, current, last, line, col)
    }

    ghost predicate Valid()
      reads this
    {
      State().Valid() && State().Counted()
    }

    constructor (source: seq<char>)
      ensures Valid()
      ensures State() == Initial(source)
    {
      this.source := source;
      pos := 0;
      current := Ch(' ');
      last := None;
      line := 1;
      col := 0;
    }

    method GetNextChar()
      requires Valid()
      modifies this
      ensures State() == Advance(old(State()))
      ensures Valid()
    {
      last := Some(current);
      if pos < |source| {
        current := Ch(source[pos]);
        pos := pos + 1;
        col := col + 1;
        if current == Ch('\n') {
          line := line + 1;
          col := 0;
        }
      } else {
        current := Eof;
      }
    }

    method GetToken() returns (r: Outcome)
      requires Valid()
      modifies this
      ensures Valid()
      ensures Step(r, State()) == Lex(old(State()))
      decreases State().Remaining()
    {
      while current.Ch? && IsSpace(current.c)
        invariant Valid()
        invariant SkipSpace(State()) == SkipSpace(old(State()))
        decreases State().Remaining()
      {
        GetNextChar();
      }

      ghost var d := State();
      var startLine, startCol := line, col;
      if current.Ch? && current.c in SimpleTokens {
        DispatchesSimple(d);
        GetNextChar();
        r := Emit(IntToken(SimpleTokens[last.value.c], startLine, startCol, 0));
      } else if current == Ch('/') {
        DispatchesSlash(d);
        GetNextChar();
        r := DivisionOrComment(startLine, startCol);
      } else if current == Ch('\'') {
        DispatchesQuote(d);
        GetNextChar();
        r := CharSplit(startLine, startCol);
      } else if current == Ch('<') {
        DispatchesLess(d);
        GetNextChar();
        r := Follow('=', OpLeq, OpLss, startLine, startCol);
      } else if current == Ch('>') {
        DispatchesGreater(d);
        GetNextChar();
        r := Follow('=', OpGeq, OpGtr, startLine, startCol);
      } else if current == Ch('=') {
        DispatchesEqual(d);
        GetNextChar();
        r := Follow('=', OpEq, OpAssign, startLine, startCol);
      } else if current == Ch('!') {
        DispatchesBang(d);
        GetNextChar();
        r := Follow('=', OpNeq, OpNot, startLine, startCol);
      } else if current == Ch('&') {
        DispatchesAmpersand(d);
        GetNextChar();
        r := Follow('&', OpAnd, EOI, startLine, startCol);
      } else if current == Ch('|') {
        DispatchesBar(d);
        GetNextChar();
        r := Follow('|', OpOr, EOI, startLine, startCol);
      } else if current == Ch('"') {
        DispatchesDoubleQuote(d);
        r := StringSplit(startLine, startCol);
      } else if current == Eof {
        DispatchesEnd(d);
        r := Emit(IntToken(EOI, startLine, startCol, 0));
      } else {
        DispatchesWord(d);
        r := IdentifierOrInteger(startLine, startCol);
      }
    }

    method DivisionOrComment(startLine: int, startCol: int) returns (r: Outcome)
      requires Valid()
      modifies this
      ensures Valid()
      ensures Step(r, State()) == Scanner.DivisionOrComment(old(State()), startLine, startCol)
      decreases State().Remaining()
    {
      if current != Ch('*') {
        return Emit(IntToken(OpDiv, startLine, startCol, 0));
      }

      GetNextChar();
      while true
        invariant Valid()
        invariant State().Remaining() < old(State()).Remaining()
        invariant CommentLoop(State()) == CommentLoop(Advance(old(State())))
        decreases State().Remaining()
      {
        if current == Ch('*') {
          GetNextChar();
          if current == Ch('/') {
            GetNextChar();
            r := GetToken();
            return;
          }
        } else if current == Eof {
          return Abort(UnterminatedComment, line, col);
        } else {
          GetNextChar();
        }
      }
    }

    method CharSplit(startLine: int, startCol: int) returns (r: Outcome)
      requires Valid()
      modifies this
      ensures Valid()
      ensures Step(r, State()) == Scanner.CharSplit(old(State()), startLine, startCol)
    {
      if current == Ch('\'') {
        return Abort(EmptyCharConstant, line, col);
      }

      var n: int32 := if current.Ch? then current.c as int as int32 else -1;
      if current == Ch('\\') {
        GetNextChar();
        if current == Ch('n') {
          n := 10;
        } else if current == Ch('\\') {
          n := 92;
        } else {
          return Abort(UnknownEscape, line, col);
        }
      }

      GetNextChar();
      if current != Ch('\'') {
        return Abort(MultiCharConstant, line, col);
      }
      GetNextChar();
      r := Emit(IntToken(ValueInt, startLine, startCol, n));
    }

    method StringSplit(startLine: int, startCol: int) returns (r: Outcome)
      requires Valid() && current.Ch?
      modifies this
      ensures Valid()
      ensures Step(r, State()) == Scanner.StringSplit(old(State()), startLine, startCol)
    {
      var str := "";
      while true
        invariant Valid() && current.Ch?
        invariant StringLoop(State(), str, startLine, startCol)
                  == StringLoop(old(State()), "", startLine, startCol)
        decreases State().Remaining()
      {
        GetNextChar();
        if current == Ch('"') {
          break;
        }
        if current == Ch('\n') {
          return Abort(EolInString, line, col);
        }
        if current == Eof {
          return Abort(EofInString, line, col);
        }
        str := str + [current.c];
      }

      GetNextChar();
      r := Emit(StringToken(ValueString, startLine, startCol, str));
    }

    method IdentifierOrInteger(startLine: int, startCol: int) returns (r: Outcome)
      requires Valid()
      modifies this
      ensures Valid()
      ensures Step(r, State()) == Scanner.IdentifierOrInteger(old(State()), startLine, startCol)
    {
      var isNumber := true;
      var str := "";
      while current.Ch? && IsWordChar(current.c)
        invariant Valid()
        invariant WordLoop(State(), str, isNumber) == WordLoop(old(State()), "", true)
        decreases State().Remaining()
      {
        str := str + [current.c];
        if IsAlpha(current.c) || current.c == '_' {
          isNumber := false;
        }
        GetNextChar();
      }

      if str == [] {
        return Abort(UnrecognizedCharacter, line, col);
      }
      if IsDigit(str[0]) {
        if !isNumber {
          return Abort(InvalidNumber(str), line, col);
        }
        var n := Stoi(str);
        if n.None? {
          return Abort(NumberOutOfRange, line, col);
        }
        return Emit(IntToken(ValueInt, startLine, startCol, n.value));
      }
      r := Emit(StringToken(GetIdentifierType(str), startLine, startCol, str));
    }

    method Follow(expected: char, yes: TokenType, no: TokenType, startLine: int, startCol: int)
      returns (r: Outcome)
      requires Valid()
      modifies this
      ensures Valid()
      ensures Step(r, State()) == Scanner.Follow(old(State()), expected, yes, no, startLine, startCol)
    {
      ghost var c := State();
      if current == Ch(expected) {
        GetNextChar();
        r := Emit(IntToken(yes, startLine, startCol, 0));
        assert State() == Advance(c);
        return;
      } else if no == EOI {
        r := Abort(UnrecognizedFollow, line, col);
        assert Scanner.Follow(c, expected, yes, no, startLine, startCol) == Step(r, c);
        return;
      }
      r := Emit(IntToken(no, startLine, startCol, 0));
      assert Scanner.Follow(c, expected, yes, no, startLine, startCol) == Step(r, c);
    }
  }
}
