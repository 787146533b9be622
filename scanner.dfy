/** What each scanning routine of lex/token_loader.cc computes, as a
    function of the reading state it starts from: the outcome, and the state
    it leaves behind. The methods of `TokenLoader` are proved to compute
    exactly these; the properties of the lexer are lemmas about them. */
module Scanner {
  import opened Wrappers
  import opened CLib
  import opened Types
  import opened Cursors

  /** The diagnostics `Error` is called with, one per call site. */
  datatype LexError =
    | UnterminatedComment        // "EOF in comment"
    | EmptyCharConstant          // "empty character constant"
    | UnknownEscape              // "unknown escape sequence"
    | MultiCharConstant          // "multi-character constant"
    | EolInString                // "EOL in string"
    | EofInString                // "EOF in string"
    | UnrecognizedCharacter      // "unrecognized character"
    | InvalidNumber(text: string) // "invalid number: " + text
    | NumberOutOfRange           // "Number exceeds maximum value"
    | UnrecognizedFollow         // "Follow: unrecognized character"

  /** What a call of `GetToken` ends in: a token, or `Error`, which reports
      the reading position at the time of the call and ends the process. */
  datatype Outcome = Emit(token: Token) | Abort(error: LexError, line: int, col: int)

  /** An outcome together with the reading state it leaves. */
  datatype Step = Step(out: Outcome, after: Cursor)

  /** `kSimpleTokenMap`: the characters that are a token on their own. */
  const SimpleTokens: map<char, TokenType> :=
    map['{' := SymLbrace, '}' := SymRbrace,
        '(' := SymLparen, ')' := SymRparen,
        '+' := OpAdd, '-' := OpSub,
        '*' := OpMul, '%' := OpMod,
        ';' := SymSemiColon, ',' := SymComma]

  /** The keyword table of `GetIdentifierType`. */
  const InnerIdentifiers: map<string, TokenType> :=
    map["else" := KwElse, "if" := KwIf,
        "print" := KwPrint, "putc" := KwPutc,
        "while" := KwWhile, "do" := KwDo]

  /** The characters `IndentifierOrInteger` gathers into a word. */
  predicate IsWordChar(ch: char) {
    IsAlnum(ch) || ch == '_' || ch == '.'
  }

  /** `GetIdentifierType`: a keyword's kind, or Identifier. */
  function GetIdentifierType(text: string): (k: TokenType)
    ensures k == Identifier || CategoryOf(k) == Keyword
  {
    if text in InnerIdentifiers then InnerIdentifiers[text] else Identifier
  }

  /** The whitespace loop at the head of `GetToken`. */
  function SkipSpace(c: Cursor): (d: Cursor)
    requires c.Valid()
    ensures d.Valid() && d.source == c.source && d.Remaining() <= c.Remaining()
    ensures !(d.current.Ch? && IsSpace(d.current.c))
    decreases c.Remaining()
  {
    if c.current.Ch? && IsSpace(c.current.c) then SkipSpace(Advance(c)) else c
  }

  /** `GetToken`: skip whitespace, then scan one lexeme. */
  function Lex(c: Cursor): (s: Step)
    requires c.Valid()
    decreases c.Remaining(), 1
  {
    Dispatch(SkipSpace(c))
  }

  /** The rest of `GetToken`, from the first character of a lexeme: the
      token's position is the one reached there, and its first character
      chooses the scanner. */
  function Dispatch(d: Cursor): (s: Step)
    requires d.Valid()
    decreases d.Remaining(), 0
  {
    match d.current
    case Eof => Step(Emit(IntToken(EOI, d.line, d.col, 0)), d)
    case Ch(ch) =>
      if ch in SimpleTokens then
        var e := Advance(d);
        Step(Emit(IntToken(SimpleTokens[e.last.value.c], d.line, d.col, 0)), e)
      else if ch == '/' then DivisionOrComment(Advance(d), d.line, d.col)
      else if ch == '\'' then CharSplit(Advance(d), d.line, d.col)
      else if ch == '<' then Follow(Advance(d), '=', OpLeq, OpLss, d.line, d.col)
      else if ch == '>' then Follow(Advance(d), '=', OpGeq, OpGtr, d.line, d.col)
      else if ch == '=' then Follow(Advance(d), '=', OpEq, OpAssign, d.line, d.col)
      else if ch == '!' then Follow(Advance(d), '=', OpNeq, OpNot, d.line, d.col)
      else if ch == '&' then Follow(Advance(d), '&', OpAnd, EOI, d.line, d.col)
      else if ch == '|' then Follow(Advance(d), '|', OpOr, EOI, d.line, d.col)
      else if ch == '"' then StringSplit(d, d.line, d.col)
      else IdentifierOrInteger(d, d.line, d.col)
  }

  /* One step of `Dispatch` for each kind of first character. */

  lemma DispatchesEnd(d: Cursor)
    requires d.Valid() && d.current == Eof
    ensures Dispatch(d) == Step(Emit(IntToken(EOI, d.line, d.col, 0)), d)
  {
  }

  lemma DispatchesSimple(d: Cursor)
    requires d.Valid() && d.current.Ch? && d.current.c in SimpleTokens
    ensures Dispatch(d) == Step(Emit(IntToken(SimpleTokens[d.current.c], d.line, d.col, 0)), Advance(d))
  {
  }

  lemma DispatchesSlash(d: Cursor)
    requires d.Valid() && d.current == Ch('/')
    ensures Dispatch(d) == DivisionOrComment(Advance(d), d.line, d.col)
  {
  }

  lemma DispatchesQuote(d: Cursor)
    requires d.Valid() && d.current == Ch('\'')
    ensures Dispatch(d) == CharSplit(Advance(d), d.line, d.col)
  {
  }

  lemma DispatchesLess(d: Cursor)
    requires d.Valid() && d.current == Ch('<')
    ensures Dispatch(d) == Follow(Advance(d), '=', OpLeq, OpLss, d.line, d.col)
  {
  }

  lemma DispatchesGreater(d: Cursor)
    requires d.Valid() && d.current == Ch('>')
    ensures Dispatch(d) == Follow(Advance(d), '=', OpGeq, OpGtr, d.line, d.col)
  {
  }

  lemma DispatchesEqual(d: Cursor)
    requires d.Valid() && d.current == Ch('=')
    ensures Dispatch(d) == Follow(Advance(d), '=', OpEq, OpAssign, d.line, d.col)
  {
  }

  lemma DispatchesBang(d: Cursor)
    requires d.Valid() && d.current == Ch('!')
    ensures Dispatch(d) == Follow(Advance(d), '=', OpNeq, OpNot, d.line, d.col)
  {
  }

  lemma DispatchesAmpersand(d: Cursor)
    requires d.Valid() && d.current == Ch('&')
    ensures Dispatch(d) == Follow(Advance(d), '&', OpAnd, EOI, d.line, d.col)
  {
  }

  lemma DispatchesBar(d: Cursor)
    requires d.Valid() && d.current == Ch('|')
    ensures Dispatch(d) == Follow(Advance(d), '|', OpOr, EOI, d.line, d.col)
  {
  }

  lemma DispatchesDoubleQuote(d: Cursor)
    requires d.Valid() && d.current == Ch('"')
    ensures Dispatch(d) == StringSplit(d, d.line, d.col)
  {
  }

  /** The characters that start no operator, literal or comment. */
  predicate StartsWord(ch: char) {
    ch !in SimpleTokens && ch != '/' && ch != '<' && ch != '>' && ch != '=' && ch != '!' &&
    ch != '&' && ch != '|' && ch != '\'' && ch != '"'
  }

  lemma DispatchesWord(d: Cursor)
    requires d.Valid() && d.current.Ch? && StartsWord(d.current.c)
    ensures Dispatch(d) == IdentifierOrInteger(d, d.line, d.col)
  {
  }

  /** `DivisionOrComment`, entered just after a `/`. */
  function DivisionOrComment(c: Cursor, line: int, col: int): (s: Step)
    requires c.Valid()
    decreases c.Remaining(), 0
  {
    if c.current != Ch('*') then Step(Emit(IntToken(OpDiv, line, col, 0)), c)
    else CommentLoop(Advance(c))
  }

  /** The `for (;;)` loop of `DivisionOrComment`, inside a comment: once
      `*` `/` is read, scanning starts over with `GetToken`. */
  function CommentLoop(c: Cursor): (s: Step)
    requires c.Valid()
    decreases c.Remaining(), 0
  {
    if c.current == Ch('*') then
      var c1 := Advance(c);
      if c1.current == Ch('/') then Lex(Advance(c1)) else CommentLoop(c1)
    else if c.current == Eof then Step(Abort(UnterminatedComment, c.line, c.col), c)
    else CommentLoop(Advance(c))
  }

  /** `CharSplit`, entered just after the opening quote. */
  function CharSplit(c: Cursor, line: int, col: int): (s: Step)
    requires c.Valid()
  {
    if c.current == Ch('\'') then Step(Abort(EmptyCharConstant, c.line, c.col), c)
    else if c.current == Ch('\\') then
      var c1 := Advance(c);
      if c1.current == Ch('n') then CloseChar(c1, 10, line, col)
      else if c1.current == Ch('\\') then CloseChar(c1, 92, line, col)
      else Step(Abort(UnknownEscape, c1.line, c1.col), c1)
    else CloseChar(c, if c.current.Ch? then c.current.c as int as int32 else -1, line, col)
  }

  /** The end of `CharSplit`: the character just scanned must be followed
      by the closing quote. */
  function CloseChar(c: Cursor, n: int32, line: int, col: int): (s: Step)
    requires c.Valid()
  {
    var c1 := Advance(c);
    if c1.current != Ch('\'') then Step(Abort(MultiCharConstant, c1.line, c1.col), c1)
    else Step(Emit(IntToken(ValueInt, line, col, n)), Advance(c1))
  }

  /** `StringSplit`, entered on the opening double quote. */
  function StringSplit(c: Cursor, line: int, col: int): (s: Step)
    requires c.Valid() && c.current.Ch?
  {
    StringLoop(c, "", line, col)
  }

  /** The loop of `StringSplit`: `str` holds what has been gathered. */
  function StringLoop(c: Cursor, str: string, line: int, col: int): (s: Step)
    requires c.Valid() && c.current.Ch?
    decreases c.Remaining()
  {
    var c1 := Advance(c);
    if c1.current == Ch('"') then Step(Emit(StringToken(ValueString, line, col, str)), Advance(c1))
    else if c1.current == Ch('\n') then Step(Abort(EolInString, c1.line, c1.col), c1)
    else if c1.current == Eof then Step(Abort(EofInString, c1.line, c1.col), c1)
    else StringLoop(c1, str + [c1.current.c], line, col)
  }

  /** The state after the word loop of `IndentifierOrInteger`. */
  datatype Word = Word(after: Cursor, text: string, isNumber: bool)

  /** The word loop of `IndentifierOrInteger`: `str` is the word so far and
      `isNumber` whether no letter or `_` has been seen in it. */
  function WordLoop(c: Cursor, str: string, isNumber: bool): (w: Word)
    requires c.Valid()
    decreases c.Remaining()
  {
    if c.current.Ch? && IsWordChar(c.current.c) then
      var ch := c.current.c;
      WordLoop(Advance(c), str + [ch], isNumber && !(IsAlpha(ch) || ch == '_'))
    else Word(c, str, isNumber)
  }

  /** `IndentifierOrInteger`. */
  function IdentifierOrInteger(c: Cursor, line: int, col: int): (s: Step)
    requires c.Valid()
  {
    var w := WordLoop(c, "", true);
    if w.text == [] then Step(Abort(UnrecognizedCharacter, w.after.line, w.after.col), w.after)
    else if IsDigit(w.text[0]) then
      if !w.isNumber then Step(Abort(InvalidNumber(w.text), w.after.line, w.after.col), w.after)
      else match Stoi(w.text)
        case None => Step(Abort(NumberOutOfRange, w.after.line, w.after.col), w.after)
        case Some(n) => Step(Emit(IntToken(ValueInt, line, col, n)), w.after)
    else Step(Emit(StringToken(GetIdentifierType(w.text), line, col, w.text)), w.after)
  }

  /** `Follow`, entered just after the first character of a possible
      two-character operator. */
  function Follow(c: Cursor, expected: char, yes: TokenType, no: TokenType, line: int, col: int): (s: Step)
    requires c.Valid()
  {
    if c.current == Ch(expected) then Step(Emit(IntToken(yes, line, col, 0)), Advance(c))
    else if no == EOI then Step(Abort(UnrecognizedFollow, c.line, c.col), c)
    else Step(Emit(IntToken(no, line, col, 0)), c)
  }
}
