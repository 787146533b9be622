/** The lexer of lex/token_loader.cc described a second time, directly on
    the text still to be read and without any reading state: what the next
    call of `GetToken` yields, where its token starts and where it ends, as
    offsets into that text. Module Agreement proves that the scanning
    functions of module Scanner compute exactly this; the lemmas here state
    what it means for each kind of lexeme. */
module Lexemes {
  import opened Wrappers
  import opened CLib
  import opened Types
  import opened Scanner

  /** The outcome of one call, positions given as offsets into the text:
      a token of text `str` and payload `value` that starts at `start` and
      leaves the text from `end` on to be read, or an error reported with
      the counters reached at `at`. */
  datatype Scan =
    | Scanned(kind: TokenType, str: string, value: Payload, start: nat, end: nat)
    | Failed(error: LexError, at: nat)

  /** The same outcome seen from `k` characters further back. */
  function Shift(s: Scan, k: nat): Scan {
    match s
    case Scanned(kind, str, value, start, end) => Scanned(kind, str, value, k + start, k + end)
    case Failed(e, at) => Failed(e, k + at)
  }

  /** A token built by `Token{kind, line, col, {0}}`, `len` characters long. */
  function Mark(kind: TokenType, len: nat): Scan {
    Scanned(kind, "", IntValue(0), 0, len)
  }

  /** The two-character forms of `<`, `>`, `=` and `!`. */
  const Compound: map<char, TokenType> := map['<' := OpLeq, '>' := OpGeq, '=' := OpEq, '!' := OpNeq]
  /** Their one-character forms. */
  const Single: map<char, TokenType> := map['<' := OpLss, '>' := OpGtr, '=' := OpAssign, '!' := OpNot]

  /** The length of the whitespace at the start of `s`. */
  function SpaceRun(s: seq<char>): (k: nat)
    ensures k <= |s|
    ensures forall i :: 0 <= i < k ==> IsSpace(s[i])
    ensures k < |s| ==> !IsSpace(s[k])
  {
    if s == [] || !IsSpace(s[0]) then 0 else 1 + SpaceRun(s[1..])
  }

  /** Whether a comment body `t` is closed by the `*` `/` at `j`. */
  predicate ClosesAt(t: seq<char>, j: int) {
    0 <= j && j + 1 < |t| && t[j] == '*' && t[j + 1] == '/'
  }

  /** Where the first `*` `/` of `t` stands, if there is one. */
  function FirstClose(t: seq<char>): (r: Option<nat>)
    ensures r.Some? ==> ClosesAt(t, r.value) && forall i :: 0 <= i < r.value ==> !ClosesAt(t, i)
    ensures r.None? ==> forall i :: 0 <= i < |t| ==> !ClosesAt(t, i)
  {
    if |t| < 2 then None
    else if t[0] == '*' && t[1] == '/' then Some(0)
    else
      assert forall i :: 1 <= i ==> (ClosesAt(t, i) <==> ClosesAt(t[1..], i - 1));
      match FirstClose(t[1..])
      case None => None
      case Some(j) => Some(j + 1)
  }

  /** The first index from `i` on where a string literal stops: a double
      quote, a newline, or the end of the text. */
  function StringEnd(u: seq<char>, i: nat): (e: nat)
    requires i <= |u|
    ensures i <= e <= |u|
    ensures forall j :: i <= j < e ==> u[j] != '"' && u[j] != '\n'
    ensures e < |u| ==> u[e] == '"' || u[e] == '\n'
    decreases |u| - i
  {
    if i == |u| || u[i] == '"' || u[i] == '\n' then i else StringEnd(u, i + 1)
  }

  /** The length of the longest prefix of `u` made of word characters. */
  function WordRun(u: seq<char>): (n: nat)
    ensures n <= |u|
    ensures forall i :: 0 <= i < n ==> IsWordChar(u[i])
    ensures n < |u| ==> !IsWordChar(u[n])
  {
    if u == [] || !IsWordChar(u[0]) then 0 else 1 + WordRun(u[1..])
  }

  /** A letter or an underscore: what makes a word that starts with a digit
      an invalid number. */
  predicate IsLetter(ch: char) {
    IsAlpha(ch) || ch == '_'
  }

  predicate HasLetter(w: string) {
    exists i :: 0 <= i < |w| && IsLetter(w[i])
  }

  /** What one call of `GetToken` does with the text `t`: skip the leading
      whitespace, then scan one lexeme. */
  function ScanText(t: seq<char>): Scan
    decreases |t|, 1
  {
    var k := SpaceRun(t);
    Shift(ScanLexeme(t[k..]), k)
  }

  /** One lexeme, from its first character; a comment is skipped and the
      scan starts over after it. */
  function ScanLexeme(u: seq<char>): Scan
    decreases |u|, 0
  {
    if u == [] then Mark(EOI, 0)
    else if u[0] in SimpleTokens then Mark(SimpleTokens[u[0]], 1)
    else if u[0] == '/' then
      if |u| >= 2 && u[1] == '*' then Shift(CommentScan(u[2..]), 2)
      else Mark(OpDiv, 1)
    else if u[0] == '\'' then CharScan(u)
    else if u[0] in Compound then
      if |u| >= 2 && u[1] == '=' then Mark(Compound[u[0]], 2) else Mark(Single[u[0]], 1)
    else if u[0] == '&' || u[0] == '|' then
      if |u| >= 2 && u[1] == u[0] then Mark(if u[0] == '&' then OpAnd else OpOr, 2)
      else Failed(UnrecognizedFollow, 1)
    else if u[0] == '"' then StringScan(u)
    else WordScan(u)
  }

  /** The inside of a comment, from just after its `/` `*`: the scan
      starts over after the first `*` `/`; without one the text ends in the
      comment. */
  function CommentScan(t: seq<char>): Scan
    decreases |t|, 2
  {
    match FirstClose(t)
    case None => Failed(UnterminatedComment, |t|)
    case Some(j) => Shift(ScanText(t[j + 2..]), j + 2)
  }

  /** A character literal, from its opening quote. */
  function CharScan(u: seq<char>): Scan
    requires u != []
  {
    if |u| >= 2 && u[1] == '\'' then Failed(EmptyCharConstant, 1)
    else if |u| >= 2 && u[1] == '\\' then
      if |u| >= 3 && u[2] == 'n' then CloseQuote(u, 3, 10)
      else if |u| >= 3 && u[2] == '\\' then CloseQuote(u, 3, 92)
      else Failed(UnknownEscape, 2)
    else CloseQuote(u, 2, if |u| >= 2 then u[1] as int as int32 else -1)
  }

  /** The closing quote of a character literal is due at `i`. */
  function CloseQuote(u: seq<char>, i: nat, n: int32): Scan {
    if i < |u| && u[i] == '\'' then Scanned(ValueInt, "", IntValue(n), 0, i + 1)
    else Failed(MultiCharConstant, i)
  }

  /** A string literal, from its opening double quote. */
  function StringScan(u: seq<char>): Scan
    requires u != []
  {
    var e := StringEnd(u, 1);
    if e == |u| then Failed(EofInString, e)
    else if u[e] == '\n' then Failed(EolInString, e)
    else Scanned(ValueString, u[1..e], NoValue, 0, e + 1)
  }

  /** An identifier, keyword or integer: the longest run of word
      characters. */
  function WordScan(u: seq<char>): Scan {
    var n := WordRun(u);
    var w := u[..n];
    if n == 0 then Failed(UnrecognizedCharacter, 0)
    else if IsDigit(w[0]) then
      if HasLetter(w) then Failed(InvalidNumber(w), n)
      else match Stoi(w)
        case None => Failed(NumberOutOfRange, n)
        case Some(v) => Scanned(ValueInt, "", IntValue(v), 0, n)
    else Scanned(GetIdentifierType(w), w, NoValue, 0, n)
  }

  /** `Follow` as a text-level outcome. */
  function FollowScan(u: seq<char>, expected: char, yes: TokenType, no: TokenType): Scan {
    if |u| >= 2 && u[1] == expected then Mark(yes, 2)
    else if no == EOI then Failed(UnrecognizedFollow, 1)
    else Mark(no, 1)
  }

  /* One step of `ScanLexeme` for each kind of first character. */

  lemma ScansSimple(u: seq<char>)
    requires u != [] && u[0] in SimpleTokens
    ensures ScanLexeme(u) == Mark(SimpleTokens[u[0]], 1)
  {
  }

  lemma ScansSlash(u: seq<char>)
    requires u != [] && u[0] == '/'
    ensures ScanLexeme(u) == if |u| >= 2 && u[1] == '*' then Shift(CommentScan(u[2..]), 2) else Mark(OpDiv, 1)
  {
  }

  lemma ScansQuote(u: seq<char>)
    requires u != [] && u[0] == '\''
    ensures ScanLexeme(u) == CharScan(u)
  {
  }

  lemma ScansLess(u: seq<char>)
    requires u != [] && u[0] == '<'
    ensures ScanLexeme(u) == FollowScan(u, '=', OpLeq, OpLss)
  {
  }

  lemma ScansGreater(u: seq<char>)
    requires u != [] && u[0] == '>'
    ensures ScanLexeme(u) == FollowScan(u, '=', OpGeq, OpGtr)
  {
  }

  lemma ScansEqual(u: seq<char>)
    requires u != [] && u[0] == '='
    ensures ScanLexeme(u) == FollowScan(u, '=', OpEq, OpAssign)
  {
  }

  lemma ScansBang(u: seq<char>)
    requires u != [] && u[0] == '!'
    ensures ScanLexeme(u) == FollowScan(u, '=', OpNeq, OpNot)
  {
  }

  lemma ScansAmpersand(u: seq<char>)
    requires u != [] && u[0] == '&'
    ensures ScanLexeme(u) == FollowScan(u, '&', OpAnd, EOI)
  {
  }

  lemma ScansBar(u: seq<char>)
    requires u != [] && u[0] == '|'
    ensures ScanLexeme(u) == FollowScan(u, '|', OpOr, EOI)
  {
  }

  lemma ScansDoubleQuote(u: seq<char>)
    requires u != [] && u[0] == '"'
    ensures ScanLexeme(u) == StringScan(u)
  {
  }

  lemma ScansWord(u: seq<char>)
    requires u != [] && StartsWord(u[0])
    ensures ScanLexeme(u) == WordScan(u)
  {
  }
}
