/** The token data model of lex/types.h: the kinds with their explicit
    numeric codes, the hash used to key tables by kind, and the token value
    whose untagged `int`/`char` union becomes a tagged payload. */
module Types {
  import opened Wrappers
  import opened CLib

  /** One constructor per enumerator of `TokenType`. */
  datatype TokenType =
    | EOI
      // Operators
    | OpMul | OpDiv | OpMod | OpAdd | OpSub | OpNegate | OpNot | OpLss | OpLeq
    | OpGtr | OpGeq | OpEq | OpNeq | OpAssign | OpAnd | OpOr
      // Reserved keywords
    | KwIf | KwElse | KwWhile | KwBreak | KwContinue | KwDo | KwFor | KwPrint
    | KwPutc | KwReturn | KwConst
      // Symbols
    | SymLparen | SymRparen | SymLbrace | SymRbrace | SymLbracket | SymRbracket
    | SymSemiColon | SymComma
      // Data types
    | DtInt32 | DtInt64 | DtUint32 | DtUint64 | DtDouble | DtChar | DtVoid
    | DtBool | DtString
      // Others
    | Identifier | ValueInt | ValueDouble | ValueChar | ValueString | ValueBool

  /** The groups the header lays the enumerators out in. */
  datatype Category = EndOfInput | Operator | Keyword | Symbol | DataType | Other

  function CategoryOf(k: TokenType): Category {
    if k.EOI? then EndOfInput
    else if k.OpMul? || k.OpDiv? || k.OpMod? || k.OpAdd? || k.OpSub? || k.OpNegate?
         || k.OpNot? || k.OpLss? || k.OpLeq? || k.OpGtr? || k.OpGeq? || k.OpEq?
         || k.OpNeq? || k.OpAssign? || k.OpAnd? || k.OpOr? then Operator
    else if k.KwIf? || k.KwElse? || k.KwWhile? || k.KwBreak? || k.KwContinue?
         || k.KwDo? || k.KwFor? || k.KwPrint? || k.KwPutc? || k.KwReturn?
         || k.KwConst? then Keyword
    else if k.SymLparen? || k.SymRparen? || k.SymLbrace? || k.SymRbrace?
         || k.SymLbracket? || k.SymRbracket? || k.SymSemiColon? || k.SymComma? then Symbol
    else if k.DtInt32? || k.DtInt64? || k.DtUint32? || k.DtUint64? || k.DtDouble?
         || k.DtChar? || k.DtVoid? || k.DtBool? || k.DtString? then DataType
    else Other
  }

  /** The explicit code of each enumerator (the enum's underlying
      `uint16_t`). Codes are grouped by hundreds, one hundred per category. */
  function Code(k: TokenType): (n: nat)
    ensures n < 0x1_0000
    ensures CategoryOf(k) == EndOfInput <==> n == 0
    ensures CategoryOf(k) == Operator <==> 100 <= n <= 115
    ensures CategoryOf(k) == Keyword <==> 200 <= n <= 210
    ensures CategoryOf(k) == Symbol <==> 300 <= n <= 307
    ensures CategoryOf(k) == DataType <==> 400 <= n <= 409
    ensures CategoryOf(k) == Other <==> 500 <= n <= 505
    ensures n != 406
  {
    match k
    case EOI => 0
    case OpMul => 100
    case OpDiv => 101
    case OpMod => 102
    case OpAdd => 103
    case OpSub => 104
    case OpNegate => 105
    case OpNot => 106
    case OpLss => 107
    case OpLeq => 108
    case OpGtr => 109
    case OpGeq => 110
    case OpEq => 111
    case OpNeq => 112
    case OpAssign => 113
    case OpAnd => 114
    case OpOr => 115
    case KwIf => 200
    case KwElse => 201
    case KwWhile => 202
    case KwBreak => 203
    case KwContinue => 204
    case KwDo => 205
    case KwFor => 206
    case KwPrint => 207
    case KwPutc => 208
    case KwReturn => 209
    case KwConst => 210
    case SymLparen => 300
    case SymRparen => 301
    case SymLbrace => 302
    case SymRbrace => 303
    case SymLbracket => 304
    case SymRbracket => 305
    case SymSemiColon => 306
    case SymComma => 307
    case DtInt32 => 400
    case DtInt64 => 401
    case DtUint32 => 402
    case DtUint64 => 403
    case DtDouble => 404
    case DtChar => 405
    case DtVoid => 407
    case DtBool => 408
    case DtString => 409
    case Identifier => 500
    case ValueInt => 501
    case ValueDouble => 502
    case ValueChar => 503
    case ValueString => 504
    case ValueBool => 505
  }

  /** The enumerators of each group, in the order of their codes. */
  const Operators: seq<TokenType> :=
    [OpMul, OpDiv, OpMod, OpAdd, OpSub, OpNegate, OpNot, OpLss, OpLeq,
     OpGtr, OpGeq, OpEq, OpNeq, OpAssign, OpAnd, OpOr]
  const Keywords: seq<TokenType> :=
    [KwIf, KwElse, KwWhile, KwBreak, KwContinue, KwDo, KwFor, KwPrint,
     KwPutc, KwReturn, KwConst]
  const Symbols: seq<TokenType> :=
    [SymLparen, SymRparen, SymLbrace, SymRbrace, SymLbracket, SymRbracket,
     SymSemiColon, SymComma]
  /** 406 is skipped: `DtVoid` is 407. */
  const DataTypes: seq<TokenType> :=
    [DtInt32, DtInt64, DtUint32, DtUint64, DtDouble, DtChar, DtVoid, DtBool, DtString]
  const Others: seq<TokenType> :=
    [Identifier, ValueInt, ValueDouble, ValueChar, ValueString, ValueBool]

  /** The kind a code stands for, if any: the inverse of Code. */
  function KindOfCode(n: int): Option<TokenType> {
    if n == 0 then Some(EOI)
    else if 100 <= n < 100 + |Operators| then Some(Operators[n - 100])
    else if 200 <= n < 200 + |Keywords| then Some(Keywords[n - 200])
    else if 300 <= n < 300 + |Symbols| then Some(Symbols[n - 300])
    else if 400 <= n < 406 then Some(DataTypes[n - 400])
    else if 407 <= n < 401 + |DataTypes| then Some(DataTypes[n - 401])
    else if 500 <= n < 500 + |Others| then Some(Others[n - 500])
    else None
  }

  /** Decoding a kind's code gives the kind back. */
  lemma CodeRoundTrip(k: TokenType)
    ensures KindOfCode(Code(k)) == Some(k)
  {
  }

  /** `EnumClassHash`: the hash of a kind is its code, cast to `size_t`. */
  function Hash(k: TokenType): (h: nat)
    ensures h < 0x1_0000
  {
    Code(k)
  }

  /** The codes are pairwise distinct, so the hash never maps two kinds to
      one bucket key. */
  lemma HashInjective(a: TokenType, b: TokenType)
    ensures Hash(a) == Hash(b) <==> a == b
  {
    CodeRoundTrip(a);
    CodeRoundTrip(b);
  }

  /** The union of `Token`, with its active member made explicit: a
      token built without a value has no payload that can be read. */
  datatype Payload = NoValue | IntValue(n: int32) | CharValue(text: char)

  datatype Token = Token(kind: TokenType, line: int, col: int, str: string, value: Payload)

  /** `Token(type, line, col)` */
  function KindToken(kind: TokenType, line: int, col: int): Token {
    Token(kind, line, col, "", NoValue)
  }

  /** `Token(type, line, col, const std::string&)` */
  function StringToken(kind: TokenType, line: int, col: int, s: string): Token {
    Token(kind, line, col, s, NoValue)
  }

  /** `Token(type, line, col, int)`, also the one `Token{type, line, col, {n}}` picks */
  function IntToken(kind: TokenType, line: int, col: int, n: int32): Token {
    Token(kind, line, col, "", IntValue(n))
  }

  /** `Token(type, line, col, char)` */
  function CharToken(kind: TokenType, line: int, col: int, ch: char): Token {
    Token(kind, line, col, "", CharValue(ch))
  }

  /** Every constructor takes kind and position from its arguments; only the
      string constructor sets `str`; the int and char constructors each
      activate their own payload variant and no other. */
  lemma ConstructorFields(kind: TokenType, line: int, col: int, s: string, n: int32, ch: char)
    ensures forall t <- [KindToken(kind, line, col), StringToken(kind, line, col, s),
                         IntToken(kind, line, col, n), CharToken(kind, line, col, ch)] ::
              t.kind == kind && t.line == line && t.col == col
    ensures StringToken(kind, line, col, s).str == s
    ensures KindToken(kind, line, col).str == IntToken(kind, line, col, n).str
            == CharToken(kind, line, col, ch).str == ""
    ensures KindToken(kind, line, col).value == StringToken(kind, line, col, s).value == NoValue
    ensures IntToken(kind, line, col, n).value == IntValue(n)
    ensures CharToken(kind, line, col, ch).value == CharValue(ch)
  {
  }
}
