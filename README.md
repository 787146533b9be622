# elsh lexer: a Dafny model of `lex::TokenLoader`

This project models the lexical analyser of the elsh interpreter, `lex::TokenLoader`.
The loader reads a source stream one character at a time. It tracks the current
character, the previous one, and the line and column of the current character.
Each call to `GetToken` skips whitespace and returns the next token. Tokens are
operators, keywords, identifiers, integer and character constants, string
literals, and the end-of-input token. Comments `/* ... */` are skipped. On
malformed input the loader reports an error at the current line and column and
stops.

The model has four layers.

- **Data** (`types.dfy`, `clib.dfy`, `wrappers.dfy`):
  - `Types.TokenType` has the header's enumerators and their explicit codes.
  - lex/token_loader.cc names its kinds `tk_*`, which lex/types.h does not declare. The model maps each onto the header enumerator of the same meaning: `tk_EOI`→`EOI`; `tk_Mul`, `tk_Div`, `tk_Mod`, `tk_Add`, `tk_Sub`→`OpMul`, `OpDiv`, `OpMod`, `OpAdd`, `OpSub`; `tk_Lss`, `tk_Leq`, `tk_Gtr`, `tk_Geq`, `tk_Eq`, `tk_Neq`, `tk_Assign`, `tk_Not`, `tk_And`, `tk_Or`→`OpLss`, `OpLeq`, `OpGtr`, `OpGeq`, `OpEq`, `OpNeq`, `OpAssign`, `OpNot`, `OpAnd`, `OpOr`; `tk_If`, `tk_Else`, `tk_While`, `tk_Do`, `tk_Print`, `tk_Putc`→`KwIf`, `KwElse`, `KwWhile`, `KwDo`, `KwPrint`, `KwPutc`; `tk_Lparen`, `tk_Rparen`, `tk_Lbrace`, `tk_Rbrace`, `tk_Semi`, `tk_Comma`→`SymLparen`, `SymRparen`, `SymLbrace`, `SymRbrace`, `SymSemiColon`, `SymComma`; `tk_Ident`→`Identifier`; `tk_Integer`→`ValueInt`; `tk_String`→`ValueString`.
  - `Types.Token` holds the kind, the position, the string and the value union.
  - `CLib` holds the C library predicates the loader uses (`isspace`, `isdigit`, `isalpha`, `isalnum`), a 32-bit `int32`, and `std::stoi` on decimal strings.
- **Reading state** (`cursor.dfy`, `token_loader.dfy`):
  - `Cursors.Cursor` is the loader's state as a value. `Cursors.Advance` is one `GetNextChar`.
  - `Loader.TokenLoader` is the class itself. Its fields are updated in place by methods with the source's names and loops.
  - Each method is proved to leave exactly the state, and return exactly the outcome, that its specification function computes: `Cursors.Advance` for `GetNextChar`, `Scanner.Lex` for `GetToken`, and the function of the same name in `Scanner` for every other routine.
- **Control-flow specification** (`scanner.dfy`): the source's routines as functions of a `Cursor`. A routine returns either a token (`Emit`) or an error (`Abort`, standing for `Error`), together with the state it leaves.
- **Text-level meaning** (`lexemes.dfy`, `agreement.dfy`, `properties.dfy`):
  - `Lexemes.ScanText` says, on the remaining text alone, which lexeme comes next and where it starts and ends.
  - `Agreement.LexScan` proves that `GetToken` from every state is that scan, placed at the current position.
  - `Properties` states what each kind of lexeme becomes. It also proves the progress and position facts.

The source's 8-bit `char` becomes Dafny's `char`, and `char` is taken to be signed (see "## Left out"). End of file becomes `Cursors.Cur.Eof`, distinct from every character.

## Model

| member | source | states |
|---|---|---|
| Types.Code | lex/types.h:13-75 | each enumerator's code fits the `uint16_t` base; codes are grouped by category: end of input 0, operators 100-115, keywords 200-210, symbols 300-307, data types 400-409 without 406, others 500-505 |
| Types.CodeRoundTrip | lex/types.h:13-75 | every code decodes back to the one enumerator that carries it, so no two enumerators share a code |
| Types.HashInjective | lex/types.h:79-84 | `EnumClassHash` (the enumerator's code) gives equal hashes exactly for equal kinds |
| Types.ConstructorFields | lex/types.h:90-111 | every `Token` constructor stores kind, line and column; only the string constructor sets `str` (default empty); the int and char constructors set their union member; the others leave it unset |
| CLib.StoiOfDecimal | lex/token_loader.cc:171-172 | `stoi` on the decimal spelling of n, followed by a non-digit, gives n back when n fits in `int`, and fails otherwise |
| Cursors.Initial | lex/token_loader.h:35-39 | a new loader has counters at line 1, column 0, and its text still to be scanned is a virtual leading space followed by the whole stream |
| Cursors.Advance | lex/token_loader.cc:71-82 | one read stores the old current character as the last one; a successful read consumes exactly one character; a read at end of file changes nothing but the last character |
| Cursors.ReadStep | lex/token_loader.cc:71-82 | a read before the end yields the next stream character; a read at the end yields end of file and leaves the counters alone |
| Cursors.EofSticky | lex/token_loader.cc:79-81 | once end of file is current, any number of further reads keeps it current and leaves the position and counters unchanged |
| Cursors.AdvanceCounted | lex/token_loader.cc:74-78 | the counters always equal 1 + the number of newlines read, and the number of characters read since the last newline |
| Cursors.AdvanceRest | lex/token_loader.cc:71-82 | a read drops exactly the first character of the text still to be scanned |
| Cursors.AdvanceByRest | lex/token_loader.cc:71-82 | k reads drop exactly the first k characters of the text still to be scanned |
| Scanner.GetIdentifierType | lex/token_loader.cc:178-186 | a word is classified as an identifier or as a keyword, never as anything else |
| Scanner.SkipSpace | lex/token_loader.cc:20-22 | the whitespace loop stops on a character that is not whitespace (or end of file), never moves backwards and keeps the stream |
| Loader.TokenLoader.constructor | lex/token_loader.h:15-16 | a new loader is in the initial reading state over the given stream |
| Loader.TokenLoader.GetNextChar | lex/token_loader.cc:71-82 | the fields after the call are the single-read step of the state before it, and the counter invariant is kept |
| Loader.TokenLoader.GetToken | lex/token_loader.cc:19-69 | the token or error returned and the state left are what the lexer specification gives for the state the call started in; the counters stay correct |
| Loader.TokenLoader.DivisionOrComment | lex/token_loader.cc:84-105 | after `/`: a division token, or the comment skipped up to the first `*/` and the token after it, or an unterminated-comment error |
| Loader.TokenLoader.CharSplit | lex/token_loader.cc:107-130 | after `'`: a character constant with its code, with the escapes `\n` and `\\`, or the empty, unknown-escape or multi-character error |
| Loader.TokenLoader.StringSplit | lex/token_loader.cc:132-147 | from `"`: a string token holding the characters up to the closing quote, or the end-of-line or end-of-file error |
| Loader.TokenLoader.IdentifierOrInteger | lex/token_loader.cc:149-176 | the longest run of letters, digits, `_` and `.` becomes a keyword, an identifier or an integer; otherwise the unrecognized, invalid-number or out-of-range error |
| Loader.TokenLoader.Follow | lex/token_loader.cc:188-198 | the two-character token when the expected character follows, otherwise the one-character token, or an error where there is none |
| Agreement.LexScan | lex/token_loader.cc:19-69 | `GetToken` from any state is the text-level scan of the remaining text, placed at the current position: the token's position is the lexeme's start, and the state left is the lexeme's end (or the error position) |
| Agreement.SkipSpaceAdvance | lex/token_loader.cc:20-22 | skipping whitespace is one read per leading whitespace character of the remaining text |
| Agreement.CommentLoopScan | lex/token_loader.cc:91-104 | the comment loop ends right after the first `*/` and then lexes afresh, or reports an unterminated comment at end of file |
| Agreement.FollowPlace | lex/token_loader.cc:188-198 | `Follow` takes two characters when the second is the expected one, else one character or the error |
| Agreement.CharPlace | lex/token_loader.cc:107-130 | the character-constant routine matches the text-level reading of a quoted character |
| Agreement.StringPlace | lex/token_loader.cc:132-147 | the string routine matches the text-level reading up to the first `"` or newline |
| Agreement.WordPlace | lex/token_loader.cc:149-176 | the word routine matches the text-level reading of the longest word run |
| Lexemes.FirstClose | lex/token_loader.cc:91-104 | finds the first `*/` in a comment body, or reports that there is none |
| Properties.SkipsSpace | lex/token_loader.cc:20-22 | leading whitespace shifts the next lexeme and does not change it |
| Properties.EndOfInput | lex/token_loader.cc:63-64 | text made only of whitespace yields the end-of-input token at the end |
| Properties.ScanTextWithin | lex/token_loader.cc:19-69 | every lexeme lies within the text; only the end-of-input token is empty, and it sits at the end; errors occur at most one read past the end |
| Properties.LexConsumes | lex/token_loader.cc:19-69 | every token except end of input consumes input, so repeated `GetToken` calls reach end of input; after end of input the loader stays at end of file |
| Properties.SimpleToken | lex/token_loader.cc:11-28 | each of `{ } ( ) + - * % ; ,` is a one-character token of its kind |
| Properties.CompoundOperator | lex/token_loader.cc:37-52 | `<=`, `>=`, `==`, `!=` are two-character operator tokens |
| Properties.SingleOperator | lex/token_loader.cc:194-197 | `<`, `>`, `=`, `!` not followed by `=` are one-character tokens |
| Properties.LogicalOperator | lex/token_loader.cc:53-60 | `&&` and a doubled bar are the logical operators; a single `&` or a single bar is an error |
| Properties.Division | lex/token_loader.cc:84-87 | `/` not followed by `*` is the division operator |
| Properties.CommentSkipped | lex/token_loader.cc:89-98 | a comment closed by its first `*/` is skipped, and lexing resumes after it |
| Properties.StarStarSlash | lex/token_loader.cc:92-98 | `/***/` is a whole comment: a `*` directly before the closing `*/` does not hide it |
| Properties.CommentUnterminated | lex/token_loader.cc:99-100 | a comment with no `*/` is an error at end of file |
| Properties.EmptyChar | lex/token_loader.cc:108-110 | `''` is the empty-character error |
| Properties.EscapedChar | lex/token_loader.cc:113-118 | `'\n'` has value 10 and `'\\'` has value 92 |
| Properties.EscapeUnknown | lex/token_loader.cc:119-121 | any other escape is an error |
| Properties.PlainChar | lex/token_loader.cc:112-129 | a quoted plain character is an integer-valued token holding its code (its code point; see "## Left out" for bytes above 0x7F) |
| Properties.MultiChar | lex/token_loader.cc:124-127 | a character constant not closed right after one plain character is an error |
| Properties.EscapedMultiChar | lex/token_loader.cc:113-127 | a character constant not closed right after the escape `\n` or `\\` is the same error, one character further on |
| Properties.StringLiteral | lex/token_loader.cc:132-147 | a string literal's token holds exactly the characters between the quotes |
| Properties.NewlineInString | lex/token_loader.cc:139 | a newline before the closing quote is an error |
| Properties.EndInString | lex/token_loader.cc:140 | end of file before the closing quote is an error |
| Properties.IdentifierWord | lex/token_loader.cc:155-175 | a maximal word not starting with a digit is one token of the type `GetIdentifierType` gives, carrying the word |
| Properties.KeywordTable | lex/token_loader.cc:178-186 | a word is a keyword exactly when it is one of `else if print putc while do`, and each of the six maps to its own keyword kind |
| Properties.IntegerLiteral | lex/token_loader.cc:167-173 | the decimal spelling of n is an integer token of value n when n fits in `int`, and an error otherwise |
| Properties.NumberInvalid | lex/token_loader.cc:167-170 | a word that starts with a digit and contains a letter or `_` is an invalid-number error |
| Properties.DigitLedNumber | lex/token_loader.cc:155-172 | every word of digits, then digits and dots starting with a dot, is taken whole and becomes the integer value of its digits before the first dot (leading zeros allowed), or the out-of-range error when that value exceeds `int` |
| Properties.DottedExamples | lex/token_loader.cc:155-172 | `1.2.3;` gives the integer 1 over five characters, and `007` gives 7 |
| Properties.Unrecognized | lex/token_loader.cc:163-165 | a character that starts no lexeme is the unrecognized-character error |
| Properties.TokenPosition | lex/token_loader.cc:24-25 | a token's line and column are those of its first character in the stream, and the counters stay correct after each token |
| Properties.FirstRead | lex/token_loader.h:35-36 | the initial blank is skipped by the first read; from then on a last character exists; a first character that is not a newline is at line 1, column 1 |

## Left out

- Reading the file (`std::ifstream`): the stream is a sequence of characters given to the constructor. An unopenable file reads as empty input.
- `Error` writes a message to standard error and exits the process. The model returns `Abort` with an error kind and the loader's current line and column. The message text is not modelled: several messages are built by adding a `char` to a string literal, which is pointer arithmetic in C++.
- The model takes the source's `char` to be signed. There `EOF` (-1) equals the byte 0xFF, which the source would misread as end of file. The model keeps end of file distinct from every character.
- Properties.PlainChar: a character constant's value is the character's code point. The source stores `int n = current_char_` (lex/token_loader.cc:112), so with signed `char` a byte from 0x80 to 0xFE gives byte − 256 (`'é'`, byte 0xE9, gives −23), where the model gives 233. Non-ASCII text is not split into bytes either.
- Unsigned `char` is not modelled. With unsigned `char`, `current_char_ = EOF` stores 255, so the end-of-file tests at lex/token_loader.cc:63, 99 and 140 never match. End of input then reaches the word routine and becomes the unrecognized-character error; `tk_EOI` is never emitted. An unterminated comment or string loops forever.
- `std::stoi` throws `std::out_of_range` for values beyond `int`. Nothing catches it, so the process ends through `std::terminate`. The `errno` test after the call is never reached, and its message is never printed. `NumberOutOfRange` stands for that exception.
- Line and column counters are unbounded integers. The source's `int` counters overflow on more than 2^31 - 1 lines (`current_line_`), or on a single line longer than 2^31 - 1 characters (`current_col_`).
- `Token()` (the default constructor) and reading an inactive union member are not modelled. `kTokenNames` and `kReservedKeywords` (declared in `lex/types.h`, defined in no file under `lex/`, and not used by the loader), the `TokenNames` table of `lex/types.cc`, the driver `lex/lexical_ana.cc` and the unit tests are not part of this model.
- Floating-point literals, booleans and keywords beyond the six the loader recognises: the loader produces none of them.
- Properties.ScanTextWithin: an error may lie one read past the end of the text. A `'` at end of file reports its error there.

### Where the code's behaviour is modelled as written

- A word such as `1.5` or `1.2.3` is accepted as a number. It becomes the integer value of its leading digits, because `stoi` stops at the first dot. There is no floating-point token and no malformed-number error for several dots (`Properties.DigitLedNumber`).
- A lone `&` or `|` is an error (`Follow` with the end-of-input kind as its fallback).
- A character constant produces an integer-kind token (`tk_Integer`) holding the character's code. The error position is the loader's position when the error is found, not the token's start.
