/** The reading state of `TokenLoader` (lex/token_loader.h): the stream,
    the current and the previous character, and the line/column counters,
    as a value; and `GetNextChar`, the step that advances it. */
module Cursors {
  import opened Wrappers

  /** What `current_char_` can hold: a character read from the stream, or the
      end-of-stream sentinel that is stored once a read fails. */
  datatype Cur = Ch(c: char) | Eof

  /** The line counter after reading the first `n` characters of `s`: one
      more than the newlines among them. */
  function LineAfter(s: seq<char>, n: nat): int
    requires n <= |s|
  {
    if n == 0 then 1
    else LineAfter(s, n - 1) + (if s[n - 1] == '\n' then 1 else 0)
  }

  /** The column counter after reading the first `n` characters of `s`: a
      newline resets it to 0, every other character moves it one to the
      right. */
  function ColumnAfter(s: seq<char>, n: nat): int
    requires n <= |s|
  {
    if n == 0 then 0
    else if s[n - 1] == '\n' then 0
    else ColumnAfter(s, n - 1) + 1
  }

  /** `source` stands for the whole stream and `pos` for how much of it
      has been read. */
  datatype Cursor = Cursor(source: seq<char>, pos: nat, current: Cur, last: Option<Cur>, line: int, col: int)
  {
    /** The current character is the last one read, or the initial blank
        before any read; EOF is only stored once the whole stream is
        read. */
    ghost predicate Valid() {
      pos <= |source| &&
      (current.Eof? ==> pos == |source|) &&
      (current.Ch? ==> current.c == if pos == 0 then ' ' else source[pos - 1])
    }

    /** The counters are those of the prefix read so far. */
    ghost predicate Counted()
      requires pos <= |source|
    {
      line == LineAfter(source, pos) && col == ColumnAfter(source, pos)
    }

    /** How many characters are still to be consumed, the current one
        included: the measure every scanning loop and the comment recursion
        decrease. */
    function Remaining(): nat
      requires pos <= |source|
    {
      |source| - pos + if current.Eof? then 0 else 1
    }

    /** The text still to be scanned: the current character and the unread
        part of the stream. */
    function Rest(): (r: seq<char>)
      requires pos <= |source|
      ensures current.Eof? <==> r == []
      ensures current.Ch? ==> r[0] == current.c
    {
      if current.Eof? then [] else [current.c] + source[pos..]
    }
  }

  /** The state of a fresh `TokenLoader`: nothing read, current character a
      blank, line 1, column 0, previous character not yet set. */
  function Initial(source: seq<char>): (c: Cursor)
    ensures c.Valid() && c.Counted()
    ensures c.Rest() == [' '] + source
  {
    Cursor(source, 0, Ch(' '), None, 1, 0)
  }

  /** `GetNextChar`: the current character becomes the previous one; a
      successful read moves one column right, or to column 0 of the next
      line when it reads a newline; a failed read stores EOF and leaves the
      counters alone, and every later call fails again. */
  function Advance(c: Cursor): (d: Cursor)
    requires c.Valid()
    ensures d.Valid() && d.source == c.source
    ensures d.last == Some(c.current)
    ensures c.current.Ch? ==> d.Remaining() == c.Remaining() - 1
    ensures c.current.Eof? ==> d == c.(last := Some(Eof))
  {
    if c.pos < |c.source| then
      var ch := c.source[c.pos];
      Cursor(c.source, c.pos + 1, Ch(ch), Some(c.current),
             if ch == '\n' then c.line + 1 else c.line,
             if ch == '\n' then 0 else c.col + 1)
    else
      c.(current := Eof, last := Some(c.current))
  }

  /** A successful read consumes the next character of the stream and
      makes it current; a failed read stores EOF and leaves the counters
      alone. */
  lemma ReadStep(c: Cursor)
    requires c.Valid()
    ensures c.pos < |c.source| ==> Advance(c).pos == c.pos + 1 && Advance(c).current == Ch(c.source[c.pos])
    ensures c.pos == |c.source| ==> Advance(c).current == Eof && Advance(c).line == c.line && Advance(c).col == c.col
  {
  }

  /** Once EOF is stored, every later read fails again: any number of
      further calls leaves EOF current and the position and counters as
      they are. */
  lemma {:induction false} EofSticky(c: Cursor, k: nat)
    requires c.Valid() && c.current == Eof
    ensures AdvanceBy(c, k).current == Eof
    ensures AdvanceBy(c, k).pos == c.pos && AdvanceBy(c, k).line == c.line && AdvanceBy(c, k).col == c.col
    decreases k
  {
    if k > 0 {
      AdvanceByFirst(c, k);
      EofSticky(Advance(c), k - 1);
    }
  }

  /** `GetNextChar` keeps the counters those of the prefix read. */
  lemma AdvanceCounted(c: Cursor)
    requires c.Valid() && c.Counted()
    ensures Advance(c).Counted()
  {
  }

  /** One call of `GetNextChar` consumes the first character of the text
      still to be scanned, and nothing once the stream is exhausted. */
  lemma AdvanceRest(c: Cursor)
    requires c.Valid()
    ensures Advance(c).Rest() == if c.Rest() == [] then [] else c.Rest()[1..]
  {
  }

  /** `k` calls of `GetNextChar`. */
  function AdvanceBy(c: Cursor, k: nat): (d: Cursor)
    requires c.Valid()
    ensures d.Valid() && d.source == c.source
    decreases k
  {
    if k == 0 then c else AdvanceBy(Advance(c), k - 1)
  }

  lemma {:induction false} AdvanceByCounted(c: Cursor, k: nat)
    requires c.Valid() && c.Counted()
    ensures AdvanceBy(c, k).Counted()
    decreases k
  {
    if k > 0 {
      AdvanceCounted(c);
      AdvanceByCounted(Advance(c), k - 1);
    }
  }

  /** `k` calls of `GetNextChar` consume `k` characters, or all that are
      left. */
  lemma {:induction false} AdvanceByRemaining(c: Cursor, k: nat)
    requires c.Valid()
    ensures AdvanceBy(c, k).Remaining() == if k <= c.Remaining() then c.Remaining() - k else 0
    decreases k
  {
    if k > 0 {
      AdvanceByRemaining(Advance(c), k - 1);
    }
  }

  /** The text still to be scanned is the tail of the stream (behind its
      virtual leading blank) whose length is the count still to consume. */
  lemma RestFromRemaining(c: Cursor)
    requires c.Valid()
    ensures c.Rest() == ([' '] + c.source)[|c.source| + 1 - c.Remaining()..]
  {
  }

  /** `k` calls of `GetNextChar` consume the first `k` characters. */
  lemma AdvanceByRest(c: Cursor, k: nat)
    requires c.Valid()
    ensures AdvanceBy(c, k).Rest() == if k <= |c.Rest()| then c.Rest()[k..] else []
  {
    var t := [' '] + c.source;
    AdvanceByRemaining(c, k);
    RestFromRemaining(c);
    RestFromRemaining(AdvanceBy(c, k));
  }

  /** `a` calls of `GetNextChar` followed by `b` more are `a + b` calls. */
  lemma {:induction false} AdvanceByAdd(c: Cursor, a: nat, b: nat)
    requires c.Valid()
    ensures AdvanceBy(AdvanceBy(c, a), b) == AdvanceBy(c, a + b)
    decreases a
  {
    if a > 0 {
      AdvanceByFirst(c, a);
      AdvanceByFirst(c, a + b);
      AdvanceByAdd(Advance(c), a - 1, b);
    }
  }

  /** The first of `k` calls of `GetNextChar`. */
  lemma AdvanceByFirst(c: Cursor, k: nat)
    requires c.Valid() && k > 0
    ensures AdvanceBy(c, k) == AdvanceBy(Advance(c), k - 1)
  {
  }

  /** The `i + 1`-th call of `GetNextChar` starts where `i` calls end. */
  lemma AdvanceBySucc(c: Cursor, i: nat)
    requires c.Valid()
    ensures AdvanceBy(c, i + 1) == Advance(AdvanceBy(c, i))
  {
    AdvanceByAdd(c, i, 1);
  }

  /** After `i` calls of `GetNextChar` the current character is the `i`-th
      of the text still to be scanned, or EOF past its end. */
  lemma Lookahead(c: Cursor, i: nat)
    requires c.Valid()
    ensures AdvanceBy(c, i).current == if i < |c.Rest()| then Ch(c.Rest()[i]) else Eof
  {
    AdvanceByRest(c, i);
  }

  /** The character after the current one is the second of the text still
      to be scanned, or EOF when there is none. */
  lemma NextChar(c: Cursor)
    requires c.Valid() && c.current.Ch?
    ensures Advance(c).current == if |c.Rest()| >= 2 then Ch(c.Rest()[1]) else Eof
  {
    AdvanceRest(c);
  }

  lemma AdvanceByTwo(c: Cursor)
    requires c.Valid()
    ensures AdvanceBy(c, 1) == Advance(c)
    ensures AdvanceBy(c, 2) == Advance(Advance(c))
  {
    assert AdvanceBy(c, 2) == AdvanceBy(Advance(c), 1);
  }
}
