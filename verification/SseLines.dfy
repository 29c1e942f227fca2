// Splitting a byte stream into Server-Sent-Events lines (section 9.2.5 of the WHATWG HTML Living
// Standard): LF, CR and CRLF each end a line. src/deepintshield/streaming.py, `_bounded_sse_lines`.

module SseLines {
  import opened Common
  import opened Utf8

  const LF: Byte := 0x0A
  const CR: Byte := 0x0D

  predicate Breaks(x: Byte) {
    x == LF || x == CR
  }

  // ---------------------------------------------------------------------------------------------
  // Reference: the lines of a whole byte sequence
  // ---------------------------------------------------------------------------------------------

  /** How input ends: at its end, or in a transport failure. */
  datatype Tail = Exhausted | Broken(timeout: bool)

  /** Why the lines end. */
  datatype End = Eof | InvalidUtf8 | TooLarge | Lost(timeout: bool)

  datatype Script = Script(lines: seq<string>, end: End)

  /** The place of the first line break, or the length if there is none. */
  function BreakAt(b: Bytes): (i: nat)
    ensures i <= |b|
    ensures i < |b| ==> Breaks(b[i])
    ensures forall j | 0 <= j < i :: !Breaks(b[j])
  {
    if b == [] || Breaks(b[0]) then 0 else 1 + BreakAt(b[1..])
  }

  /** What follows the line break at `i`; CR LF is one break. */
  function AfterBreak(b: Bytes, i: nat): Bytes
    requires i < |b|
  {
    if b[i] == CR && i + 1 < |b| && b[i + 1] == LF then b[i + 2..] else b[i + 1..]
  }

  /** The lines of `b`, none longer than `limit` bytes, and how they end. */
  function Lines(b: Bytes, tail: Tail, limit: nat): Script
    decreases |b|
  {
    var i := BreakAt(b);
    if i > limit then Script([], TooLarge)
    else if i == |b| && tail.Broken? then Script([], Lost(tail.timeout))
    else if b == [] then Script([], Eof)
    else
      var text := Decode(b[..i]);
      if text.None? then Script([], InvalidUtf8)
      else if i == |b| then Script([text.value], Eof)
      else
        var rest := Lines(AfterBreak(b, i), tail, limit);
        Script([text.value] + rest.lines, rest.end)
  }

  // ---------------------------------------------------------------------------------------------
  // The incremental reader
  // ---------------------------------------------------------------------------------------------

  /** What the response body gives next: a chunk of any size, or an exception. */
  datatype Arrival = Chunk(bytes: Bytes) | Failure(timeout: bool)

  function Content(arrivals: seq<Arrival>): Bytes {
    if arrivals == [] || arrivals[0].Failure? then [] else arrivals[0].bytes + Content(arrivals[1..])
  }

  function Ending(arrivals: seq<Arrival>): Tail {
    if arrivals == [] then Exhausted
    else if arrivals[0].Failure? then Broken(arrivals[0].timeout)
    else Ending(arrivals[1..])
  }

  /** What one request for a line gives. */
  datatype Item = Line(text: string) | Over(end: End)

  /** The bytes still to be split: a pending line and what is unread, less the LF of a split CR LF. */
  function Joined(line: Bytes, afterCr: bool, unread: Bytes): Bytes {
    line + if afterCr && unread != [] && unread[0] == LF then unread[1..] else unread
  }

  predicate Unbroken(line: Bytes) {
    forall i | 0 <= i < |line| :: !Breaks(line[i])
  }

  lemma {:induction false} BreakAfterPrefix(line: Bytes, rest: Bytes)
    requires Unbroken(line)
    ensures BreakAt(line + rest) == |line| + BreakAt(rest)
  {
    if line == [] {
      assert line + rest == rest;
    } else {
      assert (line + rest)[1..] == line[1..] + rest;
      BreakAfterPrefix(line[1..], rest);
    }
  }

  /** The lines still to come, from a pending line and what is unread. */
  function Pending(line: Bytes, afterCr: bool, unread: Bytes, tail: Tail, limit: nat): Script {
    Lines(Joined(line, afterCr, unread), tail, limit)
  }

  lemma PendingAfterCr(x: Byte, rest: Bytes, tail: Tail, limit: nat)
    ensures Pending([], true, [x] + rest, tail, limit) ==
      if x == LF then Pending([], false, rest, tail, limit) else Pending([], false, [x] + rest, tail, limit)
  {
  }

  lemma PendingGrows(line: Bytes, x: Byte, rest: Bytes, tail: Tail, limit: nat)
    ensures Pending(line, false, [x] + rest, tail, limit) == Pending(line + [x], false, rest, tail, limit)
  {
    assert line + ([x] + rest) == (line + [x]) + rest;
  }

  lemma RestAfterBreak(line: Bytes, x: Byte, rest: Bytes)
    requires Breaks(x)
    ensures AfterBreak(line + ([x] + rest), |line|) == Joined([], x == CR, rest)
  {
  }

  lemma CutAtBreak(line: Bytes, x: Byte, rest: Bytes)
    requires Unbroken(line) && Breaks(x)
    ensures var b := line + ([x] + rest); BreakAt(b) == |line| && b[..|line|] == line
  {
    BreakAfterPrefix(line, [x] + rest);
  }

  /** At a break the pending line is the next one. */
  lemma PendingAtBreak(line: Bytes, x: Byte, rest: Bytes, tail: Tail, limit: nat)
    requires Unbroken(line) && |line| <= limit && Breaks(x)
    ensures var whole := Pending(line, false, [x] + rest, tail, limit);
      var text := Decode(line);
      if text.None? then whole == Script([], InvalidUtf8)
      else
        var after := Pending([], x == CR, rest, tail, limit);
        whole == Script([text.value] + after.lines, after.end)
  {
    hide Decode, AfterBreak, BreakAt;
    CutAtBreak(line, x, rest);
    RestAfterBreak(line, x, rest);
  }

  lemma PendingTooLong(line: Bytes, rest: Bytes, tail: Tail, limit: nat)
    requires Unbroken(line) && |line| > limit
    ensures Pending(line, false, rest, tail, limit) == Script([], TooLarge)
  {
  }

  lemma PendingAtEnd(line: Bytes, afterCr: bool, tail: Tail, limit: nat)
    requires Unbroken(line) && |line| <= limit
    ensures Pending(line, afterCr, [], tail, limit) ==
      if tail.Broken? then Script([], Lost(tail.timeout))
      else if line == [] then Script([], Eof)
      else if Decode(line).None? then Script([], InvalidUtf8)
      else Script([Decode(line).value], Eof)
  {
  }

  /**
   * The generator: `arrivals` is what the body has still to give, `chunk[at..]` the unread part of
   * the chunk in hand. `drained` is set when the body itself has come to its end.
   */
  class LineReader {
    const limit: nat
    var arrivals: seq<Arrival>
    var chunk: Bytes
    var at: nat
    var line: Bytes
    var afterCr: bool
    var drained: bool
    var dead: bool

    ghost predicate Valid() reads this {
      at <= |chunk| && Unbroken(line) && |line| <= limit && (afterCr ==> line == [])
    }

    ghost function Unread(): Bytes
      requires Valid()
      reads this
    {
      chunk[at..] + Content(arrivals)
    }

    /** All lines to come. */
    ghost function Ahead(): Script
      requires Valid()
      reads this
    {
      if dead then Script([], Eof) else Pending(line, afterCr, Unread(), Ending(arrivals), limit)
    }

    constructor (arrivals: seq<Arrival>, limit: nat)
      ensures Valid() && !drained && !dead
      ensures this.limit == limit
      ensures Ahead() == Lines(Content(arrivals), Ending(arrivals), limit)
    {
      this.limit := limit;
      this.arrivals := arrivals;
      chunk, at, line, afterCr, drained, dead := [], 0, [], false, false, false;
      new;
      assert Joined([], false, [] + Content(arrivals)) == Content(arrivals);
    }

    /** One byte of the chunk in hand: it goes on, gives a line, or ends the lines. */
    method Feed() returns (r: Option<Item>)
      requires Valid() && !dead && at < |chunk|
      modifies `at, `line, `afterCr, `dead
      ensures Valid() && at == old(at) + 1
      ensures match r {
        case None => !dead && old(Ahead()) == Ahead()
        case Some(Line(text)) =>
          !dead && old(Ahead()) == Script([text] + Ahead().lines, Ahead().end) && Breaks(chunk[at - 1])
        case Some(Over(end)) => dead && old(Ahead()) == Script([], end)
      }
    {
      hide Pending, Decode;
      r := None;
      var x := chunk[at];
      ghost var rest := chunk[at + 1..] + Content(arrivals);
      assert Unread() == [x] + rest;
      at := at + 1;
      if afterCr {
        PendingAfterCr(x, rest, Ending(arrivals), limit);
        afterCr := false;
        if x == LF {
          return;
        }
      }
      if Breaks(x) {
        PendingAtBreak(line, x, rest, Ending(arrivals), limit);
        var text := Decode(line);
        line := [];
        if text.None? {
          dead := true;
          return Some(Over(InvalidUtf8));
        }
        afterCr := x == CR;
        return Some(Line(text.value));
      }
      PendingGrows(line, x, rest, Ending(arrivals), limit);
      line := line + [x];
      if |line| > limit {
        PendingTooLong(line, rest, Ending(arrivals), limit);
        line := [];
        dead := true;
        return Some(Over(TooLarge));
      }
    }

    /** The body is over: an unfinished line is the last one. */
    method Finish() returns (r: Item)
      requires Valid() && !dead && at == |chunk| && arrivals == []
      modifies `line, `drained, `dead
      ensures Valid() && drained
      ensures match r {
        case Line(text) => !dead && old(Ahead()) == Script([text], Eof) && Ahead() == Script([], Eof)
        case Over(end) => dead && old(Ahead()) == Script([], end)
      }
    {
      hide Pending, Decode;
      drained := true;
      PendingAtEnd(line, afterCr, Exhausted, limit);
      assert Unread() == [];
      if line != [] {
        var text := Decode(line);
        line := [];
        if text.None? {
          dead := true;
          return Over(InvalidUtf8);
        }
        PendingAtEnd([], afterCr, Exhausted, limit);
        return Line(text.value);
      }
      dead := true;
      return Over(Eof);
    }

    /**
     * Resume the generator until it yields a line, raises, or returns. It reads no chunk beyond the
     * one in which the line ends, and never leaves more than `limit` bytes in its buffer.
     */
    method Next() returns (r: Item)
      requires Valid()
      modifies this
      ensures Valid()
      ensures match r {
        case Line(text) =>
          && !dead
          && old(Ahead()) == Script([text] + Ahead().lines, Ahead().end)
          && (drained || (0 < at && Breaks(chunk[at - 1])))
        case Over(end) => dead && old(Ahead()) == Script([], end)
      }
      ensures drained ==> old(drained) || r.Over? || (Ahead() == Script([], Eof) && chunk[at..] == [] && arrivals == [])
    {
      hide Pending, Decode, Unbroken;
      if dead {
        return Over(Eof);
      }
      while at < |chunk| || arrivals != []
        invariant Valid() && !dead && drained == old(drained) && Ahead() == old(Ahead())
        decreases |arrivals|, |chunk| - at
      {
        if at < |chunk| {
          var item := Feed();
          if item.Some? {
            return item.value;
          }
        } else if arrivals[0].Failure? {
          PendingAtEnd(line, afterCr, Ending(arrivals), limit);
          assert Unread() == [];
          dead := true;
          return Over(Lost(arrivals[0].timeout));
        } else {
          ghost var unread := Unread();
          chunk, at, arrivals := arrivals[0].bytes, 0, arrivals[1..];
          assert Unread() == unread;
        }
      }
      r := Finish();
    }
  }
}
