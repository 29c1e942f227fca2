// What a chat stream's lines mean (section 9.2.6 of the WHATWG HTML Living Standard, with the
// stream's own rules for [DONE], errors and sizes). src/deepintshield/streaming.py.

module ChatEvents {
  import opened Common
  import opened Utf8
  import opened SseLines

  // ---------------------------------------------------------------------------------------------
  // Text
  // ---------------------------------------------------------------------------------------------

  /** The characters that `str.strip` removes. */
  predicate Space(c: char) {
    var v := c as int;
    || 0x09 <= v <= 0x0D || 0x1C <= v <= 0x20 || v == 0x85 || v == 0xA0 || v == 0x1680
    || 0x2000 <= v <= 0x200A || v == 0x2028 || v == 0x2029 || v == 0x202F || v == 0x205F || v == 0x3000
  }

  function StripLeft(s: string): string {
    if s != [] && Space(s[0]) then StripLeft(s[1..]) else s
  }

  function StripRight(s: string): string {
    if s != [] && Space(s[|s| - 1]) then StripRight(s[..|s| - 1]) else s
  }

  function Strip(s: string): string {
    StripRight(StripLeft(s))
  }

  /** Lower case; only ASCII letters lower to the letters of "error". */
  function Lower(s: string): string {
    seq(|s|, i requires 0 <= i < |s| => if 'A' <= s[i] <= 'Z' then s[i] + 32 as char else s[i])
  }

  function Join(lines: seq<string>): string {
    if lines == [] then ""
    else if |lines| == 1 then lines[0]
    else lines[0] + "\n" + Join(lines[1..])
  }

  // ---------------------------------------------------------------------------------------------
  // One line
  // ---------------------------------------------------------------------------------------------

  const BOM := 0xFEFF as char

  function WithoutBom(line: string): string {
    if line != [] && line[0] == BOM then line[1..] else line
  }

  function Colon(line: string): (i: nat)
    ensures i <= |line|
    ensures i < |line| ==> line[i] == ':'
    ensures ':' !in line[..i]
  {
    if line == [] || line[0] == ':' then 0 else 1 + Colon(line[1..])
  }

  function FieldName(line: string): string {
    line[..Colon(line)]
  }

  /** What follows the colon, without one leading space. */
  function FieldValue(line: string): string {
    var i := Colon(line);
    if i == |line| then ""
    else if i + 1 < |line| && line[i + 1] == ' ' then line[i + 2..]
    else line[i + 1..]
  }

  // ---------------------------------------------------------------------------------------------
  // One event
  // ---------------------------------------------------------------------------------------------

  /**
   * JSON text read as an object; everything else is malformed. `marked`: the object has a non-null
   * `error`, or its `type` reads "error".
   */
  datatype Decoded<J> = NoObject | Object(value: J, marked: bool)

  type Decoder<!J> = string -> Decoded<J>

  /** What dispatching an event does. */
  datatype Event<J> = Skip | Terminal | Yield(value: J) | Bad(name: string) | Failed(name: string)

  const DONE := "[DONE]"

  function Dispatch<J>(decode: Decoder<J>, data: seq<string>, name: string): Event<J> {
    var text := Strip(Join(data));
    if data == [] || text == "" then Skip
    else if text == DONE then Terminal
    else
      match decode(Join(data))
      case NoObject => Bad(if name == "" then "message" else name)
      case Object(value, marked) =>
        if marked || Lower(Strip(name)) == "error" then Failed(if name == "" then "error" else name)
        else Yield(value)
  }

  /** How a stream ends. */
  datatype Final =
    | Done | MalformedJson(event: string) | ErrorEvent(event: string)
    | InvalidEvent(reason: string) | PrematureEof | Transport(timeout: bool)

  datatype Trace<J> = Trace(objects: seq<J>, final: Final)

  const OVERSIZE := InvalidEvent("event_too_large")

  function Closing<J>(e: Event<J>): (f: Final)
    requires e.Terminal? || e.Bad? || e.Failed?
  {
    match e
    case Terminal => Done
    case Bad(name) => MalformedJson(name)
    case Failed(name) => ErrorEvent(name)
  }

  /** The lines are over while an event is pending: it is never yielded, but it can end the stream. */
  function AtEnd<J>(decode: Decoder<J>, data: seq<string>, name: string, end: End): Final {
    match end
    case InvalidUtf8 => InvalidEvent("invalid_utf8")
    case TooLarge => OVERSIZE
    case Lost(timeout) => Transport(timeout)
    case Eof =>
      var e := Dispatch(decode, data, name);
      if e.Skip? || e.Yield? then PrematureEof else Closing(e)
  }

  // ---------------------------------------------------------------------------------------------
  // The line machine
  // ---------------------------------------------------------------------------------------------

  datatype Pend = Pend(data: seq<string>, name: string)

  const NOTHING := Pend([], "")

  /** A non-empty line; None if the event would grow over the limit. */
  function Feed(p: Pend, line: string, limit: nat): Option<Pend> {
    if FieldName(line) == "data" then
      var data := p.data + [FieldValue(line)];
      if Size(Join(data)) > limit then None else Some(p.(data := data))
    else if FieldName(line) == "event" then Some(p.(name := FieldValue(line)))
    else Some(p)
  }

  /** The stream from a pending event and the lines to come; the first line of all may carry a BOM. */
  function Run<J>(decode: Decoder<J>, p: Pend, first: bool, lines: seq<string>, end: End, limit: nat): Trace<J>
    decreases |lines|
  {
    if lines == [] then Trace([], AtEnd(decode, p.data, p.name, end))
    else
      var line := if first then WithoutBom(lines[0]) else lines[0];
      if line == "" then
        var e := Dispatch(decode, p.data, p.name);
        if e.Skip? then Run(decode, NOTHING, false, lines[1..], end, limit)
        else if e.Yield? then
          var rest := Run(decode, NOTHING, false, lines[1..], end, limit);
          Trace([e.value] + rest.objects, rest.final)
        else Trace([], Closing(e))
      else
        var p' := Feed(p, line, limit);
        if p'.None? then Trace([], OVERSIZE) else Run(decode, p'.value, false, lines[1..], end, limit)
  }

  // ---------------------------------------------------------------------------------------------
  // Reference: blocks of lines
  // ---------------------------------------------------------------------------------------------

  /** The values of a block's `data` fields, in order. */
  function Values(block: seq<string>): seq<string> {
    if block == [] then []
    else
      var last := block[|block| - 1];
      Values(block[..|block| - 1]) + if FieldName(last) == "data" then [FieldValue(last)] else []
  }

  /** The value of its last `event` field. */
  function Name(block: seq<string>): string {
    if block == [] then ""
    else
      var last := block[|block| - 1];
      if FieldName(last) == "event" then FieldValue(last) else Name(block[..|block| - 1])
  }

  predicate Oversize(block: seq<string>, limit: nat) {
    Size(Join(Values(block))) > limit
  }

  /** Lines cut at the empty ones: the dispatched blocks, and the lines after the last empty one. */
  datatype Blocks = Blocks(done: seq<seq<string>>, rest: seq<string>)

  /** `open`: the lines of the block in progress. */
  function Cut(open: seq<string>, lines: seq<string>): Blocks
    decreases |lines|
  {
    if lines == [] then Blocks([], open)
    else if lines[0] == "" then
      var b := Cut([], lines[1..]);
      Blocks([open] + b.done, b.rest)
    else Cut(open + [lines[0]], lines[1..])
  }

  /** Each block in turn: too large, nothing, an object, or the end of the stream. */
  function Meaning<J>(decode: Decoder<J>, b: Blocks, end: End, limit: nat): Trace<J>
    decreases |b.done|
  {
    if b.done == [] then
      Trace([], if Oversize(b.rest, limit) then OVERSIZE else AtEnd(decode, Values(b.rest), Name(b.rest), end))
    else if Oversize(b.done[0], limit) then Trace([], OVERSIZE)
    else
      var e := Dispatch(decode, Values(b.done[0]), Name(b.done[0]));
      var rest := Meaning(decode, Blocks(b.done[1..], b.rest), end, limit);
      if e.Skip? then rest
      else if e.Yield? then Trace([e.value] + rest.objects, rest.final)
      else Trace([], Closing(e))
  }

  /** Only the very first line loses a BOM. */
  function Stripped(lines: seq<string>): seq<string> {
    if lines == [] then [] else [WithoutBom(lines[0])] + lines[1..]
  }

  // ---------------------------------------------------------------------------------------------
  // The machine computes the reference
  // ---------------------------------------------------------------------------------------------

  lemma {:induction false} JoinAppend(lines: seq<string>, x: string)
    ensures Join(lines + [x]) == if lines == [] then x else Join(lines) + "\n" + x
  {
    if |lines| == 0 {
      assert lines + [x] == [x];
    } else {
      assert (lines + [x])[1..] == lines[1..] + [x];
      JoinAppend(lines[1..], x);
      if |lines| > 1 {
        assert lines[0] + "\n" + (Join(lines[1..]) + "\n" + x) == (lines[0] + "\n" + Join(lines[1..])) + "\n" + x;
      }
    }
  }

  /** The running count of `__next__`: a further data line adds its bytes, and one for the newline. */
  lemma JoinSize(lines: seq<string>, x: string)
    ensures Size(Join(lines + [x])) == Size(Join(lines)) + Size(x) + if lines == [] then 0 else 1
  {
    JoinAppend(lines, x);
    if lines != [] {
      EncodeConcat(Join(lines) + "\n", x);
      EncodeConcat(Join(lines), "\n");
      assert Size("\n") == 1;
    }
  }

  lemma ValuesAppend(block: seq<string>, line: string)
    ensures Values(block + [line]) ==
      if FieldName(line) == "data" then Values(block) + [FieldValue(line)] else Values(block)
    ensures Name(block + [line]) == if FieldName(line) == "event" then FieldValue(line) else Name(block)
  {
  }

  lemma BlockGrows(open: seq<string>, line: string, limit: nat)
    requires !Oversize(open, limit)
    ensures Feed(Pend(Values(open), Name(open)), line, limit) ==
      if Oversize(open + [line], limit) then None
      else Some(Pend(Values(open + [line]), Name(open + [line])))
  {
    ValuesAppend(open, line);
  }

  lemma {:induction false} OversizeStays(open: seq<string>, lines: seq<string>, limit: nat)
    requires Oversize(open, limit)
    ensures var b := Cut(open, lines);
      if b.done == [] then Oversize(b.rest, limit) else Oversize(b.done[0], limit)
    decreases |lines|
  {
    if lines != [] && lines[0] != "" {
      ValuesAppend(open, lines[0]);
      if FieldName(lines[0]) == "data" {
        JoinSize(Values(open), FieldValue(lines[0]));
      }
      OversizeStays(open + [lines[0]], lines[1..], limit);
    }
  }

  lemma {:induction false} RunFromOpenBlock<J>(
      decode: Decoder<J>, open: seq<string>, lines: seq<string>, end: End, limit: nat)
    requires !Oversize(open, limit)
    ensures Run(decode, Pend(Values(open), Name(open)), false, lines, end, limit)
         == Meaning(decode, Cut(open, lines), end, limit)
    decreases |lines|
  {
    if lines != [] {
      var rest := lines[1..];
      if lines[0] == "" {
        RunFromOpenBlock(decode, [], rest, end, limit);
        var b := Cut(open, lines);
        assert b.done[0] == open && Blocks(b.done[1..], b.rest) == Cut([], rest);
      } else {
        BlockGrows(open, lines[0], limit);
        if Oversize(open + [lines[0]], limit) {
          OversizeStays(open + [lines[0]], rest, limit);
        } else {
          RunFromOpenBlock(decode, open + [lines[0]], rest, end, limit);
        }
      }
    }
  }

  /** From the start, the line machine yields what the blocks mean. */
  lemma RunIsMeaning<J>(decode: Decoder<J>, lines: seq<string>, end: End, limit: nat)
    ensures Run(decode, NOTHING, true, lines, end, limit)
         == Meaning(decode, Cut([], Stripped(lines)), end, limit)
  {
    RunFromOpenBlock(decode, [], Stripped(lines), end, limit);
    if lines != [] {
      assert Stripped(lines)[1..] == lines[1..];
    }
  }

  // ---------------------------------------------------------------------------------------------
  // Which objects, and which end
  // ---------------------------------------------------------------------------------------------

  function BlockEvent<J>(decode: Decoder<J>, block: seq<string>): Event<J> {
    Dispatch(decode, Values(block), Name(block))
  }

  predicate Passes<J>(decode: Decoder<J>, block: seq<string>, limit: nat) {
    !Oversize(block, limit) && (BlockEvent(decode, block).Skip? || BlockEvent(decode, block).Yield?)
  }

  /** How many blocks come before the first one that ends the stream. */
  function Passing<J>(decode: Decoder<J>, blocks: seq<seq<string>>, limit: nat): (k: nat)
    ensures k <= |blocks|
    ensures forall j | 0 <= j < k :: Passes(decode, blocks[j], limit)
    ensures k < |blocks| ==> !Passes(decode, blocks[k], limit)
  {
    if blocks == [] || !Passes(decode, blocks[0], limit) then 0 else 1 + Passing(decode, blocks[1..], limit)
  }

  function Objects<J>(decode: Decoder<J>, blocks: seq<seq<string>>): seq<J> {
    if blocks == [] then []
    else
      var e := BlockEvent(decode, blocks[0]);
      (if e.Yield? then [e.value] else []) + Objects(decode, blocks[1..])
  }

  predicate IsDone(block: seq<string>, limit: nat) {
    !Oversize(block, limit) && Strip(Join(Values(block))) == DONE
  }

  /**
   * The objects of a stream are those of the blocks before the first one that does not pass, and it
   * ends normally exactly when that block, dispatched or left at the end of input, is [DONE].
   */
  lemma {:induction false} ObjectsBeforeDone<J>(decode: Decoder<J>, b: Blocks, end: End, limit: nat)
    ensures var t := Meaning(decode, b, end, limit);
      var k := Passing(decode, b.done, limit);
      && t.objects == Objects(decode, b.done[..k])
      && (t.final.Done? <==> if k < |b.done| then IsDone(b.done[k], limit) else end.Eof? && IsDone(b.rest, limit))
    decreases |b.done|
  {
    var k := Passing(decode, b.done, limit);
    if k > 0 {
      var b' := Blocks(b.done[1..], b.rest);
      ObjectsBeforeDone(decode, b', end, limit);
      assert b.done[..k][0] == b.done[0];
      assert b.done[..k][1..] == b'.done[..k - 1];
    }
  }
}
