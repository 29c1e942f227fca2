// Printing events and reading them back: whatever the terminator and wherever the bytes are cut
// into chunks, the decoder is handed the printed payloads, and a name that says "error" ends the
// stream (src/deepintshield/streaming.py).

module ChatRoundTrip {
  import opened Common
  import opened Utf8
  import opened SseLines
  import opened ChatEvents
  import opened ChatStream
  import opened ChatText

  // ---------------------------------------------------------------------------------------------
  // The printer
  // ---------------------------------------------------------------------------------------------

  datatype Terminator = Lf | Cr | CrLf

  function Mark(t: Terminator): Bytes {
    match t
    case Lf => [LF]
    case Cr => [CR]
    case CrLf => [CR, LF]
  }

  /** A payload cut at its newlines. */
  function Pieces(payload: string): (r: seq<string>)
    ensures r != []
  {
    if payload == "" then [""]
    else
      var rest := Pieces(payload[1..]);
      if payload[0] == '\n' then [""] + rest else [[payload[0]] + rest[0]] + rest[1..]
  }

  /** An event as it is sent: its name, if it has one, and its payload; `tight`: no space after the colons. */
  datatype Sent = Sent(name: Option<string>, payload: string, tight: bool)

  /** Where the stream ends: with the terminal event, after an event, or before the end of one. */
  datatype Rest = Terminated | Stopped | Halfway(last: Sent)

  /** A field; without the space, unless the value begins with one. */
  function Field(name: string, value: string, tight: bool): string {
    if tight && !(value != "" && value[0] == ' ') then name + ":" + value else name + ": " + value
  }

  function DataLines(pieces: seq<string>, tight: bool): (r: seq<string>)
    ensures |r| == |pieces|
    ensures forall i | 0 <= i < |r| :: r[i] == Field("data", pieces[i], tight)
  {
    if pieces == [] then [] else [Field("data", pieces[0], tight)] + DataLines(pieces[1..], tight)
  }

  function NameLines(e: Sent): seq<string> {
    if e.name.Some? then [Field("event", e.name.value, e.tight)] else []
  }

  function EventLines(e: Sent): seq<string> {
    NameLines(e) + DataLines(Pieces(e.payload), e.tight)
  }

  function TailLines(tail: Rest): seq<string> {
    match tail
    case Terminated => DataLines([DONE], false) + [""]
    case Stopped => []
    case Halfway(last) => EventLines(last)
  }

  function StreamLines(events: seq<Sent>, tail: Rest): seq<string> {
    if events == [] then TailLines(tail) else EventLines(events[0]) + [""] + StreamLines(events[1..], tail)
  }

  function Print(lines: seq<string>, t: Terminator): Bytes {
    if lines == [] then [] else Encode(lines[0]) + Mark(t) + Print(lines[1..], t)
  }

  // ---------------------------------------------------------------------------------------------
  // What reading should give
  // ---------------------------------------------------------------------------------------------

  /** The payload's bytes, and each of its printed lines, stay within the limit. */
  predicate Fits(e: Sent, limit: nat) {
    Size(e.payload) <= limit && AllShort(EventLines(e), limit)
  }

  /** What one event does to the stream. */
  datatype Effect<J> = Nothing | Gives(value: J) | Ends(final: Final)

  /** The name it is reported under. */
  function Reported(e: Sent, otherwise: string): string {
    if e.name.Some? && e.name.value != "" then e.name.value else otherwise
  }

  ghost function EffectOf<J>(decode: Decoder<J>, e: Sent, limit: nat): Effect<J> {
    if !Fits(e, limit) then Ends(InvalidEvent("event_too_large"))
    else if Blank(e.payload) then Nothing
    else if Says(e.payload, "[DONE]") then Ends(Done)
    else
      match decode(e.payload)
      case NoObject => Ends(MalformedJson(Reported(e, "message")))
      case Object(value, marked) =>
        if marked || (e.name.Some? && SaysError(e.name.value)) then Ends(ErrorEvent(Reported(e, "error")))
        else Gives(value)
  }

  /** Nothing is given of an event that is not finished, but it can end the stream. */
  ghost function TailFinal<J>(decode: Decoder<J>, tail: Rest, limit: nat): Final {
    match tail
    case Terminated => Done
    case Stopped => PrematureEof
    case Halfway(last) =>
      var effect := EffectOf(decode, last, limit);
      if effect.Ends? then effect.final else PrematureEof
  }

  /** The decoder is handed each payload in turn, until an event ends the stream. */
  ghost function Consume<J>(decode: Decoder<J>, events: seq<Sent>, tail: Rest, limit: nat): Trace<J> {
    if events == [] then Trace([], TailFinal(decode, tail, limit))
    else
      match EffectOf(decode, events[0], limit)
      case Nothing => Consume(decode, events[1..], tail, limit)
      case Ends(final) => Trace([], final)
      case Gives(value) =>
        var rest := Consume(decode, events[1..], tail, limit);
        Trace([value] + rest.objects, rest.final)
  }

  // ---------------------------------------------------------------------------------------------
  // Bytes back to lines
  // ---------------------------------------------------------------------------------------------

  predicate Plain(line: string) {
    '\r' !in line && '\n' !in line
  }

  /** The lines before the first one that is too long. */
  function Short(lines: seq<string>, limit: nat): seq<string> {
    if lines == [] || Size(lines[0]) > limit then [] else [lines[0]] + Short(lines[1..], limit)
  }

  predicate AllShort(lines: seq<string>, limit: nat) {
    forall l <- lines :: Size(l) <= limit
  }

  lemma EncodedIsUnbroken(line: string)
    requires Plain(line)
    ensures Unbroken(Encode(line))
  {
  }

  lemma PrintStart(lines: seq<string>)
    requires forall l <- lines :: Plain(l)
    ensures Print(lines, Cr) != [] ==> Print(lines, Cr)[0] != LF
  {
    if lines != [] {
      EncodedIsUnbroken(lines[0]);
    }
  }

  /** A printed line in front of other bytes is the first line read, whatever the terminator. */
  lemma LineThen(line: string, more: Bytes, t: Terminator, tail: SseLines.Tail, limit: nat)
    requires Plain(line) && Size(line) <= limit
    requires t.Cr? && more != [] ==> more[0] != LF
    ensures var after := Lines(more, tail, limit);
      Lines(Encode(line) + Mark(t) + more, tail, limit) == Script([line] + after.lines, after.end)
  {
    hide Lines, Decode, Encode;
    var e := Encode(line);
    EncodedIsUnbroken(line);
    SizeIsEncodedLength(line);
    DecodeOfEncode(line);
    var x := Mark(t)[0];
    var rest := if t.CrLf? then [LF] + more else more;
    assert e + Mark(t) + more == e + ([x] + rest);
    PendingAtBreak(e, x, rest, tail, limit);
    assert Joined(e, false, [x] + rest) == e + ([x] + rest);
    assert Joined([], x == CR, rest) == more;
  }

  lemma PrintedLine(line: string, rest: seq<string>, t: Terminator, limit: nat)
    requires Plain(line) && Size(line) <= limit
    requires forall l <- rest :: Plain(l)
    ensures var after := Lines(Print(rest, t), Exhausted, limit);
      Lines(Print([line] + rest, t), Exhausted, limit) == Script([line] + after.lines, after.end)
  {
    hide Lines;
    assert ([line] + rest)[1..] == rest;
    PrintStart(rest);
    LineThen(line, Print(rest, t), t, Exhausted, limit);
  }

  lemma PrintOn(line: string, rest: seq<string>, t: Terminator, more: Bytes)
    ensures Print([line] + rest, t) + more == Encode(line) + Mark(t) + (Print(rest, t) + more)
  {
    hide Encode;
    assert ([line] + rest)[1..] == rest;
  }

  /** Printed lines are read first, whatever bytes follow them and however the input ends. */
  lemma {:induction false} LinesThen(lines: seq<string>, more: Bytes, t: Terminator, tail: SseLines.Tail, limit: nat)
    requires forall l <- lines :: Plain(l) && Size(l) <= limit
    requires more != [] ==> more[0] != LF
    ensures var after := Lines(more, tail, limit);
      Lines(Print(lines, t) + more, tail, limit) == Script(lines + after.lines, after.end)
    decreases |lines|
  {
    hide Lines, Size, Encode;
    var after := Lines(more, tail, limit);
    if lines == [] {
      assert Print(lines, t) + more == more && [] + after.lines == after.lines;
    } else {
      var line, rest := lines[0], lines[1..];
      assert lines == [line] + rest && line in lines;
      assert forall l <- rest :: l in lines;
      LinesThen(rest, more, t, tail, limit);
      PrintStart(rest);
      PrintOn(line, rest, t, more);
      hide Print, Plain;
      LineThen(line, Print(rest, t) + more, t, tail, limit);
      assert [line] + (rest + after.lines) == lines + after.lines;
    }
  }

  /**
   * After the last terminator: nothing, or a line without one, which is read at the end of the input if it
   * is text and not too long; a transport failure takes it away.
   */
  lemma OpenLine(lines: seq<string>, last: Bytes, t: Terminator, tail: SseLines.Tail, limit: nat)
    requires (forall l <- lines :: Plain(l) && Size(l) <= limit) && Unbroken(last)
    ensures Lines(Print(lines, t) + last, tail, limit)
         == if |last| > limit then Script(lines, TooLarge)
            else if tail.Broken? then Script(lines, Lost(tail.timeout))
            else if last == [] then Script(lines, Eof)
            else if Decode(last).None? then Script(lines, InvalidUtf8)
            else Script(lines + [Decode(last).value], Eof)
  {
    LinesThen(lines, last, t, tail, limit);
    BreakAfterPrefix(last, []);
    assert last + [] == last;
    hide Decode, Size;
    assert lines + [] == lines;
  }

  /** A line that is no text ends the reading, whatever follows. */
  lemma BadLine(lines: seq<string>, bad: Bytes, x: Byte, more: Bytes, t: Terminator, tail: SseLines.Tail, limit: nat)
    requires forall l <- lines :: Plain(l) && Size(l) <= limit
    requires Unbroken(bad) && bad != [] && |bad| <= limit && Breaks(x) && Decode(bad).None?
    ensures Lines(Print(lines, t) + (bad + [x] + more), tail, limit) == Script(lines, InvalidUtf8)
  {
    var rest := bad + [x] + more;
    LinesThen(lines, rest, t, tail, limit);
    BreakAfterPrefix(bad, [x] + more);
    assert bad + ([x] + more) == rest && rest[..|bad|] == bad;
    hide Decode, Size;
    assert lines + [] == lines;
  }

  lemma PrintedLongLine(line: string, rest: seq<string>, t: Terminator, limit: nat)
    requires Plain(line) && Size(line) > limit
    ensures Lines(Print([line] + rest, t), Exhausted, limit) == Script([], TooLarge)
  {
    EncodedIsUnbroken(line);
    SizeIsEncodedLength(line);
    assert ([line] + rest)[1..] == rest;
    var more := Mark(t) + Print(rest, t);
    assert Print([line] + rest, t) == Encode(line) + more;
    BreakAfterPrefix(Encode(line), more);
  }

  lemma {:induction false} PrintedLines(lines: seq<string>, t: Terminator, limit: nat)
    requires forall l <- lines :: Plain(l)
    ensures Lines(Print(lines, t), Exhausted, limit)
         == Script(Short(lines, limit), if AllShort(lines, limit) then Eof else TooLarge)
  {
    if lines != [] {
      assert [lines[0]] + lines[1..] == lines;
      if Size(lines[0]) > limit {
        PrintedLongLine(lines[0], lines[1..], t, limit);
      } else {
        PrintedLine(lines[0], lines[1..], t, limit);
        PrintedLines(lines[1..], t, limit);
      }
    }
  }

  // ---------------------------------------------------------------------------------------------
  // Lines back to payloads
  // ---------------------------------------------------------------------------------------------

  lemma {:induction false} JoinOfPieces(payload: string)
    ensures Join(Pieces(payload)) == payload
  {
    if payload != "" {
      JoinOfPieces(payload[1..]);
      var rest := Pieces(payload[1..]);
      if payload[0] == '\n' {
        assert ([""] + rest)[1..] == rest;
        assert "" + "\n" + Join(rest) == payload;
      } else if |rest| > 1 {
        var all := [[payload[0]] + rest[0]] + rest[1..];
        assert all[1..] == rest[1..];
        assert [payload[0]] + rest[0] + "\n" + Join(rest[1..]) == [payload[0]] + Join(rest);
      }
    }
  }

  lemma {:induction false} PiecesArePlain(payload: string)
    requires '\r' !in payload
    ensures forall p <- Pieces(payload) :: Plain(p)
  {
    if payload != "" {
      PiecesArePlain(payload[1..]);
      var rest := Pieces(payload[1..]);
      assert Plain(rest[0]) && payload[0] != '\r';
      assert payload[0] != '\n' ==> Plain([payload[0]] + rest[0]);
      assert Plain("");
    }
  }

  lemma FieldPlain(name: string, value: string, tight: bool)
    requires Plain(name) && Plain(value)
    ensures Plain(Field(name, value, tight))
  {
  }

  lemma DataLinesPlain(pieces: seq<string>, tight: bool)
    requires forall p <- pieces :: Plain(p)
    ensures forall l <- DataLines(pieces, tight) :: Plain(l)
  {
    forall l <- DataLines(pieces, tight)
      ensures Plain(l)
    {
      var i :| 0 <= i < |pieces| && l == Field("data", pieces[i], tight);
      FieldPlain("data", pieces[i], tight);
    }
  }

  /** A printed field is read back: its name, and its value without the printer's space. */
  lemma FieldReads(name: string, value: string, tight: bool)
    requires name == "data" || name == "event"
    ensures var line := Field(name, value, tight);
      FieldName(line) == name && FieldValue(line) == value && WithoutBom(line) == line && line != ""
  {
    var line := Field(name, value, tight);
    var i := Colon(line);
    assert line[|name|] == ':';
    assert forall j | 0 <= j < |name| :: line[j] == name[j] != ':';
    assert i == |name|;
    assert line[..|name|] == name;
    assert line[|name| + 1..] == (if line == name + ":" + value then value else " " + value);
    assert line == name + ": " + value ==> line[|name| + 2..] == value;
  }

  /** A payload and a name that can be sent. */
  predicate Sendable(e: Sent) {
    '\r' !in e.payload && (e.name.Some? ==> Plain(e.name.value))
  }

  lemma EventLinesPlain(e: Sent)
    requires Sendable(e)
    ensures forall l <- EventLines(e) :: Plain(l)
  {
    PiecesArePlain(e.payload);
    DataLinesPlain(Pieces(e.payload), e.tight);
    if e.name.Some? {
      FieldPlain("event", e.name.value, e.tight);
    }
  }

  lemma {:induction false} StreamLinesPlain(events: seq<Sent>, tail: Rest)
    requires (forall e <- events :: Sendable(e)) && (tail.Halfway? ==> Sendable(tail.last))
    ensures forall l <- StreamLines(events, tail) :: Plain(l)
  {
    hide EventLines;
    assert Plain("");
    if events != [] {
      EventLinesPlain(events[0]);
      StreamLinesPlain(events[1..], tail);
    } else if tail.Halfway? {
      EventLinesPlain(tail.last);
    } else if tail.Terminated? {
      assert Plain(DONE);
      DataLinesPlain([DONE], false);
    }
  }

  lemma {:induction false} ShortConcat(a: seq<string>, b: seq<string>, limit: nat)
    ensures Short(a + b, limit) == if AllShort(a, limit) then a + Short(b, limit) else Short(a, limit)
  {
    if a == [] {
      assert a + b == b;
    } else {
      assert (a + b)[1..] == a[1..] + b;
      assert AllShort(a, limit) <==> Size(a[0]) <= limit && AllShort(a[1..], limit);
      ShortConcat(a[1..], b, limit);
    }
  }

  /** The pieces of one payload are collected, unless they grow too large on the way. */
  lemma {:induction false} RunPieces<J>(decode: Decoder<J>, data: seq<string>, name: string, first: bool,
      pieces: seq<string>, tight: bool, rest: seq<string>, end: End, limit: nat)
    requires Size(Join(data)) <= limit && pieces != []
    ensures Run(decode, Pend(data, name), first, DataLines(pieces, tight) + rest, end, limit)
         == if Size(Join(data + pieces)) > limit then Trace([], OVERSIZE)
            else Run(decode, Pend(data + pieces, name), false, rest, end, limit)
    decreases |pieces|
  {
    hide AtEnd, Dispatch, Join, Size, Colon, WithoutBom, Field;
    var line, after := Field("data", pieces[0], tight), DataLines(pieces[1..], tight) + rest;
    FieldReads("data", pieces[0], tight);
    assert DataLines(pieces, tight) + rest == [line] + after;
    RunLine(decode, Pend(data, name), first, line, after, end, limit);
    var data' := data + [pieces[0]];
    if |pieces| == 1 {
      assert data' == data + pieces;
      assert after == rest;
    } else {
      assert data' + pieces[1..] == data + pieces;
      if Size(Join(data')) > limit {
        GrowsOnly(data', pieces[1..]);
      } else {
        RunPieces(decode, data', name, false, pieces[1..], tight, rest, end, limit);
      }
    }
  }

  /** The name of an event is kept until its end. */
  lemma RunName<J>(decode: Decoder<J>, first: bool, e: Sent, rest: seq<string>, end: End, limit: nat)
    ensures Run(decode, NOTHING, first, NameLines(e) + rest, end, limit)
         == Run(decode, Pend([], Reported(e, "")), first && e.name.None?, rest, end, limit)
  {
    hide AtEnd, Dispatch, Join, Size, Colon, WithoutBom, Field;
    if e.name.Some? {
      var line := Field("event", e.name.value, e.tight);
      FieldReads("event", e.name.value, e.tight);
      RunLine(decode, NOTHING, first, line, rest, end, limit);
    } else {
      assert NameLines(e) + rest == rest;
    }
  }

  lemma {:induction false} GrowsOnly(data: seq<string>, more: seq<string>)
    ensures Size(Join(data)) <= Size(Join(data + more))
    decreases |more|
  {
    if more == [] {
      assert data + more == data;
    } else {
      JoinSize(data, more[0]);
      GrowsOnly(data + [more[0]], more[1..]);
      assert data + [more[0]] + more[1..] == data + more;
    }
  }

  /** Lines of one event that end in a line too long are an event too large. */
  lemma {:induction false} RunIntoLongLine<J>(
      decode: Decoder<J>, p: Pend, first: bool, pieces: seq<string>, tight: bool, limit: nat)
    ensures Run(decode, p, first, Short(DataLines(pieces, tight), limit), TooLarge, limit) == Trace([], OVERSIZE)
    decreases |pieces|
  {
    if pieces != [] && Size(Field("data", pieces[0], tight)) <= limit {
      hide Field;
      var line := Field("data", pieces[0], tight);
      var rest := Short(DataLines(pieces[1..], tight), limit);
      FieldReads("data", pieces[0], tight);
      assert DataLines(pieces, tight)[1..] == DataLines(pieces[1..], tight);
      assert Short(DataLines(pieces, tight), limit) == [line] + rest;
      RunLine(decode, p, first, line, rest, TooLarge, limit);
      var p' := Feed(p, line, limit);
      if p'.Some? {
        RunIntoLongLine(decode, p'.value, false, pieces[1..], tight, limit);
      }
    }
  }

  lemma RunEventIntoLongLine<J>(decode: Decoder<J>, first: bool, e: Sent, limit: nat)
    ensures Run(decode, NOTHING, first, Short(EventLines(e), limit), TooLarge, limit) == Trace([], OVERSIZE)
  {
    hide Run, Field, Short, Size;
    var lines := DataLines(Pieces(e.payload), e.tight);
    ShortConcat(NameLines(e), lines, limit);
    if AllShort(NameLines(e), limit) {
      RunName(decode, first, e, Short(lines, limit), TooLarge, limit);
      RunIntoLongLine(decode, Pend([], Reported(e, "")), first && e.name.None?, Pieces(e.payload), e.tight, limit);
    } else {
      assert Short(NameLines(e), limit) == [] by {
        LongName(e, limit);
      }
      RunNone(decode, first, limit);
    }
  }

  lemma LongName(e: Sent, limit: nat)
    requires !AllShort(NameLines(e), limit)
    ensures Short(NameLines(e), limit) == []
  {
  }

  lemma RunNone<J>(decode: Decoder<J>, first: bool, limit: nat)
    ensures Run(decode, NOTHING, first, [], TooLarge, limit) == Trace([], OVERSIZE)
  {
  }

  /** The lines of one event: too large, or pending with its name. */
  lemma RunEventLines<J>(decode: Decoder<J>, first: bool, e: Sent, rest: seq<string>, end: End, limit: nat)
    ensures Run(decode, NOTHING, first, EventLines(e) + rest, end, limit)
         == if Size(e.payload) > limit then Trace([], OVERSIZE)
            else Run(decode, Pend(Pieces(e.payload), Reported(e, "")), false, rest, end, limit)
  {
    hide Run, Size;
    var pieces := Pieces(e.payload);
    JoinOfPieces(e.payload);
    assert [] + pieces == pieces;
    var lines := DataLines(pieces, e.tight);
    assert EventLines(e) + rest == NameLines(e) + (lines + rest);
    RunName(decode, first, e, lines + rest, end, limit);
    NothingPending(decode);
    assert Size(Join([])) == 0 by {
      EmptySize();
    }
    RunPieces(decode, [], Reported(e, ""), first && e.name.None?, pieces, e.tight, rest, end, limit);
  }

  lemma EmptySize()
    ensures Size(Join([])) == 0
  {
  }

  /** What the pending lines of an event come to. */
  lemma DispatchHas<J>(decode: Decoder<J>, e: Sent, limit: nat)
    requires Fits(e, limit)
    ensures var d := Dispatch(decode, Pieces(e.payload), Reported(e, ""));
      match EffectOf(decode, e, limit) {
        case Nothing => d == Skip
        case Gives(value) => d == Yield(value)
        case Ends(final) => (d.Terminal? || d.Bad? || d.Failed?) && Closing(d) == final
      }
  {
    hide Fits, Strip, Lower, SaysError, Says, Blank;
    JoinOfPieces(e.payload);
    StripBlank(e.payload);
    DoneIsVisible();
    StripSays(e.payload, DONE);
    if e.name.Some? {
      LowerSaysError(e.name.value);
    }
    EmptyIsNoError();
  }

  lemma DoneIsVisible()
    ensures !Space(DONE[0]) && !Space(DONE[|DONE| - 1]) && DONE == "[DONE]"
  {
  }

  lemma EmptyIsNoError()
    ensures Lower(Strip("")) != "error"
  {
    assert Lower(Strip("")) == "";
  }

  /** One event in front of a stream. */
  lemma RunEvent<J>(decode: Decoder<J>, first: bool, e: Sent, rest: seq<string>, end: End, limit: nat)
    requires AllShort(EventLines(e), limit)
    ensures var t := Run(decode, NOTHING, first, EventLines(e) + [""] + rest, end, limit);
      var after := Run(decode, NOTHING, false, rest, end, limit);
      t == match EffectOf(decode, e, limit) {
             case Nothing => after
             case Ends(final) => Trace([], final)
             case Gives(value) => Trace([value] + after.objects, after.final)
           }
  {
    hide EffectOf, EventLines, Dispatch, Size;
    assert EventLines(e) + [""] + rest == EventLines(e) + ([""] + rest);
    RunEventLines(decode, first, e, [""] + rest, end, limit);
    if Size(e.payload) > limit {
      LargeEnds(decode, e, limit);
    } else {
      DispatchHas(decode, e, limit);
      RunLine(decode, Pend(Pieces(e.payload), Reported(e, "")), false, "", rest, end, limit);
    }
  }

  lemma LargeEnds<J>(decode: Decoder<J>, e: Sent, limit: nat)
    requires !Fits(e, limit)
    ensures EffectOf(decode, e, limit) == Ends(OVERSIZE)
  {
  }

  lemma {:induction false} AsciiSize(s: string)
    requires forall i | 0 <= i < |s| :: s[i] as int < 0x80
    ensures Size(s) == |s|
  {
    if s != [] {
      AsciiSize(s[1..]);
    }
  }

  lemma TerminalIsShort(limit: nat)
    requires 12 <= limit
    ensures AllShort(TailLines(Terminated), limit) && Size(DONE) <= limit
    ensures TailLines(Terminated) == EventLines(Sent(None, DONE, false)) + [""]
  {
    hide Size;
    AsciiSize("data: " + DONE);
    AsciiSize(DONE);
    AsciiSize("");
    OnePiece(DONE);
    TerminalLines();
  }

  lemma TerminalLines()
    ensures TailLines(Terminated) == ["data: " + DONE, ""]
    ensures NameLines(Sent(None, DONE, false)) + DataLines([DONE], false) == DataLines([DONE], false)
  {
    assert Field("data", DONE, false) == "data: " + DONE by {
      assert "data" + ": " == "data: ";
    }
    hide Field;
    assert DataLines([DONE], false) == [Field("data", DONE, false)];
  }

  lemma {:induction false} OnePiece(payload: string)
    requires '\n' !in payload
    ensures Pieces(payload) == [payload]
  {
    if payload != "" {
      OnePiece(payload[1..]);
      assert [payload[0]] + payload[1..] == payload;
    }
  }

  lemma DoneEnds<J>(decode: Decoder<J>, limit: nat)
    requires Fits(Sent(None, DONE, false), limit)
    ensures EffectOf(decode, Sent(None, DONE, false), limit) == Ends(Done)
  {
    hide Fits, Strip, Says, Blank;
    DoneIsVisible();
    StripSays(DONE, DONE);
    StripBlank(DONE);
    assert Strip(DONE) == DONE by {
      DoneIsTrimmed();
    }
  }

  lemma DoneIsTrimmed()
    ensures Strip(DONE) == DONE
  {
  }

  lemma AllShortConcat(a: seq<string>, b: seq<string>, limit: nat)
    ensures AllShort(a + b, limit) <==> AllShort(a, limit) && AllShort(b, limit)
  {
  }

  lemma {:induction false} ShortOfAllShort(lines: seq<string>, limit: nat)
    requires AllShort(lines, limit)
    ensures Short(lines, limit) == lines
  {
    if lines != [] {
      ShortOfAllShort(lines[1..], limit);
    }
  }

  function EndOf(lines: seq<string>, limit: nat): End {
    if AllShort(lines, limit) then Eof else TooLarge
  }

  /** The lines at the end of a stream. */
  lemma RunTail<J>(decode: Decoder<J>, first: bool, tail: Rest, limit: nat)
    requires 12 <= limit
    ensures var lines := TailLines(tail);
      Run(decode, NOTHING, first, Short(lines, limit), EndOf(lines, limit), limit)
      == Trace([], TailFinal(decode, tail, limit))
  {
    hide Run, Dispatch, Size, Short, AllShort, EffectOf, EventLines, TailLines;
    match tail {
      case Terminated =>
        TerminalIsShort(limit);
        ShortOfAllShort(TailLines(tail), limit);
        var done := Sent(None, DONE, false);
        AllShortConcat(EventLines(done), [""], limit);
        assert EventLines(done) + [""] + [] == TailLines(tail);
        RunEvent(decode, first, done, [], Eof, limit);
        DoneEnds(decode, limit);
      case Stopped =>
        NoLines(limit);
        RunStopped(decode, first, limit);
      case Halfway(last) =>
        HalfwayLines(last);
        RunHalfway(decode, first, last, limit);
    }
  }

  lemma NoLines(limit: nat)
    ensures TailLines(Rest.Stopped) == [] && Short([], limit) == [] && AllShort([], limit)
  {
  }

  lemma HalfwayLines(last: Sent)
    ensures TailLines(Halfway(last)) == EventLines(last)
  {
  }

  lemma RunStopped<J>(decode: Decoder<J>, first: bool, limit: nat)
    ensures Run(decode, NOTHING, first, [], Eof, limit) == Trace([], PrematureEof)
  {
  }

  lemma RunHalfway<J>(decode: Decoder<J>, first: bool, last: Sent, limit: nat)
    ensures var lines := EventLines(last);
      Run(decode, NOTHING, first, Short(lines, limit), EndOf(lines, limit), limit)
      == Trace([], TailFinal(decode, Halfway(last), limit))
  {
    hide Dispatch, Size, Short, AllShort, EffectOf, EventLines;
    var lines := EventLines(last);
    if AllShort(lines, limit) {
      ShortOfAllShort(lines, limit);
      assert lines + [] == lines;
      RunEventLines(decode, first, last, [], Eof, limit);
      if Size(last.payload) > limit {
        LargeEnds(decode, last, limit);
      } else {
        DispatchHas(decode, last, limit);
      }
    } else {
      RunEventIntoLongLine(decode, first, last, limit);
      LargeEnds(decode, last, limit);
    }
  }

  lemma {:induction false} RunStream<J>(decode: Decoder<J>, first: bool, events: seq<Sent>, tail: Rest, limit: nat)
    requires 12 <= limit
    ensures var lines := StreamLines(events, tail);
      Run(decode, NOTHING, first, Short(lines, limit), EndOf(lines, limit), limit)
      == Consume(decode, events, tail, limit)
    decreases |events|
  {
    hide Run, Dispatch, Size, Short, AllShort, EffectOf, EventLines, TailLines;
    var lines := StreamLines(events, tail);
    if events == [] {
      RunTail(decode, first, tail, limit);
    } else {
      var e, rest := events[0], StreamLines(events[1..], tail);
      var head := EventLines(e) + [""];
      BlankIsShort(limit);
      ShortConcat(head, rest, limit);
      ShortConcat(EventLines(e), [""], limit);
      AllShortConcat(EventLines(e), [""], limit);
      AllShortConcat(head, rest, limit);
      if AllShort(EventLines(e), limit) {
        RunEvent(decode, first, e, Short(rest, limit), EndOf(lines, limit), limit);
        RunStream(decode, false, events[1..], tail, limit);
      } else {
        RunEventIntoLongLine(decode, first, e, limit);
        LargeEnds(decode, e, limit);
      }
    }
  }

  lemma BlankIsShort(limit: nat)
    ensures Short([""], limit) == [""] && AllShort([""], limit)
  {
  }

  // ---------------------------------------------------------------------------------------------
  // Other lines
  // ---------------------------------------------------------------------------------------------

  /** A line of a field that a stream carries; without a colon the whole line is the field's name. */
  predicate Carries(line: string, name: string) {
    line == name || name + ":" <= line
  }

  lemma NameIs(line: string, name: string)
    requires ':' !in name
    ensures FieldName(line) == name <==> Carries(line, name)
  {
    var i := Colon(line);
    if Carries(line, name) {
      assert forall j | 0 <= j < |name| :: line[j] == name[j] != ':';
      assert line != name ==> line[|name|] == (name + ":")[|name|] == ':';
      assert i == |name|;
      assert line[..i] == name;
    }
    if FieldName(line) == name && i < |line| {
      assert line[..i + 1] == name + ":";
    }
  }

  /** Comments, `id`, `retry` and unknown fields change nothing. */
  lemma OtherLine<J>(decode: Decoder<J>, p: Pend, line: string, rest: seq<string>, end: End, limit: nat)
    requires line != "" && !Carries(line, "data") && !Carries(line, "event")
    ensures Run(decode, p, false, [line] + rest, end, limit) == Run(decode, p, false, rest, end, limit)
  {
    NameIs(line, "data");
    NameIs(line, "event");
    RunLine(decode, p, false, line, rest, end, limit);
  }

  /** A byte order mark in front of the first line is dropped, and only there. */
  lemma MarkedLine<J>(decode: Decoder<J>, p: Pend, line: string, rest: seq<string>, end: End, limit: nat)
    ensures Run(decode, p, true, [[0xFEFF as char] + line] + rest, end, limit)
         == Run(decode, p, false, [line] + rest, end, limit)
  {
    var marked := [0xFEFF as char] + line;
    assert WithoutBom(marked) == line;
    assert ([marked] + rest)[1..] == rest && ([line] + rest)[1..] == rest;
  }

  /**
   * Printed with any terminator, tightly or not, and read in any chunks, events with payloads without
   * carriage returns are handed to the decoder one by one; named or not, each does what it should,
   * and so does a stream that breaks off.
   */
  lemma RoundTrip<J>(
      decode: Decoder<J>, events: seq<Sent>, tail: Rest, t: Terminator, arrivals: seq<Arrival>, limit: nat)
    requires 12 <= limit
    requires (forall e <- events :: Sendable(e)) && (tail.Halfway? ==> Sendable(tail.last))
    requires Content(arrivals) == Print(StreamLines(events, tail), t) && Ending(arrivals) == Exhausted
    ensures Whole(decode, Content(arrivals), Ending(arrivals), limit) == Consume(decode, events, tail, limit)
  {
    StreamLinesPlain(events, tail);
    PrintedLines(StreamLines(events, tail), t, limit);
    RunStream(decode, true, events, tail, limit);
  }
}
