// The closeable iterator over a chat stream's JSON objects (src/deepintshield/streaming.py,
// `ChatCompletionStream`).

module ChatStream {
  import opened Common
  import opened Utf8
  import opened SseLines
  import opened ChatEvents

  /** What one `__next__` gives: an object, the end of iteration, or an error. */
  datatype Result<J> = Yielded(value: J) | Stopped | Raised(final: Final) | ClientClosed

  /** Everything a stream over a body yields, and how it ends. */
  ghost function Whole<J>(decode: Decoder<J>, body: Bytes, tail: Tail, limit: nat): Trace<J> {
    var script := Lines(body, tail, limit);
    Run(decode, NOTHING, true, script.lines, script.end, limit)
  }

  class Stream<!J> {
    const decode: Decoder<J>
    const reader: LineReader
    var dataLines: seq<string>
    var dataBytes: nat
    var eventName: string
    var firstLine: bool
    var terminalReceived: bool
    var closed: bool
    var released: bool     // the response was closed, here or by its client
    var ownerClosed: bool

    /** Between two calls no event is pending; a drained body leaves no line behind. */
    ghost predicate Valid() reads this, reader {
      && reader.Valid()
      && (closed ==> released)
      && dataBytes == 0 && dataLines == []
      && (!closed ==> eventName == "" && !terminalReceived)
      && (!closed && reader.drained ==> reader.Ahead() == Script([], Eof))
    }

    /** What an open stream still yields, and how it ends. */
    ghost function Ahead(): Trace<J>
      requires reader.Valid()
      reads this, reader
    {
      Run(decode, Pend(dataLines, eventName), firstLine, reader.Ahead().lines, reader.Ahead().end, reader.limit)
    }

    constructor (decode: Decoder<J>, arrivals: seq<Arrival>, limit: nat)
      ensures Valid() && fresh(reader) && !closed && !released && !ownerClosed
      ensures Ahead() == Whole(decode, Content(arrivals), Ending(arrivals), limit)
    {
      this.decode := decode;
      reader := new LineReader(arrivals, limit);
      dataLines, dataBytes, eventName, firstLine := [], 0, "", true;
      terminalReceived, closed, released, ownerClosed := false, false, false, false;
    }

    /** Release the response; calling it again changes nothing. */
    method Close()
      modifies `closed, `released, `dataLines, `dataBytes
      ensures closed
      ensures old(closed) ==> unchanged(this)
      ensures !old(closed) ==> released && dataLines == [] && dataBytes == 0
    {
      if closed {
        return;
      }
      closed := true;
      dataLines, dataBytes := [], 0;
      released := true;
    }

    /** `_decode_pending_event`: the pending event is gone whatever it was; a failure closes the stream. */
    method DecodePending() returns (e: Event<J>)
      requires !closed && !terminalReceived
      modifies `closed, `released, `dataLines, `dataBytes, `eventName, `terminalReceived
      ensures e == Dispatch(decode, old(dataLines), old(eventName))
      ensures dataLines == [] && dataBytes == 0 && eventName == ""
      ensures terminalReceived == e.Terminal?
      ensures if e.Bad? || e.Failed? then closed && released else closed == old(closed) && released == old(released)
    {
      var lines, name := dataLines, eventName;
      dataLines, dataBytes, eventName := [], 0, "";
      if lines == [] {
        return Skip;
      }
      var data := Join(lines);
      var text := Strip(data);
      if text == "" {
        return Skip;
      }
      if text == DONE {
        terminalReceived := true;
        return Terminal;
      }
      var decoded := decode(data);
      if decoded.NoObject? {
        Close();
        return Bad(if name == "" then "message" else name);
      }
      if Lower(Strip(name)) == "error" || decoded.marked {
        Close();
        return Failed(if name == "" then "error" else name);
      }
      return Yield(decoded.value);
    }

    /** `__next__`: the next object of the stream, or its end, after which it is and stays closed. */
    method Next() returns (r: Result<J>)
      requires Valid()
      modifies this, reader
      ensures Valid()
      ensures old(closed) ==> closed && r == Stopped
      ensures !old(closed) && old(ownerClosed) ==> closed && r == ClientClosed
      ensures !old(closed) && !old(ownerClosed) && old(released) ==> closed && r == Raised(PrematureEof)
      ensures !old(closed) && !old(ownerClosed) && !old(released) ==>
        var t := old(Ahead());
        if t.objects == [] then closed && r == (if t.final.Done? then Stopped else Raised(t.final))
        else !closed && !released && r == Yielded(t.objects[0]) && Ahead() == Trace(t.objects[1..], t.final)
      ensures ownerClosed == old(ownerClosed)
    {
      hide Dispatch, FieldName, FieldValue, Join, Size, WithoutBom, Lines, Run, AtEnd, Feed;
      NothingPending(decode);
      if closed {
        return Stopped;
      }
      if ownerClosed {
        Close();
        return ClientClosed;
      }
      if released || reader.drained {
        RunOver(decode, NOTHING, firstLine, Eof, reader.limit);
        Close();
        return Raised(PrematureEof);
      }
      while true
        invariant reader.Valid() && !closed && !released && !terminalReceived && !ownerClosed
        invariant dataBytes == Size(Join(dataLines)) <= reader.limit
        invariant Ahead() == old(Ahead())
        invariant reader.drained ==> reader.Ahead() == Script([], Eof)
        decreases |reader.Ahead().lines|
      {
        ghost var p, first := Pend(dataLines, eventName), firstLine;
        var item := reader.Next();
        ghost var script := reader.Ahead();
        if item.Over? {
          RunOver(decode, p, first, item.end, reader.limit);
          r := Finish(item.end);
          return;
        }
        RunLine(decode, p, first, item.text, script.lines, script.end, reader.limit);
        var line := item.text;
        if firstLine {
          line := WithoutBom(line);
          firstLine := false;
        }
        if line == "" {
          var e := DecodePending();
          if e.Skip? {
            continue;
          }
          if e.Terminal? {
            Close();
            return Stopped;
          }
          if e.Yield? {
            return Yielded(e.value);
          }
          return Raised(Closing(e));
        }
        var fits := Accept(line);
        if !fits {
          return Raised(OVERSIZE);
        }
      }
    }

    /**
     * A line that is not empty. The running byte count is the UTF-8 length of the joined pending
     * data and stays within the limit; a data line that would pass it closes the stream.
     */
    method Accept(line: string) returns (fits: bool)
      requires !closed && dataBytes == Size(Join(dataLines)) <= reader.limit
      modifies `closed, `released, `dataLines, `dataBytes, `eventName
      ensures Feed(old(Pend(dataLines, eventName)), line, reader.limit)
           == if fits then Some(Pend(dataLines, eventName)) else None
      ensures fits ==> !closed && released == old(released) && dataBytes == Size(Join(dataLines)) <= reader.limit
      ensures !fits ==> closed && released && dataLines == [] && dataBytes == 0
    {
      hide FieldName, FieldValue, Join, Size;
      var field, value := FieldName(line), FieldValue(line);
      if field == "data" {
        var nextSize := dataBytes + Size(value) + if dataLines == [] then 0 else 1;
        JoinSize(dataLines, value);
        if nextSize > reader.limit {
          Close();
          return false;
        }
        dataLines := dataLines + [value];
        dataBytes := nextSize;
      } else if field == "event" {
        eventName := value;
      }
      return true;
    }

    /** The lines are over: an event still pending can end the stream, but is not yielded. */
    method Finish(end: End) returns (r: Result<J>)
      requires !closed && !terminalReceived
      modifies `closed, `released, `dataLines, `dataBytes, `eventName, `terminalReceived
      ensures closed && released && dataLines == [] && dataBytes == 0
      ensures var f := AtEnd(decode, old(dataLines), old(eventName), end);
        r == if f.Done? then Stopped else Raised(f)
    {
      match end {
        case InvalidUtf8 =>
          Close();
          return Raised(InvalidEvent("invalid_utf8"));
        case TooLarge =>
          Close();
          return Raised(OVERSIZE);
        case Lost(timeout) =>
          Close();
          return Raised(Transport(timeout));
        case Eof =>
          if dataLines != [] {
            var e := DecodePending();
            if e.Terminal? {
              Close();
              return Stopped;
            }
            if e.Bad? || e.Failed? {
              return Raised(Closing(e));
            }
          }
          Close();
          return Raised(PrematureEof);
      }
    }

    /**
     * A `for` loop over the stream that leaves it after `wanted` objects: it has seen the first
     * objects of the stream, in order, and the stream is closed whichever way the loop ends.
     */
    method Iterate(wanted: nat) returns (objects: seq<J>, end: Option<Result<J>>)
      requires Valid() && !closed && !ownerClosed && !released
      modifies this, reader
      ensures Valid() && closed
      ensures var t := old(Ahead());
        if wanted <= |t.objects| then end == None && objects == t.objects[..wanted]
        else objects == t.objects && end == Some(if t.final.Done? then Stopped else Raised(t.final))
    {
      hide Run, Lines;
      objects, end := [], None;
      ghost var t := Ahead();
      while |objects| < wanted
        invariant Valid() && !closed && !ownerClosed && !released
        invariant |objects| <= wanted && objects <= t.objects
        invariant Ahead() == Trace(t.objects[|objects|..], t.final)
      {
        var r := Next();
        if !r.Yielded? {
          end := Some(r);
          break;
        }
        objects := objects + [r.value];
      }
      Close();
    }
  }

  lemma RunOver<J>(decode: Decoder<J>, p: Pend, first: bool, end: End, limit: nat)
    ensures Run(decode, p, first, [], end, limit) == Trace([], AtEnd(decode, p.data, p.name, end))
  {
  }

  lemma RunLine<J>(
      decode: Decoder<J>, p: Pend, first: bool, text: string, rest: seq<string>, end: End, limit: nat)
    ensures var t := Run(decode, p, first, [text] + rest, end, limit);
      var line := if first then WithoutBom(text) else text;
      if line == "" then
        var e := Dispatch(decode, p.data, p.name);
        var after := Run(decode, NOTHING, false, rest, end, limit);
        t == if e.Skip? then after
             else if e.Yield? then Trace([e.value] + after.objects, after.final)
             else Trace([], Closing(e))
      else
        var p' := Feed(p, line, limit);
        t == if p'.None? then Trace([], OVERSIZE) else Run(decode, p'.value, false, rest, end, limit)
  {
  }

  lemma NothingPending<J>(decode: Decoder<J>)
    ensures Dispatch(decode, [], "").Skip?
    ensures AtEnd(decode, [], "", Eof) == PrematureEof
    ensures Size(Join([])) == 0
  {
  }
}
