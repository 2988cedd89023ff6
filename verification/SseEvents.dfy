/** The fields of an SSE frame, the reader loops, and the way back from an event to its frame. */
module SseEvents {
  import opened Wrappers
  import opened Sse

  datatype Event = Event(eventType: string, data: string, id: Option<string>)

  // ------------------------------------------------------------- lines

  function StripCr(line: string): string {
    if line != "" && line[|line| - 1] == '\r' then line[..|line| - 1] else line
  }

  /** Lines end at LF or CR LF; the last one need not be ended, and then keeps its CR. */
  function Lines(s: string): seq<string>
    decreases |s|
  {
    match FindText(s, LF)
    case None => if s == "" then [] else [s]
    case Some(i) => [StripCr(s[..i])] + Lines(s[i + 1..])
  }

  function Join(lines: seq<string>): string {
    if |lines| == 0 then "" else if |lines| == 1 then lines[0] else lines[0] + LF + Join(lines[1..])
  }

  // ------------------------------------------------------------- fields

  datatype Fields = Fields(eventType: string, data: seq<string>, id: Option<string>)

  const BLANK := Fields("", [], None)

  const DATA: string := "data:"
  const EVENT: string := "event:"
  const ID: string := "id:"

  function StripSpace(value: string): string {
    if StartsWith(value, " ") then value[1..] else value
  }

  function ReadLine(f: Fields, line: string): Fields {
    if StartsWith(line, ":") then f
    else if StartsWith(line, DATA) then f.(data := f.data + [StripSpace(line[5..])])
    else if StartsWith(line, EVENT) then f.(eventType := StripSpace(line[6..]))
    else if StartsWith(line, ID) then f.(id := Some(StripSpace(line[3..])))
    else f
  }

  function ReadLines(lines: seq<string>): Fields {
    if lines == [] then BLANK else ReadLine(ReadLines(lines[..|lines| - 1]), lines[|lines| - 1])
  }

  function Parsed(frame: string): Option<Event> {
    var f := ReadLines(Lines(frame));
    if f.data == [] then None else Some(Event(f.eventType, Join(f.data), f.id))
  }

  method ParseFrame(frame: string) returns (event: Option<Event>)
    ensures event == Parsed(frame)
  {
    var eventType, dataLines, id := "", [], None;
    var lines := Lines(frame);
    var i := 0;
    while i < |lines|
      invariant i <= |lines| && ReadLines(lines[..i]) == Fields(eventType, dataLines, id)
    {
      var line := lines[i];
      assert lines[..i + 1][..i] == lines[..i];
      i := i + 1;
      if StartsWith(line, ":") {
        continue;
      }
      if StartsWith(line, DATA) {
        dataLines := dataLines + [StripSpace(line[5..])];
      } else if StartsWith(line, EVENT) {
        eventType := StripSpace(line[6..]);
      } else if StartsWith(line, ID) {
        id := Some(StripSpace(line[3..]));
      }
    }
    assert lines[..i] == lines;
    if dataLines == [] {
      return None;
    }
    event := Some(Event(eventType, Join(dataLines), id));
  }

  /** The events among the frames, in order. */
  function Events(frames: seq<string>): seq<Event> {
    if frames == [] then []
    else Found(Parsed(frames[0])) + Events(frames[1..])
  }

  function Found(event: Option<Event>): seq<Event> {
    if event.Some? then [event.value] else []
  }

  lemma {:induction false} EventsConcat(f: seq<string>, g: seq<string>)
    ensures Events(f + g) == Events(f) + Events(g)
  {
    hide Parsed, Found;
    if f == [] {
      assert f + g == g;
    } else {
      EventsConcat(f[1..], g);
      assert (f + g)[1..] == f[1..] + g;
    }
  }

  // ------------------------------------------------------------- the reader

  lemma TakeFrame(buffer: string)
    requires FindFrameEnd(buffer).Some?
    ensures var k := FindFrameEnd(buffer).value;
      && k <= |buffer| && 0 < k + DelimiterLength(buffer, k) <= |buffer|
      && var rest := buffer[k + DelimiterLength(buffer, k)..];
        && Events(Frames(buffer)) == Found(Parsed(buffer[..k])) + Events(Frames(rest))
        && Left(buffer) == Left(rest)
  {
    hide Parsed, Found, FindFrameEnd, Frames, Left, DelimiterLength;
    CutStep(buffer);
    var Complete(frame, used) := NextFrame(buffer);
    FirstPiece(buffer);
    assert ([frame] + Frames(buffer[used..]))[1..] == Frames(buffer[used..]);
  }

  /** The text stream of one connection: `parse_sse_chunk` appends to the buffer and drains it. */
  class Feed {
    var buffer: string

    constructor ()
      ensures buffer == ""
    {
      buffer := "";
    }

    method ParseChunk(chunk: string) returns (events: seq<Event>)
      modifies this
      ensures events == Events(Frames(old(buffer) + chunk))
      ensures buffer == Left(old(buffer) + chunk)
    {
      hide Parsed, FindFrameEnd, Events, Frames, Left;
      buffer := buffer + chunk;
      events := [];
      ghost var text := buffer;
      while FindFrameEnd(buffer).Some?
        invariant Events(Frames(text)) == events + Events(Frames(buffer))
        invariant Left(text) == Left(buffer)
        decreases |buffer|
      {
        TakeFrame(buffer);
        var frameEnd := FindFrameEnd(buffer).value;
        var frame := buffer[..frameEnd];
        var delimiter := if StartsWith(buffer[frameEnd..], CRLFCRLF) then 4 else 2;
        buffer := buffer[frameEnd + delimiter..];
        var event := ParseFrame(frame);
        if event.Some? {
          events := events + [event.value];
        }
      }
      NothingToTake(buffer);
    }
  }

  lemma NothingToTake(buffer: string)
    requires FindFrameEnd(buffer).None?
    ensures Events(Frames(buffer)) == [] && Left(buffer) == buffer
  {
    CutStep(buffer);
  }

  function Joined(chunks: seq<string>): string {
    if chunks == [] then "" else Joined(chunks[..|chunks| - 1]) + chunks[|chunks| - 1]
  }

  /**
   Chunk invariance: however the text is cut into chunks, the events delivered and the
   final buffer are those of the whole text.
   */
  method ReadStream(chunks: seq<string>) returns (events: seq<Event>, rest: string)
    ensures events == Events(Frames(Joined(chunks)))
    ensures rest == Left(Joined(chunks))
  {
    hide Events, Frames, Left;
    var feed := new Feed();
    events := [];
    Nothing();
    var i := 0;
    while i < |chunks|
      invariant i <= |chunks| && fresh(feed)
      invariant events == Events(Frames(Joined(chunks[..i]))) && feed.buffer == Left(Joined(chunks[..i]))
    {
      var more := feed.ParseChunk(chunks[i]);
      assert chunks[..i + 1][..i] == chunks[..i];
      CutSplit(Joined(chunks[..i]), chunks[i]);
      EventsConcat(Frames(Joined(chunks[..i])), Frames(Left(Joined(chunks[..i])) + chunks[i]));
      events := events + more;
      i := i + 1;
    }
    assert chunks[..i] == chunks;
    rest := feed.buffer;
  }

  lemma Nothing()
    ensures Events(Frames("")) == [] && Left("") == ""
  {
    CutStep("");
    FrameEndIsFirst("");
  }
}
