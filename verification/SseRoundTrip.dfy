/** What a server writes for an event is what the reader gets, through any chunking. */
module SseRoundTrip {
  import opened Wrappers
  import opened Sse
  import opened SseEvents

  // ------------------------------------------------------------- writing an event

  /** The lines of a text, ended by LF only. */
  function Split(s: string): seq<string>
    decreases |s|
  {
    match FindText(s, LF)
    case None => [s]
    case Some(i) => [s[..i]] + Split(s[i + 1..])
  }

  function Labelled(prefix: string, lines: seq<string>): seq<string> {
    seq(|lines|, i requires 0 <= i < |lines| => prefix + lines[i])
  }

  const EVENT_LABEL: string := "event: "
  const ID_LABEL: string := "id: "
  const DATA_LABEL: string := "data: "

  function Head(eventType: string, id: Option<string>): seq<string> {
    (if eventType == "" then [] else [EVENT_LABEL + eventType])
    + (if id.Some? then [ID_LABEL + id.value] else [])
  }

  function FieldLines(e: Event): seq<string> {
    Head(e.eventType, e.id) + Labelled(DATA_LABEL, Split(e.data))
  }

  function FrameOf(e: Event): string {
    Join(FieldLines(e))
  }

  function TextOf(events: seq<Event>): string {
    if events == [] then "" else FrameOf(events[0]) + LFLF + TextOf(events[1..])
  }

  // ------------------------------------------------------------- lines

  predicate OneLine(s: string) {
    '\n' !in s
  }

  lemma {:induction false} LineEnds(line: string, rest: string)
    requires OneLine(line)
    ensures FindText(line + LF + rest, LF) == Some(|line|)
    ensures FindText(line, LF) == None
  {
    var s := line + LF + rest;
    if line == "" {
      assert s[..1] == LF;
    } else {
      assert s[..1] != LF by { assert s[0] == line[0]; }
      assert line[..1] != LF by { assert line[..1][0] == line[0]; }
      assert s[1..] == line[1..] + LF + rest;
      LineEnds(line[1..], rest);
    }
  }

  lemma StartsWithLf(s: string, i: nat)
    requires i < |s|
    ensures StartsWith(s[i..], LF) <==> s[i] == '\n'
  {
    assert s[i..][..1] == [s[i]];
  }

  lemma SplitAt(s: string, n: nat)
    requires n < |s| && s[n] == '\n'
    ensures s == s[..n] + LF + s[n + 1..]
  {
  }

  lemma FirstLine(s: string)
    ensures FindText(s, LF).Some? ==>
      var i := FindText(s, LF).value; i < |s| && OneLine(s[..i]) && s == s[..i] + LF + s[i + 1..]
    ensures FindText(s, LF).None? ==> OneLine(s)
  {
    hide FindText, StartsWith;
    var n := if FindText(s, LF).Some? then FindText(s, LF).value else |s|;
    forall i | 0 <= i < n ensures s[i] != '\n' {
      FindTextFirst(s, LF, i);
      StartsWithLf(s, i);
    }
    if FindText(s, LF).Some? {
      StartsWithLf(s, n);
      SplitAt(s, n);
    }
  }

  /** Every line but the last loses a final CR. */
  function Stripped(lines: seq<string>): seq<string> {
    if |lines| <= 1 then lines else [StripCr(lines[0])] + Stripped(lines[1..])
  }

  lemma {:induction false} LinesOfJoin(lines: seq<string>)
    requires lines != [] && lines[|lines| - 1] != "" && forall l :: l in lines ==> OneLine(l)
    ensures Lines(Join(lines)) == Stripped(lines)
  {
    if |lines| == 1 {
      LineEnds(lines[0], "");
    } else {
      var rest := Join(lines[1..]);
      LineEnds(lines[0], rest);
      assert Join(lines) == lines[0] + LF + rest;
      assert Join(lines)[..|lines[0]|] == lines[0];
      assert Join(lines)[|lines[0]| + 1..] == rest;
      LinesOfJoin(lines[1..]);
    }
  }

  lemma {:induction false} SplitIsLines(s: string)
    ensures Split(s) != [] && Join(Split(s)) == s && forall l :: l in Split(s) ==> OneLine(l)
    decreases |s|
  {
    FirstLine(s);
    if FindText(s, LF).Some? {
      var i := FindText(s, LF).value;
      SplitIsLines(s[i + 1..]);
      assert Split(s)[1..] == Split(s[i + 1..]);
    }
  }

  // ------------------------------------------------------------- fields read back

  lemma ReadData(f: Fields, value: string)
    ensures ReadLine(f, DATA_LABEL + value) == f.(data := f.data + [value])
  {
    var line := DATA_LABEL + value;
    assert line[..5] == DATA && line[0] == 'd';
    assert line[..1] != ":" by { assert line[..1][0] == 'd'; }
    assert line[5..] == " " + value && (" " + value)[..1] == " " && (" " + value)[1..] == value;
  }

  lemma ReadEvent(f: Fields, value: string)
    ensures ReadLine(f, EVENT_LABEL + value) == f.(eventType := value)
  {
    var line := EVENT_LABEL + value;
    assert line[..6] == EVENT && line[0] == 'e';
    assert line[..1] != ":" by { assert line[..1][0] == 'e'; }
    assert line[..5] != DATA by { assert line[..5][0] == 'e'; }
    assert line[6..] == " " + value && (" " + value)[..1] == " " && (" " + value)[1..] == value;
  }

  lemma ReadId(f: Fields, value: string)
    ensures ReadLine(f, ID_LABEL + value) == f.(id := Some(value))
  {
    var line := ID_LABEL + value;
    assert line[..3] == ID && line[0] == 'i';
    assert line[..1] != ":" by { assert line[..1][0] == 'i'; }
    assert |line| >= 5 ==> line[..5] != DATA by { assert |line| >= 5 ==> line[..5][0] == 'i'; }
    assert |line| >= 6 ==> line[..6] != EVENT by { assert |line| >= 6 ==> line[..6][0] == 'i'; }
    assert line[3..] == " " + value && (" " + value)[..1] == " " && (" " + value)[1..] == value;
  }

  lemma {:induction false} ReadAll(head: seq<string>, data: seq<string>)
    ensures ReadLines(head + Labelled(DATA_LABEL, data)) ==
      ReadLines(head).(data := ReadLines(head).data + data)
  {
    hide ReadLine;
    var lines := head + Labelled(DATA_LABEL, data);
    if data == [] {
      assert lines == head;
    } else {
      var n := |data| - 1;
      assert lines[..|lines| - 1] == head + Labelled(DATA_LABEL, data[..n]);
      ReadAll(head, data[..n]);
      ReadData(ReadLines(lines[..|lines| - 1]), data[n]);
      assert data == data[..n] + [data[n]];
    }
  }

  // ------------------------------------------------------------- one event

  function StrippedId(id: Option<string>): Option<string> {
    if id.Some? then Some(StripCr(id.value)) else None
  }

  lemma StripLabelled(prefix: string, line: string)
    requires prefix != "" && prefix[|prefix| - 1] != '\r'
    ensures StripCr(prefix + line) == prefix + StripCr(line)
  {
    if line == "" {
      assert prefix + line == prefix;
    } else if line[|line| - 1] == '\r' {
      assert (prefix + line)[..|prefix + line| - 1] == prefix + line[..|line| - 1];
    }
  }

  lemma {:induction false} StrippedData(lines: seq<string>)
    ensures Stripped(Labelled(DATA_LABEL, lines)) == Labelled(DATA_LABEL, Stripped(lines))
  {
    hide StripCr;
    if |lines| > 1 {
      StrippedData(lines[1..]);
      StripLabelled(DATA_LABEL, lines[0]);
      assert Labelled(DATA_LABEL, lines)[1..] == Labelled(DATA_LABEL, lines[1..]);
    }
  }

  lemma StrippedCons(line: string, rest: seq<string>)
    requires rest != []
    ensures Stripped([line] + rest) == [StripCr(line)] + Stripped(rest)
  {
    assert ([line] + rest)[1..] == rest;
  }

  /** The head of a frame after its lines have lost their CR. */
  function StrippedHead(e: Event): seq<string> {
    (if e.eventType == "" then [] else [EVENT_LABEL + StripCr(e.eventType)])
    + (if e.id.Some? then [ID_LABEL + StripCr(e.id.value)] else [])
  }

  lemma StrippedFrame(e: Event)
    ensures Stripped(FieldLines(e)) == StrippedHead(e) + Labelled(DATA_LABEL, Stripped(Split(e.data)))
  {
    hide StripCr, Split;
    SplitIsLines(e.data);
    var data := Labelled(DATA_LABEL, Split(e.data));
    StrippedData(Split(e.data));
    var withId := if e.id.Some? then [ID_LABEL + e.id.value] + data else data;
    if e.id.Some? {
      StripLabelled(ID_LABEL, e.id.value);
      StrippedCons(ID_LABEL + e.id.value, data);
    }
    if e.eventType != "" {
      StripLabelled(EVENT_LABEL, e.eventType);
      StrippedCons(EVENT_LABEL + e.eventType, withId);
      assert FieldLines(e) == [EVENT_LABEL + e.eventType] + withId;
    } else {
      assert FieldLines(e) == withId;
    }
  }

  lemma ReadStrippedHead(e: Event)
    ensures ReadLines(StrippedHead(e)) == Fields(StripCr(e.eventType), [], StrippedId(e.id))
  {
    hide ReadLine;
    var h := StrippedHead(e);
    assert ReadLines([]) == BLANK;
    if e.eventType != "" {
      ReadEvent(BLANK, StripCr(e.eventType));
      var first := [EVENT_LABEL + StripCr(e.eventType)];
      assert first[..0] == [];
      assert ReadLines(first) == Fields(StripCr(e.eventType), [], None);
    }
    if e.id.Some? {
      ReadId(Fields(StripCr(e.eventType), [], None), StripCr(e.id.value));
      assert h[..|h| - 1] == if e.eventType == "" then [] else [EVENT_LABEL + StripCr(e.eventType)];
    }
  }

  predicate Labels(e: Event) {
    OneLine(e.eventType) && (e.id.Some? ==> OneLine(e.id.value))
  }

  lemma FieldLinesAreLines(e: Event)
    requires Labels(e)
    ensures var lines := FieldLines(e);
      && lines != [] && lines[|lines| - 1] != ""
      && forall l :: l in lines ==> OneLine(l) && |l| >= 4 && (l[0] == 'e' || l[0] == 'i' || l[0] == 'd')
  {
    hide Split;
    SplitIsLines(e.data);
    var lines := FieldLines(e);
    forall l | l in lines ensures OneLine(l) && |l| >= 4 && (l[0] == 'e' || l[0] == 'i' || l[0] == 'd') {
      if l in Labelled(DATA_LABEL, Split(e.data)) {
        var i :| 0 <= i < |Split(e.data)| && l == DATA_LABEL + Split(e.data)[i];
        assert Split(e.data)[i] in Split(e.data);
      }
    }
  }

  /** What a frame is read back as. */
  lemma ReadBack(e: Event)
    requires Labels(e)
    ensures Parsed(FrameOf(e)) == Some(Event(StripCr(e.eventType), Join(Stripped(Split(e.data))), StrippedId(e.id)))
  {
    hide ReadLines, Lines, StripCr, Join, Split;
    FieldLinesAreLines(e);
    LinesOfJoin(FieldLines(e));
    StrippedFrame(e);
    ReadStrippedHead(e);
    ReadAll(StrippedHead(e), Stripped(Split(e.data)));
    SplitIsLines(e.data);
    assert Stripped(Split(e.data)) != [];
    assert [] + Stripped(Split(e.data)) == Stripped(Split(e.data));
  }

  /** No CR LF inside the text. */
  predicate NoCrLf(s: string) {
    forall i :: 0 <= i < |s| - 1 ==> !(s[i] == '\r' && s[i + 1] == '\n')
  }

  lemma {:induction false} NothingStripped(s: string)
    ensures Stripped(Split(s)) == Split(s) <==> NoCrLf(s)
    decreases |s|
  {
    hide FindText;
    FirstLine(s);
    if FindText(s, LF).Some? {
      var i := FindText(s, LF).value;
      var line, rest := s[..i], s[i + 1..];
      NothingStripped(rest);
      SplitIsLines(rest);
      StrippedCons(line, Split(rest));
      NoCrLfSplits(line, rest);
      assert Stripped(Split(s))[0] == StripCr(line) && Stripped(Split(s))[1..] == Stripped(Split(rest));
    }
  }

  lemma NoCrLfSplits(line: string, rest: string)
    requires OneLine(line)
    ensures NoCrLf(line + LF + rest) <==> StripCr(line) == line && NoCrLf(rest)
  {
    var s := line + LF + rest;
    var n := |line|;
    if NoCrLf(s) {
      forall i | 0 <= i < |rest| - 1 ensures !(rest[i] == '\r' && rest[i + 1] == '\n') {
        assert rest[i] == s[n + 1 + i] && rest[i + 1] == s[n + 1 + i + 1];
      }
      if line != "" {
        assert s[n - 1] == line[n - 1] && s[n - 1 + 1] == '\n';
      }
    }
    if StripCr(line) == line && NoCrLf(rest) {
      forall i | 0 <= i < |s| - 1 ensures !(s[i] == '\r' && s[i + 1] == '\n') {
        if i < n - 1 {
          assert s[i + 1] == line[i + 1] && line[i + 1] in line;
        } else if i > n {
          assert s[i] == rest[i - n - 1] && s[i + 1] == rest[i - n - 1 + 1];
        }
      }
    }
  }

  lemma StripCrShrinks(line: string)
    ensures |StripCr(line)| <= |line|
    ensures |StripCr(line)| == |line| ==> StripCr(line) == line
  {
  }

  lemma {:induction false} StrippedShrinks(lines: seq<string>)
    ensures |Join(Stripped(lines))| <= |Join(lines)|
    ensures |Join(Stripped(lines))| == |Join(lines)| ==> Stripped(lines) == lines
  {
    hide StripCr;
    if |lines| > 1 {
      StrippedShrinks(lines[1..]);
      StripCrShrinks(lines[0]);
      assert Stripped(lines)[1..] == Stripped(lines[1..]);
      assert |Stripped(lines)| == 1 + |Stripped(lines[1..])| && |Stripped(lines[1..])| >= 1;
      assert lines == [lines[0]] + lines[1..];
    }
  }

  lemma {:induction false} LinesAreLines(s: string)
    ensures forall l :: l in Lines(s) ==> OneLine(l)
    decreases |s|
  {
    hide FindText;
    FirstLine(s);
    if FindText(s, LF).Some? {
      LinesAreLines(s[FindText(s, LF).value + 1..]);
    }
  }

  lemma {:induction false} FieldsAreLines(lines: seq<string>)
    requires forall l :: l in lines ==> OneLine(l)
    ensures OneLine(ReadLines(lines).eventType)
    ensures ReadLines(lines).id.Some? ==> OneLine(ReadLines(lines).id.value)
  {
    if lines != [] {
      FieldsAreLines(lines[..|lines| - 1]);
      var line := lines[|lines| - 1];
      assert line in lines;
      assert forall k, c :: 0 <= k <= |line| && c in line[k..] ==> c in line;
    }
  }

  /** An event a frame can carry. */
  predicate Sendable(e: Event) {
    && Labels(e)
    && StripCr(e.eventType) == e.eventType && StrippedId(e.id) == e.id
    && NoCrLf(e.data)
  }

  /** A frame is read back as the event it was written for exactly when the event is sendable. */
  lemma EventRoundTripExactly(e: Event)
    ensures Parsed(FrameOf(e)) == Some(e) <==> Sendable(e)
  {
    hide FrameOf, Split, Join, Stripped, ReadLines, Lines, NoCrLf, StripCr;
    if Labels(e) {
      ReadBack(e);
      SplitIsLines(e.data);
      NothingStripped(e.data);
      StrippedShrinks(Split(e.data));
    } else {
      LinesAreLines(FrameOf(e));
      FieldsAreLines(Lines(FrameOf(e)));
    }
  }

  // ------------------------------------------------------------- a stream of events

  /** Every LF is followed by text that cannot belong to a delimiter. */
  predicate Solid(s: string) {
    forall i :: 0 <= i < |s| && s[i] == '\n' ==> i + 1 < |s| && s[i + 1] != '\n' && s[i + 1] != '\r'
  }

  predicate Firm(line: string) {
    OneLine(line) && line != "" && line[0] != '\r'
  }

  lemma {:induction false} JoinIsSolid(lines: seq<string>)
    requires forall i :: 0 <= i < |lines| ==> Firm(lines[i])
    ensures Solid(Join(lines))
    ensures lines != [] ==> Firm(lines[0]) && Join(lines) != "" && Join(lines)[0] == lines[0][0]
  {
    if |lines| > 1 {
      JoinIsSolid(lines[1..]);
      assert Firm(lines[0]) && Firm(lines[1]) && lines[1][0] in lines[1];
      var first, rest := lines[0], Join(lines[1..]);
      var s := first + LF + rest;
      assert forall i :: 0 <= i < |first| ==> s[i] == first[i] && first[i] in first;
      forall i | 0 <= i < |s| && s[i] == '\n' ensures i + 1 < |s| && s[i + 1] != '\n' && s[i + 1] != '\r' {
        if i > |first| {
          assert s[i] == rest[i - |first| - 1];
          assert s[i + 1] == rest[i - |first| - 1 + 1];
        }
      }
    } else if |lines| == 1 {
      assert Firm(lines[0]);
    }
  }

  lemma SolidFrame(frame: string, rest: string)
    requires Solid(frame)
    ensures NextFrame(frame + LFLF + rest) == Incremental.Complete(frame, |frame| + 2)
  {
    hide FindFrameEnd;
    var s := frame + LFLF + rest;
    assert LfLfAt(s, |frame|);
    forall i | 0 <= i < |frame| ensures !DelimiterAt(s, i) {
      assert s[i] == frame[i];
    }
    FrameEndUnique(s, |frame|);
    FrameEndIsFirst(s);
    assert s[..|frame|] == frame;
  }

  /** A list of sendable events is read back as that list, with nothing left over. */
  lemma {:induction false} StreamReadBack(events: seq<Event>)
    requires forall e :: e in events ==> Sendable(e)
    ensures Events(Frames(TextOf(events))) == events && Left(TextOf(events)) == ""
  {
    hide Frames, Left, NextFrame, Parsed, FrameOf, Sendable;
    if events == [] {
      Nothing();
    } else {
      var e := events[0];
      var text := TextOf(events);
      StreamReadBack(events[1..]);
      FrameIsSolid(e);
      SolidFrame(FrameOf(e), TextOf(events[1..]));
      CutStep(text);
      assert text[|FrameOf(e)| + 2..] == TextOf(events[1..]);
      EventRoundTripExactly(e);
      assert ([FrameOf(e)] + Frames(TextOf(events[1..])))[1..] == Frames(TextOf(events[1..]));
    }
  }

  lemma FrameIsSolid(e: Event)
    requires Sendable(e)
    ensures Solid(FrameOf(e))
  {
    FieldLinesAreLines(e);
    JoinIsSolid(FieldLines(e));
  }

  /** The reader delivers exactly the events that were written, through any chunking. */
  method ReadWritten(events: seq<Event>, chunks: seq<string>) returns (got: seq<Event>, rest: string)
    requires forall e :: e in events ==> Sendable(e)
    requires Joined(chunks) == TextOf(events)
    ensures got == events && rest == ""
  {
    StreamReadBack(events);
    got, rest := ReadStream(chunks);
  }
}
