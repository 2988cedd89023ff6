/**
 Server-Sent Events: cutting a text stream into frames, whatever the chunks it arrives
 in, and reading the fields of a frame.
 */
module Sse {
  import opened Wrappers
  import opened Incremental

  const LF: string := "\n"
  const LFLF: string := "\n\n"
  const CRLFCRLF: string := "\r\n\r\n"

  predicate StartsWith(s: string, needle: string) {
    |needle| <= |s| && s[..|needle|] == needle
  }

  /** Index of the first occurrence of `needle`. */
  function FindText(s: string, needle: string): (r: Option<nat>)
    ensures r.Some? ==> r.value + |needle| <= |s| && StartsWith(s[r.value..], needle)
  {
    if StartsWith(s, needle) then Some(0)
    else if s == [] then None
    else
      match FindText(s[1..], needle)
      case None => None
      case Some(i) => assert s[1..][i..] == s[i + 1..]; Some(i + 1)
  }

  lemma {:induction false} FindTextFirst(s: string, needle: string, i: nat)
    requires i <= |s| && (FindText(s, needle).Some? ==> i < FindText(s, needle).value)
    ensures !StartsWith(s[i..], needle)
  {
    if i > 0 {
      FindTextFirst(s[1..], needle, i - 1);
      assert s[1..][i - 1..] == s[i..];
    } else {
      assert s[0..] == s;
    }
  }

  /** Where the first frame ends: at the earlier of the two delimiters. */
  function FindFrameEnd(buffer: string): (r: Option<nat>) {
    match (FindText(buffer, CRLFCRLF), FindText(buffer, LFLF))
    case (Some(c), Some(l)) => Some(if c < l then c else l)
    case (Some(c), None) => Some(c)
    case (None, Some(l)) => Some(l)
    case (None, None) => None
  }

  function DelimiterLength(buffer: string, at: nat): nat
    requires at <= |buffer|
  {
    if StartsWith(buffer[at..], CRLFCRLF) then 4 else 2
  }

  predicate LfLfAt(s: string, i: nat) {
    i + 2 <= |s| && s[i] == '\n' && s[i + 1] == '\n'
  }

  predicate CrLfCrLfAt(s: string, i: nat) {
    i + 4 <= |s| && s[i] == '\r' && s[i + 1] == '\n' && s[i + 2] == '\r' && s[i + 3] == '\n'
  }

  /** A frame delimiter starts at `i`. */
  predicate DelimiterAt(s: string, i: nat) {
    LfLfAt(s, i) || CrLfCrLfAt(s, i)
  }

  lemma StartsWithDelimiter(s: string, i: nat)
    requires i <= |s|
    ensures StartsWith(s[i..], LFLF) <==> LfLfAt(s, i)
    ensures StartsWith(s[i..], CRLFCRLF) <==> CrLfCrLfAt(s, i)
  {
    if LfLfAt(s, i) {
      assert s[i..][..2] == LFLF;
    }
    if CrLfCrLfAt(s, i) {
      assert s[i..][..4] == CRLFCRLF;
    }
  }

  lemma FrameEndIsFirst(s: string)
    ensures FindFrameEnd(s).Some? ==>
      var k := FindFrameEnd(s).value;
      && k <= |s| && DelimiterAt(s, k)
      && DelimiterLength(s, k) == (if CrLfCrLfAt(s, k) then 4 else 2)
    ensures forall i :: 0 <= i <= |s| && (FindFrameEnd(s).Some? ==> i < FindFrameEnd(s).value) ==> !DelimiterAt(s, i)
  {
    hide FindText, StartsWith;
    if FindFrameEnd(s).Some? {
      StartsWithDelimiter(s, FindFrameEnd(s).value);
    }
    forall i | 0 <= i <= |s| && (FindFrameEnd(s).Some? ==> i < FindFrameEnd(s).value) ensures !DelimiterAt(s, i) {
      FindTextFirst(s, CRLFCRLF, i);
      FindTextFirst(s, LFLF, i);
      StartsWithDelimiter(s, i);
    }
  }

  /** The frame ends at the first delimiter, and only there. */
  lemma FrameEndUnique(s: string, k: nat)
    requires DelimiterAt(s, k) && forall i :: 0 <= i < k ==> !DelimiterAt(s, i)
    ensures FindFrameEnd(s) == Some(k)
  {
    hide FindFrameEnd;
    FrameEndIsFirst(s);
  }

  /**
   More text does not move the earliest delimiter: one that only now becomes complete
   cannot start before it.
   */
  lemma FrameEndStable(p: string, q: string)
    requires FindFrameEnd(p).Some?
    ensures FindFrameEnd(p + q) == FindFrameEnd(p)
    ensures FindFrameEnd(p).value <= |p|
    ensures DelimiterLength(p + q, FindFrameEnd(p).value) == DelimiterLength(p, FindFrameEnd(p).value)
  {
    hide FindFrameEnd;
    FrameEndIsFirst(p);
    var k := FindFrameEnd(p).value;
    forall i | 0 <= i < k ensures !DelimiterAt(p + q, i) {
      assert !DelimiterAt(p, i);
    }
    FrameEndUnique(p + q, k);
    FrameEndIsFirst(p + q);
  }

  // ------------------------------------------------------------- frames off the front of a buffer

  datatype Never = Never

  /** One turn of the loop of `parse_sse_chunk`: the first complete frame, without its delimiter. */
  function NextFrame(buffer: string): Outcome<string, Never> {
    if FindFrameEnd(buffer).None? then Incomplete else
      var k := FindFrameEnd(buffer).value;
      FrameEndIsFirst(buffer);
      Complete(buffer[..k], k + DelimiterLength(buffer, k))
  }

  function NoFiller(buffer: string): nat {
    0
  }

  lemma FramesAreResumable()
    ensures Resumable(NextFrame, NoFiller)
  {
    hide FindFrameEnd, DelimiterLength;
    forall p: string | NextFrame(p).Complete? ensures 0 < NextFrame(p).used <= |p| {
      Bounds(p);
    }
    forall p: string, q: string | !NextFrame(p).Incomplete? ensures NextFrame(p + q) == NextFrame(p) {
      FrameEndStable(p, q);
      assert (p + q)[..FindFrameEnd(p).value] == p[..FindFrameEnd(p).value];
    }
  }

  lemma Bounds(p: string)
    requires NextFrame(p).Complete?
    ensures 0 < NextFrame(p).used <= |p|
  {
    hide FindFrameEnd;
    FrameEndIsFirst(p);
  }

  /** Everything that can be cut off `text`, and what stays in the buffer. */
  function Cut(text: string): Drained<char, string, Never> {
    Drain(NextFrame, NoFiller, text)
  }

  function Frames(text: string): seq<string> {
    Cut(text).items
  }

  function Left(text: string): string {
    if Cut(text).end.Starved? then Cut(text).end.left else ""
  }

  lemma CutStep(text: string)
    ensures NextFrame(text).Incomplete? ==> Frames(text) == [] && Left(text) == text
    ensures NextFrame(text).Complete? ==>
      var Complete(frame, used) := NextFrame(text);
      0 < used <= |text| && Frames(text) == [frame] + Frames(text[used..]) && Left(text) == Left(text[used..])
    ensures !NextFrame(text).Malformed?
  {
    hide FindFrameEnd, DelimiterLength;
    if NextFrame(text).Complete? {
      Bounds(text);
    }
  }

  /** Cutting what has arrived first, then the remainder with what comes next, changes nothing. */
  lemma {:induction false} CutSplit(p: string, q: string)
    ensures Frames(p + q) == Frames(p) + Frames(Left(p) + q)
    ensures Left(p + q) == Left(Left(p) + q)
    decreases |p|
  {
    hide Frames, Left, NextFrame;
    CutStep(p);
    match NextFrame(p)
    case Incomplete =>
    case Complete(frame, used) =>
      FramesAreResumable();
      assert NextFrame(p + q) == NextFrame(p);
      CutStep(p + q);
      assert (p + q)[used..] == p[used..] + q;
      CutSplit(p[used..], q);
    case Malformed(_) => assert false;
  }

  // ------------------------------------------------------------- what the cut is

  function Delimiters(text: string): seq<string>
    decreases |text|
  {
    match NextFrame(text)
    case Complete(frame, used) =>
      if 0 < used <= |text| && |frame| <= used then [text[|frame|..used]] + Delimiters(text[used..]) else []
    case _ => []
  }

  function Weave(frames: seq<string>, delimiters: seq<string>): string {
    if frames == [] || delimiters == [] then ""
    else frames[0] + delimiters[0] + Weave(frames[1..], delimiters[1..])
  }

  predicate Whole(s: string) {
    forall i :: 0 <= i <= |s| ==> !DelimiterAt(s, i)
  }

  lemma FirstPiece(text: string)
    requires NextFrame(text).Complete?
    ensures var Complete(frame, used) := NextFrame(text);
      && |frame| <= used <= |text| && frame == text[..|frame|] && Whole(frame)
      && (text[|frame|..used] == LFLF || text[|frame|..used] == CRLFCRLF)
  {
    hide FindFrameEnd;
    FrameEndIsFirst(text);
    var Complete(frame, used) := NextFrame(text);
    forall i | 0 <= i <= |frame| ensures !DelimiterAt(frame, i) {
      if i < |frame| {
        assert !DelimiterAt(text, i);
      }
    }
    if CrLfCrLfAt(text, |frame|) {
      assert text[|frame|..used] == CRLFCRLF;
    } else {
      assert text[|frame|..used] == LFLF;
    }
  }

  /**
   Nothing is lost or invented: frames, their delimiters and the remainder put back
   together are the text, and no delimiter is left inside a frame or the remainder.
   */
  lemma {:induction false} CutReassembles(text: string)
    ensures |Delimiters(text)| == |Frames(text)|
    ensures Weave(Frames(text), Delimiters(text)) + Left(text) == text
    ensures forall d :: d in Delimiters(text) ==> d == LFLF || d == CRLFCRLF
    ensures forall f :: f in Frames(text) ==> Whole(f)
    ensures Whole(Left(text))
    decreases |text|
  {
    hide Frames, Left, NextFrame, Whole;
    CutStep(text);
    match NextFrame(text)
    case Incomplete => NoneLeft(text);
    case Complete(frame, used) =>
      FirstPiece(text);
      CutReassembles(text[used..]);
      assert text == frame + text[|frame|..used] + text[used..];
    case Malformed(_) => assert false;
  }

  lemma NoneLeft(text: string)
    requires NextFrame(text).Incomplete?
    ensures Whole(text)
  {
    hide FindFrameEnd;
    FrameEndIsFirst(text);
  }
}
