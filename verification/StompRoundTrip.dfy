/** Decoding undoes encoding. */
module StompRoundTrip {
  import opened Wrappers
  import opened Bytes
  import opened Text
  import opened StompCodec
  import opened StompStream
  import opened Incremental

  // ---------- header text ----------

  /** The octets that structure a head never occur in escaped text. */
  lemma {:induction false} EscapeClean(s: Octets)
    ensures LF !in Escape(s) && CR !in Escape(s) && COLON !in Escape(s)
  {
    if s != [] {
      EscapeClean(s[1..]);
    }
  }

  lemma UnescapeFirst(b: byte, t: Octets)
    ensures Unescape(Escape1(b) + t) == Prepend(b, Unescape(t))
  {
    var e := Escape1(b) + t;
    assert e[|Escape1(b)|..] == t;
  }

  lemma {:induction false} UnescapeEscape(s: Octets)
    ensures Unescape(Escape(s)) == Ok(s)
  {
    if s != [] {
      UnescapeFirst(s[0], Escape(s[1..]));
      UnescapeEscape(s[1..]);
      assert [s[0]] + s[1..] == s;
    }
  }

  lemma {:induction false} EscapeConcat(a: Octets, b: Octets)
    ensures Escape(a + b) == Escape(a) + Escape(b)
  {
    if a == [] {
      assert a + b == b;
    } else {
      assert (a + b)[1..] == a[1..] + b;
      EscapeConcat(a[1..], b);
      assert Escape1(a[0]) + (Escape(a[1..]) + Escape(b)) == Escape1(a[0]) + Escape(a[1..]) + Escape(b);
    }
  }

  /** Octets outside ASCII are written as they are. */
  lemma {:induction false} EscapeHigh(s: Octets)
    requires forall i :: 0 <= i < |s| ==> s[i] >= 0x80
    ensures Escape(s) == s
  {
    if s != [] {
      EscapeHigh(s[1..]);
      assert [s[0]] + s[1..] == s;
    }
  }

  lemma Utf8Escape1(b: byte)
    requires b < 0x80
    ensures Utf8(Escape1(b))
  {
    var e := Escape1(b);
    assert CharLen(e) == 1;
    if |e| == 2 {
      assert CharLen(e[1..]) == 1;
      assert e[1..][1..] == [];
    } else {
      assert e[1..] == [];
    }
  }

  lemma Utf8Char(c: Octets)
    requires 0 < CharLen(c) == |c|
    ensures Utf8(c)
  {
    assert c[|c|..] == [];
  }

  lemma EscapeByte(b: byte)
    ensures Escape([b]) == Escape1(b)
  {
    assert [b][1..] == [];
    assert Escape1(b) + [] == Escape1(b);
  }

  lemma EscapeChar(c: Octets)
    requires 0 < CharLen(c) == |c|
    ensures Utf8(Escape(c))
  {
    if |c| == 1 {
      Utf8Escape1(c[0]);
      EscapeByte(c[0]);
      assert c == [c[0]];
    } else {
      Utf8Char(c);
      EscapeHigh(c);
    }
  }

  lemma CharAlone(s: Octets)
    ensures CharLen(s[..CharLen(s)]) == CharLen(s)
  {
    var c := s[..CharLen(s)];
    assert forall i :: 0 <= i < |c| ==> c[i] == s[i];
  }

  lemma EscapeSplit(s: Octets, k: nat)
    requires k <= |s|
    ensures Escape(s) == Escape(s[..k]) + Escape(s[k..])
  {
    hide Escape;
    EscapeConcat(s[..k], s[k..]);
    assert s == s[..k] + s[k..];
  }

  lemma {:induction false} Utf8Escape(s: Octets)
    requires Utf8(s)
    ensures Utf8(Escape(s))
    decreases |s|
  {
    if s != [] {
      var k := CharLen(s);
      Utf8Escape(s[k..]);
      CharAlone(s);
      EscapeChar(s[..k]);
      Utf8Concat(Escape(s[..k]), Escape(s[k..]));
      EscapeSplit(s, k);
    }
  }

  /** A header component of any content survives. */
  lemma HeaderTextRoundTrip(s: Octets)
    requires Utf8(s)
    ensures DecodedHeader(Escape(s)) == Ok(s)
    ensures Utf8(Escape(s)) && LF !in Escape(s) && CR !in Escape(s) && COLON !in Escape(s)
  {
    EscapeClean(s);
    UnescapeEscape(s);
    Utf8Escape(s);
  }

  // ---------- heads ----------

  function EncodedLine(h: Header): Octets {
    Escape(h.name) + [COLON] + Escape(h.value)
  }

  lemma FieldRoundTrip(h: Header, next: nat)
    requires Utf8(h.name) && Utf8(h.value)
    ensures ParseField(EncodedLine(h), next) == HeaderLine(h, next)
  {
    EscapeClean(h.name);
    Cut(Escape(h.name), COLON, Escape(h.value));
    HeaderTextRoundTrip(h.name);
    HeaderTextRoundTrip(h.value);
  }

  /** An encoded header line is a proper line: not blank, and with no line ending in it. */
  lemma LineClean(h: Header)
    ensures LF !in EncodedLine(h) && EncodedLine(h) != [] && StripCr(EncodedLine(h)) == EncodedLine(h)
  {
    EscapeClean(h.name);
    EscapeClean(h.value);
    var line := EncodedLine(h);
    assert CR !in line;
    assert line[|line| - 1] in line;
  }

  lemma LineRoundTrip(h: Header, tail: Octets)
    requires Utf8(h.name) && Utf8(h.value)
    ensures ParseLine(EncodedLine(h) + [LF] + tail) == HeaderLine(h, |EncodedLine(h)| + 1)
  {
    LineClean(h);
    Cut(EncodedLine(h), LF, tail);
    FieldRoundTrip(h, |EncodedLine(h)| + 1);
  }

  lemma BlankLine(tail: Octets)
    ensures ParseLine([LF] + tail) == Blank(1)
  {
    FindUnique([LF] + tail, LF, 0);
  }

  lemma {:induction false} HeadersRoundTrip(hs: seq<Header>, tail: Octets)
    requires HeadersUtf8(hs)
    ensures ParseHeaders(EncodedHeaders(hs) + [LF] + tail) == Head([], hs, |EncodedHeaders(hs)| + 1)
    decreases |hs|
  {
    hide ParseLine, Escape, Utf8;
    var p := EncodedHeaders(hs) + [LF] + tail;
    if hs == [] {
      assert p == [LF] + tail;
      BlankLine(tail);
    } else {
      var after := EncodedHeaders(hs[1..]) + [LF] + tail;
      assert p == EncodedLine(hs[0]) + [LF] + after;
      LineRoundTrip(hs[0], after);
      HeadersRoundTrip(hs[1..], tail);
      var next := |EncodedLine(hs[0])| + 1;
      assert p[next..] == after;
      assert [hs[0]] + hs[1..] == hs;
    }
  }

  function EncodedHead(command: Octets, hs: seq<Header>): Octets {
    command + [LF] + EncodedHeaders(hs) + [LF]
  }

  /** A command the decoder gives back as it is. */
  predicate PlainCommand(c: Octets) {
    c != [] && LF !in c && Trim(c) == c
  }

  lemma CommandRoundTrip(command: Octets, tail: Octets)
    requires PlainCommand(command) && Utf8(command)
    ensures ParseCommand(command + [LF] + tail) == Command(command, |command| + 1)
  {
    hide Find, Trim, Utf8;
    var t := Trim(command);
    assert t[|t| - 1] != CR;
    Cut(command, LF, tail);
  }

  lemma HeadRoundTrip(command: Octets, hs: seq<Header>, tail: Octets)
    requires PlainCommand(command) && Utf8(command) && HeadersUtf8(hs)
    ensures ParseHead(EncodedHead(command, hs) + tail) == Head(command, hs, |EncodedHead(command, hs)|)
  {
    hide ParseCommand, ParseHeaders, EncodedHeaders, Utf8, Trim;
    var x := EncodedHeaders(hs) + [LF] + tail;
    assert EncodedHead(command, hs) + tail == command + [LF] + x;
    Cut(command, LF, x);
    CommandRoundTrip(command, x);
    HeadersRoundTrip(hs, tail);
  }

  // ---------- frames ----------

  /** The head announces the body, or leaves it to end at the first NUL. */
  predicate BodyFits(declared: Option<nat>, body: Octets) {
    match declared
    case Some(n) => n == |body|
    case None => NUL !in body && (body != [] ==> body[|body| - 1] != LF)
  }

  lemma BodyRoundTrip(h: Head, declared: Option<nat>, body: Octets, rest: Octets)
    requires h.Head? && BodyFits(declared, body)
    ensures ParseBody(h, declared, body + [NUL] + rest)
            == Complete(Frame(h.command, h.headers, body), h.at + |body| + 1)
  {
    var p := body + [NUL] + rest;
    assert p[..|body|] == body;
    if declared.None? {
      Cut(body, NUL, rest);
    }
  }

  predicate Faithful(f: Frame) {
    PlainCommand(f.command) && BodyFits(ContentLength(f.headers), f.body)
  }

  /** With a plain command, parsing gets as far as the body. */
  lemma ParseReachesBody(f: Frame, rest: Octets)
    requires WellTyped(f) && PlainCommand(f.command)
    ensures ParseFrame(Encoded(f) + rest)
            == ParseBody(Head(f.command, f.headers, |EncodedHead(f.command, f.headers)|),
                         ContentLength(f.headers), f.body + [NUL] + rest)
  {
    var head := EncodedHead(f.command, f.headers);
    var tail := f.body + [NUL] + rest;
    var p := Encoded(f) + rest;
    assert p == head + tail;
    HeadRoundTrip(f.command, f.headers, tail);
    assert p[|head|..] == tail;
  }

  lemma ParseEncoded(f: Frame, rest: Octets)
    requires WellTyped(f) && Faithful(f)
    ensures ParseFrame(Encoded(f) + rest) == Complete(f, |Encoded(f)|)
  {
    hide ParseFrame, ParseBody, ContentLength, PlainCommand, BodyFits, WellTyped, EncodedHeaders;
    ParseReachesBody(f, rest);
    BodyRoundTrip(Head(f.command, f.headers, |EncodedHead(f.command, f.headers)|),
                  ContentLength(f.headers), f.body, rest);
  }

  lemma NoLeadingEol(f: Frame, rest: Octets)
    requires PlainCommand(f.command)
    ensures Eols(Encoded(f) + rest) == 0
  {
    var p := Encoded(f) + rest;
    var t := Trim(f.command);
    assert p[0] == f.command[0] == t[0];
  }

  /** Decoding what was encoded gives the frame back and consumes exactly its octets. */
  lemma FrameRoundTrip(f: Frame, rest: Octets)
    requires WellTyped(f) && Faithful(f)
    ensures NextFrame(Encoded(f) + rest) == Complete(f, |Encoded(f)|)
  {
    var p := Encoded(f) + rest;
    NoLeadingEol(f, rest);
    assert p[0..] == p;
    ParseEncoded(f, rest);
  }

  // ---------- exactly when ----------

  lemma CommandIsPlain(p: Octets)
    requires ParseHead(p).Head?
    ensures LF !in ParseHead(p).command && Trim(ParseHead(p).command) == ParseHead(p).command
  {
    var nl := Find(p, LF).value;
    var line := StripCr(p[..nl]);
    TrimIdempotent(line);
    TrimContent(line, LF);
    forall i | 0 <= i < nl ensures p[..nl][i] != LF {
      FindFirst(p, LF, i);
    }
  }

  lemma ReturnedCommand(p: Octets)
    requires NextFrame(p).Complete?
    ensures var c := NextFrame(p).item.command; LF !in c && Trim(c) == c
  {
    hide ParseHead, ContentLength, Trim;
    CommandIsPlain(p[Eols(p)..]);
  }

  /** The command line of a decoded frame, when the frame starts with `line`. */
  lemma CommandFromLine(line: Octets, tail: Octets)
    requires LF !in line && COLON in line && StripCr(line) == line
    ensures var h := ParseHead(line + [LF] + tail); h.Head? ==> h.command != []
  {
    Cut(line, LF, tail);
    TrimContent(line, COLON);
  }

  lemma BlankCommandLine(f: Frame) returns (tail: Octets)
    requires f.command == [] && f.headers != []
    ensures Eols(Encoded(f)) == 1
    ensures Encoded(f)[1..] == EncodedLine(f.headers[0]) + [LF] + tail
  {
    hide Escape;
    var p := Encoded(f);
    var line := EncodedLine(f.headers[0]);
    tail := EncodedHeaders(f.headers[1..]) + [LF] + f.body + [NUL];
    assert p == [LF] + (line + [LF] + tail);
    EscapeClean(f.headers[0].name);
    assert line[0] in Escape(f.headers[0].name) || line[0] == COLON;
    assert p[0] == LF && p[1] == line[0];
  }

  lemma BlankCommandWithHeaders(f: Frame)
    requires f.command == [] && f.headers != []
    ensures var r := NextFrame(Encoded(f)); r.Complete? ==> r.item.command != []
  {
    hide ContentLength, Escape, Encoded, Utf8, Trim, ParseHead;
    var tail := BlankCommandLine(f);
    LineClean(f.headers[0]);
    CommandFromLine(EncodedLine(f.headers[0]), tail);
  }

  /** The octets of a frame are at least its body, a NUL, and two line ends and a command octet. */
  lemma BodyShorter(p: Octets)
    requires var r := ParseFrame(p); r.Complete? && r.item.headers == []
    ensures |ParseFrame(p).item.body| + 3 <= |p|
  {
    hide ParseHead, Lookup;
    var h := ParseHead(p);
    assert ContentLength(h.headers).None?;
    HeadAtLeastTwo(p);
  }

  lemma HeadAtLeastTwo(p: Octets)
    requires ParseHead(p).Head?
    ensures ParseHead(p).at >= 2
  {
  }

  lemma BlankCommandNoHeaders(f: Frame)
    requires f.command == [] && f.headers == []
    ensures var r := NextFrame(Encoded(f)); r.Complete? ==> r.item != f
  {
    var p := Encoded(f);
    assert p == [LF, LF] + f.body + [NUL];
    assert Eols(p) >= 2 by {
      assert p[0] == LF && p[1] == LF;
    }
    var r := NextFrame(p);
    if r.Complete? && r.item.headers == [] {
      BodyShorter(p[Eols(p)..]);
    }
  }

  lemma BodyMustFit(h: Head, declared: Option<nat>, body: Octets)
    requires h.Head?
    requires ParseBody(h, declared, body + [NUL]) == Complete(Frame(h.command, h.headers, body), h.at + |body| + 1)
    ensures BodyFits(declared, body)
  {
    var rest := body + [NUL];
    if declared.None? {
      var k := Find(rest, NUL).value;
      assert k == |body|;
      assert rest[..k] == body;
      forall i | 0 <= i < k ensures body[i] != NUL {
        FindFirst(rest, NUL, i);
      }
    }
  }

  lemma FaithfulIfReturned(f: Frame)
    requires WellTyped(f)
    requires NextFrame(Encoded(f)) == Complete(f, |Encoded(f)|)
    ensures Faithful(f)
  {
    hide NextFrame, Encoded, Utf8, Trim, BodyFits, ContentLength;
    ReturnedCommand(Encoded(f));
    if f.command != [] {
      FitsIfReturned(f);
    } else if f.headers == [] {
      BlankCommandNoHeaders(f);
    } else {
      BlankCommandWithHeaders(f);
    }
  }

  lemma FitsIfReturned(f: Frame)
    requires WellTyped(f) && PlainCommand(f.command)
    requires NextFrame(Encoded(f)) == Complete(f, |Encoded(f)|)
    ensures BodyFits(ContentLength(f.headers), f.body)
  {
    hide ParseFrame, Utf8, Trim, ContentLength, BodyFits;
    var h := Head(f.command, f.headers, |EncodedHead(f.command, f.headers)|);
    var declared := ContentLength(f.headers);
    assert ParseBody(h, declared, f.body + [NUL]) == Complete(f, |Encoded(f)|) by {
      ParsedInPlace(f);
      ParseReachesBody(f, []);
      assert f.body + [NUL] + [] == f.body + [NUL];
    }
    BodyMustFit(h, declared, f.body);
  }

  lemma ParsedInPlace(f: Frame)
    requires PlainCommand(f.command)
    ensures NextFrame(Encoded(f)) == ParseFrame(Encoded(f) + [])
  {
    var p := Encoded(f);
    assert p + [] == p;
    NoLeadingEol(f, []);
    assert p[0..] == p;
  }

  /**
   The round trip holds for a frame exactly when its command is non-empty, trimmed and
   free of line feeds, and its body is either announced with its true length or, with no
   usable announcement, is free of NUL and does not end in a line feed.
   */
  lemma RoundTripExactly(f: Frame)
    requires WellTyped(f)
    ensures NextFrame(Encoded(f)) == Complete(f, |Encoded(f)|) <==> Faithful(f)
  {
    assert Encoded(f) + [] == Encoded(f);
    if Faithful(f) {
      FrameRoundTrip(f, []);
    }
    if NextFrame(Encoded(f)) == Complete(f, |Encoded(f)|) {
      FaithfulIfReturned(f);
    }
  }

  // ---------- streams ----------

  predicate Heartbeats(s: Octets) {
    forall i :: 0 <= i < |s| ==> s[i] == LF || s[i] == CR
  }

  /** One frame with the heartbeats sent before it. */
  datatype Sent = Sent(before: Octets, frame: Frame)

  function Wire(sent: seq<Sent>, last: Octets): Octets {
    if sent == [] then last else sent[0].before + Encoded(sent[0].frame) + Wire(sent[1..], last)
  }

  function Frames(sent: seq<Sent>): seq<Frame> {
    if sent == [] then [] else [sent[0].frame] + Frames(sent[1..])
  }

  predicate Sendable(sent: seq<Sent>) {
    forall i :: 0 <= i < |sent| ==>
      Heartbeats(sent[i].before) && WellTyped(sent[i].frame) && Faithful(sent[i].frame)
  }

  lemma HeartbeatsSkipped(before: Octets, rest: Octets)
    requires Heartbeats(before)
    ensures Eols(before) == |before|
    ensures Eols(before + rest) == |before| + Eols(rest)
  {
    EolsSplit(before, rest);
  }

  lemma FrameAfterHeartbeats(before: Octets, f: Frame, rest: Octets)
    requires Heartbeats(before) && WellTyped(f) && Faithful(f)
    ensures NextFrame(before + Encoded(f) + rest) == Complete(f, |before| + |Encoded(f)|)
  {
    hide ParseFrame, Encoded, WellTyped, BodyFits, ContentLength, Trim, Eols;
    var y := Encoded(f) + rest;
    var p := before + Encoded(f) + rest;
    assert p == before + y;
    HeartbeatsSkipped(before, y);
    NoLeadingEol(f, rest);
    assert p[|before|..] == y;
    ParseEncoded(f, rest);
  }

  /** A parser that takes each frame of the wire off the front takes all of them. */
  lemma {:induction false} DrainWire(next: Octets -> FrameOutcome, filler: Octets -> nat, sent: seq<Sent>, last: Octets)
    requires forall i :: 0 <= i < |sent| ==>
      next(Wire(sent[i..], last)) == Complete(sent[i].frame, |sent[i].before| + |Encoded(sent[i].frame)|)
    requires next(last) == Incomplete && filler(last) == |last|
    ensures Drain(next, filler, Wire(sent, last)) == Drained(Frames(sent), Starved([]))
    decreases |sent|
  {
    hide Encoded;
    if sent == [] {
      assert Drop(|last|, last) == [];
    } else {
      var rest := sent[1..];
      forall i | 0 <= i < |rest|
        ensures next(Wire(rest[i..], last)) == Complete(rest[i].frame, |rest[i].before| + |Encoded(rest[i].frame)|)
      {
        assert rest[i..] == sent[i + 1..];
      }
      DrainWire(next, filler, rest, last);
      assert sent[0..] == sent;
      var used := |sent[0].before| + |Encoded(sent[0].frame)|;
      assert Wire(sent, last)[used..] == Wire(rest, last);
    }
  }

  /** A list of such frames, with any heartbeats between and after them, decodes to that list. */
  lemma StreamRoundTrip(sent: seq<Sent>, last: Octets)
    requires Sendable(sent) && Heartbeats(last)
    ensures Drain(NextFrame, Eols, Wire(sent, last)) == Drained(Frames(sent), Starved([]))
  {
    hide NextFrame, Encoded;
    forall i | 0 <= i < |sent|
      ensures NextFrame(Wire(sent[i..], last)) == Complete(sent[i].frame, |sent[i].before| + |Encoded(sent[i].frame)|)
    {
      var rest := Wire(sent[i + 1..], last);
      assert sent[i..][0] == sent[i] && sent[i..][1..] == sent[i + 1..];
      FrameAfterHeartbeats(sent[i].before, sent[i].frame, rest);
    }
    HeartbeatsSkipped(last, []);
    NothingFromNothing(last);
    DrainWire(NextFrame, Eols, sent, last);
  }
}
