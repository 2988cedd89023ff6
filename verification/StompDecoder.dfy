/**
 The decoder as it is written: a growing buffer, a cursor into it, and machine-sized
 arithmetic. It is proved against the reference parser of `StompCodec`, together with
 the one family of inputs on which the two part ways.
 */
module StompDecoder {
  import opened Wrappers
  import opened Bytes
  import opened Text
  import opened Incremental
  import opened StompCodec

  /** Consumed octets are reclaimed once there are this many of them. */
  const COMPACT_AT: nat := 4096

  /** The largest size a Rust allocation can have, plus one. */
  const ISIZE_LIMIT: nat := 0x8000_0000_0000_0000

  // ---------- the code, on values ----------

  datatype Buffer = Buffer(buf: Octets, pos: nat)

  predicate InRange(b: Buffer) {
    b.pos <= |b.buf| < ISIZE_LIMIT
  }

  function Pending(b: Buffer): Octets
    requires b.pos <= |b.buf|
  {
    b.buf[b.pos..]
  }

  function Compact(b: Buffer): (r: Buffer)
    requires b.pos <= |b.buf|
    ensures r.pos <= |r.buf| <= |b.buf|
  {
    if b.pos > 0 && (b.pos == |b.buf| || b.pos >= COMPACT_AT) then Buffer(b.buf[b.pos..], 0) else b
  }

  function Skip(b: Buffer): (r: Buffer)
    requires b.pos <= |b.buf|
    ensures r.pos <= |r.buf| <= |b.buf|
  {
    Compact(b.(pos := b.pos + Eols(Pending(b))))
  }

  /** Compaction never changes the pending octets, and bounds the consumed ones that are kept. */
  lemma CompactKeeps(b: Buffer)
    requires b.pos <= |b.buf|
    ensures var r := Compact(b);
            && Pending(r) == Pending(b)
            && r.pos < COMPACT_AT && (r.pos == 0 || r.pos < |r.buf|)
  {
    assert b.buf[b.pos..][0..] == b.buf[b.pos..];
  }

  lemma SkipKeeps(b: Buffer)
    requires b.pos <= |b.buf|
    ensures Pending(Skip(b)) == Pending(b)[Eols(Pending(b))..]
  {
    var k := Eols(Pending(b));
    CompactKeeps(b.(pos := b.pos + k));
    DropDrop(b.buf, b.pos, k);
  }

  datatype Pulled = NoFrame | Error(error: CodecError) | Got(frame: Frame) | Panic

  /** The end of a body of that length, as an index into the buffer, does not fit a `usize`. */
  predicate EndWraps(cursor: nat, declared: Option<nat>) {
    declared.Some? && cursor + declared.value >= USIZE_LIMIT
  }

  /**
   The sum wraps around to an index before the body. The octet there is taken for the
   terminator, and when it happens to be NUL the body slice has its end before its start.
   */
  function WrappedAnswer(b: Buffer, cursor: nat, len: nat): Pulled
    requires InRange(b) && cursor <= |b.buf| && len < USIZE_LIMIT <= cursor + len
  {
    if b.buf[cursor + len - USIZE_LIMIT] != NUL then Error(MissingNull) else Panic
  }

  function Answer(b: Buffer, r: FrameOutcome): (Pulled, Buffer)
    requires b.pos <= |b.buf|
    requires r.Complete? ==> r.used <= |Pending(b)|
  {
    match r
    case Incomplete => (NoFrame, b)
    case Malformed(e) => (Error(e), b)
    case Complete(f, used) => (Got(f), Compact(b.(pos := b.pos + used)))
  }

  function BodyAnswer(b: Buffer, h: Head, declared: Option<nat>): (Pulled, Buffer)
    requires InRange(b) && h.Head? && h.at <= |Pending(b)|
    requires declared.Some? ==> declared.value < USIZE_LIMIT
  {
    if EndWraps(b.pos + h.at, declared) then (WrappedAnswer(b, b.pos + h.at, declared.value), b)
    else Answer(b, ParseBody(h, declared, Pending(b)[h.at..]))
  }

  function HeadAnswer(b: Buffer, h: Head): (Pulled, Buffer)
    requires InRange(b) && (h.Head? ==> h.at <= |Pending(b)|)
  {
    match h
    case HeadPartial => (NoFrame, b)
    case HeadBad(e) => (Error(e), b)
    case Head(_, headers, _) => BodyAnswer(b, h, ContentLength(headers))
  }

  /** `next_frame`: the answer, and the buffer afterwards. */
  function PullFrom(b: Buffer): (Pulled, Buffer)
    requires InRange(b)
  {
    HeadAnswer(Skip(b), ParseHead(Pending(Skip(b))))
  }

  // ---------- against the reference ----------

  predicate HeadWraps(b: Buffer, h: Head) {
    h.Head? && EndWraps(b.pos + h.at, ContentLength(h.headers))
  }

  /** The declared length of the frame at hand overflows the index arithmetic. */
  predicate Wraps(b: Buffer)
    requires InRange(b)
  {
    HeadWraps(Skip(b), ParseHead(Pending(Skip(b))))
  }

  predicate SameAnswer(got: Pulled, want: FrameOutcome) {
    match want
    case Incomplete => got.NoFrame?
    case Malformed(e) => got == Error(e)
    case Complete(f, _) => got == Got(f)
  }

  /** Pending octets after a call, by the reference: heartbeats are gone even when no frame is complete. */
  function Left(p: Octets, heartbeats: nat, want: FrameOutcome): Octets {
    if want.Complete? then Drop(want.used, p) else Drop(heartbeats, p)
  }

  lemma AnswerIsReference(s: Buffer, p: Octets, k: nat, r: FrameOutcome)
    requires s.pos <= |s.buf| && k <= |p| && Pending(s) == p[k..]
    requires r.Complete? ==> r.used <= |Pending(s)|
    ensures SameAnswer(Answer(s, r).0, Skipping(k, r))
    ensures Answer(s, r).1.pos <= |Answer(s, r).1.buf|
    ensures Pending(Answer(s, r).1) == Left(p, k, Skipping(k, r))
  {
    hide Compact;
    if r.Complete? {
      DropDrop(p, k, r.used);
      DropDrop(s.buf, s.pos, r.used);
      CompactKeeps(s.(pos := s.pos + r.used));
    }
  }

  lemma BodyAnswerAgrees(s: Buffer, p: Octets, k: nat, h: Head, declared: Option<nat>)
    requires InRange(s) && k <= |p| && Pending(s) == p[k..]
    requires h.Head? && h.at <= |Pending(s)|
    requires declared.Some? ==> declared.value < USIZE_LIMIT
    ensures var got, want := BodyAnswer(s, h, declared), Skipping(k, ParseBody(h, declared, Pending(s)[h.at..]));
            && (SameAnswer(got.0, want) <==> !EndWraps(s.pos + h.at, declared))
            && (!EndWraps(s.pos + h.at, declared) ==>
                  got.1.pos <= |got.1.buf| && Pending(got.1) == Left(p, k, want))
  {
    if !EndWraps(s.pos + h.at, declared) {
      AnswerIsReference(s, p, k, ParseBody(h, declared, Pending(s)[h.at..]));
    }
  }

  lemma HeadAnswerAgrees(s: Buffer, p: Octets, k: nat, h: Head)
    requires InRange(s) && k <= |p| && Pending(s) == p[k..]
    requires h.Head? ==> 0 < h.at <= |Pending(s)|
    ensures var got, want := HeadAnswer(s, h), Skipping(k, AfterHead(h, p[k..]));
            && (SameAnswer(got.0, want) <==> !HeadWraps(s, h))
            && (!HeadWraps(s, h) ==> got.1.pos <= |got.1.buf| && Pending(got.1) == Left(p, k, want))
  {
    if h.Head? {
      BodyAnswerAgrees(s, p, k, h, ContentLength(h.headers));
    }
  }

  /** The code gives the reference answer exactly when the body length does not wrap. */
  lemma PullAgrees(b: Buffer)
    requires InRange(b)
    ensures var p := Pending(b);
            && (SameAnswer(PullFrom(b).0, NextFrame(p)) <==> !Wraps(b))
            && (!Wraps(b) ==> PullFrom(b).1.pos <= |PullFrom(b).1.buf|
                              && Pending(PullFrom(b).1) == Left(p, Eols(p), NextFrame(p)))
  {
    var p := Pending(b);
    SkipKeeps(b);
    HeadAnswerAgrees(Skip(b), p, Eols(p), ParseHead(Pending(Skip(b))));
  }

  lemma AnswerShrinks(s: Buffer, r: FrameOutcome)
    requires s.pos <= |s.buf| && (r.Complete? ==> 0 < r.used <= |Pending(s)|)
    ensures var (got, b) := Answer(s, r);
            b.pos <= |b.buf| <= |s.buf| && |Pending(b)| <= |Pending(s)| && (got.Got? ==> |Pending(b)| < |Pending(s)|)
  {
    if r.Complete? {
      CompactKeeps(s.(pos := s.pos + r.used));
    }
  }

  lemma HeadShrinks(s: Buffer, h: Head)
    requires InRange(s) && (h.Head? ==> 0 < h.at <= |Pending(s)|)
    ensures var (got, b) := HeadAnswer(s, h);
            && b.pos <= |b.buf| <= |s.buf|
            && |Pending(b)| <= |Pending(s)|
            && (got.Got? ==> |Pending(b)| < |Pending(s)|)
  {
    hide ContentLength, ParseBody, Compact;
    if h.Head? && !EndWraps(s.pos + h.at, ContentLength(h.headers)) {
      AnswerShrinks(s, ParseBody(h, ContentLength(h.headers), Pending(s)[h.at..]));
    }
  }

  /** A call never grows what is pending, and a frame always takes something off it. */
  lemma PullShrinks(b: Buffer)
    requires InRange(b)
    ensures var (got, b') := PullFrom(b);
            && b'.pos <= |b'.buf| <= |b.buf|
            && |Pending(b')| <= |Pending(b)|
            && (got.Got? ==> |Pending(b')| < |Pending(b)|)
  {
    hide ParseHead, HeadAnswer, Eols;
    SkipKeeps(b);
    HeadShrinks(Skip(b), ParseHead(Pending(Skip(b))));
  }

  // ---------- the code, as written ----------

  class Decoder {
    var buf: Octets
    var pos: nat

    /** Fewer than `COMPACT_AT` consumed octets are ever kept, and none when nothing is pending. */
    ghost predicate Valid()
      reads this
    {
      pos <= |buf| < ISIZE_LIMIT && pos < COMPACT_AT && (pos == 0 || pos < |buf|)
    }

    ghost function Value(): Buffer
      reads this
    {
      Buffer(buf, pos)
    }

    constructor ()
      ensures Valid() && Value() == Buffer([], 0)
    {
      buf, pos := [], 0;
    }

    /** A Rust vector cannot outgrow `ISIZE_LIMIT`; the caller's memory ends long before. */
    method Push(data: Octets)
      requires Valid() && |buf| + |data| < ISIZE_LIMIT
      modifies this
      ensures Valid() && Value() == Buffer(old(buf) + data, old(pos))
      ensures Pending(Value()) == old(Pending(Value())) + data
    {
      buf := buf + data;
    }

    /** `pending` */
    function PendingCount(): (n: nat)
      requires pos <= |buf|
      reads this
      ensures n == |Pending(Value())|
    {
      |buf| - pos
    }

    method Compacted()
      requires pos <= |buf| < ISIZE_LIMIT
      modifies this
      ensures Valid() && Value() == Compact(old(Value()))
    {
      if pos > 0 && (pos == |buf| || pos >= COMPACT_AT) {
        buf := buf[pos..];
        pos := 0;
      }
    }

    method SkipHeartbeats()
      requires Valid()
      modifies this
      ensures Valid() && Value() == Skip(old(Value()))
    {
      pos := AfterEols(buf, pos);
      Compacted();
    }

    /** `next_frame`. */
    method NextFrame() returns (r: Pulled)
      requires Valid()
      modifies this
      ensures Valid() && (r, Value()) == PullFrom(old(Value()))
    {
      hide ParseHead, ContentLength, Skip, Compact, BodyAnswer;
      SkipHeartbeats();
      NothingLeftToSkip(old(Value()));
      var head := ReadHead(buf, pos);
      match head {
        case HeadPartial => return NoFrame;
        case HeadBad(e) => return Error(e);
        case Head(_, headers, _) =>
          var declared := ContentLength(headers);
          var end := pos;
          if declared.Some? {
            r, end := ReadSized(Buffer(buf, pos), head, declared.value);
          } else {
            r, end := ReadToNul(Buffer(buf, pos), head);
          }
          if r.Got? {
            pos := end;
            Compacted();
          }
      }
    }
  }

  method AfterEols(buf: Octets, pos: nat) returns (end: nat)
    requires pos <= |buf|
    ensures end == pos + Eols(buf[pos..])
  {
    end := pos;
    while end < |buf| && (buf[end] == LF || buf[end] == CR)
      invariant pos <= end <= |buf|
      invariant end + Eols(buf[end..]) == pos + Eols(buf[pos..])
    {
      EolsStep(buf, end);
      end := end + 1;
    }
    if end < |buf| {
      assert buf[end..][0] == buf[end];
    }
  }

  /** The header line at `cursor`; `next` is counted from there. */
  method ReadLine(buf: Octets, cursor: nat) returns (r: Line)
    requires cursor <= |buf|
    ensures r == ParseLine(buf[cursor..])
  {
    match Find(buf[cursor..], LF) {
      case None => return NoLine;
      case Some(nl) =>
        assert buf[cursor..][..nl] == buf[cursor..cursor + nl];
        var line := StripCr(buf[cursor..cursor + nl]);
        if line == [] {
          return Blank(nl + 1);
        }
        r := ReadField(line, nl + 1);
    }
  }

  /** Headers from `start` on; `at` is counted in the buffer. */
  method ReadHeaders(buf: Octets, start: nat) returns (r: Head)
    requires start <= |buf|
    ensures r == AfterLines([], start, ParseHeaders(buf[start..]))
  {
    hide ParseLine;
    var cursor, headers := start, [];
    while true
      invariant start <= cursor <= |buf|
      invariant AfterLines([], start, ParseHeaders(buf[start..]))
                == AfterLines(headers, cursor, ParseHeaders(buf[cursor..]))
      decreases |buf| - cursor
    {
      var line := ReadLine(buf, cursor);
      match line {
        case NoLine => return HeadPartial;
        case BadLine(e) => return HeadBad(e);
        case Blank(next) =>
          assert headers + [] == headers;
          return Head([], headers, cursor + next);
        case HeaderLine(h, next) =>
          DropDrop(buf, cursor, next);
          LinesExtend(headers, h, cursor, next, ParseHeaders(buf[cursor + next..]));
          headers := headers + [h];
          cursor := cursor + next;
      }
    }
  }

  /** The command line at `pos`, which the skipped heartbeats leave non-empty. */
  method ReadCommand(buf: Octets, pos: nat) returns (r: CommandLine)
    requires pos <= |buf| && Eols(buf[pos..]) == 0
    ensures r == ParseCommand(buf[pos..])
  {
    match Find(buf[pos..], LF) {
      case None => return NoCommand;
      case Some(nl) =>
        CommandLineNotEmpty(buf[pos..], nl);
        assert buf[pos..][..nl] == buf[pos..pos + nl];
        var cmdLine := StripCr(buf[pos..pos + nl]);
        if cmdLine == [] {
          assert false;
        }
        var command := CommandOf(cmdLine);
        if command.Err? {
          return BadCommand(command.error);
        }
        return Command(command.value, nl + 1);
    }
  }

  /** The head of the frame at `pos`. */
  method ReadHead(buf: Octets, pos: nat) returns (r: Head)
    requires pos <= |buf| && Eols(buf[pos..]) == 0
    ensures r == ParseHead(buf[pos..])
  {
    hide ParseCommand, ParseHeaders;
    var command := ReadCommand(buf, pos);
    match command {
      case NoCommand => return HeadPartial;
      case BadCommand(e) => return HeadBad(e);
      case Command(text, next) =>
        r := ReadHeaders(buf, pos + next);
        DropDrop(buf, pos, next);
        HeadersAfterCommand(text, pos, next, ParseHeaders(buf[pos + next..]));
        if r.Head? {
          r := Head(text, r.headers, r.at - pos);
        }
    }
  }

  /** The answer for a frame that declares its length, and where it ends. */
  method ReadSized(b: Buffer, h: Head, len: nat) returns (r: Pulled, end: nat)
    requires InRange(b) && h.Head? && 0 < h.at <= |Pending(b)| && len < USIZE_LIMIT
    ensures end <= |b.buf|
    ensures BodyAnswer(b, h, Some(len)) == (r, if r.Got? then Compact(b.(pos := end)) else b)
  {
    var cursor := b.pos + h.at;
    end := b.pos;
    DropDrop(b.buf, b.pos, h.at);
    var bodyEnd := WrappingAdd(cursor, len);
    if |b.buf| <= bodyEnd {
      r := NoFrame;
    } else if b.buf[bodyEnd] != NUL {
      r := Error(MissingNull);
    } else if bodyEnd < cursor {
      r := Panic;
    } else {
      var body := b.buf[cursor..bodyEnd];
      assert b.buf[cursor..][..len] == body;
      r, end := Got(Frame(h.command, h.headers, body)), bodyEnd + 1;
    }
  }

  /** The answer for a frame that ends at the first NUL, and where it ends. */
  method ReadToNul(b: Buffer, h: Head) returns (r: Pulled, end: nat)
    requires InRange(b) && h.Head? && 0 < h.at <= |Pending(b)|
    ensures end <= |b.buf|
    ensures BodyAnswer(b, h, None) == (r, if r.Got? then Compact(b.(pos := end)) else b)
  {
    hide Compact, StripEol;
    var cursor := b.pos + h.at;
    end := b.pos;
    DropDrop(b.buf, b.pos, h.at);
    match Find(b.buf[cursor..], NUL) {
      case None =>
        r := NoFrame;
      case Some(nullOff) =>
        var bodyEnd := cursor + nullOff;
        var trimmed := TrimmedEnd(b.buf, cursor, bodyEnd);
        r, end := Got(Frame(h.command, h.headers, b.buf[cursor..trimmed])), bodyEnd + 1;
    }
  }

  /** A single line ending before the NUL is a frame delimiter, not body. */
  method TrimmedEnd(buf: Octets, cursor: nat, bodyEnd: nat) returns (trimmed: nat)
    requires cursor <= bodyEnd <= |buf|
    ensures cursor <= trimmed <= bodyEnd
    ensures buf[cursor..trimmed] == StripEol(buf[cursor..][..bodyEnd - cursor])
  {
    ghost var body := buf[cursor..bodyEnd];
    assert buf[cursor..][..bodyEnd - cursor] == body;
    trimmed := bodyEnd;
    if trimmed > cursor && buf[trimmed - 1] == LF {
      assert body[|body| - 1] == LF;
      trimmed := trimmed - 1;
      assert body[..|body| - 1] == buf[cursor..trimmed];
      if trimmed > cursor && buf[trimmed - 1] == CR {
        assert buf[cursor..trimmed][..|body| - 2] == buf[cursor..trimmed - 1];
        trimmed := trimmed - 1;
      }
    }
  }

  method ReadField(line: Octets, next: nat) returns (r: Line)
    ensures r == ParseField(line, next)
  {
    match Find(line, COLON) {
      case None => return BadLine(MissingHeaderValue);
      case Some(colon) =>
        var name := DecodeHeader(line[..colon]);
        if name.Err? {
          return BadLine(name.error);
        }
        var value := DecodeHeader(line[colon + 1..]);
        if value.Err? {
          return BadLine(value.error);
        }
        return HeaderLine(Header(name.value, value.value), next);
    }
  }

  function AfterLines(done: seq<Header>, at: nat, r: Head): Head {
    if r.Head? then Head([], done + r.headers, at + r.at) else r
  }

  lemma LinesExtend(done: seq<Header>, h: Header, at: nat, next: nat, r: Head)
    ensures AfterLines(done, at, AfterLine(h, next, r)) == AfterLines(done + [h], at + next, r)
  {
    if r.Head? {
      assert done + ([h] + r.headers) == done + [h] + r.headers;
    }
  }

  lemma HeadersAfterCommand(command: Octets, pos: nat, next: nat, r: Head)
    ensures var lines := AfterLines([], pos + next, r);
            AfterCommand(command, next, r)
              == if lines.Head? then Head(command, lines.headers, lines.at - pos) else lines
  {
    if r.Head? {
      assert [] + r.headers == r.headers;
    }
  }

  lemma EolsStep(buf: Octets, pos: nat)
    requires pos < |buf| && (buf[pos] == LF || buf[pos] == CR)
    ensures Eols(buf[pos..]) == 1 + Eols(buf[pos + 1..])
  {
    assert buf[pos..][1..] == buf[pos + 1..];
  }

  lemma NothingLeftToSkip(b: Buffer)
    requires b.pos <= |b.buf|
    ensures Eols(Pending(Skip(b))) == 0
  {
    SkipKeeps(b);
    var p := Pending(b);
    var k := Eols(p);
    if k < |p| {
      assert p[k..][0] == p[k];
    }
  }

  /** Once the heartbeats are gone the command line cannot be empty: the recursive call is dead code. */
  lemma CommandLineNotEmpty(p: Octets, nl: nat)
    requires Find(p, LF) == Some(nl) && Eols(p) == 0
    ensures StripCr(p[..nl]) != []
  {
    assert p[0] != LF && p[0] != CR;
    assert p[..nl][0] == p[0];
  }

  // ---------- header text, as written ----------

  method DecodeHeader(bytes: Octets) returns (r: Result<Octets, CodecError>)
    ensures r == DecodedHeader(bytes)
  {
    if !Utf8(bytes) {
      return Err(NotUtf8);
    }
    var out, i := [], 0;
    JoinedNothing(Unescape(bytes));
    assert bytes[0..] == bytes;
    while i < |bytes|
      invariant 0 <= i <= |bytes|
      invariant Unescape(bytes) == Joined(out, Unescape(bytes[i..]))
    {
      ghost var rest := bytes[i..];
      var c := bytes[i];
      if c != BACKSLASH {
        assert rest[1..] == bytes[i + 1..];
        i := i + 1;
      } else {
        if i + 1 == |bytes| {
          return Err(TrailingEscape);
        }
        assert rest[2..] == bytes[i + 2..];
        match bytes[i + 1] {
          case 110 => c := LF;
          case 114 => c := CR;
          case 99 => c := COLON;
          case 92 => c := BACKSLASH;
          case _ => return Err(InvalidEscape);
        }
        i := i + 2;
      }
      assert forall t: Octets :: out + ([c] + t) == out + [c] + t;
      out := out + [c];
    }
    assert bytes[i..] == [] && out + [] == out;
    return Ok(out);
  }

  lemma JoinedNothing(r: Result<Octets, CodecError>)
    ensures Joined([], r) == r
  {
    if r.Ok? {
      assert [] + r.value == r.value;
    }
  }

  function Joined(out: Octets, r: Result<Octets, CodecError>): Result<Octets, CodecError> {
    if r.Ok? then Ok(out + r.value) else r
  }

  method EncodeHeader(value: Octets, out: Octets) returns (r: Octets)
    ensures r == out + Escape(value)
  {
    r := out;
    for i := 0 to |value|
      invariant r + Escape(value[i..]) == out + Escape(value)
    {
      assert value[i..][1..] == value[i + 1..];
      assert r + (Escape1(value[i]) + Escape(value[i + 1..])) == r + Escape1(value[i]) + Escape(value[i + 1..]);
      r := r + Escape1(value[i]);
    }
  }

  method EncodeHeaders(hs: seq<Header>, out: Octets) returns (r: Octets)
    ensures r == out + EncodedHeaders(hs)
  {
    r := out;
    assert hs[0..] == hs;
    for i := 0 to |hs|
      invariant r + EncodedHeaders(hs[i..]) == out + EncodedHeaders(hs)
    {
      ghost var before, after := r, EncodedHeaders(hs[i + 1..]);
      EncodedFirst(hs[i..]);
      assert hs[i..][1..] == hs[i + 1..];
      r := EncodeHeader(hs[i].name, r);
      r := r + [COLON];
      r := EncodeHeader(hs[i].value, r);
      r := r + [LF];
      Regroup(before, Escape(hs[i].name), Escape(hs[i].value), after);
    }
    assert hs[|hs|..] == [] && r + [] == r;
  }

  lemma EncodedFirst(hs: seq<Header>)
    requires hs != []
    ensures EncodedHeaders(hs) == Escape(hs[0].name) + [COLON] + Escape(hs[0].value) + [LF] + EncodedHeaders(hs[1..])
  {
  }

  lemma Regroup(before: Octets, name: Octets, value: Octets, after: Octets)
    ensures before + (name + [COLON] + value + [LF] + after) == before + name + [COLON] + value + [LF] + after
  {
  }

  /** `Frame::encode`. */
  method Encode(f: Frame) returns (out: Octets)
    ensures out == Encoded(f)
  {
    out := f.command + [LF];
    out := EncodeHeaders(f.headers, out);
    out := out + [LF] + f.body + [NUL];
  }
}
