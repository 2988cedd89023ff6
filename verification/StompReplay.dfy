/** Whole runs of the decoder object, for every way of cutting up the stream. */
module StompReplay {
  import opened Wrappers
  import opened Bytes
  import opened Text
  import opened Incremental
  import opened StompCodec
  import opened StompStream
  import opened StompRoundTrip
  import opened StompDecoder
  import StompReading
  import opened StompSend

  // ---------- streams on which the arithmetic cannot wrap ----------

  /** The announced end of the body fits a `usize` wherever in the buffer the head may lie. */
  predicate TameHead(h: Head) {
    h.Head? && ContentLength(h.headers).Some? ==>
      h.at + ContentLength(h.headers).value + COMPACT_AT <= USIZE_LIMIT
  }

  /** The bound is tight: it holds of a head exactly when no position the decoder keeps makes it wrap. */
  lemma TameHeadIsTight(h: Head)
    requires h.Head?
    ensures TameHead(h) <==>
      forall cursor: nat :: h.at <= cursor < h.at + COMPACT_AT ==> !EndWraps(cursor, ContentLength(h.headers))
  {
    if !TameHead(h) {
      assert EndWraps(h.at + COMPACT_AT - 1, ContentLength(h.headers));
    }
  }

  /** No frame of the stream announces a body whose end could not be an index. */
  predicate Tame(p: Octets)
    decreases |p|
  {
    && TameHead(ParseHead(p[Eols(p)..]))
    && (NextFrame(p).Complete? ==> Tame(p[NextFrame(p).used..]))
  }

  lemma TamePrefixHead(p: Octets, q: Octets)
    requires Tame(p + q)
    ensures TameHead(ParseHead(p[Eols(p)..]))
  {
    hide ParseHead, NextFrame;
    var k := Eols(p);
    if ParseHead(p[k..]).Head? {
      HeadStable(p[k..], q);
      SkipSplit(p, q);
      HeadNotEmpty(p[k..]);
      assert (p + q)[k..] == p[k..] + q;
      EolsSplit(p, q);
    }
  }

  lemma HeadNotEmpty(p: Octets)
    requires ParseHead(p).Head?
    ensures p != []
  {
  }

  lemma TameAfterFrame(p: Octets, q: Octets)
    requires Tame(p + q) && NextFrame(p).Complete?
    ensures Tame(p[NextFrame(p).used..] + q)
  {
    hide ParseHead, NextFrame;
    AnswerStable(p, q);
    var used := NextFrame(p).used;
    assert (p + q)[used..] == p[used..] + q;
  }

  lemma TameParts(p: Octets)
    ensures Tame(p) <==> TameHead(ParseHead(p[Eols(p)..])) && (NextFrame(p).Complete? ==> Tame(p[NextFrame(p).used..]))
  {
    hide ParseHead, NextFrame, Eols, TameHead;
  }

  lemma TameAfterSkip(p: Octets, q: Octets)
    requires Tame(p + q)
    ensures Tame(p[Eols(p)..] + q)
  {
    hide ParseHead, NextFrame, Eols, Tame, TameHead;
    var k := Eols(p);
    var r := p[k..] + q;
    SkipSplit(p, q);
    SkippingIsFree(p, q);
    assert Drop(k, p) == p[k..];
    TameParts(p + q);
    TameParts(r);
    if NextFrame(r).Complete? {
      assert (p + q)[k..] == r;
      DropDrop(p + q, k, NextFrame(r).used);
    }
  }

  /** On such a stream every call of the code gives the reference answer. */
  lemma TameNeverWraps(b: Buffer, q: Octets)
    requires InRange(b) && Tame(Pending(b) + q)
    ensures !Wraps(b)
  {
    hide ParseHead, ContentLength, Eols;
    TamePrefixHead(Pending(b), q);
    SkipKeeps(b);
    CompactKeeps(b.(pos := b.pos + Eols(Pending(b))));
  }

  /** What is left pending by a call keeps the rest of the stream tame. */
  lemma TameAfterPull(p: Octets, q: Octets)
    requires Tame(p + q)
    ensures Tame(Left(p, Eols(p), NextFrame(p)) + q)
  {
    hide NextFrame, Tame, Eols;
    if NextFrame(p).Complete? {
      TameAfterFrame(p, q);
    } else {
      TameAfterSkip(p, q);
    }
  }

  // ---------- runs of the code ----------

  /** Why a decoder is not polled any more. */
  datatype Stop = Reported(error: CodecError) | Panicked

  /** A decoder, the frames it handed out, and whether it stopped. */
  datatype Coder = Coder(buffer: Buffer, frames: seq<Frame>, stop: Option<Stop>)

  const START := Coder(Buffer([], 0), [], None)

  function Polled(c: Coder): Coder {
    if !InRange(c.buffer) then c.(stop := Some(Panicked)) else
      var (got, b) := PullFrom(c.buffer);
      match got
      case NoFrame => c.(buffer := b)
      case Got(f) => Coder(b, c.frames + [f], None)
      case Error(e) => Coder(b, c.frames, Some(Reported(e)))
      case Panic => Coder(b, c.frames, Some(Panicked))
  }

  function Did(c: Coder, op: Op<byte>): Coder {
    match op
    case Push(data) => c.(buffer := c.buffer.(buf := c.buffer.buf + data))
    case Pull => if c.stop.Some? then c else Polled(c)
  }

  function CodeRun(c: Coder, ops: seq<Op<byte>>): Coder
    decreases |ops|
  {
    if ops == [] then c else CodeRun(Did(c, ops[0]), ops[1..])
  }

  predicate Wrapping(c: Coder) {
    c.stop.None? && InRange(c.buffer) && Wraps(c.buffer)
  }

  /** Some poll of the run, before the first error, wraps. */
  predicate SomeWrap(c: Coder, ops: seq<Op<byte>>)
    decreases |ops|
  {
    ops != [] && ((ops[0].Pull? && Wrapping(c)) || SomeWrap(Did(c, ops[0]), ops[1..]))
  }

  type Reference = Reader<byte, Frame, CodecError>

  /** The code is where the reference is: same frames, same error, same pending octets. */
  predicate Agrees(c: Coder, s: Reference) {
    && c.buffer.pos <= |c.buffer.buf| && Pending(c.buffer) == s.pending && c.frames == s.items
    && c.stop == (if s.error.Some? then Some(Reported(s.error.value)) else None)
  }

  lemma PullKeepsAgreement(c: Coder, s: Reference)
    requires InRange(c.buffer) && Agrees(c, s) && !Wrapping(c)
    ensures Agrees(Did(c, Pull), Apply(NextFrame, Eols, s, Pull))
    ensures |Did(c, Pull).buffer.buf| <= |c.buffer.buf|
  {
    hide NextFrame, Eols, PullFrom, Wraps;
    if c.stop.None? {
      PullAgrees(c.buffer);
      PullShrinks(c.buffer);
    }
  }

  lemma PushKeepsAgreement(c: Coder, s: Reference, data: Octets)
    requires Agrees(c, s)
    ensures Agrees(Did(c, Push(data)), Apply(NextFrame, Eols, s, Push(data)))
  {
    hide NextFrame, Eols;
    assert (c.buffer.buf + data)[c.buffer.pos..] == c.buffer.buf[c.buffer.pos..] + data;
  }

  // ---------- a wrap parts the two for good ----------

  /** A head is complete, and announces more octets than there are or will be. */
  predicate Stuck(p: Octets, more: nat) {
    var h := ParseHead(p[Eols(p)..]);
    h.Head? && ContentLength(h.headers).Some? && h.at + ContentLength(h.headers).value >= |p| + more
  }

  lemma StuckIncomplete(p: Octets, more: nat)
    requires Stuck(p, more)
    ensures NextFrame(p).Incomplete?
  {
    hide ParseHead, ContentLength, Eols;
  }

  lemma StuckSkips(p: Octets, more: nat)
    requires Stuck(p, more)
    ensures Stuck(Drop(Eols(p), p), more)
  {
    hide ParseHead, ContentLength, Eols;
    var k := Eols(p);
    EolsAgain(p);
    assert Drop(k, p) == p[k..] && p[k..][0..] == p[k..];
  }

  lemma EolsAgain(p: Octets)
    ensures Eols(p) <= |p| && Eols(p[Eols(p)..]) == 0
  {
    NoEols(p[Eols(p)..]);
  }

  lemma StuckGrows(p: Octets, data: Octets, more: nat)
    requires Stuck(p, |data| + more)
    ensures Stuck(p + data, more)
  {
    hide ParseHead, ContentLength, Eols;
    var k := Eols(p);
    HeadNotEmpty(p[k..]);
    HeadStable(p[k..], data);
    EolsSplit(p, data);
    assert (p + data)[k..] == p[k..] + data;
  }

  /** The reference just waits for the announced octets. */
  lemma {:induction false} StuckForever(s: Reference, ops: seq<Op<byte>>)
    requires s.error.None? && Stuck(s.pending, |Pushed(ops)|)
    ensures Run(NextFrame, Eols, s, ops).error.None?
    decreases |ops|
  {
    hide NextFrame, Eols, Stuck;
    if ops != [] {
      match ops[0] {
        case Push(data) => StuckGrows(s.pending, data, |Pushed(ops[1..])|);
        case Pull =>
          StuckIncomplete(s.pending, |Pushed(ops[1..])|);
          StuckSkips(s.pending, |Pushed(ops[1..])|);
      }
      StuckForever(Apply(NextFrame, Eols, s, ops[0]), ops[1..]);
    }
  }

  lemma WrapStops(c: Coder)
    requires Wrapping(c)
    ensures Did(c, Pull).stop.Some?
  {
    hide PullFrom, Wraps;
    StompReading.WrapIsNoFrame(c.buffer);
  }

  lemma WrapSticks(b: Buffer, more: nat)
    requires InRange(b) && Wraps(b) && |b.buf| + more < ISIZE_LIMIT
    ensures Stuck(Pending(b), more)
  {
    hide ParseHead, ContentLength, Eols;
    SkipKeeps(b);
  }

  lemma {:induction false} StopsForGood(c: Coder, ops: seq<Op<byte>>)
    requires c.stop.Some?
    ensures CodeRun(c, ops).stop == c.stop
    decreases |ops|
  {
    hide Polled;
    if ops != [] {
      StopsForGood(Did(c, ops[0]), ops[1..]);
    }
  }

  /**
   From any state in which they agree, a run of the code and the reference run of the same
   operations end in agreement if and only if no poll before the first error wraps.
   */
  lemma {:induction false} RunsAgreeFrom(c: Coder, s: Reference, ops: seq<Op<byte>>)
    requires Agrees(c, s) && |c.buffer.buf| + |Pushed(ops)| < ISIZE_LIMIT
    ensures Agrees(CodeRun(c, ops), Run(NextFrame, Eols, s, ops)) <==> !SomeWrap(c, ops)
    decreases |ops|
  {
    hide NextFrame, Eols, Did, Wraps, Apply;
    if ops != [] {
      if ops[0].Pull? && Wrapping(c) {
        WrapStops(c);
        StopsForGood(Did(c, ops[0]), ops[1..]);
        WrapSticks(c.buffer, |Pushed(ops)|);
        StuckForever(s, ops);
      } else {
        var c', s' := Did(c, ops[0]), Apply(NextFrame, Eols, s, ops[0]);
        match ops[0] {
          case Push(data) =>
            PushKeepsAgreement(c, s, data);
            PushedBuffer(c, data);
          case Pull =>
            PullKeepsAgreement(c, s);
        }
        RunsAgreeFrom(c', s', ops[1..]);
      }
    }
  }

  lemma PushedBuffer(c: Coder, data: Octets)
    ensures |Did(c, Push(data)).buffer.buf| == |c.buffer.buf| + |data|
  {
  }

  /**
   The decoder and its reference, over every run: frames, error and pending octets agree at the end
   if and only if no poll before the first error wraps.
   */
  lemma RunsAgreeExactly(ops: seq<Op<byte>>)
    requires |Pushed(ops)| < ISIZE_LIMIT
    ensures Agrees(CodeRun(START, ops), Run(NextFrame, Eols, Reader([], [], None), ops)) <==> !SomeWrap(START, ops)
  {
    hide NextFrame, Eols, CodeRun, Run, SomeWrap;
    RunsAgreeFrom(START, Reader([], [], None), ops);
  }

  /** Hence chunk invariance of the code on every stream on which nothing wraps. */
  lemma CodeChunkInvariance(ops: seq<Op<byte>>)
    requires |Pushed(ops)| < ISIZE_LIMIT && !SomeWrap(START, ops)
    ensures var c, whole := CodeRun(START, ops), Drain(NextFrame, Eols, Pushed(ops));
      && c.buffer.pos <= |c.buffer.buf| && c.frames <= whole.items
      && (c.stop.Some? ==> c.stop.value.Reported? && whole == Drained(c.frames, Failed(c.stop.value.error)))
      && (c.stop.None? ==> Then(c.frames, Drain(NextFrame, Eols, Pending(c.buffer))) == whole)
  {
    hide NextFrame, Eols, CodeRun, Run, SomeWrap, Pushed, Drain;
    RunsAgreeExactly(ops);
    StompChunkInvariance(ops);
  }

  /** Nothing wraps on a tame stream, however it is cut and polled. */
  lemma {:induction false} TameRunsNeverWrap(c: Coder, ops: seq<Op<byte>>)
    requires c.buffer.pos <= |c.buffer.buf| && |c.buffer.buf| + |Pushed(ops)| < ISIZE_LIMIT
    requires c.stop.None? ==> Tame(Pending(c.buffer) + Pushed(ops))
    ensures !SomeWrap(c, ops)
    decreases |ops|
  {
    hide NextFrame, Eols, Wraps, Tame, PullFrom;
    if ops != [] {
      var q := Pushed(ops[1..]);
      match ops[0] {
        case Push(data) =>
          var b := c.buffer;
          assert (b.buf + data)[b.pos..] == b.buf[b.pos..] + data;
          assert Pending(b) + (data + q) == Pending(b) + data + q;
        case Pull =>
          assert [] + q == q;
          if c.stop.None? {
            TameNeverWraps(c.buffer, q);
            PullAgrees(c.buffer);
            PullShrinks(c.buffer);
            TameAfterPull(Pending(c.buffer), q);
          }
      }
      TameRunsNeverWrap(Did(c, ops[0]), ops[1..]);
    }
  }

  lemma TameRuns(ops: seq<Op<byte>>)
    requires |Pushed(ops)| < ISIZE_LIMIT && Tame(Pushed(ops))
    ensures !SomeWrap(START, ops)
  {
    hide Tame, SomeWrap;
    assert Pending(START.buffer) + Pushed(ops) == Pushed(ops);
    TameRunsNeverWrap(START, ops);
  }

  // ---------- the object ----------

  /** Drives a decoder object through any interleaving of pushes and pulls: it does what the run of the code says. */
  method Replay(ops: seq<Op<byte>>) returns (frames: seq<Frame>, stop: Option<Stop>, d: Decoder)
    requires |Pushed(ops)| < ISIZE_LIMIT
    ensures d.Valid() && fresh(d)
    ensures Coder(d.Value(), frames, stop) == CodeRun(START, ops)
  {
    hide PullFrom, Pushed;
    d := new Decoder();
    frames, stop := [], None;
    assert ops[0..] == ops;
    var i := 0;
    while i < |ops|
      invariant i <= |ops| && d.Valid() && fresh(d) && |d.buf| + |Pushed(ops[i..])| < ISIZE_LIMIT
      invariant CodeRun(Coder(d.Value(), frames, stop), ops[i..]) == CodeRun(START, ops)
    {
      PushedFrom(ops, i);
      assert ops[i..][1..] == ops[i + 1..];
      match ops[i] {
        case Push(data) => d.Push(data);
        case Pull =>
          if stop.None? {
            PullShrinks(d.Value());
            var r := d.NextFrame();
            match r {
              case NoFrame =>
              case Got(f) => frames := frames + [f];
              case Error(e) => stop := Some(Reported(e));
              case Panic => stop := Some(Panicked);
            }
          }
      }
      i := i + 1;
    }
  }

  lemma PushedFrom(ops: seq<Op<byte>>, i: nat)
    requires i < |ops|
    ensures Pushed(ops[i..]) == DataOf(ops[i]) + Pushed(ops[i + 1..])
  {
    assert ops[i..][1..] == ops[i + 1..];
  }

  // ---------- outside those streams ----------

  /** A complete head that announces `n` octets of body, with nothing behind it. */
  function Announcing(n: nat): Octets {
    EncodedHead([66], [Header(CONTENT_LENGTH, Decimal(n))])
  }

  lemma AnnouncingHead(n: nat)
    requires n < USIZE_LIMIT
    ensures var h := ParseHead(Announcing(n));
            h.Head? && h.at == |Announcing(n)| && ContentLength(h.headers) == Some(n)
    ensures Eols(Announcing(n)) == 0
  {
    hide ParseHead, EncodedHead, Eols, Utf8, Trim, ParseUsize;
    var hs := [Header(CONTENT_LENGTH, Decimal(n))];
    var p := Announcing(n);
    assert p + [] == p;
    AnnouncingTyped(n);
    HeadRoundTrip([66], hs, []);
    TrimDecimal(n);
    ParseDecimal(n);
    FirstIsB(hs);
    NoEols(p);
  }

  lemma FirstIsB(hs: seq<Header>)
    ensures EncodedHead([66], hs) != [] && EncodedHead([66], hs)[0] == 66
  {
    hide EncodedHeaders;
  }

  lemma AnnouncingTyped(n: nat)
    ensures PlainCommand([66]) && Utf8([66]) && HeadersUtf8([Header(CONTENT_LENGTH, Decimal(n))])
  {
    var b: Octets := [66];
    PrintableCommand(b);
    DecimalAscii(n);
    LengthNameUtf8(CONTENT_LENGTH, Decimal(n));
  }

  lemma PrintableCommand(c: Octets)
    requires c != [] && forall i :: 0 <= i < |c| ==> 33 <= c[i] < 0x80
    ensures PlainCommand(c) && Utf8(c)
  {
    TrimKeepsAscii(c);
    AsciiIsUtf8(c);
  }

  lemma LengthNameUtf8(name: Octets, value: Octets)
    requires Ascii(name) && Ascii(value)
    ensures HeadersUtf8([Header(name, value)])
  {
    AsciiIsUtf8(name);
    AsciiIsUtf8(value);
  }

  /** The answer to such a head depends on how much consumed input still lies in front of it. */
  lemma AnswerDependsOnPosition(kept: Octets, n: nat)
    requires |kept| < COMPACT_AT
    requires n < USIZE_LIMIT && |kept| + |Announcing(n)| < ISIZE_LIMIT
    ensures PullFrom(Buffer(kept + Announcing(n), |kept|)).0.NoFrame?
            <==> |kept| + |Announcing(n)| + n < USIZE_LIMIT
  {
    hide ParseHead, Announcing, Eols, ContentLength;
    var p := Announcing(n);
    var b := Buffer(kept + p, |kept|);
    AnnouncingHead(n);
    assert Pending(b) == p;
    assert Skip(b) == b;
    assert p[|p|..] == [];
  }

  function Pow10(k: nat): nat {
    if k == 0 then 1 else 10 * Pow10(k - 1)
  }

  lemma {:induction false} DecimalLength(n: nat, k: nat)
    requires 0 < k && n < Pow10(k)
    ensures |Decimal(n)| <= k
    decreases k
  {
    if n >= 10 {
      assert Pow10(k) == 10 * Pow10(k - 1);
      assert n / 10 < Pow10(k - 1);
      DecimalLength(n / 10, k - 1);
    }
  }

  lemma {:induction false} EscapeLength(s: Octets)
    ensures |Escape(s)| <= 2 * |s|
  {
    if s != [] {
      EscapeLength(s[1..]);
    }
  }

  lemma {:induction false} Pow10Sum(a: nat, b: nat)
    ensures Pow10(a + b) == Pow10(a) * Pow10(b)
  {
    if a > 0 {
      Pow10Sum(a - 1, b);
    }
  }

  lemma LimitBelowPow10()
    ensures USIZE_LIMIT < Pow10(20)
  {
    assert Pow10(2) == 100;
    Pow10Sum(2, 3);
    assert Pow10(3) == 10 * Pow10(2);
    Pow10Sum(5, 5);
    Pow10Sum(10, 10);
  }

  lemma AnnouncingLength(n: nat)
    requires n < USIZE_LIMIT
    ensures |Announcing(n)| <= 100
  {
    LimitBelowPow10();
    DecimalLength(n, 20);
    HeadLength(CONTENT_LENGTH, Decimal(n));
  }

  lemma HeadLength(name: Octets, value: Octets)
    ensures |EncodedHead([66], [Header(name, value)])| <= 5 + 2 * |name| + 2 * |value|
  {
    hide Escape;
    EscapeLength(name);
    EscapeLength(value);
    var hs := [Header(name, value)];
    EncodedFirst(hs);
    assert EncodedHeaders(hs[1..]) == [];
  }

  lemma PadRoundTrip(pad: Octets, rest: Octets)
    requires NUL !in pad && LF !in pad
    ensures var f := Frame([65], [], pad); NextFrame(Encoded(f) + rest) == Complete(f, |pad| + 4)
  {
    hide Encoded, NextFrame, Utf8, Trim;
    var f := Frame([65], [], pad);
    PrintableCommand([65]);
    PadFaithful(f);
    FrameRoundTrip(f, rest);
    PadLength(f);
  }

  lemma PadFaithful(f: Frame)
    requires PlainCommand(f.command) && Utf8(f.command) && f.headers == []
    requires NUL !in f.body && LF !in f.body
    ensures WellTyped(f) && Faithful(f)
  {
    hide PlainCommand, Utf8;
  }

  lemma PadLength(f: Frame)
    requires f.headers == []
    ensures |Encoded(f)| == |f.command| + |f.body| + 3
  {
  }

  /** Pulling the first of the two frames leaves it in the buffer unless nothing follows. */
  lemma PullFirst(f: Frame, rest: Octets)
    requires NextFrame(Encoded(f) + rest) == Complete(f, |Encoded(f)|)
    requires |Encoded(f)| < COMPACT_AT && |Encoded(f)| + |rest| < ISIZE_LIMIT
    requires ContentLength(f.headers).None? && Eols(Encoded(f) + rest) == 0
    ensures PullFrom(Buffer(Encoded(f) + rest, 0))
            == (Got(f), if rest == [] then Buffer([], 0) else Buffer(Encoded(f) + rest, |Encoded(f)|))
  {
    hide Encoded, NextFrame, PullFrom, ContentLength, Eols;
    var p := Encoded(f) + rest;
    assert p[0..] == p;
    PullComplete(Buffer(p, 0), f, |Encoded(f)|);
    assert p[|p|..] == [];
  }

  lemma PullComplete(b: Buffer, f: Frame, used: nat)
    requires InRange(b) && b.pos == 0 && Eols(Pending(b)) == 0
    requires NextFrame(Pending(b)) == Complete(f, used) && used <= |Pending(b)|
    requires ContentLength(f.headers).None?
    ensures PullFrom(b) == (Got(f), Compact(b.(pos := used)))
  {
    hide ParseHead, AfterHead, HeadAnswer, ContentLength, Eols;
    var p := Pending(b);
    assert Skip(b) == b;
    assert p[0..] == p;
    HeadComplete(b, ParseHead(p), f, used);
  }

  lemma HeadComplete(b: Buffer, h: Head, f: Frame, used: nat)
    requires InRange(b) && b.pos == 0 && (h.Head? ==> 0 < h.at <= |Pending(b)|)
    requires AfterHead(h, Pending(b)) == Complete(f, used) && used <= |Pending(b)|
    requires ContentLength(f.headers).None?
    ensures HeadAnswer(b, h) == (Got(f), Compact(b.(pos := used)))
  {
    hide ContentLength;
  }

  /**
   The bound on declared lengths in `TameRuns` cannot simply be dropped: here the same
   octets, received in one read or in two, get two different answers.
   */
  lemma ChunkingMatters() returns (first: Octets, second: Octets)
    ensures |first + second| < ISIZE_LIMIT
    ensures var whole := PullFrom(Buffer(first + second, 0));
            var part := PullFrom(Buffer(first, 0));
            && whole.0.Got? && part.0 == whole.0
            && part.1 == Buffer([], 0) && whole.1 == Buffer(first + second, |first|)
            && PullFrom(Buffer(second, 0)).0.NoFrame?
            && !PullFrom(whole.1).0.NoFrame?
  {
    hide Encoded, PullFrom, Announcing, NextFrame, ContentLength, Eols, PlainCommand, Utf8;
    var n := USIZE_LIMIT - 101;
    var pad: Octets := seq(200, _ => 120);
    var f := Frame([65], [], pad);
    first, second := Encoded(f), Announcing(n);
    AnnouncingLength(n);
    PadLength(f);
    NoLength();
    PadRoundTrip(pad, second);
    PadRoundTrip(pad, []);
    PrintableCommand([65]);
    NoLeadingEol(f, second);
    NoLeadingEol(f, []);
    PullFirst(f, second);
    PullFirst(f, []);
    assert first + [] == first && [] + second == second;
    AnswerDependsOnPosition([], n);
    AnswerDependsOnPosition(first, n);
    AnnouncingHead(n);
  }

  lemma NoLength()
    ensures ContentLength([]) == None
  {
  }
}
