/** Polling the decoder, seen from the stream: what has been taken off it and what is pending. */
module StompReading {
  import opened Bytes
  import opened Incremental
  import opened StompCodec
  import opened StompStream
  import opened StompDecoder

  /** All frames of a stream, up to the first error. */
  function Frames(x: Octets): seq<Frame> {
    Drain(NextFrame, Eols, x).items
  }

  /** Of the stream `x`, the frames `seen` have been read and `rest` is pending, whatever comes next. */
  ghost predicate Consumed(x: Octets, seen: seq<Frame>, rest: Octets) {
    forall y :: Frames(x + y) == seen + Frames(rest + y)
  }

  lemma NothingConsumed(x: Octets)
    ensures Consumed(x, [], x)
  {
    hide Frames;
  }

  lemma Fits(p: Octets)
    ensures Eols(p) <= |p| && (NextFrame(p).Complete? ==> 0 < NextFrame(p).used <= |p|)
  {
  }

  lemma Peel(p: Octets, y: Octets)
    requires NextFrame(p).Complete? && NextFrame(p).used <= |p|
    ensures Frames(p + y) == [NextFrame(p).item] + Frames(p[NextFrame(p).used..] + y)
  {
    hide NextFrame, Eols;
    AnswerStable(p, y);
    Fits(p + y);
    assert (p + y)[NextFrame(p).used..] == p[NextFrame(p).used..] + y;
  }

  /** Taking a complete frame off the front. */
  lemma ConsumedFrame(x: Octets, seen: seq<Frame>, p: Octets)
    requires Consumed(x, seen, p) && NextFrame(p).Complete? && NextFrame(p).used <= |p|
    ensures Consumed(x, seen + [NextFrame(p).item], p[NextFrame(p).used..])
  {
    hide Frames, NextFrame;
    var rest := p[NextFrame(p).used..];
    forall y ensures Frames(x + y) == seen + [NextFrame(p).item] + Frames(rest + y) {
      Peel(p, y);
      assert Frames(x + y) == seen + Frames(p + y);
    }
  }

  /** Dropping the heartbeats in front of an incomplete one. */
  lemma ConsumedSkips(x: Octets, seen: seq<Frame>, p: Octets)
    requires Consumed(x, seen, p) && NextFrame(p).Incomplete?
    ensures Eols(p) <= |p| && Consumed(x, seen, p[Eols(p)..])
  {
    hide NextFrame, Eols;
    DecoderIsResumable();
    Fits(p);
    assert Drop(Eols(p), p) == p[Eols(p)..];
    forall y ensures Frames(x + y) == seen + Frames(p[Eols(p)..] + y) {
      DrainSkips(NextFrame, Eols, p, y);
    }
  }

  lemma ConsumedMore(x: Octets, seen: seq<Frame>, p: Octets, data: Octets)
    requires Consumed(x, seen, p)
    ensures Consumed(x + data, seen, p + data)
  {
    hide Frames;
    forall y ensures Frames(x + data + y) == seen + Frames(p + data + y) {
      assert x + data + y == x + (data + y) && p + data + y == p + (data + y);
    }
  }

  /** What was taken is what the stream starts with. */
  lemma ConsumedPrefix(x: Octets, seen: seq<Frame>, p: Octets)
    requires Consumed(x, seen, p)
    ensures seen <= Frames(x)
  {
    hide Frames;
    assert x + [] == x && Frames(x + []) == seen + Frames(p + []);
  }

  // ------------------------------------------------------------- one poll

  /** An answer that wrapped is neither a frame nor a request for more, and the frame is incomplete. */
  lemma WrapIsNoFrame(b: Buffer)
    requires InRange(b) && Wraps(b)
    ensures PullFrom(b).0.Error? || PullFrom(b).0.Panic?
    ensures NextFrame(Pending(b)).Incomplete? && PullFrom(b).1 == Skip(b)
  {
    hide ParseHead, Skip, ContentLength, Eols;
    SkipKeeps(b);
  }

  /** What a poll does to what is pending. */
  lemma PullConsumes(b: Buffer, x: Octets, seen: seq<Frame>)
    requires InRange(b) && Consumed(x, seen, Pending(b))
    ensures var (got, b') := PullFrom(b);
      && b'.pos <= |b'.buf|
      && (got.Got? ==> Consumed(x, seen + [got.frame], Pending(b')))
      && (got.NoFrame? || got.Panic? ==> Consumed(x, seen, Pending(b')))
  {
    hide NextFrame, Eols, PullFrom, Wraps, Consumed, Skip;
    var p := Pending(b);
    PullShrinks(b);
    Fits(p);
    if Wraps(b) {
      WrapIsNoFrame(b);
      SkipKeeps(b);
      ConsumedSkips(x, seen, p);
    } else {
      PullAgrees(b);
      if NextFrame(p).Complete? {
        ConsumedFrame(x, seen, p);
      } else if NextFrame(p).Incomplete? {
        ConsumedSkips(x, seen, p);
      }
    }
  }
}
