/** The STOMP decoder is an incremental parser with stable answers. */
module StompStream {
  import opened Wrappers
  import opened Bytes
  import opened StompCodec
  import opened Incremental

  lemma LineStable(p: Octets, q: Octets)
    requires !ParseLine(p).NoLine?
    ensures ParseLine(p + q) == ParseLine(p)
  {
    FindStable(p, q, LF);
    var nl := Find(p, LF).value;
    assert (p + q)[..nl] == p[..nl];
  }

  lemma {:induction false} HeadersStable(p: Octets, q: Octets)
    requires !ParseHeaders(p).HeadPartial?
    ensures ParseHeaders(p + q) == ParseHeaders(p)
    decreases |p|
  {
    LineStable(p, q);
    var line := ParseLine(p);
    if line.HeaderLine? {
      assert (p + q)[line.next..] == p[line.next..] + q;
      HeadersStable(p[line.next..], q);
    }
  }

  lemma CommandStable(p: Octets, q: Octets)
    requires !ParseCommand(p).NoCommand?
    ensures ParseCommand(p + q) == ParseCommand(p)
  {
    FindStable(p, q, LF);
    var nl := Find(p, LF).value;
    assert (p + q)[..nl] == p[..nl];
  }

  lemma HeadStable(p: Octets, q: Octets)
    requires !ParseHead(p).HeadPartial?
    ensures ParseHead(p + q) == ParseHead(p)
  {
    CommandStable(p, q);
    var c := ParseCommand(p);
    if c.Command? {
      assert (p + q)[c.next..] == p[c.next..] + q;
      HeadersStable(p[c.next..], q);
    }
  }

  lemma BodyStable(h: Head, declared: Option<nat>, rest: Octets, q: Octets)
    requires h.Head? && !ParseBody(h, declared, rest).Incomplete?
    ensures ParseBody(h, declared, rest + q) == ParseBody(h, declared, rest)
  {
    match declared
    case Some(n) =>
      assert (rest + q)[..n] == rest[..n];
    case None =>
      FindStable(rest, q, NUL);
      var k := Find(rest, NUL).value;
      assert (rest + q)[..k] == rest[..k];
  }

  lemma FrameStable(p: Octets, q: Octets)
    requires !ParseFrame(p).Incomplete?
    ensures ParseFrame(p + q) == ParseFrame(p)
  {
    HeadStable(p, q);
    AfterHeadStable(ParseHead(p), p, q);
  }

  lemma AfterHeadStable(h: Head, p: Octets, q: Octets)
    requires h.Head? ==> 0 < h.at <= |p|
    requires !AfterHead(h, p).Incomplete?
    ensures AfterHead(h, p + q) == AfterHead(h, p)
  {
    if h.Head? {
      assert (p + q)[h.at..] == p[h.at..] + q;
      BodyStable(h, ContentLength(h.headers), p[h.at..], q);
    }
  }

  lemma {:induction false} EolsSplit(p: Octets, q: Octets)
    ensures Eols(p + q) == if Eols(p) < |p| then Eols(p) else |p| + Eols(q)
  {
    if p == [] {
      assert p + q == q;
    } else {
      assert (p + q)[1..] == p[1..] + q;
      EolsSplit(p[1..], q);
    }
  }

  lemma NothingFromNothing(p: Octets)
    requires Eols(p) == |p|
    ensures NextFrame(p) == Incomplete
  {
    assert p[Eols(p)..] == [];
  }

  lemma DropFront(p: Octets, q: Octets, k: nat)
    requires k <= |p|
    ensures (p + q)[k..] == p[k..] + q
  {
  }

  /** A frame or an error, once reported, would have been reported with any more input behind it. */
  lemma AnswerStable(p: Octets, q: Octets)
    requires !NextFrame(p).Incomplete?
    ensures NextFrame(p + q) == NextFrame(p)
  {
    hide Eols, ParseFrame;
    var k := Eols(p);
    if k < |p| {
      EolsSplit(p, q);
      DropFront(p, q, k);
      FrameStable(p[k..], q);
    } else {
      NothingFromNothing(p);
    }
  }

  lemma NoEols(p: Octets)
    requires p != [] ==> p[0] != LF && p[0] != CR
    ensures Eols(p) == 0
  {
  }

  lemma EolsAfter(p: Octets, q: Octets)
    ensures Eols(p + q) == Eols(p) + Eols(p[Eols(p)..] + q)
  {
    hide Eols;
    EolsSplit(p, q);
    var r := p[Eols(p)..] + q;
    if Eols(p) < |p| {
      assert r[0] == p[Eols(p)];
      NoEols(r);
    } else {
      assert r == q;
    }
  }

  lemma SkipSplit(p: Octets, q: Octets)
    ensures var k := Eols(p);
            && Eols(p + q) == k + Eols(p[k..] + q)
            && (p + q)[Eols(p + q)..] == (p[k..] + q)[Eols(p[k..] + q)..]
  {
    var k := Eols(p);
    hide Eols;
    EolsAfter(p, q);
    DropFront(p, q, k);
    DropDrop(p + q, k, Eols(p[k..] + q));
  }

  /** Dropping the heartbeats ahead of an incomplete frame loses nothing. */
  lemma SkippingIsFree(p: Octets, q: Octets)
    ensures Eols(p + q) == Eols(p) + Eols(Drop(Eols(p), p) + q)
    ensures NextFrame(p + q) == Skipping(Eols(p), NextFrame(Drop(Eols(p), p) + q))
  {
    SkipSplit(p, q);
  }

  lemma DecoderIsResumable()
    ensures Resumable(NextFrame, Eols)
  {
    forall p, q | !NextFrame(p).Incomplete? ensures NextFrame(p + q) == NextFrame(p) {
      AnswerStable(p, q);
    }
    forall p, q ensures Eols(p + q) == Eols(p) + Eols(Drop(Eols(p), p) + q)
    {
      SkippingIsFree(p, q);
    }
    forall p, q ensures NextFrame(p + q) == Skipping(Eols(p), NextFrame(Drop(Eols(p), p) + q))
    {
      SkippingIsFree(p, q);
    }
  }

  /** Frames and the first error do not depend on how the stream was cut up or when it was polled. */
  lemma StompChunkInvariance(ops: seq<Op<byte>>)
    ensures var s := Run(NextFrame, Eols, Reader([], [], None), ops);
            var whole := Drain(NextFrame, Eols, Pushed(ops));
            && s.items <= whole.items
            && (s.error.Some? ==> Drained(s.items, Failed(s.error.value)) == whole)
            && (s.error.None? ==> Then(s.items, Drain(NextFrame, Eols, s.pending)) == whole)
  {
    DecoderIsResumable();
    ChunkInvariance(NextFrame, Eols, ops);
  }
}
