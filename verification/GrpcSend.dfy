/**
 Sending one gRPC message over an HTTP/2 stream under flow control, and reading the
 length back. The peer is a schedule: one entry for each time the stream is polled for
 credit. A schedule that runs out leaves the send pending.
 */
module GrpcSend {
  import opened Wrappers
  import opened Bytes
  import opened Folds
  import opened Metrics

  const U32: nat := 0x1_0000_0000

  // ------------------------------------------------------------- the message

  /** The low 32 bits of `n`, most significant octet first. */
  function BigEndian(n: nat): (r: Octets)
    ensures |r| == 4
  {
    [(n / 0x100_0000 % 256) as byte, (n / 0x1_0000 % 256) as byte, (n / 0x100 % 256) as byte, (n % 256) as byte]
  }

  /** What a receiver reads from the length prefix. */
  function ReadLength(body: Octets): nat {
    if |body| >= 5
    then body[1] as nat * 0x100_0000 + body[2] as nat * 0x1_0000 + body[3] as nat * 0x100 + body[4] as nat
    else 0
  }

  method BuildFrame(payload: Octets) returns (frame: Octets)
    ensures |frame| == |payload| + 5 && frame[0] == 0 && frame[5..] == payload
    ensures ReadLength(frame) == |payload| % U32
    ensures frame == Framed(payload)
  {
    frame := [0];
    frame := frame + BigEndian(|payload|);
    frame := frame + payload;
    BigEndianReads(|payload|, frame);
  }

  function Framed(payload: Octets): Octets {
    [0] + BigEndian(|payload|) + payload
  }

  lemma Digits(n: nat)
    ensures n / 0x100_0000 % 256 * 0x100_0000 + n / 0x1_0000 % 256 * 0x1_0000 + n / 0x100 % 256 * 0x100 + n % 256
      == n % U32
  {
    var a, b, c := n / 256, n / 256 / 256, n / 256 / 256 / 256;
    assert n / 0x1_0000 == b && n / 0x100_0000 == c;
    assert n / U32 == c / 256;
  }

  lemma BigEndianReads(n: nat, frame: Octets)
    requires |frame| >= 5 && frame[1..5] == BigEndian(n)
    ensures ReadLength(frame) == n % U32
  {
    assert forall i :: 0 <= i < 4 ==> frame[1 + i] == BigEndian(n)[i];
    assert frame[1] == BigEndian(n)[0] && frame[2] == BigEndian(n)[1];
    assert frame[3] == BigEndian(n)[2] && frame[4] == BigEndian(n)[3];
    Digits(n);
  }

  /** The length survives the trip exactly when it fits in 32 bits. */
  lemma LengthReadBackExactly(payload: Octets)
    ensures ReadLength(Framed(payload)) == |payload| <==> |payload| < U32
  {
    var frame := Framed(payload);
    assert frame[1..5] == BigEndian(|payload|);
    BigEndianReads(|payload|, frame);
  }

  // ------------------------------------------------------------- the schedule

  /** What polling for credit answers, and whether the stream accepts the data then sent. */
  datatype Poll =
    | Granted(n: nat, stalled: bool, waitedUs: nat, accepts: bool)
    | Failed
    | Gone

  predicate Stops(p: Poll) {
    !p.Granted? || (p.n > 0 && !p.accepts)
  }

  /** Credit granted by polls none of which stops the send. */
  function Credit(polls: seq<Poll>): nat {
    if polls == [] then 0
    else Credit(polls[..|polls| - 1]) + (if Stops(polls[|polls| - 1]) then 0 else polls[|polls| - 1].n)
  }

  /** The part of the schedule before the send is stopped. */
  function Usable(polls: seq<Poll>): seq<Poll> {
    if polls == [] || Stops(polls[0]) then [] else [polls[0]] + Usable(polls[1..])
  }

  lemma {:induction false} UsablePrefix(polls: seq<Poll>)
    ensures var k := |Usable(polls)|;
      k <= |polls| && Usable(polls) == polls[..k] && (k < |polls| ==> Stops(polls[k]))
    ensures forall i :: 0 <= i < |Usable(polls)| ==> !Stops(polls[i])
  {
    if polls != [] && !Stops(polls[0]) {
      UsablePrefix(polls[1..]);
    }
  }

  /** The credits that are not zero, in order: each is answered with one chunk. */
  function Credits(polls: seq<Poll>): seq<nat> {
    if polls == [] then [] else
      var p := polls[|polls| - 1];
      Credits(polls[..|polls| - 1]) + (if p.Granted? && p.n > 0 then [p.n] else [])
  }

  /** Polls that had to wait after the first octet was sent. */
  function Stalls(polls: seq<Poll>): seq<nat> {
    if polls == [] then [] else
      var before := polls[..|polls| - 1];
      var p := polls[|polls| - 1];
      Stalls(before) + (if p.Granted? && p.stalled && Credit(before) > 0 then [p.waitedUs] else [])
  }

  function Present(x: nat): Option<nat> { Some(x) }

  function Least(s: seq<nat>): nat {
    Min(s, U64_MAX, Present)
  }

  // ------------------------------------------------------------- the send

  datatype Chunk = Chunk(data: Octets, endStream: bool)

  datatype Outcome = Sent(events: nat, stallUs: nat, capacityMin: nat, hasCapacity: bool) | Errored | Pending

  function Concat(chunks: seq<Chunk>): Octets {
    if chunks == [] then [] else Concat(chunks[..|chunks| - 1]) + chunks[|chunks| - 1].data
  }

  function Smaller(a: nat, b: nat): nat {
    if a < b then a else b
  }

  /** Chunk `i` uses up credit `i`, except that the last one stops at the end of the frame. */
  predicate Fits(sent: seq<Chunk>, credits: seq<nat>) {
    && |sent| == |credits|
    && (forall i :: 0 <= i < |sent| ==> 0 < |sent[i].data| <= credits[i])
    && (forall i :: 0 <= i < |sent| - 1 ==> |sent[i].data| == credits[i])
  }

  /** END_STREAM is on the last chunk of a complete send and nowhere else. */
  predicate EndsOnce(sent: seq<Chunk>, complete: bool) {
    forall i :: 0 <= i < |sent| ==> (sent[i].endStream <==> complete && i == |sent| - 1)
  }

  lemma SnocPoll(polls: seq<Poll>, p: Poll)
    ensures Credit(polls + [p]) == Credit(polls) + (if Stops(p) then 0 else p.n)
    ensures Credits(polls + [p]) == if p.Granted? && p.n > 0 then Credits(polls) + [p.n] else Credits(polls)
    ensures Stalls(polls + [p]) ==
      if p.Granted? && p.stalled && Credit(polls) > 0 then Stalls(polls) + [p.waitedUs] else Stalls(polls)
  {
    assert (polls + [p])[..|polls|] == polls;
  }

  lemma SnocChunk(chunks: seq<Chunk>, c: Chunk)
    ensures Concat(chunks + [c]) == Concat(chunks) + c.data
  {
    assert (chunks + [c])[..|chunks|] == chunks;
  }

  lemma SnocNat(s: seq<nat>, x: nat)
    ensures SumAll(s + [x]) == SumAll(s) + x
    ensures Least(s + [x]) == if x < Least(s) then x else Least(s)
  {
    hide Sum, Min;
    Snoc(s, x);
  }

  /** In the middle of a send: the polls `polls` have been answered with the chunks `sent`. */
  predicate Midway(frame: Octets, polls: seq<Poll>, sent: seq<Chunk>) {
    && Credit(polls) < |frame|
    && Concat(sent) == frame[..Credit(polls)]
    && Fits(sent, Credits(polls))
    && (forall i :: 0 <= i < |sent| ==> |sent[i].data| == Credits(polls)[i])
    && EndsOnce(sent, false)
  }

  predicate Counted(polls: seq<Poll>, events: nat, stallUs: nat, capacityMin: nat) {
    && events == |Stalls(polls)| && stallUs == SumAll(Stalls(polls))
    && capacityMin == Least(Credits(polls))
  }

  lemma CountNext(polls: seq<Poll>, p: Poll, events: nat, stallUs: nat, capacityMin: nat)
    requires Counted(polls, events, stallUs, capacityMin) && p.Granted?
    ensures
      var stalled := p.stalled && Credit(polls) > 0;
      Counted(polls + [p],
        if stalled then events + 1 else events,
        if stalled then stallUs + p.waitedUs else stallUs,
        if p.n > 0 then Smaller(capacityMin, p.n) else capacityMin)
  {
    hide Stalls, Credits, Credit, SumAll, Least;
    SnocPoll(polls, p);
    SnocNat(Stalls(polls), p.waitedUs);
    SnocNat(Credits(polls), p.n);
  }

  lemma EmptyGrant(frame: Octets, polls: seq<Poll>, sent: seq<Chunk>, p: Poll)
    requires Midway(frame, polls, sent) && p.Granted? && p.n == 0
    ensures Midway(frame, polls + [p], sent)
  {
    hide Credits, Credit, Concat;
    SnocPoll(polls, p);
  }

  lemma ChunkFits(sent: seq<Chunk>, credits: seq<nat>, c: Chunk, credit: nat)
    requires Fits(sent, credits) && EndsOnce(sent, false)
    requires forall i :: 0 <= i < |sent| ==> |sent[i].data| == credits[i]
    requires 0 < |c.data| == credit && !c.endStream
    ensures Fits(sent + [c], credits + [credit]) && EndsOnce(sent + [c], false)
    ensures forall i :: 0 <= i < |sent| + 1 ==> |(sent + [c])[i].data| == (credits + [credit])[i]
  {
  }

  lemma MiddleChunk(frame: Octets, polls: seq<Poll>, sent: seq<Chunk>, p: Poll)
    requires Midway(frame, polls, sent) && p.Granted? && p.n > 0 && p.accepts && Credit(polls) + p.n < |frame|
    ensures Midway(frame, polls + [p], sent + [Chunk(frame[Credit(polls)..Credit(polls) + p.n], false)])
  {
    hide Credits, Credit, Concat, Stalls, Fits, EndsOnce;
    var c := Chunk(frame[Credit(polls)..Credit(polls) + p.n], false);
    SnocPoll(polls, p);
    ChunkFits(sent, Credits(polls), c, p.n);
    SnocChunk(sent, c);
    assert frame[..Credit(polls) + p.n] == frame[..Credit(polls)] + c.data;
  }

  lemma LastChunk(frame: Octets, polls: seq<Poll>, sent: seq<Chunk>, p: Poll)
    requires Midway(frame, polls, sent) && p.Granted? && p.n > 0 && p.accepts && Credit(polls) + p.n >= |frame|
    ensures var all := sent + [Chunk(frame[Credit(polls)..], true)];
      Concat(all) == frame && Fits(all, Credits(polls + [p])) && EndsOnce(all, true) && Credit(polls + [p]) >= |frame|
  {
    hide Credits, Credit, Concat;
    SnocPoll(polls, p);
    SnocChunk(sent, Chunk(frame[Credit(polls)..], true));
  }

  /**
   What a send of a frame that is not empty leaves behind: the chunks are the prefix of the
   frame that the credits paid for, `used` polls were consumed, and the statistics are those
   of the polls consumed.
   */
  predicate Driven(frame: Octets, polls: seq<Poll>, outcome: Outcome, sent: seq<Chunk>, used: nat) {
    && used <= |Usable(polls)| <= |polls|
    && Concat(sent) == frame[..Smaller(Credit(polls[..used]), |frame|)]
    && Fits(sent, Credits(polls[..used]))
    && EndsOnce(sent, outcome.Sent?)
    && (outcome.Sent? <==> Credit(polls[..used]) >= |frame|)
    && (outcome.Errored? ==> used == |Usable(polls)| < |polls|)
    && (outcome.Pending? ==> used == |Usable(polls)| == |polls|)
    && (outcome.Sent? ==>
          outcome.hasCapacity && Counted(polls[..used], outcome.events, outcome.stallUs, outcome.capacityMin))
  }

  /** `drive_send`; `closes` says whether the stream accepts the empty DATA frame of an empty message. */
  method DriveSend(frame: Octets, polls: seq<Poll>, closes: bool)
    returns (outcome: Outcome, sent: seq<Chunk>, used: nat)
    ensures frame != [] ==> Driven(frame, polls, outcome, sent, used)
    ensures frame == [] && closes ==> outcome == Outcome.Sent(0, 0, 0, false) && sent == [Chunk([], true)]
    ensures frame == [] && !closes ==> outcome == Errored && sent == []
  {
    hide Credit, Credits, Stalls, Concat, Fits, EndsOnce, Counted, Usable, SumAll, Least;
    if frame == [] {
      if !closes {
        return Errored, [], 0;
      }
      return Sent(0, 0, 0, false), [Chunk([], true)], 0;
    }
    UsablePrefix(polls);
    var events: nat, stallUs: nat, capacityMin: nat, hasCapacity := 0, 0, U64_MAX, false;
    var idx := 0;
    sent, used := [], 0;
    NothingSent(frame);
    while idx < |frame|
      invariant used <= |Usable(polls)| && idx == Credit(polls[..used])
      invariant Midway(frame, polls[..used], sent)
      invariant Counted(polls[..used], events, stallUs, capacityMin)
      decreases |polls| - used
    {
      if used == |polls| {
        return Pending, sent, used;
      }
      var p := polls[used];
      if !p.Granted? {
        return Errored, sent, used;
      }
      CountNext(polls[..used], p, events, stallUs, capacityMin);
      SnocPoll(polls[..used], p);
      assert polls[..used + 1] == polls[..used] + [p];
      if p.stalled && idx > 0 {
        events := events + 1;
        stallUs := stallUs + p.waitedUs;
      }
      if p.n == 0 {
        EmptyGrant(frame, polls[..used], sent, p);
        used := used + 1;
        continue;
      }
      capacityMin := Smaller(capacityMin, p.n);
      hasCapacity := true;
      var take := Smaller(p.n, |frame| - idx);
      var isLast := idx + take >= |frame|;
      var chunk := Chunk(frame[idx..idx + take], isLast);
      if !p.accepts {
        return Errored, sent, used;
      }
      if isLast {
        LastChunk(frame, polls[..used], sent, p);
        assert chunk.data == frame[idx..];
        return Sent(events, stallUs, capacityMin, hasCapacity), sent + [chunk], used + 1;
      }
      MiddleChunk(frame, polls[..used], sent, p);
      sent := sent + [chunk];
      idx := idx + take;
      used := used + 1;
    }
    assert false;
  }

  lemma NothingSent(frame: Octets)
    requires frame != []
    ensures Midway(frame, [], []) && Counted([], 0, 0, U64_MAX) && Credit([]) == 0
  {
  }

  lemma {:induction false} CreditGrows(polls: seq<Poll>, k: nat)
    requires k <= |polls|
    ensures Credit(polls[..k]) <= Credit(polls)
  {
    if k == |polls| {
      assert polls[..k] == polls;
    } else {
      CreditGrows(polls[..|polls| - 1], k);
      assert polls[..|polls| - 1][..k] == polls[..k];
    }
  }

  /**
   Flow control only delays: a send completes exactly when the credit granted before the
   stream stops it covers the frame, it fails exactly when the stream stops it first, and
   when it completes the chunks are the frame, with END_STREAM on the last chunk alone.
   */
  lemma CompletesExactly(frame: Octets, polls: seq<Poll>, outcome: Outcome, sent: seq<Chunk>, used: nat)
    requires frame != [] && Driven(frame, polls, outcome, sent, used)
    ensures outcome.Sent? <==> Credit(Usable(polls)) >= |frame|
    ensures outcome.Errored? <==> Credit(Usable(polls)) < |frame| && |Usable(polls)| < |polls|
    ensures outcome.Sent? ==> Concat(sent) == frame && sent != [] && sent[|sent| - 1].endStream
    ensures forall i :: 0 <= i < |sent| - 1 ==> !sent[i].endStream
    ensures Concat(sent) <= frame && |Concat(sent)| <= Credit(polls[..used])
  {
    hide Usable, Credit, Credits, Counted;
    UsablePrefix(polls);
    CreditGrows(Usable(polls), used);
    assert Usable(polls)[..used] == polls[..used];
    assert used == |Usable(polls)| ==> Usable(polls)[..used] == Usable(polls);
  }
}
