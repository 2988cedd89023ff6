/**
 What happens to a STOMP session, as an outside observer could write it down: every await
 with its outcome, and every frame the session takes off the wire. What the session
 believes about itself is stated against this record.
 */
module StompTrace {
  import opened Wrappers
  import opened Bytes
  import opened StompCodec
  import opened StompReading
  import opened StompSend

  /** "CONNECTED", "ERROR", "MESSAGE", "SUBSCRIBE" */
  const CONNECTED: Octets := [67, 79, 78, 78, 69, 67, 84, 69, 68]
  const ERROR: Octets := [69, 82, 82, 79, 82]
  const MESSAGE: Octets := [77, 69, 83, 83, 65, 71, 69]
  const SUBSCRIBE: Octets := [83, 85, 66, 83, 67, 82, 73, 66, 69]

  /** How an await ended: connects and writes are `Done` or not, reads bring octets or not. */
  datatype Await = Done | Fails | Data(octets: Octets)

  /** What is awaited; a write is of the octets of its frame. */
  datatype Op = Sleep | Dial | Write(frame: Frame) | Read

  /** No outcome: the iteration was dropped at that await. */
  datatype Event = Waited(op: Op, outcome: Option<Await>) | Took(frame: Frame)

  /** The outcomes of the awaits that completed. */
  function Outcomes(tr: seq<Event>): seq<Await> {
    if tr == [] then [] else
      var e := tr[|tr| - 1];
      Outcomes(tr[..|tr| - 1]) + (if e.Waited? && e.outcome.Some? then [e.outcome.value] else [])
  }

  /**
   The record summed up. Of the current connection: the octets received, the frames taken,
   whether a CONNECTED or an ERROR was among them and which came first, whether a SUBSCRIBE was
   written, and the messages taken since. Of the whole record: connections greeted with
   CONNECTED, SUBSCRIBEs written, and the receipt every SEND asked for.
   */
  datatype Tally = Tally(
    inbox: Octets, taken: seq<Frame>, decided: bool, welcomed: bool, live: bool, messages: nat,
    greetings: nat, subscriptions: nat, sends: seq<Option<Octets>>)

  const BLANK := Tally([], [], false, false, false, 0, 0, 0, [])

  function AfterTook(t: Tally, f: Frame): Tally {
    var greeted := !t.decided && f.command == CONNECTED;
    t.(taken := t.taken + [f],
       decided := t.decided || f.command == CONNECTED || f.command == ERROR,
       welcomed := t.welcomed || greeted,
       messages := t.messages + One(f.command == MESSAGE),
       greetings := t.greetings + One(greeted))
  }

  function AfterWrite(t: Tally, f: Frame, done: bool): Tally {
    var subscribes := f.command == SUBSCRIBE && done;
    t.(live := t.live || subscribes,
       messages := if subscribes then 0 else t.messages,
       subscriptions := t.subscriptions + One(subscribes),
       sends := if f.command == SEND then t.sends + [Lookup(f.headers, RECEIPT)] else t.sends)
  }

  function AfterDial(t: Tally): Tally {
    t.(inbox := [], taken := [], decided := false, welcomed := false, live := false, messages := 0)
  }

  function Noted(t: Tally, e: Event): Tally {
    match e
    case Took(f) => AfterTook(t, f)
    case Waited(Write(f), outcome) => AfterWrite(t, f, outcome == Some(Done))
    case Waited(Dial, outcome) => if outcome == Some(Done) then AfterDial(t) else t
    case Waited(Read, outcome) =>
      if outcome.Some? && outcome.value.Data? then t.(inbox := t.inbox + outcome.value.octets) else t
    case Waited(Sleep, _) => t
  }

  function TallyOf(tr: seq<Event>): Tally {
    if tr == [] then BLANK else Noted(TallyOf(tr[..|tr| - 1]), tr[|tr| - 1])
  }

  lemma TallySnoc(tr: seq<Event>, e: Event)
    ensures TallyOf(tr + [e]) == Noted(TallyOf(tr), e)
    ensures Outcomes(tr + [e]) == Outcomes(tr) + (if e.Waited? && e.outcome.Some? then [e.outcome.value] else [])
  {
    hide Noted;
    assert (tr + [e])[..|tr|] == tr;
  }

  /** At every point, the frames taken are the first frames of the octets received on the connection. */
  predicate Honest(tr: seq<Event>) {
    tr == [] || (Honest(tr[..|tr| - 1]) && TallyOf(tr).taken <= Frames(TallyOf(tr).inbox))
  }

  lemma HonestSnoc(tr: seq<Event>, e: Event)
    requires Honest(tr) && TallyOf(tr + [e]).taken <= Frames(TallyOf(tr + [e]).inbox)
    ensures Honest(tr + [e])
  {
    hide TallyOf, Frames;
    assert (tr + [e])[..|tr|] == tr;
  }

  lemma {:induction false} OutcomesGrow(tr: seq<Event>, tr': seq<Event>)
    requires tr <= tr'
    ensures Outcomes(tr) <= Outcomes(tr')
  {
    if |tr| < |tr'| {
      OutcomesGrow(tr, tr'[..|tr'| - 1]);
    } else {
      assert tr == tr';
    }
  }
}
