/** The other end of a gRPC call: reading the response, and the metric made of it. */
module GrpcCall {
  import opened Wrappers
  import opened Bytes
  import opened Metrics
  import opened GrpcSend

  const OK := 200

  datatype Incoming = Data(data: Octets) | Reset

  /** The `grpc-status` of the trailers, if they came and named one. */
  datatype Trailers = Trailers(status: Option<Octets>) | NoTrailers | TrailersLost

  datatype Response = Response(http: nat, head: Option<Octets>, items: seq<Incoming>, trailers: Trailers)

  /** `grpc_status_from`. Text that is not printable ASCII does not parse either. */
  function StatusIn(text: Option<Octets>): Option<nat> {
    if text.Some? then ParseUnsigned(text.value, 0x1_0000) else None
  }

  /** `resolve_grpc_status`: trailers win, then the head, then 0. */
  function ResolveStatus(trailers: Trailers, head: Option<Octets>): Option<nat> {
    if trailers.TrailersLost? then None
    else
      var named := if trailers.NoTrailers? then None else StatusIn(trailers.status);
      Some(if named.Some? then named.value else if StatusIn(head).Some? then StatusIn(head).value else 0)
  }

  function Bodies(items: seq<Incoming>): Octets {
    if items == [] then []
    else Bodies(items[..|items| - 1]) + (if items[|items| - 1].Data? then items[|items| - 1].data else [])
  }

  /** Status and length of the message, or nothing when the transport fails. */
  function Read(response: Option<Response>): Option<(nat, nat)> {
    if response.None? then None
    else
      var r := response.value;
      if r.http != OK then Some((2, 0))
      else if Reset in r.items || ResolveStatus(r.trailers, r.head).None? then None
      else Some((ResolveStatus(r.trailers, r.head).value, ReadLength(Bodies(r.items))))
  }

  /** `read_response`; `response` is what the response future resolves to, if it does. */
  method ReadResponse(response: Option<Response>) returns (outcome: Option<(nat, nat)>)
    ensures outcome == Read(response)
  {
    if response.None? {
      return None;
    }
    var items := response.value.items;
    if response.value.http != OK {
      return Some((2, 0));
    }
    var body: Octets := [];
    var i := 0;
    while i < |items|
      invariant i <= |items| && body == Bodies(items[..i]) && Reset !in items[..i]
    {
      assert items[..i + 1][..i] == items[..i];
      match items[i] {
        case Data(data) => body := body + data;
        case Reset => return None;
      }
      i := i + 1;
    }
    assert items[..i] == items;
    var status := ResolveStatus(response.value.trailers, response.value.head);
    if status.None? {
      return None;
    }
    outcome := Some((status.value, ReadLength(body)));
  }

  // ------------------------------------------------------------- the metric

  /** `grpc_to_http_status`. */
  function HttpStatus(code: nat): nat {
    match code
    case 0 => OK
    case 1 => 499
    case 3 => 400
    case 4 => 504
    case 5 => 404
    case 6 => 409
    case 7 => 403
    case 8 => 429
    case 9 => 412
    case 10 => 409
    case 11 => 416
    case 12 => 501
    case 14 => 503
    case 16 => 401
    case _ => 500
  }

  /** The metric of a call that was sent; `base` has its timings. */
  function CallMetric(base: Metric, outcome: Option<(nat, nat)>, sample: GrpcSample): Metric {
    if outcome.None? then base.(status := 0, bytes := 0, sample := None)
    else base.(status := HttpStatus(outcome.value.0), bytes := outcome.value.1, sample := Some(Grpc(sample)))
  }

  /**
   A call counts as a success exactly when the response comes with HTTP status 200, nothing is lost
   on the way, and the first of trailers and head to name a status names 0, or neither does.
   */
  lemma SucceedsExactly(base: Metric, response: Option<Response>, sample: GrpcSample)
    ensures !CallMetric(base, Read(response), sample).IsError() <==>
      && response.Some? && response.value.http == OK
      && Reset !in response.value.items && !response.value.trailers.TrailersLost?
      && var named := if response.value.trailers.Trailers? then StatusIn(response.value.trailers.status) else None;
         var head := StatusIn(response.value.head);
         named == Some(0) || (named.None? && (head.None? || head == Some(0)))
  {
    hide StatusIn;
    if Read(response).Some? {
      ErrorStatus(Read(response).value.0);
    }
  }

  lemma ErrorStatus(code: nat)
    ensures HttpStatus(code) >= 400 <==> code != 0
    ensures HttpStatus(code) != 0
  {
  }

  // ------------------------------------------------------------- from end to end

  function Carried(sent: seq<Chunk>): seq<Incoming> {
    seq(|sent|, i requires 0 <= i < |sent| => Data(sent[i].data))
  }

  lemma {:induction false} CarriedBodies(sent: seq<Chunk>)
    ensures Bodies(Carried(sent)) == Concat(sent)
  {
    if sent != [] {
      var n := |sent| - 1;
      CarriedBodies(sent[..n]);
      assert Carried(sent)[..n] == Carried(sent[..n]);
    }
  }

  /**
   A message sent under any schedule that completes, and sent back as it was cut, is reported with
   its length if and only if that fits in 32 bits, whatever status comes with it.
   */
  lemma LengthArrives(
      payload: Octets, polls: seq<Poll>, outcome: Outcome, sent: seq<Chunk>, used: nat,
      head: Option<Octets>, trailers: Trailers)
    requires Driven(Framed(payload), polls, outcome, sent, used) && outcome.Sent? && !trailers.TrailersLost?
    ensures
      var read := Read(Some(Response(OK, head, Carried(sent), trailers)));
      && read.Some? && Some(read.value.0) == ResolveStatus(trailers, head)
      && (read.value.1 == |payload| <==> |payload| < U32)
  {
    hide Usable, Credit, Credits, Counted, ReadLength, Concat, Bodies, StatusIn;
    CompletesExactly(Framed(payload), polls, outcome, sent, used);
    CarriedBodies(sent);
    LengthReadBackExactly(payload);
  }
}
