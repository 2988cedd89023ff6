/** What one iteration of a worker reports, and what makes it an error. */
module Metrics {
  import opened Wrappers

  const U64_MAX: nat := 0xFFFF_FFFF_FFFF_FFFF

  datatype WsSample = WsSample(
    pingsSent: nat, pingsReceived: nat, pongsSolicited: nat, pongsUnsolicited: nat,
    backpressureMax: nat, backpressureSum: nat, backpressureCount: nat, breaches: nat)
  {
    predicate Significant() {
      || pingsSent > 0 || pingsReceived > 0 || pongsSolicited > 0 || pongsUnsolicited > 0
      || backpressureMax > 0 || backpressureCount > 0 || breaches > 0
    }
  }

  datatype GrpcSample = GrpcSample(
    activeStreams: nat, utilization: real, exhaustions: nat, stallUs: nat, capacity: Option<nat>)
  {
    predicate Significant() {
      activeStreams > 0 || utilization > 0.0 || exhaustions > 0 || stallUs > 0 || capacity.Some?
    }
  }

  datatype Http3Sample = Http3Sample(cwndBytes: nat, attempted: nat, successful: nat) {
    predicate Significant() {
      cwndBytes > 0 || attempted > 0
    }
  }

  datatype QuicSample = QuicSample(handshakeUs: Option<nat>, usedZeroRtt: bool, retransmits: Option<nat>) {
    predicate Significant() {
      handshakeUs.Some? || usedZeroRtt || retransmits.Some?
    }
  }

  datatype StompSample = StompSample(
    sent: nat, received: nat, bytesSent: nat, errors: nat, reconnects: nat,
    sendUs: Option<nat>, intervalUs: Option<nat>, ttfmUs: Option<nat>)
  {
    predicate Significant() {
      || sent > 0 || received > 0 || bytesSent > 0 || errors > 0 || reconnects > 0
      || sendUs.Some? || intervalUs.Some? || ttfmUs.Some?
    }
  }

  datatype DbSample = DbSample(
    rows: nat, errors: nat, acquireUs: Option<nat>, queryUs: Option<nat>, poolSize: nat)
  {
    predicate Significant() {
      rows > 0 || errors > 0 || acquireUs.Some? || queryUs.Some? || poolSize > 0
    }
  }

  datatype SseSample = SseSample(events: Option<nat>, firstUs: Option<nat>)

  datatype GraphqlSample = GraphqlSample(errors: nat)

  datatype GraphqlWsSample = GraphqlWsSample(
    operations: Option<nat>, ttfmUs: Option<nat>, intervalUs: Option<nat>, errors: Option<nat>)

  datatype SoapSample = SoapSample(faults: nat)

  datatype Sample =
    | Ws(ws: WsSample)
    | Grpc(grpc: GrpcSample)
    | Http3(http3: Option<Http3Sample>, quic: Option<QuicSample>)
    | Sse(sse: SseSample)
    | Stomp(stomp: StompSample)
    | Db(db: DbSample)
    | Graphql(graphql: GraphqlSample)
    | GraphqlWs(graphqlWs: GraphqlWsSample)
    | Soap(soap: SoapSample)

  datatype Fault = LatencySpike(durationMs: nat) | CorruptedPayload | MetadataCorruption | ConnectionDrop {
    /** The name a fault is counted under. */
    function Name(): string {
      match this
      case LatencySpike(_) => "LatencySpike"
      case CorruptedPayload => "CorruptedPayload"
      case MetadataCorruption => "MetadataCorruption"
      case ConnectionDrop => "ConnectionDrop"
    }
  }

  datatype Metric = Metric(
    latency: nat, status: nat, bytes: nat,
    connectionUs: Option<nat>, endToEndUs: Option<nat>, dnsUs: Option<nat>, reused: bool,
    sample: Option<Sample>, fault: Option<Fault>)
  {
    predicate IsError() {
      || status == 0 || status >= 400
      || (sample.Some? && match sample.value
        case Graphql(s) => s.errors > 0
        case GraphqlWs(s) => s.errors.Some? && s.errors.value > 0
        case Soap(s) => s.faults > 0
        case Stomp(s) => s.errors > 0
        case Db(s) => s.errors > 0
        case _ => false)
    }
  }

  /** A 128-bit duration squeezed into 64 bits. */
  function ToU64(x: nat): nat {
    if x <= U64_MAX then x else U64_MAX
  }

  /** The latency a metric is counted with. */
  function LatencyOf(m: Metric): Option<nat> {
    Some(ToU64(m.latency))
  }

  function Erring(m: Metric): nat {
    One(m.IsError())
  }
}
