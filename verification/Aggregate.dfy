/**
 The aggregator: it drains the metrics channel into running sums, extremes, flags and
 histograms. A histogram is the bag of the values recorded in it.
 */
module Aggregate {
  import opened Wrappers
  import opened Folds
  import opened Metrics

  // ------------------------------------------------------------- counters by key

  /** The sum of the counters of a map. */
  ghost function Total<K>(m: map<K, nat>): nat
    decreases |m|
  {
    if m == map[] then 0 else
      var k :| k in m;
      m[k] + Total(m - {k})
  }

  lemma {:induction false} TotalRemove<K>(m: map<K, nat>, k: K)
    requires k in m
    ensures Total(m) == m[k] + Total(m - {k})
    decreases |m|
  {
    var j :| j in m && Total(m) == m[j] + Total(m - {j});
    if j != k {
      TotalRemove(m - {j}, k);
      TotalRemove(m - {k}, j);
      assert m - {j} - {k} == m - {k} - {j};
    }
  }

  function Bump<K>(m: map<K, nat>, k: K): map<K, nat> {
    m[k := (if k in m then m[k] else 0) + 1]
  }

  lemma BumpAddsOne<K>(m: map<K, nat>, k: K)
    ensures Total(Bump(m, k)) == Total(m) + 1
  {
    var b := Bump(m, k);
    TotalRemove(b, k);
    if k in m {
      TotalRemove(m, k);
      assert b - {k} == m - {k};
    } else {
      assert b - {k} == m;
    }
  }

  // ------------------------------------------------------------- accounting common to all protocols

  datatype Timings = Timings(latency: multiset<nat>, endToEnd: multiset<nat>, connection: multiset<nat>)

  datatype Chaos = Chaos(total: nat, byType: map<string, nat>)

  datatype Sockets = Sockets(reused: nat, created: nat, dnsSumUs: nat, dnsCount: nat)

  datatype Responses = Responses(statusCodes: map<nat, nat>, bytes: nat)

  datatype Common = Common(timings: Timings, chaos: Chaos, sockets: Sockets, responses: Responses)

  /** How many of each there are in a bag. */
  function Tally<K>(bag: multiset<K>): map<K, nat> {
    map k | k in bag :: bag[k]
  }

  lemma TallyGrows<K>(bag: multiset<K>, k: K)
    ensures Tally(bag + multiset{k}) == Bump(Tally(bag), k)
  {
  }

  lemma {:induction false} TallyTotal<K>(bag: multiset<K>)
    ensures Total(Tally(bag)) == |bag|
    decreases |bag|
  {
    if bag == multiset{} {
      assert Tally(bag) == map[];
    } else {
      var k :| k in bag;
      var others := bag - multiset{k};
      assert bag == others + multiset{k};
      TallyTotal(others);
      TallyGrows(others, k);
      BumpAddsOne(Tally(others), k);
    }
  }

  function Squeezed(x: Option<nat>): Option<nat> {
    if x.Some? then Some(ToU64(x.value)) else None
  }

  function FaultName(m: Metric): Option<string> {
    if m.fault.Some? then Some(m.fault.value.Name()) else None
  }

  function TimingsOf(ms: seq<Metric>): Timings {
    Timings(
      Bag(ms, LatencyOf),
      Bag(ms, (m: Metric) => Squeezed(m.endToEndUs)),
      Bag(ms, (m: Metric) => Squeezed(m.connectionUs)))
  }

  function Faulted(m: Metric): nat { One(m.fault.Some?) }

  function Reused(m: Metric): nat { One(m.reused) }

  function Created(m: Metric): nat { One(!m.reused) }

  function ChaosOf(ms: seq<Metric>): Chaos {
    Chaos(Sum(ms, Faulted), Tally(Bag(ms, FaultName)))
  }

  function SocketsOf(ms: seq<Metric>): Sockets {
    Sockets(
      Sum(ms, Reused),
      Sum(ms, Created),
      Sum(ms, (m: Metric) => OrZero(m.dnsUs)),
      Sum(ms, (m: Metric) => One(m.dnsUs.Some?)))
  }

  function StatusOf(m: Metric): Option<nat> {
    Some(m.status)
  }

  function ResponsesOf(ms: seq<Metric>): Responses {
    Responses(Tally(Bag(ms, StatusOf)), Sum(ms, (m: Metric) => m.bytes))
  }

  /** What the common section must be after the metrics `ms`. */
  function CommonOf(ms: seq<Metric>): Common {
    Common(TimingsOf(ms), ChaosOf(ms), SocketsOf(ms), ResponsesOf(ms))
  }

  // ------------------------------------------------------------- accumulators of the protocols

  datatype QuicStats = QuicStats(has: bool, zeroRtt: nat, retransmissions: nat, handshakeSum: nat, handshakeCount: nat)

  datatype SseStats = SseStats(events: nat, firstSum: nat, firstCount: nat)

  datatype GraphqlStats = GraphqlStats(has: bool, operations: nat, errorResponses: nat, errors: nat)

  datatype GraphqlWsStats = GraphqlWsStats(
    has: bool, operations: nat, messages: nat, errors: nat, ttfm: multiset<nat>, interval: multiset<nat>)

  datatype SoapStats = SoapStats(has: bool, operations: nat, faultResponses: nat)

  datatype StompStats = StompStats(
    has: bool, sent: nat, received: nat, bytesSent: nat, errors: nat, reconnects: nat,
    send: multiset<nat>, interval: multiset<nat>, ttfm: multiset<nat>)

  datatype DbStats = DbStats(
    has: bool, queries: nat, rows: nat, errors: nat, poolSize: nat, acquire: multiset<nat>, query: multiset<nat>)

  datatype WsStats = WsStats(
    has: bool, pingsSent: nat, pingsReceived: nat, pongsSolicited: nat, pongsUnsolicited: nat,
    backpressureMax: nat, breaches: nat, backpressureSum: nat, backpressureCount: nat)

  datatype GrpcStats = GrpcStats(
    has: bool, activePeak: nat, utilizationPeak: real, utilizationSum: real, utilizationCount: nat,
    exhaustions: nat, stallSumUs: nat, capacityMin: nat)

  datatype Http3Stats = Http3Stats(
    has: bool, cwndCurrent: nat, cwndMax: nat, cwndMin: nat, cwndSum: nat, cwndCount: nat,
    attempted: nat, successful: nat)

  datatype Protocols = Protocols(
    quic: QuicStats, sse: SseStats, graphql: GraphqlStats, graphqlWs: GraphqlWsStats, soap: SoapStats,
    stomp: StompStats, db: DbStats, ws: WsStats, grpc: GrpcStats, http3: Http3Stats)

  // What each accumulator must hold after the samples `s`, all of them significant where
  // the section is gated.

  function QuicOf(s: seq<QuicSample>): QuicStats {
    QuicStats(
      s != [],
      Sum(s, (x: QuicSample) => One(x.usedZeroRtt)),
      Sum(s, (x: QuicSample) => OrZero(x.retransmits)),
      Sum(s, (x: QuicSample) => OrZero(x.handshakeUs)),
      Sum(s, (x: QuicSample) => One(x.handshakeUs.Some?)))
  }

  function SseOf(s: seq<SseSample>): SseStats {
    SseStats(
      Sum(s, (x: SseSample) => OrZero(x.events)),
      Sum(s, (x: SseSample) => OrZero(x.firstUs)),
      Sum(s, (x: SseSample) => One(x.firstUs.Some?)))
  }

  function GraphqlOf(s: seq<GraphqlSample>): GraphqlStats {
    GraphqlStats(
      s != [],
      |s|,
      Sum(s, (x: GraphqlSample) => One(x.errors > 0)),
      Sum(s, (x: GraphqlSample) => x.errors))
  }

  predicate Tells(x: GraphqlWsSample) {
    x.operations.Some? || x.ttfmUs.Some? || x.intervalUs.Some? || x.errors.Some?
  }

  function GraphqlWsOf(s: seq<GraphqlWsSample>): GraphqlWsStats {
    GraphqlWsStats(
      Sum(s, (x: GraphqlWsSample) => One(Tells(x))) > 0,
      Sum(s, (x: GraphqlWsSample) => OrZero(x.operations)),
      Sum(s, (x: GraphqlWsSample) => One(x.intervalUs.Some?)),
      Sum(s, (x: GraphqlWsSample) => OrZero(x.errors)),
      Bag(s, (x: GraphqlWsSample) => x.ttfmUs),
      Bag(s, (x: GraphqlWsSample) => x.intervalUs))
  }

  function SoapOf(s: seq<SoapSample>): SoapStats {
    SoapStats(s != [], |s|, Sum(s, (x: SoapSample) => One(x.faults > 0)))
  }

  function StompOf(s: seq<StompSample>): StompStats {
    StompStats(
      s != [],
      Sum(s, (x: StompSample) => x.sent),
      Sum(s, (x: StompSample) => x.received),
      Sum(s, (x: StompSample) => x.bytesSent),
      Sum(s, (x: StompSample) => x.errors),
      Sum(s, (x: StompSample) => x.reconnects),
      Bag(s, (x: StompSample) => x.sendUs),
      Bag(s, (x: StompSample) => x.intervalUs),
      Bag(s, (x: StompSample) => x.ttfmUs))
  }

  /** The last pool size that is not 0. */
  function LastPool(s: seq<DbSample>): nat {
    if s == [] then 0
    else if s[|s| - 1].poolSize > 0 then s[|s| - 1].poolSize
    else LastPool(s[..|s| - 1])
  }

  function DbOf(s: seq<DbSample>): DbStats {
    DbStats(
      s != [],
      |s|,
      Sum(s, (x: DbSample) => x.rows),
      Sum(s, (x: DbSample) => x.errors),
      LastPool(s),
      Bag(s, (x: DbSample) => x.acquireUs),
      Bag(s, (x: DbSample) => x.queryUs))
  }

  function WsOf(s: seq<WsSample>): WsStats {
    WsStats(
      s != [],
      Sum(s, (x: WsSample) => x.pingsSent),
      Sum(s, (x: WsSample) => x.pingsReceived),
      Sum(s, (x: WsSample) => x.pongsSolicited),
      Sum(s, (x: WsSample) => x.pongsUnsolicited),
      Max(s, (x: WsSample) => x.backpressureMax),
      Sum(s, (x: WsSample) => x.breaches),
      Sum(s, (x: WsSample) => x.backpressureSum),
      Sum(s, (x: WsSample) => x.backpressureCount))
  }

  function GrpcOf(s: seq<GrpcSample>): GrpcStats {
    GrpcStats(
      s != [],
      Max(s, (x: GrpcSample) => x.activeStreams),
      MaxReal(s, (x: GrpcSample) => x.utilization),
      SumReal(s, (x: GrpcSample) => x.utilization),
      |s|,
      Sum(s, (x: GrpcSample) => x.exhaustions),
      Sum(s, (x: GrpcSample) => x.stallUs),
      Min(s, U64_MAX, (x: GrpcSample) => x.capacity))
  }

  function Http3Of(s: seq<Http3Sample>): Http3Stats {
    Http3Stats(
      s != [],
      if s == [] then 0 else s[|s| - 1].cwndBytes,
      Max(s, (x: Http3Sample) => x.cwndBytes),
      Min(s, U64_MAX, (x: Http3Sample) => Some(x.cwndBytes)),
      Sum(s, (x: Http3Sample) => x.cwndBytes),
      |s|,
      Sum(s, (x: Http3Sample) => x.attempted),
      Sum(s, (x: Http3Sample) => x.successful))
  }

  function With<V>(bag: multiset<V>, x: Option<V>): multiset<V> {
    if x.Some? then bag + multiset{x.value} else bag
  }

  lemma TimingsSnoc(ms: seq<Metric>, m: Metric)
    ensures var t := TimingsOf(ms); TimingsOf(ms + [m]) == Timings(
      With(t.latency, Some(ToU64(m.latency))), With(t.endToEnd, Squeezed(m.endToEndUs)),
      With(t.connection, Squeezed(m.connectionUs)))
  {
    hide Bag;
    BagSnoc<Metric, nat>(ms, m);
  }

  lemma GraphqlWsSnoc(s: seq<GraphqlWsSample>, x: GraphqlWsSample)
    ensures var a := GraphqlWsOf(s); GraphqlWsOf(s + [x]) == GraphqlWsStats(
      a.has || Tells(x), a.operations + OrZero(x.operations), a.messages + One(x.intervalUs.Some?),
      a.errors + OrZero(x.errors), With(a.ttfm, x.ttfmUs), With(a.interval, x.intervalUs))
  {
    hide Sum, Bag;
    Snoc(s, x);
    BagSnoc<GraphqlWsSample, nat>(s, x);
  }

  lemma StompSnoc(s: seq<StompSample>, x: StompSample)
    ensures var a := StompOf(s); StompOf(s + [x]) == StompStats(
      true, a.sent + x.sent, a.received + x.received, a.bytesSent + x.bytesSent, a.errors + x.errors,
      a.reconnects + x.reconnects, With(a.send, x.sendUs), With(a.interval, x.intervalUs), With(a.ttfm, x.ttfmUs))
  {
    hide Sum, Bag;
    Snoc(s, x);
    BagSnoc<StompSample, nat>(s, x);
  }

  lemma DbSnoc(s: seq<DbSample>, x: DbSample)
    ensures var a := DbOf(s); DbOf(s + [x]) == DbStats(
      true, a.queries + 1, a.rows + x.rows, a.errors + x.errors,
      if x.poolSize > 0 then x.poolSize else a.poolSize, With(a.acquire, x.acquireUs), With(a.query, x.queryUs))
  {
    hide Sum, Bag;
    assert (s + [x])[..|s|] == s;
    Snoc(s, x);
    BagSnoc<DbSample, nat>(s, x);
  }

  // Which part of a metric a section looks at.

  function QuicPart(m: Metric): Option<QuicSample> {
    if m.sample.Some? && m.sample.value.Http3? && m.sample.value.quic.Some? && m.sample.value.quic.value.Significant()
    then m.sample.value.quic else None
  }

  function Http3Part(m: Metric): Option<Http3Sample> {
    if m.sample.Some? && m.sample.value.Http3? && m.sample.value.http3.Some? && m.sample.value.http3.value.Significant()
    then m.sample.value.http3 else None
  }

  function WsPart(m: Metric): Option<WsSample> {
    if m.sample.Some? && m.sample.value.Ws? && m.sample.value.ws.Significant() then Some(m.sample.value.ws) else None
  }

  function GrpcPart(m: Metric): Option<GrpcSample> {
    if m.sample.Some? && m.sample.value.Grpc? && m.sample.value.grpc.Significant()
    then Some(m.sample.value.grpc) else None
  }

  function StompPart(m: Metric): Option<StompSample> {
    if m.sample.Some? && m.sample.value.Stomp? && m.sample.value.stomp.Significant()
    then Some(m.sample.value.stomp) else None
  }

  function DbPart(m: Metric): Option<DbSample> {
    if m.sample.Some? && m.sample.value.Db? && m.sample.value.db.Significant() then Some(m.sample.value.db) else None
  }

  function SsePart(m: Metric): Option<SseSample> {
    if m.sample.Some? && m.sample.value.Sse? then Some(m.sample.value.sse) else None
  }

  function GraphqlPart(m: Metric): Option<GraphqlSample> {
    if m.sample.Some? && m.sample.value.Graphql? then Some(m.sample.value.graphql) else None
  }

  function GraphqlWsPart(m: Metric): Option<GraphqlWsSample> {
    if m.sample.Some? && m.sample.value.GraphqlWs? then Some(m.sample.value.graphqlWs) else None
  }

  function SoapPart(m: Metric): Option<SoapSample> {
    if m.sample.Some? && m.sample.value.Soap? then Some(m.sample.value.soap) else None
  }

  /** What the accumulators must hold after the metrics `ms`. */
  function ProtocolsOf(ms: seq<Metric>): Protocols {
    Protocols(
      QuicOf(Extract(ms, QuicPart)), SseOf(Extract(ms, SsePart)), GraphqlOf(Extract(ms, GraphqlPart)),
      GraphqlWsOf(Extract(ms, GraphqlWsPart)), SoapOf(Extract(ms, SoapPart)), StompOf(Extract(ms, StompPart)),
      DbOf(Extract(ms, DbPart)), WsOf(Extract(ms, WsPart)), GrpcOf(Extract(ms, GrpcPart)),
      Http3Of(Extract(ms, Http3Part)))
  }

  function Added<V>(s: seq<V>, x: Option<V>): seq<V> {
    if x.Some? then s + [x.value] else s
  }

  lemma ProtocolsSnoc(ms: seq<Metric>, m: Metric)
    ensures ProtocolsOf(ms + [m]) == Protocols(
      QuicOf(Added(Extract(ms, QuicPart), QuicPart(m))),
      SseOf(Added(Extract(ms, SsePart), SsePart(m))),
      GraphqlOf(Added(Extract(ms, GraphqlPart), GraphqlPart(m))),
      GraphqlWsOf(Added(Extract(ms, GraphqlWsPart), GraphqlWsPart(m))),
      SoapOf(Added(Extract(ms, SoapPart), SoapPart(m))),
      StompOf(Added(Extract(ms, StompPart), StompPart(m))),
      DbOf(Added(Extract(ms, DbPart), DbPart(m))),
      WsOf(Added(Extract(ms, WsPart), WsPart(m))),
      GrpcOf(Added(Extract(ms, GrpcPart), GrpcPart(m))),
      Http3Of(Added(Extract(ms, Http3Part), Http3Part(m))))
  {
    hide Extract;
    hide QuicOf, SseOf, GraphqlOf, GraphqlWsOf, SoapOf, StompOf, DbOf, WsOf, GrpcOf, Http3Of;
    hide QuicPart, SsePart, GraphqlPart, GraphqlWsPart, SoapPart, StompPart, DbPart, WsPart, GrpcPart, Http3Part;
    ExtractSnoc(ms, m, QuicPart);
    ExtractSnoc(ms, m, SsePart);
    ExtractSnoc(ms, m, GraphqlPart);
    ExtractSnoc(ms, m, GraphqlWsPart);
    ExtractSnoc(ms, m, SoapPart);
    ExtractSnoc(ms, m, StompPart);
    ExtractSnoc(ms, m, DbPart);
    ExtractSnoc(ms, m, WsPart);
    ExtractSnoc(ms, m, GrpcPart);
    ExtractSnoc(ms, m, Http3Part);
  }
}
