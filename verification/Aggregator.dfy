/** The aggregator's loop over the metrics channel, against the closed forms. */
module Aggregator {
  import opened Wrappers
  import opened Folds
  import opened Metrics
  import opened Aggregate
  import T = Timeline

  class Accumulators {
    var timings: Timings
    var chaos: Chaos
    var sockets: Sockets
    var responses: Responses
    var quic: QuicStats
    var sse: SseStats
    var graphql: GraphqlStats
    var graphqlWs: GraphqlWsStats
    var soap: SoapStats
    var stomp: StompStats
    var db: DbStats
    var ws: WsStats
    var grpc: GrpcStats
    var http3: Http3Stats

    function View(): Protocols
      reads this
    {
      Protocols(quic, sse, graphql, graphqlWs, soap, stomp, db, ws, grpc, http3)
    }

    function Shared(): Common
      reads this
    {
      Common(timings, chaos, sockets, responses)
    }

    constructor ()
      ensures Shared() == CommonOf([]) && View() == ProtocolsOf([])
    {
      timings := Timings(multiset{}, multiset{}, multiset{});
      chaos := Chaos(0, map[]);
      sockets := Sockets(0, 0, 0, 0);
      responses := Responses(map[], 0);
      quic := QuicStats(false, 0, 0, 0, 0);
      sse := SseStats(0, 0, 0);
      graphql := GraphqlStats(false, 0, 0, 0);
      graphqlWs := GraphqlWsStats(false, 0, 0, 0, multiset{}, multiset{});
      soap := SoapStats(false, 0, 0);
      stomp := StompStats(false, 0, 0, 0, 0, 0, multiset{}, multiset{}, multiset{});
      db := DbStats(false, 0, 0, 0, 0, multiset{}, multiset{});
      ws := WsStats(false, 0, 0, 0, 0, 0, 0, 0, 0);
      grpc := GrpcStats(false, 0, 0.0, 0.0, 0, 0, 0, U64_MAX);
      http3 := Http3Stats(false, 0, 0, U64_MAX, 0, 0, 0, 0);
    }

    method RecordTimings(m: Metric, latencyUs: nat, ghost ms: seq<Metric>)
      requires timings == TimingsOf(ms) && latencyUs == ToU64(m.latency)
      modifies this`timings
      ensures timings == TimingsOf(ms + [m])
    {
      hide TimingsOf, ToU64;
      TimingsSnoc(ms, m);
      timings := timings.(latency := timings.latency + multiset{latencyUs});
      if m.endToEndUs.Some? {
        timings := timings.(endToEnd := timings.endToEnd + multiset{ToU64(m.endToEndUs.value)});
      }
      if m.connectionUs.Some? {
        timings := timings.(connection := timings.connection + multiset{ToU64(m.connectionUs.value)});
      }
    }

    method RecordChaos(m: Metric, ghost ms: seq<Metric>)
      requires chaos == ChaosOf(ms)
      modifies this`chaos
      ensures chaos == ChaosOf(ms + [m])
    {
      hide Sum, Bag, Tally, Bump;
      Snoc(ms, m);
      BagSnoc<Metric, string>(ms, m);
      if m.fault.Some? {
        TallyGrows(Bag(ms, FaultName), m.fault.value.Name());
        chaos := Chaos(chaos.total + 1, Bump(chaos.byType, m.fault.value.Name()));
      }
    }

    method RecordSockets(m: Metric, ghost ms: seq<Metric>)
      requires sockets == SocketsOf(ms)
      modifies this`sockets
      ensures sockets == SocketsOf(ms + [m])
    {
      hide Sum;
      Snoc(ms, m);
      if m.reused {
        sockets := sockets.(reused := sockets.reused + 1);
      } else {
        sockets := sockets.(created := sockets.created + 1);
      }
      if m.dnsUs.Some? {
        sockets := sockets.(dnsSumUs := sockets.dnsSumUs + m.dnsUs.value, dnsCount := sockets.dnsCount + 1);
      }
    }

    method RecordResponse(m: Metric, ghost ms: seq<Metric>)
      requires responses == ResponsesOf(ms)
      modifies this`responses
      ensures responses == ResponsesOf(ms + [m])
    {
      hide Sum, Bag, Tally, Bump;
      Snoc(ms, m);
      BagSnoc<Metric, nat>(ms, m);
      TallyGrows(Bag(ms, StatusOf), m.status);
      responses := Responses(Bump(responses.statusCodes, m.status), responses.bytes + m.bytes);
    }

    method RecordCommon(m: Metric, ghost ms: seq<Metric>)
      requires Shared() == CommonOf(ms)
      modifies this`timings, this`chaos, this`sockets, this`responses
      ensures Shared() == CommonOf(ms + [m])
    {
      hide TimingsOf, ChaosOf, SocketsOf, ResponsesOf;
      RecordTimings(m, ToU64(m.latency), ms);
      RecordChaos(m, ms);
      RecordSockets(m, ms);
      RecordResponse(m, ms);
    }

    method RecordQuic(x: QuicSample, ghost s: seq<QuicSample>)
      requires quic == QuicOf(s)
      modifies this`quic
      ensures quic == QuicOf(if x.Significant() then s + [x] else s)
    {
      hide Sum, SumReal, Max, MaxReal, Min, Bag;
      Snoc(s, x);
      if x.Significant() {
        quic := quic.(has := true);
        if x.usedZeroRtt {
          quic := quic.(zeroRtt := quic.zeroRtt + 1);
        }
        if x.retransmits.Some? {
          quic := quic.(retransmissions := quic.retransmissions + x.retransmits.value);
        }
        if x.handshakeUs.Some? {
          quic := quic.(
            handshakeSum := quic.handshakeSum + x.handshakeUs.value,
            handshakeCount := quic.handshakeCount + 1);
        }
      }
    }

    method RecordSse(x: SseSample, ghost s: seq<SseSample>)
      requires sse == SseOf(s)
      modifies this`sse
      ensures sse == SseOf(s + [x])
    {
      hide Sum, SumReal, Max, MaxReal, Min, Bag;
      Snoc(s, x);
      if x.events.Some? {
        sse := sse.(events := sse.events + x.events.value);
      }
      if x.firstUs.Some? {
        sse := sse.(firstSum := sse.firstSum + x.firstUs.value, firstCount := sse.firstCount + 1);
      }
    }

    method RecordGraphql(x: GraphqlSample, ghost s: seq<GraphqlSample>)
      requires graphql == GraphqlOf(s)
      modifies this`graphql
      ensures graphql == GraphqlOf(s + [x])
    {
      hide Sum, SumReal, Max, MaxReal, Min, Bag;
      Snoc(s, x);
      graphql := graphql.(has := true, operations := graphql.operations + 1);
      if x.errors > 0 {
        graphql := graphql.(errorResponses := graphql.errorResponses + 1);
      }
      graphql := graphql.(errors := graphql.errors + x.errors);
    }

    method RecordGraphqlWs(x: GraphqlWsSample, ghost s: seq<GraphqlWsSample>)
      requires graphqlWs == GraphqlWsOf(s)
      modifies this`graphqlWs
      ensures graphqlWs == GraphqlWsOf(s + [x])
    {
      hide GraphqlWsOf;
      GraphqlWsSnoc(s, x);
      if x.operations.Some? {
        graphqlWs := graphqlWs.(has := true, operations := graphqlWs.operations + x.operations.value);
      }
      if x.ttfmUs.Some? {
        graphqlWs := graphqlWs.(has := true, ttfm := graphqlWs.ttfm + multiset{x.ttfmUs.value});
      }
      if x.intervalUs.Some? {
        graphqlWs := graphqlWs.(
          has := true,
          messages := graphqlWs.messages + 1,
          interval := graphqlWs.interval + multiset{x.intervalUs.value});
      }
      if x.errors.Some? {
        graphqlWs := graphqlWs.(has := true, errors := graphqlWs.errors + x.errors.value);
      }
    }

    method RecordSoap(x: SoapSample, ghost s: seq<SoapSample>)
      requires soap == SoapOf(s)
      modifies this`soap
      ensures soap == SoapOf(s + [x])
    {
      hide Sum, SumReal, Max, MaxReal, Min, Bag;
      Snoc(s, x);
      soap := soap.(has := true, operations := soap.operations + 1);
      if x.faults > 0 {
        soap := soap.(faultResponses := soap.faultResponses + 1);
      }
    }

    method RecordStomp(x: StompSample, ghost s: seq<StompSample>)
      requires stomp == StompOf(s)
      modifies this`stomp
      ensures stomp == StompOf(if x.Significant() then s + [x] else s)
    {
      hide StompOf;
      if !x.Significant() {
        return;
      }
      StompSnoc(s, x);
      stomp := stomp.(
        has := true, sent := stomp.sent + x.sent, received := stomp.received + x.received,
        bytesSent := stomp.bytesSent + x.bytesSent, errors := stomp.errors + x.errors,
        reconnects := stomp.reconnects + x.reconnects);
      if x.sendUs.Some? {
        stomp := stomp.(send := stomp.send + multiset{x.sendUs.value});
      }
      if x.intervalUs.Some? {
        stomp := stomp.(interval := stomp.interval + multiset{x.intervalUs.value});
      }
      if x.ttfmUs.Some? {
        stomp := stomp.(ttfm := stomp.ttfm + multiset{x.ttfmUs.value});
      }
    }

    method RecordDb(x: DbSample, ghost s: seq<DbSample>)
      requires db == DbOf(s)
      modifies this`db
      ensures db == DbOf(if x.Significant() then s + [x] else s)
    {
      hide DbOf;
      if !x.Significant() {
        return;
      }
      DbSnoc(s, x);
      db := db.(has := true, queries := db.queries + 1, rows := db.rows + x.rows, errors := db.errors + x.errors);
      if x.poolSize > 0 {
        db := db.(poolSize := x.poolSize);
      }
      if x.acquireUs.Some? {
        db := db.(acquire := db.acquire + multiset{x.acquireUs.value});
      }
      if x.queryUs.Some? {
        db := db.(query := db.query + multiset{x.queryUs.value});
      }
    }

    method RecordWs(x: WsSample, ghost s: seq<WsSample>)
      requires ws == WsOf(s)
      modifies this`ws
      ensures ws == WsOf(if x.Significant() then s + [x] else s)
    {
      hide Sum, SumReal, Max, MaxReal, Min, Bag;
      if !x.Significant() {
        return;
      }
      Snoc(s, x);
      ws := ws.(
        has := true,
        pingsSent := ws.pingsSent + x.pingsSent, pingsReceived := ws.pingsReceived + x.pingsReceived,
        pongsSolicited := ws.pongsSolicited + x.pongsSolicited,
        pongsUnsolicited := ws.pongsUnsolicited + x.pongsUnsolicited);
      if x.backpressureMax > ws.backpressureMax {
        ws := ws.(backpressureMax := x.backpressureMax);
      }
      ws := ws.(
        breaches := ws.breaches + x.breaches,
        backpressureSum := ws.backpressureSum + x.backpressureSum,
        backpressureCount := ws.backpressureCount + x.backpressureCount);
    }

    method RecordGrpc(x: GrpcSample, ghost s: seq<GrpcSample>)
      requires grpc == GrpcOf(s)
      modifies this`grpc
      ensures grpc == GrpcOf(if x.Significant() then s + [x] else s)
    {
      hide Sum, SumReal, Max, MaxReal, Min, Bag;
      if !x.Significant() {
        return;
      }
      Snoc(s, x);
      grpc := grpc.(has := true);
      if x.activeStreams > grpc.activePeak {
        grpc := grpc.(activePeak := x.activeStreams);
      }
      if x.utilization > grpc.utilizationPeak {
        grpc := grpc.(utilizationPeak := x.utilization);
      }
      grpc := grpc.(
        utilizationSum := grpc.utilizationSum + x.utilization,
        utilizationCount := grpc.utilizationCount + 1,
        exhaustions := grpc.exhaustions + x.exhaustions,
        stallSumUs := grpc.stallSumUs + x.stallUs);
      if x.capacity.Some? && x.capacity.value < grpc.capacityMin {
        grpc := grpc.(capacityMin := x.capacity.value);
      }
    }

    method RecordHttp3(x: Http3Sample, ghost s: seq<Http3Sample>)
      requires http3 == Http3Of(s)
      modifies this`http3
      ensures http3 == Http3Of(if x.Significant() then s + [x] else s)
    {
      hide Sum, SumReal, Max, MaxReal, Min, Bag;
      if !x.Significant() {
        return;
      }
      Snoc(s, x);
      http3 := http3.(has := true, cwndCurrent := x.cwndBytes);
      if x.cwndBytes > http3.cwndMax {
        http3 := http3.(cwndMax := x.cwndBytes);
      }
      if x.cwndBytes < http3.cwndMin {
        http3 := http3.(cwndMin := x.cwndBytes);
      }
      http3 := http3.(
        cwndSum := http3.cwndSum + x.cwndBytes, cwndCount := http3.cwndCount + 1,
        attempted := http3.attempted + x.attempted, successful := http3.successful + x.successful);
    }

    method RecordProtocol(m: Metric, ghost ms: seq<Metric>)
      requires View() == ProtocolsOf(ms)
      modifies this`quic, this`sse, this`graphql, this`graphqlWs, this`soap
      modifies this`stomp, this`db, this`ws, this`grpc, this`http3
      ensures View() == ProtocolsOf(ms + [m])
    {
      hide Extract;
      hide QuicOf, SseOf, GraphqlOf, GraphqlWsOf, SoapOf, StompOf, DbOf, WsOf, GrpcOf, Http3Of;
      ProtocolsSnoc(ms, m);
      if m.sample.None? {
        return;
      }
      match m.sample.value
      case Http3(http3Sample, quicSample) =>
        if quicSample.Some? {
          RecordQuic(quicSample.value, Extract(ms, QuicPart));
        }
        if http3Sample.Some? {
          RecordHttp3(http3Sample.value, Extract(ms, Http3Part));
        }
      case Sse(x) => RecordSse(x, Extract(ms, SsePart));
      case Graphql(x) => RecordGraphql(x, Extract(ms, GraphqlPart));
      case GraphqlWs(x) => RecordGraphqlWs(x, Extract(ms, GraphqlWsPart));
      case Soap(x) => RecordSoap(x, Extract(ms, SoapPart));
      case Stomp(x) => RecordStomp(x, Extract(ms, StompPart));
      case Db(x) => RecordDb(x, Extract(ms, DbPart));
      case Ws(x) => RecordWs(x, Extract(ms, WsPart));
      case Grpc(x) => RecordGrpc(x, Extract(ms, GrpcPart));
    }
  }

  /**
   Drain the channel: `rx` is everything the workers send before the last sender is dropped, `at` when
   each arrives and `end` when that is over, in nanoseconds since the start.
   */
  method FinalizeMetrics(rx: seq<Metric>, at: seq<nat>, end: nat, intervalMs: nat)
    returns (common: Common, protocols: Protocols, timeline: Option<T.Series>)
    requires |at| == |rx|
    ensures common == CommonOf(rx) && protocols == ProtocolsOf(rx)
    ensures timeline == T.TimelineOf(rx, at, end, intervalMs)
  {
    hide CommonOf, ProtocolsOf, T.TimelineOf, T.Accumulator.Tracks, T.Accumulator.Recorded;
    var a := new Accumulators();
    var t := new T.Accumulator(intervalMs);
    var i := 0;
    while i < |rx|
      invariant i <= |rx| && fresh(a) && fresh(t)
      invariant a.Shared() == CommonOf(rx[..i]) && a.View() == ProtocolsOf(rx[..i])
      invariant t.Tracks(rx, at, i)
    {
      a.RecordCommon(rx[i], rx[..i]);
      t.RecordLatency(ToU64(rx[i].latency), rx[i].IsError(), rx, at, i);
      a.RecordProtocol(rx[i], rx[..i]);
      t.MaybeEmit(at[i], rx, at, i);
      assert rx[..i + 1] == rx[..i] + [rx[i]];
      i := i + 1;
    }
    assert rx[..i] == rx;
    common := a.Shared();
    protocols := a.View();
    timeline := t.Finish(end, rx, at);
  }
}
