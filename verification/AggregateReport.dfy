/** The report made of the accumulators, and what it depends on. */
module AggregateReport {
  import opened Wrappers
  import opened Folds
  import opened Metrics
  import opened Aggregate

  // ------------------------------------------------------------- sections

  datatype QuicReport = QuicReport(zeroRtt: nat, retransmissions: nat, handshakeMs: Option<real>)
  datatype SseReport = SseReport(events: nat, firstMs: Option<real>)
  datatype WsReport = WsReport(stats: WsStats, backpressureMean: real)
  datatype GrpcReport = GrpcReport(
    activePeak: nat, utilizationPeak: real, utilizationMean: real, exhaustions: nat, stallMs: real, capacityMin: nat)
  datatype Http3Report = Http3Report(
    cwndCurrent: nat, cwndMin: nat, cwndMax: nat, cwndMean: real, attempted: nat, successful: nat, successRate: real)

  datatype Sections = Sections(
    quic: Option<QuicReport>, sse: Option<SseReport>, graphql: Option<GraphqlStats>,
    graphqlWs: Option<GraphqlWsStats>, soap: Option<SoapStats>, stomp: Option<StompStats>,
    db: Option<DbStats>, ws: Option<WsReport>, grpc: Option<GrpcReport>, http3: Option<Http3Report>)

  function Mean(sum: nat, count: nat): real {
    if count > 0 then sum as real / count as real else 0.0
  }

  function MeanMs(sumUs: nat, count: nat): Option<real> {
    if count > 0 then Some(sumUs as real / count as real / 1000.0) else None
  }

  function Shown<T>(has: bool, x: T): Option<T> {
    if has then Some(x) else None
  }

  /** A minimum that was never lowered is shown as 0. */
  function ShownMin(m: nat): nat {
    if m == U64_MAX then 0 else m
  }

  function GrpcSection(g: GrpcStats): GrpcReport {
    GrpcReport(
      g.activePeak, g.utilizationPeak,
      if g.utilizationCount > 0 then g.utilizationSum / g.utilizationCount as real else 0.0,
      g.exhaustions, g.stallSumUs as real / 1000.0, ShownMin(g.capacityMin))
  }

  function Http3Section(h: Http3Stats): Http3Report {
    Http3Report(
      h.cwndCurrent, ShownMin(h.cwndMin), h.cwndMax, Mean(h.cwndSum, h.cwndCount), h.attempted, h.successful,
      if h.attempted == 0 then 1.0 else h.successful as real / h.attempted as real)
  }

  function Finish(p: Protocols): Sections {
    Sections(
      Shown(p.quic.has,
        QuicReport(p.quic.zeroRtt, p.quic.retransmissions, MeanMs(p.quic.handshakeSum, p.quic.handshakeCount))),
      Shown(p.sse.events > 0 || p.sse.firstCount > 0,
        SseReport(p.sse.events, MeanMs(p.sse.firstSum, p.sse.firstCount))),
      Shown(p.graphql.has, p.graphql),
      Shown(p.graphqlWs.has, p.graphqlWs),
      Shown(p.soap.has, p.soap),
      Shown(p.stomp.has, p.stomp),
      Shown(p.db.has, p.db),
      Shown(p.ws.has, WsReport(p.ws, Mean(p.ws.backpressureSum, p.ws.backpressureCount))),
      Shown(p.grpc.has, GrpcSection(p.grpc)),
      Shown(p.http3.has, Http3Section(p.http3)))
  }

  // ------------------------------------------------------------- conservation

  lemma {:induction false} EveryMetricOnce(ms: seq<Metric>)
    ensures |Bag(ms, StatusOf)| == |ms|
    ensures Sum(ms, Created) + Sum(ms, Reused) == |ms|
    ensures |Bag(ms, FaultName)| == Sum(ms, Faulted)
  {
    if ms != [] {
      hide Sum, Bag;
      var n := |ms| - 1;
      EveryMetricOnce(ms[..n]);
      assert ms == ms[..n] + [ms[n]];
      BagGrows(ms[..n], ms[n], StatusOf);
      BagGrows(ms[..n], ms[n], FaultName);
      SumGrows(ms[..n], ms[n], Created);
      SumGrows(ms[..n], ms[n], Reused);
      SumGrows(ms[..n], ms[n], Faulted);
    }
  }

  /** Every metric lands in exactly one socket counter and one status code; faults by type add up. */
  lemma CommonAccounting(ms: seq<Metric>)
    ensures var c := CommonOf(ms);
      && c.sockets.created + c.sockets.reused == Total(c.responses.statusCodes) == |ms|
      && Total(c.chaos.byType) == c.chaos.total
  {
    hide Bag, Sum, Tally, Total;
    EveryMetricOnce(ms);
    TallyTotal(Bag(ms, StatusOf));
    TallyTotal(Bag(ms, FaultName));
  }

  // ------------------------------------------------------------- order does not matter

  lemma BagsPermute<X(!new)>(s: seq<X>, t: seq<X>)
    requires multiset(s) == multiset(t)
    ensures forall f: X -> Option<nat> :: Bag(s, f) == Bag(t, f)
    ensures forall f: X -> Option<string> :: Bag(s, f) == Bag(t, f)
  {
    forall f: X -> Option<nat> ensures Bag(s, f) == Bag(t, f) {
      BagPermutes(s, t, f);
    }
    forall f: X -> Option<string> ensures Bag(s, f) == Bag(t, f) {
      BagPermutes(s, t, f);
    }
  }

  /** The common section depends only on which metrics were received. */
  lemma CommonPermutes(s: seq<Metric>, t: seq<Metric>)
    requires multiset(s) == multiset(t)
    ensures CommonOf(s) == CommonOf(t)
  {
    hide Bag, Sum, Tally;
    Permutes(s, t);
    BagsPermute(s, t);
  }

  /** Whether some section looks at a metric at all. */
  predicate Matters(m: Metric) {
    m.sample.Some? && match m.sample.value
      case Ws(x) => x.Significant()
      case Grpc(x) => x.Significant()
      case Stomp(x) => x.Significant()
      case Db(x) => x.Significant()
      case Http3(http3, quic) => (http3.Some? && http3.value.Significant()) || (quic.Some? && quic.value.Significant())
      case _ => true
  }

  function Relevant(m: Metric): Option<Metric> {
    if Matters(m) then Some(m) else None
  }

  lemma {:induction false} OnlyRelevant<V(!new)>(ms: seq<Metric>, f: Metric -> Option<V>)
    requires forall m: Metric :: !Matters(m) ==> f(m).None?
    ensures Bag(ms, f) == Bag(Extract(ms, Relevant), f)
  {
    if ms != [] {
      var n := |ms| - 1;
      OnlyRelevant(ms[..n], f);
      assert ms == ms[..n] + [ms[n]];
      BagSnoc<Metric, V>(ms[..n], ms[n]);
      ExtractSnoc(ms[..n], ms[n], Relevant);
      BagSnoc<Metric, V>(Extract(ms[..n], Relevant), ms[n]);
    }
  }

  /** Metrics that agree on what matters give a section the same samples, in some order. */
  lemma SameParts<V(!new)>(s: seq<Metric>, t: seq<Metric>, f: Metric -> Option<V>)
    requires multiset(Extract(s, Relevant)) == multiset(Extract(t, Relevant))
    requires forall m: Metric :: !Matters(m) ==> f(m).None?
    ensures multiset(Extract(s, f)) == multiset(Extract(t, f))
  {
    hide Extract, Bag;
    OnlyRelevant(s, f);
    OnlyRelevant(t, f);
    BagPermutes(Extract(s, Relevant), Extract(t, Relevant), f);
    ExtractBag(s, f);
    ExtractBag(t, f);
  }

  lemma QuicPermutes(s: seq<QuicSample>, t: seq<QuicSample>)
    requires multiset(s) == multiset(t)
    ensures QuicOf(s) == QuicOf(t)
  {
    hide Sum;
    SameLength(s, t);
    Permutes(s, t);
  }

  lemma SameLength<X>(s: seq<X>, t: seq<X>)
    requires multiset(s) == multiset(t)
    ensures |s| == |t|
  {
    assert |multiset(s)| == |s| && |multiset(t)| == |t|;
  }

  lemma SsePermutes(s: seq<SseSample>, t: seq<SseSample>)
    requires multiset(s) == multiset(t)
    ensures SseOf(s) == SseOf(t)
  {
    hide Sum;
    Permutes(s, t);
  }

  lemma GraphqlPermutes(s: seq<GraphqlSample>, t: seq<GraphqlSample>)
    requires multiset(s) == multiset(t)
    ensures GraphqlOf(s) == GraphqlOf(t)
  {
    hide Sum;
    SameLength(s, t);
    Permutes(s, t);
  }

  lemma GraphqlWsPermutes(s: seq<GraphqlWsSample>, t: seq<GraphqlWsSample>)
    requires multiset(s) == multiset(t)
    ensures GraphqlWsOf(s) == GraphqlWsOf(t)
  {
    hide Sum, Bag;
    Permutes(s, t);
    BagsPermute(s, t);
  }

  lemma SoapPermutes(s: seq<SoapSample>, t: seq<SoapSample>)
    requires multiset(s) == multiset(t)
    ensures SoapOf(s) == SoapOf(t)
  {
    hide Sum;
    SameLength(s, t);
    Permutes(s, t);
  }

  lemma StompPermutes(s: seq<StompSample>, t: seq<StompSample>)
    requires multiset(s) == multiset(t)
    ensures StompOf(s) == StompOf(t)
  {
    hide Sum, Bag;
    SameLength(s, t);
    Permutes(s, t);
    BagsPermute(s, t);
  }

  lemma DbPermutes(s: seq<DbSample>, t: seq<DbSample>)
    requires multiset(s) == multiset(t)
    ensures DbOf(s).(poolSize := 0) == DbOf(t).(poolSize := 0)
  {
    hide Sum, Bag;
    SameLength(s, t);
    Permutes(s, t);
    BagsPermute(s, t);
  }

  lemma WsPermutes(s: seq<WsSample>, t: seq<WsSample>)
    requires multiset(s) == multiset(t)
    ensures WsOf(s) == WsOf(t)
  {
    hide Sum, Max;
    SameLength(s, t);
    Permutes(s, t);
  }

  lemma GrpcPermutes(s: seq<GrpcSample>, t: seq<GrpcSample>)
    requires multiset(s) == multiset(t)
    ensures GrpcOf(s) == GrpcOf(t)
  {
    hide Sum, SumReal, Max, MaxReal, Min;
    SameLength(s, t);
    Permutes(s, t);
  }

  lemma Http3Permutes(s: seq<Http3Sample>, t: seq<Http3Sample>)
    requires multiset(s) == multiset(t)
    ensures Http3Of(s).(cwndCurrent := 0) == Http3Of(t).(cwndCurrent := 0)
  {
    hide Sum, Max, Min;
    SameLength(s, t);
    Permutes(s, t);
  }

  /** The sections without their two last-observed values. */
  function Settled(x: Sections): Sections {
    x.(
      db := if x.db.Some? then Some(x.db.value.(poolSize := 0)) else None,
      http3 := if x.http3.Some? then Some(x.http3.value.(cwndCurrent := 0)) else None)
  }

  lemma AccumulatorsPermute(s: seq<Metric>, t: seq<Metric>)
    requires multiset(Extract(s, Relevant)) == multiset(Extract(t, Relevant))
    ensures var p := ProtocolsOf(s); var q := ProtocolsOf(t);
      p.(db := p.db.(poolSize := 0), http3 := p.http3.(cwndCurrent := 0))
      == q.(db := q.db.(poolSize := 0), http3 := q.http3.(cwndCurrent := 0))
  {
    hide Extract;
    hide QuicOf, SseOf, GraphqlOf, GraphqlWsOf, SoapOf, StompOf, DbOf, WsOf, GrpcOf, Http3Of;
    SameParts(s, t, QuicPart);
    QuicPermutes(Extract(s, QuicPart), Extract(t, QuicPart));
    SameParts(s, t, SsePart);
    SsePermutes(Extract(s, SsePart), Extract(t, SsePart));
    SameParts(s, t, GraphqlPart);
    GraphqlPermutes(Extract(s, GraphqlPart), Extract(t, GraphqlPart));
    SameParts(s, t, GraphqlWsPart);
    GraphqlWsPermutes(Extract(s, GraphqlWsPart), Extract(t, GraphqlWsPart));
    SameParts(s, t, SoapPart);
    SoapPermutes(Extract(s, SoapPart), Extract(t, SoapPart));
    SameParts(s, t, StompPart);
    StompPermutes(Extract(s, StompPart), Extract(t, StompPart));
    SameParts(s, t, DbPart);
    DbPermutes(Extract(s, DbPart), Extract(t, DbPart));
    SameParts(s, t, WsPart);
    WsPermutes(Extract(s, WsPart), Extract(t, WsPart));
    SameParts(s, t, GrpcPart);
    GrpcPermutes(Extract(s, GrpcPart), Extract(t, GrpcPart));
    SameParts(s, t, Http3Part);
    Http3Permutes(Extract(s, Http3Part), Extract(t, Http3Part));
  }

  /**
   Permuting the metrics, or adding and removing ones that are not significant, leaves
   every section as it was, except the two last-observed values.
   */
  lemma SectionsDependOnBag(s: seq<Metric>, t: seq<Metric>)
    requires multiset(Extract(s, Relevant)) == multiset(Extract(t, Relevant))
    ensures Settled(Finish(ProtocolsOf(s))) == Settled(Finish(ProtocolsOf(t)))
  {
    hide ProtocolsOf;
    AccumulatorsPermute(s, t);
  }

  /** In particular, the order in which the channel delivers the metrics does not matter. */
  lemma SectionsPermute(s: seq<Metric>, t: seq<Metric>)
    requires multiset(s) == multiset(t)
    ensures Settled(Finish(ProtocolsOf(s))) == Settled(Finish(ProtocolsOf(t)))
  {
    hide ProtocolsOf, Extract, Bag, Finish, Settled;
    RelevantPermutes(s, t);
    SectionsDependOnBag(s, t);
  }

  // ------------------------------------------------------------- when order does not matter at all

  /** The window a metric shows, the pool size it shows: what the two exceptions are taken from. */
  function WindowOf(m: Metric): Option<nat> {
    if Http3Part(m).Some? then Some(Http3Part(m).value.cwndBytes) else None
  }

  function PoolOf(m: Metric): Option<nat> {
    if DbPart(m).Some? && DbPart(m).value.poolSize > 0 then Some(DbPart(m).value.poolSize) else None
  }

  /** All the metrics that show the quantity show the same. */
  ghost predicate Agree(s: seq<Metric>, f: Metric -> Option<nat>) {
    forall m, n :: m in s && n in s && f(m).Some? && f(n).Some? ==> f(m) == f(n)
  }

  /** The last one shown, 0 when there is none. */
  function LastShown(s: seq<Metric>, f: Metric -> Option<nat>): nat {
    if s == [] then 0 else if f(s[|s| - 1]).Some? then f(s[|s| - 1]).value else LastShown(s[..|s| - 1], f)
  }

  lemma {:induction false} WindowIsLast(s: seq<Metric>)
    ensures Http3Of(Extract(s, Http3Part)).cwndCurrent == LastShown(s, WindowOf)
    ensures Extract(s, Http3Part) == [] <==> forall m :: m in s ==> WindowOf(m).None?
  {
    hide Http3Part, Sum, Max, Min;
    if s != [] {
      WindowIsLast(s[..|s| - 1]);
      assert s == s[..|s| - 1] + [s[|s| - 1]];
    }
  }

  lemma {:induction false} PoolIsLast(s: seq<Metric>)
    ensures LastPool(Extract(s, DbPart)) == LastShown(s, PoolOf)
  {
    hide DbPart;
    if s != [] {
      var n := |s| - 1;
      PoolIsLast(s[..n]);
      var e := Extract(s[..n], DbPart);
      if DbPart(s[n]).Some? {
        assert Extract(s, DbPart) == e + [DbPart(s[n]).value];
        assert (e + [DbPart(s[n]).value])[..|e|] == e;
      } else {
        assert Extract(s, DbPart) == e;
      }
    }
  }

  /** The last one shown is one that is shown. */
  lemma {:induction false} LastIsShown(s: seq<Metric>, f: Metric -> Option<nat>) returns (m: Metric)
    requires exists m :: m in s && f(m).Some?
    ensures m in s && f(m) == Some(LastShown(s, f))
  {
    var n := |s| - 1;
    if f(s[n]).Some? {
      m := s[n];
    } else {
      var w :| w in s && f(w).Some?;
      assert w in s[..n];
      m := LastIsShown(s[..n], f);
    }
  }

  lemma {:induction false} NoneShown(s: seq<Metric>, f: Metric -> Option<nat>)
    requires forall m :: m in s ==> f(m).None?
    ensures LastShown(s, f) == 0
  {
    if s != [] {
      NoneShown(s[..|s| - 1], f);
    }
  }

  ghost predicate Reordered(s: seq<Metric>, t: seq<Metric>) {
    multiset(s) == multiset(t)
  }

  lemma SameMembers(s: seq<Metric>, t: seq<Metric>)
    requires Reordered(s, t)
    ensures forall m :: m in s <==> m in t
  {
    forall m ensures m in s <==> m in t {
      assert m in multiset(s) <==> m in multiset(t);
    }
  }

  /** The last one shown is the same in every order, exactly when all that is shown agrees. */
  lemma LastExactly(s: seq<Metric>, f: Metric -> Option<nat>)
    ensures Agree(s, f) <==> forall t :: Reordered(s, t) ==> LastShown(t, f) == LastShown(s, f)
  {
    hide LastShown;
    if Agree(s, f) {
      forall t | Reordered(s, t) ensures LastShown(t, f) == LastShown(s, f) {
        SameMembers(s, t);
        if exists m :: m in s && f(m).Some? {
          var m := LastIsShown(s, f);
          var n := LastIsShown(t, f);
        } else {
          NoneShown(s, f);
          NoneShown(t, f);
        }
      }
    } else {
      var m, n :| m in s && n in s && f(m).Some? && f(n).Some? && f(m) != f(n);
      var t := MoveLast(s, if f(m).value != LastShown(s, f) then m else n, f);
      assert Reordered(s, t);
    }
  }

  /** An order in which `m` comes last. */
  lemma MoveLast(s: seq<Metric>, m: Metric, f: Metric -> Option<nat>) returns (t: seq<Metric>)
    requires m in s && f(m).Some?
    ensures Reordered(s, t) && LastShown(t, f) == f(m).value
  {
    var i :| 0 <= i < |s| && s[i] == m;
    t := s[..i] + s[i + 1..] + [m];
    assert s == s[..i] + [m] + s[i + 1..];
  }

  /** The sections are the settled ones and the two values last shown. */
  lemma SectionsAreLast(s: seq<Metric>, t: seq<Metric>)
    requires Reordered(s, t)
    ensures Finish(ProtocolsOf(s)) == Finish(ProtocolsOf(t))
      <==> LastShown(s, WindowOf) == LastShown(t, WindowOf) && LastShown(s, PoolOf) == LastShown(t, PoolOf)
  {
    hide Extract, Bag, Sum, Max, Min, SumReal, MaxReal, LastShown, LastPool, Http3Part, DbPart;
    var p, q := ProtocolsOf(s), ProtocolsOf(t);
    WindowIsLast(s);
    WindowIsLast(t);
    PoolIsLast(s);
    PoolIsLast(t);
    assert p.http3.cwndCurrent == LastShown(s, WindowOf) && q.http3.cwndCurrent == LastShown(t, WindowOf);
    assert p.db.poolSize == LastShown(s, PoolOf) && q.db.poolSize == LastShown(t, PoolOf);
    assert p.http3.has || p.http3.cwndCurrent == 0;
    assert p.db.has || p.db.poolSize == 0 by { NoPool(); }
    assert q.db.has || q.db.poolSize == 0 by { NoPool(); }
    hide ProtocolsOf, WindowOf, PoolOf, GrpcSection, Mean, MeanMs, ShownMin;
    RelevantPermutes(s, t);
    AccumulatorsPermute(s, t);
    hide Matters;
    FinishDiffers(p, q);
  }

  lemma NoPool()
    ensures LastPool([]) == 0
  {
  }

  lemma RelevantPermutes(s: seq<Metric>, t: seq<Metric>)
    requires Reordered(s, t)
    ensures multiset(Extract(s, Relevant)) == multiset(Extract(t, Relevant))
  {
    hide Extract, Bag, Matters;
    ExtractBag(s, Relevant);
    ExtractBag(t, Relevant);
    BagPermutes(s, t, Relevant);
  }

  lemma FinishDiffers(p: Protocols, q: Protocols)
    requires p.(db := p.db.(poolSize := 0), http3 := p.http3.(cwndCurrent := 0))
      == q.(db := q.db.(poolSize := 0), http3 := q.http3.(cwndCurrent := 0))
    requires p.http3.has || p.http3.cwndCurrent == q.http3.cwndCurrent
    requires p.db.has || p.db.poolSize == q.db.poolSize
    ensures Finish(p) == Finish(q)
      <==> p.http3.cwndCurrent == q.http3.cwndCurrent && p.db.poolSize == q.db.poolSize
  {
    if p.http3.cwndCurrent == q.http3.cwndCurrent && p.db.poolSize == q.db.poolSize {
      assert p == q;
    } else if p.http3.cwndCurrent != q.http3.cwndCurrent {
      assert Finish(p).http3.value.cwndCurrent == p.http3.cwndCurrent;
      assert Finish(q).http3.value.cwndCurrent == q.http3.cwndCurrent;
    } else {
      assert Finish(p).db.value.poolSize == p.db.poolSize;
      assert Finish(q).db.value.poolSize == q.db.poolSize;
    }
  }

  /**
   The sections of a run are the same in whatever order its metrics arrive, exactly when all
   its significant HTTP/3 samples show one window and all its non-zero pool sizes agree.
   */
  lemma OrderFreeExactly(s: seq<Metric>)
    ensures Agree(s, WindowOf) && Agree(s, PoolOf)
      <==> forall t :: Reordered(s, t) ==> Finish(ProtocolsOf(t)) == Finish(ProtocolsOf(s))
  {
    hide Finish, ProtocolsOf, WindowOf, PoolOf, Agree, LastShown;
    forall t | Reordered(s, t)
      ensures Finish(ProtocolsOf(s)) == Finish(ProtocolsOf(t))
        <==> LastShown(s, WindowOf) == LastShown(t, WindowOf) && LastShown(s, PoolOf) == LastShown(t, PoolOf)
    {
      SectionsAreLast(s, t);
    }
    LastExactly(s, WindowOf);
    LastExactly(s, PoolOf);
  }

  /** Two windows, or two pool sizes, are enough: the report shows whichever came last. */
  lemma LastOneShows(x: Metric, y: Metric)
    ensures WindowOf(x).Some? && WindowOf(y).Some? && WindowOf(x) != WindowOf(y) ==>
      Finish(ProtocolsOf([x, y])) != Finish(ProtocolsOf([y, x]))
    ensures PoolOf(x).Some? && PoolOf(y).Some? && PoolOf(x) != PoolOf(y) ==>
      Finish(ProtocolsOf([x, y])) != Finish(ProtocolsOf([y, x]))
  {
    hide Finish, ProtocolsOf, WindowOf, PoolOf;
    assert [x, y] == [x] + [y] && [y, x] == [y] + [x];
    assert Reordered([x, y], [y, x]);
    SectionsAreLast([x, y], [y, x]);
  }
}
