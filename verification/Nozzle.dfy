/** The Nozzle's own state and the methods that update it (internal/nozzle/nozzle.go and workers.go). */
module Nozzle {
  import opened Sequences
  import opened Metrics
  import opened Accounting
  import opened Client
  import opened Envelopes
  import Pipeline
  import LogFormatter

  // ---------------------------------------------------------------- the nozzle's own metrics

  datatype Kind = OwnGauge | MetricCount | LogCount

  datatype OwnMetric =
    | TotalMessagesReceived | TotalMetricsSent | TotalLogsSent | SlowConsumerAlert
    | MetricsSent | MetricsDropped | LogsSent | LogsDropped
  {
    function Name(): string {
      match this
      case TotalMessagesReceived => "totalMessagesReceived"
      case TotalMetricsSent => "totalMetricsSent"
      case TotalLogsSent => "totalLogsSent"
      case SlowConsumerAlert => "slowConsumerAlert"
      case MetricsSent => "metrics.sent"
      case MetricsDropped => "metrics.dropped"
      case LogsSent => "logs.sent"
      case LogsDropped => "logs.dropped"
    }

    function Kind(): Kind {
      match this
      case MetricsSent | MetricsDropped => MetricCount
      case LogsSent | LogsDropped => LogCount
      case _ => OwnGauge
    }

    function Type(): string {
      if Kind().OwnGauge? then GAUGE else COUNT
    }

    function Key(client: DatadogClient): MetricKey {
      client.Internal(Name(), Type(), 0, 0).0
    }
  }

  datatype OwnValue = OwnValue(metric: OwnMetric, value: nat)

  function GaugeValues(books: Books, received: nat, alert: nat): seq<OwnValue> {
    [OwnValue(TotalMessagesReceived, received), OwnValue(TotalMetricsSent, books.totalMetricsSent),
     OwnValue(TotalLogsSent, books.totalLogsSent), OwnValue(SlowConsumerAlert, alert)]
  }

  function MetricValues(books: Books): seq<OwnValue> {
    if books.totalMetricsSent == 0 then []
    else [OwnValue(MetricsSent, books.Due().metricsSent), OwnValue(MetricsDropped, books.Due().metricsDropped)]
  }

  function LogValues(books: Books): seq<OwnValue> {
    if books.totalLogsSent == 0 then []
    else [OwnValue(LogsSent, books.Due().logsSent), OwnValue(LogsDropped, books.Due().logsDropped)]
  }

  /** What the next client is told, given the books before its turn. */
  function OwnValues(books: Books, received: nat, alert: nat): seq<OwnValue> {
    GaugeValues(books, received, alert) + MetricValues(books) + LogValues(books)
  }

  function Put(m: Entries, client: DatadogClient, v: OwnValue, timestamp: int): Entries {
    var kv := client.Internal(v.metric.Name(), v.metric.Type(), v.value, timestamp);
    m[kv.0 := kv.1]
  }

  function PutAll(m: Entries, client: DatadogClient, values: seq<OwnValue>, timestamp: int): Entries {
    if values == [] then m
    else Put(PutAll(m, client, values[..|values| - 1], timestamp), client, values[|values| - 1], timestamp)
  }

  lemma PutNext(m: Entries, client: DatadogClient, values: seq<OwnValue>, v: OwnValue, timestamp: int)
    ensures PutAll(m, client, values + [v], timestamp) == Put(PutAll(m, client, values, timestamp), client, v, timestamp)
  {
    assert (values + [v])[..|values|] == values;
  }

  lemma NamesDiffer(a: OwnMetric, b: OwnMetric)
    requires a != b
    ensures a.Name() != b.Name()
  {
  }

  /** The client is told some value under k. */
  ghost predicate ToldUnder(client: DatadogClient, values: seq<OwnValue>, k: MetricKey) {
    exists v :: v in values && v.metric.Key(client) == k
  }

  ghost function ValueUnder(client: DatadogClient, values: seq<OwnValue>, k: MetricKey): (v: OwnValue)
    requires ToldUnder(client, values, k)
    ensures v in values && v.metric.Key(client) == k
  {
    var v :| v in values && v.metric.Key(client) == k;
    v
  }

  /** Gauges are always told, counts once something of their kind was sent. */
  predicate KindTold(books: Books, kind: Kind) {
    match kind
    case OwnGauge => true
    case MetricCount => books.totalMetricsSent > 0
    case LogCount => books.totalLogsSent > 0
  }

  predicate IsTold(books: Books, metric: OwnMetric) {
    KindTold(books, metric.Kind())
  }

  lemma OwnValuesOf(books: Books, received: nat, alert: nat, metric: OwnMetric)
    ensures (exists v :: v in OwnValues(books, received, alert) && v.metric == metric) <==> IsTold(books, metric)
  {
    var values := OwnValues(books, received, alert);
    assert values[0].metric == TotalMessagesReceived && values[1].metric == TotalMetricsSent;
    assert values[2].metric == TotalLogsSent && values[3].metric == SlowConsumerAlert;
    if books.totalMetricsSent > 0 {
      assert values[4].metric == MetricsSent && values[5].metric == MetricsDropped;
    }
    if books.totalLogsSent > 0 {
      assert values[|values| - 2].metric == LogsSent && values[|values| - 1].metric == LogsDropped;
    }
    if IsTold(books, metric) {
      var i :| 0 <= i < |values| && values[i].metric == metric;
      assert values[i] in values;
    }
  }

  /** Some metric that the books say is told has the key k with this client. */
  ghost predicate Tells(books: Books, client: DatadogClient, k: MetricKey) {
    exists metric :: IsTold(books, metric) && metric.Key(client) == k
  }

  lemma ToldExactly(books: Books, received: nat, alert: nat, client: DatadogClient, k: MetricKey)
    ensures ToldUnder(client, OwnValues(books, received, alert), k) <==> Tells(books, client, k)
  {
    var values := OwnValues(books, received, alert);
    if Tells(books, client, k) {
      var metric :| IsTold(books, metric) && metric.Key(client) == k;
      OwnValuesOf(books, received, alert, metric);
    }
    if ToldUnder(client, values, k) {
      var v :| v in values && v.metric.Key(client) == k;
      OwnValuesOf(books, received, alert, v.metric);
    }
  }

  /** The same entry, or none, under k. */
  ghost predicate AgreeAt(a: Entries, b: Entries, k: MetricKey) {
    (k in a <==> k in b) && (k in a ==> a[k] == b[k])
  }

  lemma {:induction false} PutUntold(m: Entries, client: DatadogClient, values: seq<OwnValue>, timestamp: int,
                                     k: MetricKey)
    requires !ToldUnder(client, values, k)
    ensures AgreeAt(PutAll(m, client, values, timestamp), m, k)
  {
    if values == [] {
    } else {
      var front, last := values[..|values| - 1], values[|values| - 1];
      assert last in values;
      assert forall v :: v in front ==> v in values;
      PutUntold(m, client, front, timestamp, k);
    }
  }

  ghost predicate DistinctMetrics(values: seq<OwnValue>) {
    forall i, j :: 0 <= i < j < |values| ==> values[i].metric != values[j].metric
  }

  /** The entry that a value becomes. */
  function EntryFor(client: DatadogClient, v: OwnValue, timestamp: int): MetricValue {
    client.Internal(v.metric.Name(), v.metric.Type(), v.value, timestamp).1
  }

  function EntryOf(m: Entries, key: MetricKey): Option<MetricValue> {
    if key in m then Some(m[key]) else None
  }

  lemma PutAt(m: Entries, client: DatadogClient, v: OwnValue, timestamp: int, metric: OwnMetric)
    ensures EntryOf(Put(m, client, v, timestamp), metric.Key(client))
         == if metric == v.metric then Some(EntryFor(client, v, timestamp)) else EntryOf(m, metric.Key(client))
  {
    if metric != v.metric {
      NamesDiffer(metric, v.metric);
    }
  }

  lemma PutAllAt(m: Entries, client: DatadogClient, values: seq<OwnValue>, timestamp: int, metric: OwnMetric)
    requires values != []
    ensures var front, last := values[..|values| - 1], values[|values| - 1];
            EntryOf(PutAll(m, client, values, timestamp), metric.Key(client))
            == if metric == last.metric then Some(EntryFor(client, last, timestamp))
               else EntryOf(PutAll(m, client, front, timestamp), metric.Key(client))
  {
    PutAt(PutAll(m, client, values[..|values| - 1], timestamp), client, values[|values| - 1], timestamp, metric);
  }

  /** The entry under a metric's key once the values are in the batch. */
  ghost function Told(m: Entries, client: DatadogClient, values: seq<OwnValue>, timestamp: int, metric: OwnMetric)
    : Option<MetricValue>
  {
    EntryOf(PutAll(m, client, values, timestamp), metric.Key(client))
  }

  lemma ToldNext(m: Entries, client: DatadogClient, front: seq<OwnValue>, last: OwnValue, timestamp: int, metric: OwnMetric)
    ensures Told(m, client, front + [last], timestamp, metric)
         == if metric == last.metric then Some(EntryFor(client, last, timestamp))
            else Told(m, client, front, timestamp, metric)
  {
    assert (front + [last])[..|front|] == front;
    PutAllAt(m, client, front + [last], timestamp, metric);
  }

  /** Each value is the entry under its key, whatever the firehose had sent under the same key. */
  lemma {:induction false} PutReports(m: Entries, client: DatadogClient, values: seq<OwnValue>, timestamp: int, v: OwnValue)
    requires DistinctMetrics(values) && v in values
    ensures Told(m, client, values, timestamp, v.metric) == Some(EntryFor(client, v, timestamp))
  {
    var front, last := values[..|values| - 1], values[|values| - 1];
    assert values == front + [last];
    ToldNext(m, client, front, last, timestamp, v.metric);
    if v == last {
    } else {
      PutReports(m, client, front, timestamp, v);
      DistinctFront(front, last, v);
    }
  }

  lemma DistinctFront(front: seq<OwnValue>, last: OwnValue, v: OwnValue)
    requires DistinctMetrics(front + [last]) && v in front
    ensures v.metric != last.metric
  {
    var i :| 0 <= i < |front| && front[i] == v;
    assert (front + [last])[i] == v && (front + [last])[|front|] == last;
  }

  lemma OwnValuesDistinct(books: Books, received: nat, alert: nat)
    ensures DistinctMetrics(OwnValues(books, received, alert))
  {
  }

  method AddInternal(batch: Entries, client: DatadogClient, v: OwnValue, timestamp: int) returns (r: Entries)
    ensures r == Put(batch, client, v, timestamp)
  {
    var key, value := client.MakeInternalMetric(v.metric.Name(), v.metric.Type(), v.value, timestamp);
    r := batch[key := value];
  }

  /** Adds one more metric after those already added to the batch. */
  method AddNext(ghost start: Entries, client: DatadogClient, batch: Entries, ghost before: seq<OwnValue>,
                 v: OwnValue, timestamp: int)
    returns (r: Entries)
    requires batch == PutAll(start, client, before, timestamp)
    ensures r == PutAll(start, client, before + [v], timestamp)
  {
    r := AddInternal(batch, client, v, timestamp);
    PutNext(start, client, before, v, timestamp);
  }

  /** Adds two more. */
  method AddPair(ghost start: Entries, client: DatadogClient, batch: Entries, ghost before: seq<OwnValue>,
                 v: OwnValue, w: OwnValue, timestamp: int)
    returns (r: Entries)
    requires batch == PutAll(start, client, before, timestamp)
    ensures r == PutAll(start, client, before + [v, w], timestamp)
  {
    r := AddNext(start, client, batch, before, v, timestamp);
    r := AddNext(start, client, r, before + [v], w, timestamp);
    assert before + [v] + [w] == before + [v, w];
  }

  method TellGauges(client: DatadogClient, batch: Entries, books: Books, received: nat, alert: nat, timestamp: int)
    returns (r: Entries)
    ensures r == PutAll(batch, client, GaugeValues(books, received, alert), timestamp)
  {
    var a, b := OwnValue(TotalMessagesReceived, received), OwnValue(TotalMetricsSent, books.totalMetricsSent);
    var c, d := OwnValue(TotalLogsSent, books.totalLogsSent), OwnValue(SlowConsumerAlert, alert);
    r := AddPair(batch, client, batch, [], a, b, timestamp);
    assert [] + [a, b] == [a, b];
    r := AddPair(batch, client, r, [a, b], c, d, timestamp);
    assert [a, b] + [c, d] == GaugeValues(books, received, alert);
  }

  /** The part of a client's turn that writes the nozzle's metrics into the batch. */
  method Tell(client: DatadogClient, batch: Entries, books: Books, received: nat, alert: nat, timestamp: int)
    returns (r: Entries)
    ensures r == PutAll(batch, client, OwnValues(books, received, alert), timestamp)
  {
    r := TellGauges(client, batch, books, received, alert, timestamp);
    ghost var told := GaugeValues(books, received, alert);
    assert told + [] == told;
    if books.totalMetricsSent > 0 {
      r := AddPair(batch, client, r, told, OwnValue(MetricsSent, books.pending.metricsSent),
                   OwnValue(MetricsDropped, books.pending.metricsDropped), timestamp);
    }
    told := told + MetricValues(books);
    assert told + [] == told;
    if books.totalLogsSent > 0 {
      r := AddPair(batch, client, r, told, OwnValue(LogsSent, books.pending.logsSent),
                   OwnValue(LogsDropped, books.pending.logsDropped), timestamp);
    }
  }

  // ---------------------------------------------------------------- one metrics flush

  /** What the first n turns leave of the snapshot. */
  ghost function Before(snapshot: Entries, handed: seq<Entries>, n: nat): Entries
    requires n <= |handed|
  {
    if n == 0 then snapshot else handed[n - 1]
  }

  /**
   * A record of one metrics flush: what it started from, whether each client's requests go through, and per client
   * what it was told, the batch it was handed, and how large that batch was and how much of it stayed unsent.
   */
  datatype FlushRecord = FlushRecord(
    snapshot: Entries, books: Books, received: nat, alert: nat, timestamp: int, networks: nat -> Network,
    told: seq<seq<OwnValue>>, handed: seq<Entries>, posts: seq<Post>)
  {
    /** Client i is handed what its predecessors left plus what it is told. */
    ghost predicate Valid(clients: seq<DatadogClient>) {
      |posts| == |handed| == |told| <= |clients|
      && forall i :: 0 <= i < |told| ==> Turn(clients, i)
    }

    /** The turn of client i: it is told exactly the amounts that this turn then clears from the books. */
    ghost predicate Turn(clients: seq<DatadogClient>, i: nat)
      requires |posts| == |handed| == |told| && i < |told| && i < |clients|
    {
      && told[i] == OwnValues(books.MetricsPosted(posts[..i]), received, alert)
      && handed[i] == PutAll(Previous(i), clients[i], told[i], timestamp)
      && posts[i].size == |handed[i]| && posts[i].Valid()
      && clients[i].MetricsReport(handed[i], networks(i), posts[i].unsent)
    }

    ghost function Previous(i: nat): Entries
      requires i <= |handed|
    {
      if i == 0 then snapshot else handed[i - 1]
    }

    ghost function Next(values: seq<OwnValue>, batch: Entries, post: Post): FlushRecord {
      this.(told := told + [values], handed := handed + [batch], posts := posts + [post])
    }
  }

  lemma TurnKept(r: FlushRecord, clients: seq<DatadogClient>, i: nat, values: seq<OwnValue>, batch: Entries, post: Post)
    requires |r.posts| == |r.handed| == |r.told| && i < |r.told| && i < |clients| && r.Turn(clients, i)
    ensures r.Next(values, batch, post).Turn(clients, i)
  {
    assert r.Next(values, batch, post).posts[..i] == r.posts[..i];
  }

  lemma RecordNext(r: FlushRecord, clients: seq<DatadogClient>, values: seq<OwnValue>, batch: Entries, post: Post)
    requires r.Valid(clients) && |r.told| < |clients|
    requires values == OwnValues(r.books.MetricsPosted(r.posts), r.received, r.alert)
    requires batch == PutAll(r.Previous(|r.handed|), clients[|r.handed|], values, r.timestamp)
    requires post.size == |batch| && post.Valid()
    requires clients[|r.handed|].MetricsReport(batch, r.networks(|r.handed|), post.unsent)
    ensures r.Next(values, batch, post).Valid(clients)
    ensures r.books.MetricsPosted(r.posts + [post]) == r.books.MetricsPosted(r.posts).AfterReport().AfterMetrics(post)
  {
    var next, n := r.Next(values, batch, post), |r.told|;
    assert next.posts[..n] == r.posts;
    forall i | 0 <= i < n ensures next.Turn(clients, i) {
      TurnKept(r, clients, i, values, batch, post);
    }
    assert next.Turn(clients, n);
  }

  /** The client loop has got to client i. */
  ghost predicate Posting(clients: seq<DatadogClient>, start: FlushRecord, r: FlushRecord, batch: Entries, i: nat,
                          books: Books)
  {
    && r == start.(told := r.told, handed := r.handed, posts := r.posts)
    && r.Valid(clients) && |r.posts| == i && batch == r.Previous(i) && books == r.books.MetricsPosted(r.posts)
  }

  lemma PostingNext(clients: seq<DatadogClient>, start: FlushRecord, r: FlushRecord, batch: Entries, i: nat,
                    books: Books, post: Post)
    returns (next: FlushRecord)
    requires i < |clients| && |r.handed| == i && Posting(clients, start, r, r.Previous(i), i, books)
    requires batch == PutAll(r.Previous(i), clients[i], OwnValues(books, start.received, start.alert), start.timestamp)
    requires post.size == |batch| && post.Valid() && clients[i].MetricsReport(batch, start.networks(i), post.unsent)
    ensures Posting(clients, start, next, batch, i + 1, books.AfterReport().AfterMetrics(post))
  {
    var values := OwnValues(books, start.received, start.alert);
    RecordNext(r, clients, values, batch, post);
    next := r.Next(values, batch, post);
  }

  /** Client i finds each value it is told as the single point under that metric's key. */
  lemma FlushReports(r: FlushRecord, clients: seq<DatadogClient>, i: nat, v: OwnValue)
    requires r.Valid(clients) && i < |r.handed|
    requires v in OwnValues(r.books.MetricsPosted(r.posts[..i]), r.received, r.alert)
    ensures EntryOf(r.handed[i], v.metric.Key(clients[i])) == Some(EntryFor(clients[i], v, r.timestamp))
    ensures PointsOf(r.handed[i], v.metric.Key(clients[i])) == [Point(r.timestamp, Finite(v.value as real))]
  {
    assert r.Turn(clients, i);
    OwnValuesDistinct(r.books.MetricsPosted(r.posts[..i]), r.received, r.alert);
    PutReports(r.Previous(i), clients[i], r.told[i], r.timestamp, v);
  }

  /** What the client is told under k, if anything. */
  ghost function ToldBy(client: DatadogClient, values: seq<OwnValue>, k: MetricKey): Option<OwnValue> {
    if ToldUnder(client, values, k) then Some(ValueUnder(client, values, k)) else None
  }

  /** What each of the first n clients is told under k. */
  ghost function ToldAt(r: FlushRecord, clients: seq<DatadogClient>, n: nat, k: MetricKey): seq<Option<OwnValue>>
    requires n <= |r.told| <= |clients|
  {
    seq(n, i requires 0 <= i < n => ToldBy(clients[i], r.told[i], k))
  }

  /** Under k the batch holds the value told last, or what it held before if none was. */
  ghost predicate HoldsAt(batch: Entries, before: Entries, k: MetricKey, told: Option<OwnValue>, timestamp: int) {
    match told
    case Some(v) => PointsOf(batch, k) == [Point(timestamp, Finite(v.value as real))]
    case None => AgreeAt(batch, before, k)
  }

  lemma TurnExactly(r: FlushRecord, clients: seq<DatadogClient>, i: nat, k: MetricKey)
    requires r.Valid(clients) && i < |r.handed|
    ensures !ToldUnder(clients[i], r.told[i], k) ==> AgreeAt(r.handed[i], r.Previous(i), k)
    ensures forall v :: v in r.told[i] && v.metric.Key(clients[i]) == k ==>
              PointsOf(r.handed[i], k) == [Point(r.timestamp, Finite(v.value as real))]
  {
    assert r.Turn(clients, i);
    if !ToldUnder(clients[i], r.told[i], k) {
      PutUntold(r.Previous(i), clients[i], r.told[i], r.timestamp, k);
    }
    forall v | v in r.told[i] && v.metric.Key(clients[i]) == k
      ensures PointsOf(r.handed[i], k) == [Point(r.timestamp, Finite(v.value as real))]
    {
      FlushReports(r, clients, i, v);
    }
  }

  /** Turns that each leave k alone or put the one value there. */
  ghost predicate TurnsHold(snapshot: Entries, handed: seq<Entries>, k: MetricKey, told: seq<Option<OwnValue>>,
                            timestamp: int)
  {
    |handed| == |told| && forall i :: 0 <= i < |handed| ==> TurnHoldsAt(snapshot, handed, k, told, timestamp, i)
  }

  ghost predicate TurnHoldsAt(snapshot: Entries, handed: seq<Entries>, k: MetricKey, told: seq<Option<OwnValue>>,
                              timestamp: int, i: nat)
    requires i < |handed| == |told|
  {
    HoldsAt(handed[i], Before(snapshot, handed, i), k, told[i], timestamp)
  }

  lemma HoldsNext(batch: Entries, previous: Entries, before: Entries, k: MetricKey, earlier: Option<OwnValue>,
                  last: Option<OwnValue>, timestamp: int)
    requires HoldsAt(previous, before, k, earlier, timestamp)
    requires HoldsAt(batch, previous, k, last, timestamp)
    ensures HoldsAt(batch, before, k, if last.Some? then last else earlier, timestamp)
  {
  }

  /** The last value stays. */
  lemma {:induction false} HoldsChain(snapshot: Entries, handed: seq<Entries>, k: MetricKey,
                                      told: seq<Option<OwnValue>>, timestamp: int, n: nat)
    requires TurnsHold(snapshot, handed, k, told, timestamp) && n <= |handed|
    ensures HoldsAt(Before(snapshot, handed, n), snapshot, k, LastOf(told[..n]), timestamp)
  {
    if n == 0 {
    } else {
      HoldsChain(snapshot, handed, k, told, timestamp, n - 1);
      assert TurnHoldsAt(snapshot, handed, k, told, timestamp, n - 1);
      LastOfNext(told[..n - 1], told[n - 1]);
      assert told[..n] == told[..n - 1] + [told[n - 1]];
      HoldsNext(handed[n - 1], Before(snapshot, handed, n - 1), snapshot, k, LastOf(told[..n - 1]), told[n - 1], timestamp);
    }
  }

  lemma TurnHolds(r: FlushRecord, clients: seq<DatadogClient>, i: nat, k: MetricKey)
    requires r.Valid(clients) && i < |r.handed|
    ensures HoldsAt(r.handed[i], Before(r.snapshot, r.handed, i), k, ToldBy(clients[i], r.told[i], k), r.timestamp)
  {
    TurnExactly(r, clients, i, k);
  }

  lemma FlushHolds(r: FlushRecord, clients: seq<DatadogClient>, k: MetricKey)
    requires r.Valid(clients)
    ensures TurnsHold(r.snapshot, r.handed, k, ToldAt(r, clients, |r.told|, k), r.timestamp)
  {
    var told := ToldAt(r, clients, |r.told|, k);
    forall i | 0 <= i < |r.handed| ensures TurnHoldsAt(r.snapshot, r.handed, k, told, r.timestamp, i) {
      TurnHolds(r, clients, i, k);
    }
  }

  lemma ToldPrefix(r: FlushRecord, clients: seq<DatadogClient>, n: nat, k: MetricKey)
    requires n <= |r.told| <= |clients|
    ensures ToldAt(r, clients, |r.told|, k)[..n] == ToldAt(r, clients, n, k)
  {
  }

  /** Every key reaches client i as it was aggregated or as the single value that a client up to i was last told. */
  lemma HandedExactly(r: FlushRecord, clients: seq<DatadogClient>, i: nat, k: MetricKey)
    requires r.Valid(clients) && i < |r.handed|
    ensures HoldsAt(r.handed[i], r.snapshot, k, LastOf(ToldAt(r, clients, i + 1, k)), r.timestamp)
  {
    var told := ToldAt(r, clients, |r.told|, k);
    FlushHolds(r, clients, k);
    HoldsChain(r.snapshot, r.handed, k, told, r.timestamp, i + 1);
    ToldPrefix(r, clients, i + 1, k);
  }

  /** One of the first n clients has k as the key of a metric that the books say is told. */
  ghost predicate Overwrites(books: Books, clients: seq<DatadogClient>, n: nat, k: MetricKey)
    requires n <= |clients|
  {
    exists j :: 0 <= j < n && Tells(books, clients[j], k)
  }

  /** The totals stay what they were before the flush, so every client is told the same metrics. */
  lemma TurnTells(r: FlushRecord, clients: seq<DatadogClient>, i: nat, k: MetricKey)
    requires r.Valid(clients) && i < |r.told|
    ensures ToldUnder(clients[i], r.told[i], k) <==> Tells(r.books, clients[i], k)
  {
    assert r.Turn(clients, i);
    var books := r.books.MetricsPosted(r.posts[..i]);
    MetricsLoopConserves(r.books, r.posts[..i]);
    assert forall metric :: IsTold(books, metric) <==> IsTold(r.books, metric);
    ToldExactly(books, r.received, r.alert, clients[i], k);
  }

  lemma AnyToldExactly(r: FlushRecord, clients: seq<DatadogClient>, n: nat, k: MetricKey)
    requires r.Valid(clients) && n <= |r.told|
    ensures LastOf(ToldAt(r, clients, n, k)).Some? <==> Overwrites(r.books, clients, n, k)
  {
    var told := ToldAt(r, clients, n, k);
    forall j | 0 <= j < n ensures told[j].Some? <==> Tells(r.books, clients[j], k) {
      TurnTells(r, clients, j, k);
    }
    LastOfSome(told);
  }

  /** Under k there is a single point, of this time. */
  ghost predicate JustOne(batch: Entries, k: MetricKey, timestamp: int) {
    |PointsOf(batch, k)| == 1 && PointsOf(batch, k)[0].timestamp == timestamp
  }

  /**
   * When the firehose's points under k are overwritten: exactly if this client or one before it has k as the key of
   * a gauge, or of a count whose total is positive before the flush. Then the client finds a single point of this
   * flush under k, and otherwise exactly what was aggregated.
   */
  lemma OverwrittenExactly(r: FlushRecord, clients: seq<DatadogClient>, i: nat, k: MetricKey)
    requires r.Valid(clients) && i < |r.handed|
    ensures if Overwrites(r.books, clients, i + 1, k) then JustOne(r.handed[i], k, r.timestamp)
            else AgreeAt(r.handed[i], r.snapshot, k)
  {
    HandedExactly(r, clients, i, k);
    AnyToldExactly(r, clients, i + 1, k);
  }

  lemma LostOrKept(batch: Entries, before: Entries, k: MetricKey, timestamp: int, overwritten: bool, p: Point)
    requires if overwritten then JustOne(batch, k, timestamp) else AgreeAt(batch, before, k)
    requires p in PointsOf(before, k) && p.timestamp != timestamp
    ensures p !in PointsOf(batch, k) <==> overwritten
  {
  }

  /** A point of another time that the firehose sent under k fails to reach client i exactly then. */
  lemma PointLostExactly(r: FlushRecord, clients: seq<DatadogClient>, i: nat, k: MetricKey, p: Point)
    requires r.Valid(clients) && i < |r.handed|
    requires p in PointsOf(r.snapshot, k) && p.timestamp != r.timestamp
    ensures p !in PointsOf(r.handed[i], k) <==> Overwrites(r.books, clients, i + 1, k)
  {
    OverwrittenExactly(r, clients, i, k);
    LostOrKept(r.handed[i], r.snapshot, k, r.timestamp, Overwrites(r.books, clients, i + 1, k), p);
  }

  /** The post of the whole log buffer to one client, which never reports more than it was given. */
  ghost predicate LogPost(client: DatadogClient, logs: seq<LogFormatter.LogMessage>, network: Network, post: Post) {
    post == Post(|logs|, client.LogsReport(logs, network)) && post.Valid()
  }

  /** One post per client. */
  ghost predicate LogPosts(clients: seq<DatadogClient>, logs: seq<LogFormatter.LogMessage>, networks: nat -> Network,
                           posts: seq<Post>)
  {
    |posts| == |clients| && forall i :: 0 <= i < |posts| ==> LogPost(clients[i], logs, networks(i), posts[i])
  }

  /** A finished flush of the given snapshot to all clients. */
  ghost predicate FlushOf(r: FlushRecord, clients: seq<DatadogClient>, snapshot: Entries, books: Books,
                          networks: nat -> Network)
  {
    && r.snapshot == snapshot && r.books == books && r.networks == networks
    && r.Valid(clients) && |r.posts| == |clients|
  }

  class Nozzle {
    const ddClients: seq<DatadogClient>
    const cfg: Pipeline.Config
    var metricsMap: MetricsMap
    var logsBuffer: seq<LogFormatter.LogMessage>
    var totalMessagesReceived: nat
    var slowConsumerAlert: nat
    var totalMetricsSent: nat
    var metricsSent: nat
    var metricsDropped: nat
    var totalLogsSent: nat
    var logsSent: nat
    var logsDropped: nat

    constructor (ddClients: seq<DatadogClient>, cfg: Pipeline.Config)
      ensures this.ddClients == ddClients && this.cfg == cfg
      ensures CurrentBooks() == NEW_BOOKS && totalMessagesReceived == 0 && slowConsumerAlert == 0
      ensures fresh(metricsMap) && metricsMap.entries == map[] && logsBuffer == []
    {
      this.ddClients := ddClients;
      this.cfg := cfg;
      metricsMap := new MetricsMap();
      logsBuffer := [];
      totalMessagesReceived, slowConsumerAlert := 0, 0;
      totalMetricsSent, metricsSent, metricsDropped := 0, 0, 0;
      totalLogsSent, logsSent, logsDropped := 0, 0, 0;
    }

    function CurrentBooks(): Books
      reads this
    {
      Books(totalMetricsSent, totalLogsSent, Amounts(metricsSent, metricsDropped, logsSent, logsDropped))
    }

    // -------------------------------------------------------------- the readers' locked sections

    /** What readProcessedMetrics does with a package, under the lock. */
    method FoldPackage(pkg: seq<MetricPackage>)
      modifies this`totalMessagesReceived, metricsMap
      ensures totalMessagesReceived == old(totalMessagesReceived) + 1
      ensures metricsMap.entries == AddedAll(old(metricsMap.entries), pkg)
    {
      totalMessagesReceived := totalMessagesReceived + 1;
      for i := 0 to |pkg|
        invariant metricsMap.entries == AddedAll(old(metricsMap.entries), pkg[..i])
        invariant totalMessagesReceived == old(totalMessagesReceived) + 1
      {
        assert pkg[..i + 1][..i] == pkg[..i];
        metricsMap.Add(pkg[i].key, pkg[i].value);
      }
      assert pkg[..|pkg|] == pkg;
    }

    method FoldLog(logMessage: LogFormatter.LogMessage)
      modifies this`totalMessagesReceived, this`logsBuffer
      ensures totalMessagesReceived == old(totalMessagesReceived) + 1
      ensures logsBuffer == old(logsBuffer) + [logMessage]
    {
      totalMessagesReceived := totalMessagesReceived + 1;
      logsBuffer := logsBuffer + [logMessage];
    }

    // -------------------------------------------------------------- flushing

    /** The locked section of postMetrics: copy the map entry by entry, then reset it. */
    method TakeMetrics() returns (snapshot: Entries, received: nat)
      modifies this`metricsMap
      ensures snapshot == old(metricsMap.entries) && received == totalMessagesReceived
      ensures fresh(metricsMap) && metricsMap.entries == map[]
    {
      snapshot := map[];
      var todo := metricsMap.entries.Keys;
      while todo != {}
        invariant metricsMap == old(metricsMap) && metricsMap.entries == old(metricsMap.entries)
        invariant todo <= metricsMap.entries.Keys
        invariant snapshot.Keys == metricsMap.entries.Keys - todo
        invariant forall k :: k in snapshot ==> snapshot[k] == metricsMap.entries[k]
        decreases todo
      {
        var k :| k in todo;
        snapshot := snapshot[k := metricsMap.entries[k]];
        todo := todo - {k};
      }
      received := totalMessagesReceived;
      metricsMap := new MetricsMap();
    }

    /** One turn of the client loop up to the post: add the nozzle's metrics and clear what they report. */
    method AddInternals(client: DatadogClient, batch: Entries, received: nat, timestamp: int) returns (r: Entries)
      modifies this`metricsSent, this`metricsDropped, this`logsSent, this`logsDropped
      ensures r == PutAll(batch, client, OwnValues(old(CurrentBooks()), received, slowConsumerAlert), timestamp)
      ensures CurrentBooks() == old(CurrentBooks()).AfterReport()
    {
      r := Tell(client, batch, CurrentBooks(), received, slowConsumerAlert, timestamp);
      ClearReported();
    }

    method ClearReported()
      modifies this`metricsSent, this`metricsDropped, this`logsSent, this`logsDropped
      ensures CurrentBooks() == old(CurrentBooks()).AfterReport()
    {
      if totalMetricsSent > 0 {
        metricsSent := 0;
        metricsDropped := 0;
      }
      if totalLogsSent > 0 {
        logsSent := 0;
        logsDropped := 0;
      }
    }

    /** One turn of the client loop. */
    method PostToClient(client: DatadogClient, batch: Entries, received: nat, timestamp: int, network: Network)
      returns (r: Entries, ghost post: Post)
      modifies this`metricsSent, this`metricsDropped, this`logsSent, this`logsDropped
      ensures r == PutAll(batch, client, OwnValues(old(CurrentBooks()), received, slowConsumerAlert), timestamp)
      ensures post.size == |r| && post.Valid() && client.MetricsReport(r, network, post.unsent)
      ensures CurrentBooks() == old(CurrentBooks()).AfterReport().AfterMetrics(post)
    {
      r := AddInternals(client, batch, received, timestamp);
      var unsentMetrics := client.PostMetrics(r, network);
      post := Post(|r|, unsentMetrics);
      CountMetrics(|r|, unsentMetrics);
    }

    method CountMetrics(size: nat, unsentMetrics: nat)
      requires unsentMetrics <= size
      modifies this`metricsSent, this`metricsDropped
      ensures CurrentBooks() == old(CurrentBooks()).AfterMetrics(Post(size, unsentMetrics))
    {
      metricsSent := metricsSent + Sub64(size, unsentMetrics);
      metricsDropped := metricsDropped + unsentMetrics;
    }

    /** One turn of the client loop, on the record. */
    method PostToNext(ghost start: FlushRecord, ghost r: FlushRecord, batch: Entries, i: nat, received: nat,
                      timestamp: int, network: Network)
      returns (next: Entries, ghost s: FlushRecord)
      requires i < |ddClients| && Posting(ddClients, start, r, batch, i, CurrentBooks())
      requires start.received == received && start.timestamp == timestamp && start.networks(i) == network
      requires start.alert == slowConsumerAlert
      modifies this`metricsSent, this`metricsDropped, this`logsSent, this`logsDropped
      ensures Posting(ddClients, start, s, next, i + 1, CurrentBooks())
    {
      ghost var before := CurrentBooks();
      ghost var post;
      next, post := PostToClient(ddClients[i], batch, received, timestamp, network);
      s := PostingNext(ddClients, start, r, next, i, before, post);
    }

    /**
     * The client loop of postMetrics. The uint64 subtraction never underflows, because a client reports at most the
     * batch size as unsent.
     */
    method PostToClients(snapshot: Entries, received: nat, timestamp: int, networks: nat -> Network)
      returns (ghost r: FlushRecord)
      modifies this`metricsSent, this`metricsDropped, this`logsSent, this`logsDropped
      ensures r.snapshot == snapshot && r.books == old(CurrentBooks())
      ensures r.received == received && r.alert == slowConsumerAlert
      ensures r.timestamp == timestamp && r.networks == networks
      ensures r.Valid(ddClients) && |r.posts| == |ddClients|
      ensures CurrentBooks() == r.books.MetricsPosted(r.posts)
    {
      var batch := snapshot;
      ghost var start := FlushRecord(snapshot, CurrentBooks(), received, slowConsumerAlert, timestamp, networks, [], [], []);
      r := start;
      for i := 0 to |ddClients|
        invariant Posting(ddClients, start, r, batch, i, CurrentBooks())
      {
        batch, r := PostToNext(start, r, batch, i, received, timestamp, networks(i));
      }
    }

    /** postMetrics: snapshot and reset, post to every client, add to the total, clear the alert. */
    method PostMetrics(timestamp: int, networks: nat -> Network) returns (ghost r: FlushRecord)
      modifies this`metricsMap, this`totalMetricsSent, this`metricsSent, this`metricsDropped,
               this`logsSent, this`logsDropped, this`slowConsumerAlert
      ensures fresh(metricsMap) && metricsMap.entries == map[]
      ensures FlushOf(r, ddClients, old(metricsMap.entries), old(CurrentBooks()), networks)
      ensures r.received == totalMessagesReceived && r.alert == old(slowConsumerAlert) && r.timestamp == timestamp
      ensures CurrentBooks() == r.books.MetricsFlushed(r.posts)
      ensures slowConsumerAlert == 0
    {
      var snapshot, received := TakeMetrics();
      r := PostToClients(snapshot, received, timestamp, networks);
      totalMetricsSent := totalMetricsSent + metricsSent;
      ResetSlowConsumerError();
    }

    method CountLogs(size: nat, unsentLogs: nat)
      requires unsentLogs <= size
      modifies this`logsSent, this`logsDropped
      ensures CurrentBooks() == old(CurrentBooks()).AfterLogs(Post(size, unsentLogs))
    {
      logsSent := logsSent + Sub64(size, unsentLogs);
      logsDropped := logsDropped + unsentLogs;
    }

    /** postLogs: take the buffer, post it to every client, add to the total, clear the alert. */
    method PostLogs(networks: nat -> Network) returns (ghost posts: seq<Post>)
      modifies this`logsBuffer, this`totalLogsSent, this`logsSent, this`logsDropped, this`slowConsumerAlert
      ensures logsBuffer == []
      ensures LogPosts(ddClients, old(logsBuffer), networks, posts)
      ensures CurrentBooks() == old(CurrentBooks()).LogsFlushed(posts)
      ensures slowConsumerAlert == 0
    {
      var logs := logsBuffer;
      logsBuffer := [];
      posts := [];
      ghost var books := CurrentBooks();
      for i := 0 to |ddClients|
        invariant |posts| == i && logsBuffer == []
        invariant forall j :: 0 <= j < i ==> LogPost(ddClients[j], logs, networks(j), posts[j])
        invariant CurrentBooks() == books.LogsPosted(posts)
      {
        var unsentLogs := ddClients[i].PostLogs(logs, networks(i));
        CountLogs(|logs|, unsentLogs);
        assert (posts + [Post(|logs|, unsentLogs)])[..i] == posts;
        posts := posts + [Post(|logs|, unsentLogs)];
      }
      totalLogsSent := totalLogsSent + logsSent;
      ResetSlowConsumerError();
    }

    /** One turn of the run loop on a tick. */
    method OnTick(timestamp: int, metricNetworks: nat -> Network, logNetworks: nat -> Network)
      returns (ghost flush: FlushRecord, ghost tick: Tick)
      modifies this`metricsMap, this`totalMetricsSent, this`metricsSent, this`metricsDropped, this`logsBuffer,
               this`totalLogsSent, this`logsSent, this`logsDropped, this`slowConsumerAlert
      ensures FlushOf(flush, ddClients, old(metricsMap.entries), old(CurrentBooks()), metricNetworks)
      ensures tick.metrics == flush.posts
      ensures LogPosts(ddClients, old(logsBuffer), logNetworks, tick.logs)
      ensures CurrentBooks() == AfterTick(old(CurrentBooks()), tick)
      ensures fresh(metricsMap) && metricsMap.entries == map[] && logsBuffer == []
    {
      flush := PostMetrics(timestamp, metricNetworks);
      assert logsBuffer == old(logsBuffer);
      ghost var logPosts := PostLogs(logNetworks);
      tick := Tick(flush.posts, logPosts);
    }

    /** The flush at shutdown: metrics, then logs when application logs are enabled. */
    method FinalFlush(timestamp: int, metricNetworks: nat -> Network, logNetworks: nat -> Network)
      returns (ghost flush: FlushRecord, ghost logPosts: seq<Post>)
      modifies this`metricsMap, this`totalMetricsSent, this`metricsSent, this`metricsDropped, this`logsBuffer,
               this`totalLogsSent, this`logsSent, this`logsDropped, this`slowConsumerAlert
      ensures FlushOf(flush, ddClients, old(metricsMap.entries), old(CurrentBooks()), metricNetworks)
      ensures LogPosts(ddClients, old(logsBuffer), logNetworks, logPosts) || !cfg.logsEnabled
      ensures var b := old(CurrentBooks()).MetricsFlushed(flush.posts);
              CurrentBooks() == if cfg.logsEnabled then b.LogsFlushed(logPosts) else b
      ensures fresh(metricsMap) && metricsMap.entries == map[]
      ensures logsBuffer == if cfg.logsEnabled then [] else old(logsBuffer)
    {
      flush := PostMetrics(timestamp, metricNetworks);
      logPosts := [];
      assert logsBuffer == old(logsBuffer);
      if cfg.logsEnabled {
        logPosts := PostLogs(logNetworks);
      }
    }

    // -------------------------------------------------------------- envelopes and shutdown

    method ResetSlowConsumerError()
      modifies this`slowConsumerAlert
      ensures slowConsumerAlert == 0
    {
      slowConsumerAlert := 0;
    }

    method AlertSlowConsumerError()
      modifies this`slowConsumerAlert
      ensures slowConsumerAlert == 1
    {
      slowConsumerAlert := 1;
    }

    /** Raises the alert on a drop reported by the upstream and never lowers it. */
    method HandleMessage(e: Envelope)
      modifies this`slowConsumerAlert
      ensures slowConsumerAlert ==
                if e.message.Counter? && e.message.name == "dropped" && e.message.delta > 0
                   && "origin" in e.tags && e.tags["origin"] == "loggregator.rlp"
                   && "direction" in e.tags && e.tags["direction"] == "egress"
                then 1 else old(slowConsumerAlert)
    {
      if e.message.Counter? {
        if e.message.name == "dropped" {
          if "origin" in e.tags && e.tags["origin"] == "loggregator.rlp"
             && "direction" in e.tags && e.tags["direction"] == "egress" && e.message.delta > 0
          {
            AlertSlowConsumerError();
          }
        }
      }
    }

    /** Sends stop tokens until all planned ones are taken or nobody answers one in time. */
    method StopWorkers(answers: nat -> bool) returns (sent: nat, timedOut: bool)
      ensures sent <= Pipeline.TokensPlanned(cfg) == cfg.numWorkers + 1 + (if cfg.logIntake then 1 else 0)
      ensures forall i: nat :: i < sent ==> answers(i)
      ensures timedOut <==> sent < Pipeline.TokensPlanned(cfg)
      ensures timedOut ==> !answers(sent)
    {
      timedOut := false;
      var numWorkers := cfg.numWorkers + 1;
      if cfg.logIntake {
        numWorkers := numWorkers + 1;
      }
      sent := 0;
      for i := 0 to numWorkers
        invariant !timedOut && sent == i
        invariant forall j: nat :: j < i ==> answers(j)
      {
        if answers(i) {
          sent := sent + 1;
        } else {
          timedOut := true;
        }
        if timedOut {
          break;
        }
      }
    }
  }
}
