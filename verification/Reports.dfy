/**
 * What a client reads in the batches it is handed, on the nozzle's own fields, and that over any flushes it adds up
 * (internal/nozzle/nozzle.go).
 */
module Reports {
  import opened Metrics
  import opened Util
  import opened Accounting
  import opened Client
  import opened Nozzle
  import opened Sequences
  import Text

  /** The hash in the keys of the client's own metrics. */
  function OwnHash(client: DatadogClient): string {
    HashOf(client.digest, ["deployment:" + client.deployment, "ip:" + client.ip] + client.customTags)
  }

  /** The client finds n under the name, as its only point, with its own tags and no host. */
  ghost predicate Reads(r: FlushRecord, client: DatadogClient, batch: Entries, name: string, metricType: string, n: nat) {
    var tags := ["deployment:" + client.deployment, "ip:" + client.ip] + client.customTags;
    var key := MetricKey(name, HashOf(client.digest, tags));
    key in batch
    && batch[key] == MetricValue(Text.Sort(tags), [Point(r.timestamp, Finite(n as real))], "", metricType)
  }

  lemma ReadsValue(r: FlushRecord, clients: seq<DatadogClient>, i: nat, v: OwnValue, name: string, metricType: string)
    requires r.Valid(clients) && i < |r.handed|
    requires v in OwnValues(r.books.MetricsPosted(r.posts[..i]), r.received, r.alert)
    requires name == v.metric.Name() && metricType == v.metric.Type()
    ensures Reads(r, clients[i], r.handed[i], name, metricType, v.value)
  {
    FlushReports(r, clients, i, v);
    clients[i].InternalExactly(name, metricType, v.value, r.timestamp);
    clients[i].InternalExactly(name, metricType, 0, 0);
  }

  lemma OwnGauges(b: Books, received: nat, alert: nat)
    ensures OwnValue(TotalMessagesReceived, received) in OwnValues(b, received, alert)
    ensures OwnValue(TotalMetricsSent, b.totalMetricsSent) in OwnValues(b, received, alert)
    ensures OwnValue(TotalLogsSent, b.totalLogsSent) in OwnValues(b, received, alert)
    ensures OwnValue(SlowConsumerAlert, alert) in OwnValues(b, received, alert)
  {
    var values := OwnValues(b, received, alert);
    assert values[0] in values && values[1] in values && values[2] in values && values[3] in values;
  }

  lemma OwnCounts(b: Books, received: nat, alert: nat)
    ensures b.totalMetricsSent > 0 ==>
              OwnValue(MetricsSent, b.pending.metricsSent) in OwnValues(b, received, alert)
              && OwnValue(MetricsDropped, b.pending.metricsDropped) in OwnValues(b, received, alert)
    ensures b.totalLogsSent > 0 ==>
              OwnValue(LogsSent, b.pending.logsSent) in OwnValues(b, received, alert)
              && OwnValue(LogsDropped, b.pending.logsDropped) in OwnValues(b, received, alert)
  {
    var values := OwnValues(b, received, alert);
    var n := |values|;
    if b.totalMetricsSent > 0 {
      assert values[4] in values && values[5] in values;
    }
    if b.totalLogsSent > 0 {
      assert values[n - 2] in values && values[n - 1] in values;
    }
  }

  /** The four gauges: always there, with the values at the start of the flush. */
  lemma GaugesExactly(r: FlushRecord, clients: seq<DatadogClient>, i: nat)
    requires r.Valid(clients) && i < |r.handed|
    ensures Reads(r, clients[i], r.handed[i], "totalMessagesReceived", "gauge", r.received)
    ensures Reads(r, clients[i], r.handed[i], "totalMetricsSent", "gauge", r.books.totalMetricsSent)
    ensures Reads(r, clients[i], r.handed[i], "totalLogsSent", "gauge", r.books.totalLogsSent)
    ensures Reads(r, clients[i], r.handed[i], "slowConsumerAlert", "gauge", r.alert)
  {
    var b := r.books.MetricsPosted(r.posts[..i]);
    MetricsLoopConserves(r.books, r.posts[..i]);
    OwnGauges(b, r.received, r.alert);
    ReadsValue(r, clients, i, OwnValue(TotalMessagesReceived, r.received), "totalMessagesReceived", "gauge");
    ReadsValue(r, clients, i, OwnValue(TotalMetricsSent, b.totalMetricsSent), "totalMetricsSent", "gauge");
    ReadsValue(r, clients, i, OwnValue(TotalLogsSent, b.totalLogsSent), "totalLogsSent", "gauge");
    ReadsValue(r, clients, i, OwnValue(SlowConsumerAlert, r.alert), "slowConsumerAlert", "gauge");
  }

  /** The counts of metrics, once any metric was sent: what is pending when the client's turn comes. */
  lemma MetricCountsExactly(r: FlushRecord, clients: seq<DatadogClient>, i: nat)
    requires r.Valid(clients) && i < |r.handed| && r.books.totalMetricsSent > 0
    ensures var pending := r.books.MetricsPosted(r.posts[..i]).pending;
            && Reads(r, clients[i], r.handed[i], "metrics.sent", "count", pending.metricsSent)
            && Reads(r, clients[i], r.handed[i], "metrics.dropped", "count", pending.metricsDropped)
  {
    var b := r.books.MetricsPosted(r.posts[..i]);
    MetricsLoopConserves(r.books, r.posts[..i]);
    OwnCounts(b, r.received, r.alert);
    ReadsValue(r, clients, i, OwnValue(MetricsSent, b.pending.metricsSent), "metrics.sent", "count");
    ReadsValue(r, clients, i, OwnValue(MetricsDropped, b.pending.metricsDropped), "metrics.dropped", "count");
  }

  /** The counts of logs, once any log was sent. */
  lemma LogCountsExactly(r: FlushRecord, clients: seq<DatadogClient>, i: nat)
    requires r.Valid(clients) && i < |r.handed| && r.books.totalLogsSent > 0
    ensures var pending := r.books.MetricsPosted(r.posts[..i]).pending;
            && Reads(r, clients[i], r.handed[i], "logs.sent", "count", pending.logsSent)
            && Reads(r, clients[i], r.handed[i], "logs.dropped", "count", pending.logsDropped)
  {
    var b := r.books.MetricsPosted(r.posts[..i]);
    MetricsLoopConserves(r.books, r.posts[..i]);
    OwnCounts(b, r.received, r.alert);
    ReadsValue(r, clients, i, OwnValue(LogsSent, b.pending.logsSent), "logs.sent", "count");
    ReadsValue(r, clients, i, OwnValue(LogsDropped, b.pending.logsDropped), "logs.dropped", "count");
  }

  // ---------------------------------------------------------------- conservation on the batches handed over

  /** The value a client reads under a name of its own in a batch. */
  ghost function ValueRead(client: DatadogClient, batch: Entries, name: string): real {
    var points := PointsOf(batch, MetricKey(name, OwnHash(client)));
    if |points| == 1 && points[0].value.Finite? then points[0].value.value else 0.0
  }

  datatype Totals = Totals(metricsSent: real, metricsDropped: real, logsSent: real, logsDropped: real) {
    function Plus(other: Totals): Totals {
      Totals(metricsSent + other.metricsSent, metricsDropped + other.metricsDropped,
             logsSent + other.logsSent, logsDropped + other.logsDropped)
    }
  }

  const NOTHING := Totals(0.0, 0.0, 0.0, 0.0)

  /** What one client reads of the four counts; a count is only read once its total is positive. */
  ghost function TurnRead(r: FlushRecord, client: DatadogClient, batch: Entries): Totals {
    Totals(if r.books.totalMetricsSent > 0 then ValueRead(client, batch, "metrics.sent") else 0.0,
           if r.books.totalMetricsSent > 0 then ValueRead(client, batch, "metrics.dropped") else 0.0,
           if r.books.totalLogsSent > 0 then ValueRead(client, batch, "logs.sent") else 0.0,
           if r.books.totalLogsSent > 0 then ValueRead(client, batch, "logs.dropped") else 0.0)
  }

  ghost function TurnsRead(r: FlushRecord, clients: seq<DatadogClient>): seq<Totals>
    requires |r.handed| <= |clients|
  {
    seq(|r.handed|, i requires 0 <= i < |r.handed| => TurnRead(r, clients[i], r.handed[i]))
  }

  function Sum(turns: seq<Totals>): Totals {
    if turns == [] then NOTHING else Sum(turns[..|turns| - 1]).Plus(turns[|turns| - 1])
  }

  /** A metrics flush, with all that was handed over in it, or a log flush. */
  datatype Event = MetricsFlush(record: FlushRecord) | LogsFlush(posts: seq<Post>)

  function FlushOfEvent(e: Event): Flush {
    match e
    case MetricsFlush(r) => Flush.Metrics(r.posts)
    case LogsFlush(posts) => Flush.Logs(posts)
  }

  function FlushesOf(events: seq<Event>): seq<Flush> {
    Map(FlushOfEvent, events)
  }

  /** Complete flushes to these clients, each starting from the books that the one before left. */
  ghost predicate History(clients: seq<DatadogClient>, start: Books, events: seq<Event>) {
    events != [] ==>
      var front, last := events[..|events| - 1], events[|events| - 1];
      && History(clients, start, front)
      && match last
         case MetricsFlush(r) =>
           r.Valid(clients) && |r.handed| == |clients| && r.books == AfterFlushes(start, FlushesOf(front))
         case LogsFlush(posts) => forall i :: 0 <= i < |posts| ==> posts[i].Valid()
  }

  ghost function ReadOver(clients: seq<DatadogClient>, events: seq<Event>): Totals {
    if events == [] then NOTHING
    else
      var front, last := events[..|events| - 1], events[|events| - 1];
      ReadOver(clients, front).Plus(
        if last.MetricsFlush? && |last.record.handed| == |clients| then Sum(TurnsRead(last.record, clients)) else NOTHING)
  }

  /** The items of the posts that their clients did not report as unsent. */
  function ItemsSent(posts: seq<Post>): int {
    if posts == [] then 0 else ItemsSent(posts[..|posts| - 1]) + posts[|posts| - 1].size - posts[|posts| - 1].unsent
  }

  function ItemsUnsent(posts: seq<Post>): nat {
    if posts == [] then 0 else ItemsUnsent(posts[..|posts| - 1]) + posts[|posts| - 1].unsent
  }

  function LastPosts(last: Event, logs: bool): seq<Post> {
    match last
    case MetricsFlush(r) => if logs then [] else r.posts
    case LogsFlush(posts) => if logs then posts else []
  }

  /** What all posts of metrics, or of logs, sent. */
  function SentIn(events: seq<Event>, logs: bool): int {
    if events == [] then 0 else SentIn(events[..|events| - 1], logs) + ItemsSent(LastPosts(events[|events| - 1], logs))
  }

  function UnsentIn(events: seq<Event>, logs: bool): int {
    if events == [] then 0 else UnsentIn(events[..|events| - 1], logs) + ItemsUnsent(LastPosts(events[|events| - 1], logs))
  }

  function Real(a: Amounts): Totals {
    Totals(a.metricsSent as real, a.metricsDropped as real, a.logsSent as real, a.logsDropped as real)
  }

  lemma RealPlus(a: Amounts, b: Amounts)
    ensures Real(a.Plus(b)) == Real(a).Plus(Real(b))
  {
  }

  lemma ReadsIs(r: FlushRecord, client: DatadogClient, batch: Entries, name: string, metricType: string, n: nat)
    requires Reads(r, client, batch, name, metricType, n)
    ensures ValueRead(client, batch, name) == n as real
  {
  }

  lemma TurnReads(r: FlushRecord, clients: seq<DatadogClient>, i: nat)
    requires r.Valid(clients) && i < |r.handed|
    ensures TurnRead(r, clients[i], r.handed[i]) == Real(r.books.MetricsPosted(r.posts[..i]).Due())
  {
    var b := r.books.MetricsPosted(r.posts[..i]);
    MetricsLoopConserves(r.books, r.posts[..i]);
    if r.books.totalMetricsSent > 0 {
      MetricCountsExactly(r, clients, i);
      ReadsIs(r, clients[i], r.handed[i], "metrics.sent", "count", b.pending.metricsSent);
      ReadsIs(r, clients[i], r.handed[i], "metrics.dropped", "count", b.pending.metricsDropped);
    }
    if r.books.totalLogsSent > 0 {
      LogCountsExactly(r, clients, i);
      ReadsIs(r, clients[i], r.handed[i], "logs.sent", "count", b.pending.logsSent);
      ReadsIs(r, clients[i], r.handed[i], "logs.dropped", "count", b.pending.logsDropped);
    }
  }

  /** What the flush had reported after n turns, by the books. */
  ghost function ReportedAfter(r: FlushRecord, n: nat): Amounts
    requires n <= |r.posts|
  {
    r.books.Reported(r.posts[..n])
  }

  ghost function DueAfter(r: FlushRecord, n: nat): Amounts
    requires n <= |r.posts|
  {
    r.books.MetricsPosted(r.posts[..n]).Due()
  }

  lemma ReportedNext(r: FlushRecord, n: nat)
    requires n < |r.posts|
    ensures ReportedAfter(r, n + 1) == ReportedAfter(r, n).Plus(DueAfter(r, n))
  {
    assert r.posts[..n + 1][..n] == r.posts[..n];
  }

  lemma {:induction false} SumIsReported(r: FlushRecord, turns: seq<Totals>)
    requires |turns| <= |r.posts| && forall i :: 0 <= i < |turns| ==> turns[i] == Real(DueAfter(r, i))
    ensures Sum(turns) == Real(ReportedAfter(r, |turns|))
  {
    if turns == [] {
    } else {
      var n := |turns| - 1;
      SumIsReported(r, turns[..n]);
      ReportedNext(r, n);
      RealPlus(ReportedAfter(r, n), DueAfter(r, n));
    }
  }

  lemma FlushReads(r: FlushRecord, clients: seq<DatadogClient>)
    requires r.Valid(clients)
    ensures Sum(TurnsRead(r, clients)) == Real(ReportedAfter(r, |r.posts|))
  {
    var turns := TurnsRead(r, clients);
    forall i | 0 <= i < |turns| ensures turns[i] == Real(DueAfter(r, i)) {
      TurnReads(r, clients, i);
    }
    SumIsReported(r, turns);
  }

  lemma FlushesNext(events: seq<Event>)
    requires events != []
    ensures var front, last := events[..|events| - 1], events[|events| - 1];
            FlushesOf(events) == FlushesOf(front) + [FlushOfEvent(last)]
            && FlushesOf(events)[..|FlushesOf(events)| - 1] == FlushesOf(front)
  {
    MapLast(FlushOfEvent, events);
  }

  lemma LastRead(clients: seq<DatadogClient>, start: Books, front: seq<Event>, last: Event)
    requires History(clients, start, front + [last])
    ensures ReadOver(clients, front + [last])
         == ReadOver(clients, front).Plus(Real(ReportedBy(AfterFlushes(start, FlushesOf(front)), FlushOfEvent(last))))
  {
    assert (front + [last])[..|front|] == front;
    match last
    case MetricsFlush(r) =>
      FlushReads(r, clients);
      assert r.posts[..|clients|] == r.posts;
    case LogsFlush(_) =>
  }

  lemma {:induction false} ReadIsReported(clients: seq<DatadogClient>, start: Books, events: seq<Event>)
    requires History(clients, start, events)
    ensures ReadOver(clients, events) == Real(ReportedOver(start, FlushesOf(events)))
  {
    if events == [] {
    } else {
      var front, last := events[..|events| - 1], events[|events| - 1];
      assert events == front + [last];
      ReadIsReported(clients, start, front);
      FlushesNext(events);
      LastRead(clients, start, front, last);
      RealPlus(ReportedOver(start, FlushesOf(front)),
               ReportedBy(AfterFlushes(start, FlushesOf(front)), FlushOfEvent(last)));
    }
  }

  lemma {:induction false} SentSpelled(posts: seq<Post>)
    requires forall i :: 0 <= i < |posts| ==> posts[i].Valid()
    ensures SentBy(posts) == ItemsSent(posts) && UnsentBy(posts) == ItemsUnsent(posts)
  {
    if posts == [] {
    } else {
      SentSpelled(posts[..|posts| - 1]);
    }
  }

  ghost predicate Spells(a: Amounts, metricsSent: int, metricsDropped: int, logsSent: int, logsDropped: int) {
    && a.metricsSent == metricsSent && a.metricsDropped == metricsDropped
    && a.logsSent == logsSent && a.logsDropped == logsDropped
  }

  lemma SpellsSum(a: Amounts, b: Amounts, m: int, n: int, k: int, l: int, w: int, x: int, y: int, z: int)
    requires Spells(a, m, n, k, l) && Spells(b, w, x, y, z)
    ensures Spells(a.Plus(b), m + w, n + x, k + y, l + z)
  {
  }

  lemma LastPosted(clients: seq<DatadogClient>, start: Books, events: seq<Event>)
    requires events != [] && History(clients, start, events)
    ensures var last := events[|events| - 1];
            Spells(PostedAmounts(FlushOfEvent(last)), ItemsSent(LastPosts(last, false)), ItemsUnsent(LastPosts(last, false)),
                   ItemsSent(LastPosts(last, true)), ItemsUnsent(LastPosts(last, true)))
  {
    match events[|events| - 1]
    case MetricsFlush(r) =>
      forall i | 0 <= i < |r.posts| ensures r.posts[i].Valid() {
        assert r.Turn(clients, i);
      }
      SentSpelled(r.posts);
    case LogsFlush(posts) => SentSpelled(posts);
  }

  lemma {:induction false} PostedSpelled(clients: seq<DatadogClient>, start: Books, events: seq<Event>)
    requires History(clients, start, events)
    ensures Spells(PostedOver(FlushesOf(events)), SentIn(events, false), UnsentIn(events, false),
                   SentIn(events, true), UnsentIn(events, true))
  {
    if events == [] {
    } else {
      var front, last := events[..|events| - 1], events[|events| - 1];
      var metrics, logs := LastPosts(last, false), LastPosts(last, true);
      PostedSpelled(clients, start, front);
      FlushesNext(events);
      LastPosted(clients, start, events);
      SpellsSum(PostedOver(FlushesOf(front)), PostedAmounts(FlushOfEvent(last)),
                SentIn(front, false), UnsentIn(front, false), SentIn(front, true), UnsentIn(front, true),
                ItemsSent(metrics), ItemsUnsent(metrics), ItemsSent(logs), ItemsUnsent(logs));
    }
  }

  /**
   * Main result on the reports: over any flushes, whatever the clients report as unsent, what the clients read under
   * their own four counts plus what is pending in the end is what was pending at first plus what was posted.
   */
  lemma ReadsConserved(clients: seq<DatadogClient>, start: Books, events: seq<Event>)
    requires History(clients, start, events)
    ensures var read, end := ReadOver(clients, events), AfterFlushes(start, FlushesOf(events)).pending;
            var pending := start.pending;
            && read.metricsSent + end.metricsSent as real == (pending.metricsSent + SentIn(events, false)) as real
            && read.metricsDropped + end.metricsDropped as real == (pending.metricsDropped + UnsentIn(events, false)) as real
            && read.logsSent + end.logsSent as real == (pending.logsSent + SentIn(events, true)) as real
            && read.logsDropped + end.logsDropped as real == (pending.logsDropped + UnsentIn(events, true)) as real
  {
    ReadIsReported(clients, start, events);
    ReportsConserved(start, FlushesOf(events));
    PostedSpelled(clients, start, events);
  }
}
