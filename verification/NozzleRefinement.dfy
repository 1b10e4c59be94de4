/** The nozzle's methods as steps and paths of the state machine (internal/nozzle/nozzle.go and workers.go). */
module NozzleRefinement {
  import opened Metrics
  import opened Accounting
  import opened Client
  import opened Nozzle
  import opened PipelinePaths
  import Pipeline
  import PipelineRuns
  import LogFormatter

  // ---------------------------------------------------------------- what a client is told, as a map

  ghost function KeysOf(client: DatadogClient, kind: Kind): set<MetricKey> {
    set metric: OwnMetric | metric.Kind() == kind :: metric.Key(client)
  }

  ghost predicate KnowsClient(cfg: Pipeline.Config, i: nat, client: DatadogClient) {
    && cfg.gaugeKeys(i) == KeysOf(client, OwnGauge)
    && cfg.metricCountKeys(i) == KeysOf(client, MetricCount)
    && cfg.logCountKeys(i) == KeysOf(client, LogCount)
  }

  /** The machine is configured with these clients and their keys. */
  ghost predicate KnowsKeys(cfg: Pipeline.Config, clients: seq<DatadogClient>) {
    cfg.clients == |clients| && forall i :: 0 <= i < |clients| ==> KnowsClient(cfg, i, clients[i])
  }

  /** While nothing is counted as sent nothing is due, and what is counted was handed to every client. */
  ghost predicate Couples(books: Books, m: Pipeline.Main) {
    && Settled(books)
    && (books.totalMetricsSent > 0 ==> forall i :: 0 <= i < |m.overlays| ==> m.overlays[i] != [])
    && (books.totalLogsSent > 0 ==> forall i :: 0 <= i < |m.logDeliveries| ==> Pipeline.SomeLog(m.logDeliveries[i]))
  }

  lemma {:induction false} PutAllAdds(m: Entries, client: DatadogClient, values: seq<OwnValue>, timestamp: int)
    ensures PutAll(m, client, values, timestamp) == m + PutAll(map[], client, values, timestamp)
  {
    if values == [] {
    } else {
      var front, last := values[..|values| - 1], values[|values| - 1];
      PutAllAdds(m, client, front, timestamp);
      PutOnSum(m, PutAll(map[], client, front, timestamp), client, last, timestamp);
    }
  }

  lemma PutOnSum(m: Entries, n: Entries, client: DatadogClient, v: OwnValue, timestamp: int)
    ensures Put(m + n, client, v, timestamp) == m + Put(n, client, v, timestamp)
  {
  }

  lemma ToldUnderNext(client: DatadogClient, values: seq<OwnValue>, v: OwnValue, k: MetricKey)
    ensures ToldUnder(client, values + [v], k) <==> ToldUnder(client, values, k) || v.metric.Key(client) == k
  {
    if ToldUnder(client, values, k) {
      var u :| u in values && u.metric.Key(client) == k;
      assert u in values + [v];
    }
    assert v in values + [v];
  }

  lemma {:induction false} PutAllKeys(client: DatadogClient, values: seq<OwnValue>, timestamp: int, k: MetricKey)
    ensures k in PutAll(map[], client, values, timestamp) <==> ToldUnder(client, values, k)
  {
    if values == [] {
    } else {
      var front, last := values[..|values| - 1], values[|values| - 1];
      assert values == front + [last];
      PutAllKeys(client, front, timestamp, k);
      ToldUnderNext(client, front, last, k);
    }
  }

  ghost function Internals(r: FlushRecord, clients: seq<DatadogClient>): seq<Entries>
    requires |r.told| <= |clients|
  {
    seq(|r.told|, i requires 0 <= i < |r.told| => PutAll(map[], clients[i], r.told[i], r.timestamp))
  }

  lemma InternalKeys(r: FlushRecord, clients: seq<DatadogClient>, i: nat, k: MetricKey)
    requires r.Valid(clients) && i < |r.told|
    ensures k in Internals(r, clients)[i] <==> Tells(r.books, clients[i], k)
  {
    PutAllKeys(clients[i], r.told[i], r.timestamp, k);
    TurnTells(r, clients, i, k);
  }

  /** A client is told something under the keys of those kinds that the books say are told. */
  lemma TellsOwnKeys(books: Books, client: DatadogClient, k: MetricKey)
    ensures Tells(books, client, k) <==> exists kind :: KindTold(books, kind) && k in KeysOf(client, kind)
  {
    if kind :| KindTold(books, kind) && k in KeysOf(client, kind) {
      var metric: OwnMetric :| metric.Kind() == kind && metric.Key(client) == k;
      assert IsTold(books, metric);
    }
    if Tells(books, client, k) {
      var metric :| IsTold(books, metric) && metric.Key(client) == k;
      assert k in KeysOf(client, metric.Kind());
    }
  }

  lemma TurnMayTell(r: FlushRecord, clients: seq<DatadogClient>, i: nat, cfg: Pipeline.Config, m: Pipeline.Main)
    requires r.Valid(clients) && i < |r.told| && KnowsKeys(cfg, clients) && Sized(cfg, m) && Couples(r.books, m)
    ensures Pipeline.MayTell(cfg, i, m.overlays[i], m.logDeliveries[i], Internals(r, clients)[i])
  {
    assert KnowsClient(cfg, i, clients[i]);
    forall k ensures k in Internals(r, clients)[i] <==> Tells(r.books, clients[i], k) {
      InternalKeys(r, clients, i, k);
    }
    forall k
      ensures Tells(r.books, clients[i], k) <==> exists kind :: KindTold(r.books, kind) && k in KeysOf(clients[i], kind)
    {
      TellsOwnKeys(r.books, clients[i], k);
    }
  }

  /** What each client is told is what the machine lets it be told. */
  lemma FlushTellable(r: FlushRecord, clients: seq<DatadogClient>, cfg: Pipeline.Config, m: Pipeline.Main)
    requires r.Valid(clients) && |r.told| == |clients| && KnowsKeys(cfg, clients)
    requires Sized(cfg, m) && Couples(r.books, m)
    ensures Tellable(cfg, m, Internals(r, clients))
  {
    forall i | 0 <= i < |r.told|
      ensures Pipeline.MayTell(cfg, i, m.overlays[i], m.logDeliveries[i], Internals(r, clients)[i])
    {
      TurnMayTell(r, clients, i, cfg, m);
    }
  }

  lemma HandedAdds(r: FlushRecord, clients: seq<DatadogClient>, i: nat)
    requires r.Valid(clients) && i < |r.handed|
    ensures r.handed[i] == r.Previous(i) + Internals(r, clients)[i]
  {
    assert r.Turn(clients, i);
    PutAllAdds(r.Previous(i), clients[i], r.told[i], r.timestamp);
  }

  lemma MergedNext(snapshot: Entries, internals: seq<Entries>, n: nat, before: Entries)
    requires n < |internals| && before == snapshot + Merged(internals, n)
    ensures before + internals[n] == snapshot + Merged(internals, n + 1)
  {
    PipelineRuns.SumOfThree(snapshot, Merged(internals, n), internals[n]);
  }

  /** Each batch is the one before it, or the snapshot, plus what its client is told. */
  ghost predicate Chained(snapshot: Entries, handed: seq<Entries>, internals: seq<Entries>) {
    |handed| == |internals| && forall i :: 0 <= i < |handed| ==> ChainedAt(snapshot, handed, internals, i)
  }

  ghost predicate ChainedAt(snapshot: Entries, handed: seq<Entries>, internals: seq<Entries>, i: nat)
    requires i < |handed| == |internals|
  {
    handed[i] == Before(snapshot, handed, i) + internals[i]
  }

  lemma {:induction false} ChainMerged(snapshot: Entries, handed: seq<Entries>, internals: seq<Entries>, n: nat)
    requires Chained(snapshot, handed, internals) && n <= |handed|
    ensures Before(snapshot, handed, n) == snapshot + Merged(internals, n)
  {
    if n == 0 {
    } else {
      ChainMerged(snapshot, handed, internals, n - 1);
      assert ChainedAt(snapshot, handed, internals, n - 1);
      MergedNext(snapshot, internals, n - 1, Before(snapshot, handed, n - 1));
    }
  }

  lemma FlushChained(r: FlushRecord, clients: seq<DatadogClient>)
    requires r.Valid(clients)
    ensures Chained(r.snapshot, r.handed, Internals(r, clients))
  {
    var internals := Internals(r, clients);
    forall i | 0 <= i < |r.handed| ensures ChainedAt(r.snapshot, r.handed, internals, i) {
      HandedAdds(r, clients, i);
    }
  }

  lemma ChainBatches(snapshot: Entries, handed: seq<Entries>, internals: seq<Entries>)
    requires Chained(snapshot, handed, internals)
    ensures Batches(snapshot, internals) == handed
  {
    forall i | 0 <= i < |handed| ensures Batches(snapshot, internals)[i] == handed[i] {
      ChainMerged(snapshot, handed, internals, i + 1);
    }
  }

  /** Each client is handed the snapshot with everything written over it that it and the clients before it are told. */
  lemma BatchesHanded(r: FlushRecord, clients: seq<DatadogClient>)
    requires r.Valid(clients)
    ensures r.handed == Batches(r.snapshot, Internals(r, clients))
  {
    FlushChained(r, clients);
    ChainBatches(r.snapshot, r.handed, Internals(r, clients));
  }

  lemma {:induction false} MergedKeys(internals: seq<Entries>, n: nat, k: MetricKey)
    requires n <= |internals|
    ensures k in Merged(internals, n) <==> exists j :: 0 <= j < n && k in internals[j]
  {
    if n == 0 {
    } else {
      MergedKeys(internals, n - 1, k);
    }
  }

  /** The keys that the machine's overlay covers are those that are overwritten. */
  lemma OverlayExactly(r: FlushRecord, clients: seq<DatadogClient>, n: nat, k: MetricKey)
    requires r.Valid(clients) && n <= |r.told|
    ensures k in Merged(Internals(r, clients), n) <==> Overwrites(r.books, clients, n, k)
  {
    forall j | 0 <= j < n ensures k in Internals(r, clients)[j] <==> Tells(r.books, clients[j], k) {
      InternalKeys(r, clients, j, k);
    }
    MergedKeys(Internals(r, clients), n, k);
  }

  // ---------------------------------------------------------------- one turn of the client loop

  /** What the machine does when it hands a batch to client i. */
  lemma PostStep(cfg: Pipeline.Config, st: Pipeline.Store, m: Pipeline.Main, internals: Entries, batch: Entries,
                 overlay: Entries, i: nat, final: bool)
    requires m.phase == Pipeline.PostingMetrics(batch, overlay, i, final)
    requires i < |m.metricDeliveries| == |m.overlays| == |m.logDeliveries|
    requires Pipeline.MayTell(cfg, i, m.overlays[i], m.logDeliveries[i], internals)
    ensures Pipeline.MainEnabled(cfg, m, Pipeline.Step.PostMetrics(internals))
    ensures Pipeline.MainDo(cfg, st, m, Pipeline.Step.PostMetrics(internals))
         == Posted(m, batch + internals, overlay + internals, i, final)
  {
  }

  /** Client i has been handed the batch, with that overlay in it. */
  ghost function Posted(m: Pipeline.Main, batch: Entries, overlay: Entries, i: nat, final: bool): Pipeline.Main
    requires i < |m.metricDeliveries| == |m.overlays|
  {
    m.(phase := Pipeline.PostingMetrics(batch, overlay, i + 1, final),
       metricDeliveries := m.metricDeliveries[i := m.metricDeliveries[i] + [batch]],
       overlays := m.overlays[i := m.overlays[i] + [overlay]])
  }

  /** Client i's turn is its PostMetrics step, which hands client i the very batch that the loop posted. */
  lemma TurnIsPipelineStep(r: FlushRecord, clients: seq<DatadogClient>, i: nat, cfg: Pipeline.Config, st: Pipeline.Store,
                           m: Pipeline.Main, final: bool)
    requires r.Valid(clients) && i < |r.handed| && KnowsKeys(cfg, clients) && Sized(cfg, m) && Couples(r.books, m)
    requires m.phase == Pipeline.PostingMetrics(r.Previous(i), Merged(Internals(r, clients), i), i, final)
    ensures var internals := Internals(r, clients);
            var step := Pipeline.Step.PostMetrics(internals[i]);
            Pipeline.MainEnabled(cfg, m, step)
            && Pipeline.MainDo(cfg, st, m, step) == Posted(m, r.handed[i], Merged(internals, i + 1), i, final)
  {
    var internals := Internals(r, clients);
    TurnMayTell(r, clients, i, cfg, m);
    HandedAdds(r, clients, i);
    PostStep(cfg, st, m, internals[i], r.Previous(i), Merged(internals, i), i, final);
  }

  // ---------------------------------------------------------------- whole flushes

  /** A finished flush of what the machine holds. */
  ghost predicate FlushFrom(r: FlushRecord, clients: seq<DatadogClient>, s: Pipeline.State) {
    r.Valid(clients) && |r.handed| == |clients| && r.snapshot == s.store.metricsMap && Couples(r.books, s.main)
  }

  /** The totals after a metrics flush that reached every client. */
  lemma MetricsCouple(b: Books, posts: seq<Post>, m: Pipeline.Main, n: Pipeline.Main, overlays: seq<Entries>)
    requires Couples(b, m) && GainedAll(m.overlays, overlays, n.overlays) && n.logDeliveries == m.logDeliveries
    ensures Couples(b.MetricsFlushed(posts), n)
  {
    MetricsLoopConserves(b, posts);
  }

  lemma {:induction false} NothingSent(posts: seq<Post>)
    requires forall i :: 0 <= i < |posts| ==> posts[i].size == 0 && posts[i].Valid()
    ensures SentBy(posts) == 0
  {
    if posts == [] {
    } else {
      NothingSent(posts[..|posts| - 1]);
    }
  }

  lemma LogGained(before: seq<seq<LogFormatter.LogMessage>>, logs: seq<LogFormatter.LogMessage>)
    ensures logs != [] || Pipeline.SomeLog(before) ==> Pipeline.SomeLog(before + [logs])
  {
    var after := before + [logs];
    assert after[|before|] == logs;
    assert forall i :: 0 <= i < |before| ==> after[i] == before[i];
  }

  /** And after a log flush. */
  lemma LogsCouple(b: Books, clients: seq<DatadogClient>, logs: seq<LogFormatter.LogMessage>, networks: nat -> Network,
                   posts: seq<Post>, m: Pipeline.Main, n: Pipeline.Main)
    requires Couples(b, m) && LogPosts(clients, logs, networks, posts) && n.overlays == m.overlays
    requires GainedAll(m.logDeliveries, seq(|clients|, _ => logs), n.logDeliveries)
    ensures Couples(b.LogsFlushed(posts), n)
  {
    LogsLoop(b, posts);
    if logs == [] {
      forall i | 0 <= i < |posts| ensures posts[i].size == 0 && posts[i].Valid() {
        assert LogPost(clients[i], logs, networks(i), posts[i]);
      }
      NothingSent(posts);
    }
    forall i | 0 <= i < |n.logDeliveries|
      ensures logs != [] || Pipeline.SomeLog(m.logDeliveries[i]) ==> Pipeline.SomeLog(n.logDeliveries[i])
    {
      LogGained(m.logDeliveries[i], logs);
    }
  }

  /** A tick is a path of the machine that hands each client the batch that the loop posted, and all logs. */
  lemma TickIsPipelinePath(r: FlushRecord, clients: seq<DatadogClient>, cfg: Pipeline.Config, s: Pipeline.State)
    requires KnowsKeys(cfg, clients) && Sized(cfg, s.main) && s.main.phase.Running? && FlushFrom(r, clients, s)
    ensures var t := Ticked(cfg, s, Internals(r, clients));
            && Reaches(cfg, s, t)
            && t.flow == s.flow && t.main.phase.Running? && Sized(cfg, t.main)
            && t.store.metricsMap == map[] && t.store.logsBuffer == [] && t.store.received == s.store.received
            && GainedAll(s.main.metricDeliveries, r.handed, t.main.metricDeliveries)
            && GainedAll(s.main.logDeliveries, LogItems(cfg, s), t.main.logDeliveries)
  {
    var internals := Internals(r, clients);
    FlushTellable(r, clients, cfg, s.main);
    TickPath(cfg, s, internals);
    BatchesHanded(r, clients);
    FlushedMain(cfg, s, internals);
    LogsFlushedMain(cfg, MetricsFlushed(cfg, s, internals));
  }

  /** The same of the flush at shutdown. */
  lemma FinalFlushIsPipelinePath(r: FlushRecord, clients: seq<DatadogClient>, cfg: Pipeline.Config, s: Pipeline.State)
    requires KnowsKeys(cfg, clients) && Sized(cfg, s.main) && s.main.phase.Halted? && FlushFrom(r, clients, s)
    ensures var t := Finished(cfg, s, Internals(r, clients));
            && Reaches(cfg, s, t)
            && t.flow == s.flow && t.main.phase.Done? && Sized(cfg, t.main)
            && t.store.metricsMap == map[] && t.store.received == s.store.received
            && t.store.logsBuffer == (if cfg.logsEnabled then [] else s.store.logsBuffer)
            && GainedAll(s.main.metricDeliveries, r.handed, t.main.metricDeliveries)
            && if cfg.logsEnabled then GainedAll(s.main.logDeliveries, LogItems(cfg, s), t.main.logDeliveries)
               else t.main.logDeliveries == s.main.logDeliveries
  {
    var internals := Internals(r, clients);
    FlushTellable(r, clients, cfg, s.main);
    FinalPath(cfg, s, internals);
    BatchesHanded(r, clients);
    FinishedMain(cfg, s, internals);
  }

  // ---------------------------------------------------------------- the object simulates the machine

  /** The object holds what the machine's store holds, and the machine knows its clients. */
  ghost predicate Shows(n: Nozzle, s: Pipeline.State)
    reads n, n.metricsMap
  {
    && KnowsKeys(n.cfg, n.ddClients) && Sized(n.cfg, s.main)
    && s.store.metricsMap == n.metricsMap.entries
    && s.store.logsBuffer == n.logsBuffer
    && s.store.received == n.totalMessagesReceived
    && Couples(n.CurrentBooks(), s.main)
  }

  method NewNozzle(ddClients: seq<DatadogClient>, cfg: Pipeline.Config) returns (n: Nozzle)
    requires KnowsKeys(cfg, ddClients)
    ensures fresh(n) && n.cfg == cfg && n.ddClients == ddClients && Shows(n, Pipeline.Init(cfg))
  {
    n := new Nozzle(ddClients, cfg);
  }

  /** The reader's locked section is the FoldMetrics step. */
  method FoldsPackage(n: Nozzle, pkg: seq<MetricPackage>, ghost s: Pipeline.State)
    requires Shows(n, s) && s.flow.reader == Pipeline.Folding(Pipeline.Package(pkg))
    modifies n`totalMessagesReceived, n.metricsMap
    ensures Pipeline.Enabled(n.cfg, s, Pipeline.FoldMetrics)
    ensures Shows(n, Pipeline.Do(n.cfg, s, Pipeline.FoldMetrics))
  {
    n.FoldPackage(pkg);
  }

  /** The log reader's is the FoldLog step. */
  method FoldsLog(n: Nozzle, msg: LogFormatter.LogMessage, ghost s: Pipeline.State)
    requires Shows(n, s) && s.flow.logReader == Pipeline.Folding(msg)
    modifies n`totalMessagesReceived, n`logsBuffer
    ensures Pipeline.Enabled(n.cfg, s, Pipeline.FoldLog)
    ensures Shows(n, Pipeline.Do(n.cfg, s, Pipeline.FoldLog))
  {
    n.FoldLog(msg);
  }

  lemma TickCouples(r: FlushRecord, clients: seq<DatadogClient>, cfg: Pipeline.Config, s: Pipeline.State,
                    networks: nat -> Network, tick: Tick)
    requires KnowsKeys(cfg, clients) && Sized(cfg, s.main) && s.main.phase.Running? && FlushFrom(r, clients, s)
    requires tick.metrics == r.posts && LogPosts(clients, s.store.logsBuffer, networks, tick.logs)
    ensures Couples(AfterTick(r.books, tick), Ticked(cfg, s, Internals(r, clients)).main)
  {
    var internals := Internals(r, clients);
    var t := MetricsFlushed(cfg, s, internals);
    FlushedMain(cfg, s, internals);
    LogsFlushedMain(cfg, t);
    MetricsCouple(r.books, r.posts, s.main, t.main, Overlays(internals));
    LogsCouple(r.books.MetricsFlushed(r.posts), clients, s.store.logsBuffer, networks, tick.logs, t.main,
               Ticked(cfg, s, internals).main);
  }

  /** A tick ends where a path of the machine ends that hands over the same batches. */
  method Ticks(n: Nozzle, timestamp: int, metricNetworks: nat -> Network, logNetworks: nat -> Network,
               ghost s: Pipeline.State)
    returns (ghost t: Pipeline.State, ghost flush: FlushRecord, ghost tick: Tick)
    requires Shows(n, s) && s.main.phase.Running?
    modifies n`metricsMap, n`totalMetricsSent, n`metricsSent, n`metricsDropped, n`logsBuffer,
             n`totalLogsSent, n`logsSent, n`logsDropped, n`slowConsumerAlert
    ensures Reaches(n.cfg, s, t) && Shows(n, t) && t.flow == s.flow && t.main.phase.Running?
    ensures GainedAll(s.main.metricDeliveries, flush.handed, t.main.metricDeliveries)
    ensures GainedAll(s.main.logDeliveries, seq(n.cfg.clients, _ => old(n.logsBuffer)), t.main.logDeliveries)
  {
    flush, tick := n.OnTick(timestamp, metricNetworks, logNetworks);
    t := Ticked(n.cfg, s, Internals(flush, n.ddClients));
    TickIsPipelinePath(flush, n.ddClients, n.cfg, s);
    TickCouples(flush, n.ddClients, n.cfg, s, logNetworks, tick);
  }

  lemma FinalCouples(r: FlushRecord, clients: seq<DatadogClient>, cfg: Pipeline.Config, s: Pipeline.State,
                     networks: nat -> Network, logPosts: seq<Post>)
    requires KnowsKeys(cfg, clients) && Sized(cfg, s.main) && s.main.phase.Halted? && FlushFrom(r, clients, s)
    requires cfg.logsEnabled ==> LogPosts(clients, s.store.logsBuffer, networks, logPosts)
    ensures var after := r.books.MetricsFlushed(r.posts);
            Couples(if cfg.logsEnabled then after.LogsFlushed(logPosts) else after,
                    Finished(cfg, s, Internals(r, clients)).main)
  {
    var internals := Internals(r, clients);
    var t := MetricsFlushed(cfg, s, internals);
    FlushedMain(cfg, s, internals);
    MetricsCouple(r.books, r.posts, s.main, t.main, Overlays(internals));
    if cfg.logsEnabled {
      LogsFlushedMain(cfg, t);
      LogsCouple(r.books.MetricsFlushed(r.posts), clients, s.store.logsBuffer, networks, logPosts, t.main,
                 Finished(cfg, s, internals).main);
    }
  }

  /** So does the flush at shutdown. */
  method Finishes(n: Nozzle, timestamp: int, metricNetworks: nat -> Network, logNetworks: nat -> Network,
                  ghost s: Pipeline.State)
    returns (ghost t: Pipeline.State, ghost flush: FlushRecord, ghost logPosts: seq<Post>)
    requires Shows(n, s) && s.main.phase.Halted?
    modifies n`metricsMap, n`totalMetricsSent, n`metricsSent, n`metricsDropped, n`logsBuffer,
             n`totalLogsSent, n`logsSent, n`logsDropped, n`slowConsumerAlert
    ensures Reaches(n.cfg, s, t) && Shows(n, t) && t.flow == s.flow && t.main.phase.Done?
    ensures GainedAll(s.main.metricDeliveries, flush.handed, t.main.metricDeliveries)
    ensures if n.cfg.logsEnabled
            then GainedAll(s.main.logDeliveries, seq(n.cfg.clients, _ => old(n.logsBuffer)), t.main.logDeliveries)
            else t.main.logDeliveries == s.main.logDeliveries
  {
    flush, logPosts := n.FinalFlush(timestamp, metricNetworks, logNetworks);
    t := Finished(n.cfg, s, Internals(flush, n.ddClients));
    FinalFlushIsPipelinePath(flush, n.ddClients, n.cfg, s);
    FinalCouples(flush, n.ddClients, n.cfg, s, logNetworks, logPosts);
  }
}
