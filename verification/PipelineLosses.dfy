/** Runs in which points are lost, and exactly when there are any. */
module PipelineLosses {
  import opened Sequences
  import opened Metrics
  import opened Envelopes
  import opened LogFormatter
  import opened Pipeline
  import opened PipelineRuns
  import opened PipelinePaths

  // ---------------------------------------------------------------- what the constructed runs tell the clients

  /** Every client is told the same point under each of its keys. */
  ghost function TellAll(cfg: Config, keys: nat -> set<MetricKey>, p: Point): seq<Entries> {
    seq(cfg.clients, i requires i >= 0 => map k | k in keys(i) :: MetricValue([], [p], "", GAUGE))
  }

  /** Just the gauges, as before anything was sent. */
  ghost function Gauges(cfg: Config, p: Point): seq<Entries> {
    TellAll(cfg, cfg.gaugeKeys, p)
  }

  ghost function AllOwn(cfg: Config, p: Point): seq<Entries> {
    TellAll(cfg, AllKeys(cfg), p)
  }

  ghost function AllKeys(cfg: Config): nat -> set<MetricKey> {
    (i: nat) => OwnKeys(cfg, i)
  }

  lemma GaugesTellable(cfg: Config, m: Main, p: Point)
    requires Sized(cfg, m)
    ensures Tellable(cfg, m, Gauges(cfg, p))
  {
    forall i | 0 <= i < cfg.clients
      ensures MayTell(cfg, i, m.overlays[i], m.logDeliveries[i], Gauges(cfg, p)[i])
    {
      assert Gauges(cfg, p)[i].Keys == cfg.gaugeKeys(i);
    }
  }

  /** Every client has had a flush and, if logs are possible, a log. */
  ghost predicate Seasoned(cfg: Config, m: Main)
    requires Sized(cfg, m)
  {
    forall i :: 0 <= i < cfg.clients ==> m.overlays[i] != [] && (LogsPossible(cfg) ==> SomeLog(m.logDeliveries[i]))
  }

  lemma AllTellable(cfg: Config, m: Main, p: Point)
    requires Sized(cfg, m) && Seasoned(cfg, m)
    ensures Tellable(cfg, m, AllOwn(cfg, p))
  {
    forall i | 0 <= i < cfg.clients
      ensures MayTell(cfg, i, m.overlays[i], m.logDeliveries[i], AllOwn(cfg, p)[i])
    {
      assert AllOwn(cfg, p)[i].Keys == OwnKeys(cfg, i);
    }
  }

  /** Any overlay of them holds the one point only. */
  lemma {:induction false} MergedTold(cfg: Config, keys: nat -> set<MetricKey>, p: Point, n: nat, key: MetricKey)
    requires n <= cfg.clients
    ensures key in Merged(TellAll(cfg, keys, p), n) <==> exists i: nat :: i < n && key in keys(i)
    ensures key in Merged(TellAll(cfg, keys, p), n) ==> Merged(TellAll(cfg, keys, p), n)[key].points == [p]
  {
    if n == 0 {
    } else {
      MergedTold(cfg, keys, p, n - 1, key);
      assert key in TellAll(cfg, keys, p)[n - 1] <==> key in keys(n - 1);
    }
  }

  /** A point of the firehose that was dequeued under the key never reached the client. */
  ghost predicate LostAt(s: State, c: nat, key: MetricKey, q: Point) {
    && c < |s.main.metricDeliveries|
    && q in Carried(s.flow.dequeuedMetrics, key)
    && q !in PointsAcross(s.main.metricDeliveries[c], key)
  }

  /** Nothing but p is in these batches under the key. */
  ghost predicate OnlyPoint(p: Point, batches: seq<Entries>, key: MetricKey) {
    forall q :: q in PointsAcross(batches, key) ==> q == p
  }

  lemma OnlyPointNext(p: Point, batches: seq<Entries>, batch: Entries, key: MetricKey)
    requires OnlyPoint(p, batches, key) && (PointsOf(batch, key) == [] || PointsOf(batch, key) == [p])
    ensures OnlyPoint(p, batches + [batch], key)
  {
    assert (batches + [batch])[..|batches|] == batches;
  }

  /** A package with just this point. */
  function OnePoint(key: MetricKey, q: Point): Package {
    Package([MetricPackage(key, MetricValue([], [q], "", ""))])
  }

  /** The nozzle's own points of the constructed runs are of another time. */
  function Later(q: Point): Point {
    Point(q.timestamp + 1, Finite(0.0))
  }

  // ---------------------------------------------------------------- the org collector's package

  /** A package of the org collector is queued. */
  ghost function Queued(s: State, pkg: Package): State {
    s.(flow := s.flow.(metricQueue := [pkg], orgCollected := s.flow.orgCollected + [pkg],
                       sentMetrics := s.flow.sentMetrics + [pkg]))
  }

  lemma QueuePath(cfg: Config, s: State, pkg: Package)
    requires s.flow.metricQueue == [] && s.flow.orgPending == []
    ensures Reaches(cfg, s, Queued(s, pkg))
  {
    Stays(cfg, s);
    var t := s.(flow := s.flow.(orgPending := [pkg], orgCollected := s.flow.orgCollected + [pkg]));
    Walk(cfg, s, s, OrgCollect(pkg), t);
    Walk(cfg, s, t, OrgSend(0), Queued(s, pkg));
  }

  ghost function StoppingAt(s: State): State {
    s.(main := s.main.(phase := Stopping))
  }

  lemma InitWorkers(cfg: Config)
    ensures Init(cfg).flow.workers == Exiting(cfg.numWorkers, 0)
  {
  }

  // ---------------------------------------------------------------- a mismatched configuration loses metrics

  /** Application logs enabled without any log intake: the log reader is started but no token is planned for it. */
  predicate Mismatched(cfg: Config) {
    cfg.logsEnabled && !cfg.logIntake
  }

  /** The workers have stopped, and the log reader took the last token. */
  ghost function WrongReaderStopped(cfg: Config, pkg: Package): State {
    var t := WorkersStopped(cfg, StoppingAt(Queued(Init(cfg), pkg)), cfg.numWorkers);
    t.(flow := t.flow.(logReader := Gone), main := t.main.(phase := Halted, tokens := cfg.numWorkers + 1))
  }

  lemma WrongReaderPath(cfg: Config, pkg: Package)
    requires Mismatched(cfg)
    ensures Reaches(cfg, Init(cfg), WrongReaderStopped(cfg, pkg))
  {
    var s := StoppingAt(Queued(Init(cfg), pkg));
    QueuePath(cfg, Init(cfg), pkg);
    Walk(cfg, Init(cfg), Queued(Init(cfg), pkg), StopSignal, s);
    InitWorkers(cfg);
    WorkersPath(cfg, s, cfg.numWorkers);
    var t := WorkersStopped(cfg, s, cfg.numWorkers);
    Then(cfg, Init(cfg), s, t);
    var u := t.(flow := t.flow.(logReader := Gone), main := t.main.(tokens := cfg.numWorkers + 1));
    Walk(cfg, Init(cfg), t, Token(LogReaderTarget), u);
    Walk(cfg, Init(cfg), u, StopDone, WrongReaderStopped(cfg, pkg));
  }

  /** The reader has dequeued the one queued package. */
  ghost function Dequeued(s: State, pkg: Package): State {
    s.(flow := s.flow.(metricQueue := [], reader := Folding(pkg), dequeuedMetrics := s.flow.dequeuedMetrics + [pkg]))
  }

  lemma ReadPath(cfg: Config, s: State, t: State, pkg: Package)
    requires Reaches(cfg, s, t) && t.flow.reader.Waiting? && t.flow.metricQueue == [pkg]
    ensures Reaches(cfg, s, Dequeued(t, pkg))
  {
    assert t.flow.metricQueue[1..] == [];
    Walk(cfg, s, t, ReadMetrics, Dequeued(t, pkg));
  }

  /** The metrics flush is over; only then does the reader dequeue the package. */
  ghost function LateDequeue(cfg: Config, pkg: Package, p: Point): State {
    Dequeued(MetricsFlushed(cfg, WrongReaderStopped(cfg, pkg), Gauges(cfg, p)), pkg)
  }

  lemma LateDequeuePath(cfg: Config, pkg: Package, p: Point)
    requires Mismatched(cfg)
    ensures Reaches(cfg, Init(cfg), LateDequeue(cfg, pkg, p))
  {
    var s := WrongReaderStopped(cfg, pkg);
    var t := MetricsFlushed(cfg, s, Gauges(cfg, p));
    WrongReaderPath(cfg, pkg);
    GaugesTellable(cfg, s.main, p);
    MetricsFlushPath(cfg, s, Gauges(cfg, p));
    Then(cfg, Init(cfg), s, t);
    FlushedMain(cfg, s, Gauges(cfg, p));
    ReadPath(cfg, Init(cfg), t, pkg);
  }

  /**
   * For every mismatched configuration and every package there is a run, without a timeout, in which the log reader
   * takes the token meant for the metrics reader, which then dequeues the package after the final flush: each client
   * has been handed nothing but the nozzle's own gauges, with the point p.
   */
  lemma MismatchCanLoseMetrics(cfg: Config, pkg: Package, p: Point) returns (steps: seq<Step>)
    requires Mismatched(cfg)
    ensures Clean(cfg, steps)
    ensures var s := After(cfg, steps).value;
            s.flow.dequeuedMetrics == [pkg] && OnlyGauges(cfg, s.main, p)
  {
    var s := LateDequeue(cfg, pkg, p);
    var t := LogsFlushed(cfg, s);
    LateDequeuePath(cfg, pkg, p);
    LateDequeueMain(cfg, pkg, p);
    LogsFlushPath(cfg, s);
    LogsFlushedMain(cfg, s);
    Then(cfg, Init(cfg), s, t);
    steps := RunTo(cfg, t);
  }

  /** Every client was handed one batch, of gauges only. */
  ghost predicate OnlyGauges(cfg: Config, m: Main, p: Point) {
    && |m.metricDeliveries| == |m.overlays| == cfg.clients
    && forall i :: 0 <= i < cfg.clients ==> m.metricDeliveries[i] == m.overlays[i] == [Merged(Gauges(cfg, p), i + 1)]
  }

  lemma LateDequeueMain(cfg: Config, pkg: Package, p: Point)
    ensures var t := LateDequeue(cfg, pkg, p);
            t.flow.dequeuedMetrics == [pkg] && OnlyGauges(cfg, t.main, p) && !t.main.timedOut
            && Sized(cfg, t.main) && t.main.phase == (if cfg.logsEnabled then BeforeLogs(true) else Done)
  {
    var s := WrongReaderStopped(cfg, pkg);
    var t := LateDequeue(cfg, pkg, p);
    FlushedMain(cfg, s, Gauges(cfg, p));
    forall i | 0 <= i < cfg.clients
      ensures t.main.metricDeliveries[i] == t.main.overlays[i] == [Merged(Gauges(cfg, p), i + 1)]
    {
      assert map[] + Merged(Gauges(cfg, p), i + 1) == Merged(Gauges(cfg, p), i + 1);
    }
  }

  /** In every run that ends without a timeout every client was handed everything that was dequeued. */
  ghost predicate DeliversAll(cfg: Config) {
    forall steps, c: nat, key {:trigger After(cfg, steps), HandedAll(After(cfg, steps).value, c, key)} ::
      Clean(cfg, steps) && c < cfg.clients ==> HandedAll(After(cfg, steps).value, c, key)
  }

  lemma OneMetric(metric: MetricPackage)
    ensures Carried([Package([metric])], metric.key) == metric.value.points
  {
    MetricsOfOne(Package([metric]));
    assert PackagePoints([metric], metric.key) == [] + metric.value.points by {
      assert [metric][..0] == [];
    }
  }

  lemma CarriedOne(key: MetricKey, q: Point)
    ensures Carried([OnePoint(key, q)], key) == [q]
  {
    OneMetric(OnePoint(key, q).metrics[0]);
  }

  lemma MetricsOfOne(pkg: Package)
    ensures MetricsOf([pkg]) == pkg.metrics
  {
    MetricsOfNext([], pkg);
    assert [] + [pkg] == [pkg];
    assert MetricsOf([]) == [];
    assert [] + pkg.metrics == pkg.metrics;
  }

  lemma OneBatch(batch: Entries, key: MetricKey)
    ensures PointsAcross([batch], key) == PointsOf(batch, key)
  {
    assert [batch][..0] == [];
    assert PointsAcross([batch], key) == [] + PointsOf(batch, key);
  }

  lemma {:induction false} FreshKey(keys: set<MetricKey>) returns (key: MetricKey)
    ensures key !in keys && |key.name| > 0
    ensures forall k :: k in keys ==> |k.name| < |key.name|
  {
    if keys == {} {
      key := MetricKey("a", "");
    } else {
      var k :| k in keys;
      var longest := FreshKey(keys - {k});
      key := MetricKey(longest.name + k.name, "");
      forall other | other in keys ensures |other.name| < |key.name| {
        assert other == k || other in keys - {k};
      }
    }
  }

  lemma MismatchLoses(cfg: Config)
    requires Mismatched(cfg) && cfg.clients >= 1
    ensures !DeliversAll(cfg)
  {
    var key := FreshKey(cfg.gaugeKeys(0));
    var q := Point(0, NaN);
    var steps := MismatchCanLoseMetrics(cfg, OnePoint(key, q), Later(q));
    var s := After(cfg, steps).value;
    var batch := Merged(Gauges(cfg, Later(q)), 1);
    CarriedOne(key, q);
    MergedTold(cfg, cfg.gaugeKeys, Later(q), 1, key);
    OneBatch(batch, key);
    assert s.main.overlays[0] == [batch];
    assert InNone(s.main.overlays[0], key);
    assert !HandedAll(s, 0, key);
  }

  /**
   * With at least one client, a shutdown without a timeout always delivers everything exactly when application
   * logs are not enabled or some log intake is configured.
   */
  lemma CleanShutdownExactly(cfg: Config)
    requires cfg.clients >= 1
    ensures DeliversAll(cfg) <==> !Mismatched(cfg)
  {
    if Mismatched(cfg) {
      MismatchLoses(cfg);
    } else {
      forall steps, c: nat, key | Clean(cfg, steps) && c < cfg.clients
        ensures HandedAll(After(cfg, steps).value, c, key)
      {
        StopOutcome(cfg, steps);
        CleanShutdownDeliversAll(cfg, steps, c, key);
      }
    }
  }

  // ---------------------------------------------------------------- an own key loses metrics

  /** Every goroutine waits. */
  ghost predicate Resting(cfg: Config, s: State) {
    && s.main.phase.Running? && Sized(cfg, s.main) && s.main.tokens == 0 && !s.main.timedOut
    && s.flow.workers == Exiting(cfg.numWorkers, 0) && s.flow.reader.Waiting?
    && (if cfg.logsEnabled then s.flow.logReader.Waiting? else s.flow.logReader.Gone?)
  }

  /** And nothing is queued. */
  ghost predicate Idle(cfg: Config, s: State) {
    && Resting(cfg, s)
    && s.flow.messages == [] && s.flow.metricQueue == [] && s.flow.logQueue == [] && s.flow.orgPending == []
  }

  lemma InitIdle(cfg: Config)
    ensures Idle(cfg, Init(cfg))
  {
    InitWorkers(cfg);
  }

  const SOME_LOG := LogMessage("", "", "", "", "")

  function LogEnvelope(cfg: Config): Envelope {
    Envelope(0, "", "", map["deployment" := cfg.deploymentFilter], Message.Log(""))
  }

  /** A worker makes a log message of an envelope and queues it. */
  lemma LogQueued(cfg: Config, s: State) returns (t: State)
    requires Idle(cfg, s) && LogsPossible(cfg)
    ensures Reaches(cfg, s, t) && t.main == s.main && t.store == s.store
    ensures t.flow == s.flow.(logQueue := [SOME_LOG], sentLogs := t.flow.sentLogs, taken := t.flow.taken,
                              arrived := t.flow.arrived)
  {
    Stays(cfg, s);
    var e := LogEnvelope(cfg);
    var u := Do(cfg, s, Deliver(e));
    Walk(cfg, s, s, Deliver(e), u);
    var o := Outcome.Log(SOME_LOG);
    var v := Do(cfg, u, Take(0, o));
    Walk(cfg, s, u, Take(0, o), v);
    t := Do(cfg, v, WorkerSend(0));
    Walk(cfg, s, v, WorkerSend(0), t);
    assert t.flow.workers == s.flow.workers;
    assert t.flow.messages == [];
  }

  lemma LogFolded(cfg: Config, s: State) returns (t: State)
    requires Idle(cfg, s) && LogsPossible(cfg)
    ensures Reaches(cfg, s, t) && Idle(cfg, t) && t.main == s.main
    ensures t.store.logsBuffer != [] && t.store.metricsMap == s.store.metricsMap
    ensures t.flow.dequeuedMetrics == s.flow.dequeuedMetrics
  {
    var u := LogQueued(cfg, s);
    var v := Do(cfg, u, ReadLog);
    Walk(cfg, s, u, ReadLog, v);
    t := Do(cfg, v, FoldLog);
    Walk(cfg, s, v, FoldLog, t);
  }

  /** A tick with just the gauges. */
  lemma TickIdle(cfg: Config, s: State, p: Point) returns (t: State)
    requires Idle(cfg, s) && (LogsPossible(cfg) ==> s.store.logsBuffer != [])
    ensures Reaches(cfg, s, t) && Idle(cfg, t) && Seasoned(cfg, t.main)
    ensures t.store.metricsMap == map[] && t.flow.dequeuedMetrics == s.flow.dequeuedMetrics
    ensures GainedAll(s.main.metricDeliveries, Batches(s.store.metricsMap, Gauges(cfg, p)), t.main.metricDeliveries)
  {
    t := Ticked(cfg, s, Gauges(cfg, p));
    GaugesTellable(cfg, s.main, p);
    TickPath(cfg, s, Gauges(cfg, p));
    FlushedMain(cfg, s, Gauges(cfg, p));
    var u := MetricsFlushed(cfg, s, Gauges(cfg, p));
    LogsFlushedMain(cfg, u);
    GainsSeason(cfg, s.main, t.main, Overlays(Gauges(cfg, p)), LogItems(cfg, u));
  }

  lemma GainsSeason(cfg: Config, m: Main, n: Main, overlays: seq<Entries>, logs: seq<seq<LogMessage>>)
    requires Sized(cfg, m) && Sized(cfg, n)
    requires GainedAll(m.overlays, overlays, n.overlays) && GainedAll(m.logDeliveries, logs, n.logDeliveries)
    requires LogsPossible(cfg) ==> forall i :: 0 <= i < |logs| ==> logs[i] != []
    ensures Seasoned(cfg, n)
  {
    forall i | 0 <= i < cfg.clients && LogsPossible(cfg) ensures SomeLog(n.logDeliveries[i]) {
      assert n.logDeliveries[i][|m.logDeliveries[i]|] == logs[i];
    }
  }

  /** The package is folded. */
  lemma PackageFolded(cfg: Config, s: State, pkg: Package) returns (t: State)
    requires Idle(cfg, s) && s.store.metricsMap == map[]
    ensures Reaches(cfg, s, t) && Idle(cfg, t) && t.main == s.main
    ensures t.store.metricsMap == AddedAll(map[], pkg.metrics)
    ensures t.flow.dequeuedMetrics == s.flow.dequeuedMetrics + [pkg]
  {
    QueuePath(cfg, s, pkg);
    var u := Queued(s, pkg);
    ReadPath(cfg, s, u, pkg);
    t := Do(cfg, Dequeued(u, pkg), FoldMetrics);
    Walk(cfg, s, Dequeued(u, pkg), FoldMetrics, t);
  }

  lemma StopResting(cfg: Config, s: State) returns (t: State)
    requires cfg.logsEnabled == cfg.logIntake && Resting(cfg, s)
    ensures Reaches(cfg, s, t) && t.store == s.store && t.flow.dequeuedMetrics == s.flow.dequeuedMetrics
    ensures t.flow.metricQueue == s.flow.metricQueue
    ensures t.main == s.main.(phase := Halted, tokens := TokensPlanned(cfg))
  {
    var u := StoppingAt(s);
    Stays(cfg, s);
    Walk(cfg, s, s, StopSignal, u);
    StopPath(cfg, u);
    t := AllStopped(cfg, u);
    Then(cfg, s, u, t);
  }

  /** The nozzle can reach its end from wherever the workers were stopped. */
  lemma FinishRun(cfg: Config, s: State, internals: seq<Entries>) returns (steps: seq<Step>)
    requires Reaches(cfg, Init(cfg), s) && Sized(cfg, s.main) && s.main.phase.Halted? && !s.main.timedOut
    requires Tellable(cfg, s.main, internals)
    ensures Clean(cfg, steps)
    ensures var t := After(cfg, steps).value;
            t.flow == s.flow
            && GainedAll(s.main.metricDeliveries, Batches(s.store.metricsMap, internals), t.main.metricDeliveries)
  {
    var t := Finished(cfg, s, internals);
    FinalPath(cfg, s, internals);
    FinishedMain(cfg, s, internals);
    Then(cfg, Init(cfg), s, t);
    steps := RunTo(cfg, t);
  }

  /** Every client can have had a flush, and a log if logs are possible, with nothing under way. */
  lemma SeasonedRun(cfg: Config, p: Point, key: MetricKey) returns (t: State)
    ensures Reaches(cfg, Init(cfg), t) && Idle(cfg, t) && Seasoned(cfg, t.main)
    ensures t.store.metricsMap == map[] && t.flow.dequeuedMetrics == []
    ensures AllOnly(p, t.main, key)
  {
    var s := Init(cfg);
    InitIdle(cfg);
    Stays(cfg, s);
    var u := s;
    if LogsPossible(cfg) {
      u := LogFolded(cfg, s);
    }
    t := TickIdle(cfg, u, p);
    Then(cfg, s, u, t);
    GaugesGained(cfg, p, u.main, t.main, key);
  }

  /** Every client was handed nothing but p under the key. */
  ghost predicate AllOnly(p: Point, m: Main, key: MetricKey) {
    forall c :: 0 <= c < |m.metricDeliveries| ==> OnlyPoint(p, m.metricDeliveries[c], key)
  }

  lemma GaugesGained(cfg: Config, p: Point, before: Main, after: Main, key: MetricKey)
    requires Sized(cfg, before) && forall c :: 0 <= c < cfg.clients ==> before.metricDeliveries[c] == []
    requires GainedAll(before.metricDeliveries, Batches(map[], Gauges(cfg, p)), after.metricDeliveries)
    ensures AllOnly(p, after, key)
  {
    forall c | 0 <= c < cfg.clients ensures OnlyPoint(p, after.metricDeliveries[c], key) {
      MergedTold(cfg, cfg.gaugeKeys, p, c + 1, key);
      OnlyPointNext(p, [], map[] + Merged(Gauges(cfg, p), c + 1), key);
    }
  }

  /** Under an own key a batch with all own points on top holds only p. */
  lemma OwnOnTop(cfg: Config, snapshot: Entries, n: nat, p: Point, key: MetricKey)
    requires n <= cfg.clients && Own(cfg, n, key)
    ensures PointsOf(snapshot + Merged(AllOwn(cfg, p), n), key) == [p]
  {
    var i: nat :| i < n && key in OwnKeys(cfg, i);
    assert key in AllKeys(cfg)(i);
    MergedTold(cfg, AllKeys(cfg), p, n, key);
  }

  lemma OwnGained(cfg: Config, p: Point, before: Main, after: Main, snapshot: Entries, c: nat, key: MetricKey)
    requires Sized(cfg, before) && c < cfg.clients && Own(cfg, c + 1, key)
    requires OnlyPoint(p, before.metricDeliveries[c], key)
    requires GainedAll(before.metricDeliveries, Batches(snapshot, AllOwn(cfg, p)), after.metricDeliveries)
    ensures OnlyPoint(p, after.metricDeliveries[c], key)
  {
    OwnOnTop(cfg, snapshot, c + 1, p, key);
    OnlyPointNext(p, before.metricDeliveries[c], snapshot + Merged(AllOwn(cfg, p), c + 1), key);
  }

  /** The package is in the map and the workers have stopped, after a flush and a log for every client. */
  lemma StoppedWith(cfg: Config, pkg: Package, p: Point, key: MetricKey) returns (u: State)
    requires cfg.logsEnabled == cfg.logIntake
    ensures Reaches(cfg, Init(cfg), u) && Sized(cfg, u.main) && Seasoned(cfg, u.main)
    ensures u.main.phase.Halted? && !u.main.timedOut && u.flow.dequeuedMetrics == [pkg]
    ensures AllOnly(p, u.main, key)
  {
    var s := SeasonedRun(cfg, p, key);
    var t := PackageFolded(cfg, s, pkg);
    Then(cfg, Init(cfg), s, t);
    u := StopResting(cfg, t);
    Then(cfg, Init(cfg), t, u);
  }

  /** A package can arrive just before a clean shutdown whose flush tells the clients everything of their own. */
  lemma OverwritingRun(cfg: Config, pkg: Package, p: Point, c: nat, key: MetricKey) returns (steps: seq<Step>)
    requires cfg.logsEnabled == cfg.logIntake && c < cfg.clients && Own(cfg, c + 1, key)
    ensures Clean(cfg, steps)
    ensures var s := After(cfg, steps).value;
            s.flow.dequeuedMetrics == [pkg] && c < |s.main.metricDeliveries|
            && OnlyPoint(p, s.main.metricDeliveries[c], key)
  {
    var u := StoppedWith(cfg, pkg, p, key);
    AllTellable(cfg, u.main, p);
    steps := FinishRun(cfg, u, AllOwn(cfg, p));
    OwnGained(cfg, p, u.main, After(cfg, steps).value.main, u.store.metricsMap, c, key);
  }

  /** Client c is handed, in every clean run, exactly the points that were dequeued under the key. */
  ghost predicate DeliversKey(cfg: Config, c: nat, key: MetricKey) {
    forall steps :: Clean(cfg, steps) ==> DeliveredAt(After(cfg, steps).value, c, key)
  }

  ghost predicate DeliveredAt(s: State, c: nat, key: MetricKey) {
    c < |s.main.metricDeliveries|
    && PointsAcross(s.main.metricDeliveries[c], key) == Carried(s.flow.dequeuedMetrics, key)
  }

  /** Any point whatever can be lost under an own key of the client or one before it. */
  lemma OwnKeyLoses(cfg: Config, c: nat, key: MetricKey, q: Point) returns (steps: seq<Step>)
    requires cfg.logsEnabled == cfg.logIntake && c < cfg.clients && Own(cfg, c + 1, key)
    ensures Clean(cfg, steps) && LostAt(After(cfg, steps).value, c, key, q)
  {
    steps := OverwritingRun(cfg, OnePoint(key, q), Later(q), c, key);
    CarriedOne(key, q);
  }

  /** With a mismatched configuration any point can be lost under any key. */
  lemma MismatchLosesKey(cfg: Config, c: nat, key: MetricKey, q: Point) returns (steps: seq<Step>)
    requires Mismatched(cfg) && c < cfg.clients
    ensures Clean(cfg, steps) && LostAt(After(cfg, steps).value, c, key, q)
  {
    steps := MismatchCanLoseMetrics(cfg, OnePoint(key, q), Later(q));
    var batch := Merged(Gauges(cfg, Later(q)), c + 1);
    CarriedOne(key, q);
    MergedTold(cfg, cfg.gaugeKeys, Later(q), c + 1, key);
    OneBatch(batch, key);
  }

  /** A log intake without application logs: the token planned for the log reader is never taken. */
  predicate NeverClean(cfg: Config) {
    cfg.logIntake && !cfg.logsEnabled
  }

  lemma CleanRunsMatch(cfg: Config, steps: seq<Step>)
    requires Clean(cfg, steps)
    ensures !NeverClean(cfg)
  {
    StopOutcome(cfg, steps);
  }

  /** The log configuration loses no metrics and, if there are clean shutdowns at all, the key is not an own one. */
  ghost predicate Safe(cfg: Config, c: nat, key: MetricKey) {
    !Mismatched(cfg) && (NeverClean(cfg) || !Own(cfg, c + 1, key))
  }

  lemma SafeDelivers(cfg: Config, c: nat, key: MetricKey)
    requires c < cfg.clients && Safe(cfg, c, key)
    ensures DeliversKey(cfg, c, key)
  {
    forall steps | Clean(cfg, steps) ensures DeliveredAt(After(cfg, steps).value, c, key) {
      CleanRunsMatch(cfg, steps);
      CleanShutdownDeliversAll(cfg, steps, c, key);
      OthersUntouched(cfg, steps, c, key);
    }
  }

  lemma UnsafeLoses(cfg: Config, c: nat, key: MetricKey, q: Point) returns (steps: seq<Step>)
    requires c < cfg.clients && !Safe(cfg, c, key)
    ensures Clean(cfg, steps) && LostAt(After(cfg, steps).value, c, key, q)
  {
    if Mismatched(cfg) {
      steps := MismatchLosesKey(cfg, c, key, q);
    } else {
      steps := OwnKeyLoses(cfg, c, key, q);
    }
  }

  /** Some clean run loses the point. */
  ghost predicate CanLosePoint(cfg: Config, c: nat, key: MetricKey, q: Point) {
    exists steps :: Clean(cfg, steps) && LostAt(After(cfg, steps).value, c, key, q)
  }

  lemma DeliveredNotLost(s: State, c: nat, key: MetricKey, q: Point)
    requires DeliveredAt(s, c, key)
    ensures !LostAt(s, c, key, q)
  {
  }

  /**
   * For every configuration, client, key and point: the point can be dequeued under the key and never reach the client
   * in a clean shutdown exactly when the log configuration is mismatched or, if there are clean shutdowns at all, the
   * client or one before it has the key for one of its own gauges or counts. Counts of logs matter only where logs are
   * possible.
   */
  lemma LossExactly(cfg: Config, c: nat, key: MetricKey, q: Point)
    requires c < cfg.clients
    ensures CanLosePoint(cfg, c, key, q) <==> Mismatched(cfg) || (!NeverClean(cfg) && Own(cfg, c + 1, key))
  {
    if Safe(cfg, c, key) {
      SafeDelivers(cfg, c, key);
      forall steps | Clean(cfg, steps) ensures !LostAt(After(cfg, steps).value, c, key, q) {
        DeliveredNotLost(After(cfg, steps).value, c, key, q);
      }
    } else {
      var steps := UnsafeLoses(cfg, c, key, q);
    }
  }

  /** Unless it can lose points under the key, a client is handed exactly those dequeued under it, in order. */
  lemma KeyDeliveredExactly(cfg: Config, c: nat, key: MetricKey)
    requires c < cfg.clients
    ensures DeliversKey(cfg, c, key) <==> !Mismatched(cfg) && (NeverClean(cfg) || !Own(cfg, c + 1, key))
    ensures DeliversKey(cfg, c, key) <==> forall q :: !CanLosePoint(cfg, c, key, q)
  {
    forall q ensures CanLosePoint(cfg, c, key, q) <==> !Safe(cfg, c, key) {
      LossExactly(cfg, c, key, q);
    }
    if Safe(cfg, c, key) {
      SafeDelivers(cfg, c, key);
    } else {
      var q := Point(0, NaN);
      var steps := UnsafeLoses(cfg, c, key, q);
      assert CanLosePoint(cfg, c, key, q);
      if DeliveredAt(After(cfg, steps).value, c, key) {
        DeliveredNotLost(After(cfg, steps).value, c, key, q);
      }
    }
  }

  // ---------------------------------------------------------------- what is still queued when the nozzle ends

  /**
   * With matching log configuration and no timeout: what is missing in the end is what is still queued. Outside the
   * flushes that overwrite the key, the client has all points sent under it exactly when no queued package carries any,
   * and all logs sent exactly when no log is queued.
   */
  lemma SentDeliveredExactly(cfg: Config, steps: seq<Step>, c: nat, key: MetricKey)
    requires Clean(cfg, steps) && cfg.logsEnabled == cfg.logIntake && c < cfg.clients
    ensures var s := After(cfg, steps).value; var f := s.flow;
            && c < |s.main.metricDeliveries| && c < |s.main.logDeliveries| && c < |s.main.overlays|
            && (InNone(s.main.overlays[c], key) ==>
                  && PointsAcross(s.main.metricDeliveries[c], key) + Carried(f.metricQueue, key)
                     == Carried(f.sentMetrics, key)
                  && (PointsAcross(s.main.metricDeliveries[c], key) == Carried(f.sentMetrics, key)
                      <==> Carried(f.metricQueue, key) == []))
            && Flatten(s.main.logDeliveries[c]) + f.logQueue == f.sentLogs
            && (Flatten(s.main.logDeliveries[c]) == f.sentLogs <==> f.logQueue == [])
  {
    RunInv(cfg, steps);
    CleanShutdownDeliversAll(cfg, steps, c, key);
    var f := After(cfg, steps).value.flow;
    CarriedConcat(f.dequeuedMetrics, f.metricQueue, key);
  }

  /** Any package can be queued and stay so in a clean shutdown: no client is handed any of it. */
  lemma QueuedStays(cfg: Config, pkg: Package) returns (steps: seq<Step>)
    requires cfg.logsEnabled == cfg.logIntake
    ensures Clean(cfg, steps)
    ensures var f := After(cfg, steps).value.flow;
            f.metricQueue == [pkg] && f.sentMetrics == [pkg] && f.dequeuedMetrics == []
  {
    var s := Init(cfg);
    InitIdle(cfg);
    QueuePath(cfg, s, pkg);
    var t := Queued(s, pkg);
    var u := StopResting(cfg, t);
    Then(cfg, s, t, u);
    var p := Point(0, Finite(0.0));
    GaugesTellable(cfg, u.main, p);
    steps := FinishRun(cfg, u, Gauges(cfg, p));
    RunInv(cfg, steps);
  }
}
