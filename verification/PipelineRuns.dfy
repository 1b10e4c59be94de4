/** What every run of the pipeline keeps: aggregation, flushing, delivery to clients and shutdown. */
module PipelineRuns {
  import opened Sequences
  import opened Metrics
  import opened LogFormatter
  import opened Pipeline

  // ---------------------------------------------------------------- aggregation and flushing lose nothing

  function MetricsIn(p: Package): seq<MetricPackage> { p.metrics }

  function MetricsOf(pkgs: seq<Package>): seq<MetricPackage> {
    Flatten(Map(MetricsIn, pkgs))
  }

  /** The points that the packages carry for one key, in order. */
  ghost function Carried(pkgs: seq<Package>, key: MetricKey): seq<Point> {
    PackagePoints(MetricsOf(pkgs), key)
  }

  ghost function Folded(st: Store): seq<Package> {
    Flatten(st.epochs) + st.current
  }

  /** The metrics map holds the packages of the current epoch; every snapshot holds those of its own epoch. */
  ghost predicate MapInv(st: Store) {
    && st.metricsMap == AddedAll(map[], MetricsOf(st.current))
    && |st.snapshots| == |st.epochs|
    && forall i :: 0 <= i < |st.snapshots| ==> st.snapshots[i] == AddedAll(map[], MetricsOf(st.epochs[i]))
  }

  ghost predicate BufferInv(st: Store) {
    Flatten(st.logBatches) + st.logsBuffer == st.foldedLogs
  }

  /** Readers hold what they dequeued and have not folded yet; totalMessagesReceived counts the folds. */
  ghost predicate ReadersInv(f: Flow, st: Store) {
    && f.dequeuedMetrics == Folded(st) + f.reader.Held()
    && f.dequeuedLogs == st.foldedLogs + f.logReader.Held()
    && st.received == |Folded(st)| + |st.foldedLogs|
  }

  lemma {:induction false} AddedAllConcat(m: Entries, a: seq<MetricPackage>, b: seq<MetricPackage>)
    ensures AddedAll(m, a + b) == AddedAll(AddedAll(m, a), b)
  {
    if b == [] {
      assert a + b == a;
    } else {
      AddedAllConcat(m, a, b[..|b| - 1]);
      assert (a + b)[..|a + b| - 1] == a + b[..|b| - 1];
    }
  }

  lemma MetricsOfNext(pkgs: seq<Package>, pkg: Package)
    ensures MetricsOf(pkgs + [pkg]) == MetricsOf(pkgs) + pkg.metrics
  {
    FlattenMapNext(MetricsIn, pkgs, pkg);
  }

  lemma FlattenNext<A>(ss: seq<seq<A>>, s: seq<A>)
    ensures Flatten(ss + [s]) == Flatten(ss) + s
  {
    assert (ss + [s])[..|ss|] == ss;
  }

  lemma MapKept(cfg: Config, f: Flow, st: Store, step: Step)
    requires MapInv(st) && FlowEnabled(cfg, f, step)
    ensures MapInv(StoreDo(cfg, f, st, step))
  {
    match step
    case FoldMetrics =>
      var pkg := f.reader.item;
      MetricsOfNext(st.current, pkg);
      AddedAllConcat(map[], MetricsOf(st.current), pkg.metrics);
    case TakeMetrics =>
      assert MetricsOf([]) == [];
    case _ =>
  }

  lemma BufferKept(cfg: Config, f: Flow, st: Store, step: Step)
    requires BufferInv(st) && FlowEnabled(cfg, f, step)
    ensures BufferInv(StoreDo(cfg, f, st, step))
  {
    if step.TakeLogs? {
      FlattenNext(st.logBatches, st.logsBuffer);
    }
  }

  lemma FoldKeepsReaders(cfg: Config, f: Flow, st: Store, step: Step)
    requires ReadersInv(f, st) && FlowEnabled(cfg, f, step) && (step.FoldMetrics? || step.FoldLog?)
    ensures ReadersInv(FlowDo(cfg, f, step), StoreDo(cfg, f, st, step))
  {
    if step.FoldMetrics? {
      assert Folded(StoreDo(cfg, f, st, step)) == Folded(st) + [f.reader.item];
    }
  }

  lemma ReadKeepsReaders(cfg: Config, f: Flow, st: Store, step: Step)
    requires ReadersInv(f, st) && FlowEnabled(cfg, f, step) && (step.ReadMetrics? || step.ReadLog?)
    ensures ReadersInv(FlowDo(cfg, f, step), StoreDo(cfg, f, st, step))
  {
    if step.ReadMetrics? {
      assert f.dequeuedMetrics == Folded(st) + [] == Folded(st);
    } else {
      assert f.dequeuedLogs == st.foldedLogs + [] == st.foldedLogs;
    }
  }

  lemma ReadersKept(cfg: Config, f: Flow, st: Store, step: Step)
    requires ReadersInv(f, st) && FlowEnabled(cfg, f, step)
    ensures ReadersInv(FlowDo(cfg, f, step), StoreDo(cfg, f, st, step))
  {
    match step
    case FoldMetrics => FoldKeepsReaders(cfg, f, st, step);
    case FoldLog => FoldKeepsReaders(cfg, f, st, step);
    case ReadMetrics => ReadKeepsReaders(cfg, f, st, step);
    case ReadLog => ReadKeepsReaders(cfg, f, st, step);
    case TakeMetrics => FlattenNext(st.epochs, st.current);
    case _ =>
  }

  /** The points that a list of maps carries for one key, map after map. */
  ghost function PointsAcross(maps: seq<Entries>, key: MetricKey): seq<Point> {
    if maps == [] then [] else PointsAcross(maps[..|maps| - 1], key) + PointsOf(maps[|maps| - 1], key)
  }

  lemma CarriedConcat(a: seq<Package>, b: seq<Package>, key: MetricKey)
    ensures Carried(a + b, key) == Carried(a, key) + Carried(b, key)
  {
    MapConcat(MetricsIn, a, b);
    FlattenConcat(Map(MetricsIn, a), Map(MetricsIn, b));
    PackagePointsConcat(MetricsOf(a), MetricsOf(b), key);
  }

  lemma MapHoldsEpoch(m: Entries, epoch: seq<Package>, key: MetricKey)
    requires m == AddedAll(map[], MetricsOf(epoch))
    ensures PointsOf(m, key) == Carried(epoch, key)
  {
    AggregationKeepsPoints(map[], MetricsOf(epoch), key);
  }

  lemma {:induction false} SnapshotsHoldEpochs(snapshots: seq<Entries>, epochs: seq<seq<Package>>, key: MetricKey)
    requires |snapshots| == |epochs|
    requires forall i :: 0 <= i < |snapshots| ==> snapshots[i] == AddedAll(map[], MetricsOf(epochs[i]))
    ensures PointsAcross(snapshots, key) == Carried(Flatten(epochs), key)
  {
    if snapshots == [] {
      assert MetricsOf([]) == [];
    } else {
      var n := |snapshots| - 1;
      SnapshotsHoldEpochs(snapshots[..n], epochs[..n], key);
      MapHoldsEpoch(snapshots[n], epochs[n], key);
      CarriedConcat(Flatten(epochs[..n]), epochs[n], key);
    }
  }

  /**
   * For every key, the points of all flushed snapshots followed by those still in the map are the points of all
   * folded packages in dequeue order: nothing lost, duplicated or reordered across flushes. Logs likewise.
   */
  lemma FlushesKeepPoints(f: Flow, st: Store, key: MetricKey)
    requires MapInv(st) && BufferInv(st) && ReadersInv(f, st)
    ensures PointsAcross(st.snapshots, key) + PointsOf(st.metricsMap, key) + Carried(f.reader.Held(), key)
         == Carried(f.dequeuedMetrics, key)
    ensures Flatten(st.logBatches) + st.logsBuffer + f.logReader.Held() == f.dequeuedLogs
  {
    SnapshotsHoldEpochs(st.snapshots, st.epochs, key);
    MapHoldsEpoch(st.metricsMap, st.current, key);
    CarriedConcat(Flatten(st.epochs), st.current, key);
    CarriedConcat(Folded(st), f.reader.Held(), key);
  }

  // ---------------------------------------------------------------- every client is handed every flush

  /** Only then can a worker make a log message. */
  predicate LogsPossible(cfg: Config) {
    cfg.logsEnabled && cfg.numWorkers > 0
  }

  /** The keys under which client i can ever be told something. */
  ghost function OwnKeys(cfg: Config, i: nat): set<MetricKey> {
    cfg.gaugeKeys(i) + cfg.metricCountKeys(i) + if LogsPossible(cfg) then cfg.logCountKeys(i) else {}
  }

  ghost predicate Own(cfg: Config, n: nat, key: MetricKey) {
    exists i: nat :: i < n && key in OwnKeys(cfg, i)
  }

  /** The first n clients together may write this over a snapshot: own keys only, and all gauges. */
  ghost predicate OverlayOf(cfg: Config, n: nat, overlay: Entries) {
    && (forall k :: k in overlay ==> Own(cfg, n, k))
    && forall i: nat, k :: i < n && k in cfg.gaugeKeys(i) ==> k in overlay
  }

  /** A batch is its snapshot with the overlay written over it. */
  ghost predicate Overlaid(cfg: Config, n: nat, batch: Entries, overlay: Entries, snapshot: Entries) {
    batch == snapshot + overlay && OverlayOf(cfg, n, overlay)
  }

  ghost predicate Handed(cfg: Config, n: nat, delivered: seq<Entries>, overlays: seq<Entries>, snapshots: seq<Entries>) {
    && |delivered| == |overlays| == |snapshots|
    && forall i :: 0 <= i < |delivered| ==> Overlaid(cfg, n, delivered[i], overlays[i], snapshots[i])
  }

  /** Client c has every snapshot, save the last one while its turn has not come. */
  ghost predicate MetricDeliveryInv(cfg: Config, st: Store, m: Main) {
    && |m.metricDeliveries| == |m.overlays| == cfg.clients
    && (m.phase.PostingMetrics? ==>
          m.phase.client <= cfg.clients && st.snapshots != []
          && Overlaid(cfg, m.phase.client, m.phase.batch, m.phase.overlay, st.snapshots[|st.snapshots| - 1]))
    && forall c :: 0 <= c < cfg.clients ==>
         Handed(cfg, c + 1, m.metricDeliveries[c], m.overlays[c],
                if m.phase.PostingMetrics? && c >= m.phase.client then st.snapshots[..|st.snapshots| - 1]
                else st.snapshots)
  }

  ghost predicate LogDeliveryInv(cfg: Config, st: Store, m: Main) {
    && |m.logDeliveries| == cfg.clients
    && (m.phase.PostingLogs? ==>
          m.phase.client <= cfg.clients && st.logBatches != []
          && m.phase.logs == st.logBatches[|st.logBatches| - 1])
    && forall c :: 0 <= c < cfg.clients ==>
         m.logDeliveries[c] ==
           if m.phase.PostingLogs? && c >= m.phase.client then st.logBatches[..|st.logBatches| - 1]
           else st.logBatches
  }

  lemma HandedNext(cfg: Config, n: nat, delivered: seq<Entries>, overlays: seq<Entries>, snapshots: seq<Entries>,
                   batch: Entries, overlay: Entries)
    requires snapshots != [] && Handed(cfg, n, delivered, overlays, snapshots[..|snapshots| - 1])
    requires Overlaid(cfg, n, batch, overlay, snapshots[|snapshots| - 1])
    ensures Handed(cfg, n, delivered + [batch], overlays + [overlay], snapshots)
  {
    forall i | 0 <= i < |snapshots|
      ensures Overlaid(cfg, n, (delivered + [batch])[i], (overlays + [overlay])[i], snapshots[i])
    {
      if i < |delivered| {
        assert Overlaid(cfg, n, delivered[i], overlays[i], snapshots[..|snapshots| - 1][i]);
      }
    }
  }

  lemma SumOfThree(a: Entries, b: Entries, c: Entries)
    ensures (a + b) + c == a + (b + c)
  {
  }

  /** A client writes its own keys only, and all its gauges. */
  lemma ClientTells(cfg: Config, n: nat, overlay: Entries, internals: Entries)
    requires OverlayOf(cfg, n, overlay) && cfg.gaugeKeys(n) <= internals.Keys <= OwnKeys(cfg, n)
    ensures OverlayOf(cfg, n + 1, overlay + internals)
  {
    forall k | k in overlay + internals ensures Own(cfg, n + 1, k) {
      if k in internals {
        assert k in OwnKeys(cfg, n);
      } else {
        assert Own(cfg, n, k);
      }
    }
    forall i: nat, k | i < n + 1 && k in cfg.gaugeKeys(i) ensures k in overlay + internals {
      if i == n {
        assert k in internals.Keys;
      }
    }
  }

  /** Clients are handed logs only if logs are possible. */
  ghost predicate LogsExplained(cfg: Config, m: Main) {
    forall c :: 0 <= c < |m.logDeliveries| && SomeLog(m.logDeliveries[c]) ==> LogsPossible(cfg)
  }

  lemma PostDelivers(cfg: Config, st: Store, m: Main, internals: Entries)
    requires MetricDeliveryInv(cfg, st, m) && MainEnabled(cfg, m, PostMetrics(internals)) && LogsExplained(cfg, m)
    ensures MetricDeliveryInv(cfg, st, MainDo(cfg, st, m, PostMetrics(internals)))
  {
    var c := m.phase.client;
    SumOfThree(st.snapshots[|st.snapshots| - 1], m.phase.overlay, internals);
    ClientTells(cfg, c, m.phase.overlay, internals);
    HandedNext(cfg, c + 1, m.metricDeliveries[c], m.overlays[c], st.snapshots, m.phase.batch + internals,
               m.phase.overlay + internals);
  }

  lemma MetricDeliveryKept(cfg: Config, f: Flow, st: Store, m: Main, step: Step)
    requires MetricDeliveryInv(cfg, st, m) && FlowEnabled(cfg, f, step) && MainEnabled(cfg, m, step)
    requires LogsExplained(cfg, m)
    ensures MetricDeliveryInv(cfg, StoreDo(cfg, f, st, step), MainDo(cfg, st, m, step))
  {
    match step
    case PostMetrics(internals) => PostDelivers(cfg, st, m, internals);
    case TakeMetrics =>
      assert (st.snapshots + [st.metricsMap])[..|st.snapshots|] == st.snapshots;
      assert st.metricsMap + map[] == st.metricsMap;
    case _ =>
  }

  lemma LogDeliveryKept(cfg: Config, f: Flow, st: Store, m: Main, step: Step)
    requires LogDeliveryInv(cfg, st, m) && FlowEnabled(cfg, f, step) && MainEnabled(cfg, m, step)
    ensures LogDeliveryInv(cfg, StoreDo(cfg, f, st, step), MainDo(cfg, st, m, step))
  {
    match step
    case PostLogs =>
      assert st.logBatches == st.logBatches[..|st.logBatches| - 1] + [m.phase.logs];
    case TakeLogs =>
      assert (st.logBatches + [st.logsBuffer])[..|st.logBatches|] == st.logBatches;
    case _ =>
  }

  // ---------------------------------------------------------------- the stop protocol

  function AliveWorkers(ws: seq<Worker>): nat {
    if ws == [] then 0 else AliveWorkers(ws[..|ws| - 1]) + if ws[|ws| - 1].Exited? then 0 else 1
  }

  ghost function Alive(f: Flow): nat {
    AliveWorkers(f.workers) + (if f.reader.Gone? then 0 else 1) + (if f.logReader.Gone? then 0 else 1)
  }

  function Started(cfg: Config): nat {
    cfg.numWorkers + 1 + if cfg.logsEnabled then 1 else 0
  }

  lemma {:induction false} AliveUpdate(ws: seq<Worker>, w: nat, x: Worker)
    requires w < |ws|
    ensures AliveWorkers(ws[w := x]) + (if ws[w].Exited? then 0 else 1) == AliveWorkers(ws) + (if x.Exited? then 0 else 1)
  {
    var n := |ws| - 1;
    if w == n {
      assert ws[w := x][..n] == ws[..n];
    } else {
      assert ws[w := x][..n] == ws[..n][w := x];
      AliveUpdate(ws[..n], w, x);
    }
  }

  lemma {:induction false} AliveMember(ws: seq<Worker>, w: nat)
    requires w < |ws| && !ws[w].Exited?
    ensures AliveWorkers(ws) >= 1
  {
    if w == |ws| - 1 {
    } else {
      AliveMember(ws[..|ws| - 1], w);
    }
  }

  ghost predicate BeforeStop(p: Phase) {
    match p
    case Running => true
    case PostingMetrics(_, _, _, final) => !final
    case BeforeLogs(final) => !final
    case PostingLogs(_, _, final) => !final
    case _ => false
  }

  /** One token per goroutine that exited, none before stopWorkers, all of them after it unless it timed out. */
  ghost predicate StopInv(cfg: Config, f: Flow, m: Main) {
    && Alive(f) + m.tokens == Started(cfg)
    && m.tokens <= TokensPlanned(cfg)
    && (BeforeStop(m.phase) ==> m.tokens == 0)
    && (BeforeStop(m.phase) || m.phase.Stopping? ==> !m.timedOut)
    && (!BeforeStop(m.phase) && !m.phase.Stopping? && !m.timedOut ==> m.tokens == TokensPlanned(cfg))
  }

  lemma StopKept(cfg: Config, f: Flow, st: Store, m: Main, step: Step)
    requires StopInv(cfg, f, m) && FlowEnabled(cfg, f, step) && MainEnabled(cfg, m, step)
    ensures StopInv(cfg, FlowDo(cfg, f, step), MainDo(cfg, st, m, step))
  {
    match step
    case Take(w, o) => AliveUpdate(f.workers, w, Working(o));
    case WorkerSend(w) => AliveUpdate(f.workers, w, Ready);
    case Token(WorkerTarget(w)) => AliveUpdate(f.workers, w, Exited);
    case _ =>
  }

  ghost predicate Acts(step: Step, target: Target) {
    match target
    case WorkerTarget(w) => (step.Take? && step.w == w) || (step.WorkerSend? && step.w == w) || step == Token(target)
    case ReaderTarget => step.ReadMetrics? || step.FoldMetrics? || step == Token(target)
    case LogReaderTarget => step.ReadLog? || step.FoldLog? || step == Token(target)
  }

  ghost predicate IsGone(f: Flow, target: Target) {
    match target
    case WorkerTarget(w) => w < |f.workers| && f.workers[w].Exited?
    case ReaderTarget => f.reader.Gone?
    case LogReaderTarget => f.logReader.Gone?
  }

  lemma GoneNeverActs(cfg: Config, f: Flow, step: Step, target: Target)
    requires FlowEnabled(cfg, f, step) && IsGone(f, target)
    ensures !Acts(step, target)
    ensures IsGone(FlowDo(cfg, f, step), target)
  {
  }

  lemma {:induction false} PrefixRuns(cfg: Config, steps: seq<Step>, n: nat)
    requires After(cfg, steps).Some? && n <= |steps|
    ensures After(cfg, steps[..n]).Some?
  {
    if n < |steps| {
      assert steps[..|steps| - 1][..n] == steps[..n];
      PrefixRuns(cfg, steps[..|steps| - 1], n);
    } else {
      assert steps[..n] == steps;
    }
  }

  lemma TokenTaken(cfg: Config, f: Flow, target: Target)
    requires FlowEnabled(cfg, f, Token(target))
    ensures IsGone(FlowDo(cfg, f, Token(target)), target)
  {
  }

  lemma {:induction false} GoneAfterToken(cfg: Config, steps: seq<Step>, i: nat, target: Target)
    requires After(cfg, steps).Some? && i < |steps| && steps[i] == Token(target)
    ensures IsGone(After(cfg, steps).value.flow, target)
  {
    var front := steps[..|steps| - 1];
    var f := After(cfg, front).value.flow;
    if i < |front| {
      GoneAfterToken(cfg, front, i, target);
      GoneNeverActs(cfg, f, steps[|front|], target);
    } else {
      TokenTaken(cfg, f, target);
    }
  }

  /** In every run a goroutine takes at most one token, and takes no part in any step after it. */
  lemma NoActionAfterToken(cfg: Config, steps: seq<Step>, i: nat, j: nat, target: Target)
    requires After(cfg, steps).Some? && i < j < |steps| && steps[i] == Token(target)
    ensures !Acts(steps[j], target)
  {
    PrefixRuns(cfg, steps, j);
    PrefixRuns(cfg, steps, j + 1);
    assert steps[..j + 1][..j] == steps[..j];
    GoneAfterToken(cfg, steps[..j], i, target);
    GoneNeverActs(cfg, After(cfg, steps[..j]).value.flow, steps[j], target);
  }

  // ---------------------------------------------------------------- after the final flush

  ghost predicate MetricsTakenFinally(p: Phase) {
    match p
    case PostingMetrics(_, _, _, final) => final
    case BeforeLogs(final) => final
    case PostingLogs(_, _, final) => final
    case Done => true
    case _ => false
  }

  ghost predicate LogsTakenFinally(cfg: Config, p: Phase) {
    (p.PostingLogs? && p.final) || (p.Done? && cfg.logsEnabled)
  }

  /** Once all goroutines are gone nothing is folded after the final flush has emptied the map and the buffer. */
  ghost predicate FinalInv(cfg: Config, f: Flow, st: Store, m: Main) {
    && |f.workers| == cfg.numWorkers
    && (Alive(f) == 0 && MetricsTakenFinally(m.phase) ==> st.current == [])
    && (Alive(f) == 0 && LogsTakenFinally(cfg, m.phase) ==> st.logsBuffer == [])
    && (MetricsTakenFinally(m.phase) || m.phase.Halted? ==> !BeforeStop(m.phase))
    && (!LogsPossible(cfg) ==> NoLogs(f))
  }

  ghost predicate NoLogs(f: Flow) {
    && f.sentLogs == [] && f.logQueue == [] && f.dequeuedLogs == [] && !f.logReader.Folding?
    && forall w :: 0 <= w < |f.workers| ==> !f.workers[w].SendingLog?
  }

  lemma LogsNeedEnabling(cfg: Config, e: Envelopes.Envelope, o: Outcome)
    requires MayYield(cfg, e, o) && o.Log?
    ensures cfg.logsEnabled
  {
  }

  lemma NoLogsKept(cfg: Config, f: Flow, step: Step)
    requires NoLogs(f) && FlowEnabled(cfg, f, step)
    requires step.Take? ==> !step.o.Log?
    ensures NoLogs(FlowDo(cfg, f, step))
  {
  }

  /** Gone goroutines stay gone, so only a step with someone alive can leave someone alive. */
  lemma AliveShrinks(cfg: Config, f: Flow, step: Step)
    requires FlowEnabled(cfg, f, step)
    ensures Alive(FlowDo(cfg, f, step)) == Alive(f) - (if step.Token? then 1 else 0)
    ensures step.FoldMetrics? || step.FoldLog? ==> Alive(f) >= 1
  {
    match step
    case Take(w, o) => AliveUpdate(f.workers, w, Working(o));
    case WorkerSend(w) => AliveUpdate(f.workers, w, Ready);
    case Token(WorkerTarget(w)) =>
      AliveUpdate(f.workers, w, Exited);
      AliveMember(f.workers, w);
    case _ =>
  }

  lemma FinalKept(cfg: Config, f: Flow, st: Store, m: Main, step: Step)
    requires FinalInv(cfg, f, st, m) && FlowEnabled(cfg, f, step) && MainEnabled(cfg, m, step)
    requires step.Take? && step.o.Log? ==> cfg.logsEnabled
    ensures FinalInv(cfg, FlowDo(cfg, f, step), StoreDo(cfg, f, st, step), MainDo(cfg, st, m, step))
  {
    AliveShrinks(cfg, f, step);
    if !LogsPossible(cfg) {
      NoLogsKept(cfg, f, step);
    }
  }

  // ---------------------------------------------------------------- all runs

  ghost predicate Inv(cfg: Config, s: State) {
    && FlowInv(s.flow)
    && MapInv(s.store) && BufferInv(s.store) && ReadersInv(s.flow, s.store)
    && MetricDeliveryInv(cfg, s.store, s.main) && LogDeliveryInv(cfg, s.store, s.main)
    && StopInv(cfg, s.flow, s.main)
    && FinalInv(cfg, s.flow, s.store, s.main)
  }

  lemma {:induction false} FreshWorkers(n: nat)
    ensures var ws := seq(n, _ => Worker.Ready);
            AliveWorkers(ws) == n && HeldMetrics(ws) == multiset{} && HeldLogs(ws) == multiset{}
  {
    if n == 0 {
    } else {
      assert seq(n, _ => Worker.Ready)[..n - 1] == seq(n - 1, _ => Worker.Ready);
      FreshWorkers(n - 1);
    }
  }

  lemma InitFlow(cfg: Config)
    ensures FlowInv(Init(cfg).flow)
    ensures AliveWorkers(Init(cfg).flow.workers) == cfg.numWorkers
  {
    FreshWorkers(cfg.numWorkers);
  }

  lemma InitStore(cfg: Config)
    ensures MapInv(Init(cfg).store) && BufferInv(Init(cfg).store) && ReadersInv(Init(cfg).flow, Init(cfg).store)
  {
    assert MetricsOf([]) == [];
  }

  lemma InitInv(cfg: Config)
    ensures Inv(cfg, Init(cfg))
  {
    InitFlow(cfg);
    InitStore(cfg);
  }

  lemma {:induction false} NothingFlattens(batches: seq<seq<LogMessage>>)
    requires Flatten(batches) == []
    ensures !SomeLog(batches)
  {
    if batches == [] {
    } else {
      var n := |batches| - 1;
      NothingFlattens(batches[..n]);
      assert forall i :: 0 <= i < n ==> batches[..n][i] == batches[i];
    }
  }

  /** Where no log can be made, no client is handed one. */
  lemma LogsNeedSource(cfg: Config, f: Flow, st: Store, m: Main)
    requires BufferInv(st) && ReadersInv(f, st) && LogDeliveryInv(cfg, st, m) && FinalInv(cfg, f, st, m)
    ensures LogsExplained(cfg, m)
  {
    if !LogsPossible(cfg) {
      assert Flatten(st.logBatches) == [];
      NothingFlattens(st.logBatches);
    }
  }

  lemma StepInv(cfg: Config, s: State, step: Step)
    requires Inv(cfg, s) && Enabled(cfg, s, step)
    ensures Inv(cfg, Do(cfg, s, step))
  {
    var f, st, m := s.flow, s.store, s.main;
    QueuesKept(cfg, f, step);
    PackagesKept(cfg, f, step);
    LogsKept(cfg, f, step);
    MapKept(cfg, f, st, step);
    BufferKept(cfg, f, st, step);
    ReadersKept(cfg, f, st, step);
    LogsNeedSource(cfg, f, st, m);
    MetricDeliveryKept(cfg, f, st, m, step);
    LogDeliveryKept(cfg, f, st, m, step);
    StopKept(cfg, f, st, m, step);
    if step.Take? && step.o.Log? {
      LogsNeedEnabling(cfg, f.messages[0], step.o);
    }
    FinalKept(cfg, f, st, m, step);
  }

  /** Main result: the invariants hold after every run, whatever the interleaving and the outcomes. */
  lemma {:induction false} RunInv(cfg: Config, steps: seq<Step>)
    requires After(cfg, steps).Some?
    ensures Inv(cfg, After(cfg, steps).value)
  {
    if steps == [] {
      InitInv(cfg);
    } else {
      RunInv(cfg, steps[..|steps| - 1]);
      StepInv(cfg, After(cfg, steps[..|steps| - 1]).value, steps[|steps| - 1]);
    }
  }

  /** In every reachable state each dequeued point is in a snapshot, in the map or in the reader's hands. */
  lemma NothingLost(cfg: Config, steps: seq<Step>, key: MetricKey)
    requires After(cfg, steps).Some?
    ensures var s := After(cfg, steps).value;
            PointsAcross(s.store.snapshots, key) + PointsOf(s.store.metricsMap, key)
            + Carried(s.flow.reader.Held(), key) == Carried(s.flow.dequeuedMetrics, key)
            && Flatten(s.store.logBatches) + s.store.logsBuffer + s.flow.logReader.Held() == s.flow.dequeuedLogs
  {
    RunInv(cfg, steps);
    var s := After(cfg, steps).value;
    FlushesKeepPoints(s.flow, s.store, key);
  }

  /** In every reachable state envelopes and packages add up, and totalMessagesReceived counts what was folded. */
  lemma CountsAddUp(cfg: Config, steps: seq<Step>)
    requires After(cfg, steps).Some?
    ensures var s := After(cfg, steps).value; var f := s.flow;
            |f.arrived| == |f.taken| + |f.messages|
            && |f.taken| + |f.orgCollected|
               == Discarded(f.taken) + |HeldMetrics(f.workers)| + |HeldLogs(f.workers)| + |f.orgPending|
                  + |f.sentMetrics| + |f.sentLogs|
            && |f.sentMetrics| + |f.sentLogs|
               == s.store.received + |f.metricQueue| + |f.logQueue| + |f.reader.Held()| + |f.logReader.Held()|
            && |f.messages| <= 10000 && |f.metricQueue| <= 1000 && |f.logQueue| <= 1000
  {
    RunInv(cfg, steps);
    EnvelopesAccounted(After(cfg, steps).value.flow);
  }

  // ---------------------------------------------------------------- shutdown

  ghost predicate Stopped(p: Phase) {
    !BeforeStop(p) && !p.Stopping?
  }

  /**
   * stopWorkers never sends more tokens than planned. If it returns without a timeout, as many goroutines are left
   * as the log reader was started without a token being planned for it; a token planned without a log reader
   * cannot be delivered, so that configuration always times out.
   */
  lemma StopOutcome(cfg: Config, steps: seq<Step>)
    requires After(cfg, steps).Some?
    ensures var s := After(cfg, steps).value;
            s.main.tokens <= TokensPlanned(cfg)
            && (Stopped(s.main.phase) && !s.main.timedOut ==>
                  (Alive(s.flow) == 0 <==> cfg.logsEnabled == cfg.logIntake)
                  && Alive(s.flow) == (if cfg.logsEnabled && !cfg.logIntake then 1 else 0)
                  && (cfg.logIntake ==> cfg.logsEnabled))
  {
    RunInv(cfg, steps);
  }

  /** What is left of the points under a key when each overlay is written over its snapshot. */
  ghost function Surviving(snapshots: seq<Entries>, overlays: seq<Entries>, key: MetricKey): seq<Point>
    requires |snapshots| == |overlays|
  {
    if snapshots == [] then []
    else
      var n := |snapshots| - 1;
      Surviving(snapshots[..n], overlays[..n], key)
      + if key in overlays[n] then PointsOf(overlays[n], key) else PointsOf(snapshots[n], key)
  }

  lemma {:induction false} DeliveredPoints(cfg: Config, n: nat, delivered: seq<Entries>, overlays: seq<Entries>,
                                           snapshots: seq<Entries>, key: MetricKey)
    requires Handed(cfg, n, delivered, overlays, snapshots)
    ensures PointsAcross(delivered, key) == Surviving(snapshots, overlays, key)
  {
    if delivered == [] {
    } else {
      var last := |delivered| - 1;
      DeliveredPoints(cfg, n, delivered[..last], overlays[..last], snapshots[..last], key);
      assert Overlaid(cfg, n, delivered[last], overlays[last], snapshots[last]);
    }
  }

  ghost predicate InNone(overlays: seq<Entries>, key: MetricKey) {
    forall i :: 0 <= i < |overlays| ==> key !in overlays[i]
  }

  ghost predicate InAll(overlays: seq<Entries>, key: MetricKey) {
    forall i :: 0 <= i < |overlays| ==> key in overlays[i]
  }

  /** A key that is never written over keeps all its points; one that always is keeps none. */
  lemma {:induction false} SurvivingPoints(snapshots: seq<Entries>, overlays: seq<Entries>, key: MetricKey)
    requires |snapshots| == |overlays|
    ensures InNone(overlays, key) ==> Surviving(snapshots, overlays, key) == PointsAcross(snapshots, key)
    ensures InAll(overlays, key) ==> Surviving(snapshots, overlays, key) == PointsAcross(overlays, key)
  {
    if snapshots == [] {
    } else {
      SurvivingPoints(snapshots[..|snapshots| - 1], overlays[..|snapshots| - 1], key);
    }
  }

  /** Keys of nobody's own are never written over; gauges of this client or one before it always are. */
  lemma OverlaidKeys(cfg: Config, n: nat, delivered: seq<Entries>, overlays: seq<Entries>, snapshots: seq<Entries>,
                     key: MetricKey)
    requires Handed(cfg, n, delivered, overlays, snapshots)
    ensures !Own(cfg, n, key) ==> InNone(overlays, key)
    ensures (exists i: nat :: i < n && key in cfg.gaugeKeys(i)) ==> InAll(overlays, key)
  {
    forall i | 0 <= i < |overlays| ensures OverlayOf(cfg, n, overlays[i]) {
      assert Overlaid(cfg, n, delivered[i], overlays[i], snapshots[i]);
    }
  }

  lemma QuietMap(f: Flow, st: Store, key: MetricKey)
    requires MapInv(st) && BufferInv(st) && ReadersInv(f, st) && f.reader.Gone? && st.current == []
    ensures PointsAcross(st.snapshots, key) == Carried(f.dequeuedMetrics, key)
  {
    FlushesKeepPoints(f, st, key);
    assert MetricsOf([]) == [];
  }

  lemma QuietBuffer(cfg: Config, f: Flow, st: Store)
    requires BufferInv(st) && f.dequeuedLogs == st.foldedLogs + f.logReader.Held() && f.logReader.Gone?
    requires st.logsBuffer == [] || f.dequeuedLogs == []
    ensures Flatten(st.logBatches) == f.dequeuedLogs
  {
  }

  /** Nobody is left and the final flush is over: everything dequeued is in the flushes. */
  lemma QuietDone(cfg: Config, s: State, key: MetricKey)
    requires MapInv(s.store) && BufferInv(s.store) && ReadersInv(s.flow, s.store)
    requires FinalInv(cfg, s.flow, s.store, s.main) && Alive(s.flow) == 0 && s.main.phase.Done?
    ensures PointsAcross(s.store.snapshots, key) == Carried(s.flow.dequeuedMetrics, key)
    ensures Flatten(s.store.logBatches) == s.flow.dequeuedLogs
  {
    QuietMap(s.flow, s.store, key);
    QuietBuffer(cfg, s.flow, s.store);
  }

  lemma EveryClientHasAll(cfg: Config, st: Store, m: Main, c: nat, key: MetricKey)
    requires MetricDeliveryInv(cfg, st, m) && LogDeliveryInv(cfg, st, m) && m.phase.Done? && c < cfg.clients
    ensures |m.overlays[c]| == |st.snapshots|
    ensures PointsAcross(m.metricDeliveries[c], key) == Surviving(st.snapshots, m.overlays[c], key)
    ensures m.logDeliveries[c] == st.logBatches
  {
    DeliveredPoints(cfg, c + 1, m.metricDeliveries[c], m.overlays[c], st.snapshots, key);
  }

  /** The nozzle ended without a timeout. */
  ghost predicate Clean(cfg: Config, steps: seq<Step>) {
    After(cfg, steps).Some? && After(cfg, steps).value.main.phase.Done? && !After(cfg, steps).value.main.timedOut
  }

  /** What client c has been handed under a key, and all logs. */
  ghost predicate HandedAll(s: State, c: nat, key: MetricKey) {
    && c < |s.main.metricDeliveries| && c < |s.main.overlays| && c < |s.main.logDeliveries|
    && |s.main.overlays[c]| == |s.store.snapshots|
    && PointsAcross(s.store.snapshots, key) == Carried(s.flow.dequeuedMetrics, key)
    && PointsAcross(s.main.metricDeliveries[c], key) == Surviving(s.store.snapshots, s.main.overlays[c], key)
    && (InNone(s.main.overlays[c], key) ==>
          PointsAcross(s.main.metricDeliveries[c], key) == Carried(s.flow.dequeuedMetrics, key))
    && Flatten(s.main.logDeliveries[c]) == s.flow.dequeuedLogs
  }

  /**
   * With matching log configuration and no timeout, once the nozzle is done every client has been handed, exactly
   * once and in order, every dequeued log and every point of every dequeued package, save those of a flush in which
   * it or an earlier client was told one of the nozzle's own metrics under the point's key.
   */
  lemma CleanShutdownDeliversAll(cfg: Config, steps: seq<Step>, c: nat, key: MetricKey)
    requires Clean(cfg, steps) && cfg.logsEnabled == cfg.logIntake && c < cfg.clients
    ensures HandedAll(After(cfg, steps).value, c, key)
  {
    RunInv(cfg, steps);
    StopOutcome(cfg, steps);
    var s := After(cfg, steps).value;
    QuietDone(cfg, s, key);
    EveryClientHasAll(cfg, s.store, s.main, c, key);
    SurvivingPoints(s.store.snapshots, s.main.overlays[c], key);
  }

  /** What client c's finished turns belong to. */
  ghost function Turns(s: State, c: nat): seq<Entries> {
    var all := s.store.snapshots;
    if s.main.phase.PostingMetrics? && c >= s.main.phase.client && all != [] then all[..|all| - 1] else all
  }

  lemma HandedTurns(cfg: Config, steps: seq<Step>, c: nat)
    requires After(cfg, steps).Some? && c < cfg.clients
    ensures var s := After(cfg, steps).value;
            |s.main.metricDeliveries| == |s.main.overlays| == cfg.clients
            && Handed(cfg, c + 1, s.main.metricDeliveries[c], s.main.overlays[c], Turns(s, c))
  {
    RunInv(cfg, steps);
  }

  /** In every state of every run, a client's flushes overwrite no key that is not its own or an earlier client's. */
  lemma OthersUntouched(cfg: Config, steps: seq<Step>, c: nat, key: MetricKey)
    requires After(cfg, steps).Some? && c < cfg.clients
    ensures var m := After(cfg, steps).value.main;
            c < |m.overlays| && (!Own(cfg, c + 1, key) ==> InNone(m.overlays[c], key))
  {
    HandedTurns(cfg, steps, c);
    var s := After(cfg, steps).value;
    OverlaidKeys(cfg, c + 1, s.main.metricDeliveries[c], s.main.overlays[c], Turns(s, c), key);
  }

  lemma GaugeOverwritten(cfg: Config, n: nat, delivered: seq<Entries>, overlays: seq<Entries>, snapshots: seq<Entries>,
                         j: nat, key: MetricKey)
    requires Handed(cfg, n, delivered, overlays, snapshots) && j < n && key in cfg.gaugeKeys(j)
    ensures PointsAcross(delivered, key) == PointsAcross(overlays, key)
  {
    OverlaidKeys(cfg, n, delivered, overlays, snapshots, key);
    DeliveredPoints(cfg, n, delivered, overlays, snapshots, key);
    SurvivingPoints(snapshots, overlays, key);
  }

  /** Nothing the firehose sends under the key of a gauge of this or an earlier client ever reaches the client. */
  lemma GaugesAlwaysOverwrite(cfg: Config, steps: seq<Step>, c: nat, j: nat, key: MetricKey)
    requires After(cfg, steps).Some? && j <= c < cfg.clients && key in cfg.gaugeKeys(j)
    ensures var m := After(cfg, steps).value.main;
            c < |m.metricDeliveries| && c < |m.overlays|
            && PointsAcross(m.metricDeliveries[c], key) == PointsAcross(m.overlays[c], key)
  {
    HandedTurns(cfg, steps, c);
    var s := After(cfg, steps).value;
    GaugeOverwritten(cfg, c + 1, s.main.metricDeliveries[c], s.main.overlays[c], Turns(s, c), j, key);
  }
}
