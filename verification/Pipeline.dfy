/**
 * The nozzle's goroutines as a state machine over their atomic steps (internal/nozzle/nozzle.go and workers.go,
 * internal/processor/processor.go). A step names the goroutine that moves and its nondeterministic choices.
 */
module Pipeline {
  import opened Sequences
  import opened Metrics
  import opened Envelopes
  import opened LogFormatter
  import InfraParser
  import Util

  /** What one send on processedMetrics carries. */
  datatype Package = Package(metrics: seq<MetricPackage>)

  const MESSAGES_CAP: nat := 10000
  const PROCESSED_CAP: nat := 1000

  /**
   * logIntake: a log intake URL or an additional log intake endpoint is configured. gaugeKeys(i), metricCountKeys(i)
   * and logCountKeys(i): the keys of the nozzle's own gauges and of its counts of metrics and logs, as client i makes
   * them.
   */
  datatype Config = Config(
    numWorkers: nat, deploymentFilter: string, logsEnabled: bool, logIntake: bool, clients: nat,
    gaugeKeys: nat -> set<MetricKey>, metricCountKeys: nat -> set<MetricKey>, logCountKeys: nat -> set<MetricKey>,
    parser: InfraParser.Config)

  // ---------------------------------------------------------------- one envelope

  datatype Outcome =
    | Filtered
    | OptedOut
    | Unparseable
    | Metrics(pkg: Package)
    | Log(msg: LogMessage)

  predicate KeepMessage(cfg: Config, e: Envelope) {
    cfg.deploymentFilter == "" || cfg.deploymentFilter == e.TagOrEmpty("deployment")
  }

  /** A worker makes at most one package or log message of an envelope; app metrics depend on the app cache. */
  ghost predicate MayYield(cfg: Config, e: Envelope, o: Outcome) {
    if !KeepMessage(cfg, e) then o.Filtered?
    else if cfg.logsEnabled && e.message.Log? then o.Log? || o.OptedOut?
    else if InfraParser.InfraEnvelope(e) then
      o.Metrics? && InfraParser.NoNilValues(e)
      && exists tagOrder, valueOrder ::
           Enumerates(tagOrder, e.tags.Keys) && Enumerates(valueOrder, InfraParser.Values(e).Keys)
           && o.pkg.metrics == InfraParser.Parsed(e, cfg.parser, tagOrder, valueOrder)
    else if Util.ContainerMetric(e) then o.Metrics? || o.Unparseable?
    else o.Unparseable?
  }

  // ---------------------------------------------------------------- state

  datatype Worker = Ready | SendingMetrics(pkg: Package) | SendingLog(msg: LogMessage) | Exited

  datatype Reader<T> = Waiting | Folding(item: T) | Gone {
    ghost function Held(): seq<T> {
      if Folding? then [item] else []
    }
  }

  /** Channels, workers, readers and pending org pushes; the last seven fields are history. */
  datatype Flow = Flow(
    messages: seq<Envelope>,
    workers: seq<Worker>,
    orgPending: seq<Package>,
    metricQueue: seq<Package>,
    logQueue: seq<LogMessage>,
    reader: Reader<Package>,
    logReader: Reader<LogMessage>,
    arrived: seq<Envelope>,
    taken: seq<(Envelope, Outcome)>,
    orgCollected: seq<Package>,
    sentMetrics: seq<Package>,
    sentLogs: seq<LogMessage>,
    dequeuedMetrics: seq<Package>,
    dequeuedLogs: seq<LogMessage>)

  /** What mapLock protects; the last five fields are history. */
  datatype Store = Store(
    metricsMap: Entries,
    logsBuffer: seq<LogMessage>,
    received: nat,
    epochs: seq<seq<Package>>,
    current: seq<Package>,
    snapshots: seq<Entries>,
    logBatches: seq<seq<LogMessage>>,
    foldedLogs: seq<LogMessage>)

  /**
   * Where the main goroutine is; `final` marks the flush after shutdown. `overlay` is history: what the clients so
   * far have written over the snapshot.
   */
  datatype Phase =
    | Running
    | PostingMetrics(batch: Entries, overlay: Entries, client: nat, final: bool)
    | BeforeLogs(final: bool)
    | PostingLogs(logs: seq<LogMessage>, client: nat, final: bool)
    | Stopping
    | Halted
    | Done

  /** The last three fields are history: per client the batches handed over and the overlays they contain. */
  datatype Main = Main(
    phase: Phase,
    tokens: nat,
    timedOut: bool,
    metricDeliveries: seq<seq<Entries>>,
    overlays: seq<seq<Entries>>,
    logDeliveries: seq<seq<seq<LogMessage>>>)

  datatype State = State(flow: Flow, store: Store, main: Main)

  function Init(cfg: Config): State {
    State(
      Flow([], seq(cfg.numWorkers, _ => Ready), [], [], [], Waiting, if cfg.logsEnabled then Waiting else Gone,
           [], [], [], [], [], [], []),
      Store(map[], [], 0, [], [], [], [], []),
      Main(Running, 0, false, seq(cfg.clients, _ => []), seq(cfg.clients, _ => []), seq(cfg.clients, _ => [])))
  }

  // ---------------------------------------------------------------- steps

  datatype Target = WorkerTarget(w: nat) | ReaderTarget | LogReaderTarget

  datatype Step =
    | Deliver(e: Envelope)
    | Take(w: nat, o: Outcome)
    | WorkerSend(w: nat)
    | OrgCollect(pkg: Package)
    | OrgSend(i: nat)
    | ReadMetrics
    | FoldMetrics
    | ReadLog
    | FoldLog
    | TakeMetrics
    | PostMetrics(internals: Entries)
    | MetricsPosted
    | TakeLogs
    | PostLogs
    | LogsPosted
    | StopSignal
    | Token(target: Target)
    | Timeout
    | StopDone

  /** The number of stop tokens stopWorkers tries to send. */
  function TokensPlanned(cfg: Config): nat {
    cfg.numWorkers + 1 + if cfg.logIntake then 1 else 0
  }

  ghost predicate FlowEnabled(cfg: Config, f: Flow, step: Step) {
    match step
    case Deliver(_) => |f.messages| < MESSAGES_CAP
    case Take(w, o) => w < |f.workers| && f.workers[w].Ready? && f.messages != []
    case WorkerSend(w) =>
      w < |f.workers|
      && ((f.workers[w].SendingMetrics? && |f.metricQueue| < PROCESSED_CAP)
          || (f.workers[w].SendingLog? && |f.logQueue| < PROCESSED_CAP))
    case OrgSend(i) => i < |f.orgPending| && |f.metricQueue| < PROCESSED_CAP
    case ReadMetrics => f.reader.Waiting? && f.metricQueue != []
    case FoldMetrics => f.reader.Folding?
    case ReadLog => f.logReader.Waiting? && f.logQueue != []
    case FoldLog => f.logReader.Folding?
    case Token(WorkerTarget(w)) => w < |f.workers| && f.workers[w].Ready?
    case Token(ReaderTarget) => f.reader.Waiting?
    case Token(LogReaderTarget) => f.logReader.Waiting?
    case _ => true
  }

  /** Some of these log batches has a log. */
  ghost predicate SomeLog(batches: seq<seq<LogMessage>>) {
    exists i :: 0 <= i < |batches| && batches[i] != []
  }

  /**
   * A client is always told the gauges, counts of metrics at the earliest in its second flush and counts of logs at
   * the earliest when it has been handed a log; the counters themselves are not part of the machine.
   */
  ghost predicate MayTell(cfg: Config, client: nat, flushed: seq<Entries>, logs: seq<seq<LogMessage>>, internals: Entries)
  {
    && cfg.gaugeKeys(client) <= internals.Keys
    && forall k :: k in internals ==>
         || k in cfg.gaugeKeys(client)
         || (k in cfg.metricCountKeys(client) && flushed != [])
         || (k in cfg.logCountKeys(client) && SomeLog(logs))
  }

  ghost predicate MainEnabled(cfg: Config, m: Main, step: Step) {
    match step
    case TakeMetrics => m.phase.Running? || m.phase.Halted?
    case PostMetrics(internals) =>
      var c := if m.phase.PostingMetrics? then m.phase.client else 0;
      m.phase.PostingMetrics? && c < |m.metricDeliveries| && c < |m.overlays| && c < |m.logDeliveries|
      && MayTell(cfg, c, m.overlays[c], m.logDeliveries[c], internals)
    case MetricsPosted => m.phase.PostingMetrics? && m.phase.client >= cfg.clients
    case TakeLogs => m.phase.BeforeLogs? && (m.phase.final ==> cfg.logsEnabled)
    case PostLogs => m.phase.PostingLogs? && m.phase.client < |m.logDeliveries|
    case LogsPosted => m.phase.PostingLogs? && m.phase.client >= cfg.clients
    case StopSignal => m.phase.Running?
    case Token(_) => m.phase.Stopping? && m.tokens < TokensPlanned(cfg)
    case Timeout => m.phase.Stopping? && m.tokens < TokensPlanned(cfg)
    case StopDone => m.phase.Stopping? && m.tokens >= TokensPlanned(cfg)
    case _ => true
  }

  ghost predicate Enabled(cfg: Config, s: State, step: Step) {
    FlowEnabled(cfg, s.flow, step) && MainEnabled(cfg, s.main, step)
    && (step.Take? ==> MayYield(cfg, s.flow.messages[0], step.o))
  }

  ghost function Working(o: Outcome): Worker {
    match o
    case Metrics(pkg) => SendingMetrics(pkg)
    case Log(msg) => SendingLog(msg)
    case _ => Ready
  }

  ghost function FlowDo(cfg: Config, f: Flow, step: Step): Flow
    requires FlowEnabled(cfg, f, step)
  {
    match step
    case Deliver(e) => f.(messages := f.messages + [e], arrived := f.arrived + [e])
    case Take(w, o) =>
      f.(messages := f.messages[1..], workers := f.workers[w := Working(o)], taken := f.taken + [(f.messages[0], o)])
    case WorkerSend(w) =>
      if f.workers[w].SendingMetrics? then
        var pkg := f.workers[w].pkg;
        f.(workers := f.workers[w := Ready], metricQueue := f.metricQueue + [pkg], sentMetrics := f.sentMetrics + [pkg])
      else
        var msg := f.workers[w].msg;
        f.(workers := f.workers[w := Ready], logQueue := f.logQueue + [msg], sentLogs := f.sentLogs + [msg])
    case OrgCollect(pkg) => f.(orgPending := f.orgPending + [pkg], orgCollected := f.orgCollected + [pkg])
    case OrgSend(i) =>
      var pkg := f.orgPending[i];
      f.(orgPending := f.orgPending[..i] + f.orgPending[i + 1..],
         metricQueue := f.metricQueue + [pkg], sentMetrics := f.sentMetrics + [pkg])
    case ReadMetrics =>
      var pkg := f.metricQueue[0];
      f.(metricQueue := f.metricQueue[1..], reader := Folding(pkg), dequeuedMetrics := f.dequeuedMetrics + [pkg])
    case FoldMetrics => f.(reader := Waiting)
    case ReadLog =>
      var msg := f.logQueue[0];
      f.(logQueue := f.logQueue[1..], logReader := Folding(msg), dequeuedLogs := f.dequeuedLogs + [msg])
    case FoldLog => f.(logReader := Waiting)
    case Token(WorkerTarget(w)) => f.(workers := f.workers[w := Exited])
    case Token(ReaderTarget) => f.(reader := Gone)
    case Token(LogReaderTarget) => f.(logReader := Gone)
    case _ => f
  }

  ghost function StoreDo(cfg: Config, f: Flow, st: Store, step: Step): Store
    requires FlowEnabled(cfg, f, step)
  {
    match step
    case FoldMetrics =>
      st.(metricsMap := AddedAll(st.metricsMap, f.reader.item.metrics), received := st.received + 1,
          current := st.current + [f.reader.item])
    case FoldLog =>
      st.(logsBuffer := st.logsBuffer + [f.logReader.item], received := st.received + 1,
          foldedLogs := st.foldedLogs + [f.logReader.item])
    case TakeMetrics =>
      st.(metricsMap := map[], snapshots := st.snapshots + [st.metricsMap],
          epochs := st.epochs + [st.current], current := [])
    case TakeLogs =>
      st.(logsBuffer := [], logBatches := st.logBatches + [st.logsBuffer])
    case _ => st
  }

  ghost function MainDo(cfg: Config, st: Store, m: Main, step: Step): Main
    requires MainEnabled(cfg, m, step)
  {
    match step
    case TakeMetrics => m.(phase := PostingMetrics(st.metricsMap, map[], 0, m.phase.Halted?))
    case PostMetrics(internals) =>
      var batch, overlay, c := m.phase.batch + internals, m.phase.overlay + internals, m.phase.client;
      m.(phase := PostingMetrics(batch, overlay, c + 1, m.phase.final),
         metricDeliveries := m.metricDeliveries[c := m.metricDeliveries[c] + [batch]],
         overlays := m.overlays[c := m.overlays[c] + [overlay]])
    case MetricsPosted =>
      m.(phase := if m.phase.final && !cfg.logsEnabled then Done else BeforeLogs(m.phase.final))
    case TakeLogs => m.(phase := PostingLogs(st.logsBuffer, 0, m.phase.final))
    case PostLogs =>
      var c := m.phase.client;
      m.(phase := PostingLogs(m.phase.logs, c + 1, m.phase.final),
         logDeliveries := m.logDeliveries[c := m.logDeliveries[c] + [m.phase.logs]])
    case LogsPosted => m.(phase := if m.phase.final then Done else Running)
    case StopSignal => m.(phase := Stopping)
    case Token(_) => m.(tokens := m.tokens + 1)
    case Timeout => m.(phase := Halted, timedOut := true)
    case StopDone => m.(phase := Halted)
    case _ => m
  }

  ghost function Do(cfg: Config, s: State, step: Step): State
    requires Enabled(cfg, s, step)
  {
    State(FlowDo(cfg, s.flow, step), StoreDo(cfg, s.flow, s.store, step), MainDo(cfg, s.store, s.main, step))
  }

  /** The state after a run, or None when some step was not enabled. */
  ghost function After(cfg: Config, steps: seq<Step>): Option<State> {
    if steps == [] then Some(Init(cfg))
    else
      match After(cfg, steps[..|steps| - 1])
      case None => None
      case Some(s) =>
        if Enabled(cfg, s, steps[|steps| - 1]) then Some(Do(cfg, s, steps[|steps| - 1])) else None
  }

  // ---------------------------------------------------------------- envelopes and packages are conserved

  ghost function PackageOf(o: Outcome): multiset<Package> {
    if o.Metrics? then multiset{o.pkg} else multiset{}
  }

  ghost function LogOf(o: Outcome): multiset<LogMessage> {
    if o.Log? then multiset{o.msg} else multiset{}
  }

  ghost function PackageAt(w: Worker): multiset<Package> {
    if w.SendingMetrics? then multiset{w.pkg} else multiset{}
  }

  ghost function LogAt(w: Worker): multiset<LogMessage> {
    if w.SendingLog? then multiset{w.msg} else multiset{}
  }

  ghost function PackagesTaken(taken: seq<(Envelope, Outcome)>): multiset<Package> {
    if taken == [] then multiset{}
    else PackagesTaken(taken[..|taken| - 1]) + PackageOf(taken[|taken| - 1].1)
  }

  ghost function LogsTaken(taken: seq<(Envelope, Outcome)>): multiset<LogMessage> {
    if taken == [] then multiset{}
    else LogsTaken(taken[..|taken| - 1]) + LogOf(taken[|taken| - 1].1)
  }

  /** Envelopes that were filtered, opted out or could not be parsed. */
  ghost function Discarded(taken: seq<(Envelope, Outcome)>): nat {
    if taken == [] then 0
    else
      Discarded(taken[..|taken| - 1])
      + if taken[|taken| - 1].1.Metrics? || taken[|taken| - 1].1.Log? then 0 else 1
  }

  ghost function HeldMetrics(ws: seq<Worker>): multiset<Package> {
    if ws == [] then multiset{} else HeldMetrics(ws[..|ws| - 1]) + PackageAt(ws[|ws| - 1])
  }

  ghost function HeldLogs(ws: seq<Worker>): multiset<LogMessage> {
    if ws == [] then multiset{} else HeldLogs(ws[..|ws| - 1]) + LogAt(ws[|ws| - 1])
  }

  ghost function EnvelopesOf(taken: seq<(Envelope, Outcome)>): seq<Envelope> {
    Map((t: (Envelope, Outcome)) => t.0, taken)
  }

  /** Channels are FIFO and never exceed their capacity. */
  ghost predicate QueuesInv(f: Flow) {
    && f.arrived == EnvelopesOf(f.taken) + f.messages
    && f.sentMetrics == f.dequeuedMetrics + f.metricQueue
    && f.sentLogs == f.dequeuedLogs + f.logQueue
    && |f.messages| <= MESSAGES_CAP && |f.metricQueue| <= PROCESSED_CAP && |f.logQueue| <= PROCESSED_CAP
  }

  /** Every package made is sent, held by its worker or pending, and only once. */
  ghost predicate PackagesBalance(sent: seq<Package>, ws: seq<Worker>, pending: seq<Package>,
                                  taken: seq<(Envelope, Outcome)>, collected: seq<Package>)
  {
    multiset(sent) + HeldMetrics(ws) + multiset(pending) == PackagesTaken(taken) + multiset(collected)
  }

  ghost predicate LogsBalance(sent: seq<LogMessage>, ws: seq<Worker>, taken: seq<(Envelope, Outcome)>) {
    multiset(sent) + HeldLogs(ws) == LogsTaken(taken)
  }

  ghost predicate PackagesInv(f: Flow) {
    PackagesBalance(f.sentMetrics, f.workers, f.orgPending, f.taken, f.orgCollected)
  }

  ghost predicate LogsInv(f: Flow) {
    LogsBalance(f.sentLogs, f.workers, f.taken)
  }

  ghost predicate FlowInv(f: Flow) {
    QueuesInv(f) && PackagesInv(f) && LogsInv(f)
  }

  lemma HeldMetricsSnoc(front: seq<Worker>, last: Worker, p: Package)
    ensures HeldMetrics(front + [last])[p] == HeldMetrics(front)[p] + PackageAt(last)[p]
  {
    assert (front + [last])[..|front|] == front;
  }

  /** A worker with empty hands turns into x. */
  lemma {:induction false} HeldMetricsGainAt(ws: seq<Worker>, w: nat, x: Worker, p: Package)
    requires w < |ws| && !ws[w].SendingMetrics?
    ensures HeldMetrics(ws[w := x])[p] == HeldMetrics(ws)[p] + PackageAt(x)[p]
  {
    var n := |ws| - 1;
    var front, last := ws[..n], ws[n];
    assert ws == front + [last];
    HeldMetricsSnoc(front, last, p);
    if w == n {
      assert ws[w := x] == front + [x];
      HeldMetricsSnoc(front, x, p);
    } else {
      assert ws[w := x] == front[w := x] + [last];
      HeldMetricsSnoc(front[w := x], last, p);
      HeldMetricsGainAt(front, w, x, p);
    }
  }

  lemma HeldMetricsGain(ws: seq<Worker>, w: nat, x: Worker)
    requires w < |ws| && !ws[w].SendingMetrics?
    ensures HeldMetrics(ws[w := x]) == HeldMetrics(ws) + PackageAt(x)
  {
    forall p ensures HeldMetrics(ws[w := x])[p] == (HeldMetrics(ws) + PackageAt(x))[p] {
      HeldMetricsGainAt(ws, w, x, p);
    }
  }

  lemma HeldLogsSnoc(front: seq<Worker>, last: Worker, m: LogMessage)
    ensures HeldLogs(front + [last])[m] == HeldLogs(front)[m] + LogAt(last)[m]
  {
    assert (front + [last])[..|front|] == front;
  }

  lemma {:induction false} HeldLogsGainAt(ws: seq<Worker>, w: nat, x: Worker, m: LogMessage)
    requires w < |ws| && !ws[w].SendingLog?
    ensures HeldLogs(ws[w := x])[m] == HeldLogs(ws)[m] + LogAt(x)[m]
  {
    var n := |ws| - 1;
    var front, last := ws[..n], ws[n];
    assert ws == front + [last];
    HeldLogsSnoc(front, last, m);
    if w == n {
      assert ws[w := x] == front + [x];
      HeldLogsSnoc(front, x, m);
    } else {
      assert ws[w := x] == front[w := x] + [last];
      HeldLogsSnoc(front[w := x], last, m);
      HeldLogsGainAt(front, w, x, m);
    }
  }

  lemma HeldLogsGain(ws: seq<Worker>, w: nat, x: Worker)
    requires w < |ws| && !ws[w].SendingLog?
    ensures HeldLogs(ws[w := x]) == HeldLogs(ws) + LogAt(x)
  {
    forall m ensures HeldLogs(ws[w := x])[m] == (HeldLogs(ws) + LogAt(x))[m] {
      HeldLogsGainAt(ws, w, x, m);
    }
  }

  /** A worker puts down what it holds: the step back is a gain. */
  lemma HeldLoss(ws: seq<Worker>, w: nat)
    requires w < |ws|
    ensures HeldMetrics(ws) == HeldMetrics(ws[w := Ready]) + PackageAt(ws[w])
    ensures HeldLogs(ws) == HeldLogs(ws[w := Ready]) + LogAt(ws[w])
  {
    HeldMetricsGain(ws[w := Ready], w, ws[w]);
    HeldLogsGain(ws[w := Ready], w, ws[w]);
    assert ws[w := Ready][w := ws[w]] == ws;
  }

  lemma QueuesKept(cfg: Config, f: Flow, step: Step)
    requires QueuesInv(f) && FlowEnabled(cfg, f, step)
    ensures QueuesInv(FlowDo(cfg, f, step))
  {
    match step
    case Take(w, o) =>
      assert f.messages == [f.messages[0]] + f.messages[1..];
    case ReadMetrics => assert f.metricQueue == [f.metricQueue[0]] + f.metricQueue[1..];
    case ReadLog => assert f.logQueue == [f.logQueue[0]] + f.logQueue[1..];
    case _ =>
  }

  /** What a worker takes is what it then holds. */
  lemma TakeKeeps(ws: seq<Worker>, taken: seq<(Envelope, Outcome)>, w: nat, e: Envelope, o: Outcome)
    requires w < |ws| && ws[w].Ready?
    ensures HeldMetrics(ws[w := Working(o)]) == HeldMetrics(ws) + PackageOf(o)
    ensures HeldLogs(ws[w := Working(o)]) == HeldLogs(ws) + LogOf(o)
    ensures PackagesTaken(taken + [(e, o)]) == PackagesTaken(taken) + PackageOf(o)
    ensures LogsTaken(taken + [(e, o)]) == LogsTaken(taken) + LogOf(o)
  {
    HeldMetricsGain(ws, w, Working(o));
    HeldLogsGain(ws, w, Working(o));
    assert (taken + [(e, o)])[..|taken|] == taken;
  }

  lemma BothGrow<T>(s: multiset<T>, h: multiset<T>, p: multiset<T>, t: multiset<T>, c: multiset<T>, x: multiset<T>)
    requires s + h + p == t + c
    ensures s + (h + x) + p == (t + x) + c
    ensures s + h + (p + x) == t + (c + x)
  {
    forall y
      ensures (s + (h + x) + p)[y] == ((t + x) + c)[y]
      ensures (s + h + (p + x))[y] == (t + (c + x))[y]
    {
      assert (s + h + p)[y] == (t + c)[y];
    }
  }

  lemma BalanceAfterTake(sent: seq<Package>, logs: seq<LogMessage>, ws: seq<Worker>, pending: seq<Package>,
                         taken: seq<(Envelope, Outcome)>, collected: seq<Package>, w: nat, e: Envelope, o: Outcome)
    requires w < |ws| && ws[w].Ready?
    ensures PackagesBalance(sent, ws, pending, taken, collected) ==>
              PackagesBalance(sent, ws[w := Working(o)], pending, taken + [(e, o)], collected)
    ensures LogsBalance(logs, ws, taken) ==> LogsBalance(logs, ws[w := Working(o)], taken + [(e, o)])
  {
    TakeKeeps(ws, taken, w, e, o);
    if PackagesBalance(sent, ws, pending, taken, collected) {
      BothGrow(multiset(sent), HeldMetrics(ws), multiset(pending),
               PackagesTaken(taken), multiset(collected), PackageOf(o));
    }
    if LogsBalance(logs, ws, taken) {
      assert multiset(logs) + (HeldLogs(ws) + LogOf(o)) == LogsTaken(taken) + LogOf(o);
    }
  }

  lemma BalanceAfterSend(sent: seq<Package>, ws: seq<Worker>, pending: seq<Package>,
                         taken: seq<(Envelope, Outcome)>, collected: seq<Package>, w: nat)
    requires PackagesBalance(sent, ws, pending, taken, collected) && w < |ws|
    ensures PackagesBalance(if ws[w].SendingMetrics? then sent + [ws[w].pkg] else sent,
                            ws[w := Ready], pending, taken, collected)
  {
    HeldLoss(ws, w);
  }

  lemma LogBalanceAfterSend(sent: seq<LogMessage>, ws: seq<Worker>, taken: seq<(Envelope, Outcome)>, w: nat)
    requires LogsBalance(sent, ws, taken) && w < |ws|
    ensures LogsBalance(if ws[w].SendingLog? then sent + [ws[w].msg] else sent, ws[w := Ready], taken)
  {
    HeldLoss(ws, w);
  }

  lemma BalanceAfterOrgSend(sent: seq<Package>, ws: seq<Worker>, pending: seq<Package>,
                            taken: seq<(Envelope, Outcome)>, collected: seq<Package>, i: nat)
    requires PackagesBalance(sent, ws, pending, taken, collected) && i < |pending|
    ensures PackagesBalance(sent + [pending[i]], ws, pending[..i] + pending[i + 1..], taken, collected)
  {
    Removed(pending, i);
  }

  lemma BalanceAfterOrgCollect(sent: seq<Package>, ws: seq<Worker>, pending: seq<Package>,
                               taken: seq<(Envelope, Outcome)>, collected: seq<Package>, pkg: Package)
    requires PackagesBalance(sent, ws, pending, taken, collected)
    ensures PackagesBalance(sent, ws, pending + [pkg], taken, collected + [pkg])
  {
    BothGrow(multiset(sent), HeldMetrics(ws), multiset(pending),
             PackagesTaken(taken), multiset(collected), multiset{pkg});
    assert multiset(pending + [pkg]) == multiset(pending) + multiset{pkg};
    assert multiset(collected + [pkg]) == multiset(collected) + multiset{pkg};
  }

  /** A worker exits holding nothing. */
  lemma HeldByExit(ws: seq<Worker>, w: nat)
    requires w < |ws| && ws[w].Ready?
    ensures HeldMetrics(ws[w := Exited]) == HeldMetrics(ws)
    ensures HeldLogs(ws[w := Exited]) == HeldLogs(ws)
  {
    HeldMetricsGain(ws, w, Exited);
    HeldLogsGain(ws, w, Exited);
  }

  lemma Removed<T>(s: seq<T>, i: nat)
    requires i < |s|
    ensures multiset(s) == multiset(s[..i] + s[i + 1..]) + multiset{s[i]}
  {
    assert s == s[..i] + ([s[i]] + s[i + 1..]);
  }

  lemma PackagesKept(cfg: Config, f: Flow, step: Step)
    requires PackagesInv(f) && FlowEnabled(cfg, f, step)
    ensures PackagesInv(FlowDo(cfg, f, step))
  {
    match step
    case Take(w, o) =>
      BalanceAfterTake(f.sentMetrics, f.sentLogs, f.workers, f.orgPending, f.taken, f.orgCollected,
                       w, f.messages[0], o);
    case WorkerSend(w) =>
      BalanceAfterSend(f.sentMetrics, f.workers, f.orgPending, f.taken, f.orgCollected, w);
    case OrgCollect(pkg) =>
      BalanceAfterOrgCollect(f.sentMetrics, f.workers, f.orgPending, f.taken, f.orgCollected, pkg);
    case OrgSend(i) =>
      BalanceAfterOrgSend(f.sentMetrics, f.workers, f.orgPending, f.taken, f.orgCollected, i);
    case Token(WorkerTarget(w)) => HeldByExit(f.workers, w);
    case _ =>
  }

  lemma LogsKept(cfg: Config, f: Flow, step: Step)
    requires LogsInv(f) && FlowEnabled(cfg, f, step)
    ensures LogsInv(FlowDo(cfg, f, step))
  {
    match step
    case Take(w, o) =>
      BalanceAfterTake(f.sentMetrics, f.sentLogs, f.workers, f.orgPending, f.taken, f.orgCollected,
                       w, f.messages[0], o);
    case WorkerSend(w) => LogBalanceAfterSend(f.sentLogs, f.workers, f.taken, w);
    case Token(WorkerTarget(w)) => HeldByExit(f.workers, w);
    case _ =>
  }

  lemma {:induction false} TakenCounts(taken: seq<(Envelope, Outcome)>)
    ensures |taken| == Discarded(taken) + |PackagesTaken(taken)| + |LogsTaken(taken)|
  {
    if taken == [] {
    } else {
      TakenCounts(taken[..|taken| - 1]);
    }
  }

  /** Every envelope taken was discarded, is held by a worker or was enqueued; org packages are the only others. */
  lemma EnvelopesAccounted(f: Flow)
    requires FlowInv(f)
    ensures |f.taken| + |f.orgCollected|
         == Discarded(f.taken) + |HeldMetrics(f.workers)| + |HeldLogs(f.workers)|
            + |f.sentMetrics| + |f.sentLogs| + |f.orgPending|
    ensures |f.sentMetrics| + |f.sentLogs|
         == |f.dequeuedMetrics| + |f.dequeuedLogs| + |f.metricQueue| + |f.logQueue|
    ensures |f.arrived| == |f.taken| + |f.messages|
  {
    TakenCounts(f.taken);
    assert |multiset(f.sentMetrics) + HeldMetrics(f.workers) + multiset(f.orgPending)|
        == |f.sentMetrics| + |HeldMetrics(f.workers)| + |f.orgPending|;
    assert |PackagesTaken(f.taken) + multiset(f.orgCollected)| == |PackagesTaken(f.taken)| + |f.orgCollected|;
    assert |multiset(f.sentLogs) + HeldLogs(f.workers)| == |f.sentLogs| + |HeldLogs(f.workers)|;
  }
}
