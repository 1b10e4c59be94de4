/** Paths through the pipeline: whole flushes and shutdown. */
module PipelinePaths {
  import opened Sequences
  import opened Metrics
  import opened LogFormatter
  import opened Pipeline
  import opened PipelineRuns

  // ---------------------------------------------------------------- paths

  /** The state after more steps, or None when some step was not enabled. */
  ghost function RunFrom(cfg: Config, s: State, steps: seq<Step>): Option<State> {
    if steps == [] then Some(s)
    else
      match RunFrom(cfg, s, steps[..|steps| - 1])
      case None => None
      case Some(t) =>
        if Enabled(cfg, t, steps[|steps| - 1]) then Some(Do(cfg, t, steps[|steps| - 1])) else None
  }

  ghost predicate Reaches(cfg: Config, s: State, t: State) {
    exists steps :: RunFrom(cfg, s, steps) == Some(t)
  }

  lemma {:induction false} RunFromInit(cfg: Config, steps: seq<Step>)
    ensures RunFrom(cfg, Init(cfg), steps) == After(cfg, steps)
  {
    if steps == [] {
    } else {
      RunFromInit(cfg, steps[..|steps| - 1]);
    }
  }

  lemma {:induction false} RunConcat(cfg: Config, s: State, a: seq<Step>, t: State, b: seq<Step>)
    requires RunFrom(cfg, s, a) == Some(t)
    ensures RunFrom(cfg, s, a + b) == RunFrom(cfg, t, b)
  {
    if b == [] {
      assert a + b == a;
    } else {
      RunConcat(cfg, s, a, t, b[..|b| - 1]);
      assert (a + b)[..|a + b| - 1] == a + b[..|b| - 1];
    }
  }

  lemma Stays(cfg: Config, s: State)
    ensures Reaches(cfg, s, s)
  {
    assert RunFrom(cfg, s, []) == Some(s);
  }

  lemma RunTo(cfg: Config, t: State) returns (steps: seq<Step>)
    requires Reaches(cfg, Init(cfg), t)
    ensures After(cfg, steps) == Some(t)
  {
    steps :| RunFrom(cfg, Init(cfg), steps) == Some(t);
    RunFromInit(cfg, steps);
  }

  lemma Then(cfg: Config, s: State, t: State, u: State)
    requires Reaches(cfg, s, t) && Reaches(cfg, t, u)
    ensures Reaches(cfg, s, u)
  {
    var a :| RunFrom(cfg, s, a) == Some(t);
    var b :| RunFrom(cfg, t, b) == Some(u);
    RunConcat(cfg, s, a, t, b);
    assert RunFrom(cfg, s, a + b) == Some(u);
  }

  lemma Walk(cfg: Config, s: State, t: State, step: Step, u: State)
    requires Reaches(cfg, s, t) && Enabled(cfg, t, step) && u == Do(cfg, t, step)
    ensures Reaches(cfg, s, u)
  {
    var steps :| RunFrom(cfg, s, steps) == Some(t);
    assert (steps + [step])[..|steps|] == steps;
    assert RunFrom(cfg, s, steps + [step]) == Some(u);
  }

  // ---------------------------------------------------------------- handing something to every client

  /** The first c lists have got one more item each. */
  function AppendFirst<T>(lists: seq<seq<T>>, items: seq<T>, c: nat): (r: seq<seq<T>>)
    requires c <= |lists| == |items|
    ensures |r| == |lists|
  {
    seq(|lists|, i requires 0 <= i < |lists| => if i < c then lists[i] + [items[i]] else lists[i])
  }

  lemma AppendNext<T>(lists: seq<seq<T>>, items: seq<T>, c: nat)
    requires c < |lists| == |items|
    ensures AppendFirst(lists, items, c)[c] == lists[c]
    ensures AppendFirst(lists, items, c)[c := lists[c] + [items[c]]] == AppendFirst(lists, items, c + 1)
  {
  }

  lemma AppendNone<T>(lists: seq<seq<T>>, items: seq<T>)
    requires |lists| == |items|
    ensures AppendFirst(lists, items, 0) == lists
  {
  }

  /** Every list has got one more item. */
  ghost predicate GainedAll<T(!new)>(lists: seq<seq<T>>, items: seq<T>, after: seq<seq<T>>) {
    |lists| == |items| == |after| && forall i :: 0 <= i < |lists| ==> after[i] == lists[i] + [items[i]]
  }

  /** What the first n clients write, one after the other. */
  ghost function Merged(internals: seq<Entries>, n: nat): Entries
    requires n <= |internals|
  {
    if n == 0 then map[] else Merged(internals, n - 1) + internals[n - 1]
  }

  ghost function Overlays(internals: seq<Entries>): seq<Entries> {
    seq(|internals|, i requires 0 <= i < |internals| => Merged(internals, i + 1))
  }

  ghost function Batches(snapshot: Entries, internals: seq<Entries>): seq<Entries> {
    seq(|internals|, i requires 0 <= i < |internals| => snapshot + Merged(internals, i + 1))
  }

  /** One list of deliveries per client. */
  ghost predicate Sized(cfg: Config, m: Main) {
    |m.metricDeliveries| == |m.overlays| == |m.logDeliveries| == cfg.clients
  }

  /** What each client may be told in the flush that starts now. */
  ghost predicate Tellable(cfg: Config, m: Main, internals: seq<Entries>)
    requires Sized(cfg, m)
  {
    && |internals| == cfg.clients
    && forall i :: 0 <= i < |internals| ==> MayTell(cfg, i, m.overlays[i], m.logDeliveries[i], internals[i])
  }

  // ---------------------------------------------------------------- a metrics flush

  /** The flush has reached client c. */
  ghost function PostingTo(cfg: Config, m: Main, snapshot: Entries, internals: seq<Entries>, c: nat, final: bool): Main
    requires Sized(cfg, m) && c <= |internals| == cfg.clients
  {
    m.(phase := PostingMetrics(snapshot + Merged(internals, c), Merged(internals, c), c, final),
       metricDeliveries := AppendFirst(m.metricDeliveries, Batches(snapshot, internals), c),
       overlays := AppendFirst(m.overlays, Overlays(internals), c))
  }

  ghost function AtClient(cfg: Config, s: State, m: Main, snapshot: Entries, internals: seq<Entries>, c: nat,
                          final: bool): State
    requires Sized(cfg, m) && c <= |internals| == cfg.clients
  {
    s.(main := PostingTo(cfg, m, snapshot, internals, c, final))
  }

  lemma PostNext(cfg: Config, s: State, m: Main, snapshot: Entries, internals: seq<Entries>, c: nat, final: bool)
    requires Sized(cfg, m) && Tellable(cfg, m, internals) && c < cfg.clients
    ensures var t := AtClient(cfg, s, m, snapshot, internals, c, final);
            Enabled(cfg, t, PostMetrics(internals[c]))
            && Do(cfg, t, PostMetrics(internals[c])) == AtClient(cfg, s, m, snapshot, internals, c + 1, final)
  {
    SumOfThree(snapshot, Merged(internals, c), internals[c]);
    AppendNext(m.metricDeliveries, Batches(snapshot, internals), c);
    AppendNext(m.overlays, Overlays(internals), c);
  }

  lemma {:induction false} PostPath(cfg: Config, s: State, m: Main, snapshot: Entries, internals: seq<Entries>, c: nat,
                                    final: bool)
    requires Sized(cfg, m) && Tellable(cfg, m, internals) && c <= cfg.clients
    ensures Reaches(cfg, AtClient(cfg, s, m, snapshot, internals, 0, final),
                    AtClient(cfg, s, m, snapshot, internals, c, final))
  {
    var start := AtClient(cfg, s, m, snapshot, internals, 0, final);
    if c == 0 {
      Stays(cfg, start);
    } else {
      PostPath(cfg, s, m, snapshot, internals, c - 1, final);
      PostNext(cfg, s, m, snapshot, internals, c - 1, final);
      Walk(cfg, start, AtClient(cfg, s, m, snapshot, internals, c - 1, final), PostMetrics(internals[c - 1]),
           AtClient(cfg, s, m, snapshot, internals, c, final));
    }
  }

  ghost function Taken(st: Store): Store {
    st.(metricsMap := map[], snapshots := st.snapshots + [st.metricsMap], epochs := st.epochs + [st.current],
        current := [])
  }

  /** After a metrics flush from the run loop or, when the workers have been stopped, after the final one. */
  ghost function MetricsFlushed(cfg: Config, s: State, internals: seq<Entries>): State
    requires Sized(cfg, s.main) && |internals| == cfg.clients
  {
    var final := s.main.phase.Halted?;
    var m := PostingTo(cfg, s.main, s.store.metricsMap, internals, cfg.clients, final);
    s.(store := Taken(s.store), main := m.(phase := if final && !cfg.logsEnabled then Done else BeforeLogs(final)))
  }

  lemma MetricsFlushPath(cfg: Config, s: State, internals: seq<Entries>)
    requires Sized(cfg, s.main) && Tellable(cfg, s.main, internals) && (s.main.phase.Running? || s.main.phase.Halted?)
    ensures Reaches(cfg, s, MetricsFlushed(cfg, s, internals))
  {
    var snapshot, final := s.store.metricsMap, s.main.phase.Halted?;
    var m := PostingTo(cfg, s.main, snapshot, internals, 0, final);
    var t := s.(store := Taken(s.store), main := m);
    AppendNone(s.main.metricDeliveries, Batches(snapshot, internals));
    AppendNone(s.main.overlays, Overlays(internals));
    assert snapshot + map[] == snapshot;
    Stays(cfg, s);
    Walk(cfg, s, s, TakeMetrics, t);
    PostPath(cfg, t, s.main, snapshot, internals, cfg.clients, final);
    var u := t.(main := PostingTo(cfg, s.main, snapshot, internals, cfg.clients, final));
    Then(cfg, s, t, u);
    Walk(cfg, s, u, MetricsPosted, MetricsFlushed(cfg, s, internals));
  }

  // ---------------------------------------------------------------- a logs flush

  ghost function PostingLogsTo(cfg: Config, m: Main, logs: seq<LogMessage>, c: nat, final: bool): Main
    requires Sized(cfg, m) && c <= cfg.clients
  {
    m.(phase := PostingLogs(logs, c, final),
       logDeliveries := AppendFirst(m.logDeliveries, seq(cfg.clients, _ => logs), c))
  }

  lemma {:induction false} LogsPath(cfg: Config, s: State, m: Main, logs: seq<LogMessage>, c: nat, final: bool)
    requires Sized(cfg, m) && c <= cfg.clients && s.main == PostingLogsTo(cfg, m, logs, 0, final)
    ensures Reaches(cfg, s, s.(main := PostingLogsTo(cfg, m, logs, c, final)))
  {
    if c == 0 {
      Stays(cfg, s);
    } else {
      LogsPath(cfg, s, m, logs, c - 1, final);
      AppendNext(m.logDeliveries, seq(cfg.clients, _ => logs), c - 1);
      Walk(cfg, s, s.(main := PostingLogsTo(cfg, m, logs, c - 1, final)), PostLogs,
           s.(main := PostingLogsTo(cfg, m, logs, c, final)));
    }
  }

  ghost function LogsFlushed(cfg: Config, s: State): State
    requires Sized(cfg, s.main) && s.main.phase.BeforeLogs?
  {
    var m := PostingLogsTo(cfg, s.main, s.store.logsBuffer, cfg.clients, s.main.phase.final);
    s.(store := s.store.(logsBuffer := [], logBatches := s.store.logBatches + [s.store.logsBuffer]),
       main := m.(phase := if s.main.phase.final then Done else Running))
  }

  lemma LogsFlushPath(cfg: Config, s: State)
    requires Sized(cfg, s.main) && s.main.phase.BeforeLogs? && (s.main.phase.final ==> cfg.logsEnabled)
    ensures Reaches(cfg, s, LogsFlushed(cfg, s))
  {
    var logs, final := s.store.logsBuffer, s.main.phase.final;
    var t := s.(store := s.store.(logsBuffer := [], logBatches := s.store.logBatches + [logs]),
                main := PostingLogsTo(cfg, s.main, logs, 0, final));
    AppendNone(s.main.logDeliveries, seq(cfg.clients, _ => logs));
    Stays(cfg, s);
    Walk(cfg, s, s, TakeLogs, t);
    LogsPath(cfg, t, s.main, logs, cfg.clients, final);
    var u := t.(main := PostingLogsTo(cfg, s.main, logs, cfg.clients, final));
    Then(cfg, s, t, u);
    Walk(cfg, s, u, LogsPosted, LogsFlushed(cfg, s));
  }

  /** What the two flushes leave. */
  lemma FlushedMain(cfg: Config, s: State, internals: seq<Entries>)
    requires Sized(cfg, s.main) && |internals| == cfg.clients && (s.main.phase.Running? || s.main.phase.Halted?)
    ensures var t, final := MetricsFlushed(cfg, s, internals), s.main.phase.Halted?;
            && t.flow == s.flow && Sized(cfg, t.main) && t.main.timedOut == s.main.timedOut
            && t.main.tokens == s.main.tokens
            && t.main.phase == (if final && !cfg.logsEnabled then Done else BeforeLogs(final))
            && t.store.metricsMap == map[]
            && t.store.logsBuffer == s.store.logsBuffer && t.store.received == s.store.received
            && GainedAll(s.main.metricDeliveries, Batches(s.store.metricsMap, internals), t.main.metricDeliveries)
            && GainedAll(s.main.overlays, Overlays(internals), t.main.overlays)
            && t.main.logDeliveries == s.main.logDeliveries
  {
  }

  lemma LogsFlushedMain(cfg: Config, s: State)
    requires Sized(cfg, s.main) && s.main.phase.BeforeLogs?
    ensures var t := LogsFlushed(cfg, s);
            && t.flow == s.flow && Sized(cfg, t.main) && t.main.timedOut == s.main.timedOut
            && t.main.tokens == s.main.tokens
            && t.main.phase == (if s.main.phase.final then Done else Running)
            && t.store.logsBuffer == []
            && t.store.metricsMap == s.store.metricsMap && t.store.received == s.store.received
            && t.main.metricDeliveries == s.main.metricDeliveries && t.main.overlays == s.main.overlays
            && GainedAll(s.main.logDeliveries, LogItems(cfg, s), t.main.logDeliveries)
  {
  }

  /** Every client is handed the whole buffer. */
  ghost function LogItems(cfg: Config, s: State): seq<seq<LogMessage>> {
    seq(cfg.clients, _ => s.store.logsBuffer)
  }

  /** One turn of the run loop on a tick. */
  ghost function Ticked(cfg: Config, s: State, internals: seq<Entries>): State
    requires Sized(cfg, s.main) && |internals| == cfg.clients && s.main.phase.Running?
  {
    LogsFlushed(cfg, MetricsFlushed(cfg, s, internals))
  }

  lemma TickPath(cfg: Config, s: State, internals: seq<Entries>)
    requires Sized(cfg, s.main) && Tellable(cfg, s.main, internals) && s.main.phase.Running?
    ensures Reaches(cfg, s, Ticked(cfg, s, internals))
  {
    MetricsFlushPath(cfg, s, internals);
    LogsFlushPath(cfg, MetricsFlushed(cfg, s, internals));
    Then(cfg, s, MetricsFlushed(cfg, s, internals), Ticked(cfg, s, internals));
  }

  /** Everything after stopWorkers. */
  ghost function Finished(cfg: Config, s: State, internals: seq<Entries>): State
    requires Sized(cfg, s.main) && |internals| == cfg.clients && s.main.phase.Halted?
  {
    var t := MetricsFlushed(cfg, s, internals);
    if cfg.logsEnabled then LogsFlushed(cfg, t) else t
  }

  lemma FinalPath(cfg: Config, s: State, internals: seq<Entries>)
    requires Sized(cfg, s.main) && Tellable(cfg, s.main, internals) && s.main.phase.Halted?
    ensures Reaches(cfg, s, Finished(cfg, s, internals))
  {
    MetricsFlushPath(cfg, s, internals);
    if cfg.logsEnabled {
      LogsFlushPath(cfg, MetricsFlushed(cfg, s, internals));
      Then(cfg, s, MetricsFlushed(cfg, s, internals), Finished(cfg, s, internals));
    }
  }

  lemma FinishedMain(cfg: Config, s: State, internals: seq<Entries>)
    requires Sized(cfg, s.main) && |internals| == cfg.clients && s.main.phase.Halted?
    ensures var t := Finished(cfg, s, internals);
            && t.flow == s.flow && Sized(cfg, t.main) && t.main.phase.Done? && t.main.timedOut == s.main.timedOut
            && t.store.metricsMap == map[] && t.store.received == s.store.received
            && t.store.logsBuffer == (if cfg.logsEnabled then [] else s.store.logsBuffer)
            && GainedAll(s.main.metricDeliveries, Batches(s.store.metricsMap, internals), t.main.metricDeliveries)
            && if cfg.logsEnabled then GainedAll(s.main.logDeliveries, LogItems(cfg, s), t.main.logDeliveries)
               else t.main.logDeliveries == s.main.logDeliveries
  {
    FlushedMain(cfg, s, internals);
    if cfg.logsEnabled {
      LogsFlushedMain(cfg, MetricsFlushed(cfg, s, internals));
    }
  }

  // ---------------------------------------------------------------- stopping

  /** The first k of n workers have exited. */
  function Exiting(n: nat, k: nat): seq<Worker> {
    seq(n, i => if i < k then Exited else Ready)
  }

  lemma ExitNext(n: nat, k: nat)
    requires k < n
    ensures Exiting(n, k)[k].Ready? && Exiting(n, k)[k := Exited] == Exiting(n, k + 1)
  {
  }

  ghost function WorkersStopped(cfg: Config, s: State, k: nat): State {
    s.(flow := s.flow.(workers := Exiting(cfg.numWorkers, k)), main := s.main.(tokens := k))
  }

  /** The first k tokens go to workers. */
  lemma {:induction false} WorkersPath(cfg: Config, s: State, k: nat)
    requires s.main.phase.Stopping? && s == WorkersStopped(cfg, s, 0) && k <= cfg.numWorkers
    ensures Reaches(cfg, s, WorkersStopped(cfg, s, k))
  {
    if k == 0 {
      Stays(cfg, s);
    } else {
      WorkersPath(cfg, s, k - 1);
      ExitNext(cfg.numWorkers, k - 1);
      Walk(cfg, s, WorkersStopped(cfg, s, k - 1), Token(WorkerTarget(k - 1)), WorkersStopped(cfg, s, k));
    }
  }

  /** Every goroutine takes one token. */
  ghost function AllStopped(cfg: Config, s: State): State {
    var t := WorkersStopped(cfg, s, cfg.numWorkers);
    t.(flow := t.flow.(reader := Gone, logReader := Gone), main := t.main.(phase := Halted, tokens := TokensPlanned(cfg)))
  }

  lemma StopPath(cfg: Config, s: State)
    requires cfg.logsEnabled == cfg.logIntake && s.main.phase.Stopping? && s == WorkersStopped(cfg, s, 0)
    requires s.flow.reader.Waiting? && (if cfg.logsEnabled then s.flow.logReader.Waiting? else s.flow.logReader.Gone?)
    ensures Reaches(cfg, s, AllStopped(cfg, s))
  {
    var n := cfg.numWorkers;
    var t := WorkersStopped(cfg, s, n);
    WorkersPath(cfg, s, n);
    var u := t.(flow := t.flow.(reader := Gone), main := t.main.(tokens := n + 1));
    Walk(cfg, s, t, Token(ReaderTarget), u);
    var v := u.(flow := u.flow.(logReader := Gone), main := u.main.(tokens := TokensPlanned(cfg)));
    if cfg.logsEnabled {
      Walk(cfg, s, u, Token(LogReaderTarget), v);
    } else {
      assert u == v;
    }
    Walk(cfg, s, v, StopDone, AllStopped(cfg, s));
  }
}
