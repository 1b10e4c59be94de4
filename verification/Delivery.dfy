/** The nozzle's totals against what its clients really delivered, over whole runs (internal/nozzle/nozzle.go). */
module Delivery {
  import opened Accounting
  import opened Client
  import opened Nozzle
  import opened SplitTree
  import LogFormatter
  import MetricFormatter

  /** One tick with the batches and the networks behind its posts. */
  datatype Round = Round(tick: Tick, flush: FlushRecord, logs: seq<LogFormatter.LogMessage>, networks: nat -> Network)

  /** What `Nozzle.OnTick` promises of a tick. */
  ghost predicate RoundOf(clients: seq<DatadogClient>, round: Round) {
    && round.flush.Valid(clients) && round.tick.metrics == round.flush.posts && |round.tick.metrics| == |clients|
    && LogPosts(clients, round.logs, round.networks, round.tick.logs)
  }

  ghost predicate Rounds(clients: seq<DatadogClient>, rounds: seq<Round>) {
    forall t :: 0 <= t < |rounds| ==> RoundOf(clients, rounds[t])
  }

  function TicksOf(rounds: seq<Round>): seq<Tick> {
    seq(|rounds|, t requires 0 <= t < |rounds| => rounds[t].tick)
  }

  lemma TicksFit(clients: seq<DatadogClient>, rounds: seq<Round>)
    requires Rounds(clients, rounds)
    ensures TicksFor(|clients|, TicksOf(rounds))
  {
    forall tick | tick in TicksOf(rounds) ensures |tick.metrics| == |clients| && |tick.logs| == |clients| {
      var t :| 0 <= t < |rounds| && rounds[t].tick == tick;
      assert RoundOf(clients, rounds[t]);
    }
  }

  // ---------------------------------------------------------------- logs

  ghost function LogRunOf(client: DatadogClient, logs: seq<LogFormatter.LogMessage>): Run<LogFormatter.Span> {
    LogFormatter.LogRun(client.encodeLogs, client.maxPostBytes, logs, 0, |logs|)
  }

  ghost function LogFates(clients: seq<DatadogClient>, round: Round): seq<Fate> {
    seq(|clients|, i requires 0 <= i < |clients| =>
      Fate(clients[i].LogsDelivered(round.logs, round.networks(i)), LogRunOf(clients[i], round.logs).Missing()))
  }

  ghost function LogFatesOver(clients: seq<DatadogClient>, rounds: seq<Round>): seq<seq<Fate>> {
    seq(|rounds|, t requires 0 <= t < |rounds| => LogFates(clients, rounds[t]))
  }

  /** Splitting the batch for this client failed to encode no slice and dropped no entry. */
  ghost predicate LogsComplete(client: DatadogClient, logs: seq<LogFormatter.LogMessage>) {
    LogRunOf(client, logs).Failures() == [] && LogRunOf(client, logs).Drops() == []
  }

  ghost predicate AllLogsComplete(clients: seq<DatadogClient>, rounds: seq<Round>) {
    forall t, i :: 0 <= t < |rounds| && 0 <= i < |clients| ==> LogsComplete(clients[i], rounds[t].logs)
  }

  ghost predicate LogBytes(clients: seq<DatadogClient>) {
    forall i :: 0 <= i < |clients| ==> NeverEmpty(clients[i].encodeLogs)
  }

  lemma LogRoundExplained(clients: seq<DatadogClient>, round: Round)
    requires RoundOf(clients, round) && LogBytes(clients)
    ensures Explains(LogFates(clients, round), round.tick.logs)
    ensures NoneMissing(LogFates(clients, round))
       <==> forall i :: 0 <= i < |clients| ==> LogsComplete(clients[i], round.logs)
  {
    var fates := LogFates(clients, round);
    forall i | 0 <= i < |clients|
      ensures round.tick.logs[i].Sent() == fates[i].delivered + fates[i].missing
      ensures fates[i].missing == 0 <==> LogsComplete(clients[i], round.logs)
    {
      assert LogPost(clients[i], round.logs, round.networks(i), round.tick.logs[i]);
      clients[i].LogsCounted(round.logs, round.networks(i));
      NothingMissing(LogRunOf(clients[i], round.logs));
    }
  }

  /**
   * Over any run of ticks, whatever the networks do, totalLogsSent is at least the number of logs delivered, and is
   * that number exactly when no batch of the run has a slice that fails to encode or an entry that is dropped.
   */
  lemma LogTotalDelivered(clients: seq<DatadogClient>, rounds: seq<Round>)
    requires clients != [] && Rounds(clients, rounds) && LogBytes(clients)
    ensures var total := AfterTicks(NEW_BOOKS, TicksOf(rounds)).totalLogsSent;
            var delivered := DeliveredOver(LogFatesOver(clients, rounds));
            delivered <= total && (total == delivered <==> AllLogsComplete(clients, rounds))
  {
    var fates := LogFatesOver(clients, rounds);
    forall t | 0 <= t < |rounds|
      ensures Explains(fates[t], TicksOf(rounds)[t].logs)
      ensures NoneMissing(fates[t]) <==> forall i :: 0 <= i < |clients| ==> LogsComplete(clients[i], rounds[t].logs)
    {
      assert RoundOf(clients, rounds[t]);
      LogRoundExplained(clients, rounds[t]);
    }
    LogsExplained(fates, TicksOf(rounds));
    TicksFit(clients, rounds);
    LogTotalExact(|clients|, TicksOf(rounds));
  }

  // ---------------------------------------------------------------- metrics, with a single client

  /** The batch of a tick, and the recursion tree behind what its post reported. */
  ghost predicate MetricRun(client: DatadogClient, round: Round, run: Run<MetricFormatter.Batch>) {
    RoundOf([client], round)
    && client.ReportOf(round.flush.handed[0], round.flush.networks(0), run, round.flush.posts[0].unsent)
  }

  lemma MetricRunExists(client: DatadogClient, round: Round)
    requires RoundOf([client], round)
    ensures exists run :: MetricRun(client, round, run)
  {
    assert round.flush.Turn([client], 0);
    var run :| client.ReportOf(round.flush.handed[0], round.flush.networks(0), run, round.flush.posts[0].unsent);
    assert MetricRun(client, round, run);
  }

  ghost predicate MetricRuns(client: DatadogClient, rounds: seq<Round>, runs: seq<Run<MetricFormatter.Batch>>) {
    |runs| == |rounds| && forall t :: 0 <= t < |rounds| ==> MetricRun(client, rounds[t], runs[t])
  }

  ghost function MetricFates(rounds: seq<Round>, runs: seq<Run<MetricFormatter.Batch>>): seq<seq<Fate>>
    requires |runs| == |rounds|
  {
    seq(|rounds|, t requires 0 <= t < |rounds| =>
      [Fate(Delivered(runs[t].Output(), Outcomes(rounds[t].flush.networks(0), |runs[t].Output()|)), runs[t].Missing())])
  }

  ghost predicate AllMetricsComplete(runs: seq<Run<MetricFormatter.Batch>>) {
    forall t :: 0 <= t < |runs| ==> runs[t].Failures() == [] && runs[t].Drops() == []
  }

  lemma MetricRoundExplained(client: DatadogClient, round: Round, run: Run<MetricFormatter.Batch>)
    requires MetricRun(client, round, run) && NeverEmpty(client.encodeSeries)
    ensures var delivered := Delivered(run.Output(), Outcomes(round.flush.networks(0), |run.Output()|));
            round.tick.metrics[0].Sent() == delivered + run.Missing()
    ensures run.Missing() == 0 <==> run.Failures() == [] && run.Drops() == []
  {
    var batch := round.flush.handed[0];
    assert round.flush.Turn([client], 0);
    client.MetricsCounted(batch, round.flush.networks(0), run);
    MetricFormatter.FormatHalves(client.encodeSeries, client.prefix, client.maxPostBytes, batch, run);
    NothingMissing(run);
  }

  lemma MetricRoundsExplained(client: DatadogClient, rounds: seq<Round>, runs: seq<Run<MetricFormatter.Batch>>, t: nat)
    requires MetricRuns(client, rounds, runs) && NeverEmpty(client.encodeSeries) && t < |rounds|
    ensures Explains(MetricFates(rounds, runs)[t], rounds[t].tick.metrics)
    ensures NoneMissing(MetricFates(rounds, runs)[t]) <==> runs[t].Failures() == [] && runs[t].Drops() == []
  {
    assert MetricRun(client, rounds[t], runs[t]);
    MetricRoundExplained(client, rounds[t], runs[t]);
    assert MetricFates(rounds, runs)[t][0].missing == runs[t].Missing();
  }

  lemma MetricFatesExplain(client: DatadogClient, rounds: seq<Round>, runs: seq<Run<MetricFormatter.Batch>>)
    requires MetricRuns(client, rounds, runs) && NeverEmpty(client.encodeSeries)
    ensures ExplainsMetrics(MetricFates(rounds, runs), TicksOf(rounds))
    ensures NoneMissingOver(MetricFates(rounds, runs)) <==> AllMetricsComplete(runs)
  {
    var fates := MetricFates(rounds, runs);
    forall t | 0 <= t < |rounds|
      ensures Explains(fates[t], TicksOf(rounds)[t].metrics)
      ensures NoneMissing(fates[t]) <==> runs[t].Failures() == [] && runs[t].Drops() == []
    {
      MetricRoundsExplained(client, rounds, runs, t);
    }
  }

  lemma SingleClientRounds(client: DatadogClient, rounds: seq<Round>, runs: seq<Run<MetricFormatter.Batch>>)
    requires MetricRuns(client, rounds, runs)
    ensures TicksFor(1, TicksOf(rounds))
  {
    forall t | 0 <= t < |rounds| ensures RoundOf([client], rounds[t]) {
      assert MetricRun(client, rounds[t], runs[t]);
    }
    TicksFit([client], rounds);
  }

  /**
   * With one client, over any run of ticks and whatever the network does and the map orders are, totalMetricsSent is
   * at least the number of metrics delivered, and is that number exactly when no batch of the run lost a part.
   */
  lemma MetricTotalDelivered(client: DatadogClient, rounds: seq<Round>, runs: seq<Run<MetricFormatter.Batch>>)
    requires MetricRuns(client, rounds, runs) && NeverEmpty(client.encodeSeries)
    ensures var total := AfterTicks(NEW_BOOKS, TicksOf(rounds)).totalMetricsSent;
            var delivered := DeliveredOver(MetricFates(rounds, runs));
            delivered <= total && (total == delivered <==> AllMetricsComplete(runs))
  {
    MetricFatesExplain(client, rounds, runs);
    MetricsExplained(MetricFates(rounds, runs), TicksOf(rounds));
    SingleClientRounds(client, rounds, runs);
    MetricTotalSingleClient(TicksOf(rounds));
  }

  /** No batch of the run can lose a part, under any map order. */
  ghost predicate NoneCanLose(client: DatadogClient, rounds: seq<Round>)
    requires Rounds([client], rounds)
  {
    forall t :: 0 <= t < |rounds| ==> BatchSafe(client, rounds[t])
  }

  ghost predicate BatchSafe(client: DatadogClient, round: Round)
    requires RoundOf([client], round)
  {
    !MetricFormatter.CanLose(client.encodeSeries, client.prefix, client.maxPostBytes, round.flush.handed[0])
  }

  lemma SafeRunComplete(client: DatadogClient, round: Round, run: Run<MetricFormatter.Batch>)
    requires MetricRun(client, round, run) && BatchSafe(client, round)
    ensures run.Failures() == [] && run.Drops() == []
  {
    var batch := round.flush.handed[0];
    MetricFormatter.CompleteExactly(client.encodeSeries, client.prefix, client.maxPostBytes, batch);
    MetricFormatter.FormatHalves(client.encodeSeries, client.prefix, client.maxPostBytes, batch, run);
    NothingMissing(run);
  }

  /** Then, whatever the network does and the map orders are, totalMetricsSent is what was delivered. */
  lemma MetricTotalSafe(client: DatadogClient, rounds: seq<Round>, runs: seq<Run<MetricFormatter.Batch>>)
    requires Rounds([client], rounds) && NoneCanLose(client, rounds)
    requires MetricRuns(client, rounds, runs) && NeverEmpty(client.encodeSeries)
    ensures AfterTicks(NEW_BOOKS, TicksOf(rounds)).totalMetricsSent == DeliveredOver(MetricFates(rounds, runs))
  {
    forall t | 0 <= t < |runs| ensures runs[t].Failures() == [] && runs[t].Drops() == [] {
      assert MetricRun(client, rounds[t], runs[t]) && BatchSafe(client, rounds[t]);
      SafeRunComplete(client, rounds[t], runs[t]);
    }
    MetricTotalDelivered(client, rounds, runs);
  }
}
