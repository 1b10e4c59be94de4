/** Posting batches and counting what was not sent (internal/client/datadog/client.go). */
module Client {
  import opened Metrics
  import opened Util
  import opened SplitTree
  import MetricFormatter
  import LogFormatter

  /** Whether the request for each chunk of a batch goes through: the network's choice. */
  type Network = nat -> bool

  function Outcomes(network: Network, n: nat): (ok: seq<bool>)
    ensures |ok| == n
  {
    seq(n, i requires i >= 0 => network(i))
  }

  /** The items PostLogs reports as unsent: those of the chunks whose post failed. */
  function UnsentLogs(out: seq<FormatData>, ok: seq<bool>): nat
    requires |ok| == |out|
  {
    if out == [] then 0
    else
      var n := |out| - 1;
      UnsentLogs(out[..n], ok[..n]) + if ok[n] then 0 else out[n].nbrItems
  }

  /** PostMetrics in addition counts a chunk without bytes (a nil slice) as one item. */
  function UnsentMetrics(out: seq<FormatData>, ok: seq<bool>): nat
    requires |ok| == |out|
  {
    if out == [] then 0
    else
      var n := |out| - 1;
      UnsentMetrics(out[..n], ok[..n])
      + if out[n].data == [] then 1 else if ok[n] then 0 else out[n].nbrItems
  }

  lemma OutcomesExactly(network: Network, n: nat)
    ensures forall i :: 0 <= i < n ==> Outcomes(network, n)[i] == network(i)
  {
  }

  /** If every request goes through nothing is unsent, save chunks without bytes. */
  lemma {:induction false} NothingFailed(out: seq<FormatData>, ok: seq<bool>)
    requires |ok| == |out| && forall i :: 0 <= i < |ok| ==> ok[i]
    ensures UnsentLogs(out, ok) == 0
    ensures (forall i :: 0 <= i < |out| ==> out[i].data != []) ==> UnsentMetrics(out, ok) == 0
  {
    if out == [] {
    } else {
      NothingFailed(out[..|out| - 1], ok[..|out| - 1]);
    }
  }

  /** A request that fails adds the items of its own chunk. */
  lemma {:induction false} OneMoreFails(out: seq<FormatData>, ok: seq<bool>, j: nat)
    requires |ok| == |out| && j < |ok| && ok[j]
    ensures UnsentLogs(out, ok[j := false]) == UnsentLogs(out, ok) + out[j].nbrItems
    ensures UnsentMetrics(out, ok[j := false]) == UnsentMetrics(out, ok) + if out[j].data == [] then 0 else out[j].nbrItems
  {
    var n := |out| - 1;
    if j == n {
      assert ok[j := false][..n] == ok[..n];
    } else {
      assert ok[j := false][..n] == ok[..n][j := false];
      OneMoreFails(out[..n], ok[..n], j);
    }
  }

  /** The loop of PostLogs over the chunks. */
  method PostEach(entries: seq<FormatData>, network: Network) returns (unsentLogs: nat)
    ensures unsentLogs == UnsentLogs(entries, Outcomes(network, |entries|))
  {
    unsentLogs := 0;
    for i := 0 to |entries|
      invariant unsentLogs == UnsentLogs(entries[..i], Outcomes(network, i))
    {
      if !network(i) {
        unsentLogs := unsentLogs + entries[i].nbrItems;
      }
      assert entries[..i + 1][..i] == entries[..i] && Outcomes(network, i + 1)[..i] == Outcomes(network, i);
    }
    assert entries[..|entries|] == entries;
  }

  /** The loop of PostMetrics over the chunks. */
  method PostSeries(seriesData: seq<FormatData>, network: Network) returns (unsentMetrics: nat)
    ensures unsentMetrics == UnsentMetrics(seriesData, Outcomes(network, |seriesData|))
  {
    unsentMetrics := 0;
    for i := 0 to |seriesData|
      invariant unsentMetrics == UnsentMetrics(seriesData[..i], Outcomes(network, i))
    {
      if seriesData[i].data == [] {
        unsentMetrics := unsentMetrics + 1;
      } else if !network(i) {
        unsentMetrics := unsentMetrics + seriesData[i].nbrItems;
      }
      assert seriesData[..i + 1][..i] == seriesData[..i] && Outcomes(network, i + 1)[..i] == Outcomes(network, i);
    }
    assert seriesData[..|seriesData|] == seriesData;
  }

  /** The items of the chunks whose post succeeded. */
  ghost function Delivered(out: seq<FormatData>, ok: seq<bool>): nat
    requires |ok| == |out|
  {
    if out == [] then 0
    else
      var n := |out| - 1;
      Delivered(out[..n], ok[..n]) + if ok[n] then out[n].nbrItems else 0
  }

  lemma {:induction false} UnsentWithin(out: seq<FormatData>, ok: seq<bool>)
    requires |ok| == |out|
    requires forall i :: 0 <= i < |out| ==> out[i].nbrItems >= 1
    ensures UnsentMetrics(out, ok) <= Items(out) && UnsentLogs(out, ok) <= Items(out)
  {
    if out == [] {
    } else {
      UnsentWithin(out[..|out| - 1], ok[..|out| - 1]);
    }
  }

  lemma {:induction false} DeliveredOrUnsent(out: seq<FormatData>, ok: seq<bool>)
    requires |ok| == |out|
    requires forall i :: 0 <= i < |out| ==> out[i].data != []
    ensures UnsentMetrics(out, ok) == UnsentLogs(out, ok)
    ensures Delivered(out, ok) + UnsentMetrics(out, ok) == Items(out)
  {
    if out == [] {
    } else {
      DeliveredOrUnsent(out[..|out| - 1], ok[..|out| - 1]);
    }
  }

  /** What the nozzle counts as sent, len - unsent, is what was delivered plus what the formatter left out. */
  lemma CountedAsSent<B>(run: Run<B>, ok: seq<bool>)
    requires run.Halving() && |ok| == |run.Output()|
    requires forall i :: 0 <= i < |run.Output()| ==> run.Output()[i].data != []
    ensures run.Size() - UnsentMetrics(run.Output(), ok) == Delivered(run.Output(), ok) + run.Missing()
    ensures run.Size() - UnsentLogs(run.Output(), ok) == Delivered(run.Output(), ok) + run.Missing()
  {
    ItemsConserved(run);
    DeliveredOrUnsent(run.Output(), ok);
  }

  /** zlib output is never empty. */
  ghost predicate NeverEmpty<S(!new)>(enc: seq<S> -> Encoded) {
    forall batch :: enc(batch).Encoded? ==> enc(batch).bytes != []
  }

  datatype DatadogClient = DatadogClient(
    prefix: string,
    deployment: string,
    ip: string,
    customTags: seq<string>,
    maxPostBytes: uint32,
    digest: string -> string,
    encodeSeries: MetricFormatter.Encoder,
    encodeLogs: LogFormatter.LogEncoder)
  {
    function InternalTags(): seq<string> {
      ["deployment:" + deployment, "ip:" + ip] + customTags
    }

    /** An internal metric; its tags were sorted in place when its key was hashed. */
    function Internal(name: string, metricType: string, value: nat, timestamp: int): (MetricKey, MetricValue) {
      (MetricKey(name, HashOf(digest, InternalTags())),
       MetricValue(Text.Sort(InternalTags()), [Point(timestamp, Finite(value as real))], "", metricType))
    }

    /** Key and value from the client's own fields. */
    lemma InternalExactly(name: string, metricType: string, value: nat, timestamp: int)
      ensures var tags := ["deployment:" + deployment, "ip:" + ip] + customTags;
              Internal(name, metricType, value, timestamp)
              == (MetricKey(name, HashOf(digest, tags)),
                  MetricValue(Text.Sort(tags), [Point(timestamp, Finite(value as real))], "", metricType))
    {
    }

    method MakeInternalMetric(name: string, metricType: string, value: nat, timestamp: int)
      returns (key: MetricKey, mValue: MetricValue)
      ensures (key, mValue) == Internal(name, metricType, value, timestamp)
    {
      var point := Point(timestamp, Finite(value as real));
      var all := InternalTags();
      var tags := new string[|all|](i requires 0 <= i < |all| => all[i]);
      assert tags[..] == all;
      var hash := HashTags(digest, tags);
      key := MetricKey(name, hash);
      mValue := MetricValue(tags[..], [point], "", metricType);
    }

    /** What PostLogs reports as unsent. */
    function LogsReport(logs: seq<LogFormatter.LogMessage>, network: Network): nat {
      var out := LogFormatter.FormatLogs(encodeLogs, maxPostBytes, logs);
      UnsentLogs(out, Outcomes(network, |out|))
    }

    /** What PostMetrics may report as unsent: the chunks depend on map iteration order. */
    ghost predicate MetricsReport(metrics: Entries, network: Network, unsent: nat) {
      exists run :: ReportOf(metrics, network, run, unsent)
    }

    ghost predicate ReportOf(metrics: Entries, network: Network, run: Run<MetricFormatter.Batch>, unsent: nat) {
      MetricFormatter.Formats(encodeSeries, prefix, maxPostBytes, metrics, run)
      && unsent == UnsentMetrics(run.Output(), Outcomes(network, |run.Output()|))
    }

    method PostLogs(logs: seq<LogFormatter.LogMessage>, network: Network) returns (unsentLogs: nat)
      ensures unsentLogs == LogsReport(logs, network)
      ensures unsentLogs <= |logs|
    {
      var logsData := LogFormatter.FormatLogs(encodeLogs, maxPostBytes, logs);
      unsentLogs := PostEach(logsData, network);
      LogCountsWithin(logs);
      UnsentWithin(logsData, Outcomes(network, |logsData|));
    }

    lemma LogCountsWithin(logs: seq<LogFormatter.LogMessage>)
      ensures var out := LogFormatter.FormatLogs(encodeLogs, maxPostBytes, logs);
              Items(out) <= |logs| && forall i :: 0 <= i < |out| ==> out[i].nbrItems >= 1
    {
      assert logs[0..|logs|] == logs;
      LogFormatter.RunFormats(encodeLogs, maxPostBytes, logs, 0, |logs|);
      ItemsConserved(LogFormatter.LogRun(encodeLogs, maxPostBytes, logs, 0, |logs|));
    }

    method PostMetrics(metrics: Entries, network: Network) returns (unsentMetrics: nat)
      ensures MetricsReport(metrics, network, unsentMetrics)
      ensures unsentMetrics <= |metrics|
    {
      var seriesData := MetricFormatter.FormatMetrics(encodeSeries, prefix, maxPostBytes, metrics);
      ghost var run :| MetricFormatter.Formats(encodeSeries, prefix, maxPostBytes, metrics, run)
                       && seriesData == run.Output();
      unsentMetrics := PostSeries(seriesData, network);
      MetricFormatter.FormatHalves(encodeSeries, prefix, maxPostBytes, metrics, run);
      ItemsConserved(run);
      UnsentWithin(seriesData, Outcomes(network, |seriesData|));
      assert ReportOf(metrics, network, run, unsentMetrics);
    }

    // -------------------------------------------------------------- when the sent count is right

    ghost function LogsDelivered(logs: seq<LogFormatter.LogMessage>, network: Network): nat {
      var out := LogFormatter.FormatLogs(encodeLogs, maxPostBytes, logs);
      Delivered(out, Outcomes(network, |out|))
    }

    ghost predicate LogCountRight(logs: seq<LogFormatter.LogMessage>, network: Network) {
      |logs| - LogsReport(logs, network) == LogsDelivered(logs, network)
    }

    lemma LogChunksHaveBytes(logs: seq<LogFormatter.LogMessage>, out: seq<FormatData>, spans: seq<LogFormatter.Span>)
      requires NeverEmpty(encodeLogs)
      requires LogFormatter.ChunksOf(encodeLogs, maxPostBytes, logs, spans, out)
      ensures forall i :: 0 <= i < |out| ==> out[i].data != []
    {
      forall i | 0 <= i < |out| ensures out[i].data != [] {
        assert LogFormatter.ChunkOf(encodeLogs, maxPostBytes, logs, spans[i], out[i]);
        var slice := logs[spans[i].lo..spans[i].hi];
        assert encodeLogs(slice) == Encoded(out[i].data);
      }
    }

    lemma LogsCounted(logs: seq<LogFormatter.LogMessage>, network: Network)
      requires NeverEmpty(encodeLogs)
      ensures var run := LogFormatter.LogRun(encodeLogs, maxPostBytes, logs, 0, |logs|);
              run.Halving() && |logs| - LogsReport(logs, network) == LogsDelivered(logs, network) + run.Missing()
    {
      var run := LogFormatter.LogRun(encodeLogs, maxPostBytes, logs, 0, |logs|);
      var out := LogFormatter.FormatLogs(encodeLogs, maxPostBytes, logs);
      assert out == run.Output() && run.Halving() by {
        assert logs[0..|logs|] == logs;
        LogFormatter.RunFormats(encodeLogs, maxPostBytes, logs, 0, |logs|);
      }
      LogFormatter.SpansOfRun(encodeLogs, maxPostBytes, logs, 0, |logs|);
      LogChunksHaveBytes(logs, out, run.Chunks());
      CountedAsSent(run, Outcomes(network, |out|));
    }

    /**
     * Whatever the network does, the logs counted as sent are those delivered exactly when splitting this batch
     * fails to encode no slice and drops no entry.
     */
    lemma LogCountExactly(logs: seq<LogFormatter.LogMessage>, network: Network)
      requires NeverEmpty(encodeLogs)
      ensures var run := LogFormatter.LogRun(encodeLogs, maxPostBytes, logs, 0, |logs|);
              LogCountRight(logs, network) <==> run.Failures() == [] && run.Drops() == []
      ensures LogFormatter.Sendable(encodeLogs, maxPostBytes, logs) ==> LogCountRight(logs, network)
    {
      LogsCounted(logs, network);
      NothingMissing(LogFormatter.LogRun(encodeLogs, maxPostBytes, logs, 0, |logs|));
      if LogFormatter.Sendable(encodeLogs, maxPostBytes, logs) {
        LogFormatter.SendableIsComplete(encodeLogs, maxPostBytes, logs);
      }
    }

    /** A log that is too big alone is not delivered, whatever the network does, and counts as sent. */
    lemma OversizedLogCountsAsSent(log: LogFormatter.LogMessage, network: Network)
      requires encodeLogs([log]).Encoded? && TooBig(encodeLogs([log]).bytes, maxPostBytes)
      ensures LogFormatter.FormatLogs(encodeLogs, maxPostBytes, [log]) == []
      ensures LogsReport([log], network) == 0 && !LogCountRight([log], network)
    {
    }

    /** In every map order the metrics counted as sent are those delivered. */
    ghost predicate MetricCountRight(metrics: Entries, network: Network) {
      forall run :: MetricFormatter.Formats(encodeSeries, prefix, maxPostBytes, metrics, run) ==>
        var ok := Outcomes(network, |run.Output()|);
        |metrics| - UnsentMetrics(run.Output(), ok) == Delivered(run.Output(), ok)
    }

    lemma MetricsCounted(metrics: Entries, network: Network, run: Run<MetricFormatter.Batch>)
      requires NeverEmpty(encodeSeries)
      requires MetricFormatter.Formats(encodeSeries, prefix, maxPostBytes, metrics, run)
      ensures var ok := Outcomes(network, |run.Output()|);
              |metrics| - UnsentMetrics(run.Output(), ok) == Delivered(run.Output(), ok) + run.Missing()
    {
      var out := run.Output();
      MetricFormatter.FormatHalves(encodeSeries, prefix, maxPostBytes, metrics, run);
      MetricFormatter.ChunksAreParts(encodeSeries, prefix, maxPostBytes, metrics, run);
      forall i | 0 <= i < |out| ensures out[i].data != [] {
        assert MetricFormatter.ChunkOf(encodeSeries, prefix, maxPostBytes, metrics, run.Chunks()[i], out[i]);
      }
      CountedAsSent(run, Outcomes(network, |out|));
    }

    /**
     * Whatever the network does, the metrics counted as sent are those delivered under every map order exactly when
     * halving the batch cannot end in a part that fails to encode or in a single key that is too big.
     */
    lemma MetricCountExactly(metrics: Entries, network: Network)
      requires NeverEmpty(encodeSeries)
      ensures MetricCountRight(metrics, network)
              <==> !MetricFormatter.CanLose(encodeSeries, prefix, maxPostBytes, metrics)
      ensures MetricFormatter.Sendable(encodeSeries, prefix, maxPostBytes, metrics) ==> MetricCountRight(metrics, network)
    {
      forall run | MetricFormatter.Formats(encodeSeries, prefix, maxPostBytes, metrics, run)
        ensures var ok := Outcomes(network, |run.Output()|);
                |metrics| - UnsentMetrics(run.Output(), ok) == Delivered(run.Output(), ok) + run.Missing()
      {
        MetricsCounted(metrics, network, run);
      }
      MetricFormatter.CompleteExactly(encodeSeries, prefix, maxPostBytes, metrics);
      if MetricFormatter.Sendable(encodeSeries, prefix, maxPostBytes, metrics) {
        MetricFormatter.SendableNeverLoses(encodeSeries, prefix, maxPostBytes, metrics);
      }
    }

    /** A key that is too big alone is not delivered, whatever the network does, and counts as sent. */
    lemma OversizedMetricCountsAsSent(key: MetricKey, value: MetricValue, network: Network, unsent: nat)
      requires MetricFormatter.Oversized(encodeSeries, prefix, maxPostBytes, map[key := value], [key])
      requires MetricsReport(map[key := value], network, unsent)
      ensures MetricFormatter.MayReturn(encodeSeries, prefix, maxPostBytes, map[key := value], [])
      ensures forall out ::
                MetricFormatter.MayReturn(encodeSeries, prefix, maxPostBytes, map[key := value], out) ==> out == []
      ensures unsent == 0
    {
      var metrics := map[key := value];
      forall run | MetricFormatter.Formats(encodeSeries, prefix, maxPostBytes, metrics, run)
        ensures run.Output() == []
      {
        MetricFormatter.OversizedAlone(encodeSeries, prefix, maxPostBytes, metrics, key, run);
      }
    }
  }
}
