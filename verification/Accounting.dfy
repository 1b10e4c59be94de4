/** The sent and dropped counters of the nozzle, over whole runs (internal/nozzle/nozzle.go). */
module Accounting {
  const UINT64: nat := 0x1_0000_0000_0000_0000

  /** uint64 subtraction: it wraps when the second operand is the larger. */
  function Sub64(a: nat, b: nat): nat {
    if b <= a then a - b else (a + UINT64 - b % UINT64) % UINT64
  }

  /** What is left fits 64 bits and gives the first operand back, modulo 2^64, when the second is added. */
  lemma Sub64Exactly(a: nat, b: nat)
    requires a < 0x1_0000_0000_0000_0000 && b < 0x1_0000_0000_0000_0000
    ensures Sub64(a, b) < 0x1_0000_0000_0000_0000
    ensures Sub64(a, b) + b == a || Sub64(a, b) + b == a + 0x1_0000_0000_0000_0000
    ensures b <= a ==> Sub64(a, b) == a - b
  {
  }

  /** One client's post of a batch of `size` items. */
  datatype Post = Post(size: nat, unsent: nat) {
    ghost predicate Valid() { unsent <= size }

    function Sent(): nat { Sub64(size, unsent) }
  }

  datatype Amounts = Amounts(metricsSent: nat, metricsDropped: nat, logsSent: nat, logsDropped: nat) {
    function Plus(other: Amounts): Amounts {
      Amounts(metricsSent + other.metricsSent, metricsDropped + other.metricsDropped,
              logsSent + other.logsSent, logsDropped + other.logsDropped)
    }
  }

  const ZERO := Amounts(0, 0, 0, 0)

  /** The counter fields of the nozzle: two running totals and the amounts not reported yet. */
  datatype Books = Books(totalMetricsSent: nat, totalLogsSent: nat, pending: Amounts) {

    /** The values put into metrics.sent, metrics.dropped, logs.sent and logs.dropped for the next client. */
    function Due(): Amounts {
      Amounts(
        if totalMetricsSent > 0 then pending.metricsSent else 0,
        if totalMetricsSent > 0 then pending.metricsDropped else 0,
        if totalLogsSent > 0 then pending.logsSent else 0,
        if totalLogsSent > 0 then pending.logsDropped else 0)
    }

    function AfterReport(): Books {
      this.(pending := Amounts(
        if totalMetricsSent > 0 then 0 else pending.metricsSent,
        if totalMetricsSent > 0 then 0 else pending.metricsDropped,
        if totalLogsSent > 0 then 0 else pending.logsSent,
        if totalLogsSent > 0 then 0 else pending.logsDropped))
    }

    function AfterMetrics(p: Post): Books {
      this.(pending := pending.(
        metricsSent := pending.metricsSent + p.Sent(),
        metricsDropped := pending.metricsDropped + p.unsent))
    }

    function AfterLogs(p: Post): Books {
      this.(pending := pending.(
        logsSent := pending.logsSent + p.Sent(),
        logsDropped := pending.logsDropped + p.unsent))
    }

    /** The loop of postMetrics over the clients. */
    function MetricsPosted(posts: seq<Post>): Books {
      if posts == [] then this
      else MetricsPosted(posts[..|posts| - 1]).AfterReport().AfterMetrics(posts[|posts| - 1])
    }

    function MetricsFlushed(posts: seq<Post>): Books {
      var b := MetricsPosted(posts);
      b.(totalMetricsSent := b.totalMetricsSent + b.pending.metricsSent)
    }

    /** The loop of postLogs over the clients. */
    function LogsPosted(posts: seq<Post>): Books {
      if posts == [] then this
      else LogsPosted(posts[..|posts| - 1]).AfterLogs(posts[|posts| - 1])
    }

    function LogsFlushed(posts: seq<Post>): Books {
      var b := LogsPosted(posts);
      b.(totalLogsSent := b.totalLogsSent + b.pending.logsSent)
    }

    /** All that one metrics flush reports, over its clients. */
    ghost function Reported(posts: seq<Post>): Amounts {
      if posts == [] then ZERO
      else Reported(posts[..|posts| - 1]).Plus(MetricsPosted(posts[..|posts| - 1]).Due())
    }
  }

  const NEW_BOOKS := Books(0, 0, ZERO)

  // ---------------------------------------------------------------- nothing is counted twice or lost

  datatype Flush = Metrics(posts: seq<Post>) | Logs(posts: seq<Post>)

  ghost function PostedAmounts(f: Flush): Amounts {
    match f
    case Metrics(posts) => Amounts(SentBy(posts), UnsentBy(posts), 0, 0)
    case Logs(posts) => Amounts(0, 0, SentBy(posts), UnsentBy(posts))
  }

  function SentBy(posts: seq<Post>): nat {
    if posts == [] then 0 else SentBy(posts[..|posts| - 1]) + posts[|posts| - 1].Sent()
  }

  function UnsentBy(posts: seq<Post>): nat {
    if posts == [] then 0 else UnsentBy(posts[..|posts| - 1]) + posts[|posts| - 1].unsent
  }

  function AfterFlush(b: Books, f: Flush): Books {
    match f
    case Metrics(posts) => b.MetricsFlushed(posts)
    case Logs(posts) => b.LogsFlushed(posts)
  }

  function AfterFlushes(b: Books, fs: seq<Flush>): Books {
    if fs == [] then b else AfterFlush(AfterFlushes(b, fs[..|fs| - 1]), fs[|fs| - 1])
  }

  ghost function ReportedOver(b: Books, fs: seq<Flush>): Amounts {
    if fs == [] then ZERO
    else
      var before := AfterFlushes(b, fs[..|fs| - 1]);
      var last := fs[|fs| - 1];
      ReportedOver(b, fs[..|fs| - 1]).Plus(ReportedBy(before, last))
  }

  ghost function PostedOver(fs: seq<Flush>): Amounts {
    if fs == [] then ZERO else PostedOver(fs[..|fs| - 1]).Plus(PostedAmounts(fs[|fs| - 1]))
  }

  lemma {:induction false} MetricsLoopConserves(b: Books, posts: seq<Post>)
    ensures b.Reported(posts).Plus(b.MetricsPosted(posts).pending)
         == b.pending.Plus(Amounts(SentBy(posts), UnsentBy(posts), 0, 0))
    ensures b.MetricsPosted(posts).totalLogsSent == b.totalLogsSent
    ensures b.MetricsPosted(posts).totalMetricsSent == b.totalMetricsSent
  {
    if posts == [] {
    } else {
      MetricsLoopConserves(b, posts[..|posts| - 1]);
    }
  }

  lemma {:induction false} LogsLoop(b: Books, posts: seq<Post>)
    ensures b.LogsPosted(posts) == b.(pending := b.pending.Plus(Amounts(0, 0, SentBy(posts), UnsentBy(posts))))
  {
    if posts == [] {
    } else {
      LogsLoop(b, posts[..|posts| - 1]);
    }
  }

  ghost function ReportedBy(b: Books, f: Flush): Amounts {
    if f.Metrics? then b.Reported(f.posts) else ZERO
  }

  lemma FlushConserves(b: Books, f: Flush)
    ensures ReportedBy(b, f).Plus(AfterFlush(b, f).pending) == b.pending.Plus(PostedAmounts(f))
  {
    match f
    case Metrics(posts) => MetricsLoopConserves(b, posts);
    case Logs(posts) => LogsLoop(b, posts);
  }

  /** Two balances in a row make one. */
  lemma Chained(reported: Amounts, more: Amounts, start: Amounts, middle: Amounts, end: Amounts, posted: Amounts,
                last: Amounts)
    requires reported.Plus(middle) == start.Plus(posted) && more.Plus(end) == middle.Plus(last)
    ensures reported.Plus(more).Plus(end) == start.Plus(posted.Plus(last))
  {
  }

  /**
   * For any number of clients, any post outcomes and any interleaving of metric and log flushes: what was reported
   * so far plus what is still pending is what was posted, for each of the four amounts.
   */
  lemma {:induction false} ReportsConserved(b: Books, fs: seq<Flush>)
    ensures ReportedOver(b, fs).Plus(AfterFlushes(b, fs).pending) == b.pending.Plus(PostedOver(fs))
  {
    if fs == [] {
    } else {
      var front, last := fs[..|fs| - 1], fs[|fs| - 1];
      var before := AfterFlushes(b, front);
      ReportsConserved(b, front);
      FlushConserves(before, last);
      Chained(ReportedOver(b, front), ReportedBy(before, last), b.pending, before.pending,
              AfterFlush(before, last).pending, PostedOver(front), PostedAmounts(last));
    }
  }

  // ---------------------------------------------------------------- the running totals

  /** One turn of the run loop: metrics to every client, then logs to every client. */
  datatype Tick = Tick(metrics: seq<Post>, logs: seq<Post>)

  ghost predicate TicksFor(clients: nat, ticks: seq<Tick>) {
    forall t :: t in ticks ==> |t.metrics| == clients && |t.logs| == clients
  }

  function AfterTick(b: Books, t: Tick): Books {
    b.MetricsFlushed(t.metrics).LogsFlushed(t.logs)
  }

  function AfterTicks(b: Books, ticks: seq<Tick>): Books {
    if ticks == [] then b else AfterTick(AfterTicks(b, ticks[..|ticks| - 1]), ticks[|ticks| - 1])
  }

  ghost function MetricsSentOver(ticks: seq<Tick>): nat {
    if ticks == [] then 0 else MetricsSentOver(ticks[..|ticks| - 1]) + SentBy(ticks[|ticks| - 1].metrics)
  }

  ghost function LogsSentOver(ticks: seq<Tick>): nat {
    if ticks == [] then 0 else LogsSentOver(ticks[..|ticks| - 1]) + SentBy(ticks[|ticks| - 1].logs)
  }

  /** While a total is zero nothing is pending. */
  ghost predicate Settled(b: Books) {
    (b.totalMetricsSent == 0 ==> b.pending.metricsSent == 0) && (b.totalLogsSent == 0 ==> b.pending.logsSent == 0)
  }

  /** What a metrics flush adds to totalMetricsSent: everything the first time, later only the last client's share. */
  function Counted(totalBefore: nat, posts: seq<Post>): nat {
    if posts == [] then 0
    else if totalBefore == 0 then SentBy(posts)
    else posts[|posts| - 1].Sent()
  }

  lemma {:induction false} PendingAfterPosts(b: Books, posts: seq<Post>)
    requires Settled(b) && posts != []
    ensures b.MetricsPosted(posts).pending.metricsSent == Counted(b.totalMetricsSent, posts)
    ensures b.MetricsPosted(posts).pending.logsSent == 0
    ensures b.MetricsPosted(posts).totalMetricsSent == b.totalMetricsSent
    ensures b.MetricsPosted(posts).totalLogsSent == b.totalLogsSent
  {
    var front := posts[..|posts| - 1];
    if front == [] {
      assert b.MetricsPosted(front) == b && SentBy(front) == 0;
    } else {
      PendingAfterPosts(b, front);
    }
  }

  lemma TickTotals(b: Books, t: Tick)
    requires Settled(b) && t.metrics != []
    ensures Settled(AfterTick(b, t))
    ensures AfterTick(b, t).totalLogsSent == b.totalLogsSent + SentBy(t.logs)
    ensures AfterTick(b, t).totalMetricsSent == b.totalMetricsSent + Counted(b.totalMetricsSent, t.metrics)
  {
    PendingAfterPosts(b, t.metrics);
    LogsLoop(b.MetricsFlushed(t.metrics), t.logs);
  }

  /** With at least one client, totalLogsSent is exactly what all log posts sent, after every tick. */
  lemma {:induction false} LogTotalExact(clients: nat, ticks: seq<Tick>)
    requires clients >= 1 && TicksFor(clients, ticks)
    ensures AfterTicks(NEW_BOOKS, ticks).totalLogsSent == LogsSentOver(ticks)
    ensures Settled(AfterTicks(NEW_BOOKS, ticks))
  {
    if ticks == [] {
    } else {
      var front, last := ticks[..|ticks| - 1], ticks[|ticks| - 1];
      assert last in ticks;
      LogTotalExact(clients, front);
      TickTotals(AfterTicks(NEW_BOOKS, front), last);
    }
  }

  /** In tick t the clients before the last one sent nothing, or nothing at all had been sent before it. */
  ghost predicate LastClientOnly(ticks: seq<Tick>, t: nat)
    requires t < |ticks|
  {
    MetricsSentOver(ticks[..t]) > 0 ==> AllButLast(ticks[t].metrics) == 0
  }

  function AllButLast(posts: seq<Post>): nat {
    if posts == [] then 0 else SentBy(posts[..|posts| - 1])
  }

  ghost predicate OneSenderPerTick(ticks: seq<Tick>) {
    forall t :: 0 <= t < |ticks| ==> LastClientOnly(ticks, t)
  }

  lemma OneSenderNext(front: seq<Tick>, last: Tick)
    ensures OneSenderPerTick(front + [last]) <==>
            OneSenderPerTick(front) && (MetricsSentOver(front) > 0 ==> AllButLast(last.metrics) == 0)
  {
    var ticks := front + [last];
    assert forall t :: 0 <= t < |front| ==> ticks[..t] == front[..t] && ticks[t] == front[t];
    assert ticks[..|front|] == front;
    if OneSenderPerTick(ticks) {
      forall t | 0 <= t < |front| ensures LastClientOnly(front, t) {
        assert LastClientOnly(ticks, t);
      }
      assert LastClientOnly(ticks, |front|);
    }
    if OneSenderPerTick(front) && LastClientOnly(ticks, |front|) {
      forall t | 0 <= t < |ticks| ensures LastClientOnly(ticks, t) {
        if t < |front| { assert LastClientOnly(front, t); }
      }
    }
  }

  /**
   * totalMetricsSent never exceeds what all metric posts sent, and equals it exactly when, in every tick after the
   * first successful one, only the last client sent anything.
   */
  lemma {:induction false} MetricTotal(clients: nat, ticks: seq<Tick>)
    requires clients >= 1 && TicksFor(clients, ticks)
    ensures AfterTicks(NEW_BOOKS, ticks).totalMetricsSent <= MetricsSentOver(ticks)
    ensures AfterTicks(NEW_BOOKS, ticks).totalMetricsSent == 0 <==> MetricsSentOver(ticks) == 0
    ensures AfterTicks(NEW_BOOKS, ticks).totalMetricsSent == MetricsSentOver(ticks) <==> OneSenderPerTick(ticks)
  {
    if ticks == [] {
    } else {
      var front, last := ticks[..|ticks| - 1], ticks[|ticks| - 1];
      assert last in ticks && ticks == front + [last];
      MetricTotal(clients, front);
      LogTotalExact(clients, front);
      TickTotals(AfterTicks(NEW_BOOKS, front), last);
      OneSenderNext(front, last);
    }
  }

  /** With a single client totalMetricsSent is exact. */
  lemma {:induction false} MetricTotalSingleClient(ticks: seq<Tick>)
    requires TicksFor(1, ticks)
    ensures AfterTicks(NEW_BOOKS, ticks).totalMetricsSent == MetricsSentOver(ticks)
  {
    MetricTotal(1, ticks);
    forall t | 0 <= t < |ticks| ensures LastClientOnly(ticks, t) {
      assert ticks[t] in ticks;
    }
  }

  /** Repeating a tick that sent something counts only its last client's share the second time. */
  lemma RepeatedTick(t: Tick)
    requires t.metrics != [] && SentBy(t.metrics) > 0
    ensures MetricsSentOver([t, t]) == 2 * SentBy(t.metrics)
    ensures AfterTicks(NEW_BOOKS, [t, t]).totalMetricsSent == SentBy(t.metrics) + t.metrics[|t.metrics| - 1].Sent()
  {
    assert [t, t][..1] == [t] && [t][..0] == [];
    assert MetricsSentOver([t]) == SentBy(t.metrics);
    assert AfterTicks(NEW_BOOKS, [t]) == AfterTick(NEW_BOOKS, t);
    TickTotals(NEW_BOOKS, t);
    TickTotals(AfterTick(NEW_BOOKS, t), t);
  }

  /** With two clients that both send 8 items in each of two ticks, 32 items were sent and 24 are counted. */
  lemma TwoClientsUndercount()
    ensures var posts := [Post(8, 0), Post(8, 0)];
            var ticks := [Tick(posts, posts), Tick(posts, posts)];
            MetricsSentOver(ticks) == 32 && AfterTicks(NEW_BOOKS, ticks).totalMetricsSent == 24
  {
    var posts := [Post(8, 0), Post(8, 0)];
    assert posts[..1] == [Post(8, 0)] && [Post(8, 0)][..0] == [];
    assert SentBy(posts) == 16;
    RepeatedTick(Tick(posts, posts));
  }

  /** The shutdown flush: metrics, then logs when application logs are enabled. */
  lemma FinalFlushTotals(clients: nat, ticks: seq<Tick>, last: Tick, logsEnabled: bool)
    requires clients >= 1 && TicksFor(clients, ticks + [last])
    ensures var b := AfterTicks(NEW_BOOKS, ticks).MetricsFlushed(last.metrics);
            var final := if logsEnabled then b.LogsFlushed(last.logs) else b;
            final.totalLogsSent == LogsSentOver(ticks) + (if logsEnabled then SentBy(last.logs) else 0)
            && final.totalMetricsSent <= MetricsSentOver(ticks + [last])
            && (clients == 1 ==> final.totalMetricsSent == MetricsSentOver(ticks + [last]))
  {
    assert (ticks + [last])[..|ticks|] == ticks && last in ticks + [last];
    LogTotalExact(clients, ticks);
    MetricTotal(clients, ticks + [last]);
    if clients == 1 {
      MetricTotalSingleClient(ticks + [last]);
    }
    var b := AfterTicks(NEW_BOOKS, ticks);
    PendingAfterPosts(b, last.metrics);
    TickTotals(b, last);
    LogsLoop(b.MetricsFlushed(last.metrics), last.logs);
  }

  // ---------------------------------------------------------------- what was counted and what arrived

  /** Of the items that a post counts as sent, those that were delivered and those that the formatter left out. */
  datatype Fate = Fate(delivered: nat, missing: nat)

  ghost predicate Explains(fates: seq<Fate>, posts: seq<Post>) {
    && |fates| == |posts|
    && forall i :: 0 <= i < |posts| ==> posts[i].Sent() == fates[i].delivered + fates[i].missing
  }

  function DeliveredIn(fates: seq<Fate>): nat {
    if fates == [] then 0 else DeliveredIn(fates[..|fates| - 1]) + fates[|fates| - 1].delivered
  }

  ghost predicate NoneMissing(fates: seq<Fate>) {
    forall i :: 0 <= i < |fates| ==> fates[i].missing == 0
  }

  /** Nothing that arrived goes uncounted, and the count is right exactly when nothing was left out. */
  lemma {:induction false} SentExplained(fates: seq<Fate>, posts: seq<Post>)
    requires Explains(fates, posts)
    ensures DeliveredIn(fates) <= SentBy(posts)
    ensures SentBy(posts) == DeliveredIn(fates) <==> NoneMissing(fates)
  {
    if posts == [] {
    } else {
      SentExplained(fates[..|fates| - 1], posts[..|posts| - 1]);
    }
  }

  function DeliveredOver(fates: seq<seq<Fate>>): nat {
    if fates == [] then 0 else DeliveredOver(fates[..|fates| - 1]) + DeliveredIn(fates[|fates| - 1])
  }

  ghost predicate NoneMissingOver(fates: seq<seq<Fate>>) {
    forall t :: 0 <= t < |fates| ==> NoneMissing(fates[t])
  }

  ghost predicate ExplainsLogs(fates: seq<seq<Fate>>, ticks: seq<Tick>) {
    |fates| == |ticks| && forall t :: 0 <= t < |ticks| ==> Explains(fates[t], ticks[t].logs)
  }

  ghost predicate ExplainsMetrics(fates: seq<seq<Fate>>, ticks: seq<Tick>) {
    |fates| == |ticks| && forall t :: 0 <= t < |ticks| ==> Explains(fates[t], ticks[t].metrics)
  }

  lemma {:induction false} LogsExplained(fates: seq<seq<Fate>>, ticks: seq<Tick>)
    requires ExplainsLogs(fates, ticks)
    ensures DeliveredOver(fates) <= LogsSentOver(ticks)
    ensures LogsSentOver(ticks) == DeliveredOver(fates) <==> NoneMissingOver(fates)
  {
    if ticks == [] {
    } else {
      var n := |ticks| - 1;
      LogsExplained(fates[..n], ticks[..n]);
      SentExplained(fates[n], ticks[n].logs);
    }
  }

  lemma {:induction false} MetricsExplained(fates: seq<seq<Fate>>, ticks: seq<Tick>)
    requires ExplainsMetrics(fates, ticks)
    ensures DeliveredOver(fates) <= MetricsSentOver(ticks)
    ensures MetricsSentOver(ticks) == DeliveredOver(fates) <==> NoneMissingOver(fates)
  {
    if ticks == [] {
    } else {
      var n := |ticks| - 1;
      MetricsExplained(fates[..n], ticks[..n]);
      SentExplained(fates[n], ticks[n].metrics);
    }
  }
}
