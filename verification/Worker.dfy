/**
 * What a worker makes of an envelope (internal/nozzle/workers.go and internal/processor/processor.go), and what that
 * means for every envelope taken in any run.
 */
module Worker {
  import opened Sequences
  import opened Text
  import opened Metrics
  import opened Envelopes
  import opened Util
  import opened InfraParser
  import LogFormatter
  import Pipeline

  // ---------------------------------------------------------------- one turn of a worker

  /**
   * work and ProcessMetric on one envelope. `log` is the message made of it, or None when its app opted out;
   * `appMetrics` is what the app parser makes of a container metric, or None when it is off, not ready or fails.
   */
  method Work(cfg: Pipeline.Config, e: Envelope, log: Option<LogFormatter.LogMessage>,
              appMetrics: Option<seq<MetricPackage>>)
    returns (o: Pipeline.Outcome)
    requires InfraEnvelope(e) ==> NoNilValues(e)
    ensures Pipeline.MayYield(cfg, e, o)
    ensures o.Metrics? && !InfraEnvelope(e) ==> appMetrics == Some(o.pkg.metrics)
    ensures o.Log? ==> log == Some(o.msg)
  {
    var keep := KeepMessage(cfg, e);
    if !keep {
      return Pipeline.Filtered;
    }
    if cfg.logsEnabled && e.message.Log? {
      return if log.Some? then Pipeline.Outcome.Log(log.value) else Pipeline.OptedOut;
    }
    var result, _, _ := ParseMetrics(e, cfg.parser);
    if result.Packages? {
      return Pipeline.Outcome.Metrics(Pipeline.Package(result.packages));
    }
    var container := IsContainerMetric(e);
    if container && appMetrics.Some? {
      return Pipeline.Outcome.Metrics(Pipeline.Package(appMetrics.value));
    }
    return Pipeline.Unparseable;
  }

  method KeepMessage(cfg: Pipeline.Config, e: Envelope) returns (keep: bool)
    ensures keep <==> cfg.deploymentFilter == "" || ("deployment" in e.tags && e.tags["deployment"] == cfg.deploymentFilter)
  {
    var deployment := if "deployment" in e.tags then e.tags["deployment"] else "";
    keep := cfg.deploymentFilter == "" || cfg.deploymentFilter == deployment;
  }

  // ---------------------------------------------------------------- what becomes of each kind of envelope

  /** One package of these carries just this value under this name, at the envelope's time in whole seconds. */
  ghost predicate Carried(e: Envelope, metrics: seq<MetricPackage>, name: string, value: Float) {
    exists k, t :: 0 <= k < |metrics|
      && metrics[k].key.name == name && metrics[k].value.points == [Point(t, value)]
      && if e.timestamp >= 0 then t * 1000000000 <= e.timestamp < (t + 1) * 1000000000
         else (t - 1) * 1000000000 < e.timestamp <= t * 1000000000
  }

  /** On the envelope's own fields: what a worker must make of it. */
  ghost predicate Proper(cfg: Pipeline.Config, e: Envelope, o: Pipeline.Outcome) {
    if cfg.deploymentFilter != "" && !("deployment" in e.tags && e.tags["deployment"] == cfg.deploymentFilter)
    then o.Filtered?
    else
      match e.message
      case Log(_) => if cfg.logsEnabled then o.Log? || o.OptedOut? else o.Unparseable?
      case Counter(name, _, total) => o.Metrics? && Carried(e, o.pkg.metrics, name, Finite(total as real))
      case Gauge(metrics) =>
        if Usable(metrics, "cpu") && Usable(metrics, "memory") && Usable(metrics, "disk")
           && Usable(metrics, "memory_quota") && Usable(metrics, "disk_quota")
        then o.Metrics? || o.Unparseable?
        else
          o.Metrics?
          && forall name :: name in metrics ==>
               metrics[name].Some? && Carried(e, o.pkg.metrics, name, metrics[name].value.value)
      case OtherMessage => o.Unparseable?
  }

  /** What is left of a name after the forwarder prefix. */
  lemma AfterForwarder(name: string) returns (rest: string)
    ensures HasPrefix(name, "bosh-hm-forwarder") ==> name == "bosh-hm-forwarder" + rest
  {
    PrefixExactly(name, "bosh-hm-forwarder");
    if HasPrefix(name, "bosh-hm-forwarder") {
      rest :| name == "bosh-hm-forwarder" + rest;
    } else {
      rest := "";
    }
  }

  lemma FirstCarries(e: Envelope, metrics: seq<MetricPackage>, k: nat, name: string, value: Float, t: int)
    requires k < |metrics| && metrics[k].key.name == name && metrics[k].value.points == [Point(t, value)]
    requires if e.timestamp >= 0 then t * 1000000000 <= e.timestamp < (t + 1) * 1000000000
             else (t - 1) * 1000000000 < e.timestamp <= t * 1000000000
    ensures Carried(e, metrics, name, value)
  {
  }

  lemma CounterCarried(e: Envelope, cfg: Config, tagOrder: seq<string>, valueOrder: seq<string>)
    requires e.message.Counter? && Enumerates(valueOrder, Values(e).Keys)
    ensures Carried(e, Parsed(e, cfg, tagOrder, valueOrder), e.message.name, Finite(e.message.total as real))
  {
    var name, t, host := e.message.name, Seconds(e.timestamp), ParseHost(e);
    var rest := AfterForwarder(name);
    SecondsExactly(e.timestamp, t);
    HostExactly(e);
    ValueNames(e);
    CounterPublished(e, cfg, tagOrder, valueOrder, name, e.message.delta, e.message.total, t, host, rest);
    FirstCarries(e, Parsed(e, cfg, tagOrder, valueOrder), 0, name, Finite(e.message.total as real), t);
  }

  lemma PieceCarries(e: Envelope, f: string -> seq<MetricPackage>, order: seq<string>, pkg: MetricPackage, name: string,
                     value: Float, t: int)
    requires name in order && pkg in f(name)
    requires pkg.key.name == name && pkg.value.points == [Point(t, value)]
    requires if e.timestamp >= 0 then t * 1000000000 <= e.timestamp < (t + 1) * 1000000000
             else (t - 1) * 1000000000 < e.timestamp <= t * 1000000000
    ensures Carried(e, Flatten(Map(f, order)), name, value)
  {
    var all := Flatten(Map(f, order));
    FlattenMapMembers(f, order, pkg);
    var k :| 0 <= k < |all| && all[k] == pkg;
    FirstCarries(e, all, k, name, value, t);
  }

  lemma EntryCarried(e: Envelope, tags: seq<string>, hash: string, metrics: map<string, Option<GaugeValue>>,
                     order: seq<string>, name: string)
    requires e.message == Gauge(metrics) && NoNilValues(e) && name in metrics
    requires Enumerates(order, metrics.Keys)
    ensures Carried(e, Flatten(Map(PackageMaker(e, tags, hash, Values(e)), order)), name, metrics[name].value.value)
  {
    var t, host := Seconds(e.timestamp), ParseHost(e);
    var rest := AfterForwarder(name);
    SecondsExactly(e.timestamp, t);
    HostExactly(e);
    GaugeEntry(e, tags, hash, metrics, name, t, host, rest);
    EnumeratesMembers(order, metrics.Keys);
    var f := PackageMaker(e, tags, hash, Values(e));
    PieceCarries(e, f, order, f(name)[0], name, metrics[name].value.value, t);
  }

  lemma InfraProper(cfg: Pipeline.Config, e: Envelope, o: Pipeline.Outcome)
    requires Pipeline.MayYield(cfg, e, o) && Pipeline.KeepMessage(cfg, e) && InfraEnvelope(e)
    ensures Proper(cfg, e, o)
  {
    var tagOrder, valueOrder :|
      Enumerates(tagOrder, e.tags.Keys) && Enumerates(valueOrder, Values(e).Keys)
      && o.pkg.metrics == Parsed(e, cfg.parser, tagOrder, valueOrder);
    if e.message.Counter? {
      CounterCarried(e, cfg.parser, tagOrder, valueOrder);
    } else {
      ContainerExactly(e);
      forall name | name in e.message.metrics
        ensures Carried(e, o.pkg.metrics, name, e.message.metrics[name].value.value)
      {
        var raw := RawTags(e, cfg.parser, tagOrder);
        ValueNames(e);
        EntryCarried(e, Sort(raw), HashOf(cfg.parser.digest, raw), e.message.metrics, valueOrder, name);
      }
    }
  }

  /** The state machine lets a worker make nothing else of an envelope. */
  lemma YieldsProper(cfg: Pipeline.Config, e: Envelope, o: Pipeline.Outcome)
    requires Pipeline.MayYield(cfg, e, o)
    ensures Proper(cfg, e, o)
  {
    ContainerExactly(e);
    if Pipeline.KeepMessage(cfg, e) && InfraEnvelope(e) {
      InfraProper(cfg, e, o);
    }
  }

  /** And it can always make something of one, unless a gauge has a nil value. */
  lemma SomethingYields(cfg: Pipeline.Config, e: Envelope) returns (o: Pipeline.Outcome)
    requires InfraEnvelope(e) ==> NoNilValues(e)
    ensures Pipeline.MayYield(cfg, e, o)
  {
    if !Pipeline.KeepMessage(cfg, e) {
      o := Pipeline.Filtered;
    } else if cfg.logsEnabled && e.message.Log? {
      o := Pipeline.OptedOut;
    } else if InfraEnvelope(e) {
      EnumerationExists(e.tags.Keys);
      EnumerationExists(Values(e).Keys);
      var tagOrder: seq<string> :| Enumerates(tagOrder, e.tags.Keys);
      var valueOrder: seq<string> :| Enumerates(valueOrder, Values(e).Keys);
      o := Pipeline.Outcome.Metrics(Pipeline.Package(Parsed(e, cfg.parser, tagOrder, valueOrder)));
    } else {
      o := Pipeline.Unparseable;
    }
  }

  // ---------------------------------------------------------------- every run

  ghost predicate AllProper(cfg: Pipeline.Config, taken: seq<(Envelope, Pipeline.Outcome)>) {
    forall i :: 0 <= i < |taken| ==> Proper(cfg, taken[i].0, taken[i].1)
  }

  lemma ProperNext(cfg: Pipeline.Config, taken: seq<(Envelope, Pipeline.Outcome)>, e: Envelope, o: Pipeline.Outcome)
    requires AllProper(cfg, taken) && Proper(cfg, e, o)
    ensures AllProper(cfg, taken + [(e, o)])
  {
  }

  lemma StepProper(cfg: Pipeline.Config, s: Pipeline.State, step: Pipeline.Step)
    requires AllProper(cfg, s.flow.taken) && Pipeline.Enabled(cfg, s, step)
    ensures AllProper(cfg, Pipeline.Do(cfg, s, step).flow.taken)
  {
    match step
    case Take(_, o) =>
      YieldsProper(cfg, s.flow.messages[0], o);
      ProperNext(cfg, s.flow.taken, s.flow.messages[0], o);
    case _ =>
  }

  /** In every reachable state every envelope that was taken was treated as its own fields demand. */
  lemma {:induction false} TakenProper(cfg: Pipeline.Config, steps: seq<Pipeline.Step>)
    requires Pipeline.After(cfg, steps).Some?
    ensures AllProper(cfg, Pipeline.After(cfg, steps).value.flow.taken)
  {
    if steps == [] {
    } else {
      TakenProper(cfg, steps[..|steps| - 1]);
      StepProper(cfg, Pipeline.After(cfg, steps[..|steps| - 1]).value, steps[|steps| - 1]);
    }
  }

  /** A counter, or a gauge that lacks one of the five container values, is only ever discarded by the filter. */
  lemma NeverDiscarded(cfg: Pipeline.Config, steps: seq<Pipeline.Step>, i: nat)
    requires Pipeline.After(cfg, steps).Some? && i < |Pipeline.After(cfg, steps).value.flow.taken|
    ensures var (e, o) := Pipeline.After(cfg, steps).value.flow.taken[i];
            && (o.Filtered? <==> cfg.deploymentFilter != ""
                                 && !("deployment" in e.tags && e.tags["deployment"] == cfg.deploymentFilter))
            && (!o.Filtered? && (e.message.Counter? || (e.message.Gauge? && !ContainerMetric(e))) ==> o.Metrics?)
            && (o.Metrics? ==> !(cfg.logsEnabled && e.message.Log?))
            && (o.Log? ==> cfg.logsEnabled && e.message.Log?)
  {
    TakenProper(cfg, steps);
    var taken := Pipeline.After(cfg, steps).value.flow.taken;
    ContainerExactly(taken[i].0);
    assert Proper(cfg, taken[i].0, taken[i].1);
  }
}
