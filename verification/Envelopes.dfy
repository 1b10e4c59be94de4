/** The parts of a loggregator envelope that the nozzle reads. */
module Envelopes {
  import opened Sequences
  import opened Metrics

  datatype GaugeValue = GaugeValue(unit: string, value: Float)

  datatype Message =
    | Counter(name: string, delta: nat, total: nat)
    | Gauge(metrics: map<string, Option<GaugeValue>>)   // None is a nil *GaugeValue
    | Log(payload: string)
    | OtherMessage

  datatype Envelope = Envelope(
    timestamp: int, sourceId: string, instanceId: string, tags: map<string, string>, message: Message)
  {
    function TagOrEmpty(name: string): string {
      if name in tags then tags[name] else ""
    }
  }
}
