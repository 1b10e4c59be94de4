/** From envelopes to metric packages (internal/processor/parser/infra.go and util.go). */
module InfraParser {
  import opened Sequences
  import opened Text
  import opened Metrics
  import opened Envelopes
  import opened Util

  /** The two UUID-removing regular expressions are any functions. */
  datatype Config = Config(
    environment: string,
    dropDeploymentUUID: string -> string,
    dropPartitionUUID: string -> string,
    customTags: seq<string>,
    digest: string -> string)

  datatype ParseResult = NotInfra | Packages(packages: seq<MetricPackage>)

  function NonEmptyTag(key: string, value: string): seq<string> {
    if value != "" then [key + ":" + value] else []
  }

  function AppendTagIfNotEmpty(tags: seq<string>, key: string, value: string): seq<string> {
    tags + NonEmptyTag(key, value)
  }

  function ParseHost(env: Envelope): string {
    if env.TagOrEmpty("index") != "" then env.TagOrEmpty("index") else env.TagOrEmpty("origin")
  }

  // ---------------------------------------------------------------- parseTags

  /** The tags taken from the envelope's tag map when the range loop visits it in the given order. */
  function TagsInOrder(env: Envelope, order: seq<string>): seq<string> {
    Flatten(Map(TagMaker(env), order))
  }

  function TagMaker(env: Envelope): string -> seq<string> {
    (name: string) => NonEmptyTag(name, env.TagOrEmpty(name))
  }

  function DeploymentTags(env: Envelope, cfg: Config): seq<string> {
    if "deployment" !in env.tags then []
    else
      var short := cfg.dropDeploymentUUID(env.tags["deployment"]);
      (if cfg.environment != "" then NonEmptyTag("deployment", short + "_" + cfg.environment) else [])
      + (if short != env.tags["deployment"] then NonEmptyTag("deployment", short) else [])
  }

  function JobTags(env: Envelope, cfg: Config): seq<string> {
    if "job" !in env.tags then []
    else
      var short := cfg.dropPartitionUUID(env.tags["job"]);
      if short != env.tags["job"] then NonEmptyTag("job", short) else []
  }

  function OwnTags(env: Envelope, cfg: Config): seq<string> {
    NonEmptyTag("name", env.TagOrEmpty("origin"))
    + NonEmptyTag("instance_id", env.instanceId)
    + NonEmptyTag("source_id", env.sourceId)
    + NonEmptyTag("container_id", env.TagOrEmpty("process_instance_id"))
    + NonEmptyTag("env", cfg.environment)
  }

  /** Everything appended after the loop: no map order is involved. */
  function DerivedTags(env: Envelope, cfg: Config): seq<string> {
    OwnTags(env, cfg) + (DeploymentTags(env, cfg) + JobTags(env, cfg))
  }

  /** The range loop of parseTags. */
  method TagsFromMap(env: Envelope) returns (tags: seq<string>, ghost order: seq<string>)
    ensures Enumerates(order, env.tags.Keys)
    ensures tags == TagsInOrder(env, order)
  {
    tags, order := [], [];
    var todo := env.tags.Keys;
    while todo != {}
      invariant todo <= env.tags.Keys
      invariant Enumerates(order, env.tags.Keys - todo)
      invariant tags == TagsInOrder(env, order)
      decreases todo
    {
      var name :| name in todo;
      tags := AppendTagIfNotEmpty(tags, name, env.tags[name]);
      EnumeratesNext(order, env.tags.Keys, todo, name);
      FlattenMapNext(TagMaker(env), order, name);
      order := order + [name];
      todo := todo - {name};
    }
    assert env.tags.Keys - {} == env.tags.Keys;
  }

  method ParseTags(env: Envelope, cfg: Config) returns (tags: seq<string>, ghost order: seq<string>)
    ensures Enumerates(order, env.tags.Keys)
    ensures tags == TagsInOrder(env, order) + DerivedTags(env, cfg)
  {
    tags, order := TagsFromMap(env);
    var more := IdentityTags(env, cfg);
    tags := tags + more;
    more := RenamedTags(env, cfg);
    tags := tags + more;
  }

  method IdentityTags(env: Envelope, cfg: Config) returns (tags: seq<string>)
    ensures tags == OwnTags(env, cfg)
  {
    tags := [];
    if "origin" in env.tags {
      tags := AppendTagIfNotEmpty(tags, "name", env.tags["origin"]);
    }
    tags := AppendTagIfNotEmpty(tags, "instance_id", env.instanceId);
    tags := AppendTagIfNotEmpty(tags, "source_id", env.sourceId);
    tags := AppendTagIfNotEmpty(tags, "container_id", env.TagOrEmpty("process_instance_id"));
    tags := AppendTagIfNotEmpty(tags, "env", cfg.environment);
  }

  /** The deployment and job tags with their UUIDs removed, never a duplicate of the original. */
  method RenamedTags(env: Envelope, cfg: Config) returns (tags: seq<string>)
    ensures tags == DeploymentTags(env, cfg) + JobTags(env, cfg)
  {
    tags := [];
    if "deployment" in env.tags {
      var newDeploymentTag := cfg.dropDeploymentUUID(env.tags["deployment"]);
      if cfg.environment != "" {
        tags := AppendTagIfNotEmpty(tags, "deployment", newDeploymentTag + "_" + cfg.environment);
      }
      if newDeploymentTag != env.tags["deployment"] {
        tags := AppendTagIfNotEmpty(tags, "deployment", newDeploymentTag);
      }
    }
    assert tags == DeploymentTags(env, cfg);
    if "job" in env.tags {
      var newJobTag := cfg.dropPartitionUUID(env.tags["job"]);
      if newJobTag != env.tags["job"] {
        tags := AppendTagIfNotEmpty(tags, "job", newJobTag);
      }
    }
  }

  // ---------------------------------------------------------------- getValues

  ghost predicate NoNilValues(env: Envelope) {
    env.message.Gauge? ==> forall k :: k in env.message.metrics ==> env.message.metrics[k].Some?
  }

  ghost function Values(env: Envelope): map<string, Float>
    requires env.message.Gauge? || env.message.Counter?
    requires NoNilValues(env)
  {
    match env.message
    case Gauge(metrics) => map k | k in metrics :: metrics[k].value.value
    case Counter(name, _, total) => map[name := Finite(total as real)]
  }

  /** Dereferences every gauge value: a nil one would panic, as would any other message. */
  method GetValues(env: Envelope) returns (values: map<string, Float>)
    requires env.message.Gauge? || env.message.Counter?
    requires NoNilValues(env)
    ensures values == Values(env)
  {
    values := map[];
    match env.message
    case Gauge(metrics) =>
      var todo := metrics.Keys;
      while todo != {}
        invariant todo <= metrics.Keys
        invariant values.Keys == metrics.Keys - todo
        invariant forall k :: k in values ==> values[k] == metrics[k].value.value
        decreases todo
      {
        var k :| k in todo;
        values := values[k := metrics[k].value.value];
        todo := todo - {k};
      }
    case Counter(name, _, total) =>
      values := values[name := Finite(total as real)];
  }

  // ---------------------------------------------------------------- ParseMetrics

  const HM_FORWARDER := "bosh-hm-forwarder"

  /** The names one value is published under: its own, the legacy origin-prefixed one and the BOSH alias. */
  function Names(env: Envelope, name: string): seq<string> {
    [name]
    + (if "origin" in env.tags then [env.tags["origin"] + "." + name] else [])
    + (if HasPrefix(name, HM_FORWARDER) then ["bosh.healthmonitor" + name[|HM_FORWARDER|..]] else [])
  }

  /** Go's integer division truncates toward zero. */
  function Seconds(nanoseconds: int): int {
    if nanoseconds >= 0 then nanoseconds / 1000000000 else -(-nanoseconds / 1000000000)
  }

  function PackageOf(env: Envelope, tags: seq<string>, hash: string, alias: string, value: Float): MetricPackage {
    MetricPackage(
      MetricKey(alias, hash),
      MetricValue(tags, [Point(Seconds(env.timestamp), value)], ParseHost(env), ""))
  }

  function PackagesOf(env: Envelope, tags: seq<string>, hash: string, name: string, value: Float): seq<MetricPackage> {
    Map((alias: string) => PackageOf(env, tags, hash, alias, value), Names(env, name))
  }

  ghost predicate InfraEnvelope(env: Envelope) {
    env.message.Counter? || (env.message.Gauge? && !ContainerMetric(env))
  }

  ghost function RawTags(env: Envelope, cfg: Config, tagOrder: seq<string>): seq<string> {
    TagsInOrder(env, tagOrder) + DerivedTags(env, cfg) + cfg.customTags
  }

  ghost function ValueAt(values: map<string, Float>, name: string): Float {
    if name in values then values[name] else NaN
  }

  /** The packages of an infra envelope when its two maps are visited in the given orders. */
  ghost function Parsed(env: Envelope, cfg: Config, tagOrder: seq<string>, valueOrder: seq<string>): seq<MetricPackage>
    requires InfraEnvelope(env) && NoNilValues(env)
  {
    var raw := RawTags(env, cfg, tagOrder);
    Flatten(Map(PackageMaker(env, Sort(raw), HashOf(cfg.digest, raw), Values(env)), valueOrder))
  }

  ghost function PackageMaker(env: Envelope, tags: seq<string>, hash: string, values: map<string, Float>)
    : string -> seq<MetricPackage>
  {
    (name: string) => PackagesOf(env, tags, hash, name, ValueAt(values, name))
  }

  /** One metric for each name of one value. */
  method MakePackages(env: Envelope, tags: seq<string>, hash: string, name: string, value: Float)
    returns (metrics: seq<MetricPackage>)
    ensures metrics == PackagesOf(env, tags, hash, name, value)
  {
    metrics := [];
    var names := Names(env, name);
    var metricValues := MetricValue(tags, [Point(Seconds(env.timestamp), value)], ParseHost(env), "");
    for i := 0 to |names|
      invariant metrics == PackagesOf(env, tags, hash, name, value)[..i]
    {
      metrics := metrics + [MetricPackage(MetricKey(names[i], hash), metricValues)];
    }
  }

  method ParseMetrics(env: Envelope, cfg: Config)
    returns (result: ParseResult, ghost tagOrder: seq<string>, ghost valueOrder: seq<string>)
    requires InfraEnvelope(env) ==> NoNilValues(env)
    ensures result.Packages? <==> InfraEnvelope(env)
    ensures result.Packages? ==>
              Enumerates(tagOrder, env.tags.Keys)
              && Enumerates(valueOrder, Values(env).Keys)
              && result.packages == Parsed(env, cfg, tagOrder, valueOrder)
  {
    tagOrder, valueOrder := [], [];
    match env.message {
      case Counter(_, _, _) =>
      case Gauge(_) =>
        var container := IsContainerMetric(env);
        if container { return NotInfra, [], []; }
      case _ => return NotInfra, [], [];
    }
    var tags;
    tags, tagOrder := ParseTags(env, cfg);
    tags := tags + cfg.customTags;
    assert tags == RawTags(env, cfg, tagOrder);
    var sortedTags, tagsHash := HashSlice(cfg.digest, tags);
    var values := GetValues(env);
    var metrics;
    metrics, valueOrder := PackAll(env, sortedTags, tagsHash, values);
    result := Packages(metrics);
  }

  /** Hashing sorts the slice of tags that the packages share. */
  method HashSlice(digest: string -> string, tags: seq<string>) returns (sortedTags: seq<string>, hash: string)
    ensures sortedTags == Sort(tags) && hash == HashOf(digest, tags)
  {
    var slice := new string[|tags|](i requires 0 <= i < |tags| => tags[i]);
    assert slice[..] == tags;
    hash := HashTags(digest, slice);
    sortedTags := slice[..];
  }

  /** The range loop over the values. */
  method PackAll(env: Envelope, tags: seq<string>, hash: string, values: map<string, Float>)
    returns (metrics: seq<MetricPackage>, ghost order: seq<string>)
    ensures Enumerates(order, values.Keys)
    ensures metrics == Flatten(Map(PackageMaker(env, tags, hash, values), order))
  {
    metrics, order := [], [];
    ghost var f := PackageMaker(env, tags, hash, values);
    var todo := values.Keys;
    while todo != {}
      invariant todo <= values.Keys
      invariant Enumerates(order, values.Keys - todo)
      invariant metrics == Flatten(Map(f, order))
      decreases todo
    {
      var name :| name in todo;
      var packages := MakePackages(env, tags, hash, name, values[name]);
      metrics := metrics + packages;
      EnumeratesNext(order, values.Keys, todo, name);
      FlattenMapNext(f, order, name);
      order := order + [name];
      todo := todo - {name};
    }
    assert values.Keys - {} == values.Keys;
  }

  // ---------------------------------------------------------------- map order does not leak

  lemma TagBagIgnoresOrder(env: Envelope, cfg: Config, o1: seq<string>, o2: seq<string>)
    requires Enumerates(o1, env.tags.Keys) && Enumerates(o2, env.tags.Keys)
    ensures multiset(RawTags(env, cfg, o1)) == multiset(RawTags(env, cfg, o2))
  {
    PermutedMap(TagMaker(env), o1, o2);
    PermutedFlatten(Map(TagMaker(env), o1), Map(TagMaker(env), o2));
  }

  /** Every run over one envelope yields the same bag of packages: same keys, same sorted tags, same points. */
  lemma ParsedIgnoresOrder(env: Envelope, cfg: Config,
                           t1: seq<string>, v1: seq<string>, t2: seq<string>, v2: seq<string>)
    requires InfraEnvelope(env) && NoNilValues(env)
    requires Enumerates(t1, env.tags.Keys) && Enumerates(t2, env.tags.Keys)
    requires Enumerates(v1, Values(env).Keys) && Enumerates(v2, Values(env).Keys)
    ensures multiset(Parsed(env, cfg, t1, v1)) == multiset(Parsed(env, cfg, t2, v2))
  {
    TagBagIgnoresOrder(env, cfg, t1, t2);
    var raw1, raw2 := RawTags(env, cfg, t1), RawTags(env, cfg, t2);
    SortCanonical(raw1, raw2);
    var f := PackageMaker(env, Sort(raw1), HashOf(cfg.digest, raw1), Values(env));
    PermutedMap(f, v1, v2);
    PermutedFlatten(Map(f, v1), Map(f, v2));
  }

  /** Two workers that parse equal envelopes aggregate under the same keys and hold the same points per key. */
  lemma WorkersAgree(env: Envelope, cfg: Config,
                     t1: seq<string>, v1: seq<string>, t2: seq<string>, v2: seq<string>)
    requires InfraEnvelope(env) && NoNilValues(env)
    requires Enumerates(t1, env.tags.Keys) && Enumerates(t2, env.tags.Keys)
    requires Enumerates(v1, Values(env).Keys) && Enumerates(v2, Values(env).Keys)
    ensures var a, b := AddedAll(map[], Parsed(env, cfg, t1, v1)), AddedAll(map[], Parsed(env, cfg, t2, v2));
            a.Keys == b.Keys
            && forall k :: multiset(PointsOf(a, k)) == multiset(PointsOf(b, k))
  {
    ParsedIgnoresOrder(env, cfg, t1, v1, t2, v2);
    FoldOrderIrrelevant(Parsed(env, cfg, t1, v1), Parsed(env, cfg, t2, v2));
  }

  /** pkg carries the value called `name` under the name `alias`. */
  ghost predicate Carries(env: Envelope, values: map<string, Float>, tags: seq<string>, hash: string,
                          name: string, alias: string, pkg: MetricPackage)
  {
    name in values && alias in Names(env, name) && pkg == PackageOf(env, tags, hash, alias, values[name])
  }

  lemma PackagesOfMembers(env: Envelope, tags: seq<string>, hash: string, name: string, value: Float, pkg: MetricPackage)
    ensures pkg in PackagesOf(env, tags, hash, name, value)
            <==> exists alias :: alias in Names(env, name) && pkg == PackageOf(env, tags, hash, alias, value)
  {
    var all, names := PackagesOf(env, tags, hash, name, value), Names(env, name);
    if pkg in all {
      var j :| 0 <= j < |all| && all[j] == pkg;
      assert names[j] in names;
    }
    if alias :| alias in names && pkg == PackageOf(env, tags, hash, alias, value) {
      var j :| 0 <= j < |names| && names[j] == alias;
      assert all[j] == pkg;
    }
  }

  /** What the loop over the values packs: every value under each of its names, and nothing else. */
  lemma PackedContents(env: Envelope, tags: seq<string>, hash: string, values: map<string, Float>, v: seq<string>,
                       pkg: MetricPackage)
    requires Enumerates(v, values.Keys)
    ensures pkg in Flatten(Map(PackageMaker(env, tags, hash, values), v))
            <==> exists name, alias :: Carries(env, values, tags, hash, name, alias, pkg)
  {
    EnumeratesMembers(v, values.Keys);
    var f := PackageMaker(env, tags, hash, values);
    FlattenMapMembers(f, v, pkg);
    if name :| name in v && pkg in f(name) {
      PackagesOfMembers(env, tags, hash, name, values[name], pkg);
      var alias :| alias in Names(env, name) && pkg == PackageOf(env, tags, hash, alias, values[name]);
      assert Carries(env, values, tags, hash, name, alias, pkg);
    }
    if name, alias :| Carries(env, values, tags, hash, name, alias, pkg) {
      PackagesOfMembers(env, tags, hash, name, values[name], pkg);
      assert name in v && pkg in f(name);
    }
  }

  // ---------------------------------------------------------------- what is published, on the envelope's fields

  /** t is the time in whole seconds, rounded toward zero. */
  lemma SecondsExactly(nanoseconds: int, t: int)
    ensures Seconds(nanoseconds) == t <==>
              if nanoseconds >= 0 then t * 1000000000 <= nanoseconds < (t + 1) * 1000000000
              else (t - 1) * 1000000000 < nanoseconds <= t * 1000000000
  {
  }

  lemma HostExactly(env: Envelope)
    ensures ParseHost(env) ==
              if "index" in env.tags && env.tags["index"] != "" then env.tags["index"]
              else if "origin" in env.tags then env.tags["origin"] else ""
  {
  }

  lemma AliasedPrefix(name: string, rest: string)
    requires name == "bosh-hm-forwarder" + rest
    ensures HasPrefix(name, HM_FORWARDER) && name[|HM_FORWARDER|..] == rest
  {
  }

  /** One value is published under its own name, with the origin before it and under the BOSH alias, in this order. */
  lemma PackagesExactly(env: Envelope, tags: seq<string>, hash: string, name: string, value: Float, t: int, host: string,
                        rest: string)
    requires if env.timestamp >= 0 then t * 1000000000 <= env.timestamp < (t + 1) * 1000000000
             else (t - 1) * 1000000000 < env.timestamp <= t * 1000000000
    requires host == if "index" in env.tags && env.tags["index"] != "" then env.tags["index"]
                     else if "origin" in env.tags then env.tags["origin"] else ""
    requires HasPrefix(name, "bosh-hm-forwarder") ==> name == "bosh-hm-forwarder" + rest
    ensures var v := MetricValue(tags, [Point(t, value)], host, "");
            PackagesOf(env, tags, hash, name, value)
            == [MetricPackage(MetricKey(name, hash), v)]
               + (if "origin" in env.tags then [MetricPackage(MetricKey(env.tags["origin"] + "." + name, hash), v)] else [])
               + (if HasPrefix(name, "bosh-hm-forwarder")
                  then [MetricPackage(MetricKey("bosh.healthmonitor" + rest, hash), v)] else [])
  {
    SecondsExactly(env.timestamp, t);
    HostExactly(env);
    if HasPrefix(name, "bosh-hm-forwarder") {
      AliasedPrefix(name, rest);
    }
  }

  /** A counter is published with its total. */
  lemma CounterPublished(env: Envelope, cfg: Config, tagOrder: seq<string>, valueOrder: seq<string>,
                         name: string, delta: nat, total: nat, t: int, host: string, rest: string)
    requires env.message == Counter(name, delta, total) && Enumerates(valueOrder, {name})
    requires if env.timestamp >= 0 then t * 1000000000 <= env.timestamp < (t + 1) * 1000000000
             else (t - 1) * 1000000000 < env.timestamp <= t * 1000000000
    requires host == if "index" in env.tags && env.tags["index"] != "" then env.tags["index"]
                     else if "origin" in env.tags then env.tags["origin"] else ""
    requires HasPrefix(name, "bosh-hm-forwarder") ==> name == "bosh-hm-forwarder" + rest
    ensures var raw := RawTags(env, cfg, tagOrder);
            var hash, v := HashOf(cfg.digest, raw), MetricValue(Sort(raw), [Point(t, Finite(total as real))], host, "");
            Parsed(env, cfg, tagOrder, valueOrder)
            == [MetricPackage(MetricKey(name, hash), v)]
               + (if "origin" in env.tags then [MetricPackage(MetricKey(env.tags["origin"] + "." + name, hash), v)] else [])
               + (if HasPrefix(name, "bosh-hm-forwarder")
                  then [MetricPackage(MetricKey("bosh.healthmonitor" + rest, hash), v)] else [])
  {
    var raw := RawTags(env, cfg, tagOrder);
    OneName(valueOrder, name);
    var f := PackageMaker(env, Sort(raw), HashOf(cfg.digest, raw), Values(env));
    FlattenOne(f, name);
    PackagesExactly(env, Sort(raw), HashOf(cfg.digest, raw), name, Finite(total as real), t, host, rest);
  }

  lemma OneName(order: seq<string>, name: string)
    requires Enumerates(order, {name})
    ensures order == [name]
  {
    EnumeratesMembers(order, {name});
    assert order[0] in {name};
  }

  lemma FlattenOne<A, B>(f: A -> seq<B>, x: A)
    ensures Flatten(Map(f, [x])) == f(x)
  {
    FlattenMapNext(f, [], x);
    assert [] + [x] == [x];
    assert Map(f, []) == [] && Flatten(Map(f, [])) == [];
  }

  lemma ValueNames(env: Envelope)
    requires (env.message.Gauge? || env.message.Counter?) && NoNilValues(env)
    ensures Values(env).Keys == if env.message.Gauge? then env.message.metrics.Keys else {env.message.name}
  {
  }

  lemma GaugeEntry(env: Envelope, tags: seq<string>, hash: string, metrics: map<string, Option<GaugeValue>>,
                   name: string, t: int, host: string, rest: string)
    requires env.message == Gauge(metrics) && NoNilValues(env) && name in metrics
    requires if env.timestamp >= 0 then t * 1000000000 <= env.timestamp < (t + 1) * 1000000000
             else (t - 1) * 1000000000 < env.timestamp <= t * 1000000000
    requires host == if "index" in env.tags && env.tags["index"] != "" then env.tags["index"]
                     else if "origin" in env.tags then env.tags["origin"] else ""
    requires HasPrefix(name, "bosh-hm-forwarder") ==> name == "bosh-hm-forwarder" + rest
    ensures var v := MetricValue(tags, [Point(t, metrics[name].value.value)], host, "");
            PackageMaker(env, tags, hash, Values(env))(name)
            == [MetricPackage(MetricKey(name, hash), v)]
               + (if "origin" in env.tags then [MetricPackage(MetricKey(env.tags["origin"] + "." + name, hash), v)] else [])
               + (if HasPrefix(name, "bosh-hm-forwarder")
                  then [MetricPackage(MetricKey("bosh.healthmonitor" + rest, hash), v)] else [])
  {
    PackagesExactly(env, tags, hash, name, metrics[name].value.value, t, host, rest);
  }

  /** piece publishes the gauge's value called `name` and nothing else. */
  ghost predicate PublishesEntry(env: Envelope, tags: seq<string>, hash: string, metrics: map<string, Option<GaugeValue>>,
                                 name: string, t: int, host: string, rest: string, piece: seq<MetricPackage>)
    requires name in metrics && metrics[name].Some?
  {
    var v := MetricValue(tags, [Point(t, metrics[name].value.value)], host, "");
    && (HasPrefix(name, "bosh-hm-forwarder") ==> name == "bosh-hm-forwarder" + rest)
    && piece
       == [MetricPackage(MetricKey(name, hash), v)]
          + (if "origin" in env.tags then [MetricPackage(MetricKey(env.tags["origin"] + "." + name, hash), v)] else [])
          + (if HasPrefix(name, "bosh-hm-forwarder")
             then [MetricPackage(MetricKey("bosh.healthmonitor" + rest, hash), v)] else [])
  }

  /** Each value of a gauge is published as itself, one entry after the other. */
  lemma GaugePublished(env: Envelope, cfg: Config, tagOrder: seq<string>, valueOrder: seq<string>,
                       metrics: map<string, Option<GaugeValue>>, t: int, host: string, rests: seq<string>,
                       pieces: seq<seq<MetricPackage>>)
    requires env.message == Gauge(metrics) && InfraEnvelope(env) && NoNilValues(env)
    requires Enumerates(valueOrder, metrics.Keys) && |pieces| == |rests| == |valueOrder|
    requires if env.timestamp >= 0 then t * 1000000000 <= env.timestamp < (t + 1) * 1000000000
             else (t - 1) * 1000000000 < env.timestamp <= t * 1000000000
    requires host == if "index" in env.tags && env.tags["index"] != "" then env.tags["index"]
                     else if "origin" in env.tags then env.tags["origin"] else ""
    requires var raw := RawTags(env, cfg, tagOrder);
             forall i :: 0 <= i < |pieces| && valueOrder[i] in metrics ==>
               PublishesEntry(env, Sort(raw), HashOf(cfg.digest, raw), metrics, valueOrder[i], t, host, rests[i], pieces[i])
    ensures Parsed(env, cfg, tagOrder, valueOrder) == Flatten(pieces)
  {
    var raw := RawTags(env, cfg, tagOrder);
    EntriesPublished(env, Sort(raw), HashOf(cfg.digest, raw), metrics, valueOrder, t, host, rests, pieces);
  }

  lemma EntriesPublished(env: Envelope, tags: seq<string>, hash: string, metrics: map<string, Option<GaugeValue>>,
                         order: seq<string>, t: int, host: string, rests: seq<string>, pieces: seq<seq<MetricPackage>>)
    requires env.message == Gauge(metrics) && NoNilValues(env)
    requires Enumerates(order, metrics.Keys) && |pieces| == |rests| == |order|
    requires if env.timestamp >= 0 then t * 1000000000 <= env.timestamp < (t + 1) * 1000000000
             else (t - 1) * 1000000000 < env.timestamp <= t * 1000000000
    requires host == if "index" in env.tags && env.tags["index"] != "" then env.tags["index"]
                     else if "origin" in env.tags then env.tags["origin"] else ""
    requires forall i :: 0 <= i < |pieces| && order[i] in metrics ==>
               PublishesEntry(env, tags, hash, metrics, order[i], t, host, rests[i], pieces[i])
    ensures Map(PackageMaker(env, tags, hash, Values(env)), order) == pieces
  {
    var f := PackageMaker(env, tags, hash, Values(env));
    EnumeratesMembers(order, metrics.Keys);
    forall i | 0 <= i < |order| ensures f(order[i]) == pieces[i] {
      assert order[i] in order;
      EntryPublished(env, tags, hash, metrics, order[i], t, host, rests[i], pieces[i]);
    }
    MapIs(f, order, pieces);
  }

  lemma EntryPublished(env: Envelope, tags: seq<string>, hash: string, metrics: map<string, Option<GaugeValue>>,
                       name: string, t: int, host: string, rest: string, piece: seq<MetricPackage>)
    requires env.message == Gauge(metrics) && NoNilValues(env) && name in metrics
    requires if env.timestamp >= 0 then t * 1000000000 <= env.timestamp < (t + 1) * 1000000000
             else (t - 1) * 1000000000 < env.timestamp <= t * 1000000000
    requires host == if "index" in env.tags && env.tags["index"] != "" then env.tags["index"]
                     else if "origin" in env.tags then env.tags["origin"] else ""
    requires PublishesEntry(env, tags, hash, metrics, name, t, host, rest, piece)
    ensures PackageMaker(env, tags, hash, Values(env))(name) == piece
  {
    GaugeEntry(env, tags, hash, metrics, name, t, host, rest);
  }

  lemma MapIs<A, B>(f: A -> B, s: seq<A>, r: seq<B>)
    requires |r| == |s| && forall i :: 0 <= i < |s| ==> f(s[i]) == r[i]
    ensures Map(f, s) == r
  {
  }

  // ---------------------------------------------------------------- which tags there are

  /** The envelope's own tag under this key, when it is not empty. */
  ghost predicate TagUnder(env: Envelope, key: string, tag: string) {
    key in env.tags && env.tags[key] != "" && tag == key + ":" + env.tags[key]
  }

  lemma MadeUnder(env: Envelope, key: string, tag: string)
    requires key in env.tags
    ensures tag in TagMaker(env)(key) <==> TagUnder(env, key, tag)
  {
  }

  lemma MapTagsExactly(env: Envelope, order: seq<string>, tag: string)
    requires Enumerates(order, env.tags.Keys)
    ensures tag in TagsInOrder(env, order) <==> exists key :: TagUnder(env, key, tag)
  {
    EnumeratesMembers(order, env.tags.Keys);
    FlattenMapMembers(TagMaker(env), order, tag);
    if tag in TagsInOrder(env, order) {
      var key :| key in order && tag in TagMaker(env)(key);
      MadeUnder(env, key, tag);
    }
    if key :| TagUnder(env, key, tag) {
      MadeUnder(env, key, tag);
    }
  }

  lemma OwnTagsExactly(env: Envelope, cfg: Config, tag: string)
    ensures tag in OwnTags(env, cfg) <==>
      || ("origin" in env.tags && env.tags["origin"] != "" && tag == "name" + ":" + env.tags["origin"])
      || (env.instanceId != "" && tag == "instance_id" + ":" + env.instanceId)
      || (env.sourceId != "" && tag == "source_id" + ":" + env.sourceId)
      || ("process_instance_id" in env.tags && env.tags["process_instance_id"] != ""
          && tag == "container_id" + ":" + env.tags["process_instance_id"])
      || (cfg.environment != "" && tag == "env" + ":" + cfg.environment)
  {
  }

  lemma RenamedTagsExactly(env: Envelope, cfg: Config, tag: string)
    ensures tag in DeploymentTags(env, cfg) <==>
              "deployment" in env.tags
              && var short := cfg.dropDeploymentUUID(env.tags["deployment"]);
                 || (cfg.environment != "" && tag == "deployment" + ":" + (short + "_" + cfg.environment))
                 || (short != "" && short != env.tags["deployment"] && tag == "deployment" + ":" + short)
    ensures tag in JobTags(env, cfg) <==>
              "job" in env.tags
              && var short := cfg.dropPartitionUUID(env.tags["job"]);
                 short != "" && short != env.tags["job"] && tag == "job" + ":" + short
  {
  }

  /** No source of tags is left out. */
  lemma TagSources(env: Envelope, cfg: Config, order: seq<string>, tag: string)
    ensures tag in RawTags(env, cfg, order) <==>
      tag in TagsInOrder(env, order) || tag in OwnTags(env, cfg) || tag in DeploymentTags(env, cfg)
      || tag in JobTags(env, cfg) || tag in cfg.customTags
  {
  }
}
