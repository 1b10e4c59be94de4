/** Metric values and the map the nozzle aggregates them in (internal/metric/metric.go). */
module Metrics {
  import opened Sequences

  /** A float64 whose rounding is not modelled. */
  datatype Float = NaN | Infinite(negative: bool) | Finite(value: real)

  datatype Point = Point(timestamp: int, value: Float)

  datatype MetricKey = MetricKey(name: string, tagsHash: string)

  datatype MetricValue = MetricValue(tags: seq<string>, points: seq<Point>, host: string, metricType: string)

  datatype MetricPackage = MetricPackage(key: MetricKey, value: MetricValue)

  type Entries = map<MetricKey, MetricValue>

  const GAUGE := "gauge"
  const COUNT := "count"

  // ---------------------------------------------------------------- what Add computes

  function Added(m: Entries, key: MetricKey, value: MetricValue): Entries {
    if key in m then m[key := m[key].(points := m[key].points + value.points)]
    else m[key := value]
  }

  /** Adding touches one key: a known one keeps its tags, host and type and gains the points at the end. */
  lemma AddedExactly(m: Entries, key: MetricKey, value: MetricValue, other: MetricKey)
    ensures Added(m, key, value).Keys == m.Keys + {key}
    ensures other != key && other in m ==> Added(m, key, value)[other] == m[other]
    ensures key in m ==>
              var known := m[key];
              Added(m, key, value)[key] == MetricValue(known.tags, known.points + value.points, known.host, known.metricType)
    ensures key !in m ==> Added(m, key, value)[key] == value
  {
  }

  function AddedAll(m: Entries, pkgs: seq<MetricPackage>): Entries {
    if pkgs == [] then m
    else
      var last := pkgs[|pkgs| - 1];
      Added(AddedAll(m, pkgs[..|pkgs| - 1]), last.key, last.value)
  }

  class MetricsMap {
    var entries: Entries

    constructor ()
      ensures entries == map[]
    {
      entries := map[];
    }

    method Add(key: MetricKey, newVal: MetricValue)
      modifies this
      ensures entries == Added(old(entries), key, newVal)
    {
      var value: MetricValue;
      if key in entries {
        value := entries[key];
        value := value.(points := value.points + newVal.points);
      } else {
        value := newVal;
      }
      entries := entries[key := value];
    }
  }

  // ---------------------------------------------------------------- what the map means

  function PointsOf(m: Entries, key: MetricKey): seq<Point> {
    if key in m then m[key].points else []
  }

  /** The points a list of packages carries for one key, in order. */
  function PackagePoints(pkgs: seq<MetricPackage>, key: MetricKey): seq<Point> {
    if pkgs == [] then []
    else PackagePoints(pkgs[..|pkgs| - 1], key) + PointsFor(pkgs[|pkgs| - 1], key)
  }

  function PointsFor(pkg: MetricPackage, key: MetricKey): seq<Point> {
    if pkg.key == key then pkg.value.points else []
  }

  lemma {:induction false} PackagePointsConcat(a: seq<MetricPackage>, b: seq<MetricPackage>, key: MetricKey)
    ensures PackagePoints(a + b, key) == PackagePoints(a, key) + PackagePoints(b, key)
  {
    if b == [] {
      assert a + b == a;
    } else {
      PackagePointsConcat(a, b[..|b| - 1], key);
      assert (a + b)[..|a + b| - 1] == a + b[..|b| - 1];
      ConcatAssociative(PackagePoints(a, key), PackagePoints(b[..|b| - 1], key), PointsFor(b[|b| - 1], key));
    }
  }

  /** Aggregation keeps every point of every key in arrival order. */
  lemma {:induction false} AggregationKeepsPoints(m: Entries, pkgs: seq<MetricPackage>, key: MetricKey)
    ensures PointsOf(AddedAll(m, pkgs), key) == PointsOf(m, key) + PackagePoints(pkgs, key)
  {
    if pkgs == [] {
    } else {
      AggregationKeepsPoints(m, pkgs[..|pkgs| - 1], key);
    }
  }

  /** The keys are exactly those seen; tags, host and type are those of the first package of the key. */
  lemma {:induction false} AggregationKeys(pkgs: seq<MetricPackage>, key: MetricKey)
    ensures key in AddedAll(map[], pkgs) <==> exists i :: 0 <= i < |pkgs| && pkgs[i].key == key
    ensures key in AddedAll(map[], pkgs) ==>
              exists i :: 0 <= i < |pkgs| && pkgs[i].key == key
                          && (forall j :: 0 <= j < i ==> pkgs[j].key != key)
                          && AddedAll(map[], pkgs)[key] == pkgs[i].value.(points := PackagePoints(pkgs, key))
  {
    if pkgs == [] {
    } else {
      var n := |pkgs| - 1;
      var front := pkgs[..n];
      AggregationKeys(front, key);
      AggregationKeepsPoints(map[], front, key);
      if key in AddedAll(map[], front) {
        var i :| 0 <= i < n && front[i].key == key
                 && (forall j :: 0 <= j < i ==> front[j].key != key)
                 && AddedAll(map[], front)[key] == front[i].value.(points := PackagePoints(front, key));
        assert pkgs[i].key == key && forall j :: 0 <= j < i ==> pkgs[j].key != key by {
          forall j | 0 <= j < i ensures pkgs[j].key != key { assert front[j] == pkgs[j]; }
        }
      } else {
        forall j | 0 <= j < n ensures pkgs[j].key != key { assert front[j] == pkgs[j]; }
        if pkgs[n].key == key {
          assert PackagePoints(front, key) == [];
        }
      }
    }
  }

  /** Folding the same packages in another order gives the same keys and, per key, the same bag of points. */
  lemma FoldOrderIrrelevant(a: seq<MetricPackage>, b: seq<MetricPackage>)
    requires multiset(a) == multiset(b)
    ensures AddedAll(map[], a).Keys == AddedAll(map[], b).Keys
    ensures forall key :: multiset(PointsOf(AddedAll(map[], a), key)) == multiset(PointsOf(AddedAll(map[], b), key))
  {
    forall key
      ensures key in AddedAll(map[], a) <==> key in AddedAll(map[], b)
      ensures multiset(PointsOf(AddedAll(map[], a), key)) == multiset(PointsOf(AddedAll(map[], b), key))
    {
      SeenInBoth(a, b, key);
      SeenInBoth(b, a, key);
      AggregationKeys(a, key);
      AggregationKeys(b, key);
      AggregationKeepsPoints(map[], a, key);
      AggregationKeepsPoints(map[], b, key);
      PermutedPoints(a, b, key);
    }
  }

  lemma SeenInBoth(a: seq<MetricPackage>, b: seq<MetricPackage>, key: MetricKey)
    requires multiset(a) == multiset(b)
    ensures (exists i :: 0 <= i < |a| && a[i].key == key) ==> exists i :: 0 <= i < |b| && b[i].key == key
  {
    if i :| 0 <= i < |a| && a[i].key == key {
      assert a[i] in multiset(b);
      var j :| 0 <= j < |b| && b[j] == a[i];
    }
  }

  lemma {:induction false} PermutedPoints(a: seq<MetricPackage>, b: seq<MetricPackage>, key: MetricKey)
    requires multiset(a) == multiset(b)
    ensures multiset(PackagePoints(a, key)) == multiset(PackagePoints(b, key))
  {
    PackagePointsFlatten(a, key);
    PackagePointsFlatten(b, key);
    var f := (p: MetricPackage) => PointsFor(p, key);
    PermutedMap(f, a, b);
    PermutedFlatten(Map(f, a), Map(f, b));
  }

  lemma {:induction false} PackagePointsFlatten(a: seq<MetricPackage>, key: MetricKey)
    ensures PackagePoints(a, key) == Flatten(Map((p: MetricPackage) => PointsFor(p, key), a))
  {
    if a == [] {
    } else {
      PackagePointsFlatten(a[..|a| - 1], key);
      var f := (p: MetricPackage) => PointsFor(p, key);
      assert Map(f, a)[..|a| - 1] == Map(f, a[..|a| - 1]);
    }
  }
}
