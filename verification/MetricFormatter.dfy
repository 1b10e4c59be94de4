/** Splitting and formatting a batch of metrics (internal/client/datadog/formatter.go). */
module MetricFormatter {
  import opened Sequences
  import opened Text
  import opened Metrics
  import opened Util
  import opened SplitTree

  /** The constant origin metadata every series carries is left out. */
  datatype Series = Series(
    metric: string, points: seq<Point>, seriesType: string, tags: seq<string>, host: string)

  type Encoder = seq<Series> -> Encoded

  /** Part of a batch together with the order in which formatMetrics visited it. */
  datatype Batch = Batch(data: Entries, order: seq<MetricKey>)

  // ---------------------------------------------------------------- formatMetrics

  predicate IsHealthMonitor(key: MetricKey) {
    HasPrefix(key.name, "bosh.healthmonitor")
  }

  predicate NotNaN(p: Point) {
    !p.value.NaN?
  }

  function SeriesFor(prefix: string, key: MetricKey, value: MetricValue): Series {
    Series(
      prefix + key.name,
      Filter(NotNaN, value.points),
      if value.metricType == "" then GAUGE else value.metricType,
      Filter(Allowed, value.tags),
      value.host)
  }

  /** The shared prefix variable once these keys have been visited: the first health monitor name clears it. */
  function PrefixAfter(prefix: string, visited: seq<MetricKey>): string {
    if exists k :: k in visited && IsHealthMonitor(k) then "" else prefix
  }

  function ValueOf(data: Entries, key: MetricKey): MetricValue {
    if key in data then data[key] else MetricValue([], [], "", "")
  }

  /** The series of a batch visited in the given order. */
  function SeriesInOrder(prefix: string, data: Entries, order: seq<MetricKey>): (s: seq<Series>)
    ensures |s| == |order|
  {
    if order == [] then []
    else
      var last := order[|order| - 1];
      SeriesInOrder(prefix, data, order[..|order| - 1])
      + [SeriesFor(PrefixAfter(prefix, order), last, ValueOf(data, last))]
  }

  lemma NotNaNExactly(p: Point)
    ensures NotNaN(p) <==> p.value != NaN
  {
  }

  method RemoveNANs(points: seq<Point>) returns (sanitizedPoints: seq<Point>)
    ensures sanitizedPoints == Filter(NotNaN, points)
  {
    sanitizedPoints := [];
    for i := 0 to |points|
      invariant sanitizedPoints == Filter(NotNaN, points[..i])
    {
      if !points[i].value.NaN? {
        sanitizedPoints := sanitizedPoints + [points[i]];
      }
      assert points[..i + 1][..i] == points[..i];
    }
    assert points[..|points|] == points;
  }

  method MakeSeries(prefix: string, key: MetricKey, mVal: MetricValue) returns (m: Series)
    ensures m == SeriesFor(prefix, key, mVal)
  {
    var tags := FilterHighCardinalityTags(mVal.tags);
    var name := prefix + key.name;
    var points := RemoveNANs(mVal.points);
    var seriesType := mVal.metricType;
    if seriesType == "" {
      seriesType := GAUGE;
    }
    m := Series(name, points, seriesType, tags, mVal.host);
  }

  lemma PrefixNext(prefix: string, visited: seq<MetricKey>, key: MetricKey)
    ensures PrefixAfter(prefix, visited + [key])
         == if IsHealthMonitor(key) then "" else PrefixAfter(prefix, visited)
  {
    var next := visited + [key];
    assert key in next;
    if k :| k in visited && IsHealthMonitor(k) {
      assert k in next;
    }
  }

  lemma SeriesNext(prefix: string, data: Entries, order: seq<MetricKey>, key: MetricKey)
    requires key in data
    ensures SeriesInOrder(prefix, data, order + [key])
         == SeriesInOrder(prefix, data, order) + [SeriesFor(PrefixAfter(prefix, order + [key]), key, data[key])]
  {
    assert (order + [key])[..|order|] == order;
  }

  method FormatSeries(enc: Encoder, initialPrefix: string, data: Entries)
    returns (r: Encoded, ghost order: seq<MetricKey>)
    ensures Enumerates(order, data.Keys) && r == enc(SeriesInOrder(initialPrefix, data, order))
  {
    var s: seq<Series> := [];
    var prefix := initialPrefix;
    order := [];
    var todo := data.Keys;
    while todo != {}
      invariant todo <= data.Keys
      invariant Enumerates(order, data.Keys - todo)
      invariant prefix == PrefixAfter(initialPrefix, order)
      invariant s == SeriesInOrder(initialPrefix, data, order)
      decreases todo
    {
      var key :| key in todo;
      if IsHealthMonitor(key) {
        prefix := "";
      }
      var m := MakeSeries(prefix, key, data[key]);
      s := s + [m];
      PrefixNext(initialPrefix, order, key);
      EnumeratesNext(order, data.Keys, todo, key);
      SeriesNext(initialPrefix, data, order, key);
      order := order + [key];
      todo := todo - {key};
    }
    assert data.Keys - {} == data.Keys;
    r := enc(s);
  }

  lemma HealthMonitorExactly(key: MetricKey)
    ensures IsHealthMonitor(key) <==> exists rest :: key.name == "bosh.healthmonitor" + rest
  {
    PrefixExactly(key.name, "bosh.healthmonitor");
  }

  /** The i-th series, from the fields of the i-th key's value. */
  lemma {:induction false} SeriesAt(prefix: string, data: Entries, order: seq<MetricKey>, i: nat)
    requires i < |order| && order[i] in data
    ensures var s, v := SeriesInOrder(prefix, data, order)[i], data[order[i]];
            && s.metric == (if exists j :: 0 <= j <= i && IsHealthMonitor(order[j]) then "" else prefix) + order[i].name
            && s.points == Filter(NotNaN, v.points) && s.tags == Filter(Allowed, v.tags) && s.host == v.host
            && s.seriesType == (if v.metricType == "" then "gauge" else v.metricType)
    decreases |order|
  {
    var n := |order| - 1;
    if i == n {
      PrefixAt(prefix, order);
    } else {
      SeriesAt(prefix, data, order[..n], i);
      assert forall j :: 0 <= j <= i ==> order[..n][j] == order[j];
    }
  }

  lemma PrefixAt(prefix: string, order: seq<MetricKey>)
    ensures PrefixAfter(prefix, order) == if exists j :: 0 <= j < |order| && IsHealthMonitor(order[j]) then "" else prefix
  {
    if j :| 0 <= j < |order| && IsHealthMonitor(order[j]) {
      assert order[j] in order;
    }
  }

  // ---------------------------------------------------------------- splitMetrics and FormatMetrics

  ghost predicate SubMap(a: Entries, data: Entries) {
    forall k :: k in a ==> k in data && a[k] == data[k]
  }

  /** a and b are what splitMetrics may return: which keys go to a depends on the iteration order. */
  ghost predicate Halves(data: Entries, a: Entries, b: Entries) {
    SubMap(a, data) && SubMap(b, data)
    && a.Keys + b.Keys == data.Keys && a.Keys !! b.Keys
    && |a| == |data| / 2
  }

  /** The state of the loop of splitMetrics: a is filled first. */
  ghost predicate Splitting(data: Entries, a: Entries, b: Entries, todo: set<MetricKey>) {
    SubMap(a, data) && SubMap(b, data) && todo <= data.Keys
    && a.Keys !! todo && b.Keys !! todo && a.Keys !! b.Keys
    && (forall k :: k in data ==> k in a || k in b || k in todo)
    && |a| <= |data| / 2
    && (b != map[] ==> |a| == |data| / 2)
  }

  lemma SplittingNext(data: Entries, a: Entries, b: Entries, todo: set<MetricKey>, k: MetricKey)
    requires Splitting(data, a, b, todo) && k in todo
    ensures |a| < |data| / 2 ==> Splitting(data, a[k := data[k]], b, todo - {k})
    ensures |a| >= |data| / 2 ==> Splitting(data, a, b[k := data[k]], todo - {k})
  {
    if |a| < |data| / 2 {
      assert b == map[];
    }
  }

  lemma SplittingDone(data: Entries, a: Entries, b: Entries)
    requires Splitting(data, a, b, {})
    ensures Halves(data, a, b)
  {
    if b == map[] {
      assert a.Keys == data.Keys;
      assert |a| == |a.Keys| == |data|;
    }
  }

  method SplitMetrics(data: Entries) returns (a: Entries, b: Entries)
    ensures Halves(data, a, b)
  {
    a, b := map[], map[];
    var todo := data.Keys;
    while todo != {}
      invariant Splitting(data, a, b, todo)
      decreases todo
    {
      var k :| k in todo;
      SplittingNext(data, a, b, todo, k);
      if |a| < |data| / 2 {
        a := a[k := data[k]];
      } else {
        b := b[k := data[k]];
      }
      todo := todo - {k};
    }
    SplittingDone(data, a, b);
  }

  function DataOf(run: Run<Batch>): Entries {
    match run
    case Nothing => map[]
    case Failed(batch, _) => batch.data
    case Dropped(batch) => batch.data
    case Sent(batch, _, _) => batch.data
    case Split(_, a, b) => DataOf(a) + DataOf(b)
  }

  /** run is a possible execution of FormatMetrics on data, for some iteration orders. */
  ghost predicate Formats(enc: Encoder, prefix: string, maxPostBytes: uint32, data: Entries, run: Run<Batch>)
    decreases run
  {
    match run
    case Nothing => data == map[]
    case Failed(batch, n) =>
      Encodes(prefix, data, batch, n) && enc(SeriesInOrder(prefix, data, batch.order)).EncodeError?
    case Dropped(batch) =>
      Encodes(prefix, data, batch, 1) && Oversized(enc, prefix, maxPostBytes, data, batch.order)
    case Sent(batch, n, bytes) =>
      Encodes(prefix, data, batch, n) && enc(SeriesInOrder(prefix, data, batch.order)) == Encoded(bytes)
      && !TooBig(bytes, maxPostBytes)
    case Split(n, a, b) =>
      n == |data| && n >= 2
      && (exists order :: Enumerates(order, data.Keys) && Oversized(enc, prefix, maxPostBytes, data, order))
      && Halves(data, DataOf(a), DataOf(b))
      && Formats(enc, prefix, maxPostBytes, DataOf(a), a)
      && Formats(enc, prefix, maxPostBytes, DataOf(b), b)
  }

  ghost predicate Encodes(prefix: string, data: Entries, batch: Batch, n: nat) {
    n == |data| && n >= 1 && batch.data == data && Enumerates(batch.order, data.Keys)
  }

  ghost predicate Oversized(enc: Encoder, prefix: string, maxPostBytes: uint32, data: Entries, order: seq<MetricKey>) {
    var e := enc(SeriesInOrder(prefix, data, order));
    e.Encoded? && TooBig(e.bytes, maxPostBytes)
  }

  /** Some choice of iteration orders makes FormatMetrics return the result. */
  ghost predicate MayReturn(enc: Encoder, prefix: string, maxPostBytes: uint32, data: Entries, result: seq<FormatData>) {
    exists run :: Formats(enc, prefix, maxPostBytes, data, run) && result == run.Output()
  }

  lemma Returns(enc: Encoder, prefix: string, maxPostBytes: uint32, data: Entries, run: Run<Batch>)
    requires Formats(enc, prefix, maxPostBytes, data, run)
    ensures MayReturn(enc, prefix, maxPostBytes, data, run.Output())
  {
  }

  /** Splitting in any way and formatting the halves in any way formats the whole. */
  lemma HalvesReturn(enc: Encoder, prefix: string, maxPostBytes: uint32, data: Entries, order: seq<MetricKey>,
                     a: Entries, b: Entries, resultA: seq<FormatData>, resultB: seq<FormatData>)
    requires |data| >= 2 && Enumerates(order, data.Keys) && Oversized(enc, prefix, maxPostBytes, data, order)
    requires Halves(data, a, b)
    requires MayReturn(enc, prefix, maxPostBytes, a, resultA) && MayReturn(enc, prefix, maxPostBytes, b, resultB)
    ensures MayReturn(enc, prefix, maxPostBytes, data, resultA + resultB)
  {
    var runA :| Formats(enc, prefix, maxPostBytes, a, runA) && resultA == runA.Output();
    var runB :| Formats(enc, prefix, maxPostBytes, b, runB) && resultB == runB.Output();
    FormatHalves(enc, prefix, maxPostBytes, a, runA);
    FormatHalves(enc, prefix, maxPostBytes, b, runB);
    Returns(enc, prefix, maxPostBytes, data, Split(|data|, runA, runB));
  }

  method FormatMetrics(enc: Encoder, prefix: string, maxPostBytes: uint32, data: Entries)
    returns (result: seq<FormatData>)
    ensures MayReturn(enc, prefix, maxPostBytes, data, result)
    decreases |data|
  {
    if |data| == 0 {
      Returns(enc, prefix, maxPostBytes, data, Nothing);
      return [];
    }
    var encoded, order := FormatSeries(enc, prefix, data);
    ghost var batch := Batch(data, order);
    if encoded.EncodeError? {
      Returns(enc, prefix, maxPostBytes, data, Failed(batch, |data|));
      return [];
    }
    if |encoded.bytes| % UINT32 > maxPostBytes {
      assert Oversized(enc, prefix, maxPostBytes, data, order);
      if |data| == 1 {
        Returns(enc, prefix, maxPostBytes, data, Dropped(batch));
        return [];
      }
      var metricsA, metricsB := SplitMetrics(data);
      var resultA := FormatMetrics(enc, prefix, maxPostBytes, metricsA);
      var resultB := FormatMetrics(enc, prefix, maxPostBytes, metricsB);
      HalvesReturn(enc, prefix, maxPostBytes, data, order, metricsA, metricsB, resultA, resultB);
      return resultA + resultB;
    }
    Returns(enc, prefix, maxPostBytes, data, Sent(batch, |data|, encoded.bytes));
    return [FormatData(encoded.bytes, |data|)];
  }

  lemma HalvesUnion(data: Entries, a: Entries, b: Entries)
    requires Halves(data, a, b)
    ensures a + b == data
    ensures |a| + |b| == |data|
  {
    assert |a.Keys + b.Keys| == |a.Keys| + |b.Keys|;
  }

  /** What splitMetrics may return: two parts without a common key, the first with half of the keys rounded down. */
  lemma HalvesExactly(data: Entries, a: Entries, b: Entries)
    ensures Halves(data, a, b) <==> a.Keys !! b.Keys && a + b == data && |a| == |data| / 2
  {
    if Halves(data, a, b) {
      HalvesUnion(data, a, b);
    }
    if a.Keys !! b.Keys && a + b == data {
      assert data.Keys == a.Keys + b.Keys;
      forall k | k in b ensures k in data && data[k] == b[k] {
        assert k in b.Keys;
      }
      forall k | k in a ensures k in data && data[k] == a[k] {
        assert k in a.Keys && k !in b.Keys;
      }
    }
  }

  // ---------------------------------------------------------------- what the limit means, in bytes

  /** If every order of a batch encodes within the limit, it is sent whole, as one of these encodings. */
  lemma SentWhole(enc: Encoder, prefix: string, maxPostBytes: uint32, data: Entries, result: seq<FormatData>)
    requires data != map[] && MayReturn(enc, prefix, maxPostBytes, data, result)
    requires forall order :: Enumerates(order, data.Keys) ==>
               var e := enc(SeriesInOrder(prefix, data, order)); e.Encoded? && |e.bytes| <= maxPostBytes
    ensures |result| == 1 && result[0].nbrItems == |data|
    ensures exists order ::
              Enumerates(order, data.Keys) && enc(SeriesInOrder(prefix, data, order)) == Encoded(result[0].data)
  {
    var run :| Formats(enc, prefix, maxPostBytes, data, run) && result == run.Output();
    SplitIsOver(enc, prefix, maxPostBytes, data, run);
  }

  /** A batch that was split, or dropped, encoded to more bytes than the limit in the order it was visited in. */
  lemma SplitIsOver(enc: Encoder, prefix: string, maxPostBytes: uint32, data: Entries, run: Run<Batch>)
    requires Formats(enc, prefix, maxPostBytes, data, run)
    ensures run.Split? || run.Dropped? ==>
              exists order :: Enumerates(order, data.Keys)
                && var e := enc(SeriesInOrder(prefix, data, order)); e.Encoded? && |e.bytes| > maxPostBytes
  {
    if run.Split? {
      var order :| Enumerates(order, data.Keys) && Oversized(enc, prefix, maxPostBytes, data, order);
      OversizedIsOver(enc, prefix, maxPostBytes, data, order);
    } else if run.Dropped? {
      OversizedIsOver(enc, prefix, maxPostBytes, data, run.batch.order);
    }
  }

  lemma OversizedIsOver(enc: Encoder, prefix: string, maxPostBytes: uint32, data: Entries, order: seq<MetricKey>)
    ensures Oversized(enc, prefix, maxPostBytes, data, order) ==>
              var e := enc(SeriesInOrder(prefix, data, order)); e.Encoded? && |e.bytes| > maxPostBytes
  {
  }

  /** So it is at every split inside the run. */
  ghost predicate SplitsOver(enc: Encoder, prefix: string, maxPostBytes: uint32, run: Run<Batch>) {
    run.Split? ==>
      && (exists order :: Enumerates(order, DataOf(run).Keys)
            && var e := enc(SeriesInOrder(prefix, DataOf(run), order)); e.Encoded? && |e.bytes| > maxPostBytes)
      && SplitsOver(enc, prefix, maxPostBytes, run.first) && SplitsOver(enc, prefix, maxPostBytes, run.second)
  }

  lemma {:induction false} SplitsAreOver(enc: Encoder, prefix: string, maxPostBytes: uint32, data: Entries, run: Run<Batch>)
    requires Formats(enc, prefix, maxPostBytes, data, run)
    ensures SplitsOver(enc, prefix, maxPostBytes, run)
  {
    if !run.Split? {
    } else {
      FormatHalves(enc, prefix, maxPostBytes, data, run);
      SplitIsOver(enc, prefix, maxPostBytes, data, run);
      SplitsAreOver(enc, prefix, maxPostBytes, DataOf(run.first), run.first);
      SplitsAreOver(enc, prefix, maxPostBytes, DataOf(run.second), run.second);
    }
  }

  /** Every split and every dropped key of a run encoded to more bytes than the limit. */
  lemma LimitDecides(enc: Encoder, prefix: string, maxPostBytes: uint32, data: Entries, run: Run<Batch>)
    requires Formats(enc, prefix, maxPostBytes, data, run)
    ensures SplitsOver(enc, prefix, maxPostBytes, run)
    ensures forall i :: 0 <= i < |run.Drops()| ==>
              var part := run.Drops()[i];
              |part.data| == 1
              && var e := enc(SeriesInOrder(prefix, part.data, part.order)); e.Encoded? && |e.bytes| > maxPostBytes
  {
    SplitsAreOver(enc, prefix, maxPostBytes, data, run);
    LeavesAreLost(enc, prefix, maxPostBytes, data, run);
    forall i | 0 <= i < |run.Drops()|
      ensures var part := run.Drops()[i];
              |part.data| == 1
              && var e := enc(SeriesInOrder(prefix, part.data, part.order)); e.Encoded? && |e.bytes| > maxPostBytes
    {
      var part := run.Drops()[i];
      assert DroppedPart(enc, prefix, maxPostBytes, data, part);
      OversizedIsOver(enc, prefix, maxPostBytes, part.data, part.order);
    }
  }

  /** A single key that encodes is sent exactly when its length, modulo 2^32, is within the limit. */
  lemma SingleExactly(enc: Encoder, prefix: string, maxPostBytes: uint32, k: MetricKey, v: MetricValue, bytes: seq<byte>,
                      result: seq<FormatData>)
    requires enc(SeriesInOrder(prefix, map[k := v], [k])) == Encoded(bytes)
    requires MayReturn(enc, prefix, maxPostBytes, map[k := v], result)
    ensures result == if |bytes| % 0x1_0000_0000 <= maxPostBytes then [FormatData(bytes, 1)] else []
    ensures maxPostBytes < |bytes| < 0x1_0000_0000 ==> result == []
  {
    var data := map[k := v];
    var run :| Formats(enc, prefix, maxPostBytes, data, run) && result == run.Output();
    assert |data| == 1;
    match run
    case Failed(batch, _) => SingleKey(data, k, batch.order);
    case Sent(batch, _, _) => SingleKey(data, k, batch.order);
    case Dropped(batch) => SingleKey(data, k, batch.order);
    case _ =>
  }

  // ---------------------------------------------------------------- the chunks partition the batch

  lemma {:induction false} FormatHalves(enc: Encoder, prefix: string, maxPostBytes: uint32, data: Entries, run: Run<Batch>)
    requires Formats(enc, prefix, maxPostBytes, data, run)
    ensures run.Halving() && run.Size() == |data| && DataOf(run) == data
  {
    if !run.Split? {
    } else {
      var a, b := DataOf(run.first), DataOf(run.second);
      FormatHalves(enc, prefix, maxPostBytes, a, run.first);
      FormatHalves(enc, prefix, maxPostBytes, b, run.second);
      HalvesUnion(data, a, b);
    }
  }

  /** A chunk and what was appended to the result for it. */
  ghost predicate ChunkOf(enc: Encoder, prefix: string, maxPostBytes: uint32, data: Entries, chunk: Batch, out: FormatData) {
    SubMap(chunk.data, data) && Enumerates(chunk.order, chunk.data.Keys)
    && out.nbrItems == |chunk.data| && out.nbrItems >= 1
    && enc(SeriesInOrder(prefix, chunk.data, chunk.order)) == Encoded(out.data)
    && !TooBig(out.data, maxPostBytes)
  }

  ghost predicate Covered(parts: seq<Batch>, k: MetricKey) {
    exists i :: 0 <= i < |parts| && k in parts[i].data
  }

  /** A part of the batch whose encoding failed in the run. */
  ghost predicate FailedPart(enc: Encoder, prefix: string, data: Entries, part: Batch) {
    SubMap(part.data, data) && Enumerates(part.order, part.data.Keys)
    && enc(SeriesInOrder(prefix, part.data, part.order)).EncodeError?
  }

  /** A single key that was encoded alone in the run and was too big. */
  ghost predicate DroppedPart(enc: Encoder, prefix: string, maxPostBytes: uint32, data: Entries, part: Batch) {
    SubMap(part.data, data) && |part.data| == 1 && Enumerates(part.order, part.data.Keys)
    && Oversized(enc, prefix, maxPostBytes, part.data, part.order)
  }

  ghost predicate LostParts(enc: Encoder, prefix: string, maxPostBytes: uint32, data: Entries,
                            failures: seq<Batch>, drops: seq<Batch>)
  {
    && (forall i :: 0 <= i < |failures| ==> FailedPart(enc, prefix, data, failures[i]))
    && (forall i :: 0 <= i < |drops| ==> DroppedPart(enc, prefix, maxPostBytes, data, drops[i]))
  }

  ghost predicate Disjoint(chunks: seq<Batch>) {
    forall i, j :: 0 <= i < j < |chunks| ==> chunks[i].data.Keys !! chunks[j].data.Keys
  }

  ghost predicate ChunksOf(enc: Encoder, prefix: string, maxPostBytes: uint32, data: Entries,
                           chunks: seq<Batch>, out: seq<FormatData>)
  {
    |chunks| == |out|
    && forall i :: 0 <= i < |chunks| ==> ChunkOf(enc, prefix, maxPostBytes, data, chunks[i], out[i])
  }

  lemma ChunksInWhole(enc: Encoder, prefix: string, maxPostBytes: uint32, half: Entries, data: Entries,
                      chunks: seq<Batch>, out: seq<FormatData>)
    requires SubMap(half, data) && ChunksOf(enc, prefix, maxPostBytes, half, chunks, out)
    ensures ChunksOf(enc, prefix, maxPostBytes, data, chunks, out)
  {
    forall i | 0 <= i < |chunks| ensures ChunkOf(enc, prefix, maxPostBytes, data, chunks[i], out[i]) {
      assert ChunkOf(enc, prefix, maxPostBytes, half, chunks[i], out[i]);
    }
  }

  lemma ChunksConcat(enc: Encoder, prefix: string, maxPostBytes: uint32, data: Entries,
                     a: seq<Batch>, b: seq<Batch>, x: seq<FormatData>, y: seq<FormatData>)
    requires ChunksOf(enc, prefix, maxPostBytes, data, a, x) && ChunksOf(enc, prefix, maxPostBytes, data, b, y)
    ensures ChunksOf(enc, prefix, maxPostBytes, data, a + b, x + y)
  {
  }

  lemma SentChunk(enc: Encoder, prefix: string, maxPostBytes: uint32, data: Entries, run: Run<Batch>)
    requires run.Sent? && Formats(enc, prefix, maxPostBytes, data, run)
    ensures ChunksOf(enc, prefix, maxPostBytes, data, run.Chunks(), run.Output())
  {
    assert ChunkOf(enc, prefix, maxPostBytes, data, run.batch, FormatData(run.bytes, run.n));
  }

  lemma {:induction false} ChunksAreParts(enc: Encoder, prefix: string, maxPostBytes: uint32, data: Entries, run: Run<Batch>)
    requires Formats(enc, prefix, maxPostBytes, data, run)
    ensures ChunksOf(enc, prefix, maxPostBytes, data, run.Chunks(), run.Output())
  {
    match run
    case Split(_, a, b) =>
      ChunksAreParts(enc, prefix, maxPostBytes, DataOf(a), a);
      ChunksAreParts(enc, prefix, maxPostBytes, DataOf(b), b);
      ChunksInWhole(enc, prefix, maxPostBytes, DataOf(a), data, a.Chunks(), a.Output());
      ChunksInWhole(enc, prefix, maxPostBytes, DataOf(b), data, b.Chunks(), b.Output());
      ChunksConcat(enc, prefix, maxPostBytes, data, a.Chunks(), b.Chunks(), a.Output(), b.Output());
    case Sent(_, _, _) => SentChunk(enc, prefix, maxPostBytes, data, run);
    case _ =>
  }

  lemma DisjointConcat(a: seq<Batch>, b: seq<Batch>, left: set<MetricKey>, right: set<MetricKey>)
    requires Disjoint(a) && Disjoint(b) && left !! right
    requires forall i :: 0 <= i < |a| ==> a[i].data.Keys <= left
    requires forall i :: 0 <= i < |b| ==> b[i].data.Keys <= right
    ensures Disjoint(a + b)
  {
  }

  lemma {:induction false} ChunksDisjoint(enc: Encoder, prefix: string, maxPostBytes: uint32, data: Entries, run: Run<Batch>)
    requires Formats(enc, prefix, maxPostBytes, data, run)
    ensures Disjoint(run.Chunks())
    ensures forall i :: 0 <= i < |run.Chunks()| ==> run.Chunks()[i].data.Keys <= data.Keys
  {
    if !run.Split? {
    } else {
      var a, b := run.first, run.second;
      ChunksDisjoint(enc, prefix, maxPostBytes, DataOf(a), a);
      ChunksDisjoint(enc, prefix, maxPostBytes, DataOf(b), b);
      DisjointConcat(a.Chunks(), b.Chunks(), DataOf(a).Keys, DataOf(b).Keys);
    }
  }

  lemma LostInWhole(enc: Encoder, prefix: string, maxPostBytes: uint32, half: Entries, data: Entries,
                    failures: seq<Batch>, drops: seq<Batch>)
    requires SubMap(half, data) && LostParts(enc, prefix, maxPostBytes, half, failures, drops)
    ensures LostParts(enc, prefix, maxPostBytes, data, failures, drops)
  {
    forall i | 0 <= i < |failures| ensures FailedPart(enc, prefix, data, failures[i]) {
      assert FailedPart(enc, prefix, half, failures[i]);
    }
    forall i | 0 <= i < |drops| ensures DroppedPart(enc, prefix, maxPostBytes, data, drops[i]) {
      assert DroppedPart(enc, prefix, maxPostBytes, half, drops[i]);
    }
  }

  /** The leaves of the run without a chunk are parts that failed to encode and single keys that were too big. */
  lemma {:induction false} LeavesAreLost(enc: Encoder, prefix: string, maxPostBytes: uint32, data: Entries, run: Run<Batch>)
    requires Formats(enc, prefix, maxPostBytes, data, run)
    ensures LostParts(enc, prefix, maxPostBytes, data, run.Failures(), run.Drops())
  {
    match run
    case Split(_, a, b) =>
      LeavesAreLost(enc, prefix, maxPostBytes, DataOf(a), a);
      LeavesAreLost(enc, prefix, maxPostBytes, DataOf(b), b);
      LostInWhole(enc, prefix, maxPostBytes, DataOf(a), data, a.Failures(), a.Drops());
      LostInWhole(enc, prefix, maxPostBytes, DataOf(b), data, b.Failures(), b.Drops());
    case Failed(batch, _) => assert FailedPart(enc, prefix, data, batch);
    case Dropped(batch) => assert DroppedPart(enc, prefix, maxPostBytes, data, batch);
    case _ =>
  }

  lemma CoveredConcat(a: seq<Batch>, b: seq<Batch>, k: MetricKey)
    ensures Covered(a + b, k) <==> Covered(a, k) || Covered(b, k)
  {
    if i :| 0 <= i < |a| && k in a[i].data {
      assert (a + b)[i] == a[i];
    }
    if i :| 0 <= i < |b| && k in b[i].data {
      assert (a + b)[|a| + i] == b[i];
    }
  }

  lemma CoveredOne(part: Batch, k: MetricKey)
    ensures Covered([part], k) <==> k in part.data
    ensures !Covered([], k)
  {
    assert [part][0] == part;
  }

  /** Every key is in exactly one place of the run: a chunk, a part that failed or a dropped single. */
  lemma {:induction false} KeysPlaced(enc: Encoder, prefix: string, maxPostBytes: uint32, data: Entries, run: Run<Batch>,
                                      k: MetricKey)
    requires Formats(enc, prefix, maxPostBytes, data, run)
    ensures if k in data then ExactlyOne(Covered(run.Chunks(), k), Covered(run.Failures(), k), Covered(run.Drops(), k))
            else !Covered(run.Chunks(), k) && !Covered(run.Failures(), k) && !Covered(run.Drops(), k)
  {
    match run
    case Nothing =>
    case Failed(batch, _) => CoveredOne(batch, k);
    case Dropped(batch) => CoveredOne(batch, k);
    case Sent(batch, _, _) => CoveredOne(batch, k);
    case Split(_, a, b) =>
      KeysPlaced(enc, prefix, maxPostBytes, DataOf(a), a, k);
      KeysPlaced(enc, prefix, maxPostBytes, DataOf(b), b, k);
      CoveredConcat(a.Chunks(), b.Chunks(), k);
      CoveredConcat(a.Failures(), b.Failures(), k);
      CoveredConcat(a.Drops(), b.Drops(), k);
      KeyInHalf(data, DataOf(a), DataOf(b), k);
  }

  lemma KeyInHalf(data: Entries, a: Entries, b: Entries, k: MetricKey)
    requires Halves(data, a, b)
    ensures k in data <==> k in a || k in b
    ensures !(k in a && k in b)
  {
    assert k in data.Keys <==> k in a.Keys + b.Keys;
  }

  /**
   * Main result on FormatMetrics, for every encoder and every iteration order: chunks are disjoint parts of the
   * batch, each within the (32-bit) size limit and counting its own items; a key has no chunk exactly when the run
   * failed to encode the part it was in or dropped it as too big alone; counts and missing items add up.
   */
  lemma MetricsPartitioned(enc: Encoder, prefix: string, maxPostBytes: uint32, data: Entries, run: Run<Batch>)
    requires Formats(enc, prefix, maxPostBytes, data, run)
    ensures ChunksOf(enc, prefix, maxPostBytes, data, run.Chunks(), run.Output()) && Disjoint(run.Chunks())
    ensures LostParts(enc, prefix, maxPostBytes, data, run.Failures(), run.Drops())
    ensures forall k :: k in data ==>
              ExactlyOne(Covered(run.Chunks(), k), Covered(run.Failures(), k), Covered(run.Drops(), k))
    ensures Items(run.Output()) + run.Missing() == |data|
  {
    ChunksAreParts(enc, prefix, maxPostBytes, data, run);
    ChunksDisjoint(enc, prefix, maxPostBytes, data, run);
    LeavesAreLost(enc, prefix, maxPostBytes, data, run);
    FormatHalves(enc, prefix, maxPostBytes, data, run);
    ItemsConserved(run);
    forall k | k in data
      ensures ExactlyOne(Covered(run.Chunks(), k), Covered(run.Failures(), k), Covered(run.Drops(), k))
    {
      KeysPlaced(enc, prefix, maxPostBytes, data, run, k);
    }
  }

  // ---------------------------------------------------------------- when something can be left out

  /** In some iteration order the part cannot be encoded, or is a single key that is too big. */
  ghost predicate Stuck(enc: Encoder, prefix: string, maxPostBytes: uint32, part: Entries) {
    part != map[]
    && exists order :: Enumerates(order, part.Keys)
         && (enc(SeriesInOrder(prefix, part, order)).EncodeError?
             || (|part| == 1 && Oversized(enc, prefix, maxPostBytes, part, order)))
  }

  ghost predicate CanSplit(enc: Encoder, prefix: string, maxPostBytes: uint32, data: Entries) {
    |data| >= 2 && exists order :: Enumerates(order, data.Keys) && Oversized(enc, prefix, maxPostBytes, data, order)
  }

  /** Halving the batch while it is too big can end in a part that is stuck. */
  ghost predicate CanLose(enc: Encoder, prefix: string, maxPostBytes: uint32, data: Entries)
    decreases |data|
  {
    Stuck(enc, prefix, maxPostBytes, data)
    || (CanSplit(enc, prefix, maxPostBytes, data)
        && exists a, b :: Halves(data, a, b) && |a| < |data| && |b| < |data|
             && (CanLose(enc, prefix, maxPostBytes, a) || CanLose(enc, prefix, maxPostBytes, b)))
  }

  lemma HalvesSmaller(data: Entries, a: Entries, b: Entries)
    requires Halves(data, a, b) && |data| >= 2
    ensures |a| < |data| && |b| < |data|
  {
    HalvesUnion(data, a, b);
  }

  lemma {:induction false} LosingRunCanLose(enc: Encoder, prefix: string, maxPostBytes: uint32, data: Entries, run: Run<Batch>)
    requires Formats(enc, prefix, maxPostBytes, data, run) && run.Missing() > 0
    ensures CanLose(enc, prefix, maxPostBytes, data)
  {
    match run
    case Failed(batch, _) =>
      assert Enumerates(batch.order, data.Keys);
    case Dropped(batch) =>
      assert Enumerates(batch.order, data.Keys);
    case Split(_, a, b) =>
      HalvesSmaller(data, DataOf(a), DataOf(b));
      if a.Missing() > 0 {
        LosingRunCanLose(enc, prefix, maxPostBytes, DataOf(a), a);
      } else {
        LosingRunCanLose(enc, prefix, maxPostBytes, DataOf(b), b);
      }
    case _ =>
  }

  /** Any number of keys can be split off a batch that has that many. */
  lemma {:induction false} PartExists(data: Entries, n: nat) returns (a: Entries, b: Entries)
    requires n <= |data|
    ensures SubMap(a, data) && SubMap(b, data) && a.Keys + b.Keys == data.Keys && a.Keys !! b.Keys && |a| == n
  {
    if n == 0 {
      a, b := map[], data;
    } else {
      a, b := PartExists(data, n - 1);
      assert |a.Keys| == |a| && |data.Keys| == |data|;
      assert b == map[] ==> a.Keys == data.Keys;
      var k :| k in b;
      a, b := a[k := data[k]], b - {k};
    }
  }

  /** FormatMetrics returns on every batch. */
  lemma {:induction false} RunExists(enc: Encoder, prefix: string, maxPostBytes: uint32, data: Entries)
    returns (run: Run<Batch>)
    ensures Formats(enc, prefix, maxPostBytes, data, run) && DataOf(run) == data
    decreases |data|
  {
    if data == map[] {
      run := Nothing;
    } else {
      EnumerationExists(data.Keys);
      var order: seq<MetricKey> :| Enumerates(order, data.Keys);
      var batch, e := Batch(data, order), enc(SeriesInOrder(prefix, data, order));
      if e.EncodeError? {
        run := Failed(batch, |data|);
      } else if !TooBig(e.bytes, maxPostBytes) {
        run := Sent(batch, |data|, e.bytes);
      } else if |data| == 1 {
        run := Dropped(batch);
      } else {
        var a, b := PartExists(data, |data| / 2);
        HalvesSmaller(data, a, b);
        var left := RunExists(enc, prefix, maxPostBytes, a);
        var right := RunExists(enc, prefix, maxPostBytes, b);
        run := SplitRun(enc, prefix, maxPostBytes, data, order, left, right);
      }
    }
  }

  lemma SplitRun(enc: Encoder, prefix: string, maxPostBytes: uint32, data: Entries, order: seq<MetricKey>,
                 left: Run<Batch>, right: Run<Batch>)
    returns (run: Run<Batch>)
    requires |data| >= 2 && Enumerates(order, data.Keys) && Oversized(enc, prefix, maxPostBytes, data, order)
    requires Halves(data, DataOf(left), DataOf(right))
    requires Formats(enc, prefix, maxPostBytes, DataOf(left), left)
    requires Formats(enc, prefix, maxPostBytes, DataOf(right), right)
    ensures run == Split(|data|, left, right)
    ensures Formats(enc, prefix, maxPostBytes, data, run) && DataOf(run) == data
  {
    run := Split(|data|, left, right);
    HalvesUnion(data, DataOf(left), DataOf(right));
  }

  lemma StuckRun(enc: Encoder, prefix: string, maxPostBytes: uint32, data: Entries) returns (run: Run<Batch>)
    requires Stuck(enc, prefix, maxPostBytes, data)
    ensures Formats(enc, prefix, maxPostBytes, data, run) && DataOf(run) == data && run.Missing() > 0
  {
    var order :| Enumerates(order, data.Keys)
      && (enc(SeriesInOrder(prefix, data, order)).EncodeError?
          || (|data| == 1 && Oversized(enc, prefix, maxPostBytes, data, order)));
    assert |data| >= 1;
    if enc(SeriesInOrder(prefix, data, order)).EncodeError? {
      run := Failed(Batch(data, order), |data|);
    } else {
      run := Dropped(Batch(data, order));
    }
  }

  lemma {:induction false} LosingRunExists(enc: Encoder, prefix: string, maxPostBytes: uint32, data: Entries)
    returns (run: Run<Batch>)
    requires CanLose(enc, prefix, maxPostBytes, data)
    ensures Formats(enc, prefix, maxPostBytes, data, run) && DataOf(run) == data && run.Missing() > 0
    decreases |data|
  {
    if Stuck(enc, prefix, maxPostBytes, data) {
      run := StuckRun(enc, prefix, maxPostBytes, data);
    } else {
      var order :| Enumerates(order, data.Keys) && Oversized(enc, prefix, maxPostBytes, data, order);
      var a, b :| Halves(data, a, b) && |a| < |data| && |b| < |data|
        && (CanLose(enc, prefix, maxPostBytes, a) || CanLose(enc, prefix, maxPostBytes, b));
      var left, right;
      if CanLose(enc, prefix, maxPostBytes, a) {
        left := LosingRunExists(enc, prefix, maxPostBytes, a);
        right := RunExists(enc, prefix, maxPostBytes, b);
      } else {
        left := RunExists(enc, prefix, maxPostBytes, a);
        right := LosingRunExists(enc, prefix, maxPostBytes, b);
      }
      run := SplitRun(enc, prefix, maxPostBytes, data, order, left, right);
    }
  }

  lemma SingleKey(data: Entries, k: MetricKey, order: seq<MetricKey>)
    requires k in data && |data| == 1 && Enumerates(order, data.Keys)
    ensures order == [k]
  {
    EnumeratesMembers(order, data.Keys);
    assert |data.Keys - {k}| == 0;
    assert data.Keys == {k};
    assert order[0] in data.Keys;
  }

  /** A batch of one key that is too big has only one run. */
  lemma OversizedAlone(enc: Encoder, prefix: string, maxPostBytes: uint32, data: Entries, k: MetricKey, run: Run<Batch>)
    requires k in data && |data| == 1 && Oversized(enc, prefix, maxPostBytes, data, [k])
    requires Formats(enc, prefix, maxPostBytes, data, run)
    ensures run.Dropped?
  {
    match run
    case Failed(batch, _) => SingleKey(data, k, batch.order);
    case Sent(batch, _, _) => SingleKey(data, k, batch.order);
    case _ =>
  }

  ghost predicate Complete(enc: Encoder, prefix: string, maxPostBytes: uint32, data: Entries) {
    forall run :: Formats(enc, prefix, maxPostBytes, data, run) ==> run.Missing() == 0
  }

  /** FormatMetrics leaves nothing out under any map order exactly when halving the batch cannot get stuck. */
  lemma CompleteExactly(enc: Encoder, prefix: string, maxPostBytes: uint32, data: Entries)
    ensures Complete(enc, prefix, maxPostBytes, data) <==> !CanLose(enc, prefix, maxPostBytes, data)
  {
    if CanLose(enc, prefix, maxPostBytes, data) {
      var run := LosingRunExists(enc, prefix, maxPostBytes, data);
    } else {
      forall run | Formats(enc, prefix, maxPostBytes, data, run) ensures run.Missing() == 0 {
        if run.Missing() > 0 {
          LosingRunCanLose(enc, prefix, maxPostBytes, data, run);
        }
      }
    }
  }

  /** No part of the batch fails to encode, and no key is too big alone. */
  ghost predicate Sendable(enc: Encoder, prefix: string, maxPostBytes: uint32, data: Entries) {
    forall part :: SubMap(part, data) ==> !Stuck(enc, prefix, maxPostBytes, part)
  }

  lemma {:induction false} SendableNeverLoses(enc: Encoder, prefix: string, maxPostBytes: uint32, data: Entries)
    requires Sendable(enc, prefix, maxPostBytes, data)
    ensures !CanLose(enc, prefix, maxPostBytes, data)
    decreases |data|
  {
    assert SubMap(data, data);
    forall a, b | Halves(data, a, b) && |a| < |data| && |b| < |data|
      ensures !CanLose(enc, prefix, maxPostBytes, a) && !CanLose(enc, prefix, maxPostBytes, b)
    {
      SendableParts(enc, prefix, maxPostBytes, data, a);
      SendableParts(enc, prefix, maxPostBytes, data, b);
      SendableNeverLoses(enc, prefix, maxPostBytes, a);
      SendableNeverLoses(enc, prefix, maxPostBytes, b);
    }
  }

  lemma SendableParts(enc: Encoder, prefix: string, maxPostBytes: uint32, data: Entries, a: Entries)
    requires Sendable(enc, prefix, maxPostBytes, data) && SubMap(a, data)
    ensures Sendable(enc, prefix, maxPostBytes, a)
  {
    forall part | SubMap(part, a) ensures !Stuck(enc, prefix, maxPostBytes, part) {
      assert SubMap(part, data);
    }
  }

  /** A chunk that passed the size test fits the limit exactly when its true length is below 2^32. */
  lemma FitsUnlessTruncated(bytes: seq<byte>, maxPostBytes: uint32)
    requires !TooBig(bytes, maxPostBytes)
    ensures |bytes| <= maxPostBytes <==> |bytes| < UINT32
  {
    if |bytes| < UINT32 {
      assert |bytes| % UINT32 == |bytes|;
    }
  }

  /** A payload of exactly 2^32 bytes passes every limit. */
  lemma TruncatedLengthPasses(maxPostBytes: uint32)
    ensures exists bytes: seq<byte> :: |bytes| > maxPostBytes && !TooBig(bytes, maxPostBytes)
  {
    var bytes: seq<byte> := seq(UINT32, i requires 0 <= i < UINT32 => 0);
    assert |bytes| > maxPostBytes && !TooBig(bytes, maxPostBytes);
  }

  lemma MetricsSplitCost(enc: Encoder, prefix: string, maxPostBytes: uint32, data: Entries, run: Run<Batch>, d: nat)
    requires Formats(enc, prefix, maxPostBytes, data, run) && |data| <= Pow2(d)
    ensures run.Depth() <= d
    ensures data != map[] ==> run.Encodings() <= 2 * |data| - 1
  {
    FormatHalves(enc, prefix, maxPostBytes, data, run);
    EncodingBound(run);
    DepthBound(run, d);
  }

  // ---------------------------------------------------------------- splitting preserves meaning

  ghost predicate Unmixed(data: Entries) {
    (forall k :: k in data ==> IsHealthMonitor(k)) || (forall k :: k in data ==> !IsHealthMonitor(k))
  }

  ghost function CommonPrefix(prefix: string, data: Entries): string {
    if forall k :: k in data ==> IsHealthMonitor(k) then "" else prefix
  }

  ghost function SeriesMaker(prefix: string, data: Entries): MetricKey -> Series {
    (k: MetricKey) => SeriesFor(prefix, k, ValueOf(data, k))
  }

  /** All series that were put on the wire, chunk after chunk. */
  ghost function AllSeries(prefix: string, run: Run<Batch>): seq<Series> {
    match run
    case Sent(batch, _, _) => SeriesInOrder(prefix, batch.data, batch.order)
    case Split(_, a, b) => AllSeries(prefix, a) + AllSeries(prefix, b)
    case _ => []
  }

  ghost function AllKeys(run: Run<Batch>): seq<MetricKey> {
    match run
    case Sent(batch, _, _) => batch.order
    case Split(_, a, b) => AllKeys(a) + AllKeys(b)
    case _ => []
  }

  ghost function KeptKeys(run: Run<Batch>): set<MetricKey> {
    match run
    case Sent(batch, _, _) => batch.data.Keys
    case Split(_, a, b) => KeptKeys(a) + KeptKeys(b)
    case _ => {}
  }

  lemma {:induction false} UnmixedOrder(prefix: string, data: Entries, part: Entries, order: seq<MetricKey>)
    requires Unmixed(data) && SubMap(part, data)
    requires forall k :: k in order ==> k in part
    ensures SeriesInOrder(prefix, part, order) == Map(SeriesMaker(CommonPrefix(prefix, data), data), order)
  {
    if order == [] {
    } else {
      var n := |order| - 1;
      UnmixedOrder(prefix, data, part, order[..n]);
      UnmixedPrefix(prefix, data, order);
      assert order[n] in order;
      MapLast(SeriesMaker(CommonPrefix(prefix, data), data), order);
    }
  }

  lemma UnmixedPrefix(prefix: string, data: Entries, order: seq<MetricKey>)
    requires Unmixed(data) && order != []
    requires forall k :: k in order ==> k in data
    ensures PrefixAfter(prefix, order) == CommonPrefix(prefix, data)
  {
    assert order[0] in order;
  }

  lemma {:induction false} KeptSeries(enc: Encoder, prefix: string, maxPostBytes: uint32,
                                      data: Entries, whole: Entries, run: Run<Batch>)
    requires Formats(enc, prefix, maxPostBytes, data, run) && SubMap(data, whole) && Unmixed(whole)
    ensures AllSeries(prefix, run) == Map(SeriesMaker(CommonPrefix(prefix, whole), whole), AllKeys(run))
    ensures Enumerates(AllKeys(run), KeptKeys(run)) && KeptKeys(run) <= data.Keys
  {
    match run
    case Sent(batch, _, _) =>
      EnumeratesMembers(batch.order, data.Keys);
      UnmixedOrder(prefix, whole, data, batch.order);
    case Split(_, a, b) =>
      KeptSeries(enc, prefix, maxPostBytes, DataOf(a), whole, a);
      KeptSeries(enc, prefix, maxPostBytes, DataOf(b), whole, b);
      MapConcat(SeriesMaker(CommonPrefix(prefix, whole), whole), AllKeys(a), AllKeys(b));
      EnumeratesUnion(AllKeys(a), AllKeys(b), KeptKeys(a), KeptKeys(b));
    case _ =>
  }

  /**
   * For batches with no health monitor name or only such names, the series over all chunks are, as a bag, those of
   * the unsplit batch restricted to the kept keys, in whatever order either was visited.
   */
  lemma SplittingPreservesMeaning(enc: Encoder, prefix: string, maxPostBytes: uint32,
                                  data: Entries, run: Run<Batch>, order: seq<MetricKey>)
    requires Formats(enc, prefix, maxPostBytes, data, run) && Unmixed(data)
    requires Enumerates(order, KeptKeys(run))
    ensures multiset(AllSeries(prefix, run)) == multiset(SeriesInOrder(prefix, data, order))
  {
    KeptSeries(enc, prefix, maxPostBytes, data, data, run);
    EnumeratesMembers(order, KeptKeys(run));
    UnmixedOrder(prefix, data, data, order);
    PermutedMap(SeriesMaker(CommonPrefix(prefix, data), data), AllKeys(run), order);
  }

  // ---------------------------------------------------------------- when iteration order shows

  ghost predicate OrderIrrelevant(prefix: string, data: Entries) {
    forall o1, o2 :: Enumerates(o1, data.Keys) && Enumerates(o2, data.Keys) ==>
      multiset(SeriesInOrder(prefix, data, o1)) == multiset(SeriesInOrder(prefix, data, o2))
  }

  function NameLength(s: Series): int { |s.metric| }

  function KeyLength(k: MetricKey): int { |k.name| }

  lemma LengthsNext(prefix: string, data: Entries, order: seq<MetricKey>)
    requires order != []
    ensures var front, last := order[..|order| - 1], order[|order| - 1];
            && SumOf(NameLength, SeriesInOrder(prefix, data, order))
               == SumOf(NameLength, SeriesInOrder(prefix, data, front)) + |PrefixAfter(prefix, order)| + |last.name|
            && SumOf(KeyLength, order) == SumOf(KeyLength, front) + |last.name|
  {
    var front, s := order[..|order| - 1], SeriesInOrder(prefix, data, order);
    assert s[..|s| - 1] == SeriesInOrder(prefix, data, front);
  }

  /** Without a health monitor name every series carries the prefix. */
  lemma {:induction false} NameLengthsPrefixed(prefix: string, data: Entries, order: seq<MetricKey>)
    requires prefix != "" && forall k :: k in order ==> !IsHealthMonitor(k)
    ensures SumOf(NameLength, SeriesInOrder(prefix, data, order)) >= SumOf(KeyLength, order) + |order|
  {
    if order == [] {
    } else {
      NameLengthsPrefixed(prefix, data, order[..|order| - 1]);
      LengthsNext(prefix, data, order);
      assert PrefixAfter(prefix, order) == prefix;
    }
  }

  /** The health monitor names that follow do not, but nothing before them changes. */
  lemma {:induction false} NameLengths(prefix: string, data: Entries, front: seq<MetricKey>, back: seq<MetricKey>)
    requires prefix != ""
    requires forall k :: k in back ==> IsHealthMonitor(k)
    requires forall k :: k in front ==> !IsHealthMonitor(k)
    ensures SumOf(NameLength, SeriesInOrder(prefix, data, front + back)) >= SumOf(KeyLength, front + back) + |front|
  {
    if back == [] {
      assert front + back == front;
      NameLengthsPrefixed(prefix, data, front);
    } else {
      var order, n := front + back, |back| - 1;
      assert order[..|order| - 1] == front + back[..n];
      NameLengths(prefix, data, front, back[..n]);
      LengthsNext(prefix, data, order);
    }
  }

  lemma PrefixCleared(prefix: string, order: seq<MetricKey>)
    requires order != [] && IsHealthMonitor(order[0])
    ensures PrefixAfter(prefix, order) == ""
  {
    assert order[0] in order;
  }

  /** A health monitor name first: no series carries the prefix. */
  lemma {:induction false} NameLengthsCleared(prefix: string, data: Entries, order: seq<MetricKey>)
    requires order != [] ==> IsHealthMonitor(order[0])
    ensures SumOf(NameLength, SeriesInOrder(prefix, data, order)) == SumOf(KeyLength, order)
  {
    if order == [] {
    } else {
      var front := order[..|order| - 1];
      assert front != [] ==> front[0] == order[0];
      NameLengthsCleared(prefix, data, front);
      LengthsNext(prefix, data, order);
      PrefixCleared(prefix, order);
    }
  }

  /**
   * The bag of series of a batch is independent of Go's map order exactly when there is no prefix to clear or the
   * batch does not mix health monitor names with others.
   */
  lemma OrderIrrelevantExactly(prefix: string, data: Entries)
    ensures OrderIrrelevant(prefix, data) <==> prefix == "" || Unmixed(data)
  {
    if prefix == "" || Unmixed(data) {
      forall o1, o2 | Enumerates(o1, data.Keys) && Enumerates(o2, data.Keys)
        ensures multiset(SeriesInOrder(prefix, data, o1)) == multiset(SeriesInOrder(prefix, data, o2))
      {
        EnumeratesMembers(o1, data.Keys);
        EnumeratesMembers(o2, data.Keys);
        if prefix == "" {
          var f := SeriesMaker("", data);
          NoPrefix(data, o1);
          NoPrefix(data, o2);
          PermutedMap(f, o1, o2);
        } else {
          UnmixedOrder(prefix, data, data, o1);
          UnmixedOrder(prefix, data, data, o2);
          PermutedMap(SeriesMaker(CommonPrefix(prefix, data), data), o1, o2);
        }
      }
    } else {
      MixedOrdersDiffer(prefix, data);
    }
  }

  lemma {:induction false} NoPrefix(data: Entries, order: seq<MetricKey>)
    ensures SeriesInOrder("", data, order) == Map(SeriesMaker("", data), order)
  {
    if order == [] {
    } else {
      NoPrefix(data, order[..|order| - 1]);
      MapLast(SeriesMaker("", data), order);
    }
  }

  lemma DifferentLengths(a: seq<Series>, b: seq<Series>)
    requires SumOf(NameLength, a) != SumOf(NameLength, b)
    ensures multiset(a) != multiset(b)
  {
    if multiset(a) == multiset(b) {
      PermutedSum(NameLength, a, b);
    }
  }

  lemma MixedOrderCounts(prefix: string, data: Entries, front: seq<MetricKey>, back: seq<MetricKey>)
    requires prefix != "" && front != [] && back != []
    requires forall k :: k in back ==> IsHealthMonitor(k)
    requires forall k :: k in front ==> !IsHealthMonitor(k)
    ensures multiset(SeriesInOrder(prefix, data, front + back)) != multiset(SeriesInOrder(prefix, data, back + front))
  {
    var o1, o2 := front + back, back + front;
    assert SumOf(NameLength, SeriesInOrder(prefix, data, o1)) > SumOf(KeyLength, o1) by {
      NameLengths(prefix, data, front, back);
    }
    assert SumOf(NameLength, SeriesInOrder(prefix, data, o2)) == SumOf(KeyLength, o2) by {
      assert back[0] in back && o2[0] == back[0];
      NameLengthsCleared(prefix, data, o2);
    }
    assert SumOf(KeyLength, o1) == SumOf(KeyLength, o2) by {
      SumConcat(KeyLength, front, back);
      SumConcat(KeyLength, back, front);
    }
    DifferentLengths(SeriesInOrder(prefix, data, o1), SeriesInOrder(prefix, data, o2));
  }

  /** With prefix "cf.", one plain and one health monitor name give two different payloads. */
  lemma MixedBatchExample()
    ensures var cpu, bosh := MetricKey("cpu", ""), MetricKey("bosh.healthmonitor.cpu", "");
            !OrderIrrelevant("cf.", map[cpu := ValueOf(map[], cpu), bosh := ValueOf(map[], bosh)])
  {
    var cpu, bosh := MetricKey("cpu", ""), MetricKey("bosh.healthmonitor.cpu", "");
    var data := map[cpu := ValueOf(map[], cpu), bosh := ValueOf(map[], bosh)];
    assert IsHealthMonitor(bosh) && !IsHealthMonitor(cpu);
    assert bosh in data && cpu in data;
    MixedOrdersDiffer("cf.", data);
  }

  lemma MixedOrdersDiffer(prefix: string, data: Entries)
    requires prefix != "" && !Unmixed(data)
    ensures !OrderIrrelevant(prefix, data)
  {
    var front, back := MixedOrders(data, set k | k in data && IsHealthMonitor(k));
    assert front != [] by {
      var plain :| plain in data && !IsHealthMonitor(plain);
      assert plain in front;
    }
    assert back != [] by {
      var monitor :| monitor in data && IsHealthMonitor(monitor);
      assert monitor in back;
    }
    MixedOrderCounts(prefix, data, front, back);
    TwoOrders(prefix, data, front + back, back + front);
  }

  lemma TwoOrders(prefix: string, data: Entries, o1: seq<MetricKey>, o2: seq<MetricKey>)
    requires Enumerates(o1, data.Keys) && Enumerates(o2, data.Keys)
    requires multiset(SeriesInOrder(prefix, data, o1)) != multiset(SeriesInOrder(prefix, data, o2))
    ensures !OrderIrrelevant(prefix, data)
  {
  }

  lemma MixedOrders(data: Entries, some: set<MetricKey>) returns (front: seq<MetricKey>, back: seq<MetricKey>)
    requires some <= data.Keys
    ensures Enumerates(front + back, data.Keys) && Enumerates(back + front, data.Keys)
    ensures forall k :: k in back <==> k in some
    ensures forall k :: k in front <==> k in data.Keys - some
  {
    var others := data.Keys - some;
    EnumerationExists(some);
    EnumerationExists(others);
    back :| Enumerates(back, some);
    front :| Enumerates(front, others);
    EnumeratesMembers(back, some);
    EnumeratesMembers(front, others);
    EnumeratesUnion(front, back, others, some);
    EnumeratesUnion(back, front, some, others);
    assert data.Keys == others + some;
    assert data.Keys == some + others;
  }
}
