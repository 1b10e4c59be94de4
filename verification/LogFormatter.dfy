/** Splitting and formatting a batch of logs (internal/client/datadog/formatter.go). */
module LogFormatter {
  import opened SplitTree

  datatype LogMessage = LogMessage(
    source: string, tags: string, hostname: string, message: string, service: string)

  type LogEncoder = seq<LogMessage> -> Encoded

  /** The half-open range of positions [lo, hi) of the batch. */
  datatype Span = Span(lo: nat, hi: nat)

  /** The later half comes first. */
  function SplitLogs(data: seq<LogMessage>): (halves: (seq<LogMessage>, seq<LogMessage>))
    ensures halves.1 + halves.0 == data
    ensures |halves.1| <= |halves.0| <= |halves.1| + 1
  {
    (data[|data| / 2..], data[..|data| / 2])
  }

  /** Copies its argument entry by entry before encoding it. */
  method FormatEntries(enc: LogEncoder, data: seq<LogMessage>) returns (r: Encoded)
    ensures r == enc(data)
  {
    var s: seq<LogMessage> := [];
    for i := 0 to |data|
      invariant s == data[..i]
    {
      s := s + [data[i]];
    }
    assert s == data;
    r := enc(s);
  }

  function FormatLogs(enc: LogEncoder, maxPostBytes: uint32, data: seq<LogMessage>): seq<FormatData>
    decreases |data|
  {
    if data == [] then []
    else
      match enc(data)
      case EncodeError => []
      case Encoded(bytes) =>
        if TooBig(bytes, maxPostBytes) then
          if |data| == 1 then []
          else
            var (logsA, logsB) := SplitLogs(data);
            FormatLogs(enc, maxPostBytes, logsA) + FormatLogs(enc, maxPostBytes, logsB)
        else [FormatData(bytes, |data|)]
  }

  // ---------------------------------------------------------------- what the limit means, in bytes

  /** A batch that encodes within the limit is sent whole. */
  lemma SentWhole(enc: LogEncoder, maxPostBytes: uint32, data: seq<LogMessage>, bytes: seq<byte>)
    requires data != [] && enc(data) == Encoded(bytes) && |bytes| <= maxPostBytes
    ensures FormatLogs(enc, maxPostBytes, data) == [FormatData(bytes, |data|)]
  {
  }

  /** A single entry that encodes is sent exactly when its length, modulo 2^32, is within the limit. */
  lemma SingleExactly(enc: LogEncoder, maxPostBytes: uint32, entry: LogMessage, bytes: seq<byte>)
    requires enc([entry]) == Encoded(bytes)
    ensures FormatLogs(enc, maxPostBytes, [entry])
         == if |bytes| % 0x1_0000_0000 <= maxPostBytes then [FormatData(bytes, 1)] else []
    ensures maxPostBytes < |bytes| < 0x1_0000_0000 ==> FormatLogs(enc, maxPostBytes, [entry]) == []
  {
  }

  // ---------------------------------------------------------------- where each chunk comes from

  ghost predicate InRange(data: seq<LogMessage>, lo: nat, hi: nat) {
    lo <= hi <= |data|
  }

  /** The recursion tree of FormatLogs on data[lo..hi]. */
  ghost function LogRun(enc: LogEncoder, maxPostBytes: uint32, data: seq<LogMessage>, lo: nat, hi: nat): (run: Run<Span>)
    requires InRange(data, lo, hi)
    ensures run.Size() == hi - lo
    decreases hi - lo
  {
    var span := Span(lo, hi);
    if lo == hi then Nothing
    else
      match enc(data[lo..hi])
      case EncodeError => Failed(span, hi - lo)
      case Encoded(bytes) =>
        if TooBig(bytes, maxPostBytes) then
          if hi - lo == 1 then Dropped(span)
          else
            var mid := lo + (hi - lo) / 2;
            Split(hi - lo, LogRun(enc, maxPostBytes, data, mid, hi), LogRun(enc, maxPostBytes, data, lo, mid))
        else Sent(span, hi - lo, bytes)
  }

  /** The batch is encoded, too big and has more than one entry. */
  ghost predicate Halves(enc: LogEncoder, maxPostBytes: uint32, batch: seq<LogMessage>) {
    |batch| > 1 && enc(batch).Encoded? && TooBig(enc(batch).bytes, maxPostBytes)
  }

  lemma FormatHalves(enc: LogEncoder, maxPostBytes: uint32, batch: seq<LogMessage>)
    requires Halves(enc, maxPostBytes, batch)
    ensures FormatLogs(enc, maxPostBytes, batch)
         == FormatLogs(enc, maxPostBytes, batch[|batch| / 2..]) + FormatLogs(enc, maxPostBytes, batch[..|batch| / 2])
  {
  }

  lemma RunHalves(enc: LogEncoder, maxPostBytes: uint32, data: seq<LogMessage>, lo: nat, mid: nat, hi: nat)
    requires InRange(data, lo, hi) && mid == lo + (hi - lo) / 2
    requires Halves(enc, maxPostBytes, data[lo..hi])
    ensures lo < mid < hi
    ensures data[lo..hi][(hi - lo) / 2..] == data[mid..hi] && data[lo..hi][..(hi - lo) / 2] == data[lo..mid]
    ensures LogRun(enc, maxPostBytes, data, lo, hi)
         == Split(hi - lo, LogRun(enc, maxPostBytes, data, mid, hi), LogRun(enc, maxPostBytes, data, lo, mid))
  {
  }

  lemma RunLeaf(enc: LogEncoder, maxPostBytes: uint32, data: seq<LogMessage>, lo: nat, hi: nat)
    requires InRange(data, lo, hi) && !Halves(enc, maxPostBytes, data[lo..hi])
    ensures !LogRun(enc, maxPostBytes, data, lo, hi).Split?
    ensures FormatLogs(enc, maxPostBytes, data[lo..hi]) == LogRun(enc, maxPostBytes, data, lo, hi).Output()
    ensures LogRun(enc, maxPostBytes, data, lo, hi).Halving()
  {
  }

  lemma {:induction false} RunFormats(enc: LogEncoder, maxPostBytes: uint32, data: seq<LogMessage>, lo: nat, hi: nat)
    requires InRange(data, lo, hi)
    ensures FormatLogs(enc, maxPostBytes, data[lo..hi]) == LogRun(enc, maxPostBytes, data, lo, hi).Output()
    ensures LogRun(enc, maxPostBytes, data, lo, hi).Halving()
    decreases hi - lo
  {
    if Halves(enc, maxPostBytes, data[lo..hi]) {
      var mid := lo + (hi - lo) / 2;
      RunHalves(enc, maxPostBytes, data, lo, mid, hi);
      FormatHalves(enc, maxPostBytes, data[lo..hi]);
      RunFormats(enc, maxPostBytes, data, mid, hi);
      RunFormats(enc, maxPostBytes, data, lo, mid);
      var a, b := LogRun(enc, maxPostBytes, data, mid, hi), LogRun(enc, maxPostBytes, data, lo, mid);
      assert LogRun(enc, maxPostBytes, data, lo, hi).Output() == a.Output() + b.Output();
    } else {
      RunLeaf(enc, maxPostBytes, data, lo, hi);
    }
  }

  ghost predicate ChunkOf(enc: LogEncoder, maxPostBytes: uint32, data: seq<LogMessage>, span: Span, out: FormatData) {
    span.lo < span.hi <= |data|
    && out.nbrItems == span.hi - span.lo
    && enc(data[span.lo..span.hi]) == Encoded(out.data)
    && !TooBig(out.data, maxPostBytes)
  }

  /** Spans inside [lo, hi), each one wholly before the one emitted ahead of it. */
  ghost predicate Descending(spans: seq<Span>, lo: nat, hi: nat) {
    (forall i :: 0 <= i < |spans| ==> lo <= spans[i].lo < spans[i].hi <= hi)
    && (forall i, j :: 0 <= i < j < |spans| ==> spans[j].hi <= spans[i].lo)
  }

  ghost predicate Covered(spans: seq<Span>, j: nat) {
    exists i :: 0 <= i < |spans| && spans[i].lo <= j < spans[i].hi
  }

  /** The run encoded this slice, and the encoding failed. */
  ghost predicate FailedSlice(enc: LogEncoder, data: seq<LogMessage>, span: Span) {
    span.lo < span.hi <= |data| && enc(data[span.lo..span.hi]).EncodeError?
  }

  /** The run encoded this entry alone, and it was too big. */
  ghost predicate DroppedEntry(enc: LogEncoder, maxPostBytes: uint32, data: seq<LogMessage>, span: Span) {
    span.hi == span.lo + 1 <= |data|
    && enc(data[span.lo..span.hi]).Encoded? && TooBig(enc(data[span.lo..span.hi]).bytes, maxPostBytes)
  }

  ghost predicate LostSlices(enc: LogEncoder, maxPostBytes: uint32, data: seq<LogMessage>,
                             failures: seq<Span>, drops: seq<Span>)
  {
    && (forall i :: 0 <= i < |failures| ==> FailedSlice(enc, data, failures[i]))
    && (forall i :: 0 <= i < |drops| ==> DroppedEntry(enc, maxPostBytes, data, drops[i]))
  }

  lemma CoveredConcat(a: seq<Span>, b: seq<Span>, j: nat)
    ensures Covered(a + b, j) <==> Covered(a, j) || Covered(b, j)
  {
    if i :| 0 <= i < |a| && a[i].lo <= j < a[i].hi {
      assert (a + b)[i] == a[i];
    }
    if i :| 0 <= i < |b| && b[i].lo <= j < b[i].hi {
      assert (a + b)[|a| + i] == b[i];
    }
  }

  ghost predicate ChunksOf(enc: LogEncoder, maxPostBytes: uint32, data: seq<LogMessage>, spans: seq<Span>,
                           out: seq<FormatData>)
  {
    |spans| == |out| && forall i :: 0 <= i < |spans| ==> ChunkOf(enc, maxPostBytes, data, spans[i], out[i])
  }

  lemma ChunksConcat(enc: LogEncoder, maxPostBytes: uint32, data: seq<LogMessage>, a: seq<Span>, b: seq<Span>,
                     x: seq<FormatData>, y: seq<FormatData>)
    requires ChunksOf(enc, maxPostBytes, data, a, x) && ChunksOf(enc, maxPostBytes, data, b, y)
    ensures ChunksOf(enc, maxPostBytes, data, a + b, x + y)
  {
  }

  lemma DescendingConcat(a: seq<Span>, b: seq<Span>, lo: nat, mid: nat, hi: nat)
    requires lo <= mid <= hi && Descending(a, mid, hi) && Descending(b, lo, mid)
    ensures Descending(a + b, lo, hi)
  {
  }

  lemma {:induction false} SpansOfRun(enc: LogEncoder, maxPostBytes: uint32, data: seq<LogMessage>, lo: nat, hi: nat)
    requires InRange(data, lo, hi)
    ensures var run := LogRun(enc, maxPostBytes, data, lo, hi);
            Descending(run.Chunks(), lo, hi) && ChunksOf(enc, maxPostBytes, data, run.Chunks(), run.Output())
    decreases hi - lo
  {
    if Halves(enc, maxPostBytes, data[lo..hi]) {
      var mid := lo + (hi - lo) / 2;
      RunHalves(enc, maxPostBytes, data, lo, mid, hi);
      SpansOfRun(enc, maxPostBytes, data, mid, hi);
      SpansOfRun(enc, maxPostBytes, data, lo, mid);
      var a, b := LogRun(enc, maxPostBytes, data, mid, hi), LogRun(enc, maxPostBytes, data, lo, mid);
      DescendingConcat(a.Chunks(), b.Chunks(), lo, mid, hi);
      ChunksConcat(enc, maxPostBytes, data, a.Chunks(), b.Chunks(), a.Output(), b.Output());
    } else {
      RunLeaf(enc, maxPostBytes, data, lo, hi);
    }
  }

  lemma LeafIsLost(enc: LogEncoder, maxPostBytes: uint32, data: seq<LogMessage>, lo: nat, hi: nat)
    requires InRange(data, lo, hi) && !Halves(enc, maxPostBytes, data[lo..hi])
    ensures var run := LogRun(enc, maxPostBytes, data, lo, hi);
            LostSlices(enc, maxPostBytes, data, run.Failures(), run.Drops())
  {
  }

  lemma LostConcat(enc: LogEncoder, maxPostBytes: uint32, data: seq<LogMessage>, a: seq<Span>, b: seq<Span>,
                   x: seq<Span>, y: seq<Span>)
    requires LostSlices(enc, maxPostBytes, data, a, x) && LostSlices(enc, maxPostBytes, data, b, y)
    ensures LostSlices(enc, maxPostBytes, data, a + b, x + y)
  {
  }

  /** The leaves of the run without a chunk are slices that failed to encode and single entries that were too big. */
  lemma {:induction false} LeavesAreLost(enc: LogEncoder, maxPostBytes: uint32, data: seq<LogMessage>, lo: nat, hi: nat)
    requires InRange(data, lo, hi)
    ensures var run := LogRun(enc, maxPostBytes, data, lo, hi);
            LostSlices(enc, maxPostBytes, data, run.Failures(), run.Drops())
    decreases hi - lo
  {
    if Halves(enc, maxPostBytes, data[lo..hi]) {
      var mid := lo + (hi - lo) / 2;
      RunHalves(enc, maxPostBytes, data, lo, mid, hi);
      LeavesAreLost(enc, maxPostBytes, data, mid, hi);
      LeavesAreLost(enc, maxPostBytes, data, lo, mid);
      var a, b := LogRun(enc, maxPostBytes, data, mid, hi), LogRun(enc, maxPostBytes, data, lo, mid);
      LostConcat(enc, maxPostBytes, data, a.Failures(), b.Failures(), a.Drops(), b.Drops());
    } else {
      LeafIsLost(enc, maxPostBytes, data, lo, hi);
    }
  }

  /** Wherever the run splits a slice or drops an entry, the encoding had more bytes than the limit. */
  lemma LimitDecides(enc: LogEncoder, maxPostBytes: uint32, data: seq<LogMessage>, lo: nat, hi: nat)
    requires InRange(data, lo, hi)
    ensures LogRun(enc, maxPostBytes, data, lo, hi).Split? ==>
              hi - lo >= 2 && enc(data[lo..hi]).Encoded? && |enc(data[lo..hi]).bytes| > maxPostBytes
    ensures forall i :: 0 <= i < |LogRun(enc, maxPostBytes, data, lo, hi).Drops()| ==>
              var span := LogRun(enc, maxPostBytes, data, lo, hi).Drops()[i];
              && span.hi == span.lo + 1 <= |data|
              && enc(data[span.lo..span.hi]).Encoded? && |enc(data[span.lo..span.hi]).bytes| > maxPostBytes
  {
    var run := LogRun(enc, maxPostBytes, data, lo, hi);
    LeavesAreLost(enc, maxPostBytes, data, lo, hi);
    forall i | 0 <= i < |run.Drops()|
      ensures var span := run.Drops()[i];
              span.hi == span.lo + 1 <= |data|
              && enc(data[span.lo..span.hi]).Encoded? && |enc(data[span.lo..span.hi]).bytes| > maxPostBytes
    {
      assert DroppedEntry(enc, maxPostBytes, data, run.Drops()[i]);
    }
  }

  /** Where the run leaves position j: in a chunk, in a slice that failed, or dropped. */
  ghost predicate Placed(run: Run<Span>, j: nat) {
    ExactlyOne(Covered(run.Chunks(), j), Covered(run.Failures(), j), Covered(run.Drops(), j))
  }

  ghost predicate Absent(run: Run<Span>, j: nat) {
    !Covered(run.Chunks(), j) && !Covered(run.Failures(), j) && !Covered(run.Drops(), j)
  }

  lemma CoveredOne(span: Span, j: nat)
    ensures Covered([span], j) <==> span.lo <= j < span.hi
    ensures !Covered([], j)
  {
    assert [span][0] == span;
  }

  lemma LeafPlaces(enc: LogEncoder, maxPostBytes: uint32, data: seq<LogMessage>, lo: nat, hi: nat, j: nat)
    requires InRange(data, lo, hi) && !Halves(enc, maxPostBytes, data[lo..hi])
    ensures var run := LogRun(enc, maxPostBytes, data, lo, hi);
            if lo <= j < hi then Placed(run, j) else Absent(run, j)
  {
    CoveredOne(Span(lo, hi), j);
  }

  lemma SplitPlaces(n: nat, a: Run<Span>, b: Run<Span>, j: nat)
    ensures Absent(a, j) ==> (Placed(Split(n, a, b), j) <==> Placed(b, j)) && (Absent(Split(n, a, b), j) <==> Absent(b, j))
    ensures Absent(b, j) ==> (Placed(Split(n, a, b), j) <==> Placed(a, j)) && (Absent(Split(n, a, b), j) <==> Absent(a, j))
  {
    CoveredConcat(a.Chunks(), b.Chunks(), j);
    CoveredConcat(a.Failures(), b.Failures(), j);
    CoveredConcat(a.Drops(), b.Drops(), j);
  }

  /** Every position is in exactly one place of the run, and positions outside the slice are in none. */
  lemma {:induction false} EntriesPlaced(enc: LogEncoder, maxPostBytes: uint32, data: seq<LogMessage>, lo: nat, hi: nat,
                                         j: nat)
    requires InRange(data, lo, hi)
    ensures var run := LogRun(enc, maxPostBytes, data, lo, hi);
            if lo <= j < hi then Placed(run, j) else Absent(run, j)
    decreases hi - lo
  {
    if Halves(enc, maxPostBytes, data[lo..hi]) {
      var mid := lo + (hi - lo) / 2;
      RunHalves(enc, maxPostBytes, data, lo, mid, hi);
      EntriesPlaced(enc, maxPostBytes, data, mid, hi, j);
      EntriesPlaced(enc, maxPostBytes, data, lo, mid, j);
      SplitPlaces(hi - lo, LogRun(enc, maxPostBytes, data, mid, hi), LogRun(enc, maxPostBytes, data, lo, mid), j);
    } else {
      LeafPlaces(enc, maxPostBytes, data, lo, hi, j);
    }
  }

  /**
   * Main result on FormatLogs, for every encoder: the chunks are contiguous, disjoint slices of the batch, later
   * ones first, each within the (32-bit) size limit and counting its own items; an entry has no chunk exactly when
   * the run failed to encode the slice it was in or dropped it as too big alone.
   */
  lemma LogsPartitioned(enc: LogEncoder, maxPostBytes: uint32, data: seq<LogMessage>)
    ensures var run := LogRun(enc, maxPostBytes, data, 0, |data|);
            var out := FormatLogs(enc, maxPostBytes, data);
            && Descending(run.Chunks(), 0, |data|) && ChunksOf(enc, maxPostBytes, data, run.Chunks(), out)
            && LostSlices(enc, maxPostBytes, data, run.Failures(), run.Drops())
            && (forall j :: 0 <= j < |data| ==> Placed(run, j))
            && Items(out) + run.Missing() == |data|
  {
    var run := LogRun(enc, maxPostBytes, data, 0, |data|);
    assert data[0..|data|] == data;
    RunFormats(enc, maxPostBytes, data, 0, |data|);
    SpansOfRun(enc, maxPostBytes, data, 0, |data|);
    LeavesAreLost(enc, maxPostBytes, data, 0, |data|);
    ItemsConserved(run);
    forall j | 0 <= j < |data| ensures Placed(run, j) {
      EntriesPlaced(enc, maxPostBytes, data, 0, |data|, j);
    }
  }

  /** No slice of the batch fails to encode, and no entry is too big alone. */
  ghost predicate Sendable(enc: LogEncoder, maxPostBytes: uint32, data: seq<LogMessage>) {
    forall lo, hi :: 0 <= lo < hi <= |data| ==>
      !FailedSlice(enc, data, Span(lo, hi)) && !DroppedEntry(enc, maxPostBytes, data, Span(lo, hi))
  }

  lemma LostIsUnsendable(enc: LogEncoder, maxPostBytes: uint32, data: seq<LogMessage>, failures: seq<Span>, drops: seq<Span>)
    requires LostSlices(enc, maxPostBytes, data, failures, drops)
    ensures failures != [] || drops != [] ==> !Sendable(enc, maxPostBytes, data)
  {
    if failures != [] {
      var span := failures[0];
      assert FailedSlice(enc, data, Span(span.lo, span.hi));
    }
    if drops != [] {
      var span := drops[0];
      assert DroppedEntry(enc, maxPostBytes, data, Span(span.lo, span.hi));
    }
  }

  lemma SendableIsComplete(enc: LogEncoder, maxPostBytes: uint32, data: seq<LogMessage>)
    requires Sendable(enc, maxPostBytes, data)
    ensures LogRun(enc, maxPostBytes, data, 0, |data|).Missing() == 0
  {
    var run := LogRun(enc, maxPostBytes, data, 0, |data|);
    LeavesAreLost(enc, maxPostBytes, data, 0, |data|);
    RunFormats(enc, maxPostBytes, data, 0, |data|);
    NothingMissing(run);
    LostIsUnsendable(enc, maxPostBytes, data, run.Failures(), run.Drops());
  }

  lemma LogsSplitCost(enc: LogEncoder, maxPostBytes: uint32, data: seq<LogMessage>, d: nat)
    requires |data| <= Pow2(d)
    ensures var run := LogRun(enc, maxPostBytes, data, 0, |data|);
            run.Depth() <= d && (data != [] ==> run.Encodings() <= 2 * |data| - 1)
  {
    RunFormats(enc, maxPostBytes, data, 0, |data|);
    EncodingBound(LogRun(enc, maxPostBytes, data, 0, |data|));
    DepthBound(LogRun(enc, maxPostBytes, data, 0, |data|), d);
  }

  // ---------------------------------------------------------------- the original order comes back

  /** The slices of the chunks, concatenated in reverse output order. */
  ghost function Reassembled(data: seq<LogMessage>, spans: seq<Span>): seq<LogMessage>
    requires Descending(spans, 0, |data|)
  {
    if spans == [] then []
    else
      Reassembled(data, spans[1..]) + data[spans[0].lo..spans[0].hi]
  }

  /** The entries of data[lo..hi] whose position is covered, in their original order. */
  ghost function Pick(data: seq<LogMessage>, spans: seq<Span>, lo: nat, hi: nat): seq<LogMessage>
    requires InRange(data, lo, hi)
    decreases hi - lo
  {
    if lo == hi then []
    else Pick(data, spans, lo, hi - 1) + if Covered(spans, hi - 1) then [data[hi - 1]] else []
  }

  lemma {:induction false} PickConcat(data: seq<LogMessage>, spans: seq<Span>, lo: nat, mid: nat, hi: nat)
    requires InRange(data, lo, mid) && InRange(data, mid, hi)
    ensures Pick(data, spans, lo, hi) == Pick(data, spans, lo, mid) + Pick(data, spans, mid, hi)
    decreases hi
  {
    if mid == hi {
    } else {
      PickConcat(data, spans, lo, mid, hi - 1);
    }
  }

  lemma {:induction false} PickAll(data: seq<LogMessage>, spans: seq<Span>, lo: nat, hi: nat)
    requires InRange(data, lo, hi)
    requires forall j :: lo <= j < hi ==> Covered(spans, j)
    ensures Pick(data, spans, lo, hi) == data[lo..hi]
    decreases hi - lo
  {
    if lo == hi {
    } else {
      PickAll(data, spans, lo, hi - 1);
      assert Covered(spans, hi - 1);
      assert data[lo..hi] == data[lo..hi - 1] + [data[hi - 1]];
    }
  }

  lemma {:induction false} PickNone(data: seq<LogMessage>, spans: seq<Span>, lo: nat, hi: nat)
    requires InRange(data, lo, hi)
    requires forall j :: lo <= j < hi ==> !Covered(spans, j)
    ensures Pick(data, spans, lo, hi) == []
    decreases hi - lo
  {
    if lo == hi {
    } else {
      PickNone(data, spans, lo, hi - 1);
    }
  }

  lemma {:induction false} PickSame(data: seq<LogMessage>, s: seq<Span>, t: seq<Span>, lo: nat, hi: nat)
    requires InRange(data, lo, hi)
    requires forall j :: lo <= j < hi ==> (Covered(s, j) <==> Covered(t, j))
    ensures Pick(data, s, lo, hi) == Pick(data, t, lo, hi)
    decreases hi - lo
  {
    if lo == hi {
    } else {
      PickSame(data, s, t, lo, hi - 1);
    }
  }

  /** Only the first span reaches beyond its own start. */
  lemma FirstSpanLast(spans: seq<Span>, n: nat)
    requires spans != [] && Descending(spans, 0, n)
    ensures forall j: nat :: Covered(spans, j) <==> spans[0].lo <= j < spans[0].hi || Covered(spans[1..], j)
    ensures forall j: nat :: Covered(spans[1..], j) ==> j < spans[0].lo
  {
    var first, rest := spans[0], spans[1..];
    assert spans == [first] + rest;
    forall j: nat
      ensures Covered(spans, j) <==> first.lo <= j < first.hi || Covered(rest, j)
      ensures Covered(rest, j) ==> j < first.lo
    {
      CoveredConcat([first], rest, j);
      assert Covered([first], j) <==> first.lo <= j < first.hi by {
        assert [first][0] == first;
      }
      if i :| 0 <= i < |rest| && rest[i].lo <= j < rest[i].hi {
        assert rest[i] == spans[i + 1];
      }
    }
  }

  /** Adding a span after all others adds its slice at the end. */
  lemma PickWithFirst(data: seq<LogMessage>, all: seq<Span>, rest: seq<Span>, first: Span)
    requires first.lo < first.hi <= |data|
    requires forall j: nat :: Covered(all, j) <==> first.lo <= j < first.hi || Covered(rest, j)
    requires forall j: nat :: Covered(rest, j) ==> j < first.lo
    ensures Pick(data, all, 0, |data|) == Pick(data, rest, 0, |data|) + data[first.lo..first.hi]
  {
    PickConcat(data, all, 0, first.lo, |data|);
    PickConcat(data, all, first.lo, first.hi, |data|);
    PickAll(data, all, first.lo, first.hi);
    PickNone(data, all, first.hi, |data|);
    PickSame(data, all, rest, 0, first.lo);
    PickConcat(data, rest, 0, first.lo, |data|);
    PickNone(data, rest, first.lo, |data|);
  }

  lemma {:induction false} ReassembledInOrder(data: seq<LogMessage>, spans: seq<Span>)
    requires Descending(spans, 0, |data|)
    ensures Reassembled(data, spans) == Pick(data, spans, 0, |data|)
  {
    if spans == [] {
      PickNone(data, spans, 0, |data|);
    } else {
      ReassembledInOrder(data, spans[1..]);
      FirstSpanLast(spans, |data|);
      PickWithFirst(data, spans, spans[1..], spans[0]);
    }
  }

  /** Reading the chunks backwards gives the original log sequence minus exactly the items no chunk carries. */
  lemma LogOrderRestored(enc: LogEncoder, maxPostBytes: uint32, data: seq<LogMessage>)
    ensures var spans := LogRun(enc, maxPostBytes, data, 0, |data|).Chunks();
            Descending(spans, 0, |data|) && Reassembled(data, spans) == Pick(data, spans, 0, |data|)
  {
    SpansOfRun(enc, maxPostBytes, data, 0, |data|);
    ReassembledInOrder(data, LogRun(enc, maxPostBytes, data, 0, |data|).Chunks());
  }
}
