/** The recursion tree of one formatting call: what was encoded, sent, dropped or split in two. */
module SplitTree {
  newtype byte = b: int | 0 <= b < 0x100

  /** JSON followed by zlib: an error or some bytes, with nothing assumed about their length. */
  datatype Encoded = EncodeError | Encoded(bytes: seq<byte>)

  datatype FormatData = FormatData(data: seq<byte>, nbrItems: nat)

  const UINT32: nat := 0x1_0000_0000

  type uint32 = n: nat | n < UINT32

  /** The length is converted to uint32 before the comparison, so it is taken modulo 2^32. */
  predicate TooBig(bytes: seq<byte>, maxPostBytes: uint32) {
    |bytes| % UINT32 > maxPostBytes
  }

  datatype Run<+B> =
    | Nothing
    | Failed(batch: B, n: nat)
    | Dropped(batch: B)
    | Sent(batch: B, n: nat, bytes: seq<byte>)
    | Split(n: nat, first: Run<B>, second: Run<B>)
  {
    function Size(): nat {
      match this
      case Nothing => 0
      case Dropped(_) => 1
      case Failed(_, n) => n
      case Sent(_, n, _) => n
      case Split(n, _, _) => n
    }

    /** Batches are never empty and a split halves them, the smaller half on either side. */
    ghost predicate Halving() {
      match this
      case Nothing => true
      case Dropped(_) => true
      case Failed(_, n) => n >= 1
      case Sent(_, n, _) => n >= 1
      case Split(n, a, b) =>
        n >= 2 && a.Size() + b.Size() == n && (a.Size() == n / 2 || b.Size() == n / 2)
        && a.Halving() && b.Halving()
    }

    /** The chunks in the order in which they are appended to the result. */
    function Chunks(): seq<B> {
      match this
      case Sent(batch, _, _) => [batch]
      case Split(_, a, b) => a.Chunks() + b.Chunks()
      case _ => []
    }

    /** The batches whose encoding failed. */
    function Failures(): seq<B> {
      match this
      case Failed(batch, _) => [batch]
      case Split(_, a, b) => a.Failures() + b.Failures()
      case _ => []
    }

    /** The single items that were too big. */
    function Drops(): seq<B> {
      match this
      case Dropped(batch) => [batch]
      case Split(_, a, b) => a.Drops() + b.Drops()
      case _ => []
    }

    function Output(): seq<FormatData> {
      match this
      case Sent(_, n, bytes) => [FormatData(bytes, n)]
      case Split(_, a, b) => a.Output() + b.Output()
      case _ => []
    }

    function Encodings(): nat {
      match this
      case Nothing => 0
      case Split(_, a, b) => 1 + a.Encodings() + b.Encodings()
      case _ => 1
    }

    function Depth(): nat {
      match this
      case Split(_, a, b) => 1 + if a.Depth() > b.Depth() then a.Depth() else b.Depth()
      case _ => 0
    }

    /** Items that no chunk carries. */
    function Missing(): nat {
      match this
      case Nothing => 0
      case Dropped(_) => 1
      case Failed(_, n) => n
      case Sent(_, _, _) => 0
      case Split(_, a, b) => a.Missing() + b.Missing()
    }
  }

  function Pow2(d: nat): nat {
    if d == 0 then 1 else 2 * Pow2(d - 1)
  }

  function Items(out: seq<FormatData>): nat {
    if out == [] then 0 else Items(out[..|out| - 1]) + out[|out| - 1].nbrItems
  }

  lemma {:induction false} ItemsConcat(a: seq<FormatData>, b: seq<FormatData>)
    ensures Items(a + b) == Items(a) + Items(b)
  {
    if b == [] {
      assert a + b == a;
    } else {
      ItemsConcat(a, b[..|b| - 1]);
      assert (a + b)[..|a + b| - 1] == a + b[..|b| - 1];
    }
  }

  ghost predicate ExactlyOne(a: bool, b: bool, c: bool) {
    (a || b || c) && !(a && b) && !(a && c) && !(b && c)
  }

  /** Nothing is missing exactly when no encoding failed and no item was dropped. */
  lemma {:induction false} NothingMissing<B>(run: Run<B>)
    requires run.Halving()
    ensures run.Missing() == 0 <==> run.Failures() == [] && run.Drops() == []
  {
    if !run.Split? {
    } else {
      NothingMissing(run.first);
      NothingMissing(run.second);
    }
  }

  /** At most 2n - 1 encodings for n items. */
  lemma {:induction false} EncodingBound<B>(run: Run<B>)
    requires run.Halving()
    ensures run.Encodings() <= if run.Size() == 0 then 0 else 2 * run.Size() - 1
  {
    if !run.Split? {
    } else {
      EncodingBound(run.first);
      EncodingBound(run.second);
    }
  }

  /** At most ceil(log2 n) nested splits: any d with n <= 2^d bounds the depth. */
  lemma {:induction false} DepthBound<B>(run: Run<B>, d: nat)
    requires run.Halving() && run.Size() <= Pow2(d)
    ensures run.Depth() <= d
  {
    if !run.Split? {
    } else {
      assert d > 0;
      DepthBound(run.first, d - 1);
      DepthBound(run.second, d - 1);
    }
  }

  /** Items sent and items missing add up to the batch, and every chunk carries at least one. */
  lemma {:induction false} ItemsConserved<B>(run: Run<B>)
    requires run.Halving()
    ensures Items(run.Output()) + run.Missing() == run.Size()
    ensures forall i :: 0 <= i < |run.Output()| ==> run.Output()[i].nbrItems >= 1
  {
    match run
    case Split(_, a, b) =>
      ItemsConserved(a);
      ItemsConserved(b);
      ItemsConcat(a.Output(), b.Output());
    case Sent(_, n, bytes) =>
      assert Items([FormatData(bytes, n)]) == Items([]) + n by {
        assert [FormatData(bytes, n)][..0] == [];
      }
    case _ =>
  }
}
