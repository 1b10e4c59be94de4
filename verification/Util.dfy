/** Canonical tag hashes and envelope classification (internal/util/util.go). */
module Util {
  import opened Sequences
  import opened Text
  import opened Metrics
  import opened Envelopes

  /** SHA-1 is any function with this output width. */
  const DIGEST_WIDTH: nat := 20

  const HIGH_CARDINALITY_TAGS: seq<string> := ["created_at", "user_data"]

  const CONTAINER_KEYS: seq<string> := ["cpu", "memory", "disk", "memory_quota", "disk_quota"]

  // ---------------------------------------------------------------- HashTags

  function HashOf(digest: string -> string, tags: seq<string>): string {
    Flatten(Map(digest, Sort(tags)))
  }

  ghost predicate FixedWidth(digest: string -> string, tags: seq<string>) {
    forall t :: t in tags ==> |digest(t)| == DIGEST_WIDTH
  }

  ghost predicate CollisionFree(digest: string -> string, tags: seq<string>) {
    forall s, t :: s in tags && t in tags && digest(s) == digest(t) ==> s == t
  }

  /** Sorts its argument in place, as sort.Strings does, and concatenates the digests in that order. */
  method HashTags(digest: string -> string, tags: array<string>) returns (hash: string)
    modifies tags
    ensures tags[..] == Sort(old(tags[..]))
    ensures hash == HashOf(digest, old(tags[..]))
  {
    var sorted := Sort(tags[..]);
    forall i | 0 <= i < tags.Length {
      tags[i] := sorted[i];
    }
    assert tags[..] == sorted;
    hash := "";
    for i := 0 to tags.Length
      invariant hash == Flatten(Map(digest, sorted[..i]))
    {
      var tagHash := digest(tags[i]);
      hash := hash + tagHash;
      assert Map(digest, sorted[..i + 1])[..i] == Map(digest, sorted[..i]);
    }
    assert sorted[..tags.Length] == sorted;
  }

  lemma {:induction false} FixedWidthConcatInjective(a: seq<string>, b: seq<string>, width: nat)
    requires width > 0
    requires forall i :: 0 <= i < |a| ==> |a[i]| == width
    requires forall i :: 0 <= i < |b| ==> |b[i]| == width
    requires Flatten(a) == Flatten(b)
    ensures a == b
  {
    if a == [] || b == [] {
    } else {
      var x, y := Flatten(a[..|a| - 1]), Flatten(b[..|b| - 1]);
      assert x + a[|a| - 1] == y + b[|b| - 1];
      assert |x| == |y|;
      assert x == (x + a[|a| - 1])[..|x|] && y == (y + b[|b| - 1])[..|y|];
      assert a[|a| - 1] == (x + a[|a| - 1])[|x|..] && b[|b| - 1] == (y + b[|b| - 1])[|y|..];
      FixedWidthConcatInjective(a[..|a| - 1], b[..|b| - 1], width);
      assert a == a[..|a| - 1] + [a[|a| - 1]] && b == b[..|b| - 1] + [b[|b| - 1]];
    }
  }

  lemma {:induction false} PiecesAt(pieces: seq<string>, width: nat, i: nat)
    requires forall j :: 0 <= j < |pieces| ==> |pieces[j]| == width
    requires i < |pieces|
    ensures |Flatten(pieces)| == |pieces| * width
    ensures 0 <= i * width <= (i + 1) * width <= |pieces| * width
    ensures Flatten(pieces)[i * width..(i + 1) * width] == pieces[i]
  {
    var n := |pieces| - 1;
    assert |pieces| * width == n * width + width && (i + 1) * width == i * width + width;
    if n == 0 {
      assert pieces[..0] == [];
      assert Flatten(pieces) == [] + pieces[0];
    } else {
      PiecesAt(pieces[..n], width, if i < n then i else 0);
      var front := Flatten(pieces[..n]);
      assert Flatten(pieces) == front + pieces[n];
      if i < n {
        assert (front + pieces[n])[i * width..(i + 1) * width] == front[i * width..(i + 1) * width];
      }
    }
  }

  /** The i-th 20 bytes of a hash are the digest of the i-th tag in byte order. */
  lemma HashPieces(digest: string -> string, tags: seq<string>, i: nat)
    requires FixedWidth(digest, tags) && i < |tags|
    ensures |HashOf(digest, tags)| == |tags| * 20 && Sorted(Sort(tags))
    ensures HashOf(digest, tags)[i * 20..(i + 1) * 20] == digest(Sort(tags)[i])
  {
    SortSorted(tags);
    var pieces := Map(digest, Sort(tags));
    forall j | 0 <= j < |pieces| ensures |pieces[j]| == 20 {
      assert Sort(tags)[j] in multiset(Sort(tags));
      assert Sort(tags)[j] in multiset(tags);
    }
    PiecesAt(pieces, 20, i);
  }

  /** Two hashes agree exactly when the digests of the sorted tags do. */
  lemma HashIsDigestSequence(digest: string -> string, a: seq<string>, b: seq<string>)
    requires FixedWidth(digest, a + b)
    ensures HashOf(digest, a) == HashOf(digest, b) <==> Map(digest, Sort(a)) == Map(digest, Sort(b))
  {
    if HashOf(digest, a) == HashOf(digest, b) {
      forall t | t in Sort(a) || t in Sort(b) ensures t in a + b {
        assert t in multiset(Sort(a)) || t in multiset(Sort(b));
        assert t in multiset(a) || t in multiset(b);
      }
      FixedWidthConcatInjective(Map(digest, Sort(a)), Map(digest, Sort(b)), DIGEST_WIDTH);
    }
  }

  /** Tag lists hash alike exactly when they are equal as bags. */
  lemma HashTagsCanonical(digest: string -> string, a: seq<string>, b: seq<string>)
    requires FixedWidth(digest, a + b) && CollisionFree(digest, a + b)
    ensures HashOf(digest, a) == HashOf(digest, b) <==> multiset(a) == multiset(b)
  {
    HashIsDigestSequence(digest, a, b);
    SortCanonical(a, b);
    var x, y := Sort(a), Sort(b);
    if Map(digest, x) == Map(digest, y) {
      assert |x| == |Map(digest, x)| == |y|;
      forall i | 0 <= i < |x| ensures x[i] == y[i] {
        assert Map(digest, x)[i] == Map(digest, y)[i];
        assert x[i] in multiset(a) && y[i] in multiset(b) by {
          assert x[i] in multiset(x) && y[i] in multiset(y);
        }
        assert x[i] in a + b && y[i] in a + b;
      }
      assert x == y;
    }
  }

  /** Order never matters to the hash, whatever the digest; hashing what HashTags left behind changes nothing. */
  lemma HashIgnoresOrder(digest: string -> string, a: seq<string>, b: seq<string>)
    requires multiset(a) == multiset(b)
    ensures HashOf(digest, a) == HashOf(digest, b) == HashOf(digest, Sort(a))
  {
    SortCanonical(a, b);
  }

  // ---------------------------------------------------------------- FilterHighCardinalityTags

  predicate Allowed(tag: string) {
    !Contains(tag, "created_at") && !Contains(tag, "user_data")
  }

  lemma AllowedExactly(tag: string)
    ensures Allowed(tag) <==> forall a, b :: tag != a + "created_at" + b && tag != a + "user_data" + b
  {
    ContainsExactly(tag, "created_at");
    ContainsExactly(tag, "user_data");
  }

  method FilterHighCardinalityTags(tags: seq<string>) returns (filteredTags: seq<string>)
    ensures filteredTags == Filter(Allowed, tags)
  {
    filteredTags := [];
    for i := 0 to |tags|
      invariant filteredTags == Filter(Allowed, tags[..i])
    {
      var isAllowed := true;
      var j := 0;
      while j < |HIGH_CARDINALITY_TAGS|
        invariant 0 <= j <= |HIGH_CARDINALITY_TAGS|
        invariant isAllowed <==> forall k :: 0 <= k < j ==> !Contains(tags[i], HIGH_CARDINALITY_TAGS[k])
        invariant !isAllowed ==> !Allowed(tags[i])
      {
        if Contains(tags[i], HIGH_CARDINALITY_TAGS[j]) {
          isAllowed := false;
          assert HIGH_CARDINALITY_TAGS[j] == "created_at" || HIGH_CARDINALITY_TAGS[j] == "user_data";
          break;
        }
        j := j + 1;
      }
      if isAllowed {
        assert !Contains(tags[i], HIGH_CARDINALITY_TAGS[0]) && !Contains(tags[i], HIGH_CARDINALITY_TAGS[1]);
        filteredTags := filteredTags + [tags[i]];
      }
      assert tags[..i + 1][..i] == tags[..i];
    }
    assert tags[..|tags|] == tags;
  }

  // ---------------------------------------------------------------- IsContainerMetric

  predicate Usable(metrics: map<string, Option<GaugeValue>>, key: string) {
    key in metrics && metrics[key].Some?
    && !(metrics[key].value.unit == "" && metrics[key].value.value == Finite(0.0))
  }

  ghost predicate ContainerMetric(envelope: Envelope) {
    envelope.message.Gauge? && forall key :: key in CONTAINER_KEYS ==> Usable(envelope.message.metrics, key)
  }

  /** A value is usable unless it is missing, nil, or zero without a unit. */
  lemma UsableExactly(metrics: map<string, Option<GaugeValue>>, key: string)
    ensures Usable(metrics, key) <==>
              key in metrics
              && exists unit, value :: metrics[key] == Some(GaugeValue(unit, value)) && (unit != "" || value != Finite(0.0))
  {
    if Usable(metrics, key) {
      assert metrics[key] == Some(GaugeValue(metrics[key].value.unit, metrics[key].value.value));
    }
  }

  lemma ContainerExactly(envelope: Envelope)
    ensures ContainerMetric(envelope) <==>
              envelope.message.Gauge?
              && var metrics := envelope.message.metrics;
                 Usable(metrics, "cpu") && Usable(metrics, "memory") && Usable(metrics, "disk")
                 && Usable(metrics, "memory_quota") && Usable(metrics, "disk_quota")
  {
    forall key
      ensures key in CONTAINER_KEYS
         <==> key == "cpu" || key == "memory" || key == "disk" || key == "memory_quota" || key == "disk_quota"
    {
      assert CONTAINER_KEYS == ["cpu", "memory", "disk", "memory_quota", "disk_quota"];
    }
    assert "cpu" in CONTAINER_KEYS && "memory" in CONTAINER_KEYS && "disk" in CONTAINER_KEYS;
    assert "memory_quota" in CONTAINER_KEYS && "disk_quota" in CONTAINER_KEYS;
  }

  method IsContainerMetric(envelope: Envelope) returns (result: bool)
    ensures result == ContainerMetric(envelope)
  {
    result := false;
    if envelope.message.Gauge? {
      var metrics := envelope.message.metrics;
      result := true;
      for i := 0 to |CONTAINER_KEYS|
        invariant result <==> forall k :: 0 <= k < i ==> Usable(metrics, CONTAINER_KEYS[k])
      {
        var key := CONTAINER_KEYS[i];
        if key !in metrics || metrics[key].None?
           || (metrics[key].value.unit == "" && metrics[key].value.value == Finite(0.0))
        {
          result := false;
        }
      }
    }
  }
}
