/** Go strings as sequences of bytes (one char a byte), with the few library functions the nozzle uses. */
module Text {

  predicate HasPrefix(s: string, p: string) {
    |p| <= |s| && s[..|p|] == p
  }

  predicate HasSuffix(s: string, p: string) {
    |p| <= |s| && s[|s| - |p|..] == p
  }

  predicate OccursAt(s: string, sub: string, i: nat) {
    i + |sub| <= |s| && s[i..i + |sub|] == sub
  }

  predicate Contains(s: string, sub: string) {
    exists i: nat | i <= |s| :: OccursAt(s, sub, i)
  }

  lemma PrefixExactly(s: string, p: string)
    ensures HasPrefix(s, p) <==> exists rest :: s == p + rest
  {
    if HasPrefix(s, p) {
      assert s == p + s[|p|..];
    }
  }

  lemma SuffixExactly(s: string, p: string)
    ensures HasSuffix(s, p) <==> exists front :: s == front + p
  {
    if HasSuffix(s, p) {
      assert s == s[..|s| - |p|] + p;
    }
  }

  lemma ContainsExactly(s: string, sub: string)
    ensures Contains(s, sub) <==> exists a, b :: s == a + sub + b
  {
    if i: nat :| i <= |s| && OccursAt(s, sub, i) {
      assert s == s[..i] + sub + s[i + |sub|..];
    }
    if a, b :| s == a + sub + b {
      assert OccursAt(s, sub, |a|);
    }
  }

  /** strings.LastIndex for a one-byte separator: -1 when absent. */
  function LastIndex(s: string, c: char): (i: int)
    ensures -1 <= i < |s|
    ensures i >= 0 ==> s[i] == c
    ensures forall j :: i < j < |s| ==> s[j] != c
  {
    if s == [] then -1
    else if s[|s| - 1] == c then |s| - 1
    else LastIndex(s[..|s| - 1], c)
  }

  /** The last element of strings.Split(s, "/"). */
  function LastSegment(s: string): string {
    s[LastIndex(s, '/') + 1..]
  }

  /** It is the text after the last slash, or all of it. */
  lemma LastSegmentExactly(s: string, segment: string)
    ensures LastSegment(s) == segment <==> '/' !in segment && (s == segment || HasSuffix(s, "/" + segment))
  {
    var i := LastIndex(s, '/');
    if HasSuffix(s, "/" + segment) && '/' !in segment {
      var k := |s| - |segment| - 1;
      assert s[k..] == "/" + segment;
      assert s[k] == '/';
      assert forall j :: k < j < |s| ==> s[j] == segment[j - k - 1];
      assert i == k;
      assert s[k + 1..] == s[k..][1..] == segment;
    }
    if i >= 0 {
      assert s[i..] == "/" + s[i + 1..];
    }
  }

  // ---------------------------------------------------------------- the byte order of sort.Strings

  predicate Leq(a: string, b: string) {
    if a == [] then true
    else if b == [] then false
    else if a[0] != b[0] then a[0] < b[0]
    else Leq(a[1..], b[1..])
  }

  lemma {:induction false} LeqTotal(a: string, b: string)
    ensures Leq(a, b) || Leq(b, a)
    ensures Leq(a, b) && Leq(b, a) ==> a == b
  {
    if a == [] || b == [] || a[0] != b[0] {
    } else {
      LeqTotal(a[1..], b[1..]);
      assert a == [a[0]] + a[1..] && b == [b[0]] + b[1..];
    }
  }

  lemma {:induction false} LeqTransitive(a: string, b: string, c: string)
    requires Leq(a, b) && Leq(b, c)
    ensures Leq(a, c)
  {
    if a == [] || b == [] || c == [] || a[0] != b[0] || b[0] != c[0] {
    } else {
      LeqTransitive(a[1..], b[1..], c[1..]);
    }
  }

  /** a and b agree up to position i, where a ends or has the smaller byte. */
  ghost predicate LessAt(a: string, b: string, i: nat) {
    i <= |a| && i <= |b| && a[..i] == b[..i] && (i == |a| || (i < |b| && a[i] < b[i]))
  }

  lemma {:induction false} LeqExactly(a: string, b: string)
    ensures Leq(a, b) <==> exists i: nat :: LessAt(a, b, i)
  {
    if a == [] {
      assert LessAt(a, b, 0);
    } else if b == [] {
    } else if a[0] != b[0] {
      assert a[0] < b[0] ==> LessAt(a, b, 0);
      assert forall i: nat :: LessAt(a, b, i) && i > 0 ==> a[..i][0] == b[..i][0];
    } else {
      LeqExactly(a[1..], b[1..]);
      if i: nat :| LessAt(a[1..], b[1..], i) {
        assert a[..i + 1] == [a[0]] + a[1..][..i] && b[..i + 1] == [b[0]] + b[1..][..i];
        assert LessAt(a, b, i + 1);
      }
      if i: nat :| LessAt(a, b, i) {
        assert i > 0;
        assert a[1..][..i - 1] == a[..i][1..] && b[1..][..i - 1] == b[..i][1..];
        assert LessAt(a[1..], b[1..], i - 1);
      }
    }
  }

  ghost predicate Sorted(s: seq<string>) {
    forall i, j :: 0 <= i < j < |s| ==> Leq(s[i], s[j])
  }

  function Insert(s: seq<string>, x: string): (r: seq<string>)
    ensures multiset(r) == multiset(s) + multiset{x}
  {
    if s == [] then [x]
    else if Leq(s[|s| - 1], x) then s + [x]
    else
      assert s == s[..|s| - 1] + [s[|s| - 1]];
      Insert(s[..|s| - 1], x) + [s[|s| - 1]]
  }

  /** What sort.Strings leaves in the slice it is given. */
  function Sort(s: seq<string>): (r: seq<string>)
    ensures multiset(r) == multiset(s)
    ensures |r| == |s|
  {
    if s == [] then []
    else
      assert s == s[..|s| - 1] + [s[|s| - 1]];
      var r := Insert(Sort(s[..|s| - 1]), s[|s| - 1]);
      assert |multiset(r)| == |r| && |multiset(s)| == |s|;
      r
  }

  lemma {:induction false} InsertSorted(s: seq<string>, x: string)
    requires Sorted(s)
    ensures Sorted(Insert(s, x))
  {
    if s == [] {
    } else if Leq(s[|s| - 1], x) {
      forall i | 0 <= i < |s| ensures Leq(s[i], x) {
        if i < |s| - 1 { LeqTransitive(s[i], s[|s| - 1], x); }
      }
    } else {
      var front, last := s[..|s| - 1], s[|s| - 1];
      LeqTotal(last, x);
      InsertSorted(front, x);
      forall y | y in Insert(front, x) ensures Leq(y, last) {
        assert y in multiset(Insert(front, x));
        assert y in front || y == x;
      }
    }
  }

  lemma {:induction false} SortSorted(s: seq<string>)
    ensures Sorted(Sort(s))
  {
    if s == [] {
    } else {
      SortSorted(s[..|s| - 1]);
      InsertSorted(Sort(s[..|s| - 1]), s[|s| - 1]);
    }
  }

  lemma LastIsGreatest(s: seq<string>, x: string)
    requires Sorted(s) && x in multiset(s)
    ensures s != [] && Leq(x, s[|s| - 1])
  {
    var i :| 0 <= i < |s| && s[i] == x;
    LeqTotal(x, x);
  }

  lemma WithoutLast(s: seq<string>)
    requires s != []
    ensures multiset(s[..|s| - 1]) == multiset(s) - multiset{s[|s| - 1]}
    ensures s[|s| - 1] in multiset(s)
    ensures s == s[..|s| - 1] + [s[|s| - 1]]
  {
    assert s == s[..|s| - 1] + [s[|s| - 1]];
  }

  /** A bag of strings has one sorted order. */
  lemma {:induction false} SortedUnique(a: seq<string>, b: seq<string>)
    requires Sorted(a) && Sorted(b) && multiset(a) == multiset(b)
    ensures a == b
  {
    if a == [] {
      assert |multiset(b)| == 0;
    } else {
      assert |multiset(a)| == |a|;
      assert b != [];
      var x, y := a[|a| - 1], b[|b| - 1];
      WithoutLast(a);
      WithoutLast(b);
      LastIsGreatest(b, x);
      LastIsGreatest(a, y);
      LeqTotal(x, y);
      SortedUnique(a[..|a| - 1], b[..|b| - 1]);
    }
  }

  lemma SortCanonical(a: seq<string>, b: seq<string>)
    ensures Sort(a) == Sort(b) <==> multiset(a) == multiset(b)
    ensures Sort(Sort(a)) == Sort(a)
  {
    SortSorted(a);
    SortSorted(b);
    SortSorted(Sort(a));
    SortedUnique(Sort(Sort(a)), Sort(a));
    if multiset(a) == multiset(b) {
      SortedUnique(Sort(a), Sort(b));
    }
  }
}
