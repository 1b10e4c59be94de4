/** Sequences, sums and permutations shared by the other modules. */
module Sequences {

  datatype Option<+T> = None | Some(value: T)

  function Map<A, B>(f: A -> B, s: seq<A>): (r: seq<B>)
    ensures |r| == |s|
    ensures forall i :: 0 <= i < |s| ==> r[i] == f(s[i])
  {
    seq(|s|, i requires 0 <= i < |s| => f(s[i]))
  }

  function Filter<A>(keep: A -> bool, s: seq<A>): (r: seq<A>)
    ensures |r| <= |s|
  {
    if s == [] then []
    else Filter(keep, s[..|s| - 1]) + if keep(s[|s| - 1]) then [s[|s| - 1]] else []
  }

  function Flatten<A>(ss: seq<seq<A>>): seq<A> {
    if ss == [] then [] else Flatten(ss[..|ss| - 1]) + ss[|ss| - 1]
  }

  function SumOf<A>(f: A -> int, s: seq<A>): int {
    if s == [] then 0 else SumOf(f, s[..|s| - 1]) + f(s[|s| - 1])
  }

  lemma {:induction false} FilterConcat<A>(keep: A -> bool, a: seq<A>, b: seq<A>)
    ensures Filter(keep, a + b) == Filter(keep, a) + Filter(keep, b)
  {
    if b == [] {
      assert a + b == a;
    } else {
      FilterConcat(keep, a, b[..|b| - 1]);
      assert (a + b)[..|a + b| - 1] == a + b[..|b| - 1];
    }
  }

  lemma FilterOne<A>(keep: A -> bool, x: A)
    ensures Filter(keep, [x]) == if keep(x) then [x] else []
  {
    assert [x][..0] == [];
    assert Filter(keep, []) == [];
  }

  /** The last item that there is. */
  function LastOf<A>(options: seq<Option<A>>): Option<A> {
    if options == [] then None
    else if options[|options| - 1].Some? then options[|options| - 1]
    else LastOf(options[..|options| - 1])
  }

  lemma LastOfNext<A>(options: seq<Option<A>>, last: Option<A>)
    ensures LastOf(options + [last]) == if last.Some? then last else LastOf(options)
  {
    assert (options + [last])[..|options|] == options;
  }

  lemma {:induction false} LastOfSome<A>(options: seq<Option<A>>)
    ensures LastOf(options).Some? <==> exists i :: 0 <= i < |options| && options[i].Some?
  {
    if options == [] {
    } else {
      var n := |options| - 1;
      LastOfSome(options[..n]);
      assert forall i :: 0 <= i < n ==> options[..n][i] == options[i];
    }
  }

  lemma {:induction false} FlattenConcat<A>(a: seq<seq<A>>, b: seq<seq<A>>)
    ensures Flatten(a + b) == Flatten(a) + Flatten(b)
  {
    if b == [] {
      assert a + b == a;
    } else {
      FlattenConcat(a, b[..|b| - 1]);
      assert (a + b)[..|a + b| - 1] == a + b[..|b| - 1];
    }
  }

  /** What one more turn of a loop that appends f(x) does. */
  lemma FlattenMapNext<A, B>(f: A -> seq<B>, s: seq<A>, x: A)
    ensures Flatten(Map(f, s + [x])) == Flatten(Map(f, s)) + f(x)
  {
    assert Map(f, s + [x])[..|s|] == Map(f, s);
  }

  lemma MapLast<A, B>(f: A -> B, s: seq<A>)
    requires s != []
    ensures Map(f, s) == Map(f, s[..|s| - 1]) + [f(s[|s| - 1])]
  {
  }

  lemma MapConcat<A, B>(f: A -> B, a: seq<A>, b: seq<A>)
    ensures Map(f, a + b) == Map(f, a) + Map(f, b)
  {
  }

  lemma ConcatAssociative<A>(a: seq<A>, b: seq<A>, c: seq<A>)
    ensures (a + b) + c == a + (b + c)
  {
  }

  lemma ConcatLast<A>(a: seq<A>, b: seq<A>)
    requires b != []
    ensures b == b[..|b| - 1] + [b[|b| - 1]]
    ensures a + b == (a + b[..|b| - 1]) + [b[|b| - 1]]
  {
  }

  lemma {:induction false} FlattenHas<A>(ss: seq<seq<A>>, x: A, i: nat)
    requires i < |ss| && x in ss[i]
    ensures x in Flatten(ss)
  {
    if i == |ss| - 1 {
    } else {
      FlattenHas(ss[..|ss| - 1], x, i);
    }
  }

  lemma {:induction false} FlattenSource<A>(ss: seq<seq<A>>, x: A) returns (i: nat)
    requires x in Flatten(ss)
    ensures i < |ss| && x in ss[i]
  {
    i := |ss| - 1;
    if x in ss[i] {
    } else {
      i := FlattenSource(ss[..|ss| - 1], x);
    }
  }

  lemma FlattenMembers<A>(ss: seq<seq<A>>, x: A)
    ensures x in Flatten(ss) <==> exists i :: 0 <= i < |ss| && x in ss[i]
  {
    if x in Flatten(ss) {
      var i := FlattenSource(ss, x);
    }
    if i :| 0 <= i < |ss| && x in ss[i] {
      FlattenHas(ss, x, i);
    }
  }

  lemma FlattenMapMembers<A, B>(f: A -> seq<B>, s: seq<A>, y: B)
    ensures y in Flatten(Map(f, s)) <==> exists x :: x in s && y in f(x)
  {
    FlattenMembers(Map(f, s), y);
    if y in Flatten(Map(f, s)) {
      var i :| 0 <= i < |s| && y in Map(f, s)[i];
      assert s[i] in s && y in f(s[i]);
    }
    if x :| x in s && y in f(x) {
      var i :| 0 <= i < |s| && s[i] == x;
      assert y in Map(f, s)[i];
    }
  }

  lemma {:induction false} SumConcat<A>(f: A -> int, a: seq<A>, b: seq<A>)
    ensures SumOf(f, a + b) == SumOf(f, a) + SumOf(f, b)
  {
    if b == [] {
      assert a + b == a;
    } else {
      SumConcat(f, a, b[..|b| - 1]);
      assert (a + b)[..|a + b| - 1] == a + b[..|b| - 1];
    }
  }

  lemma SumOne<A>(f: A -> int, x: A)
    ensures SumOf(f, [x]) == f(x)
  {
    assert [x][..0] == [];
  }

  lemma {:induction false} SumSame<A>(f: A -> int, g: A -> int, s: seq<A>)
    requires forall x :: x in s ==> f(x) == g(x)
    ensures SumOf(f, s) == SumOf(g, s)
  {
    if s == [] {
    } else {
      SumSame(f, g, s[..|s| - 1]);
      assert s[|s| - 1] in s;
    }
  }

  // ---------------------------------------------------------------- permutations

  /** A position of the first element of a in its permutation b, and what is left of both. */
  lemma FirstElement<A>(a: seq<A>, b: seq<A>) returns (j: nat)
    requires multiset(a) == multiset(b) && a != []
    ensures j < |b| && b[j] == a[|a| - 1]
    ensures multiset(a[..|a| - 1]) == multiset(b[..j] + b[j + 1..])
    ensures b == b[..j] + ([b[j]] + b[j + 1..])
  {
    var x := a[|a| - 1];
    assert x in multiset(b) by {
      assert a[|a| - 1] in multiset(a);
    }
    j :| 0 <= j < |b| && b[j] == x;
    WithoutOne(a, |a| - 1);
    WithoutOne(b, j);
    assert a[..|a| - 1] + a[|a|..] == a[..|a| - 1];
  }

  lemma WithoutOne<A>(s: seq<A>, j: nat)
    requires j < |s|
    ensures s == s[..j] + ([s[j]] + s[j + 1..])
    ensures multiset(s[..j] + s[j + 1..]) == multiset(s) - multiset{s[j]}
  {
    assert s == s[..j] + ([s[j]] + s[j + 1..]);
  }

  lemma {:induction false} PermutedSum<A>(f: A -> int, a: seq<A>, b: seq<A>)
    requires multiset(a) == multiset(b)
    ensures SumOf(f, a) == SumOf(f, b)
  {
    if a == [] {
      assert |multiset(b)| == 0;
    } else {
      var j := FirstElement(a, b);
      PermutedSum(f, a[..|a| - 1], b[..j] + b[j + 1..]);
      SumConcat(f, b[..j], b[j + 1..]);
      SumConcat(f, [b[j]], b[j + 1..]);
      SumConcat(f, b[..j], [b[j]] + b[j + 1..]);
      assert SumOf(f, [b[j]]) == f(b[j]);
    }
  }

  lemma {:induction false} PermutedMap<A, B>(f: A -> B, a: seq<A>, b: seq<A>)
    requires multiset(a) == multiset(b)
    ensures multiset(Map(f, a)) == multiset(Map(f, b))
  {
    if a == [] {
      assert |multiset(b)| == 0;
    } else {
      var j := FirstElement(a, b);
      var front, back := b[..j], b[j + 1..];
      PermutedMap(f, a[..|a| - 1], front + back);
      assert a == a[..|a| - 1] + [b[j]];
      MapConcat(f, a[..|a| - 1], [b[j]]);
      MapConcat(f, front, back);
      MapConcat(f, [b[j]], back);
      MapConcat(f, front, [b[j]] + back);
      assert Map(f, [b[j]]) == [f(b[j])];
      BagInsert(Map(f, a[..|a| - 1]), Map(f, front), Map(f, back), f(b[j]));
    }
  }

  lemma BagInsert<A>(all: seq<A>, front: seq<A>, back: seq<A>, x: A)
    requires multiset(all) == multiset(front + back)
    ensures multiset(all + [x]) == multiset(front + ([x] + back))
  {
  }

  lemma {:induction false} PermutedFlatten<A>(a: seq<seq<A>>, b: seq<seq<A>>)
    requires multiset(a) == multiset(b)
    ensures multiset(Flatten(a)) == multiset(Flatten(b))
  {
    if a == [] {
      assert |multiset(b)| == 0;
    } else {
      var j := FirstElement(a, b);
      PermutedFlatten(a[..|a| - 1], b[..j] + b[j + 1..]);
      FlattenConcat(b[..j], b[j + 1..]);
      FlattenConcat([b[j]], b[j + 1..]);
      FlattenConcat(b[..j], [b[j]] + b[j + 1..]);
      assert Flatten([b[j]]) == b[j];
    }
  }

  // ---------------------------------------------------------------- iteration orders

  /** order is one of the orders in which a range loop may visit the keys. */
  ghost predicate Enumerates<K>(order: seq<K>, keys: set<K>) {
    multiset(order) == multiset(keys)
  }

  lemma EnumeratesMembers<K>(order: seq<K>, keys: set<K>)
    requires Enumerates(order, keys)
    ensures |order| == |keys|
    ensures forall k :: k in order <==> k in keys
  {
    assert |order| == |multiset(order)|;
    forall k ensures k in order <==> k in keys {
      assert k in order <==> k in multiset(order);
      assert k in keys <==> k in multiset(keys);
    }
  }

  /** What one more turn of a range loop does. */
  lemma EnumeratesNext<K>(order: seq<K>, keys: set<K>, todo: set<K>, k: K)
    requires todo <= keys && k in todo && Enumerates(order, keys - todo)
    ensures Enumerates(order + [k], keys - (todo - {k}))
  {
    assert keys - (todo - {k}) == (keys - todo) + {k};
  }

  lemma EnumeratesUnion<K>(a: seq<K>, b: seq<K>, left: set<K>, right: set<K>)
    requires Enumerates(a, left) && Enumerates(b, right) && left !! right
    ensures Enumerates(a + b, left + right)
  {
    assert multiset(left + right) == multiset(left) + multiset(right);
  }

  lemma {:induction false} EnumerationExists<K>(keys: set<K>)
    ensures exists order: seq<K> :: Enumerates(order, keys)
  {
    if keys == {} {
      assert Enumerates([], keys);
    } else {
      var k :| k in keys;
      EnumerationExists(keys - {k});
      var order: seq<K> :| Enumerates(order, keys - {k});
      assert keys == (keys - {k}) + {k};
      assert Enumerates(order + [k], keys);
    }
  }
}
