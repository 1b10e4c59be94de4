/** The parallel fetch of v2 application pages (internal/client/cloudfoundry/client.go, getV2Applications). */
module PageFetch {
  import opened Sequences

  // ---------------------------------------------------------------- dividing the pages

  function Min(a: int, b: int): int {
    if a <= b then a else b
  }

  /** No more workers than pages to fetch. */
  function Workers(numWorkers: int, pages: int): int {
    Min(numWorkers, pages)
  }

  /** The ceiling of (pages - 1) / workers: page 1 was fetched already. Without workers its value is never used. */
  function PagesPerWorker(numWorkers: int, pages: int): nat {
    if pages - 1 > 0 && numWorkers >= 1 then (pages - 1 + Workers(numWorkers, pages) - 1) / Workers(numWorkers, pages) else 0
  }

  function Start(numWorkers: int, pages: int, w: nat): int {
    w * PagesPerWorker(numWorkers, pages) + 2
  }

  function End(numWorkers: int, pages: int, w: nat): int {
    Min((w + 1) * PagesPerWorker(numWorkers, pages) + 2, pages + 1)
  }

  ghost predicate Assigned(numWorkers: int, pages: int, w: nat, page: int) {
    w < Workers(numWorkers, pages) && Start(numWorkers, pages, w) <= page < End(numWorkers, pages, w)
  }

  lemma MulMonotone(v: nat, w: nat, k: nat)
    requires v <= w
    ensures v * k <= w * k
  {
    assert w * k == v * k + (w - v) * k;
  }

  lemma CeilingCovers(numWorkers: int, pages: int)
    requires numWorkers >= 1 && pages >= 2
    ensures PagesPerWorker(numWorkers, pages) >= 1
    ensures Workers(numWorkers, pages) * PagesPerWorker(numWorkers, pages) >= pages - 1
  {
    var n := Workers(numWorkers, pages);
    var x := pages - 1 + n - 1;
    assert x == n * (x / n) + x % n;
  }

  /** The worker whose range of k pages holds offset d is below n when d < n * k. */
  lemma RangeOf(d: nat, k: nat, n: nat) returns (w: nat)
    requires k >= 1 && d < n * k
    ensures w < n && w * k <= d < (w + 1) * k
  {
    w := d / k;
    assert d == k * w + d % k;
    assert w * k == k * w && (w + 1) * k == k * w + k;
    if w >= n {
      MulMonotone(n, w, k);
    }
  }

  lemma SomeWorker(numWorkers: int, pages: int, page: int) returns (w: nat)
    requires numWorkers >= 1 && 2 <= page <= pages
    ensures Assigned(numWorkers, pages, w, page)
  {
    CeilingCovers(numWorkers, pages);
    w := RangeOf(page - 2, PagesPerWorker(numWorkers, pages), Workers(numWorkers, pages));
  }

  lemma OneWorker(numWorkers: int, pages: int, page: int, v: nat, w: nat)
    requires Assigned(numWorkers, pages, v, page) && Assigned(numWorkers, pages, w, page)
    ensures v == w && numWorkers >= 1 && 2 <= page <= pages
  {
    var k := PagesPerWorker(numWorkers, pages);
    if v < w { MulMonotone(v + 1, w, k); }
    if w < v { MulMonotone(w + 1, v, k); }
    MulMonotone(0, w, k);
  }

  ghost predicate HasWorker(numWorkers: int, pages: int, page: int) {
    exists w: nat :: Assigned(numWorkers, pages, w, page)
  }

  /** With any worker, every page from 2 to `pages` has exactly one, and no worker has any other page. */
  lemma EachPageOnce(numWorkers: int, pages: int, page: int)
    ensures HasWorker(numWorkers, pages, page) <==> numWorkers >= 1 && 2 <= page <= pages
    ensures forall v: nat, w: nat ::
              Assigned(numWorkers, pages, v, page) && Assigned(numWorkers, pages, w, page) ==> v == w
  {
    if numWorkers >= 1 && 2 <= page <= pages {
      var w := SomeWorker(numWorkers, pages, page);
    }
    forall v: nat, w: nat | Assigned(numWorkers, pages, v, page) && Assigned(numWorkers, pages, w, page)
      ensures v == w && numWorkers >= 1 && 2 <= page <= pages
    {
      OneWorker(numWorkers, pages, page, v, w);
    }
  }

  /**
   * Which configurations fetch every page: a worker count below one starts no worker at all, so it loses all pages
   * after the first.
   */
  lemma AllPagesFetchedExactly(numWorkers: int, pages: int)
    ensures (forall page :: 2 <= page <= pages ==> HasWorker(numWorkers, pages, page))
            <==> numWorkers >= 1 || pages <= 1
  {
    forall page ensures HasWorker(numWorkers, pages, page) <==> numWorkers >= 1 && 2 <= page <= pages {
      EachPageOnce(numWorkers, pages, page);
    }
    if numWorkers < 1 && pages >= 2 {
      assert !HasWorker(numWorkers, pages, 2);
    }
  }

  // ---------------------------------------------------------------- the workers as a state machine

  /** results is the shared slice; next[w] is the page worker w fetches next. */
  datatype State<T> = State(results: seq<T>, next: seq<int>)

  /** The outcome of every page request, None being an error that is logged and skipped. */
  type Pages<T> = int -> Option<seq<T>>

  function Fetched<T>(fetch: Pages<T>, page: int): seq<T> {
    match fetch(page)
    case Some(apps) => apps
    case None => []
  }

  /** The first page of every worker; none is started when the server reports no pages. */
  ghost function Starts(numWorkers: int, pages: int): seq<int> {
    var n := if numWorkers >= 1 && pages >= 1 then Workers(numWorkers, pages) else 0;
    seq(n, w requires w >= 0 => Start(numWorkers, pages, w))
  }

  ghost function Init<T>(numWorkers: int, pages: int, first: seq<T>): State<T> {
    State(first, Starts(numWorkers, pages))
  }

  ghost predicate Enabled<T>(numWorkers: int, pages: int, s: State<T>, w: nat) {
    w < |s.next| && s.next[w] < End(numWorkers, pages, w)
  }

  /** One locked append. */
  ghost function Do<T>(fetch: Pages<T>, s: State<T>, w: nat): State<T>
    requires w < |s.next|
  {
    State(s.results + Fetched(fetch, s.next[w]), s.next[w := s.next[w] + 1])
  }

  /** The state after the workers moved in the given order, or None when one of them had nothing left to do. */
  ghost function After<T>(numWorkers: int, pages: int, first: seq<T>, fetch: Pages<T>, schedule: seq<nat>): Option<State<T>> {
    if schedule == [] then Some(Init(numWorkers, pages, first))
    else
      match After(numWorkers, pages, first, fetch, schedule[..|schedule| - 1])
      case None => None
      case Some(s) =>
        var w := schedule[|schedule| - 1];
        if Enabled(numWorkers, pages, s, w) then Some(Do(fetch, s, w)) else None
  }

  /** wg.Wait returned. */
  ghost predicate AllDone<T>(numWorkers: int, pages: int, s: State<T>) {
    forall w :: 0 <= w < |s.next| ==> s.next[w] >= End(numWorkers, pages, w)
  }

  /** Pages lo to hi - 1, one after the other. */
  ghost function Walk<T>(fetch: Pages<T>, lo: int, hi: int): seq<T>
    decreases hi - lo
  {
    if lo >= hi then [] else Walk(fetch, lo, hi - 1) + Fetched(fetch, hi - 1)
  }

  // ---------------------------------------------------------------- every interleaving gives the same bag

  /** What the first n workers have appended so far, worker by worker. */
  ghost function Appended<T>(fetch: Pages<T>, starts: seq<int>, next: seq<int>, n: nat): seq<T>
    requires n <= |starts| == |next|
  {
    if n == 0 then [] else Appended(fetch, starts, next, n - 1) + Walk(fetch, starts[n - 1], next[n - 1])
  }

  /** As bags, the results are page 1 and what the workers appended. */
  ghost predicate Collected<T>(first: seq<T>, fetch: Pages<T>, starts: seq<int>, results: seq<T>, next: seq<int>)
    requires |next| == |starts|
  {
    multiset(results) == multiset(first) + multiset(Appended(fetch, starts, next, |starts|))
  }

  ghost predicate Balance<T>(first: seq<T>, fetch: Pages<T>, starts: seq<int>, s: State<T>) {
    && |s.next| == |starts|
    && (forall w :: 0 <= w < |starts| ==> starts[w] <= s.next[w])
    && Collected(first, fetch, starts, s.results, s.next)
  }

  /** No worker runs past the end of its range. */
  ghost predicate WithinRanges<T>(numWorkers: int, pages: int, s: State<T>) {
    && |s.next| == |Starts(numWorkers, pages)|
    && forall w :: 0 <= w < |s.next| ==>
         s.next[w] <= End(numWorkers, pages, w) || s.next[w] == Start(numWorkers, pages, w)
  }

  lemma {:induction false} AppendedNothing<T>(fetch: Pages<T>, starts: seq<int>, n: nat)
    requires n <= |starts|
    ensures Appended(fetch, starts, starts, n) == []
  {
    if n == 0 {
    } else {
      AppendedNothing(fetch, starts, n - 1);
    }
  }

  lemma {:induction false} AppendedSame<T>(fetch: Pages<T>, starts: seq<int>, next: seq<int>, n: nat, w: nat, x: int)
    requires n <= w < |starts| == |next|
    ensures Appended(fetch, starts, next[w := x], n) == Appended(fetch, starts, next, n)
  {
    if n == 0 {
    } else {
      AppendedSame(fetch, starts, next, n - 1, w, x);
    }
  }

  /** Appending the same sequence to both sides of a balance keeps it. */
  lemma BagAppend<T>(x: seq<T>, y: seq<T>, f: seq<T>, z: seq<T>)
    requires multiset(x) == multiset(y) + multiset(f)
    ensures multiset(x + z) == multiset(y + z) + multiset(f)
  {
  }

  lemma BagLast<T>(x: seq<T>, y: seq<T>, f: seq<T>)
    ensures multiset(x + (y + f)) == multiset(x + y) + multiset(f)
  {
  }

  lemma AppendedMoreLast<T>(fetch: Pages<T>, starts: seq<int>, next: seq<int>, w: nat)
    requires w < |starts| == |next| && starts[w] <= next[w]
    ensures multiset(Appended(fetch, starts, next[w := next[w] + 1], w + 1))
         == multiset(Appended(fetch, starts, next, w + 1)) + multiset(Fetched(fetch, next[w]))
  {
    AppendedSame(fetch, starts, next, w, w, next[w] + 1);
    BagLast(Appended(fetch, starts, next, w), Walk(fetch, starts[w], next[w]), Fetched(fetch, next[w]));
  }

  lemma {:induction false} AppendedMore<T>(fetch: Pages<T>, starts: seq<int>, next: seq<int>, n: nat, w: nat)
    requires w < n <= |starts| == |next| && starts[w] <= next[w]
    ensures multiset(Appended(fetch, starts, next[w := next[w] + 1], n))
         == multiset(Appended(fetch, starts, next, n)) + multiset(Fetched(fetch, next[w]))
  {
    if w == n - 1 {
      AppendedMoreLast(fetch, starts, next, w);
    } else {
      var more := next[w := next[w] + 1];
      AppendedMore(fetch, starts, next, n - 1, w);
      BagAppend(Appended(fetch, starts, more, n - 1), Appended(fetch, starts, next, n - 1), Fetched(fetch, next[w]),
                Walk(fetch, starts[n - 1], next[n - 1]));
    }
  }

  lemma BagStep<T>(results: seq<T>, first: seq<T>, f: seq<T>, before: seq<T>, after: seq<T>)
    requires multiset(results) == multiset(first) + multiset(before)
    requires multiset(after) == multiset(before) + multiset(f)
    ensures multiset(results + f) == multiset(first) + multiset(after)
  {
  }

  lemma StepCollected<T>(first: seq<T>, fetch: Pages<T>, starts: seq<int>, results: seq<T>, next: seq<int>, w: nat)
    requires w < |starts| == |next| && starts[w] <= next[w] && Collected(first, fetch, starts, results, next)
    ensures Collected(first, fetch, starts, results + Fetched(fetch, next[w]), next[w := next[w] + 1])
  {
    AppendedMore(fetch, starts, next, |starts|, w);
    BagStep(results, first, Fetched(fetch, next[w]), Appended(fetch, starts, next, |starts|),
            Appended(fetch, starts, next[w := next[w] + 1], |starts|));
  }

  lemma StepBalance<T>(first: seq<T>, fetch: Pages<T>, starts: seq<int>, s: State<T>, w: nat)
    requires Balance(first, fetch, starts, s) && w < |starts|
    ensures Balance(first, fetch, starts, Do(fetch, s, w))
  {
    StepCollected(first, fetch, starts, s.results, s.next, w);
    assert Do(fetch, s, w) == State(s.results + Fetched(fetch, s.next[w]), s.next[w := s.next[w] + 1]);
  }

  lemma {:induction false} RunBalance<T>(numWorkers: int, pages: int, first: seq<T>, fetch: Pages<T>, schedule: seq<nat>)
    requires After(numWorkers, pages, first, fetch, schedule).Some?
    ensures Balance(first, fetch, Starts(numWorkers, pages), After(numWorkers, pages, first, fetch, schedule).value)
    ensures WithinRanges(numWorkers, pages, After(numWorkers, pages, first, fetch, schedule).value)
  {
    var starts := Starts(numWorkers, pages);
    if schedule == [] {
      AppendedNothing(fetch, starts, |starts|);
    } else {
      var front := schedule[..|schedule| - 1];
      RunBalance(numWorkers, pages, first, fetch, front);
      StepBalance(first, fetch, starts, After(numWorkers, pages, first, fetch, front).value, schedule[|schedule| - 1]);
    }
  }

  lemma {:induction false} WalkConcat<T>(fetch: Pages<T>, lo: int, mid: int, hi: int)
    requires lo <= mid <= hi
    ensures Walk(fetch, lo, hi) == Walk(fetch, lo, mid) + Walk(fetch, mid, hi)
    decreases hi - mid
  {
    if mid == hi {
    } else {
      WalkConcat(fetch, lo, mid, hi - 1);
    }
  }

  /** Where the worker ends up when it is done. */
  ghost predicate Finished(numWorkers: int, pages: int, w: nat, next: int) {
    next == if Start(numWorkers, pages, w) <= End(numWorkers, pages, w)
            then End(numWorkers, pages, w) else Start(numWorkers, pages, w)
  }

  lemma StartNext(numWorkers: int, pages: int, w: nat)
    ensures 2 <= Start(numWorkers, pages, w) <= Start(numWorkers, pages, w + 1)
  {
    var k := PagesPerWorker(numWorkers, pages);
    assert (w + 1) * k == w * k + k;
    MulMonotone(0, w, k);
  }

  /** What one finished worker has walked. */
  lemma WalkPart<T>(numWorkers: int, pages: int, fetch: Pages<T>, w: nat, next: int)
    requires numWorkers >= 1 && pages >= 1 && Finished(numWorkers, pages, w, next)
    ensures Walk(fetch, Start(numWorkers, pages, w), next)
         == Walk(fetch, Bound(numWorkers, pages, w), Bound(numWorkers, pages, w + 1))
  {
    var k := PagesPerWorker(numWorkers, pages);
    assert (w + 1) * k == w * k + k;
  }

  /** Ranges that meet are together one walk. */
  lemma {:induction false} AppendedWalk<T>(fetch: Pages<T>, starts: seq<int>, next: seq<int>, bounds: seq<int>, n: nat)
    requires n <= |starts| == |next| < |bounds|
    requires forall w :: 0 <= w < n ==> bounds[0] <= bounds[w] <= bounds[w + 1]
    requires forall w :: 0 <= w < n ==> Walk(fetch, starts[w], next[w]) == Walk(fetch, bounds[w], bounds[w + 1])
    ensures Appended(fetch, starts, next, n) == Walk(fetch, bounds[0], bounds[n])
  {
    if n == 0 {
    } else {
      AppendedWalk(fetch, starts, next, bounds, n - 1);
      WalkConcat(fetch, bounds[0], bounds[n - 1], bounds[n]);
    }
  }

  /** Where the range of worker w begins, cut off after the last page. */
  ghost function Bound(numWorkers: int, pages: int, w: nat): int {
    Min(Start(numWorkers, pages, w), pages + 1)
  }

  lemma BoundsRise(numWorkers: int, pages: int, w: nat)
    requires numWorkers >= 1 && pages >= 1
    ensures Bound(numWorkers, pages, 0) == 2 <= Bound(numWorkers, pages, w) <= Bound(numWorkers, pages, w + 1)
  {
    StartNext(numWorkers, pages, w);
  }

  /** Ranges of neighbouring workers meet, so together they walk the pages in order. */
  lemma AppendedAll<T>(numWorkers: int, pages: int, fetch: Pages<T>, next: seq<int>)
    requires numWorkers >= 1 && pages >= 1 && |next| == |Starts(numWorkers, pages)|
    requires forall w :: 0 <= w < |next| ==> Finished(numWorkers, pages, w, next[w])
    ensures Appended(fetch, Starts(numWorkers, pages), next, |next|) == Walk(fetch, 2, Bound(numWorkers, pages, |next|))
  {
    var n, starts := |next|, Starts(numWorkers, pages);
    var bounds := seq(n + 1, w requires w >= 0 => Bound(numWorkers, pages, w));
    BoundsRise(numWorkers, pages, 0);
    forall w | 0 <= w < n
      ensures bounds[0] <= bounds[w] <= bounds[w + 1]
      ensures Walk(fetch, starts[w], next[w]) == Walk(fetch, bounds[w], bounds[w + 1])
    {
      BoundsRise(numWorkers, pages, w);
      WalkPart(numWorkers, pages, fetch, w, next[w]);
    }
    AppendedWalk(fetch, starts, next, bounds, n);
  }

  /**
   * Main result on getV2Applications: for every worker count of at least one and every schedule, once all workers
   * are done the result is, as a bag, page 1 followed by a sequential walk over the pages that succeeded. Without
   * a worker it is page 1 alone.
   */
  lemma SameAsSequential<T>(numWorkers: int, pages: int, first: seq<T>, fetch: Pages<T>, schedule: seq<nat>)
    requires After(numWorkers, pages, first, fetch, schedule).Some?
    requires AllDone(numWorkers, pages, After(numWorkers, pages, first, fetch, schedule).value)
    ensures multiset(After(numWorkers, pages, first, fetch, schedule).value.results)
         == multiset(if numWorkers >= 1 then first + Walk(fetch, 2, pages + 1) else first)
  {
    RunBalance(numWorkers, pages, first, fetch, schedule);
    var s := After(numWorkers, pages, first, fetch, schedule).value;
    if numWorkers >= 1 && pages >= 1 {
      var n := |s.next|;
      AppendedAll(numWorkers, pages, fetch, s.next);
      if pages >= 2 {
        CeilingCovers(numWorkers, pages);
      }
      assert Bound(numWorkers, pages, n) == if pages >= 2 then pages + 1 else 2;
    }
  }

  /** How often x is on the pages lo to hi - 1 that were fetched without an error. */
  ghost function Occurrences<T(!new)>(fetch: Pages<T>, x: T, lo: int, hi: int): nat
    decreases hi - lo
  {
    if lo >= hi then 0
    else Occurrences(fetch, x, lo, hi - 1) + if fetch(hi - 1).Some? then multiset(fetch(hi - 1).value)[x] else 0
  }

  lemma {:induction false} WalkOccurrences<T(!new)>(fetch: Pages<T>, x: T, lo: int, hi: int)
    ensures multiset(Walk(fetch, lo, hi))[x] == Occurrences(fetch, x, lo, hi)
    decreases hi - lo
  {
    if lo >= hi {
    } else {
      WalkOccurrences(fetch, x, lo, hi - 1);
    }
  }

  /**
   * So every application is in the result as often as it is on page 1 and on the other pages that were fetched, and
   * nothing else is.
   */
  lemma FetchedExactly<T(!new)>(numWorkers: int, pages: int, first: seq<T>, fetch: Pages<T>, schedule: seq<nat>, x: T)
    requires After(numWorkers, pages, first, fetch, schedule).Some?
    requires AllDone(numWorkers, pages, After(numWorkers, pages, first, fetch, schedule).value)
    ensures multiset(After(numWorkers, pages, first, fetch, schedule).value.results)[x]
         == multiset(first)[x] + if numWorkers >= 1 then Occurrences(fetch, x, 2, pages + 1) else 0
  {
    SameAsSequential(numWorkers, pages, first, fetch, schedule);
    WalkOccurrences(fetch, x, 2, pages + 1);
  }
}
