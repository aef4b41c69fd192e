/** The JavaScript array operations the record store and the handlers are
    built from: `findIndex`, `find`, `filter`, and replacing the element at
    the first match. A JavaScript array is a `seq`; a callback is a total
    function. */
module Arrays {
  import opened Base

  /** `s.findIndex(p)`: the index of the first element satisfying `p`, or -1. */
  function FindIndex<T>(s: seq<T>, p: T -> bool): (i: int)
    ensures -1 <= i < |s|
    ensures i == -1 <==> forall k :: 0 <= k < |s| ==> !p(s[k])
    ensures 0 <= i ==> p(s[i]) && forall k :: 0 <= k < i ==> !p(s[k])
    decreases |s|
  {
    if s == [] then -1
    else if p(s[0]) then 0
    else
      var j := FindIndex(s[1..], p);
      if j == -1 then -1 else j + 1
  }

  /** `s.find(p)`: the first element satisfying `p`, if any. */
  function Find<T>(s: seq<T>, p: T -> bool): (r: Option<T>)
    ensures r.None? <==> forall k :: 0 <= k < |s| ==> !p(s[k])
    ensures r.Some? ==> exists k :: 0 <= k < |s| && s[k] == r.value && p(s[k]) &&
                          forall j :: 0 <= j < k ==> !p(s[j])
  {
    var i := FindIndex(s, p);
    if i == -1 then None else Some(s[i])
  }

  /** `s.filter(p)`. */
  function Filter<T>(s: seq<T>, p: T -> bool): (r: seq<T>)
    ensures |r| <= |s|
    ensures forall k :: 0 <= k < |r| ==> r[k] in s && p(r[k])
    ensures forall k :: 0 <= k < |s| && p(s[k]) ==> s[k] in r
    decreases |s|
  {
    if s == [] then []
    else if p(s[0]) then [s[0]] + Filter(s[1..], p)
    else Filter(s[1..], p)
  }

  /** A filter keeps every copy of each element that passes and none of the
      others: it never drops nor duplicates an occurrence. */
  lemma {:induction false} FilterCounts<T>(s: seq<T>, p: T -> bool)
    ensures multiset(Filter(s, p)) <= multiset(s)
    ensures forall x :: x in s && p(x) ==> multiset(Filter(s, p))[x] == multiset(s)[x]
    decreases |s|
  {
    if s != [] {
      assert s == [s[0]] + s[1..];
      FilterCounts(s[1..], p);
    }
  }

  /** The positions of `s` whose element satisfies `p`. */
  function Positions<T>(s: seq<T>, p: T -> bool): set<int> {
    set k | 0 <= k < |s| && p(s[k])
  }

  /** The length of a filter is the number of positions whose element passes. */
  lemma {:induction false} FilterLength<T>(s: seq<T>, p: T -> bool)
    ensures |Filter(s, p)| == |Positions(s, p)|
    decreases |s|
  {
    if s != [] {
      var front, last := s[..|s| - 1], s[|s| - 1];
      assert s == front + [last];
      FilterSnoc(front, last, p);
      PositionsSnoc(front, last, p);
      FilterLength(front, p);
    }
  }

  /** Filtering a sequence extended by one element. */
  lemma FilterSnoc<T>(front: seq<T>, last: T, p: T -> bool)
    ensures Filter(front + [last], p) == Filter(front, p) + (if p(last) then [last] else [])
  {
    FilterAppend(front, [last], p);
    assert [last][1..] == [];
  }

  /** The positions in a sequence extended by one element: those of the
      front, and the new last position when its element passes. */
  lemma PositionsSnoc<T>(front: seq<T>, last: T, p: T -> bool)
    ensures Positions(front + [last], p) == Positions(front, p) + (if p(last) then {|front|} else {})
    ensures |front| !in Positions(front, p)
  {
    var s := front + [last];
    forall k | 0 <= k < |front| ensures s[k] == front[k] {}
  }

  /** `r` can be obtained from `s` by deleting elements: the order of what is
      kept is the order in `s`. */
  predicate IsSubsequence<T(==)>(r: seq<T>, s: seq<T>)
    decreases |s|
  {
    if r == [] then true
    else if s == [] then false
    else if r[0] == s[0] then IsSubsequence(r[1..], s[1..])
    else IsSubsequence(r, s[1..])
  }

  /** A filter keeps the surviving elements in their original order. */
  lemma {:induction false} FilterIsSubsequence<T>(s: seq<T>, p: T -> bool)
    ensures IsSubsequence(Filter(s, p), s)
    decreases |s|
  {
    if s != [] {
      FilterIsSubsequence(s[1..], p);
      if !p(s[0]) {
        SkipHead(Filter(s[1..], p), s);
      }
    }
  }

  /** A subsequence of the tail of `s` is a subsequence of `s`. */
  lemma {:induction false} SkipHead<T>(r: seq<T>, s: seq<T>)
    requires s != [] && IsSubsequence(r, s[1..])
    ensures IsSubsequence(r, s)
    decreases 2 * |s|
  {
    if r != [] && r[0] == s[0] {
      DropHead(r, s[1..]);
    }
  }

  /** Dropping the first element of a subsequence leaves a subsequence. */
  lemma {:induction false} DropHead<T>(r: seq<T>, t: seq<T>)
    requires r != [] && IsSubsequence(r, t)
    ensures IsSubsequence(r[1..], t)
    decreases 2 * |t| + 1
  {
    if r[0] != t[0] {
      DropHead(r, t[1..]);
    }
    SkipHead(r[1..], t);
  }

  /** Filtering a concatenation filters each part. */
  lemma {:induction false} FilterAppend<T>(a: seq<T>, b: seq<T>, p: T -> bool)
    ensures Filter(a + b, p) == Filter(a, p) + Filter(b, p)
    decreases |a|
  {
    if a != [] {
      assert (a + b)[0] == a[0] && (a + b)[1..] == a[1..] + b;
      FilterAppend(a[1..], b, p);
    } else {
      assert a + b == b;
    }
  }

  /** A filter that every element passes returns the whole sequence. */
  lemma {:induction false} FilterAll<T>(s: seq<T>, p: T -> bool)
    requires forall k :: 0 <= k < |s| ==> p(s[k])
    ensures Filter(s, p) == s
    decreases |s|
  {
    if s != [] {
      FilterAll(s[1..], p);
    }
  }

  /** Filtering twice with the same predicate changes nothing the second time. */
  lemma {:induction false} FilterIdempotent<T>(s: seq<T>, p: T -> bool)
    ensures Filter(Filter(s, p), p) == Filter(s, p)
  {
    var r := Filter(s, p);
    forall k | 0 <= k < |r| ensures p(r[k]) {
      assert r[k] in r;
    }
    FilterAll(r, p);
  }

  /** The callback `x => p(x) && q(x)`. */
  function Both<T>(p: T -> bool, q: T -> bool): T -> bool { (x: T) => p(x) && q(x) }

  /** Filtering by `p` and then by `q` is filtering once by both. */
  lemma {:induction false} FilterFilter<T>(s: seq<T>, p: T -> bool, q: T -> bool)
    ensures Filter(Filter(s, p), q) == Filter(s, Both(p, q))
    decreases |s|
  {
    if s != [] {
      FilterFilter(s[1..], p, q);
      if p(s[0]) {
        var rest := Filter(s[1..], p);
        assert ([s[0]] + rest)[0] == s[0] && ([s[0]] + rest)[1..] == rest;
      }
    }
  }

  /** Filters with callbacks that agree on every element give the same result. */
  lemma {:induction false} FilterSame<T>(s: seq<T>, p: T -> bool, q: T -> bool)
    requires forall k :: 0 <= k < |s| ==> p(s[k]) == q(s[k])
    ensures Filter(s, p) == Filter(s, q)
    decreases |s|
  {
    if s != [] {
      FilterSame(s[1..], p, q);
    }
  }

  /** `s.filter(p).length`. */
  function Count<T>(s: seq<T>, p: T -> bool): (n: nat)
    ensures n <= |s|
  {
    |Filter(s, p)|
  }

  /** `s[s.findIndex(p)] = f(s[...])` when some element satisfies `p`;
      otherwise `s` unchanged. */
  function UpdateFirst<T>(s: seq<T>, p: T -> bool, f: T -> T): (r: seq<T>)
    ensures |r| == |s|
    ensures FindIndex(s, p) == -1 ==> r == s
    ensures FindIndex(s, p) != -1 ==>
      r[FindIndex(s, p)] == f(s[FindIndex(s, p)]) &&
      forall k :: 0 <= k < |s| && k != FindIndex(s, p) ==> r[k] == s[k]
  {
    var i := FindIndex(s, p);
    if i == -1 then s else s[i := f(s[i])]
  }

  /** Applying an idempotent update twice is the same as applying it once,
      provided the update keeps the element matching (it does not change the
      key it was found by). */
  lemma UpdateFirstIdempotent<T>(s: seq<T>, p: T -> bool, f: T -> T)
    requires forall x :: p(x) ==> p(f(x))
    requires forall x :: f(f(x)) == f(x)
    ensures UpdateFirst(UpdateFirst(s, p, f), p, f) == UpdateFirst(s, p, f)
  {
    var i := FindIndex(s, p);
    if i != -1 {
      var once := UpdateFirst(s, p, f);
      assert p(once[i]);
      assert FindIndex(once, p) == i;
    }
  }
}
