/** The order the receipt listing uses: newest first by creation time, as
    `receipts.sort((a, b) => b.createdAt - a.createdAt)` gives it. That sort
    is stable, so receipts created at the same instant keep the order they
    had. The sort is specified here as insertion of each receipt, in turn,
    into the already sorted prefix. */
module ReceiptOrder {
  import opened Arrays
  import opened Types

  /** Newest first: creation times never increase along the sequence. */
  predicate NewestFirst(s: seq<Receipt>) {
    forall i, j :: 0 <= i < j < |s| ==> s[i].createdAt >= s[j].createdAt
  }

  /** Places `x` after every receipt of `t` at least as new as it. */
  function Insert(x: Receipt, t: seq<Receipt>): (r: seq<Receipt>)
    ensures |r| == |t| + 1
    decreases |t|
  {
    if t == [] then [x]
    else if t[0].createdAt >= x.createdAt then [t[0]] + Insert(x, t[1..])
    else [x] + t
  }

  /** The listing's sort. */
  function SortNewestFirst(s: seq<Receipt>): (r: seq<Receipt>)
    ensures |r| == |s|
    decreases |s|
  {
    if s == [] then [] else Insert(s[|s| - 1], SortNewestFirst(s[..|s| - 1]))
  }

  /** Inserting adds exactly `x`. */
  lemma {:induction false} InsertAddsOne(x: Receipt, t: seq<Receipt>)
    ensures multiset(Insert(x, t)) == multiset(t) + multiset{x}
    decreases |t|
  {
    if t != [] {
      assert t == [t[0]] + t[1..];
      if t[0].createdAt >= x.createdAt {
        InsertAddsOne(x, t[1..]);
      }
    }
  }

  /** Inserting keeps a sequence newest first. */
  lemma {:induction false} InsertKeepsOrder(x: Receipt, t: seq<Receipt>)
    requires NewestFirst(t)
    ensures NewestFirst(Insert(x, t))
    decreases |t|
  {
    if t != [] && t[0].createdAt >= x.createdAt {
      var tail := t[1..];
      InsertKeepsOrder(x, tail);
      InsertAddsOne(x, tail);
      var rest := Insert(x, tail);
      var r := [t[0]] + rest;
      forall i, j | 0 <= i < j < |r| ensures r[i].createdAt >= r[j].createdAt {
        if i == 0 {
          var y := rest[j - 1];
          assert y in multiset(rest);
          assert y == x || y in tail;
        }
      }
    }
  }

  /** Inserting keeps a sequence newest first and adds exactly `x`. */
  lemma InsertSortedPermutation(x: Receipt, t: seq<Receipt>)
    requires NewestFirst(t)
    ensures NewestFirst(Insert(x, t))
    ensures multiset(Insert(x, t)) == multiset(t) + multiset{x}
  {
    InsertKeepsOrder(x, t);
    InsertAddsOne(x, t);
  }

  /** The sort returns its input rearranged. */
  lemma {:induction false} SortPermutes(s: seq<Receipt>)
    ensures multiset(SortNewestFirst(s)) == multiset(s)
    decreases |s|
  {
    if s != [] {
      var front, last := s[..|s| - 1], s[|s| - 1];
      SortPermutes(front);
      InsertAddsOne(last, SortNewestFirst(front));
      assert s == front + [last];
    }
  }

  /** The sort returns its input newest first. */
  lemma {:induction false} SortOrders(s: seq<Receipt>)
    ensures NewestFirst(SortNewestFirst(s))
    decreases |s|
  {
    if s != [] {
      var front := s[..|s| - 1];
      SortOrders(front);
      InsertKeepsOrder(s[|s| - 1], SortNewestFirst(front));
    }
  }

  /** The sort returns its input rearranged, newest first. */
  lemma SortSortedPermutation(s: seq<Receipt>)
    ensures NewestFirst(SortNewestFirst(s))
    ensures multiset(SortNewestFirst(s)) == multiset(s)
  {
    SortOrders(s);
    SortPermutes(s);
  }

  function CreatedAtIs(t: int): Receipt -> bool { (r: Receipt) => r.createdAt == t }

  /** Inserting into a sorted sequence puts `x` after the receipts created at
      the same instant. */
  lemma {:induction false} InsertKeepsTies(x: Receipt, t: seq<Receipt>, time: int)
    requires NewestFirst(t)
    ensures Filter(Insert(x, t), CreatedAtIs(time)) ==
            Filter(t, CreatedAtIs(time)) + (if x.createdAt == time then [x] else [])
    decreases |t|
  {
    if t == [] {
    } else if t[0].createdAt >= x.createdAt {
      InsertKeepsTies(x, t[1..], time);
      var rest := Insert(x, t[1..]);
      assert ([t[0]] + rest)[0] == t[0] && ([t[0]] + rest)[1..] == rest;
    } else {
      assert ([x] + t)[0] == x && ([x] + t)[1..] == t;
      if x.createdAt == time {
        forall k | 0 <= k < |t| ensures !CreatedAtIs(time)(t[k]) {
          assert t[k].createdAt <= t[0].createdAt;
        }
        NoneSelected(t, CreatedAtIs(time));
      }
    }
  }

  /** A filter that no element passes returns nothing. */
  lemma {:induction false} NoneSelected(s: seq<Receipt>, p: Receipt -> bool)
    requires forall k :: 0 <= k < |s| ==> !p(s[k])
    ensures Filter(s, p) == []
    decreases |s|
  {
    if s != [] {
      NoneSelected(s[1..], p);
    }
  }

  /** The sort is stable: for every creation time, the receipts created then
      appear in the sorted sequence in the order they had before. */
  lemma {:induction false} SortIsStable(s: seq<Receipt>, time: int)
    ensures Filter(SortNewestFirst(s), CreatedAtIs(time)) == Filter(s, CreatedAtIs(time))
    decreases |s|
  {
    if s != [] {
      var front, last := s[..|s| - 1], s[|s| - 1];
      assert s == front + [last];
      var sorted := SortNewestFirst(front);
      assert SortNewestFirst(s) == Insert(last, sorted);
      SortOrders(front);
      InsertKeepsTies(last, sorted, time);
      SortIsStable(front, time);
      FilterSnoc(front, last, CreatedAtIs(time));
    }
  }

  /** A sequence already newest first is left as it is. */
  lemma {:induction false} SortKeepsSorted(s: seq<Receipt>)
    requires NewestFirst(s)
    ensures SortNewestFirst(s) == s
    decreases |s|
  {
    if s != [] {
      var front, last := s[..|s| - 1], s[|s| - 1];
      SortKeepsSorted(front);
      InsertAtEnd(last, front);
      assert s == front + [last];
    }
  }

  /** Inserting a receipt no newer than any in a sorted sequence appends it. */
  lemma {:induction false} InsertAtEnd(x: Receipt, t: seq<Receipt>)
    requires forall k :: 0 <= k < |t| ==> t[k].createdAt >= x.createdAt
    ensures Insert(x, t) == t + [x]
    decreases |t|
  {
    if t != [] {
      InsertAtEnd(x, t[1..]);
      assert t == [t[0]] + t[1..];
    }
  }
}
