/** Stable descending sort and its first k entries, as both retrieval channels and their fusion use it. */
module Ranking {
  /** A candidate: where it stood in the input, and its score. */
  datatype Entry = Entry(pos: nat, score: real)

  /** `a` comes before `b` in a stable descending sort. */
  predicate Ahead(a: Entry, b: Entry) {
    a.score > b.score || (a.score == b.score && a.pos < b.pos)
  }

  predicate Ordered(s: seq<Entry>) {
    forall i, j | 0 <= i < j < |s| :: Ahead(s[i], s[j])
  }

  predicate ByPosition(s: seq<Entry>) {
    forall i, j | 0 <= i < j < |s| :: s[i].pos < s[j].pos
  }

  /** Puts a later entry behind everything that scores at least as much. */
  function Insert(s: seq<Entry>, e: Entry): seq<Entry> {
    if s == [] then [e]
    else if s[0].score >= e.score then [s[0]] + Insert(s[1..], e)
    else [e] + s
  }

  function Sorted(s: seq<Entry>): seq<Entry> {
    if s == [] then [] else Insert(Sorted(s[..|s| - 1]), s[|s| - 1])
  }

  function TopK(s: seq<Entry>, k: nat): seq<Entry> {
    var all := Sorted(s);
    if k <= |all| then all[..k] else all
  }

  lemma HeadIsOrdered(e: Entry, s: seq<Entry>)
    requires Ordered(s) && forall x <- s :: Ahead(e, x)
    ensures Ordered([e] + s)
  {
  }

  lemma {:induction false} InsertIsOrdered(s: seq<Entry>, e: Entry)
    requires Ordered(s) && forall x <- s :: x.pos < e.pos
    ensures Ordered(Insert(s, e))
    ensures multiset(Insert(s, e)) == multiset(s) + multiset{e}
  {
    if s != [] {
      assert s == [s[0]] + s[1..];
      if s[0].score >= e.score {
        InsertIsOrdered(s[1..], e);
        var rest := Insert(s[1..], e);
        forall x | x in rest ensures Ahead(s[0], x) {
          assert x in multiset(rest);
        }
        HeadIsOrdered(s[0], rest);
      } else {
        HeadIsOrdered(e, s);
      }
    }
  }

  lemma {:induction false} SortedIsOrdered(s: seq<Entry>)
    requires ByPosition(s)
    ensures Ordered(Sorted(s)) && multiset(Sorted(s)) == multiset(s)
    ensures |Sorted(s)| == |s|
  {
    if s != [] {
      var front, e := s[..|s| - 1], s[|s| - 1];
      SortedIsOrdered(front);
      forall x | x in Sorted(front) ensures x.pos < e.pos {
        assert x in multiset(front);
      }
      InsertIsOrdered(Sorted(front), e);
      assert s == front + [e];
    }
    assert |multiset(Sorted(s))| == |multiset(s)|;
  }

  /** The first k of a stable descending sort: k entries or all there are, in order, and every entry
      left out is behind every entry kept. */
  lemma TopKIsBest(s: seq<Entry>, k: nat)
    requires ByPosition(s)
    ensures |TopK(s, k)| == if k <= |s| then k else |s|
    ensures Ordered(TopK(s, k))
    ensures forall e <- TopK(s, k) :: e in s
    ensures |s| <= k ==> forall e <- s :: e in TopK(s, k)
    ensures forall e <- s :: e !in TopK(s, k) ==> forall kept <- TopK(s, k) :: Ahead(kept, e)
  {
    SortedIsOrdered(s);
    var all, top := Sorted(s), TopK(s, k);
    forall e | e in top ensures e in s {
      assert e in multiset(all);
    }
    if |s| <= k {
      forall e | e in s ensures e in top {
        assert e in multiset(s);
      }
    }
    forall e, kept | e in s && e !in top && kept in top ensures Ahead(kept, e) {
      assert e in multiset(s);
      assert all == top + all[|top|..];
      assert e in all[|top|..];
      var i :| 0 <= i < |top| && top[i] == kept;
      var j :| 0 <= j < |all| - |top| && all[|top|..][j] == e;
      assert Ahead(all[i], all[|top| + j]);
    }
  }
}
