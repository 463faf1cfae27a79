/** Duplicate-free lists in order of first appearance, as insertion-ordered dictionaries and
    "append unless present" loops produce them. */
module Lists {
  predicate Distinct<T(==)>(s: seq<T>) {
    forall i, j | 0 <= i < j < |s| :: s[i] != s[j]
  }

  function Dedup<T(==)>(s: seq<T>): seq<T> {
    if s == [] then []
    else
      var d := Dedup(s[..|s| - 1]);
      if s[|s| - 1] in d then d else d + [s[|s| - 1]]
  }

  lemma DedupSnoc<T>(s: seq<T>, x: T)
    ensures Dedup(s + [x]) == if x in Dedup(s) then Dedup(s) else Dedup(s) + [x]
  {
    assert (s + [x])[..|s|] == s;
  }

  /** The first k elements, or all there are. */
  function Take<T>(s: seq<T>, k: nat): seq<T> {
    if k <= |s| then s[..k] else s
  }

  function FirstIndex<T(==)>(s: seq<T>, x: T): nat
    requires x in s
  {
    if s[0] == x then 0 else 1 + FirstIndex(s[1..], x)
  }

  lemma {:induction false} FirstIndexIsFirst<T>(s: seq<T>, x: T)
    requires x in s
    ensures FirstIndex(s, x) < |s| && s[FirstIndex(s, x)] == x
    ensures forall i | 0 <= i < FirstIndex(s, x) :: s[i] != x
  {
    if s[0] != x { FirstIndexIsFirst(s[1..], x); }
  }

  lemma {:induction false} FirstIndexOfPrefix<T>(s: seq<T>, t: seq<T>, x: T)
    requires x in s
    ensures FirstIndex(s + t, x) == FirstIndex(s, x)
  {
    if s[0] != x {
      assert (s + t)[1..] == s[1..] + t;
      FirstIndexOfPrefix(s[1..], t, x);
    }
  }

  lemma {:induction false} DedupMember<T>(s: seq<T>, x: T)
    ensures x in Dedup(s) <==> x in s
  {
    if s != [] {
      var front := s[..|s| - 1];
      DedupMember(front, x);
      DedupMember(front, s[|s| - 1]);
      assert s == front + [s[|s| - 1]];
    }
  }

  /** Dropping repeats keeps every element once, in order of first appearance. */
  lemma {:induction false} DedupKeepsFirsts<T>(s: seq<T>)
    ensures Distinct(Dedup(s))
    ensures forall x :: x in Dedup(s) <==> x in s
    ensures forall i, j | 0 <= i < j < |Dedup(s)| :: FirstIndex(s, Dedup(s)[i]) < FirstIndex(s, Dedup(s)[j])
  {
    forall x ensures x in Dedup(s) <==> x in s { DedupMember(s, x); }
    if s != [] {
      var front, last := s[..|s| - 1], s[|s| - 1];
      assert s == front + [last];
      DedupKeepsFirsts(front);
      var d := Dedup(s);
      forall i, j | 0 <= i < j < |d| ensures FirstIndex(s, d[i]) < FirstIndex(s, d[j]) {
        assert d[i] in Dedup(front);
        DedupMember(front, d[i]);
        DedupMember(s, d[j]);
        FirstIndexOfPrefix(front, [last], d[i]);
        FirstIndexIsFirst(front, d[i]);
        FirstIndexIsFirst(s, d[j]);
        if d[j] in front { FirstIndexOfPrefix(front, [last], d[j]); }
      }
    }
  }
}
