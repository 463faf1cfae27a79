/** Retrieval filters in their two forms: the clause sent to the vector store, and the predicate
    applied in memory. */
module Filters {
  import opened Wrappers

  /** The metadata keys a filter looks at; a chunk written in an older format may lack any of them. */
  datatype Metadata = Metadata(source: Option<string>, docId: Option<string>, indexedAt: Option<int>)

  /** Instants are whole seconds since the epoch, which is what both forms compare. */
  datatype RetrievalFilters = RetrievalFilters(
    sources: seq<string>, docIds: seq<string>, indexedAfter: Option<int>, indexedBefore: Option<int>)

  datatype Clause =
    | SourceIn(values: seq<string>)
    | DocIdIn(values: seq<string>)
    | IndexedAtLeast(bound: int)
    | IndexedAtMost(bound: int)
    | And(clauses: seq<Clause>)

  /** What the vector store does with a clause: a missing key fails every comparison. */
  predicate Accepts(c: Clause, m: Metadata) {
    match c
    case SourceIn(values) => m.source.Some? && m.source.value in values
    case DocIdIn(values) => m.docId.Some? && m.docId.value in values
    case IndexedAtLeast(bound) => m.indexedAt.Some? && m.indexedAt.value >= bound
    case IndexedAtMost(bound) => m.indexedAt.Some? && m.indexedAt.value <= bound
    case And(clauses) => forall i | 0 <= i < |clauses| :: Accepts(clauses[i], m)
  }

  predicate AllAccept(clauses: seq<Clause>, m: Metadata) {
    forall i | 0 <= i < |clauses| :: Accepts(clauses[i], m)
  }

  predicate IsEmpty(f: RetrievalFilters) {
    f.sources == [] && f.docIds == [] && f.indexedAfter == None && f.indexedBefore == None
  }

  predicate MatchesMetadata(f: RetrievalFilters, m: Metadata) {
    if f.sources != [] && !(m.source.Some? && m.source.value in f.sources) then false
    else if f.docIds != [] && !(m.docId.Some? && m.docId.value in f.docIds) then false
    else if f.indexedAfter.Some? && (m.indexedAt.None? || m.indexedAt.value < f.indexedAfter.value) then false
    else !(f.indexedBefore.Some? && (m.indexedAt.None? || m.indexedAt.value > f.indexedBefore.value))
  }

  /** A filter asks for each of its keys what a filter with this key alone asks: one of the listed sources, one of the
      listed documents, indexed no earlier, indexed no later; a key it does not have asks for nothing, and metadata
      that lacks a key that is asked for does not match. */
  lemma FilterIsItsKeys(f: RetrievalFilters, m: Metadata)
    ensures MatchesMetadata(f, m) <==>
      && MatchesMetadata(RetrievalFilters(f.sources, [], None, None), m)
      && MatchesMetadata(RetrievalFilters([], f.docIds, None, None), m)
      && MatchesMetadata(RetrievalFilters([], [], f.indexedAfter, None), m)
      && MatchesMetadata(RetrievalFilters([], [], None, f.indexedBefore), m)
    ensures MatchesMetadata(RetrievalFilters(f.sources, [], None, None), m) <==>
      f.sources == [] || exists i | 0 <= i < |f.sources| :: m.source == Some(f.sources[i])
    ensures MatchesMetadata(RetrievalFilters([], f.docIds, None, None), m) <==>
      f.docIds == [] || exists i | 0 <= i < |f.docIds| :: m.docId == Some(f.docIds[i])
    ensures MatchesMetadata(RetrievalFilters([], [], f.indexedAfter, None), m) <==>
      f.indexedAfter == None || (m.indexedAt.Some? && f.indexedAfter.value <= m.indexedAt.value)
    ensures MatchesMetadata(RetrievalFilters([], [], None, f.indexedBefore), m) <==>
      f.indexedBefore == None || (m.indexedAt.Some? && m.indexedAt.value <= f.indexedBefore.value)
  {
    if m.source.Some? { assert m.source.value in f.sources <==> exists i | 0 <= i < |f.sources| :: m.source == Some(f.sources[i]); }
    if m.docId.Some? { assert m.docId.value in f.docIds <==> exists i | 0 <= i < |f.docIds| :: m.docId == Some(f.docIds[i]); }
  }

  /** The clause accepts exactly the metadata that the predicate accepts; there is no clause exactly
      when the filter is empty, and then the predicate accepts everything. A conjunction has at
      least two members, as the store demands. */
  method ToChromaWhere(f: RetrievalFilters) returns (where: Option<Clause>)
    ensures where == None <==> IsEmpty(f)
    ensures forall m :: MatchesMetadata(f, m) <==> (where.Some? ==> Accepts(where.value, m))
    ensures where.Some? && where.value.And? ==> |where.value.clauses| >= 2
  {
    var clauses := [];
    if f.sources != [] {
      AcceptsOneMore(clauses, SourceIn(f.sources));
      clauses := clauses + [SourceIn(f.sources)];
    }
    if f.docIds != [] {
      AcceptsOneMore(clauses, DocIdIn(f.docIds));
      clauses := clauses + [DocIdIn(f.docIds)];
    }
    if f.indexedAfter.Some? {
      AcceptsOneMore(clauses, IndexedAtLeast(f.indexedAfter.value));
      clauses := clauses + [IndexedAtLeast(f.indexedAfter.value)];
    }
    if f.indexedBefore.Some? {
      AcceptsOneMore(clauses, IndexedAtMost(f.indexedBefore.value));
      clauses := clauses + [IndexedAtMost(f.indexedBefore.value)];
    }
    assert forall m :: AllAccept(clauses, m) <==> MatchesMetadata(f, m);
    if clauses == [] {
      where := None;
    } else if |clauses| == 1 {
      where := Some(clauses[0]);
    } else {
      where := Some(And(clauses));
    }
    ClauseOf(clauses, where);
  }

  lemma AcceptsOneMore(clauses: seq<Clause>, c: Clause)
    ensures forall m :: AllAccept(clauses + [c], m) <==> AllAccept(clauses, m) && Accepts(c, m)
  {
    forall m ensures AllAccept(clauses + [c], m) <==> AllAccept(clauses, m) && Accepts(c, m) {
      var more := clauses + [c];
      if AllAccept(more, m) {
        assert more[|clauses|] == c;
        forall i | 0 <= i < |clauses| ensures Accepts(clauses[i], m) { assert more[i] == clauses[i]; }
      }
    }
  }

  lemma ClauseOf(clauses: seq<Clause>, where: Option<Clause>)
    requires where == if clauses == [] then None else if |clauses| == 1 then Some(clauses[0]) else Some(And(clauses))
    ensures forall m :: AllAccept(clauses, m) <==> (where.Some? ==> Accepts(where.value, m))
  {
  }
}
