/** The keyword index: an immutable snapshot, replaced as a whole, searched and saved to a file. */
module Bm25 {
  import opened Wrappers
  import opened Ranking
  import opened Filters

  const SCHEMA_VERSION := 1

  const NO_METADATA := Metadata(None, None, None)

  datatype Snapshot = Snapshot(ids: seq<string>, corpus: seq<string>, metadatas: seq<Metadata>)

  datatype Hit = Hit(id: string, document: string, metadata: Metadata, score: real)

  /** One score per document of a corpus, for a query. */
  type Scorer = (seq<string>, string) -> seq<real>

  ghost predicate ScoresEach(score: Scorer) {
    forall corpus, query :: |score(corpus, query)| == |corpus|
  }

  predicate Consistent(s: Snapshot) {
    |s.ids| == |s.corpus| == |s.metadatas|
  }

  function NoMetadata(documents: seq<string>): seq<Metadata> {
    seq(|documents|, i => NO_METADATA)
  }

  function Built(ids: seq<string>, documents: seq<string>, metadatas: seq<Metadata>): Snapshot {
    Snapshot(ids, documents, if metadatas == [] then NoMetadata(documents) else metadatas)
  }

  // ---- What a search finds ----

  predicate Matches(s: Snapshot, scores: seq<real>, accept: Metadata -> bool, i: nat)
    requires Consistent(s) && |scores| == |s.corpus| && i < |scores|
  {
    scores[i] > 0.0 && accept(s.metadatas[i])
  }

  /** The matching documents with a positive score among the first `n`, in corpus order. */
  function Candidates(s: Snapshot, scores: seq<real>, accept: Metadata -> bool, n: nat): seq<Entry>
    requires Consistent(s) && |scores| == |s.corpus| && n <= |scores|
  {
    if n == 0 then []
    else Candidates(s, scores, accept, n - 1) + if Matches(s, scores, accept, n - 1) then [Entry(n - 1, scores[n - 1])] else []
  }

  lemma {:induction false} CandidatesAreTheMatches(s: Snapshot, scores: seq<real>, accept: Metadata -> bool, n: nat)
    requires Consistent(s) && |scores| == |s.corpus| && n <= |scores|
    ensures
      var c := Candidates(s, scores, accept, n);
      && ByPosition(c) && |c| <= n
      && (forall e <- c :: e.pos < n && e.score == scores[e.pos] && Matches(s, scores, accept, e.pos))
      && (forall i: nat | i < n && Matches(s, scores, accept, i) :: Entry(i, scores[i]) in c)
  {
    if n > 0 { CandidatesAreTheMatches(s, scores, accept, n - 1); }
  }

  function HitAt(s: Snapshot, scores: seq<real>, i: nat): Hit
    requires Consistent(s) && |scores| == |s.corpus| && i < |scores|
  {
    Hit(s.ids[i], s.corpus[i], s.metadatas[i], scores[i])
  }

  /** `hits` are the documents at `kept`: matching, best first, and every matching document left out
      is behind every one kept. */
  ghost predicate BestMatches(s: Snapshot, scores: seq<real>, accept: Metadata -> bool, k: nat, kept: seq<Entry>, hits: seq<Hit>)
    requires Consistent(s) && |scores| == |s.corpus|
  {
    && |hits| == |kept| <= k
    && Ordered(kept)
    && (forall i | 0 <= i < |kept| ::
          kept[i].pos < |scores| && kept[i].score == scores[kept[i].pos]
          && Matches(s, scores, accept, kept[i].pos) && hits[i] == HitAt(s, scores, kept[i].pos))
    && (forall i: nat | i < |scores| && Matches(s, scores, accept, i) && Entry(i, scores[i]) !in kept ::
          |kept| == k && forall e <- kept :: Ahead(e, Entry(i, scores[i])))
  }

  /** The hit is the document at `p`, which scores and is accepted. */
  predicate IsMatchAt(s: Snapshot, scores: seq<real>, accept: Metadata -> bool, p: nat, h: Hit)
    requires Consistent(s) && |scores| == |s.corpus|
  {
    p < |scores| && scores[p] > 0.0 && accept(s.metadatas[p]) && h == Hit(s.ids[p], s.corpus[p], s.metadatas[p], scores[p])
  }

  /** The same said of the hits alone: each is a matching document with its own score, best first, and a matching
      document is left out only for `k` others that score at least as much. */
  ghost predicate AreBest(s: Snapshot, scores: seq<real>, accept: Metadata -> bool, k: nat, hits: seq<Hit>)
    requires Consistent(s) && |scores| == |s.corpus|
  {
    && |hits| <= k
    && (forall i, j | 0 <= i < j < |hits| :: hits[i].score >= hits[j].score)
    && (forall h <- hits :: exists p: nat :: IsMatchAt(s, scores, accept, p, h))
    && (forall p: nat | p < |scores| && scores[p] > 0.0 && accept(s.metadatas[p]) ::
          Hit(s.ids[p], s.corpus[p], s.metadatas[p], scores[p]) in hits
          || (|hits| == k && forall h <- hits :: h.score >= scores[p]))
  }

  lemma BestMatchesAreBest(s: Snapshot, scores: seq<real>, accept: Metadata -> bool, k: nat, kept: seq<Entry>, hits: seq<Hit>)
    requires Consistent(s) && |scores| == |s.corpus| && BestMatches(s, scores, accept, k, kept, hits)
    ensures AreBest(s, scores, accept, k, hits)
  {
    forall i, j | 0 <= i < j < |hits| ensures hits[i].score >= hits[j].score {
      assert Ahead(kept[i], kept[j]);
    }
    forall h | h in hits ensures exists p: nat :: IsMatchAt(s, scores, accept, p, h) {
      var i :| 0 <= i < |hits| && hits[i] == h;
      assert IsMatchAt(s, scores, accept, kept[i].pos, h);
    }
    forall p: nat | p < |scores| && scores[p] > 0.0 && accept(s.metadatas[p])
      ensures Hit(s.ids[p], s.corpus[p], s.metadatas[p], scores[p]) in hits
              || (|hits| == k && forall h <- hits :: h.score >= scores[p])
    {
      assert Matches(s, scores, accept, p);
      if Entry(p, scores[p]) in kept {
        var i :| 0 <= i < |kept| && kept[i] == Entry(p, scores[p]);
        assert hits[i] == HitAt(s, scores, p);
      } else {
        forall h | h in hits ensures h.score >= scores[p] {
          var i :| 0 <= i < |hits| && hits[i] == h;
          assert Ahead(kept[i], Entry(p, scores[p]));
        }
      }
    }
  }

  function Kept(s: Snapshot, scores: seq<real>, accept: Metadata -> bool, k: nat): seq<Entry>
    requires Consistent(s) && |scores| == |s.corpus|
  {
    TopK(Candidates(s, scores, accept, |scores|), k)
  }

  lemma KeptAreInRange(s: Snapshot, scores: seq<real>, accept: Metadata -> bool, k: nat)
    requires Consistent(s) && |scores| == |s.corpus|
    ensures |Kept(s, scores, accept, k)| <= k
    ensures forall e <- Kept(s, scores, accept, k) :: e.pos < |scores|
  {
    CandidatesAreTheMatches(s, scores, accept, |scores|);
    TopKIsBest(Candidates(s, scores, accept, |scores|), k);
  }

  /** Filtering before sorting: no document that fails the filter crowds out one that passes it. */
  lemma KeptAreBest(s: Snapshot, scores: seq<real>, accept: Metadata -> bool, k: nat, hits: seq<Hit>)
    requires Consistent(s) && |scores| == |s.corpus|
    requires |hits| == |Kept(s, scores, accept, k)|
    requires forall i | 0 <= i < |hits| ::
      Kept(s, scores, accept, k)[i].pos < |scores| && hits[i] == HitAt(s, scores, Kept(s, scores, accept, k)[i].pos)
    ensures BestMatches(s, scores, accept, k, Kept(s, scores, accept, k), hits)
  {
    var candidates := Candidates(s, scores, accept, |scores|);
    CandidatesAreTheMatches(s, scores, accept, |scores|);
    TopKIsBest(candidates, k);
  }

  /** What a search answers, as a function of the index. */
  function SearchResult(index: Option<Snapshot>, score: Scorer, query: string, k: nat, accept: Metadata -> bool): seq<Hit>
    requires index.Some? ==> Consistent(index.value)
    requires ScoresEach(score)
  {
    if index == None || index.value.corpus == [] then []
    else
      var s := index.value;
      var scores := score(s.corpus, query);
      var kept := Kept(s, scores, accept, k);
      KeptAreInRange(s, scores, accept, k);
      seq(|kept|, i requires 0 <= i < |kept| => HitAt(s, scores, kept[i].pos))
  }

  // ---- The index and its file ----

  datatype Payload = Corrupt | Payload(version: int, ids: seq<string>, corpus: seq<string>, metadatas: seq<Metadata>)

  class IndexFile {
    var content: Option<Payload>

    constructor ()
      ensures content == None
    {
      content := None;
    }
  }

  class BM25Index {
    var snapshot: Option<Snapshot>

    predicate Valid()
      reads this
    {
      snapshot.Some? ==> Consistent(snapshot.value)
    }

    constructor ()
      ensures Valid() && snapshot == None
    {
      snapshot := None;
    }

    method Build(ids: seq<string>, documents: seq<string>, metadatas: seq<Metadata>)
      modifies this
      ensures snapshot == Some(Built(ids, documents, metadatas))
      ensures Valid() <==> |ids| == |documents| && (metadatas == [] || |metadatas| == |documents|)
    {
      snapshot := Some(Snapshot(ids, documents, if metadatas == [] then NoMetadata(documents) else metadatas));
    }

    method Search(score: Scorer, query: string, k: nat, accept: Metadata -> bool) returns (hits: seq<Hit>)
      requires Valid() && ScoresEach(score)
      ensures hits == SearchResult(snapshot, score, query, k, accept)
      ensures snapshot == None || snapshot.value.corpus == [] ==> hits == []
      ensures snapshot.Some? && snapshot.value.corpus != [] ==>
        var scores := score(snapshot.value.corpus, query);
        && BestMatches(snapshot.value, scores, accept, k, Kept(snapshot.value, scores, accept, k), hits)
        && AreBest(snapshot.value, scores, accept, k, hits)
      ensures |hits| <= k && forall h <- hits :: accept(h.metadata) && h.score > 0.0
    {
      if snapshot == None || snapshot.value.corpus == [] { return []; }
      var s := snapshot.value;
      var scores := score(s.corpus, query);
      var scored: seq<Entry> := [];
      for idx := 0 to |scores|
        invariant scored == Candidates(s, scores, accept, idx)
      {
        if scores[idx] > 0.0 && accept(s.metadatas[idx]) {
          scored := scored + [Entry(idx, scores[idx])];
        }
      }
      KeptAreInRange(s, scores, accept, k);
      var top := TopK(scored, k);
      hits := [];
      for i := 0 to |top|
        invariant |hits| == i
        invariant forall j | 0 <= j < i :: hits[j] == HitAt(s, scores, top[j].pos)
      {
        hits := hits + [Hit(s.ids[top[i].pos], s.corpus[top[i].pos], s.metadatas[top[i].pos], scores[top[i].pos])];
      }
      KeptAreBest(s, scores, accept, k, hits);
      BestMatchesAreBest(s, scores, accept, k, Kept(s, scores, accept, k), hits);
    }

    /** Replaces the file unless its lock cannot be had. */
    method SaveToFile(file: IndexFile, lockFree: bool)
      modifies file
      ensures !lockFree ==> file.content == old(file.content)
      ensures lockFree ==> file.content == Some(Saved(snapshot))
    {
      if lockFree {
        file.content := Some(
          if snapshot == None then Payload(SCHEMA_VERSION, [], [], [])
          else Payload(SCHEMA_VERSION, snapshot.value.ids, snapshot.value.corpus, snapshot.value.metadatas));
      }
    }

    /** Anything wrong with the file leaves the index as it was. */
    method LoadFromFile(file: IndexFile, lockFree: bool) returns (loaded: bool)
      modifies this
      ensures loaded <==>
        (lockFree && file.content.Some? && file.content.value.Payload?
         && file.content.value.version == 1 && |file.content.value.ids| == |file.content.value.corpus|)
      ensures snapshot == if loaded then Some(LoadedFrom(file.content.value)) else old(snapshot)
    {
      if file.content == None || !lockFree || file.content.value.Corrupt? { return false; }
      var payload := file.content.value;
      if payload.version != SCHEMA_VERSION || |payload.ids| != |payload.corpus| { return false; }
      Build(payload.ids, payload.corpus, payload.metadatas);
      loaded := true;
    }
  }

  predicate Loadable(p: Payload) {
    p.Payload? && p.version == SCHEMA_VERSION && |p.ids| == |p.corpus|
  }

  function Saved(index: Option<Snapshot>): Payload {
    if index == None then Payload(SCHEMA_VERSION, [], [], [])
    else Payload(SCHEMA_VERSION, index.value.ids, index.value.corpus, index.value.metadatas)
  }

  function LoadedFrom(p: Payload): Snapshot
    requires Loadable(p)
  {
    Built(p.ids, p.corpus, p.metadatas)
  }

  /** Saving and loading gives back an index that answers every search as before; an index that was
      built is given back as it was. */
  lemma SaveThenLoad(index: Option<Snapshot>)
    requires index.Some? ==> Consistent(index.value)
    ensures Loadable(Saved(index)) && Consistent(LoadedFrom(Saved(index)))
    ensures index.Some? ==> LoadedFrom(Saved(index)) == index.value
    ensures forall score, query, k, accept | ScoresEach(score) ::
      SearchResult(Some(LoadedFrom(Saved(index))), score, query, k, accept) == SearchResult(index, score, query, k, accept)
  {
    if index.Some? && index.value.metadatas == [] {
      assert NoMetadata(index.value.corpus) == index.value.metadatas;
    }
  }

  /** A rebuild from the store's contents keeps every chunk, so a search sees all of them and only them. */
  lemma RebuiltIndexIsTheStore(ids: seq<string>, documents: seq<string>, metadatas: seq<Metadata>, score: Scorer, query: string, accept: Metadata -> bool)
    requires |ids| == |documents| == |metadatas| && ScoresEach(score)
    ensures
      var s := Built(ids, documents, metadatas);
      var scores := score(documents, query);
      && Consistent(s)
      && forall i: nat | i < |ids| && scores[i] > 0.0 && accept(metadatas[i]) ::
           Hit(ids[i], documents[i], metadatas[i], scores[i]) in SearchResult(Some(s), score, query, |ids|, accept)
  {
    var s := Built(ids, documents, metadatas);
    var scores := score(documents, query);
    if documents == [] { return; }
    assert s.metadatas == metadatas;
    var hits := SearchResult(Some(s), score, query, |ids|, accept);
    var kept := Kept(s, scores, accept, |ids|);
    var candidates := Candidates(s, scores, accept, |ids|);
    CandidatesAreTheMatches(s, scores, accept, |ids|);
    TopKIsBest(candidates, |ids|);
    forall i: nat | i < |ids| && scores[i] > 0.0 && accept(metadatas[i])
      ensures Hit(ids[i], documents[i], metadatas[i], scores[i]) in hits
    {
      assert Matches(s, scores, accept, i);
      assert Entry(i, scores[i]) in kept;
      var j :| 0 <= j < |kept| && kept[j] == Entry(i, scores[i]);
      assert hits[j] == HitAt(s, scores, i);
    }
  }
}
