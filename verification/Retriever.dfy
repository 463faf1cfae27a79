/** Hybrid retrieval: both channels with their fallbacks, and their fusion by reciprocal rank. */
module Retriever {
  import opened Wrappers
  import opened Lists
  import opened Ranking
  import opened Filters
  import opened Bm25

  const RRF_K := 60

  /** A fused hit, with what each channel had scored it. */
  datatype Fused = Fused(hit: Hit, raw: map<string, real>)

  function Ids(hits: seq<Hit>): seq<string> {
    seq(|hits|, i requires 0 <= i < |hits| => hits[i].id)
  }

  function Share(weight: real, rank: nat): real {
    weight / (RRF_K + rank + 1) as real
  }

  /** What the first `n` places of a ranking contribute to an id. */
  function Rrf(hits: seq<Hit>, weight: real, n: nat, id: string): real
    requires n <= |hits|
  {
    if n == 0 then 0.0
    else Rrf(hits, weight, n - 1, id) + if hits[n - 1].id == id then Share(weight, n - 1) else 0.0
  }

  function FusedScore(vector: seq<Hit>, bm25: seq<Hit>, vw: real, bw: real, id: string): real {
    Rrf(vector, vw, |vector|, id) + Rrf(bm25, bw, |bm25|, id)
  }

  /** The ids of both rankings, each once, in order of first appearance. */
  function Union(vector: seq<Hit>, bm25: seq<Hit>): seq<string> {
    Dedup(Ids(vector) + Ids(bm25))
  }

  function Entries(vector: seq<Hit>, bm25: seq<Hit>, vw: real, bw: real): seq<Entry> {
    var ids := Union(vector, bm25);
    seq(|ids|, i requires 0 <= i < |ids| => Entry(i, FusedScore(vector, bm25, vw, bw, ids[i])))
  }

  /** The last of the first `n` hits with this id. */
  function LastOf(hits: seq<Hit>, n: nat, id: string): Option<Hit>
    requires n <= |hits|
  {
    if n == 0 then None
    else if hits[n - 1].id == id then Some(hits[n - 1])
    else LastOf(hits, n - 1, id)
  }

  /** The first of the first `n` hits with this id. */
  function FirstOf(hits: seq<Hit>, n: nat, id: string): Option<Hit>
    requires n <= |hits|
  {
    if n == 0 then None
    else if FirstOf(hits, n - 1, id).Some? then FirstOf(hits, n - 1, id)
    else if hits[n - 1].id == id then Some(hits[n - 1])
    else None
  }

  /** The hit that stands for an id: the vector channel's before the keyword channel's. */
  function Representative(vector: seq<Hit>, bm25: seq<Hit>, id: string): Option<Hit> {
    if LastOf(vector, |vector|, id).Some? then LastOf(vector, |vector|, id) else FirstOf(bm25, |bm25|, id)
  }

  function Channel(hits: seq<Hit>, n: nat, name: string, id: string): map<string, real>
    requires n <= |hits|
  {
    var hit := LastOf(hits, n, id);
    if hit.Some? then map[name := hit.value.score] else map[]
  }

  function FusedHit(vector: seq<Hit>, bm25: seq<Hit>, vw: real, bw: real, id: string): Option<Fused> {
    var hit := Representative(vector, bm25, id);
    if hit == None then None
    else Some(Fused(hit.value.(score := FusedScore(vector, bm25, vw, bw, id)),
                    Channel(vector, |vector|, "vector", id) + Channel(bm25, |bm25|, "bm25", id)))
  }

  predicate IsFusion(vector: seq<Hit>, bm25: seq<Hit>, k: nat, vw: real, bw: real, r: seq<Fused>) {
    var ids, kept := Union(vector, bm25), TopK(Entries(vector, bm25, vw, bw), k);
    && |r| == |kept|
    && forall i | 0 <= i < |r| ::
         kept[i].pos < |ids| && Some(r[i]) == FusedHit(vector, bm25, vw, bw, ids[kept[i].pos])
  }

  lemma {:induction false} LastOfIsAHit(hits: seq<Hit>, n: nat, id: string)
    requires n <= |hits|
    ensures LastOf(hits, n, id).Some? <==> id in Ids(hits[..n])
    ensures LastOf(hits, n, id).Some? ==> LastOf(hits, n, id).value in hits && LastOf(hits, n, id).value.id == id
  {
    if n > 0 {
      LastOfIsAHit(hits, n - 1, id);
      IdsSnoc(hits, n - 1);
    }
  }

  lemma {:induction false} FirstOfIsAHit(hits: seq<Hit>, n: nat, id: string)
    requires n <= |hits|
    ensures FirstOf(hits, n, id).Some? <==> id in Ids(hits[..n])
    ensures FirstOf(hits, n, id).Some? ==> FirstOf(hits, n, id).value in hits && FirstOf(hits, n, id).value.id == id
  {
    if n > 0 {
      FirstOfIsAHit(hits, n - 1, id);
      IdsSnoc(hits, n - 1);
    }
  }

  lemma IdsSnoc(hits: seq<Hit>, n: nat)
    requires n < |hits|
    ensures Ids(hits[..n + 1]) == Ids(hits[..n]) + [hits[n].id]
  {
  }

  lemma {:induction false} AbsentScoresNothing(hits: seq<Hit>, weight: real, n: nat, id: string)
    requires n <= |hits| && id !in Ids(hits[..n])
    ensures Rrf(hits, weight, n, id) == 0.0 && LastOf(hits, n, id) == None && FirstOf(hits, n, id) == None
  {
    if n > 0 {
      IdsSnoc(hits, n - 1);
      AbsentScoresNothing(hits, weight, n - 1, id);
      assert Ids(hits[..n])[n - 1] == hits[n - 1].id;
    }
  }

  // ---- The fusion loop ----

  /** What the dictionaries hold for an id after the first `v` vector hits and `b` keyword hits. */
  predicate Entered(vector: seq<Hit>, bm25: seq<Hit>, vw: real, bw: real, v: nat, b: nat,
                    id: string, score: real, doc: Hit, raw: map<string, real>)
    requires v <= |vector| && b <= |bm25|
  {
    && score == Rrf(vector, vw, v, id) + Rrf(bm25, bw, b, id)
    && Some(doc) == (if LastOf(vector, v, id).Some? then LastOf(vector, v, id) else FirstOf(bm25, b, id))
    && raw == Channel(vector, v, "vector", id) + Channel(bm25, b, "bm25", id)
  }

  /** The insertion-ordered dictionaries of the fusion. */
  datatype Tables = Tables(
    order: seq<string>, scores: map<string, real>, docs: map<string, Hit>, raw: map<string, map<string, real>>)

  /** The ids met so far. */
  function Seen(vector: seq<Hit>, bm25: seq<Hit>, v: nat, b: nat): seq<string>
    requires v <= |vector| && b <= |bm25|
  {
    Ids(vector[..v]) + Ids(bm25[..b])
  }

  lemma SeenOneMore(vector: seq<Hit>, bm25: seq<Hit>, n: nat)
    ensures n < |vector| ==> Seen(vector, bm25, n + 1, 0) == Seen(vector, bm25, n, 0) + [vector[n].id]
    ensures n < |vector| ==> Seen(vector, bm25, n, 0) == Ids(vector[..n])
    ensures n < |bm25| ==> Seen(vector, bm25, |vector|, n + 1) == Seen(vector, bm25, |vector|, n) + [bm25[n].id]
    ensures n <= |bm25| ==> Seen(vector, bm25, |vector|, n) == Ids(vector) + Ids(bm25[..n])
  {
    assert vector[..|vector|] == vector;
  }

  predicate SameKeys(t: Tables) {
    t.scores.Keys == t.docs.Keys == t.raw.Keys == (set id | id in t.order)
  }

  predicate Recorded(vector: seq<Hit>, bm25: seq<Hit>, vw: real, bw: real, v: nat, b: nat, t: Tables, id: string)
    requires v <= |vector| && b <= |bm25|
  {
    && id in t.scores && id in t.docs && id in t.raw
    && Entered(vector, bm25, vw, bw, v, b, id, t.scores[id], t.docs[id], t.raw[id])
  }

  predicate Accumulated(vector: seq<Hit>, bm25: seq<Hit>, vw: real, bw: real, v: nat, b: nat, t: Tables)
    requires v <= |vector| && b <= |bm25|
  {
    && t.order == Dedup(Seen(vector, bm25, v, b))
    && SameKeys(t)
    && forall id <- t.scores :: Recorded(vector, bm25, vw, bw, v, b, t, id)
  }

  /** Adds a share to the item's score; its hit replaces the stored one if `replace`, or if there is none. */
  function Add(t: Tables, item: Hit, share: real, replace: bool, channel: string): Tables {
    Tables(
      if item.id in t.scores then t.order else t.order + [item.id],
      t.scores[item.id := (if item.id in t.scores then t.scores[item.id] else 0.0) + share],
      if replace || item.id !in t.docs then t.docs[item.id := item] else t.docs,
      t.raw[item.id := (if item.id in t.raw then t.raw[item.id] else map[])[channel := item.score]])
  }

  lemma EnterVectorHit(vector: seq<Hit>, bm25: seq<Hit>, vw: real, bw: real, v: nat, id: string)
    requires v < |vector| && id == vector[v].id
    ensures id !in Ids(vector[..v]) ==> Rrf(vector, vw, v, id) == 0.0 && LastOf(vector, v, id) == None
    ensures Entered(vector, bm25, vw, bw, v + 1, 0, id, Rrf(vector, vw, v, id) + Share(vw, v), vector[v],
                    Channel(vector, v, "vector", id)["vector" := vector[v].score])
  {
    if id !in Ids(vector[..v]) { AbsentScoresNothing(vector, vw, v, id); }
  }

  lemma EnterBm25Hit(vector: seq<Hit>, bm25: seq<Hit>, vw: real, bw: real, b: nat, id: string)
    requires b < |bm25| && id == bm25[b].id
    ensures id !in Ids(vector) + Ids(bm25[..b]) ==>
      Entered(vector, bm25, vw, bw, |vector|, b + 1, id, Share(bw, b), bm25[b], map["bm25" := bm25[b].score])
    ensures forall score, doc, raw | Entered(vector, bm25, vw, bw, |vector|, b, id, score, doc, raw) ::
      Entered(vector, bm25, vw, bw, |vector|, b + 1, id, score + Share(bw, b), doc, raw["bm25" := bm25[b].score])
  {
    assert vector[..|vector|] == vector;
    if id !in Ids(vector) + Ids(bm25[..b]) {
      AbsentScoresNothing(vector, vw, |vector|, id);
      AbsentScoresNothing(bm25, bw, b, id);
    }
  }

  lemma AddKeepsKeys(t: Tables, seen: seq<string>, item: Hit, share: real, replace: bool, channel: string)
    requires t.order == Dedup(seen) && SameKeys(t)
    ensures SameKeys(Add(t, item, share, replace, channel))
    ensures Add(t, item, share, replace, channel).order == Dedup(seen + [item.id])
    ensures item.id in t.scores <==> item.id in seen
  {
    DedupSnoc(seen, item.id);
    DedupMember(seen, item.id);
  }

  lemma AddVectorRecords(vector: seq<Hit>, bm25: seq<Hit>, vw: real, bw: real, v: nat, t: Tables, id: string)
    requires v < |vector| && SameKeys(t)
    requires id in t.scores ==> Recorded(vector, bm25, vw, bw, v, 0, t, id)
    requires id in t.scores || (id == vector[v].id && id !in Ids(vector[..v]))
    ensures Recorded(vector, bm25, vw, bw, v + 1, 0, Add(t, vector[v], Share(vw, v), true, "vector"), id)
  {
    if id == vector[v].id { EnterVectorHit(vector, bm25, vw, bw, v, id); }
  }

  lemma AddVectorHit(vector: seq<Hit>, bm25: seq<Hit>, vw: real, bw: real, v: nat, t: Tables)
    requires v < |vector| && Accumulated(vector, bm25, vw, bw, v, 0, t)
    ensures Accumulated(vector, bm25, vw, bw, v + 1, 0, Add(t, vector[v], Share(vw, v), true, "vector"))
  {
    AddKeepsKeys(t, Seen(vector, bm25, v, 0), vector[v], Share(vw, v), true, "vector");
    SeenOneMore(vector, bm25, v);
    var t' := Add(t, vector[v], Share(vw, v), true, "vector");
    forall id | id in t'.scores ensures Recorded(vector, bm25, vw, bw, v + 1, 0, t', id) {
      AddVectorRecords(vector, bm25, vw, bw, v, t, id);
    }
  }

  lemma AddBm25Records(vector: seq<Hit>, bm25: seq<Hit>, vw: real, bw: real, b: nat, t: Tables, id: string)
    requires b < |bm25| && SameKeys(t)
    requires id in t.scores ==> Recorded(vector, bm25, vw, bw, |vector|, b, t, id)
    requires id in t.scores || (id == bm25[b].id && id !in Ids(vector) + Ids(bm25[..b]))
    ensures Recorded(vector, bm25, vw, bw, |vector|, b + 1, Add(t, bm25[b], Share(bw, b), false, "bm25"), id)
  {
    if id == bm25[b].id { EnterBm25Hit(vector, bm25, vw, bw, b, id); }
  }

  lemma AddBm25Hit(vector: seq<Hit>, bm25: seq<Hit>, vw: real, bw: real, b: nat, t: Tables)
    requires b < |bm25| && Accumulated(vector, bm25, vw, bw, |vector|, b, t)
    ensures Accumulated(vector, bm25, vw, bw, |vector|, b + 1, Add(t, bm25[b], Share(bw, b), false, "bm25"))
  {
    AddKeepsKeys(t, Seen(vector, bm25, |vector|, b), bm25[b], Share(bw, b), false, "bm25");
    SeenOneMore(vector, bm25, b);
    var t' := Add(t, bm25[b], Share(bw, b), false, "bm25");
    forall id | id in t'.scores ensures Recorded(vector, bm25, vw, bw, |vector|, b + 1, t', id) {
      AddBm25Records(vector, bm25, vw, bw, b, t, id);
    }
  }

  /** Reciprocal rank fusion over insertion-ordered dictionaries. */
  method RrfFuse(vector: seq<Hit>, bm25: seq<Hit>, k: nat, vw: real, bw: real) returns (r: seq<Fused>)
    ensures IsFusion(vector, bm25, k, vw, bw, r)
  {
    var t := Tables([], map[], map[], map[]);
    for rank := 0 to |vector|
      invariant Accumulated(vector, bm25, vw, bw, rank, 0, t)
    {
      AddVectorHit(vector, bm25, vw, bw, rank, t);
      t := Add(t, vector[rank], vw / (RRF_K + rank + 1) as real, true, "vector");
    }
    for rank := 0 to |bm25|
      invariant Accumulated(vector, bm25, vw, bw, |vector|, rank, t)
    {
      AddBm25Hit(vector, bm25, vw, bw, rank, t);
      t := Add(t, bm25[rank], bw / (RRF_K + rank + 1) as real, false, "bm25");
    }
    r := Ranked(vector, bm25, k, vw, bw, t);
  }

  /** The tables' ids by falling score, the first k of them. */
  method Ranked(vector: seq<Hit>, bm25: seq<Hit>, k: nat, vw: real, bw: real, t: Tables) returns (r: seq<Fused>)
    requires Accumulated(vector, bm25, vw, bw, |vector|, |bm25|, t)
    ensures IsFusion(vector, bm25, k, vw, bw, r)
  {
    TablesComplete(vector, bm25, vw, bw, t);
    var entries := seq(|t.order|, i requires 0 <= i < |t.order| && t.order[i] in t.scores => Entry(i, t.scores[t.order[i]]));
    TablesRank(vector, bm25, vw, bw, t, entries);
    TopIsInRange(entries, k);
    r := Picked(t, TopK(entries, k));
    PickedAreFused(vector, bm25, vw, bw, t, TopK(entries, k), r);
  }

  /** The results of the ranked entries, read off the tables. */
  method Picked(t: Tables, top: seq<Entry>) returns (r: seq<Fused>)
    requires SameKeys(t) && forall i | 0 <= i < |top| :: top[i].pos < |t.order|
    ensures |r| == |top| && forall i | 0 <= i < |r| :: FromTables(t, top[i], r[i])
  {
    r := [];
    for i := 0 to |top|
      invariant |r| == i
      invariant forall j | 0 <= j < i :: FromTables(t, top[j], r[j])
    {
      var id := t.order[top[i].pos];
      assert id in t.order;
      r := r + [Fused(t.docs[id].(score := t.scores[id]), t.raw[id])];
    }
  }

  lemma PickedAreFused(vector: seq<Hit>, bm25: seq<Hit>, vw: real, bw: real, t: Tables, top: seq<Entry>, r: seq<Fused>)
    requires Accumulated(vector, bm25, vw, bw, |vector|, |bm25|, t)
    requires |r| == |top| && forall i | 0 <= i < |r| :: FromTables(t, top[i], r[i])
    ensures t.order == Union(vector, bm25)
    ensures forall i | 0 <= i < |r| ::
      top[i].pos < |t.order| && Some(r[i]) == FusedHit(vector, bm25, vw, bw, t.order[top[i].pos])
  {
    TablesComplete(vector, bm25, vw, bw, t);
    forall i | 0 <= i < |r|
      ensures top[i].pos < |t.order| && Some(r[i]) == FusedHit(vector, bm25, vw, bw, t.order[top[i].pos])
    {
      assert FromTables(t, top[i], r[i]);
      TablesFuse(vector, bm25, vw, bw, t, t.order[top[i].pos]);
    }
  }

  /** The result read off the tables for one ranked entry. */
  predicate FromTables(t: Tables, e: Entry, f: Fused) {
    && e.pos < |t.order|
    && var id := t.order[e.pos];
    && id in t.docs && id in t.scores && id in t.raw
    && f == Fused(t.docs[id].(score := t.scores[id]), t.raw[id])
  }

  lemma TopIsInRange(entries: seq<Entry>, k: nat)
    requires forall i | 0 <= i < |entries| :: entries[i].pos == i
    ensures forall i | 0 <= i < |TopK(entries, k)| :: TopK(entries, k)[i].pos < |entries|
  {
    TopKIsBest(entries, k);
    forall i | 0 <= i < |TopK(entries, k)| ensures TopK(entries, k)[i].pos < |entries| {
      assert TopK(entries, k)[i] in entries;
    }
  }

  lemma TablesComplete(vector: seq<Hit>, bm25: seq<Hit>, vw: real, bw: real, t: Tables)
    requires Accumulated(vector, bm25, vw, bw, |vector|, |bm25|, t)
    ensures t.order == Union(vector, bm25)
    ensures forall i | 0 <= i < |t.order| :: t.order[i] in t.scores
  {
    SeenOneMore(vector, bm25, |bm25|);
    assert bm25[..|bm25|] == bm25;
  }

  lemma TablesRank(vector: seq<Hit>, bm25: seq<Hit>, vw: real, bw: real, t: Tables, entries: seq<Entry>)
    requires Accumulated(vector, bm25, vw, bw, |vector|, |bm25|, t)
    requires |entries| == |t.order|
    requires forall i | 0 <= i < |entries| :: t.order[i] in t.scores && entries[i] == Entry(i, t.scores[t.order[i]])
    ensures entries == Entries(vector, bm25, vw, bw)
  {
    TablesComplete(vector, bm25, vw, bw, t);
    forall i | 0 <= i < |entries| ensures entries[i] == Entries(vector, bm25, vw, bw)[i] {
      assert Recorded(vector, bm25, vw, bw, |vector|, |bm25|, t, t.order[i]);
    }
  }

  lemma TablesFuse(vector: seq<Hit>, bm25: seq<Hit>, vw: real, bw: real, t: Tables, id: string)
    requires Accumulated(vector, bm25, vw, bw, |vector|, |bm25|, t) && id in t.scores
    ensures id in t.docs && id in t.raw
    ensures FusedHit(vector, bm25, vw, bw, id) == Some(Fused(t.docs[id].(score := t.scores[id]), t.raw[id]))
  {
    assert Recorded(vector, bm25, vw, bw, |vector|, |bm25|, t, id);
  }

  // ---- What fusion promises ----

  predicate IsKept(r: seq<Fused>, id: string) {
    exists i | 0 <= i < |r| :: r[i].hit.id == id
  }

  /** Kept entry `i` of a fusion is the hit of the id it names, under that id's summed score. */
  lemma FusedAt(vector: seq<Hit>, bm25: seq<Hit>, k: nat, vw: real, bw: real, r: seq<Fused>, i: nat)
    requires IsFusion(vector, bm25, k, vw, bw, r) && i < |r|
    ensures
      var e, ids := TopK(Entries(vector, bm25, vw, bw), k)[i], Union(vector, bm25);
      && e.pos < |ids| && r[i].hit.id == ids[e.pos]
      && e == Entries(vector, bm25, vw, bw)[e.pos]
      && r[i].hit.score == e.score == FusedScore(vector, bm25, vw, bw, r[i].hit.id)
    ensures exists h <- vector + bm25 :: h.(score := r[i].hit.score) == r[i].hit
  {
    var entries := Entries(vector, bm25, vw, bw);
    TopKIsBest(entries, k);
    var e := TopK(entries, k)[i];
    assert e in entries;
    var id := Union(vector, bm25)[e.pos];
    LastOfIsAHit(vector, |vector|, id);
    FirstOfIsAHit(bm25, |bm25|, id);
    var h := Representative(vector, bm25, id).value;
    assert h in vector + bm25 && h.(score := r[i].hit.score) == r[i].hit;
  }

  /** `a` appears before `b` in the two rankings read one after the other, the vector ranking first. */
  predicate SeenBefore(vector: seq<Hit>, bm25: seq<Hit>, a: string, b: string) {
    var all := Ids(vector) + Ids(bm25);
    a in all && b in all && FirstIndex(all, a) < FirstIndex(all, b)
  }

  /** Fusion is the stable top k of the union by summed reciprocal rank: every id once, scores falling and
      ties in order of first appearance, as many as asked for or all there are; what is left out scores no
      more than anything kept, and where it scores the same it appears later. */
  lemma FusionIsStableTopK(vector: seq<Hit>, bm25: seq<Hit>, k: nat, vw: real, bw: real, r: seq<Fused>)
    requires IsFusion(vector, bm25, k, vw, bw, r)
    ensures |r| == if k <= |Union(vector, bm25)| then k else |Union(vector, bm25)|
    ensures forall i, j | 0 <= i < j < |r| :: r[i].hit.id != r[j].hit.id && r[i].hit.score >= r[j].hit.score
    ensures forall i, j | 0 <= i < j < |r| && r[i].hit.score == r[j].hit.score ::
      SeenBefore(vector, bm25, r[i].hit.id, r[j].hit.id)
    ensures forall id <- Union(vector, bm25), f <- r :: !IsKept(r, id) ==>
      && FusedScore(vector, bm25, vw, bw, id) <= f.hit.score
      && (FusedScore(vector, bm25, vw, bw, id) == f.hit.score ==> SeenBefore(vector, bm25, f.hit.id, id))
  {
    var ids := Union(vector, bm25);
    var top := TopK(Entries(vector, bm25, vw, bw), k);
    TopKIsBest(Entries(vector, bm25, vw, bw), k);
    forall i, j | 0 <= i < j < |r|
      ensures r[i].hit.id != r[j].hit.id && r[i].hit.score >= r[j].hit.score
      ensures r[i].hit.score == r[j].hit.score ==> SeenBefore(vector, bm25, r[i].hit.id, r[j].hit.id)
    {
      FusedAt(vector, bm25, k, vw, bw, r, i);
      FusedAt(vector, bm25, k, vw, bw, r, j);
      assert Ahead(top[i], top[j]);
      AheadIsSeenBefore(vector, bm25, top[i].pos, top[j].pos);
    }
    forall id, f | id in ids && f in r && !IsKept(r, id)
      ensures FusedScore(vector, bm25, vw, bw, id) <= f.hit.score
      ensures FusedScore(vector, bm25, vw, bw, id) == f.hit.score ==> SeenBefore(vector, bm25, f.hit.id, id)
    {
      var p: nat :| p < |ids| && ids[p] == id;
      var i: nat :| i < |r| && r[i] == f;
      LeftOutIsBehind(vector, bm25, k, vw, bw, r, p, i);
    }
  }

  /** Places in the union are in order of first appearance, and an id has one place only. */
  lemma AheadIsSeenBefore(vector: seq<Hit>, bm25: seq<Hit>, p: nat, q: nat)
    requires p < |Union(vector, bm25)| && q < |Union(vector, bm25)|
    ensures p < q ==> SeenBefore(vector, bm25, Union(vector, bm25)[p], Union(vector, bm25)[q])
    ensures p != q ==> Union(vector, bm25)[p] != Union(vector, bm25)[q]
  {
    var ids := Union(vector, bm25);
    DedupKeepsFirsts(Ids(vector) + Ids(bm25));
    assert ids[p] in ids && ids[q] in ids;
  }

  lemma LeftOutIsBehind(vector: seq<Hit>, bm25: seq<Hit>, k: nat, vw: real, bw: real, r: seq<Fused>, p: nat, i: nat)
    requires IsFusion(vector, bm25, k, vw, bw, r) && i < |r|
    requires p < |Union(vector, bm25)| && !IsKept(r, Union(vector, bm25)[p])
    ensures
      var id := Union(vector, bm25)[p];
      && r[i].hit.score >= FusedScore(vector, bm25, vw, bw, id)
      && (r[i].hit.score == FusedScore(vector, bm25, vw, bw, id) ==> SeenBefore(vector, bm25, r[i].hit.id, id))
  {
    var entries := Entries(vector, bm25, vw, bw);
    var top := TopK(entries, k);
    TopKIsBest(entries, k);
    FusedAt(vector, bm25, k, vw, bw, r, i);
    var e := entries[p];
    if e in top {
      var q: nat :| q < |top| && top[q] == e;
      FusedAt(vector, bm25, k, vw, bw, r, q);
    } else {
      assert e in entries && top[i] in top;
      assert Ahead(top[i], e);
      AheadIsSeenBefore(vector, bm25, top[i].pos, p);
    }
  }

  /** In a ranking without repeats an id contributes once, by its rank. */
  lemma {:induction false} RrfOfDistinct(hits: seq<Hit>, weight: real, n: nat, p: nat)
    requires n <= |hits| && Distinct(Ids(hits)) && p < |hits|
    ensures Rrf(hits, weight, n, hits[p].id) == if p < n then Share(weight, p) else 0.0
  {
    if n > 0 {
      RrfOfDistinct(hits, weight, n - 1, p);
      assert Ids(hits)[n - 1] == hits[n - 1].id && Ids(hits)[p] == hits[p].id;
    }
  }

  lemma {:induction false} HitOfDistinct(hits: seq<Hit>, n: nat, p: nat)
    requires n <= |hits| && Distinct(Ids(hits)) && p < n
    ensures LastOf(hits, n, hits[p].id) == FirstOf(hits, n, hits[p].id) == Some(hits[p])
  {
    assert Ids(hits)[p] == hits[p].id && Ids(hits)[n - 1] == hits[n - 1].id;
    if p < n - 1 {
      HitOfDistinct(hits, n - 1, p);
    } else {
      assert Ids(hits[..n - 1]) == Ids(hits)[..n - 1];
      AbsentScoresNothing(hits, 0.0, n - 1, hits[p].id);
    }
  }

  /** The id's place in the ranking, if it has one. */
  predicate IsPlace(hits: seq<Hit>, id: string, place: Option<nat>) {
    match place
    case None => forall i | 0 <= i < |hits| :: hits[i].id != id
    case Some(p) => p < |hits| && hits[p].id == id
  }

  lemma RankingGives(hits: seq<Hit>, weight: real, name: string, id: string, place: Option<nat>)
    requires Distinct(Ids(hits)) && IsPlace(hits, id, place)
    ensures Rrf(hits, weight, |hits|, id) == if place.Some? then weight / (60 + place.value + 1) as real else 0.0
    ensures LastOf(hits, |hits|, id) == FirstOf(hits, |hits|, id) == if place.Some? then Some(hits[place.value]) else None
    ensures Channel(hits, |hits|, name, id) == if place.Some? then map[name := hits[place.value].score] else map[]
  {
    assert hits[..|hits|] == hits;
    match place
    case None => AbsentScoresNothing(hits, weight, |hits|, id);
    case Some(p) =>
      RrfOfDistinct(hits, weight, |hits|, p);
      HitOfDistinct(hits, |hits|, p);
  }

  /** A fused result in terms of the two rankings: the vector channel's hit before the keyword channel's, scored by
      its weight over 60 plus its rank in each, with both channels' own scores beside it. */
  lemma FusedResultIs(vector: seq<Hit>, bm25: seq<Hit>, k: nat, vw: real, bw: real, r: seq<Fused>, i: nat,
                      v: Option<nat>, b: Option<nat>)
    requires IsFusion(vector, bm25, k, vw, bw, r) && i < |r| && Distinct(Ids(vector)) && Distinct(Ids(bm25))
    requires IsPlace(vector, r[i].hit.id, v) && IsPlace(bm25, r[i].hit.id, b)
    ensures v.Some? || b.Some?
    ensures r[i].hit.score == (if v.Some? then vw / (60 + v.value + 1) as real else 0.0)
                            + (if b.Some? then bw / (60 + b.value + 1) as real else 0.0)
    ensures r[i].hit == (if v.Some? then vector[v.value] else bm25[b.value]).(score := r[i].hit.score)
    ensures r[i].raw == (if v.Some? then map["vector" := vector[v.value].score] else map[])
                      + (if b.Some? then map["bm25" := bm25[b.value].score] else map[])
  {
    FusedAt(vector, bm25, k, vw, bw, r, i);
    RankingGives(vector, vw, "vector", r[i].hit.id, v);
    RankingGives(bm25, bw, "bm25", r[i].hit.id, b);
  }

  lemma SharesFall(weight: real, p: nat, q: nat)
    requires weight >= 0.0 && p <= q
    ensures 0.0 <= Share(weight, q) <= Share(weight, p)
    ensures weight > 0.0 && p < q ==> Share(weight, q) < Share(weight, p)
  {
    var a, b := (RRF_K + p + 1) as real, (RRF_K + q + 1) as real;
    ShareTimes(weight, p);
    ShareTimes(weight, q);
  }

  lemma ShareTimes(weight: real, p: nat)
    requires weight >= 0.0
    ensures Share(weight, p) * (RRF_K + p + 1) as real == weight && Share(weight, p) >= 0.0
  {
  }

  /** What a ranking without repeats contributes to an id, wherever or whether it has it. */
  lemma RrfIsBounded(hits: seq<Hit>, weight: real, id: string)
    requires weight >= 0.0 && Distinct(Ids(hits))
    ensures 0.0 <= Rrf(hits, weight, |hits|, id) <= Share(weight, 0)
  {
    SharesFall(weight, 0, 0);
    if id in Ids(hits) {
      var p: nat :| p < |hits| && Ids(hits)[p] == id;
      RrfOfDistinct(hits, weight, |hits|, p);
      SharesFall(weight, 0, p);
    } else {
      assert hits[..|hits|] == hits;
      AbsentScoresNothing(hits, weight, |hits|, id);
    }
  }

  /** No fused score exceeds the two weights over k + 1, the score of an id first in both rankings. */
  lemma FusedScoreIsBounded(vector: seq<Hit>, bm25: seq<Hit>, vw: real, bw: real, id: string)
    requires vw >= 0.0 && bw >= 0.0 && Distinct(Ids(vector)) && Distinct(Ids(bm25))
    ensures 0.0 <= FusedScore(vector, bm25, vw, bw, id) <= (vw + bw) / (RRF_K + 1) as real
  {
    RrfIsBounded(vector, vw, id);
    RrfIsBounded(bm25, bw, id);
    assert Share(vw, 0) + Share(bw, 0) == (vw + bw) / (RRF_K + 1) as real;
  }

  /** An id that both rankings put ahead of another stays ahead of it: it scores more, so whenever the
      other is kept it is kept too, in a better place. */
  lemma AheadInBothStaysAhead(vector: seq<Hit>, bm25: seq<Hit>, k: nat, vw: real, bw: real, r: seq<Fused>,
                              va: nat, vb: nat, ba: nat, bb: nat, j: nat)
    requires vw > 0.0 && bw > 0.0 && Distinct(Ids(vector)) && Distinct(Ids(bm25))
    requires va < vb < |vector| && ba < bb < |bm25|
    requires vector[va].id == bm25[ba].id && vector[vb].id == bm25[bb].id
    requires IsFusion(vector, bm25, k, vw, bw, r) && j < |r| && r[j].hit.id == vector[vb].id
    ensures exists i: nat :: i < j && r[i].hit.id == vector[va].id && r[i].hit.score > r[j].hit.score
  {
    AheadScoresMore(vector, vw, va, vb);
    AheadScoresMore(bm25, bw, ba, bb);
    FusedAt(vector, bm25, k, vw, bw, r, j);
    assert Ids(vector)[va] == vector[va].id;
    BetterIsKeptFirst(vector, bm25, k, vw, bw, r, vector[va].id, j);
  }

  lemma AheadScoresMore(hits: seq<Hit>, weight: real, a: nat, b: nat)
    requires weight > 0.0 && Distinct(Ids(hits)) && a < b < |hits|
    ensures Rrf(hits, weight, |hits|, hits[a].id) > Rrf(hits, weight, |hits|, hits[b].id)
  {
    RrfOfDistinct(hits, weight, |hits|, a);
    RrfOfDistinct(hits, weight, |hits|, b);
    SharesFall(weight, a, b);
  }

  lemma BetterIsKept(vector: seq<Hit>, bm25: seq<Hit>, k: nat, vw: real, bw: real, r: seq<Fused>, a: string, j: nat)
    requires IsFusion(vector, bm25, k, vw, bw, r) && j < |r|
    requires a in Ids(vector) && FusedScore(vector, bm25, vw, bw, a) > r[j].hit.score
    ensures IsKept(r, a)
    ensures forall i, i' | 0 <= i < i' < |r| :: r[i].hit.score >= r[i'].hit.score
  {
    DedupMember(Ids(vector) + Ids(bm25), a);
    FusionIsStableTopK(vector, bm25, k, vw, bw, r);
    assert a in Union(vector, bm25) && r[j] in r;
  }

  lemma BetterIsKeptFirst(vector: seq<Hit>, bm25: seq<Hit>, k: nat, vw: real, bw: real, r: seq<Fused>, a: string, j: nat)
    requires IsFusion(vector, bm25, k, vw, bw, r) && j < |r|
    requires a in Ids(vector) && FusedScore(vector, bm25, vw, bw, a) > r[j].hit.score
    ensures exists i: nat :: i < j && r[i].hit.id == a && r[i].hit.score > r[j].hit.score
  {
    BetterIsKept(vector, bm25, k, vw, bw, r, a, j);
    var i: nat :| i < |r| && r[i].hit.id == a;
    FusedAt(vector, bm25, k, vw, bw, r, i);
  }

  // ---- Retrieval with its fallbacks ----

  /** The vector store: None when it fails, otherwise at most `n` hits, all accepted by the clause. */
  type VectorQuery = (nat, Option<Clause>) -> Option<seq<Hit>>

  ghost predicate AnswersQueries(query: VectorQuery) {
    forall n, where :: query(n, where).Some? ==>
      |query(n, where).value| <= n
      && forall h <- query(n, where).value :: where.Some? ==> Accepts(where.value, h.metadata)
  }

  predicate AllMatch(filters: Option<RetrievalFilters>, hits: seq<Hit>) {
    filters.Some? ==> forall h <- hits :: MatchesMetadata(filters.value, h.metadata)
  }

  function Unfused(hits: seq<Hit>): seq<Fused> {
    seq(|hits|, i requires 0 <= i < |hits| => Fused(hits[i], map[]))
  }

  function HitsOf(r: seq<Fused>): seq<Hit> {
    seq(|r|, i requires 0 <= i < |r| => r[i].hit)
  }

  /** The clause, if any, accepts exactly the metadata that the filters accept. */
  ghost predicate SaysTheSame(filters: Option<RetrievalFilters>, where: Option<Clause>) {
    forall m :: (filters.Some? ==> MatchesMetadata(filters.value, m)) <==> (where.Some? ==> Accepts(where.value, m))
  }

  /** What the in-memory filter lets through. */
  function Accepting(filters: Option<RetrievalFilters>): Metadata -> bool {
    if filters.Some? && !IsEmpty(filters.value) then m => MatchesMetadata(filters.value, m) else m => true
  }

  lemma AcceptsWhatMatches(filters: Option<RetrievalFilters>, m: Metadata)
    ensures Accepting(filters)(m) <==> (filters.Some? ==> MatchesMetadata(filters.value, m))
  {
  }

  /** The vector store's own answer, asked for `topK` hits with a clause that says the same as the filters. */
  method VectorSearch(query: VectorQuery, topK: nat, filters: Option<RetrievalFilters>) returns (r: Option<seq<Hit>>)
    requires AnswersQueries(query)
    ensures exists where :: SaysTheSame(filters, where) && r == query(topK, where)
    ensures r.Some? ==> |r.value| <= topK && AllMatch(filters, r.value)
  {
    var where: Option<Clause> := None;
    if filters.Some? {
      where := ToChromaWhere(filters.value);
    }
    assert SaysTheSame(filters, where);
    r := query(topK, where);
  }

  /** The keyword index's answer, restricted to what the filters accept. */
  method Bm25Search(index: BM25Index, score: Scorer, text: string, topK: nat, filters: Option<RetrievalFilters>)
    returns (hits: seq<Hit>)
    requires index.Valid() && ScoresEach(score)
    ensures hits == SearchResult(index.snapshot, score, text, topK, Accepting(filters))
    ensures index.snapshot.Some? && index.snapshot.value.corpus != [] ==>
      var s := index.snapshot.value;
      AreBest(s, score(s.corpus, text), Accepting(filters), topK, hits)
    ensures |hits| <= topK && AllMatch(filters, hits)
  {
    hits := index.Search(score, text, topK, Accepting(filters));
    forall h | h in hits && filters.Some? ensures MatchesMetadata(filters.value, h.metadata) {
      AcceptsWhatMatches(filters, h.metadata);
    }
  }

  /** Fusion invents nothing: every fused hit has the metadata of some channel's hit. */
  lemma FusionMatches(filters: Option<RetrievalFilters>, vector: seq<Hit>, bm25: seq<Hit>, k: nat, vw: real, bw: real, r: seq<Fused>)
    requires IsFusion(vector, bm25, k, vw, bw, r) && AllMatch(filters, vector) && AllMatch(filters, bm25)
    ensures |r| <= k && AllMatch(filters, HitsOf(r))
  {
    FusionIsStableTopK(vector, bm25, k, vw, bw, r);
    forall h | h in HitsOf(r) ensures filters.Some? ==> MatchesMetadata(filters.value, h.metadata) {
      var i: nat :| i < |r| && r[i].hit == h;
      FusedAt(vector, bm25, k, vw, bw, r, i);
    }
  }

  /** The results are these hits, not fused. */
  predicate IsUnfused(r: seq<Fused>, hits: seq<Hit>) {
    |r| == |hits| && forall i | 0 <= i < |r| :: r[i].hit == hits[i] && r[i].raw == map[]
  }

  /** In every branch, fallback or not: at most top_k results, all of them matching the filter. `vector` is what the
      store answers unless it is not to be asked or fails, and `bm25` what the keyword index answers unless it is
      not to be asked; the results are one of them, or both fused when neither is empty. */
  method Retrieve(query: VectorQuery, index: BM25Index, score: Scorer, text: string, topK: nat, vw: real, bw: real,
                  vectorOnly: bool, bm25Only: bool, filters: Option<RetrievalFilters>)
    returns (r: seq<Fused>, ghost vector: seq<Hit>, ghost bm25: seq<Hit>)
    requires AnswersQueries(query) && index.Valid() && ScoresEach(score)
    ensures |r| <= topK && AllMatch(filters, HitsOf(r))
    ensures if bm25Only then vector == []
            else exists where :: SaysTheSame(filters, where)
                                 && vector == if query(topK, where).Some? then query(topK, where).value else []
    ensures bm25 == if vectorOnly then [] else SearchResult(index.snapshot, score, text, topK, Accepting(filters))
    ensures !vectorOnly && index.snapshot.Some? && index.snapshot.value.corpus != [] ==>
      var s := index.snapshot.value;
      AreBest(s, score(s.corpus, text), Accepting(filters), topK, bm25)
    ensures vectorOnly || bm25 == [] ==> IsUnfused(r, vector)
    ensures !vectorOnly && bm25 != [] && vector == [] ==> IsUnfused(r, bm25)
    ensures !vectorOnly && bm25 != [] && vector != [] ==> IsFusion(vector, bm25, topK, vw, bw, r)
  {
    var vectorResults: seq<Hit>, bm25Results: seq<Hit> := [], [];
    var keywordOnly := bm25Only;
    if !bm25Only {
      var answer := VectorSearch(query, topK, filters);
      match answer
      case None => keywordOnly := true;
      case Some(hits) => vectorResults := hits;
    }
    if !vectorOnly && index.snapshot.Some? && |index.snapshot.value.corpus| > 0 {
      bm25Results := Bm25Search(index, score, text, topK, filters);
    }
    vector, bm25 := vectorResults, bm25Results;
    if vectorOnly || bm25Results == [] {
      r := Unfused(Take(vectorResults, topK));
    } else if keywordOnly || vectorResults == [] {
      r := Unfused(Take(bm25Results, topK));
    } else {
      r := RrfFuse(vectorResults, bm25Results, topK, vw, bw);
      FusionMatches(filters, vectorResults, bm25Results, topK, vw, bw, r);
    }
  }
}
