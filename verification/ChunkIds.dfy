/** Chunk ids: how indexing prints them, and how retrieval reads the document back out of them. */
module ChunkIds {
  import opened Wrappers
  import opened Numerals

  function Print(doc: string, generation: nat, i: nat): string {
    doc + "_g" + Digits(generation) + "_c" + Digits(i)
  }

  /** The form of chunks indexed before generations existed. */
  function PrintLegacy(doc: string, i: nat): string {
    doc + "_chunk_" + Digits(i)
  }

  predicate OccursAt(s: string, sep: string, i: nat) {
    i + |sep| <= |s| && s[i..i + |sep|] == sep
  }

  predicate Contains(s: string, sep: string) {
    exists i: nat | i <= |s| :: OccursAt(s, sep, i)
  }

  /** The last place at or before `i` where the separator occurs. */
  function LastAt(s: string, sep: string, i: nat): Option<nat> {
    if OccursAt(s, sep, i) then Some(i)
    else if i == 0 then None
    else LastAt(s, sep, i - 1)
  }

  function BeforeLast(s: string, sep: string): string {
    var at := LastAt(s, sep, |s|);
    if at.Some? && at.value <= |s| then s[..at.value] else s
  }

  /** The document of a chunk: from its metadata if it says so, otherwise from its id. */
  function ChunkDocId(metadata: Option<string>, id: string): Option<string> {
    if metadata.Some? && metadata.value != "" then metadata
    else if Contains(id, "_g") then Some(BeforeLast(id, "_g"))
    else if Contains(id, "_chunk_") then Some(BeforeLast(id, "_chunk_"))
    else None
  }

  /** A document named by the metadata is taken as it is; an id without either mark names none. */
  lemma MetadataComesFirst(metadata: Option<string>, id: string)
    ensures metadata.Some? && metadata.value != "" ==> ChunkDocId(metadata, id) == metadata
    ensures metadata == None || metadata == Some("") ==> ChunkDocId(metadata, id) == ChunkDocId(None, id)
    ensures ChunkDocId(None, id) == None <==> !Contains(id, "_g") && !Contains(id, "_chunk_")
  {
  }

  lemma {:induction false} LastAtIsLast(s: string, sep: string, i: nat, p: nat)
    requires OccursAt(s, sep, p) && p <= i
    requires forall q: nat | p < q <= i :: !OccursAt(s, sep, q)
    ensures LastAt(s, sep, i) == Some(p)
  {
    if p < i { LastAtIsLast(s, sep, i - 1, p); }
  }

  /** Nothing after the printed separator looks like it. */
  lemma LastGeneration(doc: string, generation: nat, i: nat)
    ensures
      var id := Print(doc, generation, i);
      && OccursAt(id, "_g", |doc|) && forall q: nat | |doc| < q :: !OccursAt(id, "_g", q)
  {
    var id := Print(doc, generation, i);
    var g, c := Digits(generation), Digits(i);
    DigitsRoundTrip(generation);
    DigitsRoundTrip(i);
    assert id == doc + ("_g" + g + "_c" + c);
    assert id[|doc|..|doc| + 2] == "_g";
    forall q: nat | |doc| < q ensures !OccursAt(id, "_g", q) {
      if q + 2 <= |id| {
        assert id[q..q + 2][1] == id[q + 1];
        var k := q + 1 - |doc|;
        assert id[q + 1] == ("_g" + g + "_c" + c)[k];
        assert IsDigit(id[q + 1]) || id[q + 1] == '_' || id[q + 1] == 'c';
      }
    }
  }

  /** For every document id, generation and index, reading the printed id gives the document back. */
  lemma RoundTrip(doc: string, generation: nat, i: nat)
    ensures ChunkDocId(None, Print(doc, generation, i)) == Some(doc)
  {
    var id := Print(doc, generation, i);
    LastGeneration(doc, generation, i);
    LastAtIsLast(id, "_g", |id|, |doc|);
    assert id[..|doc|] == doc;
  }

  lemma LegacyTail(doc: string, i: nat, q: nat)
    requires |doc| <= q < |PrintLegacy(doc, i)|
    ensures PrintLegacy(doc, i)[q] == ("_chunk_" + Digits(i))[q - |doc|]
    ensures IsDigit(PrintLegacy(doc, i)[q]) || (q - |doc| < 7 && PrintLegacy(doc, i)[q] == "_chunk_"[q - |doc|])
  {
    DigitsRoundTrip(i);
    assert PrintLegacy(doc, i) == doc + ("_chunk_" + Digits(i));
  }

  lemma LegacyOccurrences(doc: string, i: nat)
    ensures
      var id := PrintLegacy(doc, i);
      && OccursAt(id, "_chunk_", |doc|)
      && (forall q: nat | |doc| < q :: !OccursAt(id, "_chunk_", q))
      && (forall q: nat | |doc| <= q + 1 :: !OccursAt(id, "_g", q))
  {
    var id := PrintLegacy(doc, i);
    assert id[|doc|..|doc| + 7] == "_chunk_";
    forall q: nat | |doc| < q ensures !OccursAt(id, "_chunk_", q) {
      if q + 7 <= |id| {
        LegacyTail(doc, i, q);
        LegacyTail(doc, i, q + 1);
        assert id[q..q + 7][0] == id[q] && id[q..q + 7][1] == id[q + 1];
      }
    }
    forall q: nat | |doc| <= q + 1 ensures !OccursAt(id, "_g", q) {
      if q + 2 <= |id| {
        LegacyTail(doc, i, q + 1);
        assert id[q..q + 2][1] == id[q + 1];
      }
    }
  }

  /** The legacy form is read back exactly when the document id holds no generation mark. */
  lemma LegacyRoundTripIff(doc: string, i: nat)
    ensures ChunkDocId(None, PrintLegacy(doc, i)) == Some(doc) <==> !Contains(doc, "_g")
  {
    var id := PrintLegacy(doc, i);
    LegacyOccurrences(doc, i);
    if Contains(doc, "_g") {
      var p: nat :| p <= |doc| && OccursAt(doc, "_g", p);
      assert id[p..p + 2] == doc[p..p + 2];
      assert OccursAt(id, "_g", p);
      LastIsBefore(id, "_g", |id|, |doc|);
      LastAtExists(id, "_g", |id|, p);
    } else {
      assert !Contains(id, "_g") by {
        forall q: nat | q <= |id| ensures !OccursAt(id, "_g", q) {
          if q + 2 <= |doc| {
            assert id[q..q + 2] == doc[q..q + 2];
            assert !OccursAt(doc, "_g", q);
          }
        }
      }
      LastAtIsLast(id, "_chunk_", |id|, |doc|);
      assert id[..|doc|] == doc;
    }
  }

  lemma {:induction false} LastAtExists(s: string, sep: string, i: nat, p: nat)
    requires OccursAt(s, sep, p) && p <= i
    ensures LastAt(s, sep, i).Some?
  {
    if !OccursAt(s, sep, i) { LastAtExists(s, sep, i - 1, p); }
  }

  lemma {:induction false} LastIsBefore(s: string, sep: string, i: nat, bound: nat)
    requires forall q: nat | bound <= q + 1 :: !OccursAt(s, sep, q)
    ensures LastAt(s, sep, i).Some? ==> LastAt(s, sep, i).value + 1 < bound
  {
    if !OccursAt(s, sep, i) && i > 0 { LastIsBefore(s, sep, i - 1, bound); }
  }

  lemma PrintParts(doc: string, g: string, i: string)
    ensures doc + "_g" + g + "_c" + i == doc + ("_g" + (g + ("_c" + i)))
  {
  }

  lemma SameRest(a: string, b: string, b': string)
    requires a + b == a + b'
    ensures b == b'
  {
    assert b == (a + b)[|a|..] == (a + b')[|a|..] == b';
  }

  /** Ids never collide: the id names its document, its generation and its place. */
  lemma PrintIsInjective(d: string, g: nat, i: nat, d': string, g': nat, i': nat)
    requires Print(d, g, i) == Print(d', g', i')
    ensures d == d' && g == g' && i == i'
  {
    RoundTrip(d, g, i);
    RoundTrip(d', g', i');
    DigitsRoundTrip(g);
    DigitsRoundTrip(g');
    DigitsRoundTrip(i);
    DigitsRoundTrip(i');
    var gs, gs', ns, ns' := Digits(g), Digits(g'), Digits(i), Digits(i');
    PrintParts(d, gs, ns);
    PrintParts(d', gs', ns');
    SameRest(d, "_g" + (gs + ("_c" + ns)), "_g" + (gs' + ("_c" + ns')));
    SameRest("_g", gs + ("_c" + ns), gs' + ("_c" + ns'));
    SameNumberBefore(gs, "_c" + ns, gs', "_c" + ns');
    SameRest("_c", ns, ns');
  }

  /** A number ends where the first other character stands. */
  lemma SameNumberBefore(a: string, b: string, a': string, b': string)
    requires IsNumber(a) && IsNumber(a') && b != "" && b' != "" && b[0] == b'[0] == '_'
    requires a + b == a' + b'
    ensures a == a' && b == b'
  {
    var w := a + b;
    assert forall k | 0 <= k < |a| :: w[k] == a[k];
    assert forall k | 0 <= k < |a'| :: w[k] == a'[k];
    assert w[|a|] == '_' && w[|a'|] == '_';
    assert |a| == |a'|;
    assert a == w[..|a|] == a';
    assert b == w[|a|..] == b';
  }
}
