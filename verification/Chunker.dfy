/** Splitting a text into overlapping chunks of whole paragraphs. */
module Chunker {
  import opened Text

  // ---- Paragraphs ----

  function LeadingBreaks(s: string): (n: nat)
    ensures n <= |s|
  {
    if s != "" && s[0] == '\n' then 1 + LeadingBreaks(s[1..]) else 0
  }

  /** Cut at every run of two or more line breaks. */
  function SplitParagraphs(s: string): (r: seq<string>)
    ensures r != []
    decreases |s|
  {
    if s == "" then [""]
    else if LeadingBreaks(s) >= 2 then [""] + SplitParagraphs(s[LeadingBreaks(s)..])
    else
      var rest := SplitParagraphs(s[1..]);
      [[s[0]] + rest[0]] + rest[1..]
  }

  /** The trimmed paragraphs, without the blank ones. */
  function Stripped(paragraphs: seq<string>): seq<string> {
    if paragraphs == [] then []
    else Stripped(paragraphs[..|paragraphs| - 1])
         + if Strip(paragraphs[|paragraphs| - 1]) == "" then [] else [Strip(paragraphs[|paragraphs| - 1])]
  }

  lemma {:induction false} BreaksHaveNoInk(s: string)
    ensures Ink(s[LeadingBreaks(s)..]) == Ink(s)
  {
    if s != "" && s[0] == '\n' {
      BreaksHaveNoInk(s[1..]);
      assert s[LeadingBreaks(s)..] == s[1..][LeadingBreaks(s[1..])..];
    }
  }

  /** Splitting loses nothing but white space. */
  lemma {:induction false} SplitKeepsInk(s: string)
    ensures Ink(Concat(SplitParagraphs(s))) == Ink(s)
    decreases |s|
  {
    if s == "" {
      assert Concat([""]) == "";
    } else if LeadingBreaks(s) >= 2 {
      var tail := s[LeadingBreaks(s)..];
      SplitKeepsInk(tail);
      BreaksHaveNoInk(s);
      assert SplitParagraphs(s) == [""] + SplitParagraphs(tail);
      assert SplitParagraphs(s)[1..] == SplitParagraphs(tail);
      assert Concat(SplitParagraphs(s)) == "" + Concat(SplitParagraphs(tail)) == Concat(SplitParagraphs(tail));
    } else {
      SplitKeepsInk(s[1..]);
      var rest := SplitParagraphs(s[1..]);
      assert SplitParagraphs(s)[1..] == rest[1..];
      assert Concat(SplitParagraphs(s)) == [s[0]] + rest[0] + Concat(rest[1..]) == [s[0]] + Concat(rest);
    }
  }

  lemma {:induction false} StrippedKeepInk(paragraphs: seq<string>)
    ensures Ink(Concat(Stripped(paragraphs))) == Ink(Concat(paragraphs))
    ensures forall i | 0 <= i < |Stripped(paragraphs)| :: !IsBlank(Stripped(paragraphs)[i])
  {
    if paragraphs != [] {
      var front, last := paragraphs[..|paragraphs| - 1], paragraphs[|paragraphs| - 1];
      StrippedKeepInk(front);
      StripKeepsInk(last);
      assert paragraphs == front + [last];
      InkSnoc(front, last);
      InkOfBlank(last);
      if Strip(last) == "" {
        assert Stripped(paragraphs) == Stripped(front);
      } else {
        InkSnoc(Stripped(front), Strip(last));
        InkOfBlank(Strip(last));
      }
    }
  }

  /** No two line breaks follow each other. */
  predicate NoBreakRun(s: string) {
    forall i | 0 <= i < |s| - 1 :: !(s[i] == '\n' && s[i + 1] == '\n')
  }

  predicate StartsWithBreak(s: string) { s != "" && s[0] == '\n' }

  predicate EndsWithBreak(s: string) { s != "" && s[|s| - 1] == '\n' }

  predicate AllBreaks(s: string) {
    forall i | 0 <= i < |s| :: s[i] == '\n'
  }

  /** `s` is the first paragraph, a whole run of two or more line breaks, and then the other paragraphs. */
  ghost predicate CutsAtRuns(s: string, paragraphs: seq<string>)
    decreases |paragraphs|
  {
    && paragraphs != [] && NoBreakRun(paragraphs[0])
    && if |paragraphs| == 1 then s == paragraphs[0]
       else exists run, rest ::
         && s == paragraphs[0] + (run + rest) && |run| >= 2 && AllBreaks(run)
         && !EndsWithBreak(paragraphs[0]) && !StartsWithBreak(rest) && CutsAtRuns(rest, paragraphs[1..])
  }

  lemma {:induction false} LeadingRun(s: string)
    ensures AllBreaks(s[..LeadingBreaks(s)]) && !StartsWithBreak(s[LeadingBreaks(s)..])
  {
    if s != "" && s[0] == '\n' {
      LeadingRun(s[1..]);
      assert s[LeadingBreaks(s)..] == s[1..][LeadingBreaks(s[1..])..];
      assert s[..LeadingBreaks(s)] == ['\n'] + s[1..][..LeadingBreaks(s[1..])];
    }
  }

  /** The text is cut at its runs of line breaks, at all of them and nowhere else. */
  lemma {:induction false} SplitCutsAtRuns(s: string)
    ensures CutsAtRuns(s, SplitParagraphs(s))
    decreases |s|
  {
    if s == "" {
    } else if LeadingBreaks(s) >= 2 {
      var n := LeadingBreaks(s);
      var run, rest := s[..n], s[n..];
      LeadingRun(s);
      SplitCutsAtRuns(rest);
      assert s == "" + (run + rest);
      assert SplitParagraphs(s)[1..] == SplitParagraphs(rest);
    } else {
      SplitCutsAtRuns(s[1..]);
      OneMoreCharacter(s);
    }
  }

  lemma OneMoreCharacter(s: string)
    requires s != "" && LeadingBreaks(s) < 2 && CutsAtRuns(s[1..], SplitParagraphs(s[1..]))
    ensures CutsAtRuns(s, SplitParagraphs(s))
  {
    var tail := SplitParagraphs(s[1..]);
    var first := [s[0]] + tail[0];
    assert SplitParagraphs(s)[0] == first && SplitParagraphs(s)[1..] == tail[1..];
    if |tail| == 1 {
      assert s == first;
      NoRunAtStart(s, first);
    } else {
      var run, rest :| s[1..] == tail[0] + (run + rest) && |run| >= 2 && AllBreaks(run)
        && !EndsWithBreak(tail[0]) && !StartsWithBreak(rest) && CutsAtRuns(rest, tail[1..]);
      FirstGrows(s, tail[0], run, rest);
    }
  }

  lemma FirstGrows(s: string, first: string, run: string, rest: string)
    requires s != "" && LeadingBreaks(s) < 2 && s[1..] == first + (run + rest)
    requires |run| >= 2 && AllBreaks(run) && NoBreakRun(first) && !EndsWithBreak(first)
    ensures s == ([s[0]] + first) + (run + rest)
    ensures NoBreakRun([s[0]] + first) && !EndsWithBreak([s[0]] + first)
  {
    var grown := [s[0]] + first;
    assert s == [s[0]] + s[1..];
    assert grown[1..] == first;
    NoRunAtStart(s, grown);
    assert s[1] == s[1..][0] == if first == "" then run[0] else first[0];
  }

  /** A prefix whose tail has no run has none itself if the text does not begin with one. */
  lemma NoRunAtStart(s: string, first: string)
    requires LeadingBreaks(s) < 2 && first != "" && first <= s && NoBreakRun(first[1..])
    ensures NoBreakRun(first)
  {
    assert |first| > 1 ==> !(s[0] == '\n' && s[1..][0] == '\n');
    forall i | 0 <= i < |first| - 1 ensures !(first[i] == '\n' && first[i + 1] == '\n') {
      if i > 0 { assert first[1..][i - 1] == first[i] && first[1..][i] == first[i + 1]; }
    }
  }

  // ---- Packs ----

  /** A chunk before it is joined: what it carries over, if anything, and its own paragraphs. */
  datatype Pack = Pack(carry: seq<string>, paragraphs: seq<string>)

  function Pieces(p: Pack): seq<string> { p.carry + p.paragraphs }

  function Size(p: Pack): nat { |Concat(Pieces(p))| }

  function Own(packs: seq<Pack>): seq<string> {
    if packs == [] then [] else Own(packs[..|packs| - 1]) + packs[|packs| - 1].paragraphs
  }

  function Tail(s: string, overlap: nat): string {
    if |s| <= overlap then s else s[|s| - overlap..]
  }

  /** What the chunk after `chunk` carries over: its tail, unless that is blank. */
  function CarryOver(chunk: string, overlap: nat): seq<string> {
    if Strip(Tail(chunk, overlap)) == "" then [] else [Tail(chunk, overlap)]
  }

  function Chunks(packs: seq<Pack>): seq<string> {
    seq(|packs|, i requires 0 <= i < |packs| => Lines(Pieces(packs[i])))
  }

  predicate CarriesTail(packs: seq<Pack>, overlap: nat, i: nat)
    requires i < |packs|
  {
    packs[i].carry == if i == 0 then [] else CarryOver(Lines(Pieces(packs[i - 1])), overlap)
  }

  /** A chunk is over the size only if it holds a single paragraph, and a new chunk is begun only when
      the next paragraph would not have fitted. */
  predicate WellFilled(packs: seq<Pack>, size: nat, i: nat)
    requires i < |packs|
  {
    && packs[i].paragraphs != []
    && (Size(packs[i]) > size ==> |packs[i].paragraphs| == 1)
    && (i > 0 ==> Size(packs[i - 1]) + |packs[i].paragraphs[0]| > size)
  }

  /** Each chunk carries over the tail of the one before; the first carries nothing. */
  predicate Overlap(packs: seq<Pack>, overlap: nat) {
    forall i: nat | i < |packs| :: CarriesTail(packs, overlap, i)
  }

  predicate Greedy(packs: seq<Pack>, size: nat) {
    forall i: nat | i < |packs| :: WellFilled(packs, size, i)
  }

  function Max(a: nat, b: nat): nat { if a >= b then a else b }

  function Longest(paragraphs: seq<string>): nat {
    if paragraphs == [] then 0
    else Max(Longest(paragraphs[..|paragraphs| - 1]), |paragraphs[|paragraphs| - 1]|)
  }

  ghost predicate IsChunking(text: string, size: nat, overlap: nat, packs: seq<Pack>) {
    Packed(Stripped(SplitParagraphs(text)), size, overlap, packs)
  }

  // ---- The packing loop ----

  function Fitted(packs: seq<Pack>, para: string): seq<Pack>
    requires packs != []
  {
    var last := packs[|packs| - 1];
    packs[..|packs| - 1] + [last.(paragraphs := last.paragraphs + [para])]
  }

  function Opened(packs: seq<Pack>, para: string, overlap: nat): seq<Pack> {
    packs + [Pack(if packs == [] then [] else CarryOver(Lines(Pieces(packs[|packs| - 1])), overlap), [para])]
  }

  lemma FittedKeeps(packs: seq<Pack>, para: string, size: nat, overlap: nat)
    requires packs != [] && Overlap(packs, overlap) && Greedy(packs, size)
    requires Size(packs[|packs| - 1]) + |para| <= size
    ensures
      var more := Fitted(packs, para);
      && Overlap(more, overlap) && Greedy(more, size) && Own(more) == Own(packs) + [para]
      && Pieces(more[|more| - 1]) == Pieces(packs[|packs| - 1]) + [para]
      && Size(more[|more| - 1]) == Size(packs[|packs| - 1]) + |para|
      && more[..|more| - 1] == packs[..|packs| - 1]
  {
    var more, n := Fitted(packs, para), |packs| - 1;
    assert Pieces(more[n]) == Pieces(packs[n]) + [para];
    ConcatSnoc(Pieces(packs[n]), para);
    assert more[..n] == packs[..n];
    forall i: nat | i < |more| ensures CarriesTail(more, overlap, i) && WellFilled(more, size, i) {
      assert CarriesTail(packs, overlap, i) && WellFilled(packs, size, i);
    }
  }

  lemma OpenedKeeps(packs: seq<Pack>, para: string, size: nat, overlap: nat)
    requires Overlap(packs, overlap) && Greedy(packs, size)
    requires packs != [] ==> Size(packs[|packs| - 1]) + |para| > size
    ensures
      var more := Opened(packs, para, overlap);
      && Overlap(more, overlap) && Greedy(more, size) && Own(more) == Own(packs) + [para]
      && more[..|more| - 1] == packs
      && Size(more[|packs|]) == |Concat(more[|packs|].carry)| + |para|
  {
    var more := Opened(packs, para, overlap);
    ConcatSnoc(more[|packs|].carry, para);
    assert more[..|more| - 1] == packs;
    forall i: nat | i < |more| ensures CarriesTail(more, overlap, i) && WellFilled(more, size, i) {
      if i < |packs| { assert CarriesTail(packs, overlap, i) && WellFilled(packs, size, i); }
    }
  }

  /** The packing of the paragraphs `done`. */
  predicate Packed(done: seq<string>, size: nat, overlap: nat, packs: seq<Pack>) {
    Own(packs) == done && Overlap(packs, overlap) && Greedy(packs, size)
  }

  /** What the loop holds: all chunks but the last, and the pieces of the last one. */
  predicate Holding(packs: seq<Pack>, chunks: seq<string>, currentChunk: seq<string>) {
    if packs == [] then currentChunk == [] && chunks == []
    else currentChunk == Pieces(packs[|packs| - 1]) && currentChunk != [] && chunks == Chunks(packs[..|packs| - 1])
  }

  lemma FitOneMore(done: seq<string>, size: nat, overlap: nat, packs: seq<Pack>, chunks: seq<string>, currentChunk: seq<string>, para: string)
    requires Packed(done, size, overlap, packs) && Holding(packs, chunks, currentChunk)
    requires packs != [] && |Concat(currentChunk)| + |para| <= size
    ensures Packed(done + [para], size, overlap, Fitted(packs, para))
    ensures Holding(Fitted(packs, para), chunks, currentChunk + [para])
  {
    FittedKeeps(packs, para, size, overlap);
  }

  lemma OpenOneMore(done: seq<string>, size: nat, overlap: nat, packs: seq<Pack>, chunks: seq<string>, currentChunk: seq<string>, para: string)
    requires Packed(done, size, overlap, packs) && Holding(packs, chunks, currentChunk)
    requires packs != [] ==> |Concat(currentChunk)| + |para| > size
    ensures Packed(done + [para], size, overlap, Opened(packs, para, overlap))
    ensures
      var carry := if packs == [] then [] else CarryOver(Lines(currentChunk), overlap);
      Holding(Opened(packs, para, overlap), if packs == [] then [] else chunks + [Lines(currentChunk)], carry + [para])
  {
    OpenedKeeps(packs, para, size, overlap);
    AllChunks(packs, chunks, currentChunk);
  }

  lemma AllChunks(packs: seq<Pack>, chunks: seq<string>, currentChunk: seq<string>)
    requires Holding(packs, chunks, currentChunk)
    ensures Chunks(packs) == if packs == [] then chunks else chunks + [Lines(currentChunk)]
  {
  }

  lemma CarriedLength(chunk: string, overlap: nat)
    ensures |Concat(CarryOver(chunk, overlap))| == if Strip(Tail(chunk, overlap)) != "" then |Tail(chunk, overlap)| else 0
  {
    assert Concat([Tail(chunk, overlap)]) == Tail(chunk, overlap) + "";
  }

  /** Greedy packing of whole paragraphs, each chunk after the first led by the tail of the one before. */
  method ChunkText(text: string, size: nat, overlap: nat) returns (chunks: seq<string>)
    ensures exists packs :: IsChunking(text, size, overlap, packs) && chunks == Chunks(packs)
  {
    var paragraphs := SplitParagraphs(text);
    chunks := [];
    ghost var packs: seq<Pack> := [];
    var currentChunk: seq<string> := [];
    var currentLength := 0;
    for i := 0 to |paragraphs|
      invariant Packed(Stripped(paragraphs[..i]), size, overlap, packs)
      invariant Holding(packs, chunks, currentChunk)
      invariant currentLength == |Concat(currentChunk)|
    {
      ghost var done := Stripped(paragraphs[..i]);
      assert paragraphs[..i + 1][..i] == paragraphs[..i];
      var para := Strip(paragraphs[i]);
      if para == "" {
        assert Stripped(paragraphs[..i + 1]) == done;
        continue;
      }
      assert Stripped(paragraphs[..i + 1]) == done + [para];
      if currentLength + |para| > size && currentChunk != [] {
        OpenOneMore(done, size, overlap, packs, chunks, currentChunk, para);
        packs := Opened(packs, para, overlap);
        chunks := chunks + [Lines(currentChunk)];
        var carry := Tail(Lines(currentChunk), overlap);
        CarriedLength(Lines(currentChunk), overlap);
        currentChunk := if Strip(carry) != "" then [carry] else [];
        currentLength := if Strip(carry) != "" then |carry| else 0;
      } else if currentChunk == [] {
        OpenOneMore(done, size, overlap, packs, chunks, currentChunk, para);
        packs := Opened(packs, para, overlap);
      } else {
        FitOneMore(done, size, overlap, packs, chunks, currentChunk, para);
        packs := Fitted(packs, para);
      }
      ConcatSnoc(currentChunk, para);
      currentChunk := currentChunk + [para];
      currentLength := currentLength + |para|;
    }
    assert paragraphs[..|paragraphs|] == paragraphs;
    AllChunks(packs, chunks, currentChunk);
    if currentChunk != [] {
      chunks := chunks + [Lines(currentChunk)];
    }
    NothingBlank(text, size, overlap, packs);
    NothingToDrop(chunks);
    chunks := WithoutBlank(chunks);
    assert IsChunking(text, size, overlap, packs) && chunks == Chunks(packs);
  }

  function WithoutBlank(chunks: seq<string>): seq<string> {
    if chunks == [] then []
    else WithoutBlank(chunks[..|chunks| - 1])
         + if Strip(chunks[|chunks| - 1]) != "" then [chunks[|chunks| - 1]] else []
  }

  lemma {:induction false} NothingToDrop(chunks: seq<string>)
    requires forall i | 0 <= i < |chunks| :: Strip(chunks[i]) != ""
    ensures WithoutBlank(chunks) == chunks
  {
    if chunks != [] {
      var front, last := chunks[..|chunks| - 1], chunks[|chunks| - 1];
      NothingToDrop(front);
      assert chunks == front + [last];
    }
  }

  // ---- What chunking promises ----

  lemma {:induction false} OwnHasAll(packs: seq<Pack>, i: nat, j: nat)
    requires i < |packs| && j < |packs[i].paragraphs|
    ensures packs[i].paragraphs[j] in Own(packs)
  {
    if i < |packs| - 1 { OwnHasAll(packs[..|packs| - 1], i, j); }
  }

  /** The filter at the end drops nothing: no chunk is blank. */
  lemma NothingBlank(text: string, size: nat, overlap: nat, packs: seq<Pack>)
    requires IsChunking(text, size, overlap, packs)
    ensures forall i | 0 <= i < |packs| :: Strip(Chunks(packs)[i]) != ""
  {
    var paragraphs := Stripped(SplitParagraphs(text));
    StrippedKeepInk(SplitParagraphs(text));
    forall i: nat | i < |packs| ensures Strip(Chunks(packs)[i]) != "" {
      assert WellFilled(packs, size, i);
      OwnHasAll(packs, i, 0);
      var para := packs[i].paragraphs[0];
      assert !IsBlank(para);
      assert Pieces(packs[i])[|packs[i].carry|] == para;
      LinesHaveInk(Pieces(packs[i]), |packs[i].carry|);
      StripKeepsInk(Lines(Pieces(packs[i])));
    }
  }

  lemma LinesHaveInk(parts: seq<string>, i: nat)
    requires i < |parts| && !IsBlank(parts[i])
    ensures !IsBlank(Lines(parts))
  {
    LinesKeepInk(parts);
    assert parts == parts[..i] + ([parts[i]] + parts[i + 1..]);
    ConcatOfAppend(parts[..i], [parts[i]] + parts[i + 1..]);
    InkOfConcat(Concat(parts[..i]), Concat([parts[i]] + parts[i + 1..]));
    InkOfConcat(parts[i], Concat(parts[i + 1..]));
    InkOfBlank(parts[i]);
    InkOfBlank(Lines(parts));
  }

  /** Nothing is lost and nothing is added: the chunks' own paragraphs hold every character of the text
      that is not white space, in order. */
  lemma ChunkingKeepsInk(text: string, size: nat, overlap: nat, packs: seq<Pack>)
    requires IsChunking(text, size, overlap, packs)
    ensures Ink(Concat(Own(packs))) == Ink(text)
  {
    SplitKeepsInk(text);
    StrippedKeepInk(SplitParagraphs(text));
  }

  /** Chunk `i + 1` begins with the last `overlap` characters of chunk `i`, or all of it if shorter,
      whenever those are not blank, and a line break. */
  lemma ChunkStartsWithTail(packs: seq<Pack>, size: nat, overlap: nat, i: nat)
    requires Overlap(packs, overlap) && Greedy(packs, size) && i + 1 < |packs|
    ensures
      var chunk := Chunks(packs)[i];
      var tail := if |chunk| <= overlap then chunk else chunk[|chunk| - overlap..];
      if IsBlank(tail) then Chunks(packs)[i + 1] == Lines(packs[i + 1].paragraphs)
      else Chunks(packs)[i + 1] == tail + "\n" + Lines(packs[i + 1].paragraphs)
  {
    var tail := Tail(Chunks(packs)[i], overlap);
    StripKeepsInk(tail);
    var next := packs[i + 1];
    assert CarriesTail(packs, overlap, i + 1) && WellFilled(packs, size, i + 1);
    assert Pieces(next)[|next.carry|..] == next.paragraphs;
    if IsBlank(tail) {
      assert Pieces(next) == next.paragraphs;
    } else {
      assert Pieces(next)[1..] == next.paragraphs;
    }
  }

  /** The first chunk is its paragraphs, one a line. */
  lemma FirstChunkHasNoTail(packs: seq<Pack>, overlap: nat)
    requires Overlap(packs, overlap) && packs != []
    ensures Chunks(packs)[0] == Lines(packs[0].paragraphs)
  {
    assert CarriesTail(packs, overlap, 0);
    assert Pieces(packs[0]) == packs[0].paragraphs;
  }

  /** A chunk of several paragraphs keeps to the size, its line breaks not counted, and the first paragraph of the
      next chunk would not have fitted into it. */
  lemma ChunksAreFilled(packs: seq<Pack>, size: nat, overlap: nat, i: nat)
    requires Overlap(packs, overlap) && Greedy(packs, size) && i < |packs|
    ensures
      var chunk, breaks := Chunks(packs)[i], |packs[i].carry| + |packs[i].paragraphs| - 1;
      && packs[i].paragraphs != []
      && (|packs[i].paragraphs| > 1 ==> |chunk| - breaks <= size)
      && (i + 1 < |packs| ==> packs[i + 1].paragraphs != [] && |chunk| - breaks + |packs[i + 1].paragraphs[0]| > size)
  {
    assert WellFilled(packs, size, i);
    var pieces := Pieces(packs[i]);
    LinesSnoc(pieces[..|pieces| - 1], pieces[|pieces| - 1]);
    assert pieces == pieces[..|pieces| - 1] + [pieces[|pieces| - 1]];
    if i + 1 < |packs| { assert WellFilled(packs, size, i + 1); }
  }

  // ---- The paragraphs are the text's own ----

  /** `own` are, in order, the paragraphs that are not blank, each without the white space at its ends. */
  predicate TrimmedInOrder(paragraphs: seq<string>, own: seq<string>) {
    if paragraphs == [] then own == []
    else
      var front, last := paragraphs[..|paragraphs| - 1], paragraphs[|paragraphs| - 1];
      if IsBlank(last) then TrimmedInOrder(front, own)
      else own != [] && IsTrimmed(last, own[|own| - 1]) && TrimmedInOrder(front, own[..|own| - 1])
  }

  lemma TrimmedSnoc(front: seq<string>, last: string, own: seq<string>, t: string)
    requires TrimmedInOrder(front, own) && !IsBlank(last) && IsTrimmed(last, t)
    ensures TrimmedInOrder(front + [last], own + [t])
  {
    assert (front + [last])[..|front|] == front && (own + [t])[..|own|] == own;
  }

  lemma {:induction false} StrippedAreTrimmed(paragraphs: seq<string>)
    ensures TrimmedInOrder(paragraphs, Stripped(paragraphs))
  {
    if paragraphs != [] {
      var front, last := paragraphs[..|paragraphs| - 1], paragraphs[|paragraphs| - 1];
      StrippedAreTrimmed(front);
      StripKeepsInk(last);
      if IsBlank(last) {
        assert Stripped(paragraphs) == Stripped(front);
      } else {
        StripIsTrimmed(last);
        TrimmedSnoc(front, last, Stripped(front), Strip(last));
        assert paragraphs == front + [last];
      }
    }
  }

  /** `part` stands in `s` as it is. */
  predicate OccursIn(part: string, s: string) {
    exists k, j | 0 <= k <= j <= |s| :: part == s[k..j]
  }

  lemma {:induction false} SplitOccurs(s: string)
    ensures SplitParagraphs(s)[0] <= s
    ensures forall p <- SplitParagraphs(s) :: OccursIn(p, s)
    decreases |s|
  {
    if s == "" {
      assert s[0..0] == "";
    } else if LeadingBreaks(s) >= 2 {
      var n := LeadingBreaks(s);
      SplitOccurs(s[n..]);
      assert s[0..0] == "";
      forall p | p in SplitParagraphs(s[n..]) ensures OccursIn(p, s) { OccursInSuffix(p, s, n); }
    } else {
      var rest := SplitParagraphs(s[1..]);
      SplitOccurs(s[1..]);
      var first := [s[0]] + rest[0];
      assert s == [s[0]] + s[1..] && first <= s;
      assert first == s[0..|first|];
      forall p | p in rest[1..] ensures OccursIn(p, s) {
        assert p in rest;
        OccursInSuffix(p, s, 1);
      }
    }
  }

  lemma OccursInSuffix(part: string, s: string, n: nat)
    requires n <= |s| && OccursIn(part, s[n..])
    ensures OccursIn(part, s)
  {
    var k, j :| 0 <= k <= j <= |s[n..]| && part == s[n..][k..j];
    assert part == s[n + k..n + j];
  }

  lemma StretchOccurs(p: string, q: string, s: string)
    requires IsTrimmed(p, q) && OccursIn(p, s)
    ensures OccursIn(q, s)
  {
    var i: nat, j: nat :| i < j <= |p| && q == p[i..j] && IsTrimmedAt(p, i, j);
    var k, e :| 0 <= k <= e <= |s| && p == s[k..e];
    SliceOfSlice(s, k, e, i, j);
    assert q == s[k + i..k + j];
  }

  lemma SliceOfSlice(s: string, k: nat, e: nat, i: nat, j: nat)
    requires k <= e <= |s| && i <= j <= e - k
    ensures s[k..e][i..j] == s[k + i..k + j]
  {
    forall n | 0 <= n < j - i ensures s[k..e][i..j][n] == s[k + i..k + j][n] {
      assert s[k..e][i + n] == s[k + i + n];
    }
  }

  lemma {:induction false} TrimmedOccur(paragraphs: seq<string>, own: seq<string>, s: string, q: string)
    requires TrimmedInOrder(paragraphs, own) && q in own
    requires forall p <- paragraphs :: OccursIn(p, s)
    ensures OccursIn(q, s)
    decreases |paragraphs|
  {
    var front, last := paragraphs[..|paragraphs| - 1], paragraphs[|paragraphs| - 1];
    if IsBlank(last) {
      TrimmedOccur(front, own, s, q);
    } else if q == own[|own| - 1] {
      StretchOccurs(last, q, s);
    } else {
      TrimmedOccur(front, own[..|own| - 1], s, q);
    }
  }

  /** The chunks' own paragraphs are, in order, the paragraphs of the text that are not blank, each without the white
      space at its ends and otherwise as it stands there. */
  lemma OwnParagraphsAreTheTexts(text: string, size: nat, overlap: nat, packs: seq<Pack>)
    requires IsChunking(text, size, overlap, packs)
    ensures TrimmedInOrder(SplitParagraphs(text), Own(packs))
    ensures forall q <- Own(packs) :: OccursIn(q, text)
  {
    var paragraphs := SplitParagraphs(text);
    StrippedAreTrimmed(paragraphs);
    SplitOccurs(text);
    forall q | q in Own(packs) ensures OccursIn(q, text) { TrimmedOccur(paragraphs, Own(packs), text, q); }
  }

  lemma {:induction false} LongestBounds(paragraphs: seq<string>, s: string)
    requires s in paragraphs
    ensures |s| <= Longest(paragraphs)
  {
    var front, last := paragraphs[..|paragraphs| - 1], paragraphs[|paragraphs| - 1];
    assert paragraphs == front + [last];
    if s in front { LongestBounds(front, s); }
  }

  /** The size is kept, except by a chunk of one paragraph, which is at most the carried tail longer than
      that paragraph. */
  lemma ChunksAreBounded(text: string, size: nat, overlap: nat, packs: seq<Pack>)
    requires IsChunking(text, size, overlap, packs)
    ensures forall i | 0 <= i < |packs| ::
      Size(packs[i]) <= Max(size, overlap + Longest(Stripped(SplitParagraphs(text))))
  {
    forall i: nat | i < |packs|
      ensures Size(packs[i]) <= Max(size, overlap + Longest(Stripped(SplitParagraphs(text))))
    {
      assert WellFilled(packs, size, i);
      if Size(packs[i]) > size { OversizedIsBounded(packs, size, overlap, i); }
    }
  }

  lemma OversizedIsBounded(packs: seq<Pack>, size: nat, overlap: nat, i: nat)
    requires i < |packs| && Overlap(packs, overlap) && WellFilled(packs, size, i) && Size(packs[i]) > size
    ensures Size(packs[i]) <= overlap + Longest(Own(packs))
  {
    OwnHasAll(packs, i, 0);
    LongestBounds(Own(packs), packs[i].paragraphs[0]);
    CarryIsShort(packs, overlap, i);
    SizeOfOne(packs[i]);
  }

  lemma SizeOfOne(p: Pack)
    requires |p.paragraphs| == 1
    ensures Size(p) == |Concat(p.carry)| + |p.paragraphs[0]|
  {
    assert p.paragraphs == [p.paragraphs[0]];
    ConcatSnoc(p.carry, p.paragraphs[0]);
  }

  lemma CarryIsShort(packs: seq<Pack>, overlap: nat, i: nat)
    requires Overlap(packs, overlap) && i < |packs|
    ensures |Concat(packs[i].carry)| <= overlap
  {
    assert CarriesTail(packs, overlap, i);
    if i > 0 { TailIsShort(Lines(Pieces(packs[i - 1])), overlap); }
  }

  lemma TailIsShort(chunk: string, overlap: nat)
    ensures |Concat(CarryOver(chunk, overlap))| <= overlap
  {
    assert Concat([Tail(chunk, overlap)]) == Tail(chunk, overlap) + "";
  }

  // ---- There is only one chunking ----

  /** A packing whose last chunk holds several paragraphs, without the last of them. */
  lemma WithoutLastFitted(done: seq<string>, size: nat, overlap: nat, packs: seq<Pack>)
    returns (before: seq<Pack>, para: string)
    requires Packed(done, size, overlap, packs) && packs != [] && |packs[|packs| - 1].paragraphs| > 1
    ensures done != [] && para == done[|done| - 1] && Packed(done[..|done| - 1], size, overlap, before)
    ensures before != [] && packs == Fitted(before, para) && Size(before[|before| - 1]) + |para| <= size
  {
    var n := |packs| - 1;
    var last, front := packs[n], packs[..n];
    var k := |last.paragraphs| - 1;
    para := last.paragraphs[k];
    var less := last.(paragraphs := last.paragraphs[..k]);
    before := front + [less];
    assert WellFilled(packs, size, n);
    assert last.paragraphs == less.paragraphs + [para];
    assert Pieces(last) == Pieces(less) + [para];
    ConcatSnoc(Pieces(less), para);
    FrontIsPacked(packs, size, overlap, before);
    OwnSnoc(front, less);
    OwnSnoc(front, last);
    assert packs == front + [last];
    assert done == Own(before) + [para];
    assert Fitted(before, para) == packs;
  }

  lemma OwnSnoc(front: seq<Pack>, last: Pack)
    ensures Own(front + [last]) == Own(front) + last.paragraphs
  {
    assert (front + [last])[..|front|] == front;
  }

  /** A packing whose last chunk holds one paragraph, without that chunk. */
  lemma WithoutLastOpened(done: seq<string>, size: nat, overlap: nat, packs: seq<Pack>)
    returns (before: seq<Pack>, para: string)
    requires Packed(done, size, overlap, packs) && packs != [] && |packs[|packs| - 1].paragraphs| == 1
    ensures done != [] && para == done[|done| - 1] && Packed(done[..|done| - 1], size, overlap, before)
    ensures packs == Opened(before, para, overlap) && (before != [] ==> Size(before[|before| - 1]) + |para| > size)
  {
    var n := |packs| - 1;
    before := packs[..n];
    para := packs[n].paragraphs[0];
    assert WellFilled(packs, size, n) && CarriesTail(packs, overlap, n);
    assert packs[n].paragraphs == [para];
    assert packs == before + [packs[n]];
    OwnSnoc(before, packs[n]);
    PrefixIsPacked(packs, size, overlap, n);
  }

  lemma PrefixIsPacked(packs: seq<Pack>, size: nat, overlap: nat, n: nat)
    requires Overlap(packs, overlap) && Greedy(packs, size) && n <= |packs|
    ensures Overlap(packs[..n], overlap) && Greedy(packs[..n], size)
  {
    forall i: nat | i < n ensures CarriesTail(packs[..n], overlap, i) && WellFilled(packs[..n], size, i) {
      assert CarriesTail(packs, overlap, i) && WellFilled(packs, size, i);
    }
  }

  /** Where the next paragraph has to go. */
  function Packing(before: seq<Pack>, para: string, size: nat, overlap: nat): seq<Pack> {
    if before != [] && Size(before[|before| - 1]) + |para| <= size then Fitted(before, para)
    else Opened(before, para, overlap)
  }

  /** A packing is what the one of all paragraphs but the last becomes with the last one. */
  lemma PackedBefore(done: seq<string>, size: nat, overlap: nat, packs: seq<Pack>) returns (before: seq<Pack>)
    requires Packed(done, size, overlap, packs) && done != []
    ensures Packed(done[..|done| - 1], size, overlap, before)
    ensures packs == Packing(before, done[|done| - 1], size, overlap)
  {
    assert packs != [];
    assert WellFilled(packs, size, |packs| - 1);
    var para;
    if |packs[|packs| - 1].paragraphs| > 1 {
      before, para := WithoutLastFitted(done, size, overlap, packs);
    } else {
      before, para := WithoutLastOpened(done, size, overlap, packs);
    }
  }

  /** Taking the last paragraph out of the last chunk, which holds another, keeps the chunks well filled. */
  lemma FrontIsPacked(packs: seq<Pack>, size: nat, overlap: nat, before: seq<Pack>)
    requires Overlap(packs, overlap) && Greedy(packs, size)
    requires packs != [] && |before| == |packs| && before[..|packs| - 1] == packs[..|packs| - 1]
    requires
      var last, less := packs[|packs| - 1], before[|packs| - 1];
      less.carry == last.carry && less.paragraphs != [] && less.paragraphs <= last.paragraphs && Size(less) <= size
    ensures Overlap(before, overlap) && Greedy(before, size)
  {
    forall i: nat | i < |before| ensures CarriesTail(before, overlap, i) && WellFilled(before, size, i) {
      assert CarriesTail(packs, overlap, i) && WellFilled(packs, size, i);
      if i < |packs| - 1 { assert before[i] == packs[..|packs| - 1][i]; }
      if i > 0 { assert before[i - 1] == packs[..|packs| - 1][i - 1]; }
    }
  }

  lemma NothingPacked(size: nat, overlap: nat, packs: seq<Pack>)
    requires Packed([], size, overlap, packs)
    ensures packs == []
  {
    if packs != [] {
      assert WellFilled(packs, size, 0);
      OwnHasAll(packs, 0, 0);
    }
  }

  /** The requirements leave no choice: a text has exactly one chunking. */
  lemma {:induction false} OnlyOnePacking(done: seq<string>, size: nat, overlap: nat, p: seq<Pack>, q: seq<Pack>)
    requires Packed(done, size, overlap, p) && Packed(done, size, overlap, q)
    ensures p == q
    decreases |done|
  {
    if done == [] {
      NothingPacked(size, overlap, p);
      NothingPacked(size, overlap, q);
    } else {
      var p' := PackedBefore(done, size, overlap, p);
      var q' := PackedBefore(done, size, overlap, q);
      OnlyOnePacking(done[..|done| - 1], size, overlap, p', q');
    }
  }
}
