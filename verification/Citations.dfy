/** Citation markers "[n]" with one or two digits, as the backend counts them and the frontend renders them. */
module Citations {
  import opened Wrappers
  import opened Text
  import opened Lists
  import opened Numerals

  // ---- Markers ----

  /** The length of the marker at `i`, or 0 if there is none. */
  function MarkerLen(s: string, i: nat, wide: Wide): (n: nat)
    ensures n == 0 || (i + n <= |s| && n in {3, 4})
  {
    if i + 3 <= |s| && s[i] == '[' && IsDigitFor(s[i + 1], wide) && s[i + 2] == ']' then 3
    else if i + 4 <= |s| && s[i] == '[' && IsDigitFor(s[i + 1], wide) && IsDigitFor(s[i + 2], wide) && s[i + 3] == ']' then 4
    else 0
  }

  function MarkerValue(s: string, i: nat, wide: Wide): nat
    requires MarkerLen(s, i, wide) > 0
  {
    if MarkerLen(s, i, wide) == 3 then DigitValue(s[i + 1], wide)
    else 10 * DigitValue(s[i + 1], wide) + DigitValue(s[i + 2], wide)
  }

  /** The numbers of the markers that begin before `k`, in order. */
  function NumbersUpTo(s: string, k: nat, wide: Wide): seq<nat> {
    if k == 0 then []
    else NumbersUpTo(s, k - 1, wide) + if MarkerLen(s, k - 1, wide) > 0 then [MarkerValue(s, k - 1, wide)] else []
  }

  function Numbers(s: string, wide: Wide): seq<nat> { NumbersUpTo(s, |s|, wide) }

  /** A marker found by scanning: where it begins, its text and its number. */
  datatype Match = Match(at: nat, text: string, value: nat)

  predicate IsMatch(s: string, m: Match, wide: Wide) {
    && m.at < |s| && MarkerLen(s, m.at, wide) > 0
    && m.text == s[m.at..m.at + MarkerLen(s, m.at, wide)] && m.value == MarkerValue(s, m.at, wide)
  }

  /** No marker begins from `i` up to `j`. */
  predicate NoMarkers(s: string, i: nat, j: nat, wide: Wide) {
    forall k: nat | i <= k < j :: MarkerLen(s, k, wide) == 0
  }

  /** The first marker from `i` on; without one there is none up to the end. */
  predicate IsNext(s: string, i: nat, r: Option<Match>, wide: Wide) {
    match r
    case None => i <= |s| && NoMarkers(s, i, |s|, wide)
    case Some(m) => i <= m.at && IsMatch(s, m, wide) && NoMarkers(s, i, m.at, wide)
  }

  function NextMatch(s: string, i: nat, wide: Wide): (r: Option<Match>)
    requires i <= |s|
    ensures IsNext(s, i, r, wide)
    decreases |s| - i
  {
    if i == |s| then None
    else if MarkerLen(s, i, wide) > 0 then Some(Match(i, s[i..i + MarkerLen(s, i, wide)], MarkerValue(s, i, wide)))
    else NextMatch(s, i + 1, wide)
  }

  /** Where scanning goes on. */
  function End(m: Match): nat { m.at + |m.text| }

  lemma {:induction false} NoNumbersBetween(s: string, i: nat, j: nat, wide: Wide)
    requires i <= j && NoMarkers(s, i, j, wide)
    ensures NumbersUpTo(s, j, wide) == NumbersUpTo(s, i, wide)
  {
    if i < j { NoNumbersBetween(s, i, j - 1, wide); }
  }

  /** Markers do not overlap, so scanning past one misses none. */
  lemma NumbersPastMarker(s: string, last: nat, m: Match, wide: Wide)
    requires IsNext(s, last, Some(m), wide)
    ensures NumbersUpTo(s, m.at, wide) == NumbersUpTo(s, last, wide)
    ensures NumbersUpTo(s, End(m), wide) == NumbersUpTo(s, last, wide) + [m.value]
  {
    NoNumbersBetween(s, last, m.at, wide);
    NoNumbersBetween(s, m.at + 1, End(m), wide);
  }

  // ---- The backend ----

  predicate InRange(n: nat, sources: nat) { 1 <= n <= sources }

  /** The numbers that name a source, or those that do not, in order. */
  function Select(numbers: seq<nat>, sources: nat, inRange: bool): seq<nat> {
    if numbers == [] then []
    else Select(numbers[..|numbers| - 1], sources, inRange)
         + if InRange(numbers[|numbers| - 1], sources) == inRange then [numbers[|numbers| - 1]] else []
  }

  /** The numbers an answer cites, and those it cites in vain: each once, in order of first mention. */
  function Cited(s: string, sources: nat, wide: Wide): seq<nat> {
    Dedup(Select(Numbers(s, wide), sources, true))
  }

  function Dangling(s: string, sources: nat, wide: Wide): seq<nat> {
    Dedup(Select(Numbers(s, wide), sources, false))
  }

  lemma SelectSnoc(s: seq<nat>, x: nat, sources: nat, inRange: bool)
    ensures Select(s + [x], sources, inRange) == Select(s, sources, inRange) + if InRange(x, sources) == inRange then [x] else []
  {
    assert (s + [x])[..|s|] == s;
  }

  lemma CiteOneMore(before: seq<nat>, number: nat, sources: nat, inRange: bool)
    ensures
      var was := Dedup(Select(before, sources, inRange));
      Dedup(Select(before + [number], sources, inRange))
      == if InRange(number, sources) == inRange && number !in was then was + [number] else was
  {
    SelectSnoc(before, number, sources, inRange);
    DedupSnoc(Select(before, sources, inRange), number);
    assert Select(before, sources, inRange) + [] == Select(before, sources, inRange);
  }

  /** What has been found among the markers that begin before `k`. */
  predicate Extracted(answer: string, sources: nat, k: nat, valid: seq<nat>, invalid: seq<nat>, wide: Wide) {
    && valid == Dedup(Select(NumbersUpTo(answer, k, wide), sources, true))
    && invalid == Dedup(Select(NumbersUpTo(answer, k, wide), sources, false))
  }

  lemma ExtractOneMore(answer: string, sources: nat, last: nat, m: Match, valid: seq<nat>, invalid: seq<nat>, wide: Wide)
    requires Extracted(answer, sources, last, valid, invalid, wide) && IsNext(answer, last, Some(m), wide)
    ensures End(m) <= |answer|
    ensures
      Extracted(answer, sources, End(m),
                if InRange(m.value, sources) && m.value !in valid then valid + [m.value] else valid,
                if !InRange(m.value, sources) && m.value !in invalid then invalid + [m.value] else invalid, wide)
  {
    NumbersPastMarker(answer, last, m, wide);
    CiteOneMore(NumbersUpTo(answer, last, wide), m.value, sources, true);
    CiteOneMore(NumbersUpTo(answer, last, wide), m.value, sources, false);
  }

  lemma ExtractedAll(answer: string, sources: nat, last: nat, valid: seq<nat>, invalid: seq<nat>, wide: Wide)
    requires Extracted(answer, sources, last, valid, invalid, wide) && IsNext(answer, last, None, wide)
    ensures valid == Cited(answer, sources, wide) && invalid == Dangling(answer, sources, wide)
  {
    NoNumbersBetween(answer, last, |answer|, wide);
  }

  method ExtractCitations(answer: string, sources: nat, wide: Wide) returns (valid: seq<nat>, invalid: seq<nat>)
    ensures valid == Cited(answer, sources, wide) && invalid == Dangling(answer, sources, wide)
  {
    valid, invalid := [], [];
    var last: nat := 0;
    var next := NextMatch(answer, 0, wide);
    while next.Some?
      invariant last <= |answer| && IsNext(answer, last, next, wide)
      invariant Extracted(answer, sources, last, valid, invalid, wide)
      decreases |answer| - last
    {
      var m := next.value;
      ExtractOneMore(answer, sources, last, m, valid, invalid, wide);
      if InRange(m.value, sources) {
        if m.value !in valid { valid := valid + [m.value]; }
      } else if m.value !in invalid {
        invalid := invalid + [m.value];
      }
      last := End(m);
      next := NextMatch(answer, last, wide);
    }
    ExtractedAll(answer, sources, last, valid, invalid, wide);
  }

  lemma {:induction false} SelectMembers(numbers: seq<nat>, sources: nat, inRange: bool, n: nat)
    ensures n in Select(numbers, sources, inRange) <==> n in numbers && InRange(n, sources) == inRange
  {
    if numbers != [] {
      SelectMembers(numbers[..|numbers| - 1], sources, inRange, n);
      assert numbers == numbers[..|numbers| - 1] + [numbers[|numbers| - 1]];
    }
  }

  lemma {:induction false} NumbersAreMarkers(s: string, k: nat, n: nat, wide: Wide)
    ensures n in NumbersUpTo(s, k, wide) <==> exists i: nat :: i < k && MarkerLen(s, i, wide) > 0 && MarkerValue(s, i, wide) == n
  {
    if k > 0 { NumbersAreMarkers(s, k - 1, n, wide); }
  }

  /** Valid and invalid citations are the duplicate-free split of all markers: each marker's number is in
      one list, once, and in which one depends on whether there is such a source. */
  lemma CitationsAreTheMarkers(s: string, sources: nat, wide: Wide)
    ensures Distinct(Cited(s, sources, wide)) && Distinct(Dangling(s, sources, wide))
    ensures forall n: nat :: n in Cited(s, sources, wide) <==>
      (1 <= n <= sources && exists i: nat :: MarkerLen(s, i, wide) > 0 && MarkerValue(s, i, wide) == n)
    ensures forall n: nat :: n in Dangling(s, sources, wide) <==>
      (!(1 <= n <= sources) && exists i: nat :: MarkerLen(s, i, wide) > 0 && MarkerValue(s, i, wide) == n)
  {
    DedupKeepsFirsts(Select(Numbers(s, wide), sources, true));
    DedupKeepsFirsts(Select(Numbers(s, wide), sources, false));
    forall n: nat
      ensures n in Cited(s, sources, wide) <==> n in Numbers(s, wide) && InRange(n, sources)
      ensures n in Dangling(s, sources, wide) <==> n in Numbers(s, wide) && !InRange(n, sources)
      ensures n in Numbers(s, wide) <==> exists i: nat :: MarkerLen(s, i, wide) > 0 && MarkerValue(s, i, wide) == n
    {
      SelectMembers(Numbers(s, wide), sources, true, n);
      SelectMembers(Numbers(s, wide), sources, false, n);
      NumbersAreMarkers(s, |s|, n, wide);
    }
  }

  /** From `i` up to `j` stands a marker with this number: one or two digits in brackets. */
  predicate IsMarker(s: string, i: nat, j: nat, n: nat, wide: Wide) {
    && i + 3 <= j <= |s| && j <= i + 4 && s[i] == '[' && s[j - 1] == ']'
    && IsNumber(s[i + 1..j - 1], wide) && ToNat(s[i + 1..j - 1], wide) == n
  }

  lemma MarkerIsNumber(s: string, i: nat, j: nat, n: nat, wide: Wide)
    ensures IsMarker(s, i, j, n, wide) ==> MarkerLen(s, i, wide) == j - i && MarkerValue(s, i, wide) == n
    ensures MarkerLen(s, i, wide) > 0 ==> IsMarker(s, i, i + MarkerLen(s, i, wide), MarkerValue(s, i, wide), wide)
  {
    if i + 3 <= j <= |s| && j <= i + 4 { NumberOfDigits(s[i + 1..j - 1], wide); }
    if MarkerLen(s, i, wide) > 0 { NumberOfDigits(s[i + 1..i + MarkerLen(s, i, wide) - 1], wide); }
  }

  lemma NumberOfDigits(w: string, wide: Wide)
    ensures |w| == 1 && IsDigitFor(w[0], wide) ==> IsNumber(w, wide) && ToNat(w, wide) == DigitValue(w[0], wide)
    ensures |w| == 2 && IsDigitFor(w[0], wide) && IsDigitFor(w[1], wide) ==>
      IsNumber(w, wide) && ToNat(w, wide) == 10 * DigitValue(w[0], wide) + DigitValue(w[1], wide)
  {
    if |w| == 1 || |w| == 2 { assert w[..0] == "" && (|w| == 2 ==> w[..1] == [w[0]] && w[..1][..0] == ""); }
  }

  /** A number is cited exactly when it stands in brackets somewhere in the answer and there is such a source, and
      dangling exactly when it stands there and there is none. */
  lemma CitedIff(s: string, sources: nat, wide: Wide, n: nat)
    ensures n in Cited(s, sources, wide) <==> 1 <= n <= sources && exists i, j :: IsMarker(s, i, j, n, wide)
    ensures n in Dangling(s, sources, wide) <==> !(1 <= n <= sources) && exists i, j :: IsMarker(s, i, j, n, wide)
  {
    CitationsAreTheMarkers(s, sources, wide);
    if i: nat, j: nat :| IsMarker(s, i, j, n, wide) { MarkerIsNumber(s, i, j, n, wide); }
    if i: nat :| MarkerLen(s, i, wide) > 0 && MarkerValue(s, i, wide) == n { MarkerIsNumber(s, i, 0, n, wide); }
  }

  // ---- The frontend ----

  /** What is rendered: text as it is, or a chip for a source. */
  datatype Node = Plain(text: string) | Chip(n: nat)

  function Chips(nodes: seq<Node>): seq<nat> {
    if nodes == [] then []
    else Chips(nodes[..|nodes| - 1]) + match nodes[|nodes| - 1] case Chip(n) => [n] case Plain(_) => []
  }

  /** The markers that are left standing in the text nodes. */
  function PlainMarkers(nodes: seq<Node>): seq<nat> {
    if nodes == [] then []
    else PlainMarkers(nodes[..|nodes| - 1]) + match nodes[|nodes| - 1] case Chip(_) => [] case Plain(text) => Numbers(text, ASCII_ONLY)
  }

  /** The text a node was made from. */
  predicate MadeFrom(node: Node, text: string) {
    match node
    case Plain(t) => t == text
    case Chip(n) => MarkerLen(text, 0, ASCII_ONLY) == |text| > 0 && MarkerValue(text, 0, ASCII_ONLY) == n
  }

  ghost predicate IsRendering(content: string, sources: nat, nodes: seq<Node>, texts: seq<string>) {
    && |texts| == |nodes| && Concat(texts) == content
    && (forall i | 0 <= i < |nodes| :: MadeFrom(nodes[i], texts[i]))
    && Chips(nodes) == Select(Numbers(content, ASCII_ONLY), sources, true)
    && PlainMarkers(nodes) == Select(Numbers(content, ASCII_ONLY), sources, false)
  }

  lemma ChipsSnoc(nodes: seq<Node>, x: Node)
    ensures Chips(nodes + [x]) == Chips(nodes) + match x case Chip(n) => [n] case Plain(_) => []
    ensures PlainMarkers(nodes + [x]) == PlainMarkers(nodes) + match x case Chip(_) => [] case Plain(text) => Numbers(text, ASCII_ONLY)
  {
    assert (nodes + [x])[..|nodes|] == nodes;
  }

  /** A stretch of text between markers has none of its own. */
  lemma GapHasNoNumbers(s: string, i: nat, j: nat)
    requires i <= j <= |s| && NoMarkers(s, i, j, ASCII_ONLY)
    ensures Numbers(s[i..j], ASCII_ONLY) == []
  {
    var gap := s[i..j];
    forall k: nat | k < |gap| ensures MarkerLen(gap, k, ASCII_ONLY) == 0 {
      assert MarkerLen(s, i + k, ASCII_ONLY) == 0;
    }
    NoNumbersBetween(gap, 0, |gap|, ASCII_ONLY);
  }

  lemma MarkerHasOneNumber(s: string, m: Match)
    requires IsMatch(s, m, ASCII_ONLY)
    ensures MarkerLen(m.text, 0, ASCII_ONLY) == |m.text| && MarkerValue(m.text, 0, ASCII_ONLY) == m.value && Numbers(m.text, ASCII_ONLY) == [m.value]
  {
    var text := m.text;
    assert forall k | 0 <= k < |text| :: text[k] == s[m.at + k];
    assert MarkerLen(text, 0, ASCII_ONLY) == |text|;
    forall k: nat | 1 <= k < |text| ensures MarkerLen(text, k, ASCII_ONLY) == 0 {
      assert text[k] == s[m.at + k];
    }
    NoNumbersBetween(text, 1, |text|, ASCII_ONLY);
    assert NumbersUpTo(text, 0, ASCII_ONLY) == [];
    assert NumbersUpTo(text, 1, ASCII_ONLY) == [MarkerValue(text, 0, ASCII_ONLY)];
  }

  /** Chips carry exactly the markers that name a source, the text keeps exactly the others, and nothing
      of the content is lost. */
  method RenderWithCitations(content: string, sources: nat) returns (nodes: seq<Node>)
    ensures exists texts :: IsRendering(content, sources, nodes, texts)
  {
    nodes := [];
    ghost var texts: seq<string> := [];
    var last: nat := 0;
    var next := NextMatch(content, 0, ASCII_ONLY);
    while next.Some?
      invariant last <= |content| && IsNext(content, last, next, ASCII_ONLY)
      invariant Rendered(content, sources, last, nodes, texts)
      decreases |content| - last
    {
      var m := next.value;
      if m.at > last {
        GapRendered(content, sources, last, m.at, nodes, texts);
        nodes := nodes + [Plain(content[last..m.at])];
        texts := texts + [content[last..m.at]];
      }
      MarkerRendered(content, sources, m, nodes, texts);
      nodes := nodes + [if InRange(m.value, sources) then Chip(m.value) else Plain(m.text)];
      texts := texts + [m.text];
      last := End(m);
      next := NextMatch(content, last, ASCII_ONLY);
    }
    if last < |content| {
      GapRendered(content, sources, last, |content|, nodes, texts);
      nodes := nodes + [Plain(content[last..|content|])];
      texts := texts + [content[last..|content|]];
    }
    WholeRendered(content, sources, nodes, texts);
  }

  /** The rendering of what lies before `k`. */
  ghost predicate Rendered(content: string, sources: nat, k: nat, nodes: seq<Node>, texts: seq<string>)
    requires k <= |content|
  {
    && |texts| == |nodes| && Concat(texts) == content[..k]
    && (forall i | 0 <= i < |nodes| :: MadeFrom(nodes[i], texts[i]))
    && Chips(nodes) == Select(NumbersUpTo(content, k, ASCII_ONLY), sources, true)
    && PlainMarkers(nodes) == Select(NumbersUpTo(content, k, ASCII_ONLY), sources, false)
  }

  lemma WholeRendered(content: string, sources: nat, nodes: seq<Node>, texts: seq<string>)
    requires Rendered(content, sources, |content|, nodes, texts)
    ensures IsRendering(content, sources, nodes, texts)
  {
    assert content[..|content|] == content;
  }

  lemma GapRendered(content: string, sources: nat, i: nat, j: nat, nodes: seq<Node>, texts: seq<string>)
    requires i < j <= |content| && Rendered(content, sources, i, nodes, texts) && NoMarkers(content, i, j, ASCII_ONLY)
    ensures Rendered(content, sources, j, nodes + [Plain(content[i..j])], texts + [content[i..j]])
  {
    var gap := content[i..j];
    NoNumbersBetween(content, i, j, ASCII_ONLY);
    GapHasNoNumbers(content, i, j);
    ChipsSnoc(nodes, Plain(gap));
    assert content[..j] == content[..i] + gap;
    RenderedSnoc(content, sources, i, j, nodes, texts, Plain(gap), gap);
  }

  function NodeOf(m: Match, sources: nat): Node {
    if InRange(m.value, sources) then Chip(m.value) else Plain(m.text)
  }

  lemma MarkerCounts(content: string, sources: nat, m: Match, inRange: bool)
    requires IsMatch(content, m, ASCII_ONLY)
    ensures Select(NumbersUpTo(content, End(m), ASCII_ONLY), sources, inRange)
         == Select(NumbersUpTo(content, m.at, ASCII_ONLY), sources, inRange) + if InRange(m.value, sources) == inRange then [m.value] else []
  {
    NumbersPastMarker(content, m.at, m, ASCII_ONLY);
    SelectSnoc(NumbersUpTo(content, m.at, ASCII_ONLY), m.value, sources, inRange);
  }

  lemma MarkerNode(content: string, sources: nat, m: Match, nodes: seq<Node>)
    requires IsMatch(content, m, ASCII_ONLY)
    ensures MadeFrom(NodeOf(m, sources), m.text)
    ensures Chips(nodes + [NodeOf(m, sources)]) == Chips(nodes) + if InRange(m.value, sources) then [m.value] else []
    ensures PlainMarkers(nodes + [NodeOf(m, sources)]) == PlainMarkers(nodes) + if InRange(m.value, sources) then [] else [m.value]
  {
    MarkerHasOneNumber(content, m);
    ChipsSnoc(nodes, NodeOf(m, sources));
  }

  lemma MarkerRendered(content: string, sources: nat, m: Match, nodes: seq<Node>, texts: seq<string>)
    requires IsMatch(content, m, ASCII_ONLY) && Rendered(content, sources, m.at, nodes, texts)
    ensures End(m) <= |content|
    ensures Rendered(content, sources, End(m), nodes + [NodeOf(m, sources)], texts + [m.text])
  {
    MarkerCounts(content, sources, m, true);
    MarkerCounts(content, sources, m, false);
    MarkerNode(content, sources, m, nodes);
    assert content[..End(m)] == content[..m.at] + m.text;
    RenderedSnoc(content, sources, m.at, End(m), nodes, texts, NodeOf(m, sources), m.text);
  }

  /** One more node, made from the next stretch of the text and accounting for its markers. */
  lemma RenderedSnoc(content: string, sources: nat, k: nat, k': nat, nodes: seq<Node>, texts: seq<string>, node: Node, text: string)
    requires k <= k' <= |content| && Rendered(content, sources, k, nodes, texts)
    requires MadeFrom(node, text) && content[..k'] == content[..k] + text
    requires Chips(nodes + [node]) == Select(NumbersUpTo(content, k', ASCII_ONLY), sources, true)
    requires PlainMarkers(nodes + [node]) == Select(NumbersUpTo(content, k', ASCII_ONLY), sources, false)
    ensures Rendered(content, sources, k', nodes + [node], texts + [text])
  {
    ConcatSnoc(texts, text);
  }

  // ---- The two scanners compared ----

  /** The marker at `i` is one for a scanner that takes ASCII digits only. */
  lemma NarrowMarker(s: string, i: nat, wide: Wide)
    ensures MarkerLen(s, i, ASCII_ONLY) > 0 ==>
      MarkerLen(s, i, wide) == MarkerLen(s, i, ASCII_ONLY) && MarkerValue(s, i, wide) == MarkerValue(s, i, ASCII_ONLY)
  {
  }

  /** A marker begins at `i` that has a digit other than '0' to '9'. */
  predicate WideMarkerAt(s: string, i: nat, wide: Wide) {
    MarkerLen(s, i, wide) > 0 && MarkerLen(s, i, ASCII_ONLY) == 0
  }

  predicate NoWideMarkers(s: string, k: nat, wide: Wide) {
    forall i: nat | i < k :: !WideMarkerAt(s, i, wide)
  }

  lemma {:induction false} WideReadsMore(s: string, k: nat, wide: Wide)
    ensures |NumbersUpTo(s, k, ASCII_ONLY)| <= |NumbersUpTo(s, k, wide)|
    ensures NoWideMarkers(s, k, wide) ==> NumbersUpTo(s, k, ASCII_ONLY) == NumbersUpTo(s, k, wide)
    ensures !NoWideMarkers(s, k, wide) ==> |NumbersUpTo(s, k, ASCII_ONLY)| < |NumbersUpTo(s, k, wide)|
  {
    if k > 0 {
      WideReadsMore(s, k - 1, wide);
      NarrowMarker(s, k - 1, wide);
      assert NoWideMarkers(s, k, wide) <==> NoWideMarkers(s, k - 1, wide) && !WideMarkerAt(s, k - 1, wide);
    }
  }

  lemma {:induction false} SelectSplits(numbers: seq<nat>, sources: nat)
    ensures |Select(numbers, sources, true)| + |Select(numbers, sources, false)| == |numbers|
  {
    if numbers != [] { SelectSplits(numbers[..|numbers| - 1], sources); }
  }

  /** The chips shown are the markers the backend takes for citations of a source, and the markers left in
      the text are those it takes for dangling ones, exactly when no marker of the answer has a digit
      other than '0' to '9'. Then the lists without repeats are those of the backend. */
  lemma FrontendAgreesWithBackend(content: string, sources: nat, nodes: seq<Node>, texts: seq<string>, wide: Wide)
    requires IsRendering(content, sources, nodes, texts)
    ensures
      (&& Chips(nodes) == Select(Numbers(content, wide), sources, true)
       && PlainMarkers(nodes) == Select(Numbers(content, wide), sources, false))
      <==> NoWideMarkers(content, |content|, wide)
    ensures NoWideMarkers(content, |content|, wide) ==>
      Dedup(Chips(nodes)) == Cited(content, sources, wide) && Dedup(PlainMarkers(nodes)) == Dangling(content, sources, wide)
    ensures forall i | 0 <= i < |nodes| :: nodes[i].Chip? ==> 1 <= nodes[i].n <= sources
  {
    WideReadsMore(content, |content|, wide);
    SelectSplits(Numbers(content, ASCII_ONLY), sources);
    SelectSplits(Numbers(content, wide), sources);
    forall i: nat | i < |nodes| && nodes[i].Chip? ensures 1 <= nodes[i].n <= sources {
      ChipsHave(nodes, i);
      SelectMembers(Numbers(content, ASCII_ONLY), sources, true, nodes[i].n);
    }
  }

  lemma {:induction false} ChipsHave(nodes: seq<Node>, i: nat)
    requires i < |nodes| && nodes[i].Chip?
    ensures nodes[i].n in Chips(nodes)
  {
    if i < |nodes| - 1 { ChipsHave(nodes[..|nodes| - 1], i); }
  }

  /** What the reader sees, a chip showing its number in brackets. */
  function Shown(nodes: seq<Node>): string {
    if nodes == [] then ""
    else Shown(nodes[..|nodes| - 1])
         + match nodes[|nodes| - 1] case Plain(text) => text case Chip(n) => "[" + Digits(n) + "]"
  }

  /** The chip was made from a marker like "[03]". */
  predicate PaddedChip(node: Node, text: string) {
    node.Chip? && |text| == 4 && text[1] == '0'
  }

  lemma ChipShows(node: Node, text: string)
    requires node.Chip? && MadeFrom(node, text)
    ensures PaddedChip(node, text) ==> |"[" + Digits(node.n) + "]"| < |text|
    ensures !PaddedChip(node, text) ==> "[" + Digits(node.n) + "]" == text
  {
    if |text| == 3 {
      assert Digits(node.n) == [text[1]];
      assert text == "[" + [text[1]] + "]";
    } else if text[1] != '0' {
      assert node.n / 10 == DigitValue(text[1], ASCII_ONLY) && node.n % 10 == DigitValue(text[2], ASCII_ONLY);
      assert Digits(node.n / 10) == [text[1]];
      assert Digits(node.n) == [text[1], text[2]];
      assert text == "[" + [text[1], text[2]] + "]";
    }
  }

  lemma {:induction false} ShownIsNoLonger(nodes: seq<Node>, texts: seq<string>)
    requires |texts| == |nodes| && forall i | 0 <= i < |nodes| :: MadeFrom(nodes[i], texts[i])
    ensures |Shown(nodes)| <= |Concat(texts)|
    ensures (exists i | 0 <= i < |nodes| :: PaddedChip(nodes[i], texts[i])) ==> |Shown(nodes)| < |Concat(texts)|
    ensures (forall i | 0 <= i < |nodes| :: !PaddedChip(nodes[i], texts[i])) ==> Shown(nodes) == Concat(texts)
  {
    if nodes != [] {
      var k := |nodes| - 1;
      ShownIsNoLonger(nodes[..k], texts[..k]);
      assert texts == texts[..k] + [texts[k]];
      ConcatSnoc(texts[..k], texts[k]);
      if nodes[k].Chip? { ChipShows(nodes[k], texts[k]); }
      if i :| 0 <= i < k && PaddedChip(nodes[i], texts[i]) {
        assert PaddedChip(nodes[..k][i], texts[..k][i]);
      }
    }
  }

  /** The reader sees the answer as it was written exactly when no cited source is written with a leading zero. */
  lemma ShownIsContentIff(content: string, sources: nat, nodes: seq<Node>, texts: seq<string>)
    requires IsRendering(content, sources, nodes, texts)
    ensures Shown(nodes) == content <==> forall i | 0 <= i < |nodes| :: !PaddedChip(nodes[i], texts[i])
  {
    ShownIsNoLonger(nodes, texts);
  }
}
