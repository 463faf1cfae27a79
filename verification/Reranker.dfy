/** Reordering hits by a model's comma-separated reply. */
module Reranker {
  import opened Wrappers
  import opened Lists
  import opened Numerals

  // ---- Reading the reply ----

  function WithoutSpaces(s: string): string {
    if s == "" then "" else (if s[0] == ' ' then "" else [s[0]]) + WithoutSpaces(s[1..])
  }

  function SplitAtCommas(s: string): (r: seq<string>)
    ensures |r| > 0
  {
    if s == "" then [""]
    else
      var rest := SplitAtCommas(s[1..]);
      if s[0] == ',' then [""] + rest else [[s[0]] + rest[0]] + rest[1..]
  }

  predicate IsBracket(c: char) { c == '[' || c == ']' }

  function StripBrackets(s: string): string
    decreases |s|
  {
    if s != "" && IsBracket(s[0]) then StripBrackets(s[1..])
    else if s != "" && IsBracket(s[|s| - 1]) then StripBrackets(s[..|s| - 1])
    else s
  }

  /** The test that precedes the reading of a number lets the decimal digits through, and the characters in
      `marks` as well, such as superscripts, on which the reading raises. */
  predicate PassesTest(token: string, wide: Wide, marks: set<char>) {
    token != "" && forall i | 0 <= i < |token| :: IsDigitFor(token[i], wide) || token[i] in marks
  }

  /** The passage numbers of a reply that exist, in order, repeats included. */
  function Numbers(tokens: seq<string>, n: nat, wide: Wide): seq<nat> {
    if tokens == [] then []
    else
      var token := StripBrackets(tokens[|tokens| - 1]);
      Numbers(tokens[..|tokens| - 1], n, wide)
      + if IsNumber(token, wide) && ToNat(token, wide) < n then [ToNat(token, wide)] else []
  }

  function Tokens(reply: string): seq<string> {
    SplitAtCommas(WithoutSpaces(reply))
  }

  /** The token passes the test and cannot be read. */
  predicate Raises(token: string, wide: Wide, marks: set<char>) {
    PassesTest(StripBrackets(token), wide, marks) && !IsNumber(StripBrackets(token), wide)
  }

  predicate ReplyRaises(reply: string, wide: Wide, marks: set<char>) {
    exists token <- Tokens(reply) :: Raises(token, wide, marks)
  }

  /** The passages that the reply names, each once; none when a token of it cannot be read. */
  function Named(reply: string, n: nat, wide: Wide, marks: set<char>): seq<nat> {
    if ReplyRaises(reply, wide, marks) then [] else Dedup(Numbers(Tokens(reply), n, wide))
  }

  // ---- The new order ----

  predicate InRange(order: seq<nat>, n: nat) {
    forall k | 0 <= k < |order| :: order[k] < n
  }

  /** The passages the reply does not name, in their old order. */
  function Unnamed(named: seq<nat>, n: nat): seq<nat> {
    if n == 0 then [] else Unnamed(named, n - 1) + if n - 1 in named then [] else [n - 1]
  }

  function Order(reply: string, n: nat, wide: Wide, marks: set<char>): (order: seq<nat>)
    ensures InRange(order, n)
  {
    OrderInRange(reply, n, wide, marks);
    Named(reply, n, wide, marks) + Unnamed(Named(reply, n, wide, marks), n)
  }

  lemma NamedExist(reply: string, n: nat, wide: Wide, marks: set<char>)
    ensures Distinct(Named(reply, n, wide, marks)) && forall i <- Named(reply, n, wide, marks) :: i < n
  {
    NumbersExist(Tokens(reply), n, wide);
    DedupKeepsFirsts(Numbers(Tokens(reply), n, wide));
  }

  lemma OrderInRange(reply: string, n: nat, wide: Wide, marks: set<char>)
    ensures InRange(Named(reply, n, wide, marks) + Unnamed(Named(reply, n, wide, marks), n), n)
  {
    var named := Named(reply, n, wide, marks);
    NamedExist(reply, n, wide, marks);
    UnnamedAreTheRest(named, n);
    var order := named + Unnamed(named, n);
    forall k | 0 <= k < |order| ensures order[k] < n {
      if k < |named| { assert order[k] in named; } else { assert order[k] in Unnamed(named, n); }
    }
  }

  function Reordered<T>(results: seq<T>, order: seq<nat>): seq<T>
    requires InRange(order, |results|)
  {
    seq(|order|, k requires 0 <= k < |order| => results[order[k]])
  }

  ghost predicate IsPermutation(order: seq<nat>, n: nat) {
    |order| == n && Distinct(order) && forall i: nat :: i in order <==> i < n
  }

  lemma {:induction false} UnnamedAreTheRest(named: seq<nat>, n: nat)
    ensures forall i: nat :: i in Unnamed(named, n) <==> i < n && i !in named
    ensures forall a, b | 0 <= a < b < |Unnamed(named, n)| :: Unnamed(named, n)[a] < Unnamed(named, n)[b]
  {
    if n > 0 {
      UnnamedAreTheRest(named, n - 1);
      var rest := Unnamed(named, n - 1);
      assert forall a | 0 <= a < |rest| :: rest[a] in rest;
    }
  }

  lemma {:induction false} NumbersExist(tokens: seq<string>, n: nat, wide: Wide)
    ensures forall i <- Numbers(tokens, n, wide) :: i < n
  {
    if tokens != [] { NumbersExist(tokens[..|tokens| - 1], n, wide); }
  }

  lemma {:induction false} DistinctNumbersFill(order: seq<nat>, n: nat)
    requires Distinct(order) && forall i: nat :: i in order <==> i < n
    ensures |order| == n
  {
    assert |order| == 0 || order[0] in order;
    if n > 0 {
      var last: nat := n - 1;
      assert last in order;
      var p: nat :| p < |order| && order[p] == last;
      var rest := order[..p] + order[p + 1..];
      RemoveAt(order, p);
      DistinctNumbersFill(rest, n - 1);
    }
  }

  lemma RemoveAt(order: seq<nat>, p: nat)
    requires Distinct(order) && p < |order|
    ensures
      var rest := order[..p] + order[p + 1..];
      Distinct(rest) && forall i: nat :: i in rest <==> i in order && i != order[p]
  {
    var rest := order[..p] + order[p + 1..];
    assert order == order[..p] + [order[p]] + order[p + 1..];
    forall i | i in rest ensures i != order[p] {
      var k :| 0 <= k < |rest| && rest[k] == i;
      assert rest[k] == order[if k < p then k else k + 1];
    }
  }

  /** Whatever the model replies, the new order names every passage once: first those it named, each at
      its first mention, then the others in their old order; a reply that cannot be read names none. */
  lemma OrderIsPermutation(reply: string, n: nat, wide: Wide, marks: set<char>)
    ensures IsPermutation(Order(reply, n, wide, marks), n)
    ensures
      var named := Named(reply, n, wide, marks);
      && (forall i: nat :: i in named <==> !ReplyRaises(reply, wide, marks) && i in Numbers(Tokens(reply), n, wide))
      && named <= Order(reply, n, wide, marks)
      && (forall a, b | |named| <= a < b < n :: Order(reply, n, wide, marks)[a] < Order(reply, n, wide, marks)[b])
  {
    var named := Named(reply, n, wide, marks);
    var order := Order(reply, n, wide, marks);
    NamedExist(reply, n, wide, marks);
    DedupKeepsFirsts(Numbers(Tokens(reply), n, wide));
    UnnamedAreTheRest(named, n);
    forall a, b | 0 <= a < b < |order| ensures order[a] != order[b] {
      assert order[b] in order;
      if a < |named| <= b { assert order[a] in named && order[b] in Unnamed(named, n); }
    }
    DistinctNumbersFill(order, n);
  }

  /** A reply that cannot be read leaves every passage where it was. */
  lemma {:induction false} NothingNamed(n: nat)
    ensures |Unnamed([], n)| == n && forall k | 0 <= k < n :: Unnamed([], n)[k] == k
  {
    if n > 0 { NothingNamed(n - 1); }
  }

  lemma OldOrder<T>(reply: string, results: seq<T>, wide: Wide, marks: set<char>)
    requires ReplyRaises(reply, wide, marks)
    ensures Reordered(results, Order(reply, |results|, wide, marks)) == results
  {
    NothingNamed(|results|);
  }

  // ---- A reply as it is asked for ----

  /** A passage number with the blanks and brackets a model may put around it. */
  datatype Item = Item(before: string, n: nat, after: string)

  predicate IsDecoration(s: string) {
    forall i | 0 <= i < |s| :: s[i] == ' ' || s[i] == '[' || s[i] == ']'
  }

  predicate Decorated(items: seq<Item>) {
    forall i | 0 <= i < |items| :: IsDecoration(items[i].before) && IsDecoration(items[i].after)
  }

  function Word(item: Item): string {
    item.before + Digits(item.n) + item.after
  }

  /** The numbers as a model lists them, with commas between. */
  function Listed(items: seq<Item>): string
    requires items != []
  {
    if |items| == 1 then Word(items[0]) else Word(items[0]) + "," + Listed(items[1..])
  }

  function NumbersOf(items: seq<Item>): seq<nat> {
    seq(|items|, i requires 0 <= i < |items| => items[i].n)
  }

  function Words(items: seq<Item>): seq<string> {
    seq(|items|, i requires 0 <= i < |items| => WithoutSpaces(Word(items[i])))
  }

  lemma {:induction false} WithoutSpacesOfConcat(a: string, b: string)
    ensures WithoutSpaces(a + b) == WithoutSpaces(a) + WithoutSpaces(b)
  {
    if a == "" {
      assert a + b == b;
    } else {
      WithoutSpacesOfConcat(a[1..], b);
      assert (a + b)[0] == a[0] && (a + b)[1..] == a[1..] + b;
      var first := if a[0] == ' ' then "" else [a[0]];
      assert first + (WithoutSpaces(a[1..]) + WithoutSpaces(b)) == first + WithoutSpaces(a[1..]) + WithoutSpaces(b);
    }
  }

  lemma {:induction false} NothingToTake(s: string)
    requires forall i | 0 <= i < |s| :: s[i] != ' '
    ensures WithoutSpaces(s) == s
  {
    if s != "" {
      NothingToTake(s[1..]);
      assert s == [s[0]] + s[1..];
    }
  }

  lemma {:induction false} OnlyBracketsLeft(s: string)
    requires IsDecoration(s)
    ensures forall i | 0 <= i < |WithoutSpaces(s)| :: IsBracket(WithoutSpaces(s)[i])
  {
    if s != "" { OnlyBracketsLeft(s[1..]); }
  }

  lemma {:induction false} SplitBeforeComma(a: string, rest: string)
    requires forall i | 0 <= i < |a| :: a[i] != ','
    ensures SplitAtCommas(a) == [a]
    ensures SplitAtCommas(a + "," + rest) == [a] + SplitAtCommas(rest)
  {
    if a == "" {
      assert a + "," + rest == "," + rest && ("," + rest)[1..] == rest;
    } else {
      SplitBeforeComma(a[1..], rest);
      assert a == [a[0]] + a[1..];
      var s := a + "," + rest;
      assert s[0] == a[0] && s[1..] == a[1..] + "," + rest;
    }
  }

  lemma {:induction false} StripsToNumber(before: string, w: string, after: string)
    requires forall i | 0 <= i < |before| :: IsBracket(before[i])
    requires forall i | 0 <= i < |after| :: IsBracket(after[i])
    requires IsNumber(w)
    ensures StripBrackets(before + w + after) == w
    decreases |before| + |after|
  {
    var s := before + w + after;
    if before != "" {
      StripsToNumber(before[1..], w, after);
      assert s[0] == before[0] && s[1..] == before[1..] + w + after;
    } else if after != "" {
      StripsToNumber(before, w, after[..|after| - 1]);
      assert s[0] == w[0];
      assert s[|s| - 1] == after[|after| - 1] && s[..|s| - 1] == before + w + after[..|after| - 1];
    } else {
      assert s == w && w[|w| - 1] == s[|s| - 1];
    }
  }

  lemma {:induction false} SameInWide(s: string, wide: Wide)
    requires IsNumber(s)
    ensures IsNumber(s, wide) && ToNat(s, wide) == ToNat(s)
  {
    if |s| > 1 { SameInWide(s[..|s| - 1], wide); } else { assert s[..0] == ""; }
  }

  /** A listed word, blanks and brackets taken off, reads as its number. */
  lemma WordReads(item: Item, wide: Wide)
    requires IsDecoration(item.before) && IsDecoration(item.after)
    ensures
      var token := WithoutSpaces(Word(item));
      && (forall i | 0 <= i < |token| :: token[i] != ',')
      && IsNumber(StripBrackets(token), wide) && ToNat(StripBrackets(token), wide) == item.n
  {
    var w, b, a := Digits(item.n), WithoutSpaces(item.before), WithoutSpaces(item.after);
    assert WithoutSpaces(Word(item)) == b + w + a by {
      WithoutSpacesOfConcat(item.before + w, item.after);
      WithoutSpacesOfConcat(item.before, w);
      DigitsRoundTrip(item.n);
      NothingToTake(w);
    }
    DigitsRoundTrip(item.n);
    OnlyBracketsLeft(item.before);
    OnlyBracketsLeft(item.after);
    NoComma(b, w, a);
    StripsToNumber(b, w, a);
    SameInWide(w, wide);
  }

  lemma NoComma(b: string, w: string, a: string)
    requires (forall i | 0 <= i < |b| :: IsBracket(b[i])) && IsNumber(w) && forall i | 0 <= i < |a| :: IsBracket(a[i])
    ensures forall i | 0 <= i < |b + w + a| :: (b + w + a)[i] != ','
  {
  }

  lemma {:induction false} TokensOfListed(items: seq<Item>)
    requires items != [] && Decorated(items)
    ensures Tokens(Listed(items)) == Words(items)
  {
    WordReads(items[0], ASCII_ONLY);
    var w := WithoutSpaces(Word(items[0]));
    if |items| == 1 {
      SplitBeforeComma(w, "");
    } else {
      TokensOfListed(items[1..]);
      var rest := Listed(items[1..]);
      WithoutSpacesOfConcat(Word(items[0]) + ",", rest);
      WithoutSpacesOfConcat(Word(items[0]), ",");
      NothingToTake(",");
      SplitBeforeComma(w, WithoutSpaces(rest));
      assert Words(items) == [w] + Words(items[1..]);
    }
  }

  lemma {:induction false} NumbersOfWords(items: seq<Item>, n: nat, wide: Wide, marks: set<char>)
    requires Decorated(items) && forall i | 0 <= i < |items| :: items[i].n < n
    ensures Numbers(Words(items), n, wide) == NumbersOf(items)
    ensures forall token <- Words(items) :: !Raises(token, wide, marks)
  {
    if items != [] {
      var front, last := items[..|items| - 1], items[|items| - 1];
      NumbersOfWords(front, n, wide, marks);
      WordReads(last, wide);
      assert Words(items)[..|items| - 1] == Words(front);
      assert Words(items) == Words(front) + [WithoutSpaces(Word(last))];
      assert NumbersOf(items) == NumbersOf(front) + [last.n];
    }
  }

  lemma {:induction false} DedupOfDistinct(s: seq<nat>)
    requires Distinct(s)
    ensures Dedup(s) == s
  {
    if s != [] {
      var front, last := s[..|s| - 1], s[|s| - 1];
      DedupOfDistinct(front);
      assert s == front + [last];
    }
  }

  /** A reply that lists distinct existing passages, with commas between and any blanks and brackets around the
      numbers, puts exactly these first, in its order. */
  lemma ListedComeFirst(items: seq<Item>, n: nat, wide: Wide, marks: set<char>)
    requires items != [] && Decorated(items) && Distinct(NumbersOf(items))
    requires forall i | 0 <= i < |items| :: items[i].n < n
    ensures
      var order := Order(Listed(items), n, wide, marks);
      |items| <= |order| && order[..|items|] == NumbersOf(items)
  {
    TokensOfListed(items);
    NumbersOfWords(items, n, wide, marks);
    DedupOfDistinct(NumbersOf(items));
  }

  /** Leaving out the place where the last element went. */
  lemma ReorderedWithoutLast<T>(results: seq<T>, order: seq<nat>, p: nat)
    requires IsPermutation(order, |results|) && InRange(order, |results|)
    requires p < |order| && order[p] == |results| - 1
    ensures
      var front, rest := results[..|results| - 1], order[..p] + order[p + 1..];
      && IsPermutation(rest, |front|) && InRange(rest, |front|)
      && Reordered(results, order)
         == Reordered(front, rest)[..p] + [results[|results| - 1]] + Reordered(front, rest)[p..]
  {
    var front, rest := results[..|results| - 1], order[..p] + order[p + 1..];
    RemoveAt(order, p);
    DistinctNumbersFill(rest, |front|);
    forall k | 0 <= k < |rest| ensures rest[k] == order[if k < p then k else k + 1] && rest[k] < |front| {
      assert rest[k] in rest;
    }
    SpliceAt(results, front, order, rest, p);
  }

  lemma SpliceAt<T>(results: seq<T>, front: seq<T>, order: seq<nat>, rest: seq<nat>, p: nat)
    requires InRange(order, |results|) && InRange(rest, |front|) && front <= results
    requires p < |order| == |rest| + 1
    requires forall k | 0 <= k < |rest| :: rest[k] == order[if k < p then k else k + 1]
    ensures Reordered(results, order) == Reordered(front, rest)[..p] + [results[order[p]]] + Reordered(front, rest)[p..]
  {
  }

  lemma InsertedAt<T>(s: seq<T>, p: nat, x: T)
    requires p <= |s|
    ensures multiset(s[..p] + [x] + s[p..]) == multiset(s) + multiset{x}
  {
    assert s == s[..p] + s[p..];
  }

  /** Taking the elements in a permuted order keeps each of them, repeats included. */
  lemma {:induction false} PermutationKeepsAll<T>(results: seq<T>, order: seq<nat>)
    requires IsPermutation(order, |results|) && InRange(order, |results|)
    ensures multiset(Reordered(results, order)) == multiset(results)
  {
    if |results| > 0 {
      var last: nat := |results| - 1;
      assert last in order;
      var p: nat :| p < |order| && order[p] == last;
      var front, rest := results[..last], order[..p] + order[p + 1..];
      ReorderedWithoutLast(results, order, p);
      PermutationKeepsAll(front, rest);
      InsertedAt(Reordered(front, rest), p, results[last]);
      assert results == front + [results[last]];
    }
  }

  // ---- The reranker ----

  lemma OneMoreToken(tokens: seq<string>, t: nat, n: nat, wide: Wide)
    requires t < |tokens|
    ensures
      var token := StripBrackets(tokens[t]);
      var before := Dedup(Numbers(tokens[..t], n, wide));
      Dedup(Numbers(tokens[..t + 1], n, wide))
      == if IsNumber(token, wide) && ToNat(token, wide) < n && ToNat(token, wide) !in before
         then before + [ToNat(token, wide)] else before
  {
    assert tokens[..t + 1][..t] == tokens[..t];
    var token := StripBrackets(tokens[t]);
    var numbers := Numbers(tokens[..t], n, wide);
    assert numbers + [] == numbers;
    if IsNumber(token, wide) && ToNat(token, wide) < n {
      assert (numbers + [ToNat(token, wide)])[..|numbers|] == numbers;
    }
  }

  /** Reads the reply token by token; `None` when a token cannot be read. */
  method ReadReply(reply: string, n: nat, wide: Wide, marks: set<char>) returns (r: Option<seq<nat>>)
    ensures r.None? <==> ReplyRaises(reply, wide, marks)
    ensures r.Some? ==> r.value == Named(reply, n, wide, marks)
  {
    var tokens := Tokens(reply);
    var indices: seq<nat> := [];
    for t := 0 to |tokens|
      invariant indices == Dedup(Numbers(tokens[..t], n, wide))
      invariant forall k | 0 <= k < t :: !Raises(tokens[k], wide, marks)
    {
      OneMoreToken(tokens, t, n, wide);
      var token := StripBrackets(tokens[t]);
      if PassesTest(token, wide, marks) {
        if !IsNumber(token, wide) {
          assert Raises(tokens[t], wide, marks);
          return None;
        }
        var idx := ToNat(token, wide);
        if idx < n && idx !in indices {
          indices := indices + [idx];
        }
      }
      assert !Raises(tokens[t], wide, marks);
    }
    assert tokens[..|tokens|] == tokens;
    r := Some(indices);
  }

  /** The hits in the order the reply gives, cut to the number asked for; before the cut, all of them. `None`
      when the reply cannot be read. */
  method RerankByReply<T>(reply: string, results: seq<T>, topK: nat, wide: Wide, marks: set<char>)
    returns (r: Option<seq<T>>)
    ensures r == if ReplyRaises(reply, wide, marks) then None
                 else Some(Take(Reordered(results, Order(reply, |results|, wide, marks)), topK))
    ensures multiset(Reordered(results, Order(reply, |results|, wide, marks))) == multiset(results)
  {
    OrderIsPermutation(reply, |results|, wide, marks);
    PermutationKeepsAll(results, Order(reply, |results|, wide, marks));
    var indices := ReadReply(reply, |results|, wide, marks);
    if indices.None? { return None; }
    var reranked := NamedThenOthers(results, indices.value);
    r := Some(Take(reranked, topK));
  }

  method NamedThenOthers<T>(results: seq<T>, indices: seq<nat>) returns (reranked: seq<T>)
    requires InRange(indices + Unnamed(indices, |results|), |results|)
    ensures reranked == Reordered(results, indices + Unnamed(indices, |results|))
  {
    reranked := [];
    for k := 0 to |indices|
      invariant |reranked| == k
      invariant forall j | 0 <= j < k :: indices[j] < |results| && reranked[j] == results[indices[j]]
    {
      assert (indices + Unnamed(indices, |results|))[k] == indices[k];
      reranked := reranked + [results[indices[k]]];
    }
    for i := 0 to |results|
      invariant |reranked| == |indices| + |Unnamed(indices, i)|
      invariant forall j | 0 <= j < |indices| :: indices[j] < |results| && reranked[j] == results[indices[j]]
      invariant forall j | 0 <= j < |Unnamed(indices, i)| ::
        Unnamed(indices, i)[j] < |results| && reranked[|indices| + j] == results[Unnamed(indices, i)[j]]
    {
      if i !in indices {
        reranked := reranked + [results[i]];
      }
    }
  }

  /** Without a model, or when asking it or reading its reply fails, the hits stay in their order. */
  method Rerank<T>(modelled: bool, reply: Option<string>, results: seq<T>, topK: nat, wide: Wide, marks: set<char>)
    returns (r: seq<T>)
    ensures modelled && reply.Some? ==> r == Take(Reordered(results, Order(reply.value, |results|, wide, marks)), topK)
    ensures !modelled || reply.None? || ReplyRaises(reply.value, wide, marks) ==> r == Take(results, topK)
    ensures |r| == if topK <= |results| then topK else |results|
    ensures modelled && reply.Some? ==>
      forall k | 0 <= k < |r| :: k < |Order(reply.value, |results|, wide, marks)|
                                 && r[k] == results[Order(reply.value, |results|, wide, marks)[k]]
  {
    if modelled && reply.Some? {
      OrderIsPermutation(reply.value, |results|, wide, marks);
      if ReplyRaises(reply.value, wide, marks) { OldOrder(reply.value, results, wide, marks); }
    }
    if |results| == 0 { return []; }
    if !modelled || reply.None? { return Take(results, topK); }
    var reranked := RerankByReply(reply.value, results, topK, wide, marks);
    r := if reranked.Some? then reranked.value else Take(results, topK);
  }
}
