/** The output budget, applied to a token stream as it passes and to a finished token list. */
module OutputBudget {
  import opened Text

  /** What the policy says about answers: the budget in characters and the two fixed texts. */
  datatype Policy = Policy(budget: nat, fallback: string, notice: string)

  /** At most the budget's first characters, with the notice when something was cut. */
  function Cut(text: string, p: Policy): string {
    if |text| <= p.budget then text else text[..p.budget] + p.notice
  }

  /** The promised answer for a given text. */
  function Bounded(text: string, p: Policy): string {
    if text == "" then p.fallback else Cut(text, p)
  }

  // ---- The two forms, token by token ----

  /** The tokens that a list is limited to once `emitted` characters are out. */
  function Limited(tokens: seq<string>, emitted: nat, p: Policy): seq<string> {
    if tokens == [] then []
    else if emitted >= p.budget then [p.notice]
    else if |tokens[0]| > p.budget - emitted then [tokens[0][..p.budget - emitted], p.notice]
    else [tokens[0]] + Limited(tokens[1..], emitted + |tokens[0]|, p)
  }

  function WithoutEmpty(tokens: seq<string>): seq<string> {
    if tokens == [] then []
    else if tokens[0] == "" then WithoutEmpty(tokens[1..])
    else [tokens[0]] + WithoutEmpty(tokens[1..])
  }

  predicate SomeNotBlank(tokens: seq<string>) {
    exists i | 0 <= i < |tokens| :: !IsBlank(tokens[i])
  }

  function Finalized(tokens: seq<string>, p: Policy): seq<string> {
    Limited(if SomeNotBlank(tokens) then tokens else [p.fallback], 0, p)
  }

  function Streamed(tokens: seq<string>, p: Policy): seq<string> {
    if WithoutEmpty(tokens) == [] then [p.fallback] else Limited(WithoutEmpty(tokens), 0, p)
  }

  /** What makes a list lose characters or be declared cut: too much text, or an empty token after
      a full budget. */
  predicate Overruns(tokens: seq<string>, room: nat) {
    || |Concat(tokens)| > room
    || (|Concat(tokens)| == room && tokens != [] && tokens[|tokens| - 1] == "")
  }

  lemma OverrunsLater(tokens: seq<string>, room: nat)
    requires tokens != []
    ensures room == 0 || |tokens[0]| > room ==> Overruns(tokens, room)
    ensures 0 < room && |tokens[0]| <= room ==> (Overruns(tokens, room) <==> Overruns(tokens[1..], room - |tokens[0]|))
  {
    assert Concat(tokens) == tokens[0] + Concat(tokens[1..]);
    if room == 0 && Concat(tokens) == "" { LastOfNothing(tokens); }
  }

  lemma {:induction false} LastOfNothing(tokens: seq<string>)
    requires tokens != [] && Concat(tokens) == ""
    ensures tokens[|tokens| - 1] == ""
  {
    if |tokens| > 1 { LastOfNothing(tokens[1..]); }
  }

  /** The same, found token by token. */
  predicate Cuts(tokens: seq<string>, room: nat) {
    tokens != [] && (room == 0 || |tokens[0]| > room || Cuts(tokens[1..], room - |tokens[0]|))
  }

  lemma {:induction false} CutsIffOverruns(tokens: seq<string>, room: nat)
    ensures Cuts(tokens, room) <==> Overruns(tokens, room)
  {
    if tokens != [] {
      OverrunsLater(tokens, room);
      if room > 0 && |tokens[0]| <= room { CutsIffOverruns(tokens[1..], room - |tokens[0]|); }
    }
  }

  /** The text that stays, cut at the room left. */
  function Kept(tokens: seq<string>, room: nat, notice: string): string {
    if Overruns(tokens, room) then Concat(tokens)[..room] + notice else Concat(tokens)
  }

  lemma KeptOneMore(tokens: seq<string>, room: nat, notice: string)
    requires tokens != [] && 0 < room && |tokens[0]| <= room
    ensures Kept(tokens, room, notice) == tokens[0] + Kept(tokens[1..], room - |tokens[0]|, notice)
  {
    OverrunsLater(tokens, room);
    var text, rest := Concat(tokens), Concat(tokens[1..]);
    assert text == tokens[0] + rest;
    if Overruns(tokens, room) {
      assert text[..room] == tokens[0] + rest[..room - |tokens[0]|];
      assert tokens[0] + rest[..room - |tokens[0]|] + notice == tokens[0] + (rest[..room - |tokens[0]|] + notice);
    }
  }

  lemma ConcatTwo(a: string, b: string)
    ensures Concat([a]) == a && Concat([a, b]) == a + b
  {
    assert [a, b][1..] == [b];
    assert Concat([b]) == b;
  }

  /** Limiting a list keeps its text, or its first characters up to the budget and then the notice. */
  lemma {:induction false} LimitedText(tokens: seq<string>, emitted: nat, p: Policy)
    requires emitted <= p.budget
    ensures Concat(Limited(tokens, emitted, p)) == Kept(tokens, p.budget - emitted, p.notice)
  {
    if tokens != [] {
      var room := p.budget - emitted;
      if room == 0 {
        OverrunsLater(tokens, room);
        ConcatTwo(p.notice, "");
        assert Concat(tokens)[..0] + p.notice == p.notice;
      } else if |tokens[0]| > room {
        OverrunsLater(tokens, room);
        ConcatTwo(tokens[0][..room], p.notice);
        assert Concat(tokens)[..room] == tokens[0][..room];
      } else {
        LimitedText(tokens[1..], emitted + |tokens[0]|, p);
        KeptOneMore(tokens, room, p.notice);
        var rest := Limited(tokens[1..], emitted + |tokens[0]|, p);
        assert ([tokens[0]] + rest)[1..] == rest;
      }
    }
  }

  lemma {:induction false} WithoutEmptyText(tokens: seq<string>)
    ensures Concat(WithoutEmpty(tokens)) == Concat(tokens)
    ensures forall i | 0 <= i < |WithoutEmpty(tokens)| :: WithoutEmpty(tokens)[i] != ""
    ensures WithoutEmpty(tokens) == [] <==> Concat(tokens) == ""
  {
    if tokens != [] { WithoutEmptyText(tokens[1..]); }
  }

  /** Streaming gives exactly the promised answer. */
  lemma StreamedIsBounded(stream: seq<string>, p: Policy)
    ensures Concat(Streamed(stream, p)) == Bounded(Concat(stream), p)
  {
    WithoutEmptyText(stream);
    LimitedText(WithoutEmpty(stream), 0, p);
    assert Concat([p.fallback]) == p.fallback;
  }

  // ---- The loops ----

  /** What limiting does with the next token, put behind what is already out. */
  lemma LimitNext(out: seq<string>, rest: seq<string>, emitted: nat, p: Policy)
    requires rest != []
    ensures emitted >= p.budget ==> out + Limited(rest, emitted, p) == out + [p.notice]
    ensures emitted < p.budget && |rest[0]| > p.budget - emitted ==>
      out + Limited(rest, emitted, p) == out + [rest[0][..p.budget - emitted]] + [p.notice]
    ensures emitted < p.budget && |rest[0]| <= p.budget - emitted ==>
      out + Limited(rest, emitted, p) == out + [rest[0]] + Limited(rest[1..], emitted + |rest[0]|, p)
  {
  }

  lemma NextToken(stream: seq<string>, i: nat)
    requires i < |stream|
    ensures WithoutEmpty(stream[i..]) == (if stream[i] == "" then [] else [stream[i]]) + WithoutEmpty(stream[i + 1..])
  {
    assert stream[i..][1..] == stream[i + 1..];
    assert [] + WithoutEmpty(stream[i + 1..]) == WithoutEmpty(stream[i + 1..]);
  }

  /** The stream as it is passed on: its characters are exactly the promised answer. */
  method WrapStream(stream: seq<string>, p: Policy) returns (out: seq<string>)
    ensures out == Streamed(stream, p)
    ensures
      var text := Concat(stream);
      Concat(out) == if text == "" then p.fallback else if |text| <= p.budget then text else text[..p.budget] + p.notice
  {
    out := [];
    var emitted: nat, seen, truncated := 0, false, false;
    ghost var tokens := WithoutEmpty(stream);
    ghost var whole, rest := Limited(tokens, 0, p), tokens;
    for i := 0 to |stream|
      invariant !truncated && emitted <= p.budget && rest == WithoutEmpty(stream[i..])
      invariant !seen ==> out == [] && emitted == 0 && rest == tokens
      invariant seen ==> tokens != []
      invariant whole == out + Limited(rest, emitted, p)
    {
      var token := stream[i];
      NextToken(stream, i);
      if token == "" {
        continue;
      }
      seen := true;
      LimitNext(out, rest, emitted, p);
      rest := rest[1..];
      var remaining := p.budget - emitted;
      if remaining <= 0 {
        truncated := true;
        break;
      }
      if |token| > remaining {
        out := out + [token[..remaining]];
        truncated := true;
        break;
      }
      emitted := emitted + |token|;
      out := out + [token];
    }
    assert truncated ==> seen && whole == out + [p.notice];
    assert !truncated ==> whole == out + [] == out;
    if !seen {
      out := out + [p.fallback];
    } else if truncated {
      out := out + [p.notice];
    }
    StreamedIsBounded(stream, p);
  }

  method LimitTokens(tokens: seq<string>, p: Policy) returns (limited: seq<string>, truncated: bool)
    ensures limited == Limited(tokens, 0, p)
    ensures truncated <==> Cuts(tokens, p.budget)
  {
    var emitted: nat := 0;
    limited := [];
    ghost var rest := tokens;
    for i := 0 to |tokens|
      invariant emitted <= p.budget && rest == tokens[i..]
      invariant Cuts(tokens, p.budget) <==> Cuts(rest, p.budget - emitted)
      invariant Limited(tokens, 0, p) == limited + Limited(rest, emitted, p)
    {
      var token := tokens[i];
      var remaining := p.budget - emitted;
      if remaining <= 0 {
        return limited + [p.notice], true;
      }
      if |token| > remaining {
        return limited + [token[..remaining], p.notice], true;
      }
      limited := limited + [token];
      emitted := emitted + |token|;
      rest := rest[1..];
    }
    truncated := false;
  }

  /** The response, or the fallback for a blank one, limited: its text is kept whole, or cut at the budget
      with the notice when it overruns. */
  method FinalizeState(tokens: seq<string>, p: Policy) returns (out: seq<string>, truncated: bool)
    ensures out == Finalized(tokens, p)
    ensures
      var response := if SomeNotBlank(tokens) then tokens else [p.fallback];
      && (truncated <==> Overruns(response, p.budget))
      && Concat(out) == if truncated then Concat(response)[..p.budget] + p.notice else Concat(response)
  {
    var response := tokens;
    if !SomeNotBlank(tokens) {
      response := [p.fallback];
    }
    out, truncated := LimitTokens(response, p);
    CutsIffOverruns(response, p.budget);
    LimitedText(response, 0, p);
  }

  // ---- Streaming and batch compared ----

  /** Without empty tokens and with something to say, the batch form is the streaming form, token by token. */
  lemma BatchIsStream(tokens: seq<string>, p: Policy)
    requires forall i | 0 <= i < |tokens| :: tokens[i] != ""
    requires SomeNotBlank(tokens)
    ensures Finalized(tokens, p) == Streamed(tokens, p)
  {
    NothingToDrop(tokens);
  }

  lemma {:induction false} NothingToDrop(tokens: seq<string>)
    requires forall i | 0 <= i < |tokens| :: tokens[i] != ""
    ensures WithoutEmpty(tokens) == tokens
  {
    if tokens != [] { NothingToDrop(tokens[1..]); }
  }

  lemma {:induction false} BlankText(tokens: seq<string>)
    ensures IsBlank(Concat(tokens)) <==> !SomeNotBlank(tokens)
  {
    if tokens != [] {
      BlankText(tokens[1..]);
      var text := Concat(tokens);
      assert text == tokens[0] + Concat(tokens[1..]);
      if SomeNotBlank(tokens) {
        var i :| 0 <= i < |tokens| && !IsBlank(tokens[i]);
        if i == 0 {
          var k :| 0 <= k < |tokens[0]| && !IsSpace(tokens[0][k]);
          assert !IsSpace(text[k]);
        } else {
          assert !IsBlank(tokens[1..][i - 1]);
          var k :| 0 <= k < |Concat(tokens[1..])| && !IsSpace(Concat(tokens[1..])[k]);
          assert !IsSpace(text[|tokens[0]| + k]);
        }
      } else {
        forall i | 0 <= i < |tokens[1..]| ensures IsBlank(tokens[1..][i]) {
          assert IsBlank(tokens[i + 1]);
        }
      }
    }
  }

  /** The batch form gives the promised answer exactly when the text is empty, or is not blank and is
      not followed by an empty token after filling the budget to the last character. */
  lemma BatchIsBoundedIff(tokens: seq<string>, p: Policy)
    requires 0 < |p.fallback| <= p.budget && !IsSpace(p.fallback[0]) && p.notice != ""
    ensures
      var text := Concat(tokens);
      var promised := if text == "" then p.fallback else if |text| <= p.budget then text else text[..p.budget] + p.notice;
      Concat(Finalized(tokens, p)) == promised <==>
        (|| text == ""
         || (!IsBlank(text) && !(|text| == p.budget && tokens[|tokens| - 1] == "")))
  {
    var text := Concat(tokens);
    BlankText(tokens);
    if SomeNotBlank(tokens) {
      LimitedText(tokens, 0, p);
      if |text| == p.budget {
        assert |text[..p.budget] + p.notice| > |text|;
      }
    } else {
      assert Concat([p.fallback]) == p.fallback;
      LimitedText([p.fallback], 0, p);
      if text != "" {
        assert IsSpace(Bounded(text, p)[0]);
      }
    }
  }

  /** Neither form ever says more than the budget allows, the fixed texts apart. */
  lemma BudgetIsKept(tokens: seq<string>, p: Policy)
    ensures |Concat(Streamed(tokens, p))| <= p.budget + |p.notice| || Concat(Streamed(tokens, p)) == p.fallback
    ensures |Concat(Finalized(tokens, p))| <= p.budget + |p.notice|
  {
    StreamedIsBounded(tokens, p);
    LimitedText(if SomeNotBlank(tokens) then tokens else [p.fallback], 0, p);
  }
}
