/** Strings as the services see them: concatenation, white space and trimming. */
module Text {
  /** The characters that trimming removes. */
  predicate IsSpace(c: char) {
    || '\t' <= c <= '\r'
    || '\U{1c}' <= c <= ' '
    || c == '\U{85}' || c == '\U{a0}' || c == '\U{1680}'
    || '\U{2000}' <= c <= '\U{200a}'
    || c == '\U{2028}' || c == '\U{2029}' || c == '\U{202f}' || c == '\U{205f}' || c == '\U{3000}'
  }

  predicate IsBlank(s: string) {
    forall i | 0 <= i < |s| :: IsSpace(s[i])
  }

  function Concat(parts: seq<string>): string {
    if parts == [] then "" else parts[0] + Concat(parts[1..])
  }

  lemma {:induction false} ConcatOfAppend(a: seq<string>, b: seq<string>)
    ensures Concat(a + b) == Concat(a) + Concat(b)
    decreases |a|
  {
    if a == [] {
      assert a + b == b;
    } else {
      ConcatOfAppend(a[1..], b);
      assert (a + b)[1..] == a[1..] + b;
    }
  }

  lemma ConcatSnoc(a: seq<string>, s: string)
    ensures Concat(a + [s]) == Concat(a) + s
  {
    ConcatOfAppend(a, [s]);
    assert Concat([s]) == s;
  }

  function StripLeft(s: string): string {
    if s != "" && IsSpace(s[0]) then StripLeft(s[1..]) else s
  }

  function StripRight(s: string): string {
    if s != "" && IsSpace(s[|s| - 1]) then StripRight(s[..|s| - 1]) else s
  }

  function Strip(s: string): string {
    StripRight(StripLeft(s))
  }

  /** The characters that are not white space. */
  function Ink(s: string): string {
    if s == "" then "" else (if IsSpace(s[0]) then "" else [s[0]]) + Ink(s[1..])
  }

  lemma Regroup(a: string, b: string, c: string)
    ensures a + (b + c) == (a + b) + c
  {
  }

  lemma {:induction false} InkOfConcat(a: string, b: string)
    ensures Ink(a + b) == Ink(a) + Ink(b)
  {
    if a == "" {
      assert a + b == b;
    } else {
      InkOfConcat(a[1..], b);
      var first := if IsSpace(a[0]) then "" else [a[0]];
      assert (a + b)[0] == a[0] && (a + b)[1..] == a[1..] + b;
      Regroup(first, Ink(a[1..]), Ink(b));
    }
  }

  lemma InkSnoc(parts: seq<string>, last: string)
    ensures Ink(Concat(parts + [last])) == Ink(Concat(parts)) + Ink(last)
  {
    ConcatSnoc(parts, last);
    InkOfConcat(Concat(parts), last);
  }

  lemma {:induction false} InkOfBlank(s: string)
    ensures IsBlank(s) <==> Ink(s) == ""
  {
    if s != "" {
      InkOfBlank(s[1..]);
      if !IsSpace(s[0]) { assert !IsBlank(s); }
      else if IsBlank(s[1..]) {
        forall i | 0 <= i < |s| ensures IsSpace(s[i]) { if i > 0 { assert s[i] == s[1..][i - 1]; } }
      } else {
        var i :| 0 <= i < |s[1..]| && !IsSpace(s[1..][i]);
        assert !IsSpace(s[i + 1]);
      }
    }
  }

  lemma {:induction false} StripLeftKeepsInk(s: string)
    ensures Ink(StripLeft(s)) == Ink(s)
    ensures StripLeft(s) != "" ==> !IsSpace(StripLeft(s)[0])
  {
    if s != "" && IsSpace(s[0]) { StripLeftKeepsInk(s[1..]); }
  }

  lemma {:induction false} StripRightKeepsInk(s: string)
    ensures Ink(StripRight(s)) == Ink(s)
    ensures StripRight(s) != "" ==> !IsSpace(StripRight(s)[|StripRight(s)| - 1])
    decreases |s|
  {
    if s != "" && IsSpace(s[|s| - 1]) {
      StripRightKeepsInk(s[..|s| - 1]);
      InkOfConcat(s[..|s| - 1], [s[|s| - 1]]);
      assert s == s[..|s| - 1] + [s[|s| - 1]];
      assert Ink([s[|s| - 1]]) == "";
    }
  }

  lemma {:induction false} StripLeftIsSuffix(s: string)
    ensures |StripLeft(s)| <= |s| && StripLeft(s) == s[|s| - |StripLeft(s)|..]
  {
    if s != "" && IsSpace(s[0]) { StripLeftIsSuffix(s[1..]); }
  }

  lemma {:induction false} StripRightIsPrefix(s: string)
    ensures StripRight(s) <= s
    decreases |s|
  {
    if s != "" && IsSpace(s[|s| - 1]) { StripRightIsPrefix(s[..|s| - 1]); }
  }

  /** Trimming takes white space off both ends and nothing else: what is left is a stretch of the text
      with no white space at its ends, and nothing exactly of a blank text. */
  lemma StripKeepsInk(s: string)
    ensures Ink(Strip(s)) == Ink(s)
    ensures Strip(s) == "" <==> IsBlank(s)
    ensures exists i, j | 0 <= i <= j <= |s| :: Strip(s) == s[i..j]
    ensures Strip(s) != "" ==> !IsSpace(Strip(s)[0]) && !IsSpace(Strip(s)[|Strip(s)| - 1])
  {
    var left := StripLeft(s);
    StripLeftKeepsInk(s);
    StripRightKeepsInk(left);
    StripLeftIsSuffix(s);
    StripRightIsPrefix(left);
    InkOfBlank(s);
    InkOfBlank(Strip(s));
    if Strip(s) != "" { NotAllSpace(Strip(s)); }
    var i := |s| - |left|;
    assert Strip(s) == s[i..i + |Strip(s)|];
  }

  /** `t` is the stretch of `s` from its first character that is not white space to its last one. */
  predicate IsTrimmed(s: string, t: string) {
    exists i: nat, j: nat :: i < j <= |s| && t == s[i..j] && IsTrimmedAt(s, i, j)
  }

  predicate IsTrimmedAt(s: string, i: nat, j: nat)
    requires i < j <= |s|
  {
    IsBlank(s[..i]) && IsBlank(s[j..]) && !IsSpace(s[i]) && !IsSpace(s[j - 1])
  }

  lemma {:induction false} StripLeftDropsBlank(s: string)
    ensures |StripLeft(s)| <= |s| && IsBlank(s[..|s| - |StripLeft(s)|])
  {
    if s != "" && IsSpace(s[0]) {
      StripLeftDropsBlank(s[1..]);
      var n := |s| - |StripLeft(s)|;
      forall k | 0 <= k < n ensures IsSpace(s[..n][k]) {
        if k > 0 { assert s[..n][k] == s[1..][..n - 1][k - 1]; }
      }
    }
  }

  lemma {:induction false} StripRightDropsBlank(s: string)
    ensures |StripRight(s)| <= |s| && IsBlank(s[|StripRight(s)|..])
    decreases |s|
  {
    if s != "" && IsSpace(s[|s| - 1]) {
      var front := s[..|s| - 1];
      StripRightDropsBlank(front);
      var n := |StripRight(s)|;
      assert s[n..] == front[n..] + [s[|s| - 1]];
    }
  }

  lemma StripIsTrimmed(s: string)
    requires !IsBlank(s)
    ensures IsTrimmed(s, Strip(s))
  {
    var left := StripLeft(s);
    StripKeepsInk(s);
    StripLeftIsSuffix(s);
    StripLeftDropsBlank(s);
    StripRightIsPrefix(left);
    StripRightDropsBlank(left);
    var i: nat := |s| - |left|;
    var j: nat := i + |Strip(s)|;
    assert s[j..] == left[|Strip(s)|..];
    assert Strip(s) == s[i..j] && Strip(s)[0] == s[i] && Strip(s)[|Strip(s)| - 1] == s[j - 1];
    assert IsTrimmedAt(s, i, j);
  }

  lemma NotAllSpace(s: string)
    requires s != "" && !IsSpace(s[|s| - 1])
    ensures Ink(s) != ""
  {
    InkOfBlank(s);
  }

  /** The parts with a line break between each two. */
  function Lines(parts: seq<string>): string {
    if parts == [] then ""
    else if |parts| == 1 then parts[0]
    else parts[0] + "\n" + Lines(parts[1..])
  }

  /** One part is itself, and a further part stands behind a line break. */
  lemma {:induction false} LinesSnoc(parts: seq<string>, last: string)
    ensures Lines(parts + [last]) == if parts == [] then last else Lines(parts) + "\n" + last
    ensures |Lines(parts + [last])| == |Concat(parts + [last])| + |parts|
  {
    var more := parts + [last];
    ConcatSnoc(parts, last);
    if parts != [] {
      LinesSnoc(parts[1..], last);
      assert more[1..] == parts[1..] + [last];
      assert Concat(more) == parts[0] + Concat(more[1..]);
      if |parts| > 1 {
        assert parts[0] + "\n" + (Lines(parts[1..]) + "\n" + last) == parts[0] + "\n" + Lines(parts[1..]) + "\n" + last;
      }
    }
  }

  lemma {:induction false} LinesKeepInk(parts: seq<string>)
    ensures Ink(Lines(parts)) == Ink(Concat(parts))
  {
    if |parts| == 1 {
      assert Concat(parts) == parts[0] + "" == parts[0];
    } else if parts != [] {
      LinesKeepInk(parts[1..]);
      InkOfConcat(parts[0], "\n" + Lines(parts[1..]));
      InkOfConcat("\n", Lines(parts[1..]));
      InkOfConcat(parts[0], Concat(parts[1..]));
      assert parts[0] + "\n" + Lines(parts[1..]) == parts[0] + ("\n" + Lines(parts[1..]));
      assert Ink("\n") == "";
    }
  }
}
