/** The part of Python's `str` the pipeline relies on: ASCII lower-casing, `find`, whitespace
    trimming, joining. */
module Text {

  function LowerChar(c: char): char {
    if 'A' <= c <= 'Z' then (c as int + 32) as char else c
  }

  function Lower(s: string): (r: string)
    ensures |r| == |s|
  {
    seq(|s|, i requires 0 <= i < |s| => LowerChar(s[i]))
  }

  lemma LowerConcat(a: string, b: string)
    ensures Lower(a + b) == Lower(a) + Lower(b)
  {
  }

  lemma LowerSlice(s: string, i: nat, j: nat)
    requires i <= j <= |s|
    ensures Lower(s[i..j]) == Lower(s)[i..j]
  {
  }

  /** `s[at : at + len(word)] == word`. */
  predicate Occurs(s: string, word: string, at: int) {
    0 <= at && at + |word| <= |s| && s[at..at + |word|] == word
  }

  /** `s.find(word, from)`: the leftmost occurrence at or after `from`, or -1. */
  function Find(s: string, word: string, from: nat): (at: int)
    ensures at == -1 || from <= at <= |s| - |word|
    decreases |s| - from
  {
    if |s| < from + |word| then -1
    else if Occurs(s, word, from) then from
    else if |s| == from then -1
    else Find(s, word, from + 1)
  }

  lemma {:induction false} FindIsLeftmost(s: string, word: string, from: nat)
    ensures var at := Find(s, word, from);
            && (at != -1 ==> Occurs(s, word, at))
            && forall k :: from <= k && (at == -1 || k < at) ==> !Occurs(s, word, k)
    decreases |s| - from
  {
    if from + |word| <= |s| && !Occurs(s, word, from) && |s| != from {
      FindIsLeftmost(s, word, from + 1);
    }
  }

  /** What `find` returns is determined by what it promises. */
  lemma FindIs(s: string, word: string, from: nat, at: nat)
    requires from <= at && Occurs(s, word, at)
    requires forall k :: from <= k < at ==> !Occurs(s, word, k)
    ensures Find(s, word, from) == at
  {
    FindIsLeftmost(s, word, from);
  }

  lemma FindNothing(s: string, word: string, from: nat)
    requires forall k :: from <= k ==> !Occurs(s, word, k)
    ensures Find(s, word, from) == -1
  {
    FindIsLeftmost(s, word, from);
  }

  predicate Contains(s: string, word: string) {
    Find(s, word, 0) != -1
  }

  lemma OccursShift(s: string, word: string, i: nat, at: int)
    requires i <= |s| && 0 <= at
    ensures Occurs(s[i..], word, at) <==> Occurs(s, word, i + at)
  {
    if i + at + |word| <= |s| {
      assert s[i..][at..at + |word|] == s[i + at..i + at + |word|];
    }
  }

  /** Searching from an index is searching the rest of the text. */
  lemma FindShift(s: string, word: string, i: nat)
    requires i <= |s|
    ensures var rest := Find(s[i..], word, 0);
            Find(s, word, i) == if rest == -1 then -1 else i + rest
  {
    var rest := Find(s[i..], word, 0);
    FindIsLeftmost(s[i..], word, 0);
    forall k | i <= k && (rest == -1 || k < i + rest)
      ensures !Occurs(s, word, k)
    {
      OccursShift(s, word, i, k - i);
    }
    if rest == -1 {
      FindNothing(s, word, i);
    } else {
      OccursShift(s, word, i, rest);
      FindIs(s, word, i, i + rest);
    }
  }

  lemma OccursLeft(a: string, b: string, word: string, at: int)
    requires at + |word| <= |a|
    ensures Occurs(a + b, word, at) <==> Occurs(a, word, at)
  {
    if 0 <= at {
      assert (a + b)[at..at + |word|] == a[at..at + |word|];
    }
  }

  lemma OccursRight(a: string, b: string, word: string, at: int)
    requires |a| <= at
    ensures Occurs(a + b, word, at) <==> Occurs(b, word, at - |a|)
  {
    assert (a + b)[|a|..] == b;
    OccursShift(a + b, word, |a|, at - |a|);
  }

  /** `"".join(parts)`. */
  function Join(parts: seq<string>): string {
    if parts == [] then "" else parts[0] + Join(parts[1..])
  }

  lemma Associate(a: string, b: string, c: string)
    ensures a + (b + c) == (a + b) + c
  {
  }

  lemma {:induction false} JoinConcat(a: seq<string>, b: seq<string>)
    ensures Join(a + b) == Join(a) + Join(b)
  {
    if a == [] {
      assert a + b == b;
    } else {
      JoinConcat(a[1..], b);
      assert (a + b)[1..] == a[1..] + b && (a + b)[0] == a[0];
      Associate(a[0], Join(a[1..]), Join(b));
    }
  }

  lemma JoinAppend(a: seq<string>, part: string)
    ensures Join(a + [part]) == Join(a) + part
  {
    JoinConcat(a, [part]);
    assert Join([part]) == part + Join([]);
  }

  lemma JoinThen(a: seq<string>, part: string, rest: string)
    ensures Join(a + [part]) + rest == Join(a) + (part + rest)
  {
    JoinAppend(a, part);
  }

  lemma JoinNothing(rest: string)
    ensures Join([]) + rest == rest
  {
  }

  /** `str.isspace`, which is also what `\s` matches in a `str` pattern. */
  predicate IsSpace(c: char) {
    var n := c as int;
    || 9 <= n <= 13 || 28 <= n <= 32 || n == 0x85 || n == 0xA0 || n == 0x1680
    || 0x2000 <= n <= 0x200A || n == 0x2028 || n == 0x2029 || n == 0x202F || n == 0x205F
    || n == 0x3000
  }

  /** Of the visible ASCII characters none is a space; tab, the line ends and the space itself are. */
  lemma AsciiSpaces(c: char)
    ensures c == ' ' || c == '\t' || c == '\n' || c == '\r' ==> IsSpace(c)
    ensures '!' <= c <= '~' ==> !IsSpace(c)
  {
  }

  function SkipSpace(s: string): string {
    if s != "" && IsSpace(s[0]) then SkipSpace(s[1..]) else s
  }

  function DropTrailingSpace(s: string): string {
    if s != "" && IsSpace(s[|s| - 1]) then DropTrailingSpace(s[..|s| - 1]) else s
  }

  /** `s.strip()`. */
  function Strip(s: string): string {
    DropTrailingSpace(SkipSpace(s))
  }

  lemma {:induction false} SkipSpaceIsLongest(text: string, from: nat)
    requires from <= |text|
    ensures var end := |text| - |SkipSpace(text[from..])|;
            && from <= end <= |text| && SkipSpace(text[from..]) == text[end..]
            && (forall k :: from <= k < end ==> IsSpace(text[k]))
            && (end < |text| ==> !IsSpace(text[end]))
    decreases |text| - from
  {
    if from < |text| && IsSpace(text[from]) {
      assert text[from..][1..] == text[from + 1..];
      SkipSpaceIsLongest(text, from + 1);
    }
  }

  lemma {:induction false} DropTrailingIsLongest(s: string)
    ensures var n := |DropTrailingSpace(s)|;
            && n <= |s| && DropTrailingSpace(s) == s[..n]
            && (forall k :: n <= k < |s| ==> IsSpace(s[k]))
            && (n > 0 ==> !IsSpace(s[n - 1]))
    decreases |s|
  {
    hide IsSpace;
    if s != "" && IsSpace(s[|s| - 1]) {
      var t := s[..|s| - 1];
      DropTrailingIsLongest(t);
      assert forall k :: 0 <= k < |t| ==> t[k] == s[k];
    }
  }

  /** `strip` takes whitespace off both ends, all of it and nothing else. */
  lemma StripTrims(s: string) returns (i: nat, j: nat)
    ensures i <= j <= |s| && Strip(s) == s[i..j]
    ensures (forall k :: 0 <= k < i ==> IsSpace(s[k])) && (forall k :: j <= k < |s| ==> IsSpace(s[k]))
    ensures i < j ==> !IsSpace(s[i]) && !IsSpace(s[j - 1])
  {
    hide IsSpace, SkipSpace, DropTrailingSpace;
    SkipSpaceIsLongest(s, 0);
    assert s[0..] == s;
    var front := SkipSpace(s);
    DropTrailingIsLongest(front);
    i := |s| - |front|;
    j := i + |DropTrailingSpace(front)|;
    assert front == s[i..];
    forall k | j <= k < |s|
      ensures IsSpace(s[k])
    {
      assert front[k - i] == s[k];
    }
    assert forall k :: 0 <= k < |front| ==> front[k] == s[i + k];
  }

  /** The text with every whitespace character removed. */
  function Erase(s: string): string {
    if s == "" then "" else (if IsSpace(s[0]) then "" else [s[0]]) + Erase(s[1..])
  }

  lemma {:induction false} EraseConcat(a: string, b: string)
    ensures Erase(a + b) == Erase(a) + Erase(b)
  {
    hide IsSpace;
    if a == "" {
      assert a + b == b;
    } else {
      var head := if IsSpace(a[0]) then "" else [a[0]];
      EraseConcat(a[1..], b);
      assert (a + b)[1..] == a[1..] + b && (a + b)[0] == a[0];
      Associate(head, Erase(a[1..]), Erase(b));
    }
  }

  lemma {:induction false} EraseSkipSpace(s: string)
    ensures Erase(SkipSpace(s)) == Erase(s)
  {
    if s != "" && IsSpace(s[0]) {
      EraseSkipSpace(s[1..]);
    }
  }

  lemma {:induction false} EraseDropTrailing(s: string)
    ensures Erase(DropTrailingSpace(s)) == Erase(s)
  {
    if s != "" && IsSpace(s[|s| - 1]) {
      EraseDropTrailing(s[..|s| - 1]);
      assert s == s[..|s| - 1] + [s[|s| - 1]];
      EraseConcat(s[..|s| - 1], [s[|s| - 1]]);
      assert Erase([s[|s| - 1]]) == "";
    }
  }

  lemma EraseStrip(s: string)
    ensures Erase(Strip(s)) == Erase(s)
  {
    EraseDropTrailing(SkipSpace(s));
    EraseSkipSpace(s);
  }

  lemma {:induction false} EraseNonBlank(s: string, i: nat)
    requires i < |s| && !IsSpace(s[i])
    ensures Erase(s) != ""
  {
    if i > 0 {
      EraseNonBlank(s[1..], i - 1);
    }
  }
}
