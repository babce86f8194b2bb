/** Upper and lower case: think tags are found in any casing, and nothing else about a text's casing matters. */
module LetterCase {
  import opened Text
  import opened ThinkScanner
  import opened ThinkBatch

  /** The same character, up to the case of an ASCII letter. */
  predicate SameLetter(a: char, b: char) {
    || a == b
    || ('A' <= a <= 'Z' && b as int == a as int + 32)
    || ('A' <= b <= 'Z' && a as int == b as int + 32)
  }

  predicate SameButCase(a: string, b: string) {
    |a| == |b| && forall i :: 0 <= i < |a| ==> SameLetter(a[i], b[i])
  }

  /** `lower()` forgets the case of letters and nothing else. */
  lemma LowerForgetsCase(a: string, b: string)
    ensures Lower(a) == Lower(b) <==> SameButCase(a, b)
  {
    if Lower(a) == Lower(b) {
      assert |a| == |b|;
      forall i | 0 <= i < |a|
        ensures SameLetter(a[i], b[i])
      {
        assert Lower(a)[i] == Lower(b)[i];
      }
    } else if |a| == |b| {
      var i :| 0 <= i < |a| && Lower(a)[i] != Lower(b)[i];
      assert !SameLetter(a[i], b[i]);
    }
  }

  lemma TagsAreLower()
    ensures Lower("<think>") == "<think>" && Lower("</think>") == "</think>"
  {
  }

  /** The text reads like the tag at that position, in whatever casing. */
  predicate ReadsAt(text: string, tag: string, at: int) {
    0 <= at && at + |tag| <= |text| && SameButCase(text[at..at + |tag|], tag)
  }

  /** A tag is where the text reads like it. */
  lemma TagInAnyCase(s: string, inThink: bool, at: int)
    ensures Occurs(Lower(s), Tag(inThink), at) <==> ReadsAt(s, if inThink then "</think>" else "<think>", at)
  {
    var tag := if inThink then "</think>" else "<think>";
    if 0 <= at && at + |tag| <= |s| {
      LowerSlice(s, at, at + |tag|);
      LowerForgetsCase(s[at..at + |tag|], tag);
      TagsAreLower();
    }
  }

  // ---------------------------------------------------------------------------
  // The same positions
  // ---------------------------------------------------------------------------

  /** The characters of a text at the marked positions. */
  function Pick(text: string, kept: seq<bool>): string
    requires |text| == |kept|
  {
    if text == "" then "" else (if kept[0] then [text[0]] else "") + Pick(text[1..], kept[1..])
  }

  lemma {:induction false} PickConcat(a: string, x: seq<bool>, b: string, y: seq<bool>)
    requires |a| == |x| && |b| == |y|
    ensures Pick(a + b, x + y) == Pick(a, x) + Pick(b, y)
    decreases |a|
  {
    if a == "" {
      assert a + b == b && x + y == y;
    } else {
      PickConcat(a[1..], x[1..], b, y);
      assert (a + b)[1..] == a[1..] + b && (x + y)[1..] == x[1..] + y;
      Associate(if x[0] then [a[0]] else "", Pick(a[1..], x[1..]), Pick(b, y));
    }
  }

  function All(n: nat, mark: bool): (marks: seq<bool>)
    ensures |marks| == n
  {
    seq(n, i => mark)
  }

  lemma {:induction false} PickAll(text: string, mark: bool)
    ensures Pick(text, All(|text|, mark)) == if mark then text else ""
    decreases |text|
  {
    if text != "" {
      PickAll(text[1..], mark);
      assert All(|text|, mark)[1..] == All(|text[1..]|, mark);
    }
  }

  lemma {:induction false} PickedIsSame(a: string, b: string, kept: seq<bool>)
    requires SameButCase(a, b) && |kept| == |a|
    ensures SameButCase(Pick(a, kept), Pick(b, kept))
    decreases |a|
  {
    if a != "" {
      assert a[1..] == a[1..|a|] && b[1..] == b[1..|b|];
      SameSlice(a, b, 1, |a|);
      PickedIsSame(a[1..], b[1..], kept[1..]);
      assert SameLetter(a[0], b[0]);
    }
  }

  lemma SameSlice(a: string, b: string, i: nat, j: nat)
    requires SameButCase(a, b) && i <= j <= |a|
    ensures SameButCase(a[i..j], b[i..j])
  {
    forall k | 0 <= k < j - i
      ensures SameLetter(a[i..j][k], b[i..j][k])
    {
      assert SameLetter(a[i + k], b[i + k]);
    }
  }

  lemma SameTail(a: string, b: string, i: nat)
    requires SameButCase(a, b) && i <= |a|
    ensures SameButCase(a[i..], b[i..])
  {
    SameSlice(a, b, i, |a|);
    assert a[i..] == a[i..|a|] && b[i..] == b[i..|b|];
  }

  /** What is kept of a text made of three stretches. */
  lemma PickParts(a: string, b: string, c: string, first: bool, rest: seq<bool>)
    requires |rest| == |c|
    ensures Pick(a + b + c, All(|a|, first) + All(|b|, false) + rest) == (if first then a else "") + Pick(c, rest)
  {
    hide Pick, All;
    PickConcat(a + b, All(|a|, first) + All(|b|, false), c, rest);
    PickConcat(a, All(|a|, first), b, All(|b|, false));
    PickAll(a, first);
    PickAll(b, false);
    NothingBehind(if first then a else "");
  }

  lemma NothingBehind(s: string)
    ensures s + "" == s
  {
  }

  lemma PickThree(text: string, i: nat, j: nat, first: bool, rest: seq<bool>)
    requires i <= j <= |text| && |rest| == |text| - j
    ensures Pick(text, All(i, first) + All(j - i, false) + rest)
         == (if first then text[..i] else "") + Pick(text[j..], rest)
  {
    hide Pick, All;
    assert text == text[..i] + text[i..j] + text[j..];
    PickParts(text[..i], text[i..j], text[j..], first, rest);
  }

  /** Scanning two texts that differ in case alone ends in the same state and keeps the same positions of both. */
  lemma {:induction false} ScanIgnoresCase(a: string, b: string, inThink: bool) returns (kept: seq<bool>)
    requires SameButCase(a, b)
    ensures |kept| == |a| == |b|
    ensures Scan(a, inThink).inThink == Scan(b, inThink).inThink
    ensures Scan(a, inThink).out == Pick(a, kept) && Scan(b, inThink).out == Pick(b, kept)
    decreases |a|
  {
    hide Find, Lower, Scan, Pick, SameButCase, All;
    LowerForgetsCase(a, b);
    assert |a| == |Lower(a)| == |Lower(b)| == |b|;
    var tag := Tag(inThink);
    var at := Find(Lower(a), tag, 0);
    if at == -1 {
      ScanNoTag(a, inThink);
      ScanNoTag(b, inThink);
      kept := All(|a|, !inThink);
      PickAll(a, !inThink);
      PickAll(b, !inThink);
    } else {
      var end := at + |tag|;
      ScanAtTag(a, inThink, at);
      ScanAtTag(b, inThink, at);
      SameTail(a, b, end);
      var rest := ScanIgnoresCase(a[end..], b[end..], !inThink);
      kept := All(at, !inThink) + All(|tag|, false) + rest;
      PickThree(a, at, end, !inThink, rest);
      PickThree(b, at, end, !inThink, rest);
    }
  }

  lemma SpaceIsNoLetter(a: char, b: char)
    requires SameLetter(a, b)
    ensures IsSpace(a) <==> IsSpace(b)
  {
  }

  lemma {:induction false} SkipIgnoresCase(a: string, b: string)
    requires SameButCase(a, b)
    ensures |SkipSpace(a)| == |SkipSpace(b)| <= |a|
    ensures SkipSpace(a) == a[|a| - |SkipSpace(a)|..] && SkipSpace(b) == b[|b| - |SkipSpace(b)|..]
    decreases |a|
  {
    hide IsSpace;
    if a != "" {
      SpaceIsNoLetter(a[0], b[0]);
      if IsSpace(a[0]) {
        SameTail(a, b, 1);
        SkipIgnoresCase(a[1..], b[1..]);
      }
    }
  }

  /** The batch form removes the same blocks of both. */
  lemma {:induction false} ResidueIgnoresCase(a: string, b: string) returns (kept: seq<bool>)
    requires SameButCase(a, b)
    ensures |kept| == |a| == |b| && Residue(a) == Pick(a, kept) && Residue(b) == Pick(b, kept)
    decreases |a|
  {
    hide Find, Lower, Residue, Pick, SameButCase, All, SkipSpace;
    LowerForgetsCase(a, b);
    assert |a| == |Lower(a)| == |Lower(b)| == |b|;
    var open := Find(Lower(a), OPEN, 0);
    var close := if open == -1 then -1 else Find(Lower(a), CLOSE, open + |OPEN|);
    ResidueUnfolds(a);
    ResidueUnfolds(b);
    if close == -1 {
      kept := All(|a|, true);
      PickAll(a, true);
      PickAll(b, true);
    } else {
      var shut := close + |CLOSE|;
      SameTail(a, b, shut);
      SkipIgnoresCase(a[shut..], b[shut..]);
      var end := |a| - |SkipSpace(a[shut..])|;
      assert a[end..] == a[shut..][end - shut..] && b[end..] == b[shut..][end - shut..];
      SameTail(a, b, end);
      var rest := ResidueIgnoresCase(a[end..], b[end..]);
      kept := All(open, true) + All(end - open, false) + rest;
      PickThree(a, open, end, true, rest);
      PickThree(b, open, end, true, rest);
    }
  }

  lemma {:induction false} TrailingIgnoresCase(a: string, b: string)
    requires SameButCase(a, b)
    ensures SameButCase(DropTrailingSpace(a), DropTrailingSpace(b))
    decreases |a|
  {
    hide IsSpace;
    if a != "" {
      var n := |a| - 1;
      assert SameLetter(a[n], b[n]);
      SpaceIsNoLetter(a[n], b[n]);
      SameSlice(a, b, 0, n);
      assert a[0..n] == a[..n] && b[0..n] == b[..n];
      TrailingIgnoresCase(a[..n], b[..n]);
    }
  }

  lemma StripIgnoresCase(a: string, b: string)
    requires SameButCase(a, b)
    ensures SameButCase(Strip(a), Strip(b))
  {
    hide SameButCase, SkipSpace, DropTrailingSpace;
    assert |a| == |b| by { LowerForgetsCase(a, b); assert |Lower(a)| == |a|; }
    SkipIgnoresCase(a, b);
    SameTail(a, b, |a| - |SkipSpace(a)|);
    TrailingIgnoresCase(SkipSpace(a), SkipSpace(b));
  }

  /** And so does the whole postprocessing, up to the case of what it keeps. */
  lemma BatchIgnoresCase(a: string, b: string, stripThinking: bool)
    requires SameButCase(a, b)
    ensures SameButCase(Batch(a, stripThinking), Batch(b, stripThinking))
  {
    hide SameButCase, Residue, Strip, Find, Lower, Pick;
    if !stripThinking {
      StripIgnoresCase(a, b);
    } else {
      var kept := ResidueIgnoresCase(a, b);
      var x, y := Residue(a), Residue(b);
      PickedIsSame(a, b, kept);
      LowerForgetsCase(x, y);
      assert |x| == |Lower(x)| == |Lower(y)| == |y|;
      StripIgnoresCase(x, y);
      var close := Find(Lower(x), CLOSE, 0);
      if close == -1 {
        StripIgnoresCase("", "") by { NothingIsSame(); }
      } else {
        SameTail(x, y, close + |CLOSE|);
        StripIgnoresCase(x[close + |CLOSE|..], y[close + |CLOSE|..]);
      }
    }
  }

  lemma NothingIsSame()
    ensures SameButCase("", "")
  {
  }

  // ---------------------------------------------------------------------------
  // A block in any casing vanishes
  // ---------------------------------------------------------------------------

  /** Nowhere does the text read like the tag. */
  ghost predicate Without(text: string, tag: string) {
    forall at :: !ReadsAt(text, tag, at)
  }

  /** A tag behind a text without one is found where it stands. */
  lemma TagIsFound(text: string, cased: string, rest: string, inThink: bool)
    requires var tag := if inThink then "</think>" else "<think>"; Without(text, tag) && SameButCase(cased, tag)
    ensures Find(Lower(text + (cased + rest)), Tag(inThink), 0) == |text|
    ensures |cased| == |Tag(inThink)|
  {
    hide Find, Lower, SameButCase, Occurs;
    var tag := if inThink then "</think>" else "<think>";
    assert |cased| == |tag| by { LowerForgetsCase(cased, tag); assert |Lower(cased)| == |Lower(tag)|; }
    var whole := text + (cased + rest);
    assert whole[|text|..|text| + |tag|] == cased;
    TagInAnyCase(whole, inThink, |text|);
    forall k | 0 <= k < |text|
      ensures !Occurs(Lower(whole), Tag(inThink), k)
    {
      TagInAnyCase(whole, inThink, k);
      assert !ReadsAt(text, tag, k);
      if k + |tag| <= |text| {
        assert whole[k..k + |tag|] == text[k..k + |tag|];
      } else {
        assert whole[|text|] == cased[0];
        BracketInside(whole, cased, tag, k, |text|);
      }
    }
    FindIs(Lower(whole), Tag(inThink), 0, |text|);
  }

  /** No tag starts inside another one. */
  lemma BracketInside(s: string, cased: string, tag: string, at: nat, inner: nat)
    requires (tag == "<think>" || tag == "</think>") && SameButCase(cased, tag)
    requires at < inner < at + |tag| && inner < |s| && s[inner] == cased[0]
    ensures !ReadsAt(s, tag, at)
  {
    assert SameLetter(cased[0], tag[0]);
    if at + |tag| <= |s| {
      assert s[at..at + |tag|][inner - at] == s[inner];
      assert !SameLetter(s[at..at + |tag|][inner - at], tag[inner - at]);
    }
  }

  /** Both forms hide a block whose tags are written in any casing. */
  lemma BlockVanishes(before: string, open: string, inside: string, close: string, after: string)
    requires Without(before, "<think>") && SameButCase(open, "<think>")
    requires Without(inside, "</think>") && SameButCase(close, "</think>")
    ensures var text := before + (open + (inside + (close + after)));
            && Scan(text, false) == Scanned(before + Scan(after, false).out, Scan(after, false).inThink)
            && Residue(text) == before + Residue(SkipSpace(after))
  {
    hide Find, Lower, SameButCase, Scan, Residue, SkipSpace, Without;
    var text := before + (open + (inside + (close + after)));
    TagIsFound(before, open, inside + (close + after), false);
    TagIsFound(inside, close, after, true);
    var from := |before| + |OPEN|;
    assert text[from..] == inside + (close + after);
    LowerSlice(text, from, |text|);
    assert text[from..] == text[from..|text|] && Lower(text)[from..] == Lower(text)[from..|text|];
    FindShift(Lower(text), CLOSE, from);
    var shut := from + |inside| + |CLOSE|;
    assert text[shut..] == after && text[..|before|] == before;
    ScanOneBlock(text, |before|, from + |inside|);
    ResidueUnfolds(text);
  }

  // ---------------------------------------------------------------------------
  // Text without blocks, and what is left of an unclosed one
  // ---------------------------------------------------------------------------

  lemma NotFound(text: string, inThink: bool)
    requires Without(text, if inThink then "</think>" else "<think>")
    ensures Find(Lower(text), Tag(inThink), 0) == -1
  {
    hide Find, Lower;
    forall k: int | 0 <= k
      ensures !Occurs(Lower(text), Tag(inThink), k)
    {
      TagInAnyCase(text, inThink, k);
    }
    FindNothing(Lower(text), Tag(inThink), 0);
  }

  /** A text without an opening tag is shown as it is, and trimmed by the batch form. */
  lemma PlainTextIsKept(text: string)
    requires Without(text, "<think>")
    ensures Scan(text, false) == Scanned(text, false) && Batch(text, true) == Strip(text)
  {
    hide Find, Lower, Scan, Residue, Strip, Without;
    NotFound(text, false);
    ScanNoTag(text, false);
    ResidueUnfolds(text);
  }

  /** When an opening tag is left, the batch form keeps what follows the first closing tag, if there is one. */
  lemma FallbackKeepsTheRest(content: string, front: string, close: string, rest: string)
    requires Residue(content) == front + (close + rest) && !Without(Residue(content), "<think>")
    requires Without(front, "</think>") && SameButCase(close, "</think>")
    ensures Batch(content, true) == Strip(rest)
  {
    hide Find, Lower, Residue, Strip, Without, SameButCase;
    OpeningTagIsSeen(Residue(content));
    TagIsFound(front, close, rest, true);
    assert (front + (close + rest))[|front| + |CLOSE|..] == rest;
  }

  /** ... and nothing otherwise. */
  lemma FallbackDropsAll(content: string)
    requires !Without(Residue(content), "<think>") && Without(Residue(content), "</think>")
    ensures Batch(content, true) == ""
  {
    hide Find, Lower, Residue, Without;
    OpeningTagIsSeen(Residue(content));
    NotFound(Residue(content), true);
  }

  lemma OpeningTagIsSeen(text: string)
    requires !Without(text, "<think>")
    ensures HasOpen(text)
  {
    hide Find, Lower;
    var at :| ReadsAt(text, "<think>", at);
    TagInAnyCase(text, false, at);
    FindIsLeftmost(Lower(text), OPEN, 0);
  }
}
