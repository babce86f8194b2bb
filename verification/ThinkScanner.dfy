/** `_strip_thinking_streaming`: the scanner that hides `<think>...</think>` in a token stream. */
module ThinkScanner {
  import opened Text

  const OPEN := "<think>"
  const CLOSE := "</think>"

  datatype Scanned = Scanned(out: string, inThink: bool)

  function Tag(inThink: bool): string {
    if inThink then CLOSE else OPEN
  }

  function Shown(text: string, inThink: bool): string {
    if inThink then "" else text
  }

  /** The recursive specification: cut at the leftmost tag that flips the state. */
  function Scan(text: string, inThink: bool): Scanned
    decreases |text|
  {
    var at := Find(Lower(text), Tag(inThink), 0);
    if at == -1 then
      Scanned(Shown(text, inThink), inThink)
    else
      var rest := Scan(text[at + |Tag(inThink)|..], !inThink);
      Scanned(Shown(text[..at], inThink) + rest.out, rest.inThink)
  }

  lemma ScanAtTag(text: string, inThink: bool, at: nat)
    requires Find(Lower(text), Tag(inThink), 0) == at
    ensures at + |Tag(inThink)| <= |text|
    ensures var rest := Scan(text[at + |Tag(inThink)|..], !inThink);
            Scan(text, inThink) == Scanned(Shown(text[..at], inThink) + rest.out, rest.inThink)
  {
  }

  lemma ScanNoTag(text: string, inThink: bool)
    requires Find(Lower(text), Tag(inThink), 0) == -1
    ensures Scan(text, inThink) == Scanned(Shown(text, inThink), inThink)
  {
  }

  /** The scanner as it is written: one index that jumps from tag to tag. */
  method StripThinkingStreaming(delta: string, wasInThink: bool) returns (text: string, inThink: bool)
    ensures Scanned(text, inThink) == Scan(delta, wasInThink)
  {
    hide Find, Lower, Scan, Join, Tag, Shown;
    var out: seq<string> := [];
    var i := 0;
    inThink := wasInThink;
    AtStart(delta, inThink);
    while i < |delta|
      invariant 0 <= i <= |delta| && Ahead(delta, wasInThink, out, i, inThink)
      decreases |delta| - i
    {
      if inThink {
        var close := Find(Lower(delta), CLOSE, i);
        InsideTurn(delta, wasInThink, out, i);
        if close == -1 {
          return Join(out), true;
        }
        i := close + |CLOSE|;
        inThink := false;
        continue;
      }
      var opn := Find(Lower(delta), OPEN, i);
      OutsideTurn(delta, wasInThink, out, i);
      if opn == -1 {
        out := out + [delta[i..]];
        return Join(out), false;
      }
      out := out + [delta[i..opn]];
      i := opn + |OPEN|;
      inThink := true;
    }
    AtEnd(delta, wasInThink, out, inThink);
    text := Join(out);
  }

  /** What is kept so far, then the scan of the rest, is the scan of the whole. */
  ghost predicate Ahead(delta: string, wasInThink: bool, out: seq<string>, i: nat, inThink: bool)
    requires i <= |delta|
  {
    var rest := Scan(delta[i..], inThink);
    Scan(delta, wasInThink) == Scanned(Join(out) + rest.out, rest.inThink)
  }

  lemma AtStart(delta: string, inThink: bool)
    ensures Ahead(delta, inThink, [], 0, inThink)
  {
    hide Scan;
    JoinNothing(Scan(delta, inThink).out);
    assert delta[0..] == delta;
  }

  lemma AtEnd(delta: string, wasInThink: bool, out: seq<string>, inThink: bool)
    requires Ahead(delta, wasInThink, out, |delta|, inThink)
    ensures Scan(delta, wasInThink) == Scanned(Join(out), inThink)
  {
    hide Scan, Join;
    ScanEmpty(inThink);
    assert delta[|delta|..] == "";
  }

  lemma InsideTurn(delta: string, wasInThink: bool, out: seq<string>, i: nat)
    requires i < |delta| && Ahead(delta, wasInThink, out, i, true)
    ensures var close := Find(Lower(delta), CLOSE, i);
            if close == -1 then Scan(delta, wasInThink) == Scanned(Join(out), true)
            else i <= close && close + |CLOSE| <= |delta| && Ahead(delta, wasInThink, out, close + |CLOSE|, false)
  {
    hide Find, Lower, Scan, Join;
    ScanFrom(delta, true, i);
  }

  lemma OutsideTurn(delta: string, wasInThink: bool, out: seq<string>, i: nat)
    requires i < |delta| && Ahead(delta, wasInThink, out, i, false)
    ensures var open := Find(Lower(delta), OPEN, i);
            if open == -1 then Scan(delta, wasInThink) == Scanned(Join(out + [delta[i..]]), false)
            else i <= open && open + |OPEN| <= |delta|
                 && Ahead(delta, wasInThink, out + [delta[i..open]], open + |OPEN|, true)
  {
    hide Find, Lower, Scan, Join;
    ScanFrom(delta, false, i);
    var open := Find(Lower(delta), OPEN, i);
    if open == -1 {
      JoinAppend(out, delta[i..]);
    } else {
      JoinThen(out, delta[i..open], Scan(delta[open + |OPEN|..], true).out);
    }
  }

  lemma ScanEmpty(inThink: bool)
    ensures Scan("", inThink) == Scanned("", inThink)
  {
  }

  /** The scan of the rest of a text, by searching the whole text from the index. */
  lemma ScanFrom(text: string, inThink: bool, i: nat)
    requires i <= |text|
    ensures var at := Find(Lower(text), Tag(inThink), i);
            if at == -1 then Scan(text[i..], inThink) == Scanned(Shown(text[i..], inThink), inThink)
            else var rest := Scan(text[at + |Tag(inThink)|..], !inThink);
                 Scan(text[i..], inThink) == Scanned(Shown(text[i..at], inThink) + rest.out, rest.inThink)
  {
    hide Find, Scan;
    LowerSlice(text, i, |text|);
    assert text[i..] == text[i..|text|];
    assert Lower(text)[i..] == Lower(text)[i..|text|];
    FindShift(Lower(text), Tag(inThink), i);
    var at := Find(Lower(text), Tag(inThink), i);
    if at == -1 {
      ScanNoTag(text[i..], inThink);
    } else {
      ScanAtTag(text[i..], inThink, at - i);
      assert text[i..][..at - i] == text[i..at];
      assert text[i..][at - i + |Tag(inThink)|..] == text[at + |Tag(inThink)|..];
    }
  }

  // ---------------------------------------------------------------------------
  // Conservation: kept text, tags and swallowed text rebuild the input, in one way only
  // ---------------------------------------------------------------------------

  /** A stretch of text and the tag that ended it (empty for the last stretch). */
  datatype Piece = Piece(body: string, tag: string)

  function Rebuild(pieces: seq<Piece>): string {
    if pieces == [] then "" else pieces[0].body + pieces[0].tag + Rebuild(pieces[1..])
  }

  /** The bodies that lie outside every think block. */
  function Visible(pieces: seq<Piece>, inThink: bool): string {
    if pieces == [] then "" else Shown(pieces[0].body, inThink) + Visible(pieces[1..], !inThink)
  }

  /** Every tag is the first one that flips the state, and no flipping tag is left in the last body. */
  ghost predicate WellCut(pieces: seq<Piece>, inThink: bool) {
    && pieces != []
    && var Piece(body, tag) := pieces[0];
       if |pieces| == 1 then tag == "" && !Contains(Lower(body), Tag(inThink))
       else && Lower(tag) == Tag(inThink)
            && Find(Lower(body + tag), Tag(inThink), 0) == |body|
            && WellCut(pieces[1..], !inThink)
  }

  function Flips(n: nat, inThink: bool): bool {
    if n % 2 == 0 then inThink else !inThink
  }

  /** Any well-cut reading of a text is the scanner's reading of it. */
  lemma {:induction false} CutDeterminesScan(pieces: seq<Piece>, inThink: bool)
    requires WellCut(pieces, inThink)
    ensures Scan(Rebuild(pieces), inThink)
         == Scanned(Visible(pieces, inThink), Flips(|pieces| - 1, inThink))
    decreases |pieces|
  {
    hide Find;
    var Piece(body, tag) := pieces[0];
    if |pieces| == 1 {
      assert Rebuild(pieces[1..]) == "" && Rebuild(pieces) == body;
      assert Visible(pieces[1..], !inThink) == "";
    } else {
      var rest := Rebuild(pieces[1..]);
      var text := Rebuild(pieces);
      CutDeterminesScan(pieces[1..], !inThink);
      assert text == (body + tag) + rest;
      FindInPrefix(body + tag, rest, Tag(inThink), |body|);
      assert |tag| == |Lower(tag)| == |Tag(inThink)|;
      assert text[|body| + |tag|..] == rest;
      assert text[..|body|] == body;
    }
  }

  /** Every text has a well-cut reading. */
  lemma {:induction false} CutExists(text: string, inThink: bool) returns (pieces: seq<Piece>)
    ensures WellCut(pieces, inThink) && Rebuild(pieces) == text
    decreases |text|
  {
    hide Find, Lower;
    var tag := Tag(inThink);
    var at := Find(Lower(text), tag, 0);
    if at == -1 {
      pieces := [Piece(text, "")];
      assert Rebuild(pieces[1..]) == "";
    } else {
      var end := at + |tag|;
      var rest := CutExists(text[end..], !inThink);
      pieces := [Piece(text[..at], text[at..end])] + rest;
      assert pieces[1..] == rest;
      assert text[..at] + text[at..end] == text[..end];
      FindUpTo(text, tag, at);
      FoundTag(text, tag, at);
    }
  }

  /** The first tag of a text, read off the text or off the part that ends with it. */
  lemma FindUpTo(text: string, tag: string, at: nat)
    requires at + |tag| <= |text| && Find(Lower(text), tag, 0) == at
    ensures Find(Lower(text[..at + |tag|]), tag, 0) == at
  {
    hide Find, Lower;
    var a, b := text[..at + |tag|], text[at + |tag|..];
    assert text == a + b;
    LowerConcat(a, b);
    FindInWhole(Lower(a), Lower(b), tag, at);
  }

  lemma FoundTag(text: string, tag: string, at: nat)
    requires at + |tag| <= |text| && Find(Lower(text), tag, 0) == at
    ensures Lower(text[at..at + |tag|]) == tag
  {
    hide Find, Lower;
    FindIsLeftmost(Lower(text), tag, 0);
    LowerSlice(text, at, at + |tag|);
  }

  lemma FindInWhole(a: string, b: string, tag: string, at: nat)
    requires Find(a + b, tag, 0) == at && at + |tag| == |a|
    ensures Find(a, tag, 0) == at
  {
    hide Find, Occurs;
    FindIsLeftmost(a + b, tag, 0);
    forall k | 0 <= k <= at
      ensures Occurs(a, tag, k) <==> Occurs(a + b, tag, k)
    {
      OccursLeft(a, b, tag, k);
    }
    FindIs(a, tag, 0, at);
  }

  lemma FindInPrefix(a: string, b: string, tag: string, at: nat)
    requires Find(Lower(a), tag, 0) == at
    ensures Find(Lower(a + b), tag, 0) == at
  {
    LowerConcat(a, b);
    FindIsLeftmost(Lower(a), tag, 0);
    forall k | 0 <= k <= at
      ensures Occurs(Lower(a + b), tag, k) <==> Occurs(Lower(a), tag, k)
    {
      OccursLeft(Lower(a), Lower(b), tag, k);
    }
    FindIs(Lower(a + b), tag, 0, at);
  }

  // ---------------------------------------------------------------------------
  // Split invariance
  // ---------------------------------------------------------------------------

  /** The scanner threaded through successive deltas. */
  function Thread(deltas: seq<string>, inThink: bool): Scanned {
    if deltas == [] then Scanned("", inThink)
    else
      var first := Scan(deltas[0], inThink);
      var rest := Thread(deltas[1..], first.inThink);
      Scanned(first.out + rest.out, rest.inThink)
  }

  /** No tag of `text` starts before position `cut` and ends after it. */
  ghost predicate CutBetweenTags(text: string, cut: nat) {
    forall at, inThink: bool :: at < cut < at + |Tag(inThink)| ==> !Occurs(Lower(text), Tag(inThink), at)
  }

  /** No tag straddles a boundary between two deltas. */
  ghost predicate TagAligned(deltas: seq<string>) {
    forall n :: 0 <= n <= |deltas| ==> CutBetweenTags(Join(deltas), |Join(deltas[..n])|)
  }

  lemma {:induction false} ScanConcat(a: string, b: string, inThink: bool)
    requires CutBetweenTags(a + b, |a|)
    ensures var first := Scan(a, inThink); var second := Scan(b, first.inThink);
            Scan(a + b, inThink) == Scanned(first.out + second.out, second.inThink)
    decreases |a|
  {
    hide Find, Lower, Scan, CutBetweenTags;
    var tag := Tag(inThink);
    var inA := Find(Lower(a), tag, 0);
    if inA == -1 {
      FindAfter(a, b, inThink);
      ScanNoTag(a, inThink);
      var inB := Find(Lower(b), tag, 0);
      if inB == -1 {
        ScanNoTag(a + b, inThink);
        ScanNoTag(b, inThink);
      } else {
        ScanAtTag(b, inThink, inB);
        ScanAtTag(a + b, inThink, |a| + inB);
        assert (a + b)[|a| + inB + |tag|..] == b[inB + |tag|..];
        assert (a + b)[..|a| + inB] == a + b[..inB];
      }
    } else {
      var end := inA + |tag|;
      FindInPrefix(a, b, tag, inA);
      ScanAtTag(a, inThink, inA);
      ScanAtTag(a + b, inThink, inA);
      assert (a + b)[end..] == a[end..] + b && (a + b)[..inA] == a[..inA];
      CutShift(a + b, end, |a|);
      ScanConcat(a[end..], b, !inThink);
    }
  }

  /** With no tag in `a` or across the cut, the first tag of `a + b` is that of `b`. */
  lemma FindAfter(a: string, b: string, inThink: bool)
    requires CutBetweenTags(a + b, |a|)
    requires Find(Lower(a), Tag(inThink), 0) == -1
    ensures var inB := Find(Lower(b), Tag(inThink), 0);
            Find(Lower(a + b), Tag(inThink), 0) == if inB == -1 then -1 else |a| + inB
  {
    var tag := Tag(inThink);
    var inB := Find(Lower(b), tag, 0);
    LowerConcat(a, b);
    FindIsLeftmost(Lower(a), tag, 0);
    FindIsLeftmost(Lower(b), tag, 0);
    forall k | 0 <= k && (inB == -1 || k < |a| + inB)
      ensures !Occurs(Lower(a + b), tag, k)
    {
      if k + |tag| <= |a| {
        OccursLeft(Lower(a), Lower(b), tag, k);
      } else if |a| <= k {
        OccursRight(Lower(a), Lower(b), tag, k);
      }
    }
    if inB == -1 {
      FindNothing(Lower(a + b), tag, 0);
    } else {
      OccursRight(Lower(a), Lower(b), tag, |a| + inB);
      FindIs(Lower(a + b), tag, 0, |a| + inB);
    }
  }

  lemma CutShift(text: string, drop: nat, cut: nat)
    requires drop <= cut <= |text| && CutBetweenTags(text, cut)
    ensures CutBetweenTags(text[drop..], cut - drop)
  {
    LowerSlice(text, drop, |text|);
    forall at, inThink: bool | at < cut - drop < at + |Tag(inThink)|
      ensures !Occurs(Lower(text[drop..]), Tag(inThink), at)
    {
      if 0 <= at {
        assert Lower(text[drop..]) == Lower(text)[drop..];
        OccursShift(Lower(text), Tag(inThink), drop, at);
        assert !Occurs(Lower(text), Tag(inThink), drop + at);
      }
    }
  }

  /** Feeding a text in deltas gives the same text and final state as one scan of the whole. */
  lemma {:induction false} SplitInvariance(deltas: seq<string>, inThink: bool)
    requires TagAligned(deltas)
    ensures Thread(deltas, inThink) == Scan(Join(deltas), inThink)
    decreases |deltas|
  {
    if deltas != [] {
      var rest := deltas[1..];
      var head := deltas[0];
      assert Join(deltas) == head + Join(rest);
      JoinConcat([head], []);
      assert deltas[..1] == [head] && Join([head]) == head + Join([]) == head;
      ScanConcat(head, Join(rest), inThink);
      forall n | 0 <= n <= |rest|
        ensures CutBetweenTags(Join(rest), |Join(rest[..n])|)
      {
        assert deltas[..n + 1] == [head] + rest[..n];
        assert Join(deltas[..n + 1]) == head + Join(rest[..n]) by {
          assert ([head] + rest[..n])[1..] == rest[..n];
        }
        JoinConcat(rest[..n], rest[n..]);
        assert rest == rest[..n] + rest[n..];
        CutShift(Join(deltas), |head|, |Join(deltas[..n + 1])|);
        assert Join(deltas)[|head|..] == Join(rest);
      }
      SplitInvariance(rest, Scan(head, inThink).inThink);
    }
  }

  // ---------------------------------------------------------------------------
  // Why the split must respect tags
  // ---------------------------------------------------------------------------

  /** Outside a block the scanner shows at least as much of a text as inside one. */
  lemma OutsideShowsMore(text: string)
    ensures |Scan(text, true).out| <= |Scan(text, false).out|
  {
    hide Find, Scan, Lower;
    var close := Find(Lower(text), CLOSE, 0);
    var open := Find(Lower(text), OPEN, 0);
    if close == -1 {
      ScanNoTag(text, true);
    } else {
      ScanAtTag(text, true, close);
      if open == -1 {
        ScanNoTag(text, false);
        ShownIsShorter(text[close + |CLOSE|..], false);
      } else if open < close {
        ScanAtTag(text, false, open);
        TagsDoNotOverlap(text, open, close);
        FindLater(Lower(text), CLOSE, open + |OPEN|, close);
        ScanFrom(text, true, open + |OPEN|);
      } else {
        FoundTags(text, open, close);
        FindLater(Lower(text), OPEN, close + |CLOSE|, open);
        ScanAtTag(text, false, open);
        ScanFrom(text, false, close + |CLOSE|);
      }
    }
  }

  lemma {:induction false} ShownIsShorter(text: string, inThink: bool)
    ensures |Scan(text, inThink).out| <= |text|
    decreases |text|
  {
    hide Find, Lower;
    var at := Find(Lower(text), Tag(inThink), 0);
    if at != -1 {
      ShownIsShorter(text[at + |Tag(inThink)|..], !inThink);
    }
  }

  lemma FindLater(s: string, word: string, from: nat, at: nat)
    requires Find(s, word, 0) == at && from <= at
    ensures Find(s, word, from) == at
  {
    hide Find, Occurs;
    FindIsLeftmost(s, word, 0);
    FindIs(s, word, from, at);
  }

  lemma OnlyFirstIsBracket(s: string, tag: string, at: nat, k: nat)
    requires Occurs(s, tag, at) && (tag == OPEN || tag == CLOSE) && k < |tag|
    ensures s[at + k] == '<' <==> k == 0
  {
    assert s[at..at + |tag|][k] == s[at + k];
  }

  lemma TagsDoNotOverlap(text: string, open: nat, close: nat)
    requires Find(Lower(text), OPEN, 0) == open && Find(Lower(text), CLOSE, 0) == close && open < close
    ensures open + |OPEN| <= close
  {
    hide Find, Occurs, Lower;
    FindIsLeftmost(Lower(text), OPEN, 0);
    FindIsLeftmost(Lower(text), CLOSE, 0);
    OnlyFirstIsBracket(Lower(text), CLOSE, close, 0);
    if close < open + |OPEN| {
      OnlyFirstIsBracket(Lower(text), OPEN, open, close - open);
    }
  }

  lemma FoundTags(text: string, open: nat, close: nat)
    requires Find(Lower(text), OPEN, 0) == open && Find(Lower(text), CLOSE, 0) == close && close <= open
    ensures close + |CLOSE| <= open
  {
    hide Find, Occurs, Lower;
    FindIsLeftmost(Lower(text), OPEN, 0);
    FindIsLeftmost(Lower(text), CLOSE, 0);
    OnlyFirstIsBracket(Lower(text), OPEN, open, 0);
    if open < close + |CLOSE| {
      OnlyFirstIsBracket(Lower(text), CLOSE, close, open - close);
      OnlyFirstIsBracket(Lower(text), OPEN, open, 1);
      OpenIsNotClose(Lower(text), open);
    }
  }

  lemma OpenIsNotClose(s: string, at: nat)
    ensures !(Occurs(s, OPEN, at) && Occurs(s, CLOSE, at))
  {
    if Occurs(s, OPEN, at) {
      assert s[at..at + |OPEN|][1] == s[at + 1] == 't';
    }
    if at + |CLOSE| <= |s| {
      assert s[at..at + |CLOSE|][1] == s[at + 1] && CLOSE[1] == '/';
    }
  }

  lemma ShortHasNoTag(text: string)
    requires |text| < |OPEN|
    ensures Scan(text, false) == Scanned(text, false)
  {
    hide Find, Scan, Lower;
    ScanNoTag(text, false);
  }

  lemma CutInPrefix(a: string, b: string, cut: nat)
    requires cut <= |a| && CutBetweenTags(a + b, cut)
    ensures CutBetweenTags(a, cut)
  {
    hide Lower;
    LowerConcat(a, b);
    forall at, inThink: bool | at < cut < at + |Tag(inThink)|
      ensures !Occurs(Lower(a), Tag(inThink), at)
    {
      assert !Occurs(Lower(a + b), Tag(inThink), at);
      if at + |Tag(inThink)| <= |a| {
        OccursLeft(Lower(a), Lower(b), Tag(inThink), at);
      }
    }
  }

  lemma TailOfTagIsNoTag(front: string, tail: string, post: string)
    requires front != "" && Lower(front + tail) == OPEN
    ensures CutBetweenTags(tail + post, |tail|)
  {
    hide Lower, Occurs;
    LowerConcat(front, tail);
    LowerConcat(tail, post);
    var low := Lower(tail + post);
    forall at, inThink: bool | at < |tail| < at + |Tag(inThink)|
      ensures !Occurs(low, Tag(inThink), at)
    {
      if 0 <= at {
        assert low[at] == Lower(tail)[at] == OPEN[|front| + at];
        NeedsBracket(low, Tag(inThink), at);
      } else {
        OccursInside(low, Tag(inThink), at);
      }
    }
  }

  lemma NeedsBracket(s: string, tag: string, at: nat)
    requires (tag == OPEN || tag == CLOSE) && at < |s| && s[at] != '<'
    ensures !Occurs(s, tag, at)
  {
    if at + |tag| <= |s| {
      assert s[at..at + |tag|][0] == s[at];
    }
  }

  lemma OccursInside(s: string, tag: string, at: int)
    ensures Occurs(s, tag, at) ==> 0 <= at
  {
  }

  /** A boundary inside an opening tag that the scanner would have consumed always leaks: the stream then shows
      at least the seven characters of the tag more than one scan of the whole. */
  lemma CutOpeningTagLeaks(pre: string, front: string, tail: string, post: string, inThink: bool)
    requires front != "" && tail != "" && Lower(front + tail) == OPEN
    requires !Scan(pre, inThink).inThink && CutBetweenTags(pre + (front + (tail + post)), |pre|)
    ensures |Thread([pre + front, tail + post], inThink).out|
         >= |Scan(pre + (front + (tail + post)), inThink).out| + |OPEN|
  {
    hide Find, Scan, Lower, CutBetweenTags;
    var rest := front + (tail + post);
    assert |front| + |tail| == |Lower(front + tail)| == |OPEN|;
    // the whole
    ScanConcat(pre, rest, inThink);
    assert rest == (front + tail) + post && rest[|OPEN|..] == post;
    OpensAtOnce(front + tail);
    FindInPrefix(front + tail, post, OPEN, 0);
    ScanAtTag(rest, false, 0);
    // the first delta
    assert pre + rest == (pre + front) + (tail + post);
    CutInPrefix(pre + front, tail + post, |pre|);
    ScanConcat(pre, front, inThink);
    ShortHasNoTag(front);
    // the second delta
    TailOfTagIsNoTag(front, tail, post);
    ScanConcat(tail, post, false);
    ShortHasNoTag(tail);
    OutsideShowsMore(post);
    ThreadTwo(pre + front, tail + post, inThink);
  }

  lemma OpensAtOnce(text: string)
    requires Lower(text) == OPEN
    ensures Find(Lower(text), OPEN, 0) == 0
  {
    assert Lower(text)[0..|OPEN|] == OPEN;
  }

  lemma ThreadTwo(a: string, b: string, inThink: bool)
    ensures Thread([a, b], inThink).out == Scan(a, inThink).out + Scan(b, Scan(a, inThink).inThink).out
  {
    hide Scan;
    var first := Scan(a, inThink);
    assert [a, b][1..] == [b] && [b][1..] == [];
    var second := Scan(b, first.inThink);
    assert Thread([], second.inThink).out == "";
    assert Thread([b], first.inThink).out == second.out + "" == second.out;
  }
}
