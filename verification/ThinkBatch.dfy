/** `_postprocess_lmstudio`: the batch form of think-stripping, and when it agrees with the scanner. */
module ThinkBatch {
  import opened Text
  import opened ThinkScanner

  /** `re.sub(r"<think>.*?</think>\s*", "", text)`, dot matching newlines, ignoring case: the leftmost
      block goes, up to its first closing tag and the whitespace behind it, then the search resumes.
      An opening tag with no closing tag behind it does not match, and no later one can. */
  function Residue(text: string): string
    decreases |text|
  {
    var open := Find(Lower(text), OPEN, 0);
    if open == -1 then text
    else
      var close := Find(Lower(text), CLOSE, open + |OPEN|);
      if close == -1 then text
      else
        SkipSpaceShrinks(text[close + |CLOSE|..]);
        text[..open] + Residue(SkipSpace(text[close + |CLOSE|..]))
  }

  /** The pattern matches `text[at..end]`, with its closing tag at `close`. */
  ghost predicate BlockAt(text: string, at: int, close: int, end: int) {
    && Occurs(Lower(text), OPEN, at) && at + |OPEN| <= close && Occurs(Lower(text), CLOSE, close)
    && close + |CLOSE| <= end <= |text| && forall k :: close + |CLOSE| <= k < end ==> IsSpace(text[k])
  }

  /** What `Residue` removes first is the regular expression's first match: leftmost, with the shortest body
      and the longest whitespace; where it removes nothing, nothing matches. */
  lemma ResidueRemovesTheFirstMatch(text: string)
    ensures var open := Find(Lower(text), OPEN, 0);
            var close := if open == -1 then -1 else Find(Lower(text), CLOSE, open + |OPEN|);
            if close == -1 then Residue(text) == text && forall at, shut, end :: !BlockAt(text, at, shut, end)
            else
              var end := |text| - |SkipSpace(text[close + |CLOSE|..])|;
              && BlockAt(text, open, close, end)
              && Residue(text) == text[..open] + Residue(text[end..])
              && (forall at, shut, stop :: BlockAt(text, at, shut, stop) ==> open <= at)
              && (forall shut, stop :: BlockAt(text, open, shut, stop) ==> close <= shut)
              && (forall stop :: BlockAt(text, open, close, stop) ==> stop <= end)
  {
    hide Find, Lower, Residue;
    var open := Find(Lower(text), OPEN, 0);
    FindIsLeftmost(Lower(text), OPEN, 0);
    if open != -1 {
      FindIsLeftmost(Lower(text), CLOSE, open + |OPEN|);
      var close := Find(Lower(text), CLOSE, open + |OPEN|);
      if close != -1 {
        SkipSpaceIsLongest(text, close + |CLOSE|);
      }
    }
    ResidueUnfolds(text);
  }

  lemma ResidueUnfolds(text: string)
    ensures var open := Find(Lower(text), OPEN, 0);
            var close := if open == -1 then -1 else Find(Lower(text), CLOSE, open + |OPEN|);
            Residue(text) == if close == -1 then text else text[..open] + Residue(SkipSpace(text[close + |CLOSE|..]))
  {
    hide Find, Lower, SkipSpace;
  }

  lemma {:induction false} SkipSpaceShrinks(s: string)
    ensures |SkipSpace(s)| <= |s|
  {
    if s != "" && IsSpace(s[0]) {
      SkipSpaceShrinks(s[1..]);
    }
  }

  /** The last resort against an opening tag that was never closed. */
  function DropUnbalanced(text: string): string {
    var close := Find(Lower(text), CLOSE, 0);
    if close == -1 then "" else text[close + |CLOSE|..]
  }

  predicate HasOpen(text: string) {
    Contains(Lower(text), OPEN)
  }

  function Batch(content: string, stripThinking: bool): string {
    if !stripThinking then Strip(content)
    else if HasOpen(Residue(content)) then Strip(DropUnbalanced(Residue(content)))
    else Strip(Residue(content))
  }

  /** The function as it is written, reassigning `text`. */
  method PostprocessLmstudio(content: string, stripThinking: bool) returns (summary: string)
    ensures summary == Batch(content, stripThinking)
    ensures !stripThinking ==> summary == Strip(content)
  {
    var text := content;
    if stripThinking && HasOpen(text) {
      text := Residue(text);
      if HasOpen(text) {
        var closeAt := Find(Lower(text), CLOSE, 0);
        text := if closeAt != -1 then text[closeAt + |CLOSE|..] else "";
      }
    }
    summary := Strip(text);
  }

  function Streamed(content: string): string {
    Scan(content, false).out
  }

  predicate EndsInside(content: string) {
    Scan(content, false).inThink
  }

  lemma {:induction false} ScanSkipsSpace(text: string)
    ensures Scan(SkipSpace(text), false).inThink == Scan(text, false).inThink
    ensures Erase(Scan(SkipSpace(text), false).out) == Erase(Scan(text, false).out)
    decreases |text|
  {
    hide Find, Scan, Lower;
    if text != "" && IsSpace(text[0]) {
      var head, tail := text[..1], text[1..];
      ScanSkipsSpace(tail);
      SpaceBetweenTags(text);
      assert text == head + tail;
      ScanConcat(head, tail, false);
      ScanOneSpace(head);
      EraseConcat(head, Scan(tail, false).out);
      assert Erase(head[1..]) == "";
    }
  }

  lemma SpaceBetweenTags(text: string)
    requires text != "" && IsSpace(text[0])
    ensures CutBetweenTags(text, 1)
  {
    assert LowerChar(text[0]) != '<';
    forall at, inThink: bool | at < 1 < at + |Tag(inThink)|
      ensures !Occurs(Lower(text), Tag(inThink), at)
    {
      if at == 0 && |Tag(inThink)| <= |text| {
        assert Lower(text)[0..|Tag(inThink)|][0] != Tag(inThink)[0];
      }
    }
  }

  lemma ScanOneSpace(head: string)
    requires |head| == 1
    ensures Scan(head, false) == Scanned(head, false)
  {
    assert Find(Lower(head), OPEN, 0) == -1;
  }

  lemma ScanOneBlock(text: string, open: nat, close: nat)
    requires Find(Lower(text), OPEN, 0) == open && Find(Lower(text), CLOSE, open + |OPEN|) == close
    ensures var rest := Scan(text[close + |CLOSE|..], false);
            Scan(text, false) == Scanned(text[..open] + rest.out, rest.inThink)
  {
    hide Find, Scan, Lower;
    ScanAtTag(text, false, open);
    ScanFrom(text, true, open + |OPEN|);
  }

  lemma ScanOpenBlock(text: string, open: nat)
    requires Find(Lower(text), OPEN, 0) == open && Find(Lower(text), CLOSE, open + |OPEN|) == -1
    ensures Scan(text, false) == Scanned(text[..open], true)
  {
    hide Find, Scan, Lower;
    ScanAtTag(text, false, open);
    ScanFrom(text, true, open + |OPEN|);
  }

  lemma ContainsRight(a: string, b: string)
    requires HasOpen(b)
    ensures HasOpen(a + b)
  {
    hide Find, Lower;
    LowerConcat(a, b);
    var at := Find(Lower(b), OPEN, 0);
    FindIsLeftmost(Lower(b), OPEN, 0);
    OccursRight(Lower(a), Lower(b), OPEN, |a| + at);
    FindIsLeftmost(Lower(a + b), OPEN, 0);
  }

  /** The regex residue is what the scanner shows, up to whitespace, and the scanner is left inside a
      block only if the residue shows the opening tag. */
  lemma {:induction false} ResidueAgainstScan(text: string)
    ensures EndsInside(text) ==> HasOpen(Residue(text))
    ensures !EndsInside(text) ==> Erase(Residue(text)) == Erase(Streamed(text))
    decreases |text|
  {
    hide Find, Scan, Lower;
    var open := Find(Lower(text), OPEN, 0);
    if open == -1 {
      ScanNoTag(text, false);
    } else {
      var close := Find(Lower(text), CLOSE, open + |OPEN|);
      if close == -1 {
        ScanOpenBlock(text, open);
      } else {
        var tail := text[close + |CLOSE|..];
        SkipSpaceShrinks(tail);
        ResidueAgainstScan(SkipSpace(tail));
        ScanSkipsSpace(tail);
        ScanOneBlock(text, open, close);
        EraseConcat(text[..open], Residue(SkipSpace(tail)));
        EraseConcat(text[..open], Scan(tail, false).out);
        if HasOpen(Residue(SkipSpace(tail))) {
          ContainsRight(text[..open], Residue(SkipSpace(tail)));
        }
      }
    }
  }

  /** Batch and streaming agree whenever the unbalanced-tag fallback is not taken. */
  lemma BatchAgrees(content: string)
    requires !HasOpen(Residue(content))
    ensures !EndsInside(content)
    ensures Erase(Batch(content, true)) == Erase(Streamed(content))
  {
    hide Find, Scan, Lower;
    ResidueAgainstScan(content);
    EraseStrip(Residue(content));
  }

  lemma {:induction false} DropUnbalancedErases(text: string)
    requires HasOpen(text)
    ensures |Erase(DropUnbalanced(text))| < |Erase(text)|
  {
    hide Find, Lower;
    var close := Find(Lower(text), CLOSE, 0);
    if close == -1 {
      TagIsNotBlank(text, OPEN, Find(Lower(text), OPEN, 0));
    } else {
      var cut := close + |CLOSE|;
      assert text == text[..cut] + text[cut..];
      EraseConcat(text[..cut], text[cut..]);
      FoundTag(text, CLOSE, close);
      TagIsNotBlank(text, CLOSE, close);
      NonBlankAt(text, close);
      EraseNonBlank(text[..cut], close);
    }
  }

  lemma NonBlankAt(text: string, at: nat)
    requires at < |text| && LowerChar(text[at]) == '<'
    ensures !IsSpace(text[at])
  {
  }

  lemma TagIsNotBlank(text: string, tag: string, at: nat)
    requires tag == OPEN || tag == CLOSE
    requires Find(Lower(text), tag, 0) == at
    ensures at < |text| && LowerChar(text[at]) == '<' && Erase(text) != ""
  {
    hide Find;
    FindIsLeftmost(Lower(text), tag, 0);
    assert Lower(text)[at..at + |tag|][0] == tag[0] == '<';
    EraseNonBlank(text, at);
  }

  /** When the scanner ends outside every block, the two forms agree exactly when the fallback's guard
      is false. */
  lemma AgreementIsTheFallbackGuard(content: string)
    requires !EndsInside(content)
    ensures Erase(Batch(content, true)) == Erase(Streamed(content)) <==> !HasOpen(Residue(content))
  {
    hide Find, Scan, Lower;
    ResidueAgainstScan(content);
    if HasOpen(Residue(content)) {
      DropUnbalancedErases(Residue(content));
      EraseStrip(DropUnbalanced(Residue(content)));
    } else {
      BatchAgrees(content);
    }
  }

  /** When it ends inside a block the fallback always runs; with no closing tag left in the residue the
      batch form drops everything, so it agrees only with a stream that showed nothing. */
  lemma CutOffInsideABlock(content: string)
    requires EndsInside(content)
    ensures HasOpen(Residue(content))
    ensures !Contains(Lower(Residue(content)), CLOSE) ==> Batch(content, true) == ""
  {
    hide Find, Scan, Lower;
    ResidueAgainstScan(content);
  }

  /** Removing a block can join its surroundings into a new opening tag, which the batch form then takes for an
      unclosed one and drops the text, while the stream has shown it. */
  lemma JoinedTagDisagrees()
    ensures var content := "<th<think>x</think>ink>ok";
            !EndsInside(content) && Residue(content) == "<think>ok"
            && Batch(content, true) == "" && Streamed(content) == "<think>ok"
  {
    hide Find, Scan, Lower, Residue;
    var content := "<th<think>x</think>ink>ok";
    var tail := "ink>ok";
    TextFacts();
    ResidueUnfolds(content);
    ResidueUnfolds(tail);
    ScanOneBlock(content, 3, 11);
    ScanNoTag(tail, false);
    assert content[..3] == "<th" && content[19..] == tail && SkipSpace(tail) == tail;
    assert "<th" + tail == "<think>ok";
  }

  lemma NotAt(s: string, word: string, k: nat, j: nat)
    requires j < |word| && (k + |word| <= |s| ==> s[k + j] != word[j])
    ensures !Occurs(s, word, k)
  {
    if k + |word| <= |s| {
      assert s[k..k + |word|][j] == s[k + j];
    }
  }

  lemma OccursAt(s: string, word: string, k: nat)
    requires k + |word| <= |s| && s[k..k + |word|] == word
    ensures Occurs(s, word, k)
  {
  }

  lemma TooShort(s: string, word: string, from: nat)
    requires |s| < from + |word|
    ensures forall k :: from <= k ==> !Occurs(s, word, k)
  {
  }

  lemma TextFacts()
    ensures Find(Lower("<th<think>x</think>ink>ok"), OPEN, 0) == 3
    ensures Find(Lower("<th<think>x</think>ink>ok"), CLOSE, 10) == 11
    ensures Find(Lower("ink>ok"), OPEN, 0) == -1
    ensures Find(Lower("<think>ok"), OPEN, 0) == 0 && Find(Lower("<think>ok"), CLOSE, 0) == -1
  {
    hide Find;
    assert Lower("<th<think>x</think>ink>ok") == "<th<think>x</think>ink>ok";
    assert Lower("ink>ok") == "ink>ok" && Lower("<think>ok") == "<think>ok";
    OpensAtThree();
    ClosesAtEleven();
    TooShort("ink>ok", OPEN, 0);
    FindNothing("ink>ok", OPEN, 0);
    JoinedTag();
  }

  lemma OpensAtThree()
    ensures Find("<th<think>x</think>ink>ok", OPEN, 0) == 3
  {
    hide Find, Occurs;
    var content := "<th<think>x</think>ink>ok";
    assert content == "<th" + (OPEN + "x</think>ink>ok");
    assert content[3..10] == OPEN;
    OccursAt(content, OPEN, 3);
    NotAt(content, OPEN, 0, 3);
    NotAt(content, OPEN, 1, 0);
    NotAt(content, OPEN, 2, 0);
    FindIs(content, OPEN, 0, 3);
  }

  lemma ClosesAtEleven()
    ensures Find("<th<think>x</think>ink>ok", CLOSE, 10) == 11
  {
    hide Find, Occurs;
    var content := "<th<think>x</think>ink>ok";
    assert content[11..19] == CLOSE;
    OccursAt(content, CLOSE, 11);
    NotAt(content, CLOSE, 10, 0);
    FindIs(content, CLOSE, 10, 11);
  }

  lemma JoinedTag()
    ensures Find("<think>ok", OPEN, 0) == 0 && Find("<think>ok", CLOSE, 0) == -1
  {
    hide Find, Occurs;
    OccursAt("<think>ok", OPEN, 0);
    FindIs("<think>ok", OPEN, 0, 0);
    NotAt("<think>ok", CLOSE, 0, 1);
    NotAt("<think>ok", CLOSE, 1, 0);
    TooShort("<think>ok", CLOSE, 2);
    FindNothing("<think>ok", CLOSE, 0);
  }
}
