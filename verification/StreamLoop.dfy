/** `_iter_openai_stream`: the line loop that feeds the scanner. */
module StreamLoop {
  import opened Options
  import opened Text
  import opened ThinkScanner

  /** A parsed stream chunk: the optional `delta.content` of each choice. */
  type Chunk = seq<Option<string>>

  const DATA := "data:"
  const SENTINEL := "[DONE]"

  /** What one line means to the loop. */
  datatype Reading = Skip | Stop | Delta(content: string)

  function ReadLine(raw: string, parse: string -> Option<Chunk>): Reading {
    var line := Strip(raw);
    if !(DATA <= line) then Skip
    else
      var data := Strip(line[|DATA|..]);
      if data == SENTINEL then Stop
      else match parse(data) {
        case None => Skip
        case Some(choices) =>
          if choices == [] || choices[0].None? || choices[0].value == "" then Skip
          else Delta(choices[0].value)
      }
  }

  /** The content deltas of the parseable `data:` lines before the first `[DONE]`. */
  function Contents(lines: seq<string>, parse: string -> Option<Chunk>): seq<string> {
    if lines == [] then []
    else match ReadLine(lines[0], parse) {
      case Skip => Contents(lines[1..], parse)
      case Stop => []
      case Delta(content) => [content] + Contents(lines[1..], parse)
    }
  }

  /** What is left of each delta after the scanner, empty remains dropped. */
  function Surviving(deltas: seq<string>, inThink: bool): seq<string> {
    if deltas == [] then []
    else
      var first := Scan(deltas[0], inThink);
      (if first.out == "" then [] else [first.out]) + Surviving(deltas[1..], first.inThink)
  }

  function Filtered(deltas: seq<string>, stripThinking: bool, inThink: bool): seq<string> {
    if stripThinking then Surviving(deltas, inThink) else deltas
  }

  /** The generator as it is written; `parse` stands for the JSON validation of one line. */
  method IterOpenaiStream(lines: seq<string>, parse: string -> Option<Chunk>, stripThinking: bool)
    returns (yielded: seq<string>)
    ensures yielded == Filtered(Contents(lines, parse), stripThinking, false)
    ensures !stripThinking ==> yielded == Contents(lines, parse)
  {
    hide Strip, Scan, Filtered, Contents, Ahead;
    yielded := [];
    var inThink := false;
    AtStart(lines, parse, stripThinking);
    for n := 0 to |lines|
      invariant Ahead(lines, parse, stripThinking, yielded, n, inThink)
    {
      LineTurn(lines, parse, stripThinking, yielded, n, inThink);
      var line := Strip(lines[n]);
      if line == "" || !(DATA <= line) {
        continue;
      }
      var data := Strip(line[|DATA|..]);
      if data == SENTINEL {
        return;
      }
      var chunk := parse(data);
      if chunk.None? {
        continue;
      }
      if chunk.value == [] {
        continue;
      }
      var delta := if chunk.value[0].Some? then chunk.value[0].value else "";
      if delta == "" {
        continue;
      }
      if stripThinking {
        delta, inThink := StripThinkingStreaming(delta, inThink);
        if delta == "" {
          continue;
        }
      }
      yielded := yielded + [delta];
    }
    AtEnd(lines, parse, stripThinking, yielded, inThink);
  }

  /** What was yielded, and what the lines from `n` on will yield, is what all of them do. */
  ghost predicate Ahead(lines: seq<string>, parse: string -> Option<Chunk>, stripThinking: bool, yielded: seq<string>,
                        n: nat, inThink: bool)
    requires n <= |lines|
  {
    yielded + Filtered(Contents(lines[n..], parse), stripThinking, inThink)
    == Filtered(Contents(lines, parse), stripThinking, false)
  }

  lemma AtStart(lines: seq<string>, parse: string -> Option<Chunk>, stripThinking: bool)
    ensures Ahead(lines, parse, stripThinking, [], 0, false)
    ensures !stripThinking ==> Filtered(Contents(lines, parse), stripThinking, false) == Contents(lines, parse)
  {
    hide Contents, Surviving;
    assert lines[0..] == lines;
  }

  lemma AtEnd(lines: seq<string>, parse: string -> Option<Chunk>, stripThinking: bool, yielded: seq<string>, inThink: bool)
    requires Ahead(lines, parse, stripThinking, yielded, |lines|, inThink)
    ensures yielded == Filtered(Contents(lines, parse), stripThinking, false)
  {
    hide Filtered, Surviving, ReadLine;
    assert lines[|lines|..] == [] && Contents([], parse) == [];
    FilteredEmpty(stripThinking, inThink);
    assert yielded + [] == yielded;
  }

  /** One turn of the loop, by what the line means. */
  lemma LineTurn(lines: seq<string>, parse: string -> Option<Chunk>, stripThinking: bool, yielded: seq<string>, n: nat,
                 inThink: bool)
    requires n < |lines| && Ahead(lines, parse, stripThinking, yielded, n, inThink)
    ensures match ReadLine(lines[n], parse) {
              case Skip => Ahead(lines, parse, stripThinking, yielded, n + 1, inThink)
              case Stop => yielded == Filtered(Contents(lines, parse), stripThinking, false)
              case Delta(content) =>
                var first := if stripThinking then Scan(content, inThink) else Scanned(content, inThink);
                Ahead(lines, parse, stripThinking,
                      if stripThinking && first.out == "" then yielded else yielded + [first.out], n + 1, first.inThink)
            }
  {
    hide ReadLine, Scan, Filtered, Contents;
    ContentsStep(lines, parse, n);
    match ReadLine(lines[n], parse) {
      case Skip =>
      case Stop =>
        FilteredEmpty(stripThinking, inThink);
        assert yielded + [] == yielded;
      case Delta(content) =>
        FilteredStep(content, Contents(lines[n + 1..], parse), stripThinking, inThink);
        var first := if stripThinking then Scan(content, inThink) else Scanned(content, inThink);
        var later := Filtered(Contents(lines[n + 1..], parse), stripThinking, first.inThink);
        if stripThinking && first.out == "" {
          assert [] + later == later;
        } else {
          assert yielded + [first.out] + later == yielded + ([first.out] + later);
        }
    }
  }

  lemma ContentsStep(lines: seq<string>, parse: string -> Option<Chunk>, n: nat)
    requires n < |lines|
    ensures Contents(lines[n..], parse) == match ReadLine(lines[n], parse) {
              case Skip => Contents(lines[n + 1..], parse)
              case Stop => []
              case Delta(content) => [content] + Contents(lines[n + 1..], parse)
            }
  {
    assert lines[n..][0] == lines[n] && lines[n..][1..] == lines[n + 1..];
  }

  lemma FilteredEmpty(stripThinking: bool, inThink: bool)
    ensures Filtered([], stripThinking, inThink) == []
  {
  }

  lemma FilteredStep(delta: string, later: seq<string>, stripThinking: bool, inThink: bool)
    ensures (var first := if stripThinking then Scan(delta, inThink) else Scanned(delta, inThink);
             Filtered([delta] + later, stripThinking, inThink)
             == (if stripThinking && first.out == "" then [] else [first.out])
                + Filtered(later, stripThinking, first.inThink))
  {
    hide Scan;
    assert ([delta] + later)[1..] == later;
  }

  // ---------------------------------------------------------------------------
  // What the loop takes from its lines
  // ---------------------------------------------------------------------------

  /** The line that ends the stream. */
  ghost predicate EndsStream(raw: string) {
    exists payload :: Strip(raw) == "data:" + payload && Strip(payload) == "[DONE]"
  }

  /** A `data:` line whose payload parses to a chunk with `text` as the content of its first choice. */
  ghost predicate Carries(raw: string, parse: string -> Option<Chunk>, text: string) {
    exists payload, more: Chunk :: PayloadIs(raw, payload) && parse(Strip(payload)) == Some([Some(text)] + more)
  }

  ghost predicate PayloadIs(raw: string, payload: string) {
    Strip(raw) == "data:" + payload && Strip(payload) != "[DONE]"
  }

  lemma PayloadOf(line: string)
    ensures DATA <= line ==> line == "data:" + line[|DATA|..]
    ensures forall payload :: line == "data:" + payload ==> DATA <= line && line[|DATA|..] == payload
  {
  }

  /** One line: its content, if it carries a non-empty one, and nothing otherwise. */
  lemma ContentsOfLine(raw: string, parse: string -> Option<Chunk>)
    ensures forall text :: Carries(raw, parse, text) && text != "" ==> Contents([raw], parse) == [text]
    ensures (forall text :: Carries(raw, parse, text) ==> text == "") ==> Contents([raw], parse) == []
  {
    hide Strip;
    var line := Strip(raw);
    PayloadOf(line);
    assert [raw][1..] == [];
    if DATA <= line && Strip(line[|DATA|..]) != SENTINEL {
      var payload := line[|DATA|..];
      assert PayloadIs(raw, payload);
      var chunk := parse(Strip(payload));
      if chunk.Some? && chunk.value != [] && chunk.value[0].Some? {
        assert chunk.value == [Some(chunk.value[0].value)] + chunk.value[1..];
        assert Carries(raw, parse, chunk.value[0].value);
      }
    }
  }

  /** Before the end of the stream lines contribute one after the other. */
  lemma {:induction false} ContentsConcat(a: seq<string>, b: seq<string>, parse: string -> Option<Chunk>)
    requires forall raw :: raw in a ==> !EndsStream(raw)
    ensures Contents(a + b, parse) == Contents(a, parse) + Contents(b, parse)
  {
    hide Strip, ReadLine;
    if a == [] {
      assert a + b == b;
    } else {
      assert a[0] in a && forall raw :: raw in a[1..] ==> raw in a;
      StopIsTheEnd(a[0], parse);
      ContentsConcat(a[1..], b, parse);
      assert (a + b)[1..] == a[1..] + b;
    }
  }

  lemma StopIsTheEnd(raw: string, parse: string -> Option<Chunk>)
    ensures ReadLine(raw, parse).Stop? <==> EndsStream(raw)
  {
    hide Strip;
    PayloadOf(Strip(raw));
  }

  /** Behind the end of the stream nothing counts. */
  lemma {:induction false} ContentsEnd(a: seq<string>, end: string, b: seq<string>, parse: string -> Option<Chunk>)
    requires (forall raw :: raw in a ==> !EndsStream(raw)) && EndsStream(end)
    ensures Contents(a + [end] + b, parse) == Contents(a, parse)
  {
    hide Strip, ReadLine;
    StopIsTheEnd(end, parse);
    ContentsConcat(a, [end] + b, parse);
    assert a + [end] + b == a + ([end] + b);
  }

  lemma {:induction false} SurvivingIsThread(deltas: seq<string>, inThink: bool)
    ensures Join(Surviving(deltas, inThink)) == Thread(deltas, inThink).out
    ensures forall part :: part in Surviving(deltas, inThink) ==> part != ""
  {
    if deltas != [] {
      var first := Scan(deltas[0], inThink);
      SurvivingIsThread(deltas[1..], first.inThink);
      JoinConcat(if first.out == "" then [] else [first.out], Surviving(deltas[1..], first.inThink));
      JoinAppend([], first.out);
    }
  }

  lemma {:induction false} ContentsNonEmpty(lines: seq<string>, parse: string -> Option<Chunk>)
    ensures forall part :: part in Contents(lines, parse) ==> part != ""
  {
    if lines != [] {
      ContentsNonEmpty(lines[1..], parse);
    }
  }

  /** What a client pieces together from the live tokens is one scan of the whole model output. */
  lemma StreamIsOneScan(lines: seq<string>, parse: string -> Option<Chunk>)
    requires TagAligned(Contents(lines, parse))
    ensures Join(Surviving(Contents(lines, parse), false)) == Scan(Join(Contents(lines, parse)), false).out
    ensures forall part :: part in Surviving(Contents(lines, parse), false) ==> part != ""
  {
    SurvivingIsThread(Contents(lines, parse), false);
    SplitInvariance(Contents(lines, parse), false);
  }
}
