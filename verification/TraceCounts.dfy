/** The TOKEN deltas and CHUNK_SUMMARIZED events of a trace. */
module TraceCounts {
  import opened Events

  function TokensOf(trace: seq<Event>): seq<string> {
    if trace == [] then [] else TokenOf(trace[0]) + TokensOf(trace[1..])
  }

  function TokenOf(e: Event): seq<string> {
    if e.Token? then [e.delta] else []
  }

  datatype Summary = Summary(index: nat, total: nat, text: string)

  function ChunksOf(trace: seq<Event>): seq<Summary> {
    if trace == [] then [] else ChunkOf(trace[0]) + ChunksOf(trace[1..])
  }

  function ChunkOf(e: Event): seq<Summary> {
    if e.ChunkSummarized? then [Summary(e.index, e.total, e.text)] else []
  }

  lemma Unfold(trace: seq<Event>)
    requires trace != []
    ensures TokensOf(trace) == TokenOf(trace[0]) + TokensOf(trace[1..])
    ensures ChunksOf(trace) == ChunkOf(trace[0]) + ChunksOf(trace[1..])
  {
  }

  lemma {:induction false} OfConcat(a: seq<Event>, b: seq<Event>)
    ensures TokensOf(a + b) == TokensOf(a) + TokensOf(b) && ChunksOf(a + b) == ChunksOf(a) + ChunksOf(b)
    decreases |a|
  {
    if a == [] {
      assert a + b == b;
    } else {
      hide TokensOf, ChunksOf, TokenOf, ChunkOf;
      var rest := a[1..];
      OfConcat(rest, b);
      assert (a + b)[1..] == rest + b && (a + b)[0] == a[0];
      Unfold(a + b);
      Unfold(a);
      Associate(TokenOf(a[0]), TokensOf(rest), TokensOf(b));
      Associate(ChunkOf(a[0]), ChunksOf(rest), ChunksOf(b));
    }
  }

  lemma Associate<T>(a: seq<T>, b: seq<T>, c: seq<T>)
    ensures a + (b + c) == (a + b) + c
  {
  }

  lemma {:induction false} OfPlain(trace: seq<Event>)
    requires forall e :: e in trace ==> !e.Token? && !e.ChunkSummarized?
    ensures TokensOf(trace) == [] && ChunksOf(trace) == []
  {
    if trace != [] {
      OfPlain(trace[1..]);
    }
  }

  lemma {:induction false} OfChunks(events: seq<Event>)
    requires forall e :: e in events ==> e.ChunkSummarized?
    ensures TokensOf(events) == [] && |ChunksOf(events)| == |events|
    ensures forall i :: 0 <= i < |events| ==>
              ChunksOf(events)[i] == Summary(events[i].index, events[i].total, events[i].text)
  {
    if events != [] {
      var rest := ChunksOf(events[1..]);
      OfChunks(events[1..]);
      assert ChunksOf(events) == [Summary(events[0].index, events[0].total, events[0].text)] + rest;
    }
  }

  /** The TOKEN and CHUNK_SUMMARIZED events of a trace. */
  function Bulk(trace: seq<Event>): nat {
    |TokensOf(trace)| + |ChunksOf(trace)|
  }

  lemma OfAtMostOne(events: seq<Event>)
    requires |events| <= 1
    ensures Bulk(events) <= 1
  {
    if events != [] {
      var none := events[1..];
      assert TokensOf(none) == [] && ChunksOf(none) == [];
      assert TokensOf(events) == TokenOf(events[0]) + TokensOf(none);
      assert ChunksOf(events) == ChunkOf(events[0]) + ChunksOf(none);
    }
  }
}
