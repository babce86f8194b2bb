/** `chunk_text`: fixed-size windows over the fetched text, capped in number. */
module Chunker {
  import opened Text

  /** `[text[i : i + size] for i in range(start, len(text), size)]`. */
  function Windows(text: string, start: nat, size: nat): seq<string>
    requires size >= 1
    decreases |text| - start
  {
    if start >= |text| then []
    else [text[start..if start + size <= |text| then start + size else |text|]]
         + Windows(text, start + size, size)
  }

  function Take<T>(s: seq<T>, n: nat): seq<T> {
    if n <= |s| then s[..n] else s
  }

  function ChunkText(text: string, size: nat, maxChunks: nat): seq<string>
    requires size >= 1
  {
    if text == "" then [] else Take(Windows(text, 0, size), maxChunks)
  }

  function Min(a: int, b: int): int {
    if a <= b then a else b
  }

  /** How many characters of a text of length `n` the first `k` windows cover. */
  function Covered(n: nat, size: nat, k: nat): nat {
    Min(n, size * k)
  }

  /** No window is empty and all but the last have exactly `size` characters. */
  ghost predicate Sized(windows: seq<string>, size: nat) {
    && (forall i :: 0 <= i < |windows| ==> 1 <= |windows[i]| <= size)
    && (forall i :: 0 <= i < |windows| - 1 ==> |windows[i]| == size)
  }

  lemma {:induction false} WindowSizes(text: string, start: nat, size: nat)
    requires size >= 1 && start <= |text|
    ensures Sized(Windows(text, start, size), size)
    decreases |text| - start
  {
    if start < |text| {
      var end := Min(start + size, |text|);
      var all, rest := Windows(text, start, size), Windows(text, start + size, size);
      assert all == [text[start..end]] + rest;
      if start + size <= |text| {
        WindowSizes(text, start + size, size);
      } else {
        assert rest == [];
      }
      forall i | 1 <= i < |all|
        ensures all[i] == rest[i - 1]
      {
      }
      assert Sized(rest, size);
    }
  }

  lemma {:induction false} WindowsCover(text: string, start: nat, size: nat, k: nat)
    requires size >= 1 && start <= |text|
    ensures Covered(|text| - start, size, k) <= |text| - start
    ensures Join(Take(Windows(text, start, size), k)) == text[start..start + Covered(|text| - start, size, k)]
    decreases |text| - start
  {
    hide Covered, Windows, Take, Join;
    var left := |text| - start;
    CoveredStep(left, size, k);
    WindowsStep(text, start, size, k);
    if k > 0 && left > 0 && size <= left {
      WindowsCover(text, start + size, size, k - 1);
    }
  }

  lemma WindowsStep(text: string, start: nat, size: nat, k: nat)
    requires size >= 1 && start <= |text|
    ensures Join(Take(Windows(text, start, size), k))
         == if k == 0 || start == |text| then ""
            else if start + size <= |text| then text[start..start + size] + Join(Take(Windows(text, start + size, size), k - 1))
            else text[start..]
  {
    if k > 0 && start < |text| {
      var end := Min(start + size, |text|);
      var rest := Windows(text, start + size, size);
      assert Take(Windows(text, start, size), k) == [text[start..end]] + Take(rest, k - 1);
      JoinFirst(text[start..end], Take(rest, k - 1));
    }
  }

  /** The first window covers `size` characters, if there are as many. */
  lemma CoveredStep(n: nat, size: nat, k: nat)
    requires size >= 1
    ensures Covered(n, size, k) == if k == 0 || n == 0 then 0 else if size <= n then size + Covered(n - size, size, k - 1) else n
  {
    if k > 0 {
      assert size * k == size + size * (k - 1) && size * (k - 1) >= 0;
    }
  }

  lemma JoinFirst(first: string, rest: seq<string>)
    ensures Join([first] + rest) == first + Join(rest)
  {
    assert ([first] + rest)[1..] == rest;
  }

  lemma {:induction false} WindowCount(text: string, start: nat, size: nat)
    requires size >= 1 && start <= |text|
    ensures var n := |Windows(text, start, size)|; size * n < |text| - start + size && |text| - start <= size * n
    decreases |text| - start
  {
    if start < |text| {
      var n := |Windows(text, start, size)|;
      assert size * n == size + size * (n - 1);
      if start + size <= |text| {
        WindowCount(text, start + size, size);
      } else {
        assert Windows(text, start + size, size) == [];
      }
    }
  }

  lemma CeilingIsUnique(n: nat, size: nat, count: nat)
    requires size >= 1 && size * count < n + size && n <= size * count
    ensures count == (n + size - 1) / size
  {
    var q := (n + size - 1) / size;
    assert size * q <= n + size - 1 < size * q + size;
    ProductSteps(size, count, q);
    ProductSteps(size, q, count);
  }

  lemma ProductSteps(size: nat, a: nat, b: nat)
    ensures a < b ==> size * a + size <= size * b
  {
    if a < b {
      assert size * b == size * a + size * (b - a);
      assert size * (b - a) == size + size * (b - a - 1);
    }
  }

  /** Conservation and count: a prefix of the text, cut into full windows and one shorter last one. */
  lemma ChunksConserve(text: string, size: nat, maxChunks: nat)
    requires size >= 1 && maxChunks >= 1
    ensures var chunks := ChunkText(text, size, maxChunks);
            && Join(chunks) == text[..Min(|text|, size * maxChunks)]
            && |chunks| == Min((|text| + size - 1) / size, maxChunks)
            && Sized(chunks, size)
            && (chunks == [] <==> text == "")
  {
    WindowsCover(text, 0, size, maxChunks);
    WindowSizes(text, 0, size);
    WindowCount(text, 0, size);
    CeilingIsUnique(|text|, size, |Windows(text, 0, size)|);
    if text == "" {
      assert (size - 1) / size == 0;
    }
  }
}
