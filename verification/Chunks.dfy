/** Cutting a transcript into overlapping windows of words. */
module Chunks {
  import opened Text

  const CHUNK_WORDS := 800
  const OVERLAP_WORDS := 100

  // ----- the windows, in closed form -----

  /** How far a window starts after the one before: an overlap as large as the window counts as none. */
  function Step(size: int, overlap: int): (step: int)
    ensures size >= 1 ==> step >= 1
    ensures size >= 0 ==> (step <= size <==> overlap >= 0)
  {
    if size - overlap < 1 then size else size - overlap
  }

  function Start(k: nat, step: nat): nat {
    k * step
  }

  function Min(a: int, b: int): int {
    if a < b then a else b
  }

  /** a / b, rounded up. */
  function CeilDiv(a: nat, b: nat): nat
    requires b >= 1
  {
    (a + b - 1) / b
  }

  /** The number of windows over n words. */
  function Count(n: nat, size: nat, step: nat): nat
    requires step >= 1
  {
    if n == 0 then 0
    else if n <= size then 1
    else if step <= size then CeilDiv(n - size, step) + 1
    else CeilDiv(n, step)
  }

  lemma StartFacts(k: nat, step: nat)
    ensures Start(0, step) == 0 && Start(k + 1, step) == Start(k, step) + step
  {
  }

  lemma {:induction false} StartMono(j: nat, k: nat, step: nat)
    requires j < k && step >= 1
    ensures Start(j, step) + step <= Start(k, step)
  {
    StartFacts(k - 1, step);
    if j < k - 1 {
      StartMono(j, k - 1, step);
    }
  }

  lemma CeilIs(a: nat, b: nat, c: nat)
    requires b >= 1
    ensures CeilDiv(a, b) == c <==> Start(c, b) >= a && (c == 0 || Start(c - 1, b) < a)
  {
    var q := CeilDiv(a, b);
    assert q * b >= a && q * b - b < a;
    assert (q - 1) * b == q * b - b;
    hide CeilDiv;
    if q < c {
      StartMono(q, c, b);
      StartFacts(c - 1, b);
      if q < c - 1 {
        StartMono(q, c - 1, b);
      }
    } else if c < q {
      StartFacts(q - 1, b);
      if c < q - 1 {
        StartMono(c, q - 1, b);
      }
    }
  }

  /** The loop stops at window c - 1: the first that reaches the end of the words or is followed by none. */
  ghost predicate Stops(n: nat, size: nat, step: nat, c: nat) {
    && c >= 1 && Start(c - 1, step) < n
    && (Start(c - 1, step) + size >= n || Start(c, step) >= n)
    && (c >= 2 ==> Start(c - 2, step) + size < n)
  }

  lemma CountIs(n: nat, size: nat, step: nat, c: nat)
    requires n >= 1 && step >= 1
    ensures Count(n, size, step) == c <==> Stops(n, size, step, c)
  {
    hide Start, CeilDiv;
    StartFacts(0, step);
    if c >= 1 { StartFacts(c - 1, step); }
    if c >= 2 { StartFacts(c - 2, step); }
    if n > size {
      if step <= size {
        if c >= 1 { CeilIs(n - size, step, c - 1); }
      } else {
        CeilIs(n, step, c);
      }
    } else if c >= 2 {
      StartMono(0, c - 1, step);
    }
  }

  /** The words of window k. */
  function Window(words: seq<string>, size: nat, step: nat, k: nat): (w: seq<string>)
    ensures |w| <= size
  {
    var start := Min(Start(k, step), |words|);
    words[start..Min(start + size, |words|)]
  }

  /** Where chunkText returns: elsewhere it slices backwards (size < 0) or stays in place for ever (size and step 0). */
  predicate Returns(n: nat, size: int, overlap: int) {
    n == 0 || size >= 1 || (size == 0 && overlap < 0)
  }

  function Chunked(words: seq<string>, size: int, overlap: int): (ws: seq<seq<string>>)
    requires Returns(|words|, size, overlap)
    ensures words != [] || size >= 1 ==> |ws| == Count(|words|, size, Step(size, overlap))
  {
    if words == [] then []
    else
      var step := Step(size, overlap);
      seq(Count(|words|, size, step), k requires k >= 0 => Window(words, size, step, k))
  }

  function JoinAll(ws: seq<seq<string>>): (cs: seq<string>)
    ensures |cs| == |ws|
  {
    seq(|ws|, k requires 0 <= k < |ws| => Join(ws[k], " "))
  }

  /** chunkText. */
  method ChunkText(text: string, size: int, overlap: int) returns (chunks: seq<string>)
    requires Returns(|Fields(text)|, size, overlap)
    ensures chunks == JoinAll(Chunked(Fields(text), size, overlap))
    ensures AreWordsOf(Fields(text), text)
  {
    FieldsExactly(text);
    hide Join, Fields, Start, Count, Window, AreWordsOf;
    var words := Fields(text);
    var n := |words|;
    if n == 0 {
      NoWindows(size, overlap);
      return [];
    }
    if n <= size {
      OneWindow(words, size, overlap);
      return [Join(words, " ")];
    }
    var step := size - overlap;
    if step < 1 {
      step := size;
    }
    chunks := [];
    ghost var k: nat := 0;
    var start := 0;
    StartFacts(0, step);
    while start < n
      invariant start == Start(k, step) && |chunks| == k
      invariant k >= 1 ==> Start(k - 1, step) + size < n
      invariant forall j :: 0 <= j < k ==> chunks[j] == Join(Window(words, size, step, j), " ")
      decreases n - start
    {
      var end := start + size;
      if end > n {
        end := n;
      }
      WindowAt(words, size, step, k);
      chunks := chunks + [Join(words[start..end], " ")];
      StartFacts(k, step);
      k := k + 1;
      if end == n {
        break;
      }
      start := start + step;
    }
    if k >= 2 {
      StartFacts(k - 2, step);
    }
    CountIs(n, size, step, k);
  }

  lemma NoWindows(size: int, overlap: int)
    ensures JoinAll(Chunked([], size, overlap)) == []
  {
  }

  lemma OneWindow(words: seq<string>, size: int, overlap: int)
    requires 1 <= |words| <= size
    ensures JoinAll(Chunked(words, size, overlap)) == [Join(words, " ")]
  {
    hide Join;
    assert Window(words, size, Step(size, overlap), 0) == words;
  }

  lemma WindowAt(words: seq<string>, size: nat, step: nat, k: nat)
    requires Start(k, step) <= |words|
    ensures Window(words, size, step, k) == words[Start(k, step)..Min(Start(k, step) + size, |words|)]
  {
  }

  // ----- where the windows lie -----

  /** Every window starts inside the text; only the last may reach its end, and does unless the overlap is negative. */
  lemma Placed(n: nat, size: nat, step: nat, k: nat)
    requires n >= 1 && size >= 1 && step >= 1 && k < Count(n, size, step)
    ensures Start(k, step) < n
    ensures k + 1 < Count(n, size, step) ==> Start(k, step) + size < n
    ensures k + 1 == Count(n, size, step) && step <= size ==> Start(k, step) + size >= n
  {
    hide Start, Count;
    var c := Count(n, size, step);
    CountIs(n, size, step, c);
    StartFacts(k, step);
    if k + 1 < c {
      StartMono(k, c - 1, step);
      if k + 2 < c {
        StartMono(k, c - 2, step);
      }
    }
  }

  lemma SomeWords(n: nat, size: nat, step: nat)
    requires size >= 1 && step >= 1
    ensures Count(n, size, step) == 0 <==> n == 0
  {
  }

  /** Each window holds at most size words and, after the first, at least one the window before did not have. */
  lemma {:induction false} WindowSizes(words: seq<string>, size: int, overlap: int, k: nat)
    requires size >= 1 && k < |Chunked(words, size, overlap)|
    ensures var w := Chunked(words, size, overlap)[k];
            && 1 <= |w| <= size
            && (k + 1 < |Chunked(words, size, overlap)| ==> |w| == size)
            && (overlap >= 0 && k >= 1 ==> |w| > size - Step(size, overlap))
  {
    var step := Step(size, overlap);
    Placed(|words|, size, step, k);
    hide Start, Count;
    WindowAt(words, size, step, k);
    if k >= 1 {
      Placed(|words|, size, step, k - 1);
      StartFacts(k - 1, step);
    }
  }

  // ----- reconstruction -----

  function Drop(w: seq<string>, d: int): seq<string> {
    if 0 <= d <= |w| then w[d..] else []
  }

  /** The first window followed by each later one without the d words it repeats. */
  function Reassemble(ws: seq<seq<string>>, d: int): seq<string> {
    if |ws| == 0 then []
    else if |ws| == 1 then ws[0]
    else Reassemble(ws[..|ws| - 1], d) + Drop(ws[|ws| - 1], d)
  }

  lemma {:induction false} Rebuilt(words: seq<string>, size: int, overlap: int, k: nat)
    requires size >= 1 && overlap >= 0 && 1 <= k <= |Chunked(words, size, overlap)|
    ensures var step := Step(size, overlap);
            Reassemble(Chunked(words, size, overlap)[..k], size - step)
            == words[..Min(Start(k - 1, step) + size, |words|)]
  {
    hide Start, Count, Window, Step, Drop;
    var step := Step(size, overlap);
    var ws := Chunked(words, size, overlap);
    SomeWords(|words|, size, step);
    Placed(|words|, size, step, k - 1);
    WindowAt(words, size, step, k - 1);
    StartFacts(0, step);
    assert ws[..k][..k - 1] == ws[..k - 1] && ws[..k][k - 1] == Window(words, size, step, k - 1);
    if k >= 2 {
      Rebuilt(words, size, overlap, k - 1);
      Placed(|words|, size, step, k - 2);
      StartFacts(k - 2, step);
      Extend(words, Start(k - 1, step), size - step, Min(Start(k - 1, step) + size, |words|));
    }
  }

  lemma Extend(words: seq<string>, start: nat, d: nat, end: nat)
    requires start + d <= end <= |words|
    ensures words[..start + d] + Drop(words[start..end], d) == words[..end]
  {
  }

  lemma NothingToReassemble(size: int, overlap: int)
    requires size >= 1
    ensures Reassemble(Chunked([], size, overlap), size - Step(size, overlap)) == []
  {
    hide Window, Count;
  }

  /** Some window reaches the end of a text that has words. */
  lemma LastReaches(words: seq<string>, size: int, overlap: int)
    requires size >= 1 && overlap >= 0 && words != []
    ensures var n := |Chunked(words, size, overlap)|;
            n >= 1 && Min(Start(n - 1, Step(size, overlap)) + size, |words|) == |words|
  {
    var step := Step(size, overlap);
    hide Start, Count, Window;
    SomeWords(|words|, size, step);
    Placed(|words|, size, step, Count(|words|, size, step) - 1);
  }

  /** No word is lost or moved: the windows minus their repeated words are the text. */
  lemma {:induction false} Reconstructs(words: seq<string>, size: int, overlap: int)
    requires size >= 1 && overlap >= 0
    ensures Reassemble(Chunked(words, size, overlap), size - Step(size, overlap)) == words
  {
    var ws := Chunked(words, size, overlap);
    hide *;
    if words == [] {
      NothingToReassemble(size, overlap);
    } else {
      LastReaches(words, size, overlap);
      Rebuilt(words, size, overlap, |ws|);
      assert ws[..|ws|] == ws && words[..|words|] == words;
    }
  }

  // ----- runs of words across the seams -----

  /** The m words from place a on lie whole inside window k. */
  predicate Inside(size: nat, step: nat, a: nat, m: nat, k: nat) {
    Start(k, step) <= a && a + m <= Start(k, step) + size
  }

  ghost predicate RunKept(n: nat, size: nat, step: nat, a: nat, m: nat)
    requires step >= 1
  {
    exists k: nat :: k < Count(n, size, step) && Inside(size, step, a, m, k)
  }

  /** A kept run can be read off its window, word for word. */
  lemma InsideReads(words: seq<string>, size: int, overlap: int, a: nat, m: nat, k: nat)
    requires size >= 1 && k < |Chunked(words, size, overlap)| && a + m <= |words|
    requires Inside(size, Step(size, overlap), a, m, k)
    ensures var w := Chunked(words, size, overlap)[k];
            var from := a - Start(k, Step(size, overlap));
            0 <= from && from + m <= |w| && w[from..from + m] == words[a..a + m]
  {
    var step := Step(size, overlap);
    WindowAt(words, size, step, k);
    hide Start, Count, Step, Window;
    assert Chunked(words, size, overlap)[k] == Window(words, size, step, k);
    Reslice(words, Start(k, step), Min(Start(k, step) + size, |words|), a, m);
  }

  lemma Reslice(words: seq<string>, start: nat, end: nat, a: nat, m: nat)
    requires start <= a && a + m <= end <= |words|
    ensures words[start..end][a - start..a - start + m] == words[a..a + m]
  {
    var run := words[start..end][a - start..a - start + m];
    assert forall i :: 0 <= i < m ==> run[i] == words[a + i];
  }

  lemma RunFits(n: nat, size: nat, step: nat, a: nat, m: nat)
    requires n >= 1 && step >= 1 && 1 <= m && step + m <= size + 1 && a + m <= n
    ensures RunKept(n, size, step, a, m)
  {
    var c := Count(n, size, step);
    var k := a / step;
    assert Start(k, step) <= a < Start(k, step) + step;
    hide Start, Count;
    SomeWords(n, size, step);
    if k < c {
      assert Inside(size, step, a, m, k);
    } else {
      StartMono(c - 1, k, step);
      Placed(n, size, step, c - 1);
      assert Inside(size, step, a, m, c - 1);
    }
  }

  lemma RunSplit(n: nat, size: nat, step: nat, m: nat)
    requires size >= 1 && step >= 1 && n > size && size + 1 < step + m && m <= n
    ensures !RunKept(n, size, step, Min(step - 1, n - m), m)
  {
    hide Start, Count;
    var a := Min(step - 1, n - m);
    forall k: nat | k < Count(n, size, step) ensures !Inside(size, step, a, m, k) {
      StartFacts(0, step);
      if k >= 1 {
        StartMono(0, k, step);
      }
    }
  }

  /**
   * What the overlap buys, exactly: every run of m consecutive words lies whole inside some window if and
   * only if m is at most one more than the overlap, one as large as the window counting as none, or the text
   * fits one window. With m = 1: every word is in some window exactly when the overlap is not negative or the
   * text is short.
   */
  lemma RunsExactly(n: nat, size: int, overlap: int, m: nat)
    requires size >= 1 && 1 <= m <= n
    ensures (forall a: nat :: a + m <= n ==> RunKept(n, size, Step(size, overlap), a, m))
            <==> m <= (if overlap < size then overlap else 0) + 1 || n <= size
  {
    hide RunKept, Count, Start;
    var step := Step(size, overlap);
    if n <= size {
      forall a: nat | a + m <= n ensures RunKept(n, size, step, a, m) {
        ShortRun(n, size, step, a, m);
      }
    } else if step + m <= size + 1 {
      forall a: nat | a + m <= n ensures RunKept(n, size, step, a, m) {
        RunFits(n, size, step, a, m);
      }
    } else {
      RunSplit(n, size, step, m);
    }
  }

  lemma ShortRun(n: nat, size: nat, step: nat, a: nat, m: nat)
    requires step >= 1 && 1 <= n <= size && a + m <= n
    ensures RunKept(n, size, step, a, m)
  {
    assert Inside(size, step, a, m, 0);
  }

  // ----- how often a word is read -----

  /** Word i is in window k. */
  predicate Holds(n: nat, size: nat, step: nat, i: nat, k: nat)
    requires step >= 1
  {
    i < n && k < Count(n, size, step) && Inside(size, step, i, 1, k)
  }

  ghost predicate Thrice(n: nat, size: nat, step: nat, i: nat)
    requires step >= 1
  {
    exists j: nat, k: nat, l: nat :: j < k < l &&
      Holds(n, size, step, i, j) && Holds(n, size, step, i, k) && Holds(n, size, step, i, l)
  }

  /** No word is read three times exactly when two steps pass a whole window or there are at most two windows. */
  lemma TwiceExactly(n: nat, size: int, overlap: int)
    requires size >= 1
    ensures var step := Step(size, overlap);
            (forall i: nat :: !Thrice(n, size, step, i)) <==> size <= 2 * step || Count(n, size, step) <= 2
  {
    var step := Step(size, overlap);
    hide Start, Count, Step;
    forall i: nat ensures Thrice(n, size, step, i) ==> 2 * step < size && Count(n, size, step) > 2 {
      if Thrice(n, size, step, i) {
        var j: nat, k: nat, l: nat :|
          j < k < l && Holds(n, size, step, i, j) && Holds(n, size, step, i, k) && Holds(n, size, step, i, l);
        StartMono(j, k, step);
        StartMono(k, l, step);
      }
    }
    if 2 * step < size && Count(n, size, step) > 2 {
      StartFacts(0, step);
      StartFacts(1, step);
      SomeWords(n, size, step);
      Placed(n, size, step, 2);
      var i := Start(2, step);
      assert Holds(n, size, step, i, 0) && Holds(n, size, step, i, 1) && Holds(n, size, step, i, 2);
      assert Thrice(n, size, step, i);
    }
  }

  /** As configured: runs of up to 101 words stay whole, and no word is read more than twice. */
  lemma ConfiguredWindows(n: nat)
    ensures forall a: nat, m: nat :: 1 <= m <= 101 && a + m <= n ==> RunKept(n, CHUNK_WORDS, 700, a, m)
    ensures forall i: nat :: !Thrice(n, CHUNK_WORDS, 700, i)
    ensures Step(CHUNK_WORDS, OVERLAP_WORDS) == 700
  {
    hide RunKept, Thrice, Count;
    TwiceExactly(n, CHUNK_WORDS, OVERLAP_WORDS);
    forall a: nat, m: nat | 1 <= m <= 101 && a + m <= n ensures RunKept(n, CHUNK_WORDS, 700, a, m) {
      RunsExactly(n, CHUNK_WORDS, OVERLAP_WORDS, m);
    }
  }

  // ----- the same for the texts -----

  /** The words of each text. */
  function WordsOf(chunks: seq<string>): (ws: seq<seq<string>>)
    ensures |ws| == |chunks|
  {
    seq(|chunks|, k requires 0 <= k < |chunks| => Fields(chunks[k]))
  }

  /**
   * Splitting the chunks into words again gives the windows, so that the chunks, each without the words it
   * repeats, hold the words of the transcript: its maximal stretches without white space, in order, all of them.
   */
  lemma {:induction false} ChunksReadBack(text: string, chunks: seq<string>, size: int, overlap: int)
    requires Returns(|Fields(text)|, size, overlap) && chunks == JoinAll(Chunked(Fields(text), size, overlap))
    ensures WordsOf(chunks) == Chunked(Fields(text), size, overlap)
    ensures size >= 1 && overlap >= 0 ==>
              AreWordsOf(Reassemble(WordsOf(chunks), size - Step(size, overlap)), text)
  {
    var words := Fields(text);
    FieldsAreWords(text);
    FieldsExactly(text);
    hide Fields, Join, Start, Count, Reassemble, AreWordsOf;
    var ws := Chunked(words, size, overlap);
    forall k | 0 <= k < |chunks| ensures Fields(chunks[k]) == ws[k] {
      assert AllWords(ws[k]);
      FieldsOfJoin(ws[k]);
    }
    assert WordsOf(chunks) == ws;
    if size >= 1 && overlap >= 0 {
      Reconstructs(words, size, overlap);
    }
  }

  /**
   * Chunk k by itself: the words of the text from k steps on, at most size of them, with single spaces
   * between.
   */
  lemma {:induction false} ChunkReads(text: string, words: seq<string>, chunks: seq<string>, size: int, overlap: int,
                                      k: nat)
    requires size >= 1 && AreWordsOf(words, text) && k < |chunks|
    requires chunks == JoinAll(Chunked(Fields(text), size, overlap))
    ensures var start := k * (if overlap < size then size - overlap else size);
            var end := if start + size < |words| then start + size else |words|;
            && start < |words| && chunks[k] == Join(words[start..end], " ")
            && Fields(chunks[k]) == words[start..end]
  {
    hide Fields, Join, Count, AreWordsOf;
    FieldsExactly(text);
    WordsUnique(text, words, Fields(text));
    FieldsAreWords(text);
    SomeWords(|words|, size, Step(size, overlap));
    Placed(|words|, size, Step(size, overlap), k);
    var w := Window(words, size, Step(size, overlap), k);
    WindowAt(words, size, Step(size, overlap), k);
    assert chunks[k] == Join(w, " ") && AllWords(w);
    FieldsOfJoin(w);
  }
}
