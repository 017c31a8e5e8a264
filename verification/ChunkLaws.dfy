/**
 What the chunks are, in closed form, and what follows: how many there are, how they overlap, which
 pages they claim, and that the document can be rebuilt from their texts, exactly when the overlap is
 not negative or one window holds everything.
 */
module ChunkLaws {
  import opened Wrappers
  import opened Words
  import opened Chunking

  // ---- Windows by number

  /** 1 + max(0, ceil((words - size) / step)). */
  function Count(words: nat, size: int, step: int): (c: nat)
    requires step >= 1
    ensures c >= 1
  {
    1 + if words <= size then 0 else (words - size + step - 1) / step
  }

  lemma Ceiling(x: int, step: int)
    requires x >= 1 && step >= 1
    ensures
      var q := (x + step - 1) / step;
      q >= 1 && q * step >= x && (q - 1) * step < x
  {
  }

  lemma Ordered(a: int, b: int, step: int)
    requires a <= b && step >= 1
    ensures a * step <= b * step
  {
  }

  /** The window that reaches the end of the document is the last one counted. */
  lemma LastWindow(words: nat, size: int, step: int, k: nat)
    requires step >= 1
    ensures k * step + size >= words <==> k >= Count(words, size, step) - 1
  {
    Ordered(0, k, step);
    if words > size {
      var q := (words - size + step - 1) / step;
      Ceiling(words - size, step);
      if k >= q {
        Ordered(q, k, step);
      } else {
        Ordered(k, q - 1, step);
      }
    }
  }

  function From(k: nat, step: int): (i: nat)
    requires step >= 1
  {
    Ordered(0, k, step);
    k * step
  }

  function To(words: nat, size: int, step: int, k: nat): int
    requires step >= 1
  {
    if From(k, step) + size >= words then words else From(k, step) + size
  }

  lemma FromNext(k: nat, step: int)
    requires step >= 1
    ensures From(k + 1, step) == From(k, step) + step && From(0, step) == 0
  {
  }

  /** Every counted window starts inside the document; a later one, more than the overlap before the end. */
  lemma WindowInside(words: nat, size: int, step: int, k: nat)
    requires 1 <= step <= size && words >= 1 && k < Count(words, size, step)
    ensures From(k, step) < words && From(k, step) < To(words, size, step, k) <= words
    ensures k >= 1 ==> From(k, step) + (size - step) < words
    ensures To(words, size, step, k) == words <==> k == Count(words, size, step) - 1
  {
    LastWindow(words, size, step, k);
    FromNext(k, step);
    if k >= 1 {
      LastWindow(words, size, step, k - 1);
      FromNext(k - 1, step);
    }
  }

  function Window(words: seq<Word>, size: int, step: int, k: nat): (w: seq<Word>)
    requires 1 <= step <= size && words != [] && k < Count(|words|, size, step)
    ensures w != []
  {
    WindowInside(|words|, size, step, k);
    words[From(k, step)..To(|words|, size, step, k)]
  }

  /** The chunks from number k on are the windows from number k on. */
  ghost predicate AreWindows(r: Result<seq<Chunk>, ChunkError>, words: seq<Word>, size: int, step: int, k: nat)
    requires 1 <= step <= size && words != []
  {
    && r.Ok?
    && k + |r.value| == Count(|words|, size, step)
    && forall m :: 0 <= m < |r.value| ==> r.value[m] == ChunkOf(Window(words, size, step, k + m), k + m)
  }

  lemma AreWindowsCons(
    words: seq<Word>, size: int, step: int, k: nat, rest: Result<seq<Chunk>, ChunkError>)
    requires 1 <= step <= size && words != [] && k < Count(|words|, size, step)
    requires AreWindows(rest, words, size, step, k + 1)
    ensures AreWindows(Prepend([ChunkOf(Window(words, size, step, k), k)], rest), words, size, step, k)
  {
    hide ChunkOf, From, Count, Window;
    var c := ChunkOf(Window(words, size, step, k), k);
    forall m | 0 <= m < |[c] + rest.value|
      ensures ([c] + rest.value)[m] == ChunkOf(Window(words, size, step, k + m), k + m)
    {
      if m > 0 { assert ([c] + rest.value)[m] == rest.value[m - 1]; }
    }
  }

  lemma SliceIsWindow(words: seq<Word>, size: int, step: int, k: nat)
    requires 1 <= step <= size && words != [] && k < Count(|words|, size, step)
    ensures From(k, step) < |words|
    ensures Slice(words, From(k, step), From(k, step) + size) == Window(words, size, step, k)
  {
    hide From, Count;
    WindowInside(|words|, size, step, k);
  }

  lemma {:induction false} WindowsClosed(words: seq<Word>, size: int, step: int, k: nat)
    requires 1 <= step <= size && words != [] && k < Count(|words|, size, step)
    ensures AreWindows(Windows(words, From(k, step), k, size, step), words, size, step, k)
    decreases Count(|words|, size, step) - k
  {
    hide ChunkOf, From, Count, Window, Slice;
    SliceIsWindow(words, size, step, k);
    FromNext(k, step);
    LastCounted(|words|, size, step, k);
    if From(k, step) + size < |words| {
      WindowsClosed(words, size, step, k + 1);
      AreWindowsCons(words, size, step, k, Windows(words, From(k + 1, step), k + 1, size, step));
    }
  }

  lemma LastCounted(words: nat, size: int, step: int, k: nat)
    requires step >= 1
    ensures From(k, step) + size >= words <==> k >= Count(words, size, step) - 1
  {
    hide Count;
    LastWindow(words, size, step, k);
  }

  /** A document with words, cut with 0 <= overlap < size, gives exactly the counted windows. */
  lemma ChunksAreWindows(pages: seq<string>, size: int, overlap: int)
    requires 0 <= overlap < size && Tagged(pages) != []
    ensures AreWindows(Chunks(pages, size, overlap), Tagged(pages), size, size - overlap, 0)
  {
    hide AreWindows, Count, From, Windows, Tagged;
    FromNext(0, size - overlap);
    WindowsClosed(Tagged(pages), size, size - overlap, 0);
  }

  /** A document without words gives no chunks. */
  lemma NoWordsNoChunks(pages: seq<string>, size: int, overlap: int)
    requires overlap < size && Tagged(pages) == []
    ensures Chunks(pages, size, overlap) == Ok([])
  {
  }

  // ---- Geometry

  /** All windows but the last are full, and each later one brings at least one new word. */
  lemma WindowSizes(words: seq<Word>, size: int, step: int, k: nat)
    requires 1 <= step <= size && words != [] && k < Count(|words|, size, step)
    ensures |Window(words, size, step, k)| <= size
    ensures k < Count(|words|, size, step) - 1 ==> |Window(words, size, step, k)| == size
    ensures k >= 1 ==> |Window(words, size, step, k)| > size - step
  {
    hide From, Count;
    WindowInside(|words|, size, step, k);
  }

  lemma SliceOfSlice(words: seq<Word>, i: nat, j: nat, a: nat, b: nat)
    requires i <= j <= |words| && a <= b <= j - i
    ensures words[i..j][a..b] == words[i + a..i + b]
  {
    assert forall m :: 0 <= m < b - a ==> words[i..j][a..b][m] == words[i..j][a + m] == words[i + a + m];
  }

  /** Consecutive windows share exactly the overlap: the end of one is the start of the next, and nothing more. */
  lemma WindowOverlap(words: seq<Word>, size: int, step: int, k: nat)
    requires 1 <= step <= size && words != [] && k + 1 < Count(|words|, size, step)
    ensures
      var a, b := Window(words, size, step, k), Window(words, size, step, k + 1);
      && |a| == size && |b| > size - step
      && a[step..] == b[..size - step]
  {
    hide From, Count;
    WindowInside(|words|, size, step, k);
    WindowInside(|words|, size, step, k + 1);
    FromNext(k, step);
    var i := From(k, step);
    SliceOfSlice(words, i, i + size, step, size);
    SliceOfSlice(words, i + step, To(|words|, size, step, k + 1), 0, size - step);
  }

  ghost predicate Holds(words: nat, size: int, step: int, k: nat, j: int)
    requires step >= 1
  {
    k < Count(words, size, step) && From(k, step) <= j < To(words, size, step, k)
  }

  function Spread(size: int, step: int): int
    requires step >= 1
  {
    (size + step - 1) / step
  }

  lemma HoldersClose(words: nat, size: int, step: int, a: nat, b: nat, j: int)
    requires 1 <= step <= size && a <= b && Holds(words, size, step, a, j) && Holds(words, size, step, b, j)
    ensures b - a < Spread(size, step)
  {
    assert (b - a) * step == b * step - a * step;
    assert (b - a) * step < size;
    Ceiling(size, step);
    if b - a >= Spread(size, step) {
      Ordered(Spread(size, step), b - a, step);
    }
  }

  lemma {:induction false} IntervalSize(s: set<nat>, lo: nat, n: nat)
    requires forall k :: k in s ==> lo <= k < lo + n
    ensures |s| <= n
  {
    if n == 0 {
      assert s == {};
    } else {
      var top := lo + n - 1;
      IntervalSize(s - {top}, lo, n - 1);
      assert |s| <= |s - {top}| + 1;
    }
  }

  lemma {:induction false} Least(s: set<nat>) returns (k: nat)
    requires s != {}
    ensures k in s && forall m :: m in s ==> k <= m
  {
    k :| k in s;
    if s != {k} {
      var m := Least(s - {k});
      assert forall x :: x in s ==> x == k || x in s - {k};
      if m < k { k := m; }
    }
  }

  /** No word is in more than ceil(size / step) chunks. */
  lemma WordSpread(words: nat, size: int, step: int, j: int, holders: set<nat>)
    requires 1 <= step <= size && forall k :: k in holders ==> Holds(words, size, step, k, j)
    ensures |holders| <= Spread(size, step)
  {
    hide Holds, Spread;
    if holders != {} {
      var lo := Least(holders);
      forall k | k in holders ensures k - lo < Spread(size, step) {
        HoldersClose(words, size, step, lo, k, j);
      }
      IntervalSize(holders, lo, Spread(size, step));
    } else {
      SpreadPositive(size, step);
    }
  }

  lemma SpreadPositive(size: int, step: int)
    requires 1 <= step <= size
    ensures Spread(size, step) >= 1
  {
    Ceiling(size, step);
  }

  /** The pages a chunk names lie in the document, cover all its words, and never go back. */
  lemma WindowPages(words: seq<Word>, last: int, size: int, step: int, k: nat)
    requires 1 <= step <= size && words != [] && PagesInOrder(words, last) && k < Count(|words|, size, step)
    ensures
      var c := ChunkOf(Window(words, size, step, k), k);
      && 1 <= c.pageStart <= c.pageEnd <= last
      && forall w :: w in Window(words, size, step, k) ==> c.pageStart <= w.page <= c.pageEnd
    ensures k + 1 < Count(|words|, size, step) ==>
      var c, d := ChunkOf(Window(words, size, step, k), k), ChunkOf(Window(words, size, step, k + 1), k + 1);
      c.pageStart <= d.pageStart && c.pageEnd <= d.pageEnd
  {
    hide From, Count;
    WindowInside(|words|, size, step, k);
    if k + 1 < Count(|words|, size, step) {
      WindowInside(|words|, size, step, k + 1);
      FromNext(k, step);
    }
  }

  // ---- Rebuilding the document

  /** The words of the first chunk, then of each later chunk without its first `skip` words. */
  function Rebuilt(chunks: seq<Chunk>, skip: nat): seq<string> {
    if chunks == [] then []
    else
      var last := |chunks| - 1;
      var ws := Split(chunks[last].text);
      Rebuilt(chunks[..last], skip) +
      if last == 0 then ws else if skip <= |ws| then ws[skip..] else []
  }

  lemma WindowText(words: seq<Word>, size: int, step: int, k: nat, index: int)
    requires 1 <= step <= size && words != [] && WordsOnly(words) && k < Count(|words|, size, step)
    ensures Split(ChunkOf(Window(words, size, step, k), index).text) == Texts(Window(words, size, step, k))
  {
    hide From, Count;
    WindowInside(|words|, size, step, k);
    SplitJoin(Texts(Window(words, size, step, k)));
  }

  /** Where a window ends, the next one has just finished repeating the overlap. */
  lemma Seam(words: nat, size: int, step: int, k: nat)
    requires 1 <= step <= size && words >= 1 && 1 <= k < Count(words, size, step)
    ensures To(words, size, step, k - 1) == From(k, step) + (size - step) <= To(words, size, step, k) <= words
  {
    hide From, Count;
    WindowInside(words, size, step, k - 1);
    WindowInside(words, size, step, k);
    FromNext(k - 1, step);
  }

  lemma WindowTail(words: seq<Word>, size: int, step: int, k: nat)
    requires 1 <= step <= size && words != [] && 1 <= k < Count(|words|, size, step)
    ensures To(|words|, size, step, k - 1) <= To(|words|, size, step, k) <= |words|
    ensures |Texts(Window(words, size, step, k))| >= size - step
    ensures Texts(words)[..To(|words|, size, step, k)] ==
      Texts(words)[..To(|words|, size, step, k - 1)] + Texts(Window(words, size, step, k))[size - step..]
  {
    hide From, Count, To;
    WindowInside(|words|, size, step, k);
    Seam(|words|, size, step, k);
  }

  lemma {:induction false} RebuiltPrefix(words: seq<Word>, size: int, step: int, chunks: seq<Chunk>, m: nat)
    requires 1 <= step <= size && words != [] && WordsOnly(words)
    requires AreWindows(Ok(chunks), words, size, step, 0) && 1 <= m <= |chunks|
    ensures To(|words|, size, step, m - 1) <= |words|
    ensures Rebuilt(chunks[..m], size - step) == Texts(words)[..To(|words|, size, step, m - 1)]
  {
    hide From, Count, ChunkOf, To;
    var k := m - 1;
    WindowInside(|words|, size, step, k);
    WindowText(words, size, step, k, k);
    var window := Window(words, size, step, k);
    assert chunks[k] == ChunkOf(window, k);
    assert chunks[..m][..k] == chunks[..k];
    if m == 1 {
      FromNext(0, step);
      assert Texts(window) == Texts(words)[..To(|words|, size, step, 0)];
    } else {
      RebuiltPrefix(words, size, step, chunks, k);
      WindowTail(words, size, step, k);
    }
  }

  /**
   The chunk texts lose nothing: the words of the first chunk, then those of each later chunk after the
   overlap, are the words of all pages in order.
   */
  lemma NothingLost(pages: seq<string>, size: int, overlap: int)
    requires 0 <= overlap < size
    ensures Chunks(pages, size, overlap).Ok?
    ensures Rebuilt(Chunks(pages, size, overlap).value, overlap) == AllTexts(pages)
  {
    hide AreWindows, Windows;
    TaggedTexts(pages);
    TaggedShape(pages);
    var words := Tagged(pages);
    if words == [] {
      NoWordsNoChunks(pages, size, overlap);
    } else {
      ChunksAreWindows(pages, size, overlap);
      AllRebuilt(words, size, size - overlap, Chunks(pages, size, overlap));
    }
  }

  lemma AllRebuilt(words: seq<Word>, size: int, step: int, r: Result<seq<Chunk>, ChunkError>)
    requires 1 <= step <= size && words != [] && WordsOnly(words) && AreWindows(r, words, size, step, 0)
    ensures r.Ok? && Rebuilt(r.value, size - step) == Texts(words)
  {
    hide From, Count, ChunkOf, Window;
    var m := |r.value|;
    RebuiltPrefix(words, size, step, r.value, m);
    WindowInside(|words|, size, step, m - 1);
    assert r.value[..m] == r.value;
    assert Texts(words)[..|words|] == Texts(words);
  }

  // ---- The same facts, read off the chunks that are returned

  /** Two consecutive chunks: the first is full, they share exactly the overlap, the second adds words, pages go on. */
  ghost predicate Follows(c: Chunk, d: Chunk, size: int, overlap: int) {
    var a, b := Split(c.text), Split(d.text);
    && 0 <= overlap < size
    && |a| == size && overlap < |b| <= size
    && a[size - overlap..] == b[..overlap]
    && d.index == c.index + 1
    && c.pageStart <= d.pageStart && c.pageEnd <= d.pageEnd
  }

  lemma WindowFollows(words: seq<Word>, last: int, size: int, overlap: int, k: nat)
    requires 0 <= overlap < size && words != [] && WordsOnly(words) && PagesInOrder(words, last)
    requires k + 1 < Count(|words|, size, size - overlap)
    ensures
      var step := size - overlap;
      Follows(ChunkOf(Window(words, size, step, k), k), ChunkOf(Window(words, size, step, k + 1), k + 1), size, overlap)
  {
    hide From, Count, To, Window;
    var step := size - overlap;
    WindowText(words, size, step, k, k);
    WindowText(words, size, step, k + 1, k + 1);
    WindowOverlap(words, size, step, k);
    WindowSizes(words, size, step, k + 1);
    WindowPages(words, last, size, step, k);
    var a, b := Window(words, size, step, k), Window(words, size, step, k + 1);
    assert Texts(a)[step..] == Texts(a[step..]) && Texts(b)[..overlap] == Texts(b[..overlap]);
  }

  /** The number of chunks, and how each follows the one before, for every document with words. */
  lemma ChunkFacts(pages: seq<string>, size: int, overlap: int)
    requires 0 <= overlap < size && AllTexts(pages) != []
    ensures
      var r := Chunks(pages, size, overlap);
      && r.Ok?
      && |r.value| == Count(|AllTexts(pages)|, size, size - overlap)
      && (forall k :: 0 <= k < |r.value| ==> r.value[k].index == k)
      && (forall k :: 0 <= k < |r.value| ==> 1 <= r.value[k].pageStart <= r.value[k].pageEnd <= |pages|)
      && (forall k {:trigger r.value[k]} :: 0 <= k < |r.value| - 1 ==> Follows(r.value[k], r.value[k + 1], size, overlap))
  {
    hide From, Count, To, Window, Windows, Follows, Tagged, AllTexts;
    TaggedTexts(pages);
    TaggedShape(pages);
    var words, step := Tagged(pages), size - overlap;
    assert |Texts(words)| == |words|;
    ChunksAreWindows(pages, size, overlap);
    var chunks := Chunks(pages, size, overlap).value;
    forall k | 0 <= k < |chunks|
      ensures chunks[k].index == k && 1 <= chunks[k].pageStart <= chunks[k].pageEnd <= |pages|
    {
      WindowPages(words, |pages|, size, step, k);
    }
    forall k | 0 <= k < |chunks| - 1 ensures Follows(chunks[k], chunks[k + 1], size, overlap) {
      WindowFollows(words, |pages|, size, overlap, k);
    }
  }

  lemma WindowEnds(words: seq<Word>, size: int, step: int, k: nat)
    requires 1 <= step <= size && words != [] && k < Count(|words|, size, step)
    ensures From(k, step) < To(|words|, size, step, k) <= |words|
    ensures
      var w := Window(words, size, step, k);
      w[0] == words[From(k, step)] && w[|w| - 1] == words[To(|words|, size, step, k) - 1]
  {
    hide From, Count, To;
    WindowInside(|words|, size, step, k);
  }

  /**
   The pages a chunk names are exactly the page its first word stands on and the page its last word stands on: for
   chunk k, the words number k * step and min(k * step + size, words) - 1 of the document.
   */
  lemma ChunkPagesExactly(pages: seq<string>, size: int, overlap: int, k: nat)
    requires 0 <= overlap < size && AllTexts(pages) != []
    ensures Chunks(pages, size, overlap).Ok?
    ensures k < |Chunks(pages, size, overlap).value| ==>
      var c := Chunks(pages, size, overlap).value[k];
      var first := k * (size - overlap);
      var last := (if first + size <= |AllTexts(pages)| then first + size else |AllTexts(pages)|) - 1;
      && 0 <= first <= last < |AllTexts(pages)|
      && StandsOn(pages, first, c.pageStart) && StandsOn(pages, last, c.pageEnd)
  {
    hide Window, Windows, Tagged, AllTexts, Count, StandsOn;
    TaggedTexts(pages);
    var words, step := Tagged(pages), size - overlap;
    assert |Texts(words)| == |words|;
    ChunksAreWindows(pages, size, overlap);
    var r := Chunks(pages, size, overlap);
    if k < |r.value| {
      WindowEnds(words, size, step, k);
      assert r.value[k] == ChunkOf(Window(words, size, step, 0 + k), 0 + k);
      WordStandsOn(pages, From(k, step));
      WordStandsOn(pages, To(|words|, size, step, k) - 1);
    }
  }

  // ---- A negative overlap loses words

  /** How many words a list of chunks holds in all. */
  function Total(chunks: seq<Chunk>): nat {
    if chunks == [] then 0 else |Split(chunks[0].text)| + Total(chunks[1..])
  }

  lemma SliceText(words: seq<Word>, start: nat, size: int, index: int)
    requires WordsOnly(words) && size >= 1 && start < |words|
    ensures
      var w := Slice(words, start, start + size);
      w != [] && |w| <= size && |w| <= |words| - start &&
      (start + size >= |words| ==> |w| == |words| - start) &&
      Split(ChunkOf(w, index).text) == Texts(w)
  {
    var w := Slice(words, start, start + size);
    forall i | 0 <= i < |w| ensures IsWord(Texts(w)[i]) {
      assert w[i] == words[start + i];
    }
    SplitJoin(Texts(w));
  }

  /** With a gap between windows, the chunks hold fewer words than are left, once the first is not the last. */
  lemma {:induction false} GapsLose(words: seq<Word>, start: nat, index: int, size: int, step: int)
    requires WordsOnly(words) && 1 <= size < step
    ensures
      var r := Windows(words, start, index, size, step);
      && r.Ok?
      && (start < |words| ==> Total(r.value) <= |words| - start)
      && (start >= |words| ==> Total(r.value) == 0)
      && (start + size < |words| ==> Total(r.value) < |words| - start)
    decreases |words| - start
  {
    hide ChunkOf, Slice;
    if start < |words| {
      SliceText(words, start, size, index);
      var c := ChunkOf(Slice(words, start, start + size), index);
      if start + size >= |words| {
        assert [c][1..] == [];
      } else {
        GapsLose(words, start + step, index + 1, size, step);
        var rest := Windows(words, start + step, index + 1, size, step).value;
        assert ([c] + rest)[1..] == rest;
      }
    }
  }

  lemma {:induction false} RebuiltWhole(chunks: seq<Chunk>)
    ensures |Rebuilt(chunks, 0)| == Total(chunks)
  {
    if chunks != [] {
      var last := |chunks| - 1;
      RebuiltWhole(chunks[..last]);
      TotalLast(chunks);
    }
  }

  lemma {:induction false} TotalLast(chunks: seq<Chunk>)
    requires chunks != []
    ensures Total(chunks) == Total(chunks[..|chunks| - 1]) + |Split(chunks[|chunks| - 1].text)|
  {
    var last := |chunks| - 1;
    if last > 0 {
      TotalLast(chunks[1..]);
      assert chunks[..last][1..] == chunks[1..][..last - 1];
    } else {
      assert chunks[1..] == [];
    }
  }

  lemma OneWindow(words: seq<Word>, size: int, step: int)
    requires WordsOnly(words) && 1 <= size && step >= 1 && |words| <= size
    ensures Windows(words, 0, 0, size, step).Ok?
    ensures Rebuilt(Windows(words, 0, 0, size, step).value, 0) == Texts(words)
  {
    hide ChunkOf;
    if words != [] {
      SliceText(words, 0, size, 0);
      var w := Slice(words, 0, size);
      assert w == words;
      assert Windows(words, 0, 0, size, step) == Ok([ChunkOf(w, 0)]);
      assert [ChunkOf(w, 0)][..0] == [];
    }
  }

  lemma NegativeWindow(words: seq<Word>, start: nat, size: int, index: int)
    requires WordsOnly(words) && size <= 0 && start < |words|
    ensures
      var w := Slice(words, start, start + size);
      w == [] || (start + size < 0 && |w| == |words| + size && Split(ChunkOf(w, index).text) == Texts(w))
  {
    var w := Slice(words, start, start + size);
    forall i | 0 <= i < |w| ensures IsWord(Texts(w)[i]) {
      assert w[i] == words[start + i];
    }
    SplitJoin(Texts(w));
  }

  /**
   A size of zero or less: a window is empty, or is cut off |size| words before the end, and the loop either
   fails or stores fewer words than there are.
   */
  lemma {:induction false} NegativeLose(words: seq<Word>, start: nat, index: int, size: int, step: int)
    requires WordsOnly(words) && size <= 0 && step >= 1 && start < |words|
    ensures
      var r := Windows(words, start, index, size, step);
      r.Ok? ==> step > |words| + size && Total(r.value) < |words| - start
    decreases |words| - start
  {
    hide ChunkOf, Slice;
    NegativeWindow(words, start, size, index);
    var w := Slice(words, start, start + size);
    var rest := Windows(words, start + step, index + 1, size, step);
    if w != [] && rest.Ok? {
      var c := ChunkOf(w, index);
      assert ([c] + rest.value)[1..] == rest.value;
      if start + step < |words| { NegativeLose(words, start + step, index + 1, size, step); }
    }
  }

  /** Whether the texts of the chunks give the document back. */
  predicate Recovers(r: Result<seq<Chunk>, ChunkError>, overlap: int, texts: seq<string>) {
    r.Ok? && Rebuilt(r.value, if overlap < 0 then 0 else overlap) == texts
  }

  lemma NonPositiveLoses(pages: seq<string>, size: int, overlap: int)
    requires overlap < size <= 0
    ensures Recovers(Chunks(pages, size, overlap), overlap, AllTexts(pages)) <==> AllTexts(pages) == []
  {
    hide Windows, Rebuilt, Total;
    TaggedTexts(pages);
    TaggedShape(pages);
    var words := Tagged(pages);
    assert |Texts(words)| == |words|;
    if words == [] {
      NoWordsNoChunks(pages, size, overlap);
      RebuiltWhole([]);
      NothingTotal();
    } else {
      NegativeLose(words, 0, 0, size, size - overlap);
      if Chunks(pages, size, overlap).Ok? { RebuiltWhole(Chunks(pages, size, overlap).value); }
    }
  }

  lemma NothingTotal()
    ensures Total([]) == 0
  {
  }

  lemma PositiveLoses(pages: seq<string>, size: int, overlap: int)
    requires size >= 1 && overlap < size
    ensures Chunks(pages, size, overlap).Ok?
    ensures Recovers(Chunks(pages, size, overlap), overlap, AllTexts(pages)) <==> (overlap >= 0 || |AllTexts(pages)| <= size)
  {
    hide Windows, Rebuilt;
    TaggedTexts(pages);
    TaggedShape(pages);
    if overlap >= 0 {
      NothingLost(pages, size, overlap);
    } else {
      var words := Tagged(pages);
      GapsLose(words, 0, 0, size, size - overlap);
      RebuiltWhole(Windows(words, 0, 0, size, size - overlap).value);
      if |words| <= size {
        OneWindow(words, size, size - overlap);
      }
    }
  }

  /**
   The documented guard accepts negative overlaps and sizes, and then words can be lost: for every pair it accepts
   the chunks give the document back exactly when the overlap is not negative, or everything fits one window, or
   there are no words at all.
   */
  lemma NothingLostExactly(pages: seq<string>, size: int, overlap: int)
    requires overlap < size
    ensures Recovers(Chunks(pages, size, overlap), overlap, AllTexts(pages))
       <==> (overlap >= 0 || |AllTexts(pages)| <= size || AllTexts(pages) == [])
  {
    hide Recovers, Chunks, AllTexts;
    if size >= 1 {
      PositiveLoses(pages, size, overlap);
    } else {
      NonPositiveLoses(pages, size, overlap);
    }
  }

  /** A chunk size of zero passes the guard and fails on the first window of any document with words. */
  lemma ZeroSizeFails(pages: seq<string>, overlap: int)
    requires overlap < 0 && AllTexts(pages) != []
    ensures Chunks(pages, 0, overlap) == Err(EmptyWindow)
  {
    TaggedTexts(pages);
    assert |Texts(Tagged(pages))| == |Tagged(pages)|;
  }

  lemma ThreeWords()
    ensures Split("a b c") == ["a", "b", "c"]
  {
    var ws := ["a", "b", "c"];
    assert ws[1..] == ["b", "c"] && ["b", "c"][1..] == ["c"];
    assert Join(["c"]) == "c" && Join(["b", "c"]) == "b" + " " + "c" && Join(ws) == "a" + " " + Join(["b", "c"]);
    assert Join(ws) == "a b c";
    SplitJoin(ws);
  }

  lemma ThreeTagged()
    ensures Tagged(["a b c"]) == [Word("a", 1), Word("b", 1), Word("c", 1)] && AllTexts(["a b c"]) == ["a", "b", "c"]
  {
    ThreeWords();
    assert ["a b c"][..0] == [];
    assert Tagged([]) == [] && AllTexts([]) == [];
  }

  /** Three words cut with size 1 and overlap -1: the second word is in no chunk. */
  lemma GapLosesWord()
    ensures Chunks(["a b c"], 1, -1) == Ok([Chunk("a", 0, 1, 1), Chunk("c", 1, 1, 1)])
    ensures AllTexts(["a b c"]) == ["a", "b", "c"]
    ensures !Recovers(Chunks(["a b c"], 1, -1), -1, AllTexts(["a b c"]))
  {
    hide Tagged, AllTexts, Split;
    ThreeTagged();
    var words := Tagged(["a b c"]);
    assert Slice(words, 2, 3) == [Word("c", 1)] && Slice(words, 0, 1) == [Word("a", 1)];
    assert Texts([Word("c", 1)]) == ["c"] && Texts([Word("a", 1)]) == ["a"];
    assert ChunkOf([Word("c", 1)], 1) == Chunk("c", 1, 1, 1) && ChunkOf([Word("a", 1)], 0) == Chunk("a", 0, 1, 1);
    assert Windows(words, 2, 1, 1, 2) == Ok([Chunk("c", 1, 1, 1)]);
    assert Windows(words, 0, 0, 1, 2) == Prepend([Chunk("a", 0, 1, 1)], Windows(words, 2, 1, 1, 2));
    assert [Chunk("a", 0, 1, 1)] + [Chunk("c", 1, 1, 1)] == [Chunk("a", 0, 1, 1), Chunk("c", 1, 1, 1)];
    assert Chunks(["a b c"], 1, -1) == Windows(words, 0, 0, 1, 2);
    NothingLostExactly(["a b c"], 1, -1);
  }
}
