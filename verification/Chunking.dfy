/**
 The word-window chunker (chunking.py): windows of `chunkSize` words, each `chunkSize - overlap` words
 after the one before, with the pages they come from.
 */
module Chunking {
  import opened Wrappers
  import opened Words

  datatype Word = Word(text: string, page: int)

  datatype Chunk = Chunk(text: string, index: int, pageStart: int, pageEnd: int)

  /** ValueError for the sizes; IndexError when a window comes out empty. */
  datatype ChunkError = BadSizes | EmptyWindow

  // ---- The words of a document

  function Tag(ws: seq<string>, page: int): seq<Word> {
    seq(|ws|, i requires 0 <= i < |ws| => Word(ws[i], page))
  }

  /** All words with their page, pages counted from 1. */
  function Tagged(pages: seq<string>): seq<Word> {
    if pages == [] then [] else Tagged(pages[..|pages| - 1]) + Tag(Split(pages[|pages| - 1]), |pages|)
  }

  function Texts(words: seq<Word>): seq<string> {
    seq(|words|, i requires 0 <= i < |words| => words[i].text)
  }

  /** `page.split()` over all pages, one after the other. */
  function AllTexts(pages: seq<string>): seq<string> {
    if pages == [] then [] else AllTexts(pages[..|pages| - 1]) + Split(pages[|pages| - 1])
  }

  // ---- The program

  /** `words[from:to]` for a start that is not negative; a negative end counts from the back. */
  function Slice(words: seq<Word>, from: nat, to: int): seq<Word> {
    var n := |words|;
    var end := if to < 0 then (if to + n < 0 then 0 else to + n) else if to > n then n else to;
    if from >= end then [] else words[from..end]
  }

  function ChunkOf(window: seq<Word>, index: int): Chunk
    requires window != []
  {
    Chunk(Join(Texts(window)), index, window[0].page, window[|window| - 1].page)
  }

  /** What the loop still produces from a start. */
  function Windows(words: seq<Word>, start: nat, index: int, size: int, step: int): Result<seq<Chunk>, ChunkError>
    requires step >= 1
    decreases |words| - start
  {
    if start >= |words| then Ok([])
    else
      var window := Slice(words, start, start + size);
      if window == [] then Err(EmptyWindow)
      else if start + size >= |words| then Ok([ChunkOf(window, index)])
      else Prepend([ChunkOf(window, index)], Windows(words, start + step, index + 1, size, step))
  }

  function Prepend(chunks: seq<Chunk>, r: Result<seq<Chunk>, ChunkError>): Result<seq<Chunk>, ChunkError> {
    if r.Err? then r else Ok(chunks + r.value)
  }

  /** One turn of the loop, in each of its three outcomes. */
  lemma Turn(chunks: seq<Chunk>, words: seq<Word>, start: nat, index: int, size: int, step: int)
    requires step >= 1 && start < |words|
    ensures
      var window := Slice(words, start, start + size);
      var left := Prepend(chunks, Windows(words, start, index, size, step));
      if window == [] then left == Err(EmptyWindow)
      else if start + size >= |words| then left == Ok(chunks + [ChunkOf(window, index)])
      else left == Prepend(chunks + [ChunkOf(window, index)], Windows(words, start + step, index + 1, size, step))
  {
    hide ChunkOf, Slice;
    var window := Slice(words, start, start + size);
    var rest := Windows(words, start + step, index + 1, size, step);
    if window != [] && rest.Ok? {
      var c := ChunkOf(window, index);
      assert chunks + ([c] + rest.value) == chunks + [c] + rest.value;
    }
  }

  lemma PrependNothing(chunks: seq<Chunk>, r: Result<seq<Chunk>, ChunkError>)
    ensures Prepend([], r) == r && Prepend(chunks, Ok([])) == Ok(chunks)
  {
    if r.Ok? { assert [] + r.value == r.value; }
    assert chunks + [] == chunks;
  }

  method TagWords(pages: seq<string>) returns (words: seq<Word>)
    ensures words == Tagged(pages)
  {
    words := [];
    for i := 0 to |pages|
      invariant words == Tagged(pages[..i])
    {
      assert pages[..i + 1][..i] == pages[..i];
      words := words + Tag(Split(pages[i]), i + 1);
    }
    assert pages[..|pages|] == pages;
  }

  function Chunks(pages: seq<string>, chunkSize: int, overlap: int): Result<seq<Chunk>, ChunkError> {
    if chunkSize <= overlap then Err(BadSizes)
    else Windows(Tagged(pages), 0, 0, chunkSize, chunkSize - overlap)
  }

  /**
   `chunk_pages`, with the early exit of its loop. `exhausted` says that the loop ended because its guard became
   false; that needs a negative overlap, so otherwise the `break` is the only way out.
   */
  method ChunkPages(pages: seq<string>, chunkSize: int, overlap: int)
    returns (r: Result<seq<Chunk>, ChunkError>, ghost exhausted: bool)
    ensures r == Chunks(pages, chunkSize, overlap)
    ensures exhausted ==> overlap < 0
  {
    hide ChunkOf, Slice, Tagged, Windows, Prepend;
    if chunkSize <= overlap {
      return Err(BadSizes), false;
    }
    var words := TagWords(pages);
    if words == [] {
      WindowsPastEnd(words, 0, 0, chunkSize, chunkSize - overlap);
      return Ok([]), false;
    }
    var chunks: seq<Chunk> := [];
    var step := chunkSize - overlap;
    var start: nat := 0;
    var index := 0;
    ghost var all := Windows(words, 0, 0, chunkSize, step);
    PrependNothing([], all);
    while start < |words|
      invariant all == Prepend(chunks, Windows(words, start, index, chunkSize, step))
      invariant overlap >= 0 ==> start < |words|
      decreases |words| - start
    {
      Turn(chunks, words, start, index, chunkSize, step);
      var window := Slice(words, start, start + chunkSize);
      if window == [] {
        return Err(EmptyWindow), false;
      }
      chunks := chunks + [ChunkOf(window, index)];
      index := index + 1;
      if start + chunkSize >= |words| {
        return Ok(chunks), false;
      }
      start := start + step;
    }
    WindowsPastEnd(words, start, index, chunkSize, step);
    PrependNothing(chunks, all);
    return Ok(chunks), true;
  }

  lemma WindowsPastEnd(words: seq<Word>, start: nat, index: int, size: int, step: int)
    requires step >= 1 && start >= |words|
    ensures Windows(words, start, index, size, step) == Ok([])
  {
  }

  // ---- The words of the model are the words of the pages

  lemma {:induction false} TaggedTexts(pages: seq<string>)
    ensures Texts(Tagged(pages)) == AllTexts(pages)
  {
    if pages != [] {
      var n := |pages| - 1;
      TaggedTexts(pages[..n]);
      assert Texts(Tag(Split(pages[n]), |pages|)) == Split(pages[n]);
      assert Texts(Tagged(pages)) == Texts(Tagged(pages[..n])) + Split(pages[n]);
    }
  }

  ghost predicate WordsOnly(words: seq<Word>) {
    forall i :: 0 <= i < |words| ==> IsWord(words[i].text)
  }

  ghost predicate PagesInOrder(words: seq<Word>, last: int) {
    && (forall i :: 0 <= i < |words| ==> 1 <= words[i].page <= last)
    && (forall i, j :: 0 <= i <= j < |words| ==> words[i].page <= words[j].page)
  }

  lemma {:induction false} TaggedShape(pages: seq<string>)
    ensures WordsOnly(Tagged(pages)) && PagesInOrder(Tagged(pages), |pages|)
  {
    if pages != [] {
      var n := |pages| - 1;
      TaggedShape(pages[..n]);
      SplitWords(pages[n]);
      var front, back := Tagged(pages[..n]), Tag(Split(pages[n]), |pages|);
      assert forall i :: 0 <= i < |front + back| ==>
        (front + back)[i] == if i < |front| then front[i] else back[i - |front|];
    }
  }

  /** Word number i of the document stands on page p: the pages before p hold no more than i words, those up to p more. */
  ghost predicate StandsOn(pages: seq<string>, i: int, p: int) {
    1 <= p <= |pages| && |AllTexts(pages[..p - 1])| <= i < |AllTexts(pages[..p])|
  }

  lemma {:induction false} TextsGrow(pages: seq<string>, p: nat)
    requires p <= |pages|
    ensures |AllTexts(pages[..p])| <= |AllTexts(pages)|
  {
    if p < |pages| {
      TextsGrow(pages[..|pages| - 1], p);
      assert pages[..|pages| - 1][..p] == pages[..p];
    } else {
      assert pages[..p] == pages;
    }
  }

  lemma {:induction false} WordStandsOn(pages: seq<string>, i: nat)
    requires i < |Tagged(pages)|
    ensures StandsOn(pages, i, Tagged(pages)[i].page)
  {
    var n := |pages| - 1;
    TaggedTexts(pages);
    TaggedTexts(pages[..n]);
    assert |Texts(Tagged(pages))| == |Tagged(pages)| && |Texts(Tagged(pages[..n]))| == |Tagged(pages[..n])|;
    if i < |Tagged(pages[..n])| {
      WordStandsOn(pages[..n], i);
      var p := Tagged(pages[..n])[i].page;
      assert pages[..n][..p] == pages[..p] && pages[..n][..p - 1] == pages[..p - 1];
    } else {
      assert pages[..|pages|] == pages;
    }
  }

  lemma OnePage(pages: seq<string>, i: int, p: int, q: int)
    requires StandsOn(pages, i, p) && StandsOn(pages, i, q)
    ensures p == q
  {
    if p < q {
      TextsBetween(pages, p, q - 1);
    } else if q < p {
      TextsBetween(pages, q, p - 1);
    }
  }

  lemma TextsBetween(pages: seq<string>, p: nat, q: nat)
    requires p <= q <= |pages|
    ensures |AllTexts(pages[..p])| <= |AllTexts(pages[..q])|
  {
    TextsGrow(pages[..q], p);
    assert pages[..q][..p] == pages[..p];
  }

  /** Every word is tagged with the page it stands on, and with no other. */
  lemma PageExactly(pages: seq<string>, i: nat, p: int)
    requires i < |Tagged(pages)|
    ensures Tagged(pages)[i].page == p <==> StandsOn(pages, i, p)
  {
    hide StandsOn, Tagged;
    WordStandsOn(pages, i);
    if StandsOn(pages, i, p) { OnePage(pages, i, p, Tagged(pages)[i].page); }
  }
}
