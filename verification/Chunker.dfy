/** The sliding-window chunker: windows of `size` tokens that overlap by `overlap`, short ones dropped. */
module Chunkers {
  import opened Wrappers
  import opened Sequences
  import opened Text
  import opened DocumentProcessors

  datatype TextChunk = TextChunk(
    text: string, chunkIndex: nat, tokenCount: nat, sectionTitle: Option<string>, pageNumber: nat)

  /** The constructor's three numbers, which it stores unchecked. */
  datatype Config = Config(size: int, overlap: int, minTokens: int)

  function Min(a: int, b: int): int
  {
    if a < b then a else b
  }

  function Clamp(n: nat, x: int): (r: nat)
    ensures r <= n
  {
    if x < 0 then (if n + x < 0 then 0 else n + x) else Min(x, n)
  }

  /** Python's `s[lo:hi]` for any integers. */
  function Slice<T>(s: seq<T>, lo: int, hi: int): (r: seq<T>)
    ensures 0 <= lo <= hi <= |s| ==> r == s[lo..hi]
    ensures forall i :: 0 <= i < |r| ==> r[i] in s
  {
    var a, b := Clamp(|s|, lo), Clamp(|s|, hi);
    if a < b then s[a..b] else []
  }

  // ------------------------------------------------------------------------
  // Termination
  // ------------------------------------------------------------------------

  /** One pass of the inner loop: the next `start`, or None when the loop is left. */
  function NextStart(n: nat, c: Config, start: int): Option<int>
  {
    if start >= n || Min(start + c.size, n) == n then None else Some(start + c.size - c.overlap)
  }

  /** `start` after `k` passes, or None when the loop was left before. */
  function StartAfter(n: nat, c: Config, k: nat): Option<int>
  {
    if k == 0 then Some(0)
    else match StartAfter(n, c, k - 1)
         case None => None
         case Some(start) => NextStart(n, c, start)
  }

  /** How far the window moves. */
  function Stride(c: Config): int
  {
    c.size - c.overlap
  }

  lemma MulStep(k: int, d: int)
    ensures k * d == (k - 1) * d + d
  {
  }

  predicate Terminates(n: nat, c: Config)
  {
    n == 0 || n <= c.size || c.overlap < c.size
  }

  lemma {:induction false} LoopsForever(n: nat, c: Config, k: nat)
    requires !Terminates(n, c)
    ensures StartAfter(n, c, k) == Some(k * Stride(c)) && k * Stride(c) <= 0
  {
    if k > 0 {
      LoopsForever(n, c, k - 1);
      MulStep(k, Stride(c));
    }
  }

  lemma {:induction false} StartGrows(n: nat, c: Config, k: nat)
    requires c.overlap < c.size
    ensures StartAfter(n, c, k).Some? ==> StartAfter(n, c, k).value >= k
  {
    if k > 0 {
      StartGrows(n, c, k - 1);
    }
  }

  /** The loop over a non-empty page of `n` tokens is left if and only if the page fits one window or `overlap < size`. */
  lemma {:induction false} LoopEndsIff(n: nat, c: Config)
    requires n > 0
    ensures (exists k: nat :: StartAfter(n, c, k).None?) <==> Terminates(n, c)
  {
    if Terminates(n, c) {
      if n <= c.size {
        assert StartAfter(n, c, 0) == Some(0);
        assert StartAfter(n, c, 1).None?;
      } else {
        StartGrows(n, c, n);
        if StartAfter(n, c, n).Some? {
          assert StartAfter(n, c, n + 1) == NextStart(n, c, StartAfter(n, c, n).value);
          assert StartAfter(n, c, n + 1).None?;
        } else {
          assert StartAfter(n, c, n).None?;
        }
      }
    } else {
      forall k: nat ensures StartAfter(n, c, k).Some? {
        LoopsForever(n, c, k);
      }
    }
  }

  // ------------------------------------------------------------------------
  // The windows and the chunks
  // ------------------------------------------------------------------------

  /** The token windows kept from `start` on; `some` says whether a chunk exists already (one does after the first window). */
  function Kept<T>(tokens: seq<T>, c: Config, start: nat, some: bool): (r: seq<seq<T>>)
    requires |tokens| <= start || |tokens| <= start + c.size || c.overlap < c.size
    decreases |tokens| - start
  {
    if start >= |tokens| then []
    else
      var end := Min(start + c.size, |tokens|);
      var window := Slice(tokens, start, end);
      var keep := |window| >= c.minTokens || !some;
      (if keep then [window] else [])
      + if end == |tokens| then [] else Kept(tokens, c, end - c.overlap, true)
  }

  lemma KeptUnfold<T>(tokens: seq<T>, c: Config, start: nat, some: bool)
    requires |tokens| <= start || |tokens| <= start + c.size || c.overlap < c.size
    ensures start >= |tokens| ==> Kept(tokens, c, start, some) == []
    ensures start < |tokens| ==>
      var end := Min(start + c.size, |tokens|);
      var window := Slice(tokens, start, end);
      var rest := if end == |tokens| then [] else Kept(tokens, c, end - c.overlap, true);
      Kept(tokens, c, start, some) == (if |window| >= c.minTokens || !some then [window] + rest else rest)
  {
  }

  function MakeChunk(page: RawPage, window: seq<string>, idx: nat): TextChunk
  {
    TextChunk(Join(' ', window), idx, |window|, page.sectionTitle, page.pageNumber)
  }

  /** The windows as chunks of `page`, numbered from `idx`. */
  function ToChunks(page: RawPage, windows: seq<seq<string>>, idx: nat): (r: seq<TextChunk>)
    ensures |r| == |windows|
  {
    if windows == [] then [] else [MakeChunk(page, windows[0], idx)] + ToChunks(page, windows[1..], idx + 1)
  }

  lemma ToChunksCons(page: RawPage, window: seq<string>, rest: seq<seq<string>>, idx: nat)
    ensures ToChunks(page, [window] + rest, idx) == [MakeChunk(page, window, idx)] + ToChunks(page, rest, idx + 1)
  {
    assert ([window] + rest)[1..] == rest;
  }

  lemma {:induction false} ToChunksAt(page: RawPage, windows: seq<seq<string>>, idx: nat, k: nat)
    requires k < |windows|
    ensures ToChunks(page, windows, idx)[k] == MakeChunk(page, windows[k], idx + k)
  {
    if k > 0 { ToChunksAt(page, windows[1..], idx + 1, k - 1); }
  }

  /** The chunks the inner loop still makes from `start` on when `idx` chunks exist. */
  function ChunksFrom(page: RawPage, tokens: seq<string>, c: Config, start: nat, idx: nat): seq<TextChunk>
    requires |tokens| <= start || |tokens| <= start + c.size || c.overlap < c.size
  {
    ToChunks(page, Kept(tokens, c, start, idx > 0), idx)
  }

  lemma ChunksFromStep(page: RawPage, tokens: seq<string>, c: Config, start: nat, chunks: seq<TextChunk>)
    requires start < |tokens| && (|tokens| <= start + c.size || c.overlap < c.size)
    ensures var end := Min(start + c.size, |tokens|);
            var window := Slice(tokens, start, end);
            var next := if |window| >= c.minTokens || chunks == [] then chunks + [MakeChunk(page, window, |chunks|)] else chunks;
            chunks + ChunksFrom(page, tokens, c, start, |chunks|)
            == next + if end == |tokens| then [] else ChunksFrom(page, tokens, c, end - c.overlap, |next|)
  {
    hide Kept, Slice, MakeChunk;
    var end := Min(start + c.size, |tokens|);
    var window := Slice(tokens, start, end);
    var keep := |window| >= c.minTokens || chunks == [];
    var idx := if keep then |chunks| + 1 else |chunks|;
    var made := if end == |tokens| then [] else ChunksFrom(page, tokens, c, end - c.overlap, idx);
    KeptUnfold(tokens, c, start, |chunks| > 0);
    if keep {
      ToChunksCons(page, window, if end == |tokens| then [] else Kept(tokens, c, end - c.overlap, true), |chunks|);
      ConcatAssociative(chunks, [MakeChunk(page, window, |chunks|)], made);
    }
  }

  lemma ChunksFromEnd(page: RawPage, tokens: seq<string>, c: Config, start: nat, idx: nat)
    requires start >= |tokens|
    ensures ChunksFrom(page, tokens, c, start, idx) == []
  {
  }

  /** The chunks of one page when `idx` chunks exist already. */
  function PageChunks(page: RawPage, c: Config, idx: nat): (r: seq<TextChunk>)
    requires Terminates(|Words(page.text)|, c)
  {
    ChunksFrom(page, Words(page.text), c, 0, idx)
  }

  predicate AllTerminate(pages: seq<RawPage>, c: Config)
  {
    forall i :: 0 <= i < |pages| ==> Terminates(|Words(pages[i].text)|, c)
  }

  function Chunks(pages: seq<RawPage>, c: Config, idx: nat): (r: seq<TextChunk>)
    requires AllTerminate(pages, c)
  {
    if pages == [] then []
    else var first := PageChunks(pages[0], c, idx); first + Chunks(pages[1..], c, idx + |first|)
  }

  lemma ChunksStep(pages: seq<RawPage>, c: Config, p: nat, chunks: seq<TextChunk>)
    requires AllTerminate(pages, c) && p < |pages|
    ensures var made := PageChunks(pages[p], c, |chunks|);
            chunks + Chunks(pages[p..], c, |chunks|) == (chunks + made) + Chunks(pages[p + 1..], c, |chunks + made|)
  {
    hide PageChunks;
    var made := PageChunks(pages[p], c, |chunks|);
    assert pages[p..][0] == pages[p] && pages[p..][1..] == pages[p + 1..];
    ConcatAssociative(chunks, made, Chunks(pages[p + 1..], c, |chunks| + |made|));
  }

  class Chunker {
    const config: Config

    constructor (size: int := 512, overlap: int := 64, minTokens: int := 50)
      ensures config == Config(size, overlap, minTokens)
    {
      config := Config(size, overlap, minTokens);
    }

    /** The inner loop, for the tokens of one page, after the chunks `before`. */
    method ChunkTokens(page: RawPage, tokens: seq<string>, before: seq<TextChunk>) returns (chunks: seq<TextChunk>)
      requires Terminates(|tokens|, config)
      ensures chunks == before + ChunksFrom(page, tokens, config, 0, |before|)
    {
      hide ChunksFrom, Slice, MakeChunk;
      chunks := before;
      var idx := |chunks|;
      var start := 0;
      while start < |tokens|
        invariant 0 <= start && idx == |chunks|
        invariant |tokens| <= start || |tokens| <= start + config.size || config.overlap < config.size
        invariant chunks + ChunksFrom(page, tokens, config, start, idx) == before + ChunksFrom(page, tokens, config, 0, |before|)
        decreases |tokens| - start
      {
        ChunksFromStep(page, tokens, config, start, chunks);
        var end := Min(start + config.size, |tokens|);
        var window := Slice(tokens, start, end);
        if |window| >= config.minTokens || chunks == [] {
          chunks := chunks + [MakeChunk(page, window, idx)];
          idx := idx + 1;
        }
        if end == |tokens| {
          return;
        }
        start := end - config.overlap;
      }
      ChunksFromEnd(page, tokens, config, start, idx);
    }

    /** `Chunker.chunk`; the precondition is exactly that the source's loops end. */
    method Chunk(pages: seq<RawPage>) returns (chunks: seq<TextChunk>)
      requires AllTerminate(pages, config)
      ensures chunks == Chunks(pages, config, 0)
    {
      chunks := [];
      for p := 0 to |pages|
        invariant chunks + Chunks(pages[p..], config, |chunks|) == Chunks(pages, config, 0)
      {
        ChunksStep(pages, config, p, chunks);
        chunks := ChunkTokens(pages[p], Words(pages[p].text), chunks);
      }
    }
  }

  // ------------------------------------------------------------------------
  // Closed form
  // ------------------------------------------------------------------------

  /** The parameters a sliding window is meant to have. */
  predicate Sliding(c: Config)
  {
    0 <= c.overlap < c.size
  }

  function CeilDiv(a: nat, d: nat): nat
    requires d > 0
  {
    (a + d - 1) / d
  }

  lemma MulMono(d: nat, x: int, y: int)
    requires x <= y
    ensures d * x <= d * y
  {
  }

  lemma {:induction false} DivUnique(a: int, d: nat, q: int)
    requires d > 0 && d * q <= a < d * q + d
    ensures a / d == q
  {
    var e := a / d;
    assert d * e <= a < d * e + d;
    if e > q { MulMono(d, q + 1, e); }
    if e < q { MulMono(d, e + 1, q); }
  }

  lemma {:induction false} DivAddOne(a: nat, d: nat)
    requires d > 0
    ensures (a + d) / d == a / d + 1
  {
    var q := a / d;
    assert d * q <= a < d * q + d;
    assert d * (q + 1) == d * q + d;
    DivUnique(a + d, d, q + 1);
  }

  function WindowCount(n: nat, c: Config): nat
    requires Sliding(c)
  {
    if n <= c.size then 1 else 1 + CeilDiv(n - c.size, Stride(c))
  }

  lemma {:induction false} WindowCountStep(n: nat, c: Config)
    requires Sliding(c) && n > c.size
    ensures WindowCount(n, c) == 1 + WindowCount(n - Stride(c), c)
  {
    var a := n - c.size - 1;
    DivAddOne(a, Stride(c));
    assert WindowCount(n, c) == 1 + (a + Stride(c)) / Stride(c);
    if a < Stride(c) {
      DivUnique(a, Stride(c), 0);
    }
  }

  /** Number of tokens in the last window. */
  function LastLength(n: nat, c: Config): (r: nat)
    requires Sliding(c)
    ensures r <= c.size
    ensures n > c.overlap ==> r > c.overlap
    decreases n
  {
    if n <= c.size then n else LastLength(n - Stride(c), c)
  }

  lemma {:induction false} LastLengthClosedForm(n: nat, c: Config)
    requires Sliding(c)
    ensures LastLength(n, c) == n - (WindowCount(n, c) - 1) * Stride(c)
    ensures WindowCount(n, c) > 1 ==> LastLength(n, c) > c.overlap
    decreases n
  {
    if n > c.size {
      WindowCountStep(n, c);
      LastLengthClosedForm(n - Stride(c), c);
      MulStep(WindowCount(n, c) - 1, Stride(c));
    }
  }

  lemma {:induction false} OnlyLastWindowEnds(n: nat, c: Config, j: nat)
    requires Sliding(c) && n > 0 && j < WindowCount(n, c)
    ensures j * Stride(c) < n
    ensures n <= j * Stride(c) + c.size <==> j == WindowCount(n, c) - 1
  {
    var m := WindowCount(n, c);
    LastLengthClosedForm(n, c);
    if j < m - 1 {
      MulMono(Stride(c), j, m - 2);
      MulStep(m - 1, Stride(c));
    }
  }

  /**
   The loop over a non-empty page of n tokens makes exactly 1 + ceil((n - size) / (size - overlap))
   passes (one if n <= size), and pass k looks at the window that starts at k * (size - overlap).
   */
  lemma {:induction false} WindowStarts(n: nat, c: Config, k: nat)
    requires Sliding(c) && n > 0
    ensures StartAfter(n, c, k) == if k < WindowCount(n, c) then Some(k * Stride(c)) else None
  {
    if k > 0 {
      WindowStarts(n, c, k - 1);
      MulStep(k, Stride(c));
      if k - 1 < WindowCount(n, c) { OnlyLastWindowEnds(n, c, k - 1); }
    }
  }

  // ------------------------------------------------------------------------
  // Every chunk
  // ------------------------------------------------------------------------

  /** `w` is a stretch of consecutive elements of `s`. */
  ghost predicate SliceOf<T>(w: seq<T>, s: seq<T>)
  {
    exists lo, hi :: 0 <= lo <= hi <= |s| && w == s[lo..hi]
  }

  lemma SliceIsSlice<T>(s: seq<T>, lo: int, hi: int)
    ensures SliceOf(Slice(s, lo, hi), s)
  {
    assert s[0..0] == [];
  }

  lemma {:induction false} KeptDrawn<T>(tokens: seq<T>, c: Config, start: nat, some: bool)
    requires |tokens| <= start || |tokens| <= start + c.size || c.overlap < c.size
    ensures forall w :: w in Kept(tokens, c, start, some) ==> SliceOf(w, tokens)
    decreases |tokens| - start
  {
    hide Kept, Slice, SliceOf;
    KeptUnfold(tokens, c, start, some);
    var end := Min(start + c.size, |tokens|);
    SliceIsSlice(tokens, start, end);
    if start < |tokens| && end < |tokens| { KeptDrawn(tokens, c, end - c.overlap, true); }
  }

  lemma {:induction false} KeptLong<T>(tokens: seq<T>, c: Config, start: nat, some: bool)
    requires |tokens| <= start || |tokens| <= start + c.size || c.overlap < c.size
    ensures var r := Kept(tokens, c, start, some);
            forall k :: 0 <= k < |r| && (some || k > 0) ==> |r[k]| >= c.minTokens
    decreases |tokens| - start
  {
    hide Kept, Slice;
    KeptUnfold(tokens, c, start, some);
    var end := Min(start + c.size, |tokens|);
    if start < |tokens| && end < |tokens| { KeptLong(tokens, c, end - c.overlap, true); }
  }

  /** Chunk number `idx` of a document, made from `page`. */
  ghost predicate ChunkOf(chunk: TextChunk, page: RawPage, c: Config, idx: nat)
  {
    && chunk.chunkIndex == idx
    && SliceOf(Words(chunk.text), Words(page.text))
    && chunk.text == Join(' ', Words(chunk.text))
    && chunk.tokenCount == |Words(chunk.text)|
    && (idx > 0 ==> chunk.tokenCount >= c.minTokens)
    && chunk.pageNumber == page.pageNumber && chunk.sectionTitle == page.sectionTitle
  }

  lemma {:induction false} PageChunkShape(page: RawPage, c: Config, idx: nat, k: nat)
    requires Terminates(|Words(page.text)|, c) && k < |PageChunks(page, c, idx)|
    ensures Words(PageChunks(page, c, idx)[k].text) == Kept(Words(page.text), c, 0, idx > 0)[k]
    ensures ChunkOf(PageChunks(page, c, idx)[k], page, c, idx + k)
  {
    var tokens := Words(page.text);
    var w := Kept(tokens, c, 0, idx > 0)[k];
    KeptDrawn(tokens, c, 0, idx > 0);
    KeptLong(tokens, c, 0, idx > 0);
    ToChunksAt(page, Kept(tokens, c, 0, idx > 0), idx, k);
    WordsAreWords(page.text);
    assert SliceOf(w, tokens);
    forall i | 0 <= i < |w| ensures IsWord(w[i]) {
      assert w[i] in tokens;
    }
    SplitOfJoinedWords(w);
  }

  /**
   Chunks are numbered 0..m-1; each is a stretch of consecutive words of one page, one blank
   apart, counts them, carries that page's data, and only the first may be shorter than the minimum.
   */
  lemma {:induction false} ChunksShape(pages: seq<RawPage>, c: Config, idx: nat, k: nat) returns (p: nat)
    requires AllTerminate(pages, c) && k < |Chunks(pages, c, idx)|
    ensures p < |pages| && ChunkOf(Chunks(pages, c, idx)[k], pages[p], c, idx + k)
    decreases |pages|
  {
    hide PageChunks, ChunkOf;
    var first := PageChunks(pages[0], c, idx);
    if k < |first| {
      PageChunkShape(pages[0], c, idx, k);
      p := 0;
    } else {
      p := ChunksShape(pages[1..], c, idx + |first|, k - |first|);
      p := p + 1;
    }
  }

  // ------------------------------------------------------------------------
  // Round trip and loss
  // ------------------------------------------------------------------------

  /** The words of each chunk. */
  function WordLists(chunks: seq<TextChunk>): (r: seq<seq<string>>)
    ensures |r| == |chunks|
  {
    seq(|chunks|, k requires 0 <= k < |chunks| => Words(chunks[k].text))
  }

  function DropFront<T>(words: seq<T>, k: nat): seq<T>
  {
    if k <= |words| then words[k..] else []
  }

  /** The windows after a first one, each without its first `overlap` words. */
  function Tails<T>(windows: seq<seq<T>>, overlap: nat): (r: seq<T>)
  {
    if windows == [] then [] else DropFront(windows[0], overlap) + Tails(windows[1..], overlap)
  }

  /** Undo the overlap of the windows of one page. */
  function Reassemble<T>(windows: seq<seq<T>>, overlap: nat): (r: seq<T>)
  {
    if windows == [] then [] else windows[0] + Tails(windows[1..], overlap)
  }

  /** How many leading tokens of a page of n tokens survive when a chunk exists already, or not. */
  function KeptLength(n: nat, c: Config, some: bool): (r: nat)
    requires Sliding(c)
    ensures r <= n
  {
    var last := LastLength(n, c);
    if last >= c.minTokens || (n <= c.size && !some) then n
    else if n <= c.size then 0
    else if c.size >= c.minTokens then n - (last - c.overlap)
    else if !some then c.size else 0
  }

  /** `Kept` when the window slides: plain slices, and only the last can be short. */
  function Slid<T>(tokens: seq<T>, c: Config, start: nat, some: bool): (r: seq<seq<T>>)
    requires Sliding(c)
    decreases |tokens| - start
  {
    if start >= |tokens| then []
    else if start + c.size >= |tokens| then (if |tokens| - start >= c.minTokens || !some then [tokens[start..]] else [])
    else if c.size >= c.minTokens || !some then [tokens[start..start + c.size]] + Slid(tokens, c, start + Stride(c), true)
    else Slid(tokens, c, start + Stride(c), true)
  }

  lemma SlidUnfold<T>(tokens: seq<T>, c: Config, start: nat, some: bool)
    requires Sliding(c)
    ensures start >= |tokens| ==> Slid(tokens, c, start, some) == []
    ensures start < |tokens| ==>
      var end := Min(start + c.size, |tokens|);
      var window := Slice(tokens, start, end);
      var rest := if end == |tokens| then [] else Slid(tokens, c, end - c.overlap, true);
      Slid(tokens, c, start, some) == (if |window| >= c.minTokens || !some then [window] + rest else rest)
  {
    if start < |tokens| {
      var end := Min(start + c.size, |tokens|);
      assert Slice(tokens, start, end) == tokens[start..end];
      assert tokens[start..|tokens|] == tokens[start..];
      assert start + Stride(c) == start + c.size - c.overlap;
    }
  }

  lemma {:induction false} KeptIsSlid<T>(tokens: seq<T>, c: Config, start: nat, some: bool)
    requires Sliding(c)
    ensures Kept(tokens, c, start, some) == Slid(tokens, c, start, some)
    decreases |tokens| - start
  {
    hide Kept, Slid, Slice;
    KeptUnfold(tokens, c, start, some);
    SlidUnfold(tokens, c, start, some);
    if start + c.size < |tokens| {
      KeptIsSlid(tokens, c, start + c.size - c.overlap, true);
    }
  }

  lemma TailsExtend<T>(tokens: seq<T>, overlap: nat, start: nat, end: nat, stop: nat, rest: seq<seq<T>>)
    requires start + overlap <= end <= stop <= |tokens| && Tails(rest, overlap) == tokens[end..stop]
    ensures Tails([tokens[start..end]] + rest, overlap) == tokens[start + overlap..stop]
  {
    assert ([tokens[start..end]] + rest)[1..] == rest;
    assert DropFront(tokens[start..end], overlap) == tokens[start + overlap..end];
    SlicesJoin(tokens, start + overlap, end, stop);
  }

  /** Where the words recovered from the windows after `start` end. */
  function Stop(n: nat, c: Config, start: nat): (r: nat)
    requires Sliding(c) && start + c.overlap < n
    ensures start + c.overlap <= r <= n
  {
    var last := LastLength(n - start, c);
    if last >= c.minTokens then n else if c.size >= c.minTokens then n - (last - c.overlap) else start + c.overlap
  }

  lemma StopStep(n: nat, c: Config, start: nat)
    requires Sliding(c) && start + c.size < n && c.size >= c.minTokens
    ensures Stop(n, c, start + Stride(c)) == Stop(n, c, start)
  {
    assert n - start - Stride(c) == n - (start + Stride(c));
  }

  lemma TailsStep<T>(tokens: seq<T>, c: Config, start: nat, stop: nat)
    requires Sliding(c) && start + c.size <= stop <= |tokens| && start + c.size < |tokens|
    requires Tails(Slid(tokens, c, start + Stride(c), true), c.overlap) == tokens[start + c.size..stop]
    ensures Tails(Slid(tokens, c, start, true), c.overlap)
            == tokens[if c.size >= c.minTokens then start + c.overlap else start + c.size..stop]
  {
    if c.size >= c.minTokens {
      TailsExtend(tokens, c.overlap, start, start + c.size, stop, Slid(tokens, c, start + Stride(c), true));
    }
  }

  lemma TailsLast<T>(tokens: seq<T>, c: Config, start: nat)
    requires Sliding(c) && start + c.overlap < |tokens| <= start + c.size
    ensures Tails(Slid(tokens, c, start, true), c.overlap)
            == if |tokens| - start >= c.minTokens then tokens[start + c.overlap..] else []
  {
    TailsExtend(tokens, c.overlap, start, |tokens|, |tokens|, []);
  }

  lemma {:induction false} TailsRecovered<T>(tokens: seq<T>, c: Config, start: nat, from: nat, stop: nat)
    requires Sliding(c) && start + c.overlap == from < |tokens| && stop == Stop(|tokens|, c, start)
    ensures Tails(Slid(tokens, c, start, true), c.overlap) == tokens[from..stop]
    decreases |tokens| - start
  {
    var n := |tokens|;
    var end := start + c.size;
    if end >= n {
      TailsLast(tokens, c, start);
    } else if c.size >= c.minTokens {
      StopStep(n, c, start);
      TailsRecovered(tokens, c, start + Stride(c), end, stop);
      TailsStep(tokens, c, start, stop);
    } else {
      TailsRecovered(tokens, c, start + Stride(c), end, end);
      TailsStep(tokens, c, start, end);
    }
  }

  lemma {:induction false} NothingSlid<T>(tokens: seq<T>, c: Config, start: nat)
    requires Sliding(c) && c.size < c.minTokens
    ensures Slid(tokens, c, start, true) == []
    decreases |tokens| - start
  {
    if start + c.size < |tokens| { NothingSlid(tokens, c, start + Stride(c)); }
  }

  lemma ReassembleCons<T>(tokens: seq<T>, overlap: nat, end: nat, stop: nat, rest: seq<seq<T>>)
    requires end <= stop <= |tokens| && Tails(rest, overlap) == tokens[end..stop]
    ensures Reassemble([tokens[..end]] + rest, overlap) == tokens[..stop]
  {
    assert ([tokens[..end]] + rest)[1..] == rest;
    SlicesJoin(tokens, 0, end, stop);
  }

  lemma {:induction false} SlidRecovered<T>(tokens: seq<T>, c: Config, some: bool)
    requires Sliding(c) && tokens != []
    ensures var windows := Slid(tokens, c, 0, some);
            && Reassemble(windows, c.overlap) == tokens[..KeptLength(|tokens|, c, some)]
            && (windows == [] <==> KeptLength(|tokens|, c, some) == 0)
  {
    var n := |tokens|;
    if n <= c.size {
      ReassembleCons(tokens, c.overlap, n, n, []);
    } else if c.size < c.minTokens && some {
      NothingSlid(tokens, c, 0);
    } else {
      SlidRecoveredFirst(tokens, c, some);
    }
  }

  lemma SlidRecoveredFirst<T>(tokens: seq<T>, c: Config, some: bool)
    requires Sliding(c) && |tokens| > c.size && (c.size >= c.minTokens || !some)
    ensures Reassemble(Slid(tokens, c, 0, some), c.overlap) == tokens[..KeptLength(|tokens|, c, some)]
  {
    var n := |tokens|;
    var stop := Stop(n, c, Stride(c));
    assert LastLength(n, c) == LastLength(n - Stride(c), c);
    assert stop == KeptLength(n, c, some);
    TailsRecovered(tokens, c, Stride(c), c.size, stop);
    ReassembleCons(tokens, c.overlap, c.size, stop, Slid(tokens, c, Stride(c), true));
  }

  /** For every page and every minimum: undoing the overlap gives back exactly the first `KeptLength` tokens. */
  lemma {:induction false} PageRecovered(page: RawPage, c: Config, idx: nat)
    requires Sliding(c)
    ensures var tokens := Words(page.text);
            var chunks := PageChunks(page, c, idx);
            && Reassemble(WordLists(chunks), c.overlap) == tokens[..KeptLength(|tokens|, c, idx > 0)]
            && (chunks == [] <==> KeptLength(|tokens|, c, idx > 0) == 0)
  {
    var tokens := Words(page.text);
    var chunks := PageChunks(page, c, idx);
    forall k | 0 <= k < |chunks| ensures Words(chunks[k].text) == Kept(tokens, c, 0, idx > 0)[k] {
      PageChunkShape(page, c, idx, k);
    }
    assert WordLists(chunks) == Kept(tokens, c, 0, idx > 0);
    KeptIsSlid(tokens, c, 0, idx > 0);
    if tokens != [] { SlidRecovered(tokens, c, idx > 0); }
  }

  /** The last window of a page of n tokens is kept, and so are all the others. */
  predicate NothingDropped(n: nat, c: Config, some: bool)
    requires Sliding(c)
  {
    n - (WindowCount(n, c) - 1) * Stride(c) >= c.minTokens || (n <= c.size && !some)
  }

  /** A non-empty page comes back whole if and only if its last window is long enough, or it is a single window and the first of the document. */
  lemma {:induction false} PageRoundTripIff(page: RawPage, c: Config, idx: nat)
    requires Sliding(c) && Words(page.text) != []
    ensures var n := |Words(page.text)|;
            Reassemble(WordLists(PageChunks(page, c, idx)), c.overlap) == Words(page.text)
            <==> NothingDropped(n, c, idx > 0)
  {
    hide Words, WordLists, Reassemble, PageChunks;
    PageRecovered(page, c, idx);
    var tokens := Words(page.text);
    LastLengthClosedForm(|tokens|, c);
    assert tokens[..|tokens|] == tokens;
  }

  /** With `min <= overlap + 1` a page is either kept whole or is one short window that follows another chunk and is dropped whole. */
  lemma {:induction false} KeptOrDroppedWhole(page: RawPage, c: Config, idx: nat)
    requires Sliding(c) && c.minTokens <= c.overlap + 1
    ensures var tokens := Words(page.text);
            Reassemble(WordLists(PageChunks(page, c, idx)), c.overlap)
            == if |tokens| < c.minTokens && idx > 0 then [] else tokens
    ensures PageChunks(page, c, idx) == [] <==> Words(page.text) == [] || (|Words(page.text)| < c.minTokens && idx > 0)
  {
    hide Words, WordLists, Reassemble, PageChunks;
    PageRecovered(page, c, idx);
    var tokens := Words(page.text);
    assert tokens[..|tokens|] == tokens;
  }

  /** `min <= overlap + 1` is also necessary: otherwise a page one token longer than a window loses its last token. */
  lemma {:induction false} SmallestLossyPage(page: RawPage, c: Config, idx: nat)
    requires Sliding(c) && c.overlap + 1 < c.minTokens <= c.size && |Words(page.text)| == c.size + 1
    ensures Reassemble(WordLists(PageChunks(page, c, idx)), c.overlap) == Words(page.text)[..c.size]
  {
    hide Words, WordLists, Reassemble, PageChunks;
    PageRecovered(page, c, idx);
    assert LastLength(c.size + 1, c) == c.overlap + 1;
  }

  /**
   For any `min <= size`: a page of several windows loses at most min - 1 - overlap tokens,
   all at its tail; a page of one window is lost only when it has fewer than `min` tokens
   and some chunk exists already; the first non-empty page always yields a chunk.
   */
  lemma {:induction false} LossBound(page: RawPage, c: Config, idx: nat)
    requires Sliding(c) && c.minTokens <= c.size && Words(page.text) != []
    ensures var tokens := Words(page.text);
            var kept := Reassemble(WordLists(PageChunks(page, c, idx)), c.overlap);
            && kept <= tokens
            && (|tokens| > c.size ==> |tokens| - |kept| <= if c.minTokens - 1 - c.overlap > 0 then c.minTokens - 1 - c.overlap else 0)
            && (|tokens| <= c.size ==> kept == if |tokens| < c.minTokens && idx > 0 then [] else tokens)
            && (idx == 0 ==> PageChunks(page, c, idx) != [])
  {
    hide Words, WordLists, Reassemble, PageChunks;
    PageRecovered(page, c, idx);
    var tokens := Words(page.text);
    assert tokens[..|tokens|] == tokens;
  }

  // ------------------------------------------------------------------------
  // Nothing dropped
  // ------------------------------------------------------------------------

  function TokenTotal(chunks: seq<TextChunk>): nat
  {
    if chunks == [] then 0 else chunks[0].tokenCount + TokenTotal(chunks[1..])
  }

  function LengthTotal<T>(windows: seq<seq<T>>): nat
  {
    if windows == [] then 0 else |windows[0]| + LengthTotal(windows[1..])
  }

  lemma {:induction false} TokenTotalOfChunks(page: RawPage, windows: seq<seq<string>>, idx: nat)
    ensures TokenTotal(ToChunks(page, windows, idx)) == LengthTotal(windows)
  {
    if windows != [] {
      TokenTotalOfChunks(page, windows[1..], idx + 1);
    }
  }

  lemma SlidCons<T>(tokens: seq<T>, c: Config, start: nat, some: bool)
    requires Sliding(c) && start < |tokens|
    requires LastLength(|tokens| - start, c) >= c.minTokens || (|tokens| - start <= c.size && !some)
    ensures 0 < Stride(c) == c.size - c.overlap
    ensures var kept, n := Slid(tokens, c, start, some), |tokens| - start;
            if n <= c.size then kept == [tokens[start..]] && |kept| == 1 == WindowCount(n, c) && LengthTotal(kept) == n
            else
              var rest := Slid(tokens, c, start + Stride(c), true);
              && LastLength(|tokens| - (start + Stride(c)), c) >= c.minTokens
              && kept == [tokens[start..start + c.size]] + rest
              && |kept| == 1 + |rest| && LengthTotal(kept) == c.size + LengthTotal(rest)
  {
    var kept := Slid(tokens, c, start, some);
    if start + c.size < |tokens| {
      assert |tokens| - start - Stride(c) == |tokens| - (start + Stride(c));
      assert kept[1..] == Slid(tokens, c, start + Stride(c), true);
    } else {
      assert kept == [tokens[start..]] && kept[1..] == [];
    }
  }

  lemma {:induction false} AllSlid<T>(tokens: seq<T>, c: Config, start: nat, some: bool)
    requires Sliding(c) && start < |tokens|
    requires LastLength(|tokens| - start, c) >= c.minTokens || (|tokens| - start <= c.size && !some)
    ensures var kept := Slid(tokens, c, start, some);
            && |kept| == WindowCount(|tokens| - start, c)
            && LengthTotal(kept) == |tokens| - start + (|kept| - 1) * c.overlap
    decreases |tokens| - start
  {
    hide WindowCount, Slid, LengthTotal, Stride, LastLength;
    var n := |tokens| - start;
    SlidCons(tokens, c, start, some);
    if start + c.size < |tokens| {
      AllSlid(tokens, c, start + Stride(c), true);
      WindowCountStep(n, c);
      assert n - Stride(c) == |tokens| - (start + Stride(c));
      MulStep(|Slid(tokens, c, start, some)| - 1, c.overlap);
    }
  }

  lemma {:induction false} SlidAt<T>(tokens: seq<T>, c: Config, start: nat, some: bool, k: nat)
    requires Sliding(c) && start < |tokens|
    requires LastLength(|tokens| - start, c) >= c.minTokens || (|tokens| - start <= c.size && !some)
    requires k < |Slid(tokens, c, start, some)|
    ensures var from := start + k * Stride(c);
            0 <= from < |tokens| && Slid(tokens, c, start, some)[k] == tokens[from..Min(from + c.size, |tokens|)]
    decreases |tokens| - start
  {
    hide WindowCount, Slid, LengthTotal, LastLength;
    SlidCons(tokens, c, start, some);
    if k > 0 {
      SlidAt(tokens, c, start + Stride(c), true, k - 1);
      MulStep(k, Stride(c));
    }
  }

  /**
   With nothing dropped, a page of n tokens yields one chunk a window, and the token counts
   add up to n plus one overlap for every chunk after the first.
   */
  lemma {:induction false} PageChunksClosedForm(page: RawPage, c: Config, idx: nat)
    requires Sliding(c) && Words(page.text) != [] && NothingDropped(|Words(page.text)|, c, idx > 0)
    ensures var tokens, chunks := Words(page.text), PageChunks(page, c, idx);
            && |chunks| == WindowCount(|tokens|, c)
            && TokenTotal(chunks) == |tokens| + (WindowCount(|tokens|, c) - 1) * c.overlap
  {
    hide WindowCount, LastLength, Kept, Slid, Words, ToChunks, TokenTotal, LengthTotal;
    var tokens := Words(page.text);
    LastLengthClosedForm(|tokens|, c);
    KeptIsSlid(tokens, c, 0, idx > 0);
    AllSlid(tokens, c, 0, idx > 0);
    TokenTotalOfChunks(page, Kept(tokens, c, 0, idx > 0), idx);
  }

  /** With nothing dropped, chunk k of a page is exactly the tokens from k * (size - overlap) to the window's end. */
  lemma {:induction false} PageChunkTokens(page: RawPage, c: Config, idx: nat, k: nat)
    requires Sliding(c) && Words(page.text) != [] && NothingDropped(|Words(page.text)|, c, idx > 0)
    requires k < |PageChunks(page, c, idx)|
    ensures var tokens, from := Words(page.text), k * Stride(c);
            && 0 <= from < |tokens|
            && Words(PageChunks(page, c, idx)[k].text) == tokens[from..Min(from + c.size, |tokens|)]
  {
    hide Kept, Slid, Words, ToChunks, WindowCount, LastLength;
    var tokens := Words(page.text);
    LastLengthClosedForm(|tokens|, c);
    KeptIsSlid(tokens, c, 0, idx > 0);
    PageChunkShape(page, c, idx, k);
    SlidAt(tokens, c, 0, idx > 0, k);
  }

  /** Fewer chunks than windows whenever something is dropped: the closed form holds on no other page. */
  lemma {:induction false} ClosedFormIff(page: RawPage, c: Config, idx: nat)
    requires Sliding(c) && Words(page.text) != []
    ensures var n := |Words(page.text)|;
            |PageChunks(page, c, idx)| == WindowCount(n, c) <==> NothingDropped(n, c, idx > 0)
  {
    hide Kept, Slid, Words, ToChunks, WindowCount, LastLength;
    var tokens := Words(page.text);
    LastLengthClosedForm(|tokens|, c);
    KeptIsSlid(tokens, c, 0, idx > 0);
    if NothingDropped(|tokens|, c, idx > 0) {
      PageChunksClosedForm(page, c, idx);
    } else {
      SomeDropped(tokens, c, 0, idx > 0);
    }
  }

  lemma {:induction false} SomeDropped<T>(tokens: seq<T>, c: Config, start: nat, some: bool)
    requires Sliding(c) && start < |tokens|
    requires LastLength(|tokens| - start, c) < c.minTokens && (|tokens| - start <= c.size ==> some)
    ensures |Slid(tokens, c, start, some)| < WindowCount(|tokens| - start, c)
    decreases |tokens| - start
  {
    if start + c.size < |tokens| {
      assert |tokens| - start - Stride(c) == |tokens| - (start + Stride(c));
      SomeDropped(tokens, c, start + Stride(c), true);
      WindowCountStep(|tokens| - start, c);
    }
  }
}
