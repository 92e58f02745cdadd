/** From a DOCX document to its chunk records, end to end. */
module Ingestion {
  import opened Wrappers
  import opened Sequences
  import opened Text
  import opened DocumentProcessors
  import opened Chunkers
  import opened SparseVectors
  import opened Embedders

  // ------------------------------------------------------------------------
  // Which words survive
  // ------------------------------------------------------------------------

  function OnPage(page: nat): TextChunk -> bool
  {
    (chunk: TextChunk) => chunk.pageNumber == page
  }

  function OfPage(chunks: seq<TextChunk>, page: nat): (r: seq<TextChunk>)
  {
    Retain(chunks, OnPage(page))
  }

  /** The words read back, page by page, from pages first..first+count-1, each page's overlaps undone. */
  function ReadBack(chunks: seq<TextChunk>, first: nat, count: nat, overlap: nat): (r: seq<string>)
    decreases count
  {
    if count == 0 then []
    else Reassemble(WordLists(OfPage(chunks, first)), overlap) + ReadBack(chunks, first + 1, count - 1, overlap)
  }

  /** The words of a page that survive when a chunk exists already, or not: a prefix. */
  function SurvivingWords(words: seq<string>, c: Config, some: bool): (r: seq<string>)
    requires Sliding(c)
  {
    words[..KeptLength(|words|, c, some)]
  }

  function Survivors(pages: seq<RawPage>, c: Config, some: bool): (r: seq<seq<string>>)
    requires Sliding(c)
    ensures |r| == |pages|
  {
    seq(|pages|, i requires 0 <= i < |pages| => SurvivingWords(Words(pages[i].text), c, some || i > 0))
  }

  lemma {:induction false} OfPageOf(chunks: seq<TextChunk>, made: nat, page: nat)
    requires forall k :: 0 <= k < |chunks| ==> chunks[k].pageNumber == made
    ensures OfPage(chunks, page) == if page == made then chunks else []
  {
    if page == made {
      RetainAll(chunks, OnPage(page));
    } else {
      RetainNone(chunks, OnPage(page));
    }
  }

  lemma {:induction false} NoneOfLaterPages(pages: seq<RawPage>, c: Config, idx: nat, page: nat)
    requires AllTerminate(pages, c) && forall i :: 0 <= i < |pages| ==> pages[i].pageNumber != page
    ensures OfPage(Chunks(pages, c, idx), page) == []
  {
    var chunks := Chunks(pages, c, idx);
    forall chunk | chunk in chunks ensures chunk.pageNumber != page {
      var k :| 0 <= k < |chunks| && chunks[k] == chunk;
      var p := ChunksShape(pages, c, idx, k);
    }
    RetainNone(chunks, OnPage(page));
  }

  /** Chunks of an earlier page do not disturb the reading of later ones. */
  lemma {:induction false} ReadBackSkips(earlier: seq<TextChunk>, chunks: seq<TextChunk>, made: nat, first: nat, count: nat, overlap: nat)
    requires made < first && forall k :: 0 <= k < |earlier| ==> earlier[k].pageNumber == made
    ensures ReadBack(earlier + chunks, first, count, overlap) == ReadBack(chunks, first, count, overlap)
    decreases count
  {
    hide Retain, Reassemble, WordLists;
    if count > 0 {
      RetainConcat(earlier, chunks, OnPage(first));
      OfPageOf(earlier, made, first);
      assert OfPage(earlier + chunks, first) == OfPage(chunks, first);
      ReadBackSkips(earlier, chunks, made, first + 1, count - 1, overlap);
    }
  }

  /** Reading back one page's chunks, then the rest. */
  lemma {:induction false} ReadBackCons(made: seq<TextChunk>, rest: seq<TextChunk>, first: nat, count: nat, overlap: nat)
    requires forall k :: 0 <= k < |made| ==> made[k].pageNumber == first
    requires OfPage(rest, first) == []
    ensures ReadBack(made + rest, first, count + 1, overlap)
            == Reassemble(WordLists(made), overlap) + ReadBack(rest, first + 1, count, overlap)
  {
    hide Reassemble, WordLists;
    OfPageOf(made, first, first);
    RetainConcat(made, rest, OnPage(first));
    assert OfPage(made + rest, first) == made;
    ReadBackSkips(made, rest, first, first + 1, count, overlap);
  }

  ghost predicate NumberedFrom(pages: seq<RawPage>, first: nat)
  {
    forall i :: 0 <= i < |pages| ==> pages[i].pageNumber == first + i && Words(pages[i].text) != []
  }

  lemma {:induction false} SurvivorsCons(pages: seq<RawPage>, c: Config, some: bool)
    requires Sliding(c)
    ensures Flatten(Survivors(pages, c, some))
            == if pages == [] then []
               else SurvivingWords(Words(pages[0].text), c, some) + Flatten(Survivors(pages[1..], c, true))
  {
    if pages != [] {
      assert Survivors(pages, c, some)[1..] == Survivors(pages[1..], c, true);
    }
  }

  /** For any minimum: reading a document's chunks back gives, page after page, exactly the prefix of each page that survives. */
  lemma {:induction false} ReadBackSurvivors(pages: seq<RawPage>, c: Config, idx: nat, first: nat)
    requires Sliding(c) && NumberedFrom(pages, first)
    ensures ReadBack(Chunks(pages, c, idx), first, |pages|, c.overlap) == Flatten(Survivors(pages, c, idx > 0))
    decreases |pages|
  {
    hide PageChunks, OfPage, Reassemble, WordLists, Survivors, Words;
    SurvivorsCons(pages, c, idx > 0);
    if pages != [] {
      var made := PageChunks(pages[0], c, idx);
      var rest := Chunks(pages[1..], c, idx + |made|);
      PageRecovered(pages[0], c, idx);
      forall k | 0 <= k < |made| ensures made[k].pageNumber == first {
        PageChunkShape(pages[0], c, idx, k);
      }
      NoneOfLaterPages(pages[1..], c, idx + |made|, first);
      ReadBackCons(made, rest, first, |pages| - 1, c.overlap);
      ReadBackSurvivors(pages[1..], c, idx + |made|, first + 1);
    }
  }

  // ------------------------------------------------------------------------
  // The end-to-end theorem
  // ------------------------------------------------------------------------

  function SectionWords(group: seq<Placed>): (r: seq<string>)
  {
    Flatten(WordsOfAll(Texts(group)))
  }

  lemma {:induction false} BodyGroupHasWords(groups: seq<seq<Placed>>, i: nat)
    requires NonEmpty(groups) && i < |groups| && Strip(groups[i][0].text) != []
    ensures Words(Join('\n', Texts(groups[i]))) == SectionWords(groups[i]) != []
  {
    var texts := Texts(groups[i]);
    WordsOfJoin('\n', texts);
    NonBlankHasWords(texts[0]);
    assert WordsOfAll(texts)[0] == Words(texts[0]);
  }

  lemma {:induction false} GroupsAreNonBlank(groups: seq<seq<Placed>>, ps: seq<Placed>)
    requires NonEmpty(groups) && Flatten(groups) == ps && forall p :: p in ps ==> Strip(p.text) != []
    ensures forall i :: 0 <= i < |groups| ==> Strip(groups[i][0].text) != []
  {
    if groups != [] {
      assert groups[0][0] == ps[0] && ps[0] in ps;
      assert ps == groups[0] + Flatten(groups[1..]);
      assert forall p :: p in Flatten(groups[1..]) ==> p in ps;
      GroupsAreNonBlank(groups[1..], Flatten(groups[1..]));
      forall i | 0 <= i < |groups| ensures Strip(groups[i][0].text) != [] {
        if i > 0 { assert groups[i] == groups[1..][i - 1]; }
      }
    }
  }

  function SectionLists(groups: seq<seq<Placed>>): (r: seq<seq<string>>)
    ensures |r| == |groups|
  {
    seq(|groups|, i requires 0 <= i < |groups| => SectionWords(groups[i]))
  }

  /** The sections' words are the body paragraphs' words, in document order. */
  lemma {:induction false} SectionWordsAreBodyWords(groups: seq<seq<Placed>>)
    ensures Flatten(SectionLists(groups)) == SectionWords(Flatten(groups))
  {
    if groups != [] {
      var rest := groups[1..];
      assert SectionLists(groups)[1..] == SectionLists(rest);
      SectionWordsAreBodyWords(rest);
      assert WordsOfAll(Texts(groups[0] + Flatten(rest))) == WordsOfAll(Texts(groups[0])) + WordsOfAll(Texts(Flatten(rest)));
      FlattenConcat(WordsOfAll(Texts(groups[0])), WordsOfAll(Texts(Flatten(rest))));
    }
  }

  /** What survives of each section. */
  function KeptSections(groups: seq<seq<Placed>>, c: Config): (r: seq<seq<string>>)
    requires Sliding(c)
    ensures |r| == |groups|
  {
    seq(|groups|, i requires 0 <= i < |groups| => SurvivingWords(SectionWords(groups[i]), c, i > 0))
  }

  /**
   With `0 <= overlap < size` and any minimum: chunking the pages of a DOCX document and
   reading the chunks back page by page yields, of each of its sections in order, exactly
   the first `KeptLength` words.
   */
  lemma {:induction false} DocxToChunksReadBack(paras: seq<Paragraph>, c: Config) returns (groups: seq<seq<Placed>>)
    requires Sliding(c)
    ensures NonEmpty(groups) && Sectioned(groups) && Flatten(groups) == Place(paras)
    ensures var pages := DocxPages(paras);
            ReadBack(Chunks(pages, c, 0), 1, |pages|, c.overlap) == Flatten(KeptSections(groups, c))
  {
    hide DocxPages, Place, Chunks, ReadBack, Join, Texts, Words, SectionWords, Retain, Sectioned, IsBody, SurvivingWords;
    groups := PagesAreTheSections(paras);
    if groups == [] {
      NothingToReadBack(c);
      assert KeptSections(groups, c) == [];
    } else {
      var pages := DocxPages(paras);
      PlacedTexts(paras);
      GroupsAreNonBlank(groups, Place(paras));
      forall i | 0 <= i < |pages| ensures Words(pages[i].text) == SectionWords(groups[i]) != [] {
        BodyGroupHasWords(groups, i);
      }
      ReadBackSurvivors(pages, c, 0, 1);
      assert Survivors(pages, c, false) == KeptSections(groups, c);
    }
  }

  /** All sections' words, those of a section below the minimum left out unless it is the first. */
  function LongSections(groups: seq<seq<Placed>>, c: Config): (r: seq<seq<string>>)
    ensures |r| == |groups|
  {
    seq(|groups|, i requires 0 <= i < |groups| =>
      if |SectionWords(groups[i])| < c.minTokens && i > 0 then [] else SectionWords(groups[i]))
  }

  /** With `min <= overlap + 1` sections survive whole or not at all, the latter when below the minimum and not the first. */
  lemma {:induction false} DocxToChunksLosesOnlyShortSections(paras: seq<Paragraph>, c: Config) returns (groups: seq<seq<Placed>>)
    requires Sliding(c) && c.minTokens <= c.overlap + 1
    ensures NonEmpty(groups) && Sectioned(groups) && Flatten(groups) == Place(paras)
    ensures var pages := DocxPages(paras);
            ReadBack(Chunks(pages, c, 0), 1, |pages|, c.overlap) == Flatten(LongSections(groups, c))
  {
    hide DocxPages, Place, Chunks, ReadBack, SectionWords, Sectioned;
    groups := DocxToChunksReadBack(paras, c);
    forall i | 0 <= i < |groups| ensures KeptSections(groups, c)[i] == LongSections(groups, c)[i] {
      var words := SectionWords(groups[i]);
      assert words[..|words|] == words;
    }
    assert KeptSections(groups, c) == LongSections(groups, c);
  }

  // ------------------------------------------------------------------------
  // The loss of a whole document
  // ------------------------------------------------------------------------

  /** The most a section of n words can lose, as the first of its document or not. */
  function Allowance(n: nat, c: Config, isFirst: bool): int
  {
    if n > c.size then (if c.minTokens - 1 - c.overlap > 0 then c.minTokens - 1 - c.overlap else 0)
    else if n < c.minTokens && !isFirst then n
    else 0
  }

  function Allowances(sections: seq<seq<string>>, c: Config): (r: seq<int>)
    ensures |r| == |sections|
  {
    seq(|sections|, i requires 0 <= i < |sections| => Allowance(|sections[i]|, c, i == 0))
  }

  /** Lists cut one by one lose in all no more than the sum of what each may lose. */
  lemma {:induction false} LossesAddUp<T>(whole: seq<seq<T>>, cut: seq<seq<T>>, most: seq<int>)
    requires |whole| == |cut| == |most|
    requires forall i :: 0 <= i < |whole| ==> |whole[i]| - |cut[i]| <= most[i]
    ensures |Flatten(whole)| - |Flatten(cut)| <= Sum(most)
  {
    if whole != [] {
      LossesAddUp(whole[1..], cut[1..], most[1..]);
    }
  }

  /**
   For any `min <= size`, of all body words of a document at most the sum of the sections'
   allowances is missing: max(0, min - 1 - overlap) for a section longer than a window, its
   own words for a later section below the minimum, nothing for any other.
   */
  lemma {:induction false} DocumentLossBound(paras: seq<Paragraph>, c: Config) returns (groups: seq<seq<Placed>>)
    requires Sliding(c) && c.minTokens <= c.size
    ensures NonEmpty(groups) && Sectioned(groups) && Flatten(groups) == Place(paras)
    ensures var pages := DocxPages(paras);
            var back := ReadBack(Chunks(pages, c, 0), 1, |pages|, c.overlap);
            |SectionWords(Place(paras))| - |back| <= Sum(Allowances(SectionLists(groups), c))
  {
    hide DocxPages, Place, Chunks, ReadBack, SectionWords, Sectioned;
    groups := DocxToChunksReadBack(paras, c);
    SectionWordsAreBodyWords(groups);
    forall i | 0 <= i < |groups|
      ensures |SectionLists(groups)[i]| - |KeptSections(groups, c)[i]| <= Allowances(SectionLists(groups), c)[i]
    {
    }
    LossesAddUp(SectionLists(groups), KeptSections(groups, c), Allowances(SectionLists(groups), c));
  }

  lemma NothingToReadBack(c: Config)
    requires Sliding(c)
    ensures Chunks([EMPTY_PAGE], c, 0) == [] && ReadBack([], 1, 1, c.overlap) == []
  {
    assert Chunks([EMPTY_PAGE], c, 0) == PageChunks(EMPTY_PAGE, c, 0) + Chunks([EMPTY_PAGE][1..], c, 0);
    assert ReadBack([], 1, 1, c.overlap) == [] + ReadBack([], 2, 0, c.overlap);
  }

  // ------------------------------------------------------------------------
  // Records
  // ------------------------------------------------------------------------

  datatype Record<V> = Record(
    content: string, embedding: V, sparse: map<string, real>, chunkIndex: nat, tokenCount: nat,
    sectionTitle: Option<string>, pageNumber: nat)

  function TextsOf(chunks: seq<TextChunk>): (r: seq<string>)
    ensures |r| == |chunks|
  {
    seq(|chunks|, i requires 0 <= i < |chunks| => chunks[i].text)
  }

  /** Step 3 of `_ingest`: rewrite each chunk's text, and nothing else of it. */
  method ScrubChunks(cut: seq<TextChunk>, scrub: string -> string) returns (chunks: seq<TextChunk>)
    ensures |chunks| == |cut|
    ensures forall i :: 0 <= i < |cut| ==> chunks[i] == cut[i].(text := scrub(cut[i].text))
  {
    chunks := cut;
    for i := 0 to |cut|
      invariant |chunks| == |cut|
      invariant forall k :: 0 <= k < i ==> chunks[k] == cut[k].(text := scrub(cut[k].text))
      invariant forall k :: i <= k < |cut| ==> chunks[k] == cut[k]
    {
      chunks := chunks[i := chunks[i].(text := scrub(chunks[i].text))];
    }
  }

  method SumTokens(chunks: seq<TextChunk>) returns (total: nat)
    ensures total == TokenTotal(chunks)
  {
    total := 0;
    for i := 0 to |chunks|
      invariant total + TokenTotal(chunks[i..]) == TokenTotal(chunks)
    {
      assert chunks[i..][0] == chunks[i] && chunks[i..][1..] == chunks[i + 1..];
      total := total + chunks[i].tokenCount;
    }
  }

  /** Step 5 of `_ingest`: one record for each chunk that has an embedding. */
  method BuildRecords<V>(chunks: seq<TextChunk>, embeddings: seq<V>) returns (records: seq<Record<V>>)
    ensures |records| == if |chunks| <= |embeddings| then |chunks| else |embeddings|
    ensures forall i :: 0 <= i < |records| ==>
      records[i] == Record(chunks[i].text, embeddings[i], SparseOf(Words(chunks[i].text)), chunks[i].chunkIndex,
                           chunks[i].tokenCount, chunks[i].sectionTitle, chunks[i].pageNumber)
  {
    records := [];
    for i := 0 to Min(|chunks|, |embeddings|)
      invariant |records| == i
      invariant forall k :: 0 <= k < i ==>
        records[k] == Record(chunks[k].text, embeddings[k], SparseOf(Words(chunks[k].text)), chunks[k].chunkIndex,
                             chunks[k].tokenCount, chunks[k].sectionTitle, chunks[k].pageNumber)
    {
      var sparse := Sparse(Words(chunks[i].text));
      records := records + [Record(chunks[i].text, embeddings[i], sparse, chunks[i].chunkIndex, chunks[i].tokenCount,
                                   chunks[i].sectionTitle, chunks[i].pageNumber)];
    }
  }

  /** Whatever happens to the texts, the token total stays the one of the chunks as cut. */
  lemma {:induction false} ScrubKeepsTokens(cut: seq<TextChunk>, chunks: seq<TextChunk>)
    requires |cut| == |chunks| && forall i :: 0 <= i < |cut| ==> chunks[i].tokenCount == cut[i].tokenCount
    ensures TokenTotal(chunks) == TokenTotal(cut)
  {
    if cut != [] {
      ScrubKeepsTokens(cut[1..], chunks[1..]);
    }
  }

  /**
   `_ingest` after extraction: chunk, scrub in place, embed, zip into records. What is sent to
   the client, and what is stored, is the scrubbed text; place and counts are those of the
   chunks as cut; `sent` are the batches of this call.
   */
  method Ingest<V(!new)>(
    pages: seq<RawPage>, chunker: Chunker, embedder: Embedder<V>, scrub: string -> string, client: Client<V>)
    returns (r: Result<(seq<Record<V>>, nat), Failure>, ghost sent: seq<seq<string>>)
    requires AllTerminate(pages, chunker.config)
    modifies embedder
    ensures embedder.calls == old(embedder.calls) + sent
    ensures var cut := Chunks(pages, chunker.config, 0);
            if cut == [] then r == Ok(([], 0)) && sent == []
            else if embedder.batchSize == 0 then r == Err(ZeroStep) && sent == []
            else r.Ok? && r.value.1 == TokenTotal(cut)
    ensures embedder.batchSize <= 0 ==> sent == []
    ensures var cut := Chunks(pages, chunker.config, 0);
            embedder.batchSize >= 1 ==>
              |Flatten(sent)| == |cut| && forall i :: 0 <= i < |cut| ==> Flatten(sent)[i] == scrub(cut[i].text)
    ensures var cut := Chunks(pages, chunker.config, 0);
            r.Ok? ==>
              var records := r.value.0;
              && |records| <= |cut| && |records| <= |Answers(client, sent)|
              && (|records| == |cut| || |records| == |Answers(client, sent)|)
              && forall i :: 0 <= i < |records| ==>
                   && records[i].content == scrub(cut[i].text)
                   && records[i].embedding == Answers(client, sent)[i]
                   && records[i].sparse == SparseOf(Words(scrub(cut[i].text)))
                   && records[i].chunkIndex == cut[i].chunkIndex && records[i].tokenCount == cut[i].tokenCount
                   && records[i].sectionTitle == cut[i].sectionTitle && records[i].pageNumber == cut[i].pageNumber
    ensures var cut := Chunks(pages, chunker.config, 0);
            embedder.batchSize >= 1 ==>
              && r.Ok?
              && forall embed: string -> V :: Pointwise(client, embed) ==>
                   |r.value.0| == |cut| && forall i :: 0 <= i < |cut| ==> r.value.0[i].embedding == embed(scrub(cut[i].text))
  {
    hide Chunks, SparseOf, Words, TokenTotal, Batches, Answers;
    var cut := chunker.Chunk(pages);
    sent := [];
    if cut == [] {
      assert embedder.calls + [] == embedder.calls;
      return Ok(([], 0)), sent;
    }
    var chunks := ScrubChunks(cut, scrub);
    ScrubKeepsTokens(cut, chunks);
    sent := Batches(TextsOf(chunks), embedder.batchSize);
    if embedder.batchSize >= 1 {
      BatchesPartition(TextsOf(chunks), embedder.batchSize);
    }
    NoBatches(TextsOf(chunks), embedder.batchSize);
    var answered := embedder.EmbedTexts(TextsOf(chunks), client);
    if answered.Err? {
      return Err(answered.error), sent;
    }
    var total := SumTokens(chunks);
    var records := BuildRecords(chunks, answered.value);
    r := Ok((records, total));
    if embedder.batchSize >= 1 {
      forall embed: string -> V | Pointwise(client, embed)
        ensures |records| == |cut| && forall i :: 0 <= i < |cut| ==> records[i].embedding == embed(scrub(cut[i].text))
      {
        EveryRecordEmbedded(cut, sent, scrub, client, embed);
      }
    }
  }

  lemma NoBatches(texts: seq<string>, size: int)
    ensures size <= 0 ==> Batches(texts, size) == []
  {
  }

  /**
   When the batches sent hold the scrubbed texts of the chunks, position by position, and the
   client is pointwise, answer i is the embedding of the scrubbed text of chunk i, for every
   chunk: no record is lost.
   */
  lemma {:induction false} EveryRecordEmbedded<V(!new)>(
    cut: seq<TextChunk>, sent: seq<seq<string>>, scrub: string -> string, client: Client<V>, embed: string -> V)
    requires Pointwise(client, embed)
    requires |Flatten(sent)| == |cut| && forall i :: 0 <= i < |cut| ==> Flatten(sent)[i] == scrub(cut[i].text)
    ensures |Answers(client, sent)| == |cut|
    ensures forall i :: 0 <= i < |cut| ==> Answers(client, sent)[i] == embed(scrub(cut[i].text))
  {
    AnswersPointwise(client, embed, sent);
  }

  /** Zipping loses no record exactly when the batch size is positive (a pointwise client, at least one chunk). */
  lemma {:induction false} NoRecordLostIff<V(!new)>(chunks: seq<TextChunk>, batchSize: int, client: Client<V>, embed: string -> V)
    requires Pointwise(client, embed) && chunks != []
    ensures var answers := Answers(client, Batches(TextsOf(chunks), batchSize));
            (|chunks| <= |answers| && forall i :: 0 <= i < |chunks| ==> answers[i] == embed(chunks[i].text))
            <==> batchSize >= 1
  {
    BatchingTransparentIff(TextsOf(chunks), batchSize, client, embed);
    if batchSize >= 1 {
      assert forall i :: 0 <= i < |chunks| ==> TextsOf(chunks)[i] == chunks[i].text;
    } else {
      assert Batches(TextsOf(chunks), batchSize) == [];
    }
  }
}
