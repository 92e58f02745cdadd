/** The embedding client wrapper: texts are sent in batches and the answers concatenated. */
module Embedders {
  import opened Wrappers
  import opened Sequences

  /** The remote client: embeddings for one batch. */
  type Client<!V> = seq<string> -> seq<V>

  /** A client that embeds each text on its own and answers for every text. */
  ghost predicate Pointwise<V(!new)>(client: Client<V>, embed: string -> V)
  {
    forall batch: seq<string> ::
      |client(batch)| == |batch| && forall i :: 0 <= i < |batch| ==> client(batch)[i] == embed(batch[i])
  }

  /** range() refuses a step of zero. */
  datatype Failure = ZeroStep

  class Embedder<V(!new)> {
    const batchSize: int
    var calls: seq<seq<string>>   // the batches sent so far

    constructor (batchSize: int := 128)
      ensures this.batchSize == batchSize && calls == []
    {
      this.batchSize := batchSize;
      calls := [];
    }

    /** `embed_texts`: a batch size of zero fails, and a negative one sends nothing at all. */
    method EmbedTexts(texts: seq<string>, client: Client<V>) returns (r: Result<seq<V>, Failure>)
      modifies this
      ensures r == if texts != [] && batchSize == 0 then Err(ZeroStep) else Ok(Answers(client, Batches(texts, batchSize)))
      ensures calls == old(calls) + Batches(texts, batchSize)
    {
      assert calls + [] == calls;
      assert Answers(client, []) == [];
      if texts == [] {
        return Ok([]);
      }
      if batchSize == 0 {
        return Err(ZeroStep);
      }
      var results: seq<V> := [];
      var i := 0;
      ghost var sent := calls;
      assert batchSize > 0 ==> texts[0..] == texts;
      while batchSize > 0 && i < |texts|
        invariant 0 <= i
        invariant batchSize > 0 ==>
          && calls + Batches(if i < |texts| then texts[i..] else [], batchSize) == sent + Batches(texts, batchSize)
          && results + Answers(client, Batches(if i < |texts| then texts[i..] else [], batchSize)) == Answers(client, Batches(texts, batchSize))
        invariant batchSize < 0 ==> calls == sent && results == []
        invariant batchSize < 0 ==> Batches(texts, batchSize) == []
        decreases |texts| - i
      {
        var end := if i + batchSize < |texts| then i + batchSize else |texts|;
        var batch := texts[i..end];
        ghost var rest := if end < |texts| then texts[end..] else [];
        BatchesStep(texts[i..], batchSize, batch, rest);
        ConcatAssociative(calls, [batch], Batches(rest, batchSize));
        ConcatAssociative(results, client(batch), Answers(client, Batches(rest, batchSize)));
        AnswersCons(client, batch, Batches(rest, batchSize));
        calls := calls + [batch];
        results := results + client(batch);
        i := i + batchSize;
      }
      assert results + [] == results && calls + [] == calls;
      r := Ok(results);
    }
  }

  /** The slices `texts[i : i + size]` for i in range(0, len(texts), size). */
  function Batches(texts: seq<string>, size: int): (r: seq<seq<string>>)
  {
    if texts == [] || size <= 0 then []
    else if |texts| <= size then [texts]
    else [texts[..size]] + Batches(texts[size..], size)
  }

  lemma BatchesStep(texts: seq<string>, size: int, batch: seq<string>, rest: seq<string>)
    requires texts != [] && size > 0
    requires batch == (if |texts| <= size then texts else texts[..size])
    requires rest == (if |texts| <= size then [] else texts[size..])
    ensures Batches(texts, size) == [batch] + Batches(rest, size)
  {
  }

  function Answers<V>(client: Client<V>, batches: seq<seq<string>>): (r: seq<V>)
  {
    if batches == [] then [] else client(batches[0]) + Answers(client, batches[1..])
  }

  lemma AnswersCons<V>(client: Client<V>, batch: seq<string>, rest: seq<seq<string>>)
    ensures Answers(client, [batch] + rest) == client(batch) + Answers(client, rest)
  {
    assert ([batch] + rest)[1..] == rest;
  }

  /** The batches cut the text list without loss, each is non-empty and at most `size` long, and there are ceil(n / size). */
  lemma {:induction false} BatchesPartition(texts: seq<string>, size: int)
    requires size >= 1
    ensures var bs := Batches(texts, size);
            && Flatten(bs) == texts
            && (forall k :: 0 <= k < |bs| ==> 1 <= |bs[k]| <= size)
            && (forall k :: 0 <= k < |bs| - 1 ==> |bs[k]| == size)
            && (|bs| - 1) * size < |texts| <= |bs| * size
    decreases |texts|
  {
    hide Batches;
    if texts == [] {
      NoTexts(size);
    } else if |texts| <= size {
      BatchesStep(texts, size, texts, []);
      NoTexts(size);
      assert [texts] + [] == [texts] && [texts][1..] == [];
    } else {
      var rest := Batches(texts[size..], size);
      BatchesPartition(texts[size..], size);
      BatchesStep(texts, size, texts[..size], texts[size..]);
      assert Batches(texts, size)[1..] == rest;
      CountStep(|rest|, size);
    }
  }

  lemma NoTexts(size: int)
    ensures Batches([], size) == []
  {
  }

  lemma CountStep(n: int, size: int)
    ensures n * size == (n - 1) * size + size
    ensures (n + 1) * size == n * size + size
  {
  }

  lemma {:induction false} AnswersPointwise<V(!new)>(client: Client<V>, embed: string -> V, batches: seq<seq<string>>)
    requires Pointwise(client, embed)
    ensures |Answers(client, batches)| == |Flatten(batches)|
    ensures forall i :: 0 <= i < |Flatten(batches)| ==> Answers(client, batches)[i] == embed(Flatten(batches)[i])
  {
    if batches != [] {
      AnswersPointwise(client, embed, batches[1..]);
    }
  }

  /**
   For a pointwise client, result i is the embedding of text i for every text, whatever the
   batch size, if and only if the batch size is positive or there is nothing to embed.
   */
  lemma {:induction false} BatchingTransparentIff<V(!new)>(texts: seq<string>, size: int, client: Client<V>, embed: string -> V)
    requires Pointwise(client, embed)
    ensures var r := Answers(client, Batches(texts, size));
            (|r| == |texts| && forall i :: 0 <= i < |texts| ==> r[i] == embed(texts[i])) <==> size >= 1 || texts == []
  {
    if size >= 1 {
      BatchesPartition(texts, size);
      AnswersPointwise(client, embed, Batches(texts, size));
    }
  }
}
