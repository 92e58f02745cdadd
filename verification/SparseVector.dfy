/** The normalised term-frequency vector of a token list. */
module SparseVectors {
  import opened Sequences
  import opened Text

  // ------------------------------------------------------------------------
  // Frequency maps of any kind of term
  // ------------------------------------------------------------------------

  /** How often each term occurs. */
  function Freq<T>(terms: seq<T>): (r: map<T, nat>)
  {
    map t | t in terms :: multiset(terms)[t]
  }

  lemma FreqAppend<T>(terms: seq<T>, t: T)
    ensures var f := Freq(terms);
            Freq(terms + [t]) == f[t := (if t in f then f[t] else 0) + 1]
  {
    var f, g := Freq(terms), Freq(terms + [t]);
    assert t !in f ==> multiset(terms)[t] == 0;
    assert forall u :: u in terms + [t] <==> u in terms || u == t;
    assert multiset(terms + [t]) == multiset(terms) + multiset{t};
  }

  /** Sum of the values of a map. */
  ghost function MapSum<T>(m: map<T, nat>): (r: nat)
    decreases |m|
  {
    if m == map[] then 0
    else
      var k :| k in m;
      m[k] + MapSum(m - {k})
  }

  lemma {:induction false} MapSumRemove<T>(m: map<T, nat>, k: T)
    requires k in m
    ensures MapSum(m) == m[k] + MapSum(m - {k})
    decreases |m|
  {
    var j :| j in m && MapSum(m) == m[j] + MapSum(m - {j});
    if j != k {
      MapSumRemove(m - {j}, k);
      MapSumRemove(m - {k}, j);
      assert (m - {j}) - {k} == (m - {k}) - {j};
    }
  }

  lemma {:induction false} MapSumUpdate<T>(m: map<T, nat>, k: T, v: nat)
    ensures MapSum(m[k := v]) == MapSum(m) - (if k in m then m[k] else 0) + v
  {
    MapSumRemove(m[k := v], k);
    if k in m {
      MapSumRemove(m, k);
      assert m[k := v] - {k} == m - {k};
    } else {
      assert m[k := v] - {k} == m;
    }
  }

  /** The counts add up to the number of terms. */
  lemma {:induction false} FreqSum<T>(terms: seq<T>)
    ensures MapSum(Freq(terms)) == |terms|
  {
    if terms == [] {
      assert Freq(terms) == map[];
    } else {
      var front, t := terms[..|terms| - 1], terms[|terms| - 1];
      assert terms == front + [t];
      FreqSum(front);
      FreqAppend(front, t);
      var f := Freq(front);
      MapSumUpdate(f, t, (if t in f then f[t] else 0) + 1);
    }
  }

  /** Each count divided by `total`. */
  function Weights<T>(freq: map<T, nat>, total: nat): (r: map<T, real>)
    requires total > 0
  {
    map t | t in freq :: freq[t] as real / total as real
  }

  /** Sum of the weights of a vector. */
  ghost function WeightSum<T>(m: map<T, real>): (r: real)
    decreases |m|
  {
    if m == map[] then 0.0
    else
      var k :| k in m;
      m[k] + WeightSum(m - {k})
  }

  lemma WeightSumPick<T>(w: map<T, real>) returns (k: T)
    requires w != map[]
    ensures k in w && WeightSum(w) == w[k] + WeightSum(w - {k})
  {
    k :| k in w && WeightSum(w) == w[k] + WeightSum(w - {k});
  }

  ghost predicate AddsUp(share: nat -> real, a: nat, b: nat)
  {
    share(a) + share(b) == share(a + b)
  }

  /** If every weight is the same additive share of its count, the weights add up to that share of the counts' sum. */
  lemma {:induction false} WeightSumOf<T>(freq: map<T, nat>, w: map<T, real>, share: nat -> real)
    requires share(0) == 0.0 && forall a: nat, b: nat :: AddsUp(share, a, b)
    requires w.Keys == freq.Keys && forall t :: t in freq ==> w[t] == share(freq[t])
    ensures WeightSum(w) == share(MapSum(freq))
    decreases |w|
  {
    if w == map[] {
      assert freq == map[];
    } else {
      var k := WeightSumPick(w);
      assert (w - {k}).Keys == (freq - {k}).Keys;
      assert w.Keys == (w - {k}).Keys + {k};
      WeightSumOf(freq - {k}, w - {k}, share);
      MapSumRemove(freq, k);
      assert AddsUp(share, freq[k], MapSum(freq - {k}));
    }
  }

  lemma AddFractions(a: nat, b: nat, total: nat)
    requires total > 0
    ensures a as real / total as real + b as real / total as real == (a + b) as real / total as real
  {
  }

  lemma WholeIsOne(total: nat)
    requires total > 0
    ensures total as real / total as real == 1.0
  {
  }

  // ------------------------------------------------------------------------
  // The sparse vector
  // ------------------------------------------------------------------------

  /** The vector of a token list: each lower-cased token with its share of the tokens. */
  function SparseOf(tokens: seq<string>): (r: map<string, real>)
  {
    Weights(Freq(LowerAll(tokens)), if |tokens| == 0 then 1 else |tokens|)
  }

  /** `_bm25_sparse`: the counting loop, then the division. */
  method Sparse(tokens: seq<string>) returns (vector: map<string, real>)
    ensures vector == SparseOf(tokens)
  {
    var freq: map<string, nat> := map[];
    for i := 0 to |tokens|
      invariant freq == Freq(LowerAll(tokens)[..i])
    {
      var t := Lower(tokens[i]);
      FreqAppend(LowerAll(tokens)[..i], t);
      assert LowerAll(tokens)[..i] + [t] == LowerAll(tokens)[..i + 1];
      freq := freq[t := (if t in freq then freq[t] else 0) + 1];
    }
    assert LowerAll(tokens)[..|tokens|] == LowerAll(tokens);
    vector := Weights(freq, if |tokens| == 0 then 1 else |tokens|);
  }

  ghost function ShareOf(n: nat): nat -> real
    requires n > 0
  {
    (count: nat) => count as real / n as real
  }

  lemma ShareAdds(n: nat)
    requires n > 0
    ensures ShareOf(n)(0) == 0.0 && ShareOf(n)(n) == 1.0
    ensures forall a: nat, b: nat :: AddsUp(ShareOf(n), a, b)
  {
    WholeIsOne(n);
    forall a: nat, b: nat ensures AddsUp(ShareOf(n), a, b) {
      AddFractions(a, b, n);
    }
  }

  lemma SharesOfCounts(tokens: seq<string>)
    requires tokens != []
    ensures var freq, w := Freq(LowerAll(tokens)), SparseOf(tokens);
            w.Keys == freq.Keys && forall t :: t in freq ==> w[t] == ShareOf(|tokens|)(freq[t])
  {
    hide Freq, LowerAll, Lower;
  }

  /** The weights of a non-empty token list add up to exactly one. */
  lemma {:induction false} WeightsSumToOne(tokens: seq<string>)
    requires tokens != []
    ensures WeightSum(SparseOf(tokens)) == 1.0
  {
    hide ShareOf, AddsUp, SparseOf, WeightSum, MapSum, Freq;
    ShareAdds(|tokens|);
    SharesOfCounts(tokens);
    FreqSum(LowerAll(tokens));
    WeightSumOf(Freq(LowerAll(tokens)), SparseOf(tokens), ShareOf(|tokens|));
  }

  /** A term's weight is the share of the tokens that lower-case to it; other strings are absent. */
  lemma {:induction false} WeightIsShare(tokens: seq<string>, t: string)
    ensures t in SparseOf(tokens) <==> exists i :: 0 <= i < |tokens| && Lower(tokens[i]) == t
    ensures t in SparseOf(tokens) ==> SparseOf(tokens)[t] == multiset(LowerAll(tokens))[t] as real / |tokens| as real
  {
    var terms := LowerAll(tokens);
    if i :| 0 <= i < |tokens| && Lower(tokens[i]) == t {
      assert terms[i] == t;
    }
    if t in terms {
      var i :| 0 <= i < |terms| && terms[i] == t;
      assert Lower(tokens[i]) == t;
    }
  }

  /** Term counts add under concatenation. */
  lemma {:induction false} CountsAdd(a: seq<string>, b: seq<string>, t: string)
    ensures var fa, fb, f := Freq(LowerAll(a)), Freq(LowerAll(b)), Freq(LowerAll(a + b));
            && (t in f <==> t in fa || t in fb)
            && (t in f ==> f[t] == (if t in fa then fa[t] else 0) + (if t in fb then fb[t] else 0))
  {
    FreqConcat(LowerAll(a), LowerAll(b), t);
    assert LowerAll(a + b) == LowerAll(a) + LowerAll(b);
  }

  lemma FreqConcat<T>(a: seq<T>, b: seq<T>, t: T)
    ensures t in Freq(a + b) <==> t in Freq(a) || t in Freq(b)
    ensures t in Freq(a + b) ==> Freq(a + b)[t] == (if t in Freq(a) then Freq(a)[t] else 0) + (if t in Freq(b) then Freq(b)[t] else 0)
  {
    assert multiset(a + b) == multiset(a) + multiset(b);
    assert t !in a ==> multiset(a)[t] == 0;
    assert t !in b ==> multiset(b)[t] == 0;
  }

  /** The order of the tokens does not matter. */
  lemma {:induction false} OrderIrrelevant(a: seq<string>, b: seq<string>)
    requires multiset(a) == multiset(b)
    ensures SparseOf(a) == SparseOf(b)
  {
    MapPermutation(a, b, Lower);
    assert LowerAll(a) == Mapped(a, Lower) && LowerAll(b) == Mapped(b, Lower);
    SameTermsSameFreq(LowerAll(a), LowerAll(b));
    assert |a| == |multiset(a)| && |b| == |multiset(b)|;
  }

  lemma SameTermsSameFreq<T>(a: seq<T>, b: seq<T>)
    requires multiset(a) == multiset(b)
    ensures Freq(a) == Freq(b)
  {
    assert forall t :: t in a <==> t in multiset(a);
    assert forall t :: t in b <==> t in multiset(b);
  }

  lemma TakeOut<T>(s: seq<T>, i: nat)
    requires i < |s|
    ensures multiset(s) == multiset(s[..i] + s[i + 1..]) + multiset{s[i]}
  {
    assert s == s[..i] + ([s[i]] + s[i + 1..]);
  }

  lemma MappedTakeOut<A, B>(s: seq<A>, f: A -> B, i: nat)
    requires i < |s|
    ensures multiset(Mapped(s, f)) == multiset(Mapped(s[..i] + s[i + 1..], f)) + multiset{f(s[i])}
  {
    TakeOut(Mapped(s, f), i);
    assert Mapped(s[..i] + s[i + 1..], f) == Mapped(s, f)[..i] + Mapped(s, f)[i + 1..];
  }

  lemma {:induction false} MapPermutation<A, B>(a: seq<A>, b: seq<A>, f: A -> B)
    requires multiset(a) == multiset(b)
    ensures multiset(Mapped(a, f)) == multiset(Mapped(b, f))
    decreases |a|
  {
    if a == [] {
      assert |b| == |multiset(b)| == 0;
    } else {
      var i, rb := PermutationStep(a, b);
      MapPermutation(a[1..], rb, f);
      MappedTakeOut(a, f, 0);
      MappedTakeOut(b, f, i);
      assert a[..0] + a[1..] == a[1..];
    }
  }

  lemma PermutationStep<A>(a: seq<A>, b: seq<A>) returns (i: nat, rest: seq<A>)
    requires a != [] && multiset(a) == multiset(b)
    ensures i < |b| && b[i] == a[0] && rest == b[..i] + b[i + 1..] && multiset(a[1..]) == multiset(rest)
  {
    assert a[0] in multiset(b);
    i :| 0 <= i < |b| && b[i] == a[0];
    rest := b[..i] + b[i + 1..];
    TakeOut(a, 0);
    TakeOut(b, i);
    assert a[..0] + a[1..] == a[1..];
    assert multiset(a[1..]) == multiset(a) - multiset{a[0]} == multiset(rest);
  }

  /** The query side splits the lower-cased text, the document side lower-cases the split text: same vector. */
  lemma {:induction false} QueryFormAgrees(q: string)
    ensures SparseOf(Words(Lower(q))) == SparseOf(Words(q))
  {
    WordsOfLower(q);
    var ws := Words(q);
    forall i | 0 <= i < |ws| ensures LowerAll(LowerAll(ws))[i] == LowerAll(ws)[i] {
      LowerIdempotent(ws[i]);
    }
    assert LowerAll(LowerAll(ws)) == LowerAll(ws);
  }
}
