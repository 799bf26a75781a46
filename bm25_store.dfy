/** The keyword index of backend/retrieval/bm25_store.py: three parallel
    lists (texts, their tokens, their metadata) and a ranked search over
    them.

    NLTK's tokeniser is a parameter, and the BM25 scores of a query are an
    input, one per indexed text; the pickle file is the optional triple the
    store starts from. */
module Bm25Store {
  import opened Wrappers
  import opened Text
  import opened Ranking

  type Metadata = map<string, string>
  type Tokenizer = string -> seq<string>

  /** A search hit: `(text, metadata, score)`. */
  datatype Ranked = Ranked(text: string, meta: Metadata, score: real)

  function ScoreOf(r: Ranked): real {
    r.score
  }

  function Min(a: nat, b: nat): nat {
    if a <= b then a else b
  }

  /** The tokens `add` stores for each text: those of its lowercase form. */
  function Tokenized(texts: seq<string>, tokenize: Tokenizer): (r: seq<seq<string>>)
    ensures |r| == |texts|
    ensures forall i :: 0 <= i < |texts| ==> r[i] == tokenize(Lower(texts[i]))
  {
    seq(|texts|, i requires 0 <= i < |texts| => tokenize(Lower(texts[i])))
  }

  /** `zip(corpus, metadatas, scores)`. */
  function Triples(corpus: seq<string>, metadatas: seq<Metadata>, scores: seq<real>): (r: seq<Ranked>)
    ensures |r| == Min(Min(|corpus|, |metadatas|), |scores|)
    ensures forall i :: 0 <= i < |r| ==> r[i] == Ranked(corpus[i], metadatas[i], scores[i])
  {
    seq(Min(Min(|corpus|, |metadatas|), |scores|), i requires 0 <= i < Min(Min(|corpus|, |metadatas|), |scores|) =>
      Ranked(corpus[i], metadatas[i], scores[i]))
  }

  /** `search`: nothing without an index or texts, otherwise the `topK`
      best-scored triples. */
  function SearchResult(corpus: seq<string>, metadatas: seq<Metadata>, indexed: bool, scores: seq<real>, topK: int)
    : seq<Ranked>
  {
    if !indexed || corpus == [] then [] else PyTake(SortDescending(Triples(corpus, metadatas, scores), ScoreOf), topK)
  }

  class BM25Store {
    var corpus: seq<string>
    var tokenizedCorpus: seq<seq<string>>
    var metadatas: seq<Metadata>
    /** Whether `self.bm25` has been built. */
    var indexed: bool

    /** The three lists stay parallel. */
    predicate Valid()
      reads this
    {
      |corpus| == |tokenizedCorpus| == |metadatas|
    }

    /** `BM25Store()`: empty, or the lists of the pickle file when there is
        one, indexed when it holds any token list (even an empty one). */
    constructor(persisted: Option<(seq<string>, seq<seq<string>>, seq<Metadata>)>)
      requires persisted.Some? ==> |persisted.value.0| == |persisted.value.1| == |persisted.value.2|
      ensures Valid()
      ensures persisted.None? ==> corpus == [] && tokenizedCorpus == [] && metadatas == [] && !indexed
      ensures persisted.Some? ==>
        && (corpus, tokenizedCorpus, metadatas) == persisted.value
        && indexed == (persisted.value.1 != [])
    {
      corpus := [];
      tokenizedCorpus := [];
      metadatas := [];
      indexed := false;
      if persisted.Some? {
        var (texts, tokens, metas) := persisted.value;
        corpus, tokenizedCorpus, metadatas := texts, tokens, metas;
        if tokens != [] {
          indexed := true;
        }
      }
    }

    /** `add`: the pairs of `zip(texts, metadatas)` appended in order, and the
        index rebuilt. */
    method Add(texts: seq<string>, metas: seq<Metadata>, tokenize: Tokenizer)
      requires Valid()
      modifies this
      ensures Valid()
      ensures var m := Min(|texts|, |metas|);
        && corpus == old(corpus) + texts[..m]
        && tokenizedCorpus == old(tokenizedCorpus) + Tokenized(texts[..m], tokenize)
        && metadatas == old(metadatas) + metas[..m]
      ensures indexed
    {
      var m := Min(|texts|, |metas|);
      for i := 0 to m
        invariant corpus == old(corpus) + texts[..i]
        invariant tokenizedCorpus == old(tokenizedCorpus) + Tokenized(texts[..i], tokenize)
        invariant metadatas == old(metadatas) + metas[..i]
      {
        var tokens := tokenize(Lower(texts[i]));
        corpus := corpus + [texts[i]];
        tokenizedCorpus := tokenizedCorpus + [tokens];
        metadatas := metadatas + [metas[i]];
        assert texts[..i + 1] == texts[..i] + [texts[i]];
        assert metas[..i + 1] == metas[..i] + [metas[i]];
        assert Tokenized(texts[..i + 1], tokenize) == Tokenized(texts[..i], tokenize) + [tokens];
      }
      indexed := true;
    }

    /** `search`, given the BM25 score of the query against each text. */
    function Search(scores: seq<real>, topK: int): (r: seq<Ranked>)
      reads this
      requires Valid() && |scores| == |tokenizedCorpus|
      ensures !indexed || corpus == [] ==> r == []
      ensures |r| <= |corpus|
    {
      SearchResult(corpus, metadatas, indexed, scores, topK)
    }
  }

  // ----- properties -----

  /** A search on an indexed store returns the first `topK` of all triples
      put in non-increasing score order, as a stable sort does: a
      permutation of the triples, with ties in text order; every hit pairs a
      text with its own metadata and score. */
  lemma SearchRule(corpus: seq<string>, metadatas: seq<Metadata>, scores: seq<real>, topK: int)
    requires |corpus| == |metadatas| == |scores| && corpus != []
    ensures var all := Triples(corpus, metadatas, scores);
      var sorted := SortDescending(all, ScoreOf);
      var r := SearchResult(corpus, metadatas, true, scores, topK);
      && multiset(sorted) == multiset(all)
      && Descending(sorted, ScoreOf)
      && (forall v :: WithKey(sorted, ScoreOf, v) == WithKey(all, ScoreOf, v))
      && r <= sorted
      && (topK >= 0 ==> |r| == Min(topK, |corpus|))
      && (topK < 0 ==> |r| == if |corpus| + topK > 0 then |corpus| + topK else 0)
  {
    var all := Triples(corpus, metadatas, scores);
    SortDescendingMembers(all, ScoreOf);
    SortDescendingOrders(all, ScoreOf);
    forall v {
      SortDescendingStable(all, ScoreOf, v);
    }
  }

  /** Every hit is some text's triple. */
  lemma SearchHitFrom(corpus: seq<string>, metadatas: seq<Metadata>, scores: seq<real>, topK: int, j: nat)
    returns (i: nat)
    requires |corpus| == |metadatas| == |scores|
    requires j < |SearchResult(corpus, metadatas, true, scores, topK)|
    ensures i < |corpus|
    ensures SearchResult(corpus, metadatas, true, scores, topK)[j] == Ranked(corpus[i], metadatas[i], scores[i])
  {
    var all := Triples(corpus, metadatas, scores);
    var sorted := SortDescending(all, ScoreOf);
    SortDescendingMembers(all, ScoreOf);
    assert sorted[j] in all;
    i :| 0 <= i < |all| && all[i] == sorted[j];
  }
}
