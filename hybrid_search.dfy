/** The hybrid retrieval of backend/retrieval/hybrid.py: the dense (vector
    store) hits followed by the BM25 hits, and reciprocal-rank fusion of two
    result lists.

    The stores are not modelled: what their `search` calls return is an
    input. */
module HybridSearch {
  import opened Text
  import opened Ranking
  import opened Bm25Store

  /** A hit of `search`: `{"text": ..., "meta": ...}`. */
  datatype Hit = Hit(text: string, meta: Metadata)

  /** What the vector store returns for one query: a list of documents and a
      list of metadata lists, one per query embedding. */
  datatype DenseResult = DenseResult(documents: seq<seq<string>>, metadatas: seq<seq<Metadata>>)

  /** A text with its fused score. */
  type Fusion = (string, real)

  function FirstOrEmpty<T>(lists: seq<seq<T>>): seq<T> {
    if lists != [] then lists[0] else []
  }

  function MinNat(a: nat, b: nat): nat {
    if a <= b then a else b
  }

  /** `zip(dense_texts, dense_metas)` as hits. */
  function DenseHits(texts: seq<string>, metas: seq<Metadata>): (r: seq<Hit>)
    ensures |r| == MinNat(|texts|, |metas|)
    ensures forall i :: 0 <= i < |r| ==> r[i] == Hit(texts[i], metas[i])
  {
    seq(MinNat(|texts|, |metas|), i requires 0 <= i < MinNat(|texts|, |metas|) => Hit(texts[i], metas[i]))
  }

  /** The BM25 triples as hits, their scores dropped. */
  function SparseHits(sparse: seq<Ranked>): (r: seq<Hit>)
    ensures |r| == |sparse|
    ensures forall i :: 0 <= i < |r| ==> r[i] == Hit(sparse[i].text, sparse[i].meta)
  {
    seq(|sparse|, i requires 0 <= i < |sparse| => Hit(sparse[i].text, sparse[i].meta))
  }

  /** `search`, given what the two stores returned: the dense hits, then the
      BM25 hits, cut to `topK`. */
  function Search(dense: DenseResult, sparse: seq<Ranked>, topK: int): (r: seq<Hit>)
    ensures var texts, metas := FirstOrEmpty(dense.documents), FirstOrEmpty(dense.metadatas);
      var d := MinNat(|texts|, |metas|);
      && |r| <= d + |sparse|
      && (topK >= 0 ==> |r| == MinNat(topK, d + |sparse|))
      && (forall i :: 0 <= i < |r| && i < d ==> r[i] == Hit(texts[i], metas[i]))
      && (forall i :: d <= i < |r| ==> r[i] == Hit(sparse[i - d].text, sparse[i - d].meta))
  {
    var hits := DenseHits(FirstOrEmpty(dense.documents), FirstOrEmpty(dense.metadatas));
    PyTake(hits + SparseHits(sparse), topK)
  }

  // ----- reciprocal-rank fusion -----

  /** The score a list gives a text at `rank`, counted from 0. */
  function RankScore(k: int, rank: nat): real {
    if k + rank == 0 then 0.0 else 1.0 / (k + rank) as real
  }

  /** Σ 1/(k + rank) over the positions of `text` in `list`. */
  function ListScore(list: seq<string>, text: string, k: int): real {
    if list == [] then 0.0
    else
      var n := |list| - 1;
      ListScore(list[..n], text, k) + if list[n] == text then RankScore(k, n) else 0.0
  }

  /** The texts in order of first appearance: the keys of the `scores`
      dictionary, in insertion order. */
  function Dedup(s: seq<string>): seq<string> {
    if s == [] then []
    else
      var init := s[..|s| - 1];
      Dedup(init) + if s[|s| - 1] in init then [] else [s[|s| - 1]]
  }

  /** `scores.items()`. */
  function Tally(texts: seq<string>, dense: seq<string>, sparse: seq<string>, k: int): (r: seq<Fusion>)
    ensures |r| == |texts|
    ensures forall i :: 0 <= i < |r| ==> r[i] == (texts[i], ListScore(dense, texts[i], k) + ListScore(sparse, texts[i], k))
  {
    seq(|texts|, i requires 0 <= i < |texts| => (texts[i], ListScore(dense, texts[i], k) + ListScore(sparse, texts[i], k)))
  }

  function FusedScore(f: Fusion): real {
    f.1
  }

  function FusedText(f: Fusion): string {
    f.0
  }

  /** The result of `rrf_fusion`. */
  function Fused(dense: seq<string>, sparse: seq<string>, k: int): seq<Fusion> {
    SortDescending(Tally(Dedup(dense + sparse), dense, sparse, k), FusedScore)
  }

  /** Python raises on `1 / 0`: no rank of either list may cancel `k`. */
  predicate NoZeroRank(k: int, n: nat) {
    k > 0 || n <= -k
  }

  /** `scores` and the order of its keys after counting `dense` and then
      `sparse`. */
  ghost predicate Tallied(order: seq<string>, scores: map<string, real>, dense: seq<string>, sparse: seq<string>, k: int) {
    && order == Dedup(dense + sparse)
    && (forall t :: t in scores <==> t in dense + sparse)
    && forall t <- scores :: scores[t] == ListScore(dense, t, k) + ListScore(sparse, t, k)
  }

  /** `rrf_fusion`: the two counting loops over the `scores` dictionary, then
      the stable sort of its items by score, largest first. */
  method RrfFusion(denseTexts: seq<string>, sparse: seq<Ranked>, k: int) returns (fused: seq<Fusion>)
    requires NoZeroRank(k, |denseTexts|) && NoZeroRank(k, |sparse|)
    ensures fused == Fused(denseTexts, Texts(sparse), k)
  {
    var sparseTexts := Texts(sparse);
    var order, scores := CountRanks([], map[], [], denseTexts, k);
    TalliedSwap(order, scores, denseTexts, k);
    order, scores := CountRanks(order, scores, denseTexts, sparseTexts, k);
    DedupMembers(denseTexts + sparseTexts);
    var items := seq(|order|, i requires 0 <= i < |order| => (order[i], scores[order[i]]));
    ItemsTally(order, scores, denseTexts, sparseTexts, k, items);
    fused := SortDescending(items, FusedScore);
  }

  /** One of the two loops of `rrf_fusion`: every text of `list` adds
      1/(k + rank) to its entry of `scores`, a new text joining the end of
      the key order. */
  method CountRanks(order0: seq<string>, scores0: map<string, real>, ghost prior: seq<string>, list: seq<string>, k: int)
    returns (order: seq<string>, scores: map<string, real>)
    requires Tallied(order0, scores0, prior, [], k) && NoZeroRank(k, |list|)
    ensures Tallied(order, scores, prior, list, k)
  {
    order, scores := order0, scores0;
    for rank := 0 to |list|
      invariant Tallied(order, scores, prior, list[..rank], k)
    {
      var text := list[rank];
      assert list[..rank + 1] == list[..rank] + [text];
      var before := if text in scores then scores[text] else 0.0;
      CountStep(order, scores, prior, list[..rank], text, k);
      assert 1.0 / (k + rank) as real == RankScore(k, rank);
      if text !in scores {
        order := order + [text];
      }
      scores := scores[text := before + 1.0 / (k + rank) as real];
    }
    assert list[..|list|] == list;
  }

  /** Counting a list after nothing is counting nothing after it. */
  lemma TalliedSwap(order: seq<string>, scores: map<string, real>, list: seq<string>, k: int)
    requires Tallied(order, scores, [], list, k)
    ensures Tallied(order, scores, list, [], k)
  {
    assert [] + list == list + [];
  }

  /** One pass of a counting loop: `text` counted at the next rank of `sparse`. */
  lemma CountStep(order: seq<string>, scores: map<string, real>, dense: seq<string>, sparse: seq<string>,
                   text: string, k: int)
    requires Tallied(order, scores, dense, sparse, k)
    ensures var before := if text in scores then scores[text] else 0.0;
      Tallied(order + (if text in scores then [] else [text]),
              scores[text := before + RankScore(k, |sparse|)], dense, sparse + [text], k)
  {
    var next := sparse + [text];
    var before := if text in scores then scores[text] else 0.0;
    var scores' := scores[text := before + RankScore(k, |sparse|)];
    assert dense + next == (dense + sparse) + [text];
    DedupSnoc(dense + sparse, text);
    assert forall t :: t in scores' <==> t in dense + next;
    if text !in scores {
      ListScoreAbsent(dense, text, k);
      ListScoreAbsent(sparse, text, k);
    }
    forall t <- scores'
      ensures scores'[t] == ListScore(dense, t, k) + ListScore(next, t, k)
    {
      ListScoreSnoc(sparse, text, t, k);
    }
  }

  lemma DedupSnoc(s: seq<string>, x: string)
    ensures Dedup(s + [x]) == Dedup(s) + if x in s then [] else [x]
  {
    assert (s + [x])[..|s|] == s;
  }

  lemma ListScoreSnoc(list: seq<string>, x: string, t: string, k: int)
    ensures ListScore(list + [x], t, k) == ListScore(list, t, k) + if t == x then RankScore(k, |list|) else 0.0
  {
    assert (list + [x])[..|list|] == list;
  }

  /** `scores.items()` is the tally of the distinct texts. */
  lemma ItemsTally(order: seq<string>, scores: map<string, real>, dense: seq<string>, sparse: seq<string>, k: int,
                   items: seq<Fusion>)
    requires Tallied(order, scores, dense, sparse, k)
    requires |items| == |order| && forall i :: 0 <= i < |order| ==> order[i] in scores && items[i] == (order[i], scores[order[i]])
    ensures items == Tally(order, dense, sparse, k)
  {
  }

  /** The texts of the BM25 triples. */
  function Texts(sparse: seq<Ranked>): (r: seq<string>)
    ensures |r| == |sparse|
    ensures forall i :: 0 <= i < |r| ==> r[i] == sparse[i].text
  {
    seq(|sparse|, i requires 0 <= i < |sparse| => sparse[i].text)
  }

  // ----- properties -----

  /** Without dense documents the result is the BM25 hits alone, in BM25 order. */
  lemma SearchSparseOnly(dense: DenseResult, sparse: seq<Ranked>, topK: int)
    requires dense.documents == []
    ensures Search(dense, sparse, topK) == PyTake(SparseHits(sparse), topK)
  {
    assert DenseHits([], FirstOrEmpty(dense.metadatas)) == [];
    assert [] + SparseHits(sparse) == SparseHits(sparse);
  }

  lemma {:induction false} DedupMembers(s: seq<string>)
    ensures forall t :: t in Dedup(s) <==> t in s
    ensures forall t :: multiset(Dedup(s))[t] == if t in s then 1 else 0
  {
    if s != [] {
      var init := s[..|s| - 1];
      DedupMembers(init);
      assert s == init + [s[|s| - 1]];
    }
  }

  /** Each text of either list comes out exactly once, and no other text. */
  lemma FusedTexts(dense: seq<string>, sparse: seq<string>, k: int)
    ensures forall t :: multiset(Project(Fused(dense, sparse, k), FusedText))[t] == if t in dense + sparse then 1 else 0
  {
    var tally := Tally(Dedup(dense + sparse), dense, sparse, k);
    SortDescendingPermutes(tally, FusedScore, FusedText);
    DedupMembers(dense + sparse);
    assert Project(tally, FusedText) == Dedup(dense + sparse);
  }

  /** Each text's fused score is the sum of 1/(k + rank) over its positions
      in both lists. */
  lemma FusedScores(dense: seq<string>, sparse: seq<string>, k: int)
    ensures var fused := Fused(dense, sparse, k);
      forall i :: 0 <= i < |fused| ==>
        fused[i].1 == ListScore(dense, fused[i].0, k) + ListScore(sparse, fused[i].0, k)
  {
    var tally := Tally(Dedup(dense + sparse), dense, sparse, k);
    var fused := Fused(dense, sparse, k);
    SortDescendingMembers(tally, FusedScore);
    forall i | 0 <= i < |fused|
      ensures fused[i].1 == ListScore(dense, fused[i].0, k) + ListScore(sparse, fused[i].0, k)
    {
      assert fused[i] in fused;
      var j :| 0 <= j < |tally| && tally[j] == fused[i];
    }
  }

  /** The result is in non-increasing score order, and texts with equal
      scores keep the order they were first seen in. */
  lemma FusedOrder(dense: seq<string>, sparse: seq<string>, k: int)
    ensures var fused := Fused(dense, sparse, k);
      && Descending(fused, FusedScore)
      && forall v :: WithKey(fused, FusedScore, v) == WithKey(Tally(Dedup(dense + sparse), dense, sparse, k), FusedScore, v)
  {
    var tally := Tally(Dedup(dense + sparse), dense, sparse, k);
    SortDescendingOrders(tally, FusedScore);
    forall v {
      SortDescendingStable(tally, FusedScore, v);
    }
  }

  /** A text that appears only in the dense list at rank `r` scores 1/(k + r). */
  lemma SingleHit(dense: seq<string>, sparse: seq<string>, k: int, r: nat)
    requires r < |dense| && dense[r] !in sparse
    requires forall i :: 0 <= i < |dense| && i != r ==> dense[i] != dense[r]
    ensures ListScore(dense, dense[r], k) + ListScore(sparse, dense[r], k) == RankScore(k, r)
  {
    ListScoreSingle(dense, dense[r], k, r);
    ListScoreAbsent(sparse, dense[r], k);
  }

  lemma {:induction false} ListScoreAbsent(list: seq<string>, text: string, k: int)
    requires text !in list
    ensures ListScore(list, text, k) == 0.0
  {
    if list != [] {
      ListScoreAbsent(list[..|list| - 1], text, k);
    }
  }

  lemma {:induction false} ListScoreSingle(list: seq<string>, text: string, k: int, r: nat)
    requires r < |list| && list[r] == text
    requires forall i :: 0 <= i < |list| && i != r ==> list[i] != text
    ensures ListScore(list, text, k) == RankScore(k, r)
  {
    var n := |list| - 1;
    if n == r {
      ListScoreAbsent(list[..n], text, k);
    } else {
      ListScoreSingle(list[..n], text, k, r);
    }
  }
}
