/** The two chunkers of backend/ingestion/chunkers.py, over a document
    already split into sentences (NLTK's `sent_tokenize` is not modelled).

    The sliding-window chunker is specified by the runs of consecutive
    sentences it joins; the semantic chunker by the groups it cuts the
    sentence list into, with the cosine similarity of each neighbouring pair
    of sentence embeddings given as a number. */
module Chunkers {
  import opened Text

  /** The consecutive sentences `sentences[start..end]`. */
  datatype Run = Run(start: nat, end: nat)

  /** The state of `sentence_chunker` after some sentences: the runs joined
      into chunks so far, and where the current window starts. */
  datatype Window = Window(runs: seq<Run>, lo: nat)

  /** The text of a run: its sentences joined by single spaces. */
  function Chunk(sentences: seq<string>, r: Run): string
    requires r.start <= r.end <= |sentences|
  {
    Join(" ", sentences[r.start..r.end])
  }

  predicate RunsWithin(runs: seq<Run>, n: nat) {
    forall t :: 0 <= t < |runs| ==> runs[t].start < runs[t].end <= n
  }

  function JoinRuns(sentences: seq<string>, runs: seq<Run>): (r: seq<string>)
    requires RunsWithin(runs, |sentences|)
    ensures |r| == |runs|
    ensures forall t :: 0 <= t < |runs| ==> r[t] == Chunk(sentences, runs[t])
  {
    seq(|runs|, t requires 0 <= t < |runs| => Chunk(sentences, runs[t]))
  }

  /** Where the window starts after the run `r` is emitted: `window[-overlap:]`. */
  function NextStart(r: Run, overlap: int): (s: nat)
    ensures r.start <= r.end ==> r.start <= s <= r.end
  {
    if r.start <= r.end then r.start + PyIndex(-overlap, r.end - r.start) else r.start
  }

  /** `sentence_chunker`'s emission test: the window's joined text has
      reached `chunkSize`. */
  function Emits(sentences: seq<string>, chunkSize: int): Run -> bool {
    (r: Run) => r.start <= r.end <= |sentences| && |Chunk(sentences, r)| >= chunkSize
  }

  /** `sentence_chunker`'s loop after the first `i` sentences, for an
      emission test `emit`. */
  function Windows(i: nat, emit: Run -> bool, overlap: int): (w: Window)
    ensures w.lo <= i
  {
    if i == 0 then Window([], 0)
    else
      var w := Windows(i - 1, emit, overlap);
      var run := Run(w.lo, i);
      if emit(run) then Window(w.runs + [run], NextStart(run, overlap)) else w
  }

  /** Every run the loop joins over `n` sentences, the final window included. */
  function Ranges(n: nat, emit: Run -> bool, overlap: int): (r: seq<Run>)
    ensures RunsWithin(r, n)
  {
    WindowsWithin(n, emit, overlap);
    var w := Windows(n, emit, overlap);
    w.runs + if w.lo < n then [Run(w.lo, n)] else []
  }

  /** The emitted runs are non-empty and lie within the sentences seen. */
  lemma {:induction false} WindowsWithin(i: nat, emit: Run -> bool, overlap: int)
    ensures RunsWithin(Windows(i, emit, overlap).runs, i)
  {
    if i > 0 {
      WindowsWithin(i - 1, emit, overlap);
    }
  }

  /** The result of `sentence_chunker`. */
  function SentenceChunks(sentences: seq<string>, chunkSize: int, overlap: int): seq<string> {
    JoinRuns(sentences, Ranges(|sentences|, Emits(sentences, chunkSize), overlap))
  }

  /** Python's truth test on the similarity: a new chunk starts before sentence `i`. */
  predicate Boundary(similarity: seq<real>, threshold: real, i: nat)
    requires 0 < i <= |similarity|
  {
    similarity[i - 1] < threshold
  }

  /** The groups `semantic_chunker` cuts a non-empty sentence list into. */
  function Groups(sentences: seq<string>, similarity: seq<real>, threshold: real): (g: seq<seq<string>>)
    requires sentences != [] && |sentences| <= |similarity| + 1
    ensures g != []
  {
    var n := |sentences|;
    if n == 1 then [sentences]
    else
      var g := Groups(sentences[..n - 1], similarity, threshold);
      if Boundary(similarity, threshold, n - 1) then g + [[sentences[n - 1]]]
      else g[..|g| - 1] + [g[|g| - 1] + [sentences[n - 1]]]
  }

  function JoinAll(groups: seq<seq<string>>): (r: seq<string>)
    ensures |r| == |groups|
    ensures forall t :: 0 <= t < |groups| ==> r[t] == Join(" ", groups[t])
  {
    seq(|groups|, t requires 0 <= t < |groups| => Join(" ", groups[t]))
  }

  /** The result of `semantic_chunker`: a single sentence, or none, comes
      back as it is. */
  function SemanticChunks(sentences: seq<string>, similarity: seq<real>, threshold: real): seq<string>
    requires |sentences| <= 1 || |similarity| == |sentences| - 1
  {
    if |sentences| <= 1 then sentences else JoinAll(Groups(sentences, similarity, threshold))
  }

  /** The defaults of `Chunker(embedder, chunk_size=500, overlap=100)`. */
  const DefaultChunkSize: int := 500
  const DefaultOverlap: int := 100
  /** The default `threshold` of `semantic_chunker`. */
  const DefaultThreshold: real := 0.75

  class Chunker {
    var chunkSize: int
    var overlap: int

    /** `Chunker(embedder, chunk_size, overlap)`; the embedder is not modelled. */
    constructor(chunkSize: int, overlap: int)
      ensures this.chunkSize == chunkSize && this.overlap == overlap
    {
      this.chunkSize := chunkSize;
      this.overlap := overlap;
    }

    /** `sentence_chunker`: a window of sentences grows until its joined text
        reaches `chunkSize`, is emitted, and keeps its last `overlap` sentences. */
    method SentenceChunker(sentences: seq<string>) returns (chunks: seq<string>)
      ensures chunks == SentenceChunks(sentences, chunkSize, overlap)
    {
      chunks := [];
      var current: seq<string> := [];
      for i := 0 to |sentences|
        invariant Scanned(sentences, chunkSize, overlap, i, current, chunks)
      {
        SentenceStep(sentences, chunkSize, overlap, i, current, chunks);
        current := current + [sentences[i]];
        if |Join(" ", current)| >= chunkSize {
          chunks := chunks + [Join(" ", current)];
          current := PyTakeLast(current, overlap);
        }
      }
      SentenceFlush(sentences, chunkSize, overlap, current, chunks);
      if current != [] {
        chunks := chunks + [Join(" ", current)];
      }
    }

    /** `semantic_chunker`: a new chunk starts wherever the similarity of two
        neighbouring sentences falls below `threshold`. */
    method SemanticChunker(sentences: seq<string>, similarity: seq<real>, threshold: real)
      returns (chunks: seq<string>)
      requires |sentences| <= 1 || |similarity| == |sentences| - 1
      ensures chunks == SemanticChunks(sentences, similarity, threshold)
    {
      if |sentences| <= 1 {
        return sentences;
      }
      chunks := [];
      var current := [sentences[0]];
      assert sentences[..1] == [sentences[0]];
      for i := 1 to |sentences|
        invariant SemanticScanned(sentences, similarity, threshold, i, chunks, current)
      {
        SemanticStep(sentences, similarity, threshold, i, chunks, current);
        if similarity[i - 1] < threshold {
          chunks := chunks + [Join(" ", current)];
          current := [];
        }
        current := current + [sentences[i]];
      }
      SemanticFinish(sentences, similarity, threshold, chunks, current);
      if current != [] {
        chunks := chunks + [Join(" ", current)];
      }
    }
  }

  /** The state of `semantic_chunker`'s loop after the first `i` sentences:
      the chunks of every group but the last, and the last group. */
  ghost predicate SemanticScanned(sentences: seq<string>, similarity: seq<real>, threshold: real, i: nat,
                                  chunks: seq<string>, current: seq<string>)
  {
    && 1 <= i <= |sentences| <= |similarity| + 1
    && var h := Groups(sentences[..i], similarity, threshold);
       chunks == JoinAll(h[..|h| - 1]) && current == h[|h| - 1]
  }

  /** One turn of `semantic_chunker`'s loop: at a boundary the current group
      is emitted and sentence `i` starts the next one; otherwise sentence `i`
      joins the current group. */
  lemma SemanticStep(sentences: seq<string>, similarity: seq<real>, threshold: real, i: nat,
                     chunks: seq<string>, current: seq<string>)
    requires SemanticScanned(sentences, similarity, threshold, i, chunks, current) && i < |sentences|
    ensures Boundary(similarity, threshold, i) ==>
      SemanticScanned(sentences, similarity, threshold, i + 1, chunks + [Join(" ", current)], [] + [sentences[i]])
    ensures !Boundary(similarity, threshold, i) ==>
      SemanticScanned(sentences, similarity, threshold, i + 1, chunks, current + [sentences[i]])
  {
    assert [] + [sentences[i]] == [sentences[i]];
    var h := Groups(sentences[..i], similarity, threshold);
    var init := h[..|h| - 1];
    assert h == init + [current];
    if Boundary(similarity, threshold, i) {
      GroupsCut(sentences, similarity, threshold, i);
      JoinAllSnoc(init, current);
      assert (h + [[sentences[i]]])[..|h|] == h;
    } else {
      GroupsGrow(sentences, similarity, threshold, i);
      assert (init + [current + [sentences[i]]])[..|init|] == init;
    }
  }

  /** At a boundary, sentence `i` starts a group of its own. */
  lemma GroupsCut(sentences: seq<string>, similarity: seq<real>, threshold: real, i: nat)
    requires 1 <= i < |sentences| <= |similarity| + 1 && Boundary(similarity, threshold, i)
    ensures Groups(sentences[..i + 1], similarity, threshold)
         == Groups(sentences[..i], similarity, threshold) + [[sentences[i]]]
  {
    assert sentences[..i + 1][..i] == sentences[..i];
    GroupsSnoc(sentences[..i + 1], similarity, threshold);
  }

  /** Elsewhere, sentence `i` joins the last group. */
  lemma GroupsGrow(sentences: seq<string>, similarity: seq<real>, threshold: real, i: nat)
    requires 1 <= i < |sentences| <= |similarity| + 1 && !Boundary(similarity, threshold, i)
    ensures var h := Groups(sentences[..i], similarity, threshold);
      Groups(sentences[..i + 1], similarity, threshold) == h[..|h| - 1] + [h[|h| - 1] + [sentences[i]]]
  {
    assert sentences[..i + 1][..i] == sentences[..i];
    GroupsSnoc(sentences[..i + 1], similarity, threshold);
  }

  /** After the loop the current group is the last one, never empty, and
      emitting it completes the chunks. */
  lemma SemanticFinish(sentences: seq<string>, similarity: seq<real>, threshold: real,
                       chunks: seq<string>, current: seq<string>)
    requires |sentences| > 1 && |similarity| == |sentences| - 1
    requires SemanticScanned(sentences, similarity, threshold, |sentences|, chunks, current)
    ensures current != [] && chunks + [Join(" ", current)] == SemanticChunks(sentences, similarity, threshold)
  {
    assert sentences[..|sentences|] == sentences;
    var h := Groups(sentences, similarity, threshold);
    GroupsPartition(sentences, similarity, threshold);
    assert h == h[..|h| - 1] + [current];
    JoinAllSnoc(h[..|h| - 1], current);
  }

  /** One more group adds its chunk at the end. */
  lemma JoinAllSnoc(groups: seq<seq<string>>, last: seq<string>)
    ensures JoinAll(groups + [last]) == JoinAll(groups) + [Join(" ", last)]
  {
  }

  /** The state of `sentence_chunker`'s loop after the first `i` sentences:
      the chunks emitted so far and the window being built. */
  ghost predicate Scanned(sentences: seq<string>, chunkSize: int, overlap: int, i: nat,
                          current: seq<string>, chunks: seq<string>)
  {
    var w := Windows(i, Emits(sentences, chunkSize), overlap);
    && i <= |sentences|
    && RunsWithin(w.runs, |sentences|)
    && current == sentences[w.lo..i] && chunks == JoinRuns(sentences, w.runs)
  }

  /** One pass of the loop keeps the state. */
  lemma SentenceStep(sentences: seq<string>, chunkSize: int, overlap: int, i: nat,
                     current: seq<string>, chunks: seq<string>)
    requires i < |sentences| && Scanned(sentences, chunkSize, overlap, i, current, chunks)
    ensures var grown := current + [sentences[i]];
      if |Join(" ", grown)| >= chunkSize
      then Scanned(sentences, chunkSize, overlap, i + 1, PyTakeLast(grown, overlap), chunks + [Join(" ", grown)])
      else Scanned(sentences, chunkSize, overlap, i + 1, grown, chunks)
  {
    var w := Windows(i, Emits(sentences, chunkSize), overlap);
    WindowsStep(sentences, chunkSize, overlap, i);
    assert current + [sentences[i]] == sentences[w.lo..i + 1];
    if |Join(" ", current + [sentences[i]])| >= chunkSize {
      SentenceEmit(sentences, chunkSize, overlap, i);
    }
  }

  /** An emission appends the window's chunk and keeps its last sentences. */
  lemma SentenceEmit(sentences: seq<string>, chunkSize: int, overlap: int, i: nat)
    requires i < |sentences| && RunsWithin(Windows(i, Emits(sentences, chunkSize), overlap).runs, |sentences|)
    requires var w := Windows(i, Emits(sentences, chunkSize), overlap);
      |Join(" ", sentences[w.lo..i + 1])| >= chunkSize
    ensures var w := Windows(i, Emits(sentences, chunkSize), overlap);
      var w' := Windows(i + 1, Emits(sentences, chunkSize), overlap);
      && RunsWithin(w'.runs, |sentences|)
      && PyTakeLast(sentences[w.lo..i + 1], overlap) == sentences[w'.lo..i + 1]
      && JoinRuns(sentences, w'.runs) == JoinRuns(sentences, w.runs) + [Join(" ", sentences[w.lo..i + 1])]
  {
    var w := Windows(i, Emits(sentences, chunkSize), overlap);
    var run := Run(w.lo, i + 1);
    WindowsStep(sentences, chunkSize, overlap, i);
    JoinRunsAppend(sentences, w.runs, run);
    KeptWindow(sentences, run, overlap);
  }

  /** After the loop, flushing the last window gives the chunks. */
  lemma SentenceFlush(sentences: seq<string>, chunkSize: int, overlap: int, current: seq<string>, chunks: seq<string>)
    requires Scanned(sentences, chunkSize, overlap, |sentences|, current, chunks)
    ensures (if current != [] then chunks + [Join(" ", current)] else chunks) == SentenceChunks(sentences, chunkSize, overlap)
  {
    var w := Windows(|sentences|, Emits(sentences, chunkSize), overlap);
    if current != [] {
      JoinRunsAppend(sentences, w.runs, Run(w.lo, |sentences|));
    }
  }

  lemma WindowsStep(sentences: seq<string>, chunkSize: int, overlap: int, i: nat)
    requires i < |sentences|
    ensures var w := Windows(i, Emits(sentences, chunkSize), overlap);
      var run := Run(w.lo, i + 1);
      Windows(i + 1, Emits(sentences, chunkSize), overlap)
        == if |Join(" ", sentences[w.lo..i + 1])| >= chunkSize then Window(w.runs + [run], NextStart(run, overlap))
           else w
  {
  }

  lemma JoinRunsAppend(sentences: seq<string>, runs: seq<Run>, run: Run)
    requires RunsWithin(runs, |sentences|) && run.start < run.end <= |sentences|
    ensures RunsWithin(runs + [run], |sentences|)
    ensures JoinRuns(sentences, runs + [run]) == JoinRuns(sentences, runs) + [Chunk(sentences, run)]
  {
    assert RunsWithin(runs + [run], |sentences|);
  }

  /** `window[-overlap:]` on the window of a run. */
  lemma KeptWindow(sentences: seq<string>, run: Run, overlap: int)
    requires run.start <= run.end <= |sentences|
    ensures PyTakeLast(sentences[run.start..run.end], overlap) == sentences[NextStart(run, overlap)..run.end]
  {
  }

  // ----- properties of the sliding window -----

  /** The sentences the window keeps after an emission: all of them when
      `overlap` is 0 or at least the window's length, otherwise the last
      `overlap`. */
  lemma KeptSentences(r: Run, overlap: int)
    requires r.start < r.end
    ensures overlap == 0 || overlap >= r.end - r.start ==> NextStart(r, overlap) == r.start
    ensures 0 < overlap < r.end - r.start ==> r.end - NextStart(r, overlap) == overlap
  {
  }

  /** `emit` fails on every window starting at `start` and ending after
      `from` and before `to`. */
  predicate Quiet(emit: Run -> bool, start: nat, from: nat, to: nat) {
    forall b :: start <= b && from < b < to ==> !Passes(emit, start, b)
  }

  /** The outcome of the test on the window `sentences[start..end]`. */
  predicate Passes(emit: Run -> bool, start: nat, end: nat) {
    emit(Run(start, end))
  }

  /** Where the run before run `t` ends: the windows of run `t` were checked
      from there on. */
  function PrevEnd(runs: seq<Run>, t: nat): nat
    requires t <= |runs|
  {
    if t == 0 then 0 else runs[t - 1].end
  }

  /** The first run starts at the first sentence, each next one starts where
      the window was cut back to and ends later. */
  lemma {:induction false} WindowsLinks(i: nat, emit: Run -> bool, overlap: int)
    ensures var w := Windows(i, emit, overlap);
      && (w.runs == [] ==> w.lo == 0)
      && (w.runs != [] ==> w.runs[0].start == 0 && w.lo == NextStart(w.runs[|w.runs| - 1], overlap))
      && (forall t :: 0 <= t < |w.runs| - 1 ==>
            w.runs[t + 1].start == NextStart(w.runs[t], overlap) && w.runs[t].end < w.runs[t + 1].end)
  {
    if i > 0 {
      WindowsLinks(i - 1, emit, overlap);
      WindowsWithin(i - 1, emit, overlap);
      var w := Windows(i - 1, emit, overlap);
      var run := Run(w.lo, i);
      if emit(run) {
        var runs := w.runs + [run];
        forall t | 0 <= t < |runs| - 1
          ensures runs[t + 1].start == NextStart(runs[t], overlap) && runs[t].end < runs[t + 1].end
        {
          if t == |w.runs| - 1 {
            assert runs[t] == w.runs[t] && runs[t + 1] == run;
          }
        }
      }
    }
  }

  /** Every emitted run passed the emission test. */
  lemma {:induction false} WindowsEmit(i: nat, emit: Run -> bool, overlap: int)
    ensures forall run <- Windows(i, emit, overlap).runs :: emit(run)
  {
    if i > 0 {
      WindowsEmit(i - 1, emit, overlap);
      var w := Windows(i - 1, emit, overlap);
      var run := Run(w.lo, i);
      if emit(run) {
        assert Windows(i, emit, overlap).runs == w.runs + [run];
      }
    }
  }

  /** The current window has passed no test since the last emission. */
  lemma {:induction false} WindowsPending(i: nat, emit: Run -> bool, overlap: int)
    ensures var w := Windows(i, emit, overlap);
      Quiet(emit, w.lo, PrevEnd(w.runs, |w.runs|), i + 1)
  {
    if i > 0 {
      WindowsPending(i - 1, emit, overlap);
      var w := Windows(i - 1, emit, overlap);
      var run := Run(w.lo, i);
      if emit(run) {
        var runs := w.runs + [run];
        assert Windows(i, emit, overlap) == Window(runs, NextStart(run, overlap));
        assert PrevEnd(runs, |runs|) == i;
      } else {
        assert Windows(i, emit, overlap) == w;
        QuietExtend(emit, w.lo, PrevEnd(w.runs, |w.runs|), i);
      }
    }
  }

  /** Each run was emitted at the first test its window passed. */
  predicate AllQuiet(emit: Run -> bool, runs: seq<Run>) {
    forall t :: 0 <= t < |runs| ==> Quiet(emit, runs[t].start, PrevEnd(runs, t), runs[t].end)
  }

  lemma AllQuietAppend(emit: Run -> bool, runs: seq<Run>, run: Run)
    requires AllQuiet(emit, runs) && Quiet(emit, run.start, PrevEnd(runs, |runs|), run.end)
    ensures AllQuiet(emit, runs + [run])
  {
    var r := runs + [run];
    forall t | 0 <= t < |r|
      ensures Quiet(emit, r[t].start, PrevEnd(r, t), r[t].end)
    {
      if t < |runs| {
        assert r[t] == runs[t] && PrevEnd(r, t) == PrevEnd(runs, t);
      }
    }
  }

  /** Every run is emitted at the first test it passes. */
  lemma {:induction false} WindowsEarliest(i: nat, emit: Run -> bool, overlap: int)
    ensures AllQuiet(emit, Windows(i, emit, overlap).runs)
  {
    if i > 0 {
      WindowsEarliest(i - 1, emit, overlap);
      var w := Windows(i - 1, emit, overlap);
      var run := Run(w.lo, i);
      if emit(run) {
        assert Windows(i, emit, overlap).runs == w.runs + [run];
        WindowsPending(i - 1, emit, overlap);
        AllQuietAppend(emit, w.runs, run);
      } else {
        assert Windows(i, emit, overlap).runs == w.runs;
      }
    }
  }

  lemma QuietExtend(emit: Run -> bool, start: nat, from: nat, to: nat)
    requires Quiet(emit, start, from, to) && !Passes(emit, start, to)
    ensures Quiet(emit, start, from, to + 1)
  {
  }

  /** The runs, the final window included: none over no sentences;
      otherwise the first starts at the first sentence and the last ends with
      the last sentence. */
  lemma RangesShape(n: nat, emit: Run -> bool, overlap: int)
    ensures var r := Ranges(n, emit, overlap);
      && (n == 0 <==> r == [])
      && (r != [] ==> r[0].start == 0 && r[|r| - 1].end == n)
  {
    WindowsLinks(n, emit, overlap);
    WindowsWithin(n, emit, overlap);
    var w := Windows(n, emit, overlap);
    var r := Ranges(n, emit, overlap);
    if w.lo < n {
      assert r == w.runs + [Run(w.lo, n)];
      assert r[0].start == 0;
    } else {
      assert r == w.runs;
      if w.runs != [] {
        assert w.runs[|w.runs| - 1].end <= n;
      }
    }
  }

  /** Each run starts where the window was cut back to after the run before,
      and ends no earlier: the final window can end where the last emitted run does. */
  lemma RangesLinks(n: nat, emit: Run -> bool, overlap: int)
    ensures var r := Ranges(n, emit, overlap);
      forall t :: 0 <= t < |r| - 1 ==> r[t + 1].start == NextStart(r[t], overlap) && r[t].end <= r[t + 1].end
  {
    WindowsLinks(n, emit, overlap);
    WindowsWithin(n, emit, overlap);
    var w := Windows(n, emit, overlap);
    var r := Ranges(n, emit, overlap);
    if w.lo < n {
      assert r == w.runs + [Run(w.lo, n)];
      forall t | 0 <= t < |r| - 1
        ensures r[t + 1].start == NextStart(r[t], overlap) && r[t].end <= r[t + 1].end
      {
        assert r[t] == w.runs[t];
        if t < |w.runs| - 1 {
          assert r[t + 1] == w.runs[t + 1];
        }
      }
    } else {
      assert r == w.runs;
    }
  }

  /** Every run but the last passed the emission test. */
  lemma RangesEmit(n: nat, emit: Run -> bool, overlap: int)
    ensures var r := Ranges(n, emit, overlap);
      forall t :: 0 <= t < |r| - 1 ==> emit(r[t])
  {
    WindowsEmit(n, emit, overlap);
    var w := Windows(n, emit, overlap);
    var r := Ranges(n, emit, overlap);
    forall t | 0 <= t < |r| - 1
      ensures emit(r[t])
    {
      assert r[t] == w.runs[t] && r[t] in w.runs;
    }
  }

  /** Every run was emitted at the first test its window passed, or is the
      final window, which passed none. */
  lemma RangesEarliest(n: nat, emit: Run -> bool, overlap: int)
    ensures AllQuiet(emit, Ranges(n, emit, overlap))
  {
    WindowsEarliest(n, emit, overlap);
    var w := Windows(n, emit, overlap);
    if w.lo < n {
      WindowsPending(n, emit, overlap);
      AllQuietAppend(emit, w.runs, Run(w.lo, n));
    }
  }

  /** `sentence_chunker` in full: one chunk per run; no sentences, no
      chunks; every chunk but the last has reached `chunkSize`, and no
      chunk could have been emitted with fewer sentences. */
  lemma SentenceChunksRule(sentences: seq<string>, chunkSize: int, overlap: int)
    ensures var r := Ranges(|sentences|, Emits(sentences, chunkSize), overlap);
      && |SentenceChunks(sentences, chunkSize, overlap)| == |r|
      && (sentences == [] <==> SentenceChunks(sentences, chunkSize, overlap) == [])
      && (forall t :: 0 <= t < |r| - 1 ==> |Chunk(sentences, r[t])| >= chunkSize)
      && (forall t, b :: 0 <= t < |r| && r[t].start <= b && PrevEnd(r, t) < b < r[t].end ==>
            |Chunk(sentences, Run(r[t].start, b))| < chunkSize)
  {
    var emit := Emits(sentences, chunkSize);
    RangesShape(|sentences|, emit, overlap);
    RangesEmit(|sentences|, emit, overlap);
    RangesEarliest(|sentences|, emit, overlap);
    var r := Ranges(|sentences|, emit, overlap);
    forall t, b | 0 <= t < |r| && r[t].start <= b && PrevEnd(r, t) < b < r[t].end
      ensures |Chunk(sentences, Run(r[t].start, b))| < chunkSize
    {
      assert Quiet(emit, r[t].start, PrevEnd(r, t), r[t].end);
      assert !Passes(emit, r[t].start, b);
    }
  }

  /** Every sentence is in some chunk. */
  lemma SentenceCovered(n: nat, emit: Run -> bool, overlap: int, j: nat) returns (t: nat)
    requires j < n
    ensures var r := Ranges(n, emit, overlap);
      t < |r| && r[t].start <= j < r[t].end
  {
    RangesShape(n, emit, overlap);
    RangesLinks(n, emit, overlap);
    var r := Ranges(n, emit, overlap);
    t := 0;
    while r[t].end <= j
      invariant t < |r| && r[t].start <= j
      decreases |r| - t
    {
      assert NextStart(r[t], overlap) <= r[t].end;
      t := t + 1;
    }
  }

  /** When the last sentence triggers an emission and the window keeps any
      sentence, the final window is flushed as well, so the last two chunks
      end with the same sentence; with an `overlap` of at least the window's
      length every later sentence re-emits the whole window. */
  lemma RepeatedTail()
    ensures SentenceChunks(["a", "b"], 1, 100) == ["a", "a b", "a b"]
  {
    var s: seq<string> := ["a", "b"];
    var emit := Emits(s, 1);
    assert Chunk(s, Run(0, 1)) == "a";
    assert Chunk(s, Run(0, 2)) == "a b" by {
      assert s[0..2] == ["a", "b"];
    }
    assert Windows(1, emit, 100) == Window([Run(0, 1)], 0);
    assert Windows(2, emit, 100) == Window([Run(0, 1), Run(0, 2)], 0);
  }

  // ----- properties of the semantic chunker -----

  function Flatten(groups: seq<seq<string>>): seq<string> {
    if groups == [] then [] else Flatten(groups[..|groups| - 1]) + groups[|groups| - 1]
  }

  /** How many boundaries there are among the first `n` sentences. */
  function Boundaries(similarity: seq<real>, threshold: real, n: nat): nat
    requires n <= |similarity| + 1
  {
    if n <= 1 then 0
    else Boundaries(similarity, threshold, n - 1) + if Boundary(similarity, threshold, n - 1) then 1 else 0
  }

  /** The groups partition the sentences in order, none is empty, and there
      is one more group than there are boundaries. */
  lemma GroupsPartition(sentences: seq<string>, similarity: seq<real>, threshold: real)
    requires sentences != [] && |sentences| <= |similarity| + 1
    ensures var g := Groups(sentences, similarity, threshold);
      && Flatten(g) == sentences
      && (forall t :: 0 <= t < |g| ==> g[t] != [])
      && |g| == 1 + Boundaries(similarity, threshold, |sentences|)
  {
    GroupsFlatten(sentences, similarity, threshold);
    GroupsNonEmpty(sentences, similarity, threshold);
    GroupsCount(sentences, similarity, threshold);
  }

  /** The last group grows, or a new one starts. */
  lemma GroupsSnoc(sentences: seq<string>, similarity: seq<real>, threshold: real)
    requires |sentences| >= 2 && |sentences| <= |similarity| + 1
    ensures var n := |sentences|;
      var g, h := Groups(sentences, similarity, threshold), Groups(sentences[..n - 1], similarity, threshold);
      if Boundary(similarity, threshold, n - 1) then g == h + [[sentences[n - 1]]]
      else g == h[..|h| - 1] + [h[|h| - 1] + [sentences[n - 1]]]
  {
  }

  lemma {:induction false} GroupsFlatten(sentences: seq<string>, similarity: seq<real>, threshold: real)
    requires sentences != [] && |sentences| <= |similarity| + 1
    ensures Flatten(Groups(sentences, similarity, threshold)) == sentences
  {
    var n := |sentences|;
    if n == 1 {
      FlattenSnoc([], sentences);
      assert [] + [sentences] == [sentences];
    } else {
      var init, x := sentences[..n - 1], sentences[n - 1];
      var h := Groups(init, similarity, threshold);
      GroupsFlatten(init, similarity, threshold);
      GroupsSnoc(sentences, similarity, threshold);
      assert sentences == init + [x];
      if Boundary(similarity, threshold, n - 1) {
        FlattenSnoc(h, [x]);
      } else {
        var front, last := h[..|h| - 1], h[|h| - 1];
        assert h == front + [last];
        FlattenGrow(front, last, x);
      }
    }
  }

  /** Growing the last group grows the flattened list by the same element. */
  lemma FlattenGrow(front: seq<seq<string>>, last: seq<string>, x: string)
    ensures Flatten(front + [last + [x]]) == Flatten(front + [last]) + [x]
  {
    FlattenSnoc(front, last);
    FlattenSnoc(front, last + [x]);
  }

  lemma {:induction false} GroupsNonEmpty(sentences: seq<string>, similarity: seq<real>, threshold: real)
    requires sentences != [] && |sentences| <= |similarity| + 1
    ensures var g := Groups(sentences, similarity, threshold);
      forall t :: 0 <= t < |g| ==> g[t] != []
  {
    var n := |sentences|;
    if n > 1 {
      GroupsNonEmpty(sentences[..n - 1], similarity, threshold);
      GroupsSnoc(sentences, similarity, threshold);
    }
  }

  lemma {:induction false} GroupsCount(sentences: seq<string>, similarity: seq<real>, threshold: real)
    requires sentences != [] && |sentences| <= |similarity| + 1
    ensures |Groups(sentences, similarity, threshold)| == 1 + Boundaries(similarity, threshold, |sentences|)
  {
    var n := |sentences|;
    if n > 1 {
      GroupsCount(sentences[..n - 1], similarity, threshold);
      GroupsSnoc(sentences, similarity, threshold);
    }
  }

  lemma FlattenSnoc(groups: seq<seq<string>>, last: seq<string>)
    ensures Flatten(groups + [last]) == Flatten(groups) + last
  {
    assert (groups + [last])[..|groups|] == groups;
  }

  /** Where each group starts in the concatenation of the groups. */
  function Starts(groups: seq<seq<string>>): (r: seq<nat>)
    ensures |r| == |groups|
  {
    if groups == [] then [] else Starts(groups[..|groups| - 1]) + [|Flatten(groups[..|groups| - 1])|]
  }

  lemma StartsSnoc(groups: seq<seq<string>>, last: seq<string>)
    ensures Starts(groups + [last]) == Starts(groups) + [|Flatten(groups)|]
  {
    assert (groups + [last])[..|groups|] == groups;
  }

  /** The first group starts at 0. */
  lemma {:induction false} StartsFirst(groups: seq<seq<string>>)
    requires groups != []
    ensures Starts(groups)[0] == 0
  {
    if |groups| > 1 {
      var h := groups[..|groups| - 1];
      StartsFirst(h);
      assert Starts(groups)[0] == Starts(h)[0];
    }
  }

  /** The last group ends with the concatenation. */
  lemma StartsLast(groups: seq<seq<string>>)
    requires groups != []
    ensures Starts(groups)[|groups| - 1] + |groups[|groups| - 1]| == |Flatten(groups)|
  {
    var h, last := groups[..|groups| - 1], groups[|groups| - 1];
    assert groups == h + [last];
    FlattenSnoc(h, last);
  }

  /** Each group but the last ends where the next one starts. */
  lemma {:induction false} StartsNext(groups: seq<seq<string>>, t: nat)
    requires t < |groups| - 1
    ensures Starts(groups)[t + 1] == Starts(groups)[t] + |groups[t]|
  {
    var h, last := groups[..|groups| - 1], groups[|groups| - 1];
    assert groups == h + [last];
    StartsSnoc(h, last);
    assert groups[t] == h[t];
    if t + 1 < |h| {
      StartsNext(h, t);
    } else {
      StartsLast(h);
    }
  }

  /** Group `t` is the piece of the concatenation from its start on. */
  lemma {:induction false} FlattenPiece(groups: seq<seq<string>>, t: nat)
    requires t < |groups|
    ensures var s, f := Starts(groups), Flatten(groups);
      s[t] + |groups[t]| <= |f| && f[s[t]..s[t] + |groups[t]|] == groups[t]
  {
    var h, last := groups[..|groups| - 1], groups[|groups| - 1];
    assert groups == h + [last];
    StartsSnoc(h, last);
    FlattenSnoc(h, last);
    var f := Flatten(groups);
    assert f == Flatten(h) + last;
    if t < |h| {
      FlattenPiece(h, t);
      var lo := Starts(h)[t];
      assert groups[t] == h[t];
      assert f[lo..lo + |h[t]|] == Flatten(h)[lo..lo + |h[t]|];
    } else {
      assert f[|Flatten(h)|..|Flatten(h)| + |last|] == last;
    }
  }

  /** Where `semantic_chunker` starts a chunk among the first `n` sentences:
      at the first sentence, and at each boundary, in order. */
  function Cuts(similarity: seq<real>, threshold: real, n: nat): (c: seq<nat>)
    requires 1 <= n <= |similarity| + 1
    ensures c != [] && c[0] == 0
  {
    if n == 1 then [0]
    else Cuts(similarity, threshold, n - 1) + if Boundary(similarity, threshold, n - 1) then [n - 1] else []
  }

  /** The cuts are 0 and exactly the sentences after which the similarity
      falls below the threshold. */
  lemma {:induction false} CutsMembers(similarity: seq<real>, threshold: real, n: nat)
    requires 1 <= n <= |similarity| + 1
    ensures var c := Cuts(similarity, threshold, n);
      && (forall x :: x in c ==> x < n)
      && (forall i :: 0 < i < n ==> (i in c <==> Boundary(similarity, threshold, i)))
  {
    if n > 1 {
      CutsMembers(similarity, threshold, n - 1);
    }
  }

  /** The groups start exactly at the cuts. */
  lemma {:induction false} GroupsStarts(sentences: seq<string>, similarity: seq<real>, threshold: real)
    requires sentences != [] && |sentences| <= |similarity| + 1
    ensures Starts(Groups(sentences, similarity, threshold)) == Cuts(similarity, threshold, |sentences|)
  {
    var n := |sentences|;
    if n > 1 {
      var h := Groups(sentences[..n - 1], similarity, threshold);
      GroupsStarts(sentences[..n - 1], similarity, threshold);
      GroupsSnoc(sentences, similarity, threshold);
      GroupsFlatten(sentences[..n - 1], similarity, threshold);
      var g := Groups(sentences, similarity, threshold);
      if Boundary(similarity, threshold, n - 1) {
        assert g[..|g| - 1] == h;
      } else {
        var front := h[..|h| - 1];
        assert g[..|g| - 1] == front && h == front + [h[|h| - 1]];
        assert h[..|h| - 1] == front;
      }
    }
  }

  /** Where group `t` of `groups` ends: where the next one starts, or at `n`. */
  function GroupEnd(groups: seq<seq<string>>, t: nat, n: nat): nat
    requires t < |groups|
  {
    if t + 1 < |groups| then Starts(groups)[t + 1] else n
  }

  /** The groups of `semantic_chunker`: the first starts at the first
      sentence, group `t` holds the sentences from its start to where the
      next one starts (the last to the end), and a sentence after the first
      starts a group exactly when its similarity to the sentence before falls
      below the threshold. */
  lemma GroupsCutAt(sentences: seq<string>, similarity: seq<real>, threshold: real)
    requires sentences != [] && |sentences| <= |similarity| + 1
    ensures var g := Groups(sentences, similarity, threshold);
      var s, n := Starts(g), |sentences|;
      && s[0] == 0
      && (forall t :: 0 <= t < |g| ==> s[t] < GroupEnd(g, t, n) <= n && g[t] == sentences[s[t]..GroupEnd(g, t, n)])
      && (forall i :: 0 < i < n ==> (i in s <==> Boundary(similarity, threshold, i)))
  {
    var g := Groups(sentences, similarity, threshold);
    var s, n := Starts(g), |sentences|;
    GroupsFlatten(sentences, similarity, threshold);
    GroupsNonEmpty(sentences, similarity, threshold);
    StartsFirst(g);
    StartsLast(g);
    forall t | 0 <= t < |g|
      ensures s[t] < GroupEnd(g, t, n) <= n && g[t] == sentences[s[t]..GroupEnd(g, t, n)]
    {
      FlattenPiece(g, t);
      if t + 1 < |g| {
        StartsNext(g, t);
      }
    }
    GroupsStarts(sentences, similarity, threshold);
    CutsMembers(similarity, threshold, n);
  }

  /** `semantic_chunker`: at most one sentence comes back unchanged; more
      give one chunk per group, one more than there are boundaries, each
      joining the sentences from one cut to the next, and the cuts fall
      exactly where the similarity drops below the threshold. */
  lemma SemanticChunksRule(sentences: seq<string>, similarity: seq<real>, threshold: real)
    requires |sentences| <= 1 || |similarity| == |sentences| - 1
    ensures |sentences| <= 1 ==> SemanticChunks(sentences, similarity, threshold) == sentences
    ensures |sentences| > 1 ==>
      var r, s := SemanticChunks(sentences, similarity, threshold), Starts(Groups(sentences, similarity, threshold));
      && |r| == |s| == 1 + Boundaries(similarity, threshold, |sentences|)
      && s[0] == 0
      && (forall i :: 0 < i < |sentences| ==> (i in s <==> similarity[i - 1] < threshold))
      && (forall t :: 0 <= t < |r| ==>
            var end := GroupEnd(Groups(sentences, similarity, threshold), t, |sentences|);
            s[t] < end <= |sentences| && r[t] == Join(" ", sentences[s[t]..end]))
  {
    if |sentences| > 1 {
      GroupsPartition(sentences, similarity, threshold);
      GroupsCutAt(sentences, similarity, threshold);
    }
  }
}
