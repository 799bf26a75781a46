/** The answer-feedback log of backend/feedback/feedback_store.py: records
    appended to a JSON-lines file, read back in order, and summarised.

    The file is modelled as its sequence of lines (a line is a record or
    blank); JSON encoding, the clock and `uuid4` are not modelled: the
    timestamp and the uuid's hex digits are parameters. */
module FeedbackStore {
  import opened Wrappers
  import opened Text

  /** The dictionary `save_feedback` writes. */
  datatype Record = Record(
    id: string,
    timestamp: string,
    question: string,
    answer: string,
    rating: int,
    wasHelpful: bool,
    comment: Option<string>,
    storeId: Option<string>,
    sessionId: Option<string>)

  /** A line of feedback.jsonl: one record, or nothing but whitespace. */
  datatype Line = RecordLine(record: Record) | BlankLine

  /** The dictionary of `get_feedback_stats`; `ratingDistribution` is absent
      when there are no records. The rounding of the two averages is not
      modelled. */
  datatype Stats = Stats(
    totalResponses: nat,
    averageRating: real,
    helpfulPercentage: real,
    totalComments: nat,
    ratingDistribution: Option<map<int, nat>>)

  /** How many characters of the answer a record keeps. */
  const AnswerLimit: nat := 500
  /** How many hex digits of the uuid a feedback id keeps. */
  const IdDigits: nat := 12

  // ----- specification -----

  /** `get_all_feedback`: the records of the file, in file order. */
  function Records(lines: seq<Line>): seq<Record> {
    if lines == [] then []
    else
      var init, last := lines[..|lines| - 1], lines[|lines| - 1];
      Records(init) + (if last.RecordLine? then [last.record] else [])
  }

  /** `_generate_id`: 'fb_' and the first twelve hex digits of the uuid. */
  function FeedbackId(uuidHex: string): (id: string)
    requires |uuidHex| == 32 && forall i :: 0 <= i < |uuidHex| ==> IsLowerHex(uuidHex[i])
    ensures |id| == 3 + IdDigits && id[..3] == "fb_"
    ensures forall i :: 3 <= i < |id| ==> IsLowerHex(id[i])
  {
    "fb_" + uuidHex[..IdDigits]
  }

  function SumRatings(records: seq<Record>): int {
    if records == [] then 0 else SumRatings(records[..|records| - 1]) + records[|records| - 1].rating
  }

  /** How many records say the answer was helpful. */
  function HelpfulCount(records: seq<Record>): (n: nat)
    ensures n <= |records|
  {
    if records == [] then 0
    else HelpfulCount(records[..|records| - 1]) + (if records[|records| - 1].wasHelpful then 1 else 0)
  }

  /** Python's truth value of an optional comment: given and not empty. */
  predicate HasComment(r: Record) {
    r.comment.Some? && r.comment.value != ""
  }

  /** How many records carry a comment. */
  function CommentCount(records: seq<Record>): (n: nat)
    ensures n <= |records|
  {
    if records == [] then 0
    else CommentCount(records[..|records| - 1]) + (if HasComment(records[|records| - 1]) then 1 else 0)
  }

  /** How many records have rating `k`. */
  function RatingCount(records: seq<Record>, k: int): nat {
    if records == [] then 0
    else RatingCount(records[..|records| - 1], k) + (if records[|records| - 1].rating == k then 1 else 0)
  }

  /** `_get_rating_distribution`: the number of records with each rating from 1 to 5. */
  function Distribution(records: seq<Record>): map<int, nat> {
    map k | 1 <= k <= 5 :: RatingCount(records, k)
  }

  /** The stars of the distribution, and how many records are counted at all. */
  function InRange(records: seq<Record>): nat {
    if records == [] then 0
    else InRange(records[..|records| - 1]) + (if 1 <= records[|records| - 1].rating <= 5 then 1 else 0)
  }

  /** `get_feedback_stats` on the records read back. */
  function StatsOf(records: seq<Record>): Stats {
    if records == [] then Stats(0, 0.0, 0.0, 0, None)
    else
      var total := |records|;
      Stats(total, SumRatings(records) as real / total as real,
            HelpfulCount(records) as real / total as real * 100.0,
            CommentCount(records), Some(Distribution(records)))
  }

  // ----- the store -----

  class Store {
    /** The lines of feedback.jsonl. */
    var lines: seq<Line>

    /** `FeedbackStore(storage_path)` over a file that already holds `existing`. */
    constructor(existing: seq<Line>)
      ensures lines == existing
    {
      lines := existing;
    }

    /** `save_feedback`: one record appended to the file, and returned. */
    method SaveFeedback(question: string, answer: string, rating: int, wasHelpful: bool,
                        comment: Option<string>, storeId: Option<string>, sessionId: Option<string>,
                        uuidHex: string, now: string)
      returns (record: Record)
      requires |uuidHex| == 32 && forall i :: 0 <= i < |uuidHex| ==> IsLowerHex(uuidHex[i])
      modifies this
      ensures lines == old(lines) + [RecordLine(record)]
      ensures record == Record(FeedbackId(uuidHex), now, question, PyTake(answer, AnswerLimit), rating,
                               wasHelpful, comment, storeId, sessionId)
    {
      record := Record(FeedbackId(uuidHex), now, question, PyTake(answer, AnswerLimit), rating, wasHelpful,
                       comment, storeId, sessionId);
      lines := lines + [RecordLine(record)];
    }

    /** `get_all_feedback`: the loop over the file's lines that skips blank ones. */
    method GetAllFeedback() returns (feedback: seq<Record>)
      ensures feedback == Records(lines)
    {
      feedback := [];
      for i := 0 to |lines|
        invariant feedback == Records(lines[..i])
      {
        assert lines[..i + 1][..i] == lines[..i];
        if lines[i].RecordLine? {
          feedback := feedback + [lines[i].record];
        }
      }
      assert lines[..|lines|] == lines;
    }

    /** `get_feedback_stats`. */
    method GetFeedbackStats() returns (stats: Stats)
      ensures stats == StatsOf(Records(lines))
    {
      var all := GetAllFeedback();
      if all == [] {
        return Stats(0, 0.0, 0.0, 0, None);
      }
      var total := |all|;
      var distribution := RatingDistribution(all);
      stats := Stats(total, SumRatings(all) as real / total as real,
                     HelpfulCount(all) as real / total as real * 100.0, CommentCount(all), Some(distribution));
    }
  }

  /** `_get_rating_distribution`: the counting loop. */
  method RatingDistribution(feedback: seq<Record>) returns (distribution: map<int, nat>)
    ensures distribution == Distribution(feedback)
  {
    distribution := map[1 := 0, 2 := 0, 3 := 0, 4 := 0, 5 := 0];
    for i := 0 to |feedback|
      invariant distribution == Distribution(feedback[..i])
    {
      assert feedback[..i + 1][..i] == feedback[..i];
      var rating := feedback[i].rating;
      if rating in distribution {
        distribution := distribution[rating := distribution[rating] + 1];
      }
    }
    assert feedback[..|feedback|] == feedback;
  }

  // ----- properties -----

  /** Saving appends exactly one record after the ones already there. */
  lemma RecordsAppend(lines: seq<Line>, r: Record)
    ensures Records(lines + [RecordLine(r)]) == Records(lines) + [r]
  {
    assert (lines + [RecordLine(r)])[..|lines|] == lines;
  }

  /** Blank lines are skipped and every record line is read, in order. */
  lemma {:induction false} RecordsCount(lines: seq<Line>)
    ensures |Records(lines)| <= |lines|
    ensures forall r :: r in Records(lines) <==> RecordLine(r) in lines
  {
    if lines != [] {
      var init := lines[..|lines| - 1];
      RecordsCount(init);
      assert lines == init + [lines[|lines| - 1]];
    }
  }

  /** The stored answer is the first 500 characters of the answer. */
  lemma StoredAnswer(answer: string)
    ensures |PyTake(answer, AnswerLimit)| == if |answer| <= AnswerLimit then |answer| else AnswerLimit
    ensures PyTake(answer, AnswerLimit) == answer[..|PyTake(answer, AnswerLimit)|]
    ensures |answer| <= AnswerLimit ==> PyTake(answer, AnswerLimit) == answer
  {
  }

  /** No records, all-zero stats and no distribution; otherwise the total is
      the number of records, and the helpful and comment counts are at most
      that. */
  lemma StatsRule(records: seq<Record>)
    ensures records == [] ==> StatsOf(records) == Stats(0, 0.0, 0.0, 0, None)
    ensures records != [] ==>
      && StatsOf(records).totalResponses == |records|
      && StatsOf(records).totalComments <= |records|
      && 0.0 <= StatsOf(records).helpfulPercentage <= 100.0
      && StatsOf(records).ratingDistribution.Some?
  {
    if records != [] {
      var n := |records| as real;
      var h := HelpfulCount(records) as real;
      assert h / n <= 1.0 by {
        assert h / n * n == h;
      }
    }
  }

  /** The distribution has the keys 1 to 5 only, and its counts add up to the
      number of records rated 1 to 5; other ratings are ignored. */
  lemma {:induction false} DistributionRule(records: seq<Record>)
    ensures Distribution(records).Keys == {1, 2, 3, 4, 5}
    ensures RatingCount(records, 1) + RatingCount(records, 2) + RatingCount(records, 3)
          + RatingCount(records, 4) + RatingCount(records, 5) == InRange(records)
  {
    if records != [] {
      DistributionRule(records[..|records| - 1]);
    }
    assert forall k :: k in Distribution(records) <==> 1 <= k <= 5;
  }

  /** With every rating between 1 and 5 the average lies between 1 and 5 too. */
  lemma {:induction false} SumRatingsBounds(records: seq<Record>)
    requires forall i :: 0 <= i < |records| ==> 1 <= records[i].rating <= 5
    ensures |records| <= SumRatings(records) <= 5 * |records|
  {
    if records != [] {
      SumRatingsBounds(records[..|records| - 1]);
    }
  }

  lemma AverageInRange(records: seq<Record>)
    requires records != []
    requires forall i :: 0 <= i < |records| ==> 1 <= records[i].rating <= 5
    ensures 1.0 <= StatsOf(records).averageRating <= 5.0
  {
    SumRatingsBounds(records);
    QuotientBounds(SumRatings(records) as real, |records| as real, 1.0, 5.0);
  }

  /** A quotient lies between the bounds its numerator lies between, scaled by the divisor. */
  lemma QuotientBounds(s: real, n: real, lo: real, hi: real)
    requires n > 0.0 && lo * n <= s <= hi * n
    ensures lo <= s / n <= hi
  {
    var q := s / n;
    assert q * n == s;
  }
}
