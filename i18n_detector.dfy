/** The English/Spanish language detector of backend/i18n/detector.py: a
    score for each language from counts of indicator matches, and a
    threshold rule between them.

    The regular expressions are not modelled: what their `findall` calls
    count on the lowercased, stripped text is a parameter. Scores are exact
    reals. */
module I18nDetector {
  import opened Text

  datatype Language = English | Spanish {
    function Value(): string {
      match this
      case English => "en"
      case Spanish => "es"
    }
  }

  /** The four `len(findall(...))` counts of `detect`: Spanish characters,
      Spanish indicator words, English indicator words, and all words. */
  datatype Counts = Counts(spanishChars: nat, spanishMatches: nat, englishMatches: nat, totalWords: nat)

  /** The counts the detector's patterns find in a (normalised) text. */
  type Counter = string -> Counts

  /** `detect_with_metadata`'s dictionary, without the rounding of the confidence. */
  datatype Metadata = Metadata(language: string, languageName: string, confidence: real, textLength: nat,
                               detectionMethod: string)

  function Min(a: real, b: real): real {
    if a <= b then a else b
  }

  function Max(a: real, b: real): real {
    if a >= b then a else b
  }

  /** The Spanish-character term: 0.3 per character, at most 0.5. */
  function CharScore(spanishChars: nat): (r: real)
    ensures 0.0 <= r <= 0.5
    ensures r == 0.0 <==> spanishChars == 0
  {
    if spanishChars > 0 then Min(spanishChars as real * 0.3, 0.5) else 0.0
  }

  function SpanishScore(c: Counts): real
    requires c.totalWords > 0
  {
    CharScore(c.spanishChars) + (c.spanishMatches as real / c.totalWords as real) * 0.5
  }

  function EnglishScore(c: Counts): real
    requires c.totalWords > 0
  {
    (c.englishMatches as real / c.totalWords as real) * 0.5
  }

  /** The decision at the end of `detect`, for text with at least one word. */
  function Decide(c: Counts): (Language, real)
    requires c.totalWords > 0
  {
    var spanish, english := SpanishScore(c), EnglishScore(c);
    if spanish > english && spanish >= 0.3 then (Spanish, Min(spanish, 1.0))
    else (English, Min(Max(english, 0.7), 1.0))
  }

  /** `detect(text)`: empty or blank text, and text without a word, is
      English with full confidence. */
  function Detect(text: string, count: Counter): (r: (Language, real))
    ensures Strip(text) == "" ==> r == (English, 1.0)
    ensures count(Strip(Lower(text))).totalWords == 0 ==> r == (English, 1.0)
  {
    if text == "" || Strip(text) == "" then (English, 1.0)
    else
      var c := count(Strip(Lower(text)));
      if c.totalWords == 0 then (English, 1.0) else Decide(c)
  }

  /** `detect_language_code`. */
  function DetectLanguageCode(text: string, count: Counter): (r: string)
    ensures r == "en" || r == "es"
    ensures r == "es" <==> Detect(text, count).0 == Spanish
  {
    Detect(text, count).0.Value()
  }

  /** `detect_with_metadata`. */
  function DetectWithMetadata(text: string, count: Counter): (m: Metadata)
    ensures m.language == DetectLanguageCode(text, count)
    ensures m.languageName == (if m.language == "en" then "English" else "Spanish")
    ensures m.textLength == |text| && m.detectionMethod == "pattern_based"
  {
    var (language, confidence) := Detect(text, count);
    Metadata(language.Value(), if language == English then "English" else "Spanish", confidence, |text|,
             "pattern_based")
  }

  // ----- properties -----

  /** Spanish is chosen exactly when its score beats English's and reaches
      0.3; its confidence is then at least 0.3, and an English result always
      has a confidence between 0.7 and 1.0. */
  lemma DecideRule(c: Counts)
    requires c.totalWords > 0
    ensures Decide(c).0 == Spanish <==> SpanishScore(c) > EnglishScore(c) && SpanishScore(c) >= 0.3
    ensures Decide(c).0 == Spanish ==> 0.3 <= Decide(c).1 <= 1.0
    ensures Decide(c).0 == English ==> 0.7 <= Decide(c).1 <= 1.0
  {
  }

  /** Every detection has a confidence between 0.3 and 1.0. */
  lemma DetectConfidence(text: string, count: Counter)
    ensures 0.3 <= Detect(text, count).1 <= 1.0
    ensures Detect(text, count).0 == English ==> 0.7 <= Detect(text, count).1
  {
    var c := count(Strip(Lower(text)));
    if text != "" && Strip(text) != "" && c.totalWords > 0 {
      DecideRule(c);
    }
  }

  /** When the indicator counts do not exceed the word count, the Spanish
      score is at most 1.0, so its confidence is the score itself. */
  lemma SpanishScoreBounded(c: Counts)
    requires c.totalWords > 0 && c.spanishMatches <= c.totalWords
    ensures SpanishScore(c) <= 1.0
    ensures Decide(c).0 == Spanish ==> Decide(c).1 == SpanishScore(c)
  {
    var ratio := c.spanishMatches as real / c.totalWords as real;
    assert ratio <= 1.0 by {
      assert ratio * c.totalWords as real == c.spanishMatches as real;
    }
  }

  /** Without Spanish characters, Spanish needs more Spanish than English
      indicator matches, and Spanish matches for at least 60% of the words. */
  lemma NoSpanishCharacters(c: Counts)
    requires c.totalWords > 0 && c.spanishChars == 0
    ensures Decide(c).0 == Spanish <==>
      c.spanishMatches > c.englishMatches && 10 * c.spanishMatches >= 6 * c.totalWords
  {
    var n := c.totalWords as real;
    var s, e := c.spanishMatches as real, c.englishMatches as real;
    assert SpanishScore(c) == s / n * 0.5 && EnglishScore(c) == e / n * 0.5;
    HalfRatioOrder(s, e, n);
  }

  /** Comparing half ratios over the same positive `n` is comparing the
      numerators; half a ratio reaches 0.3 when the numerator reaches 0.6 n. */
  lemma HalfRatioOrder(x: real, y: real, n: real)
    requires n > 0.0
    ensures x / n * 0.5 > y / n * 0.5 <==> x > y
    ensures x / n * 0.5 >= 0.3 <==> x >= 0.6 * n
  {
    var p, q := x / n, y / n;
    assert p * n == x && q * n == y;
    ScaleOrder(p, q, n);
    ScaleOrder(p, 0.6, n);
  }

  /** Multiplying by a positive number keeps the order. */
  lemma ScaleOrder(a: real, b: real, k: real)
    requires k > 0.0
    ensures a > b <==> a * k > b * k
    ensures a >= b <==> a * k >= b * k
  {
  }

  /** One Spanish character in a text without English indicator words is
      enough for Spanish. */
  lemma SpanishCharacterSuffices(c: Counts)
    requires c.totalWords > 0 && c.spanishChars >= 1 && c.englishMatches == 0
    ensures Decide(c).0 == Spanish
  {
    assert CharScore(c.spanishChars) >= 0.3;
    assert c.spanishMatches as real / c.totalWords as real >= 0.0;
  }
}
