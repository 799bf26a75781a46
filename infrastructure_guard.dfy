/** The infrastructure guard of backend/security/infrastructure_guard.py:
    which of its question patterns a user question matches, the confidence
    that the question probes the hosting infrastructure, whether it is
    blocked, how the question is sanitised, and the standard reply.

    Regular expressions are not modelled: `re.compile(p, re.IGNORECASE).search`
    and `re.sub(p, r, s, flags=re.IGNORECASE)` are parameters keyed by the
    pattern's source text. */
module InfrastructureGuard {
  import opened Text

  /** `re.compile(pattern, re.IGNORECASE).search(question)` found a match. */
  type Search = (string, string) -> bool
  /** `re.sub(pattern, replacement, text, flags=re.IGNORECASE)`. */
  type Sub = (string, string, string) -> string

  /** `InfrastructureQueryResult`. The confidence is modelled as an exact
      number of tenths; Python computes it in floating point, where three
      matches give 0.8999999999999999 rather than 0.9. */
  datatype QueryResult = QueryResult(
    isInfrastructureQuery: bool,
    confidence: real,
    detectedPatterns: seq<string>,
    sanitizedQuestion: string)

  /** `InfrastructureSecurityGuard`: its pattern list and its standard reply,
      both fixed by the constructor. */
  datatype Guard = Guard(patterns: seq<string>, standardResponse: string)

  /** The patterns of `__init__`, in declaration order. */
  const InfrastructurePatterns: seq<string> := [
      "\\b(cloud run|gcp" + "|google cloud|aw" + "s|azure|kubernet" + "es|k8s)\\b",
      "\\b(deployed (on|" + "to|in)|hosted (o" + "n|in)|running on" + ")\\b",
      "\\b(what (platfor" + "m|cloud|server|i" + "nfrastructure|ho" + "sting))\\b",
      "\\b(where (is|are" + ") (you|this|the " + "(service|api|bac" + "kend)))\\b",
      "\\b(what (region|" + "zone|location|da" + "tacenter|data ce" + "nter))\\b",
      "\\b(us-central|us" + "-east|us-west|eu" + "rope|asia)\\b",
      "\\b(what (databas" + "e|storage|vector" + " store))\\b",
      "\\b(which (model|" + "llm|embedding))\\" + "b",
      "\\b(backend|front" + "end|api|endpoint" + "|url|domain)\\b",
      "\\b(architecture|" + "infrastructure|d" + "eployment|devops" + ")\\b",
      "\\b(how (do you|d" + "oes this) work)\\" + "b",
      "\\b(technical (de" + "tails|architectu" + "re|implementatio" + "n))\\b",
      "\\b(show me (the|" + "your) (code|conf" + "ig|setup))\\b",
      "\\b(what (version" + "|technology|stac" + "k))\\b",
      "\\b(tell me about" + " (your|the) (inf" + "rastructure|host" + "ing|deployment))" + "\\b",
      "\\b(reveal (your|" + "the) (backend|se" + "rver|hosting))\\b",
      "\\b(disclose (inf" + "rastructure|host" + "ing|technical) d" + "etails)\\b"
    ]

  /** The compliant reply that replaces an answer about infrastructure, in
      the four pieces the constructor concatenates. */
  const StandardResponse: string := ResponseIntro + ResponseCompliance + ResponseHelp + ResponseQuestion
  const ResponseIntro: string := "This sys" + "tem oper" + "ates wit" + "hin Macy" + "'s secur" + "e cloud " + "environm" + "ent, "
  const ResponseCompliance: string := "fully co" + "mpliant " + "with cor" + "porate s" + "ecurity " + "policies" + " and dat" + "a protec" + "tion sta" + "ndards. "
  const ResponseHelp: string := "I'm here" + " to help" + " you wit" + "h store " + "operatio" + "ns, prod" + "uct info" + "rmation," + " and sup" + "port que" + "stions. "
  const ResponseQuestion: string := "How can " + "I assist" + " you wit" + "h your w" + "ork toda" + "y?"

  /** The replacement table of `_sanitize_question`, in the dictionary's
      insertion order, which is the order the replacements are applied in. */
  const Replacements: seq<(string, string)> := [
      ("\\b(cloud run|gcp" + "|google cloud|aw" + "s|azure)\\b", "our system"),
      ("\\b(backend|api|s" + "erver)\\b", "service"),
      ("\\b(database|vect" + "or store|storage" + ")\\b", "data system"),
      ("\\b(region|zone|d" + "atacenter|data c" + "enter)\\b", "location")
    ]

  /** The default `threshold` of `should_block`. */
  const DefaultThreshold: real := 0.3

  /** `InfrastructureSecurityGuard()`. */
  function NewGuard(): (g: Guard)
    ensures |g.patterns| == 17
    ensures g.standardResponse == StandardResponse
  {
    Guard(InfrastructurePatterns, StandardResponse)
  }

  // ----- specification -----

  /** The patterns of `patterns` that match `question`, in list order. */
  function Matching(patterns: seq<string>, question: string, search: Search): seq<string> {
    if patterns == [] then []
    else
      var init, p := patterns[..|patterns| - 1], patterns[|patterns| - 1];
      Matching(init, question, search) + (if search(p, question) then [p] else [])
  }

  /** `min(n * 0.3, 1.0)` in tenths: three tenths per matched pattern, at
      most ten. It is zero exactly when nothing matched and saturates from
      four matches on. */
  function ConfidenceTenths(n: nat): (c: nat)
    ensures c <= 10
    ensures c == 0 <==> n == 0
    ensures c == 10 <==> n >= 4
  {
    if 3 * n < 10 then 3 * n else 10
  }

  function Confidence(n: nat): real {
    ConfidenceTenths(n) as real / 10.0
  }

  /** The decision of `should_block` for a question matching `n` patterns. */
  predicate Blocks(n: nat, threshold: real) {
    n > 0 && Confidence(n) >= threshold
  }

  /** `_sanitize_question` with the first `|table|` replacements applied in order. */
  function Sanitized(table: seq<(string, string)>, question: string, sub: Sub): string {
    if table == [] then question
    else
      var init, entry := table[..|table| - 1], table[|table| - 1];
      sub(entry.0, entry.1, Sanitized(init, question, sub))
  }

  // ----- the methods of the guard -----

  /** The pattern loop of `check_question`. */
  method DetectPatterns(g: Guard, question: string, search: Search) returns (detected: seq<string>)
    ensures detected == Matching(g.patterns, question, search)
  {
    detected := [];
    for i := 0 to |g.patterns|
      invariant detected == Matching(g.patterns[..i], question, search)
    {
      assert g.patterns[..i + 1][..i] == g.patterns[..i];
      if search(g.patterns[i], question) {
        detected := detected + [g.patterns[i]];
      }
    }
    assert g.patterns[..|g.patterns|] == g.patterns;
  }

  /** `_sanitize_question`: each replacement rewrites the result of the previous one. */
  method SanitizeQuestion(question: string, sub: Sub) returns (sanitized: string)
    ensures sanitized == Sanitized(Replacements, question, sub)
  {
    sanitized := question;
    for i := 0 to |Replacements|
      invariant sanitized == Sanitized(Replacements[..i], question, sub)
    {
      assert Replacements[..i + 1][..i] == Replacements[..i];
      var (pattern, replacement) := Replacements[i];
      sanitized := sub(pattern, replacement, sanitized);
    }
    assert Replacements[..|Replacements|] == Replacements;
  }

  /** `check_question`. The question is sanitised whether or not it matched. */
  method CheckQuestion(g: Guard, question: string, search: Search, sub: Sub) returns (r: QueryResult)
    ensures r.detectedPatterns == Matching(g.patterns, question, search)
    ensures r.isInfrastructureQuery <==> r.detectedPatterns != []
    ensures r.confidence == Confidence(|r.detectedPatterns|)
    ensures r.sanitizedQuestion == Sanitized(Replacements, question, sub)
  {
    var detected := DetectPatterns(g, question, search);
    var isQuery := |detected| > 0;
    var sanitized := SanitizeQuestion(question, sub);
    r := QueryResult(isQuery, Confidence(|detected|), detected, sanitized);
  }

  /** `should_block(question, threshold)`. */
  method ShouldBlock(g: Guard, question: string, threshold: real, search: Search, sub: Sub) returns (b: bool)
    ensures b == Blocks(|Matching(g.patterns, question, search)|, threshold)
  {
    var r := CheckQuestion(g, question, search, sub);
    b := r.isInfrastructureQuery && r.confidence >= threshold;
  }

  /** `get_standard_response`. */
  function GetStandardResponse(g: Guard): string {
    g.standardResponse
  }

  // ----- properties -----

  /** `detected_patterns` holds exactly the patterns that match, each once
      per occurrence in the list, and never more than the list has. */
  lemma {:induction false} MatchingMembers(patterns: seq<string>, question: string, search: Search)
    ensures |Matching(patterns, question, search)| <= |patterns|
    ensures forall p :: p in Matching(patterns, question, search) <==> p in patterns && search(p, question)
  {
    if patterns != [] {
      var init := patterns[..|patterns| - 1];
      MatchingMembers(init, question, search);
      assert patterns == init + [patterns[|patterns| - 1]];
    }
  }

  /** The matches keep declaration order: the matches of a list split in two
      are the matches of the first part followed by those of the second. */
  lemma {:induction false} MatchingAppend(a: seq<string>, b: seq<string>, question: string, search: Search)
    ensures Matching(a + b, question, search) == Matching(a, question, search) + Matching(b, question, search)
  {
    if b != [] {
      var init := b[..|b| - 1];
      MatchingAppend(a, init, question, search);
      assert (a + b)[..|a + b| - 1] == a + init;
    } else {
      assert a + b == a;
    }
  }

  /** More matches never lower the confidence. */
  lemma ConfidenceMonotone(m: nat, n: nat)
    requires m <= n
    ensures Confidence(m) <= Confidence(n)
    ensures 0.0 <= Confidence(m) && Confidence(n) <= 1.0
  {
  }

  /** With the default threshold 0.3 a question is blocked exactly when it
      matches at least one pattern; a threshold above 1.0 blocks nothing. */
  lemma BlockingThresholds(n: nat, threshold: real)
    ensures Blocks(n, DefaultThreshold) <==> n >= 1
    ensures threshold > 1.0 ==> !Blocks(n, threshold)
    ensures threshold <= 0.3 ==> (Blocks(n, threshold) <==> n >= 1)
  {
  }

  /** Sanitising with a table split in two is sanitising with the first part
      and then with the second: the replacements compose in table order. */
  lemma {:induction false} SanitizedAppend(a: seq<(string, string)>, b: seq<(string, string)>, question: string, sub: Sub)
    ensures Sanitized(a + b, question, sub) == Sanitized(b, Sanitized(a, question, sub), sub)
  {
    if b != [] {
      var init := b[..|b| - 1];
      SanitizedAppend(a, init, question, sub);
      assert (a + b)[..|a + b| - 1] == a + init;
      assert (a + b)[|a + b| - 1] == b[|b| - 1];
    } else {
      assert a + b == a;
    }
  }

  /** The four replacements, written out in the order they run: cloud
      names first, then service words, then storage, then locations. */
  lemma SanitizeOrder(question: string, sub: Sub)
    ensures Sanitized(Replacements, question, sub)
      == sub(Replacements[3].0, "location",
           sub(Replacements[2].0, "data system",
             sub(Replacements[1].0, "service",
               sub(Replacements[0].0, "our system", question))))
  {
    var q1 := Sanitized(Replacements[..1], question, sub);
    assert q1 == sub(Replacements[0].0, "our system", question) by {
      assert Replacements[..1][..0] == [] && Replacements[..1][0] == Replacements[0];
      assert Replacements[0].1 == "our system";
      assert Sanitized([], question, sub) == question;
    }
    var q2 := Sanitized(Replacements[..2], question, sub);
    assert q2 == sub(Replacements[1].0, "service", q1) by {
      assert Replacements[..2][..1] == Replacements[..1] && Replacements[..2][1] == Replacements[1];
    }
    var q3 := Sanitized(Replacements[..3], question, sub);
    assert q3 == sub(Replacements[2].0, "data system", q2) by {
      assert Replacements[..3][..2] == Replacements[..2] && Replacements[..3][2] == Replacements[2];
    }
    assert Replacements[..4] == Replacements;
    assert Replacements[..4][..3] == Replacements[..3];
  }

  /** None of the four pieces of the reply has a capital C. */
  lemma NoCapitalC()
    ensures 'C' !in ResponseIntro && 'C' !in ResponseCompliance
    ensures 'C' !in ResponseHelp && 'C' !in ResponseQuestion
  {
    IntroLacksC();
    ComplianceLacksC();
    HelpLacksC();
    QuestionLacksC();
  }

  lemma IntroLacksC()
    ensures 'C' !in ResponseIntro
  {
    assert 'C' !in ResponseIntro;
  }

  lemma ComplianceLacksC()
    ensures 'C' !in ResponseCompliance
  {
    assert 'C' !in ResponseCompliance;
  }

  lemma HelpLacksC()
    ensures 'C' !in ResponseHelp
  {
    assert 'C' !in ResponseHelp;
  }

  lemma QuestionLacksC()
    ensures 'C' !in ResponseQuestion
  {
    assert 'C' !in ResponseQuestion;
  }

  /** The standard reply names none of the hosting products: each name has
      a capital C, which the reply lacks. */
  lemma StandardResponseDisclosesNothing()
    ensures !Contains(GetStandardResponse(NewGuard()), "GCP")
    ensures !Contains(GetStandardResponse(NewGuard()), "Cloud Run")
    ensures !Contains(GetStandardResponse(NewGuard()), "Google Cloud")
  {
    NoCapitalC();
    MissingCharNotContains(StandardResponse, "GCP", 'C');
    MissingCharNotContains(StandardResponse, "Cloud Run", 'C');
    MissingCharNotContains(StandardResponse, "Google Cloud", 'C');
  }

  /** The reply speaks of a cloud environment, in its first piece. */
  lemma StandardResponseIsCompliant()
    ensures OccursAt(GetStandardResponse(NewGuard()), "cloud environment", 42)
  {
    assert ResponseIntro[42..59] == "cloud environment";
    assert StandardResponse[..|ResponseIntro|] == ResponseIntro;
  }
}
