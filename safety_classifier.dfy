/** The message safety classifier of backend/safety/classifier.py: a strict
    cascade of pattern layers (imminent danger, harm to others, self-harm,
    emotional distress, profanity), then an optional language-model
    classification for ambiguous phrasing, then a "safe" default.

    Regular expressions are not modelled: a `Matcher` says whether a pattern
    is found in a text (Python's `re.search(pattern, text, re.IGNORECASE)`
    returning a match) and a `Finder` gives the list `re.findall` returns.
    The language model's reply is an input, already split into the three
    fields the source extracts from it. */
module SafetyClassifier {
  import opened Wrappers
  import opened Text

  /** `re.search(Source(p), text, re.IGNORECASE)` finds a match. */
  type Matcher = (PatternId, string) -> bool
  /** `re.findall(Source(p), text, re.IGNORECASE)`. */
  type Finder = (PatternId, string) -> seq<string>

  datatype Category = SafeOperational | ProfanityOnly | EmotionalDistress | SelfHarmRisk | HarmToOthersRisk | ImminentDanger
  {
    /** The enum's `.value`. */
    function Value(): string {
      match this
      case SafeOperational => "safe_operational"
      case ProfanityOnly => "profanity_only"
      case EmotionalDistress => "emotional_distress"
      case SelfHarmRisk => "self_harm_risk"
      case HarmToOthersRisk => "harm_to_others_risk"
      case ImminentDanger => "imminent_danger"
    }

    /** The two categories that never escalate. */
    predicate IsBenign() {
      this == SafeOperational || this == ProfanityOnly
    }
  }

  datatype Severity = Low | Medium | High | Critical
  {
    function Value(): string {
      match this
      case Low => "low"
      case Medium => "medium"
      case High => "high"
      case Critical => "critical"
    }
  }

  /** The `reasoning` strings the classifier writes: one fixed sentence per
      outcome, or the model's own explanation behind a fixed prefix. */
  datatype Reasoning =
    | ImminentThreat | ThreatToOthers | SelfHarmIdeation | DistressSignals | InappropriateLanguage
    | NoConcerns | LlmError | LlmInconclusiveReason | LlmAnalysis(explanation: string)
  {
    function Text(): string {
      match this
      case ImminentThreat => "Detected immediate threat with temporal indicators"
      case ThreatToOthers => "Detected potential threat to others"
      case SelfHarmIdeation => "Detected self-harm ideation"
      case DistressSignals => "Detected emotional distress signals"
      case InappropriateLanguage => "Detected inappropriate language"
      case NoConcerns => "No safety concerns detected"
      case LlmError => "LLM classification failed; conservative classification applied"
      case LlmInconclusiveReason => "LLM classification inconclusive"
      case LlmAnalysis(e) => "LLM Analysis: " + e
    }
  }

  datatype Classification = Classification(
    category: Category,
    severity: Severity,
    confidence: real,
    detectedPatterns: seq<string>,
    requiresEscalation: bool,
    reasoning: Reasoning)

  // ----- pattern tables -----

  /** The classifier's five pattern lists. */
  datatype PatternList = SelfHarmList | HarmOthersList | DistressList | ProfanityList | WorkplaceViolenceList

  /** A pattern, named by its list and its position in that list. */
  datatype PatternId = PatternId(list: PatternList, index: nat)

  /** The regular-expression source text of each list, in declaration order. */
  function Sources(list: PatternList): seq<string> {
    match list
    case SelfHarmList => [
      "\\b(kill myself|end my life|want to die|suicide|hurt myself)\\b",
      "\\b(cut myself|overdose|jump off|hang myself)\\b",
      "\\b(don\\'?t want to live|life isn\\'?t worth|no reason to live)\\b",
      "\\b(better off dead|can\\'?t go on|goodbye world)\\b"]
    case HarmOthersList => [
      "\\b(kill (him|her|them|you|everyone))\\b",
      "\\b(going to hurt|shoot|stab|attack)\\b",
      "\\b(bring a (gun|weapon|knife))\\b",
      "\\b(make them pay|get revenge|teach them a lesson)\\b"]
    case DistressList => [
      "\\b(can\\'?t take it anymore|falling apart|breaking down)\\b",
      "\\b(feel hopeless|feeling worthless|hate myself)\\b",
      "\\b(overwhelming|drowning|suffocating)\\b",
      "\\b(panic attack|anxiety attack|mental breakdown)\\b",
      "\\b(need help|desperate|at my limit)\\b"]
    case ProfanityList => [
      "\\b(f[u\\*]ck|sh[i\\*]t|d[a\\*]mn|h[e\\*]ll|b[i\\*]tch|[a\\*]ss)\\w*\\b",
      "\\b(bastard|piss|crap)\\b"]
    case WorkplaceViolenceList => [
      "\\b(active shooter|workplace violence|threatening)\\b",
      "\\b(unsafe work environment|being harassed|sexual harassment)\\b"]
  }

  /** How many patterns each list declares. */
  function Count(list: PatternList): nat
  {
    match list
    case SelfHarmList => 4
    case HarmOthersList => 4
    case DistressList => 5
    case ProfanityList => 2
    case WorkplaceViolenceList => 2
  }

  /** The patterns of a list, in declaration order. */
  function Patterns(list: PatternList): (r: seq<PatternId>)
    ensures |r| == Count(list)
    ensures forall k :: 0 <= k < |r| ==> r[k] == PatternId(list, k)
  {
    seq(Count(list), (k: int) requires 0 <= k => PatternId(list, k))
  }

  predicate ValidId(p: PatternId) {
    p.index < Count(p.list)
  }

  /** The pattern's source text, which is what `re.search` receives and what
      `detected_patterns` records (empty for a position past the list's end). */
  function Source(p: PatternId): string {
    var sources := Sources(p.list);
    if p.index < |sources| then sources[p.index] else ""
  }

  function SourcesOf(ps: seq<PatternId>): (r: seq<string>)
    ensures |r| == |ps|
  {
    seq(|ps|, k requires 0 <= k < |ps| => Source(ps[k]))
  }

  /** The last two self-harm patterns followed by the first two harm-to-others
      patterns (`CriticalPatternsAre` relates this to the source's slices). */
  const CriticalPatterns: seq<PatternId> :=
    [PatternId(SelfHarmList, 2), PatternId(SelfHarmList, 3), PatternId(HarmOthersList, 0), PatternId(HarmOthersList, 1)]

  const ImmediateWords: seq<string> := ["right now", "today", "tonight", "going to", "about to"]

  const AmbiguousPhrases: seq<string> := ["can't take", "had enough", "done with this", "over it", "breaking point", "last straw"]

  const LlmPatternTag := "llm_semantic_analysis"

  // ----- specification of the pattern layers -----

  /** The patterns of `ps` that `search` finds in `text`, in their order in `ps`. */
  function Matching(ps: seq<PatternId>, text: string, search: Matcher): seq<PatternId>
  {
    if ps == [] then []
    else
      var last := ps[|ps| - 1];
      Matching(ps[..|ps| - 1], text, search) + (if search(last, text) then [last] else [])
  }

  /** The concatenation of `re.findall` over the patterns, in declaration order. */
  function AllFindings(ps: seq<PatternId>, text: string, findall: Finder): seq<string>
  {
    if ps == [] then []
    else AllFindings(ps[..|ps| - 1], text, findall) + findall(ps[|ps| - 1], text)
  }

  /** Python's `any(w in text for w in words)`. */
  predicate AnySubstring(words: seq<string>, text: string) {
    exists k | 0 <= k < |words| :: Contains(text, words[k])
  }

  /** The harm-to-others layer's matches: its own list, then the workplace-violence list. */
  function HarmMatches(m: string, search: Matcher): seq<PatternId> {
    Matching(Patterns(HarmOthersList), m, search) + Matching(Patterns(WorkplaceViolenceList), m, search)
  }

  function ImminentResult(found: seq<PatternId>): Classification {
    Classification(ImminentDanger, Critical, 0.90, SourcesOf(found), true, ImminentThreat)
  }

  function HarmResult(found: seq<PatternId>): Classification {
    Classification(HarmToOthersRisk, Critical, 0.85, SourcesOf(found), true, ThreatToOthers)
  }

  function SelfHarmResult(found: seq<PatternId>): Classification {
    Classification(SelfHarmRisk, if |found| > 1 then Critical else High, 0.85, SourcesOf(found), true, SelfHarmIdeation)
  }

  function DistressResult(found: seq<PatternId>): Classification {
    Classification(EmotionalDistress, Medium, 0.75, SourcesOf(found), true, DistressSignals)
  }

  function ProfanityResult(found: seq<string>): Classification {
    Classification(ProfanityOnly, Low, 0.95, found, false, InappropriateLanguage)
  }

  const DefaultResult := Classification(SafeOperational, Low, 0.95, [], false, NoConcerns)

  /** What the pattern layers and `_needs_semantic_analysis` find in the
      normalised message, before any decision is taken. */
  datatype Scan = Scan(
    critical: seq<PatternId>,
    immediacy: bool,
    harm: seq<PatternId>,
    selfHarm: seq<PatternId>,
    distress: seq<PatternId>,
    profanity: seq<string>,
    ambiguous: bool)

  /** Runs every check of the layers on `m`, the lower-cased, stripped message. */
  function ScanMessage(m: string, search: Matcher, findall: Finder): Scan {
    Scan(
      Matching(CriticalPatterns, m, search),
      AnySubstring(ImmediateWords, m),
      HarmMatches(m, search),
      Matching(Patterns(SelfHarmList), m, search),
      Matching(Patterns(DistressList), m, search),
      AllFindings(Patterns(ProfanityList), m, findall),
      NeedsSemanticAnalysis(m))
  }

  /** The five pattern layers in cascade order; `None` when none fires. */
  function PatternLayers(s: Scan): Option<Classification>
  {
    if s.critical != [] && s.immediacy then Some(ImminentResult(s.critical))
    else if s.harm != [] then Some(HarmResult(s.harm))
    else if s.selfHarm != [] then Some(SelfHarmResult(s.selfHarm))
    else if s.distress != [] then Some(DistressResult(s.distress))
    else if s.profanity != [] then Some(ProfanityResult(s.profanity))
    else None
  }

  // ----- the language-model step -----

  /** What `float(confidence_match.group(1))` gives: no CONFIDENCE field,
      a number, or text that `float` rejects (which raises). */
  datatype LlmConfidence = NoConfidence | Confidence(value: real) | Unparsable

  /** The model's reply as the source reads it: the call failed, or the
      CATEGORY word, the CONFIDENCE field and the REASONING text, each
      possibly absent. */
  datatype LlmReply =
    | LlmFailed
    | LlmText(categoryWord: Option<string>, confidence: LlmConfidence, reasoning: Option<string>)

  /** `category_map.get(name)`. */
  function CategoryFromValue(name: string): (r: Option<Category>)
    ensures r.Some? ==> r.value.Value() == name
  {
    match name
    case "safe_operational" => Some(SafeOperational)
    case "profanity_only" => Some(ProfanityOnly)
    case "emotional_distress" => Some(EmotionalDistress)
    case "self_harm_risk" => Some(SelfHarmRisk)
    case "harm_to_others_risk" => Some(HarmToOthersRisk)
    case "imminent_danger" => Some(ImminentDanger)
    case _ => None
  }

  /** `severity_map` of the language-model step. */
  function LlmSeverity(c: Category): Severity {
    match c
    case SafeOperational => Low
    case ProfanityOnly => Low
    case EmotionalDistress => Medium
    case SelfHarmRisk => High
    case HarmToOthersRisk => Critical
    case ImminentDanger => Critical
  }

  const LlmConservative := Classification(EmotionalDistress, Medium, 0.5, ["llm_error_conservative"], true, LlmError)

  const LlmInconclusive := Classification(SafeOperational, Low, 0.6, [], false, LlmInconclusiveReason)

  /** The mapping part of `_llm_classify`. */
  function LlmClassify(reply: LlmReply): Classification
  {
    match reply
    case LlmFailed => LlmConservative
    case LlmText(word, conf, reason) =>
      if word.None? then LlmInconclusive
      else if conf.Unparsable? then LlmConservative
      else
        var category := CategoryFromValue(Lower(word.value)).GetOr(SafeOperational);
        Classification(
          category,
          LlmSeverity(category),
          if conf.Confidence? then conf.value else 0.7,
          [LlmPatternTag],
          !category.IsBenign(),
          LlmAnalysis(if reason.Some? then Strip(reason.value) else "LLM classification"))
  }

  /** `_needs_semantic_analysis`. */
  predicate NeedsSemanticAnalysis(m: string) {
    AnySubstring(AmbiguousPhrases, m)
  }

  /** The message as the pattern layers see it: `message.lower().strip()`. */
  function Normalized(message: string): string {
    Strip(Lower(message))
  }

  /** Whether `classify` reaches the language-model step at all. */
  predicate LlmConsulted(s: Scan, useLlm: bool) {
    PatternLayers(s).None? && useLlm && s.ambiguous
  }

  /** The decision `classify` takes once the checks have run; `llm` is what
      `_llm_classify` returns, used only when the model is consulted. */
  function Decide(s: Scan, useLlm: bool, llm: Classification): Classification
  {
    var layers := PatternLayers(s);
    if layers.Some? then layers.value
    else if useLlm && s.ambiguous && llm.category != SafeOperational then llm
    else DefaultResult
  }

  /** `SafetyClassifier.classify`. */
  function Classify(message: string, useLlm: bool, search: Matcher, findall: Finder, reply: LlmReply): Classification
  {
    Decide(ScanMessage(Normalized(message), search, findall), useLlm, LlmClassify(reply))
  }

  // ----- the loops of the source -----

  /** The `for pattern in ...: if re.search(...): patterns_found.append(pattern)` loop. */
  method MatchPatterns(ps: seq<PatternId>, text: string, search: Matcher) returns (found: seq<PatternId>)
    ensures found == Matching(ps, text, search)
  {
    found := [];
    var i := 0;
    while i < |ps|
      invariant 0 <= i <= |ps|
      invariant found == Matching(ps[..i], text, search)
    {
      assert ps[..i + 1][..i] == ps[..i];
      if search(ps[i], text) {
        found := found + [ps[i]];
      }
      i := i + 1;
    }
    assert ps[..i] == ps;
  }

  /** The profanity layer's `patterns_found.extend(re.findall(...))` loop. */
  method FindAllPatterns(ps: seq<PatternId>, text: string, findall: Finder) returns (found: seq<string>)
    ensures found == AllFindings(ps, text, findall)
  {
    found := [];
    var i := 0;
    while i < |ps|
      invariant 0 <= i <= |ps|
      invariant found == AllFindings(ps[..i], text, findall)
    {
      assert ps[..i + 1][..i] == ps[..i];
      var matches := findall(ps[i], text);
      if matches != [] {
        found := found + matches;
      }
      i := i + 1;
    }
    assert ps[..i] == ps;
  }

  /** `classify` with its early returns, proved to compute `Classify`. */
  method ClassifyMessage(message: string, useLlm: bool, search: Matcher, findall: Finder, reply: LlmReply)
    returns (c: Classification)
    ensures c == Classify(message, useLlm, search, findall, reply)
  {
    c := ClassifyNormalized(Normalized(message), useLlm, search, findall, reply);
  }

  /** The body of `classify` after `message.lower().strip()`: each layer runs
      only when the ones before it found nothing. */
  method ClassifyNormalized(m: string, useLlm: bool, search: Matcher, findall: Finder, reply: LlmReply)
    returns (c: Classification)
    ensures c == Decide(ScanMessage(m, search, findall), useLlm, LlmClassify(reply))
  {
    ghost var s := ScanMessage(m, search, findall);
    var critical := MatchPatterns(CriticalPatterns, m, search);
    assert critical == s.critical;
    if critical != [] && AnySubstring(ImmediateWords, m) {
      return ImminentResult(critical);
    }
    var harm := MatchPatterns(Patterns(HarmOthersList), m, search);
    var workplace := MatchPatterns(Patterns(WorkplaceViolenceList), m, search);
    harm := harm + workplace;
    assert harm == s.harm;
    if harm != [] {
      return HarmResult(harm);
    }
    var selfHarm := MatchPatterns(Patterns(SelfHarmList), m, search);
    assert selfHarm == s.selfHarm;
    if selfHarm != [] {
      return SelfHarmResult(selfHarm);
    }
    var distress := MatchPatterns(Patterns(DistressList), m, search);
    assert distress == s.distress;
    if distress != [] {
      return DistressResult(distress);
    }
    var profanity := FindAllPatterns(Patterns(ProfanityList), m, findall);
    assert profanity == s.profanity;
    if profanity != [] {
      return ProfanityResult(profanity);
    }
    assert PatternLayers(s).None?;
    if useLlm && NeedsSemanticAnalysis(m) {
      var llm := LlmClassify(reply);
      if llm.category != SafeOperational {
        return llm;
      }
    }
    return DefaultResult;
  }

  // ----- properties -----

  /** `Matching` keeps exactly the patterns that are found, and no others. */
  lemma {:induction false} MatchingExactly(ps: seq<PatternId>, text: string, search: Matcher)
    ensures forall p :: p in Matching(ps, text, search) <==> p in ps && search(p, text)
    ensures |Matching(ps, text, search)| <= |ps|
  {
    if ps != [] {
      var init := ps[..|ps| - 1];
      MatchingExactly(init, text, search);
      assert ps == init + [ps[|ps| - 1]];
    }
  }

  /** `self._self_harm_patterns[-2:] + self._harm_others_patterns[:2]`. */
  lemma CriticalPatternsAre()
    ensures CriticalPatterns == PyTakeLast(Patterns(SelfHarmList), 2) + PyTake(Patterns(HarmOthersList), 2)
  {
  }

  /** What each field of the scan holds: exactly the patterns of its lists
      that are found in the message, and whether an immediacy word or an
      ambiguous phrase occurs in it. */
  lemma ScanExactly(m: string, search: Matcher, findall: Finder)
    ensures var s := ScanMessage(m, search, findall);
      && (forall p :: p in s.critical <==> p in CriticalPatterns && search(p, m))
      && (forall p :: p in s.harm <==> (p in Patterns(HarmOthersList) || p in Patterns(WorkplaceViolenceList)) && search(p, m))
      && (forall p :: p in s.selfHarm <==> p in Patterns(SelfHarmList) && search(p, m))
      && (forall p :: p in s.distress <==> p in Patterns(DistressList) && search(p, m))
      && |s.selfHarm| <= 4
      && (s.immediacy <==> exists k | 0 <= k < |ImmediateWords| :: Contains(m, ImmediateWords[k]))
      && (s.ambiguous <==> exists k | 0 <= k < |AmbiguousPhrases| :: Contains(m, AmbiguousPhrases[k]))
  {
    MatchingExactly(CriticalPatterns, m, search);
    MatchingExactly(Patterns(HarmOthersList), m, search);
    MatchingExactly(Patterns(WorkplaceViolenceList), m, search);
    MatchingExactly(Patterns(SelfHarmList), m, search);
    MatchingExactly(Patterns(DistressList), m, search);
  }

  /** IMMINENT_DANGER from the patterns needs a critical pattern AND an
      immediacy word; when both hold the result is CRITICAL, 0.90, escalated,
      listing the critical patterns found. */
  lemma ImminentDangerRule(s: Scan, useLlm: bool, llm: Classification)
    ensures var c := Decide(s, useLlm, llm);
      ((s.critical != [] && s.immediacy) <==> (c.category == ImminentDanger && !LlmConsulted(s, useLlm)))
      && (s.critical != [] && s.immediacy ==>
        c.severity == Critical && c.confidence == 0.90 && c.requiresEscalation
        && c.detectedPatterns == SourcesOf(s.critical))
  {
  }

  /** Any harm-to-others or workplace-violence match, unless the message is
      already imminent danger, gives HARM_TO_OTHERS_RISK, CRITICAL, 0.85,
      escalated, listing the matched patterns in declaration order. */
  lemma HarmToOthersRule(s: Scan, useLlm: bool, llm: Classification)
    requires s.harm != []
    ensures var c := Decide(s, useLlm, llm);
      c.category == ImminentDanger
      || (c.category == HarmToOthersRisk && c.severity == Critical && c.confidence == 0.85
          && c.requiresEscalation && c.detectedPatterns == SourcesOf(s.harm))
  {
  }

  /** SELF_HARM_RISK from the patterns is CRITICAL exactly when more than one
      self-harm pattern matched, and HIGH otherwise. */
  lemma SelfHarmSeverityRule(s: Scan, useLlm: bool, llm: Classification)
    requires !LlmConsulted(s, useLlm)
    requires Decide(s, useLlm, llm).category == SelfHarmRisk
    ensures var c := Decide(s, useLlm, llm);
      c.detectedPatterns == SourcesOf(s.selfHarm)
      && (c.severity == Critical <==> |s.selfHarm| > 1)
      && (c.severity == High <==> |s.selfHarm| == 1)
      && c.confidence == 0.85 && c.requiresEscalation
  {
  }

  /** A message with any self-harm, harm-to-others, workplace-violence or
      distress match is never classified PROFANITY_ONLY or SAFE_OPERATIONAL,
      whatever profanity it also contains. */
  lemma DangerIsNeverProfanity(s: Scan, useLlm: bool, llm: Classification)
    requires s.harm != [] || s.selfHarm != [] || s.distress != []
    ensures !Decide(s, useLlm, llm).category.IsBenign()
    ensures Decide(s, useLlm, llm).requiresEscalation
    ensures !LlmConsulted(s, useLlm)
  {
  }

  /** The same, stated on the message: one non-profanity pattern that
      `search` finds is enough. */
  lemma DangerousMessageEscalates(message: string, useLlm: bool, search: Matcher, findall: Finder, reply: LlmReply)
    requires exists p: PatternId :: p.list != ProfanityList && ValidId(p) && search(p, Normalized(message))
    ensures Classify(message, useLlm, search, findall, reply).requiresEscalation
  {
    var m := Normalized(message);
    var p: PatternId :| p.list != ProfanityList && ValidId(p) && search(p, m);
    assert p in Patterns(p.list);
    ScanExactly(m, search, findall);
    DangerIsNeverProfanity(ScanMessage(m, search, findall), useLlm, LlmClassify(reply));
  }

  /** EMOTIONAL_DISTRESS from the patterns is always MEDIUM, 0.75, escalated;
      PROFANITY_ONLY is always LOW, 0.95, not escalated, and lists the
      `findall` results rather than pattern strings. */
  lemma DistressAndProfanityRule(s: Scan, useLlm: bool, llm: Classification)
    requires !LlmConsulted(s, useLlm)
    ensures var c := Decide(s, useLlm, llm);
      (c.category == EmotionalDistress ==>
        c.severity == Medium && c.confidence == 0.75 && c.requiresEscalation
        && s.distress != [] && c.detectedPatterns == SourcesOf(s.distress))
      && (c.category == ProfanityOnly ==>
        c.severity == Low && c.confidence == 0.95 && !c.requiresEscalation
        && s.profanity != [] && c.detectedPatterns == s.profanity)
  {
  }

  /** The model is only asked when it is enabled, no pattern layer fired and
      an ambiguous phrase occurs; otherwise its answer cannot matter. When it
      is asked, a SAFE_OPERATIONAL answer falls through to the default. */
  lemma LlmOnlyWhenConsulted(s: Scan, useLlm: bool, llm1: Classification, llm2: Classification)
    ensures !LlmConsulted(s, useLlm) ==> Decide(s, useLlm, llm1) == Decide(s, useLlm, llm2)
    ensures LlmConsulted(s, useLlm) ==>
      Decide(s, useLlm, llm1) == if llm1.category == SafeOperational then DefaultResult else llm1
  {
  }

  /** The default result: SAFE_OPERATIONAL, LOW (there is no NONE severity),
      0.95, no patterns, no escalation. */
  lemma DefaultRule(s: Scan, useLlm: bool, llm: Classification)
    requires PatternLayers(s).None?
    requires !useLlm || !s.ambiguous
    ensures var c := Decide(s, useLlm, llm);
      c.category == SafeOperational && c.severity == Low && c.confidence == 0.95
      && c.detectedPatterns == [] && !c.requiresEscalation
  {
  }

  /** The language-model mapping: an unknown category name maps to
      SAFE_OPERATIONAL, the severity follows the fixed table, escalation holds
      exactly for the non-benign categories, and a failure (including a
      confidence `float` rejects) gives the conservative EMOTIONAL_DISTRESS. */
  lemma LlmMappingRule(reply: LlmReply)
    ensures var c := LlmClassify(reply);
      c.severity == LlmSeverity(c.category) && (c.requiresEscalation <==> !c.category.IsBenign())
    ensures reply.LlmFailed? || (reply.categoryWord.Some? && reply.confidence.Unparsable?) ==>
      LlmClassify(reply) == LlmConservative
    ensures (reply.LlmText? && reply.categoryWord.Some? && CategoryFromValue(Lower(reply.categoryWord.value)).None?
      && !reply.confidence.Unparsable?) ==>
      LlmClassify(reply).category == SafeOperational && LlmClassify(reply).detectedPatterns == [LlmPatternTag]
  {
  }

  /** `category_map` inverts the enum's `.value`. */
  lemma {:induction false} CategoryValueRoundTrip(c: Category)
    ensures CategoryFromValue(c.Value()) == Some(c)
  {
    match c
    case SafeOperational =>
    case ProfanityOnly =>
    case EmotionalDistress =>
    case SelfHarmRisk =>
    case HarmToOthersRisk =>
    case ImminentDanger =>
  }

  /** Every result of `classify`, from any layer, escalates exactly when its
      category is not SAFE_OPERATIONAL or PROFANITY_ONLY, provided the model's
      answer does (which `LlmMappingRule` shows it always does). */
  lemma EscalationIffNotBenign(s: Scan, useLlm: bool, llm: Classification)
    requires llm.requiresEscalation <==> !llm.category.IsBenign()
    ensures var c := Decide(s, useLlm, llm);
      c.requiresEscalation <==> !c.category.IsBenign()
  {
  }

  /** The same for `classify` itself, on every message and every reply. */
  lemma ClassifyEscalationIffNotBenign(message: string, useLlm: bool, search: Matcher, findall: Finder, reply: LlmReply)
    ensures var c := Classify(message, useLlm, search, findall, reply);
      c.requiresEscalation <==> !c.category.IsBenign()
  {
    LlmMappingRule(reply);
    EscalationIffNotBenign(ScanMessage(Normalized(message), search, findall), useLlm, LlmClassify(reply));
  }

  /** The pattern layers report a confidence in [0, 1]; only the model's own
      CONFIDENCE field, which the source reads with `[\d.]+` and `float`,
      can lie outside it. */
  lemma PatternConfidenceBounded(s: Scan, useLlm: bool, llm: Classification)
    requires !LlmConsulted(s, useLlm)
    ensures 0.0 <= Decide(s, useLlm, llm).confidence <= 1.0
  {
  }

  /** Whatever CATEGORY word the model gives, the confidence it states is
      passed through unchecked (1.5 included), and a missing one reads as 0.7. */
  lemma LlmConfidenceUnbounded(word: string, x: real, reason: Option<string>)
    ensures LlmClassify(LlmText(Some(word), Confidence(x), reason)).confidence == x
    ensures LlmClassify(LlmText(Some(word), NoConfidence, reason)).confidence == 0.7
  {
  }
}
