/** The post-generation response filter of backend/safety/response_filter.py:
    which violations a generated answer commits, what is done about them
    (pass, modify or block), the overlap heuristic for hallucination, the
    cleaning of moderate violations and the reason shown to the user.

    Regular expressions are not modelled: a pattern is named by its list and
    position (its source text is kept in `Sources`), and `re.search` /
    `re.sub` (both case-insensitive, as the filter compiles them) are
    parameters. */
module SafetyFilter {
  import opened Wrappers
  import opened Text

  /** The six pattern lists of `_init_patterns`. */
  datatype PatternGroup = MaliciousGroup | ProfanityGroup | ViolenceGroup | SelfHarmGroup | HateGroup | PoliticalGroup

  /** A pattern, named by its list and its position in that list. */
  datatype PatternId = PatternId(group: PatternGroup, index: nat)

  /** `re.compile(Source(p), re.IGNORECASE).search(text)` found a match. */
  type Search = (PatternId, string) -> bool
  /** `re.compile(Source(p), re.IGNORECASE).sub(replacement, text)`. */
  type Sub = (PatternId, string, string) -> string
  /** The set of `\b\w{4,}\b` matches in a text. */
  type LongWords = string -> set<string>

  datatype Violation = Hallucination | MaliciousIntent | Profanity | Violence | SelfHarm
                     | HateSpeech | PoliticalUnsafe | NoViolation
  {
    function Value(): string {
      match this
      case Hallucination => "hallucination"
      case MaliciousIntent => "malicious_intent"
      case Profanity => "profanity"
      case Violence => "violence"
      case SelfHarm => "self_harm"
      case HateSpeech => "hate_speech"
      case PoliticalUnsafe => "political_unsafe"
      case NoViolation => "none"
    }

    /** The position of each check in `check_response_safety`. */
    function Rank(): nat {
      match this
      case Hallucination => 0
      case MaliciousIntent => 1
      case Profanity => 2
      case Violence => 3
      case SelfHarm => 4
      case HateSpeech => 5
      case PoliticalUnsafe => 6
      case NoViolation => 7
    }

    predicate IsCritical() {
      this == SelfHarm || this == Violence || this == MaliciousIntent
    }

    predicate IsModerate() {
      this == Profanity || this == HateSpeech || this == PoliticalUnsafe
    }
  }

  datatype Action = Pass | Modify | Block

  datatype CheckResult = CheckResult(
    action: Action,
    violations: seq<Violation>,
    confidence: real,
    safeResponse: Option<string>,
    reason: Option<string>)

  // ----- constants -----

  /** The regular-expression source text of each list, in declaration order. */
  function Sources(g: PatternGroup): seq<string> {
    match g
    case MaliciousGroup => [
      "\\b(hack|exploit|" + "bypass|circumven" + "t)\\s+(system|sec" + "urity|policy|rul" + "es)\\b",
      "\\b(steal|fraud|s" + "cam|cheat)\\b",
      "\\b(credential|pa" + "ssword|access)\\s" + "+to\\s+(obtain|st" + "eal|get)\\b",
      "\\b(ignore|overri" + "de|disable)\\s+(s" + "afety|security|p" + "olicy)\\b"]
    case ProfanityGroup => [
      "\\b(f[u\\*]ck|sh[i" + "\\*]t|d[a\\*]mn|b[" + "i\\*]tch|a[s\\*]s|" + "cr[a\\*]p)\\w*\\b",
      "\\b(bastard|jacka" + "ss|moron|idiot|s" + "tupid)\\b"]
    case ViolenceGroup => [
      "\\b(kill|murder|s" + "hoot|stab|attack" + "|assault|beat)\\s" + "+(you|them|someo" + "ne|people)\\b",
      "\\b(weapon|gun|kn" + "ife|bomb|explosi" + "ve)\\s+to\\s+(hurt" + "|harm|kill)\\b",
      "\\b(threaten|viol" + "ence|violent|har" + "m)\\b.*\\b(custome" + "r|employee|perso" + "n)\\b"]
    case SelfHarmGroup => [
      "\\b(suicide|kill " + "yourself|end you" + "r life|self[- ]h" + "arm)\\b",
      "\\b(cut|hurt|inju" + "re)\\s+(yourself|" + "myself)\\b",
      "\\b(want to die|w" + "ish I was dead)\\" + "b"]
    case HateGroup => [
      "\\b(hate|despise|" + "discriminate)\\s+" + ".{0,30}(race|rel" + "igion|gender|ori" + "entation|disabil" + "ity)\\b",
      "\\b(racist|sexist" + "|homophobic|tran" + "sphobic|bigot)\\b",
      "\\b(all|every)\\s+" + "(women|men|black" + "s|whites|jews|mu" + "slims|christians" + ")\\s+are\\b"]
    case PoliticalGroup => [
      "\\b(democrat|repu" + "blican|liberal|c" + "onservative)\\s+(" + "are|is)\\s+(bad|e" + "vil|stupid|wrong" + ")\\b",
      "\\b(vote|support|" + "elect)\\s+for\\s+[" + "A-Z][a-z]+\\b",
      "\\b(political|pol" + "itics)\\s+.{0,20}" + "(should|must|nee" + "d to)\\b"]
  }

  /** The length of each list. */
  function Count(g: PatternGroup): nat {
    match g
    case MaliciousGroup => 4
    case ProfanityGroup => 2
    case ViolenceGroup => 3
    case SelfHarmGroup => 3
    case HateGroup => 3
    case PoliticalGroup => 3
  }

  lemma CountIsLength(g: PatternGroup)
    ensures |Sources(g)| == Count(g)
  {
  }

  /** `default_safe_response`. */
  const DefaultSafeResponse: string :=
    "I cannot provide " + "that information " + "due to safety " + "policies. Please " + "contact your "
    + "supervisor or " + "Macy's support for " + "assistance."

  const InsufficientInformation: string :=
    "I don't have enough " + "verified " + "information to " + "answer this safely. " + "Please refer to "
    + "official Macy's " + "documentation or " + "contact support."

  /** The notice `_clean_response` appends to every cleaned answer. */
  const ModifiedNotice: string := "\n\n[Note: Response " + "was modified to " + "meet safety " + "policies]"

  // ----- detection -----

  /** `_check_patterns` over one list: some pattern of the list matches. */
  predicate CheckPatterns(text: string, g: PatternGroup, search: Search) {
    exists i | 0 <= i < Count(g) :: search(PatternId(g, i), text)
  }

  /** `_check_hallucination`: no context at all, or fewer than a fifth of the
      response's long words found in the context. `overlap / len < 0.2` is
      written over the integers as `5 * overlap < len`. */
  predicate CheckHallucination(response: string, contextDocs: seq<string>, words: LongWords) {
    if contextDocs == [] then true
    else
      var responseWords := words(Lower(response));
      var contextWords := words(Lower(Join(" ", contextDocs)));
      if responseWords == {} then false
      else 5 * |responseWords * contextWords| < |responseWords|
  }

  /** The seven checks of `check_response_safety`, in the order it runs them. */
  const CheckOrder: seq<Violation> :=
    [Hallucination, MaliciousIntent, Profanity, Violence, SelfHarm, HateSpeech, PoliticalUnsafe]

  /** Whether the check for `c` fires on the response. */
  predicate Detected(c: Violation, response: string, contextDocs: seq<string>, search: Search, words: LongWords) {
    match c
    case Hallucination => CheckHallucination(response, contextDocs, words)
    case MaliciousIntent => CheckPatterns(response, MaliciousGroup, search)
    case Profanity => CheckPatterns(response, ProfanityGroup, search)
    case Violence => CheckPatterns(response, ViolenceGroup, search)
    case SelfHarm => CheckPatterns(response, SelfHarmGroup, search)
    case HateSpeech => CheckPatterns(response, HateGroup, search)
    case PoliticalUnsafe => CheckPatterns(response, PoliticalGroup, search)
    case NoViolation => false
  }

  /** The violation of check `c` if it fires, else nothing. */
  function Step(c: Violation, fires: Violation -> bool): seq<Violation> {
    if fires(c) then [c] else []
  }

  /** Which checks fire on a response. */
  function Fires(response: string, contextDocs: seq<string>, search: Search, words: LongWords): Violation -> bool {
    c => Detected(c, response, contextDocs, search, words)
  }

  /** Which check each violation stands for. */
  lemma FiresRule(response: string, contextDocs: seq<string>, search: Search, words: LongWords)
    ensures var fires := Fires(response, contextDocs, search, words);
      && fires(Hallucination) == CheckHallucination(response, contextDocs, words)
      && fires(MaliciousIntent) == CheckPatterns(response, MaliciousGroup, search)
      && fires(Profanity) == CheckPatterns(response, ProfanityGroup, search)
      && fires(Violence) == CheckPatterns(response, ViolenceGroup, search)
      && fires(SelfHarm) == CheckPatterns(response, SelfHarmGroup, search)
      && fires(HateSpeech) == CheckPatterns(response, HateGroup, search)
      && fires(PoliticalUnsafe) == CheckPatterns(response, PoliticalGroup, search)
  {
  }

  /** The checks among `cs` that `fires` accepts, in order. */
  function Fired(cs: seq<Violation>, fires: Violation -> bool): seq<Violation> {
    if cs == [] then []
    else Fired(cs[..|cs| - 1], fires) + Step(cs[|cs| - 1], fires)
  }

  /** The violations `check_response_safety` records, one step per check. */
  function Violations(response: string, contextDocs: seq<string>, search: Search, words: LongWords): seq<Violation> {
    var fires := Fires(response, contextDocs, search, words);
    Step(Hallucination, fires)
    + Step(MaliciousIntent, fires)
    + Step(Profanity, fires)
    + Step(Violence, fires)
    + Step(SelfHarm, fires)
    + Step(HateSpeech, fires)
    + Step(PoliticalUnsafe, fires)
  }

  /** A check's violation is kept exactly when it is among the checks and fires. */
  lemma {:induction false} FiredMembers(cs: seq<Violation>, fires: Violation -> bool)
    ensures forall c :: c in Fired(cs, fires) <==> c in cs && fires(c)
  {
    if cs != [] {
      var init := cs[..|cs| - 1];
      FiredMembers(init, fires);
      assert cs == init + [cs[|cs| - 1]];
    }
  }

  /** Each violation at most once, in the order of the checks. */
  predicate InCheckOrder(v: seq<Violation>) {
    forall i, j :: 0 <= i < j < |v| ==> v[i].Rank() < v[j].Rank()
  }

  // ----- cleaning -----

  /** Applying `re.sub(p, replacement, ·)` for each pattern of a list in turn. */
  function SubstituteAll(g: PatternGroup, n: nat, replacement: string, text: string, sub: Sub): string {
    if n == 0 then text
    else sub(PatternId(g, n - 1), replacement, SubstituteAll(g, n - 1, replacement, text, sub))
  }

  /** `_clean_response`: the moderate violations present are scrubbed, profanity
      first, then hate speech, then political content, and the notice is
      appended. */
  function Cleaned(response: string, violations: seq<Violation>, sub: Sub): string {
    var a := if Profanity in violations then SubstituteAll(ProfanityGroup, Count(ProfanityGroup), "[removed]", response, sub) else response;
    var b := if HateSpeech in violations then SubstituteAll(HateGroup, Count(HateGroup), "[content removed for safety]", a, sub) else a;
    var c := if PoliticalUnsafe in violations then SubstituteAll(PoliticalGroup, Count(PoliticalGroup), "[removed]", b, sub) else b;
    c + ModifiedNotice
  }

  /** The loop of `_clean_response` over one compiled list. */
  method SubstituteEach(g: PatternGroup, replacement: string, text: string, sub: Sub) returns (cleaned: string)
    ensures cleaned == SubstituteAll(g, Count(g), replacement, text, sub)
  {
    cleaned := text;
    for i := 0 to Count(g)
      invariant cleaned == SubstituteAll(g, i, replacement, text, sub)
    {
      cleaned := sub(PatternId(g, i), replacement, cleaned);
    }
  }

  /** `_clean_response`. */
  method CleanResponse(response: string, violations: seq<Violation>, sub: Sub) returns (cleaned: string)
    ensures cleaned == Cleaned(response, violations, sub)
  {
    cleaned := response;
    if Profanity in violations {
      cleaned := SubstituteEach(ProfanityGroup, "[removed]", cleaned, sub);
    }
    if HateSpeech in violations {
      cleaned := SubstituteEach(HateGroup, "[content removed for safety]", cleaned, sub);
    }
    if PoliticalUnsafe in violations {
      cleaned := SubstituteEach(PoliticalGroup, "[removed]", cleaned, sub);
    }
    cleaned := cleaned + ModifiedNotice;
  }

  // ----- decision -----

  const CriticalReason: string := "Critical safety " + "violation detected"
  const GroundingReason: string := "Low confidence - " + "insufficient " + "grounding in " + "verified documents"
  const ModifiedReason: string := "Response modified to " + "meet safety standards"

  predicate AnyCritical(violations: seq<Violation>) {
    exists i | 0 <= i < |violations| :: violations[i].IsCritical()
  }

  predicate AnyModerate(violations: seq<Violation>) {
    exists i | 0 <= i < |violations| :: violations[i].IsModerate()
  }

  /** `_determine_action`. */
  function DetermineAction(violations: seq<Violation>, response: string, sub: Sub): CheckResult {
    if violations == [] then
      CheckResult(Pass, [NoViolation], 1.0, None, None)
    else if AnyCritical(violations) then
      CheckResult(Block, violations, 0.0, Some(DefaultSafeResponse), Some(CriticalReason))
    else if Hallucination in violations then
      CheckResult(Block, violations, 0.0, Some(InsufficientInformation), Some(GroundingReason))
    else if AnyModerate(violations) then
      CheckResult(Modify, violations, 0.7, Some(Cleaned(response, violations, sub)), Some(ModifiedReason))
    else
      CheckResult(Pass, violations, 0.9, None, None)
  }

  /** `check_response_safety`: the seven checks in their fixed order, each
      appending its violation, then the decision. */
  method CheckResponseSafety(response: string, contextDocs: seq<string>, search: Search, words: LongWords, sub: Sub)
    returns (result: CheckResult)
    ensures result == DetermineAction(Violations(response, contextDocs, search, words), response, sub)
  {
    ghost var fires := Fires(response, contextDocs, search, words);
    FiresRule(response, contextDocs, search, words);
    var violations: seq<Violation> := [];
    if CheckHallucination(response, contextDocs, words) {
      violations := violations + [Hallucination];
    }
    assert violations == Step(Hallucination, fires);
    if CheckPatterns(response, MaliciousGroup, search) {
      violations := violations + [MaliciousIntent];
    }
    assert violations == Step(Hallucination, fires)
      + Step(MaliciousIntent, fires);
    if CheckPatterns(response, ProfanityGroup, search) {
      violations := violations + [Profanity];
    }
    assert violations == Step(Hallucination, fires)
      + Step(MaliciousIntent, fires)
      + Step(Profanity, fires);
    if CheckPatterns(response, ViolenceGroup, search) {
      violations := violations + [Violence];
    }
    assert violations == Step(Hallucination, fires)
      + Step(MaliciousIntent, fires)
      + Step(Profanity, fires)
      + Step(Violence, fires);
    if CheckPatterns(response, SelfHarmGroup, search) {
      violations := violations + [SelfHarm];
    }
    assert violations == Step(Hallucination, fires)
      + Step(MaliciousIntent, fires)
      + Step(Profanity, fires)
      + Step(Violence, fires)
      + Step(SelfHarm, fires);
    if CheckPatterns(response, HateGroup, search) {
      violations := violations + [HateSpeech];
    }
    assert violations == Step(Hallucination, fires)
      + Step(MaliciousIntent, fires)
      + Step(Profanity, fires)
      + Step(Violence, fires)
      + Step(SelfHarm, fires)
      + Step(HateSpeech, fires);
    if CheckPatterns(response, PoliticalGroup, search) {
      violations := violations + [PoliticalUnsafe];
    }
    assert violations == Violations(response, contextDocs, search, words);
    result := DetermineAction(violations, response, sub);
  }

  const PassedReason: string := "Response passed all " + "safety checks"
  const InsufficientReason: string := "Insufficient verified " + "information"
  const SelfHarmReason: string := "Safety policy " + "triggered - Please " + "contact Employee " + "Assistance Program"
  const ViolenceReason: string := "Safety policy " + "triggered - Please " + "contact Security"
  const SecurityReason: string := "Security policy " + "triggered"

  /** `get_user_friendly_reason`. */
  function FriendlyReason(violations: seq<Violation>): string {
    if violations == [] || NoViolation in violations then PassedReason
    else if Hallucination in violations then InsufficientReason
    else if SelfHarm in violations then SelfHarmReason
    else if Violence in violations then ViolenceReason
    else if MaliciousIntent in violations then SecurityReason
    else ModifiedReason
  }

  // ----- properties -----

  /** Filtering an ordered list keeps it ordered. */
  lemma {:induction false} FiredInOrder(cs: seq<Violation>, fires: Violation -> bool)
    requires InCheckOrder(cs)
    ensures InCheckOrder(Fired(cs, fires))
  {
    if cs != [] {
      var init := cs[..|cs| - 1];
      assert InCheckOrder(init);
      FiredInOrder(init, fires);
      var f := Fired(init, fires);
      FiredMembers(init, fires);
      forall k | 0 <= k < |f| ensures f[k].Rank() < cs[|cs| - 1].Rank() {
        assert f[k] in init;
        var m :| 0 <= m < |init| && init[m] == f[k];
      }
    }
  }

  /** One more check appended to the ones already run. */
  lemma FiredSnoc(cs: seq<Violation>, c: Violation, fires: Violation -> bool)
    ensures Fired(cs + [c], fires) == Fired(cs, fires) + Step(c, fires)
  {
    assert (cs + [c])[..|cs|] == cs;
  }

  /** The step-by-step list is the ordered filter of the checks. */
  lemma ViolationsAreFired(response: string, contextDocs: seq<string>, search: Search, words: LongWords)
    ensures Violations(response, contextDocs, search, words) == Fired(CheckOrder, Fires(response, contextDocs, search, words))
  {
    var fires := Fires(response, contextDocs, search, words);
    ghost var checked: seq<Violation> := [];
    FiredSnoc(checked, Hallucination, fires);
    checked := checked + [Hallucination];
    FiredSnoc(checked, MaliciousIntent, fires);
    checked := checked + [MaliciousIntent];
    FiredSnoc(checked, Profanity, fires);
    checked := checked + [Profanity];
    FiredSnoc(checked, Violence, fires);
    checked := checked + [Violence];
    FiredSnoc(checked, SelfHarm, fires);
    checked := checked + [SelfHarm];
    FiredSnoc(checked, HateSpeech, fires);
    checked := checked + [HateSpeech];
    FiredSnoc(checked, PoliticalUnsafe, fires);
    checked := checked + [PoliticalUnsafe];
    assert checked == CheckOrder;
  }

  /** Every check contributes exactly when it fires, and the list keeps the
      order of the checks with no violation twice. */
  lemma ViolationsRule(response: string, contextDocs: seq<string>, search: Search, words: LongWords)
    ensures var v := Violations(response, contextDocs, search, words);
      InCheckOrder(v)
      && NoViolation !in v
      && (forall c :: c in v <==> c != NoViolation && Detected(c, response, contextDocs, search, words))
  {
    var fires := Fires(response, contextDocs, search, words);
    ViolationsAreFired(response, contextDocs, search, words);
    CheckOrderRanked();
    assert forall c :: fires(c) == Detected(c, response, contextDocs, search, words);
    FiredInOrder(CheckOrder, fires);
    FiredMembers(CheckOrder, fires);
  }

  lemma CheckOrderRanked()
    ensures InCheckOrder(CheckOrder)
    ensures forall c :: c in CheckOrder <==> c != NoViolation
  {
  }

  /** No violation: pass, reported as [NONE] with full confidence. */
  lemma NoViolationRule(response: string, sub: Sub)
    ensures DetermineAction([], response, sub) == CheckResult(Pass, [NoViolation], 1.0, None, None)
  {
  }

  /** A critical violation blocks with the default answer, whatever else was
      found. */
  lemma CriticalRule(violations: seq<Violation>, response: string, sub: Sub)
    requires SelfHarm in violations || Violence in violations || MaliciousIntent in violations
    ensures var r := DetermineAction(violations, response, sub);
      r.action == Block && r.confidence == 0.0 && r.safeResponse == Some(DefaultSafeResponse)
      && r.violations == violations
  {
    var i :| 0 <= i < |violations| && violations[i].IsCritical();
  }

  /** Hallucination without a critical violation blocks with the
      insufficient-information answer, even when moderate violations are
      present too. */
  lemma HallucinationRule(violations: seq<Violation>, response: string, sub: Sub)
    requires Hallucination in violations
    requires SelfHarm !in violations && Violence !in violations && MaliciousIntent !in violations
    ensures var r := DetermineAction(violations, response, sub);
      r.action == Block && r.confidence == 0.0 && r.safeResponse == Some(InsufficientInformation)
  {
    assert !AnyCritical(violations) by {
      forall i | 0 <= i < |violations| ensures !violations[i].IsCritical() {
        assert violations[i] in violations;
      }
    }
  }

  /** Only moderate violations: the answer is modified, with confidence 0.7,
      and the replacement text is the cleaned answer ending with the notice. */
  lemma ModerateRule(violations: seq<Violation>, response: string, sub: Sub)
    requires Profanity in violations || HateSpeech in violations || PoliticalUnsafe in violations
    requires Hallucination !in violations && SelfHarm !in violations && Violence !in violations
      && MaliciousIntent !in violations
    ensures var r := DetermineAction(violations, response, sub);
      r.action == Modify && r.confidence == 0.7 && r.safeResponse.Some?
      && r.safeResponse.value == Cleaned(response, violations, sub)
      && |r.safeResponse.value| >= |ModifiedNotice|
      && r.safeResponse.value[|r.safeResponse.value| - |ModifiedNotice|..] == ModifiedNotice
  {
    assert !AnyCritical(violations) by {
      forall i | 0 <= i < |violations| ensures !violations[i].IsCritical() {
        assert violations[i] in violations;
      }
    }
    var i :| 0 <= i < |violations| && violations[i].IsModerate();
  }

  /** Cleaning leaves the answer untouched, apart from the notice, when no
      moderate violation was found. */
  lemma CleanedUntouchedRule(response: string, violations: seq<Violation>, sub: Sub)
    requires Profanity !in violations && HateSpeech !in violations && PoliticalUnsafe !in violations
    ensures Cleaned(response, violations, sub) == response + ModifiedNotice
  {
  }

  /** The closing PASS with confidence 0.9 is unreachable from
      `check_response_safety`: every violation it records is critical,
      moderate or a hallucination, so it passes exactly when nothing fired. */
  lemma FinalPassUnreachable(response: string, contextDocs: seq<string>, search: Search, words: LongWords, sub: Sub)
    ensures var v := Violations(response, contextDocs, search, words);
      DetermineAction(v, response, sub).action == Pass <==> v == []
  {
    var v := Violations(response, contextDocs, search, words);
    ViolationsRule(response, contextDocs, search, words);
    if v != [] && !AnyCritical(v) && Hallucination !in v {
      assert v[0] in v;
      assert v[0].IsModerate();
    }
  }

  /** The ratio rule of `_check_hallucination`, both ways. */
  lemma HallucinationHeuristicRule(response: string, contextDocs: seq<string>, words: LongWords)
    ensures contextDocs == [] ==> CheckHallucination(response, contextDocs, words)
    ensures contextDocs != [] && words(Lower(response)) == {} ==> !CheckHallucination(response, contextDocs, words)
    ensures contextDocs != [] && words(Lower(response)) != {} ==>
      (CheckHallucination(response, contextDocs, words)
       <==> 5 * |words(Lower(response)) * words(Lower(Join(" ", contextDocs)))| < |words(Lower(response))|)
  {
  }

  /** Precedence of `get_user_friendly_reason`: a pass when nothing (or NONE)
      was found, then hallucination, self-harm, violence and malicious intent in
      that order, and otherwise the modified-answer reason. */
  lemma FriendlyReasonRule(violations: seq<Violation>)
    ensures violations == [] || NoViolation in violations ==> FriendlyReason(violations) == PassedReason
    ensures violations != [] && NoViolation !in violations && Hallucination in violations
      ==> FriendlyReason(violations) == InsufficientReason
    ensures violations != [] && NoViolation !in violations && Hallucination !in violations
      && SelfHarm in violations
      ==> FriendlyReason(violations) == SelfHarmReason
    ensures violations != [] && NoViolation !in violations && Hallucination !in violations
      && SelfHarm !in violations && Violence in violations
      ==> FriendlyReason(violations) == ViolenceReason
    ensures violations != [] && NoViolation !in violations && Hallucination !in violations
      && SelfHarm !in violations && Violence !in violations && MaliciousIntent in violations
      ==> FriendlyReason(violations) == SecurityReason
    ensures violations != [] && NoViolation !in violations && Hallucination !in violations
      && SelfHarm !in violations && Violence !in violations && MaliciousIntent !in violations
      ==> FriendlyReason(violations) == ModifiedReason
  {
  }
}
