/** The document ingestion gate of backend/document_security/document_verifier.py:
    seven pattern scanners run over a document, each match becomes a threat
    record, and the threats decide the overall severity, whether the document
    is safe and may be ingested, and the summary shown to the operator.

    Regular expressions are not modelled: `re.finditer` is a parameter giving
    the match spans of a pattern (named by its source text) in a text, and the
    two `re.sub` masks of the PII scanner are a parameter too. */
module DocumentVerifier {
  import Wrappers
  import opened Text

  datatype ThreatCategory = Clean | PromptInjection | SocialEngineering | CybersecurityThreat
                          | MalwareIndicators | PiiExposure | OffensiveContent | PolicyViolation
                          | SuspiciousPatterns
  {
    function Value(): string {
      match this
      case Clean => "clean"
      case PromptInjection => "prompt_injection"
      case SocialEngineering => "social_engineering"
      case CybersecurityThreat => "cybersecurity_threat"
      case MalwareIndicators => "malware_indicators"
      case PiiExposure => "pii_exposure"
      case OffensiveContent => "offensive_content"
      case PolicyViolation => "policy_violation"
      case SuspiciousPatterns => "suspicious_patterns"
    }
  }

  datatype ThreatSeverity = None | Low | Medium | High | Critical
  {
    function Value(): string {
      match this
      case None => "none"
      case Low => "low"
      case Medium => "medium"
      case High => "high"
      case Critical => "critical"
    }

    /** The `severity_scores` table of `_calculate_overall_severity`. */
    function Score(): nat {
      match this
      case None => 0
      case Low => 1
      case Medium => 2
      case High => 3
      case Critical => 4
    }
  }

  datatype ThreatDetection = ThreatDetection(
    category: ThreatCategory,
    severity: ThreatSeverity,
    pattern: string,
    context: string,
    confidence: real,
    recommendation: string)

  datatype VerificationResult = VerificationResult(
    isSafe: bool,
    threatsDetected: seq<ThreatDetection>,
    overallSeverity: ThreatSeverity,
    documentHash: string,
    verifiedAt: nat,
    summary: string,
    allowIngestion: bool)

  /** The seven `_scan_*` methods, in the order `verify_document` runs them. */
  datatype Scanner = PromptInjectionScan | SocialEngineeringScan | CyberScan | MalwareScan
                   | PiiScan | OffensiveScan | PolicyScan

  /** A `DocumentVerifier`: its settings and the pattern lists its constructor
      installs, which no method changes afterwards. */
  datatype Verifier = Verifier(
    useLlmVerification: bool,
    projectId: Wrappers.Option<string>,
    promptInjectionPatterns: seq<string>,
    socialEngineeringPatterns: seq<string>,
    cybersecurityPatterns: seq<string>,
    malwarePatterns: seq<string>,
    piiPatterns: seq<string>,
    offensiveContentPatterns: seq<string>,
    policyViolationPatterns: seq<string>)
  {
    /** The list a scanner iterates over. */
    function Patterns(s: Scanner): seq<string> {
      match s
      case PromptInjectionScan => promptInjectionPatterns
      case SocialEngineeringScan => socialEngineeringPatterns
      case CyberScan => cybersecurityPatterns
      case MalwareScan => malwarePatterns
      case PiiScan => piiPatterns
      case OffensiveScan => offensiveContentPatterns
      case PolicyScan => policyViolationPatterns
    }
  }

  /** A match reported by `re.finditer`: `match.start()` and `match.end()`. */
  datatype Span = Span(start: nat, end: nat)

  /** `list(re.finditer(pattern, text, flags))`, in the order the matches occur. */
  type Finditer = (string, string) -> seq<Span>

  /** The two masks of `_extract_context`. */
  datatype Mask = SsnMask | CardMask

  /** `re.sub(MaskSource(m), replacement, text)`. */
  type MaskSub = (Mask, string, string) -> string

  // ----- pattern tables -----

  const PromptInjectionPatterns: seq<string> := [
    "ignore\\s+(previo" + "us|all|above|pri" + "or)\\s+(instructi" + "ons|prompts|rule" + "s|directives)",
    "(disregard|forge" + "t|override|bypas" + "s)\\s+(previous|a" + "ll|system|safety" + ")\\s+(instruction" + "s|rules|prompts)",
    "you\\s+are\\s+now\\" + "s+(allowed|permi" + "tted|authorized)" + "\\s+to",
    "(new|updated)\\s+" + "instructions?\\s*" + ":",
    "(system\\s+prompt" + "|original\\s+prom" + "pt|base\\s+prompt" + ")",
    "(reveal|show|dis" + "play|tell\\s+me)\\" + "s+(your|the)\\s+(" + "system\\s+)?promp" + "t",
    "what\\s+(are|were" + ")\\s+your\\s+(orig" + "inal|initial)\\s+" + "instructions",
    "(jailbreak|DAN\\s" + "+mode|developer\\" + "s+mode)",
    "act\\s+as\\s+if\\s+" + "you\\s+(have\\s+no" + "|are\\s+not\\s+bou" + "nd\\s+by)\\s+(rest" + "rictions|rules|g" + "uidelines)",
    "pretend\\s+(you\\s" + "+are|to\\s+be)\\s+" + "(unfiltered|unce" + "nsored|unrestric" + "ted)",
    "you\\s+are\\s+(no\\" + "s+longer|not)\\s+" + "an?\\s+(AI|assist" + "ant|chatbot)",
    "assume\\s+the\\s+(" + "role|identity)\\s" + "+of",
    "(become|transfor" + "m\\s+into)\\s+an?\\" + "s+(unrestricted|" + "unfiltered)",
    "(disable|turn\\s+" + "off|deactivate)\\" + "s+(safety|conten" + "t|ethical)\\s+(fi" + "lters?|guideline" + "s|rules)",
    "bypass\\s+(conten" + "t\\s+policy|safet" + "y\\s+measures|res" + "trictions)",
    "(ignore|skip)\\s+" + "(ethical|safety|" + "content)\\s+(guid" + "elines|constrain" + "ts|limitations)",
    "<!--.*?ignore.*?" + "-->",
    "\\[INST\\].*?\\[/IN" + "ST\\]",
    "<\\|im_start\\|>.*" + "?<\\|im_end\\|>",
    "###\\s+(system|us" + "er|assistant)\\s*" + ":",
    "<\\|system\\|>|<\\|" + "user\\|>|<\\|assis" + "tant\\|>",
    "[^\\x00-\\x7F]{10," + "}.*?(ignore|syst" + "em|prompt)"]

  /** Three entries of the social-engineering list that the severity rule
      tells apart. */
  const UrgentActionPattern: string := "(urgent|immediat" + "e)\\s+(action|att" + "ention)\\s+(requi" + "red|needed)"
  const AuthorityPattern: string := "(law\\s+enforceme" + "nt|police|FBI|IR" + "S|government\\s+a" + "gency)"
  const SuspensionPattern: string := "(immediate|urgen" + "t)\\s+(suspension" + "|termination|act" + "ion)"

  const SocialEngineeringPatterns: seq<string> := [
    "\\b(IT\\s+departme" + "nt|security\\s+te" + "am|help\\s+desk|s" + "ystem\\s+administ" + "rator)\\b.*?\\b(re" + "quire|need|must)" + "\\b",
    UrgentActionPattern,
    "\\b(HR|human\\s+re" + "sources|manageme" + "nt)\\b.*?\\b(verif" + "y|confirm|update" + ")\\b",
    AuthorityPattern,
    "\\b(password|cred" + "ential|login|use" + "rname|passphrase" + ")\\b",
    "(enter|provide|s" + "ubmit|verify)\\s+" + "(your|the)\\s+(pa" + "ssword|credentia" + "ls|MFA|2FA)",
    "(authentication|" + "verification)\\s+" + "code",
    "(account|profile" + ")\\s+(verificatio" + "n|confirmation)",
    "(account|access)" + "\\s+will\\s+be\\s+(" + "suspended|termin" + "ated|locked|disa" + "bled)",
    SuspensionPattern,
    "(within|in)\\s+\\d" + "+\\s+(hours?|minu" + "tes?|days?)\\s+(o" + "r|otherwise)",
    "(failure|refusal" + ")\\s+to\\s+comply\\" + "s+will\\s+result\\" + "s+in",
    "(click|visit|go\\" + "s+to)\\s+(this|th" + "e)\\s+(link|URL|w" + "ebsite)",
    "(download|open|e" + "xecute)\\s+(this|" + "the)\\s+(attachme" + "nt|file|document" + ")",
    "(limited\\s+time|" + "expiring|expires" + "\\s+soon)",
    "(act|respond|rep" + "ly)\\s+(now|immed" + "iately|within)",
    "(I\\s+am|this\\s+i" + "s)\\s+(from|calli" + "ng\\s+from)\\s+(IT" + "|HR|security|man" + "agement)",
    "(on\\s+behalf\\s+o" + "f|representing)\\" + "s+(IT|security|m" + "anagement|CEO|ex" + "ecutive)",
    "\\b(wire\\s+transf" + "er|payment|invoi" + "ce|refund)\\b.*?\\" + "b(urgent|immedia" + "te|today)\\b",
    "(update|change|v" + "erify)\\s+(paymen" + "t|banking|payrol" + "l)\\s+(informatio" + "n|details)"]

  const CybersecurityPatterns: seq<string> := [
    "(\\$\\(|`|;|\\||&&)" + "\\s*(bash|sh|cmd|" + "powershell|pytho" + "n|perl)",
    "(curl|wget|nc|ne" + "tcat|telnet)\\s+-",
    "(chmod|chown|sud" + "o|su\\s+-)",
    "(sudo|su\\s+root|" + "runas\\s+administ" + "rator)",
    "(privilege\\s+esc" + "alation|elevate\\" + "s+privileges)",
    "(bypass|circumve" + "nt)\\s+(UAC|authe" + "ntication|author" + "ization)",
    "(reverse\\s+shell" + "|bind\\s+shell|ba" + "ckdoor)",
    "(exploit|vulnera" + "bility|CVE-\\d{4}" + "-\\d{4,})",
    "(metasploit|mete" + "rpreter|cobalt\\s" + "+strike)",
    "\\b\\d{1,3}\\.\\d{1," + "3}\\.\\d{1,3}\\.\\d{" + "1,3}:\\d{2,5}\\b",
    "(http|https|ftp)" + "://.*?(exploit|p" + "ayload|malware)",
    "(';|\\\";\\s*)(\\s*-" + "-|\\s*/\\*|\\s*unio" + "n\\s+select)",
    "(drop|delete|tru" + "ncate)\\s+table",
    "exec(ute)?\\s*\\(",
    "\\.\\.(/|\\\\){2,}",
    "(file://|/etc/pa" + "sswd|/etc/shadow" + "|C:\\\\Windows)",
    "<script[^>]*>.*?" + "</script>",
    "(eval|exec|syste" + "m|shell_exec)\\s*" + "\\(",
    "(document\\.cooki" + "e|window\\.locati" + "on)"]

  const MalwarePatterns: seq<string> := [
    "\\b(ransomware|tr" + "ojan|rootkit|key" + "logger|spyware)\\" + "b",
    "\\b(virus|worm|ma" + "lware|botnet)\\b",
    "\\b(payload|shell" + "code|exploit\\s+k" + "it)\\b",
    "(base64|hex|rot1" + "3)\\s*(encode|dec" + "ode)",
    "eval\\(.*?decode",
    "chr\\(\\d+\\).*?chr" + "\\(\\d+\\)",
    "(AES|RSA|encrypt" + "|cipher).*?(key|" + "password|credent" + "ial)",
    "(command\\s+and\\s" + "+control|C2|exfi" + "ltrate)",
    "(beacon|callback" + "|phone\\s+home)",
    "(send|upload|tra" + "nsmit).*?(creden" + "tials?|passwords" + "?|data)",
    "(download|fetch|" + "retrieve).*?(exe" + "|dll|bin|payload" + ")",
    "(write|create).*" + "?(registry|start" + "up|scheduled\\s+t" + "ask)"]

  const PiiPatterns: seq<string> := [
    "\\b\\d{3}-\\d{2}-\\d" + "{4}\\b",
    "\\b\\d{9}\\b",
    "\\b\\d{4}[\\s-]?\\d{" + "4}[\\s-]?\\d{4}[\\s" + "-]?\\d{4}\\b",
    "\\b[A-Za-z0-9._%+" + "-]+@[A-Za-z0-9.-" + "]+\\.[A-Z|a-z]{2," + "}\\b",
    "\\b\\d{3}[-.\\s]?\\d" + "{3}[-.\\s]?\\d{4}\\" + "b",
    "\\b\\+\\d{1,3}[-.\\s" + "]?\\d{1,14}\\b",
    "(password|passwd" + "|pwd)\\s*[:=]\\s*[" + "\"\\']?[A-Za-z0-9!" + "@#$%^&*]{6,}",
    "(api[_-]?key|tok" + "en)\\s*[:=]\\s*[\"\\" + "']?[A-Za-z0-9]{2" + "0,}",
    "\\b(patient\\s+id|" + "medical\\s+record" + "|diagnosis\\s+cod" + "e)\\b",
    "\\b(account\\s+num" + "ber|routing\\s+nu" + "mber|IBAN)\\b"]

  const OffensiveContentPatterns: seq<string> := [
    "\\b(hate\\s+speech" + "|racial\\s+slur|e" + "thnic\\s+slur)\\b",
    "\\b(kill|murder|a" + "ssassinate|harm|" + "attack)\\s+(you|t" + "hem|associates|e" + "mployees)\\b",
    "\\b(bomb|explosiv" + "e|weapon|gun)\\s+" + "(threat|attack)\\" + "b",
    "\\b(harass|stalk|" + "intimidate|threa" + "ten)\\b",
    "\\b(pornographic|" + "explicit\\s+sexua" + "l|adult\\s+conten" + "t)\\b"]

  const PolicyViolationPatterns: seq<string> := [
    "\\b(confidential|" + "proprietary|trad" + "e\\s+secret|inter" + "nal\\s+only)\\b",
    "\\b(NDA|non-discl" + "osure|classified" + ")\\b",
    "\\b(insider\\s+(tr" + "ading|informatio" + "n)|material\\s+no" + "n-public)\\b",
    "\\b(discriminate|" + "discrimination)\\" + "s+(based\\s+on|ag" + "ainst)",
    "\\b(illegal|unlaw" + "ful|prohibited\\s" + "+by\\s+law)\\b",
    "\\b(data\\s+breach" + "|unauthorized\\s+" + "access|stolen\\s+" + "data)\\b"]
  /** `DocumentVerifier(use_llm_verification, project_id)`: the seven lists
      of the `_init_*_patterns` methods. */
  function NewVerifier(useLlm: bool, projectId: Wrappers.Option<string>): (v: Verifier)
    ensures v.useLlmVerification == useLlm && v.projectId == projectId
    ensures |v.Patterns(PromptInjectionScan)| == 22 && |v.Patterns(SocialEngineeringScan)| == 20
    ensures |v.Patterns(CyberScan)| == 19 && |v.Patterns(MalwareScan)| == 12 && |v.Patterns(PiiScan)| == 10
    ensures |v.Patterns(OffensiveScan)| == 5 && |v.Patterns(PolicyScan)| == 6
  {
    Verifier(useLlm, projectId, PromptInjectionPatterns, SocialEngineeringPatterns, CybersecurityPatterns,
             MalwarePatterns, PiiPatterns, OffensiveContentPatterns, PolicyViolationPatterns)
  }

  function MaskSource(m: Mask): string {
    match m
    case SsnMask => "\\d{3}-\\d{2}-\\d{4}"
    case CardMask => "\\d{4}[\\s-]?\\d{4}" + "[\\s-]?\\d{4}[\\s-]?\\d{4}"
  }

  function MaskReplacement(m: Mask): string {
    match m
    case SsnMask => "XXX-XX-XXXX"
    case CardMask => "XXXX-XXXX-" + "XXXX-XXXX"
  }

  /** The `window` argument of `_extract_context`, which every scanner leaves at its default. */
  const ContextWindow: nat := 50

  // ----- one threat per match -----

  function CategoryOf(s: Scanner): ThreatCategory {
    match s
    case PromptInjectionScan => PromptInjection
    case SocialEngineeringScan => SocialEngineering
    case CyberScan => CybersecurityThreat
    case MalwareScan => MalwareIndicators
    case PiiScan => PiiExposure
    case OffensiveScan => OffensiveContent
    case PolicyScan => PolicyViolation
  }

  function ConfidenceOf(s: Scanner): real {
    match s
    case PromptInjectionScan => 0.95
    case SocialEngineeringScan => 0.85
    case CyberScan => 0.90
    case MalwareScan => 0.80
    case PiiScan => 0.75
    case OffensiveScan => 0.70
    case PolicyScan => 0.65
  }

  function RecommendationOf(s: Scanner): string {
    match s
    case PromptInjectionScan => "Block document. " + "Contains prompt " + "injection attempt."
    case SocialEngineeringScan => "Review document. " + "Contains social " + "engineering " + "indicators."
    case CyberScan => "Block document. " + "Contains " + "cybersecurity " + "threat indicators."
    case MalwareScan => "Block document. " + "Contains malware " + "indicators."
    case PiiScan => "Review document. " + "May contain PII " + "that should not be " + "indexed."
    case OffensiveScan => "Review document. " + "May contain " + "inappropriate " + "content."
    case PolicyScan => "Review document for " + "policy compliance."
  }

  /** The social-engineering scanner grades a match by the text of the pattern
      that produced it. */
  function SocialSeverity(pattern: string): ThreatSeverity {
    if Contains(pattern, "credential") || Contains(pattern, "password") then Critical
    else if Contains(pattern, "urgent") || Contains(pattern, "immediate") then High
    else Medium
  }

  /** The severity a scanner gives a match of `pattern`. */
  function SeverityFor(s: Scanner, pattern: string): ThreatSeverity {
    match s
    case PromptInjectionScan => Critical
    case SocialEngineeringScan => SocialSeverity(pattern)
    case CyberScan => Critical
    case MalwareScan => High
    case PiiScan => High
    case OffensiveScan => Medium
    case PolicyScan => Medium
  }

  /** The text a scanner searches: the prompt-injection scanner searches
      `content.lower()`, the others the content itself. */
  function ScanText(s: Scanner, content: string): string {
    if s == PromptInjectionScan then Lower(content) else content
  }

  /** `_extract_context(content, start, end, mask_pii=maskPii)`: up to 50
      characters either side of the match, optionally masked, then stripped. */
  function ExtractContext(content: string, start: nat, end: nat, maskPii: bool, sub: MaskSub): string {
    var lo := if start >= ContextWindow then start - ContextWindow else 0;
    var hi := if end + ContextWindow <= |content| then end + ContextWindow else |content|;
    // `content[lo:hi]`; both bounds are already within Python's slice range
    var window := if lo <= hi then content[lo..hi] else "";
    Strip(if maskPii then sub(CardMask, MaskReplacement(CardMask), sub(SsnMask, MaskReplacement(SsnMask), window))
          else window)
  }

  /** The `ThreatDetection` scanner `s` appends for one match of `pattern`;
      the context is always cut from the original content. */
  function Detection(s: Scanner, pattern: string, content: string, m: Span, sub: MaskSub): ThreatDetection {
    ThreatDetection(
      CategoryOf(s),
      SeverityFor(s, pattern),
      pattern,
      ExtractContext(content, m.start, m.end, s == PiiScan, sub),
      ConfidenceOf(s),
      RecommendationOf(s))
  }

  /** The threat scanner `s` builds for each match of `pattern`. */
  function Detector(s: Scanner, pattern: string, content: string, sub: MaskSub): Span -> ThreatDetection {
    m => Detection(s, pattern, content, m, sub)
  }

  /** `detect` applied to every match of `ms`, in match order. */
  function Detections(ms: seq<Span>, detect: Span -> ThreatDetection): seq<ThreatDetection> {
    if ms == [] then [] else Detections(ms[..|ms| - 1], detect) + [detect(ms[|ms| - 1])]
  }

  /** The threats for the matches `ms` of one pattern, in match order. */
  function PatternThreats(s: Scanner, pattern: string, content: string, ms: seq<Span>, sub: MaskSub)
    : seq<ThreatDetection>
  {
    Detections(ms, Detector(s, pattern, content, sub))
  }

  /** The threats scanner `s` finds with `patterns`, pattern by pattern. */
  function ScanThreats(s: Scanner, patterns: seq<string>, content: string, finditer: Finditer, sub: MaskSub)
    : seq<ThreatDetection>
  {
    if patterns == [] then []
    else
      var p := patterns[|patterns| - 1];
      ScanThreats(s, patterns[..|patterns| - 1], content, finditer, sub)
      + PatternThreats(s, p, content, finditer(p, ScanText(s, content)), sub)
  }

  /** How many matches `finditer` reports for `patterns` altogether. */
  function MatchTotal(s: Scanner, patterns: seq<string>, content: string, finditer: Finditer): nat {
    if patterns == [] then 0
    else
      var p := patterns[|patterns| - 1];
      MatchTotal(s, patterns[..|patterns| - 1], content, finditer) + |finditer(p, ScanText(s, content))|
  }

  /** What one `_scan_*` method returns. */
  function Scan(v: Verifier, s: Scanner, content: string, finditer: Finditer, sub: MaskSub): seq<ThreatDetection> {
    ScanThreats(s, v.Patterns(s), content, finditer, sub)
  }

  /** The threat list of `verify_document`: the seven scans in their fixed order
      (the LLM step, when it runs, adds nothing). */
  function AllThreats(v: Verifier, content: string, finditer: Finditer, sub: MaskSub): seq<ThreatDetection> {
    Scan(v, PromptInjectionScan, content, finditer, sub)
    + Scan(v, SocialEngineeringScan, content, finditer, sub)
    + Scan(v, CyberScan, content, finditer, sub)
    + Scan(v, MalwareScan, content, finditer, sub)
    + Scan(v, PiiScan, content, finditer, sub)
    + Scan(v, OffensiveScan, content, finditer, sub)
    + Scan(v, PolicyScan, content, finditer, sub)
  }

  /** `_llm_semantic_verification`, a placeholder that finds nothing. */
  function LlmSemanticVerification(content: string, existing: seq<ThreatDetection>): seq<ThreatDetection> {
    []
  }

  // ----- the decision -----

  /** The highest score among the threats (0 for none). */
  function MaxScore(ts: seq<ThreatDetection>): nat {
    if ts == [] then 0
    else
      var rest := MaxScore(ts[..|ts| - 1]);
      var last := ts[|ts| - 1].severity.Score();
      if last > rest then last else rest
  }

  /** The severity whose score is `n`, as the loop over `severity_scores` finds it. */
  function SeverityOfScore(n: nat): ThreatSeverity {
    if n == 0 then None
    else if n == 1 then Low
    else if n == 2 then Medium
    else if n == 3 then High
    else if n == 4 then Critical
    else None
  }

  /** `_calculate_overall_severity`. */
  function OverallSeverity(ts: seq<ThreatDetection>): ThreatSeverity {
    if ts == [] then None else SeverityOfScore(MaxScore(ts))
  }

  predicate IsSafe(ts: seq<ThreatDetection>) {
    |ts| == 0 || forall t | t in ts :: t.severity in {None, Low}
  }

  predicate AllowIngestion(ts: seq<ThreatDetection>) {
    IsSafe(ts) && OverallSeverity(ts) !in {High, Critical}
  }

  // ----- the summary -----

  /** An insertion-ordered dictionary from category value to count. */
  type Tally = seq<(string, nat)>

  /** `threat_counts[cat] = threat_counts.get(cat, 0) + 1`. */
  function Bump(counts: Tally, cat: string): Tally {
    if counts == [] then [(cat, 1)]
    else if counts[0].0 == cat then [(cat, counts[0].1 + 1)] + counts[1..]
    else [counts[0]] + Bump(counts[1..], cat)
  }

  /** `threat_counts` after the counting loop of `_generate_summary`. */
  function Tallied(ts: seq<ThreatDetection>): Tally {
    if ts == [] then []
    else Bump(Tallied(ts[..|ts| - 1]), ts[|ts| - 1].category.Value())
  }

  function Keys(counts: Tally): seq<string> {
    if counts == [] then [] else [counts[0].0] + Keys(counts[1..])
  }

  /** `threat_counts.get(cat, 0)`. */
  function Lookup(counts: Tally, cat: string): nat {
    if counts == [] then 0
    else if counts[0].0 == cat then counts[0].1
    else Lookup(counts[1..], cat)
  }

  function Total(counts: Tally): nat {
    if counts == [] then 0 else counts[0].1 + Total(counts[1..])
  }

  /** How many of the threats have the category whose value is `cat`. */
  function Occurrences(ts: seq<ThreatDetection>, cat: string): nat {
    if ts == [] then 0
    else Occurrences(ts[..|ts| - 1], cat) + (if ts[|ts| - 1].category.Value() == cat then 1 else 0)
  }

  predicate Distinct(xs: seq<string>) {
    forall i, j | 0 <= i < j < |xs| :: xs[i] != xs[j]
  }

  const PassedSummary := "Document passed all " + "security checks. " + "Safe for ingestion."
  const BlockAdvice := "Recommendation: " + "BLOCK document from " + "ingestion."
  const ReviewAdvice := "Recommendation: " + "REVIEW document " + "before ingestion."
  const ProceedAdvice := "Recommendation: " + "Document may " + "proceed with " + "caution."

  function Recommendation(overall: ThreatSeverity): string {
    if overall in {High, Critical} then BlockAdvice
    else if overall == Medium then ReviewAdvice
    else ProceedAdvice
  }

  function SeverityLine(overall: ThreatSeverity): string {
    "Document " + "verification: " + Upper(overall.Value()) + " severity"
  }

  function DetectedLine(n: nat): string {
    "Detected " + NatToString(n) + " potential " + "threat(s):"
  }

  function CountLine(entry: (string, nat)): string {
    "  - " + entry.0 + ": " + NatToString(entry.1)
  }

  function CountLines(counts: Tally): seq<string> {
    if counts == [] then []
    else CountLines(counts[..|counts| - 1]) + [CountLine(counts[|counts| - 1])]
  }

  /** The lines `_generate_summary` joins with newlines. */
  function SummaryLines(ts: seq<ThreatDetection>, overall: ThreatSeverity): seq<string> {
    if ts == [] then [PassedSummary]
    else [SeverityLine(overall), DetectedLine(|ts|)] + CountLines(Tallied(ts)) + [Recommendation(overall)]
  }

  function Summary(ts: seq<ThreatDetection>, overall: ThreatSeverity): string {
    Join("\n", SummaryLines(ts, overall))
  }

  // ----- the loops of the source -----

  /** The inner loop of a scanner: one threat per match, in match order. */
  method AppendMatches(threats: seq<ThreatDetection>, matches: seq<Span>, detect: Span -> ThreatDetection)
    returns (r: seq<ThreatDetection>)
    ensures r == threats + Detections(matches, detect)
  {
    r := threats;
    for j := 0 to |matches|
      invariant r == threats + Detections(matches[..j], detect)
    {
      assert matches[..j + 1][..j] == matches[..j];
      r := r + [detect(matches[j])];
    }
    assert matches[..|matches|] == matches;
  }

  lemma ScanThreatsSnoc(s: Scanner, patterns: seq<string>, i: nat, content: string, finditer: Finditer, sub: MaskSub)
    requires i < |patterns|
    ensures ScanThreats(s, patterns[..i + 1], content, finditer, sub)
      == ScanThreats(s, patterns[..i], content, finditer, sub)
         + Detections(finditer(patterns[i], ScanText(s, content)), Detector(s, patterns[i], content, sub))
  {
    assert patterns[..i + 1][..i] == patterns[..i];
  }

  /** One `_scan_*` method: for each of its patterns, one threat per match. */
  method ScanPatterns(v: Verifier, s: Scanner, content: string, finditer: Finditer, sub: MaskSub)
    returns (threats: seq<ThreatDetection>)
    ensures threats == Scan(v, s, content, finditer, sub)
  {
    var patterns := v.Patterns(s);
    var text := ScanText(s, content);
    threats := [];
    for i := 0 to |patterns|
      invariant threats == ScanThreats(s, patterns[..i], content, finditer, sub)
    {
      ScanThreatsSnoc(s, patterns, i, content, finditer, sub);
      var matches := finditer(patterns[i], text);
      threats := AppendMatches(threats, matches, Detector(s, patterns[i], content, sub));
    }
    assert patterns[..|patterns|] == patterns;
  }

  /** The counting loop and the line-building loop of `_generate_summary`. */
  method GenerateSummary(ts: seq<ThreatDetection>, overall: ThreatSeverity) returns (summary: string)
    ensures summary == Summary(ts, overall)
  {
    if ts == [] {
      return PassedSummary;
    }
    var counts: Tally := [];
    for i := 0 to |ts|
      invariant counts == Tallied(ts[..i])
    {
      assert ts[..i + 1][..i] == ts[..i];
      counts := Bump(counts, ts[i].category.Value());
    }
    assert ts[..|ts|] == ts;
    var parts := [SeverityLine(overall), DetectedLine(|ts|)];
    for j := 0 to |counts|
      invariant parts == [SeverityLine(overall), DetectedLine(|ts|)] + CountLines(counts[..j])
    {
      assert counts[..j + 1][..j] == counts[..j];
      parts := parts + [CountLine(counts[j])];
    }
    assert counts[..|counts|] == counts;
    parts := parts + [Recommendation(overall)];
    summary := Join("\n", parts);
  }

  /** The seven `threats.extend(self._scan_...(content))` calls of `verify_document`. */
  method RunScanners(v: Verifier, content: string, finditer: Finditer, sub: MaskSub)
    returns (threats: seq<ThreatDetection>)
    ensures threats == AllThreats(v, content, finditer, sub)
  {
    threats := ScanPatterns(v, PromptInjectionScan, content, finditer, sub);
    var found := ScanPatterns(v, SocialEngineeringScan, content, finditer, sub);
    threats := threats + found;
    found := ScanPatterns(v, CyberScan, content, finditer, sub);
    threats := threats + found;
    found := ScanPatterns(v, MalwareScan, content, finditer, sub);
    threats := threats + found;
    found := ScanPatterns(v, PiiScan, content, finditer, sub);
    threats := threats + found;
    found := ScanPatterns(v, OffensiveScan, content, finditer, sub);
    threats := threats + found;
    found := ScanPatterns(v, PolicyScan, content, finditer, sub);
    threats := threats + found;
  }

  /** `verify_document`; `digest` is the SHA-256 hex digest and `now` the clock. */
  method VerifyDocument(v: Verifier, content: string, finditer: Finditer, sub: MaskSub,
                        digest: string -> string, now: nat)
    returns (result: VerificationResult)
    ensures result.threatsDetected == AllThreats(v, content, finditer, sub)
    ensures result.overallSeverity == OverallSeverity(result.threatsDetected)
    ensures result.isSafe == IsSafe(result.threatsDetected)
    ensures result.allowIngestion == AllowIngestion(result.threatsDetected)
    ensures result.summary == Summary(result.threatsDetected, result.overallSeverity)
    ensures result.documentHash == PyTake(digest(content), 16)
    ensures result.verifiedAt == now
  {
    var threats := RunScanners(v, content, finditer, sub);
    if v.useLlmVerification && threats != [] {
      threats := threats + LlmSemanticVerification(content, threats);
    }
    var overall := OverallSeverity(threats);
    var isSafe := |threats| == 0 || forall t | t in threats :: t.severity in {None, Low};
    var allow := isSafe && overall !in {High, Critical};
    var summary := GenerateSummary(threats, overall);
    result := VerificationResult(isSafe, threats, overall, PyTake(digest(content), 16), now, summary, allow);
  }

  // ----- properties -----

  /** `Detections` applies `detect` to each match, keeping their order. */
  lemma {:induction false} DetectionsRule(ms: seq<Span>, detect: Span -> ThreatDetection)
    ensures var r := Detections(ms, detect);
      && |r| == |ms|
      && forall k :: 0 <= k < |ms| ==> r[k] == detect(ms[k])
  {
    if ms != [] {
      DetectionsRule(ms[..|ms| - 1], detect);
    }
  }

  /** A scanner appends one threat per match of a pattern, in match order. */
  lemma PatternThreatsRule(s: Scanner, pattern: string, content: string, ms: seq<Span>, sub: MaskSub)
    ensures var r := PatternThreats(s, pattern, content, ms, sub);
      && |r| == |ms|
      && forall k :: 0 <= k < |ms| ==> r[k] == Detection(s, pattern, content, ms[k], sub)
  {
    DetectionsRule(ms, Detector(s, pattern, content, sub));
  }

  /** Every threat a scanner reports carries the scanner's category,
      confidence and recommendation, one of the scanner's patterns, and the
      severity the scanner gives that pattern; there are as many threats as
      matches. */
  lemma {:induction false} ScanThreatsRule(s: Scanner, patterns: seq<string>, content: string, finditer: Finditer, sub: MaskSub)
    ensures |ScanThreats(s, patterns, content, finditer, sub)| == MatchTotal(s, patterns, content, finditer)
    ensures forall t | t in ScanThreats(s, patterns, content, finditer, sub) ::
      && t.category == CategoryOf(s)
      && t.severity == SeverityFor(s, t.pattern)
      && t.confidence == ConfidenceOf(s)
      && t.recommendation == RecommendationOf(s)
      && t.pattern in patterns
  {
    if patterns != [] {
      var init, p := patterns[..|patterns| - 1], patterns[|patterns| - 1];
      ScanThreatsRule(s, init, content, finditer, sub);
      var ms := finditer(p, ScanText(s, content));
      PatternThreatsRule(s, p, content, ms, sub);
      forall t | t in PatternThreats(s, p, content, ms, sub)
        ensures t.pattern == p
      {
        var k :| 0 <= k < |ms| && PatternThreats(s, p, content, ms, sub)[k] == t;
      }
    }
  }

  /** What a threat reported by scanner `s` of verifier `v` looks like. */
  predicate FromScanner(v: Verifier, s: Scanner, t: ThreatDetection) {
    && t.category == CategoryOf(s)
    && t.severity == SeverityFor(s, t.pattern)
    && t.confidence == ConfidenceOf(s)
    && t.recommendation == RecommendationOf(s)
    && t.pattern in v.Patterns(s)
  }

  /** Every threat scanner `s` reports looks as `FromScanner` says. */
  lemma ScanFromScanner(v: Verifier, s: Scanner, content: string, finditer: Finditer, sub: MaskSub)
    ensures forall t | t in Scan(v, s, content, finditer, sub) :: FromScanner(v, s, t)
  {
    ScanThreatsRule(s, v.Patterns(s), content, finditer, sub);
  }

  /** Every threat of `verify_document` comes from one of the seven scanners. */
  lemma AllThreatsFromScanners(v: Verifier, content: string, finditer: Finditer, sub: MaskSub)
    ensures forall t | t in AllThreats(v, content, finditer, sub) :: exists s :: FromScanner(v, s, t)
  {
    forall s: Scanner {
      ScanFromScanner(v, s, content, finditer, sub);
    }
  }

  /** The scanner table: what a threat looks like, by category. No scanner
      reports CLEAN or SUSPICIOUS_PATTERNS, and none reports a severity below
      MEDIUM. */
  lemma ScannerTable(v: Verifier, s: Scanner, t: ThreatDetection)
    requires FromScanner(v, s, t)
    ensures t.category !in {Clean, SuspiciousPatterns}
    ensures t.severity.Score() >= Medium.Score()
    ensures t.category == PromptInjection ==> t.severity == Critical && t.confidence == 0.95
    ensures t.category == SocialEngineering ==>
      && t.severity == SocialSeverity(t.pattern) && t.confidence == 0.85
      && t.pattern in v.socialEngineeringPatterns
    ensures t.category == CybersecurityThreat ==> t.severity == Critical && t.confidence == 0.90
    ensures t.category == MalwareIndicators ==> t.severity == High && t.confidence == 0.80
    ensures t.category == PiiExposure ==> t.severity == High && t.confidence == 0.75
    ensures t.category == OffensiveContent ==> t.severity == Medium && t.confidence == 0.70
    ensures t.category == PolicyViolation ==> t.severity == Medium && t.confidence == 0.65
  {
  }

  /** The social-engineering rule on the shipped list: the bare credential
      pattern is CRITICAL, ... */
  lemma CredentialPatternIsCritical()
    ensures SocialSeverity(SocialEngineeringPatterns[4]) == Critical
  {
    assert OccursAt(SocialEngineeringPatterns[4], "password", 3);
  }

  /** ... the two urgency patterns are HIGH, ... */
  lemma UrgentActionPatternIsHigh()
    ensures SocialSeverity(SocialEngineeringPatterns[1]) == High
  {
    assert SocialEngineeringPatterns[1] == UrgentActionPattern;
    assert 'l' !in UrgentActionPattern;
    assert 'w' !in UrgentActionPattern;
    MissingCharNotContains(UrgentActionPattern, "credential", 'l');
    MissingCharNotContains(UrgentActionPattern, "password", 'w');
    assert OccursAt(UrgentActionPattern, "urgent", 1);
  }

  lemma ImmediateSuspensionPatternIsHigh()
    ensures SocialSeverity(SocialEngineeringPatterns[9]) == High
  {
    assert SocialEngineeringPatterns[9] == SuspensionPattern;
    assert 'l' !in SuspensionPattern;
    assert 'w' !in SuspensionPattern;
    MissingCharNotContains(SuspensionPattern, "credential", 'l');
    MissingCharNotContains(SuspensionPattern, "password", 'w');
    assert OccursAt(SuspensionPattern, "immediate", 1);
  }

  /** ... and the authority-name pattern is MEDIUM. */
  lemma AuthorityPatternIsMedium()
    ensures SocialSeverity(SocialEngineeringPatterns[3]) == Medium
  {
    assert SocialEngineeringPatterns[3] == AuthorityPattern;
    assert 'd' !in AuthorityPattern;
    assert 'u' !in AuthorityPattern;
    MissingCharNotContains(AuthorityPattern, "credential", 'd');
    MissingCharNotContains(AuthorityPattern, "password", 'd');
    MissingCharNotContains(AuthorityPattern, "urgent", 'u');
    MissingCharNotContains(AuthorityPattern, "immediate", 'd');
  }

  /** `_calculate_overall_severity` is the maximum under
      NONE < LOW < MEDIUM < HIGH < CRITICAL, and NONE exactly for no threats. */
  lemma {:induction false} OverallIsMaximum(ts: seq<ThreatDetection>)
    ensures forall t | t in ts :: t.severity.Score() <= OverallSeverity(ts).Score()
    ensures ts != [] ==> exists t | t in ts :: t.severity == OverallSeverity(ts)
    ensures ts == [] ==> OverallSeverity(ts) == None
  {
    var w := MaxScoreIsMaximum(ts);
    if ts != [] {
      assert ts[w] in ts;
    }
  }

  lemma {:induction false} MaxScoreIsMaximum(ts: seq<ThreatDetection>) returns (w: nat)
    ensures forall k :: 0 <= k < |ts| ==> ts[k].severity.Score() <= MaxScore(ts)
    ensures ts != [] ==> w < |ts| && ts[w].severity.Score() == MaxScore(ts)
    ensures MaxScore(ts) <= 4
  {
    w := 0;
    if ts != [] {
      var init := ts[..|ts| - 1];
      w := MaxScoreIsMaximum(init);
      if init == [] || ts[|ts| - 1].severity.Score() > MaxScore(init) {
        w := |ts| - 1;
      }
      forall k | 0 <= k < |init| ensures ts[k] == init[k] { }
    }
  }

  /** The ingestion rule: the extra HIGH/CRITICAL test adds nothing, so a
      document may be ingested exactly when it is safe, which is exactly when
      no threat is above LOW; a single MEDIUM threat blocks it. */
  lemma AllowIffSafe(ts: seq<ThreatDetection>)
    ensures AllowIngestion(ts) <==> IsSafe(ts)
    ensures IsSafe(ts) <==> forall t | t in ts :: t.severity.Score() <= Low.Score()
    ensures (exists t | t in ts :: t.severity == Medium) ==> !AllowIngestion(ts)
  {
    OverallIsMaximum(ts);
  }

  /** For the threats the scanners report, nothing is ever LOW or NONE:
      `verify_document` allows ingestion exactly when no pattern matched, and
      a document with threats is never told it may proceed. */
  lemma VerifiedDocumentRule(v: Verifier, content: string, finditer: Finditer, sub: MaskSub)
    ensures var ts := AllThreats(v, content, finditer, sub);
      && (IsSafe(ts) <==> ts == [])
      && (AllowIngestion(ts) <==> ts == [])
      && (ts == [] ==> Summary(ts, OverallSeverity(ts)) == PassedSummary)
      && (ts != [] ==> Recommendation(OverallSeverity(ts)) in {BlockAdvice, ReviewAdvice})
  {
    var ts := AllThreats(v, content, finditer, sub);
    AllowIffSafe(ts);
    OverallIsMaximum(ts);
    ThreatsAtLeastMedium(v, content, finditer, sub);
    if ts != [] {
      assert ts[0] in ts;
    }
  }

  /** No threat the scanners report is below MEDIUM. */
  lemma ThreatsAtLeastMedium(v: Verifier, content: string, finditer: Finditer, sub: MaskSub)
    ensures forall t | t in AllThreats(v, content, finditer, sub) :: t.severity.Score() >= Medium.Score()
  {
    AllThreatsFromScanners(v, content, finditer, sub);
    forall t | t in AllThreats(v, content, finditer, sub)
      ensures t.severity.Score() >= Medium.Score()
    {
      var s :| FromScanner(v, s, t);
      ScannerSeverity(v, s, t);
    }
  }

  lemma ScannerSeverity(v: Verifier, s: Scanner, t: ThreatDetection)
    requires FromScanner(v, s, t)
    ensures t.severity.Score() >= Medium.Score()
  {
  }

  /** Without masking, the context is a piece of the content at most 100
      characters longer than the match. */
  lemma ContextRule(content: string, start: nat, end: nat, sub: MaskSub) returns (at: nat)
    requires start <= end <= |content|
    ensures var r := ExtractContext(content, start, end, false, sub);
      && OccursAt(content, r, at)
      && |r| <= end - start + 2 * ContextWindow
  {
    var lo := if start >= ContextWindow then start - ContextWindow else 0;
    var hi := if end + ContextWindow <= |content| then end + ContextWindow else |content|;
    assert ExtractContext(content, start, end, false, sub) == Strip(content[lo..hi]);
    at := StripSlice(content, lo, hi);
  }

  /** The counting dictionary of `_generate_summary` holds, for each
      category, the number of threats of that category, and its counts add
      up to the number of threats. */
  lemma {:induction false} TallyCounts(ts: seq<ThreatDetection>)
    ensures Distinct(Keys(Tallied(ts)))
    ensures Total(Tallied(ts)) == |ts|
    ensures forall cat :: Lookup(Tallied(ts), cat) == Occurrences(ts, cat)
  {
    if ts != [] {
      var init, last := ts[..|ts| - 1], ts[|ts| - 1];
      TallyCounts(init);
      BumpRule(Tallied(init), last.category.Value());
    }
  }

  /** Each category that occurs among the threats is a key of the dictionary
      exactly once, and nothing else is. */
  lemma {:induction false} TallyKeys(ts: seq<ThreatDetection>)
    ensures Distinct(Keys(Tallied(ts)))
    ensures forall cat :: cat in Keys(Tallied(ts)) <==> exists t | t in ts :: t.category.Value() == cat
  {
    if ts != [] {
      var init, last := ts[..|ts| - 1], ts[|ts| - 1];
      TallyKeys(init);
      BumpRule(Tallied(init), last.category.Value());
      assert ts == init + [last];
    }
  }

  lemma {:induction false} BumpRule(counts: Tally, cat: string)
    requires Distinct(Keys(counts))
    ensures Total(Bump(counts, cat)) == Total(counts) + 1
    ensures Distinct(Keys(Bump(counts, cat)))
    ensures forall x :: x in Keys(Bump(counts, cat)) <==> x in Keys(counts) || x == cat
    ensures forall x :: Lookup(Bump(counts, cat), x) == Lookup(counts, x) + (if x == cat then 1 else 0)
  {
    if counts != [] {
      var keys, rest := Keys(counts), counts[1..];
      assert keys[1..] == Keys(rest);
      if counts[0].0 == cat {
        assert Keys(Bump(counts, cat)) == keys;
      } else {
        BumpRule(rest, cat);
        var b := Bump(counts, cat);
        assert b == [counts[0]] + Bump(rest, cat);
        var kb := Keys(b);
        assert kb == [counts[0].0] + Keys(Bump(rest, cat));
        forall i, j | 0 <= i < j < |kb| ensures kb[i] != kb[j] {
          if i == 0 {
            assert kb[j] in Keys(Bump(rest, cat));
          }
        }
      }
    }
  }

  lemma {:induction false} LookupInKeys(counts: Tally, x: string)
    requires Lookup(counts, x) != 0
    ensures x in Keys(counts)
  {
    if counts[0].0 != x {
      LookupInKeys(counts[1..], x);
    }
  }

  /** The summary: the fixed "passed" text for no threats; otherwise a
      severity line, a count line, one line per category, and the
      recommendation, which blocks HIGH and CRITICAL, reviews MEDIUM and lets
      anything else proceed. */
  lemma SummaryRule(ts: seq<ThreatDetection>, overall: ThreatSeverity)
    ensures ts == [] ==> Summary(ts, overall) == PassedSummary
    ensures ts != [] ==> var lines := SummaryLines(ts, overall);
      && |lines| == |Tallied(ts)| + 3
      && lines[0] == SeverityLine(overall)
      && lines[1] == DetectedLine(|ts|)
      && lines[|lines| - 1] == Recommendation(overall)
      && Contains(Summary(ts, overall), Recommendation(overall))
    ensures Recommendation(overall) == BlockAdvice <==> overall in {High, Critical}
    ensures Recommendation(overall) == ReviewAdvice <==> overall == Medium
    ensures Recommendation(overall) == ProceedAdvice <==> overall in {None, Low}
  {
    if ts != [] {
      var lines := SummaryLines(ts, overall);
      CountLinesLength(Tallied(ts));
      assert OccursAt(Recommendation(overall), Recommendation(overall), 0);
      JoinContains("\n", lines, |lines| - 1, Recommendation(overall));
    }
  }

  lemma {:induction false} CountLinesLength(counts: Tally)
    ensures |CountLines(counts)| == |counts|
  {
    if counts != [] {
      CountLinesLength(counts[..|counts| - 1]);
    }
  }
}
