/** The safety policy engine of backend/safety/policy_engine.py: a fixed
    response per classification category, the log-masking rule and the
    escalation recipients. */
module SafetyPolicy {
  import opened Wrappers
  import opened Text
  import opened SafetyClassifier

  /** The engine's `support_resources` entries. */
  datatype SupportResource = MentalHealth | HrEthics | Crisis | Security
  {
    function Name(): string {
      match this
      case MentalHealth => "Employee Assistance Program (EAP)"
      case HrEthics => "HR Ethics Hotline"
      case Crisis => "988 Suicide & Crisis Lifeline"
      case Security => "Corporate Security"
    }

    function Phone(): string {
      match this
      case MentalHealth => "1-800-XXX-XXXX"
      case HrEthics => "1-800-XXX-YYYY"
      case Crisis => "988"
      case Security => "1-800-XXX-ZZZZ"
    }

    /** Only the crisis line has a `text` entry. */
    function TextLine(): Option<string> {
      if this == Crisis then Some("Text \"HELLO\" to 741741") else None
    }

    function Hours(): string {
      "24/7"
    }

    function Description(): string {
      match this
      case MentalHealth => "Free, confidential counseling and support"
      case HrEthics => "Confidential reporting for workplace concerns"
      case Crisis => "Immediate support for mental health crisis"
      case Security => "Immediate response for safety concerns"
    }
  }

  /** The bullet as the source file spells it ("•" read through the wrong code page). */
  const Bullet := "\U{E2}\U{20AC}\U{A2}"
  /** The siren emoji, spelled the same way. */
  const Siren := "\U{F0}\U{178}\U{161}\U{A8}"
  const CrisisNumber := "988"
  const EmergencyNumber := "911"

  /** The three redirect messages `random.choice` picks from. */
  const ProfanityMessages: seq<string> := [
    "I'm here to help " + "with work-related " + "questions. What can " + "I assist you with?",
    "Let's keep our " + "conversation " + "professional. How " + "can I help you " + "today?",
    "I'm here to support " + "you with store " + "operations. What do " + "you need?"]

  /** Which of the engine's fixed messages a response carries. */
  datatype ResponseMessage =
    | NoMessage
    | Redirect(choice: nat)
    | DistressSupport
    | SelfHarmSupport
    | HarmDeescalation
    | EmergencyHelp
  {
    /** The message's lines. */
    function Lines(): seq<string> {
      match this
      case NoMessage => [""]
      case Redirect(k) => [if k < |ProfanityMessages| then ProfanityMessages[k] else ""]
      case DistressSupport => DistressLines()
      case SelfHarmSupport => SelfHarmLines()
      case HarmDeescalation => HarmLines()
      case EmergencyHelp => EmergencyLines()
    }

    /** The message text: its lines joined by newlines. */
    function Text(): string {
      Join("\n", Lines())
    }
  }

  /** The lines of the message of `_emotional_distress_response`. */
  function DistressLines(): seq<string> {
    [ "I want to make sure " + "you're okay. While " + "I'm here to help " + "with work tasks, it " + "sounds like you " + "might benefit from " + "additional support.",
      "",
      "**Confidential " + "Resources " + "Available:**",
      Bullet + " Employee " + "Assistance Program " + "(EAP): " + "1-800-XXX-XXXX " + "(24/7, free " + "counseling)",
      Bullet + " HR Ethics Hotline: " + "1-800-XXX-YYYY " + "(24/7, confidential)",
      "",
      "You're not alone, " + "and reaching out is " + "a sign of strength. " + "These services are " + "completely " + "confidential.",
      "",
      "If you'd like, I " + "can help you " + "connect with " + "workplace " + "resources, or we " + "can continue with " + "your work question. " + "What would be most " + "helpful?"]
  }

  /** The lines of the message of `_self_harm_response`. */
  function SelfHarmLines(): seq<string> {
    [ "Your safety is the " + "most important " + "thing right now.",
      "",
      "**Immediate Support " + "Available:**",
      Bullet + " " + CrisisNumber + " Suicide & Crisis " + "Lifeline: Call 988 " + "or text \"HELLO\" to " + "741741 (24/7)",
      Bullet + " Employee " + "Assistance Program: " + "1-800-XXX-XXXX " + "(24/7, confidential " + "counseling)",
      "",
      "If you're in " + "immediate danger, " + "please:",
      Bullet + " Call " + EmergencyNumber,
      Bullet + " Go to your nearest " + "emergency room",
      Bullet + " Tell a manager or " + "security team member",
      "",
      "These feelings are " + "temporary, and " + "support is " + "available. You " + "don't have to go " + "through this alone.",
      "",
      "I've also connected " + "you with our " + "confidential " + "support team who " + "can provide " + "additional " + "resources. This is " + "completely private."]
  }

  /** The lines of the message of `_harm_others_response`. */
  function HarmLines(): seq<string> {
    [ "I'm here to help, " + "and I want to make " + "sure everyone stays " + "safe.",
      "",
      "If you're feeling " + "angry or upset " + "about something at " + "work, there are " + "better ways to " + "address it:",
      "",
      Bullet + " Talk to HR or your " + "manager about " + "workplace concerns",
      Bullet + " Use the anonymous " + "Ethics Hotline: " + "1-800-XXX-YYYY " + "(24/7)",
      Bullet + " Reach out to EAP " + "for support: " + "1-800-XXX-XXXX " + "(24/7, free " + "counseling)",
      "",
      "If you're concerned " + "about immediate " + "safety, please " + "contact:",
      Bullet + " Corporate " + "Security: " + "1-800-XXX-ZZZZ " + "(24/7)",
      Bullet + " Local emergency " + "services: " + EmergencyNumber,
      "",
      "I've also notified " + "our support team " + "who can help " + "address your " + "concerns " + "confidentially."]
  }

  /** The lines of the message of `_imminent_danger_response`. */
  function EmergencyLines(): seq<string> {
    [ Siren + " **Immediate Help " + "Available** " + Siren,
      "",
      "If you or someone " + "else is in " + "immediate danger:",
      "",
      "**Call " + EmergencyNumber + " Now**",
      "",
      "Or contact:",
      Bullet + " " + CrisisNumber + " Suicide & Crisis " + "Lifeline (call or " + "text 988)",
      Bullet + " Corporate " + "Security: " + "1-800-XXX-ZZZZ",
      Bullet + " Store Manager or " + "Security Team",
      "",
      "**You are not " + "alone. Help is " + "available right " + "now.**",
      "",
      "I'm also connecting " + "you with our " + "emergency response " + "team immediately. " + "Someone will reach " + "out to you shortly.",
      "",
      "Your safety matters."]
  }

  /** A value of the response's `metadata` dictionary. */
  datatype MetaValue = Str(s: string) | Flag(b: bool) | Names(names: seq<string>)

  /** `metadata`: its 'category' entry, its 'severity' entry when present, then
      the remaining entries in the order the source writes them. */
  datatype Metadata = Metadata(category: string, severity: Option<string>, extra: seq<(string, MetaValue)>)

  /** The `SafetyResponse` dataclass. */
  datatype SafetyResponse = SafetyResponse(
    message: ResponseMessage,
    resources: seq<SupportResource>,
    allowContinuation: bool,
    requiresEscalation: bool,
    escalationPriority: Option<string>,
    metadata: Metadata)

  function ResourceNames(rs: seq<SupportResource>): (r: seq<string>)
    ensures |r| == |rs| && forall i :: 0 <= i < |rs| ==> r[i] == rs[i].Name()
  {
    seq(|rs|, i requires 0 <= i < |rs| => rs[i].Name())
  }

  /** `_safe_operational_response`. */
  const SafeResponse := SafetyResponse(NoMessage, [], true, false, None, Metadata("safe_operational", None, []))

  /** `_profanity_response`; `pick` is the index `random.choice` draws. */
  function ProfanityResponse(c: Classification, pick: nat): SafetyResponse
    requires pick < |ProfanityMessages|
  {
    SafetyResponse(Redirect(pick), [], true, false, None,
      Metadata("profanity_only", Some(c.severity.Value()), [("action", Str("redirect"))]))
  }

  /** `_emotional_distress_response`. */
  function DistressResponse(c: Classification): SafetyResponse {
    var resources := [MentalHealth, HrEthics];
    SafetyResponse(DistressSupport, resources, false, true, Some("MEDIUM"),
      Metadata("emotional_distress", Some(c.severity.Value()), [("resources_provided", Names(ResourceNames(resources)))]))
  }

  /** `_self_harm_response`. */
  function SelfHarmResponse(c: Classification): SafetyResponse {
    SafetyResponse(SelfHarmSupport, [Crisis, MentalHealth], false, true, Some("HIGH"),
      Metadata("self_harm_risk", Some(c.severity.Value()),
        [("crisis_resources_provided", Flag(true)), ("requires_immediate_attention", Flag(true))]))
  }

  /** `_harm_others_response`. */
  function HarmOthersResponse(c: Classification): SafetyResponse {
    SafetyResponse(HarmDeescalation, [Security, HrEthics, MentalHealth], false, true, Some("CRITICAL"),
      Metadata("harm_to_others", Some(c.severity.Value()),
        [("security_notified", Flag(true)), ("requires_immediate_response", Flag(true))]))
  }

  /** `_imminent_danger_response`. */
  function ImminentDangerResponse(c: Classification): SafetyResponse {
    SafetyResponse(EmergencyHelp, [Crisis, Security], false, true, Some("CRITICAL_IMMEDIATE"),
      Metadata("imminent_danger", Some(c.severity.Value()),
        [("emergency_response_triggered", Flag(true)), ("timestamp_critical", Flag(true))]))
  }

  /** `generate_response`: dispatch on the category alone. */
  function GenerateResponse(c: Classification, pick: nat): SafetyResponse
    requires pick < |ProfanityMessages|
  {
    match c.category
    case SafeOperational => SafeResponse
    case ProfanityOnly => ProfanityResponse(c, pick)
    case EmotionalDistress => DistressResponse(c)
    case SelfHarmRisk => SelfHarmResponse(c)
    case HarmToOthersRisk => HarmOthersResponse(c)
    case ImminentDanger => ImminentDangerResponse(c)
  }

  /** `should_mask_in_logs`. */
  predicate ShouldMaskInLogs(c: Classification) {
    c.category !in {SafeOperational, ProfanityOnly}
  }

  /** `get_escalation_recipients`. */
  function EscalationRecipients(c: Classification): seq<string> {
    match c.category
    case EmotionalDistress => ["eap_team", "hr_wellbeing"]
    case SelfHarmRisk => ["eap_urgent", "hr_crisis_team"]
    case HarmToOthersRisk => ["corporate_security", "hr_crisis_team", "legal"]
    case ImminentDanger => ["corporate_security_emergency", "hr_crisis_team", "regional_ops_manager", "legal"]
    case _ => []
  }

  // ----- properties -----

  /** The response depends on the category alone: two classifications with the
      same category (and the same draw for the profanity message) get the same
      response, apart from the copied severity in the metadata. */
  lemma ResponseDependsOnlyOnCategory(c1: Classification, c2: Classification, pick: nat)
    requires pick < |ProfanityMessages|
    requires c1.category == c2.category
    ensures var r1, r2 := GenerateResponse(c1, pick), GenerateResponse(c2, pick);
      r1.(metadata := r1.metadata.(severity := None)) == r2.(metadata := r2.metadata.(severity := None))
    ensures var r := GenerateResponse(c1, pick);
      r.metadata.severity == if c1.category == SafeOperational then None else Some(c1.severity.Value())
  {
  }

  /** Across the whole table: escalation, paused conversation, a priority and
      log masking all coincide, and hold exactly for the categories other than
      SAFE_OPERATIONAL and PROFANITY_ONLY. */
  lemma EscalationInvariant(c: Classification, pick: nat)
    requires pick < |ProfanityMessages|
    ensures var r := GenerateResponse(c, pick);
      && (r.requiresEscalation <==> !c.category.IsBenign())
      && (r.requiresEscalation <==> !r.allowContinuation)
      && (r.requiresEscalation <==> r.escalationPriority.Some?)
      && (r.requiresEscalation <==> ShouldMaskInLogs(c))
      && (r.requiresEscalation <==> r.resources != [])
  {
  }

  /** SAFE_OPERATIONAL: no message, no resources, continue, no escalation, no priority. */
  lemma SafeRule(c: Classification, pick: nat)
    requires pick < |ProfanityMessages|
    requires c.category == SafeOperational
    ensures var r := GenerateResponse(c, pick);
      r.message == NoMessage && r.resources == [] && r.allowContinuation
      && !r.requiresEscalation && r.escalationPriority == None
  {
  }

  /** The safe response's message is the empty string. */
  lemma NoMessageIsEmpty(m: ResponseMessage)
    requires m.NoMessage?
    ensures m.Text() == ""
  {
  }

  /** PROFANITY_ONLY: the drawn redirect message; continue, no escalation, no
      priority, no resources. */
  lemma ProfanityRule(c: Classification, pick: nat)
    requires pick < |ProfanityMessages|
    requires c.category == ProfanityOnly
    ensures var r := GenerateResponse(c, pick);
      r.message == Redirect(pick)
      && r.allowContinuation && !r.requiresEscalation && r.escalationPriority == None && r.resources == []
  {
  }

  /** A redirect message is exactly one of the three fixed strings, and every
      one of them can be drawn. */
  lemma RedirectIsOneOfThree(m: ResponseMessage)
    requires m.Redirect? && m.choice < |ProfanityMessages|
    ensures m.Text() in ProfanityMessages && m.Text() == ProfanityMessages[m.choice]
  {
  }

  /** SELF_HARM_RISK: the crisis-support message, crisis line then EAP, the
      conversation paused and priority 'HIGH' whatever the severity. */
  lemma SelfHarmRule(c: Classification, pick: nat)
    requires pick < |ProfanityMessages|
    requires c.category == SelfHarmRisk
    ensures var r := GenerateResponse(c, pick);
      r.message == SelfHarmSupport && r.resources == [Crisis, MentalHealth]
      && !r.allowContinuation && r.requiresEscalation && r.escalationPriority == Some("HIGH")
  {
  }

  /** IMMINENT_DANGER: the emergency message, crisis line then security, the
      conversation paused and priority 'CRITICAL_IMMEDIATE'. */
  lemma ImminentRule(c: Classification, pick: nat)
    requires pick < |ProfanityMessages|
    requires c.category == ImminentDanger
    ensures var r := GenerateResponse(c, pick);
      r.message == EmergencyHelp && r.resources == [Crisis, Security]
      && !r.allowContinuation && r.requiresEscalation && r.escalationPriority == Some("CRITICAL_IMMEDIATE")
  {
  }

  /** The priorities, fixed per category and independent of the severity:
      'MEDIUM' for distress, 'HIGH' for self-harm, 'CRITICAL' for harm to
      others, 'CRITICAL_IMMEDIATE' for imminent danger, none otherwise. */
  lemma PriorityRule(c: Classification, pick: nat)
    requires pick < |ProfanityMessages|
    ensures var p := GenerateResponse(c, pick).escalationPriority;
      && (c.category == EmotionalDistress <==> p == Some("MEDIUM"))
      && (c.category == SelfHarmRisk <==> p == Some("HIGH"))
      && (c.category == HarmToOthersRisk <==> p == Some("CRITICAL"))
      && (c.category == ImminentDanger <==> p == Some("CRITICAL_IMMEDIATE"))
      && (c.category.IsBenign() <==> p == None)
  {
  }

  /** The resources each escalated category offers, in order; the distress
      response lists their names in its metadata. */
  lemma ResourcesRule(c: Classification, pick: nat)
    requires pick < |ProfanityMessages|
    ensures var rs := GenerateResponse(c, pick).resources;
      && (c.category == EmotionalDistress ==>
            rs == [MentalHealth, HrEthics]
            && GenerateResponse(c, pick).metadata.extra == [("resources_provided", Names(ResourceNames(rs)))])
      && (c.category == SelfHarmRisk ==> rs == [Crisis, MentalHealth])
      && (c.category == HarmToOthersRisk ==> rs == [Security, HrEthics, MentalHealth])
      && (c.category == ImminentDanger ==> rs == [Crisis, Security])
  {
  }

  /** The self-harm message's fourth line names the 988 crisis line. */
  lemma SelfHarmTextNamesCrisisLine()
    ensures Contains(Join("\n", SelfHarmLines()), CrisisNumber)
  {
    var lines := SelfHarmLines();
    assert lines[3][4..7] == CrisisNumber;
    assert OccursAt(lines[3], CrisisNumber, 4);
    JoinContains("\n", lines, 3, CrisisNumber);
  }

  /** Its eighth line tells the user to call 911. */
  lemma SelfHarmTextNamesEmergency()
    ensures Contains(Join("\n", SelfHarmLines()), EmergencyNumber)
  {
    var lines := SelfHarmLines();
    assert lines[7][9..12] == EmergencyNumber;
    assert OccursAt(lines[7], EmergencyNumber, 9);
    JoinContains("\n", lines, 7, EmergencyNumber);
  }

  /** The imminent-danger message's fifth line tells the user to call 911. */
  lemma EmergencyTextNamesEmergency()
    ensures Contains(Join("\n", EmergencyLines()), EmergencyNumber)
  {
    var lines := EmergencyLines();
    assert lines[4][7..10] == EmergencyNumber;
    assert OccursAt(lines[4], EmergencyNumber, 7);
    JoinContains("\n", lines, 4, EmergencyNumber);
  }

  /** Its eighth line names the 988 crisis line. */
  lemma EmergencyTextNamesCrisisLine()
    ensures Contains(Join("\n", EmergencyLines()), CrisisNumber)
  {
    var lines := EmergencyLines();
    assert lines[7][4..7] == CrisisNumber;
    assert OccursAt(lines[7], CrisisNumber, 4);
    JoinContains("\n", lines, 7, CrisisNumber);
  }

  /** The self-harm response's message names the 988 crisis line and 911. */
  lemma SelfHarmMessageMentions(m: ResponseMessage)
    requires m.SelfHarmSupport?
    ensures Contains(m.Text(), CrisisNumber) && Contains(m.Text(), EmergencyNumber)
  {
    SelfHarmTextNamesCrisisLine();
    SelfHarmTextNamesEmergency();
  }

  /** The imminent-danger response's message names 911 and the 988 crisis line. */
  lemma EmergencyMessageMentions(m: ResponseMessage)
    requires m.EmergencyHelp?
    ensures Contains(m.Text(), EmergencyNumber) && Contains(m.Text(), CrisisNumber)
  {
    EmergencyTextNamesEmergency();
    EmergencyTextNamesCrisisLine();
  }

  /** The metadata names the category by its enum value, except for harm to
      others, which the source records as 'harm_to_others'. */
  lemma MetadataCategoryRule(c: Classification, pick: nat)
    requires pick < |ProfanityMessages|
    ensures var name := GenerateResponse(c, pick).metadata.category;
      (c.category != HarmToOthersRisk ==> name == c.category.Value())
      && (c.category == HarmToOthersRisk ==> name == "harm_to_others" && name != c.category.Value())
  {
  }

  /** `get_escalation_recipients`: nobody for the benign categories, someone
      for every other; security is told about harm to others and imminent
      danger, the HR crisis team about self-harm, harm and imminent danger. */
  lemma RecipientsRule(c: Classification)
    ensures var rs := EscalationRecipients(c);
      && (rs == [] <==> c.category.IsBenign())
      && (c.category == HarmToOthersRisk ==> "corporate_security" in rs && "legal" in rs)
      && (c.category == ImminentDanger ==> "corporate_security_emergency" in rs && "legal" in rs)
      && (c.category in {SelfHarmRisk, HarmToOthersRisk, ImminentDanger} <==> "hr_crisis_team" in rs)
  {
  }
}
