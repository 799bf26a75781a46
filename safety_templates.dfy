/** The response templates of backend/safety/response_templates.py: the
    template table keyed by category and severity, `get_template`'s layered
    fallback, and `format_resource_card`. */
module SafetyTemplates {
  import opened Wrappers
  import opened Text

  /** The `{name}` fields the templates leave for `str.format`. */
  datatype Placeholder = EapPhone | SecurityExtension | HrPhone
  {
    function Name(): string {
      match this
      case EapPhone => "eap_phone"
      case SecurityExtension => "security_extension"
      case HrPhone => "hr_phone"
    }
  }

  /** A template is a run of literal text and placeholders. */
  datatype Segment = Lit(text: string) | Slot(field: Placeholder)

  function SegmentText(s: Segment): string {
    match s
    case Lit(x) => x
    case Slot(p) => "{" + p.Name() + "}"
  }

  /** The template string as the source writes it, placeholders in braces. */
  function Render(t: seq<Segment>): string {
    if t == [] then "" else SegmentText(t[0]) + Render(t[1..])
  }

  /** A template that opens with literal text. */
  predicate WellFormed(t: seq<Segment>) {
    t != [] && t[0].Lit? && t[0].text != []
  }

  /** The entries of the table: every one opens with literal text. */
  type Template = t: seq<Segment> | WellFormed(t) witness [Lit("\n")]

  // ----- RESPONSE_TEMPLATES -----

  /** `RESPONSE_TEMPLATES['self_harm_risk']['critical']`. */
  function SelfHarmRiskCritical(): (t: seq<Segment>)
    ensures WellFormed(t)
  {
    [ Lit("Your " + "safety " + "is the " + "most " + "important " + "thing " + "right " + "now.\n"),
      Lit("\n"),
      Lit("**Immediate " + "Support " + "Available:**\n"),
      Lit("\U{2022} 988 " + "Suicide " + "& " + "Crisis " + "Lifeline: " + "Call or " + "text " + "988 " + "(24/7)\n"),
      Lit("\U{2022} " + "Employee " + "Assistance " + "Program: "),
      Slot(EapPhone),
      Lit(" (24/7, " + "confidential)\n"),
      Lit("\U{2022} If " + "this is " + "a " + "medical " + "emergency, " + "call " + "911\n"),
      Lit("\n"),
      Lit("**You " + "Are Not " + "Alone:**\n"),
      Lit("These " + "feelings " + "are " + "temporary, " + "and " + "support " + "is " + "available. " + "Speaking " + "with a " + "trained " + "professional " + "can " + "help.\n"),
      Lit("\n"),
      Lit("**Confidential " + "& " + "Private:**\n"),
      Lit("Your " + "privacy " + "is " + "protected. " + "These " + "resources " + "are " + "confidential " + "and " + "separate " + "from " + "your " + "employment " + "record.\n"),
      Lit("\n"),
      Lit("I care " + "about " + "your " + "wellbeing " + "and " + "want to " + "ensure " + "you get " + "the " + "support " + "you " + "deserve.")]
  }

  /** `RESPONSE_TEMPLATES['self_harm_risk']['high']`. */
  function SelfHarmRiskHigh(): (t: seq<Segment>)
    ensures WellFormed(t)
  {
    [ Lit("I'm " + "concerned " + "about " + "what " + "you've " + "shared " + "and " + "want to " + "make " + "sure " + "you " + "have " + "support.\n"),
      Lit("\n"),
      Lit("**Immediate " + "Resources:**\n"),
      Lit("\U{2022} 988 " + "Suicide " + "& " + "Crisis " + "Lifeline: " + "Call or " + "text " + "988\n"),
      Lit("\U{2022} " + "Employee " + "Assistance " + "Program: "),
      Slot(EapPhone),
      Lit(" " + "(confidential, " + "24/7)\n"),
      Lit("\U{2022} " + "Crisis " + "Text " + "Line: " + "Text " + "HOME to " + "741741\n"),
      Lit("\n"),
      Lit("**It's " + "Okay to " + "Ask for " + "Help:**\n"),
      Lit("Reaching " + "out " + "takes " + "courage. " + "These " + "services " + "are " + "confidential " + "and " + "staffed " + "by " + "people " + "who " + "care.\n"),
      Lit("\n"),
      Lit("**Your " + "Privacy " + "Matters:**\n"),
      Lit("Conversations " + "with " + "these " + "resources " + "are " + "private " + "and " + "will " + "not " + "affect " + "your " + "employment.\n"),
      Lit("\n"),
      Lit("Would " + "you " + "like me " + "to help " + "you " + "with " + "something " + "else, " + "or " + "would " + "you " + "prefer " + "to " + "focus " + "on " + "getting " + "support " + "right " + "now?")]
  }

  /** `RESPONSE_TEMPLATES['self_harm_risk']['medium']`. */
  function SelfHarmRiskMedium(): (t: seq<Segment>)
    ensures WellFormed(t)
  {
    [ Lit("I " + "notice " + "you " + "might " + "be " + "going " + "through " + "a " + "difficult " + "time. " + "Support " + "is " + "available " + "if you " + "need " + "it.\n"),
      Lit("\n"),
      Lit("**Resources " + "Available:**\n"),
      Lit("\U{2022} " + "Employee " + "Assistance " + "Program: "),
      Slot(EapPhone),
      Lit(" " + "(confidential " + "counseling)\n"),
      Lit("\U{2022} 988 " + "Suicide " + "& " + "Crisis " + "Lifeline: " + "Call or " + "text " + "988\n"),
      Lit("\n"),
      Lit("**Taking " + "Care of " + "Yourself:**\n"),
      Lit("It's " + "important " + "to " + "reach " + "out " + "when " + "things " + "feel " + "overwhelming. " + "These " + "services " + "are " + "confidential " + "and " + "here to " + "help.\n"),
      Lit("\n"),
      Lit("Can I " + "help " + "you " + "with " + "something " + "work-related, " + "or " + "would " + "you " + "like " + "more " + "information " + "about " + "support " + "resources?")]
  }

  /** `RESPONSE_TEMPLATES['harm_to_others_risk']['critical']`. */
  function HarmToOthersRiskCritical(): (t: seq<Segment>)
    ensures WellFormed(t)
  {
    [ Lit("**Immediate " + "Action " + "Required**\n"),
      Lit("\n"),
      Lit("For " + "everyone's " + "safety, " + "please " + "contact:\n"),
      Lit("\U{2022} Store " + "Security: "),
      Slot(SecurityExtension),
      Lit("\n"),
      Lit("\U{2022} Call " + "911 if " + "there " + "is " + "immediate " + "danger\n"),
      Lit("\U{2022} Store " + "Manager: " + "Available " + "now\n"),
      Lit("\n"),
      Lit("**Workplace " + "Safety:**\n"),
      Lit("We take " + "all " + "safety " + "concerns " + "seriously. " + "Speaking " + "with " + "security " + "or " + "management " + "helps " + "ensure " + "everyone " + "stays " + "safe.\n"),
      Lit("\n"),
      Lit("**Confidential " + "Support:**\n"),
      Lit("If " + "you're " + "feeling " + "angry " + "or " + "upset, " + "our " + "Employee " + "Assistance " + "Program " + "is " + "available " + "24/7 at "),
      Slot(EapPhone),
      Lit(".\n"),
      Lit("\n"),
      Lit("**Next " + "Steps:**\n"),
      Lit("Please " + "speak " + "with a " + "manager " + "or " + "security " + "immediately. " + "They " + "are " + "trained " + "to help " + "in " + "these " + "situations.")]
  }

  /** `RESPONSE_TEMPLATES['harm_to_others_risk']['high']`. */
  function HarmToOthersRiskHigh(): (t: seq<Segment>)
    ensures WellFormed(t)
  {
    [ Lit("I'm " + "concerned " + "about " + "what " + "you've " + "mentioned. " + "Everyone's " + "safety " + "is " + "important.\n"),
      Lit("\n"),
      Lit("**Please " + "Contact:**\n"),
      Lit("\U{2022} Store " + "Security: "),
      Slot(SecurityExtension),
      Lit("\n"),
      Lit("\U{2022} Your " + "Store " + "Manager\n"),
      Lit("\U{2022} " + "Employee " + "Assistance " + "Program: "),
      Slot(EapPhone),
      Lit(" " + "(confidential " + "support)\n"),
      Lit("\n"),
      Lit("**Workplace " + "Safety:**\n"),
      Lit("We're " + "committed " + "to " + "maintaining " + "a safe " + "environment " + "for " + "everyone. " + "Speaking " + "with " + "management " + "helps " + "address " + "concerns " + "appropriately.\n"),
      Lit("\n"),
      Lit("**Confidential " + "Resources:**\n"),
      Lit("If " + "you're " + "experiencing " + "stress " + "or " + "frustration, " + "EAP " + "provides " + "confidential " + "counseling " + "and " + "support.\n"),
      Lit("\n"),
      Lit("Would " + "you " + "like to " + "speak " + "with " + "someone " + "about " + "this?")]
  }

  /** `RESPONSE_TEMPLATES['harm_to_others_risk']['medium']`. */
  function HarmToOthersRiskMedium(): (t: seq<Segment>)
    ensures WellFormed(t)
  {
    [ Lit("I want " + "to make " + "sure " + "everyone " + "stays " + "safe " + "and " + "supported.\n"),
      Lit("\n"),
      Lit("**Resources " + "Available:**\n"),
      Lit("\U{2022} " + "Employee " + "Assistance " + "Program: "),
      Slot(EapPhone),
      Lit(" " + "(confidential " + "counseling)\n"),
      Lit("\U{2022} Speak " + "with " + "your " + "Store " + "Manager\n"),
      Lit("\U{2022} HR " + "Support " + "Line: "),
      Slot(HrPhone),
      Lit("\n"),
      Lit("\n"),
      Lit("**Conflict " + "Resolution:**\n"),
      Lit("If " + "you're " + "dealing " + "with " + "workplace " + "conflict " + "or " + "stress, " + "these " + "resources " + "can " + "help " + "find " + "solutions.\n"),
      Lit("\n"),
      Lit("Can I " + "help " + "you " + "with " + "something " + "else, " + "or " + "would " + "you " + "like " + "more " + "information " + "about " + "these " + "resources?")]
  }

  /** `RESPONSE_TEMPLATES['emotional_distress']['high']`. */
  function EmotionalDistressHigh(): (t: seq<Segment>)
    ensures WellFormed(t)
  {
    [ Lit("It " + "sounds " + "like " + "you're " + "dealing " + "with " + "something " + "difficult. " + "Support " + "is " + "available.\n"),
      Lit("\n"),
      Lit("**Resources " + "to " + "Help:**\n"),
      Lit("\U{2022} " + "Employee " + "Assistance " + "Program: "),
      Slot(EapPhone),
      Lit(" " + "(confidential, " + "24/7)\n"),
      Lit("\U{2022} 988 " + "Suicide " + "& " + "Crisis " + "Lifeline: " + "Call or " + "text " + "988\n"),
      Lit("\U{2022} Speak " + "with " + "your " + "Store " + "Manager " + "(in " + "confidence)\n"),
      Lit("\n"),
      Lit("**You're " + "Not " + "Alone:**\n"),
      Lit("Many " + "people " + "go " + "through " + "difficult " + "times. " + "Reaching " + "out for " + "support " + "is a " + "positive " + "step.\n"),
      Lit("\n"),
      Lit("**Confidential " + "& " + "Private:**\n"),
      Lit("These " + "services " + "are " + "confidential " + "and " + "separate " + "from " + "your " + "work " + "record.\n"),
      Lit("\n"),
      Lit("Can I " + "also " + "help " + "you " + "with " + "any " + "work-related " + "questions?")]
  }

  /** `RESPONSE_TEMPLATES['emotional_distress']['medium']`. */
  function EmotionalDistressMedium(): (t: seq<Segment>)
    ensures WellFormed(t)
  {
    [ Lit("I hear " + "that " + "things " + "might " + "be " + "challenging " + "right " + "now. " + "Resources " + "are " + "available " + "if you " + "need " + "them.\n"),
      Lit("\n"),
      Lit("**Support " + "Available:**\n"),
      Lit("\U{2022} " + "Employee " + "Assistance " + "Program: "),
      Slot(EapPhone),
      Lit(" " + "(confidential " + "counseling)\n"),
      Lit("\U{2022} Speak " + "with " + "your " + "Store " + "Manager\n"),
      Lit("\U{2022} HR " + "Support: "),
      Slot(HrPhone),
      Lit("\n"),
      Lit("\n"),
      Lit("**Taking " + "Care of " + "Yourself:**\n"),
      Lit("It's " + "okay to " + "reach " + "out " + "when " + "you " + "need " + "support. " + "These " + "resources " + "are " + "here to " + "help.\n"),
      Lit("\n"),
      Lit("How " + "else " + "can I " + "assist " + "you " + "today?")]
  }

  /** `RESPONSE_TEMPLATES['emotional_distress']['low']`. */
  function EmotionalDistressLow(): (t: seq<Segment>)
    ensures WellFormed(t)
  {
    [ Lit("I'm " + "here to " + "help. " + "If " + "you're " + "going " + "through " + "a tough " + "time, " + "resources " + "are " + "available.\n"),
      Lit("\n"),
      Lit("**Support " + "Options:**\n"),
      Lit("\U{2022} " + "Employee " + "Assistance " + "Program: "),
      Slot(EapPhone),
      Lit("\n"),
      Lit("\U{2022} Speak " + "with " + "your " + "Store " + "Manager\n"),
      Lit("\U{2022} HR " + "Support: "),
      Slot(HrPhone),
      Lit("\n"),
      Lit("\n"),
      Lit("How can " + "I help " + "you " + "with " + "work-related " + "questions?")]
  }

  /** `RESPONSE_TEMPLATES['profanity_only']['high']`. */
  function ProfanityOnlyHigh(): (t: seq<Segment>)
    ensures WellFormed(t)
  {
    [ Lit("I " + "understand " + "you may " + "be " + "frustrated. " + "I'm " + "here to " + "help " + "find " + "solutions.\n"),
      Lit("\n"),
      Lit("**Professional " + "Communication:**\n"),
      Lit("Let's " + "keep " + "our " + "conversation " + "professional " + "so I " + "can " + "better " + "assist " + "you.\n"),
      Lit("\n"),
      Lit("**If " + "You're " + "Stressed:**\n"),
      Lit("\U{2022} " + "Employee " + "Assistance " + "Program: "),
      Slot(EapPhone),
      Lit(" " + "(confidential " + "support)\n"),
      Lit("\U{2022} Speak " + "with " + "your " + "Store " + "Manager\n"),
      Lit("\n"),
      Lit("How can " + "I help " + "you " + "with " + "your " + "question " + "in a " + "productive " + "way?")]
  }

  /** `RESPONSE_TEMPLATES['profanity_only']['medium']`. */
  function ProfanityOnlyMedium(): (t: seq<Segment>)
    ensures WellFormed(t)
  {
    [ Lit("I'm " + "here to " + "help. " + "Let's " + "keep " + "our " + "conversation " + "professional.\n"),
      Lit("\n"),
      Lit("**Support " + "Available:**\n"),
      Lit("If " + "you're " + "experiencing " + "workplace " + "stress, " + "the " + "Employee " + "Assistance " + "Program " + "is " + "available " + "at "),
      Slot(EapPhone),
      Lit(".\n"),
      Lit("\n"),
      Lit("What " + "work-related " + "question " + "can I " + "help " + "you " + "with?")]
  }

  /** `RESPONSE_TEMPLATES['profanity_only']['low']`. */
  function ProfanityOnlyLow(): (t: seq<Segment>)
    ensures WellFormed(t)
  {
    [ Lit("I'm " + "here to " + "help " + "with " + "your " + "work-related " + "questions.\n"),
      Lit("\n"),
      Lit("Please " + "keep " + "the " + "conversation " + "professional " + "so I " + "can " + "assist " + "you " + "better.\n"),
      Lit("\n"),
      Lit("What " + "would " + "you " + "like to " + "know?")]
  }

  /** `RESPONSE_TEMPLATES['imminent_danger']['critical']`. */
  function ImminentDangerCritical(): (t: seq<Segment>)
    ensures WellFormed(t)
  {
    [ Lit("**IMMEDIATE " + "DANGER " + "- TAKE " + "ACTION " + "NOW**\n"),
      Lit("\n"),
      Lit("**If " + "you or " + "someone " + "else is " + "in " + "immediate " + "danger:**\n"),
      Lit("\U{2022} Call " + "911 " + "immediately\n"),
      Lit("\U{2022} " + "Contact " + "Store " + "Security: "),
      Slot(SecurityExtension),
      Lit("\n"),
      Lit("\U{2022} Go to " + "a safe " + "location\n"),
      Lit("\n"),
      Lit("**For " + "Immediate " + "Mental " + "Health " + "Crisis:**\n"),
      Lit("\U{2022} 988 " + "Suicide " + "& " + "Crisis " + "Lifeline: " + "Call or " + "text " + "988\n"),
      Lit("\U{2022} " + "Crisis " + "Text " + "Line: " + "Text " + "HOME to " + "741741\n"),
      Lit("\n"),
      Lit("**Store " + "Emergency:**\n"),
      Lit("\U{2022} Alert " + "Store " + "Manager " + "immediately\n"),
      Lit("\U{2022} Use " + "emergency " + "procedures\n"),
      Lit("\U{2022} " + "Evacuate " + "if " + "necessary\n"),
      Lit("\n"),
      Lit("**Your " + "Safety " + "is " + "Priority:**\n"),
      Lit("Please " + "reach " + "out to " + "emergency " + "services " + "right " + "now. " + "Help is " + "available " + "immediately.\n"),
      Lit("\n"),
      Lit("This " + "conversation " + "has " + "been " + "flagged " + "for " + "immediate " + "follow-up " + "by our " + "safety " + "team.")]
  }

  /** `RESPONSE_TEMPLATES['safe_operational']['default']`. */
  function SafeOperationalDefault(): (t: seq<Segment>)
    ensures WellFormed(t)
  {
    [ Lit("I'm " + "here to " + "help " + "you " + "with " + "work-related " + "questions " + "about:\n"),
      Lit("\U{2022} " + "Inventory " + "and " + "stock " + "inquiries\n"),
      Lit("\U{2022} Order " + "fulfillment " + "procedures\n"),
      Lit("\U{2022} " + "Device " + "troubleshooting\n"),
      Lit("\U{2022} Store " + "policies " + "and " + "workflows\n"),
      Lit("\U{2022} " + "Customer " + "service " + "guidelines\n"),
      Lit("\n"),
      Lit("What " + "would " + "you " + "like to " + "know?")]
  }


  /** The keys of `RESPONSE_TEMPLATES` and, for each, its severity keys in
      declaration order. */
  function SeverityKeys(category: string): (r: Option<seq<string>>)
    ensures r.Some? ==> |r.value| > 0
  {
    match category
    case "self_harm_risk" => Some(["critical", "high", "medium"])
    case "harm_to_others_risk" => Some(["critical", "high", "medium"])
    case "emotional_distress" => Some(["high", "medium", "low"])
    case "profanity_only" => Some(["high", "medium", "low"])
    case "imminent_danger" => Some(["critical"])
    case "safe_operational" => Some(["default"])
    case _ => None
  }

  /** `RESPONSE_TEMPLATES[category][severity]`, for a pair the table has. */
  function Body(category: string, severity: string): Template
    requires InTable(category, severity)
  {
    if category == "self_harm_risk" then SelfHarmBody(severity)
    else if category == "harm_to_others_risk" then HarmToOthersBody(severity)
    else if category == "emotional_distress" then DistressBody(severity)
    else if category == "profanity_only" then ProfanityBody(severity)
    else if category == "imminent_danger" then ImminentDangerCritical()
    else SafeOperationalDefault()
  }

  function SelfHarmBody(severity: string): Template
    requires severity in ["critical", "high", "medium"]
  {
    if severity == "critical" then SelfHarmRiskCritical()
    else if severity == "high" then SelfHarmRiskHigh()
    else SelfHarmRiskMedium()
  }

  function HarmToOthersBody(severity: string): Template
    requires severity in ["critical", "high", "medium"]
  {
    if severity == "critical" then HarmToOthersRiskCritical()
    else if severity == "high" then HarmToOthersRiskHigh()
    else HarmToOthersRiskMedium()
  }

  function DistressBody(severity: string): Template
    requires severity in ["high", "medium", "low"]
  {
    if severity == "high" then EmotionalDistressHigh()
    else if severity == "medium" then EmotionalDistressMedium()
    else EmotionalDistressLow()
  }

  function ProfanityBody(severity: string): Template
    requires severity in ["high", "medium", "low"]
  {
    if severity == "high" then ProfanityOnlyHigh()
    else if severity == "medium" then ProfanityOnlyMedium()
    else ProfanityOnlyLow()
  }

  predicate InTable(category: string, severity: string) {
    SeverityKeys(category).Some? && severity in SeverityKeys(category).value
  }

  /** The entry `get_template` reads: the safe default for an unknown category;
      the requested severity when the category has it; otherwise 'critical',
      'high', 'medium' in that order, and failing those the first entry. */
  function SelectKey(category: string, severity: string): (k: (string, string))
    ensures InTable(k.0, k.1)
  {
    match SeverityKeys(category)
    case None => ("safe_operational", "default")
    case Some(keys) =>
      if severity in keys then (category, severity)
      else if "critical" in keys then (category, "critical")
      else if "high" in keys then (category, "high")
      else if "medium" in keys then (category, "medium")
      else (category, keys[0])
  }

  /** `get_template`. */
  function GetTemplate(category: string, severity: string): string {
    var k := SelectKey(category, severity);
    Render(Body(k.0, k.1))
  }

  // ----- SUPPORT_RESOURCES and format_resource_card -----

  const Phone: string := "\U{1F4DE}"
  const Clock: string := "\U{23F0}"

  /** `SUPPORT_RESOURCES[key]`: each resource is a dictionary of text fields. */
  function SupportResource(key: string): (r: Option<map<string, string>>)
    ensures r.Some? ==> "name" in r.value
  {
    match key
    case "crisis_line" => Some(map[
      "name" := "988 Suicide & " + "Crisis Lifeline",
      "phone" := "988",
      "description" := "24/7 free and " + "confidential support",
      "text" := "Text 988"])
    case "eap" => Some(map[
      "name" := "Employee " + "Assistance Program " + "(EAP)",
      "phone" := "1-800-XXX-XXXX",
      "description" := "Confidential " + "counseling and " + "support",
      "available" := "24/7"])
    case "hr" => Some(map[
      "name" := "HR Support",
      "phone" := "1-800-XXX-XXXX",
      "description" := "Human Resources " + "support line",
      "available" := "Business hours"])
    case "security" => Some(map[
      "name" := "Store Security",
      "extension" := "Ext. 999",
      "description" := "Immediate store " + "security assistance"])
    case "manager" => Some(map[
      "name" := "Store Manager",
      "description" := "Speak with your " + "store manager"])
    case _ => None
  }

  /** The contact line of a card: the phone when the resource has one, else
      its extension, else nothing. */
  function ContactInfo(resource: map<string, string>): (r: string)
    ensures "phone" in resource ==> r == Phone + " " + resource["phone"]
    ensures "phone" !in resource && "extension" in resource ==> r == Phone + " " + resource["extension"]
    ensures "phone" !in resource && "extension" !in resource ==> r == ""
  {
    if "phone" in resource then Phone + " " + resource["phone"]
    else if "extension" in resource then Phone + " " + resource["extension"]
    else ""
  }

  /** The availability line of a card: empty when the resource gives no hours. */
  function Availability(resource: map<string, string>): (r: string)
    ensures "available" in resource ==> r == Clock + " " + resource["available"]
    ensures "available" !in resource ==> r == ""
  {
    if "available" in resource then Clock + " " + resource["available"] else ""
  }

  /** Description of a resource, empty when it has none. */
  function Description(resource: map<string, string>): string {
    if "description" in resource then resource["description"] else ""
  }

  /** The first three lines of a card: the name in bold, the description and
      the contact line. */
  function CardHead(resource: map<string, string>): string
    requires "name" in resource
  {
    "**" + resource["name"] + "**" + "\n" + Description(resource) + "\n" + ContactInfo(resource)
  }

  /** `RESOURCE_CARD_TEMPLATE` filled in and stripped. */
  function Card(resource: map<string, string>): (r: string)
    requires "name" in resource
    ensures r != ""
  {
    var raw := "\n" + (CardHead(resource) + "\n" + Availability(resource)) + "\n";
    assert raw[1] == '*';
    StripNonEmpty(raw, 1);
    Strip(raw)
  }

  /** `format_resource_card`: the card of a known resource, and the empty
      string exactly for a key that names none. */
  function FormatResourceCard(key: string): (r: string)
    ensures r == "" <==> SupportResource(key).None?
  {
    match SupportResource(key)
    case None => ""
    case Some(resource) => Card(resource)
  }

  predicate EndsVisible(s: string) {
    s != [] && !IsSpace(s[|s| - 1])
  }

  /** A card with an availability line keeps all four lines. */
  lemma CardWithHoursRule(resource: map<string, string>)
    requires "name" in resource && "available" in resource && EndsVisible(resource["available"])
    ensures Card(resource) == CardHead(resource) + "\n" + Availability(resource)
  {
    var v := resource["available"];
    var a := Availability(resource);
    assert a == Clock + " " + v;
    assert a[|a| - 1] == v[|v| - 1];
    var h := CardHead(resource);
    assert h[0] == '*';
    var x := h + "\n" + a;
    assert x[0] == '*' && x[|x| - 1] == a[|a| - 1];
    StripFramed("\n", x, "\n");
  }

  /** Without hours, a card ends at its contact line: the empty availability
      line is stripped away. */
  lemma CardWithContactRule(resource: map<string, string>)
    requires "name" in resource && "available" !in resource
    requires ("phone" in resource && EndsVisible(resource["phone"]))
      || ("phone" !in resource && "extension" in resource && EndsVisible(resource["extension"]))
    ensures Card(resource) == CardHead(resource)
  {
    var v := if "phone" in resource then resource["phone"] else resource["extension"];
    var x := CardHead(resource);
    assert x[|x| - 1] == v[|v| - 1];
    assert x + "\n" + Availability(resource) == x + "\n";
    assert "\n" + (x + "\n") + "\n" == "\n" + x + "\n\n";
    StripFramed("\n", x, "\n\n");
  }

  /** With neither contact nor hours, a card is just its name and description. */
  lemma BareCardRule(resource: map<string, string>)
    requires "name" in resource && "description" in resource && EndsVisible(resource["description"])
    requires "phone" !in resource && "extension" !in resource && "available" !in resource
    ensures Card(resource) == "**" + resource["name"] + "**" + "\n" + resource["description"]
  {
    var d := resource["description"];
    var x := "**" + resource["name"] + "**" + "\n" + d;
    assert x[|x| - 1] == d[|d| - 1];
    assert CardHead(resource) == x + "\n";
    assert CardHead(resource) + "\n" + Availability(resource) == x + "\n\n";
    assert "\n" + (x + "\n\n") + "\n" == "\n" + x + "\n\n\n";
    StripFramed("\n", x, "\n\n\n");
  }
}
