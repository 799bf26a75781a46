/** The safety framework's configuration tables of backend/safety/config.py:
    retention periods, escalation recipients and priorities, the Pub/Sub topic
    paths, and the `validate_config` check.

    The environment is not read: the values config.py takes from environment
    variables are an `Environment` record, and `Defaults` holds the values it
    falls back to. */
module SafetyConfig {
  import opened Wrappers
  import opened SafetyClassifier
  import opened SafetyPolicy

  /** The settings config.py reads from the environment, already parsed. */
  datatype Environment = Environment(
    retentionLow: int,
    retentionMedium: int,
    retentionHigh: int,
    retentionCritical: int,
    eapPhone: string,
    hrPhone: string,
    securityExtension: string)

  /** The placeholder phone number the EAP and HR entries start with. */
  const PhonePlaceholder: string := "1-800-XXX-XXXX"
  /** The placeholder store-security extension. */
  const ExtensionPlaceholder: string := "Ext. 999"

  /** The values used when the environment sets nothing. */
  const Defaults: Environment := Environment(30, 90, 180, 365, PhonePlaceholder, PhonePlaceholder, ExtensionPlaceholder)

  /** `RETENTION_DAYS`, as (severity, days) entries in the dictionary's order. */
  function RetentionEntries(env: Environment): (r: seq<(string, int)>)
    ensures |r| == 4
  {
    [("LOW", env.retentionLow), ("MEDIUM", env.retentionMedium),
     ("HIGH", env.retentionHigh), ("CRITICAL", env.retentionCritical)]
  }

  /** `RETENTION_DAYS` as a dictionary. */
  function RetentionDays(env: Environment): map<string, int> {
    map["LOW" := env.retentionLow, "MEDIUM" := env.retentionMedium,
        "HIGH" := env.retentionHigh, "CRITICAL" := env.retentionCritical]
  }

  /** `ESCALATION_RECIPIENTS`. */
  const EscalationRecipientTable: map<string, seq<string>> :=
    map["SELF_HARM_RISK" := ["hr", "mental_health", "store_manager"],
        "HARM_TO_OTHERS_RISK" := ["security", "store_manager", "hr"],
        "EMOTIONAL_DISTRESS" := ["hr", "mental_health"],
        "IMMINENT_DANGER" := ["security", "emergency_services", "crisis_response"],
        "PROFANITY_ONLY" := []]

  /** `ESCALATION_PRIORITY_MAP`; `None` is Python's `None`. */
  const EscalationPriorityMap: map<(string, string), Option<string>> :=
    map[("SELF_HARM_RISK", "CRITICAL") := Some("CRITICAL_IMMEDIATE"),
        ("SELF_HARM_RISK", "HIGH") := Some("HIGH"),
        ("SELF_HARM_RISK", "MEDIUM") := Some("MEDIUM"),
        ("HARM_TO_OTHERS_RISK", "CRITICAL") := Some("CRITICAL_IMMEDIATE"),
        ("HARM_TO_OTHERS_RISK", "HIGH") := Some("CRITICAL_IMMEDIATE"),
        ("HARM_TO_OTHERS_RISK", "MEDIUM") := Some("HIGH"),
        ("EMOTIONAL_DISTRESS", "HIGH") := Some("HIGH"),
        ("EMOTIONAL_DISTRESS", "MEDIUM") := Some("MEDIUM"),
        ("EMOTIONAL_DISTRESS", "LOW") := Some("MEDIUM"),
        ("IMMINENT_DANGER", "CRITICAL") := Some("CRITICAL_IMMEDIATE"),
        ("PROFANITY_ONLY", "HIGH") := None,
        ("PROFANITY_ONLY", "MEDIUM") := None,
        ("PROFANITY_ONLY", "LOW") := None]

  /** The topic name suffix of each routing priority. */
  function TopicSuffix(priority: string): string {
    match priority
    case "MEDIUM" => "medium"
    case "HIGH" => "high"
    case "CRITICAL" => "critical"
    case _ => "emergency"
  }

  function TopicPath(projectId: string, priority: string): string {
    "projects/" + projectId + "/topics/safety-" + TopicSuffix(priority)
  }

  /** `get_pubsub_topics`. */
  function PubsubTopics(projectId: string): map<string, string> {
    map["MEDIUM" := TopicPath(projectId, "MEDIUM"),
        "HIGH" := TopicPath(projectId, "HIGH"),
        "CRITICAL" := TopicPath(projectId, "CRITICAL"),
        "CRITICAL_IMMEDIATE" := TopicPath(projectId, "CRITICAL_IMMEDIATE")]
  }

  /** One warning `validate_config` collects. */
  datatype Issue = EapPhoneUnset | HrPhoneUnset | SecurityExtensionUnset | InvalidRetention(severity: string, days: int)

  /** The retention warnings for `entries`, in order. */
  function RetentionIssues(entries: seq<(string, int)>): seq<Issue> {
    if entries == [] then []
    else
      var last := entries[|entries| - 1];
      RetentionIssues(entries[..|entries| - 1])
      + (if last.1 < 1 || last.1 > 3650 then [InvalidRetention(last.0, last.1)] else [])
  }

  /** Every warning `validate_config` collects, in the order it collects them. */
  function ConfigIssues(env: Environment): seq<Issue> {
    (if env.eapPhone == PhonePlaceholder then [EapPhoneUnset] else [])
    + (if env.hrPhone == PhonePlaceholder then [HrPhoneUnset] else [])
    + (if env.securityExtension == ExtensionPlaceholder then [SecurityExtensionUnset] else [])
    + RetentionIssues(RetentionEntries(env))
  }

  /** `validate_config`: collects the warnings and reports whether there were
      none. */
  method ValidateConfig(env: Environment) returns (valid: bool)
    ensures valid <==> ConfigIssues(env) == []
  {
    var issues: seq<Issue> := [];
    if env.eapPhone == PhonePlaceholder {
      issues := issues + [EapPhoneUnset];
    }
    if env.hrPhone == PhonePlaceholder {
      issues := issues + [HrPhoneUnset];
    }
    if env.securityExtension == ExtensionPlaceholder {
      issues := issues + [SecurityExtensionUnset];
    }
    var head := issues;
    var entries := RetentionEntries(env);
    for i := 0 to |entries|
      invariant issues == head + RetentionIssues(entries[..i])
    {
      var (severity, days) := entries[i];
      assert entries[..i + 1][..i] == entries[..i];
      if days < 1 || days > 3650 {
        issues := issues + [InvalidRetention(severity, days)];
      }
    }
    assert entries[..|entries|] == entries;
    valid := issues == [];
  }

  // ----- properties -----

  /** The retention warnings are exactly the out-of-range entries. */
  lemma {:induction false} RetentionIssuesRule(entries: seq<(string, int)>)
    ensures RetentionIssues(entries) == [] <==> forall i :: 0 <= i < |entries| ==> 1 <= entries[i].1 <= 3650
  {
    if entries != [] {
      var init := entries[..|entries| - 1];
      RetentionIssuesRule(init);
      if RetentionIssues(entries) == [] {
        forall i | 0 <= i < |entries| ensures 1 <= entries[i].1 <= 3650 {
          if i < |init| {
            assert init[i] == entries[i];
          }
        }
      } else if RetentionIssues(init) != [] {
        var i :| 0 <= i < |init| && !(1 <= init[i].1 <= 3650);
        assert entries[i] == init[i];
      }
    }
  }

  /** `validate_config` fails exactly when a contact is still its placeholder
      or a retention period lies outside one day to ten years. */
  lemma ValidateConfigRule(env: Environment)
    ensures ConfigIssues(env) == [] <==>
      env.eapPhone != PhonePlaceholder && env.hrPhone != PhonePlaceholder
      && env.securityExtension != ExtensionPlaceholder
      && 1 <= env.retentionLow <= 3650 && 1 <= env.retentionMedium <= 3650
      && 1 <= env.retentionHigh <= 3650 && 1 <= env.retentionCritical <= 3650
  {
    var entries := RetentionEntries(env);
    RetentionIssuesRule(entries);
    assert entries[0].1 == env.retentionLow && entries[1].1 == env.retentionMedium;
    assert entries[2].1 == env.retentionHigh && entries[3].1 == env.retentionCritical;
  }

  /** Out of the box the configuration does not validate: the contacts are
      placeholders, while the default retention periods are all in range. */
  lemma DefaultsRule()
    ensures ConfigIssues(Defaults) == [EapPhoneUnset, HrPhoneUnset, SecurityExtensionUnset]
    ensures RetentionDays(Defaults) == map["LOW" := 30, "MEDIUM" := 90, "HIGH" := 180, "CRITICAL" := 365]
  {
    RetentionIssuesRule(RetentionEntries(Defaults));
  }

  /** Only profanity escalates to nobody; every other listed category has
      recipients, and SAFE_OPERATIONAL is not listed. */
  lemma EscalationRecipientsRule()
    ensures EscalationRecipientTable.Keys
      == {"SELF_HARM_RISK", "HARM_TO_OTHERS_RISK", "EMOTIONAL_DISTRESS", "IMMINENT_DANGER", "PROFANITY_ONLY"}
    ensures forall c :: c in EscalationRecipientTable ==>
      (EscalationRecipientTable[c] == [] <==> c == "PROFANITY_ONLY")
  {
  }

  /** The priority table has no SAFE_OPERATIONAL row. */
  lemma PriorityMapOmitsSafe()
    ensures forall k :: k in EscalationPriorityMap ==> k.0 != "SAFE_OPERATIONAL"
  {
  }

  /** A priority is missing exactly for the profanity rows. */
  lemma PriorityMapNoneRule()
    ensures forall k :: k in EscalationPriorityMap ==>
      (EscalationPriorityMap[k] == None <==> k.0 == "PROFANITY_ONLY")
  {
  }

  /** Harm to others at HIGH is already an immediate emergency. */
  lemma PriorityMapHarmHigh()
    ensures EscalationPriorityMap[("HARM_TO_OTHERS_RISK", "HIGH")] == Some("CRITICAL_IMMEDIATE")
  {
  }

  /** The priority table has exactly these thirteen (category, severity) rows. */
  lemma PriorityMapKeys()
    ensures EscalationPriorityMap.Keys
      == {("SELF_HARM_RISK", "CRITICAL"), ("SELF_HARM_RISK", "HIGH"), ("SELF_HARM_RISK", "MEDIUM"),
          ("HARM_TO_OTHERS_RISK", "CRITICAL"), ("HARM_TO_OTHERS_RISK", "HIGH"), ("HARM_TO_OTHERS_RISK", "MEDIUM"),
          ("EMOTIONAL_DISTRESS", "HIGH"), ("EMOTIONAL_DISTRESS", "MEDIUM"), ("EMOTIONAL_DISTRESS", "LOW"),
          ("IMMINENT_DANGER", "CRITICAL"),
          ("PROFANITY_ONLY", "HIGH"), ("PROFANITY_ONLY", "MEDIUM"), ("PROFANITY_ONLY", "LOW")}
  {
  }

  /** The policy engine does not consult the priority table: for a critical
      self-harm classification the table says CRITICAL_IMMEDIATE while the
      engine answers HIGH. */
  lemma PolicyIgnoresPriorityMap(c: Classification, pick: nat)
    requires pick < |ProfanityMessages|
    requires c.category == SelfHarmRisk && c.severity == Critical
    ensures GenerateResponse(c, pick).escalationPriority == Some("HIGH")
    ensures EscalationPriorityMap[("SELF_HARM_RISK", "CRITICAL")] == Some("CRITICAL_IMMEDIATE")
  {
  }

  /** `get_pubsub_topics` has exactly the four routing priorities, each naming
      its own topic under the project. */
  lemma PubsubTopicsRule(projectId: string)
    ensures PubsubTopics(projectId).Keys == {"MEDIUM", "HIGH", "CRITICAL", "CRITICAL_IMMEDIATE"}
    ensures PubsubTopics(projectId)["MEDIUM"] == "projects/" + projectId + "/topics/safety-medium"
    ensures PubsubTopics(projectId)["HIGH"] == "projects/" + projectId + "/topics/safety-high"
    ensures PubsubTopics(projectId)["CRITICAL"] == "projects/" + projectId + "/topics/safety-critical"
    ensures PubsubTopics(projectId)["CRITICAL_IMMEDIATE"] == "projects/" + projectId + "/topics/safety-emergency"
  {
  }
}
