/** Properties of the response template table of
    backend/safety/response_templates.py: every entry opens with text,
    `get_template` never comes back empty, its fallback order, and the crisis
    line in every self-harm template. */
module SafetyTemplateFacts {
  import opened Text
  import opened SafetyTemplates

  /** Some literal segment of `t` contains `x`. */
  predicate LiterallyMentions(t: seq<Segment>, x: string) {
    exists k | 0 <= k < |t| :: t[k].Lit? && Contains(t[k].text, x)
  }

  /** Text written into a template survives rendering. */
  lemma {:induction false} RenderContains(t: seq<Segment>, x: string)
    requires LiterallyMentions(t, x)
    ensures Contains(Render(t), x)
  {
    var k :| 0 <= k < |t| && t[k].Lit? && Contains(t[k].text, x);
    ContainsConcat(SegmentText(t[0]), Render(t[1..]), x);
    if k > 0 {
      assert t[1..][k - 1] == t[k];
      RenderContains(t[1..], x);
    }
  }

  lemma SelfHarmCriticalMentionsCrisisLine()
    ensures LiterallyMentions(SelfHarmRiskCritical(), "988")
  {
    var t := SelfHarmRiskCritical();
    assert t[3].text[2..5] == "988";
    assert OccursAt(t[3].text, "988", 2);
  }

  lemma SelfHarmHighMentionsCrisisLine()
    ensures LiterallyMentions(SelfHarmRiskHigh(), "988")
  {
    var t := SelfHarmRiskHigh();
    assert t[3].text[2..5] == "988";
    assert OccursAt(t[3].text, "988", 2);
  }

  lemma SelfHarmMediumMentionsCrisisLine()
    ensures LiterallyMentions(SelfHarmRiskMedium(), "988")
  {
    var t := SelfHarmRiskMedium();
    assert t[6].text[2..5] == "988";
    assert OccursAt(t[6].text, "988", 2);
  }

  lemma SelfHarmEntriesMentionCrisisLine(category: string, severity: string)
    requires category == "self_harm_risk" && severity in ["critical", "high", "medium"]
    ensures LiterallyMentions(Body(category, severity), "988")
  {
    if severity == "critical" {
      SelfHarmCriticalMentionsCrisisLine();
    } else if severity == "high" {
      SelfHarmHighMentionsCrisisLine();
    } else {
      SelfHarmMediumMentionsCrisisLine();
    }
  }

  /** Whatever severity is asked for, the self-harm template names the 988
      Suicide & Crisis Lifeline. */
  lemma SelfHarmTemplateMentionsCrisisLine(severity: string)
    ensures Contains(GetTemplate("self_harm_risk", severity), "988")
  {
    var k := SelectKey("self_harm_risk", severity);
    SelfHarmEntriesMentionCrisisLine(k.0, k.1);
    RenderContains(Body(k.0, k.1), "988");
  }

  lemma WellFormedRendersNonEmpty(t: seq<Segment>)
    requires WellFormed(t)
    ensures Render(t) != ""
  {
    assert Render(t) == t[0].text + Render(t[1..]);
  }

  /** An unknown category gets the safe_operational 'default' template. */
  lemma UnknownCategoryRule(category: string, severity: string)
    requires SeverityKeys(category).None?
    ensures SelectKey(category, severity) == ("safe_operational", "default")
  {
  }

  /** A known category with a present severity gets exactly that entry. */
  lemma ExactLookupRule(category: string, severity: string)
    requires InTable(category, severity)
    ensures SelectKey(category, severity) == (category, severity)
  {
  }

  /** A known category with a missing severity falls back to the highest
      severity it has: 'critical' for self-harm, harm to others and imminent
      danger, 'high' for distress and profanity, and the only entry,
      'default', for safe_operational. */
  lemma FallbackRule(category: string, severity: string)
    requires SeverityKeys(category).Some? && !InTable(category, severity)
    ensures var k := SelectKey(category, severity);
      k.0 == category
      && (category in {"self_harm_risk", "harm_to_others_risk", "imminent_danger"} ==> k.1 == "critical")
      && (category in {"emotional_distress", "profanity_only"} ==> k.1 == "high")
      && (category == "safe_operational" ==> k.1 == "default")
  {
  }

  /** `get_template` is total and never returns an empty template. */
  lemma GetTemplateTotal(category: string, severity: string)
    ensures GetTemplate(category, severity) != ""
  {
    var k := SelectKey(category, severity);
    WellFormedRendersNonEmpty(Body(k.0, k.1));
  }
}
