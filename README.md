# Store assistant safety, retrieval and feedback core, in Dafny

This project models the decision logic of a retrieval-augmented store
assistant: the components that decide what a user message is, what the
assistant answers, what it may ingest and what it stores. Each module
follows one source file.

- **Message safety** (`SafetyClassifier`, `SafetyPolicy`, `SafetyTemplates`,
  `SafetyTemplateFacts`, `SafetyFilter`, `SafetyReporting`, `SafetyConfig`).
  - The classifier is a priority cascade: imminent danger, harm to others,
    self-harm, emotional distress and profanity, then an optional
    language-model opinion on ambiguous phrasing, then a safe default.
  - The policy engine gives a fixed response, escalation priority and
    support resources for each category.
  - The templates are a table with a layered severity fallback and resource
    cards.
  - The response filter checks generated answers for seven violation kinds,
    an overlap heuristic for hallucination, and pass, modify or block.
  - The reporting service stores confidential reports, routes them to
    Pub/Sub topics, keeps an audit trail and deletes expired reports.
  - The configuration holds the retention, recipient, priority and topic
    tables, and `validate_config`.
- **Document ingestion gate** (`DocumentVerifier`). Seven scanners turn
  pattern matches into threat records. The threats then decide the overall
  severity, whether the document is safe, whether it may be ingested, and
  the summary.
- **Infrastructure guard** (`InfrastructureGuard`). It decides which
  infrastructure-probing patterns a question matches, with a confidence of
  0.3 per match capped at 1 and kept as integer tenths. It also covers the
  blocking threshold, the ordered sanitisation and the standard reply.
- **Internationalisation** (`I18nDetector`, `I18nTranslator`, `I18nUi`).
  - The detector is an English/Spanish rule over match counts.
  - The backend translation service and the front-end translator
    normalise language codes, walk dotted keys through a nested table, fall
    back from the requested language to English to the key itself, and
    interpolate `{{name}}` placeholders in a single pass.
  - The front end also has its `lang` attribute helpers and the accessible
    `<div>` wrapper.
- **Feedback log** (`FeedbackStore`). Records are appended to a line log,
  read back in order with blank lines skipped, and summarised as counts and
  a rating distribution.
- **Retrieval** (`Chunkers`, `Bm25Store`, `HybridSearch`, `Ranking`).
  - The sliding-window sentence chunker and the similarity-boundary
    semantic chunker.
  - The BM25 store's three parallel lists and its top-k search.
  - Hybrid search, which puts dense hits before BM25 hits.
  - Reciprocal-rank fusion with ranks counted from 0.
  - Python's stable descending sort, which ranks the BM25 search and the
    fusion.

`Text` gives Python's string and slice operations (`lower`, `strip`, `in`,
`join`, `split`, negative slice bounds) their meaning. `Wrappers` is
`Optional`.

Anything the code hands to a library or service becomes an input or a
function-typed parameter of the model:
- regular-expression search, `findall`, `finditer` and `sub`;
- the language model's reply;
- SHA-256, the Fernet cipher, `uuid4` and the clock;
- NLTK tokenisation;
- embeddings and their cosine similarity;
- BM25 scores;
- the vector store's results;
- `random.choice`.

Code that changes state is modelled as classes and methods. A method's
`ensures` ties its result or new state to a specification function, and
lemmas state what that function promises. Floating-point values are exact
`real`s.

## Model

| member | source | states |
|---|---|---|
| SafetyClassifier.Patterns | backend/safety/classifier.py:82-114 | each of the five lists has its declared number of patterns, each named by its list and position |
| SafetyClassifier.CategoryFromValue | backend/safety/classifier.py:357-366 | a name the category map knows is the `.value` of the category it maps to; any other name gives nothing |
| SafetyClassifier.CategoryValueRoundTrip | backend/safety/classifier.py:357-366 | looking up a category's own `.value` gives that category back |
| SafetyClassifier.MatchPatterns | backend/safety/classifier.py:228-230 | the search loop collects exactly the patterns `Matching` keeps, in list order |
| SafetyClassifier.MatchingExactly | backend/safety/classifier.py:180-182 | a pattern is collected if and only if it is in the list and the search finds it; never more patterns than the list has |
| SafetyClassifier.FindAllPatterns | backend/safety/classifier.py:271-274 | the profanity loop concatenates every `findall` result, list by list |
| SafetyClassifier.Classify | backend/safety/classifier.py:116-168 | `classify` on the raw message; see ClassifyMessage, DangerousMessageEscalates and ClassifyEscalationIffNotBenign |
| SafetyClassifier.ClassifyMessage | backend/safety/classifier.py:116-168 | `classify` with its early returns equals the layered decision on the lower-cased, stripped message |
| SafetyClassifier.ClassifyNormalized | backend/safety/classifier.py:127-168 | the cascade of layers, model step and default equals `Decide` on the scan of the message |
| SafetyClassifier.CriticalPatternsAre | backend/safety/classifier.py:175-178 | the critical patterns are the last two self-harm and the first two harm-to-others patterns |
| SafetyClassifier.ScanMessage | backend/safety/classifier.py:170-303 | what each check finds in the normalised message; see ScanExactly |
| SafetyClassifier.ScanExactly | backend/safety/classifier.py:170-303 | each layer's findings are exactly its lists' patterns the search finds; at most four self-harm patterns; immediacy and ambiguity mean some listed word occurs |
| SafetyClassifier.PatternLayers | backend/safety/classifier.py:130-147 | the first pattern layer that fires, in the order of `classify`; see ImminentDangerRule, HarmToOthersRule, SelfHarmSeverityRule, DistressAndProfanityRule and DefaultRule |
| SafetyClassifier.Decide | backend/safety/classifier.py:127-168 | the layered decision on a scan; see ClassifyNormalized, DangerIsNeverProfanity, LlmOnlyWhenConsulted, EscalationIffNotBenign and PatternConfidenceBounded |
| SafetyClassifier.ImminentDangerRule | backend/safety/classifier.py:170-196 | IMMINENT_DANGER comes from the patterns if and only if a critical pattern and a time word are both present; it is CRITICAL, 0.90, escalated, with the critical patterns |
| SafetyClassifier.HarmToOthersRule | backend/safety/classifier.py:200-220 | any harm-to-others or workplace-violence match gives HARM_TO_OTHERS_RISK, CRITICAL, 0.85, escalated, unless imminent danger came first |
| SafetyClassifier.SelfHarmSeverityRule | backend/safety/classifier.py:224-243 | SELF_HARM_RISK is CRITICAL exactly when more than one self-harm pattern matched and HIGH exactly when one did |
| SafetyClassifier.DistressAndProfanityRule | backend/safety/classifier.py:247-284 | distress is MEDIUM, 0.75, escalated, with its patterns; profanity is LOW, 0.95, not escalated, with the `findall` words |
| SafetyClassifier.DangerIsNeverProfanity | backend/safety/classifier.py:130-147 | a self-harm, harm or distress match always escalates, never ends as safe or profanity, and never reaches the model |
| SafetyClassifier.DangerousMessageEscalates | backend/safety/classifier.py:116-147 | any message in which one non-profanity pattern matches is escalated |
| SafetyClassifier.NeedsSemanticAnalysis | backend/safety/classifier.py:288-303 | some of the six ambiguous phrases occurs in the message; see ScanExactly and LlmOnlyWhenConsulted |
| SafetyClassifier.LlmOnlyWhenConsulted | backend/safety/classifier.py:154-158 | the model's answer matters only when it is enabled, no layer fired and an ambiguous phrase occurs; then a SAFE answer falls through to the default |
| SafetyClassifier.DefaultRule | backend/safety/classifier.py:160-168 | with no layer firing and no model step, the result is SAFE_OPERATIONAL, LOW, 0.95, no patterns, not escalated |
| SafetyClassifier.LlmClassify | backend/safety/classifier.py:305-412 | the classification read from the model's reply; see LlmMappingRule and LlmConfidenceUnbounded |
| SafetyClassifier.LlmMappingRule | backend/safety/classifier.py:344-412 | the model's category fixes the severity map entry and escalation; a failed call or unparsable confidence gives the conservative distress result; an unknown name maps to SAFE_OPERATIONAL |
| SafetyClassifier.EscalationIffNotBenign | backend/safety/classifier.py:116-168 | every decision escalates if and only if its category is neither SAFE_OPERATIONAL nor PROFANITY_ONLY |
| SafetyClassifier.ClassifyEscalationIffNotBenign | backend/safety/classifier.py:116-168 | the same for `classify` on every message and every model reply |
| SafetyClassifier.PatternConfidenceBounded | backend/safety/classifier.py:188-284 | without the model step the confidence lies in [0, 1] |
| SafetyClassifier.LlmConfidenceUnbounded | backend/safety/classifier.py:353 | whatever category word comes with it, a parsed confidence x is passed on unchecked as x (1.5 included), and a missing one becomes 0.7 |
| SafetyPolicy.ResourceNames | backend/safety/policy_engine.py:44-70 | one name per resource, each the `name` entry of its resource, in order |
| SafetyPolicy.GenerateResponse | backend/safety/policy_engine.py:72-105 | the response for a classification; see ResponseDependsOnlyOnCategory, EscalationInvariant, SafeRule, ProfanityRule, SelfHarmRule, ImminentRule, PriorityRule, ResourcesRule and MetadataCategoryRule |
| SafetyPolicy.ResponseDependsOnlyOnCategory | backend/safety/policy_engine.py:72-105 | two classifications of the same category get the same response, except for the severity echoed in the metadata, which is absent only for SAFE_OPERATIONAL |
| SafetyPolicy.ShouldMaskInLogs | backend/safety/policy_engine.py:321-330 | masked unless the category is SAFE_OPERATIONAL or PROFANITY_ONLY; see EscalationInvariant |
| SafetyPolicy.EscalationInvariant | backend/safety/policy_engine.py:72-330 | a response escalates if and only if the category is not benign, if and only if the conversation pauses, a priority is set, the message is masked in logs, and resources are offered |
| SafetyPolicy.SafeRule | backend/safety/policy_engine.py:107-116 | SAFE_OPERATIONAL: no message, no resources, continue, no escalation, no priority |
| SafetyPolicy.NoMessageIsEmpty | backend/safety/policy_engine.py:110 | the safe response's message is the empty string |
| SafetyPolicy.ProfanityRule | backend/safety/policy_engine.py:118-146 | PROFANITY_ONLY: the drawn redirect message, continue, no escalation, no priority, no resources |
| SafetyPolicy.RedirectIsOneOfThree | backend/safety/policy_engine.py:124-133 | a redirect message is the fixed string at the drawn position, one of the three |
| SafetyPolicy.SelfHarmRule | backend/safety/policy_engine.py:186-229 | SELF_HARM_RISK: the crisis-support message, crisis line then EAP, paused, escalated at HIGH |
| SafetyPolicy.ImminentRule | backend/safety/policy_engine.py:275-319 | IMMINENT_DANGER: the emergency message, crisis line then security, paused, escalated at CRITICAL_IMMEDIATE |
| SafetyPolicy.PriorityRule | backend/safety/policy_engine.py:114-312 | the priority is MEDIUM, HIGH, CRITICAL or CRITICAL_IMMEDIATE exactly for distress, self-harm, harm to others and imminent danger, and none exactly for the benign categories |
| SafetyPolicy.ResourcesRule | backend/safety/policy_engine.py:148-319 | the resources of each escalated category, in order; distress also lists their names in the metadata |
| SafetyPolicy.SelfHarmTextNamesCrisisLine | backend/safety/policy_engine.py:200 | the self-harm message names the 988 crisis line |
| SafetyPolicy.SelfHarmTextNamesEmergency | backend/safety/policy_engine.py:204 | the self-harm message tells the user to call 911 |
| SafetyPolicy.EmergencyTextNamesEmergency | backend/safety/policy_engine.py:289 | the imminent-danger message tells the user to call 911 |
| SafetyPolicy.EmergencyTextNamesCrisisLine | backend/safety/policy_engine.py:292 | the imminent-danger message names the 988 crisis line |
| SafetyPolicy.SelfHarmMessageMentions | backend/safety/policy_engine.py:197-213 | the self-harm response's message contains both 988 and 911 |
| SafetyPolicy.EmergencyMessageMentions | backend/safety/policy_engine.py:284-300 | the imminent-danger response's message contains both 911 and 988 |
| SafetyPolicy.MetadataCategoryRule | backend/safety/policy_engine.py:115-314 | the metadata names the category by its enum value, except harm to others, which is written "harm_to_others" |
| SafetyPolicy.EscalationRecipients | backend/safety/policy_engine.py:332-357 | the recipients per category; see RecipientsRule |
| SafetyPolicy.RecipientsRule | backend/safety/policy_engine.py:332-357 | nobody is notified for the benign categories; harm and imminent danger reach security and legal; the crisis team is notified exactly for self-harm, harm and imminent danger |
| SafetyConfig.RetentionDays | backend/safety/config.py:48-53 | the four retention periods read from the environment; see DefaultsRule and SafetyReporting.RetentionMatchesConfig |
| SafetyConfig.RetentionEntries | backend/safety/config.py:48-53 | four entries, LOW, MEDIUM, HIGH, CRITICAL, in the dictionary's order |
| SafetyConfig.ConfigIssues | backend/safety/config.py:237-263 | the warnings `validate_config` collects; see ValidateConfig, ValidateConfigRule and DefaultsRule |
| SafetyConfig.ValidateConfig | backend/safety/config.py:230-263 | the configuration is valid if and only if no warning was collected |
| SafetyConfig.RetentionIssuesRule | backend/safety/config.py:250-252 | no retention warning if and only if every period lies between 1 and 3650 days |
| SafetyConfig.ValidateConfigRule | backend/safety/config.py:237-263 | valid exactly when neither phone is the placeholder, the security extension is set and all four periods are in range |
| SafetyConfig.DefaultsRule | backend/safety/config.py:48-53 | out of the box validation fails with exactly the two phone warnings and the extension warning; the default periods are 30, 90, 180 and 365 days |
| SafetyConfig.EscalationRecipientsRule | backend/safety/config.py:123-129 | the table has the five listed categories, and only PROFANITY_ONLY escalates to nobody |
| SafetyConfig.PriorityMapOmitsSafe | backend/safety/config.py:131-149 | no row of the priority table is for SAFE_OPERATIONAL |
| SafetyConfig.PriorityMapNoneRule | backend/safety/config.py:131-149 | a row's priority is missing exactly for the profanity rows |
| SafetyConfig.PriorityMapHarmHigh | backend/safety/config.py:137 | harm to others at HIGH is already CRITICAL_IMMEDIATE |
| SafetyConfig.PriorityMapKeys | backend/safety/config.py:131-149 | the table has exactly its thirteen (category, severity) rows |
| SafetyConfig.PolicyIgnoresPriorityMap | backend/safety/config.py:132 | the table says CRITICAL_IMMEDIATE for critical self-harm, while the policy engine gives HIGH: the engine does not read it |
| SafetyConfig.PubsubTopics | backend/safety/config.py:155-170 | the four topic paths under the project; see PubsubTopicsRule |
| SafetyConfig.PubsubTopicsRule | backend/safety/config.py:155-170 | exactly the four routing priorities, each naming its topic under the project |
| SafetyTemplates.SelfHarmRiskCritical | backend/safety/response_templates.py:54-67 | the 'critical' self-harm entry opens with literal text, so it is never empty |
| SafetyTemplates.SelfHarmRiskHigh | backend/safety/response_templates.py:69-82 | the 'high' self-harm entry opens with literal text |
| SafetyTemplates.SelfHarmRiskMedium | backend/safety/response_templates.py:84-93 | the 'medium' self-harm entry opens with literal text |
| SafetyTemplates.HarmToOthersRiskCritical | backend/safety/response_templates.py:97-111 | the 'critical' harm-to-others entry opens with literal text |
| SafetyTemplates.HarmToOthersRiskHigh | backend/safety/response_templates.py:113-126 | the 'high' harm-to-others entry opens with literal text |
| SafetyTemplates.HarmToOthersRiskMedium | backend/safety/response_templates.py:128-138 | the 'medium' harm-to-others entry opens with literal text |
| SafetyTemplates.EmotionalDistressHigh | backend/safety/response_templates.py:142-155 | the 'high' distress entry opens with literal text |
| SafetyTemplates.EmotionalDistressMedium | backend/safety/response_templates.py:157-167 | the 'medium' distress entry opens with literal text |
| SafetyTemplates.EmotionalDistressLow | backend/safety/response_templates.py:169-176 | the 'low' distress entry opens with literal text |
| SafetyTemplates.ProfanityOnlyHigh | backend/safety/response_templates.py:180-189 | the 'high' profanity entry opens with literal text |
| SafetyTemplates.ProfanityOnlyMedium | backend/safety/response_templates.py:191-196 | the 'medium' profanity entry opens with literal text |
| SafetyTemplates.ProfanityOnlyLow | backend/safety/response_templates.py:198-202 | the 'low' profanity entry opens with literal text |
| SafetyTemplates.ImminentDangerCritical | backend/safety/response_templates.py:206-225 | the imminent-danger entry opens with literal text |
| SafetyTemplates.SafeOperationalDefault | backend/safety/response_templates.py:229-236 | the safe 'default' entry opens with literal text |
| SafetyTemplates.SeverityKeys | backend/safety/response_templates.py:52-238 | every category of the table has at least one severity entry |
| SafetyTemplates.SelectKey | backend/safety/response_templates.py:299-315 | the entry `get_template` reads is always one the table has |
| SafetyTemplates.SupportResource | backend/safety/response_templates.py:21-49 | every support resource has a name |
| SafetyTemplates.ContactInfo | backend/safety/response_templates.py:263-267 | the contact line is the phone when there is one, else the extension, else empty |
| SafetyTemplates.Availability | backend/safety/response_templates.py:269-271 | the availability line is the hours when given, else empty |
| SafetyTemplates.Card | backend/safety/response_templates.py:241-278 | a filled-in, stripped card is never empty |
| SafetyTemplates.FormatResourceCard | backend/safety/response_templates.py:248-278 | the card is empty if and only if the resource key is unknown |
| SafetyTemplates.CardWithHoursRule | backend/safety/response_templates.py:241-278 | a card with hours keeps all four lines: bold name, description, contact, hours |
| SafetyTemplates.CardWithContactRule | backend/safety/response_templates.py:241-278 | without hours a card ends at its contact line, the trailing blank line stripped |
| SafetyTemplates.BareCardRule | backend/safety/response_templates.py:241-278 | with neither contact nor hours a card is the bold name and the description |
| SafetyTemplates.GetTemplate | backend/safety/response_templates.py:280-315 | the template for a category and severity; see SafetyTemplateFacts.SelfHarmTemplateMentionsCrisisLine, UnknownCategoryRule, ExactLookupRule, FallbackRule and GetTemplateTotal |
| SafetyTemplateFacts.RenderContains | backend/safety/response_templates.py:52-238 | text written into a template's literal part survives into the template string |
| SafetyTemplateFacts.SelfHarmCriticalMentionsCrisisLine | backend/safety/response_templates.py:57 | the critical self-harm template names 988 |
| SafetyTemplateFacts.SelfHarmHighMentionsCrisisLine | backend/safety/response_templates.py:72 | the high self-harm template names 988 |
| SafetyTemplateFacts.SelfHarmMediumMentionsCrisisLine | backend/safety/response_templates.py:88 | the medium self-harm template names 988 |
| SafetyTemplateFacts.SelfHarmEntriesMentionCrisisLine | backend/safety/response_templates.py:53-94 | every self-harm entry names 988 |
| SafetyTemplateFacts.SelfHarmTemplateMentionsCrisisLine | backend/safety/response_templates.py:280-315 | whatever severity is asked for, the self-harm template returned names 988 |
| SafetyTemplateFacts.WellFormedRendersNonEmpty | backend/safety/response_templates.py:52-238 | a template opening with literal text renders to a non-empty string |
| SafetyTemplateFacts.UnknownCategoryRule | backend/safety/response_templates.py:299-300 | an unknown category gets the safe 'default' template |
| SafetyTemplateFacts.ExactLookupRule | backend/safety/response_templates.py:315 | a category and severity the table has give exactly that entry |
| SafetyTemplateFacts.FallbackRule | backend/safety/response_templates.py:304-313 | a missing severity falls back to 'critical' for self-harm, harm and imminent danger, to 'high' for distress and profanity, and to the first entry for the safe category |
| SafetyTemplateFacts.GetTemplateTotal | backend/safety/response_templates.py:280-315 | `get_template` answers every category and severity with a non-empty template |
| SafetyFilter.CountIsLength | backend/safety/response_filter.py:57-100 | each of the six lists has its declared number of patterns |
| SafetyFilter.CheckResponseSafety | backend/safety/response_filter.py:110-158 | the seven checks run in their fixed order, each appending its violation, and the result is `_determine_action` on that list |
| SafetyFilter.Violations | backend/safety/response_filter.py:127-155 | the violations the seven checks record; see ViolationsAreFired and ViolationsRule |
| SafetyFilter.FiresRule | backend/safety/response_filter.py:130-155 | each violation stands for its own check: the grounding heuristic for hallucination, its own pattern list for the others |
| SafetyFilter.FiredMembers | backend/safety/response_filter.py:127-155 | a check's violation is recorded exactly when it is among the checks run and it fires |
| SafetyFilter.FiredInOrder | backend/safety/response_filter.py:127-155 | recording in check order keeps the violations in check order, each at most once |
| SafetyFilter.FiredSnoc | backend/safety/response_filter.py:127-155 | running one more check appends its violation, if any, to those already recorded |
| SafetyFilter.ViolationsAreFired | backend/safety/response_filter.py:127-155 | the step-by-step list equals the ordered filter of the seven checks |
| SafetyFilter.ViolationsRule | backend/safety/response_filter.py:127-155 | the list holds a violation if and only if its check fires, never NONE, each once, in check order |
| SafetyFilter.CheckOrderRanked | backend/safety/response_filter.py:130-155 | the seven checks are in ranked order and cover every violation except NONE |
| SafetyFilter.Cleaned | backend/safety/response_filter.py:262-290 | the scrubbed response with the notice; see CleanResponse and CleanedUntouchedRule |
| SafetyFilter.SubstituteEach | backend/safety/response_filter.py:274-275 | the substitution loop applies every pattern of the list in turn |
| SafetyFilter.CleanResponse | backend/safety/response_filter.py:262-290 | profanity, then hate speech, then political content are scrubbed when present, and the notice is appended |
| SafetyFilter.CleanedUntouchedRule | backend/safety/response_filter.py:270-290 | with no moderate violation the answer is unchanged apart from the appended notice |
| SafetyFilter.DetermineAction | backend/safety/response_filter.py:189-260 | the action, response and confidence for the violations; see NoViolationRule, CriticalRule, HallucinationRule, ModerateRule and FinalPassUnreachable |
| SafetyFilter.NoViolationRule | backend/safety/response_filter.py:203-208 | no violation: PASS, reported as [NONE], confidence 1.0 |
| SafetyFilter.CriticalRule | backend/safety/response_filter.py:211-224 | self-harm, violence or malicious intent blocks with the default answer and confidence 0.0, whatever else was found |
| SafetyFilter.HallucinationRule | backend/safety/response_filter.py:227-237 | hallucination without a critical violation blocks with the insufficient-information answer, ahead of any moderate violation |
| SafetyFilter.ModerateRule | backend/safety/response_filter.py:240-254 | only moderate violations: MODIFY with confidence 0.7 and the cleaned answer, which ends with the notice |
| SafetyFilter.FinalPassUnreachable | backend/safety/response_filter.py:256-260 | from the checks, the result passes if and only if nothing fired, so the closing PASS at 0.9 is never reached |
| SafetyFilter.CheckHallucination | backend/safety/response_filter.py:164-187 | the grounding heuristic; see HallucinationHeuristicRule |
| SafetyFilter.HallucinationHeuristicRule | backend/safety/response_filter.py:164-187 | no context is a hallucination; no long words is not; otherwise it is one if and only if under a fifth of the long words are in the context |
| SafetyFilter.FriendlyReason | backend/safety/response_filter.py:292-312 | the message shown for the violations; see FriendlyReasonRule |
| SafetyFilter.FriendlyReasonRule | backend/safety/response_filter.py:292-312 | the reason shown follows the precedence: pass, insufficient information, self-harm, violence, security, modified |
| SafetyReporting.RemoveExpired | backend/safety/reporting_service.py:356-367 | deleting the ids the expiry query returns leaves exactly the unexpired reports |
| SafetyReporting.ReportingService.constructor | backend/safety/reporting_service.py:67-89 | a new service has the project's topics, a key whose decryption undoes its encryption, and empty stores |
| SafetyReporting.ReportingService.AuditLog | backend/safety/reporting_service.py:286-301 | one audit entry with the time, action, report id and user is appended; nothing else changes |
| SafetyReporting.ReportingService.StoreReport | backend/safety/reporting_service.py:225-243 | the report is stored under its id with an expiration `retention_days` after now; nothing else changes |
| SafetyReporting.ReportingService.RouteToRecipients | backend/safety/reporting_service.py:245-283 | one routing message is published when Pub/Sub accepts it, none when it fails, and the error is swallowed |
| SafetyReporting.ReportingService.SubmitReport | backend/safety/reporting_service.py:108-183 | the report is stored under 'SAFE-' followed by the first twelve hex digits of the given uuid, upper-cased, routed only when escalation is required, audited as REPORT_CREATED under the anonymised id, and its stored message decrypts to the original |
| SafetyReporting.ReportingService.GetReport | backend/safety/reporting_service.py:303-345 | every attempt is audited; a missing report gives nothing and changes no report; a found one gains one access entry, comes back decrypted and is audited as granted |
| SafetyReporting.ReportingService.DeleteExpired | backend/safety/reporting_service.py:361-367 | one step of the clean-up loop: the deletion is audited, then the report is removed |
| SafetyReporting.ReportingService.CleanupExpiredReports | backend/safety/reporting_service.py:347-369 | exactly the expired reports are removed, the count is their number, and the old audit entries are followed by one AUTO_DELETED_EXPIRED entry per expired report, by `system_cleanup` at the clean-up time, and by no other entry; nothing is published |
| SafetyReporting.AuditedIdsSnoc | backend/safety/reporting_service.py:361-367 | one more audit entry adds exactly its report id to the ids audited since a given point |
| SafetyReporting.DeletionStep | backend/safety/reporting_service.py:361-367 | auditing the deletion of one more report not yet deleted keeps the audit tail equal to one entry per deleted report |
| SafetyReporting.DeletionEntries | backend/safety/reporting_service.py:361-367 | one AUTO_DELETED_EXPIRED entry per deleted id, in deletion order |
| SafetyReporting.Elems | backend/safety/reporting_service.py:361 | a sequence of ids holds no more distinct ids than its length |
| SafetyReporting.ElemsSnoc | backend/safety/reporting_service.py:361 | one more id adds exactly that id |
| SafetyReporting.DeletionEntriesSnoc | backend/safety/reporting_service.py:361-367 | deleting one more id appends exactly its entry to the audit |
| SafetyReporting.DeletionsOf | backend/safety/reporting_service.py:356-367 | deleting distinct ids one after another audits each of them exactly once, after the earlier entries |
| SafetyReporting.CleanupStep | backend/safety/reporting_service.py:361-367 | one more pending id moves to the deleted ones, which stay distinct, and its document leaves the store |
| SafetyReporting.AnonymizeUserId | backend/safety/reporting_service.py:185-193 | the salted digest prefix; see AnonymizeRule |
| SafetyReporting.RetentionPeriod | backend/safety/reporting_service.py:211-223 | the retention days per severity; see RetentionRule and RetentionMatchesConfig |
| SafetyReporting.BuildReport | backend/safety/reporting_service.py:139-171 | the report `submit_report` assembles; see ReportDefaultsRule and ReportingService.SubmitReport |
| SafetyReporting.RoutingMessage | backend/safety/reporting_service.py:254-269 | the topic and payload of a routing message; see RoutingRule and ReportingService.RouteToRecipients |
| SafetyReporting.ReportIdShape | backend/safety/reporting_service.py:130 | a report id is 'SAFE-' followed by twelve upper-case hex digits |
| SafetyReporting.AnonymizeRule | backend/safety/reporting_service.py:185-193 | the anonymised id is the first sixteen characters of the digest of the user id followed by the salt, so the same user always maps to the same id |
| SafetyReporting.RetentionRule | backend/safety/reporting_service.py:211-223 | LOW 30, MEDIUM 90, HIGH 180, CRITICAL 365 days, and 90 for any other string, lower-case names included |
| SafetyReporting.RetentionMatchesConfig | backend/safety/reporting_service.py:217-222 | the service's table agrees with RETENTION_DAYS of the configuration on every severity that table lists |
| SafetyReporting.ReportDefaultsRule | backend/safety/reporting_service.py:139-171 | follow-up is required exactly for HIGH and CRITICAL; no priority becomes 'NONE'; no context gives UNKNOWN store and session and no device; the access log starts empty |
| SafetyReporting.RoutingRule | backend/safety/reporting_service.py:254-269 | a priority without a topic is routed as MEDIUM to the MEDIUM topic; immediate action is asked for exactly at CRITICAL_IMMEDIATE |
| SafetyReporting.CleanupRule | backend/safety/reporting_service.py:347-369 | what the clean-up keeps is exactly the reports not expired, unchanged, and none of them is expired |
| DocumentVerifier.NewVerifier | backend/document_security/document_verifier.py:72-296 | a new verifier keeps its settings and installs lists of 22, 20, 19, 12, 10, 5 and 6 patterns |
| DocumentVerifier.AppendMatches | backend/document_security/document_verifier.py:363-372 | the inner loop appends one threat per match, in match order |
| DocumentVerifier.ScanThreatsSnoc | backend/document_security/document_verifier.py:361-372 | scanning one more pattern appends the threats of its matches to those already found |
| DocumentVerifier.ScanPatterns | backend/document_security/document_verifier.py:376-403 | a scanner's nested loops return one threat per match of each pattern, pattern by pattern |
| DocumentVerifier.RunScanners | backend/document_security/document_verifier.py:309-318 | the threat list is the seven scans concatenated in their fixed order |
| DocumentVerifier.VerifyDocument | backend/document_security/document_verifier.py:298-354 | the result carries the scanners' threats, their overall severity, the safe and ingestion decisions and summary on them, the first sixteen digest characters and the time |
| DocumentVerifier.GenerateSummary | backend/document_security/document_verifier.py:539-564 | the counting loop and the line loop build exactly the summary text |
| DocumentVerifier.DetectionsRule | backend/document_security/document_verifier.py:363-372 | one threat per match, each built from its own match, in order |
| DocumentVerifier.PatternThreatsRule | backend/document_security/document_verifier.py:361-372 | a pattern yields one threat per match, each the scanner's threat for that match |
| DocumentVerifier.ScanThreatsRule | backend/document_security/document_verifier.py:356-498 | a scan reports as many threats as there are matches, each with the scanner's category, severity rule, confidence, recommendation and one of its patterns |
| DocumentVerifier.ScanFromScanner | backend/document_security/document_verifier.py:356-498 | every threat a scanner reports has that scanner's shape |
| DocumentVerifier.AllThreatsFromScanners | backend/document_security/document_verifier.py:309-318 | every threat of `verify_document` comes from one of the seven scanners |
| DocumentVerifier.ScannerTable | backend/document_security/document_verifier.py:356-498 | no threat is CLEAN or SUSPICIOUS_PATTERNS or below MEDIUM; each category has its fixed severity and confidence, social engineering graded by its pattern |
| DocumentVerifier.ScannerSeverity | backend/document_security/document_verifier.py:356-498 | every scanner's threat is at least MEDIUM |
| DocumentVerifier.CredentialPatternIsCritical | backend/document_security/document_verifier.py:144 | the bare password/credential pattern is graded CRITICAL |
| DocumentVerifier.UrgentActionPatternIsHigh | backend/document_security/document_verifier.py:139 | the urgent-action pattern is graded HIGH |
| DocumentVerifier.ImmediateSuspensionPatternIsHigh | backend/document_security/document_verifier.py:151 | the immediate-suspension pattern is graded HIGH |
| DocumentVerifier.AuthorityPatternIsMedium | backend/document_security/document_verifier.py:141 | the authority-name pattern is graded MEDIUM |
| DocumentVerifier.OverallSeverity | backend/document_security/document_verifier.py:518-537 | the highest severity among the threats; see OverallIsMaximum |
| DocumentVerifier.OverallIsMaximum | backend/document_security/document_verifier.py:518-537 | the overall severity is at least every threat's, is some threat's own severity, and is NONE for no threats |
| DocumentVerifier.MaxScoreIsMaximum | backend/document_security/document_verifier.py:531 | the maximum score bounds every threat's score, is reached by some threat, and is at most 4 |
| DocumentVerifier.IsSafe | backend/document_security/document_verifier.py:328-331 | no threat above LOW; see AllowIffSafe and VerifiedDocumentRule |
| DocumentVerifier.AllowIngestion | backend/document_security/document_verifier.py:333-337 | safe and no HIGH or CRITICAL overall severity; see AllowIffSafe and VerifiedDocumentRule |
| DocumentVerifier.AllowIffSafe | backend/document_security/document_verifier.py:328-337 | ingestion is allowed if and only if the document is safe, that is every threat is NONE or LOW; a MEDIUM threat blocks it |
| DocumentVerifier.ThreatsAtLeastMedium | backend/document_security/document_verifier.py:309-318 | no threat `verify_document` finds is below MEDIUM |
| DocumentVerifier.VerifiedDocumentRule | backend/document_security/document_verifier.py:298-354 | a document is safe, and may be ingested, if and only if no scanner matched; then the summary is the passed text, otherwise it advises BLOCK or REVIEW |
| DocumentVerifier.ExtractContext | backend/document_security/document_verifier.py:506-516 | the text around a match; see ContextRule |
| DocumentVerifier.ContextRule | backend/document_security/document_verifier.py:506-516 | without masking, the context is a piece of the content at most 100 characters longer than the match |
| DocumentVerifier.TallyCounts | backend/document_security/document_verifier.py:544-547 | the counting dictionary has distinct keys, counts that add up to the threats, and each category's count is its number of threats |
| DocumentVerifier.TallyKeys | backend/document_security/document_verifier.py:544-547 | its keys are exactly the categories that occur |
| DocumentVerifier.BumpRule | backend/document_security/document_verifier.py:547 | one increment adds one to that category's count only, and keeps the keys distinct |
| DocumentVerifier.LookupInKeys | backend/document_security/document_verifier.py:547 | a category with a non-zero count is a key |
| DocumentVerifier.Summary | backend/document_security/document_verifier.py:539-564 | the summary text; see SummaryRule and GenerateSummary |
| DocumentVerifier.SummaryRule | backend/document_security/document_verifier.py:539-564 | no threats give the passed text; otherwise a severity line, a count line, one line per category and the advice, which is BLOCK exactly for HIGH and CRITICAL and REVIEW exactly for MEDIUM |
| DocumentVerifier.CountLinesLength | backend/document_security/document_verifier.py:554-555 | one summary line per category |
| InfrastructureGuard.NewGuard | backend/security/infrastructure_guard.py:38-83 | a new guard has its seventeen patterns and the standard compliant reply |
| InfrastructureGuard.ConfidenceTenths | backend/security/infrastructure_guard.py:104 | `min(n * 0.3, 1.0)` in tenths: at most ten, zero exactly when nothing matched, ten exactly from four matches on |
| InfrastructureGuard.DetectPatterns | backend/security/infrastructure_guard.py:95-100 | the loop collects exactly the matching patterns, in list order |
| InfrastructureGuard.Sanitized | backend/security/infrastructure_guard.py:127-136 | the replacements applied in order; see SanitizeQuestion, SanitizedAppend and SanitizeOrder |
| InfrastructureGuard.SanitizeQuestion | backend/security/infrastructure_guard.py:116-138 | each replacement rewrites the result of the previous one, in the table's order |
| InfrastructureGuard.CheckQuestion | backend/security/infrastructure_guard.py:85-114 | the result lists the matching patterns, is an infrastructure query exactly when one matched, has confidence 0.3 per match capped at 1.0, and carries the sanitised question |
| InfrastructureGuard.Blocks | backend/security/infrastructure_guard.py:149-161 | a match with the confidence at or above the threshold; see ShouldBlock and BlockingThresholds |
| InfrastructureGuard.ShouldBlock | backend/security/infrastructure_guard.py:149-161 | blocks exactly when some pattern matched and the confidence reaches the threshold |
| InfrastructureGuard.MatchingMembers | backend/security/infrastructure_guard.py:98-100 | a pattern is listed if and only if it is in the list and matches; never more than the list has |
| InfrastructureGuard.MatchingAppend | backend/security/infrastructure_guard.py:98-100 | matches keep declaration order across any split of the list |
| InfrastructureGuard.ConfidenceMonotone | backend/security/infrastructure_guard.py:104 | more matches never lower the confidence, which stays within [0, 1] |
| InfrastructureGuard.BlockingThresholds | backend/security/infrastructure_guard.py:149-161 | at the default 0.3 a question is blocked exactly when one pattern matched; above 1.0 nothing is blocked |
| InfrastructureGuard.SanitizedAppend | backend/security/infrastructure_guard.py:134-136 | sanitising with a split table is sanitising with the second part after the first |
| InfrastructureGuard.SanitizeOrder | backend/security/infrastructure_guard.py:127-136 | the four replacements run in the dictionary's order, cloud names first and region names last |
| InfrastructureGuard.GetStandardResponse | backend/security/infrastructure_guard.py:140-147 | the standard reply; see StandardResponseDisclosesNothing and StandardResponseIsCompliant |
| InfrastructureGuard.StandardResponseDisclosesNothing | backend/security/infrastructure_guard.py:140-147 | the reply names neither GCP, Cloud Run nor Google Cloud |
| InfrastructureGuard.StandardResponseIsCompliant | backend/security/infrastructure_guard.py:79 | the reply speaks of a cloud environment |
| I18nDetector.CharScore | backend/i18n/detector.py:119-120 | the Spanish-character term lies in [0, 0.5] and is zero exactly when there are no Spanish characters |
| I18nDetector.Detect | backend/i18n/detector.py:78-133 | empty or blank text, and text without a word, is English with confidence 1.0 |
| I18nDetector.DetectLanguageCode | backend/i18n/detector.py:135-146 | the code is "en" or "es", and "es" exactly when Spanish is detected |
| I18nDetector.DetectWithMetadata | backend/i18n/detector.py:148-166 | the metadata carries the detected code, its English or Spanish name, the text's length and the pattern-based method |
| I18nDetector.Decide | backend/i18n/detector.py:115-133 | the language and confidence from the counts; see DecideRule, SpanishScoreBounded, NoSpanishCharacters and SpanishCharacterSuffices |
| I18nDetector.DecideRule | backend/i18n/detector.py:128-133 | Spanish exactly when its score beats English's and reaches 0.3; Spanish confidence lies in [0.3, 1], English in [0.7, 1] |
| I18nDetector.DetectConfidence | backend/i18n/detector.py:95-133 | every detection has confidence between 0.3 and 1.0, and English at least 0.7 |
| I18nDetector.SpanishScoreBounded | backend/i18n/detector.py:115-130 | with no more indicator matches than words the Spanish score is at most 1, and a Spanish result reports that score unclipped |
| I18nDetector.NoSpanishCharacters | backend/i18n/detector.py:123-130 | without Spanish characters, Spanish needs more Spanish than English indicator words and at least six per ten words |
| I18nDetector.HalfRatioOrder | backend/i18n/detector.py:124-128 | halved word ratios over the same word count compare as the counts do, and reach 0.3 exactly at six tenths of the words |
| I18nDetector.SpanishCharacterSuffices | backend/i18n/detector.py:119-130 | one Spanish character in text without English indicator words makes it Spanish |
| I18nTranslator.NormalizeLanguage | backend/i18n/translator.py:80-91 | every code maps to "en" or "es", and to "es" exactly for the six Spanish spellings after lower-casing and stripping |
| I18nTranslator.LanguageName | backend/i18n/translator.py:150-167 | the name is English or Español, Español exactly for a Spanish code |
| I18nTranslator.WordRun | backend/i18n/translator.py:135 | the run of word characters at the start is no longer than the text |
| I18nTranslator.PlaceholderAt | backend/i18n/translator.py:135 | a placeholder found at the start has a non-empty name and fits, braces included, in the text |
| I18nTranslator.Loaded | backend/i18n/translator.py:29-43 | each translation file that exists replaces its language's table; the others are kept |
| I18nTranslator.TranslationService.constructor | backend/i18n/translator.py:25-27 | a new service holds the tables of the files that exist |
| I18nTranslator.TranslationService.LoadTranslations | backend/i18n/translator.py:29-43 | loading replaces the table of each file that exists |
| I18nTranslator.NestedKey | backend/i18n/translator.py:93-116 | the dotted lookup; see TranslationService.GetNestedKey, NestedKeyCases and NestedKeyFinds |
| I18nTranslator.TranslationService.GetNestedKey | backend/i18n/translator.py:93-116 | the segment loop finds exactly the string at the end of the dotted path, or nothing |
| I18nTranslator.TranslateNormalized | backend/i18n/translator.py:61-78 | the fallback chain for a normalised language; see TranslateChain and TranslationService.Get |
| I18nTranslator.TranslationService.Get | backend/i18n/translator.py:45-78 | `get` is the fallback chain on the normalised language: own string, English string, the key itself; interpolated only when variables are given |
| I18nTranslator.TranslationService.GetAll | backend/i18n/translator.py:137-148 | the normalised language's table, else the English one, else an empty table |
| I18nTranslator.WalkAppend | backend/i18n/translator.py:110-114 | walking a path in two parts is walking the first and then the second from where it ended |
| I18nTranslator.WalkNest | backend/i18n/translator.py:110-114 | walking a path through objects built along it reaches the leaf |
| I18nTranslator.NestedKeyCases | backend/i18n/translator.py:104-116 | no table gives nothing; otherwise a string is found exactly when the walk succeeds and ends at a string (holds by unfolding `NestedKey`; a restatement of the definition by cases) |
| I18nTranslator.NestedKeyFinds | backend/i18n/translator.py:107-116 | a dotted key is found in a table nested along its segments |
| I18nTranslator.TranslateChain | backend/i18n/translator.py:61-78 | the language's own string is used first, then English, and the key itself when neither has it |
| I18nTranslator.GetAllAgrees | backend/i18n/translator.py:137-148 | for a loaded language `get_all` returns the very table `get` reads (a congruence: both read the same map entry) |
| I18nTranslator.WordRunStops | backend/i18n/translator.py:135 | the name of a placeholder runs exactly to its closing braces |
| I18nTranslator.Interpolate | backend/i18n/translator.py:118-135 | the placeholder substitution; see InterpolatePlaceholder, InterpolateNoPlaceholders and InterpolateNoVariables |
| I18nTranslator.InterpolatePlaceholder | backend/i18n/translator.py:118-135 | a placeholder is replaced by its variable's value, or kept verbatim when the variable is missing |
| I18nTranslator.InterpolateNoPlaceholders | backend/i18n/translator.py:135 | text without an opening brace passes through unchanged |
| I18nTranslator.InterpolateNoVariables | backend/i18n/translator.py:131-135 | with no variables every placeholder stays as it is |
| I18nUi.NormalizeLang | ui/i18n_utils.py:73-78 | "es" exactly for the three Spanish spellings, else "en" |
| I18nUi.LangAttr | ui/i18n_utils.py:104-106 | the attribute is "es" exactly for the code "es" as given, without normalising |
| I18nUi.LangName | ui/i18n_utils.py:108-110 | Español exactly for the code "es" as given, else English |
| I18nUi.LangAttrUnnormalised | ui/i18n_utils.py:104-110 | a code the translator reads as Spanish but that is not exactly "es" still gets the English attribute and name; "ES" is such a code |
| I18nUi.LanguageFromResponse | ui/i18n_utils.py:132-142 | the response's language entry, else "en" |
| I18nUi.UITranslator.constructor | ui/i18n_utils.py:21-23 | a new translator holds the tables of the files that exist |
| I18nUi.UITranslator.LoadTranslations | ui/i18n_utils.py:25-40 | loading replaces the table of each file that exists |
| I18nUi.UITranslator.GetNested | ui/i18n_utils.py:80-94 | the same dotted walk as the backend's lookup |
| I18nUi.UITranslator.T | ui/i18n_utils.py:42-71 | the backend's fallback chain after the UI's own, narrower normalisation |
| I18nUi.CreateLangDiv | ui/i18n_utils.py:145-175 | the div's attributes are lang, then each given and non-empty ARIA option in order, around the content |
| I18nUi.DivAttrsShape | ui/i18n_utils.py:160-171 | one attribute per given option plus lang, which comes first; role comes second and aria-label last when given |
| I18nUi.DivWrapsContent | ui/i18n_utils.py:173-175 | the content sits unchanged between the opening tag and the closing one |
| I18nUi.NormalizeLangNarrower | ui/i18n_utils.py:73-78 | every code the UI reads as Spanish the backend does too, but "es-mx" and "esp" only the backend |
| I18nUi.UiAgreesWithBackend | ui/i18n_utils.py:42-71 | where the two normalisations agree, the UI's translation equals the backend's (a congruence: both call the same chain) |
| FeedbackStore.FeedbackId | backend/feedback/feedback_store.py:108-111 | an id is "fb_" followed by twelve lower-case hex digits |
| FeedbackStore.HelpfulCount | backend/feedback/feedback_store.py:88 | the helpful count is at most the number of records |
| FeedbackStore.CommentCount | backend/feedback/feedback_store.py:89 | the comment count is at most the number of records |
| FeedbackStore.Store.constructor | backend/feedback/feedback_store.py:13-16 | a store opens over the lines already in the file |
| FeedbackStore.Store.SaveFeedback | backend/feedback/feedback_store.py:18-59 | exactly one record line is appended and returned, with the generated id, the time, and the answer cut to 500 characters |
| FeedbackStore.Store.GetAllFeedback | backend/feedback/feedback_store.py:61-72 | the loop returns the records of the file in order, skipping blank lines |
| FeedbackStore.Store.GetFeedbackStats | backend/feedback/feedback_store.py:74-97 | the statistics of the records read back |
| FeedbackStore.RatingDistribution | backend/feedback/feedback_store.py:99-106 | the loop counts, for each rating from 1 to 5, the records with that rating |
| FeedbackStore.Records | backend/feedback/feedback_store.py:61-72 | the records of the non-blank lines; see RecordsAppend and RecordsCount |
| FeedbackStore.RecordsAppend | backend/feedback/feedback_store.py:56-57 | saving appends exactly one record after the ones already read back |
| FeedbackStore.RecordsCount | backend/feedback/feedback_store.py:66-70 | a record is read back if and only if its line is in the file; never more records than lines |
| FeedbackStore.StoredAnswer | backend/feedback/feedback_store.py:47 | the stored answer is the first 500 characters of the answer, all of it when shorter |
| FeedbackStore.StatsOf | backend/feedback/feedback_store.py:74-97 | the statistics of the records; see StatsRule, DistributionRule and AverageInRange |
| FeedbackStore.StatsRule | backend/feedback/feedback_store.py:74-97 | no records give all-zero statistics without a distribution; otherwise the total is the number of records, comments are at most that and the helpful percentage lies in [0, 100] |
| FeedbackStore.DistributionRule | backend/feedback/feedback_store.py:99-106 | the distribution has the keys 1 to 5 only, and its counts add up to the records rated 1 to 5 |
| FeedbackStore.SumRatingsBounds | backend/feedback/feedback_store.py:87 | with every rating from 1 to 5 the sum lies between one and five times the number of records |
| FeedbackStore.AverageInRange | backend/feedback/feedback_store.py:87 | with every rating from 1 to 5 the average lies between 1 and 5 |
| FeedbackStore.QuotientBounds | backend/feedback/feedback_store.py:87 | a quotient lies between the bounds its numerator lies between, scaled by the divisor |
| Bm25Store.Tokenized | backend/retrieval/bm25_store.py:22-25 | one token list per text, those of its lower-case form |
| Bm25Store.Triples | backend/retrieval/bm25_store.py:40-41 | zip of texts, metadata and scores: as long as the shortest, each triple from the same position |
| Bm25Store.BM25Store.constructor | backend/retrieval/bm25_store.py:8-19 | empty and not indexed without a pickle file, else its three lists, indexed when it holds any token list, even an empty one |
| Bm25Store.BM25Store.Add | backend/retrieval/bm25_store.py:21-31 | the pairs of texts and metadata are appended in order, tokens of the lower-cased texts alongside, the lists stay parallel, and the index is rebuilt |
| Bm25Store.BM25Store.Search | backend/retrieval/bm25_store.py:33-45 | nothing without an index or texts; never more hits than texts |
| Bm25Store.SearchResult | backend/retrieval/bm25_store.py:33-45 | the hits `search` returns; see SearchRule and SearchHitFrom |
| Bm25Store.SearchRule | backend/retrieval/bm25_store.py:37-45 | the hits are the first top-k of a stable, non-increasing sort of all triples, a permutation that keeps ties in text order; their number is as Python's slice gives |
| Bm25Store.SearchHitFrom | backend/retrieval/bm25_store.py:42-45 | every hit pairs some text with its own metadata and score |
| Ranking.Insert | backend/retrieval/bm25_store.py:40-44 | inserting adds exactly one element |
| Ranking.SortDescending | backend/retrieval/bm25_store.py:40-44 | the sort keeps the length |
| Ranking.Project | backend/retrieval/hybrid.py:20-22 | one projected value per element, at the same position |
| Ranking.InsertDescending | backend/retrieval/bm25_store.py:40-44 | inserting into a non-increasing list keeps it non-increasing |
| Ranking.InsertBound | backend/retrieval/bm25_store.py:40-44 | inserting keeps every key under a bound that all keys respect |
| Ranking.SortDescendingOrders | backend/retrieval/bm25_store.py:40-44 | `sorted(..., reverse=True)` puts its result in non-increasing key order |
| Ranking.InsertPermutes | backend/retrieval/bm25_store.py:40-44 | inserting adds exactly the new element to the multiset |
| Ranking.ProjectCons | backend/retrieval/hybrid.py:22 | projecting distributes over a leading element |
| Ranking.SortDescendingPermutes | backend/retrieval/hybrid.py:22 | the sorted result is a permutation of the input, and so is any projection of it |
| Ranking.SortDescendingMembers | backend/retrieval/bm25_store.py:40-44 | the sorted result has the same multiset, hence the same members, as the input |
| Ranking.WithKeyAppend | backend/retrieval/bm25_store.py:40-44 | the elements with a given key of a concatenation are those of each part, in order |
| Ranking.WithKeyBelow | backend/retrieval/bm25_store.py:40-44 | in non-increasing order nothing after a smaller key has the given key |
| Ranking.InsertWithKey | backend/retrieval/bm25_store.py:40-44 | inserting appends the new element after the existing elements with its key |
| Ranking.SortDescendingStable | backend/retrieval/hybrid.py:22 | the sort is stable: elements with equal keys keep their input order |
| Ranking.WithKeyPrefix | backend/retrieval/bm25_store.py:45 | cutting the sorted list to top-k keeps a prefix of the elements with each key |
| HybridSearch.DenseHits | backend/retrieval/hybrid.py:28-31 | one hit per pair of dense text and metadata, as long as the shorter list |
| HybridSearch.SparseHits | backend/retrieval/hybrid.py:32 | one hit per BM25 triple, with its text and metadata, score dropped |
| HybridSearch.Search | backend/retrieval/hybrid.py:24-34 | the dense hits come first, then the BM25 hits, in their own orders; for every top-k the result is a prefix of that list, and for a non-negative top-k it holds exactly min(top-k, total) hits |
| HybridSearch.SearchSparseOnly | backend/retrieval/hybrid.py:28-34 | with no dense documents the result is the first top-k BM25 hits |
| HybridSearch.Tally | backend/retrieval/hybrid.py:15-20 | each listed text with its summed reciprocal-rank score from both lists |
| HybridSearch.Texts | backend/retrieval/hybrid.py:19 | the texts of the BM25 triples, in order |
| HybridSearch.RrfFusion | backend/retrieval/hybrid.py:11-22 | the two counting loops then the sort give the fused ranking of the two lists, whenever no rank makes the divisor zero |
| HybridSearch.CountRanks | backend/retrieval/hybrid.py:15-20 | one counting loop adds 1/(k + rank) to each text's score and records new texts in first-seen order |
| HybridSearch.CountStep | backend/retrieval/hybrid.py:16 | one pass of a counting loop adds the next rank's score to that text and no other |
| HybridSearch.TalliedSwap | backend/retrieval/hybrid.py:15-16 | counting one list after an empty one is counting it before the empty one |
| HybridSearch.ItemsTally | backend/retrieval/hybrid.py:22 | `scores.items()` lists each distinct text once, with its summed score |
| HybridSearch.DedupSnoc | backend/retrieval/hybrid.py:16 | a dictionary key is added at its first occurrence only |
| HybridSearch.ListScoreSnoc | backend/retrieval/hybrid.py:16 | one more position adds its reciprocal-rank score to that text only |
| HybridSearch.DedupMembers | backend/retrieval/hybrid.py:14-22 | the dictionary keys are exactly the texts of the lists, each once |
| HybridSearch.Fused | backend/retrieval/hybrid.py:11-22 | the fused ranking; see FusedTexts, FusedScores, FusedOrder and RrfFusion |
| HybridSearch.FusedTexts | backend/retrieval/hybrid.py:11-22 | every text of either list comes out exactly once, and no other text |
| HybridSearch.FusedScores | backend/retrieval/hybrid.py:15-20 | every fused score is the sum of 1/(k + rank) over the text's positions in both lists |
| HybridSearch.FusedOrder | backend/retrieval/hybrid.py:22 | the fused list is in non-increasing score order, ties in the order the texts were first seen |
| HybridSearch.SingleHit | backend/retrieval/hybrid.py:16 | a text at one rank of the dense list only scores 1/(k + rank) |
| HybridSearch.ListScoreAbsent | backend/retrieval/hybrid.py:16 | a text absent from a list gets nothing from it |
| HybridSearch.ListScoreSingle | backend/retrieval/hybrid.py:16 | a text at a single rank of a list gets exactly 1/(k + rank) from it |
| Chunkers.JoinRuns | backend/ingestion/chunkers.py:27-31 | one chunk per run, its sentences joined by spaces |
| Chunkers.NextStart | backend/ingestion/chunkers.py:28 | after an emission the window keeps its last `overlap` sentences, Python's negative-slice rule included |
| Chunkers.Windows | backend/ingestion/chunkers.py:22-28 | the window never starts after the sentences seen |
| Chunkers.Ranges | backend/ingestion/chunkers.py:22-31 | every run, the final window included, lies within the sentences |
| Chunkers.WindowsWithin | backend/ingestion/chunkers.py:22-28 | the emitted runs are non-empty and lie within the sentences seen |
| Chunkers.JoinAll | backend/ingestion/chunkers.py:53-59 | one chunk per group, its sentences joined by spaces |
| Chunkers.Chunker.constructor | backend/ingestion/chunkers.py:11-14 | the chunker keeps the chunk size and overlap it is given |
| Chunkers.Chunker.SentenceChunker | backend/ingestion/chunkers.py:19-33 | the sliding-window loop returns the chunks of the runs the emission test cuts |
| Chunkers.Chunker.SemanticChunker | backend/ingestion/chunkers.py:38-61 | the loop returns the sentences as they are for at most one sentence, else one joined chunk per group cut where the similarity falls below the threshold |
| Chunkers.SemanticStep | backend/ingestion/chunkers.py:47-56 | one turn of the loop keeps the emitted chunks those of every group but the last and the current chunk the last group, whether or not the similarity falls below the threshold |
| Chunkers.SemanticFinish | backend/ingestion/chunkers.py:58-59 | after the loop the current chunk is never empty and emitting it gives the chunker's result |
| Chunkers.GroupsCut | backend/ingestion/chunkers.py:52-56 | below the threshold, the next sentence starts a group of its own |
| Chunkers.GroupsGrow | backend/ingestion/chunkers.py:52-56 | otherwise the next sentence joins the last group |
| Chunkers.JoinAllSnoc | backend/ingestion/chunkers.py:53 | one more group adds its chunk at the end |
| Chunkers.SentenceStep | backend/ingestion/chunkers.py:23-28 | one pass of the loop keeps the link between its state and the windows |
| Chunkers.SentenceEmit | backend/ingestion/chunkers.py:26-28 | an emission appends the window's chunk and keeps its last sentences |
| Chunkers.SentenceFlush | backend/ingestion/chunkers.py:30-31 | flushing a non-empty final window completes the chunks |
| Chunkers.WindowsStep | backend/ingestion/chunkers.py:24-28 | the window after one more sentence is the previous window grown by it |
| Chunkers.JoinRunsAppend | backend/ingestion/chunkers.py:27 | one more run adds its chunk at the end |
| Chunkers.KeptWindow | backend/ingestion/chunkers.py:28 | `current_chunk[-overlap:]` is the sentences from the new start to the end of the run |
| Chunkers.KeptSentences | backend/ingestion/chunkers.py:28 | an overlap of 0 or of the window's length or more keeps the whole window; otherwise exactly `overlap` sentences |
| Chunkers.WindowsLinks | backend/ingestion/chunkers.py:22-28 | the first run starts at the first sentence, each next starts where the window was cut back to and ends later |
| Chunkers.WindowsEmit | backend/ingestion/chunkers.py:26 | every emitted run passed the length test |
| Chunkers.WindowsPending | backend/ingestion/chunkers.py:26 | the current window has passed no test since the last emission |
| Chunkers.AllQuietAppend | backend/ingestion/chunkers.py:26-28 | one more run emitted at its first passing test keeps every run so |
| Chunkers.WindowsEarliest | backend/ingestion/chunkers.py:26-28 | each run was emitted at the first test its window passed |
| Chunkers.QuietExtend | backend/ingestion/chunkers.py:26 | a window that fails one more length check has still passed none since the last emission |
| Chunkers.RangesShape | backend/ingestion/chunkers.py:19-33 | no sentences, no runs; otherwise the first starts at the first sentence and the last ends at the last |
| Chunkers.RangesLinks | backend/ingestion/chunkers.py:22-31 | each run starts where the window was cut back to after the one before, and ends no earlier |
| Chunkers.RangesEmit | backend/ingestion/chunkers.py:26-31 | every run but the last reached the chunk size |
| Chunkers.RangesEarliest | backend/ingestion/chunkers.py:22-31 | every run was emitted at its first passing test, or is the final window |
| Chunkers.SentenceChunks | backend/ingestion/chunkers.py:19-33 | the sliding-window chunks; see SentenceChunksRule, SentenceCovered, RepeatedTail and Chunker.SentenceChunker |
| Chunkers.SentenceChunksRule | backend/ingestion/chunkers.py:19-33 | one chunk per run; no sentences if and only if no chunks; every chunk but the last reached the chunk size, and no shorter window of it would have |
| Chunkers.SentenceCovered | backend/ingestion/chunkers.py:19-33 | every sentence is in some chunk |
| Chunkers.RepeatedTail | backend/ingestion/chunkers.py:26-31 | when the last sentence triggers an emission and the window keeps it, the final window is emitted once more |
| Chunkers.GroupsPartition | backend/ingestion/chunkers.py:45-59 | the groups partition the sentences in order, none is empty, and there is one more group than boundaries |
| Chunkers.GroupsSnoc | backend/ingestion/chunkers.py:47-56 | each next sentence starts a new group at a boundary, else joins the last group |
| Chunkers.GroupsFlatten | backend/ingestion/chunkers.py:45-59 | concatenating the groups gives back the sentences |
| Chunkers.FlattenGrow | backend/ingestion/chunkers.py:56 | growing the last group grows the concatenation by that sentence |
| Chunkers.GroupsNonEmpty | backend/ingestion/chunkers.py:45-59 | no group is empty |
| Chunkers.GroupsCount | backend/ingestion/chunkers.py:47-56 | the number of groups is one more than the number of similarities below the threshold |
| Chunkers.FlattenSnoc | backend/ingestion/chunkers.py:53-59 | concatenating one more group appends its sentences |
| Chunkers.SemanticChunks | backend/ingestion/chunkers.py:38-61 | the semantic chunks; see SemanticChunksRule and Chunker.SemanticChunker |
| Chunkers.SemanticChunksRule | backend/ingestion/chunkers.py:38-61 | at most one sentence comes back unchanged; otherwise there is one chunk per cut, the first cut is at sentence 0, a later sentence starts a chunk exactly when its similarity to the previous one is below the threshold, and each chunk joins the sentences from its cut to the next |
| Chunkers.Starts | backend/ingestion/chunkers.py:45-59 | one start position per group |
| Chunkers.StartsSnoc | backend/ingestion/chunkers.py:53-59 | one more group starts where the concatenation of the earlier ones ends |
| Chunkers.StartsFirst | backend/ingestion/chunkers.py:45-47 | the first group starts at sentence 0 |
| Chunkers.StartsLast | backend/ingestion/chunkers.py:45-59 | the last group ends where the concatenation ends |
| Chunkers.StartsNext | backend/ingestion/chunkers.py:45-59 | each group starts where the previous one ends |
| Chunkers.FlattenPiece | backend/ingestion/chunkers.py:45-59 | each group is the slice of the concatenation from its start, of its own length |
| Chunkers.Cuts | backend/ingestion/chunkers.py:47-56 | the cut list is never empty and starts at sentence 0 |
| Chunkers.CutsMembers | backend/ingestion/chunkers.py:47-56 | every cut is a sentence index, and a later sentence is a cut exactly when its similarity to the previous one is below the threshold |
| Chunkers.GroupsStarts | backend/ingestion/chunkers.py:45-59 | the groups start exactly at the cuts |
| Chunkers.GroupsCutAt | backend/ingestion/chunkers.py:45-59 | the groups start at 0, each is the non-empty slice from its cut to the next cut or the end, and the cuts are exactly the sentences below the threshold |
| Chunkers.Groups | backend/ingestion/chunkers.py:45-56 | the loop's groups: never none for a non-empty sentence list |
| Text.Lower | backend/retrieval/bm25_store.py:23 | `str.lower` keeps the length |
| Text.Upper | backend/safety/reporting_service.py:130 | `str.upper` keeps the length |
| Text.StripStartRule | backend/safety/classifier.py:127 | `lstrip` removes exactly the leading whitespace and leaves a string that is empty or starts with a non-space |
| Text.StripEndRule | backend/safety/classifier.py:127 | `rstrip` removes exactly the trailing whitespace and leaves a string that is empty or ends with a non-space |
| Text.StripFramed | backend/feedback/feedback_store.py:69 | stripping a whitespace frame around text that starts and ends with a non-space gives back that text |
| Text.StripInside | backend/document_security/document_verifier.py:516 | the stripped string is a contiguous piece of the original |
| Text.StripSlice | backend/document_security/document_verifier.py:516 | stripping a slice leaves a piece of the whole string |
| Text.StripNonEmpty | backend/feedback/feedback_store.py:69 | a line with a non-space character is not blank |
| Text.ContainsConcat | backend/safety/response_filter.py:176 | a substring of either part is a substring of the concatenation |
| Text.MissingCharNotContains | backend/safety/response_filter.py:176 | a string that lacks a character of a phrase does not contain the phrase |
| Text.JoinContains | backend/document_security/document_verifier.py:564 | a substring of one joined part is a substring of the join |
| Text.JoinAvoids | ui/i18n_utils.py:173 | a character in neither the separator nor any part is not in the join |
| Text.Split | ui/i18n_utils.py:85 | `split` on one character: at least one piece, none holding the separator, and joining them back gives the string |
| Text.JoinGlue | ui/i18n_utils.py:173 | a prefix of the first part is a prefix of the join |
| Text.PyIndex | backend/ingestion/chunkers.py:28 | a slice bound, negative ones counted from the end, lies within the sequence |
| Text.PySlice | backend/ingestion/chunkers.py:28 | a Python slice is never longer than the sequence |
| Text.PyTake | backend/feedback/feedback_store.py:47 | `s[:j]` is never longer than `s`, and for `j >= 0` is its first `j` elements or all of it |
| Text.PyTakeLast | backend/ingestion/chunkers.py:28 | `s[-k:]` is never longer than `s` |
| Text.NatToString | backend/document_security/document_verifier.py:551-555 | formatting a count in an f-string gives one or more decimal digits |

## Left out

- Regular expressions. The patterns' source texts are kept, but whether a pattern matches, what `findall`/`finditer` return and what `re.sub` produces are parameters. The plain substring tests (immediacy words, ambiguous phrases, the social-engineering keywords) are modelled exactly.
- Language model calls: the Vertex AI client, its thread-pool timeout and the prompt. `_llm_classify` is modelled from the parsed reply onward. A failed call is the `LlmFailed` reply, which gives the conservative classification. Its printed message is not modelled.
- Firestore, Pub/Sub and Secret Manager clients.
  - Firestore is a map from report id to document, plus an audit sequence.
  - A publish is an append to an outbox, guarded by a flag that says whether Pub/Sub accepted it.
  - `_get_encryption_key` and `get_encryption_key_path` only fetch or name the key; the key is the given `encrypt`/`decrypt` pair.
  - The pair is assumed to round-trip. This is a precondition of the service's constructor, not something the model proves.
- SafetyReporting.AuditEntry: the constant `'service': 'confidential_reporting'` key of every audit entry (backend/safety/reporting_service.py:297) is not a field, since it is the same on every entry.
- SafetyReporting.Publication: the Pub/Sub message attributes `priority` and `report_type='safety_incident'` (backend/safety/reporting_service.py:273-278) are not fields; the first repeats the payload's priority and the second is a constant.
- SHA-256, `uuid4` and `datetime.now`/`utcnow` are parameters: a digest function, the uuid's hex digits and an ISO time string. Times are compared as the source compares them.
- Clock reads within one call are taken as equal. `SafetyReporting.ReportingService.SubmitReport` reads `datetime.utcnow()` separately for the report's timestamp (reporting_service.py:149), its expiration (:240) and its audit entry (:293); the model uses one `now` for all three.
- `ReportingAPIContract.submit_report_schema`/`get_report_schema` and `print_config_summary`: constant JSON schemas and console output, with no logic.
- The console output of `validate_config`. Only its verdict and its issue list are modelled.
- Reading environment variables in config.py. Their parsed values are an `Environment` record.
- File I/O.
  - For the BM25 store, the pickle file is the optional triple the constructor starts from; rewriting it in `add` is not modelled.
  - For the feedback log, the JSON-lines file is its sequence of lines, and JSON encoding is not modelled. The constructor's `mkdir` is not modelled.
  - For the translators, the JSON translation files are given to the constructor as the tables they hold.
- The module-level `translate`/`get_translations`/`detect_language` shortcuts. These only call the modelled methods on a shared instance.
- NLTK: `sent_tokenize` and `word_tokenize`. The chunkers take the sentence list, and the BM25 store takes a tokeniser function.
- Embeddings and `cosine_similarity`. The semantic chunker takes the similarity of each neighbouring pair of sentences.
- The `rank_bm25` scoring. `Bm25Store.BM25Store.Search` takes one score per indexed text, and whether an index was built is a flag. `BM25Okapi` on a list of empty token lists raises `ZeroDivisionError`; that case is not modelled.
- The vector store and the embedders behind hybrid search. Their query results are inputs.
- `HybridSearch.RrfFusion` requires that no rank cancels `k` (`k + rank != 0`). There, Python raises `ZeroDivisionError`; the model leaves that case out rather than modelling the exception.
- Timsort's steps. The sort is modelled by its result, an insertion sort that is proved non-increasing, a permutation and stable.
- Unicode beyond Latin-1. `str.lower` is modelled for Basic Latin and Latin-1 letters, `str.upper` for Basic Latin, `str.isspace` for the code points CPython treats as whitespace, and `\w` for ASCII and Latin-1 word characters.
- `str()` of values that are not strings, in interpolation. Variables are given as their string forms.
- Floating point. Scores, ratios and confidences are exact reals or integer tenths.
- InfrastructureGuard.ShouldBlock: compares the exact confidence, whereas Python's `3 * 0.3` is 0.8999999999999999. So `should_block` with threshold 0.9 and three matched patterns is False in Python but blocks in the model.
- Rounding: `FeedbackStore.Store.GetFeedbackStats` returns the unrounded average and helpful percentage, and `I18nDetector.DetectWithMetadata` the unrounded confidence.
- The `filename` parameter of `verify_document`, which only reaches the log output.
- `random.choice` among the three profanity redirects is the index `pick`; the lemmas hold for every index.
- Streamlit (`ui/app.py`), the FastAPI handlers (`backend/api/main.py`), document loaders, embedders, rerankers, vector stores and the RAG orchestrator are not part of this model.

## Notes on the code

- In these places the tests or doc comments disagree with the code, and the model follows the code.
  - The safe default classification has severity LOW, because the severity scale has no NONE level.
  - Self-harm escalates with priority 'HIGH'.
  - Emotional distress does not allow the conversation to continue.
  - A document with a MEDIUM threat is not safe and is blocked from ingestion. `DocumentVerifier.AllowIffSafe` proves that ingestion is allowed exactly when the document is safe.
  - The doc comment of `_determine_action` ranks moderate violations (MODIFY) above hallucination. The code blocks a hallucination before it looks at moderate violations (`SafetyFilter.HallucinationRule`).
- The policy engine never consults `ESCALATION_PRIORITY_MAP`; its priorities depend on the category alone. `SafetyConfig.PolicyIgnoresPriorityMap` exhibits a pair where the two differ.
- The final PASS branch of `_determine_action` cannot be reached (`SafetyFilter.FinalPassUnreachable`).
- The reporting service's default anonymisation salt, `default_salt_change_in_prod`, is not the configuration's default, `default_salt_CHANGE_IN_PRODUCTION`. The model keeps the service's own default (`SafetyReporting.DefaultSalt`).
- The chat endpoint passes lower-case severity values to the reporting service. The service's upper-case retention table then gives them the 90-day default, and none of them requires follow-up (`SafetyReporting.RetentionRule`, `SafetyReporting.ReportDefaultsRule`).
- `sentence_chunker` can repeat its final window. Suppose the last sentence triggers an emission and the kept overlap is not empty. The flush after the loop then emits the kept sentences again, and with an overlap as large as the window that chunk is identical to the one before it (`Chunkers.RepeatedTail`).
