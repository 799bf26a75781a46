/** The confidential reporting service of backend/safety/reporting_service.py:
    building and storing a report, routing it to a Pub/Sub topic, the audit
    trail, authorised retrieval and the clean-up of expired reports.

    Firestore is the map `reports` from report id to stored document, the audit
    collection is the sequence `audit`, and the Pub/Sub messages that were
    published are the sequence `outbox`. SHA-256, Fernet, uuid and the clock
    are parameters: `digest`, the `encrypt`/`decrypt` pair, `uuidHex` and
    `now`. */
module SafetyReporting {
  import opened Wrappers
  import opened Text
  import SafetyConfig

  /** A reading of `datetime.utcnow()`: seconds on a fixed scale, and its
      `isoformat()` text. */
  datatype Instant = Instant(seconds: int, iso: string)

  const SecondsPerDay: int := 86400

  /** The `classification` dictionary: 'category' and 'severity' are required,
      the other keys may be absent. */
  datatype ClassificationInfo = ClassificationInfo(
    category: string,
    severity: string,
    detectedPatterns: Option<seq<string>>,
    confidence: Option<real>,
    reasoning: Option<string>)

  /** The `policy_response` dictionary: 'escalation_priority' is required but
      may hold `None`; the other keys may be absent. */
  datatype PolicyInfo = PolicyInfo(
    requiresEscalation: Option<bool>,
    escalationPriority: Option<string>,
    recipients: Option<seq<string>>)

  /** One entry of a report's `access_log`. */
  datatype AccessEntry = AccessEntry(accessorId: string, timestamp: string, purpose: string)

  /** The `ConfidentialReport` dataclass. */
  datatype Report = Report(
    reportId: string,
    timestamp: string,
    category: string,
    severity: string,
    escalationPriority: string,
    anonymizedUserId: string,
    deviceId: Option<string>,
    storeId: string,
    sessionId: string,
    encryptedMessage: string,
    keyVersion: string,
    detectedPatterns: seq<string>,
    confidence: real,
    reasoning: string,
    recipients: seq<string>,
    requiresFollowup: bool,
    retentionDays: int,
    accessLog: seq<AccessEntry>)

  /** A stored Firestore document: the report and its `expiration_date`. */
  datatype Document = Document(report: Report, expiration: int)

  /** One document of the audit collection. */
  datatype AuditEntry = AuditEntry(timestamp: string, action: string, reportId: string, userId: string)

  /** One message published to Pub/Sub: its topic and its JSON payload. */
  datatype Publication = Publication(
    topic: string,
    reportId: string,
    timestamp: string,
    severity: string,
    priority: string,
    storeId: string,
    recipients: seq<string>,
    requiresImmediateAction: bool)

  /** What `get_report` returns: the stored data with its new access entry, and
      the decrypted message. */
  datatype Retrieved = Retrieved(document: Document, decryptedMessage: string)

  /** The salt `_anonymize_user_id` falls back to when USER_ID_SALT is unset. */
  const DefaultSalt: string := "default_salt_change_in_prod"

  // ----- pure parts -----

  /** `f"SAFE-{uuid.uuid4().hex[:12].upper()}"`. */
  function ReportId(uuidHex: string): string {
    "SAFE-" + Upper(PyTake(uuidHex, 12))
  }

  /** `_anonymize_user_id`: the first 16 characters of the hex digest of the
      user id followed by the salt. */
  function AnonymizeUserId(userId: string, salt: string, digest: string -> string): string {
    PyTake(digest(userId + salt), 16)
  }

  /** `_get_retention_period`. */
  function RetentionPeriod(severity: string): int {
    match severity
    case "LOW" => 30
    case "MEDIUM" => 90
    case "HIGH" => 180
    case "CRITICAL" => 365
    case _ => 90
  }

  /** `context.get(key, default) if context else default`. */
  function ContextValue(context: Option<map<string, string>>, key: string, default: string): string {
    if context.Some? && key in context.value then context.value[key] else default
  }

  /** `policy_response['escalation_priority'] or 'NONE'`: `None` and the empty
      string are both falsy. */
  function StoredPriority(priority: Option<string>): string {
    if priority.None? || priority.value == "" then "NONE" else priority.value
  }

  /** The report `submit_report` builds. */
  function BuildReport(reportId: string, now: Instant, anonymizedUserId: string, encryptedMessage: string,
                       classification: ClassificationInfo, policy: PolicyInfo, context: Option<map<string, string>>): Report
  {
    Report(
      reportId,
      now.iso,
      classification.category,
      classification.severity,
      StoredPriority(policy.escalationPriority),
      anonymizedUserId,
      if context.Some? && "device_id" in context.value then Some(context.value["device_id"]) else None,
      ContextValue(context, "store_id", "UNKNOWN"),
      ContextValue(context, "session_id", "UNKNOWN"),
      encryptedMessage,
      "v1",
      classification.detectedPatterns.GetOr([]),
      classification.confidence.GetOr(0.0),
      classification.reasoning.GetOr(""),
      policy.recipients.GetOr([]),
      classification.severity in ["HIGH", "CRITICAL"],
      RetentionPeriod(classification.severity),
      [])
  }

  /** The routing priority: the report's own when it has a topic, else MEDIUM. */
  function RoutedPriority(priority: string, topics: map<string, string>): string {
    if priority in topics then priority else "MEDIUM"
  }

  /** The message `_route_to_recipients` publishes for a report. */
  function RoutingMessage(report: Report, topics: map<string, string>): Publication
    requires "MEDIUM" in topics
  {
    var priority := RoutedPriority(report.escalationPriority, topics);
    Publication(topics[priority], report.reportId, report.timestamp, report.severity, priority,
                report.storeId, report.recipients, priority == "CRITICAL_IMMEDIATE")
  }

  /** The ids of the stored reports whose expiration lies before `now`. */
  function ExpiredIds(reports: map<string, Document>, now: int): set<string> {
    set id | id in reports && reports[id].expiration < now
  }

  /** The store without its expired reports. */
  function Unexpired(reports: map<string, Document>, now: int): map<string, Document> {
    map id | id in reports && !(reports[id].expiration < now) :: reports[id]
  }

  /** Removing the expired ids leaves the unexpired reports. */
  lemma RemoveExpired(reports: map<string, Document>, now: int)
    ensures reports - ExpiredIds(reports, now) == Unexpired(reports, now)
  {
  }

  /** The report ids of the audit entries from position `from` on. */
  function AuditedIds(log: seq<AuditEntry>, from: nat): set<string>
    requires from <= |log|
  {
    set k | from <= k < |log| :: log[k].reportId
  }

  /** One more audit entry adds its report id. */
  lemma AuditedIdsSnoc(log: seq<AuditEntry>, from: nat, e: AuditEntry)
    requires from <= |log|
    ensures AuditedIds(log + [e], from) == AuditedIds(log, from) + {e.reportId}
  {
    var grown := log + [e];
    assert grown[|log|] == e;
    forall id | id in AuditedIds(log, from) ensures id in AuditedIds(grown, from) {
      var k :| from <= k < |log| && log[k].reportId == id;
      assert grown[k] == log[k];
    }
  }

  /** The audit trail `after` is `before` followed by one deletion entry,
      at time `iso`, for each of the report ids `ids`. */
  predicate Deletions(before: seq<AuditEntry>, after: seq<AuditEntry>, iso: string, ids: set<string>) {
    && |after| == |before| + |ids| && after[..|before|] == before
    && (forall k :: |before| <= k < |after| ==>
          after[k] == AuditEntry(iso, "AUTO_DELETED_EXPIRED", after[k].reportId, "system_cleanup")
          && after[k].reportId in ids)
    && AuditedIds(after, |before|) == ids
  }

  /** Auditing the deletion of one more report keeps `Deletions`. */
  lemma DeletionStep(before: seq<AuditEntry>, after: seq<AuditEntry>, iso: string, ids: set<string>, id: string)
    requires Deletions(before, after, iso, ids) && id !in ids
    ensures Deletions(before, after + [AuditEntry(iso, "AUTO_DELETED_EXPIRED", id, "system_cleanup")], iso, ids + {id})
  {
    var e := AuditEntry(iso, "AUTO_DELETED_EXPIRED", id, "system_cleanup");
    AuditedIdsSnoc(after, |before|, e);
    assert (after + [e])[..|before|] == after[..|before|];
  }

  /** The audit entries of deleting `ids`, one after another. */
  function DeletionEntries(iso: string, ids: seq<string>): (r: seq<AuditEntry>)
    ensures |r| == |ids|
  {
    if ids == [] then []
    else DeletionEntries(iso, ids[..|ids| - 1]) + [AuditEntry(iso, "AUTO_DELETED_EXPIRED", ids[|ids| - 1], "system_cleanup")]
  }

  /** The ids in a sequence. */
  function Elems(ids: seq<string>): (r: set<string>)
    ensures |r| <= |ids|
  {
    if ids == [] then {} else Elems(ids[..|ids| - 1]) + {ids[|ids| - 1]}
  }

  /** Deleting distinct ids one after another audits each of them once. */
  lemma {:induction false} DeletionsOf(before: seq<AuditEntry>, iso: string, ids: seq<string>)
    requires |Elems(ids)| == |ids|
    ensures Deletions(before, before + DeletionEntries(iso, ids), iso, Elems(ids))
  {
    if ids == [] {
      assert before + [] == before;
    } else {
      var init, id := ids[..|ids| - 1], ids[|ids| - 1];
      DeletionsOf(before, iso, init);
      DeletionStep(before, before + DeletionEntries(iso, init), iso, Elems(init), id);
      assert before + DeletionEntries(iso, ids)
          == before + DeletionEntries(iso, init) + [AuditEntry(iso, "AUTO_DELETED_EXPIRED", id, "system_cleanup")];
    }
  }

  lemma ElemsSnoc(ids: seq<string>, id: string)
    ensures Elems(ids + [id]) == Elems(ids) + {id}
  {
    assert (ids + [id])[..|ids|] == ids;
  }

  /** Deleting one more id appends its entry to the audit. */
  lemma DeletionEntriesSnoc(before: seq<AuditEntry>, iso: string, ids: seq<string>, id: string)
    ensures before + DeletionEntries(iso, ids + [id])
         == before + DeletionEntries(iso, ids) + [AuditEntry(iso, "AUTO_DELETED_EXPIRED", id, "system_cleanup")]
  {
    assert (ids + [id])[..|ids|] == ids;
  }

  /** One more deletion in the clean-up loop: the deleted ids grow by one
      pending id, and the store loses its document. */
  lemma CleanupStep(start: map<string, Document>, expired: set<string>, pending: set<string>,
                    deleted: seq<string>, id: string)
    requires pending !! Elems(deleted) && pending + Elems(deleted) == expired
    requires |deleted| == |Elems(deleted)| && id in pending
    ensures var d := deleted + [id];
      && pending - {id} !! Elems(d) && (pending - {id}) + Elems(d) == expired
      && |d| == |Elems(d)|
      && (start - Elems(deleted)) - {id} == start - Elems(d)
  {
    ElemsSnoc(deleted, id);
  }

  // ----- the service -----

  class ReportingService {
    const projectId: string
    /** `self.topics`. */
    const topics: map<string, string>
    /** Fernet encryption and decryption under the service's key. */
    const encrypt: string -> string
    const decrypt: string -> string
    /** `hashlib.sha256(·.encode()).hexdigest()`. */
    const digest: string -> string
    /** USER_ID_SALT, or `DefaultSalt` when unset. */
    const salt: string

    var reports: map<string, Document>
    var audit: seq<AuditEntry>
    var outbox: seq<Publication>

    /** The key decrypts what it encrypts, and the topics are the project's. */
    ghost predicate Valid() {
      (forall m :: decrypt(encrypt(m)) == m)
      && topics == SafetyConfig.PubsubTopics(projectId)
    }

    constructor(projectId: string, encrypt: string -> string, decrypt: string -> string,
                digest: string -> string, salt: string)
      requires forall m :: decrypt(encrypt(m)) == m
      ensures Valid()
      ensures this.projectId == projectId && this.salt == salt && this.digest == digest
      ensures this.encrypt == encrypt && this.decrypt == decrypt
      ensures reports == map[] && audit == [] && outbox == []
    {
      this.projectId := projectId;
      this.topics := SafetyConfig.PubsubTopics(projectId);
      this.encrypt := encrypt;
      this.decrypt := decrypt;
      this.digest := digest;
      this.salt := salt;
      reports := map[];
      audit := [];
      outbox := [];
    }

    /** `_audit_log`. */
    method AuditLog(action: string, reportId: string, userId: string, now: Instant)
      modifies this
      ensures audit == old(audit) + [AuditEntry(now.iso, action, reportId, userId)]
      ensures reports == old(reports) && outbox == old(outbox)
    {
      audit := audit + [AuditEntry(now.iso, action, reportId, userId)];
    }

    /** `_store_report`: the document, with its expiration date, under the
        report's id. */
    method StoreReport(report: Report, now: Instant)
      modifies this
      ensures reports == old(reports)[report.reportId := Document(report, now.seconds + report.retentionDays * SecondsPerDay)]
      ensures audit == old(audit) && outbox == old(outbox)
    {
      reports := reports[report.reportId := Document(report, now.seconds + report.retentionDays * SecondsPerDay)];
    }

    /** `_route_to_recipients`; `publishSucceeds` says whether Pub/Sub accepted
        the message. A failed publish changes nothing. */
    method RouteToRecipients(report: Report, publishSucceeds: bool)
      requires Valid()
      modifies this
      ensures outbox == old(outbox) + (if publishSucceeds then [RoutingMessage(report, topics)] else [])
      ensures reports == old(reports) && audit == old(audit)
    {
      var priority := report.escalationPriority;
      if priority !in topics {
        priority := "MEDIUM";
      }
      var message := Publication(topics[priority], report.reportId, report.timestamp, report.severity, priority,
                                 report.storeId, report.recipients, priority == "CRITICAL_IMMEDIATE");
      if publishSucceeds {
        outbox := outbox + [message];
      }
    }

    /** `submit_report`: store, then route when escalation is required, then
        audit; the id is returned even when publishing failed. */
    method SubmitReport(userId: string, message: string, classification: ClassificationInfo, policy: PolicyInfo,
                        context: Option<map<string, string>>, uuidHex: string, now: Instant, publishSucceeds: bool)
      returns (reportId: string)
      requires Valid()
      modifies this
      ensures Valid()
      ensures reportId == ReportId(uuidHex)
      ensures var report := BuildReport(reportId, now, AnonymizeUserId(userId, salt, digest), encrypt(message),
                                        classification, policy, context);
        reports == old(reports)[reportId := Document(report, now.seconds + report.retentionDays * SecondsPerDay)]
        && outbox == old(outbox)
           + (if policy.requiresEscalation.GetOr(false) && publishSucceeds then [RoutingMessage(report, topics)] else [])
      ensures audit == old(audit) + [AuditEntry(now.iso, "REPORT_CREATED", reportId, AnonymizeUserId(userId, salt, digest))]
      ensures decrypt(reports[reportId].report.encryptedMessage) == message
    {
      reportId := "SAFE-" + Upper(PyTake(uuidHex, 12));
      var anonymized := AnonymizeUserId(userId, salt, digest);
      var encrypted := encrypt(message);
      var report := BuildReport(reportId, now, anonymized, encrypted, classification, policy, context);
      StoreReport(report, now);
      if policy.requiresEscalation.GetOr(false) {
        RouteToRecipients(report, publishSucceeds);
      }
      AuditLog("REPORT_CREATED", reportId, anonymized, now);
    }

    /** `get_report`: the access attempt is audited first; a missing report
        gives `None`; otherwise one access entry is appended to the stored
        report, the success is audited and the decrypted report returned. */
    method GetReport(reportId: string, accessorId: string, purpose: string, now: Instant)
      returns (r: Option<Retrieved>)
      requires Valid()
      modifies this
      ensures Valid()
      ensures outbox == old(outbox)
      ensures reportId !in old(reports) ==>
        r == None && reports == old(reports)
        && audit == old(audit) + [AuditEntry(now.iso, "ACCESS_ATTEMPT: " + purpose, reportId, accessorId)]
      ensures reportId in old(reports) ==>
        var doc := old(reports)[reportId];
        var updated := doc.(report := doc.report.(accessLog := doc.report.accessLog + [AccessEntry(accessorId, now.iso, purpose)]));
        r == Some(Retrieved(updated, decrypt(doc.report.encryptedMessage)))
        && reports == old(reports)[reportId := updated]
        && audit == old(audit) + [AuditEntry(now.iso, "ACCESS_ATTEMPT: " + purpose, reportId, accessorId),
                                  AuditEntry(now.iso, "ACCESS_GRANTED: " + purpose, reportId, accessorId)]
    {
      AuditLog("ACCESS_ATTEMPT: " + purpose, reportId, accessorId, now);
      if reportId !in reports {
        return None;
      }
      var doc := reports[reportId];
      var decrypted := decrypt(doc.report.encryptedMessage);
      var entry := AccessEntry(accessorId, now.iso, purpose);
      var updated := doc.(report := doc.report.(accessLog := doc.report.accessLog + [entry]));
      reports := reports[reportId := updated];
      AuditLog("ACCESS_GRANTED: " + purpose, reportId, accessorId, now);
      r := Some(Retrieved(updated, decrypted));
    }

    /** One step of `cleanup_expired_reports`: the deletion is audited, then
        the document deleted. */
    method DeleteExpired(id: string, now: Instant)
      modifies this
      ensures reports == old(reports) - {id}
      ensures audit == old(audit) + [AuditEntry(now.iso, "AUTO_DELETED_EXPIRED", id, "system_cleanup")]
      ensures outbox == old(outbox)
    {
      AuditLog("AUTO_DELETED_EXPIRED", id, "system_cleanup", now);
      reports := reports - {id};
    }

    /** `cleanup_expired_reports`: every report whose expiration lies before
        `now` is audited and deleted, in the order the query yields them (any
        order), and their number returned. */
    method CleanupExpiredReports(now: Instant) returns (deletedCount: nat)
      requires Valid()
      modifies this
      ensures Valid()
      ensures reports == Unexpired(old(reports), now.seconds)
      ensures deletedCount == |ExpiredIds(old(reports), now.seconds)|
      ensures Deletions(old(audit), audit, now.iso, ExpiredIds(old(reports), now.seconds))
      ensures outbox == old(outbox)
    {
      var pending := ExpiredIds(reports, now.seconds);
      ghost var start, before := reports, audit;
      ghost var deleted: seq<string> := [];
      deletedCount := 0;
      while pending != {}
        invariant pending !! Elems(deleted) && pending + Elems(deleted) == ExpiredIds(start, now.seconds)
        invariant reports == start - Elems(deleted) && deletedCount == |deleted| == |Elems(deleted)|
        invariant audit == before + DeletionEntries(now.iso, deleted) && outbox == old(outbox)
        decreases pending
      {
        var id :| id in pending;
        CleanupStep(start, ExpiredIds(start, now.seconds), pending, deleted, id);
        DeletionEntriesSnoc(before, now.iso, deleted, id);
        DeleteExpired(id, now);
        pending, deleted := pending - {id}, deleted + [id];
        deletedCount := deletedCount + 1;
      }
      DeletionsOf(before, now.iso, deleted);
      RemoveExpired(start, now.seconds);
    }
  }

  // ----- properties -----

  /** The report id is 'SAFE-' followed by twelve upper-case hex digits. */
  lemma ReportIdShape(uuidHex: string)
    requires |uuidHex| == 32 && forall i :: 0 <= i < |uuidHex| ==> IsLowerHex(uuidHex[i])
    ensures var id := ReportId(uuidHex);
      |id| == 17 && id[..5] == "SAFE-" && forall i :: 5 <= i < 17 ==> IsUpperHex(id[i])
  {
    var id := ReportId(uuidHex);
    forall i | 5 <= i < 17 ensures IsUpperHex(id[i]) {
      assert id[i] == UpperChar(uuidHex[i - 5]);
    }
  }

  /** The anonymised id is sixteen characters of the digest, and the same user
      with the same salt always gets the same id. */
  lemma AnonymizeRule(userId: string, salt: string, digest: string -> string)
    requires |digest(userId + salt)| >= 16
    ensures var a := AnonymizeUserId(userId, salt, digest);
      |a| == 16 && a == digest(userId + salt)[..16]
  {
  }

  /** The retention table, with 90 days for anything else, including the
      lower-case severities the API sends. */
  lemma RetentionRule(severity: string)
    ensures severity == "LOW" ==> RetentionPeriod(severity) == 30
    ensures severity == "MEDIUM" ==> RetentionPeriod(severity) == 90
    ensures severity == "HIGH" ==> RetentionPeriod(severity) == 180
    ensures severity == "CRITICAL" ==> RetentionPeriod(severity) == 365
    ensures severity !in ["LOW", "MEDIUM", "HIGH", "CRITICAL"] ==> RetentionPeriod(severity) == 90
    ensures RetentionPeriod("high") == 90 && RetentionPeriod("critical") == 90
  {
  }

  /** The service's hard-coded retention agrees with the configuration's
      defaults for every configured severity. */
  lemma RetentionMatchesConfig(severity: string)
    requires severity in SafetyConfig.RetentionDays(SafetyConfig.Defaults)
    ensures RetentionPeriod(severity) == SafetyConfig.RetentionDays(SafetyConfig.Defaults)[severity]
  {
  }

  /** The defaults of a new report: follow-up exactly for HIGH and CRITICAL, the
      priority 'NONE' when the policy gives none, and UNKNOWN store and session
      with no device when there is no context. */
  lemma ReportDefaultsRule(reportId: string, now: Instant, anonymizedUserId: string, encryptedMessage: string,
                           classification: ClassificationInfo, policy: PolicyInfo, context: Option<map<string, string>>)
    ensures var r := BuildReport(reportId, now, anonymizedUserId, encryptedMessage, classification, policy, context);
      (r.requiresFollowup <==> classification.severity == "HIGH" || classification.severity == "CRITICAL")
      && (policy.escalationPriority.None? ==> r.escalationPriority == "NONE")
      && (context.None? ==> r.storeId == "UNKNOWN" && r.sessionId == "UNKNOWN" && r.deviceId.None?)
      && r.retentionDays == RetentionPeriod(classification.severity)
      && r.accessLog == []
  {
  }

  /** Routing falls back to MEDIUM for a priority without a topic, and asks for
      immediate action exactly for CRITICAL_IMMEDIATE. */
  lemma RoutingRule(report: Report, projectId: string)
    ensures var topics := SafetyConfig.PubsubTopics(projectId);
      var m := RoutingMessage(report, topics);
      (report.escalationPriority !in topics.Keys ==> m.priority == "MEDIUM" && m.topic == topics["MEDIUM"])
      && (report.escalationPriority in topics.Keys ==> m.priority == report.escalationPriority)
      && (m.requiresImmediateAction <==> report.escalationPriority == "CRITICAL_IMMEDIATE")
  {
    SafetyConfig.PubsubTopicsRule(projectId);
  }

  /** Clean-up removes exactly the expired reports: what remains is unexpired,
      nothing unexpired is lost, and a second run at the same time finds
      nothing to delete. */
  lemma CleanupRule(reports: map<string, Document>, now: int)
    ensures var kept := Unexpired(reports, now);
      (forall id :: id in kept <==> id in reports && id !in ExpiredIds(reports, now))
      && (forall id :: id in kept ==> kept[id] == reports[id])
      && ExpiredIds(kept, now) == {}
  {
  }
}
