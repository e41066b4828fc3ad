/** What each transaction leaves in the tables, column by column and in the values of
    the schema: seconds, status names and row contents written out. */
module Outcomes {
  import opened Vocabulary
  import opened TrustLadder
  import opened Tables
  import opened CaseLifecycle
  import opened Transactions
  import opened DecisionSeam

  /** Nothing but the named tables changed. */
  predicate OnlyDraftsAndAudit(a: Db, b: Db) {
    b.now == a.now && b.cases == a.cases && b.messages == a.messages && b.links == a.links && b.ledger == a.ledger
  }

  predicate OnlyRow(a: seq<Draft>, b: seq<Draft>, d: DraftId) {
    |a| == |b| && forall i :: 0 <= i < |a| && i != d ==> b[i] == a[i]
  }

  predicate OnlyCase(a: seq<Case>, b: seq<Case>, c: CaseId) {
    |a| == |b| && forall i :: 0 <= i < |a| && i != c ==> b[i] == a[i]
  }

  // ----- the claim --------------------------------------------------------------

  /** Some inbound message on case `c`, attached directly or by a link, is younger than
      `since`; with `tenantOnly`, one from the tenant. */
  ghost predicate Heard(db: Db, c: CaseId, since: Time, tenantOnly: bool) {
    exists m :: 0 <= m < |db.messages| && (db.messages[m].caseId == Some(c) || (m, c) in db.links)
                && db.messages[m].direction == Inbound && (tenantOnly ==> db.messages[m].party == Tenant)
                && db.messages[m].createdAt > since
  }

  lemma HeardIsNewer(db: Db, d: Draft)
    ensures Heard(db, d.caseId, d.createdAt, false) <==> NewerInbound(db, d)
    ensures Heard(db, d.caseId, d.updatedAt, true) <==> NewerTenantInbound(db, d)
  {
    if NewerInbound(db, d) {
      var m :| 0 <= m < |db.messages| && LinkedTo(db, m, d.caseId) && db.messages[m].direction == Inbound
               && db.messages[m].createdAt > d.createdAt;
    }
    if Heard(db, d.caseId, d.createdAt, false) {
      var m :| 0 <= m < |db.messages| && (db.messages[m].caseId == Some(d.caseId) || (m, d.caseId) in db.links)
               && db.messages[m].direction == Inbound && db.messages[m].createdAt > d.createdAt;
      assert LinkedTo(db, m, d.caseId);
    }
    if NewerTenantInbound(db, d) {
      var m :| 0 <= m < |db.messages| && LinkedTo(db, m, d.caseId) && db.messages[m].direction == Inbound
               && db.messages[m].party == Tenant && db.messages[m].createdAt > d.updatedAt;
    }
    if Heard(db, d.caseId, d.updatedAt, true) {
      var m :| 0 <= m < |db.messages| && (db.messages[m].caseId == Some(d.caseId) || (m, d.caseId) in db.links)
               && db.messages[m].direction == Inbound && db.messages[m].party == Tenant
               && db.messages[m].createdAt > d.updatedAt;
      assert LinkedTo(db, m, d.caseId);
    }
  }

  /** An approved draft that a message overtook: an unattended one by any inbound message
      since it was drafted, one approved by SMS by a tenant message since its approval. */
  ghost predicate Overtaken(db: Db, d: Draft) {
    (d.autoSend && Heard(db, d.caseId, d.createdAt, false))
    || (d.approvedVia == Some(Sms) && Heard(db, d.caseId, d.updatedAt, true))
  }

  /** The row can be claimed: approved, its time has come, its case is not resolved and no
      message overtook it. */
  ghost predicate Claims(db: Db, row: Draft) {
    && row.status == Approved && row.scheduledSendAt.Some? && row.scheduledSendAt.value <= db.now
    && (row.caseId < |db.cases| ==> db.cases[row.caseId].status != Resolved) && !Overtaken(db, row)
  }

  /** What a claim attempt leaves: the caller's row in `sending`, or an approved row that a
      message overtook, due or not, cancelled with its audit entry; or it changed nothing. */
  ghost predicate ClaimTried(db: Db, db': Db, d: DraftId)
    requires d < |db.drafts|
  {
    var row := db.drafts[d];
    && OnlyDraftsAndAudit(db, db') && OnlyRow(db.drafts, db'.drafts, d)
    && (if Claims(db, row) then
          db'.drafts[d] == row.(status := Sending, updatedAt := db.now) && db'.audit == db.audit
        else if row.status == Approved && Overtaken(db, row) then
          && db'.drafts[d] == row.(status := Cancelled, updatedAt := db.now)
          && db'.audit == db.audit + [AuditEntry(Some(row.caseId), SendCancelled({d}), db.now)]
        else db' == db)
  }

  lemma ClaimDecides(db: Db, d: DraftId)
    requires d < |db.drafts|
    ensures ClaimWins(db, d) <==> Claims(db, db.drafts[d])
    ensures ClaimTried(db, Claim(db, d), d)
  {
    HeardIsNewer(db, db.drafts[d]);
    hide Heard, NewerInbound, NewerTenantInbound;
  }

  /** A draft decided on at `at` can be claimed exactly when its undo window, of 5 seconds
      or 5 minutes, is over, its case is not resolved and no message overtook it. */
  lemma DecidedComesDue(db: Db, d: DraftId, dec: Decision, at: Time)
    requires d < |db.drafts| && DecidedAs(db.drafts[d], dec, at) && dec.action != Reject
    ensures ClaimWins(db, d) <==>
              && db.now >= at + (if dec.channel == Sms then 300 else 5)
              && !CaseIs(db, db.drafts[d].caseId, Resolved)
              && !(db.drafts[d].autoSend && Heard(db, db.drafts[d].caseId, db.drafts[d].createdAt, false))
              && !(dec.channel == Sms && Heard(db, db.drafts[d].caseId, at, true))
  {
    ClaimDecides(db, d);
    hide Heard, Claim, ClaimWins, ClaimTried;
  }

  // ----- messages and cases -------------------------------------------------------

  lemma ReceiveStores(db: Db, party: Party, about: Option<CaseId>, body: string)
    ensures var db' := Receive(db, party, about, body);
            && db'.messages == db.messages + [Message(Inbound, party, about, body, db.now)]
            && db'.drafts == db.drafts && db'.cases == db.cases && db'.links == db.links && db'.audit == db.audit
            && db'.ledger == db.ledger && db'.now == db.now
  {
  }

  /** The message ends up attached to case `at`, whose status and activity are as given;
      48 hours from now the case will be resolved if the message says it is. */
  predicate AttachedTo(db: Db, db': Db, m: MessageId, at: CaseId, status: CaseStatus, confirms: bool) {
    && db'.links == db.links + {(m, at)}
    && at < |db'.cases| && db'.cases[at].status == status && db'.cases[at].lastActivityAt == db.now
    && db'.cases[at].pendingResolvedAt == (if confirms then Some(db.now + 48 * 3600) else None)
    && db'.drafts == db.drafts && db'.messages == db.messages && db'.ledger == db.ledger && db'.now == db.now
  }

  predicate OpensNew(db: Db, db': Db, m: MessageId, uuid: nat, landlord: LandlordId, property: PropertyId, confirms: bool) {
    && |db'.cases| == |db.cases| + 1 && db.cases <= db'.cases && AttachedTo(db, db', m, |db.cases|, Open, confirms)
    && db'.audit == db.audit + [AuditEntry(Some(|db.cases|), CaseOpened, db.now)]
    && var c := db'.cases[|db.cases|];
       c.uuid == uuid && c.landlord == landlord && c.property == property && c.severity.None?
       && c.resolvedReason.None? && c.resolvedAt.None?
  }

  /** A message routed to an open case joins it and withdraws any pending resolution; to
      one resolved at most 30 days ago, it reopens it; to one resolved longer ago, or to
      none, it opens a new case and leaves the old one alone. */
  lemma IdentifyRoutes(db: Db, m: MessageId, target: Option<CaseId>, uuid: nat, landlord: LandlordId, property: PropertyId,
                       confirms: bool)
    ensures var db' := IdentifyCase(db, m, target, uuid, landlord, property, confirms);
            if target.None? || target.value >= |db.cases| then OpensNew(db, db', m, uuid, landlord, property, confirms)
            else
              var c, row := target.value, db.cases[target.value];
              if row.status != Resolved then
                && AttachedTo(db, db', m, c, row.status, confirms) && OnlyCase(db.cases, db'.cases, c)
                && db'.cases[c].severity == row.severity && db'.audit == db.audit
              else if row.resolvedAt.None? then db' == db
              else if db.now - row.resolvedAt.value <= 30 * 24 * 3600 then
                && AttachedTo(db, db', m, c, Reopened, confirms) && OnlyCase(db.cases, db'.cases, c)
                && db'.cases[c].resolvedAt.None? && db'.cases[c].resolvedReason.None?
                && db'.audit == db.audit + [AuditEntry(Some(c), CaseReopened, db.now)]
              else OpensNew(db, db', m, uuid, landlord, property, confirms)
  {
  }

  /** The row of a case that was resolved at `at`. */
  predicate ResolvedFor(a: Case, b: Case, reason: ResolvedReason, at: Time) {
    && b.status == Resolved && b.resolvedReason == Some(reason) && b.resolvedAt == Some(at) && b.lastActivityAt == at
    && b.pendingResolvedAt.None? && b.severity == a.severity
    && b.uuid == a.uuid && b.landlord == a.landlord && b.property == a.property
  }

  /** Every pending or approved draft of the case that was never sent is cancelled, and no
      other draft is touched. */
  predicate CancelsUnsent(a: seq<Draft>, b: seq<Draft>, c: CaseId, now: Time) {
    && |a| == |b|
    && forall i :: 0 <= i < |a| ==>
         if a[i].caseId == c && (a[i].status == Pending || a[i].status == Approved) && a[i].sentMessage.None?
         then b[i] == a[i].(status := Cancelled, updatedAt := now) else b[i] == a[i]
  }

  /** The drafts a bulk cancel reaches, logged if there are any. */
  function UnsentOf(db: Db, c: CaseId): set<DraftId> {
    set i | 0 <= i < |db.drafts| && db.drafts[i].caseId == c && db.drafts[i].sentMessage.None?
            && (db.drafts[i].status == Pending || db.drafts[i].status == Approved)
  }

  predicate CancelLogged(db: Db, db': Db, c: CaseId, before: seq<AuditEntry>) {
    db'.audit == before + if UnsentOf(db, c) == {} then [] else [AuditEntry(Some(c), SendCancelled(UnsentOf(db, c)), db.now)]
  }

  lemma BulkCancels(db: Db, c: CaseId)
    ensures var db' := CancelDraftsOfCase(db, c);
            && OnlyDraftsAndAudit(db, db') && CancelsUnsent(db.drafts, db'.drafts, c, db.now)
            && CancelLogged(db, db', c, db.audit)
  {
    assert UnsentOf(db, c) == set i | 0 <= i < |db.drafts| && OpenUnsent(db.drafts[i], c);
  }

  lemma LandlordResolves(db: Db, c: CaseId, landlord: LandlordId)
    ensures var db' := ResolveByLandlord(db, c, landlord);
            if c < |db.cases| && db.cases[c].landlord == landlord && db.cases[c].status != Resolved then
              && OnlyCase(db.cases, db'.cases, c) && ResolvedFor(db.cases[c], db'.cases[c], ByLandlord, db.now)
              && CancelsUnsent(db.drafts, db'.drafts, c, db.now)
              && CancelLogged(db, db', c, db.audit + [AuditEntry(Some(c), CaseResolved(ByLandlord), db.now)])
              && db'.messages == db.messages && db'.links == db.links && db'.ledger == db.ledger
            else db' == db
  {
    if c < |db.cases| {
      BulkCancels(Audited(db.(cases := db.cases[c := ResolvedRow(db.cases[c], ByLandlord, db.now)]), Some(c),
                          CaseResolved(ByLandlord)), c);
    }
    hide CancelDraftsOfCase;
  }

  // ----- the graph's writes ---------------------------------------------------------

  /** Severity is overwritten, except that an emergency stays one. */
  lemma ClassifyKeepsEmergency(db: Db, c: CaseId, severity: Severity)
    requires c < |db.cases|
    ensures var db' := Classify(db, c, severity);
            && OnlyCase(db.cases, db'.cases, c) && db' == db.(cases := db'.cases)
            && db'.cases[c].severity == (if db.cases[c].severity == Some(Emergency) then Some(Emergency) else Some(severity))
            && db'.cases[c] == db.cases[c].(severity := db'.cases[c].severity)
  {
  }

  /** A new draft on the case: it is the case's one pending draft, unapproved and
      unscheduled. What it makes out of date is closed: the pending draft is stale, and
      an approved one is cancelled if it was going out unattended or by SMS. One that the
      landlord approved on the dashboard, and whatever was claimed, stays. */
  predicate Replaced(db: Db, db': Db, c: CaseId, landlord: LandlordId, body: string) {
    var n := |db.drafts|;
    && OnlyDraftsAndAudit(db, db') && |db'.drafts| == n + 1
    && db'.drafts[n] == Draft(c, landlord, body, Pending, false, None, None, None, false, None, db.now, db.now)
    && (forall i :: 0 <= i < n ==>
          var row := db.drafts[i];
          db'.drafts[i] ==
            if row.caseId == c && row.status == Pending then row.(status := Stale, updatedAt := db.now)
            else if row.caseId == c && row.status == Approved && (row.autoSend || row.approvedVia == Some(Sms))
            then row.(status := Cancelled, updatedAt := db.now)
            else row)
    && db.audit <= db'.audit && AuditEntry(Some(c), Drafted(n), db.now) in db'.audit
  }

  lemma DraftReplaces(db: Db, c: CaseId, landlord: LandlordId, body: string)
    ensures Replaced(db, InsertDraft(db, c, landlord, body), c, landlord, body)
  {
    var db' := InsertDraft(db, c, landlord, body);
    assert db'.audit[|db'.audit| - 1] == AuditEntry(Some(c), Drafted(|db.drafts|), db.now);
  }

  lemma MarkingAwaits(db: Db, c: CaseId)
    requires c < |db.cases|
    ensures var db' := MarkAwaiting(db, c);
            if exists i :: 0 <= i < |db.drafts| && db.drafts[i].caseId == c && db.drafts[i].status == Pending then
              db' == db.(cases := db.cases[c := db.cases[c].(status := AwaitingApproval)])
            else db' == db
  {
    if PendingOf(db, c).None? {
      forall i | 0 <= i < |db.drafts| ensures !(db.drafts[i].caseId == c && db.drafts[i].status == Pending) {
        assert !InCase(db.drafts[i], c, Pending);
      }
    }
  }

  /** An unattended approval is due for the case's pending draft: the case is routine and
      its property's autonomy unlocked and not revoked. */
  predicate Unattended(db: Db, c: CaseId)
    requires c < |db.cases|
  {
    var key := (db.cases[c].property, Routine);
    && PendingOf(db, c).Some? && db.cases[c].severity == Some(Routine)
    && key in db.ledger.rows && db.ledger.rows[key].unlocked && db.ledger.rows[key].revokedAt.None?
  }

  /** ... and approves draft `d` with its own text, for 5 seconds from now. */
  predicate ApprovedUnattended(db: Db, db': Db, c: CaseId, d: DraftId) {
    && d < |db.drafts| && OnlyDraftsAndAudit(db, db') && OnlyRow(db.drafts, db'.drafts, d)
    && var row, row' := db.drafts[d], db'.drafts[d];
       row'.status == Approved && row'.autoSend && row'.scheduledSendAt == Some(db.now + 5) && !row'.edited
       && row'.finalBody.None? && row'.body == row.body && row'.caseId == row.caseId && row'.approvedVia == row.approvedVia
       && db'.audit == db.audit + [AuditEntry(Some(c), AutoSent(d), db.now)]
  }

  lemma AutoSendApproves(db: Db, c: CaseId)
    requires c < |db.cases|
    ensures AutoSend(db, c).Some? <==> Unattended(db, c)
    ensures AutoSend(db, c).Some? ==> ApprovedUnattended(db, AutoSend(db, c).value, c, PendingOf(db, c).value)
  {
    hide FirstIn;
  }

  // ----- decisions and undo ----------------------------------------------------------

  /** A rejection counts against the property, if its case was ever classified. */
  predicate CountedRejected(l: Ledger, l': Ledger, row: Case) {
    match row.severity
    case None => l' == l
    case Some(sev) => CountsRejection(l, l', row.landlord, (row.property, sev))
  }

  /** A decision on a pending draft: the row as asked, with its own text and its
      unattended mark kept; a rejection also reopens the case for work and is counted
      against the property. On any other draft it does nothing. */
  predicate Decided(db: Db, db': Db, c: CaseId, d: DraftId, dec: Decision)
    requires d < |db.drafts| && c < |db.cases|
  {
    if db.drafts[d].status != Pending || dec.action == Unrecognised then db' == db
    else
      && OnlyRow(db.drafts, db'.drafts, d) && DecidedAs(db'.drafts[d], dec, db.now)
      && db'.drafts[d].body == db.drafts[d].body && db'.drafts[d].autoSend == db.drafts[d].autoSend
      && db'.messages == db.messages && db'.links == db.links && OnlyCase(db.cases, db'.cases, c)
      && (if dec.action == Reject then
            && db'.cases[c] == db.cases[c].(status := Open, lastActivityAt := db.now)
            && CountedRejected(db.ledger, db'.ledger, db.cases[c])
          else db'.cases == db.cases && db'.ledger == db.ledger)
      && db'.audit == db.audit + [AuditEntry(Some(c), if dec.action == Approve then DraftApproved(d)
                                                      else if dec.action == EditAndSend then DraftEdited(d)
                                                      else DraftRejected(d), db.now)]
  }

  lemma DecisionWrites(db: Db, c: CaseId, d: DraftId, dec: Decision)
    requires d < |db.drafts| && c < |db.cases|
    ensures Decided(db, ApplyDecision(db, c, d, dec), c, d, dec)
  {
    RejectionIsCounted(db.ledger, db.cases[c].landlord, db.cases[c].property, db.cases[c].severity);
    hide RecordRejection, CountsRejection;
  }

  /** Undo puts an approved draft back to pending, unscheduled and unedited; by SMS it also
      forgets how the draft was approved. The unattended mark stays. */
  predicate PutBack(db: Db, db': Db, d: DraftId, channel: Channel) {
    && d < |db.drafts| && OnlyDraftsAndAudit(db, db') && OnlyRow(db.drafts, db'.drafts, d)
    && var row := db.drafts[d];
       db'.drafts[d] == Draft(row.caseId, row.landlord, row.body, Pending, row.autoSend, None,
                              if channel == Sms then None else row.approvedVia, row.sentMessage, false, None,
                              row.createdAt, db.now)
       && db'.audit == db.audit + [AuditEntry(Some(row.caseId), SendCancelled({d}), db.now)]
  }

  lemma UndoPutsBack(db: Db, d: DraftId, landlord: LandlordId, channel: Channel)
    ensures if d < |db.drafts| && db.drafts[d].landlord == landlord && db.drafts[d].status == Approved
               && PendingOf(db, db.drafts[d].caseId).None?
            then PutBack(db, Undo(db, d, landlord, channel), d, channel) else Undo(db, d, landlord, channel) == db
  {
    hide FirstIn;
  }

  // ----- the final write ------------------------------------------------------------

  /** The send counts as clean or edited, as its row was, under the severity and property
      of its case; on a case that was never classified it counts nothing. */
  predicate CountedSend(l: Ledger, l': Ledger, landlord: LandlordId, property: PropertyId, severity: Option<Severity>,
                        edited: bool, threshold: nat, now: Time)
  {
    match severity
    case None => l' == l
    case Some(sev) =>
      if edited then CountsEdited(l, l', landlord, (property, sev))
      else CountsClean(l, l', landlord, (property, sev), threshold, now)
  }

  /** A delivered draft is sent, its message is on record as outbound to the tenant, its
      case waits for the tenant unless it was resolved meanwhile, and the audit log says
      so, after the unlock if there was one. */
  predicate SentOut(db: Db, db': Db, d: DraftId, body: string, landlord: LandlordId, property: PropertyId,
                    severity: Option<Severity>, edited: bool, threshold: nat)
    requires d < |db.drafts|
  {
    var c, m := db.drafts[d].caseId, |db.messages|;
    && OnlyRow(db.drafts, db'.drafts, d) && OnlyCase(db.cases, db'.cases, c) && db'.links == db.links && db'.now == db.now
    && db'.messages == db.messages + [Message(Outbound, Tenant, Some(c), body, db.now)]
    && db'.drafts[d] == db.drafts[d].(status := Sent, sentMessage := Some(m), updatedAt := db.now)
    && (c < |db.cases| ==>
          if db.cases[c].status == Resolved then db'.cases[c] == db.cases[c]
          else db'.cases[c] == db.cases[c].(status := AwaitingTenant, lastActivityAt := db.now))
    && CountedSend(db.ledger, db'.ledger, landlord, property, severity, edited, threshold, db.now)
    && db'.audit == db.audit
         + (if |db'.ledger.log| > |db.ledger.log| && db'.ledger.log[|db'.ledger.log| - 1] == Unlock(property)
            then [AuditEntry(Some(c), TrustUnlocked, db.now)] else [])
         + [AuditEntry(Some(c), DraftSent(d, m), db.now)]
  }

  lemma SentIsRecorded(db: Db, d: DraftId, body: string, landlord: LandlordId, property: PropertyId,
                       severity: Option<Severity>, edited: bool, threshold: nat)
    requires d < |db.drafts|
    ensures SentOut(db, RecordSent(db, d, body, landlord, property, severity, edited, threshold), d, body, landlord, property,
                    severity, edited, threshold)
  {
    SendIsCounted(db.ledger, landlord, property, severity, edited, threshold, db.now);
    hide RecordSend;
  }
}
