/** The rows the draft protocol lives in, and the reads every statement shares.
    Rows are never deleted, so a row's identity is its position in its table. */
module Tables {
  import opened Vocabulary
  import opened TrustLadder

  datatype Draft = Draft(
    caseId: CaseId,
    landlord: LandlordId,
    body: string,
    status: DraftStatus,
    autoSend: bool,
    scheduledSendAt: Option<Time>,
    approvedVia: Option<Channel>,
    sentMessage: Option<MessageId>,
    edited: bool,
    finalBody: Option<string>,
    createdAt: Time,
    updatedAt: Time)

  datatype Case = Case(
    uuid: nat,  // the 128-bit id, which the advisory lock key is cut from
    landlord: LandlordId,
    property: PropertyId,
    status: CaseStatus,
    severity: Option<Severity>,
    resolvedReason: Option<ResolvedReason>,
    resolvedAt: Option<Time>,
    pendingResolvedAt: Option<Time>,
    lastActivityAt: Time)

  datatype Message = Message(direction: Direction, party: Party, caseId: Option<CaseId>, body: string, createdAt: Time)

  /** One entry stands for the audit rows one statement wrote; a bulk cancel
      writes one row per member of its set. */
  datatype AuditAction =
    | Drafted(draft: DraftId)
    | DraftStale(drafts: set<DraftId>)
    | DraftApproved(draft: DraftId)
    | DraftEdited(draft: DraftId)
    | DraftRejected(draft: DraftId)
    | SendCancelled(drafts: set<DraftId>)
    | DraftSent(draft: DraftId, message: MessageId)
    | AutoSent(draft: DraftId)
    | TrustUnlocked
    | TrustRevoked(affected: nat)
    | CaseOpened
    | CaseReopened
    | CaseResolved(reason: ResolvedReason)

  datatype AuditEntry = AuditEntry(caseId: Option<CaseId>, action: AuditAction, at: Time)

  datatype Db = Db(
    now: Time,
    drafts: seq<Draft>,
    cases: seq<Case>,
    messages: seq<Message>,
    links: set<(MessageId, CaseId)>,  // message_cases
    ledger: Ledger,
    audit: seq<AuditEntry>)

  function Audited(db: Db, caseId: Option<CaseId>, action: AuditAction): Db {
    db.(audit := db.audit + [AuditEntry(caseId, action, db.now)])
  }

  // ----- shared reads ---------------------------------------------------------

  predicate InCase(d: Draft, c: CaseId, status: DraftStatus) {
    d.caseId == c && d.status == status
  }

  /** Position of the first draft of case `c` with `status`, as the one-row
      SELECTs see it. */
  function FirstIn(drafts: seq<Draft>, c: CaseId, status: DraftStatus): (r: Option<DraftId>)
    ensures r.Some? ==> r.value < |drafts| && InCase(drafts[r.value], c, status)
    ensures r.None? ==> forall i :: 0 <= i < |drafts| ==> !InCase(drafts[i], c, status)
  {
    if drafts == [] then None
    else
      match FirstIn(drafts[..|drafts| - 1], c, status)
      case Some(i) => Some(i)
      case None => if InCase(drafts[|drafts| - 1], c, status) then Some(|drafts| - 1) else None
  }

  function PendingOf(db: Db, c: CaseId): (r: Option<DraftId>) {
    FirstIn(db.drafts, c, Pending)
  }

  predicate CaseIs(db: Db, c: CaseId, status: CaseStatus) {
    c < |db.cases| && db.cases[c].status == status
  }

  predicate LinkedTo(db: Db, m: MessageId, c: CaseId) {
    m < |db.messages| && (db.messages[m].caseId == Some(c) || (m, c) in db.links)
  }

  /** Some inbound message on the draft's case is newer than the draft. */
  predicate NewerInbound(db: Db, d: Draft) {
    exists m | 0 <= m < |db.messages| ::
      LinkedTo(db, m, d.caseId) && db.messages[m].direction == Inbound && db.messages[m].createdAt > d.createdAt
  }

  /** Some tenant message on the draft's case is newer than the row's last
      write; for an approved row that write is its approval. */
  predicate NewerTenantInbound(db: Db, d: Draft) {
    exists m | 0 <= m < |db.messages| ::
      LinkedTo(db, m, d.caseId) && db.messages[m].direction == Inbound && db.messages[m].party == Tenant
      && db.messages[m].createdAt > d.updatedAt
  }

  predicate Due(d: Draft, now: Time) {
    d.scheduledSendAt.Some? && d.scheduledSendAt.value <= now
  }

  predicate SupersededAuto(db: Db, d: Draft) {
    d.autoSend && NewerInbound(db, d)
  }

  predicate SupersededSms(db: Db, d: Draft) {
    d.approvedVia == Some(Sms) && NewerTenantInbound(db, d)
  }

  /** The WHERE clause of the claim. */
  predicate Claimable(db: Db, d: Draft) {
    && d.status == Approved
    && Due(d, db.now)
    && !SupersededAuto(db, d)
    && !SupersededSms(db, d)
    && !CaseIs(db, d.caseId, Resolved)
  }

  /** What the sender puts on the wire for a row: the landlord's text exactly when
      the row is marked edited, and nothing at all when that text is missing. */
  function SendText(d: Draft): Option<string> {
    if d.edited then (if d.finalBody.Some? && d.finalBody.value != "" then d.finalBody else None)
    else Some(d.body)
  }
}
