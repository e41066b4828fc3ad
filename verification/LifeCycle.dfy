/** What one transaction may do to the tables: which status changes exist, that
    rows keep their identity, that the logs only grow, and that a case never has
    two pending drafts. One short lemma per transaction. */
module LifeCycle {
  import opened Vocabulary
  import opened TrustLadder
  import opened Tables
  import opened CaseLifecycle
  import opened Transactions

  /** The draft life cycle outside the sender. */
  predicate Arrow(a: DraftStatus, b: DraftStatus) {
    match a
    case Pending => b == Approved || b == Stale || b == Rejected || b == Cancelled
    case Approved => b == Pending || b == Cancelled
    case _ => false
  }

  /** The sender's two arrows. */
  predicate SenderArrow(a: DraftStatus, b: DraftStatus) {
    (a == Approved && b == Sending) || (a == Sending && b == Sent)
  }

  predicate SameIdentity(a: Draft, b: Draft) {
    a.caseId == b.caseId && a.body == b.body && a.landlord == b.landlord && a.createdAt == b.createdAt
  }

  /** A row is untouched, or takes one arrow. In particular an approved row keeps
      its approval instant, channel, text and schedule until it leaves
      `approved`. */
  predicate RowMoves(a: Draft, b: Draft, sender: bool) {
    || a == b
    || (SameIdentity(a, b) && Arrow(a.status, b.status) && a.sentMessage == b.sentMessage)
    || (sender && SameIdentity(a, b) && SenderArrow(a.status, b.status)
        && (b.status == Sending ==> a.sentMessage == b.sentMessage))
  }

  predicate FreshRow(d: Draft, now: Time) {
    d.status == Pending && !d.autoSend && d.approvedVia.None? && d.sentMessage.None? && !d.edited && d.finalBody.None?
    && d.createdAt == now == d.updatedAt
  }

  predicate SameCaseIdentity(a: Case, b: Case) {
    a.uuid == b.uuid && a.landlord == b.landlord && a.property == b.property
  }

  predicate TablesGrow(a: Db, b: Db) {
    && a.now <= b.now
    && a.messages <= b.messages
    && a.audit <= b.audit
    && |a.cases| <= |b.cases|
    && (forall c :: 0 <= c < |a.cases| ==> SameCaseIdentity(a.cases[c], b.cases[c]))
  }

  predicate DraftsMove(a: Db, b: Db, sender: bool) {
    && |a.drafts| <= |b.drafts|
    && (forall i :: 0 <= i < |a.drafts| ==> RowMoves(a.drafts[i], b.drafts[i], sender))
    && (forall i :: |a.drafts| <= i < |b.drafts| ==> FreshRow(b.drafts[i], a.now))
  }

  predicate DbStep(a: Db, b: Db, sender: bool) {
    TablesGrow(a, b) && DraftsMove(a, b, sender)
  }

  /** The schema's one-pending index. */
  predicate OnePending(db: Db) {
    forall i, j :: 0 <= i < j < |db.drafts| && db.drafts[i].status == Pending && db.drafts[j].status == Pending ==>
      db.drafts[i].caseId != db.drafts[j].caseId
  }

  lemma PendingIsUnique(db: Db, d: DraftId)
    requires OnePending(db) && d < |db.drafts| && db.drafts[d].status == Pending
    ensures PendingOf(db, db.drafts[d].caseId) == Some(d)
  {
    assert InCase(db.drafts[d], db.drafts[d].caseId, Pending);
  }

  // ----- one lemma per transaction --------------------------------------------

  lemma ReceiveFacts(db: Db, party: Party, about: Option<CaseId>, body: string)
    ensures DbStep(db, Transactions.Receive(db, party, about, body), false)
  {
  }

  lemma IdentifyFacts(db: Db, m: MessageId, target: Option<CaseId>, uuid: nat, landlord: LandlordId,
                      property: PropertyId, confirms: bool)
    ensures DbStep(db, IdentifyCase(db, m, target, uuid, landlord, property, confirms), false)
    ensures IdentifyCase(db, m, target, uuid, landlord, property, confirms).drafts == db.drafts
  {
  }

  lemma CancelFacts(db: Db, c: CaseId)
    ensures DbStep(db, CancelDraftsOfCase(db, c), false)
    ensures OnePending(db) ==> OnePending(CancelDraftsOfCase(db, c))
  {
    var db' := CancelDraftsOfCase(db, c);
    forall i | 0 <= i < |db.drafts| ensures RowMoves(db.drafts[i], db'.drafts[i], false) {}
  }

  lemma ResolveFacts(db: Db, c: CaseId, landlord: LandlordId)
    ensures DbStep(db, ResolveByLandlord(db, c, landlord), false)
    ensures OnePending(db) ==> OnePending(ResolveByLandlord(db, c, landlord))
  {
    if c < |db.cases| {
      CancelFacts(Audited(db.(cases := db.cases[c := ResolvedRow(db.cases[c], ByLandlord, db.now)]), Some(c),
                          CaseResolved(ByLandlord)), c);
    }
  }

  lemma SweepFacts(db: Db, c: CaseId, leg: Leg, at: Time)
    ensures DbStep(db, SweepWrite(db, c, leg, at), false)
    ensures OnePending(db) ==> OnePending(SweepWrite(db, c, leg, at))
  {
    if c < |db.cases| {
      CancelFacts(Audited(db.(cases := db.cases[c := ResolvedRow(db.cases[c], ReasonOf(leg), at)]), Some(c),
                          CaseResolved(ReasonOf(leg))), c);
    }
  }

  lemma ClassifyFacts(db: Db, c: CaseId, severity: Severity)
    ensures DbStep(db, Classify(db, c, severity), false)
  {
  }

  lemma InsertFacts(db: Db, c: CaseId, landlord: LandlordId, body: string)
    ensures DbStep(db, InsertDraft(db, c, landlord, body), false)
    ensures OnePending(db) ==> OnePending(InsertDraft(db, c, landlord, body))
    ensures PendingOf(InsertDraft(db, c, landlord, body), c) == Some(|db.drafts|)
  {
    var db' := InsertDraft(db, c, landlord, body);
    var n := |db.drafts|;
    assert |db'.drafts| == n + 1 && InCase(db'.drafts[n], c, Pending);
    forall i | 0 <= i < n ensures RowMoves(db.drafts[i], db'.drafts[i], false) && !InCase(db'.drafts[i], c, Pending) {
      InsertMovesRow(db, c, landlord, body, i);
    }
    hide RowMoves;
  }

  lemma InsertMovesRow(db: Db, c: CaseId, landlord: LandlordId, body: string, i: DraftId)
    requires i < |db.drafts|
    ensures |InsertDraft(db, c, landlord, body).drafts| == |db.drafts| + 1
    ensures RowMoves(db.drafts[i], InsertDraft(db, c, landlord, body).drafts[i], false)
    ensures !InCase(InsertDraft(db, c, landlord, body).drafts[i], c, Pending)
  {
  }

  lemma MarkFacts(db: Db, c: CaseId)
    ensures DbStep(db, MarkAwaiting(db, c), false)
  {
  }

  lemma AutoSendFacts(db: Db, c: CaseId)
    requires AutoSend(db, c).Some?
    ensures DbStep(db, AutoSend(db, c).value, false)
    ensures OnePending(db) ==> OnePending(AutoSend(db, c).value)
  {
  }

  lemma DecisionFacts(db: Db, c: CaseId, d: DraftId, dec: Decision)
    requires d < |db.drafts| && c < |db.cases|
    ensures DbStep(db, ApplyDecision(db, c, d, dec), false)
    ensures OnePending(db) ==> OnePending(ApplyDecision(db, c, d, dec))
  {
    hide RecordRejection, UndoWindow;
    if dec.action == Reject { assert TablesGrow(db, ApplyDecision(db, c, d, dec)); }
  }

  lemma FinalizeFacts(db: Db, c: CaseId, d: DraftId, dec: Decision)
    requires FinalizeUnpaused(db, c, d, dec).Some?
    ensures DbStep(db, FinalizeUnpaused(db, c, d, dec).value, false)
    ensures OnePending(db) ==> OnePending(FinalizeUnpaused(db, c, d, dec).value)
  {
    DecisionFacts(db, c, d, dec);
    DecisionFacts(EnsureAwaiting(db, c), c, d, dec);
  }

  lemma UndoFacts(db: Db, d: DraftId, landlord: LandlordId, channel: Channel)
    ensures DbStep(db, Undo(db, d, landlord, channel), false)
    ensures OnePending(db) ==> OnePending(Undo(db, d, landlord, channel))
  {
    var db' := Undo(db, d, landlord, channel);
    if db' != db && OnePending(db) {
      forall i | 0 <= i < |db.drafts| && i != d && db'.drafts[i].status == Pending
        ensures db'.drafts[i].caseId != db'.drafts[d].caseId
      {
        assert !InCase(db.drafts[i], db.drafts[d].caseId, Pending);
      }
    }
  }

  lemma ClaimFacts(db: Db, d: DraftId)
    ensures DbStep(db, Claim(db, d), true)
    ensures OnePending(db) ==> OnePending(Claim(db, d))
    ensures !ClaimWins(db, d) ==> DbStep(db, Claim(db, d), false)
  {
  }

  lemma RecordFacts(db: Db, d: DraftId, body: string, landlord: LandlordId, property: PropertyId,
                    severity: Option<Severity>, edited: bool, threshold: nat)
    requires d < |db.drafts| && db.drafts[d].status == Sending
    ensures DbStep(db, RecordSent(db, d, body, landlord, property, severity, edited, threshold), true)
    ensures OnePending(db) ==> OnePending(RecordSent(db, d, body, landlord, property, severity, edited, threshold))
  {
  }
}
