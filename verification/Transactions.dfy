/** Every transaction of the draft protocol as a function from the tables before
    it to the tables after. Each is one short transaction of the source and so one
    atomic step; `db.now` is its `now()`. */
module Transactions {
  import opened Vocabulary
  import opened TrustLadder
  import opened Tables
  import opened CaseLifecycle

  const UNDO_WINDOW: Time := 5
  const SMS_UNDO_WINDOW: Time := 5 * MINUTE

  datatype Action = Approve | EditAndSend | Reject | Unrecognised

  /** A landlord's decision as `resume_value` carries it. */
  datatype Decision = Decision(action: Action, body: Option<string>, channel: Channel)

  function UndoWindow(channel: Channel): Time {
    match channel case Dashboard => UNDO_WINDOW case Sms => SMS_UNDO_WINDOW
  }

  // ----- bulk updates of `drafts` ---------------------------------------------

  function CancelledRow(d: Draft, now: Time): Draft {
    d.(status := Cancelled, updatedAt := now)
  }

  predicate OpenUnsent(d: Draft, c: CaseId) {
    d.caseId == c && (d.status == Pending || d.status == Approved) && d.sentMessage.None?
  }

  predicate UnsentAutoOrSms(d: Draft, c: CaseId) {
    InCase(d, c, Approved) && (d.autoSend || d.approvedVia == Some(Sms))
  }

  function CancelOpen(drafts: seq<Draft>, c: CaseId, now: Time): (r: seq<Draft>)
    ensures |r| == |drafts|
    ensures forall i :: 0 <= i < |drafts| ==>
              r[i] == if OpenUnsent(drafts[i], c) then CancelledRow(drafts[i], now) else drafts[i]
  {
    seq(|drafts|, i requires 0 <= i < |drafts| =>
      if OpenUnsent(drafts[i], c) then CancelledRow(drafts[i], now) else drafts[i])
  }

  function CancelAutoAndSms(drafts: seq<Draft>, c: CaseId, now: Time): (r: seq<Draft>)
    ensures |r| == |drafts|
    ensures forall i :: 0 <= i < |drafts| ==>
              r[i] == if UnsentAutoOrSms(drafts[i], c) then CancelledRow(drafts[i], now) else drafts[i]
  {
    seq(|drafts|, i requires 0 <= i < |drafts| =>
      if UnsentAutoOrSms(drafts[i], c) then CancelledRow(drafts[i], now) else drafts[i])
  }

  function StalePending(drafts: seq<Draft>, c: CaseId, now: Time): (r: seq<Draft>)
    ensures |r| == |drafts|
    ensures forall i :: 0 <= i < |drafts| ==>
              r[i] == if InCase(drafts[i], c, Pending) then drafts[i].(status := Stale, updatedAt := now) else drafts[i]
  {
    seq(|drafts|, i requires 0 <= i < |drafts| =>
      if InCase(drafts[i], c, Pending) then drafts[i].(status := Stale, updatedAt := now) else drafts[i])
  }

  // ----- messages and cases ---------------------------------------------------

  function Receive(db: Db, party: Party, caseId: Option<CaseId>, body: string): Db {
    db.(messages := db.messages + [Message(Inbound, party, caseId, body, db.now)])
  }

  function NewCase(db: Db, uuid: nat, landlord: LandlordId, property: PropertyId): Db {
    var c := Case(uuid, landlord, property, Open, None, None, None, None, db.now);
    Audited(db.(cases := db.cases + [c]), Some(|db.cases|), CaseOpened)
  }

  /** `identify_case`: attach message `m` to the routed case, reopening it or
      opening a linked one when it is resolved. */
  function IdentifyCase(db: Db, m: MessageId, target: Option<CaseId>, uuid: nat, landlord: LandlordId,
                        property: PropertyId, confirmsResolved: bool): Db {
    if target.None? || target.value >= |db.cases| then
      Attach(NewCase(db, uuid, landlord, property), m, |db.cases|, confirmsResolved)
    else
      var c := target.value;
      var row := db.cases[c];
      if row.status != Resolved then
        Attach(db.(cases := db.cases[c := TouchedRow(row, db.now)]), m, c, confirmsResolved)
      else if row.resolvedAt.None? then db  // raises; the transaction rolls back
      else if ReopensSameCase(row.resolvedAt.value, db.now) then
        Attach(Audited(db.(cases := db.cases[c := ReopenedRow(row, db.now)]), Some(c), CaseReopened), m, c,
               confirmsResolved)
      else
        Attach(NewCase(db, uuid, landlord, property), m, |db.cases|, confirmsResolved)
  }

  function Attach(db: Db, m: MessageId, c: CaseId, confirmsResolved: bool): Db
    requires c < |db.cases|
  {
    var db' := db.(links := db.links + {(m, c)});
    if confirmsResolved then
      db'.(cases := db'.cases[c := db'.cases[c].(pendingResolvedAt := Some(db.now + RESOLUTION_PROPOSAL_WINDOW))])
    else db'
  }

  function CancelDraftsOfCase(db: Db, c: CaseId): Db {
    var cancelled := set i | 0 <= i < |db.drafts| && OpenUnsent(db.drafts[i], c);
    var db' := db.(drafts := CancelOpen(db.drafts, c, db.now));
    if cancelled == {} then db' else Audited(db', Some(c), SendCancelled(cancelled))
  }

  /** The landlord resolves directly; a repeat, or another landlord's case, writes
      nothing. */
  function ResolveByLandlord(db: Db, c: CaseId, landlord: LandlordId): Db {
    if c < |db.cases| && db.cases[c].landlord == landlord && db.cases[c].status != Resolved then
      CancelDraftsOfCase(
        Audited(db.(cases := db.cases[c := ResolvedRow(db.cases[c], ByLandlord, db.now)]), Some(c),
                CaseResolved(ByLandlord)), c)
    else db
  }

  /** One sweep action: the leg's guarded UPDATE and, only if it matched, its side
      effects. `at` is the clock reading the sweep started with. */
  function SweepWrite(db: Db, c: CaseId, leg: Leg, at: Time): Db {
    if c < |db.cases| && SweepGuard(db.cases[c], leg, at) then
      CancelDraftsOfCase(
        Audited(db.(cases := db.cases[c := ResolvedRow(db.cases[c], ReasonOf(leg), at)]), Some(c),
                CaseResolved(ReasonOf(leg))), c)
    else db
  }

  // ----- the graph's writes ---------------------------------------------------

  /** `classify_severity`: an emergency is never downgraded. */
  function Classify(db: Db, c: CaseId, severity: Severity): Db {
    if c < |db.cases| && db.cases[c].severity != Some(Emergency) then
      db.(cases := db.cases[c := db.cases[c].(severity := Some(severity))])
    else db
  }

  /** `draft_response`: cancel what a newer message superseded, retire the pending
      draft, insert the fresh one. */
  function InsertDraft(db: Db, c: CaseId, landlord: LandlordId, body: string): Db {
    var superseded := set i | 0 <= i < |db.drafts| && UnsentAutoOrSms(db.drafts[i], c);
    var stale := set i | 0 <= i < |db.drafts| && InCase(db.drafts[i], c, Pending);
    var kept := StalePending(CancelAutoAndSms(db.drafts, c, db.now), c, db.now);
    var row := Draft(c, landlord, body, Pending, false, None, None, None, false, None, db.now, db.now);
    var db1 := db.(drafts := kept + [row]);
    var db2 := if superseded == {} then db1 else Audited(db1, Some(c), SendCancelled(superseded));
    var db3 := if stale == {} then db2 else Audited(db2, Some(c), DraftStale(stale));
    Audited(db3, Some(c), Drafted(|kept|))
  }

  /** `mark_awaiting_approval`: skipped when the case has no pending draft, and
      otherwise unconditional. */
  function MarkAwaiting(db: Db, c: CaseId): Db {
    if c < |db.cases| && PendingOf(db, c).Some? then
      db.(cases := db.cases[c := db.cases[c].(status := AwaitingApproval)])
    else db
  }

  predicate AutoSendAllowed(db: Db, c: CaseId) {
    c < |db.cases| && db.cases[c].severity == Some(Routine) && AutonomyUnlocked(db.ledger, db.cases[c].property)
  }

  /** `auto_send_draft`: `None` is the fall-back to the ordinary pause. */
  function AutoSend(db: Db, c: CaseId): Option<Db> {
    match PendingOf(db, c)
    case None => None
    case Some(d) =>
      if AutoSendAllowed(db, c) then
        var row := db.drafts[d].(status := Approved, scheduledSendAt := Some(db.now + UNDO_WINDOW), autoSend := true,
                                 edited := false, finalBody := None, updatedAt := db.now);
        Some(Audited(db.(drafts := db.drafts[d := row]), Some(c), AutoSent(d)))
      else None
  }

  // ----- a landlord's decision ------------------------------------------------

  function ApprovedRow(d: Draft, dec: Decision, now: Time): Draft {
    d.(status := Approved, scheduledSendAt := Some(now + UndoWindow(dec.channel)), approvedVia := Some(dec.channel),
       edited := dec.action == EditAndSend,
       finalBody := if dec.action == EditAndSend then dec.body else None, updatedAt := now)
  }

  /** `apply_approve_or_edit` / `apply_rejection` on draft `d` of case `c`. */
  function ApplyDecision(db: Db, c: CaseId, d: DraftId, dec: Decision): Db
    requires d < |db.drafts| && c < |db.cases|
  {
    if db.drafts[d].status != Pending then db
    else
      match dec.action
      case Approve => Audited(db.(drafts := db.drafts[d := ApprovedRow(db.drafts[d], dec, db.now)]), Some(c), DraftApproved(d))
      case EditAndSend => Audited(db.(drafts := db.drafts[d := ApprovedRow(db.drafts[d], dec, db.now)]), Some(c), DraftEdited(d))
      case Reject =>
        var row := db.cases[c];
        Audited(db.(drafts := db.drafts[d := db.drafts[d].(status := Rejected, updatedAt := db.now)],
                    cases := db.cases[c := row.(status := Open, lastActivityAt := db.now)],
                    ledger := RecordRejection(db.ledger, row.landlord, row.property, row.severity)),
                Some(c), DraftRejected(d))
      case Unrecognised => db
  }

  /** `_ENSURE_CASE_AWAITING_APPROVAL_SQL`, on the never-paused path only. */
  function EnsureAwaiting(db: Db, c: CaseId): Db
    requires c < |db.cases|
  {
    db.(cases := db.cases[c := db.cases[c].(status := AwaitingApproval)])
  }

  /** `_finalize_never_paused_draft`, one transaction under the case lock. `None`
      means it raised and wrote nothing. */
  function FinalizeUnpaused(db: Db, c: CaseId, d: DraftId, dec: Decision): Option<Db> {
    if c >= |db.cases| || PendingOf(db, c) != Some(d) || dec.action == Unrecognised then None
    else if dec.action == Reject then Some(ApplyDecision(db, c, d, dec))
    else Some(ApplyDecision(EnsureAwaiting(db, c), c, d, dec))
  }

  /** Undo on either channel. A second pending draft on the case would break the
      one-pending index, so the statement raises and nothing is written. The
      dashboard's statement leaves `approved_via`; neither touches `auto_send`. */
  function Undo(db: Db, d: DraftId, landlord: LandlordId, channel: Channel): Db {
    if d < |db.drafts| && db.drafts[d].landlord == landlord && db.drafts[d].status == Approved
       && PendingOf(db, db.drafts[d].caseId).None?
    then
      var row := db.drafts[d];
      Audited(db.(drafts := db.drafts[d := row.(status := Pending, scheduledSendAt := None, edited := false,
                                               finalBody := None, updatedAt := db.now,
                                               approvedVia := if channel == Sms then None else row.approvedVia)]),
              Some(row.caseId), SendCancelled({d}))
    else db
  }

  // ----- the sender -----------------------------------------------------------

  /** `_claim_draft`: the claim, or else whichever cancel statement matches. */
  function Claim(db: Db, d: DraftId): Db {
    if d >= |db.drafts| then db
    else
      var row := db.drafts[d];
      if Claimable(db, row) then
        db.(drafts := db.drafts[d := row.(status := Sending, updatedAt := db.now)])
      else if row.status == Approved && (SupersededAuto(db, row) || SupersededSms(db, row)) then
        Audited(db.(drafts := db.drafts[d := CancelledRow(row, db.now)]), Some(row.caseId), SendCancelled({d}))
      else db
  }

  predicate ClaimWins(db: Db, d: DraftId) {
    d < |db.drafts| && Claimable(db, db.drafts[d])
  }

  /** The final write of a delivered draft. `severity` and `property` were read
      before the send. */
  function RecordSent(db: Db, d: DraftId, body: string, landlord: LandlordId, property: PropertyId,
                      severity: Option<Severity>, edited: bool, threshold: nat): Db
    requires d < |db.drafts|
  {
    var c := db.drafts[d].caseId;
    var m := |db.messages|;
    var ledger := RecordSend(db.ledger, landlord, property, severity, edited, threshold, db.now);
    var db1 := db.(
      messages := db.messages + [Message(Outbound, Tenant, Some(c), body, db.now)],
      drafts := db.drafts[d := db.drafts[d].(status := Sent, sentMessage := Some(m), updatedAt := db.now)],
      cases := if c < |db.cases| && db.cases[c].status != Resolved
               then db.cases[c := db.cases[c].(status := AwaitingTenant, lastActivityAt := db.now)] else db.cases,
      ledger := ledger);
    var db2 := if |ledger.log| == |db.ledger.log| + 2 then  // the graduation UPDATE matched
      Audited(db1, Some(c), TrustUnlocked) else db1;
    Audited(db2, Some(c), DraftSent(d, m))
  }

  // ----- revokes --------------------------------------------------------------

  function RevokeProperty(db: Db, landlord: LandlordId, property: PropertyId): Db {
    var keys := PropertyRevokeKeys(db.ledger, landlord, property);
    Audited(db.(ledger := RevokeKeys(db.ledger, keys, db.now)), None, TrustRevoked(|keys|))
  }

  function RevokeAll(db: Db, landlord: LandlordId): Db {
    var keys := LandlordRevokeKeys(db.ledger, landlord);
    Audited(db.(ledger := RevokeKeys(db.ledger, keys, db.now)), None, TrustRevoked(|keys|))
  }
}
