/** What a landlord is told about a reply by SMS, and what that tells them. Every
    confirmation goes out after a decision or an undo that other coroutines may have
    overtaken; these methods say which confirmations are true of the tables. */
module SmsReplies {
  import opened Vocabulary
  import opened Tables
  import opened Transactions
  import P = Protocol
  import SendSafety
  import DecisionSeam
  import opened Interleavings
  import opened BackendObject

  /** The confirmation that is queued; `Silent` when there is no such draft of this
      landlord, `Raised` when an error escapes instead. */
  datatype Notice = Silent | ApprovedNotice | RejectedNotice | StaleNotice | HandledNotice | UndoneNotice
                  | AlreadySentNotice | NothingToUndo | Raised

  predicate ApprovedFamily(s: DraftStatus) { s == Approved || s == Sending || s == Sent }

  predicate Superseded(s: DraftStatus) { s == Stale || s == Cancelled }

  /** The row's status, to its own landlord. */
  function StatusFor(db: Db, d: DraftId, landlord: LandlordId): Option<DraftStatus> {
    if d < |db.drafts| && db.drafts[d].landlord == landlord then Some(db.drafts[d].status) else None
  }

  /** "Approved" is true when the draft is approved, being sent or sent. It can be
      wrong in one way: the resume found the draft already cancelled by a resolve or
      a sweep, and then nothing on the case is open any more. */
  ghost predicate ApprovalNoticeHolds(db: Db, n: Notice, c: CaseId, d: DraftId, landlord: LandlordId) {
    && (n == ApprovedNotice ==>
          || (d < |db.drafts| && ApprovedFamily(db.drafts[d].status))
          || DecisionSeam.NoOpen(db, c))
    && (n == HandledNotice ==> StatusFor(db, d, landlord) == Some(Rejected))
    && (n == StaleNotice ==> StatusFor(db, d, landlord).Some? ==> !ApprovedFamily(StatusFor(db, d, landlord).value))
  }

  /** "Rejected" is true when the draft is rejected, with the same exception. */
  ghost predicate RejectionNoticeHolds(db: Db, n: Notice, c: CaseId, d: DraftId, landlord: LandlordId) {
    && (n == RejectedNotice ==>
          || (d < |db.drafts| && db.drafts[d].status == Rejected)
          || DecisionSeam.NoOpen(db, c))
    && (n == HandledNotice ==> StatusFor(db, d, landlord).Some? && ApprovedFamily(StatusFor(db, d, landlord).value))
  }

  lemma DoneIsTold(s: P.State, s': P.State, alone: bool, c: CaseId, d: DraftId, dec: Decision, landlord: LandlordId)
    requires DecisionPost(s, s', Done, alone, c, d, dec)
    ensures dec.action == Approve ==> ApprovalNoticeHolds(s'.db, ApprovedNotice, c, d, landlord)
    ensures dec.action == Reject ==> RejectionNoticeHolds(s'.db, RejectedNotice, c, d, landlord)
  {
  }

  /** What an approval is answered from the row's status alone; `None` for a pending
      row, which is worth a decision. */
  function ApproveAnswer(status: Option<DraftStatus>): Option<Notice> {
    match status
    case None => Some(Silent)
    case Some(st) =>
      if ApprovedFamily(st) then Some(ApprovedNotice)
      else if Superseded(st) then Some(StaleNotice)
      else if st != Pending then Some(HandledNotice)
      else None
  }

  /** The same for a rejection. */
  function RejectAnswer(status: Option<DraftStatus>): Option<Notice> {
    match status
    case None => Some(Silent)
    case Some(st) =>
      if st == Rejected then Some(RejectedNotice)
      else if ApprovedFamily(st) then Some(HandledNotice)
      else if Superseded(st) then Some(StaleNotice)
      else None
  }

  function ApproveReanswer(status: Option<DraftStatus>): Notice {
    if status.Some? && ApprovedFamily(status.value) then ApprovedNotice else StaleNotice
  }

  function RejectReanswer(status: Option<DraftStatus>): Notice {
    if status == Some(Rejected) then RejectedNotice
    else if status.Some? && ApprovedFamily(status.value) then HandledNotice
    else StaleNotice
  }

  /** Which notice each status gets, from the row alone and, when the decision found it
      overtaken, from the row read again. Only a pending draft is worth a decision. */
  lemma NoticeByStatus(st: DraftStatus)
    ensures ApproveAnswer(None) == Some(Silent) == RejectAnswer(None)
    ensures ApproveAnswer(Some(st)) ==
              match st
              case Pending => None
              case Approved => Some(ApprovedNotice)
              case Sending => Some(ApprovedNotice)
              case Sent => Some(ApprovedNotice)
              case Rejected => Some(HandledNotice)
              case Stale => Some(StaleNotice)
              case Cancelled => Some(StaleNotice)
    ensures RejectAnswer(Some(st)) ==
              match st
              case Pending => None
              case Approved => Some(HandledNotice)
              case Sending => Some(HandledNotice)
              case Sent => Some(HandledNotice)
              case Rejected => Some(RejectedNotice)
              case Stale => Some(StaleNotice)
              case Cancelled => Some(StaleNotice)
    ensures ApproveReanswer(Some(st)) == if st == Approved || st == Sending || st == Sent then ApprovedNotice else StaleNotice
    ensures RejectReanswer(Some(st)) ==
              if st == Rejected then RejectedNotice
              else if st == Approved || st == Sending || st == Sent then HandledNotice else StaleNotice
    ensures ApproveReanswer(None) == StaleNotice == RejectReanswer(None)
  {
  }

  lemma AnswersHold(db: Db, c: CaseId, d: DraftId, landlord: LandlordId)
    ensures var st := StatusFor(db, d, landlord);
            && (ApproveAnswer(st).Some? ==> ApprovalNoticeHolds(db, ApproveAnswer(st).value, c, d, landlord))
            && ApprovalNoticeHolds(db, ApproveReanswer(st), c, d, landlord)
            && (RejectAnswer(st).Some? ==> RejectionNoticeHolds(db, RejectAnswer(st).value, c, d, landlord))
            && RejectionNoticeHolds(db, RejectReanswer(st), c, d, landlord)
            && ApprovalNoticeHolds(db, Raised, c, d, landlord) && RejectionNoticeHolds(db, Raised, c, d, landlord)
  {
  }

  /** The decision a handler made, when the row was worth one. */
  datatype Seam = Seam(r: Resolution, path: SeamPath, trace: seq<P.Event>)

  const APPROVE_BY_SMS := Decision(Approve, None, Sms)
  const REJECT_BY_SMS := Decision(Reject, None, Sms)

  /** Errors after which the row's status is read again. */
  predicate Rereads(r: Resolution) { r.DraftIsStale? || r == NotAwaiting }

  /** The handler went through `resolve_draft_decision` once, and did nothing else. */
  ghost predicate Went(s: P.State, p: ProcId, c: CaseId, d: DraftId, dec: Decision, w: DecisionWorld,
                       beforeReread: seq<P.Event>, seam: Seam, s': P.State) {
    && DecisionSteps(s, p, c, d, dec, w, seam.r, seam.path, seam.trace)
    && s' == P.Run(P.Run(s, seam.trace), if Rereads(seam.r) then beforeReread else [])
  }

  lemma RunNothing(s: P.State)
    ensures P.Run(s, []) == s
  {
  }

  /** `_handle_approve` */
  method HandleApprove(b: Backend, p: ProcId, c: CaseId, d: DraftId, landlord: LandlordId, w: DecisionWorld,
                       beforeReread: seq<P.Event>)
    returns (notice: Notice, ghost seam: Option<Seam>)
    requires b.Valid() && p !in b.procs && AroundDecision(w, p) && ByOthers(beforeReread, p)
    modifies b
    ensures b.Valid() && p !in b.procs
    ensures seam.None? ==> b.State() == old(b.State()) && Some(notice) == ApproveAnswer(StatusFor(b.Tables(), d, landlord))
    ensures seam.Some? ==>
              && ApproveAnswer(StatusFor(old(b.Tables()), d, landlord)).None?
              && Went(old(b.State()), p, c, d, Decision(Approve, None, Sms), w, beforeReread, seam.value, b.State())
              && notice == if seam.value.r == Done then ApprovedNotice
                           else if Rereads(seam.value.r) then ApproveReanswer(StatusFor(b.Tables(), d, landlord)) else Raised
    ensures ApprovalNoticeHolds(b.Tables(), notice, c, d, landlord)
  {
    hide P.Run, DecisionSteps, DecisionPost, ApproveAnswer, RejectAnswer, ApproveReanswer, RejectReanswer, StatusFor,
      ApprovalNoticeHolds, RejectionNoticeHolds, Sound;
    ghost var s0 := b.State();
    AnswersHold(b.Tables(), c, d, landlord);
    var early := ApproveAnswer(StatusFor(b.Tables(), d, landlord));
    if early.Some? { return early.value, None; }
    var r;
    ghost var path, trace;
    r, path, trace := b.ResolveDraftDecision(p, c, d, APPROVE_BY_SMS, w);
    seam := Some(Seam(r, path, trace));
    b.TablesOfState();
    RunNothing(b.State());
    if r == Done {
      DoneIsTold(s0, b.State(), Alone(w), c, d, APPROVE_BY_SMS, landlord);
      return ApprovedNotice, seam;
    }
    if Rereads(r) { b.Yield(p, beforeReread); }
    AnswersHold(b.Tables(), c, d, landlord);
    return if Rereads(r) then ApproveReanswer(StatusFor(b.Tables(), d, landlord)) else Raised, seam;
  }

  /** `_handle_reject` */
  method HandleReject(b: Backend, p: ProcId, c: CaseId, d: DraftId, landlord: LandlordId, w: DecisionWorld,
                      beforeReread: seq<P.Event>)
    returns (notice: Notice, ghost seam: Option<Seam>)
    requires b.Valid() && p !in b.procs && AroundDecision(w, p) && ByOthers(beforeReread, p)
    modifies b
    ensures b.Valid() && p !in b.procs
    ensures seam.None? ==> b.State() == old(b.State()) && Some(notice) == RejectAnswer(StatusFor(b.Tables(), d, landlord))
    ensures seam.Some? ==>
              && RejectAnswer(StatusFor(old(b.Tables()), d, landlord)).None?
              && Went(old(b.State()), p, c, d, Decision(Reject, None, Sms), w, beforeReread, seam.value, b.State())
              && notice == if seam.value.r == Done then RejectedNotice
                           else if Rereads(seam.value.r) then RejectReanswer(StatusFor(b.Tables(), d, landlord)) else Raised
    ensures RejectionNoticeHolds(b.Tables(), notice, c, d, landlord)
  {
    hide P.Run, DecisionSteps, DecisionPost, ApproveAnswer, RejectAnswer, ApproveReanswer, RejectReanswer, StatusFor,
      ApprovalNoticeHolds, RejectionNoticeHolds, Sound;
    ghost var s0 := b.State();
    AnswersHold(b.Tables(), c, d, landlord);
    var early := RejectAnswer(StatusFor(b.Tables(), d, landlord));
    if early.Some? { return early.value, None; }
    var r;
    ghost var path, trace;
    r, path, trace := b.ResolveDraftDecision(p, c, d, REJECT_BY_SMS, w);
    seam := Some(Seam(r, path, trace));
    b.TablesOfState();
    RunNothing(b.State());
    if r == Done {
      DoneIsTold(s0, b.State(), Alone(w), c, d, REJECT_BY_SMS, landlord);
      return RejectedNotice, seam;
    }
    if Rereads(r) { b.Yield(p, beforeReread); }
    AnswersHold(b.Tables(), c, d, landlord);
    return if Rereads(r) then RejectReanswer(StatusFor(b.Tables(), d, landlord)) else Raised, seam;
  }

  /** `_handle_undo`. "Undone" goes out exactly when the draft was approved and was
      never handed to Twilio, and it leaves the draft pending; a draft that is being
      sent or was sent is answered "already sent" and untouched. */
  method HandleUndo(b: Backend, d: DraftId, landlord: LandlordId) returns (notice: Notice)
    requires b.Valid()
    modifies b
    ensures b.sends == old(b.sends)
    ensures notice == UndoneNotice ==>
              && old(StatusFor(b.Tables(), d, landlord)) == Some(Approved)
              && StatusFor(b.Tables(), d, landlord) == Some(Pending)
              && forall i :: 0 <= i < |b.sends| ==> b.sends[i].draft != d
    ensures old(StatusFor(b.Tables(), d, landlord)) == Some(Approved) ==>
              notice == if PendingOf(old(b.Tables()), old(b.drafts)[d].caseId).None? then UndoneNotice else Raised
    ensures notice == AlreadySentNotice <==>
              old(StatusFor(b.Tables(), d, landlord)) == Some(Sending) || old(StatusFor(b.Tables(), d, landlord)) == Some(Sent)
    ensures notice == Raised <==>
              old(StatusFor(b.Tables(), d, landlord)) == Some(Approved) && PendingOf(old(b.Tables()), old(b.drafts)[d].caseId).Some?
    ensures notice != UndoneNotice ==> b.State() == old(b.State())
  {
    var status := StatusFor(b.Tables(), d, landlord);
    if status == Some(Approved) { SendSafety.ApprovedIsFree(b.State(), d); }
    hide Sound, FirstIn, P.StepWeb;
    var undone := b.UndoApproval(d, landlord, Sms);
    if undone { return UndoneNotice; }
    if status == Some(Approved) { return Raised; }  // the one-pending index
    if status == Some(Sending) || status == Some(Sent) { return AlreadySentNotice; }
    return NothingToUndo;
  }
}
