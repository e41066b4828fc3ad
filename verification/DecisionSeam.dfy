/** The decision seam under interference. Whether a landlord's decision resumes a
    paused thread or is written directly is chosen from an unlocked read, and the
    node that finally writes it trusts the case's pending draft, not the decision.
    Still, over every run, a decision that carries draft `d` never changes another
    draft: under the case lock the case's pending draft can only stay `d` or be
    cancelled together with every other open draft of the case. */
module DecisionSeam {
  import opened Vocabulary
  import opened TrustLadder
  import opened Tables
  import opened CaseLifecycle
  import opened Transactions
  import opened LifeCycle
  import opened Protocol
  import opened SendSafety
  import opened Histories
  import opened LockSafety

  predicate OpenDraft(d: Draft, c: CaseId) {
    d.caseId == c && (d.status == Pending || d.status == Approved)
  }

  ghost predicate NoOpen(db: Db, c: CaseId) {
    forall i :: 0 <= i < |db.drafts| ==> !OpenDraft(db.drafts[i], c)
  }

  /** Nothing but `d` can still be decided on case `c`. */
  ghost predicate Settled(db: Db, c: CaseId, d: DraftId) {
    PendingOf(db, c) == Some(d) || NoOpen(db, c)
  }

  /** Only a sent row has an outbound message. */
  ghost predicate SentOnly(db: Db) {
    forall i :: 0 <= i < |db.drafts| && db.drafts[i].sentMessage.Some? ==> db.drafts[i].status == Sent
  }

  lemma SentOnlyKept(a: Db, b: Db)
    requires SentOnly(a) && DbStep(a, b, true)
    ensures SentOnly(b)
  {
    forall i | 0 <= i < |b.drafts| && b.drafts[i].sentMessage.Some? ensures b.drafts[i].status == Sent {
      if i < |a.drafts| { assert RowMoves(a.drafts[i], b.drafts[i], true); }
    }
  }

  // ----- what one write may do to a case it does not hold the lock of -----------

  ghost predicate Calm(a: Db, b: Db, c: CaseId) {
    && |a.drafts| <= |b.drafts|
    && (forall i :: |a.drafts| <= i < |b.drafts| ==> b.drafts[i].caseId != c)
    && (forall i :: 0 <= i < |a.drafts| && InCase(a.drafts[i], c, Pending) ==>
          InCase(b.drafts[i], c, Pending) || NoOpen(b, c))
    && (forall i :: 0 <= i < |a.drafts| && InCase(b.drafts[i], c, Pending) ==>
          InCase(a.drafts[i], c, Pending) || (InCase(a.drafts[i], c, Approved) && PendingOf(a, c).None?))
    && (forall i :: 0 <= i < |a.drafts| && InCase(b.drafts[i], c, Approved) ==> OpenDraft(a.drafts[i], c))
  }

  lemma CalmKeepsSettled(a: Db, b: Db, c: CaseId, d: DraftId)
    requires Settled(a, c, d) && Calm(a, b, c) && OnePending(b)
    ensures Settled(b, c, d)
  {
    if PendingOf(a, c) == Some(d) && InCase(b.drafts[d], c, Pending) {
      PendingIsUnique(b, d);
    } else {
      forall i | 0 <= i < |b.drafts| ensures !OpenDraft(b.drafts[i], c) {
        if i < |a.drafts| && NoOpen(a, c) { assert !OpenDraft(a.drafts[i], c); }
      }
    }
  }

  lemma SameDraftsCalm(a: Db, b: Db, c: CaseId)
    requires a.drafts == b.drafts
    ensures Calm(a, b, c)
  {
  }

  lemma OtherRowCalm(a: Db, b: Db, d: DraftId, c: CaseId)
    requires d < |a.drafts| == |b.drafts| && b.drafts == a.drafts[d := b.drafts[d]]
    requires b.drafts[d].caseId == a.drafts[d].caseId
    requires a.drafts[d].caseId == c ==> a.drafts[d].status != Pending && !OpenDraft(b.drafts[d], c)
    ensures Calm(a, b, c)
  {
  }

  lemma CancelCalm(db: Db, db': Db, held: CaseId, c: CaseId)
    requires SentOnly(db) && db'.drafts == CancelOpen(db.drafts, held, db.now)
    ensures Calm(db, db', c)
    ensures NoOpen(db', held)
  {
    forall i | 0 <= i < |db.drafts| ensures !OpenDraft(db'.drafts[i], held) {}
  }

  lemma UndoCalm(db: Db, d: DraftId, landlord: LandlordId, channel: Channel, c: CaseId)
    ensures Calm(db, Undo(db, d, landlord, channel), c)
  {
    var db' := Undo(db, d, landlord, channel);
    if db' == db { SameDraftsCalm(db, db', c); }
  }

  lemma InsertCalm(db: Db, held: CaseId, landlord: LandlordId, body: string, c: CaseId)
    requires held != c
    ensures Calm(db, InsertDraft(db, held, landlord, body), c)
  {
    var db' := InsertDraft(db, held, landlord, body);
    forall i | 0 <= i < |db.drafts| && db.drafts[i].caseId == c ensures db'.drafts[i] == db.drafts[i] {}
  }

  lemma ClaimCalm(db: Db, d: DraftId, c: CaseId)
    ensures Calm(db, Claim(db, d), c)
  {
    if Claim(db, d) == db { SameDraftsCalm(db, db, c); } else { OtherRowCalm(db, Claim(db, d), d, c); }
  }

  lemma DecisionCalm(db: Db, held: CaseId, d: DraftId, dec: Decision, c: CaseId)
    requires d < |db.drafts| && held < |db.cases| && db.drafts[d].caseId == held != c
    ensures Calm(db, ApplyDecision(db, held, d, dec), c)
  {
    if db.drafts[d].status != Pending || dec.action == Unrecognised { SameDraftsCalm(db, db, c); }
    else { OtherRowCalm(db, ApplyDecision(db, held, d, dec), d, c); }
  }

  // ----- every step of somebody else ------------------------------------------

  lemma WebCalm(s: State, e: Event, c: CaseId)
    requires WebEvent(e) && SentOnly(s.db)
    requires c < |s.db.cases| && KeyOf(s, c) in s.locks
    ensures Calm(s.db, StepWeb(s, e).db, c)
  {
    hide Calm, SentOnly, ResolveByLandlord, Undo, StepFinalize;
    if e.ResolveCase? { ResolveCalm(s.db, e.c, e.landlord, c); }
    else if e.SweepCase? { SweepCalm(s, e, c); }
    else if e.UndoApproval? { UndoCalm(s.db, e.d, e.landlord, e.channel, c); }
    else if e.FinalizeNeverPaused? { FinalizeCalm(s, e.c, e.d, e.decision, c); }
    else { SameDraftsCalm(s.db, StepWeb(s, e).db, c); }
  }

  lemma ResolveCalm(db: Db, held: CaseId, landlord: LandlordId, c: CaseId)
    requires SentOnly(db)
    ensures Calm(db, ResolveByLandlord(db, held, landlord), c)
  {
    var db' := ResolveByLandlord(db, held, landlord);
    if db' == db { SameDraftsCalm(db, db, c); } else { CancelCalm(db, db', held, c); }
  }

  lemma SweepCalm(s: State, e: Event, c: CaseId)
    requires e.SweepCase? && SentOnly(s.db)
    ensures Calm(s.db, StepWeb(s, e).db, c)
  {
    hide Calm, SentOnly;
    if StepWeb(s, e).db == s.db { SameDraftsCalm(s.db, s.db, c); } else { CancelCalm(s.db, StepWeb(s, e).db, e.c, c); }
  }

  lemma CalmFromDrafts(a: Db, a': Db, b: Db, c: CaseId)
    requires a.drafts == a'.drafts
    ensures Calm(a', b, c) ==> Calm(a, b, c)
  {
  }

  lemma FinalizeCalm(s: State, held: CaseId, d: DraftId, dec: Decision, c: CaseId)
    requires c < |s.db.cases| && KeyOf(s, c) in s.locks
    ensures Calm(s.db, StepFinalize(s, held, d, dec).db, c)
  {
    hide Calm, ApplyDecision, FirstIn;
    if held < |s.db.cases| && KeyOf(s, held) !in s.locks && FinalizeUnpaused(s.db, held, d, dec).Some? {
      DecisionCalm(s.db, held, d, dec, c);
      DecisionCalm(EnsureAwaiting(s.db, held), held, d, dec, c);
      CalmFromDrafts(s.db, EnsureAwaiting(s.db, held), StepFinalize(s, held, d, dec).db, c);
    } else {
      SameDraftsCalm(s.db, s.db, c);
    }
  }

  lemma HolderCalm(s: State, e: Event, c: CaseId)
    requires HolderEvent(e) && (e.p in s.procs && HoldsLock(s.procs[e.p]) ==> s.procs[e.p].caseId != c)
    ensures Calm(s.db, StepHolder(s, e).db, c)
  {
    hide Calm, StepDraft, StepAutoSend, StepDecide;
    if e.DraftRun? { DraftCalm(s, e.p, e.body, e.guardFailed, c); }
    else if e.AutoSendRun? { AutoSendCalm(s, e.p, c); }
    else if e.FinalizeResume? { DecideCalm(s, e.p, c); }
    else {
      hide StepHolder;
      HolderKeepsDrafts(s, e);
      SameDraftsCalm(s.db, StepHolder(s, e).db, c);
    }
  }

  lemma DraftCalm(s: State, p: ProcId, body: string, guardFailed: bool, c: CaseId)
    requires p in s.procs && HoldsLock(s.procs[p]) ==> s.procs[p].caseId != c
    ensures Calm(s.db, StepDraft(s, p, body, guardFailed).db, c)
  {
    hide Calm, InsertDraft;
    SameDraftsCalm(s.db, s.db, c);
    if Running(s, p) { InsertCalm(s.db, s.procs[p].caseId, s.db.cases[s.procs[p].caseId].landlord, body, c); }
  }

  lemma AutoSendCalm(s: State, p: ProcId, c: CaseId)
    requires p in s.procs && HoldsLock(s.procs[p]) ==> s.procs[p].caseId != c
    ensures Calm(s.db, StepAutoSend(s, p).db, c)
  {
    SameDraftsCalm(s.db, s.db, c);
    hide Calm, AutonomyUnlocked;
    if Running(s, p) && s.procs[p].phase == AutoSending && AutoSend(s.db, s.procs[p].caseId).Some? {
      OtherRowCalm(s.db, StepAutoSend(s, p).db, PendingOf(s.db, s.procs[p].caseId).value, c);
    }
  }

  lemma DecideCalm(s: State, p: ProcId, c: CaseId)
    requires p in s.procs && HoldsLock(s.procs[p]) ==> s.procs[p].caseId != c
    ensures Calm(s.db, StepDecide(s, p).db, c)
  {
    SameDraftsCalm(s.db, s.db, c);
    hide Calm, ApplyDecision, FirstIn;
    if Resuming(s, p, Finalizing) && PendingOf(s.db, s.procs[p].caseId).Some? {
      DecisionCalm(s.db, s.procs[p].caseId, PendingOf(s.db, s.procs[p].caseId).value, s.procs[p].decision, c);
    }
  }

  lemma SenderCalm(s: State, e: Event, c: CaseId)
    requires SenderEvent(e) && SendInv(s)
    ensures Calm(s.db, StepSender(s, e).db, c)
  {
    hide Calm, SendInv, StepRecord, Claim, ClaimWins;
    SameDraftsCalm(s.db, s.db, c);
    if e.ClaimDraft? { ClaimCalm(s.db, e.d, c); }
    else if e.Record? { RecordCalm(s, e.p, c); }
  }

  lemma RecordCalm(s: State, p: ProcId, c: CaseId)
    requires SendInv(s)
    ensures Calm(s.db, StepRecord(s, p).db, c)
  {
    SameDraftsCalm(s.db, s.db, c);
    if p in s.procs && s.procs[p].Delivered? {
      assert SenderOwns(s, p);
      RecordShape(s, p);
      RowSent(s, p);
      hide SendInv, Calm;
      OtherRowCalm(s.db, StepRecord(s, p).db, s.procs[p].draft, c);
    }
  }

  lemma RowSent(s: State, p: ProcId)
    requires SendInv(s) && p in s.procs && s.procs[p].Delivered?
    ensures var d, db' := s.procs[p].draft, StepRecord(s, p).db;
            && d < |s.db.drafts| == |db'.drafts| && db'.drafts == s.db.drafts[d := db'.drafts[d]]
            && db'.drafts[d].caseId == s.db.drafts[d].caseId && db'.drafts[d].status == Sent
            && s.db.drafts[d].status == Sending
  {
    assert SenderOwns(s, p);
    hide SendInv, RecordSend;
  }

  // ----- the invariant --------------------------------------------------------

  predicate PastCheck(p: Proc) { p.Resumer? && p.step != Checking }

  ghost predicate SeamInv(s: State) {
    && SendInv(s) && LockInv(s) && OnePending(s.db) && SentOnly(s.db)
    && forall p :: p in s.procs && PastCheck(s.procs[p]) ==> Settled(s.db, s.procs[p].caseId, s.procs[p].decided)
  }

  /** While `p` holds the lock of `c`, every step that is not `p`'s is calm on `c`. */
  lemma OthersAreCalm(s: State, e: Event, p: ProcId, c: CaseId)
    requires SeamInv(s) && Holding(s, p, c)
    requires !(HolderEvent(e) && e.p == p)
    ensures Calm(s.db, Step(s, e).db, c)
  {
    hide StepWeb, StepSender, StepHolder;
    if WebEvent(e) { WebCalm(s, e, c); }
    else if SenderEvent(e) { SenderCalm(s, e, c); }
    else if HolderEvent(e) { HolderCalm(s, e, c); }
    else { SameDraftsCalm(s.db, Step(s, e).db, c); }
  }

  /** A resume that is past its check after a step was so before it, or the step
      was the check. */
  lemma ResumerBefore(s: State, e: Event, p: ProcId)
    requires p in Step(s, e).procs && PastCheck(Step(s, e).procs[p])
    ensures p in s.procs && s.procs[p].Resumer?
    ensures s.procs[p].caseId == Step(s, e).procs[p].caseId && s.procs[p].decided == Step(s, e).procs[p].decided
    ensures PastCheck(s.procs[p]) || PendingOf(s.db, s.procs[p].caseId) == Some(s.procs[p].decided)
    ensures HolderEvent(e) && e.p == p ==> Step(s, e).db == s.db
    ensures !(HolderEvent(e) && e.p == p) ==> PastCheck(s.procs[p])
  {
    hide StepWeb, StepSender, StepHolder, PendingOf;
    if HolderEvent(e) && e.p == p { ResumersOwnStep(s, e); } else { OthersKeepHolder(s, e, p); }
  }

  lemma ResumersOwnStep(s: State, e: Event)
    requires HolderEvent(e)
    requires e.p in StepHolder(s, e).procs && PastCheck(StepHolder(s, e).procs[e.p])
    ensures var p, s' := e.p, StepHolder(s, e);
            && p in s.procs && s.procs[p].Resumer?
            && s.procs[p].caseId == s'.procs[p].caseId && s.procs[p].decided == s'.procs[p].decided
            && (PastCheck(s.procs[p]) || PendingOf(s.db, s.procs[p].caseId) == Some(s.procs[p].decided))
            && s'.db == s.db
  {
    hide StepRunner, StepResumer, PendingOf;
    if RunnerEvent(e) { RunnersStayRunners(s, e); } else { CheckedResumer(s, e); }
  }

  lemma CheckedResumer(s: State, e: Event)
    requires ResumerEvent(e)
    requires e.p in StepResumer(s, e).procs && PastCheck(StepResumer(s, e).procs[e.p])
    ensures var p, s' := e.p, StepResumer(s, e);
            && p in s.procs && s.procs[p].Resumer?
            && s.procs[p].caseId == s'.procs[p].caseId && s.procs[p].decided == s'.procs[p].decided
            && (PastCheck(s.procs[p]) || PendingOf(s.db, s.procs[p].caseId) == Some(s.procs[p].decided))
            && s'.db == s.db
  {
  }

  lemma ResumerStaysSettled(s: State, e: Event, p: ProcId)
    requires SeamInv(s) && OnePending(Step(s, e).db)
    requires p in Step(s, e).procs && PastCheck(Step(s, e).procs[p])
    ensures Settled(Step(s, e).db, Step(s, e).procs[p].caseId, Step(s, e).procs[p].decided)
  {
    hide Step;
    ResumerBefore(s, e, p);
    var c := s.procs[p].caseId;
    if !(HolderEvent(e) && e.p == p) {
      OthersAreCalm(s, e, p, c);
      CalmKeepsSettled(s.db, Step(s, e).db, c, s.procs[p].decided);
    }
  }

  lemma StepKeepsSeam(s: State, e: Event)
    requires SeamInv(s)
    ensures SeamInv(Step(s, e))
  {
    hide Step, SendInv, LockInv, OnePending, SentOnly, Settled;
    StepForward(s, e);
    SentOnlyKept(s.db, Step(s, e).db);
    StepKeepsSendInv(s, e);
    StepKeepsLocks(s, e);
    forall p | p in Step(s, e).procs && PastCheck(Step(s, e).procs[p])
      ensures Settled(Step(s, e).db, Step(s, e).procs[p].caseId, Step(s, e).procs[p].decided)
    {
      ResumerStaysSettled(s, e, p);
    }
  }

  lemma InitialSeam(settings: Settings, now: Time)
    ensures SeamInv(Initial(settings, now))
  {
    InitialSendInv(settings, now);
  }

  lemma {:induction false} RunKeepsSeam(s: State, es: seq<Event>)
    requires SeamInv(s)
    ensures SeamInv(Run(s, es))
  {
    if es != [] {
      RunKeepsSeam(s, es[..|es| - 1]);
      StepKeepsSeam(Run(s, es[..|es| - 1]), es[|es| - 1]);
    }
  }

  // ----- the theorems ---------------------------------------------------------

  /** The row `dec` leaves behind when it is applied, at `now`, to the pending row `d`.
      An approval and an edit are both scheduled for the end of the undo window, 5
      seconds from the dashboard and 5 minutes by SMS. */
  predicate DecidedAs(d: Draft, dec: Decision, now: Time) {
    match dec.action
    case Approve => ScheduledAs(d, dec.channel, now) && !d.edited && d.finalBody.None?
    case EditAndSend => ScheduledAs(d, dec.channel, now) && d.edited && d.finalBody == dec.body
    case Reject => d.status == Rejected && d.updatedAt == now
    case Unrecognised => false
  }

  predicate ScheduledAs(d: Draft, channel: Channel, now: Time) {
    && d.status == Approved && d.approvedVia == Some(channel) && d.updatedAt == now
    && d.scheduledSendAt == Some(now + if channel == Sms then 300 else 5)
  }

  predicate DecidedOn(db: Db, d: DraftId, dec: Decision) {
    d < |db.drafts| && DecidedAs(db.drafts[d], dec, db.now)
  }

  /** The rows a step changed. */
  function Changed(a: Db, b: Db): set<DraftId> {
    set i | 0 <= i < |a.drafts| && (i >= |b.drafts| || b.drafts[i] != a.drafts[i])
  }

  lemma DecisionChanges(db: Db, c: CaseId, d: DraftId, dec: Decision, i: DraftId)
    requires d < |db.drafts| && c < |db.cases| && i in Changed(db, ApplyDecision(db, c, d, dec))
    ensures i == d && db.drafts[d].status == Pending && DecidedOn(ApplyDecision(db, c, d, dec), d, dec)
  {
    hide RecordRejection;
  }

  lemma DecidesItsOwn(s: State, p: ProcId, i: DraftId)
    requires SeamInv(s) && Resuming(s, p, Finalizing) && i in Changed(s.db, StepDecide(s, p).db)
    ensures i == s.procs[p].decided && InCase(s.db.drafts[i], s.procs[p].caseId, Pending)
    ensures DecidedOn(StepDecide(s, p).db, i, s.procs[p].decision)
  {
    hide SendInv, LockInv, OnePending, SentOnly, ApplyDecision, DecidedOn;
    assert Settled(s.db, s.procs[p].caseId, s.procs[p].decided);
    var x := PendingOf(s.db, s.procs[p].caseId);
    if x.Some? { DecisionChanges(s.db, s.procs[p].caseId, x.value, s.procs[p].decision, i); }
  }

  /** Whatever interleaved before, the step that writes a resumed decision changes
      no draft but the one the decision carries, and leaves that one decided as
      asked. */
  lemma ResumedDecisionHitsItsDraft(settings: Settings, now: Time, es: seq<Event>, p: ProcId, i: DraftId)
    requires Resuming(Run(Initial(settings, now), es), p, Finalizing)
    requires var s := Run(Initial(settings, now), es); i in Changed(s.db, StepDecide(s, p).db)
    ensures var s := Run(Initial(settings, now), es);
            && i == s.procs[p].decided && InCase(s.db.drafts[i], s.procs[p].caseId, Pending)
            && DecidedOn(StepDecide(s, p).db, i, s.procs[p].decision)
  {
    hide Run, Initial, SeamInv;
    InitialSeam(settings, now);
    RunKeepsSeam(Initial(settings, now), es);
    DecidesItsOwn(Run(Initial(settings, now), es), p, i);
  }

  /** The direct write changes no draft but its own, from any state at all. */
  lemma DirectDecisionHitsItsDraft(s: State, c: CaseId, d: DraftId, dec: Decision, i: DraftId)
    requires i in Changed(s.db, StepFinalize(s, c, d, dec).db)
    ensures i == d && InCase(s.db.drafts[d], c, Pending) && DecidedOn(StepFinalize(s, c, d, dec).db, d, dec)
  {
    hide ApplyDecision, DecidedOn;
    if FinalizeUnpaused(s.db, c, d, dec).Some? {
      if dec.action == Reject { DecisionChanges(s.db, c, d, dec, i); }
      else { DecisionChanges(EnsureAwaiting(s.db, c), c, d, dec, i); }
    }
  }
}
