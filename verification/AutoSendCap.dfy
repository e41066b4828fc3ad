/** The daily auto-send cap is a true sliding window: at every instant of every
    run, however many graph runs, undos and crashes are interleaved, no 24-hour
    window of a case's audit log holds more `auto_sent` rows than the cap. The
    check and the write are separate transactions; what joins them is the case
    lock, and that a trailing count can only fall while nobody writes. */
module AutoSendCap {
  import opened Vocabulary
  import opened TrustLadder
  import opened Tables
  import opened CaseLifecycle
  import opened Transactions
  import opened LifeCycle
  import opened Protocol
  import opened SendSafety
  import opened Histories
  import opened LockSafety
  import opened SlidingWindow

  ghost predicate NoAutoSent(a: Db, b: Db, c: CaseId) {
    && a.now <= b.now && a.audit <= b.audit
    && forall i :: |a.audit| <= i < |b.audit| ==> !(b.audit[i].caseId == Some(c) && b.audit[i].action.AutoSent?)
  }

  lemma {:induction false} LogUnchanged(audit: seq<AuditEntry>, more: seq<AuditEntry>, c: CaseId)
    requires audit <= more
    requires forall i :: |audit| <= i < |more| ==> !(more[i].caseId == Some(c) && more[i].action.AutoSent?)
    ensures AutoSentLog(more, c) == AutoSentLog(audit, c)
  {
    if audit != more {
      var init := more[..|more| - 1];
      assert more[|more| - 1] == more[|more| - 1];
      LogUnchanged(audit, init, c);
    }
  }

  // ----- which steps write an `auto_sent` row ---------------------------------

  lemma InsertNoAutoSent(db: Db, held: CaseId, landlord: LandlordId, body: string, c: CaseId)
    ensures NoAutoSent(db, InsertDraft(db, held, landlord, body), c)
  {
  }

  lemma DecisionNoAutoSent(db: Db, held: CaseId, d: DraftId, dec: Decision, c: CaseId)
    requires d < |db.drafts| && held < |db.cases|
    ensures NoAutoSent(db, ApplyDecision(db, held, d, dec), c)
  {
  }

  lemma FinalizeNoAutoSent(s: State, held: CaseId, d: DraftId, dec: Decision, c: CaseId)
    ensures NoAutoSent(s.db, StepFinalize(s, held, d, dec).db, c)
  {
    hide ApplyDecision, FirstIn;
    if FinalizeUnpaused(s.db, held, d, dec).Some? {
      DecisionNoAutoSent(s.db, held, d, dec, c);
      DecisionNoAutoSent(EnsureAwaiting(s.db, held), held, d, dec, c);
    }
  }

  lemma WebNoAutoSent(s: State, e: Event, c: CaseId)
    requires WebEvent(e)
    ensures NoAutoSent(s.db, StepWeb(s, e).db, c)
  {
    hide StepFinalize, FirstIn, RevokeKeys, PropertyRevokeKeys, LandlordRevokeKeys, CancelOpen;
    if e.FinalizeNeverPaused? { FinalizeNoAutoSent(s, e.c, e.d, e.decision, c); }
    else if e.Identify? { IdentifyNoAutoSent(s, e, c); }
    else { OtherWebNoAutoSent(s, e, c); }
  }

  lemma IdentifyNoAutoSent(s: State, e: Event, c: CaseId)
    requires e.Identify?
    ensures NoAutoSent(s.db, StepWeb(s, e).db, c)
  {
  }

  lemma OtherWebNoAutoSent(s: State, e: Event, c: CaseId)
    requires WebEvent(e) && !e.FinalizeNeverPaused? && !e.Identify?
    ensures NoAutoSent(s.db, StepWeb(s, e).db, c)
  {
    hide StepFinalize, IdentifyCase, FirstIn, RevokeKeys, PropertyRevokeKeys, LandlordRevokeKeys, CancelOpen;
  }

  lemma HolderNoAutoSent(s: State, e: Event, c: CaseId)
    requires HolderEvent(e) && !e.AutoSendRun?
    ensures NoAutoSent(s.db, StepHolder(s, e).db, c)
  {
    hide InsertDraft, ApplyDecision, FirstIn, StepRunner;
    if e.DraftRun? { DraftNoAutoSent(s, e.p, e.body, e.guardFailed, c); }
    else if e.FinalizeResume? {
      if Resuming(s, e.p, Finalizing) && PendingOf(s.db, s.procs[e.p].caseId).Some? {
        DecisionNoAutoSent(s.db, s.procs[e.p].caseId, PendingOf(s.db, s.procs[e.p].caseId).value, s.procs[e.p].decision, c);
      }
    }
    else { hide StepHolder; HolderKeepsAudit(s, e); }
  }

  lemma DraftNoAutoSent(s: State, p: ProcId, body: string, guardFailed: bool, c: CaseId)
    ensures NoAutoSent(s.db, StepRunner(s, DraftRun(p, body, guardFailed)).db, c)
  {
    hide InsertDraft;
    if Running(s, p) { InsertNoAutoSent(s.db, s.procs[p].caseId, s.db.cases[s.procs[p].caseId].landlord, body, c); }
  }

  lemma RunnerKeepsAudit(s: State, e: Event)
    requires RunnerEvent(e) && !e.DraftRun? && !e.AutoSendRun?
    ensures StepRunner(s, e).db.audit == s.db.audit && StepRunner(s, e).db.now == s.db.now
  {
    hide FirstIn, RouteAfterDraft, StepDraft, StepAutoSend;
  }

  lemma HolderKeepsAudit(s: State, e: Event)
    requires HolderEvent(e) && !e.DraftRun? && !e.AutoSendRun? && !e.FinalizeResume?
    ensures StepHolder(s, e).db.audit == s.db.audit && StepHolder(s, e).db.now == s.db.now
  {
    hide StepRunner, StepResumer;
    if RunnerEvent(e) { RunnerKeepsAudit(s, e); } else { ResumerKeepsDrafts(s, e); }
  }

  lemma SenderNoAutoSent(s: State, e: Event, c: CaseId)
    requires SenderEvent(e)
    ensures NoAutoSent(s.db, StepSender(s, e).db, c)
  {
    hide StepClaim, StepRecord, SendText;
    if e.ClaimDraft? { ClaimNoAutoSent(s, e.p, e.d, c); }
    else if e.Record? { RecordNoAutoSent(s, e.p, c); }
  }

  lemma ClaimNoAutoSent(s: State, p: ProcId, d: DraftId, c: CaseId)
    ensures NoAutoSent(s.db, StepClaim(s, p, d).db, c)
  {
    hide NewerInbound, NewerTenantInbound;
  }

  lemma RecordNoAutoSent(s: State, p: ProcId, c: CaseId)
    ensures NoAutoSent(s.db, StepRecord(s, p).db, c)
  {
    hide TrustLadder.RecordSend;
  }

  lemma AutoSendWrites(s: State, e: Event, c: CaseId)
    requires e.AutoSendRun?
    ensures var db' := StepHolder(s, e).db;
            || NoAutoSent(s.db, db', c)
            || (Running(s, e.p) && s.procs[e.p].phase == AutoSending && s.procs[e.p].caseId == c && db'.now == s.db.now
                && exists d :: db'.audit == s.db.audit + [AuditEntry(Some(c), AutoSent(d), s.db.now)])
  {
  }

  lemma StepNoAutoSent(s: State, e: Event, c: CaseId)
    requires !(e.AutoSendRun? && Holding(s, e.p, c))
    ensures NoAutoSent(s.db, Step(s, e).db, c)
  {
    hide StepWeb, StepSender, StepHolder;
    if WebEvent(e) { WebNoAutoSent(s, e, c); }
    else if SenderEvent(e) { SenderNoAutoSent(s, e, c); }
    else if e.AutoSendRun? { AutoSendWrites(s, e, c); }
    else if HolderEvent(e) { HolderNoAutoSent(s, e, c); }
  }

  // ----- the invariant --------------------------------------------------------

  ghost predicate WithinCap(db: Db, c: CaseId, cap: nat) {
    NeverOver(AutoSentLog(db.audit, c), DAY, cap) && AllBy(AutoSentLog(db.audit, c), db.now)
  }

  ghost predicate CapInv(s: State) {
    && SendInv(s) && LockInv(s)
    && (forall c: CaseId :: WithinCap(s.db, c, s.settings.cap))
    && (forall p :: p in s.procs && s.procs[p].Runner? && s.procs[p].phase == AutoSending ==>
          AutoSentCount(s.db, s.procs[p].caseId) < s.settings.cap)
  }

  lemma QuietCap(a: Db, b: Db, c: CaseId, cap: nat)
    requires NoAutoSent(a, b, c)
    ensures WithinCap(a, c, cap) ==> WithinCap(b, c, cap)
    ensures AutoSentCount(b, c) <= AutoSentCount(a, c)
  {
    LogUnchanged(a.audit, b.audit, c);
    SinceDecays(AutoSentLog(a.audit, c), a.now - DAY, b.now - DAY);
  }

  lemma OneMoreAutoSent(a: Db, b: Db, c: CaseId, d: DraftId, cap: nat)
    requires WithinCap(a, c, cap) && AutoSentCount(a, c) < cap && b.now == a.now
    requires b.audit == a.audit + [AuditEntry(Some(c), AutoSent(d), a.now)]
    ensures WithinCap(b, c, cap)
  {
    assert b.audit[..|a.audit|] == a.audit;
    AppendKeepsLimit(AutoSentLog(a.audit, c), DAY, cap, a.now, 1);
    hide NeverOver, AllBy;
  }

  lemma UnderCap(s: State, c: CaseId)
    requires CapInv(s)
    ensures WithinCap(s.db, c, s.settings.cap)
    ensures forall p :: Running(s, p) && s.procs[p].phase == AutoSending && s.procs[p].caseId == c ==>
              AutoSentCount(s.db, c) < s.settings.cap
  {
    hide SendInv, LockInv, WithinCap, AutoSentCount;
  }

  lemma AutoSendWithinCap(s: State, e: Event, c: CaseId)
    requires CapInv(s) && e.AutoSendRun?
    ensures WithinCap(StepHolder(s, e).db, c, s.settings.cap)
  {
    hide StepHolder, CapInv, WithinCap, AutoSentCount, Running;
    var db' := StepHolder(s, e).db;
    AutoSendWrites(s, e, c);
    UnderCap(s, c);
    if NoAutoSent(s.db, db', c) {
      QuietCap(s.db, db', c, s.settings.cap);
    } else {
      var d :| db'.audit == s.db.audit + [AuditEntry(Some(c), AutoSent(d), s.db.now)];
      OneMoreAutoSent(s.db, db', c, d, s.settings.cap);
    }
  }

  /** Only the routing edge leads to the auto-send node. */
  lemma OnlyRouteReachesAutoSend(s: State, e: Event)
    requires HolderEvent(e) && !e.RouteRun?
    requires e.p in StepHolder(s, e).procs && StepHolder(s, e).procs[e.p].Runner?
    requires StepHolder(s, e).procs[e.p].phase == AutoSending
    ensures StepHolder(s, e) == s
  {
    hide StepRunner, StepResumer;
    if RunnerEvent(e) { OnlyRouteReaches(s, e); } else { ResumersStayResumers(s, e); }
  }

  lemma OnlyRouteReaches(s: State, e: Event)
    requires RunnerEvent(e) && !e.RouteRun?
    requires e.p in StepRunner(s, e).procs && StepRunner(s, e).procs[e.p].Runner?
    requires StepRunner(s, e).procs[e.p].phase == AutoSending
    ensures StepRunner(s, e) == s
  {
    hide FirstIn, InsertDraft, AutoSend, Classify, MarkAwaiting, StepRoute;
  }

  lemma RouteReadsTheCount(s: State, p: ProcId, hardHit: bool, readsOk: bool)
    requires var s' := StepRoute(s, p, hardHit, readsOk);
             p in s'.procs && s'.procs[p].Runner? && s'.procs[p].phase == AutoSending
    ensures var s' := StepRoute(s, p, hardHit, readsOk);
            s' == s || (s'.db == s.db && AutoSentCount(s.db, s'.procs[p].caseId) < s.settings.cap)
  {
  }

  lemma RoutedUnderCap(s: State, e: Event)
    requires CapInv(s) && HolderEvent(e)
    requires e.p in StepHolder(s, e).procs && StepHolder(s, e).procs[e.p].Runner?
    requires StepHolder(s, e).procs[e.p].phase == AutoSending
    ensures AutoSentCount(StepHolder(s, e).db, StepHolder(s, e).procs[e.p].caseId) < s.settings.cap
  {
    if e.RouteRun? { RouteReadsTheCount(s, e.p, e.hardHit, e.readsOk); } else { OnlyRouteReachesAutoSend(s, e); }
  }

  lemma OthersKeepCount(s: State, e: Event, p: ProcId)
    requires CapInv(s) && !(HolderEvent(e) && e.p == p)
    requires p in s.procs && s.procs[p].Runner? && s.procs[p].phase == AutoSending
    ensures AutoSentCount(Step(s, e).db, s.procs[p].caseId) < s.settings.cap
  {
    var c := s.procs[p].caseId;
    assert Holding(s, p, c);
    StepNoAutoSent(s, e, c);
    QuietCap(s.db, Step(s, e).db, c, s.settings.cap);
  }

  lemma StepKeepsCap(s: State, e: Event)
    requires CapInv(s)
    ensures CapInv(Step(s, e))
  {
    hide StepWeb, StepSender, StepHolder, SendInv, LockInv, WithinCap, AutoSentCount;
    var s' := Step(s, e);
    StepKeepsSendInv(s, e);
    StepKeepsLocks(s, e);
    SettingsStay(s, e);
    forall c: CaseId ensures WithinCap(s'.db, c, s'.settings.cap) {
      assert WithinCap(s.db, c, s.settings.cap);
      if e.AutoSendRun? { AutoSendWithinCap(s, e, c); }
      else { StepNoAutoSent(s, e, c); QuietCap(s.db, s'.db, c, s.settings.cap); }
    }
    forall p | p in s'.procs && s'.procs[p].Runner? && s'.procs[p].phase == AutoSending
      ensures AutoSentCount(s'.db, s'.procs[p].caseId) < s'.settings.cap
    {
      if HolderEvent(e) && e.p == p { RoutedUnderCap(s, e); } else { OthersKeepHolder(s, e, p); OthersKeepCount(s, e, p); }
    }
  }

  lemma {:induction false} RunKeepsCap(s: State, es: seq<Event>)
    requires CapInv(s)
    ensures CapInv(Run(s, es)) && Run(s, es).settings == s.settings
  {
    if es != [] {
      RunKeepsCap(s, es[..|es| - 1]);
      StepKeepsCap(Run(s, es[..|es| - 1]), es[|es| - 1]);
      SettingsStay(Run(s, es[..|es| - 1]), es[|es| - 1]);
    }
  }

  lemma InitialCap(settings: Settings, now: Time)
    ensures CapInv(Initial(settings, now))
  {
    InitialSendInv(settings, now);
  }

  lemma CapBoundsEveryWindow(s: State, c: CaseId, t: Time)
    requires CapInv(s)
    ensures EndingAt(AutoSentLog(s.db.audit, c), DAY, t) <= s.settings.cap
    ensures AutoSentCount(s.db, c) == EndingAt(AutoSentLog(s.db.audit, c), DAY, s.db.now) <= s.settings.cap
  {
    assert WithinCap(s.db, c, s.settings.cap);
    SinceIsWindow(AutoSentLog(s.db.audit, c), DAY, s.db.now);
  }

  /** No 24-hour window, wherever it ends, ever holds more than the cap; and what
      the routing query reads at the present is exactly such a window. */
  lemma NeverOverTheCap(settings: Settings, now: Time, es: seq<Event>, c: CaseId, t: Time)
    ensures var s := Run(Initial(settings, now), es);
            && EndingAt(AutoSentLog(s.db.audit, c), 24 * 3600, t) <= settings.cap
            && AutoSentCount(s.db, c) == EndingAt(AutoSentLog(s.db.audit, c), 24 * 3600, s.db.now) <= settings.cap
  {
    InitialCap(settings, now);
    RunKeepsCap(Initial(settings, now), es);
    CapBoundsEveryWindow(Run(Initial(settings, now), es), c, t);
  }

  /** Every auto-send leaves one audit row per draft it approved, so the window
      counts the unattended approvals themselves. */
  lemma AutoSendIsAudited(db: Db, c: CaseId)
    requires AutoSend(db, c).Some?
    ensures var db', d := AutoSend(db, c).value, PendingOf(db, c).value;
            && db'.drafts[d].status == Approved && db'.drafts[d].autoSend
            && AutonomyUnlocked(db.ledger, db.cases[c].property) && db.cases[c].severity == Some(Routine)
            && AutoSentLog(db'.audit, c) == AutoSentLog(db.audit, c) + [Entry(db.now, 1)]
  {
    var db' := AutoSend(db, c).value;
    assert db'.audit[..|db.audit|] == db.audit;
  }
}
