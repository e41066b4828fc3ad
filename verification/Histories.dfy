/** Facts about whole runs that the other theorems rest on: rows and logs only
    move forward, a case never has two pending drafts, and the trust ladder's
    invariant holds at every state. */
module Histories {
  import opened Vocabulary
  import opened TrustLadder
  import opened Tables
  import opened CaseLifecycle
  import opened Transactions
  import opened LifeCycle
  import opened Protocol
  import opened SendSafety

  // ----- tables ---------------------------------------------------------------

  ghost predicate Forward(a: Db, b: Db) {
    DbStep(a, b, true) && (OnePending(a) ==> OnePending(b))
  }

  lemma RecordForward(s: State, p: ProcId)
    requires SendInv(s)
    ensures Forward(s.db, StepRecord(s, p).db)
  {
    NoChange(s.db);
    if p in s.procs && s.procs[p].Delivered? {
      var proc := s.procs[p];
      assert SenderOwns(s, p);
      RecordFacts(s.db, proc.draft, proc.text, proc.row.landlord, proc.property, proc.severity, proc.row.edited,
                  s.settings.threshold);
    }
  }

  lemma NoChangeForward(db: Db)
    ensures Forward(db, db)
  {
  }

  lemma SenderEventForward(s: State, e: Event)
    requires SendInv(s) && SenderEvent(e)
    ensures Forward(s.db, StepSender(s, e).db)
  {
    hide StepRecord, SendInv, DbStep, OnePending, Claim, ClaimWins;
    NoChangeForward(s.db);
    if e.ClaimDraft? { ClaimFacts(s.db, e.d); }
    else if e.Record? { RecordForward(s, e.p); }
  }

  lemma RunnerEventForward(s: State, e: Event)
    requires RunnerEvent(e)
    ensures OnePending(s.db) ==> OnePending(StepRunner(s, e).db)
  {
    hide OnePending, InsertDraft, AutoSend, Classify, MarkAwaiting;
    if e.DraftRun? {
      if Running(s, e.p) { InsertFacts(s.db, s.procs[e.p].caseId, s.db.cases[s.procs[e.p].caseId].landlord, e.body); }
    } else if e.AutoSendRun? {
      if Running(s, e.p) && AutoSend(s.db, s.procs[e.p].caseId).Some? { AutoSendFacts(s.db, s.procs[e.p].caseId); }
    } else {
      RunnerKeepsDrafts(s, e);
      SameDrafts(s.db, StepRunner(s, e).db);
    }
  }

  lemma RunnerKeepsDrafts(s: State, e: Event)
    requires RunnerEvent(e) && !e.DraftRun? && !e.AutoSendRun?
    ensures StepRunner(s, e).db.drafts == s.db.drafts
  {
    hide FirstIn, RouteAfterDraft;
  }

  lemma ResumerKeepsDrafts(s: State, e: Event)
    requires ResumerEvent(e) && !e.FinalizeResume?
    ensures StepResumer(s, e).db == s.db
  {
    hide FirstIn, StepDecide;
  }

  lemma HolderKeepsDrafts(s: State, e: Event)
    requires HolderEvent(e) && !e.DraftRun? && !e.AutoSendRun? && !e.FinalizeResume?
    ensures StepHolder(s, e).db.drafts == s.db.drafts
  {
    hide StepRunner, StepResumer;
    if RunnerEvent(e) { RunnerKeepsDrafts(s, e); } else { ResumerKeepsDrafts(s, e); }
  }

  lemma ResumerEventForward(s: State, e: Event)
    requires ResumerEvent(e)
    ensures OnePending(s.db) ==> OnePending(StepResumer(s, e).db)
  {
    hide OnePending, ApplyDecision, FirstIn;
    if e.FinalizeResume? && Resuming(s, e.p, Finalizing) && PendingOf(s.db, s.procs[e.p].caseId).Some? {
      DecisionFacts(s.db, s.procs[e.p].caseId, PendingOf(s.db, s.procs[e.p].caseId).value, s.procs[e.p].decision);
    }
  }

  lemma HolderEventForward(s: State, e: Event)
    requires HolderEvent(e)
    ensures OnePending(s.db) ==> OnePending(StepHolder(s, e).db)
  {
    hide StepRunner, StepResumer;
    if RunnerEvent(e) { RunnerEventForward(s, e); } else { ResumerEventForward(s, e); }
  }

  lemma StepForward(s: State, e: Event)
    requires SendInv(s)
    ensures Forward(s.db, Step(s, e).db)
  {
    hide StepWeb, StepSender, StepHolder;
    if SenderEvent(e) {
      SenderEventForward(s, e);
    } else {
      OtherEventQuiet(s, e);
      if WebEvent(e) { WebEventWrites(s, e); } else if HolderEvent(e) { HolderEventForward(s, e); }
    }
  }

  lemma {:induction false} RunOnePending(s: State, es: seq<Event>)
    requires SendInv(s) && OnePending(s.db)
    ensures SendInv(Run(s, es)) && OnePending(Run(s, es).db)
  {
    if es != [] {
      RunOnePending(s, es[..|es| - 1]);
      StepForward(Run(s, es[..|es| - 1]), es[|es| - 1]);
      StepKeepsSendInv(Run(s, es[..|es| - 1]), es[|es| - 1]);
    }
  }

  /** Along every run the clock never goes back, `messages` and `audit_log` only
      grow, and every draft keeps its case, its landlord and its text. */
  lemma {:induction false} LogsOnlyGrow(s: State, es: seq<Event>)
    requires SendInv(s)
    ensures TablesGrow(s.db, Run(s, es).db)
    ensures |s.db.drafts| <= |Run(s, es).db.drafts|
    ensures forall d :: 0 <= d < |s.db.drafts| ==> SameIdentity(s.db.drafts[d], Run(s, es).db.drafts[d])
  {
    if es != [] {
      var s1, e := Run(s, es[..|es| - 1]), es[|es| - 1];
      LogsOnlyGrow(s, es[..|es| - 1]);
      RunKeepsSendInv(s, es[..|es| - 1]);
      StepForward(s1, e);
      forall d | 0 <= d < |s.db.drafts| ensures SameIdentity(s.db.drafts[d], Step(s1, e).db.drafts[d]) {
        assert RowMoves(s1.db.drafts[d], Step(s1, e).db.drafts[d], true);
      }
    }
  }

  // ----- the trust ladder -----------------------------------------------------

  lemma DecisionKeepsLedger(db: Db, c: CaseId, d: DraftId, dec: Decision, threshold: nat)
    requires d < |db.drafts| && c < |db.cases| && LedgerInv(db.ledger, threshold)
    ensures LedgerInv(ApplyDecision(db, c, d, dec).ledger, threshold)
  {
    RecordRejectionInv(db.ledger, db.cases[c].landlord, db.cases[c].property, db.cases[c].severity, threshold);
  }

  lemma RevokesKeepLedger(db: Db, landlord: LandlordId, property: PropertyId, threshold: nat)
    requires LedgerInv(db.ledger, threshold)
    ensures LedgerInv(RevokeProperty(db, landlord, property).ledger, threshold)
    ensures LedgerInv(RevokeAll(db, landlord).ledger, threshold)
  {
    RevokeKeysInv(db.ledger, PropertyRevokeKeys(db.ledger, landlord, property), db.now, threshold);
    RevokeKeysInv(db.ledger, LandlordRevokeKeys(db.ledger, landlord), db.now, threshold);
  }

  predicate TouchesLedger(e: Event) {
    e.RevokeOne? || e.RevokeEvery? || e.FinalizeNeverPaused? || e.FinalizeResume? || e.Record?
  }

  lemma WebLeavesLedger(s: State, e: Event)
    requires WebEvent(e) && !TouchesLedger(e)
    ensures StepWeb(s, e).db.ledger == s.db.ledger
  {
    hide StepFinalize, RevokeProperty, RevokeAll, FirstIn;
  }

  lemma RunnerLeavesLedger(s: State, e: Event)
    requires RunnerEvent(e)
    ensures StepRunner(s, e).db.ledger == s.db.ledger && StepRunner(s, e).settings == s.settings
  {
    hide FirstIn, RouteAfterDraft, AutonomyUnlocked, StepDraft, StepAutoSend;
    if e.DraftRun? { DraftLeavesLedger(s, e.p, e.body, e.guardFailed); }
    else if e.AutoSendRun? { AutoSendLeavesLedger(s, e.p); }
  }

  lemma DraftLeavesLedger(s: State, p: ProcId, body: string, guardFailed: bool)
    ensures var s' := StepDraft(s, p, body, guardFailed); s'.db.ledger == s.db.ledger && s'.settings == s.settings
  {
  }

  lemma AutoSendLeavesLedger(s: State, p: ProcId)
    ensures var s' := StepAutoSend(s, p); s'.db.ledger == s.db.ledger && s'.settings == s.settings
  {
    hide FirstIn, AutonomyUnlocked;
  }

  lemma HolderLeavesLedger(s: State, e: Event)
    requires HolderEvent(e) && !TouchesLedger(e)
    ensures StepHolder(s, e).db.ledger == s.db.ledger
  {
    hide StepRunner, StepDecide, FirstIn;
    if RunnerEvent(e) { RunnerLeavesLedger(s, e); }
  }

  lemma OthersLeaveLedger(s: State, e: Event)
    requires !TouchesLedger(e)
    ensures Step(s, e).db.ledger == s.db.ledger
  {
    hide StepWeb, StepHolder, StepRecord;
    if WebEvent(e) { WebLeavesLedger(s, e); }
    else if HolderEvent(e) { HolderLeavesLedger(s, e); }
  }

  lemma FinalizeKeepsLedger(s: State, c: CaseId, d: DraftId, dec: Decision)
    requires LedgerInv(s.db.ledger, s.settings.threshold)
    ensures LedgerInv(StepFinalize(s, c, d, dec).db.ledger, s.settings.threshold)
  {
    if FinalizeUnpaused(s.db, c, d, dec).Some? {
      DecisionKeepsLedger(s.db, c, d, dec, s.settings.threshold);
      DecisionKeepsLedger(EnsureAwaiting(s.db, c), c, d, dec, s.settings.threshold);
    }
  }

  lemma DecideKeepsLedger(s: State, p: ProcId)
    requires LedgerInv(s.db.ledger, s.settings.threshold)
    ensures LedgerInv(StepDecide(s, p).db.ledger, s.settings.threshold)
  {
    if Resuming(s, p, Finalizing) && PendingOf(s.db, s.procs[p].caseId).Some? {
      DecisionKeepsLedger(s.db, s.procs[p].caseId, PendingOf(s.db, s.procs[p].caseId).value, s.procs[p].decision,
                          s.settings.threshold);
    }
  }

  lemma RecordKeepsLedger(s: State, p: ProcId)
    requires LedgerInv(s.db.ledger, s.settings.threshold)
    ensures LedgerInv(StepRecord(s, p).db.ledger, s.settings.threshold)
  {
    if p in s.procs && s.procs[p].Delivered? {
      var proc := s.procs[p];
      RecordSendInv(s.db.ledger, proc.row.landlord, proc.property, proc.severity, proc.row.edited,
                    s.settings.threshold, s.db.now);
    }
  }

  lemma SenderSettingsStay(s: State, e: Event)
    requires SenderEvent(e)
    ensures StepSender(s, e).settings == s.settings
  {
    hide Claim, ClaimWins, RecordSent, SendText;
  }

  lemma HolderSettingsStay(s: State, e: Event)
    requires HolderEvent(e)
    ensures StepHolder(s, e).settings == s.settings
  {
    hide StepRunner, ApplyDecision, FirstIn;
    if RunnerEvent(e) { RunnerLeavesLedger(s, e); }
  }

  lemma SettingsStay(s: State, e: Event)
    ensures Step(s, e).settings == s.settings
  {
    hide StepWeb, StepSender, StepHolder;
    if WebEvent(e) { WebEventWrites(s, e); }
    else if SenderEvent(e) { SenderSettingsStay(s, e); }
    else if HolderEvent(e) { HolderSettingsStay(s, e); }
  }

  lemma StepKeepsLedger(s: State, e: Event)
    requires LedgerInv(s.db.ledger, s.settings.threshold)
    ensures LedgerInv(Step(s, e).db.ledger, s.settings.threshold)
  {
    hide LedgerInv, StepFinalize, StepDecide, StepRecord, RevokeProperty, RevokeAll;
    if TouchesLedger(e) { TouchKeepsLedger(s, e); }
    else { hide Step; OthersLeaveLedger(s, e); }
  }

  lemma TouchKeepsLedger(s: State, e: Event)
    requires LedgerInv(s.db.ledger, s.settings.threshold) && TouchesLedger(e)
    ensures LedgerInv(Step(s, e).db.ledger, s.settings.threshold)
  {
    hide LedgerInv, StepFinalize, StepDecide, StepRecord, RevokeProperty, RevokeAll;
    if e.RevokeOne? { RevokesKeepLedger(s.db, e.landlord, e.property, s.settings.threshold); }
    else if e.RevokeEvery? { RevokesKeepLedger(s.db, e.landlord, 0, s.settings.threshold); }
    else if e.FinalizeNeverPaused? { FinalizeKeepsLedger(s, e.c, e.d, e.decision); }
    else if e.FinalizeResume? { DecideKeepsLedger(s, e.p); }
    else { RecordKeepsLedger(s, e.p); }
  }

  lemma {:induction false} RunKeepsLedger(s: State, es: seq<Event>)
    requires LedgerInv(s.db.ledger, s.settings.threshold)
    ensures Run(s, es).settings == s.settings
    ensures LedgerInv(Run(s, es).db.ledger, s.settings.threshold)
  {
    if es != [] {
      RunKeepsLedger(s, es[..|es| - 1]);
      StepKeepsLedger(Run(s, es[..|es| - 1]), es[|es| - 1]);
      SettingsStay(Run(s, es[..|es| - 1]), es[|es| - 1]);
    }
  }

  /** The trust ladder over every run of the whole system: what every unlock cost,
      that only a routine, unrevoked row is unlocked, and that unlocks and
      effective revokes of one property alternate. */
  lemma TrustIsEarned(settings: Settings, now: Time, es: seq<Event>, p: PropertyId)
    ensures var l := Run(Initial(settings, now), es).db.ledger;
            && settings.threshold * Unlocks(l.log, p)
                 + (if UnlockedNow(l, p) then 0
                    else if (p, Routine) in l.rows then l.rows[(p, Routine)].consecutiveClean else 0)
                 <= CleanSends(l.log, (p, Routine))
            && Unlocks(l.log, p) == Revokes(l.log, p) + (if UnlockedNow(l, p) then 1 else 0)
            && (forall k :: k in l.rows && l.rows[k].unlocked ==> k.1 == Routine && l.rows[k].revokedAt == None)
            && (AutonomyUnlocked(l, p) <==> UnlockedNow(l, p))
  {
    EmptyLedgerInv(settings.threshold);
    RunKeepsLedger(Initial(settings, now), es);
    var l := Run(Initial(settings, now), es).db.ledger;
    UnlocksArePaidFor(l, p, settings.threshold);
    assert PropertyInv(l, p, settings.threshold) && RowInv(l, (p, Routine));
    forall k | k in l.rows && l.rows[k].unlocked ensures k.1 == Routine && l.rows[k].revokedAt == None {
      assert RowInv(l, k);
    }
  }
}
