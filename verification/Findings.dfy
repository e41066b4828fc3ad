/** Concrete runs, from the empty system, that show where the code falls short of
    what its documentation says. The exact condition under which the code does meet
    each property is a theorem about all runs, here or in the module named. */
module Findings {
  import opened Vocabulary
  import opened TrustLadder
  import opened Tables
  import opened CaseLifecycle
  import opened Transactions
  import opened LifeCycle
  import opened Protocol
  import opened Interrupts
  import opened AutoSendCap
  import opened SweepSafety

  // ----- undisturbed sequences ------------------------------------------------

  lemma RunSnoc(s: State, es: seq<Event>, e: Event)
    ensures Run(s, es + [e]) == Step(Run(s, es), e)
  {
    assert (es + [e])[..|es|] == es;
  }

  lemma RunThree(s: State, es: seq<Event>, a: Event, b: Event, c: Event)
    ensures Run(s, es + [a, b, c]) == Step(Step(Step(Run(s, es), a), b), c)
  {
    hide Step;
    RunSnoc(s, es, a);
    RunSnoc(s, es + [a], b);
    RunSnoc(s, es + [a] + [b], c);
    assert es + [a, b, c] == es + [a] + [b] + [c];
  }

  lemma RunFour(s: State, es: seq<Event>, a: Event, b: Event, c: Event, d: Event)
    ensures Run(s, es + [a, b, c, d]) == Step(Step(Step(Step(Run(s, es), a), b), c), d)
  {
    hide Step;
    RunThree(s, es, a, b, c);
    RunSnoc(s, es + [a, b, c], d);
    assert es + [a, b, c, d] == es + [a, b, c] + [d];
  }

  predicate LockFree(s: State, c: CaseId) { c < |s.db.cases| && KeyOf(s, c) !in s.locks }

  /** `s` with coroutine `p` running on case `c` under its lock. */
  function WithRunner(s: State, p: ProcId, c: CaseId, phase: RunPhase): State
    requires c < |s.db.cases|
  {
    s.(locks := s.locks[KeyOf(s, c) := p], procs := s.procs[p := Runner(c, phase)])
  }

  lemma FirstSteps(s: State, p: ProcId, c: CaseId, severity: Severity)
    requires LockFree(s, c) && p !in s.procs
    ensures StepClassify(StepStart(StepAcquire(s, p, c, RunGraph), p), p, Some(severity))
              == WithRunner(s.(db := Classify(s.db, c, severity), threads := s.threads - {c}), p, c, Drafting(severity))
  {
    hide Classify;
    ClassifyKeepsKey(s, c, severity);
    assert s.procs[p := Runner(c, Starting)][p := Runner(c, Classifying)] == s.procs[p := Runner(c, Classifying)];
  }

  lemma ClassifyKeepsKey(s: State, c: CaseId, severity: Severity)
    requires c < |s.db.cases|
    ensures |Classify(s.db, c, severity).cases| == |s.db.cases|
    ensures Classify(s.db, c, severity).cases[c].uuid == s.db.cases[c].uuid
  {
  }

  /** A graph run up to its classification. */
  lemma Classified(s0: State, es: seq<Event>, s: State, p: ProcId, c: CaseId, severity: Severity)
    returns (es': seq<Event>, s': State)
    requires s == Run(s0, es) && LockFree(s, c) && p !in s.procs
    ensures s' == Run(s0, es')
    ensures s' == WithRunner(s.(db := Classify(s.db, c, severity), threads := s.threads - {c}), p, c, Drafting(severity))
  {
    ClassifyKeepsKey(s, c, severity);
    hide Run, Step, StepAcquire, StepStart, StepClassify, Classify;
    var a, b, e := Acquire(p, c, RunGraph), StartRun(p), ClassifyRun(p, Some(severity));
    es' := es + [a, b, e];
    RunThree(s0, es, a, b, e);
    AcquireIs(s, p, c, RunGraph);
    StartIs(StepAcquire(s, p, c, RunGraph), p);
    ClassifyIs(StepStart(StepAcquire(s, p, c, RunGraph), p), p, Some(severity));
    FirstSteps(s, p, c, severity);
    s' := Run(s0, es');
  }

  /** What drafting, marking and pausing do to the tables of case `c`. */
  function DraftedDb(db: Db, c: CaseId, body: string): Db
    requires c < |db.cases|
  {
    MarkAwaiting(InsertDraft(db, c, db.cases[c].landlord, body), c)
  }

  lemma InsertKeepsCases(db: Db, c: CaseId, landlord: LandlordId, body: string)
    ensures var db' := InsertDraft(db, c, landlord, body);
            && db'.cases == db.cases && db'.now == db.now && db'.messages == db.messages
            && db'.links == db.links && db'.ledger == db.ledger
  {
  }

  lemma DraftsToRouting(s: State, p: ProcId, c: CaseId, severity: Severity, body: string)
    requires LockFree(s, c) && p !in s.procs
    ensures |InsertDraft(s.db, c, s.db.cases[c].landlord, body).cases| == |s.db.cases|
    ensures StepDraft(WithRunner(s, p, c, Drafting(severity)), p, body, false)
              == WithRunner(s.(db := InsertDraft(s.db, c, s.db.cases[c].landlord, body)), p, c, Routing(severity, false))
  {
    hide InsertDraft;
    InsertKeepsCases(s.db, c, s.db.cases[c].landlord, body);
  }

  lemma RoutesToPause(s: State, p: ProcId, c: CaseId, severity: Severity)
    requires LockFree(s, c) && severity != Emergency
    ensures StepRoute(WithRunner(s, p, c, Routing(severity, false)), p, false, false) == WithRunner(s, p, c, Marking)
  {
    hide AutonomyUnlocked;
  }

  lemma DraftRouteSteps(s: State, p: ProcId, c: CaseId, severity: Severity, body: string)
    requires LockFree(s, c) && p !in s.procs && severity != Emergency
    ensures |InsertDraft(s.db, c, s.db.cases[c].landlord, body).cases| == |s.db.cases|
    ensures StepRoute(StepDraft(WithRunner(s, p, c, Drafting(severity)), p, body, false), p, false, false)
              == WithRunner(s.(db := InsertDraft(s.db, c, s.db.cases[c].landlord, body)), p, c, Marking)
  {
    hide InsertDraft, StepDraft, StepRoute;
    DraftsToRouting(s, p, c, severity, body);
    InsertKeepsCases(s.db, c, s.db.cases[c].landlord, body);
    RoutesToPause(s.(db := InsertDraft(s.db, c, s.db.cases[c].landlord, body)), p, c, severity);
  }

  lemma MarkPauseSteps(s: State, p: ProcId, c: CaseId, d: DraftId)
    requires LockFree(s, c) && p !in s.procs && PendingOf(s.db, c) == Some(d)
    ensures StepPause(StepMark(WithRunner(s, p, c, Marking), p), p)
              == s.(db := MarkAwaiting(s.db, c), threads := s.threads[c := d])
  {
    assert PendingOf(MarkAwaiting(s.db, c), c) == Some(d);
    hide FirstIn;
    assert s.locks[KeyOf(s, c) := p] - {KeyOf(s, c)} == s.locks;
    assert s.procs[p := Runner(c, Pausing)] - {p} == s.procs;
  }

  /** The rest of a run that may not auto-send: it pauses on the draft it wrote. */
  lemma Paused(s0: State, es: seq<Event>, s: State, p: ProcId, c: CaseId, severity: Severity, body: string)
    returns (es': seq<Event>, s': State)
    requires LockFree(s, c) && p !in s.procs && severity != Emergency
    requires Run(s0, es) == WithRunner(s, p, c, Drafting(severity))
    ensures s' == Run(s0, es') && es' == es + [DraftRun(p, body, false), RouteRun(p, false, false), MarkRun(p), PauseRun(p)]
    ensures s' == s.(db := DraftedDb(s.db, c, body), threads := s.threads[c := |s.db.drafts|])
  {
    hide Run, Step, StepDraft, StepRoute, StepMark, StepPause, MarkAwaiting, InsertDraft, PendingOf;
    var a, b, e, f := DraftRun(p, body, false), RouteRun(p, false, false), MarkRun(p), PauseRun(p);
    var r := WithRunner(s, p, c, Drafting(severity));
    var s1 := s.(db := InsertDraft(s.db, c, s.db.cases[c].landlord, body));
    RunFour(s0, es, a, b, e, f);
    DraftIs(r, p, body, false);
    RouteIs(StepDraft(r, p, body, false), p, false, false);
    DraftRouteSteps(s, p, c, severity, body);
    InsertKeepsCases(s.db, c, s.db.cases[c].landlord, body);
    InsertFacts(s.db, c, s.db.cases[c].landlord, body);
    MarkIs(WithRunner(s1, p, c, Marking), p);
    PauseIs(StepMark(WithRunner(s1, p, c, Marking), p), p);
    MarkPauseSteps(s1, p, c, |s.db.drafts|);
    es' := es + [a, b, e, f];
    s' := Run(s0, es');
  }

  lemma ClassifyKeepsDrafts(db: Db, c: CaseId, severity: Severity)
    ensures Classify(db, c, severity).drafts == db.drafts
  {
  }

  /** A whole run that may not auto-send, undisturbed. */
  lemma DraftedAndPaused(s0: State, es: seq<Event>, s: State, p: ProcId, c: CaseId, severity: Severity, body: string)
    returns (es': seq<Event>, s': State)
    requires s == Run(s0, es) && LockFree(s, c) && p !in s.procs && severity != Emergency
    ensures s' == Run(s0, es')
    ensures s' == s.(db := DraftedDb(Classify(s.db, c, severity), c, body), threads := s.threads[c := |s.db.drafts|])
  {
    ClassifyKeepsKey(s, c, severity);
    ClassifyKeepsDrafts(s.db, c, severity);
    var base := s.(db := Classify(s.db, c, severity), threads := s.threads - {c});
    assert LockFree(base, c);
    hide Run, DraftedDb, Classify, LockFree, KeyOf, WithRunner;
    es', s' := Classified(s0, es, s, p, c, severity);
    es', s' := Paused(s0, es', base, p, c, severity, body);
    PutAgain(s.threads, c, |s.db.drafts|);
  }

  lemma PutAgain(m: map<CaseId, DraftId>, c: CaseId, d: DraftId)
    ensures (m - {c})[c := d] == m[c := d]
  {
  }

  /** Drafting takes the case to `awaiting_approval` whatever its status was. */
  lemma DraftedCases(db: Db, c: CaseId, body: string)
    requires c < |db.cases|
    ensures DraftedDb(db, c, body).cases == db.cases[c := db.cases[c].(status := AwaitingApproval)]
  {
    hide InsertDraft, FirstIn;
    InsertKeepsCases(db, c, db.cases[c].landlord, body);
    InsertFacts(db, c, db.cases[c].landlord, body);
  }

  lemma ResumeSteps(s: State, p: ProcId, c: CaseId, d: DraftId, dec: Decision)
    requires LockFree(s, c) && p !in s.procs && PendingOf(s.db, c) == Some(d) && c in s.threads && dec.action != Unrecognised
    ensures StepDecide(StepReplay(StepCheck(StepAcquire(s, p, c, Resume(d, dec)), p), p), p)
              == s.(db := ApplyDecision(s.db, c, d, dec), threads := s.threads - {c})
  {
    hide ApplyDecision, FirstIn;
    assert s.locks[KeyOf(s, c) := p] - {KeyOf(s, c)} == s.locks;
    assert s.procs[p := Resumer(c, d, dec, Finalizing)] - {p} == s.procs;
    DecisionKeepsKey(s.db, c, d, dec);
  }

  lemma DecisionKeepsKey(db: Db, c: CaseId, d: DraftId, dec: Decision)
    requires c < |db.cases| && d < |db.drafts|
    ensures |ApplyDecision(db, c, d, dec).cases| == |db.cases|
    ensures ApplyDecision(db, c, d, dec).cases[c].uuid == db.cases[c].uuid
  {
    hide RecordRejection;
  }

  /** A whole resume, undisturbed. */
  lemma Resumed(s0: State, es: seq<Event>, s: State, p: ProcId, c: CaseId, d: DraftId, dec: Decision)
    returns (es': seq<Event>, s': State)
    requires s == Run(s0, es) && LockFree(s, c) && p !in s.procs
    requires PendingOf(s.db, c) == Some(d) && c in s.threads && dec.action != Unrecognised
    ensures s' == Run(s0, es') && s' == s.(db := ApplyDecision(s.db, c, d, dec), threads := s.threads - {c})
  {
    ResumeSteps(s, p, c, d, dec);
    hide Run, Step, StepAcquire, StepCheck, StepReplay, StepDecide, ApplyDecision, PendingOf;
    var a, b, e, f := Acquire(p, c, Resume(d, dec)), CheckResume(p), ReplayResume(p), FinalizeResume(p);
    var s1 := StepAcquire(s, p, c, Resume(d, dec));
    RunFour(s0, es, a, b, e, f);
    AcquireIs(s, p, c, Resume(d, dec));
    CheckIs(s1, p);
    ReplayIs(StepCheck(s1, p), p);
    DecideIs(StepReplay(StepCheck(s1, p), p), p);
    es' := es + [a, b, e, f];
    s' := Run(s0, es');
  }

  lemma WonClaim(s0: State, es: seq<Event>, s: State, p: ProcId, d: DraftId) returns (es': seq<Event>, s': State)
    requires s == Run(s0, es) && p !in s.procs && ClaimWins(s.db, d)
    ensures s' == Run(s0, es') && es' == es + [ClaimDraft(p, d)]
    ensures s' == s.(db := s.db.(drafts := s.db.drafts[d := s.db.drafts[d].(status := Sending, updatedAt := s.db.now)]),
                     procs := s.procs[p := Claimed(d, s.db.drafts[d].(status := Sending, updatedAt := s.db.now))],
                     claims := s.claims + [ClaimRecord(d, s.db)])
  {
    RunSnoc(s0, es, ClaimDraft(p, d));
    ClaimIs(s, p, d);
    hide Run, Step, NewerInbound, NewerTenantInbound;
    es', s' := es + [ClaimDraft(p, d)], StepClaim(s, p, d);
  }

  lemma DeliverySteps(s: State, p: ProcId, d: DraftId)
    requires p in s.procs && s.procs[p].Claimed? && s.procs[p].draft == d < |s.db.drafts|
    requires SendText(s.procs[p].row).Some? && s.procs[p].row.caseId < |s.db.cases|
    ensures var row := s.procs[p].row;
            var c := s.db.cases[row.caseId];
            StepRecord(StepSend(StepLoad(s, p, true), p, Accepted), p)
              == s.(db := RecordSent(s.db, d, SendText(row).value, row.landlord, c.property, c.severity, row.edited,
                                       s.settings.threshold),
                    procs := s.procs - {p}, sends := s.sends + [SendRecord(d, SendText(row).value)])
  {
    hide RecordSent;
    var row := s.procs[p].row;
    var c := s.db.cases[row.caseId];
    assert s.procs[p := Delivered(d, row, SendText(row).value, c.property, c.severity)] - {p} == s.procs - {p};
  }

  /** A claimed draft delivered and recorded, undisturbed. */
  lemma DeliveredAndRecorded(s0: State, es: seq<Event>, s: State, p: ProcId, d: DraftId) returns (es': seq<Event>, s': State)
    requires s == Run(s0, es)
    requires p in s.procs && s.procs[p].Claimed? && s.procs[p].draft == d < |s.db.drafts|
    requires SendText(s.procs[p].row).Some? && s.procs[p].row.caseId < |s.db.cases|
    ensures s' == Run(s0, es')
    ensures var row := s.procs[p].row;
            var c := s.db.cases[row.caseId];
            s' == s.(db := RecordSent(s.db, d, SendText(row).value, row.landlord, c.property, c.severity, row.edited,
                                       s.settings.threshold),
                     procs := s.procs - {p}, sends := s.sends + [SendRecord(d, SendText(row).value)])
  {
    var a, b, e := LoadContext(p, true), Send(p, Accepted), Record(p);
    es' := es + [a, b, e];
    RunThree(s0, es, a, b, e);
    DeliverySteps(s, p, d);
    hide Run, Step, StepLoad, StepSend, StepRecord, RecordSent;
    LoadIs(s, p, true);
    SendIs(StepLoad(s, p, true), p, Accepted);
    RecordIs(StepSend(StepLoad(s, p, true), p, Accepted), p);
    s' := Run(s0, es');
  }

  /** One event of the web tier. */
  lemma Web(s0: State, es: seq<Event>, s: State, e: Event) returns (es': seq<Event>, s': State)
    requires s == Run(s0, es) && WebEvent(e)
    ensures s' == Run(s0, es') && s' == StepWeb(s, e)
  {
    es', s' := es + [e], StepWeb(s, e);
    RunSnoc(s0, es, e);
    WebStep(s, e);
    hide Run, Step, StepWeb;
  }

  const DEMO := Settings(1, 1)

  /** A case 0 with one tenant message, and nothing else going on. */
  lemma OneCase() returns (es: seq<Event>, s: State)
    ensures s == Run(Initial(DEMO, 0), es)
    ensures s == State(DEMO, Db(0, [], [Case(7, 1, 1, Open, None, None, None, None, 0)],
                                [Message(Inbound, Tenant, None, "leak", 0)], {(0, 0)}, EMPTY_LEDGER,
                                [AuditEntry(Some(0), CaseOpened, 0)]), map[], map[], map[], [], [])
  {
    var s0 := Initial(DEMO, 0);
    assert Run(s0, []) == s0;
    es, s := Web(s0, [], s0, Receive(Tenant, None, "leak"));
    es, s := Web(s0, es, s, Identify(0, None, 7, 1, 1, false));
  }

  // ----- what the transactions do to these tables ------------------------------------

  const APPROVE := Decision(Approve, None, Dashboard)

  /** No draft of the case is pending, or would be superseded by a new one. */
  predicate NoneToReplace(db: Db, c: CaseId) {
    forall i :: 0 <= i < |db.drafts| ==> !InCase(db.drafts[i], c, Pending) && !UnsentAutoOrSms(db.drafts[i], c)
  }

  lemma InsertedBeside(db: Db, c: CaseId, landlord: LandlordId, body: string)
    requires NoneToReplace(db, c)
    ensures InsertDraft(db, c, landlord, body).drafts
              == db.drafts + [Draft(c, landlord, body, Pending, false, None, None, None, false, None, db.now, db.now)]
  {
    var kept := StalePending(CancelAutoAndSms(db.drafts, c, db.now), c, db.now);
    assert kept == db.drafts;
    hide StalePending, CancelAutoAndSms;
  }

  lemma MarkKeepsRest(db: Db, c: CaseId)
    ensures MarkAwaiting(db, c) == db.(cases := MarkAwaiting(db, c).cases)
  {
    hide FirstIn;
  }

  lemma DraftedEffect(db: Db, c: CaseId, severity: Severity, body: string)
    requires c < |db.cases| && db.cases[c].severity != Some(Emergency) && NoneToReplace(db, c)
    ensures |Classify(db, c, severity).cases| == |db.cases|
    ensures var db' := DraftedDb(Classify(db, c, severity), c, body);
            && db'.drafts == db.drafts + [Draft(c, db.cases[c].landlord, body, Pending, false, None, None, None, false, None,
                                               db.now, db.now)]
            && db'.cases == db.cases[c := db.cases[c].(severity := Some(severity), status := AwaitingApproval)]
            && db'.now == db.now && db'.messages == db.messages && db'.ledger == db.ledger
            && PendingOf(db', c) == Some(|db.drafts|)
            && AutoSentLog(db'.audit, c) == AutoSentLog(db.audit, c)
  {
    var mid := Classify(db, c, severity);
    assert mid == db.(cases := db.cases[c := db.cases[c].(severity := Some(severity))]);
    InsertedBeside(mid, c, db.cases[c].landlord, body);
    InsertKeepsCases(mid, c, db.cases[c].landlord, body);
    InsertFacts(mid, c, db.cases[c].landlord, body);
    InsertNoAutoSent(mid, c, db.cases[c].landlord, body, c);
    DraftedCases(mid, c, body);
    var db1 := InsertDraft(mid, c, db.cases[c].landlord, body);
    hide InsertDraft, Classify, AutoSentLog, MarkAwaiting, FirstIn;
    MarkKeepsRest(db1, c);
    LogUnchanged(db.audit, db1.audit, c);
  }

  lemma ApprovedEffect(db: Db, c: CaseId, d: DraftId)
    requires c < |db.cases| && d < |db.drafts| && db.drafts[d].status == Pending
    ensures var db' := ApplyDecision(db, c, d, APPROVE);
            && db'.drafts == db.drafts[d := db.drafts[d].(status := Approved, scheduledSendAt := Some(db.now + UNDO_WINDOW),
                                                         approvedVia := Some(Dashboard), edited := false, finalBody := None,
                                                         updatedAt := db.now)]
            && db'.cases == db.cases && db'.now == db.now && db'.messages == db.messages && db'.ledger == db.ledger
            && AutoSentLog(db'.audit, c) == AutoSentLog(db.audit, c)
  {
    DecisionNoAutoSent(db, c, d, APPROVE, c);
    LogUnchanged(db.audit, ApplyDecision(db, c, d, APPROVE).audit, c);
    hide AutoSentLog;
  }

  lemma SentEffect(db: Db, d: DraftId, text: string, landlord: LandlordId, property: PropertyId, severity: Option<Severity>,
                   edited: bool, threshold: nat)
    requires d < |db.drafts| && db.drafts[d].caseId < |db.cases| && db.cases[db.drafts[d].caseId].status != Resolved
    ensures var db', c := RecordSent(db, d, text, landlord, property, severity, edited, threshold), db.drafts[d].caseId;
            && |db'.drafts| == |db.drafts| && db'.drafts == db.drafts[d := db'.drafts[d]] && db'.drafts[d].status == Sent
            && db'.cases == db.cases[c := db.cases[c].(status := AwaitingTenant, lastActivityAt := db.now)]
            && db'.now == db.now && |db'.messages| == |db.messages| + 1
            && db'.ledger == RecordSend(db.ledger, landlord, property, severity, edited, threshold, db.now)
            && AutoSentLog(db'.audit, c) == AutoSentLog(db.audit, c)
  {
    hide RecordSend, AutoSentLog;
    var db' := RecordSent(db, d, text, landlord, property, severity, edited, threshold);
    LogUnchanged(db.audit, db'.audit, db.drafts[d].caseId);
  }

  /** Time passes. */
  lemma Waited(s0: State, es: seq<Event>, s: State, elapsed: nat) returns (es': seq<Event>, s': State)
    requires s == Run(s0, es)
    ensures s' == Run(s0, es') && s' == s.(db := s.db.(now := s.db.now + elapsed))
  {
    es', s' := Web(s0, es, s, Advance(elapsed));
    hide Run;
  }

  /** A due, landlord-approved draft of an open case can be claimed. */
  lemma DashboardClaimWins(db: Db, d: DraftId)
    requires d < |db.drafts| && db.drafts[d].status == Approved && Due(db.drafts[d], db.now)
    requires !db.drafts[d].autoSend && db.drafts[d].approvedVia == Some(Dashboard) && !CaseIs(db, db.drafts[d].caseId, Resolved)
    ensures ClaimWins(db, d)
  {
    hide NewerInbound, NewerTenantInbound;
  }

  // ----- leaving `resolved` without being reopened -------------------------------

  /** A resolve that lands while a graph run is between its classification and its
      draft is undone by that run: the case ends `awaiting_approval` with its
      resolution still recorded, though nobody reopened it. `LeavesResolvedIff` in
      SweepSafety says exactly which steps can do this. */
  lemma ResolvedCaseIsDraggedOut() returns (es: seq<Event>, more: seq<Event>)
    ensures CaseIs(Run(Initial(DEMO, 0), es).db, 0, Resolved)
    ensures forall i :: 0 <= i < |more| ==> RunnerEvent(more[i])
    ensures var c := Run(Initial(DEMO, 0), es + more).db.cases;
            |c| == 1 && c[0].status == AwaitingApproval && c[0].resolvedAt == Some(0) && c[0].resolvedReason == Some(ByLandlord)
  {
    hide Run, DraftedDb, MarkAwaiting, InsertDraft;
    var s0 := Initial(DEMO, 0);
    var one, s;
    es, one := OneCase();
    es, s := Classified(s0, es, one, 0, 0, Urgent);
    es, s := Web(s0, es, s, ResolveCase(0, 1));
    var base := one.(db := ResolveByLandlord(Classify(one.db, 0, Urgent), 0, 1), threads := one.threads - {0});
    assert s == WithRunner(base, 0, 0, Drafting(Urgent));
    var all;
    all, s := Paused(s0, es, base, 0, 0, Urgent, "reply");
    more := all[|es|..];
    assert es + more == all;
    DraftedCases(base.db, 0, "reply");
  }

  // ----- an auto-sent draft stays auto-sent ----------------------------------------

  /** The newer-inbound guard refuses a draft the landlord approved on the dashboard
      exactly when the row was once auto-sent: undo does not clear that mark. */
  lemma DashboardApprovalRefusedIff(db: Db, d: DraftId)
    requires d < |db.drafts| && db.drafts[d].status == Approved && db.drafts[d].approvedVia == Some(Dashboard)
    requires Due(db.drafts[d], db.now) && !CaseIs(db, db.drafts[d].caseId, Resolved)
    ensures var row := db.drafts[d];
            Claim(db, d).drafts[d].status == if row.autoSend && NewerInbound(db, row) then Cancelled else Sending
  {
  }

  lemma {:induction false} NoAutoSentRows(audit: seq<AuditEntry>, c: CaseId)
    requires forall i :: 0 <= i < |audit| ==> !audit[i].action.AutoSent?
    ensures AutoSentLog(audit, c) == []
  {
    if audit != [] { NoAutoSentRows(audit[..|audit| - 1], c); }
  }

  /** `s` with other tables and another thread map. */
  predicate SameRest(s: State, s': State) {
    s'.settings == s.settings && s'.locks == s.locks && s'.procs == s.procs && s'.db.now == s.db.now
  }

  /** An undisturbed run of case 0 writes a draft and pauses on it. */
  lemma DraftWritten(s0: State, es: seq<Event>, s: State, severity: Severity, body: string)
    returns (es': seq<Event>, s': State)
    requires s == Run(s0, es) && LockFree(s, 0) && 0 !in s.procs && severity != Emergency
    requires s.db.cases[0].severity != Some(Emergency) && NoneToReplace(s.db, 0)
    ensures s' == Run(s0, es') && SameRest(s, s') && s'.threads == s.threads[0 := |s.db.drafts|]
    ensures s'.db.drafts == s.db.drafts + [Draft(0, s.db.cases[0].landlord, body, Pending, false, None, None, None, false, None,
                                                s.db.now, s.db.now)]
    ensures s'.db.cases == s.db.cases[0 := s.db.cases[0].(severity := Some(severity), status := AwaitingApproval)]
    ensures s'.db.messages == s.db.messages && s'.db.ledger == s.db.ledger
    ensures PendingOf(s'.db, 0) == Some(|s.db.drafts|) && AutoSentLog(s'.db.audit, 0) == AutoSentLog(s.db.audit, 0)
  {
    DraftedEffect(s.db, 0, severity, body);
    hide Run, DraftedDb, Classify, AutoSentLog, PendingOf, NoneToReplace, LockFree;
    es', s' := DraftedAndPaused(s0, es, s, 0, 0, severity, body);
  }

  /** An undisturbed resume approves the draft the case is paused on. */
  lemma DraftApprovedByHand(s0: State, es: seq<Event>, s: State, d: DraftId) returns (es': seq<Event>, s': State)
    requires s == Run(s0, es) && LockFree(s, 0) && 0 !in s.procs && 0 in s.threads && PendingOf(s.db, 0) == Some(d)
    ensures s' == Run(s0, es') && SameRest(s, s') && s'.threads == s.threads - {0} && d < |s.db.drafts|
    ensures s'.db.drafts == s.db.drafts[d := s.db.drafts[d].(status := Approved, scheduledSendAt := Some(s.db.now + UNDO_WINDOW),
                                                             approvedVia := Some(Dashboard), edited := false,
                                                             finalBody := None, updatedAt := s.db.now)]
    ensures s'.db.cases == s.db.cases && s'.db.messages == s.db.messages && s'.db.ledger == s.db.ledger
    ensures AutoSentLog(s'.db.audit, 0) == AutoSentLog(s.db.audit, 0)
  {
    ApprovedEffect(s.db, 0, d);
    hide Run, ApplyDecision, AutoSentLog, PendingOf, LockFree;
    es', s' := Resumed(s0, es, s, 0, 0, d, APPROVE);
  }

  lemma OneSendUnlocks()
    ensures AutonomyUnlocked(RecordSend(EMPTY_LEDGER, 1, 1, Some(Routine), false, 1, 5), 1)
  {
  }

  /** The first draft is written and approved ... */
  lemma FirstApproved(severity: Severity, body: string) returns (es: seq<Event>, s: State)
    requires severity != Emergency
    ensures s == Run(Initial(DEMO, 0), es) && s.settings == DEMO && s.threads == map[] && s.locks == map[] && s.procs == map[]
    ensures s.db.now == 0 && |s.db.messages| == 1 && s.db.ledger == EMPTY_LEDGER && AutoSentLog(s.db.audit, 0) == []
    ensures s.db.cases == [Case(7, 1, 1, AwaitingApproval, Some(severity), None, None, None, 0)]
    ensures s.db.drafts == [Draft(0, 1, body, Approved, false, Some(5), Some(Dashboard), None, false, None, 0, 0)]
  {
    var s0 := Initial(DEMO, 0);
    var one, two;
    es, one := OneCase();
    NoAutoSentRows(one.db.audit, 0);
    hide Run, Initial, AutoSentLog, PendingOf;
    es, two := DraftWritten(s0, es, one, severity, body);
    es, s := DraftApprovedByHand(s0, es, two, 0);
    assert s.threads == map[];
  }

  /** ... and is due and claimed. */
  lemma FirstClaimed(severity: Severity, body: string, p: ProcId) returns (es: seq<Event>, s: State)
    requires severity != Emergency
    ensures s == Run(Initial(DEMO, 0), es) && s.settings == DEMO && s.threads == map[] && s.locks == map[]
    ensures s.db.now == 5 && |s.db.messages| == 1 && s.db.ledger == EMPTY_LEDGER && AutoSentLog(s.db.audit, 0) == []
    ensures s.db.cases == [Case(7, 1, 1, AwaitingApproval, Some(severity), None, None, None, 0)]
    ensures s.db.drafts == [Draft(0, 1, body, Sending, false, Some(5), Some(Dashboard), None, false, None, 0, 5)]
    ensures s.procs == map[p := Claimed(0, s.db.drafts[0])]
  {
    hide Run, Initial, AutoSentLog;
    var s0 := Initial(DEMO, 0);
    es, s := FirstApproved(severity, body);
    es, s := Waited(s0, es, s, 5);
    DashboardClaimWins(s.db, 0);
    hide ClaimWins;
    es, s := WonClaim(s0, es, s, p, 0);
  }

  /** One clean routine send has unlocked the property. */
  lemma PropertyUnlocked() returns (es: seq<Event>, s: State)
    ensures s == Run(Initial(DEMO, 0), es) && s.settings == DEMO
    ensures s.threads == map[] && s.locks == map[] && s.procs == map[]
    ensures s.db.now == 5 && |s.db.drafts| == 1 && s.db.drafts[0].status == Sent && |s.db.messages| == 2
    ensures s.db.cases == [Case(7, 1, 1, AwaitingTenant, Some(Routine), None, None, None, 5)]
    ensures AutonomyUnlocked(s.db.ledger, 1) && AutoSentLog(s.db.audit, 0) == []
  {
    hide Run, Initial, RecordSent, RecordSend, AutonomyUnlocked, AutoSentLog;
    var before;
    es, before := FirstClaimed(Routine, "reply", 1);
    SentEffect(before.db, 0, "reply", 1, 1, Some(Routine), false, 1);
    OneSendUnlocks();
    es, s := DeliveredAndRecorded(Initial(DEMO, 0), es, before, 1, 0);
    assert s.procs == map[];
  }

  lemma RoutedToAutoSend(s: State, p: ProcId, c: CaseId)
    requires LockFree(s, c) && p !in s.procs && s.settings.cap > 0
    requires AutonomyUnlocked(s.db.ledger, s.db.cases[c].property) && AutoSentLog(s.db.audit, c) == []
    ensures StepRoute(WithRunner(s, p, c, Routing(Routine, false)), p, false, true) == WithRunner(s, p, c, AutoSending)
  {
    hide AutonomyUnlocked, AutoSentLog;
  }

  lemma AutoSends(s: State, p: ProcId, c: CaseId)
    requires LockFree(s, c) && p !in s.procs && AutoSend(s.db, c).Some?
    ensures StepAutoSend(WithRunner(s, p, c, AutoSending), p) == s.(db := AutoSend(s.db, c).value)
  {
    assert s.locks[KeyOf(s, c) := p] - {KeyOf(s, c)} == s.locks;
    assert s.procs[p := Runner(c, AutoSending)] - {p} == s.procs;
  }

  lemma FreshDraftFacts(db: Db, c: CaseId, body: string)
    requires c < |db.cases| && AutoSentLog(db.audit, c) == []
    ensures var db' := InsertDraft(db, c, db.cases[c].landlord, body);
            && PendingOf(db', c).Some? && db'.ledger == db.ledger && db'.cases == db.cases && AutoSentLog(db'.audit, c) == []
  {
    var db' := InsertDraft(db, c, db.cases[c].landlord, body);
    InsertFacts(db, c, db.cases[c].landlord, body);
    InsertNoAutoSent(db, c, db.cases[c].landlord, body, c);
    LogUnchanged(db.audit, db'.audit, c);
  }

  lemma AutoSendSteps(s: State, p: ProcId, c: CaseId, body: string)
    requires LockFree(s, c) && p !in s.procs && s.settings.cap > 0
    requires AutonomyUnlocked(s.db.ledger, s.db.cases[c].property) && s.db.cases[c].severity == Some(Routine)
    requires AutoSentLog(s.db.audit, c) == []
    ensures var db := InsertDraft(s.db, c, s.db.cases[c].landlord, body);
            && AutoSend(db, c).Some?
            && StepAutoSend(StepRoute(StepDraft(WithRunner(s, p, c, Drafting(Routine)), p, body, false), p, false, true), p)
                 == s.(db := AutoSend(db, c).value)
  {
    hide InsertDraft, AutoSentLog, StepDraft, StepRoute, StepAutoSend, AutonomyUnlocked;
    var db := InsertDraft(s.db, c, s.db.cases[c].landlord, body);
    FreshDraftFacts(s.db, c, body);
    DraftsToRouting(s, p, c, Routine, body);
    RoutedToAutoSend(s.(db := db), p, c);
    AutoSends(s.(db := db), p, c);
  }

  lemma SameSeverity(db: Db, c: CaseId, severity: Severity)
    requires c < |db.cases| && db.cases[c].severity == Some(severity)
    ensures Classify(db, c, severity) == db
  {
    assert db.cases[c].(severity := Some(severity)) == db.cases[c];
  }

  /** A whole run that auto-sends, undisturbed. */
  lemma AutoSentRun(s0: State, es: seq<Event>, s: State, p: ProcId, c: CaseId, body: string)
    returns (es': seq<Event>, s': State)
    requires s == Run(s0, es) && LockFree(s, c) && p !in s.procs && s.settings.cap > 0
    requires AutonomyUnlocked(s.db.ledger, s.db.cases[c].property) && s.db.cases[c].severity == Some(Routine)
    requires AutoSentLog(s.db.audit, c) == []
    ensures s' == Run(s0, es') && AutoSend(InsertDraft(s.db, c, s.db.cases[c].landlord, body), c).Some?
    ensures s' == s.(db := AutoSend(InsertDraft(s.db, c, s.db.cases[c].landlord, body), c).value, threads := s.threads - {c})
  {
    hide Run, Step, InsertDraft, StepDraft, StepRoute, StepAutoSend, AutoSend, AutoSentLog, AutonomyUnlocked, Classify;
    SameSeverity(s.db, c, Routine);
    var s1;
    es', s1 := Classified(s0, es, s, p, c, Routine);
    var base := s.(threads := s.threads - {c});
    var a, b, e := DraftRun(p, body, false), RouteRun(p, false, true), AutoSendRun(p);
    AutoSendSteps(base, p, c, body);
    RunThree(s0, es', a, b, e);
    DraftIs(s1, p, body, false);
    RouteIs(StepDraft(s1, p, body, false), p, false, true);
    AutoSendIs(StepRoute(StepDraft(s1, p, body, false), p, false, true), p);
    es' := es' + [a, b, e];
    s' := Run(s0, es');
  }

  /** ... and a second draft on the case is auto-sent. */
  lemma SecondDraftAutoSent() returns (es: seq<Event>, s: State)
    ensures s == Run(Initial(DEMO, 0), es) && s.threads == map[] && s.locks == map[] && s.procs == map[]
    ensures s.db.now == 5 && |s.db.drafts| == 2 && s.db.drafts[0].status == Sent && |s.db.messages| == 2
    ensures s.db.drafts[1] == Draft(0, 1, "auto", Approved, true, Some(10), None, None, false, None, 5, 5)
    ensures s.db.cases == [Case(7, 1, 1, AwaitingTenant, Some(Routine), None, None, None, 5)]
  {
    hide Run, AutonomyUnlocked, AutoSentLog;
    var before;
    es, before := PropertyUnlocked();
    es, s := AutoSentRun(Initial(DEMO, 0), es, before, 0, 0, "auto");
    InsertFacts(before.db, 0, 1, "auto");
    assert before.threads - {0} == map[];
  }

  lemma NewerMessageLinked(db: Db, d: Draft, m: MessageId)
    requires m < |db.messages| && (m, d.caseId) in db.links
    requires db.messages[m].direction == Inbound && db.messages[m].createdAt > d.createdAt
    ensures NewerInbound(db, d)
  {
    assert LinkedTo(db, m, d.caseId);
  }

  lemma UndoneAndApproved(db: Db)
    requires |db.drafts| == 2 && |db.cases| == 1 && db.now == 5 && db.drafts[0].status == Sent
    requires db.drafts[1] == Draft(0, 1, "auto", Approved, true, Some(10), None, None, false, None, 5, 5)
    ensures var db1 := Undo(db, 1, 1, Dashboard);
            && db1.cases == db.cases
            && FinalizeUnpaused(db1, 0, 1, APPROVE).Some?
            && var db2 := FinalizeUnpaused(db1, 0, 1, APPROVE).value;
               && db2.now == 5 && db2.messages == db.messages
               && db2.cases == db.cases[0 := db.cases[0].(status := AwaitingApproval)]
               && db2.drafts == [db.drafts[0],
                                 Draft(0, 1, "auto", Approved, true, Some(10), Some(Dashboard), None, false, None, 5, 5)]
  {
    assert PendingOf(db, 0).None?;
    var db1 := Undo(db, 1, 1, Dashboard);
    assert db1.drafts[1] == Draft(0, 1, "auto", Pending, true, None, None, None, false, None, 5, 5);
    assert PendingOf(db1, 0) == Some(1);
    hide FirstIn, Undo;
    ApprovedEffect(EnsureAwaiting(db1, 0), 0, 1);
    hide ApplyDecision;
  }

  /** An auto-sent draft is undone, then approved by the landlord on the dashboard
      (the case is `awaiting_tenant`, so the decision seam writes directly). */
  lemma ApprovedAfterUndo() returns (es: seq<Event>, s: State)
    ensures s == Run(Initial(DEMO, 0), es) && s.db.now == 5 && |s.db.messages| == 2 && |s.db.drafts| == 2
    ensures s.db.drafts[1] == Draft(0, 1, "auto", Approved, true, Some(10), Some(Dashboard), None, false, None, 5, 5)
    ensures s.db.cases == [Case(7, 1, 1, AwaitingApproval, Some(Routine), None, None, None, 5)]
  {
    hide Run, Initial, Undo, FinalizeUnpaused, ApplyDecision;
    var s0 := Initial(DEMO, 0);
    es, s := SecondDraftAutoSent();
    UndoneAndApproved(s.db);
    es, s := Web(s0, es, s, UndoApproval(1, 1, Dashboard));
    es, s := Web(s0, es, s, FinalizeNeverPaused(0, 1, APPROVE));
  }

  /** The tenant writes again. */
  lemma WritesAgain(db: Db)
    requires |db.messages| == 2 && |db.cases| == 1 && db.cases[0].status != Resolved
    ensures var db1 := Transactions.Receive(db, Tenant, None, "again");
            var db2 := IdentifyCase(db1, 2, Some(0), 0, 1, 1, false);
            && db2.drafts == db.drafts && db2.now == db.now && |db2.messages| == 3 && (2, 0) in db2.links
            && db2.messages[2] == Message(Inbound, Tenant, None, "again", db.now)
            && |db2.cases| == 1 && db2.cases[0].status == db.cases[0].status
  {
  }

  /** A newer tenant message then cancels it at its claim. */
  lemma DashboardApprovalIsCancelled() returns (es: seq<Event>, s: State)
    ensures s == Run(Initial(DEMO, 0), es)
    ensures |s.db.drafts| == 2 && s.db.drafts[1].status == Approved && s.db.drafts[1].approvedVia == Some(Dashboard)
    ensures Due(s.db.drafts[1], s.db.now) && !CaseIs(s.db, s.db.drafts[1].caseId, Resolved)
    ensures Claim(s.db, 1).drafts[1].status == Cancelled
  {
    hide Run, Initial, Transactions.Receive, IdentifyCase, Claim;
    var s0 := Initial(DEMO, 0);
    es, s := ApprovedAfterUndo();
    es, s := Waited(s0, es, s, 1);
    WritesAgain(s.db);
    es, s := Web(s0, es, s, Receive(Tenant, None, "again"));
    es, s := Web(s0, es, s, Identify(2, Some(0), 0, 1, 1, false));
    es, s := Waited(s0, es, s, 5);
    NewerMessageLinked(s.db, s.db.drafts[1], 2);
    hide NewerInbound;
    DashboardApprovalRefusedIff(s.db, 1);
  }

  // ----- a pause consumed by a decision on another draft ----------------------------

  const REJECT := Decision(Reject, None, Dashboard)

  function RowOf(status: DraftStatus, body: string, at: Time, due: Option<Time>, via: Option<Channel>, updated: Time): Draft {
    Draft(0, 1, body, status, false, due, via, None, false, None, at, updated)
  }

  const FIRST := RowOf(Sending, "first", 0, Some(5), Some(Dashboard), 5)
  const SECOND := RowOf(Approved, "second", 5, Some(10), Some(Dashboard), 5)

  lemma SecondWritten(s0: State, es: seq<Event>, s: State) returns (es': seq<Event>, s': State)
    requires s == Run(s0, es) && s.threads == map[] && s.locks == map[] && s.procs.Keys == {9}
    requires s.db.now == 5 && |s.db.cases| == 1 && s.db.cases[0].landlord == 1 && s.db.cases[0].severity != Some(Emergency)
    requires s.db.drafts == [FIRST]
    ensures s' == Run(s0, es') && SameRest(s, s') && s'.threads == map[0 := 1] && |s'.db.cases| == 1
    ensures s'.db.cases[0] == s.db.cases[0].(severity := Some(Urgent), status := AwaitingApproval)
    ensures s'.db.drafts == [FIRST, RowOf(Pending, "second", 5, None, None, 5)] && PendingOf(s'.db, 0) == Some(1)
  {
    hide Run, AutoSentLog, PendingOf;
    es', s' := DraftWritten(s0, es, s, Urgent, "second");
  }

  lemma SecondApproved(s0: State, es: seq<Event>, s: State) returns (es': seq<Event>, s': State)
    requires s == Run(s0, es) && s.threads == map[] && s.locks == map[] && s.procs.Keys == {9}
    requires s.db.now == 5 && |s.db.cases| == 1 && s.db.cases[0].landlord == 1 && s.db.cases[0].severity != Some(Emergency)
    requires s.db.drafts == [FIRST]
    ensures s' == Run(s0, es') && SameRest(s, s') && s'.threads == map[] && |s'.db.cases| == 1
    ensures s'.db.cases[0] == s.db.cases[0].(severity := Some(Urgent), status := AwaitingApproval)
    ensures s'.db.drafts == [FIRST, SECOND]
  {
    hide Run, AutoSentLog, PendingOf;
    var s1;
    es', s1 := SecondWritten(s0, es, s);
    es', s' := DraftApprovedByHand(s0, es', s1, 1);
    assert s'.threads == map[];
  }

  /** Draft 0 is being sent; draft 1 is approved on the dashboard and within its
      undo window. */
  lemma OneSendingOneApproved() returns (es: seq<Event>, s: State)
    ensures s == Run(Initial(DEMO, 0), es) && s.settings == DEMO && s.threads == map[] && s.locks == map[]
    ensures s.db.now == 5 && |s.db.cases| == 1 && s.db.cases[0].landlord == 1
    ensures s.db.cases[0].severity != Some(Emergency)
    ensures s.db.drafts == [FIRST, SECOND] && s.procs == map[9 := Claimed(0, FIRST)]
  {
    hide Run, Initial, AutoSentLog;
    es, s := FirstClaimed(Urgent, "first", 9);
    es, s := SecondApproved(Initial(DEMO, 0), es, s);
  }

  lemma UndoneInFrontOf(s: State)
    requires s.locks == map[] && 0 !in s.procs && s.threads == map[0 := 2] && |s.db.cases| == 1
    requires |s.db.drafts| == 3 && s.db.drafts[0].status == Sent && s.db.drafts[2].status == Rejected
    requires s.db.drafts[1] == SECOND
    ensures ForeignUndo(s, UndoApproval(1, 1, Dashboard))
    ensures var s' := StepCheck(StepAcquire(StepWeb(s, UndoApproval(1, 1, Dashboard)), 0, 0, Resume(1, APPROVE)), 0);
            Resuming(s', 0, Replaying) && s'.procs[0].decided == 1 && 0 in s'.threads && s'.threads[0] == 2
  {
    assert PendingOf(s.db, 0).None?;
    var s1 := StepWeb(s, UndoApproval(1, 1, Dashboard));
    assert s1.db.drafts[1].status == Pending && s1.threads == s.threads;
    assert PendingOf(s1.db, 0) == Some(1);
  }

  /** The third draft pauses the thread ... */
  lemma ThirdWritten() returns (es: seq<Event>, s: State)
    ensures s == Run(Initial(DEMO, 0), es) && s.settings == DEMO && s.locks == map[] && s.threads == map[0 := 2]
    ensures s.db.now == 5 && |s.db.cases| == 1 && s.db.cases[0].status == AwaitingApproval
    ensures s.db.drafts == [FIRST, SECOND, RowOf(Pending, "third", 5, None, None, 5)]
    ensures s.procs == map[9 := Claimed(0, FIRST)]
  {
    hide Run, Initial, AutoSentLog, PendingOf;
    var two;
    es, two := OneSendingOneApproved();
    es, s := DraftWritten(Initial(DEMO, 0), es, two, Urgent, "third");
  }

  /** ... and then the first one's send is recorded. */
  lemma ThirdPaused() returns (es: seq<Event>, s: State)
    ensures s == Run(Initial(DEMO, 0), es) && s.locks == map[] && s.procs == map[] && s.threads == map[0 := 2]
    ensures s.db.now == 5 && |s.db.cases| == 1 && s.db.cases[0].status == AwaitingTenant
    ensures |s.db.drafts| == 3 && s.db.drafts[0].status == Sent
    ensures s.db.drafts[1] == SECOND && s.db.drafts[2] == RowOf(Pending, "third", 5, None, None, 5)
  {
    hide Run, Initial, RecordSent, RecordSend, AutoSentLog;
    var three;
    es, three := ThirdWritten();
    SentEffect(three.db, 0, "first", 1, three.db.cases[0].property, three.db.cases[0].severity, false, 1);
    es, s := DeliveredAndRecorded(Initial(DEMO, 0), es, three, 9, 0);
    assert map[9 := Claimed(0, FIRST)] - {9} == map[];
  }

  /** The case now reads `awaiting_tenant`, so a rejection of the third draft is
      written directly and leaves its pause behind; then the landlord undoes the
      second. That undo is foreign, and a resume of the second draft goes on to
      consume the pause raised for the third. */
  lemma ForeignPauseIsConsumed() returns (es: seq<Event>, s: State)
    ensures s == Run(Initial(DEMO, 0), es) && ForeignUndo(s, UndoApproval(1, 1, Dashboard))
    ensures var s' := StepCheck(StepAcquire(StepWeb(s, UndoApproval(1, 1, Dashboard)), 0, 0, Resume(1, APPROVE)), 0);
            Resuming(s', 0, Replaying) && s'.procs[0].decided == 1 && 0 in s'.threads && s'.threads[0] == 2
  {
    hide Run;
    es, s := ThirdPaused();
    assert PendingOf(s.db, 0) == Some(2);
    es, s := Web(Initial(DEMO, 0), es, s, FinalizeNeverPaused(0, 2, REJECT));
    assert s.db.drafts[2].status == Rejected;
    hide *;
    UndoneInFrontOf(s);
  }
}
