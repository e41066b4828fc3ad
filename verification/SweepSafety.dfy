/** Resolution over whole runs: the sweep's guarded write refines its decision
    under arbitrary interference, and a resolved case that nothing reopens stays
    resolved, whatever sends are still in flight. */
module SweepSafety {
  import opened Vocabulary
  import opened TrustLadder
  import opened Tables
  import opened CaseLifecycle
  import opened Transactions
  import opened LifeCycle
  import opened Protocol
  import opened SendSafety
  import opened Histories
  import opened LockSafety
  import opened DecisionSeam
  import opened Outcomes

  /** A resolved row carries no pending resolution. */
  ghost predicate ResolvedClean(db: Db) {
    forall c :: 0 <= c < |db.cases| && db.cases[c].status == Resolved ==> db.cases[c].pendingResolvedAt.None?
  }

  // ----- resolved implies no pending resolution --------------------------------

  lemma IdentifyKeepsClean(db: Db, m: MessageId, target: Option<CaseId>, uuid: nat, landlord: LandlordId,
                           property: PropertyId, confirms: bool)
    requires ResolvedClean(db)
    ensures ResolvedClean(IdentifyCase(db, m, target, uuid, landlord, property, confirms))
  {
  }

  lemma WebKeepsClean(s: State, e: Event)
    requires WebEvent(e) && ResolvedClean(s.db)
    ensures ResolvedClean(StepWeb(s, e).db)
  {
    hide ResolvedClean, IdentifyCase, StepFinalize;
    if e.Identify? { IdentifyKeepsClean(s.db, e.m, e.target, e.uuid, e.landlord, e.property, e.confirms); }
    else if e.FinalizeNeverPaused? { FinalizeKeepsClean(s, e.c, e.d, e.decision); }
    else if e.ResolveCase? || e.SweepCase? { ResolvingKeepsClean(s, e); }
    else { SameCasesClean(s.db, StepWeb(s, e).db); }
  }

  lemma SameCasesClean(a: Db, b: Db)
    requires ResolvedClean(a) && a.cases == b.cases
    ensures ResolvedClean(b)
  {
  }

  lemma ResolvingKeepsClean(s: State, e: Event)
    requires (e.ResolveCase? || e.SweepCase?) && ResolvedClean(s.db)
    ensures ResolvedClean(StepWeb(s, e).db)
  {
    hide CancelOpen;
  }

  lemma DecisionKeepsClean(db: Db, c: CaseId, d: DraftId, dec: Decision)
    requires d < |db.drafts| && c < |db.cases| && ResolvedClean(db)
    ensures ResolvedClean(ApplyDecision(db, c, d, dec))
  {
    hide RecordRejection;
  }

  lemma AwaitingKeepsClean(db: Db, c: CaseId)
    requires ResolvedClean(db) && c < |db.cases|
    ensures ResolvedClean(EnsureAwaiting(db, c)) && ResolvedClean(MarkAwaiting(db, c))
  {
  }

  lemma FinalizeKeepsClean(s: State, c: CaseId, d: DraftId, dec: Decision)
    requires ResolvedClean(s.db)
    ensures ResolvedClean(StepFinalize(s, c, d, dec).db)
  {
    hide ResolvedClean, ApplyDecision, FirstIn;
    if FinalizeUnpaused(s.db, c, d, dec).Some? {
      AwaitingKeepsClean(s.db, c);
      DecisionKeepsClean(s.db, c, d, dec);
      DecisionKeepsClean(EnsureAwaiting(s.db, c), c, d, dec);
    }
  }

  lemma HolderKeepsClean(s: State, e: Event)
    requires HolderEvent(e) && ResolvedClean(s.db)
    ensures ResolvedClean(StepHolder(s, e).db)
  {
    hide ResolvedClean, StepRunner, ApplyDecision, FirstIn;
    if RunnerEvent(e) { RunnerKeepsClean(s, e); }
    else if e.FinalizeResume? {
      if Resuming(s, e.p, Finalizing) && PendingOf(s.db, s.procs[e.p].caseId).Some? {
        DecisionKeepsClean(s.db, s.procs[e.p].caseId, PendingOf(s.db, s.procs[e.p].caseId).value, s.procs[e.p].decision);
      }
    }
    else { ResumerKeepsDrafts(s, e); }
  }

  lemma ClassifyKeepsClean(db: Db, c: CaseId, severity: Severity)
    requires ResolvedClean(db)
    ensures ResolvedClean(Classify(db, c, severity))
  {
  }

  lemma RunnerKeepsClean(s: State, e: Event)
    requires RunnerEvent(e) && ResolvedClean(s.db)
    ensures ResolvedClean(StepRunner(s, e).db)
  {
    hide ResolvedClean, FirstIn, Classify, MarkAwaiting, RouteAfterDraft;
    if e.ClassifyRun? {
      if Running(s, e.p) && e.severity.Some? { ClassifyKeepsClean(s.db, s.procs[e.p].caseId, e.severity.value); }
    } else if e.MarkRun? {
      if Running(s, e.p) { AwaitingKeepsClean(s.db, s.procs[e.p].caseId); }
    } else {
      RunnerKeepsCases(s, e);
      SameCasesClean(s.db, StepRunner(s, e).db);
    }
  }

  lemma RunnerKeepsCases(s: State, e: Event)
    requires RunnerEvent(e) && !e.ClassifyRun? && !e.MarkRun?
    ensures StepRunner(s, e).db.cases == s.db.cases
  {
    hide FirstIn, RouteAfterDraft;
  }

  lemma SenderKeepsClean(s: State, e: Event)
    requires SenderEvent(e) && ResolvedClean(s.db)
    ensures ResolvedClean(StepSender(s, e).db)
  {
    hide StepClaim, SendText, RecordSend;
    if e.ClaimDraft? { ClaimKeepsCases(s, e.p, e.d); }
  }

  lemma ClaimKeepsCases(s: State, p: ProcId, d: DraftId)
    ensures StepClaim(s, p, d).db.cases == s.db.cases
  {
    hide NewerInbound, NewerTenantInbound;
  }

  lemma StepKeepsClean(s: State, e: Event)
    requires ResolvedClean(s.db)
    ensures ResolvedClean(Step(s, e).db)
  {
    hide ResolvedClean, StepWeb, StepSender, StepHolder;
    if WebEvent(e) { WebKeepsClean(s, e); }
    else if HolderEvent(e) { HolderKeepsClean(s, e); }
    else if SenderEvent(e) { SenderKeepsClean(s, e); }
  }

  lemma {:induction false} RunKeepsClean(s: State, es: seq<Event>)
    requires ResolvedClean(s.db)
    ensures ResolvedClean(Run(s, es).db)
  {
    if es != [] {
      RunKeepsClean(s, es[..|es| - 1]);
      StepKeepsClean(Run(s, es[..|es| - 1]), es[|es| - 1]);
    }
  }

  // ----- the sweep ------------------------------------------------------------

  /** If the live row is still due for the leg, the write resolves it for that
      reason and in the same transaction leaves no pending or approved draft on the
      case, while a draft already being sent is left alone; otherwise nothing at
      all is written. */
  ghost predicate SweepOutcome(live: Db, after: Db, c: CaseId, leg: Leg, at: Time)
    requires c < |live.cases|
  {
    && (TimeTransition(live.cases[c], at) != Some(leg) ==> after == live)
    && (TimeTransition(live.cases[c], at) == Some(leg) ==>
          && TimeTransition(live.cases[c], live.now) == Some(leg)
          && OnlyCase(live.cases, after.cases, c)
          && ResolvedFor(live.cases[c], after.cases[c], if leg == AutoStaleLeg then AutoStale else TenantConfirmed, at)
          && NoOpen(after, c)
          && |after.drafts| == |live.drafts|
          && (forall i :: 0 <= i < |live.drafts| ==> after.drafts[i].caseId == live.drafts[i].caseId)
          && (forall i :: 0 <= i < |live.drafts| && !OpenDraft(live.drafts[i], c) ==> after.drafts[i] == live.drafts[i]))
  }

  lemma SweepOfLiveRow(db: Db, c: CaseId, leg: Leg, at: Time)
    requires SentOnly(db) && ResolvedClean(db) && c < |db.cases| && at <= db.now
    ensures SweepOutcome(db, SweepWrite(db, c, leg, at), c, leg, at)
  {
    GuardIsDecision(db.cases[c], leg, at);
    var db' := SweepWrite(db, c, leg, at);
    if SweepGuard(db.cases[c], leg, at) { CancelCalm(db, db', c, c); }
  }

  /** The sweep decides on a snapshot taken at `at` and writes later, after any
      interference `more`: what it writes is decided by the live row alone, as the
      decision function itself would. */
  lemma SweepRefinesDecision(settings: Settings, now: Time, es: seq<Event>, more: seq<Event>, c: CaseId, leg: Leg)
    requires c < |Run(Initial(settings, now), es).db.cases|
    ensures var at := Run(Initial(settings, now), es).db.now;
            var live := Run(Run(Initial(settings, now), es), more);
            && c < |live.db.cases|
            && SweepOutcome(live.db, Step(live, SweepCase(c, leg, at)).db, c, leg, at)
  {
    var s0 := Run(Initial(settings, now), es);
    InitialSeam(settings, now);
    RunKeepsSeam(Initial(settings, now), es);
    RunKeepsClean(Initial(settings, now), es);
    SweepAfterInterference(s0, more, c, leg);
  }

  lemma LiveFacts(s0: State, more: seq<Event>)
    requires SeamInv(s0) && ResolvedClean(s0.db)
    ensures SentOnly(Run(s0, more).db) && ResolvedClean(Run(s0, more).db)
    ensures s0.db.now <= Run(s0, more).db.now && |s0.db.cases| <= |Run(s0, more).db.cases|
  {
    RunKeepsSeam(s0, more);
    LogsOnlyGrow(s0, more);
    RunKeepsClean(s0, more);
  }

  lemma SweepAfterInterference(s0: State, more: seq<Event>, c: CaseId, leg: Leg)
    requires SeamInv(s0) && ResolvedClean(s0.db) && c < |s0.db.cases|
    ensures var live := Run(s0, more);
            c < |live.db.cases| && SweepOutcome(live.db, Step(live, SweepCase(c, leg, s0.db.now)).db, c, leg, s0.db.now)
  {
    LiveFacts(s0, more);
    var live := Run(s0, more);
    SweepOfLiveRow(live.db, c, leg, s0.db.now);
    assert Step(live, SweepCase(c, leg, s0.db.now)).db == SweepWrite(live.db, c, leg, s0.db.now);
  }

  /** A case that waits for its landlord is not the sweep's: with no resolution pending no
      sweep action, of either leg and decided at any instant, changes anything. */
  lemma BacklogIsNotSwept(s: State, c: CaseId, leg: Leg, at: Time)
    requires CaseIs(s.db, c, AwaitingApproval) && s.db.cases[c].pendingResolvedAt.None?
    ensures Step(s, SweepCase(c, leg, at)) == s
  {
    BacklogNeverDue(s.db.cases[c], s.db.now, leg, at);
    WebStep(s, SweepCase(c, leg, at));
    hide Step, SweepGuard;
  }

  // ----- leaving `resolved` ---------------------------------------------------

  predicate ReopensCase(s: State, e: Event, c: CaseId)
    requires c < |s.db.cases|
  {
    e.Identify? && e.target == Some(c)
    && s.db.cases[c].resolvedAt.Some? && ReopensSameCase(s.db.cases[c].resolvedAt.value, s.db.now)
  }

  /** The three writes that take a resolved case out of `resolved` without
      reopening it. Each needs a pending draft on the resolved case. */
  predicate DragsOut(s: State, e: Event, c: CaseId)
    requires c < |s.db.cases|
  {
    && PendingOf(s.db, c).Some?
    && (|| (e.MarkRun? && Running(s, e.p) && s.procs[e.p].caseId == c && s.procs[e.p].phase == Marking)
        || (e.FinalizeResume? && Resuming(s, e.p, Finalizing) && s.procs[e.p].caseId == c
            && s.procs[e.p].decision.action == Reject)
        || (e.FinalizeNeverPaused? && e.c == c && KeyOf(s, c) !in s.locks && PendingOf(s.db, c) == Some(e.d)
            && e.decision.action != Unrecognised))
  }

  /** Exactly which steps take a case out of `resolved`. A send that finishes after
      the resolve is not one of them, from any state. */
  lemma LeavesResolvedIff(s: State, e: Event, c: CaseId)
    requires CaseIs(s.db, c, Resolved) && OnePending(s.db)
    ensures !CaseIs(Step(s, e).db, c, Resolved) <==> ReopensCase(s, e, c) || DragsOut(s, e, c)
  {
    hide StepWeb, StepHolder, StepSender;
    if WebEvent(e) { WebLeavesResolvedIff(s, e, c); }
    else if HolderEvent(e) { HolderLeavesResolvedIff(s, e, c); }
    else if SenderEvent(e) { SenderStaysResolved(s, e, c); }
  }

  /** A send that finishes after the resolve: the last write looks at the status. */
  lemma SenderStaysResolved(s: State, e: Event, c: CaseId)
    requires SenderEvent(e) && CaseIs(s.db, c, Resolved)
    ensures CaseIs(StepSender(s, e).db, c, Resolved)
  {
    hide StepClaim, SendText, RecordSend;
    if e.ClaimDraft? { ClaimKeepsCases(s, e.p, e.d); }
  }

  lemma IdentifyLeavesResolvedIff(db: Db, m: MessageId, target: Option<CaseId>, uuid: nat, landlord: LandlordId,
                                  property: PropertyId, confirms: bool, c: CaseId)
    requires CaseIs(db, c, Resolved)
    ensures !CaseIs(IdentifyCase(db, m, target, uuid, landlord, property, confirms), c, Resolved) <==>
            target == Some(c) && db.cases[c].resolvedAt.Some? && ReopensSameCase(db.cases[c].resolvedAt.value, db.now)
  {
  }

  lemma FinalizeLeavesResolvedIff(s: State, held: CaseId, d: DraftId, dec: Decision, c: CaseId)
    requires CaseIs(s.db, c, Resolved)
    ensures !CaseIs(StepFinalize(s, held, d, dec).db, c, Resolved) <==> DragsOut(s, FinalizeNeverPaused(held, d, dec), c)
  {
  }

  lemma WebLeavesResolvedIff(s: State, e: Event, c: CaseId)
    requires WebEvent(e) && CaseIs(s.db, c, Resolved)
    ensures !CaseIs(StepWeb(s, e).db, c, Resolved) <==> ReopensCase(s, e, c) || DragsOut(s, e, c)
  {
    hide IdentifyCase, StepFinalize, FirstIn, CancelOpen, ReopensSameCase;
    if e.Identify? { IdentifyLeavesResolvedIff(s.db, e.m, e.target, e.uuid, e.landlord, e.property, e.confirms, c); }
    else if e.FinalizeNeverPaused? { FinalizeLeavesResolvedIff(s, e.c, e.d, e.decision, c); }
    else { OtherWebStaysResolved(s, e, c); }
  }

  lemma OtherWebStaysResolved(s: State, e: Event, c: CaseId)
    requires WebEvent(e) && !e.Identify? && !e.FinalizeNeverPaused? && CaseIs(s.db, c, Resolved)
    ensures CaseIs(StepWeb(s, e).db, c, Resolved)
  {
    hide IdentifyCase, StepFinalize, FirstIn, CancelOpen;
  }

  lemma MarkLeavesResolvedIff(s: State, p: ProcId, c: CaseId)
    requires CaseIs(s.db, c, Resolved)
    ensures !CaseIs(StepMark(s, p).db, c, Resolved) <==> DragsOut(s, MarkRun(p), c)
  {
  }

  lemma DecideLeavesResolvedIff(s: State, p: ProcId, c: CaseId)
    requires CaseIs(s.db, c, Resolved) && OnePending(s.db)
    ensures !CaseIs(StepDecide(s, p).db, c, Resolved) <==> DragsOut(s, FinalizeResume(p), c)
  {
  }

  lemma WritesNoStatus(s: State, e: Event, c: CaseId)
    requires HolderEvent(e) && !e.MarkRun? && !e.FinalizeResume? && CaseIs(s.db, c, Resolved)
    ensures CaseIs(StepHolder(s, e).db, c, Resolved)
  {
    hide StepRunner, StepResumer, FirstIn;
    if e.ClassifyRun? { ClassifyStaysResolved(s, e, c); }
    else if RunnerEvent(e) { RunnerKeepsCases(s, e); }
    else { ResumerKeepsDrafts(s, e); }
  }

  lemma ClassifyStaysResolved(s: State, e: Event, c: CaseId)
    requires e.ClassifyRun? && CaseIs(s.db, c, Resolved)
    ensures CaseIs(StepRunner(s, e).db, c, Resolved)
  {
  }

  lemma HolderLeavesResolvedIff(s: State, e: Event, c: CaseId)
    requires HolderEvent(e) && CaseIs(s.db, c, Resolved) && OnePending(s.db)
    ensures !CaseIs(StepHolder(s, e).db, c, Resolved) <==> DragsOut(s, e, c)
  {
    hide StepMark, StepDecide, FirstIn;
    if e.MarkRun? { MarkLeavesResolvedIff(s, e.p, c); }
    else if e.FinalizeResume? { DecideLeavesResolvedIff(s, e.p, c); }
    else { hide StepHolder; WritesNoStatus(s, e, c); }
  }

  /** A graph run writing a draft, or a message routed to the case. */
  predicate Disturbs(s: State, e: Event, c: CaseId) {
    (e.DraftRun? && Holding(s, e.p, c)) || (e.Identify? && e.target == Some(c))
  }

  ghost predicate Undisturbed(s: State, es: seq<Event>, c: CaseId) {
    forall k :: 0 <= k < |es| ==> !Disturbs(Run(s, es[..k]), es[k], c)
  }

  ghost predicate AtRest(db: Db, c: CaseId) {
    CaseIs(db, c, Resolved) && NoOpen(db, c)
  }

  lemma NoOpenStays(s: State, e: Event, c: CaseId)
    requires SendInv(s) && NoOpen(s.db, c) && !Disturbs(s, e, c)
    ensures NoOpen(Step(s, e).db, c)
  {
    var s' := Step(s, e);
    StepForward(s, e);
    hide Step, SendInv, TablesGrow;
    forall i | 0 <= i < |s'.db.drafts| ensures !OpenDraft(s'.db.drafts[i], c) {
      if i < |s.db.drafts| {
        assert RowMoves(s.db.drafts[i], s'.db.drafts[i], true);
      } else {
        NewRowIsDrafted(s, e, i);
      }
    }
  }

  lemma WebAddsNoRow(s: State, e: Event)
    requires WebEvent(e)
    ensures |StepWeb(s, e).db.drafts| == |s.db.drafts|
  {
    hide FirstIn, RevokeKeys;
  }

  lemma SenderAddsNoRow(s: State, e: Event)
    requires SenderEvent(e)
    ensures |StepSender(s, e).db.drafts| == |s.db.drafts|
  {
    hide SendText, RecordSend, NewerInbound, NewerTenantInbound;
  }

  lemma HolderAddsRow(s: State, e: Event, i: DraftId)
    requires HolderEvent(e) && |s.db.drafts| <= i < |StepHolder(s, e).db.drafts|
    ensures e.DraftRun? && Holding(s, e.p, StepHolder(s, e).db.drafts[i].caseId)
  {
    hide StepRunner, StepResumer;
    if RunnerEvent(e) { RunnerAddsRow(s, e, i); } else { ResumerAddsNoRow(s, e); }
  }

  lemma ResumerAddsNoRow(s: State, e: Event)
    requires ResumerEvent(e)
    ensures |StepResumer(s, e).db.drafts| == |s.db.drafts|
  {
    hide FirstIn;
  }

  lemma RunnerAddsRow(s: State, e: Event, i: DraftId)
    requires RunnerEvent(e) && |s.db.drafts| <= i < |StepRunner(s, e).db.drafts|
    ensures e.DraftRun? && Holding(s, e.p, StepRunner(s, e).db.drafts[i].caseId)
  {
    hide FirstIn, RouteAfterDraft, AutonomyUnlocked;
  }

  lemma NewRowIsDrafted(s: State, e: Event, i: DraftId)
    ensures |s.db.drafts| <= i < |Step(s, e).db.drafts| ==>
              e.DraftRun? && Holding(s, e.p, Step(s, e).db.drafts[i].caseId)
  {
    hide StepWeb, StepSender, StepHolder;
    if WebEvent(e) { WebAddsNoRow(s, e); }
    else if SenderEvent(e) { SenderAddsNoRow(s, e); }
    else if HolderEvent(e) && |s.db.drafts| <= i < |Step(s, e).db.drafts| { HolderAddsRow(s, e, i); }
  }

  lemma UndisturbedBefore(s: State, es: seq<Event>, c: CaseId, k: nat)
    requires Undisturbed(s, es, c) && k <= |es|
    ensures Undisturbed(s, es[..k], c)
  {
    hide Disturbs, Run;
    forall i | 0 <= i < k ensures !Disturbs(Run(s, es[..k][..i]), es[..k][i], c) { assert es[..k][..i] == es[..i]; }
  }

  /** A case resolved with nothing left to decide stays resolved until a message is
      routed to it or a graph run drafts on it: sends in flight may finish, undos,
      approvals and rejections may be attempted, coroutines may crash. */
  lemma {:induction false} ResolvedStays(s: State, es: seq<Event>, c: CaseId)
    requires SendInv(s) && OnePending(s.db) && AtRest(s.db, c) && Undisturbed(s, es, c)
    ensures AtRest(Run(s, es).db, c)
  {
    hide Step, SendInv, OnePending;
    if es != [] {
      var k := |es| - 1;
      UndisturbedBefore(s, es, c, k);
      ResolvedStays(s, es[..k], c);
      RunOnePending(s, es[..k]);
      var s1 := Run(s, es[..k]);
      NoOpenStays(s1, es[k], c);
      LeavesResolvedIff(s1, es[k], c);
    }
  }

  lemma ResolveLeavesNothing(db: Db, c: CaseId, landlord: LandlordId)
    requires SentOnly(db) && c < |db.cases| && db.cases[c].landlord == landlord && db.cases[c].status != Resolved
    ensures AtRest(ResolveByLandlord(db, c, landlord), c)
  {
    CancelCalm(db, ResolveByLandlord(db, c, landlord), c, c);
  }

  /** Every way of resolving a case puts it at rest, so the theorem above applies
      from there on. */
  lemma ResolvingSettlesTheCase(settings: Settings, now: Time, es: seq<Event>, c: CaseId, landlord: LandlordId,
                                more: seq<Event>)
    requires var s := Run(Initial(settings, now), es);
             c < |s.db.cases| && s.db.cases[c].landlord == landlord && s.db.cases[c].status != Resolved
             && Undisturbed(Step(s, ResolveCase(c, landlord)), more, c)
    ensures var s := Run(Initial(settings, now), es);
            AtRest(Run(Step(s, ResolveCase(c, landlord)), more).db, c)
  {
    InitialSeam(settings, now);
    RunKeepsSeam(Initial(settings, now), es);
    var s := Run(Initial(settings, now), es);
    ResolveLeavesNothing(s.db, c, landlord);
    StepKeepsSeam(s, ResolveCase(c, landlord));
    ResolvedStays(Step(s, ResolveCase(c, landlord)), more, c);
  }
}
