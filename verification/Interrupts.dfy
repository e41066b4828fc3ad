/** Which draft a live interrupt was raised for. A resume that carries draft `d`
    is meant to consume the pause raised for `d`. That is not true of every run: a
    pause survives a decision that was written directly, and undoing the approval
    of another draft then puts that draft in front of the old pause. It is true of
    exactly the runs in which no undo lands on a case whose live interrupt names
    another draft. */
module Interrupts {
  import opened Vocabulary
  import opened TrustLadder
  import opened Tables
  import opened CaseLifecycle
  import opened Transactions
  import opened LifeCycle
  import opened Protocol
  import opened SendSafety
  import opened Histories
  import opened LockSafety
  import opened DecisionSeam

  /** The case's pending draft, if any, is the one its live interrupt names. */
  predicate PauseMatches(s: State, c: CaseId) {
    c in s.threads ==> PendingOf(s.db, c).None? || PendingOf(s.db, c) == Some(s.threads[c])
  }

  /** That is so of every case. */
  ghost predicate PausesMatch(s: State) {
    forall c :: PauseMatches(s, c)
  }

  /** An undo that will be accepted, on a case paused for another draft. Everything
      it reads is there before the statement runs. */
  predicate ForeignUndo(s: State, e: Event) {
    && e.UndoApproval? && e.d < |s.db.drafts|
    && s.db.drafts[e.d].landlord == e.landlord && s.db.drafts[e.d].status == Approved
    && PendingOf(s.db, s.db.drafts[e.d].caseId).None?
    && s.db.drafts[e.d].caseId in s.threads && s.threads[s.db.drafts[e.d].caseId] != e.d
  }

  /** A run that has read its message holds a thread with no pause on it. */
  ghost predicate FreshRuns(s: State) {
    forall p :: p in s.procs && s.procs[p].Runner? && s.procs[p].phase != Starting ==> s.procs[p].caseId !in s.threads
  }

  /** A resume about to replay consumes the pause raised for its own draft. */
  ghost predicate ReplaysMatch(s: State) {
    forall p :: p in s.procs && s.procs[p].Resumer? && s.procs[p].step == Replaying ==>
      s.procs[p].caseId in s.threads && s.threads[s.procs[p].caseId] == s.procs[p].decided
  }

  ghost predicate PauseInv(s: State) {
    SeamInv(s) && FreshRuns(s)
  }

  // ----- threads belong to the lock holder ------------------------------------

  lemma SenderMovesNoThread(s: State, e: Event)
    requires SenderEvent(e)
    ensures StepSender(s, e).threads == s.threads
  {
    hide Claim, ClaimWins, RecordSent, SendText;
  }

  lemma RunnerMovesOwnThread(s: State, e: Event, c: CaseId)
    requires RunnerEvent(e) && !Holding(s, e.p, c)
    ensures c in StepRunner(s, e).threads <==> c in s.threads
    ensures c in s.threads ==> StepRunner(s, e).threads[c] == s.threads[c]
  {
    hide FirstIn, RouteAfterDraft, InsertDraft, AutoSend, Classify, MarkAwaiting;
  }

  lemma HolderMovesOwnThread(s: State, e: Event, c: CaseId)
    requires HolderEvent(e) && !Holding(s, e.p, c)
    ensures c in StepHolder(s, e).threads <==> c in s.threads
    ensures c in s.threads ==> StepHolder(s, e).threads[c] == s.threads[c]
  {
    hide StepRunner, ApplyDecision, FirstIn;
    if RunnerEvent(e) { RunnerMovesOwnThread(s, e, c); }
  }

  lemma OnlyHolderMovesThread(s: State, e: Event, c: CaseId)
    requires !(HolderEvent(e) && Holding(s, e.p, c))
    ensures c in Step(s, e).threads <==> c in s.threads
    ensures c in s.threads ==> Step(s, e).threads[c] == s.threads[c]
  {
    hide StepWeb, StepSender, StepHolder;
    if WebEvent(e) { WebEventWrites(s, e); }
    else if SenderEvent(e) { SenderMovesNoThread(s, e); }
    else if HolderEvent(e) { HolderMovesOwnThread(s, e, c); }
  }

  /** A run past `Starting` after a step: its own step cleared or kept the thread
      clear, or it was there before and somebody else stepped. */
  lemma RunnersOwnStep(s: State, e: Event)
    requires FreshRuns(s) && HolderEvent(e)
    requires e.p in StepHolder(s, e).procs && StepHolder(s, e).procs[e.p].Runner?
    requires StepHolder(s, e).procs[e.p].phase != Starting
    ensures StepHolder(s, e).procs[e.p].caseId !in StepHolder(s, e).threads
  {
    hide StepRunner, StepResumer;
    if RunnerEvent(e) { RunnersThread(s, e); } else { ResumersStayResumers(s, e); }
  }

  lemma RunnersThread(s: State, e: Event)
    requires FreshRuns(s) && RunnerEvent(e)
    requires e.p in StepRunner(s, e).procs && StepRunner(s, e).procs[e.p].Runner?
    requires StepRunner(s, e).procs[e.p].phase != Starting
    ensures StepRunner(s, e).procs[e.p].caseId !in StepRunner(s, e).threads
  {
    hide FirstIn, RouteAfterDraft, InsertDraft, AutoSend, Classify, MarkAwaiting;
  }

  lemma FreshRunKept(s: State, e: Event, p: ProcId)
    requires LockInv(s) && FreshRuns(s)
    requires p in Step(s, e).procs && Step(s, e).procs[p].Runner? && Step(s, e).procs[p].phase != Starting
    ensures Step(s, e).procs[p].caseId !in Step(s, e).threads
  {
    hide StepWeb, StepSender, StepHolder;
    if HolderEvent(e) && e.p == p {
      RunnersOwnStep(s, e);
    } else {
      OthersKeepHolder(s, e, p);
      OnlyHolderMovesThread(s, e, s.procs[p].caseId);
    }
  }

  lemma StepKeepsFreshRuns(s: State, e: Event)
    requires PauseInv(s)
    ensures FreshRuns(Step(s, e))
  {
    hide Step, LockInv;
    var s' := Step(s, e);
    forall p | p in s'.procs && s'.procs[p].Runner? && s'.procs[p].phase != Starting
      ensures s'.procs[p].caseId !in s'.threads
    {
      FreshRunKept(s, e, p);
    }
  }

  lemma StepKeepsPauseInv(s: State, e: Event)
    requires PauseInv(s)
    ensures PauseInv(Step(s, e))
  {
    StepKeepsSeam(s, e);
    StepKeepsFreshRuns(s, e);
  }

  // ----- who can make a draft pending -----------------------------------------

  ghost predicate NoNewPending(a: Db, b: Db, c: CaseId) {
    forall i :: 0 <= i < |b.drafts| && InCase(b.drafts[i], c, Pending) ==> i < |a.drafts| && InCase(a.drafts[i], c, Pending)
  }

  lemma NoNewPendingKeepsMatch(a: Db, b: Db, c: CaseId)
    requires NoNewPending(a, b, c) && OnePending(a)
    ensures PendingOf(b, c).None? || PendingOf(b, c) == PendingOf(a, c)
  {
    if PendingOf(b, c).Some? { PendingIsUnique(a, PendingOf(b, c).value); }
  }

  lemma FinalizeNoNewPending(s: State, held: CaseId, d: DraftId, dec: Decision, c: CaseId)
    ensures NoNewPending(s.db, StepFinalize(s, held, d, dec).db, c)
  {
  }

  lemma WebNoNewPending(s: State, e: Event, c: CaseId)
    requires WebEvent(e) && !e.UndoApproval?
    ensures NoNewPending(s.db, StepWeb(s, e).db, c)
  {
    hide StepFinalize, Undo, FirstIn, RevokeKeys;
    if e.FinalizeNeverPaused? { FinalizeNoNewPending(s, e.c, e.d, e.decision, c); }
  }

  lemma AutoSendNoNewPending(s: State, p: ProcId, c: CaseId)
    ensures NoNewPending(s.db, StepAutoSend(s, p).db, c)
  {
  }

  lemma RunnerNoNewPending(s: State, e: Event, c: CaseId)
    requires RunnerEvent(e) && !e.DraftRun?
    ensures NoNewPending(s.db, StepRunner(s, e).db, c)
  {
    hide StepAutoSend, StepDraft, StepRunner;
    if e.AutoSendRun? { AutoSendNoNewPending(s, e.p, c); AutoSendIsStep(s, e); }
    else { RunnerKeepsDrafts(s, e); }
  }

  lemma AutoSendIsStep(s: State, e: Event)
    requires e.AutoSendRun?
    ensures StepRunner(s, e) == StepAutoSend(s, e.p)
  {
    hide StepAutoSend;
  }

  lemma DecideNoNewPending(s: State, p: ProcId, c: CaseId)
    ensures NoNewPending(s.db, StepDecide(s, p).db, c)
  {
    hide FirstIn;
  }

  lemma ResumerNoNewPending(s: State, e: Event, c: CaseId)
    requires ResumerEvent(e)
    ensures NoNewPending(s.db, StepResumer(s, e).db, c)
  {
    hide StepDecide, PendingOf;
    if e.FinalizeResume? { DecideNoNewPending(s, e.p, c); }
  }

  lemma OwnNoNewPending(s: State, e: Event, c: CaseId)
    requires HolderEvent(e) && !e.DraftRun?
    ensures NoNewPending(s.db, StepHolder(s, e).db, c)
  {
    hide StepRunner, StepResumer;
    if RunnerEvent(e) { RunnerNoNewPending(s, e, c); } else { ResumerNoNewPending(s, e, c); }
  }

  lemma RecordNoNewPending(s: State, p: ProcId, c: CaseId)
    ensures NoNewPending(s.db, StepRecord(s, p).db, c)
  {
    if p in s.procs && s.procs[p].Delivered? && s.procs[p].draft < |s.db.drafts| { RecordShape(s, p); }
  }

  lemma SenderNoNewPending(s: State, e: Event, c: CaseId)
    requires SenderEvent(e)
    ensures NoNewPending(s.db, StepSender(s, e).db, c)
  {
    hide StepRecord;
    if e.Record? { RecordNoNewPending(s, e.p, c); }
  }

  lemma DraftRunPending(s: State, e: Event, c: CaseId)
    requires PauseInv(s) && e.DraftRun? && c in Step(s, e).threads
    ensures NoNewPending(s.db, Step(s, e).db, c)
  {
    if Running(s, e.p) && s.procs[e.p].phase.Drafting? {
      InsertCalmly(s, e.p, e.body, c);
    }
  }

  lemma InsertCalmly(s: State, p: ProcId, body: string, c: CaseId)
    requires Running(s, p) && c != s.procs[p].caseId
    ensures NoNewPending(s.db, InsertDraft(s.db, s.procs[p].caseId, s.db.cases[s.procs[p].caseId].landlord, body), c)
  {
  }

  lemma UndoPending(s: State, e: Event, c: CaseId)
    requires e.UndoApproval? && OnePending(s.db)
    ensures var db' := StepWeb(s, e).db;
            || NoNewPending(s.db, db', c)
            || (e.d < |s.db.drafts| && s.db.drafts[e.d].caseId == c && s.db.drafts[e.d].landlord == e.landlord
                && s.db.drafts[e.d].status == Approved && PendingOf(s.db, c).None? && PendingOf(db', c) == Some(e.d))
  {
    var db' := StepWeb(s, e).db;
    UndoFacts(s.db, e.d, e.landlord, e.channel);
    if db' != s.db && s.db.drafts[e.d].caseId == c { PendingIsUnique(db', e.d); }
  }

  // ----- one step -------------------------------------------------------------

  lemma NothingNew(s: State, s': State, c: CaseId)
    requires PauseMatches(s, c) && OnePending(s.db) && NoNewPending(s.db, s'.db, c)
    requires c in s'.threads ==> c in s.threads && s.threads[c] == s'.threads[c]
    ensures PauseMatches(s', c)
  {
    hide FirstIn;
    NoNewPendingKeepsMatch(s.db, s'.db, c);
  }

  lemma UndoMatches(s: State, e: Event, c: CaseId)
    requires OnePending(s.db) && e.UndoApproval? && PauseMatches(s, c) && !ForeignUndo(s, e)
    ensures PauseMatches(StepWeb(s, e), c)
  {
    UndoPending(s, e, c);
    WebEventWrites(s, e);
    hide StepWeb, OnePending, FirstIn;
    if NoNewPending(s.db, StepWeb(s, e).db, c) { NothingNew(s, StepWeb(s, e), c); }
  }

  lemma CaseKeepsMatch(s: State, e: Event, c: CaseId)
    requires PauseInv(s) && PauseMatches(s, c) && !ForeignUndo(s, e)
    ensures PauseMatches(Step(s, e), c)
  {
    hide StepWeb, StepSender, StepHolder, SendInv, LockInv, OnePending, SentOnly, FreshRuns, PauseMatches, NoNewPending, ForeignUndo;
    if c !in Step(s, e).threads {
      NoPauseMatches(Step(s, e), c);
    } else if e.PauseRun? && Holding(s, e.p, c) {
      OwnPause(s, e, c);
    } else if e.UndoApproval? {
      UndoMatches(s, e, c);
    } else {
      ThreadKept(s, e, c);
      if e.DraftRun? { DraftRunPending(s, e, c); } else { NoneNew(s, e, c); }
      NothingNew(s, Step(s, e), c);
    }
  }

  lemma NoPauseMatches(s: State, c: CaseId)
    requires c !in s.threads
    ensures PauseMatches(s, c)
  {
  }

  lemma StepKeepsMatch(s: State, e: Event)
    requires PauseInv(s) && PausesMatch(s) && !ForeignUndo(s, e)
    ensures PausesMatch(Step(s, e))
  {
    hide Step, PauseInv, ForeignUndo, PendingOf;
    forall c ensures PauseMatches(Step(s, e), c) {
      assert PauseMatches(s, c);
      CaseKeepsMatch(s, e, c);
    }
  }

  lemma NoneNew(s: State, e: Event, c: CaseId)
    requires !e.UndoApproval? && !e.DraftRun?
    ensures NoNewPending(s.db, Step(s, e).db, c)
  {
    hide StepWeb, StepSender, StepHolder;
    if WebEvent(e) { WebNoNewPending(s, e, c); }
    else if HolderEvent(e) { OwnNoNewPending(s, e, c); }
    else if SenderEvent(e) { SenderNoNewPending(s, e, c); }
  }

  lemma OwnPause(s: State, e: Event, c: CaseId)
    requires e.PauseRun? && Holding(s, e.p, c) && PauseMatches(s, c)
    ensures PauseMatches(StepHolder(s, e), c)
  {
    hide FirstIn;
  }

  lemma ThreadKept(s: State, e: Event, c: CaseId)
    requires c in Step(s, e).threads && !(e.PauseRun? && Holding(s, e.p, c))
    ensures c in s.threads && s.threads[c] == Step(s, e).threads[c]
  {
    hide StepWeb, StepSender, StepHolder;
    if !(HolderEvent(e) && Holding(s, e.p, c)) { OnlyHolderMovesThread(s, e, c); }
    else { OwnThreadKept(s, e, c); }
  }

  lemma RunnerThreadKept(s: State, e: Event, c: CaseId)
    requires RunnerEvent(e) && !e.PauseRun? && c in StepRunner(s, e).threads
    ensures c in s.threads && s.threads[c] == StepRunner(s, e).threads[c]
  {
    hide FirstIn, RouteAfterDraft, InsertDraft, AutoSend, Classify, MarkAwaiting, StepPause;
  }

  lemma OwnThreadKept(s: State, e: Event, c: CaseId)
    requires HolderEvent(e) && !e.PauseRun? && c in StepHolder(s, e).threads
    ensures c in s.threads && s.threads[c] == StepHolder(s, e).threads[c]
  {
    hide StepRunner, ApplyDecision, FirstIn;
    if RunnerEvent(e) { RunnerThreadKept(s, e, c); }
  }

  lemma ForeignUndoBreaksMatch(s: State, e: Event)
    requires OnePending(s.db) && ForeignUndo(s, e)
    ensures !PausesMatch(Step(s, e))
  {
    var c := s.db.drafts[e.d].caseId;
    UndoFacts(s.db, e.d, e.landlord, e.channel);
    PendingIsUnique(Step(s, e).db, e.d);
    assert c in Step(s, e).threads;
    assert !PauseMatches(Step(s, e), c);
  }

  // ----- runs -----------------------------------------------------------------

  lemma {:induction false} RunKeepsPauseInv(s: State, es: seq<Event>)
    requires PauseInv(s)
    ensures PauseInv(Run(s, es))
  {
    if es != [] {
      RunKeepsPauseInv(s, es[..|es| - 1]);
      StepKeepsPauseInv(Run(s, es[..|es| - 1]), es[|es| - 1]);
    }
  }

  ghost predicate MatchThroughout(s: State, es: seq<Event>) {
    forall k :: 0 <= k <= |es| ==> PausesMatch(Run(s, es[..k]))
  }

  ghost predicate NoForeignUndo(s: State, es: seq<Event>) {
    forall k :: 0 <= k < |es| ==> !ForeignUndo(Run(s, es[..k]), es[k])
  }

  lemma RunPrefix(s: State, es: seq<Event>, k: nat)
    requires k < |es|
    ensures Run(s, es[..k + 1]) == Step(Run(s, es[..k]), es[k])
  {
    assert es[..k + 1][..k] == es[..k];
  }

  lemma {:induction false} MatchUpTo(s: State, es: seq<Event>, k: nat)
    requires PauseInv(s) && PausesMatch(s) && NoForeignUndo(s, es) && k <= |es|
    ensures PausesMatch(Run(s, es[..k]))
  {
    hide Step, PauseInv, PausesMatch, ForeignUndo;
    if k > 0 {
      MatchUpTo(s, es, k - 1);
      RunKeepsPauseInv(s, es[..k - 1]);
      RunPrefix(s, es, k - 1);
      StepKeepsMatch(Run(s, es[..k - 1]), es[k - 1]);
    }
  }

  lemma InitialPauseInv(settings: Settings, now: Time)
    ensures PauseInv(Initial(settings, now)) && PausesMatch(Initial(settings, now))
  {
    InitialSeam(settings, now);
  }

  /** Every live interrupt names its case's pending draft at every state of a run
      if and only if no undo in the run is accepted on a case whose live interrupt
      names another draft. */
  lemma PausesMatchIffNoForeignUndo(settings: Settings, now: Time, es: seq<Event>)
    ensures MatchThroughout(Initial(settings, now), es) <==> NoForeignUndo(Initial(settings, now), es)
  {
    var s := Initial(settings, now);
    InitialPauseInv(settings, now);
    if NoForeignUndo(s, es) {
      forall k | 0 <= k <= |es| ensures PausesMatch(Run(s, es[..k])) { MatchUpTo(s, es, k); }
    }
    if k :| 0 <= k < |es| && ForeignUndo(Run(s, es[..k]), es[k]) {
      RunKeepsPauseInv(s, es[..k]);
      ForeignUndoBreaksMatch(Run(s, es[..k]), es[k]);
      RunPrefix(s, es, k);
      assert !PausesMatch(Run(s, es[..k + 1]));
    }
  }

  lemma ReplayKept(s: State, e: Event, p: ProcId)
    requires LockInv(s) && PausesMatch(s) && ReplaysMatch(s)
    requires p in Step(s, e).procs && Step(s, e).procs[p].Resumer? && Step(s, e).procs[p].step == Replaying
    ensures var s' := Step(s, e);
            s'.procs[p].caseId in s'.threads && s'.threads[s'.procs[p].caseId] == s'.procs[p].decided
  {
    hide StepWeb, StepSender, StepHolder;
    if HolderEvent(e) && e.p == p {
      OwnReplay(s, e);
    } else {
      OthersKeepHolder(s, e, p);
      OnlyHolderMovesThread(s, e, s.procs[p].caseId);
    }
  }

  lemma StepKeepsReplays(s: State, e: Event)
    requires PauseInv(s) && PausesMatch(s) && ReplaysMatch(s)
    ensures ReplaysMatch(Step(s, e))
  {
    hide Step, LockInv, PausesMatch;
    var s' := Step(s, e);
    forall p | p in s'.procs && s'.procs[p].Resumer? && s'.procs[p].step == Replaying
      ensures s'.procs[p].caseId in s'.threads && s'.threads[s'.procs[p].caseId] == s'.procs[p].decided
    {
      ReplayKept(s, e, p);
    }
  }

  lemma OwnReplay(s: State, e: Event)
    requires HolderEvent(e) && PausesMatch(s) && ReplaysMatch(s)
    requires e.p in StepHolder(s, e).procs && StepHolder(s, e).procs[e.p].Resumer?
    requires StepHolder(s, e).procs[e.p].step == Replaying
    ensures var s' := StepHolder(s, e);
            s'.procs[e.p].caseId in s'.threads && s'.threads[s'.procs[e.p].caseId] == s'.procs[e.p].decided
  {
    hide StepRunner, StepResumer, PausesMatch, ReplaysMatch;
    if RunnerEvent(e) { RunnersStayRunners(s, e); if StepRunner(s, e) == s { KeptReplay(s, e); } } else { ResumersReplay(s, e); }
  }

  lemma KeptReplay(s: State, e: Event)
    requires RunnerEvent(e) && ReplaysMatch(s) && StepRunner(s, e) == s
    ensures e.p in s.procs && s.procs[e.p].Resumer? && s.procs[e.p].step == Replaying ==>
              s.procs[e.p].caseId in s.threads && s.threads[s.procs[e.p].caseId] == s.procs[e.p].decided
  {
    hide StepRunner;
  }

  lemma ResumersReplay(s: State, e: Event)
    requires ResumerEvent(e) && PausesMatch(s) && ReplaysMatch(s)
    requires e.p in StepResumer(s, e).procs && StepResumer(s, e).procs[e.p].Resumer?
    requires StepResumer(s, e).procs[e.p].step == Replaying
    ensures var s' := StepResumer(s, e);
            s'.procs[e.p].caseId in s'.threads && s'.threads[s'.procs[e.p].caseId] == s'.procs[e.p].decided
  {
    hide ApplyDecision, FirstIn;
    if e.p in s.procs && s.procs[e.p].Resumer? { assert PauseMatches(s, s.procs[e.p].caseId); }
  }

  lemma NoForeignUndoBefore(s: State, es: seq<Event>, k: nat)
    requires NoForeignUndo(s, es) && k <= |es|
    ensures NoForeignUndo(s, es[..k])
  {
    hide ForeignUndo, Run;
    forall i | 0 <= i < k ensures !ForeignUndo(Run(s, es[..k][..i]), es[..k][i]) { assert es[..k][..i] == es[..i]; }
  }

  lemma {:induction false} ReplaysMatchUpTo(s: State, es: seq<Event>)
    requires PauseInv(s) && PausesMatch(s) && ReplaysMatch(s) && NoForeignUndo(s, es)
    ensures ReplaysMatch(Run(s, es))
  {
    hide Step, PauseInv, PausesMatch, ReplaysMatch, NoForeignUndo;
    if es != [] {
      var k := |es| - 1;
      NoForeignUndoBefore(s, es, k);
      ReplaysMatchUpTo(s, es[..k]);
      MatchUpTo(s, es, k);
      RunKeepsPauseInv(s, es[..k]);
      StepKeepsReplays(Run(s, es[..k]), es[k]);
    }
  }

  // ----- what such an undo makes possible -----------------------------------------

  ghost predicate ThreadsInRange(s: State) { forall c :: c in s.threads ==> c < |s.db.cases| }

  lemma PausedCaseExists(s: State, e: Event, c: CaseId)
    requires e.PauseRun? && Holding(s, e.p, c) && c in Step(s, e).threads
    ensures c in s.threads || c < |s.db.cases|
  {
  }

  lemma StepKeepsRange(s: State, e: Event)
    requires SendInv(s) && ThreadsInRange(s)
    ensures ThreadsInRange(Step(s, e))
  {
    hide Step, SendInv;
    StepForward(s, e);
    forall c | c in Step(s, e).threads ensures c < |Step(s, e).db.cases| {
      if e.PauseRun? && Holding(s, e.p, c) { PausedCaseExists(s, e, c); } else { ThreadKept(s, e, c); }
    }
  }

  lemma {:induction false} RunKeepsRange(s: State, es: seq<Event>)
    requires SendInv(s) && ThreadsInRange(s)
    ensures ThreadsInRange(Run(s, es))
  {
    hide Step, SendInv, ThreadsInRange;
    if es != [] {
      RunKeepsRange(s, es[..|es| - 1]);
      RunKeepsSendInv(s, es[..|es| - 1]);
      StepKeepsRange(Run(s, es[..|es| - 1]), es[|es| - 1]);
    }
  }

  lemma ForeignUndoLands(s: State, e: Event)
    requires OnePending(s.db) && ForeignUndo(s, e)
    ensures var s' := Step(s, e);
            s' == WithDb(s, s'.db) && s'.db.cases == s.db.cases && PendingOf(s'.db, s.db.drafts[e.d].caseId) == Some(e.d)
  {
    UndoFacts(s.db, e.d, e.landlord, e.channel);
    PendingIsUnique(Step(s, e).db, e.d);
  }

  lemma CheckPasses(s: State, p: ProcId, c: CaseId, d: DraftId, dec: Decision)
    requires c < |s.db.cases| && KeyOf(s, c) !in s.locks && p !in s.procs && c in s.threads && PendingOf(s.db, c) == Some(d)
    ensures var s' := Step(Step(s, Acquire(p, c, Resume(d, dec))), CheckResume(p));
            && Resuming(s', p, Replaying) && s'.procs[p] == Resumer(c, d, dec, Replaying)
            && s'.threads == s.threads && c !in Step(s', ReplayResume(p)).threads
  {
    hide Step, StepAcquire, StepCheck, StepReplay;
    var s1 := StepAcquire(s, p, c, Resume(d, dec));
    AcquireIs(s, p, c, Resume(d, dec));
    ChecksOut(s, s1, p, c, d, dec);
    CheckIs(s1, p);
    PauseIsOver(StepCheck(s1, p), p, c);
    ReplayIs(StepCheck(s1, p), p);
  }

  lemma ChecksOut(s: State, s1: State, p: ProcId, c: CaseId, d: DraftId, dec: Decision)
    requires c < |s.db.cases| && KeyOf(s, c) !in s.locks && p !in s.procs && c in s.threads && PendingOf(s.db, c) == Some(d)
    requires s1 == StepAcquire(s, p, c, Resume(d, dec))
    ensures var s' := StepCheck(s1, p);
            && Resuming(s', p, Replaying) && s'.procs[p] == Resumer(c, d, dec, Replaying) && s'.threads == s.threads
  {
    hide FirstIn;
  }

  lemma PauseIsOver(s: State, p: ProcId, c: CaseId)
    requires Resuming(s, p, Replaying) && s.procs[p].caseId == c
    ensures c !in StepReplay(s, p).threads
  {
    hide FirstIn;
  }

  /** And in every reachable state such an undo, on a case whose lock is free, lets a
      resume consume the other draft's pause: the resume of the draft that was undone
      passes both checks and replays on a thread paused for another one. */
  lemma ForeignUndoMisleadsResume(settings: Settings, now: Time, es: seq<Event>, e: Event, p: ProcId, dec: Decision)
    requires var s := Run(Initial(settings, now), es);
             && ForeignUndo(s, e) && p !in s.procs
             && (s.db.drafts[e.d].caseId < |s.db.cases| ==> KeyOf(s, s.db.drafts[e.d].caseId) !in s.locks)
    ensures var s := Run(Initial(settings, now), es);
            var c := s.db.drafts[e.d].caseId;
            var s' := Step(Step(Step(s, e), Acquire(p, c, Resume(e.d, dec))), CheckResume(p));
            && Resuming(s', p, Replaying) && s'.procs[p] == Resumer(c, e.d, dec, Replaying)
            && c in s'.threads && s'.threads[c] != e.d
            && c !in Step(s', ReplayResume(p)).threads
  {
    var s := Run(Initial(settings, now), es);
    InitialSendInv(settings, now);
    RunOnePending(Initial(settings, now), es);
    RunKeepsRange(Initial(settings, now), es);
    ForeignUndoLands(s, e);
    hide Run, Initial, SendInv, OnePending, Step, PendingOf;
    CheckPasses(Step(s, e), p, s.db.drafts[e.d].caseId, e.d, dec);
  }

  /** In a run without such an undo, a resume that consumes a pause carries the
      draft the pause was raised for. */
  lemma ResumeConsumesItsOwnPause(settings: Settings, now: Time, es: seq<Event>, p: ProcId)
    requires NoForeignUndo(Initial(settings, now), es)
    requires Resuming(Run(Initial(settings, now), es), p, Replaying)
    ensures var s := Run(Initial(settings, now), es);
            s.procs[p].caseId in s.threads && s.threads[s.procs[p].caseId] == s.procs[p].decided
  {
    InitialPauseInv(settings, now);
    ReplaysMatchUpTo(Initial(settings, now), es);
  }
}
