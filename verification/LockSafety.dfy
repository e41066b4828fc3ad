/** Mutual exclusion of the per-case advisory lock over every run: a graph run or
    a resume is alive exactly while its case's key is in the lock table under its
    own name. */
module LockSafety {
  import opened Vocabulary
  import opened TrustLadder
  import opened Tables
  import opened CaseLifecycle
  import opened Transactions
  import opened LifeCycle
  import opened Protocol
  import opened SendSafety
  import opened Histories

  predicate Holding(s: State, p: ProcId, c: CaseId) {
    p in s.procs && HoldsLock(s.procs[p]) && s.procs[p].caseId == c
  }

  ghost predicate LockInv(s: State) {
    && (forall p :: p in s.procs && HoldsLock(s.procs[p]) ==>
          var c := s.procs[p].caseId;
          c < |s.db.cases| && KeyOf(s, c) in s.locks && s.locks[KeyOf(s, c)] == p)
    && (forall k :: k in s.locks ==>
          var p := s.locks[k];
          p in s.procs && HoldsLock(s.procs[p]) && s.procs[p].caseId < |s.db.cases| && KeyOf(s, s.procs[p].caseId) == k)
  }

  // ----- the parts a step is made of ------------------------------------------

  lemma WriteKeepsLocks(s: State, db: Db)
    requires LockInv(s) && TablesGrow(s.db, db)
    ensures LockInv(WithDb(s, db))
  {
    forall c | 0 <= c < |s.db.cases| ensures KeyOf(WithDb(s, db), c) == KeyOf(s, c) {
      assert SameCaseIdentity(s.db.cases[c], db.cases[c]);
    }
  }

  /** A coroutine that goes on, with the lock it had. */
  lemma MoveKeepsLocks(s: State, p: ProcId, proc: Proc)
    requires LockInv(s) && p in s.procs
    requires HoldsLock(proc) <==> HoldsLock(s.procs[p])
    requires HoldsLock(proc) ==> proc.caseId == s.procs[p].caseId
    ensures LockInv(s.(procs := s.procs[p := proc]))
  {
  }

  lemma RetireKeepsLocks(s: State, p: ProcId)
    requires LockInv(s) && p in s.procs
    ensures LockInv(Retire(s, p))
  {
  }

  lemma NewSenderKeepsLocks(s: State, p: ProcId, proc: Proc)
    requires LockInv(s) && p !in s.procs && IsSender(proc)
    ensures LockInv(s.(procs := s.procs[p := proc]))
  {
  }

  lemma AcquireKeepsLocks(s: State, p: ProcId, c: CaseId, job: Job)
    requires LockInv(s)
    ensures LockInv(StepAcquire(s, p, c, job))
  {
  }

  // ----- every step -----------------------------------------------------------

  lemma ClaimKeepsLocks(s: State, p: ProcId, d: DraftId)
    requires LockInv(s)
    ensures LockInv(StepClaim(s, p, d))
  {
    ClaimFacts(s.db, d);
    WriteKeepsLocks(s, Claim(s.db, d));
    var s1 := WithDb(s, Claim(s.db, d));
    if p !in s.procs && ClaimWins(s.db, d) { NewSenderKeepsLocks(s1, p, Claimed(d, s1.db.drafts[d])); }
  }

  lemma LoadKeepsLocks(s: State, p: ProcId, addressable: bool)
    requires LockInv(s)
    ensures LockInv(StepLoad(s, p, addressable))
  {
    if p in s.procs {
      RetireKeepsLocks(s, p);
      if p in StepLoad(s, p, addressable).procs { MoveKeepsLocks(s, p, StepLoad(s, p, addressable).procs[p]); }
    }
  }

  lemma SendKeepsLocks(s: State, p: ProcId, outcome: Outcome)
    requires LockInv(s)
    ensures LockInv(StepSend(s, p, outcome))
  {
    if p in s.procs {
      RetireKeepsLocks(s, p);
      if p in StepSend(s, p, outcome).procs { MoveKeepsLocks(s, p, StepSend(s, p, outcome).procs[p]); }
    }
  }

  lemma EndKeepsLocks(s: State, p: ProcId, s': State)
    requires LockInv(s) && p in s.procs && s' == WithDb(Retire(s, p), s'.db) && TablesGrow(s.db, s'.db)
    ensures LockInv(s')
  {
    RetireKeepsLocks(s, p);
    WriteKeepsLocks(Retire(s, p), s'.db);
  }

  lemma RecordEnds(s: State, p: ProcId)
    requires SendInv(s)
    ensures var s' := StepRecord(s, p);
            s' == s || (p in s.procs && s' == WithDb(Retire(s, p), s'.db) && TablesGrow(s.db, s'.db))
  {
    RecordForward(s, p);
    hide SendInv;
    if p in s.procs && s.procs[p].Delivered? && s.procs[p].draft < |s.db.drafts| { RecordShape(s, p); }
    hide RecordSent;
  }

  // ----- a lock holder's step -------------------------------------------------

  /** It wrote tables and perhaps the thread, and went on under the same lock. */
  predicate Stays(s: State, s': State, p: ProcId) {
    && p in s.procs && p in s'.procs && HoldsLock(s.procs[p]) && HoldsLock(s'.procs[p])
    && s'.procs[p].caseId == s.procs[p].caseId
    && s' == s.(db := s'.db, threads := s'.threads, procs := s.procs[p := s'.procs[p]])
  }

  /** It wrote tables and perhaps the thread, and ended, releasing the lock. */
  predicate Goes(s: State, s': State, p: ProcId) {
    p in s.procs && s' == Retire(s.(db := s'.db, threads := s'.threads), p)
  }

  predicate HolderShape(s: State, s': State, p: ProcId) {
    s' == s || Stays(s, s', p) || Goes(s, s', p)
  }

  lemma ReaderShape(s: State, e: Event)
    requires e.StartRun? || e.RouteRun? || e.PauseRun?
    ensures HolderShape(s, StepRunner(s, e), e.p)
  {
  }

  lemma WriterShape(s: State, e: Event)
    requires e.ClassifyRun? || e.DraftRun? || e.AutoSendRun? || e.MarkRun?
    ensures HolderShape(s, StepRunner(s, e), e.p)
  {
  }

  lemma ResumerShape(s: State, e: Event)
    requires ResumerEvent(e)
    ensures HolderShape(s, StepResumer(s, e), e.p)
  {
  }

  lemma HolderHasShape(s: State, e: Event)
    requires HolderEvent(e)
    ensures HolderShape(s, StepHolder(s, e), e.p)
  {
    hide StepRunner, StepResumer;
    if ResumerEvent(e) { ResumerShape(s, e); }
    else if e.StartRun? || e.RouteRun? || e.PauseRun? { ReaderShape(s, e); }
    else { WriterShape(s, e); }
  }

  /** A graph run stays one, and so does a resume. */
  lemma RunnersStayRunners(s: State, e: Event)
    requires RunnerEvent(e)
    ensures StepRunner(s, e) == s || (Running(s, e.p) && (e.p in StepRunner(s, e).procs ==> StepRunner(s, e).procs[e.p].Runner?))
  {
    hide FirstIn, RouteAfterDraft, InsertDraft, AutoSend, Classify, MarkAwaiting;
  }

  lemma ResumersStayResumers(s: State, e: Event)
    requires ResumerEvent(e)
    ensures StepResumer(s, e) == s
            || (e.p in s.procs && s.procs[e.p].Resumer? && (e.p in StepResumer(s, e).procs ==> StepResumer(s, e).procs[e.p].Resumer?))
  {
  }

  /** A sender's step changes no coroutine but its own, which does not become a lock
      holder. */
  predicate OwnProcOnly(s: State, s': State, p: ProcId) {
    && s'.procs - {p} == s.procs - {p}
    && (p in s'.procs && HoldsLock(s'.procs[p]) ==> p in s.procs && s.procs[p] == s'.procs[p])
  }

  lemma ClaimOwnProc(s: State, p: ProcId, d: DraftId)
    ensures OwnProcOnly(s, StepClaim(s, p, d), p)
  {
    hide Claim, ClaimWins;
  }

  lemma LoadOwnProc(s: State, p: ProcId, addressable: bool)
    ensures OwnProcOnly(s, StepLoad(s, p, addressable), p)
  {
    hide SendText;
  }

  lemma SendOwnProc(s: State, p: ProcId, outcome: Outcome)
    ensures OwnProcOnly(s, StepSend(s, p, outcome), p)
  {
  }

  lemma RecordOwnProc(s: State, p: ProcId)
    ensures OwnProcOnly(s, StepRecord(s, p), p)
  {
    hide RecordSent;
  }

  lemma SenderOwnProc(s: State, e: Event)
    requires SenderEvent(e)
    ensures OwnProcOnly(s, StepSender(s, e), e.p)
  {
    hide StepClaim, StepLoad, StepSend, StepRecord, OwnProcOnly;
    if e.ClaimDraft? { ClaimOwnProc(s, e.p, e.d); }
    else if e.LoadContext? { LoadOwnProc(s, e.p, e.addressable); }
    else if e.Send? { SendOwnProc(s, e.p, e.outcome); }
    else { RecordOwnProc(s, e.p); }
  }

  lemma OwnProcLeaves(s: State, s': State, q: ProcId, p: ProcId)
    requires OwnProcOnly(s, s', q) && p != q
    ensures p in s'.procs <==> p in s.procs
    ensures p in s.procs ==> s'.procs[p] == s.procs[p]
  {
    assert p in s'.procs - {q} <==> p in s.procs - {q};
    if p in s.procs { assert (s'.procs - {q})[p] == (s.procs - {q})[p]; }
  }

  lemma SenderKeepsHolders(s: State, e: Event, p: ProcId)
    requires SenderEvent(e)
    requires p in StepSender(s, e).procs && HoldsLock(StepSender(s, e).procs[p])
    ensures p in s.procs && s.procs[p] == StepSender(s, e).procs[p]
  {
    SenderOwnProc(s, e);
    if p != e.p { OwnProcLeaves(s, StepSender(s, e), e.p, p); }
    hide StepSender;
  }

  /** A lock holder after somebody else's step was there before, unchanged, unless
      the step was its own acquisition. */
  lemma OthersKeepHolder(s: State, e: Event, p: ProcId)
    requires !(HolderEvent(e) && e.p == p)
    requires p in Step(s, e).procs && HoldsLock(Step(s, e).procs[p])
    ensures (p in s.procs && s.procs[p] == Step(s, e).procs[p])
            || (e.Acquire? && Step(s, e).procs[p] == Begun(e.c, e.job))
  {
    hide StepWeb, StepSender, StepHolder;
    if WebEvent(e) { WebEventWrites(s, e); }
    else if HolderEvent(e) { HolderLeavesProc(s, e, p); }
    else if SenderEvent(e) { SenderKeepsHolders(s, e, p); }
  }

  // ----- a coroutine's locals are its own ---------------------------------------

  lemma HolderLeavesProc(s: State, e: Event, p: ProcId)
    requires HolderEvent(e) && e.p != p
    ensures p in StepHolder(s, e).procs <==> p in s.procs
    ensures p in s.procs ==> StepHolder(s, e).procs[p] == s.procs[p]
  {
    hide StepHolder;
    HolderHasShape(s, e);
    var s' := StepHolder(s, e);
    if Goes(s, s', e.p) { assert s'.procs == s.procs - {e.p}; }
  }

  lemma LockEventLeavesProc(s: State, e: Event, p: ProcId)
    requires (e.Acquire? || e.Crash?) && e.p != p
    ensures p in Step(s, e).procs <==> p in s.procs
    ensures p in s.procs ==> Step(s, e).procs[p] == s.procs[p]
  {
    hide StepWeb, StepSender, StepHolder;
  }

  lemma OthersLeaveProc(s: State, e: Event, p: ProcId)
    requires !ActsAs(e, p)
    ensures p in Step(s, e).procs <==> p in s.procs
    ensures p in s.procs ==> Step(s, e).procs[p] == s.procs[p]
  {
    hide StepWeb, StepSender, StepHolder, OwnProcOnly;
    if HolderEvent(e) { HolderLeavesProc(s, e, p); }
    else if WebEvent(e) { WebEventWrites(s, e); }
    else if SenderEvent(e) { SenderOwnProc(s, e); OwnProcLeaves(s, StepSender(s, e), e.p, p); }
    else { LockEventLeavesProc(s, e, p); }
  }

  lemma HolderKeepsLocks(s: State, e: Event)
    requires LockInv(s) && HolderEvent(e)
    ensures LockInv(StepHolder(s, e))
  {
    HolderHasShape(s, e);
    HolderTablesGrow(s, e);
    hide StepHolder, HolderShape, LockInv, TablesGrow;
    ShapeKeepsLocks(s, StepHolder(s, e), e.p);
  }

  lemma HolderTablesGrow(s: State, e: Event)
    requires HolderEvent(e)
    ensures TablesGrow(s.db, StepHolder(s, e).db)
  {
    hide StepHolder, DraftsMove, SameCaseIdentity;
    OtherEventQuiet(s, e);
  }

  lemma ShapeKeepsLocks(s: State, s': State, p: ProcId)
    requires LockInv(s) && HolderShape(s, s', p) && TablesGrow(s.db, s'.db)
    ensures LockInv(s')
  {
    var s1 := s.(db := s'.db, threads := s'.threads);
    WriteKeepsLocks(s, s'.db);
    assert LockInv(s1);
    hide LockInv, TablesGrow, Retire;
    if Stays(s, s', p) { MoveKeepsLocks(s1, p, s'.procs[p]); }
    else if Goes(s, s', p) { RetireKeepsLocks(s1, p); }
  }

  lemma SenderKeepsLocks(s: State, e: Event)
    requires LockInv(s) && SendInv(s) && SenderEvent(e)
    ensures LockInv(StepSender(s, e))
  {
    hide StepClaim, StepLoad, StepSend, StepRecord, LockInv, SendInv, TablesGrow;
    match e
    case ClaimDraft(p, d) => ClaimKeepsLocks(s, p, d);
    case LoadContext(p, addressable) => LoadKeepsLocks(s, p, addressable);
    case Send(p, outcome) => SendKeepsLocks(s, p, outcome);
    case Record(p) =>
      RecordEnds(s, p);
      if StepRecord(s, p) != s { EndKeepsLocks(s, p, StepRecord(s, p)); }
  }

  lemma StepKeepsLocks(s: State, e: Event)
    requires LockInv(s) && SendInv(s)
    ensures LockInv(Step(s, e))
  {
    hide StepWeb, StepSender, StepHolder, LockInv, SendInv;
    if WebEvent(e) {
      WebEventWrites(s, e);
      WriteKeepsLocks(s, StepWeb(s, e).db);
    } else if HolderEvent(e) {
      HolderKeepsLocks(s, e);
    } else if SenderEvent(e) {
      SenderKeepsLocks(s, e);
    } else if e.Acquire? {
      AcquireKeepsLocks(s, e.p, e.c, e.job);
    } else if e.p in s.procs {
      RetireKeepsLocks(s, e.p);
    }
  }

  lemma {:induction false} RunKeepsLocks(s: State, es: seq<Event>)
    requires LockInv(s) && SendInv(s)
    ensures LockInv(Run(s, es)) && SendInv(Run(s, es))
  {
    if es != [] {
      RunKeepsLocks(s, es[..|es| - 1]);
      StepKeepsLocks(Run(s, es[..|es| - 1]), es[|es| - 1]);
      StepKeepsSendInv(Run(s, es[..|es| - 1]), es[|es| - 1]);
    }
  }

  /** At most one coroutine holds the lock of a case, and two cases whose ids share
      their low 64 bits exclude each other too. A lock that is taken has a living
      holder: no crash leaks one. */
  lemma OneHolderPerKey(settings: Settings, now: Time, es: seq<Event>, p: ProcId, q: ProcId)
    requires var s := Run(Initial(settings, now), es);
             && p in s.procs && q in s.procs && HoldsLock(s.procs[p]) && HoldsLock(s.procs[q])
             && s.procs[p].caseId < |s.db.cases| && s.procs[q].caseId < |s.db.cases|
             && s.db.cases[s.procs[p].caseId].uuid % 0x1_0000_0000_0000_0000
                == s.db.cases[s.procs[q].caseId].uuid % 0x1_0000_0000_0000_0000
    ensures p == q
    ensures forall k :: k in Run(Initial(settings, now), es).locks ==>
              Run(Initial(settings, now), es).locks[k] in Run(Initial(settings, now), es).procs
  {
    InitialSendInv(settings, now);
    RunKeepsLocks(Initial(settings, now), es);
  }
}
