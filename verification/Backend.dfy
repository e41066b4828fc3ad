/** The backend as one mutable object: its tables, the paused threads, the lock
    table and the coroutines in flight are fields that each transaction updates in
    place. Every method is proved to be a step, or a sequence of steps, of the
    state machine in `Protocol`, whatever other coroutines do while it awaits; so
    every theorem about runs holds of it. */
module BackendObject {
  import opened Vocabulary
  import opened TrustLadder
  import opened Tables
  import opened CaseLifecycle
  import opened Transactions
  import opened LifeCycle
  import opened DueQuery
  import opened Interleavings
  import P = Protocol
  import Histories
  import LockSafety
  import DecisionSeam
  import SweepSafety
  import SendSafety
  import Interrupts
  import Deliveries
  import Outcomes

  /** What every reachable state satisfies. */
  ghost predicate Sound(s: P.State) {
    DecisionSeam.SeamInv(s) && SweepSafety.ResolvedClean(s.db)
  }

  lemma RunKeepsSound(s: P.State, es: seq<P.Event>)
    requires Sound(s)
    ensures Sound(P.Run(s, es))
  {
    DecisionSeam.RunKeepsSeam(s, es);
    SweepSafety.RunKeepsClean(s, es);
  }

  // ----- what one sender coroutine did in a trace ------------------------------

  predicate IsClaimBy(e: P.Event, p: ProcId) { e.ClaimDraft? && e.p == p }

  /** Claims by `p` that won, along the run of `trace` from `s`. */
  function WonClaims(s: P.State, trace: seq<P.Event>, p: ProcId): nat {
    if trace == [] then 0
    else
      var before, e := P.Run(s, trace[..|trace| - 1]), trace[|trace| - 1];
      WonClaims(s, trace[..|trace| - 1], p)
      + (if IsClaimBy(e, p) && p !in before.procs && ClaimWins(before.db, e.d) then 1 else 0)
  }

  lemma {:induction false} WonConcat(s: P.State, a: seq<P.Event>, b: seq<P.Event>, p: ProcId)
    ensures WonClaims(s, a + b, p) == WonClaims(s, a, p) + WonClaims(P.Run(s, a), b, p)
  {
    if b == [] {
      assert a + b == a;
    } else {
      var init := b[..|b| - 1];
      assert (a + b)[..|a + b| - 1] == a + init;
      WonConcat(s, a, init, p);
      RunConcat(s, a, init);
    }
  }

  lemma {:induction false} NoClaimsWonBy(s: P.State, es: seq<P.Event>, p: ProcId)
    requires forall i :: 0 <= i < |es| ==> !IsClaimBy(es[i], p)
    ensures WonClaims(s, es, p) == 0
  {
    if es != [] { NoClaimsWonBy(s, es[..|es| - 1], p); }
  }

  /** One attempt of a tick: others, one claim, and what follows a won claim. */
  lemma AttemptWins(s: P.State, gap: seq<P.Event>, p: ProcId, d: DraftId, steps: seq<P.Event>)
    requires ByOthers(gap, p) && p !in P.Run(s, gap).procs
    requires forall i :: 0 <= i < |steps| ==> !IsClaimBy(steps[i], p)
    ensures WonClaims(s, gap + [P.ClaimDraft(p, d)] + steps, p) == if ClaimWins(P.Run(s, gap).db, d) then 1 else 0
  {
    var claim := [P.ClaimDraft(p, d)];
    assert claim[..0] == [];
    WonConcat(s, gap + claim, steps, p);
    WonConcat(s, gap, claim, p);
    NoClaimsWonBy(s, gap, p);
    NoClaimsWonBy(P.Run(s, gap + claim), steps, p);
  }

  lemma DeliveryClaimsNothing(s: P.State, p: ProcId, w: Delivery, trace: seq<P.Event>, raised: bool)
    requires WorldOf(w, p) && DeliverySteps(s, p, w, trace, raised)
    ensures forall i :: 0 <= i < |trace| ==> !IsClaimBy(trace[i], p)
  {
  }

  /** An answer is true of the tables as of the moment it returns. "Not awaiting
      approval" escapes only if the draft is not pending, and a normal return for a
      recognised action means that its draft is decided as asked or that nothing on
      the case is left to decide. */
  ghost predicate Truthful(db: Db, r: Resolution, c: CaseId, d: DraftId, dec: Decision) {
    match r
    case Done => dec.action != Unrecognised ==> DecisionSeam.DecidedOn(db, d, dec) || DecisionSeam.NoOpen(db, c)
    case DraftIsStale(current) => PendingOf(db, c) == current != Some(d)
    case NotAwaiting => PendingOf(db, c) != Some(d)
    case BadAction => dec.action == Unrecognised
    case LockTimeout => true
    case NoSuchCase => c >= |db.cases|
  }

  /** The lock is free and `d` is the case's pending draft. */
  predicate FreeToDecide(s: P.State, c: CaseId, d: DraftId) {
    c < |s.db.cases| && P.KeyOf(s, c) !in s.locks && PendingOf(s.db, c) == Some(d)
  }

  /** A decision nobody interfered with: a recognised action always decides its
      draft and changes no other, whatever the case's status and whether or not
      there is an interrupt; an unrecognised one decides nothing, and is reported
      unless it met a live interrupt, which it consumes. */
  predicate DecisionAlone(s: P.State, s': P.State, r: Resolution, c: CaseId, d: DraftId, dec: Decision) {
    c < |s.db.cases| &&
    if dec.action != Unrecognised then
      r == Done && DecisionSeam.DecidedOn(s'.db, d, dec) && Outcomes.OnlyRow(s.db.drafts, s'.db.drafts, d)
    else if s.db.cases[c].status == AwaitingApproval && c in s.threads then
      r == Done && s'.db == s.db && c !in s'.threads
    else r == BadAction && s' == s
  }

  /** What a direct write promises; `None` means the lock was taken. */
  ghost predicate DirectPost(s: P.State, s': P.State, r: Option<Resolution>, c: CaseId, d: DraftId, dec: Decision) {
    && (r.Some? ==> Truthful(s'.db, r.value, c, d, dec) && r.value != NotAwaiting)
    && (FreeToDecide(s, c, d) ==>
          r.Some?
          && if dec.action == Unrecognised then r.value == BadAction && s' == s
             else r.value == Done && DecisionSeam.DecidedOn(s'.db, d, dec) && Outcomes.OnlyRow(s.db.drafts, s'.db.drafts, d))
  }

  /** What a resume promises; alone, it is refused exactly when there is no live
      interrupt. */
  ghost predicate ResumePost(s: P.State, s': P.State, r: Resolution, alone: bool, c: CaseId, d: DraftId, dec: Decision) {
    && (if r.NotAwaiting? then PendingOf(s'.db, c) == Some(d) && c !in s'.threads
        else Truthful(s'.db, r, c, d, dec) && !r.NoSuchCase? && !r.BadAction?)
    && (alone && FreeToDecide(s, c, d) ==>
          if c in s.threads then
            r == Done && s'.db == ApplyDecision(s.db, c, d, dec) && (dec.action == Unrecognised ==> c !in s'.threads)
          else r == NotAwaiting && s' == s)
  }

  /** What the resume-or-fall-through half promises; `None` is the trap: no
      interrupt, yet the draft is pending. */
  ghost predicate TrapPost(s: P.State, s': P.State, r: Option<Resolution>, alone: bool, c: CaseId, d: DraftId, dec: Decision) {
    && (r.Some? ==> Truthful(s'.db, r.value, c, d, dec))
    && (alone && FreeToDecide(s, c, d) ==>
          if r.Some? then c in s.threads && r.value == Done && s'.db == ApplyDecision(s.db, c, d, dec)
                          && (dec.action == Unrecognised ==> c !in s'.threads)
          else c !in s.threads && s' == s)
  }

  ghost predicate DecisionPost(s: P.State, s': P.State, r: Resolution, alone: bool, c: CaseId, d: DraftId, dec: Decision) {
    && Truthful(s'.db, r, c, d, dec)
    && (alone && FreeToDecide(s, c, d) ==> DecisionAlone(s, s', r, c, d, dec))
  }

  lemma TrapClosed(s: P.State, s1: P.State, s': P.State, r: Resolution, ended: Option<Resolution>, alone: bool, c: CaseId,
                   d: DraftId, dec: Decision)
    requires ResumePost(s, s1, r, alone, c, d, dec)
    requires r != NotAwaiting || alone ==> s' == s1
    requires ended == if r == NotAwaiting && PendingOf(s'.db, c) == Some(d) then None else Some(r)
    ensures TrapPost(s, s', ended, alone, c, d, dec)
  {
  }

  lemma ResumedPost(s: P.State, s': P.State, r: Option<Resolution>, alone: bool, c: CaseId, d: DraftId, dec: Decision)
    requires TrapPost(s, s', r, alone, c, d, dec) && r.Some?
    requires alone && c < |s.db.cases| ==> s.db.cases[c].status == AwaitingApproval
    ensures DecisionPost(s, s', r.value, alone, c, d, dec)
  {
  }

  lemma DirectDecides(s: P.State, c: CaseId, d: DraftId, dec: Decision)
    requires FreeToDecide(s, c, d) && dec.action != Unrecognised
    ensures var s' := P.StepFinalize(s, c, d, dec);
            DecisionSeam.DecidedOn(s'.db, d, dec) && Outcomes.OnlyRow(s.db.drafts, s'.db.drafts, d)
  {
    hide FirstIn;
  }

  lemma DirectRefuses(s: P.State, c: CaseId, d: DraftId, dec: Decision)
    requires LockTaken(s, c) || PendingOf(s.db, c) != Some(d) || dec.action == Unrecognised
    ensures P.StepFinalize(s, c, d, dec) == s
  {
    hide FirstIn, ApplyDecision;
  }

  /** One try of the direct write keeps that promise. */
  lemma WroteDirectly(s: P.State, s': P.State, r: Option<Resolution>, c: CaseId, d: DraftId, dec: Decision)
    requires s' == P.Step(s, P.FinalizeNeverPaused(c, d, dec))
    requires c < |s.db.cases| && (r.None? <==> LockTaken(s, c))
    requires r.Some? ==> r.value == if PendingOf(s.db, c) != Some(d) then DraftIsStale(PendingOf(s.db, c))
                                    else if dec.action == Unrecognised then BadAction else Done
    ensures DirectPost(s, s', r, c, d, dec)
  {
    assert s' == P.StepFinalize(s, c, d, dec);
    if r == Some(Done) { DirectDecides(s, c, d, dec); } else { DirectRefuses(s, c, d, dec); }
    hide PendingOf, P.StepFinalize, P.Step, DecisionSeam.DecidedOn, Outcomes.OnlyRow;
  }

  /** A try that found the lock taken, then another. */
  lemma RetriedPost(s: P.State, s1: P.State, s2: P.State, s': P.State, r: Option<Resolution>, c: CaseId, d: DraftId,
                    dec: Decision)
    requires DirectPost(s, s1, None, c, d, dec) && DirectPost(s2, s', r, c, d, dec)
    ensures DirectPost(s, s', r, c, d, dec)
  {
  }

  /** `s1` is the state the direct write started from: the first one, unless a
      resume was tried and fell through. */
  lemma WrittenPost(s: P.State, s1: P.State, s': P.State, r: Option<Resolution>, status: CaseStatus, alone: bool, c: CaseId,
                    d: DraftId, dec: Decision)
    requires DirectPost(s1, s', r, c, d, dec)
    requires alone && c < |s.db.cases| ==> s.db.cases[c].status == status
    requires if status == AwaitingApproval then TrapPost(s, s1, None, alone, c, d, dec) else s1 == s
    ensures DecisionPost(s, s', if r.Some? then r.value else LockTimeout, alone, c, d, dec)
  {
  }

  lemma NoSuchCasePost(s: P.State, c: CaseId, d: DraftId, dec: Decision, alone: bool)
    ensures c >= |s.db.cases| ==> DecisionPost(s, s, NoSuchCase, alone, c, d, dec)
  {
  }

  lemma PeekedPost(s: P.State, s1: P.State, s': P.State, r: Resolution, alone: bool, c: CaseId, d: DraftId, dec: Decision)
    requires DecisionPost(s1, s', r, alone, c, d, dec) && (alone ==> s1 == s)
    ensures DecisionPost(s, s', r, alone, c, d, dec)
  {
  }

  /** What locking and checking promise. */
  ghost predicate CheckPost(s: P.State, s': P.State, refusal: Option<Resolution>, alone: bool, p: ProcId, c: CaseId,
                            d: DraftId, dec: Decision) {
    && (if refusal.None? then P.Resuming(s', p, P.Replaying) && s'.procs[p] == P.Resumer(c, d, dec, P.Replaying)
        else p !in s'.procs
             && match refusal.value
                case DraftIsStale(current) => PendingOf(s'.db, c) == current != Some(d)
                case NotAwaiting => PendingOf(s'.db, c) == Some(d) && c !in s'.threads
                case LockTimeout => true
                case _ => false)
    && (alone && FreeToDecide(s, c, d) ==>
          && s'.db == s.db && s'.threads == s.threads
          && (if c in s.threads then refusal == None else refusal == Some(NotAwaiting) && s' == s))
  }

  /** A refusal is the answer of the resume. */
  lemma RefusedPost(s: P.State, s': P.State, refusal: Resolution, alone: bool, p: ProcId, c: CaseId, d: DraftId, dec: Decision)
    requires CheckPost(s, s', Some(refusal), alone, p, c, d, dec)
    ensures ResumePost(s, s', refusal, alone, c, d, dec)
    ensures p !in s'.procs && refusal != Done && refusal != NoSuchCase && refusal != BadAction
  {
    hide PendingOf, ApplyDecision;
  }

  /** Checked in `s1`, and replayed from there. */
  lemma ReplayedPost(s: P.State, s1: P.State, s': P.State, alone: bool, p: ProcId, c: CaseId, d: DraftId, dec: Decision)
    requires CheckPost(s, s1, None, alone, p, c, d, dec)
    requires dec.action != Unrecognised ==> DecisionSeam.DecidedOn(s'.db, d, dec) || DecisionSeam.NoOpen(s'.db, c)
    requires alone && PendingOf(s1.db, c) == Some(d) ==>
               s'.db == ApplyDecision(s1.db, c, d, dec) && (dec.action == Unrecognised ==> c !in s'.threads)
    ensures ResumePost(s, s', Done, alone, c, d, dec)
  {
    hide PendingOf, ApplyDecision, DecisionSeam.DecidedOn;
  }

  /** What the finalize node leaves of a case on which nothing but `d` could still be
      decided. */
  lemma SettledIsDecided(db: Db, db': Db, c: CaseId, d: DraftId, dec: Decision)
    requires DecisionSeam.Settled(db, c, d) && c < |db.cases|
    requires match PendingOf(db, c)
             case None => db' == db
             case Some(x) => db' == ApplyDecision(db, c, x, dec)
    ensures dec.action != Unrecognised ==> DecisionSeam.DecidedOn(db', d, dec) || DecisionSeam.NoOpen(db', c)
    ensures PendingOf(db, c) == Some(d) ==> db' == ApplyDecision(db, c, d, dec)
  {
    hide RecordRejection, FirstIn;
  }

  lemma SliceOff(a: seq<P.Event>, b: seq<P.Event>)
    ensures a <= a + b && (a + b)[|a|..] == b
  {
  }

  lemma TimeoutPost(s: P.State, s': P.State, alone: bool, p: ProcId, c: CaseId, d: DraftId, dec: Decision)
    requires p !in s'.procs && c < |s.db.cases| && P.KeyOf(s, c) in s.locks
    ensures CheckPost(s, s', Some(LockTimeout), alone, p, c, d, dec)
  {
  }

  lemma CheckedAlone(s: P.State, p: ProcId, c: CaseId, d: DraftId, dec: Decision)
    requires c < |s.db.cases| && p !in s.procs && FreeToDecide(s, c, d)
    ensures var s' := P.Step(P.Step(s, P.Acquire(p, c, P.Resume(d, dec))), P.CheckResume(p));
            s'.db == s.db && s'.threads == s.threads && (c !in s.threads ==> s' == s)
  {
    hide PendingOf, P.Step;
    P.AcquireIs(s, p, c, P.Resume(d, dec));
    P.CheckIs(P.StepAcquire(s, p, c, P.Resume(d, dec)), p);
    var k := P.KeyOf(s, c);
    assert s.locks[k := p] - {k} == s.locks;
    assert s.procs[p := P.Resumer(c, d, dec, P.Checking)] - {p} == s.procs;
  }

  /** The check runs in `s1`; alone, that is `s` with the lock taken. */
  lemma CheckedPost(s: P.State, s1: P.State, s': P.State, refusal: Option<Resolution>, alone: bool, p: ProcId, c: CaseId,
                    d: DraftId, dec: Decision)
    requires c < |s.db.cases| && p !in s.procs
    requires P.Resuming(s1, p, P.Checking) && s1.procs[p] == P.Resumer(c, d, dec, P.Checking)
    requires s' == P.Step(s1, P.CheckResume(p))
    requires refusal == if PendingOf(s1.db, c) != Some(d) then Some(DraftIsStale(PendingOf(s1.db, c)))
                        else if c !in s1.threads then Some(NotAwaiting) else None
    requires alone && P.KeyOf(s, c) !in s.locks ==> s1 == P.Step(s, P.Acquire(p, c, P.Resume(d, dec)))
    ensures CheckPost(s, s', refusal, alone, p, c, d, dec)
  {
    hide PendingOf, P.Step;
    P.CheckIs(s1, p);
    if alone && FreeToDecide(s, c, d) { CheckedAlone(s, p, c, d, dec); }
  }

  /** The state is where `trace` leads from `s0`. */
  ghost predicate Leads(s0: P.State, trace: seq<P.Event>, s: P.State) {
    Sound(s0) && s == P.Run(s0, trace)
  }

  /** `actions` lists, in table order, exactly the transitions due in `snapshot`. */
  ghost predicate DueActions(snapshot: seq<Case>, at: Time, actions: seq<(CaseId, Leg)>) {
    && (forall i :: 0 <= i < |actions| ==>
          actions[i].0 < |snapshot| && TimeTransition(snapshot[actions[i].0], at) == Some(actions[i].1))
    && (forall i, j :: 0 <= i < j < |actions| ==> actions[i].0 < actions[j].0)
    && (forall c, leg :: 0 <= c < |snapshot| && TimeTransition(snapshot[c], at) == Some(leg) ==> (c, leg) in actions)
  }

  lemma ListedWhenDue(snapshot: seq<Case>, at: Time, actions: seq<(CaseId, Leg)>, c: CaseId, leg: Leg)
    requires DueActions(snapshot, at, actions) && c < |snapshot|
    ensures (c, leg) in actions <==> DueFor(snapshot[c], leg, at)
  {
    DueWhen(snapshot[c], leg, at);
    hide TimeTransition, DueFor;
  }

  lemma FewActions(snapshot: seq<Case>, at: Time, actions: seq<(CaseId, Leg)>)
    requires DueActions(snapshot, at, actions)
    ensures |actions| <= |snapshot|
  {
    if actions != [] { IncreasingBelow(actions, |actions| - 1); }
  }

  lemma {:induction false} IncreasingBelow(actions: seq<(CaseId, Leg)>, i: nat)
    requires i < |actions| && forall i, j :: 0 <= i < j < |actions| ==> actions[i].0 < actions[j].0
    ensures i <= actions[i].0
  {
    if i > 0 { IncreasingBelow(actions, i - 1); }
  }

  /** The first `n` cases of `actions` are resolved with nothing left to decide. */
  ghost predicate AllSettled(db: Db, actions: seq<(CaseId, Leg)>, n: nat)
    requires n <= |actions|
  {
    forall i :: 0 <= i < n ==> SweepSafety.AtRest(db, actions[i].0)
  }

  /** The cases of `actions` from `n` on are as in the snapshot. */
  ghost predicate Untouched(snapshot: seq<Case>, cases: seq<Case>, actions: seq<(CaseId, Leg)>, n: nat)
    requires n <= |actions|
  {
    forall i :: n <= i < |actions| ==>
      actions[i].0 < |snapshot| && actions[i].0 < |cases| && cases[actions[i].0] == snapshot[actions[i].0]
  }

  ghost predicate Progress(snapshot: seq<Case>, db: Db, actions: seq<(CaseId, Leg)>, n: nat)
    requires n <= |actions|
  {
    AllSettled(db, actions, n) && Untouched(snapshot, db.cases, actions, n)
  }

  predicate Quietly(gaps: seq<seq<P.Event>>) { forall i :: 0 <= i < |gaps| ==> gaps[i] == [] }

  lemma QuietAt(gaps: seq<seq<P.Event>>, i: nat)
    requires i < |gaps|
    ensures Quietly(gaps) ==> gaps[i] == []
  {
  }

  /** What a sweep has done after `n` actions. */
  ghost predicate SweptSoFar(quiet: bool, snapshot: seq<Case>, db: Db, applied: seq<(CaseId, Leg)>,
                             actions: seq<(CaseId, Leg)>, n: nat)
    requires n <= |actions|
  {
    && (forall a :: a in applied ==> a in actions)
    && (quiet ==> applied == actions[..n] && Progress(snapshot, db, actions, n))
  }

  /** What a sweep returns: only actions that were due, and all of them, with every
      case at rest, if nobody interfered. */
  ghost predicate SweepResult(quiet: bool, db: Db, applied: seq<(CaseId, Leg)>, actions: seq<(CaseId, Leg)>) {
    && (forall a :: a in applied ==> a in actions)
    && (quiet ==> applied == actions && AllSettled(db, actions, |actions|))
  }

  lemma StartSettled(quiet: bool, snapshot: seq<Case>, db: Db, at: Time, actions: seq<(CaseId, Leg)>)
    requires DueActions(snapshot, at, actions) && db.cases == snapshot
    ensures SweptSoFar(quiet, snapshot, db, [], actions, 0)
  {
  }

  lemma SweptOneMore(quiet: bool, snapshot: seq<Case>, before: Db, db: Db, db': Db, at: Time, applied: seq<(CaseId, Leg)>,
                     actions: seq<(CaseId, Leg)>, i: nat, done: bool)
    requires DueActions(snapshot, at, actions) && i < |actions| && actions[i].0 < |db.cases|
    requires SweptSoFar(quiet, snapshot, before, applied, actions, i) && (quiet ==> db == before)
    requires SweepSafety.SweepOutcome(db, db', actions[i].0, actions[i].1, at)
    requires done <==> TimeTransition(db.cases[actions[i].0], at) == Some(actions[i].1)
    ensures SweptSoFar(quiet, snapshot, db', if done then applied + [actions[i]] else applied, actions, i + 1)
  {
    OneMoreSettled(snapshot, db, db', at, actions, i);
  }

  lemma SweptAll(quiet: bool, snapshot: seq<Case>, db: Db, applied: seq<(CaseId, Leg)>, actions: seq<(CaseId, Leg)>)
    requires SweptSoFar(quiet, snapshot, db, applied, actions, |actions|)
    ensures SweepResult(quiet, db, applied, actions)
  {
    assert actions[..|actions|] == actions;
  }

  lemma ActionInRange(snapshot: seq<Case>, at: Time, actions: seq<(CaseId, Leg)>, i: nat)
    requires DueActions(snapshot, at, actions) && i < |actions|
    ensures actions[i].0 < |snapshot|
  {
  }

  lemma OneMoreSettled(snapshot: seq<Case>, db: Db, db': Db, at: Time, actions: seq<(CaseId, Leg)>, i: nat)
    requires DueActions(snapshot, at, actions) && i < |actions| && actions[i].0 < |db.cases|
    requires SweepSafety.SweepOutcome(db, db', actions[i].0, actions[i].1, at)
    ensures Progress(snapshot, db, actions, i) ==>
              TimeTransition(db.cases[actions[i].0], at) == Some(actions[i].1) && Progress(snapshot, db', actions, i + 1)
  {
    if Progress(snapshot, db, actions, i) {
      forall k | 0 <= k < i ensures SweepSafety.AtRest(db', actions[k].0) {
        assert SweepSafety.AtRest(db, actions[k].0);
      }
    }
  }

  class Backend {
    const settings: P.Settings
    var now: Time
    var drafts: seq<Draft>
    var cases: seq<Case>
    var messages: seq<Message>
    var links: set<(MessageId, CaseId)>
    var ledger: Ledger
    var audit: seq<AuditEntry>
    var threads: map<CaseId, DraftId>
    var locks: map<nat, ProcId>
    var procs: map<ProcId, P.Proc>
    var claims: seq<P.ClaimRecord>
    var sends: seq<P.SendRecord>

    constructor (settings: P.Settings, now: Time)
      ensures State() == P.Initial(settings, now)
    {
      this.settings, this.now := settings, now;
      drafts, cases, messages, links, ledger, audit := [], [], [], {}, EMPTY_LEDGER, [];
      threads, locks, procs, claims, sends := map[], map[], map[], [], [];
    }

    function Tables(): Db
      reads this`now, this`drafts, this`cases, this`messages, this`links, this`ledger, this`audit
    {
      Db(now, drafts, cases, messages, links, ledger, audit)
    }

    function State(): P.State
      reads this
    {
      P.State(settings, Tables(), threads, locks, procs, claims, sends)
    }

    // ----- interference -------------------------------------------------------

    method Await(others: seq<P.Event>)
      modifies this
      ensures State() == P.Run(old(State()), others)
    {
      var i := 0;
      assert others[..0] == [];
      while i < |others|
        invariant 0 <= i <= |others|
        invariant State() == P.Run(old(State()), others[..i])
      {
        Histories.SettingsStay(State(), others[i]);
        Interrupts.RunPrefix(old(State()), others, i);
        Adopt(P.Step(State(), others[i]));
        i := i + 1;
      }
      assert others[..|others|] == others;
    }

    method Adopt(s: P.State)
      requires s.settings == settings
      modifies this
      ensures State() == s
    {
      AdoptTables(s.db);
      threads, locks, procs, claims, sends := s.threads, s.locks, s.procs, s.claims, s.sends;
    }

    method AdoptTables(db: Db)
      modifies this`now, this`drafts, this`cases, this`messages, this`links, this`ledger, this`audit
      ensures Tables() == db
    {
      now, drafts, cases, messages := db.now, db.drafts, db.cases, db.messages;
      links, ledger, audit := db.links, db.ledger, db.audit;
    }

    // ----- the sender ---------------------------------------------------------

    /** The two EXISTS subqueries of the claim, as one scan of `messages`. */
    method HasNewerInbound(c: CaseId, since: Time, tenantOnly: bool) returns (found: bool)
      ensures found <==> exists m :: 0 <= m < |messages| && LinkedTo(Tables(), m, c) && messages[m].direction == Inbound
                                     && (tenantOnly ==> messages[m].party == Tenant) && messages[m].createdAt > since
    {
      found := false;
      var m := 0;
      while m < |messages|
        invariant 0 <= m <= |messages|
        invariant found <==> exists k :: 0 <= k < m && LinkedTo(Tables(), k, c) && messages[k].direction == Inbound
                                         && (tenantOnly ==> messages[k].party == Tenant) && messages[k].createdAt > since
      {
        if LinkedTo(Tables(), m, c) && messages[m].direction == Inbound && (tenantOnly ==> messages[m].party == Tenant)
           && messages[m].createdAt > since
        {
          found := true;
        }
        m := m + 1;
      }
    }

    method CancelAndAuditSuperseded(d: DraftId, superseded: bool) returns (cancelled: bool)
      requires d < |drafts|
      modifies this
      ensures cancelled <==> superseded && old(drafts)[d].status == Approved
      ensures !cancelled ==> State() == old(State())
      ensures cancelled ==>
                State() == P.WithDb(old(State()),
                  Audited(old(Tables()).(drafts := old(drafts)[d := CancelledRow(old(drafts)[d], old(now))]),
                          Some(old(drafts)[d].caseId), SendCancelled({d})))
    {
      cancelled := superseded && drafts[d].status == Approved;
      if cancelled {
        audit := audit + [AuditEntry(Some(drafts[d].caseId), SendCancelled({d}), now)];
        drafts := drafts[d := CancelledRow(drafts[d], now)];
      }
    }

    /** The claim itself: one conditional UPDATE. */
    method TryClaim(p: ProcId, d: DraftId, newer: bool, newerTenant: bool) returns (won: bool)
      requires p !in procs && d < |drafts|
      requires newer <==> NewerInbound(Tables(), drafts[d])
      requires newerTenant <==> NewerTenantInbound(Tables(), drafts[d])
      modifies this
      ensures won <==> ClaimWins(old(Tables()), d)
      ensures !won ==> State() == old(State())
      ensures won ==> State() == P.StepClaim(old(State()), p, d)
      ensures won ==> d < |drafts| && p in procs && procs[p] == P.Claimed(d, drafts[d])
    {
      var row := drafts[d];
      var resolved := row.caseId < |cases| && cases[row.caseId].status == Resolved;
      won := row.status == Approved && row.scheduledSendAt.Some? && row.scheduledSendAt.value <= now
             && (!row.autoSend || !newer) && (row.approvedVia != Some(Sms) || !newerTenant) && !resolved;
      if won {
        claims := claims + [P.ClaimRecord(d, Tables())];
        drafts := drafts[d := row.(status := Sending, updatedAt := now)];
        procs := procs[p := P.Claimed(d, drafts[d])];
      }
    }

    /** `_claim_draft`: if the claim matches nothing the two cancel statements are
        tried in turn. No path leaves an approved, due draft of an unresolved case
        behind. */
    method ClaimDraft(p: ProcId, d: DraftId) returns (claimed: Option<Draft>)
      requires p !in procs
      modifies this
      ensures State() == P.Step(old(State()), P.ClaimDraft(p, d))
      ensures claimed.Some? <==> ClaimWins(old(Tables()), d)
      ensures claimed.Some? ==> p in procs && procs[p] == P.Claimed(d, claimed.value)
      ensures claimed.None? ==> p !in procs
      ensures claimed.None? && d < |old(drafts)| ==>
                |drafts| == |old(drafts)|
                && (drafts[d].status == Cancelled
                    || !(drafts[d].status == Approved && Due(drafts[d], now) && !CaseIs(Tables(), drafts[d].caseId, Resolved)))
      ensures d < |old(drafts)| ==>
                && (claimed.Some? <==> Outcomes.Claims(old(Tables()), old(drafts)[d]))
                && Outcomes.ClaimTried(old(Tables()), Tables(), d)
    {
      if d < |drafts| { Outcomes.ClaimDecides(Tables(), d); }
      P.ClaimIs(State(), p, d);
      hide P.Step;
      if d >= |drafts| { return None; }
      var row := drafts[d];
      var newer := HasNewerInbound(row.caseId, row.createdAt, false);
      var newerTenant := HasNewerInbound(row.caseId, row.updatedAt, true);
      var won := TryClaim(p, d, newer, newerTenant);
      if won { return Some(drafts[d]); }
      var cancelled := CancelAndAuditSuperseded(d, row.autoSend && newer);
      if !cancelled {
        cancelled := CancelAndAuditSuperseded(d, row.approvedVia == Some(Sms) && newerTenant);
      }
      return None;
    }

    /** The empty-edit guard and the recipient reads. A refusal ends the coroutine
        and leaves the row in `sending`. */
    method LoadContext(p: ProcId, addressable: bool) returns (ready: bool)
      requires p in procs && procs[p].Claimed?
      modifies this`procs
      ensures State() == P.Step(old(State()), P.LoadContext(p, addressable))
      ensures var row := old(procs)[p].row;
              && (ready <==> addressable && row.caseId < |cases|
                             && (row.edited ==> row.finalBody.Some? && row.finalBody.value != ""))
              && (ready ==> p in procs && procs[p].Ready? && procs[p].draft == old(procs)[p].draft
                            && procs[p].text == if row.edited then row.finalBody.value else row.body)
      ensures !ready ==> p !in procs
    {
      P.LoadIs(State(), p, addressable);
      hide P.Step;
      var d, row := procs[p].draft, procs[p].row;
      if row.edited && (row.finalBody.None? || row.finalBody.value == "") {
        procs := procs - {p};
        return false;
      }
      var text := if row.edited then row.finalBody.value else row.body;
      if row.caseId >= |cases| || !addressable {
        procs := procs - {p};
        return false;
      }
      procs := procs[p := P.Ready(d, row, text, cases[row.caseId].property, cases[row.caseId].severity)];
      return true;
    }

    /** The one irreversible call. */
    method SendSms(p: ProcId, outcome: P.Outcome) returns (delivered: bool)
      requires p in procs && procs[p].Ready?
      modifies this
      ensures State() == P.Step(old(State()), P.Send(p, outcome))
      ensures delivered <==> outcome == P.Accepted
      ensures sends == old(sends) + (if outcome == P.RefusedCall then []
                                     else [P.SendRecord(old(procs)[p].draft, old(procs)[p].text)])
      ensures delivered ==> p in procs && procs[p].Delivered?
      ensures !delivered ==> p !in procs
    {
      P.SendIs(State(), p, outcome);
      hide P.Step;
      var ready := procs[p];
      if outcome != P.RefusedCall {
        sends := sends + [P.SendRecord(ready.draft, ready.text)];
      }
      if outcome == P.Accepted {
        procs := procs[p := P.Delivered(ready.draft, ready.row, ready.text, ready.property, ready.severity)];
        return true;
      }
      procs := procs - {p};
      return false;
    }

    method UpsertTrust(landlord: LandlordId, key: Key, edited: bool)
      modifies this`ledger
      ensures ledger == UpsertSend(old(ledger), landlord, key, edited)
    {
      var row: Metrics;
      if key in ledger.rows {
        row := ledger.rows[key];
        if edited {
          row := row.(edited := row.edited + 1, consecutiveClean := 0);
        } else {
          row := row.(clean := row.clean + 1, consecutiveClean := row.consecutiveClean + 1);
        }
      } else if edited {
        row := Metrics(landlord, 0, 1, 0, 0, false, None, None);
      } else {
        row := Metrics(landlord, 1, 0, 0, 1, false, None, None);
      }
      ledger := Ledger(ledger.rows[key := row], ledger.log + [if edited then EditedSend(key) else CleanSend(key)]);
    }

    /** The graduation UPDATE; true when it matched. */
    method TryGraduate(property: PropertyId) returns (graduated: bool)
      modifies this`ledger
      ensures graduated == CanGraduate(old(ledger), property, settings.threshold)
      ensures ledger == Graduate(old(ledger), property, settings.threshold, now)
    {
      var key := (property, Routine);
      graduated := key in ledger.rows && ledger.rows[key].consecutiveClean >= settings.threshold && !ledger.rows[key].unlocked;
      if graduated {
        var row := ledger.rows[key].(unlocked := true, unlockedAt := Some(now), revokedAt := None);
        ledger := Ledger(ledger.rows[key := row], ledger.log + [Unlock(property)]);
      }
    }

    /** The statements of the final transaction, in order. */
    method WriteSent(d: DraftId, text: string, landlord: LandlordId, property: PropertyId, severity: Option<Severity>,
                     edited: bool)
      requires d < |drafts|
      modifies this`messages, this`drafts, this`cases, this`ledger, this`audit
      ensures Tables() == RecordSent(old(Tables()), d, text, landlord, property, severity, edited, settings.threshold)
      ensures Outcomes.SentOut(old(Tables()), Tables(), d, text, landlord, property, severity, edited, settings.threshold)
    {
      Outcomes.SentIsRecorded(Tables(), d, text, landlord, property, severity, edited, settings.threshold);
      hide Outcomes.SentOut;
      var c, m := drafts[d].caseId, |messages|;
      messages := messages + [Message(Outbound, Tenant, Some(c), text, now)];
      drafts := drafts[d := drafts[d].(status := Sent, sentMessage := Some(m), updatedAt := now)];
      if c < |cases| && cases[c].status != Resolved {
        cases := cases[c := cases[c].(status := AwaitingTenant, lastActivityAt := now)];
      }
      if severity.Some? {
        UpsertTrust(landlord, (property, severity.value), edited);
        if severity.value == Routine && !edited {
          var graduated := TryGraduate(property);
          if graduated {
            audit := audit + [AuditEntry(Some(c), TrustUnlocked, now)];
          }
        }
      }
      audit := audit + [AuditEntry(Some(c), DraftSent(d, m), now)];
    }

    /** The final transaction of a delivered draft. */
    method RecordSend(p: ProcId)
      requires p in procs && procs[p].Delivered? && procs[p].draft < |drafts|
      modifies this
      ensures State() == P.StepRecord(old(State()), p)
      ensures p !in procs
    {
      var row := procs[p].row;
      WriteSent(procs[p].draft, procs[p].text, row.landlord, procs[p].property, procs[p].severity, row.edited);
      procs := procs - {p};
    }

    ghost predicate Valid()
      reads this
    {
      Sound(State())
    }

    /** Others run while `p` awaits: `p`'s own locals are untouched. */
    method Yield(p: ProcId, others: seq<P.Event>)
      requires Valid() && ByOthers(others, p)
      modifies this
      ensures Valid() && State() == P.Run(old(State()), others)
      ensures p in procs <==> p in old(procs)
      ensures p in procs ==> procs[p] == old(procs)[p]
      ensures |old(cases)| <= |cases|
      ensures others == [] ==> State() == old(State())
    {
      Await(others);
      Histories.LogsOnlyGrow(old(State()), others);
      RunKeepsSound(old(State()), others);
      Deliveries.OthersLeaveProcAll(old(State()), others, p);
    }

    /** `_process_claimed_draft`: load, send, record, with anything at all happening
        in between. The draft goes out exactly when its row can be sent and Twilio takes
        the call, with the landlord's text if it is edited; it is `sent` in the end
        exactly when the final write went through, whose failure is the one error. */
    method ProcessClaimedDraft(p: ProcId, w: Delivery) returns (raised: bool, ghost trace: seq<P.Event>)
      requires Valid() && p in procs && procs[p].Claimed? && WorldOf(w, p)
      modifies this
      ensures Valid() && State() == P.Run(old(State()), trace)
      ensures DeliverySteps(old(State()), p, w, trace, raised)
      ensures p !in procs
      ensures var d, row := old(procs)[p].draft, old(procs)[p].row;
              var goes := w.addressable && row.caseId < |P.Run(old(State()), w.beforeLoad).db.cases|
                          && (row.edited ==> row.finalBody.Some? && row.finalBody.value != "");
              && d < |drafts|
              && drafts[d].status == (if goes && w.outcome == P.Accepted && w.recorded then Sent else Sending)
              && (if goes && w.outcome != P.RefusedCall
                  then P.SendRecord(d, if row.edited then row.finalBody.value else row.body) in sends
                  else forall i :: 0 <= i < |sends| ==> sends[i].draft != d)
    {
      raised, trace := Deliver(p, w);
      Deliveries.OthersLeaveProcAll(old(State()), w.beforeLoad, p);
      Deliveries.DeliveryLeaves(old(State()), p, w, trace, raised);
      hide P.Run, P.Step, Sound, DeliverySteps;
    }

    /** The coroutine itself. */
    method Deliver(p: ProcId, w: Delivery) returns (raised: bool, ghost trace: seq<P.Event>)
      requires Valid() && p in procs && procs[p].Claimed? && WorldOf(w, p)
      modifies this
      ensures Valid() && State() == P.Run(old(State()), trace) && p !in procs
      ensures DeliverySteps(old(State()), p, w, trace, raised)
    {
      hide P.Run, P.Step, Sound;
      ghost var s0 := State();
      Yield(p, w.beforeLoad);
      trace := w.beforeLoad;
      assert State() == P.Run(s0, w.beforeLoad);
      var ready := LoadContext(p, w.addressable);
      assert ready <==> MayGoOut(P.Run(s0, w.beforeLoad), p, w.addressable);
      hide MayGoOut;
      trace := Extended(s0, trace, P.LoadContext(p, w.addressable));
      if !ready { return false, trace; }
      Yield(p, w.beforeSend);
      RunConcat(s0, trace, w.beforeSend);
      trace := trace + w.beforeSend;
      var delivered := SendSms(p, w.outcome);
      trace := Extended(s0, trace, P.Send(p, w.outcome));
      if !delivered { return false, trace; }
      Yield(p, w.beforeRecord);
      RunConcat(s0, trace, w.beforeRecord);
      trace := trace + w.beforeRecord;
      if w.recorded {
        RecordDelivered(p);
        trace := Extended(s0, trace, P.Record(p));
        return false, trace;
      }
      Die(p);
      trace := Extended(s0, trace, P.Crash(p));
      return true, trace;
    }

    method RecordDelivered(p: ProcId)
      requires Valid() && p in procs && procs[p].Delivered?
      modifies this
      ensures State() == P.Step(old(State()), P.Record(p))
      ensures p !in procs
    {
      assert SendSafety.SenderOwns(State(), p);
      P.RecordIs(State(), p);
      hide P.Step, P.StepRecord, Sound;
      RecordSend(p);
    }

    /** The coroutine of a sender dies. */
    method Die(p: ProcId)
      requires p in procs && !P.HoldsLock(procs[p])
      modifies this`procs
      ensures State() == P.Step(old(State()), P.Crash(p))
      ensures p !in procs
    {
      P.CrashIs(State(), p);
      hide P.Step;
      procs := procs - {p};
    }

    /** The state is one step further along the run of `trace` from `s0`. */
    ghost method Extended(s0: P.State, trace: seq<P.Event>, e: P.Event) returns (longer: seq<P.Event>)
      requires Sound(s0) && State() == P.Step(P.Run(s0, trace), e)
      ensures longer == trace + [e] && State() == P.Run(s0, longer) && Valid()
    {
      longer := trace + [e];
      RunThen(s0, trace, e);
      RunKeepsSound(s0, longer);
    }

    method SelectDueDrafts(limit: nat) returns (ids: seq<DraftId>)
      ensures |ids| <= limit && Answers(Tables(), |drafts|, ids, limit)
    {
      DueBatchAnswers(Tables(), |drafts|, limit);
      ids := DueBatch(Tables(), |drafts|, limit);
    }

    /** One candidate of a tick. */
    method AttemptCandidate(p: ProcId, d: DraftId, gap: seq<P.Event>, w: Delivery)
      returns (won: bool, raised: bool, ghost steps: seq<P.Event>)
      requires Valid() && p !in procs && ByOthers(gap, p) && WorldOf(w, p)
      modifies this
      ensures Valid() && State() == P.Run(old(State()), steps) && p !in procs
      ensures AttemptSteps(old(State()), p, d, gap, w, raised, steps)
      ensures WonClaims(old(State()), steps, p) == if won then 1 else 0
      ensures raised ==> won
    {
      hide P.Run, P.Step, Sound, WonClaims, DeliverySteps;
      ghost var s0 := State();
      Yield(p, gap);
      var claimed := ClaimDraft(p, d);
      steps := Extended(s0, gap, P.ClaimDraft(p, d));
      won, raised := claimed.Some?, false;
      ghost var after: seq<P.Event> := [];
      if won {
        raised, after := ProcessClaimedDraft(p, w);
        DeliveryClaimsNothing(P.Run(s0, steps), p, w, after, raised);
        RunConcat(s0, steps, after);
      }
      AttemptWins(s0, gap, p, d, after);
      assert steps + [] == steps;
      steps := steps + after;
    }

    /** `sender_tick`: claim and process each due draft in turn until the batch or
        the clock budget is used up. `readings` are the clock readings it makes,
        `gaps` what others do before each claim. The count returned is the number
        of claims this tick won, and no claim is attempted at or after the
        deadline. */
    method SenderTick(p: ProcId, limit: nat, deadline: Time, readings: seq<Time>, gaps: seq<seq<P.Event>>,
                      world: seq<Delivery>)
      returns (claimedCount: nat, raised: bool, candidates: seq<DraftId>, attempts: nat,
               ghost parts: seq<seq<P.Event>>)
      requires Valid() && p !in procs
      requires |readings| > limit && |gaps| >= limit && |world| >= limit
      requires forall i :: 0 <= i < limit ==> ByOthers(gaps[i], p) && WorldOf(world[i], p)
      modifies this
      ensures Valid() && State() == P.Run(old(State()), Joined(parts)) && p !in procs
      ensures Answers(old(Tables()), |old(drafts)|, candidates, limit)
      ensures |parts| == attempts && TickSteps(old(State()), p, candidates, gaps, world, raised, parts)
      ensures attempts <= |candidates| && claimedCount <= attempts
      ensures claimedCount == WonClaims(old(State()), Joined(parts), p)
      ensures forall i :: 1 <= i <= attempts ==> readings[i] - readings[0] < deadline
      ensures raised || attempts == |candidates| || readings[attempts + 1] - readings[0] >= deadline
    {
      NothingYet(p);
      hide *;
      ghost var s0 := State();
      var ids := SelectDueDrafts(limit);
      candidates, parts, attempts, claimedCount, raised := ids, [], 0, 0, false;
      TickStarts(s0, p, ids, gaps, world);
      while attempts < |ids| && !raised
        invariant |parts| == attempts <= |ids| <= limit
        invariant Valid() && State() == P.Run(s0, Joined(parts)) && p !in procs
        invariant TickSteps(s0, p, ids, gaps, world, raised, parts)
        invariant claimedCount <= attempts && claimedCount == WonClaims(s0, Joined(parts), p)
        invariant forall k :: 1 <= k <= attempts ==> readings[k] - readings[0] < deadline
      {
        if readings[attempts + 1] - readings[0] >= deadline { break; }
        var won;
        ghost var steps;
        won, raised, steps := AttemptCandidate(p, ids[attempts], gaps[attempts], world[attempts]);
        RunConcat(s0, Joined(parts), steps);
        WonConcat(s0, Joined(parts), steps, p);
        TickGrows(s0, p, ids, gaps, world, parts, steps, raised);
        parts := parts + [steps];
        attempts := attempts + 1;
        if won { claimedCount := claimedCount + 1; }
      }
    }

    lemma NothingYet(p: ProcId)
      ensures P.Run(State(), []) == State() && WonClaims(State(), [], p) == 0
    {
    }

    // ----- the decision seam --------------------------------------------------

    /** The end of a coroutine: its transaction, and with it its lock, is over. */
    method Release(p: ProcId)
      requires p in procs && P.HoldsLock(procs[p]) && procs[p].caseId < |cases|
      modifies this`procs, this`locks
      ensures State() == P.Retire(old(State()), p)
      ensures p !in procs
    {
      locks := locks - {cases[procs[p].caseId].uuid % P.LOCK_KEYS};
      procs := procs - {p};
    }

    /** One try of the advisory lock. */
    method TryLock(p: ProcId, c: CaseId, job: P.Job) returns (acquired: bool)
      requires p !in procs && c < |cases|
      modifies this`procs, this`locks
      ensures State() == P.Step(old(State()), P.Acquire(p, c, job))
      ensures acquired <==> !LockTaken(old(State()), c)
      ensures acquired <==> cases[c].uuid % 0x1_0000_0000_0000_0000 !in old(locks)
      ensures acquired <==> p in procs
      ensures acquired ==> procs[p] == P.Begun(c, job)
    {
      P.AcquireIs(State(), p, c, job);
      hide P.Step;
      var key := cases[c].uuid % P.LOCK_KEYS;
      acquired := key !in locks;
      if acquired {
        locks := locks[key := p];
        procs := procs[p := match job
                            case RunGraph => P.Runner(c, P.Starting)
                            case Resume(d, dec) => P.Resumer(c, d, dec, P.Checking)];
      }
    }

    method ApplyApproveOrEdit(c: CaseId, d: DraftId, dec: Decision)
      requires c < |cases| && d < |drafts| && drafts[d].status == Pending && (dec.action == Approve || dec.action == EditAndSend)
      modifies this`drafts, this`audit
      ensures Tables() == ApplyDecision(old(Tables()), c, d, dec)
    {
      var editing := dec.action == EditAndSend;
      var window := if dec.channel == Sms then SMS_UNDO_WINDOW else UNDO_WINDOW;
      drafts := drafts[d := drafts[d].(
        status := Approved, scheduledSendAt := Some(now + window), approvedVia := Some(dec.channel), edited := editing,
        finalBody := if editing then dec.body else None, updatedAt := now)];
      audit := audit + [AuditEntry(Some(c), if editing then DraftEdited(d) else DraftApproved(d), now)];
    }

    method ApplyRejection(c: CaseId, d: DraftId, dec: Decision)
      requires c < |cases| && d < |drafts| && drafts[d].status == Pending && dec.action == Reject
      modifies this`drafts, this`cases, this`ledger, this`audit
      ensures Tables() == ApplyDecision(old(Tables()), c, d, dec)
    {
      drafts := drafts[d := drafts[d].(status := Rejected, updatedAt := now)];
      ledger := RecordRejection(ledger, cases[c].landlord, cases[c].property, cases[c].severity);
      cases := cases[c := cases[c].(status := Open, lastActivityAt := now)];
      audit := audit + [AuditEntry(Some(c), DraftRejected(d), now)];
    }

    /** Both paths of the seam end here. */
    method Apply(c: CaseId, d: DraftId, dec: Decision)
      requires c < |cases| && d < |drafts|
      modifies this`drafts, this`cases, this`ledger, this`audit
      ensures Tables() == ApplyDecision(old(Tables()), c, d, dec)
      ensures |cases| == |old(cases)| && Outcomes.Decided(old(Tables()), Tables(), c, d, dec)
    {
      Outcomes.DecisionWrites(Tables(), c, d, dec);
      hide Outcomes.Decided;
      if drafts[d].status == Pending {
        if dec.action == Reject { ApplyRejection(c, d, dec); }
        else if dec.action != Unrecognised { ApplyApproveOrEdit(c, d, dec); }
      }
    }

    /** The checks of `resume_case_thread`; a refusal releases the lock. */
    method CheckUnderLock(p: ProcId) returns (refusal: Option<Resolution>)
      requires P.Resuming(State(), p, P.Checking)
      modifies this`procs, this`locks
      ensures State() == P.Step(old(State()), P.CheckResume(p))
      ensures refusal.None? ==> P.Resuming(State(), p, P.Replaying) && procs[p] == old(procs)[p].(step := P.Replaying)
      ensures refusal.Some? ==> p !in procs
      ensures var c, d := old(procs)[p].caseId, old(procs)[p].decided;
              && (refusal.None? <==> PendingOf(Tables(), c) == Some(d) && c in threads)
              && (refusal.Some? ==>
                    refusal.value == (if PendingOf(Tables(), c) != Some(d) then DraftIsStale(PendingOf(Tables(), c))
                                      else NotAwaiting))
    {
      P.CheckIs(State(), p);
      hide P.Step, FirstIn;
      var c, d := procs[p].caseId, procs[p].decided;
      var current := PendingOf(Tables(), c);
      if current != Some(d) { Release(p); return Some(DraftIsStale(current)); }
      if c !in threads { Release(p); return Some(NotAwaiting); }
      procs := procs[p := procs[p].(step := P.Replaying)];
      return None;
    }

    /** The paused node runs again from its top and receives the resume value. */
    method ReplayNode(p: ProcId) returns (goesOn: bool)
      requires P.Resuming(State(), p, P.Replaying)
      modifies this`procs, this`locks, this`threads
      ensures State() == P.Step(old(State()), P.ReplayResume(p))
      ensures threads == old(threads) - {old(procs)[p].caseId}
      ensures goesOn <==> PendingOf(Tables(), old(procs)[p].caseId).Some? && old(procs)[p].decision.action != Unrecognised
      ensures goesOn ==> P.Resuming(State(), p, P.Finalizing) && procs[p] == old(procs)[p].(step := P.Finalizing)
      ensures !goesOn ==> p !in procs
    {
      P.ReplayIs(State(), p);
      hide P.Step, FirstIn;
      var c := procs[p].caseId;
      threads := threads - {c};
      if PendingOf(Tables(), c).None? || procs[p].decision.action == Unrecognised { Release(p); return false; }
      procs := procs[p := procs[p].(step := P.Finalizing)];
      return true;
    }

    /** The finalize node. */
    method FinalizeNode(p: ProcId)
      requires P.Resuming(State(), p, P.Finalizing)
      modifies this
      ensures State() == P.Step(old(State()), P.FinalizeResume(p))
      ensures p !in procs && |cases| == |old(cases)|
      ensures var c, dec := old(procs)[p].caseId, old(procs)[p].decision;
              match PendingOf(old(Tables()), c)
              case None => Tables() == old(Tables())
              case Some(x) => Tables() == ApplyDecision(old(Tables()), c, x, dec)
    {
      P.DecideIs(State(), p);
      hide P.Step;
      hide ApplyDecision, FirstIn;
      var c, dec := procs[p].caseId, procs[p].decision;
      var pending := PendingOf(Tables(), c);
      if pending.Some? { Apply(c, pending.value, dec); }
      Release(p);
    }

    lemma NoSteps()
      ensures P.Run(State(), []) == State()
    {
    }

    /** `_case_lock`: try, and between tries let others run; `waits` bounds the
        tries. It gives up only after the last, and a free key is acquired at the
        first try that meets it. */
    method AcquireCaseLock(p: ProcId, c: CaseId, job: P.Job, waits: seq<seq<P.Event>>)
      returns (acquired: bool, ghost tries: nat, ghost trace: seq<P.Event>)
      requires Valid() && p !in procs && c < |cases| && AllByOthers(waits, p)
      modifies this
      ensures Valid() && State() == P.Run(old(State()), trace) && |old(cases)| <= |cases|
      ensures TriedUntil(old(State()), c, P.Acquire(p, c, job), waits, tries, acquired)
      ensures trace == Tried(P.Acquire(p, c, job), waits, tries)
      ensures acquired <==> p in procs
      ensures acquired ==> procs[p] == P.Begun(c, job)
      ensures !LockTaken(old(State()), c) ==> acquired && State() == P.Step(old(State()), P.Acquire(p, c, job))
    {
      NoSteps();
      hide P.Run, P.Step, Sound, LockTaken, TriedTo, Tried, P.Begun;
      ghost var s0, e := State(), P.Acquire(p, c, job);
      FirstTry(s0, c, e, waits);
      acquired := TryLock(p, c, job);
      trace := Extended(s0, [], e);
      tries := 0;
      var i := 0;
      while !acquired && i < |waits|
        invariant 0 <= i == tries <= |waits|
        invariant Valid() && State() == P.Run(s0, trace) && trace == Tried(e, waits, tries)
        invariant TriedTo(s0, c, e, waits, tries, acquired)
        invariant acquired <==> p in procs
        invariant acquired ==> procs[p] == P.Begun(c, job)
        invariant |s0.db.cases| <= |cases|
        invariant !LockTaken(s0, c) ==> acquired && State() == P.Step(s0, e)
      {
        NextTry(s0, c, e, waits, tries);
        Yield(p, waits[i]);
        RunConcat(s0, trace, waits[i]);
        trace := trace + waits[i];
        acquired := TryLock(p, c, job);
        trace := Extended(s0, trace, e);
        i, tries := i + 1, tries + 1;
      }
    }

    lemma LockedResumerIsSettled(p: ProcId)
      requires Valid() && p in procs && DecisionSeam.PastCheck(procs[p])
      ensures DecisionSeam.Settled(Tables(), procs[p].caseId, procs[p].decided)
    {
    }

    /** The replayed node reached the finalize node: the write, under the lock. */
    method DecideUnderLock(p: ProcId)
      requires Valid() && P.Resuming(State(), p, P.Finalizing)
      modifies this
      ensures State() == P.Step(old(State()), P.FinalizeResume(p)) && p !in procs && |cases| == |old(cases)|
      ensures var c, d, dec := old(procs)[p].caseId, old(procs)[p].decided, old(procs)[p].decision;
              && (dec.action != Unrecognised ==> DecisionSeam.DecidedOn(Tables(), d, dec) || DecisionSeam.NoOpen(Tables(), c))
              && (PendingOf(old(Tables()), c) == Some(d) ==> Tables() == ApplyDecision(old(Tables()), c, d, dec))
    {
      LockedResumerIsSettled(p);
      ghost var before := Tables();
      ghost var c, d, dec := procs[p].caseId, procs[p].decided, procs[p].decision;
      hide P.Step, Sound, DecisionSeam.Settled, DecisionSeam.NoOpen, DecisionSeam.DecidedOn, ApplyDecision, FirstIn;
      FinalizeNode(p);
      SettledIsDecided(before, Tables(), c, d, dec);
    }

    lemma NothingToApply(db: Db, c: CaseId, d: DraftId, dec: Decision)
      ensures d < |db.drafts| && c < |db.cases| && dec.action == Unrecognised ==> ApplyDecision(db, c, d, dec) == db
    {
    }

    /** `Command(resume=...)` on a live interrupt. */
    method ReplayAndDecide(p: ProcId, w: DecisionWorld) returns (ghost trace: seq<P.Event>)
      requires Valid() && P.Resuming(State(), p, P.Replaying) && AroundDecision(w, p)
      modifies this
      ensures Valid() && State() == P.Run(old(State()), trace) && p !in procs && |old(cases)| <= |cases|
      ensures ReplaySteps(p, w, trace)
      ensures var c, d, dec := old(procs)[p].caseId, old(procs)[p].decided, old(procs)[p].decision;
              && (dec.action != Unrecognised ==> DecisionSeam.DecidedOn(Tables(), d, dec) || DecisionSeam.NoOpen(Tables(), c))
              && (Alone(w) && PendingOf(old(Tables()), c) == Some(d) ==>
                    && Tables() == ApplyDecision(old(Tables()), c, d, dec)
                    && (dec.action == Unrecognised ==> c !in threads))
    {
      hide P.Run, P.Step, Sound, ApplyDecision;
      ghost var s0 := State();
      Yield(p, w.beforeReplay);
      LockedResumerIsSettled(p);
      trace := w.beforeReplay;
      var goesOn := ReplayNode(p);
      trace := Extended(s0, trace, P.ReplayResume(p));
      if !goesOn {
        NothingToApply(Tables(), old(procs)[p].caseId, old(procs)[p].decided, old(procs)[p].decision);
      } else {
        Yield(p, w.beforeDecide);
        RunConcat(s0, trace, w.beforeDecide);
        trace := trace + w.beforeDecide;
        DecideUnderLock(p);
        trace := Extended(s0, trace, P.FinalizeResume(p));
      }
    }

    /** `resume_case_thread`. With anything interleaved: a refusal says why, as of
        the moment it returns, and a completed resume of a recognised action has
        decided its own draft as asked, or the case has no open draft left. Alone on
        a free lock and its case's pending draft, it is refused exactly when there
        is no live interrupt. */
    method ResumeCaseThread(p: ProcId, c: CaseId, d: DraftId, dec: Decision, w: DecisionWorld)
      returns (r: Resolution, ghost tries: nat, ghost trace: seq<P.Event>)
      requires Valid() && p !in procs && c < |cases| && AroundDecision(w, p)
      modifies this
      ensures Valid() && State() == P.Run(old(State()), trace) && p !in procs && |old(cases)| <= |cases|
      ensures ResumeSteps(old(State()), p, c, d, dec, w, r, tries, trace)
      ensures ResumePost(old(State()), State(), r, Alone(w), c, d, dec)
    {
      hide P.Run, P.Step, Sound, TriedUntil, Tried, ReplaySteps, ResumePost, PendingOf, ApplyDecision, DecisionSeam.DecidedOn;
      ghost var s0 := State();
      var refusal: Option<Resolution>;
      refusal, tries, trace := LockAndCheck(p, c, d, dec, w);
      ghost var s1 := State();
      if refusal.Some? {
        RefusedPost(s0, s1, refusal.value, Alone(w), p, c, d, dec);
        return refusal.value, tries, trace;
      }
      ghost var more := ReplayAndDecide(p, w);
      ReplayedPost(s0, s1, State(), Alone(w), p, c, d, dec);
      RunConcat(s0, trace, more);
      SliceOff(trace, more);
      return Done, tries, trace + more;
    }

    /** Lock, then both checks. */
    method LockAndCheck(p: ProcId, c: CaseId, d: DraftId, dec: Decision, w: DecisionWorld)
      returns (refusal: Option<Resolution>, ghost tries: nat, ghost trace: seq<P.Event>)
      requires Valid() && p !in procs && c < |cases| && AroundDecision(w, p)
      modifies this
      ensures Valid() && State() == P.Run(old(State()), trace) && |old(cases)| <= |cases|
      ensures TriedUntil(old(State()), c, P.Acquire(p, c, P.Resume(d, dec)), w.resumeWaits, tries, refusal != Some(LockTimeout))
      ensures var locked := Tried(P.Acquire(p, c, P.Resume(d, dec)), w.resumeWaits, tries);
              trace == if refusal == Some(LockTimeout) then locked else locked + w.beforeCheck + [P.CheckResume(p)]
      ensures CheckPost(old(State()), State(), refusal, Alone(w), p, c, d, dec)
    {
      ghost var s0 := State();
      hide P.Run, P.Step, Sound, CheckPost, TriedUntil, Tried;
      var acquired;
      acquired, tries, trace := AcquireCaseLock(p, c, P.Resume(d, dec), w.resumeWaits);
      if !acquired {
        TimeoutPost(s0, State(), Alone(w), p, c, d, dec);
        return Some(LockTimeout), tries, trace;
      }
      Yield(p, w.beforeCheck);
      ghost var s1 := State();
      RunConcat(s0, trace, w.beforeCheck);
      trace := trace + w.beforeCheck;
      refusal := CheckUnderLock(p);
      trace := Extended(s0, trace, P.CheckResume(p));
      CheckedPost(s0, s1, State(), refusal, Alone(w), p, c, d, dec);
    }

    /** One try of the direct write: lock, re-check, write and release in one
        transaction. */
    method TryDirectWrite(c: CaseId, d: DraftId, dec: Decision) returns (r: Option<Resolution>)
      requires c < |cases|
      modifies this
      ensures |cases| == |old(cases)| && procs == old(procs)
      ensures State() == P.Step(old(State()), P.FinalizeNeverPaused(c, d, dec))
      ensures r.None? <==> LockTaken(old(State()), c)
      ensures r.Some? ==>
                var pending := PendingOf(old(Tables()), c);
                r.value == if pending != Some(d) then DraftIsStale(pending) else if dec.action == Unrecognised then BadAction else Done
      ensures r == Some(Done) ==>
                && d < |drafts| && DecisionSeam.DecidedAs(drafts[d], dec, now) && Outcomes.OnlyRow(old(drafts), drafts, d)
                && cases[c].status == if dec.action == Reject then Open else AwaitingApproval
    {
      P.FinalizeIs(State(), c, d, dec);
      hide P.Step;
      hide ApplyDecision, FirstIn;
      if cases[c].uuid % P.LOCK_KEYS in locks { return None; }
      var current := PendingOf(Tables(), c);
      if current != Some(d) { return Some(DraftIsStale(current)); }
      if dec.action == Unrecognised { return Some(BadAction); }
      if dec.action != Reject {
        cases := cases[c := cases[c].(status := AwaitingApproval)];
      }
      Apply(c, d, dec);
      return Some(Done);
    }

    method DirectWriteOrWait(c: CaseId, d: DraftId, dec: Decision, ghost s0: P.State, ghost trace: seq<P.Event>)
      returns (r: Option<Resolution>, ghost longer: seq<P.Event>)
      requires c < |cases| && Leads(s0, trace, State())
      modifies this
      ensures Leads(s0, longer, State()) && |cases| == |old(cases)| && procs == old(procs)
      ensures longer == trace + [P.FinalizeNeverPaused(c, d, dec)] && r != Some(LockTimeout)
      ensures r.None? <==> LockTaken(old(State()), c)
      ensures DirectPost(old(State()), State(), r, c, d, dec)
    {
      hide P.Run, P.Step, Sound, DirectPost, LockTaken;
      ghost var before := State();
      r := TryDirectWrite(c, d, dec);
      WroteDirectly(before, State(), r, c, d, dec);
      longer := Extended(s0, trace, P.FinalizeNeverPaused(c, d, dec));
    }

    /** `_finalize_never_paused_draft`, with others running between its lock tries;
        `None` if the lock was never free. */
    method FinalizeNeverPausedDraft(p: ProcId, c: CaseId, d: DraftId, dec: Decision, waits: seq<seq<P.Event>>)
      returns (r: Option<Resolution>, ghost tries: nat, ghost trace: seq<P.Event>)
      requires Valid() && p !in procs && c < |cases| && AllByOthers(waits, p)
      modifies this
      ensures Leads(old(State()), trace, State()) && p !in procs
      ensures DirectSteps(old(State()), c, d, dec, waits, r.Some?, tries, trace) && r != Some(LockTimeout)
      ensures DirectPost(old(State()), State(), r, c, d, dec)
    {
      NoSteps();
      ghost var s0, e := State(), P.FinalizeNeverPaused(c, d, dec);
      hide P.Run, P.Step, Sound, DirectPost, LockTaken, TriedTo, Tried;
      FirstTry(s0, c, e, waits);
      r, trace := DirectWriteOrWait(c, d, dec, s0, []);
      RunKeepsSound(s0, trace);
      tries := 0;
      var i := 0;
      while r.None? && i < |waits|
        invariant i == tries <= |waits| && |old(cases)| <= |cases| && p !in procs
        invariant Leads(s0, trace, State()) && Valid() && trace == Tried(e, waits, tries)
        invariant TriedTo(s0, c, e, waits, tries, r.Some?) && r != Some(LockTimeout)
        invariant DirectPost(s0, State(), r, c, d, dec)
      {
        NextTry(s0, c, e, waits, tries);
        ghost var s1 := State();
        Yield(p, waits[i]);
        ghost var s2 := State();
        RunConcat(s0, trace, waits[i]);
        r, trace := DirectWriteOrWait(c, d, dec, s0, trace + waits[i]);
        RunKeepsSound(s0, trace);
        RetriedPost(s0, s1, s2, State(), r, c, d, dec);
        i, tries := i + 1, tries + 1;
      }
    }

    /** Resume first; `None` is the trap: no interrupt, yet the draft is pending. */
    method ResumeOrFallThrough(p: ProcId, c: CaseId, d: DraftId, dec: Decision, w: DecisionWorld)
      returns (ended: Option<Resolution>, ghost half: ResumeHalf, ghost trace: seq<P.Event>)
      requires Valid() && p !in procs && c < |cases| && AroundDecision(w, p)
      modifies this
      ensures Valid() && Leads(old(State()), trace, State()) && p !in procs && |old(cases)| <= |cases|
      ensures ResumeSteps(old(State()), p, c, d, dec, w, half.answer, half.tries, half.steps)
      ensures trace == if half.answer == NotAwaiting then half.steps + w.afterResume else half.steps
      ensures ended == if half.answer == NotAwaiting && PendingOf(Tables(), c) == Some(d) then None else Some(half.answer)
      ensures TrapPost(old(State()), State(), ended, Alone(w), c, d, dec)
    {
      ghost var s0 := State();
      hide P.Run, P.Step, Sound, ResumePost, TrapPost, ResumeSteps;
      var r;
      ghost var tries;
      r, tries, trace := ResumeCaseThread(p, c, d, dec, w);
      half := ResumeHalf(r, tries, trace);
      ghost var s1 := State();
      if r == NotAwaiting {
        Yield(p, w.afterResume);
        RunConcat(s0, trace, w.afterResume);
        trace := trace + w.afterResume;
      }
      ended := if r == NotAwaiting && PendingOf(Tables(), c) == Some(d) then None else Some(r);
      TrapClosed(s0, s1, State(), r, ended, Alone(w), c, d, dec);
    }

    /** The path the peeked `status` picks. */
    method ResolveFromPeek(p: ProcId, c: CaseId, d: DraftId, dec: Decision, w: DecisionWorld, status: CaseStatus)
      returns (r: Resolution, ghost path: SeamPath, ghost trace: seq<P.Event>)
      requires Valid() && p !in procs && c < |cases| && AroundDecision(w, p)
      requires Alone(w) ==> cases[c].status == status
      modifies this
      ensures Leads(old(State()), trace, State()) && p !in procs
      ensures SeamSteps(old(State()), status, p, c, d, dec, w, r, path, trace)
      ensures DecisionPost(old(State()), State(), r, Alone(w), c, d, dec)
    {
      NoSteps();
      ghost var s0 := State();
      hide P.Run, P.Step, Sound, DecisionPost, DirectPost, TrapPost, ResumeSteps, DirectSteps, PendingOf;
      trace, path := [], SeamPath(None, None);
      if status == AwaitingApproval {
        var ended: Option<Resolution>;
        ghost var half;
        ended, half, trace := ResumeOrFallThrough(p, c, d, dec, w);
        path := SeamPath(Some(half), None);
        if ended.Some? {
          ResumedPost(s0, State(), ended, Alone(w), c, d, dec);
          return ended.value, path, trace;
        }
      }
      ghost var s1 := State();
      var written: Option<Resolution>;
      ghost var tries, direct;
      written, tries, direct := FinalizeNeverPausedDraft(p, c, d, dec, w.directWaits);
      path := path.(direct := Some(DirectHalf(tries, direct)));
      RunConcat(s0, trace, direct);
      trace := trace + direct;
      r := if written.Some? then written.value else LockTimeout;
      WrittenPost(s0, s1, State(), written, status, Alone(w), c, d, dec);
    }

    /** `resolve_draft_decision`. The path is chosen by an unlocked read of the
        case's status, and a resume that finds no interrupt falls through to the
        direct write if the draft is still pending. What it does is `DecisionSteps`;
        what its answer promises, interfered with or alone, is `DecisionPost`. */
    method ResolveDraftDecision(p: ProcId, c: CaseId, d: DraftId, dec: Decision, w: DecisionWorld)
      returns (r: Resolution, ghost path: SeamPath, ghost trace: seq<P.Event>)
      requires Valid() && p !in procs && AroundDecision(w, p)
      modifies this
      ensures Valid() && Leads(old(State()), trace, State()) && p !in procs
      ensures DecisionSteps(old(State()), p, c, d, dec, w, r, path, trace)
      ensures DecisionPost(old(State()), State(), r, Alone(w), c, d, dec)
    {
      NoSteps();
      NoSuchCasePost(State(), c, d, dec, Alone(w));
      ghost var s0 := State();
      hide P.Run, P.Step, Sound, DecisionPost, SeamSteps;
      if c >= |cases| { return NoSuchCase, SeamPath(None, None), []; }
      var status := cases[c].status;
      Yield(p, w.afterPeek);
      ghost var s1 := State();
      ghost var rest;
      r, path, rest := ResolveFromPeek(p, c, d, dec, w, status);
      RunConcat(s0, w.afterPeek, rest);
      trace := w.afterPeek + rest;
      SliceOff(w.afterPeek, rest);
      RunKeepsSound(s0, trace);
      PeekedPost(s0, s1, State(), r, Alone(w), c, d, dec);
    }

    // ----- undo and revokes ---------------------------------------------------

    /** Undo on either channel; the one-pending index makes the statement fail when
        the case already has a pending draft. */
    method UndoApproval(d: DraftId, landlord: LandlordId, channel: Channel) returns (undone: bool)
      modifies this`drafts, this`audit
      ensures State() == P.StepWeb(old(State()), P.UndoApproval(d, landlord, channel))
      ensures undone <==> d < |old(drafts)| && old(drafts)[d].landlord == landlord && old(drafts)[d].status == Approved
                          && PendingOf(old(Tables()), old(drafts)[d].caseId).None?
      ensures undone ==> Outcomes.PutBack(old(Tables()), Tables(), d, channel)
      ensures !undone ==> State() == old(State())
      ensures undone ==> PendingOf(Tables(), drafts[d].caseId).Some? && drafts[d].status == Pending
                         && drafts[d].autoSend == old(drafts)[d].autoSend
    {
      Outcomes.UndoPutsBack(Tables(), d, landlord, channel);
      undone := d < |drafts| && drafts[d].landlord == landlord && drafts[d].status == Approved
                && PendingOf(Tables(), drafts[d].caseId).None?;
      if undone {
        audit := audit + [AuditEntry(Some(drafts[d].caseId), SendCancelled({d}), now)];
        drafts := drafts[d := drafts[d].(
          status := Pending, scheduledSendAt := None, edited := false, finalBody := None, updatedAt := now,
          approvedVia := if channel == Sms then None else drafts[d].approvedVia)];
        assert InCase(drafts[d], drafts[d].caseId, Pending);
      }
    }

    /** `revoke_property_autonomy`; an audit row is written even when nothing was
        unlocked. */
    method RevokePropertyAutonomy(landlord: LandlordId, property: PropertyId) returns (affected: nat)
      modifies this`ledger, this`audit
      ensures State() == P.StepWeb(old(State()), P.RevokeOne(landlord, property))
      ensures affected == (if (property, Routine) in old(ledger).rows && old(ledger).rows[(property, Routine)].unlocked
                              && old(ledger).rows[(property, Routine)].landlord == landlord then 1 else 0)
      ensures affected == 1 ==>
                && OthersKept(old(ledger), ledger, (property, Routine))
                && var row := ledger.rows[(property, Routine)];
                   row == old(ledger).rows[(property, Routine)].(unlocked := false, revokedAt := Some(now), consecutiveClean := 0)
      ensures affected == 0 ==> ledger.rows == old(ledger).rows
    {
      var keys := PropertyRevokeKeys(ledger, landlord, property);
      ledger := RevokeKeys(ledger, keys, now);
      affected := |keys|;
      audit := audit + [AuditEntry(None, TrustRevoked(affected), now)];
    }

    /** `revoke_all_autonomy`: afterwards nothing of that landlord's is unlocked. */
    method RevokeAllAutonomy(landlord: LandlordId) returns (affected: nat)
      modifies this`ledger, this`audit
      ensures State() == P.StepWeb(old(State()), P.RevokeEvery(landlord))
      ensures forall k :: k in ledger.rows && ledger.rows[k].landlord == landlord ==> !ledger.rows[k].unlocked
      ensures ledger.rows.Keys == old(ledger).rows.Keys
      ensures forall k :: k in ledger.rows && ledger.rows[k].landlord == landlord && old(ledger).rows[k].unlocked ==>
                ledger.rows[k] == old(ledger).rows[k].(unlocked := false, revokedAt := Some(now), consecutiveClean := 0)
      ensures forall k :: k in ledger.rows && (ledger.rows[k].landlord != landlord || !old(ledger).rows[k].unlocked) ==>
                ledger.rows[k] == old(ledger).rows[k]
    {
      var keys := LandlordRevokeKeys(ledger, landlord);
      ledger := RevokeKeys(ledger, keys, now);
      affected := |keys|;
      audit := audit + [AuditEntry(None, TrustRevoked(affected), now)];
    }

    // ----- the time-driven sweep ----------------------------------------------

    /** `apply_time_transitions` over the snapshot the sweep read: exactly the due
        transitions, in table order. */
    static method ApplyTimeTransitions(snapshot: seq<Case>, at: Time) returns (actions: seq<(CaseId, Leg)>)
      ensures DueActions(snapshot, at, actions)
      ensures forall c, leg :: 0 <= c < |snapshot| ==> ((c, leg) in actions <==> DueFor(snapshot[c], leg, at))
    {
      actions := [];
      var c := 0;
      while c < |snapshot|
        invariant 0 <= c <= |snapshot| && DueActions(snapshot[..c], at, actions)
      {
        var leg := TimeTransition(snapshot[c], at);
        assert snapshot[..c + 1][..c] == snapshot[..c];
        if leg.Some? { actions := actions + [(c, leg.value)]; }
        c := c + 1;
      }
      assert snapshot[..|snapshot|] == snapshot;
      forall i, leg | 0 <= i < |snapshot| ensures (i, leg) in actions <==> DueFor(snapshot[i], leg, at) {
        ListedWhenDue(snapshot, at, actions, i, leg);
      }
    }

    /** `_CANCEL_OPEN_DRAFTS_SQL` and its audit rows. */
    method CancelCaseDrafts(c: CaseId)
      modifies this`drafts, this`audit
      ensures Tables() == CancelDraftsOfCase(old(Tables()), c)
      ensures Outcomes.CancelsUnsent(old(drafts), drafts, c, now)
    {
      Outcomes.BulkCancels(Tables(), c);
      var cancelled := set i | 0 <= i < |drafts| && OpenUnsent(drafts[i], c);
      drafts := CancelOpen(drafts, c, now);
      if cancelled != {} { audit := audit + [AuditEntry(Some(c), SendCancelled(cancelled), now)]; }
    }

    /** `_apply_sweep_action`: the guarded write and its side effects. */
    method ApplySweepAction(c: CaseId, leg: Leg, at: Time) returns (applied: bool)
      requires Valid() && c < |cases| && at <= now
      modifies this`drafts, this`cases, this`audit
      ensures State() == P.Step(old(State()), P.SweepCase(c, leg, at))
      ensures applied <==> TimeTransition(old(cases)[c], at) == Some(leg)
      ensures applied <==> DueFor(old(cases)[c], leg, at)
      ensures |cases| == |old(cases)|
      ensures SweepSafety.SweepOutcome(old(Tables()), Tables(), c, leg, at)
    {
      P.WebStep(State(), P.SweepCase(c, leg, at));
      hide P.Step;
      SweepSafety.SweepOfLiveRow(Tables(), c, leg, at);
      hide SweepSafety.SweepOutcome;
      applied := match leg
        case TenantConfirmedLeg => cases[c].pendingResolvedAt.Some? && cases[c].pendingResolvedAt.value <= at
        case AutoStaleLeg =>
          cases[c].pendingResolvedAt.None? && AutoStaleEligible(cases[c].status)
          && cases[c].lastActivityAt <= at - AUTO_STALE_INACTIVITY;
      GuardIsDecision(cases[c], leg, at);
      DueWhen(cases[c], leg, at);
      if applied { WriteResolved(c, leg, at); }
    }

    method WriteResolved(c: CaseId, leg: Leg, at: Time)
      requires c < |cases| && SweepGuard(cases[c], leg, at)
      modifies this`drafts, this`cases, this`audit
      ensures Tables() == SweepWrite(old(Tables()), c, leg, at)
    {
      var reason := ReasonOf(leg);
      cases := cases[c := cases[c].(status := Resolved, resolvedReason := Some(reason), resolvedAt := Some(at),
                                    pendingResolvedAt := None, lastActivityAt := at)];
      audit := audit + [AuditEntry(Some(c), CaseResolved(reason), now)];
      CancelCaseDrafts(c);
    }

    /** One action, after others ran; `live` is the tables it found. */
    method SweepOne(c: CaseId, leg: Leg, at: Time, gap: seq<P.Event>, ghost s0: P.State, ghost trace: seq<P.Event>)
      returns (done: bool, ghost live: Db, ghost longer: seq<P.Event>)
      requires Valid() && Leads(s0, trace, State()) && c < |cases| && at <= now
      modifies this
      ensures Valid() && Leads(s0, longer, State()) && |old(cases)| <= |cases| && at <= now
      ensures c < |live.cases| && SweepSafety.SweepOutcome(live, Tables(), c, leg, at)
      ensures done <==> TimeTransition(live.cases[c], at) == Some(leg)
      ensures gap == [] ==> live == old(Tables())
      ensures live == P.Run(s0, trace + gap).db && longer == trace + gap + [P.SweepCase(c, leg, at)]
    {
      hide P.Run, P.Step, Sound, SweepSafety.SweepOutcome, TimeTransition;
      YieldToAll(gap);
      RunConcat(s0, trace, gap);
      live := Tables();
      done := ApplySweepAction(c, leg, at);
      longer := Extended(s0, trace + gap, P.SweepCase(c, leg, at));
    }

    /** `sweep_cases`: decide on a snapshot, then write each action, with others
        running in between; only actions that were written are returned. If nobody
        interferes, every due case ends resolved with no open draft. */
    method SweepCases(gaps: seq<seq<P.Event>>)
      returns (applied: seq<(CaseId, Leg)>, ghost actions: seq<(CaseId, Leg)>, ghost trace: seq<P.Event>)
      requires Valid() && |gaps| >= |cases|
      modifies this
      ensures Valid() && Leads(old(State()), trace, State())
      ensures DueActions(old(cases), old(now), actions) && |actions| <= |gaps|
      ensures trace == SweepTrace(actions, gaps, old(now), |actions|)
      ensures applied == Written(old(State()), actions, gaps, old(now), |actions|)
      ensures SweepResult(Quietly(gaps), Tables(), applied, actions)
    {
      hide P.Run, P.Step, Sound, DueActions, SweptSoFar, SweepResult, Quietly, SweepSafety.SweepOutcome, TimeTransition;
      hide SweepTrace, Written;
      NoSteps();
      ghost var s0 := State();
      var at, snapshot := now, cases;
      var todo := ApplyTimeTransitions(snapshot, at);
      actions, applied, trace := todo, [], [];
      FewActions(snapshot, at, todo);
      StartSettled(Quietly(gaps), snapshot, Tables(), at, todo);
      SweepStarts(s0, todo, gaps, at);
      var i := 0;
      while i < |todo|
        invariant 0 <= i <= |todo| && at <= now && |snapshot| <= |cases|
        invariant Valid() && Leads(s0, trace, State()) && trace == SweepTrace(todo, gaps, at, i)
        invariant applied == Written(s0, todo, gaps, at, i)
        invariant SweptSoFar(Quietly(gaps), snapshot, Tables(), applied, todo, i)
      {
        ActionInRange(snapshot, at, todo, i);
        QuietAt(gaps, i);
        ghost var before := Tables();
        var done;
        ghost var live;
        done, live, trace := SweepOne(todo[i].0, todo[i].1, at, gaps[i], s0, trace);
        SweepGrows(s0, todo, gaps, at, i);
        SweptOneMore(Quietly(gaps), snapshot, before, live, Tables(), at, applied, todo, i, done);
        if done { applied := applied + [todo[i]]; }
        i := i + 1;
      }
      SweptAll(Quietly(gaps), snapshot, Tables(), applied, todo);
    }

    /** Others run; this caller has no coroutine state of its own. */
    method YieldToAll(others: seq<P.Event>)
      requires Valid()
      modifies this
      ensures Valid() && State() == P.Run(old(State()), others)
      ensures |old(cases)| <= |cases| && old(now) <= now
      ensures others == [] ==> State() == old(State())
    {
      Await(others);
      Histories.LogsOnlyGrow(old(State()), others);
      RunKeepsSound(old(State()), others);
    }

    // ----- a graph run --------------------------------------------------------

    method StartThread(p: ProcId)
      requires P.Running(State(), p) && procs[p].phase == P.Starting
      modifies this`procs, this`threads
      ensures State() == P.Step(old(State()), P.StartRun(p))
      ensures P.Running(State(), p) && procs[p] == P.Runner(old(procs)[p].caseId, P.Classifying)
      ensures threads == old(threads) - {procs[p].caseId}
    {
      P.StartIs(State(), p);
      hide P.Step;
      threads := threads - {procs[p].caseId};
      procs := procs[p := P.Runner(procs[p].caseId, P.Classifying)];
    }

    /** `classify_severity`; an emergency is never downgraded. */
    method ClassifySeverity(p: ProcId, severity: Option<Severity>) returns (goesOn: bool)
      requires P.Running(State(), p) && procs[p].phase == P.Classifying
      modifies this`procs, this`locks, this`cases
      ensures State() == P.Step(old(State()), P.ClassifyRun(p, severity))
      ensures goesOn <==> severity.Some?
      ensures goesOn ==> P.Running(State(), p) && procs[p] == P.Runner(old(procs)[p].caseId, P.Drafting(severity.value))
      ensures !goesOn ==> p !in procs
    {
      P.ClassifyIs(State(), p, severity);
      hide P.Step;
      var c := procs[p].caseId;
      if severity.None? { Release(p); return false; }
      if cases[c].severity != Some(Emergency) {
        cases := cases[c := cases[c].(severity := severity)];
      }
      procs := procs[p := P.Runner(c, P.Drafting(severity.value))];
      return true;
    }

    /** `draft_response`'s transaction: whatever a newer message superseded is
        cancelled, the pending draft is retired, and the fresh one is inserted. */
    method InsertFreshDraft(c: CaseId, landlord: LandlordId, body: string)
      requires c < |cases|
      modifies this`drafts, this`audit
      ensures Tables() == InsertDraft(old(Tables()), c, landlord, body)
      ensures Outcomes.Replaced(old(Tables()), Tables(), c, landlord, body)
    {
      Outcomes.DraftReplaces(Tables(), c, landlord, body);
      hide Outcomes.Replaced, InsertDraft;
      WriteFreshDraft(c, landlord, body);
    }

    method WriteFreshDraft(c: CaseId, landlord: LandlordId, body: string)
      requires c < |cases|
      modifies this`drafts, this`audit
      ensures Tables() == InsertDraft(old(Tables()), c, landlord, body)
    {
      var superseded := set i | 0 <= i < |drafts| && UnsentAutoOrSms(drafts[i], c);
      var stale := set i | 0 <= i < |drafts| && InCase(drafts[i], c, Pending);
      drafts := CancelAutoAndSms(drafts, c, now);
      if superseded != {} { audit := audit + [AuditEntry(Some(c), SendCancelled(superseded), now)]; }
      drafts := StalePending(drafts, c, now);
      if stale != {} { audit := audit + [AuditEntry(Some(c), DraftStale(stale), now)]; }
      drafts := drafts + [Draft(c, landlord, body, Pending, false, None, None, None, false, None, now, now)];
      audit := audit + [AuditEntry(Some(c), Drafted(|drafts| - 1), now)];
    }

    method DraftResponse(p: ProcId, body: string, guardFailed: bool)
      requires P.Running(State(), p) && procs[p].phase.Drafting?
      modifies this
      ensures State() == P.Step(old(State()), P.DraftRun(p, body, guardFailed))
      ensures P.Running(State(), p)
      ensures procs[p] == P.Runner(old(procs)[p].caseId, P.Routing(old(procs)[p].phase.severity, guardFailed))
      ensures PendingOf(Tables(), procs[p].caseId) == Some(|old(drafts)|)
    {
      P.DraftIs(State(), p, body, guardFailed);
      hide P.Step, InsertDraft, FirstIn;
      var c, severity := procs[p].caseId, procs[p].phase.severity;
      LifeCycle.InsertFacts(Tables(), c, cases[c].landlord, body);
      InsertFreshDraft(c, cases[c].landlord, body);
      procs := procs[p := P.Runner(c, P.Routing(severity, guardFailed))];
    }

    /** The edge after drafting: the eligibility reads only pick where to go. */
    method RouteAfterDraftResponse(p: ProcId, hardHit: bool, readsOk: bool) returns (next: Option<P.RunPhase>)
      requires P.Running(State(), p) && procs[p].phase.Routing?
      modifies this`procs, this`locks
      ensures State() == P.Step(old(State()), P.RouteRun(p, hardHit, readsOk))
      ensures next == Some(P.AutoSending) || next == Some(P.Marking) || next == None
      ensures next.Some? ==> P.Running(State(), p) && procs[p] == P.Runner(old(procs)[p].caseId, next.value)
      ensures next.None? ==> p !in procs
      ensures next.None? <==> old(procs)[p].phase.guardFailed || (old(procs)[p].phase.routed == Emergency && !hardHit)
      ensures next == Some(P.AutoSending) <==>
                && !old(procs)[p].phase.guardFailed && old(procs)[p].phase.routed == Routine && readsOk
                && AutonomyUnlocked(ledger, cases[old(procs)[p].caseId].property)
                && P.AutoSentCount(Tables(), old(procs)[p].caseId) < settings.cap
    {
      P.RouteIs(State(), p, hardHit, readsOk);
      hide P.Step, AutonomyUnlocked, P.AutoSentLog;
      var c, severity, guardFailed := procs[p].caseId, procs[p].phase.routed, procs[p].phase.guardFailed;
      if guardFailed || (severity == Emergency && !hardHit) { Release(p); return None; }
      var eligible := severity == Routine && readsOk && AutonomyUnlocked(ledger, cases[c].property)
                      && P.AutoSentCount(Tables(), c) < settings.cap;
      next := Some(if eligible then P.AutoSending else P.Marking);
      procs := procs[p := P.Runner(c, next.value)];
    }

    method ApproveUnattended(c: CaseId, d: DraftId)
      requires c < |cases| && PendingOf(Tables(), c) == Some(d) && AutoSendAllowed(Tables(), c)
      modifies this`drafts, this`audit
      ensures AutoSend(old(Tables()), c) == Some(Tables())
    {
      hide AutonomyUnlocked, FirstIn;
      drafts := drafts[d := drafts[d].(status := Approved, scheduledSendAt := Some(now + UNDO_WINDOW), autoSend := true,
                                       edited := false, finalBody := None, updatedAt := now)];
      audit := audit + [AuditEntry(Some(c), AutoSent(d), now)];
    }

    /** `auto_send_draft`; false is the fall-back to the ordinary pause. */
    method AutoSendDraft(p: ProcId) returns (sent: bool)
      requires P.Running(State(), p) && procs[p].phase == P.AutoSending
      modifies this
      ensures State() == P.Step(old(State()), P.AutoSendRun(p))
      ensures sent <==> Outcomes.Unattended(old(Tables()), old(procs)[p].caseId)
      ensures sent ==> Outcomes.ApprovedUnattended(old(Tables()), Tables(), old(procs)[p].caseId,
                                                   PendingOf(old(Tables()), old(procs)[p].caseId).value)
      ensures !sent ==> Tables() == old(Tables())
      ensures sent ==> p !in procs
      ensures !sent ==> P.Running(State(), p) && procs[p] == P.Runner(old(procs)[p].caseId, P.Marking)
    {
      P.AutoSendIs(State(), p);
      var c := procs[p].caseId;
      Outcomes.AutoSendApproves(Tables(), c);
      hide P.Step, FirstIn, Outcomes.ApprovedUnattended;
      var pending := PendingOf(Tables(), c);
      sent := pending.Some? && cases[c].severity == Some(Routine) && AutonomyUnlocked(ledger, cases[c].property);
      if sent {
        ApproveUnattended(c, pending.value);
        Release(p);
      } else {
        procs := procs[p := P.Runner(c, P.Marking)];
      }
    }

    /** `mark_awaiting_approval` */
    method MarkAwaitingApproval(p: ProcId)
      requires P.Running(State(), p) && procs[p].phase == P.Marking
      modifies this`procs, this`cases
      ensures State() == P.Step(old(State()), P.MarkRun(p))
      ensures P.Running(State(), p) && procs[p] == P.Runner(old(procs)[p].caseId, P.Pausing)
    {
      P.MarkIs(State(), p);
      hide P.Step, FirstIn;
      var c := procs[p].caseId;
      if PendingOf(Tables(), c).Some? {
        cases := cases[c := cases[c].(status := AwaitingApproval)];
      }
      procs := procs[p := P.Runner(c, P.Pausing)];
    }

    /** `await_approval`: the interrupt names the case's pending draft. */
    method AwaitApproval(p: ProcId) returns (paused: Option<DraftId>)
      requires P.Running(State(), p) && procs[p].phase == P.Pausing
      modifies this`procs, this`locks, this`threads
      ensures State() == P.Step(old(State()), P.PauseRun(p))
      ensures p !in procs && paused == PendingOf(Tables(), old(procs)[p].caseId)
      ensures paused.Some? ==> old(procs)[p].caseId in threads && threads[old(procs)[p].caseId] == paused.value
    {
      P.PauseIs(State(), p);
      hide P.Step, FirstIn;
      var c := procs[p].caseId;
      paused := PendingOf(Tables(), c);
      if paused.Some? { threads := threads[c := paused.value]; }
      Release(p);
    }

    /** Others run, and the trace grows by what they did. */
    method YieldOn(p: ProcId, others: seq<P.Event>, ghost s0: P.State, ghost trace: seq<P.Event>)
      returns (ghost longer: seq<P.Event>)
      requires Valid() && ByOthers(others, p) && Leads(s0, trace, State())
      modifies this
      ensures Valid() && Leads(s0, longer, State()) && longer == trace + others
      ensures p in procs <==> p in old(procs)
      ensures p in procs ==> procs[p] == old(procs)[p]
      ensures |old(cases)| <= |cases|
    {
      Yield(p, others);
      RunConcat(s0, trace, others);
      longer := trace + others;
    }

    lemma FourParts(t: seq<P.Event>, a: seq<P.Event>, x: P.Event, b: seq<P.Event>, y: P.Event)
      ensures t + a + [x] + b + [y] == t + (a + [x] + b + [y])
    {
    }

    /** Discard the old pause, classify. */
    method BeginRun(p: ProcId, w: RunWorld, ghost s0: P.State, ghost trace0: seq<P.Event>)
      returns (goesOn: bool, ghost trace: seq<P.Event>)
      requires Valid() && Leads(s0, trace0, State()) && AroundRun(w, p)
      requires P.Running(State(), p) && procs[p].phase == P.Starting
      modifies this
      ensures Valid() && Leads(s0, trace, State()) && trace == trace0 + Classified(p, w)
      ensures goesOn <==> w.severity.Some?
      ensures goesOn ==> P.Running(State(), p) && procs[p] == P.Runner(old(procs)[p].caseId, P.Drafting(w.severity.value))
      ensures !goesOn ==> p !in procs
    {
      hide P.Run, P.Step, Sound;
      trace := YieldOn(p, w.beforeStart, s0, trace0);
      StartThread(p);
      trace := Extended(s0, trace, P.StartRun(p));
      trace := YieldOn(p, w.beforeClassify, s0, trace);
      goesOn := ClassifySeverity(p, w.severity);
      trace := Extended(s0, trace, P.ClassifyRun(p, w.severity));
      FourParts(trace0, w.beforeStart, P.StartRun(p), w.beforeClassify, P.ClassifyRun(p, w.severity));
    }

    /** Draft and route. */
    method DraftAndRoute(p: ProcId, w: RunWorld, ghost s0: P.State, ghost trace0: seq<P.Event>)
      returns (next: Option<P.RunPhase>, ghost trace: seq<P.Event>)
      requires Valid() && Leads(s0, trace0, State()) && AroundRun(w, p)
      requires P.Running(State(), p) && procs[p].phase.Drafting?
      modifies this
      ensures Valid() && Leads(s0, trace, State()) && trace == trace0 + Routed(p, w)
      ensures next == Some(P.AutoSending) || next == Some(P.Marking) || next == None
      ensures next.Some? ==> P.Running(State(), p) && procs[p] == P.Runner(old(procs)[p].caseId, next.value)
      ensures next.None? ==> p !in procs
      ensures next.None? <==> w.guardFailed || (old(procs)[p].phase.severity == Emergency && !w.hardHit)
    {
      hide P.Run, P.Step, Sound;
      trace := YieldOn(p, w.beforeDraft, s0, trace0);
      DraftResponse(p, w.body, w.guardFailed);
      trace := Extended(s0, trace, P.DraftRun(p, w.body, w.guardFailed));
      trace := YieldOn(p, w.beforeRoute, s0, trace);
      next := RouteAfterDraftResponse(p, w.hardHit, w.readsOk);
      trace := Extended(s0, trace, P.RouteRun(p, w.hardHit, w.readsOk));
      FourParts(trace0, w.beforeDraft, P.DraftRun(p, w.body, w.guardFailed), w.beforeRoute,
                P.RouteRun(p, w.hardHit, w.readsOk));
    }

    /** Auto-send, or fall back to the landlord. */
    method TryAutoSend(p: ProcId, w: RunWorld, ghost s0: P.State, ghost trace0: seq<P.Event>)
      returns (sent: bool, ghost trace: seq<P.Event>)
      requires Valid() && Leads(s0, trace0, State()) && AroundRun(w, p)
      requires P.Running(State(), p) && procs[p].phase == P.AutoSending
      modifies this
      ensures Valid() && Leads(s0, trace, State()) && trace == trace0 + AutoSendTried(p, w)
      ensures sent ==> p !in procs
      ensures !sent ==> P.Running(State(), p) && procs[p] == P.Runner(old(procs)[p].caseId, P.Marking)
    {
      hide P.Run, P.Step, Sound;
      trace := YieldOn(p, w.beforeAutoSend, s0, trace0);
      sent := AutoSendDraft(p);
      trace := Extended(s0, trace, P.AutoSendRun(p));
      assert trace0 + w.beforeAutoSend + [P.AutoSendRun(p)] == trace0 + (w.beforeAutoSend + [P.AutoSendRun(p)]);
    }

    /** Mark the case and pause. */
    method MarkAndPause(p: ProcId, w: RunWorld, ghost s0: P.State, ghost trace0: seq<P.Event>)
      returns (paused: Option<DraftId>, ghost trace: seq<P.Event>)
      requires Valid() && Leads(s0, trace0, State()) && AroundRun(w, p)
      requires P.Running(State(), p) && procs[p].phase == P.Marking
      modifies this
      ensures Valid() && Leads(s0, trace, State()) && p !in procs && trace == trace0 + MarkedAndPaused(p, w)
      ensures var c := old(procs)[p].caseId;
              paused == PendingOf(Tables(), c) && (paused.Some? ==> c in threads && threads[c] == paused.value)
    {
      hide P.Run, P.Step, Sound, PendingOf;
      trace := YieldOn(p, w.beforeMark, s0, trace0);
      MarkAwaitingApproval(p);
      trace := Extended(s0, trace, P.MarkRun(p));
      trace := YieldOn(p, w.beforePause, s0, trace);
      paused := AwaitApproval(p);
      trace := Extended(s0, trace, P.PauseRun(p));
      FourParts(trace0, w.beforeMark, P.MarkRun(p), w.beforePause, P.PauseRun(p));
    }

    lemma EndsDegraded(p: ProcId, w: RunWorld, trace: seq<P.Event>)
      requires (trace == [] + Classified(p, w) && w.severity.None?)
               || (trace == [] + Classified(p, w) + Routed(p, w)
                   && (w.guardFailed || (w.severity == Some(Emergency) && !w.hardHit)))
      ensures GraphSteps(p, w, Degraded, trace)
    {
      hide Classified, Routed;
      assert [] + Classified(p, w) == Classified(p, w);
    }

    lemma EndsAutoSent(p: ProcId, w: RunWorld, trace: seq<P.Event>)
      requires trace == [] + Classified(p, w) + Routed(p, w) + AutoSendTried(p, w)
      ensures GraphSteps(p, w, AutoSentDraft, trace)
    {
      hide Classified, Routed, AutoSendTried;
      assert [] + Classified(p, w) == Classified(p, w);
    }

    lemma EndsPaused(p: ProcId, w: RunWorld, end: RunEnd, trace: seq<P.Event>)
      requires end.PausedOn? || end == NothingToPause
      requires var routed := [] + Classified(p, w) + Routed(p, w);
               trace == routed + MarkedAndPaused(p, w) || trace == routed + AutoSendTried(p, w) + MarkedAndPaused(p, w)
      ensures GraphSteps(p, w, end, trace)
    {
      hide Classified, Routed, AutoSendTried, MarkedAndPaused;
      assert [] + Classified(p, w) == Classified(p, w);
    }

    /** The nodes, from the start of the locked span to its end. */
    method RunNodes(p: ProcId, w: RunWorld) returns (end: RunEnd, ghost trace: seq<P.Event>)
      requires Valid() && P.Running(State(), p) && procs[p].phase == P.Starting && AroundRun(w, p)
      modifies this
      ensures Valid() && Leads(old(State()), trace, State()) && p !in procs
      ensures GraphSteps(p, w, end, trace) && end != LockBusy
      ensures var c := old(procs)[p].caseId;
              && (end.PausedOn? ==> PendingOf(Tables(), c) == Some(end.draft) && c in threads && threads[c] == end.draft)
              && (end == NothingToPause ==> PendingOf(Tables(), c) == None)
    {
      NoSteps();
      hide P.Run, P.Step, Sound, PendingOf, Classified, Routed, AutoSendTried, MarkedAndPaused, GraphSteps;
      ghost var s0 := State();
      var goesOn, next;
      goesOn, trace := BeginRun(p, w, s0, []);
      if !goesOn {
        EndsDegraded(p, w, trace);
        return Degraded, trace;
      }
      next, trace := DraftAndRoute(p, w, s0, trace);
      if next.None? {
        EndsDegraded(p, w, trace);
        return Degraded, trace;
      }
      if next.value == P.AutoSending {
        var sent;
        sent, trace := TryAutoSend(p, w, s0, trace);
        if sent {
          EndsAutoSent(p, w, trace);
          return AutoSentDraft, trace;
        }
      }
      var paused;
      paused, trace := MarkAndPause(p, w, s0, trace);
      end := if paused.Some? then PausedOn(paused.value) else NothingToPause;
      EndsPaused(p, w, end, trace);
    }

    /** `run_graph` once the message's case is known, with anything interleaved. What
        it does is `RunSteps`: a run that pauses leaves the case's pending draft under
        an interrupt that names it, and however a run ends it leaves no lock behind. */
    method RunGraph(p: ProcId, c: CaseId, w: RunWorld) returns (end: RunEnd, ghost tries: nat, ghost trace: seq<P.Event>)
      requires Valid() && p !in procs && c < |cases| && AroundRun(w, p)
      modifies this
      ensures Valid() && Leads(old(State()), trace, State()) && p !in procs
      ensures RunSteps(old(State()), p, c, w, end, tries, trace)
      ensures end.PausedOn? ==> PendingOf(Tables(), c) == Some(end.draft) && c in threads && threads[c] == end.draft
      ensures end == NothingToPause ==> PendingOf(Tables(), c) == None
      ensures forall k :: k in locks ==> locks[k] != p
    {
      hide P.Run, P.Step, Sound, PendingOf, GraphSteps, TriedUntil, Tried;
      ghost var s0 := State();
      var acquired;
      acquired, tries, trace := AcquireCaseLock(p, c, P.RunGraph, w.lockWaits);
      NoLockWithoutHolder(p);
      if !acquired { return LockBusy, tries, trace; }
      ghost var rest;
      end, rest := RunNodes(p, w);
      NoLockWithoutHolder(p);
      RunConcat(s0, trace, rest);
      SliceOff(trace, rest);
      trace := trace + rest;
    }

    lemma NoLockWithoutHolder(p: ProcId)
      requires Valid()
      ensures p !in procs ==> forall k :: k in locks ==> locks[k] != p
    {
    }

    lemma TablesOfState()
      ensures State().db == Tables()
    {
    }
  }
}
