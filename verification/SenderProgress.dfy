/** How long a due draft can wait behind others. The sender takes the oldest due drafts, and
    whatever comes of an attempt, the row it was made on stops being due: so the drafts
    in front of a given one get fewer, by a whole batch per tick. The one thing that
    can put a row back in front is a resolved case coming alive with an approved draft
    still on it; the bound counts how often that happens. */
module SenderProgress {
  import opened Vocabulary
  import opened TrustLadder
  import opened Tables
  import opened CaseLifecycle
  import opened Transactions
  import opened LifeCycle
  import opened Protocol
  import opened SendSafety
  import opened Histories
  import opened DueQuery
  import opened Interleavings

  /** Approved, scheduled for `t` or before, on a case that is not resolved. For a past
      `t` such a row is a candidate of every tick. */
  predicate WaitsBy(db: Db, d: DraftId, t: Time) {
    d < |db.drafts| && db.drafts[d].status == Approved && Due(db.drafts[d], t) && !CaseIs(db, db.drafts[d].caseId, Resolved)
  }

  function Waiting(db: Db, t: Time): set<DraftId> {
    set d | 0 <= d < |db.drafts| && WaitsBy(db, d, t)
  }

  // ----- approvals are scheduled for later ----------------------------------------

  /** A row that is approved afterwards was so before, unchanged, or was approved now
      and is scheduled for later. */
  ghost predicate LateApprovals(a: Db, b: Db) {
    forall i :: 0 <= i < |b.drafts| && b.drafts[i].status == Approved ==>
      || (i < |a.drafts| && a.drafts[i] == b.drafts[i])
      || !Due(b.drafts[i], a.now)
  }

  lemma NoChangeLate(a: Db, b: Db)
    requires a.drafts == b.drafts
    ensures LateApprovals(a, b)
  {
  }

  lemma DecisionLate(db: Db, c: CaseId, d: DraftId, dec: Decision)
    requires d < |db.drafts| && c < |db.cases|
    ensures LateApprovals(db, ApplyDecision(db, c, d, dec))
  {
    hide RecordRejection;
  }

  lemma AutoSendLate(db: Db, c: CaseId)
    requires AutoSend(db, c).Some?
    ensures LateApprovals(db, AutoSend(db, c).value)
  {
    hide AutonomyUnlocked;
  }

  lemma CancelLate(db: Db, db': Db, c: CaseId)
    requires db'.drafts == CancelOpen(db.drafts, c, db.now)
    ensures LateApprovals(db, db')
  {
  }

  lemma InsertLate(db: Db, c: CaseId, landlord: LandlordId, body: string)
    ensures LateApprovals(db, InsertDraft(db, c, landlord, body))
  {
  }

  lemma UndoLate(db: Db, d: DraftId, landlord: LandlordId, channel: Channel)
    ensures LateApprovals(db, Undo(db, d, landlord, channel))
  {
    hide FirstIn;
  }

  lemma ClaimLate(db: Db, d: DraftId)
    ensures LateApprovals(db, Claim(db, d))
  {
    hide NewerInbound, NewerTenantInbound;
  }

  lemma FinalizeLate(s: State, c: CaseId, d: DraftId, dec: Decision)
    ensures LateApprovals(s.db, StepFinalize(s, c, d, dec).db)
  {
    hide ApplyDecision, FirstIn;
    if FinalizeUnpaused(s.db, c, d, dec).Some? {
      DecisionLate(s.db, c, d, dec);
      DecisionLate(EnsureAwaiting(s.db, c), c, d, dec);
    }
  }

  lemma WebLate(s: State, e: Event)
    requires WebEvent(e)
    ensures LateApprovals(s.db, StepWeb(s, e).db)
  {
    hide StepFinalize, Undo, LateApprovals;
    if e.ResolveCase? { ResolveLate(s.db, e.c, e.landlord); }
    else if e.SweepCase? { SweepLate(s, e.c, e.leg, e.at); }
    else if e.UndoApproval? { UndoLate(s.db, e.d, e.landlord, e.channel); }
    else if e.FinalizeNeverPaused? { FinalizeLate(s, e.c, e.d, e.decision); }
    else { NoChangeLate(s.db, StepWeb(s, e).db); }
  }

  lemma ResolveLate(db: Db, c: CaseId, landlord: LandlordId)
    ensures LateApprovals(db, ResolveByLandlord(db, c, landlord))
  {
    var db' := ResolveByLandlord(db, c, landlord);
    if db' == db { NoChangeLate(db, db); } else { CancelLate(db, db', c); }
  }

  lemma SweepLate(s: State, c: CaseId, leg: Leg, at: Time)
    ensures LateApprovals(s.db, StepWeb(s, SweepCase(c, leg, at)).db)
  {
    var db' := StepWeb(s, SweepCase(c, leg, at)).db;
    if db' == s.db { NoChangeLate(s.db, s.db); } else { CancelLate(s.db, db', c); }
  }

  lemma RecordLate(s: State, p: ProcId)
    ensures LateApprovals(s.db, StepRecord(s, p).db)
  {
    if p in s.procs && s.procs[p].Delivered? && s.procs[p].draft < |s.db.drafts| { RecordShape(s, p); }
    hide RecordSent;
  }

  lemma SenderLate(s: State, e: Event)
    requires SenderEvent(e)
    ensures LateApprovals(s.db, StepSender(s, e).db)
  {
    hide StepRecord, Claim, LateApprovals;
    NoChangeLate(s.db, s.db);
    if e.ClaimDraft? { ClaimLate(s.db, e.d); }
    else if e.Record? { RecordLate(s, e.p); }
  }

  lemma DraftLate(s: State, p: ProcId, body: string, guardFailed: bool)
    ensures LateApprovals(s.db, StepDraft(s, p, body, guardFailed).db)
  {
    hide InsertDraft;
    if Running(s, p) { InsertLate(s.db, s.procs[p].caseId, s.db.cases[s.procs[p].caseId].landlord, body); }
  }

  lemma AutoSendStepLate(s: State, p: ProcId)
    ensures LateApprovals(s.db, StepAutoSend(s, p).db)
  {
    hide AutoSend;
    if Running(s, p) && AutoSend(s.db, s.procs[p].caseId).Some? { AutoSendLate(s.db, s.procs[p].caseId); }
  }

  lemma DecideLate(s: State, p: ProcId)
    ensures LateApprovals(s.db, StepDecide(s, p).db)
  {
    hide ApplyDecision, FirstIn;
    if Resuming(s, p, Finalizing) && PendingOf(s.db, s.procs[p].caseId).Some? {
      DecisionLate(s.db, s.procs[p].caseId, PendingOf(s.db, s.procs[p].caseId).value, s.procs[p].decision);
    }
  }

  lemma RunnerLate(s: State, e: Event)
    requires RunnerEvent(e)
    ensures LateApprovals(s.db, StepRunner(s, e).db)
  {
    hide StepDraft, StepAutoSend, LateApprovals, FirstIn;
    if e.DraftRun? { DraftLate(s, e.p, e.body, e.guardFailed); }
    else if e.AutoSendRun? { AutoSendStepLate(s, e.p); }
    else { NoChangeLate(s.db, StepRunner(s, e).db); }
  }

  lemma ResumerLate(s: State, e: Event)
    requires ResumerEvent(e)
    ensures LateApprovals(s.db, StepResumer(s, e).db)
  {
    hide StepDecide, LateApprovals, FirstIn;
    if e.FinalizeResume? { DecideLate(s, e.p); } else { NoChangeLate(s.db, StepResumer(s, e).db); }
  }

  lemma StepLate(s: State, e: Event)
    ensures LateApprovals(s.db, Step(s, e).db)
  {
    hide StepWeb, StepSender, StepRunner, StepResumer, LateApprovals;
    if WebEvent(e) { WebLate(s, e); }
    else if SenderEvent(e) { SenderLate(s, e); }
    else if RunnerEvent(e) { RunnerLate(s, e); }
    else if ResumerEvent(e) { ResumerLate(s, e); }
    else { NoChangeLate(s.db, Step(s, e).db); }
  }

  // ----- who gets in front ----------------------------------------------------------

  predicate ApprovedBy(db: Db, d: DraftId, t: Time) {
    d < |db.drafts| && db.drafts[d].status == Approved && Due(db.drafts[d], t)
  }

  /** Between the two a resolved case came to life with the approved row `d` on it.
      `LeavesResolvedIff` in SweepSafety says which steps can do that. */
  predicate Revives(a: Db, b: Db, d: DraftId, t: Time) {
    && ApprovedBy(a, d, t)
    && CaseIs(a, a.drafts[d].caseId, Resolved) && !CaseIs(b, a.drafts[d].caseId, Resolved)
  }

  function RevivedNow(a: Db, b: Db, t: Time): set<DraftId> {
    set d | 0 <= d < |a.drafts| && Revives(a, b, d, t)
  }

  /** How often that happens along a run. */
  function Revivals(s: State, es: seq<Event>, t: Time): nat {
    if es == [] then 0
    else
      var init := es[..|es| - 1];
      Revivals(s, init, t) + |RevivedNow(Run(s, init).db, Run(s, es).db, t)|
  }

  function Revived(s: State, es: seq<Event>, t: Time): set<DraftId> {
    if es == [] then {}
    else
      var init := es[..|es| - 1];
      Revived(s, init, t) + RevivedNow(Run(s, init).db, Run(s, es).db, t)
  }

  lemma {:induction false} RevivedSize(s: State, es: seq<Event>, t: Time)
    ensures |Revived(s, es, t)| <= Revivals(s, es, t)
  {
    hide Run, RevivedNow;
    if es != [] {
      var init := es[..|es| - 1];
      RevivedSize(s, init, t);
      UnionSize(Revived(s, init, t), RevivedNow(Run(s, init).db, Run(s, es).db, t));
    }
  }

  lemma UnionSize(a: set<DraftId>, b: set<DraftId>)
    ensures |a + b| <= |a| + |b|
  {
    assert a + b == a + (b - a);
    SubsetSize(b - a, b);
  }

  lemma {:induction false} RevivalsConcat(s: State, a: seq<Event>, b: seq<Event>, t: Time)
    ensures Revivals(s, a + b, t) == Revivals(s, a, t) + Revivals(Run(s, a), b, t)
    ensures Revived(s, a + b, t) == Revived(s, a, t) + Revived(Run(s, a), b, t)
  {
    hide Run, RevivedNow;
    if b == [] {
      assert a + b == a;
    } else {
      var init := b[..|b| - 1];
      assert (a + b)[..|a + b| - 1] == a + init;
      RevivalsConcat(s, a, init, t);
      RunConcat(s, a, init);
      RunConcat(s, a, b);
    }
  }

  /** A row that is approved and due after a step was so before, unchanged. */
  lemma StepApprovesLate(s: State, e: Event, d: DraftId, t: Time)
    requires t <= s.db.now && ApprovedBy(Step(s, e).db, d, t)
    ensures ApprovedBy(s.db, d, t) && s.db.drafts[d] == Step(s, e).db.drafts[d]
  {
    StepLate(s, e);
    hide Step;
  }

  lemma {:induction false} ApprovedStays(s: State, es: seq<Event>, d: DraftId, t: Time)
    requires SendInv(s) && t <= s.db.now && ApprovedBy(Run(s, es).db, d, t)
    ensures ApprovedBy(s.db, d, t) && s.db.drafts[d] == Run(s, es).db.drafts[d]
  {
    hide Step, SendInv;
    if es != [] {
      var k := |es| - 1;
      NowGrows(s, es[..k]);
      StepApprovesLate(Run(s, es[..k]), es[k], d, t);
      ApprovedStays(s, es[..k], d, t);
    }
  }

  lemma StepWaits(s: State, e: Event, d: DraftId, t: Time)
    requires t <= s.db.now && WaitsBy(Step(s, e).db, d, t)
    ensures WaitsBy(s.db, d, t) || d in RevivedNow(s.db, Step(s, e).db, t)
  {
    StepApprovesLate(s, e, d, t);
    hide Step;
  }

  /** Along a run nothing joins those that wait but what was revived. */
  lemma {:induction false} WaitsOrRevived(s: State, es: seq<Event>, d: DraftId, t: Time)
    requires SendInv(s) && t <= s.db.now && WaitsBy(Run(s, es).db, d, t)
    ensures WaitsBy(s.db, d, t) || d in Revived(s, es, t)
  {
    hide Step, SendInv, WaitsBy, RevivedNow;
    if es != [] {
      var k := |es| - 1;
      NowGrows(s, es[..k]);
      StepWaits(Run(s, es[..k]), es[k], d, t);
      if WaitsBy(Run(s, es[..k]).db, d, t) { WaitsOrRevived(s, es[..k], d, t); }
    }
  }

  lemma NowGrows(s: State, es: seq<Event>)
    requires SendInv(s)
    ensures s.db.now <= Run(s, es).db.now && SendInv(Run(s, es))
  {
    LogsOnlyGrow(s, es);
    RunKeepsSendInv(s, es);
    hide Run, SendInv;
  }

  // ----- an attempt always makes room -------------------------------------------------

  lemma ClaimMakesRoom(s: State, p: ProcId, d: DraftId, t: Time)
    requires p !in s.procs && t <= s.db.now
    ensures !WaitsBy(Step(s, ClaimDraft(p, d)).db, d, t)
  {
    if d < |s.db.drafts| { ClaimOutcome(s.db, d); }
    hide NewerInbound, NewerTenantInbound;
  }

  /** Sent, cancelled, or no longer due: an attempted row does not wait any more, unless
      it is revived before the attempt is over. */
  lemma AttemptMakesRoom(s: State, p: ProcId, d: DraftId, gap: seq<Event>, w: Delivery, raised: bool, steps: seq<Event>,
                         t: Time)
    requires SendInv(s) && AttemptSteps(s, p, d, gap, w, raised, steps) && t <= s.db.now
    ensures WaitsBy(Run(s, steps).db, d, t) ==> d in Revived(s, steps, t)
  {
    hide Run, Step, SendInv, WaitsBy, ClaimWins, DeliverySteps, Revived;
    var claim := gap + [ClaimDraft(p, d)];
    var rest := steps[|claim|..];
    assert steps == claim + rest;
    RevivalsConcat(s, claim, rest, t);
    RunConcat(s, claim, rest);
    RunThen(s, gap, ClaimDraft(p, d));
    NowGrows(s, gap);
    NowGrows(s, claim);
    ClaimMakesRoom(Run(s, gap), p, d, t);
    if WaitsBy(Run(s, steps).db, d, t) { WaitsOrRevived(Run(s, claim), rest, d, t); }
  }

  lemma TickBefore(s: State, p: ProcId, ids: seq<DraftId>, gaps: seq<seq<Event>>, world: seq<Delivery>,
                   parts: seq<seq<Event>>, k: nat)
    requires TickSteps(s, p, ids, gaps, world, false, parts) && k < |parts| <= |ids|
    ensures |parts| <= |gaps| && |parts| <= |world|
    ensures TickSteps(s, p, ids, gaps, world, false, parts[..k])
    ensures AttemptSteps(Run(s, Joined(parts[..k])), p, ids[k], gaps[k], world[k], false, parts[k])
  {
    hide AttemptSteps, Run, Joined;
    var some := parts[..k];
    forall i | 0 <= i < k ensures AttemptSteps(Run(s, Joined(some[..i])), p, ids[i], gaps[i], world[i], false, some[i]) {
      assert some[..i] == parts[..i];
    }
  }

  /** After a tick none of the rows it attempted waits, but those revived meanwhile. */
  lemma {:induction false} TickMakesRoom(s: State, p: ProcId, ids: seq<DraftId>, gaps: seq<seq<Event>>, world: seq<Delivery>,
                                         parts: seq<seq<Event>>, j: nat, t: Time)
    requires SendInv(s) && TickSteps(s, p, ids, gaps, world, false, parts) && j < |parts| <= |ids| && t <= s.db.now
    ensures WaitsBy(Run(s, Joined(parts)).db, ids[j], t) ==> ids[j] in Revived(s, Joined(parts), t)
  {
    hide Run, Step, SendInv, WaitsBy, AttemptSteps, TickSteps, Revived;
    var k := |parts| - 1;
    var before, last := Joined(parts[..k]), parts[k];
    TickBefore(s, p, ids, gaps, world, parts, k);
    RevivalsConcat(s, before, last, t);
    RunConcat(s, before, last);
    NowGrows(s, before);
    if j == k {
      AttemptMakesRoom(Run(s, before), p, ids[k], gaps[k], world[k], false, last, t);
    } else {
      TickMakesRoom(s, p, ids, gaps, world, parts[..k], j, t);
      if WaitsBy(Run(s, Joined(parts)).db, ids[j], t) { WaitsOrRevived(Run(s, before), last, ids[j], t); }
    }
  }

  // ----- ticks ------------------------------------------------------------------------

  /** What happens before one tick, and the tick, as `BackendObject.Backend.SenderTick`
      reports it. */
  datatype Tick = Tick(before: seq<Event>, p: ProcId, ids: seq<DraftId>, gaps: seq<seq<Event>>, world: seq<Delivery>,
                       parts: seq<seq<Event>>)

  /** The tick met no deadline and no error: it attempted its whole batch. */
  ghost predicate FullTick(s: State, k: Tick, limit: nat) {
    var s1 := Run(s, k.before);
    && Answers(s1.db, |s1.db.drafts|, k.ids, limit) && |k.parts| == |k.ids|
    && TickSteps(s1, k.p, k.ids, k.gaps, k.world, false, k.parts)
  }

  function TraceOf(k: Tick): seq<Event> { k.before + Joined(k.parts) }

  /** The revivals of all the ticks, and of what happens between them. */
  function AllRevivals(s: State, ks: seq<Tick>, t: Time): nat
    decreases |ks|
  {
    if ks == [] then 0 else Revivals(s, TraceOf(ks[0]), t) + AllRevivals(Run(s, TraceOf(ks[0])), ks[1..], t)
  }

  /** One full tick after the other, with anything before and inside each. */
  ghost predicate Ticking(s: State, ks: seq<Tick>, limit: nat)
    decreases |ks|
  {
    ks != [] ==> FullTick(s, ks[0], limit) && Ticking(Run(s, TraceOf(ks[0])), ks[1..], limit)
  }

  /** Some tick attempted the row, or it did not wait any more when a tick began or
      ended. */
  predicate ComesUp(s: State, ks: seq<Tick>, d: DraftId, t: Time)
    decreases |ks|
  {
    && ks != []
    && (|| d in ks[0].ids || !WaitsBy(Run(s, ks[0].before).db, d, t) || !WaitsBy(Run(s, TraceOf(ks[0])).db, d, t)
        || ComesUp(Run(s, TraceOf(ks[0])), ks[1..], d, t))
  }

  /** The drafts in front of `d`: due no later, and not `d` itself. */
  function InFront(db: Db, d: DraftId, t: Time): set<DraftId> { Waiting(db, t) - {d} }

  lemma {:induction false} DistinctSize(ids: seq<DraftId>)
    requires NoRepeats(ids)
    ensures |set i | 0 <= i < |ids| :: ids[i]| == |ids|
  {
    var all := set i | 0 <= i < |ids| :: ids[i];
    if ids != [] {
      var init := ids[..|ids| - 1];
      DistinctSize(init);
      var before := set i | 0 <= i < |init| :: init[i];
      assert all == before + {ids[|ids| - 1]} by {
        forall x | x in all ensures x in before + {ids[|ids| - 1]} {
          var i :| 0 <= i < |ids| && ids[i] == x;
          if i < |init| { assert init[i] == x; }
        }
        forall x | x in before ensures x in all {
          var i :| 0 <= i < |init| && init[i] == x;
          assert ids[i] == x;
        }
      }
    } else {
      assert all == {};
    }
  }

  /** A waiting row that a batch leaves out has a whole batch of waiting rows in front
      of it. */
  lemma LeftOut(db: Db, ids: seq<DraftId>, limit: nat, d: DraftId, t: Time)
    requires Answers(db, |db.drafts|, ids, limit) && t <= db.now
    requires WaitsBy(db, d, t) && db.drafts[d].scheduledSendAt == Some(t) && d !in ids
    ensures |ids| == limit && forall i :: 0 <= i < |ids| ==> ids[i] in InFront(db, d, t)
  {
    assert Eligible(db, d);
    forall i | 0 <= i < |ids| ensures ids[i] in InFront(db, d, t) {
      assert ids[i] in ids;
      assert Eligible(db, ids[i]) && DueAt(db, ids[i]) <= DueAt(db, d);
    }
  }

  /** What is left of those that waited, when a batch of them has been attempted. */
  lemma OneBatchLess(before: set<DraftId>, after: set<DraftId>, ids: seq<DraftId>, revived: set<DraftId>)
    requires NoRepeats(ids) && after <= before + revived
    requires forall i :: 0 <= i < |ids| ==> ids[i] in before && (ids[i] in after ==> ids[i] in revived)
    ensures |after| + |ids| <= |before| + |revived|
  {
    var batch := set i | 0 <= i < |ids| :: ids[i];
    DistinctSize(ids);
    assert batch <= before && after <= (before - batch) + revived;
    assert |before - batch| == |before| - |batch|;
    SubsetSize(after, (before - batch) + revived);
    UnionSize(before - batch, revived);
  }

  lemma SubsetSize(a: set<DraftId>, b: set<DraftId>)
    requires a <= b
    ensures |a| <= |b|
  {
    assert b == a + (b - a);
  }

  lemma RowKept(s: State, es: seq<Event>, d: DraftId, t: Time)
    requires SendInv(s) && t <= s.db.now && WaitsBy(Run(s, es).db, d, t)
    ensures d < |s.db.drafts| && d < |Run(s, es).db.drafts| && s.db.drafts[d] == Run(s, es).db.drafts[d]
  {
    hide Run, SendInv;
    ApprovedStays(s, es, d, t);
  }

  /** A full tick that leaves the row waiting and out of its batch takes `limit` rows
      away from in front of it, and nothing but revivals adds any. */
  lemma TickAdvances(s: State, k: Tick, limit: nat, d: DraftId, t: Time)
    requires SendInv(s) && FullTick(s, k, limit) && t <= s.db.now
    requires WaitsBy(Run(s, k.before).db, d, t) && d !in k.ids
    requires d < |s.db.drafts| && s.db.drafts[d].scheduledSendAt == Some(t)
    ensures |InFront(Run(s, TraceOf(k)).db, d, t)| + limit <= |InFront(s.db, d, t)| + Revivals(s, TraceOf(k), t)
  {
    hide Run, SendInv, WaitsBy, TickSteps, Answers, Joined, Waiting, Revived, Revivals;
    var all := Joined(k.parts);
    var s1, s2 := Run(s, k.before), Run(s, TraceOf(k));
    RevivalsConcat(s, k.before, all, t);
    RunConcat(s, k.before, all);
    NowGrows(s, k.before);
    RowKept(s, k.before, d, t);
    LeftOut(s1.db, k.ids, limit, d, t);
    NoRepeatsIn(s1.db, k.ids, limit);
    WaitingGrows(s, k.before, t);
    WaitingGrows(s1, all, t);
    forall i | 0 <= i < |k.ids| && k.ids[i] in Waiting(s2.db, t) ensures k.ids[i] in Revived(s1, all, t) {
      TickMakesRoom(s1, k.p, k.ids, k.gaps, k.world, k.parts, i, t);
      if !WaitsBy(s2.db, k.ids[i], t) { NotWaiting(s2.db, k.ids[i], t); }
    }
    FewerInFront(s, k, s1.db, s2.db, limit, d, t);
  }

  lemma FewerInFront(s: State, k: Tick, db1: Db, db2: Db, limit: nat, d: DraftId, t: Time)
    requires NoRepeats(k.ids) && |k.ids| == limit && forall i :: 0 <= i < |k.ids| ==> k.ids[i] in InFront(db1, d, t)
    requires Waiting(db1, t) <= Waiting(s.db, t) + Revived(s, k.before, t)
    requires var r := Revived(Run(s, k.before), Joined(k.parts), t);
             && Waiting(db2, t) <= Waiting(db1, t) + r
             && (forall i :: 0 <= i < |k.ids| && k.ids[i] in Waiting(db2, t) ==> k.ids[i] in r)
    ensures |InFront(db2, d, t)| + limit
            <= |InFront(s.db, d, t)| + Revivals(s, k.before, t) + Revivals(Run(s, k.before), Joined(k.parts), t)
  {
    hide Run, Joined, Waiting, Revived, Revivals, NoRepeats;
    var r0, r := Revived(s, k.before, t), Revived(Run(s, k.before), Joined(k.parts), t);
    RevivedSize(s, k.before, t);
    RevivedSize(Run(s, k.before), Joined(k.parts), t);
    SubsetSize(InFront(db1, d, t), InFront(s.db, d, t) + r0);
    UnionSize(InFront(s.db, d, t), r0);
    OneBatchLess(InFront(db1, d, t), InFront(db2, d, t), k.ids, r);
  }

  lemma NoRepeatsIn(db: Db, ids: seq<DraftId>, limit: nat)
    requires Answers(db, |db.drafts|, ids, limit)
    ensures NoRepeats(ids)
  {
  }

  lemma NotWaiting(db: Db, d: DraftId, t: Time)
    requires !WaitsBy(db, d, t)
    ensures d !in Waiting(db, t)
  {
  }

  lemma WaitingGrows(s: State, es: seq<Event>, t: Time)
    requires SendInv(s) && t <= s.db.now
    ensures Waiting(Run(s, es).db, t) <= Waiting(s.db, t) + Revived(s, es, t)
  {
    hide Run, SendInv, Revived;
    forall d | d in Waiting(Run(s, es).db, t) ensures d in Waiting(s.db, t) + Revived(s, es, t) {
      WaitsOrRevived(s, es, d, t);
    }
  }

  lemma QuotientDrops(less: nat, more: nat, limit: nat)
    requires limit > 0 && less + limit <= more
    ensures less / limit + 1 <= more / limit
  {
    var q := less / limit;
    assert less == q * limit + less % limit;
    assert (q + 1) * limit == q * limit + limit;
    QuotientAtLeast(more, q + 1, limit);
  }

  lemma QuotientAtLeast(x: nat, q: nat, limit: nat)
    requires limit > 0 && q * limit <= x
    ensures q <= x / limit
  {
    var k := x / limit;
    assert x == k * limit + x % limit;
    if k < q { Monotone(k + 1, q, limit); }
  }

  lemma Monotone(a: nat, b: nat, limit: nat)
    requires a <= b
    ensures a * limit <= b * limit
  {
    assert (b - a) * limit >= 0;
  }

  /** What the bound counts: the rows in front, and the revivals still to come. */
  function Ahead(s: State, ks: seq<Tick>, d: DraftId, t: Time): nat { |InFront(s.db, d, t)| + AllRevivals(s, ks, t) }

  lemma OneTickCloser(s: State, ks: seq<Tick>, limit: nat, d: DraftId, t: Time)
    requires SendInv(s) && ks != [] && FullTick(s, ks[0], limit) && limit > 0 && t <= s.db.now
    requires WaitsBy(Run(s, ks[0].before).db, d, t) && d !in ks[0].ids
    requires d < |s.db.drafts| && s.db.drafts[d].scheduledSendAt == Some(t)
    ensures Ahead(Run(s, TraceOf(ks[0])), ks[1..], d, t) / limit + 1 <= Ahead(s, ks, d, t) / limit
  {
    hide Run, SendInv, WaitsBy, FullTick, TraceOf, InFront, Waiting, Revivals;
    TickAdvances(s, ks[0], limit, d, t);
    QuotientDrops(Ahead(Run(s, TraceOf(ks[0])), ks[1..], d, t), Ahead(s, ks, d, t), limit);
  }

  /** Every due draft comes up: with `n` due drafts in front of it and `r` revivals
      meanwhile, at most `(n + r) / limit` full ticks pass it over. The next one attempts
      it, or finds that it no longer waits because it was undone, sent, cancelled or its
      case resolved. Other ticks, approvals and everything else may go on. */
  lemma {:induction false} EveryDraftComesUp(s: State, ks: seq<Tick>, limit: nat, d: DraftId, t: Time)
    requires SendInv(s) && Ticking(s, ks, limit) && limit > 0 && t <= s.db.now
    requires d < |s.db.drafts| && s.db.drafts[d].scheduledSendAt == Some(t)
    ensures !ComesUp(s, ks, d, t) ==> |ks| <= Ahead(s, ks, d, t) / limit
    decreases |ks|
  {
    hide Run, SendInv, WaitsBy, FullTick, TraceOf, Ahead;
    if ks != [] {
      var k := ks[0];
      var s2 := Run(s, TraceOf(k));
      if d !in k.ids && WaitsBy(Run(s, k.before).db, d, t) && WaitsBy(s2.db, d, t) {
        OneTickCloser(s, ks, limit, d, t);
        NowGrows(s, TraceOf(k));
        RowKept(s, TraceOf(k), d, t);
        EveryDraftComesUp(s2, ks[1..], limit, d, t);
      }
    }
  }
}
