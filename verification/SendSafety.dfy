/** Send safety over every interleaving: a draft is claimed at most once and handed
    to Twilio at most once, by the one coroutine that holds its claim, with the
    text its row carried at the claim, and only if the claim's guards held. */
module SendSafety {
  import opened Vocabulary
  import opened TrustLadder
  import opened Tables
  import opened CaseLifecycle
  import opened Transactions
  import opened LifeCycle
  import opened Protocol

  predicate InFlight(s: DraftStatus) { s == Sending || s == Sent }

  /** The row a winning claim leaves behind. */
  function RowAtClaim(r: ClaimRecord): Draft
    requires r.draft < |r.seen.drafts|
  {
    r.seen.drafts[r.draft].(status := Sending, updatedAt := r.seen.now)
  }

  /** The tables the claim saw justified it. */
  predicate Justified(r: ClaimRecord) {
    r.draft < |r.seen.drafts| && Claimable(r.seen, r.seen.drafts[r.draft])
  }

  ghost predicate HasClaim(claims: seq<ClaimRecord>, d: DraftId, row: Draft) {
    exists i :: 0 <= i < |claims| && claims[i].draft == d && Justified(claims[i]) && RowAtClaim(claims[i]) == row
  }

  ghost predicate ClaimsSound(s: State) {
    && (forall i :: 0 <= i < |s.claims| ==>
          Justified(s.claims[i]) && s.claims[i].draft < |s.db.drafts| && InFlight(s.db.drafts[s.claims[i].draft].status))
    && (forall i, j :: 0 <= i < j < |s.claims| ==> s.claims[i].draft != s.claims[j].draft)
  }

  /** A coroutine between claim and record owns its row exclusively and remembers
      it exactly. */
  predicate SenderOwns(s: State, p: ProcId)
    requires p in s.procs && IsSender(s.procs[p])
  {
    var d := s.procs[p].draft;
    && d < |s.db.drafts| && s.db.drafts[d] == s.procs[p].row && s.procs[p].row.status == Sending
    && (s.procs[p].Ready? || s.procs[p].Delivered? ==> SendText(s.procs[p].row) == Some(s.procs[p].text))
  }

  ghost predicate SendersSound(s: State) {
    && (forall p :: p in s.procs && IsSender(s.procs[p]) ==>
          SenderOwns(s, p) && HasClaim(s.claims, s.procs[p].draft, s.procs[p].row))
    && (forall p, q :: p in s.procs && q in s.procs && p != q && IsSender(s.procs[p]) && IsSender(s.procs[q]) ==>
          s.procs[p].draft != s.procs[q].draft)
  }

  /** A message that left was the text of a claimed row. */
  ghost predicate Backed(claims: seq<ClaimRecord>, send: SendRecord) {
    exists i :: 0 <= i < |claims| && claims[i].draft == send.draft && Justified(claims[i])
                && SendText(claims[i].seen.drafts[send.draft]) == Some(send.text)
  }

  ghost predicate SendsSound(s: State) {
    && (forall i :: 0 <= i < |s.sends| ==>
          Backed(s.claims, s.sends[i]) && s.sends[i].draft < |s.db.drafts| && InFlight(s.db.drafts[s.sends[i].draft].status))
    && (forall i, j :: 0 <= i < j < |s.sends| ==> s.sends[i].draft != s.sends[j].draft)
    && (forall i, p :: 0 <= i < |s.sends| && p in s.procs && (s.procs[p].Claimed? || s.procs[p].Ready?) ==>
          s.sends[i].draft != s.procs[p].draft)
  }

  ghost predicate SendInv(s: State) {
    ClaimsSound(s) && SendersSound(s) && SendsSound(s)
  }

  lemma InitialSendInv(settings: Settings, now: Time)
    ensures SendInv(Initial(settings, now))
  {
  }

  // ----- every event that is not a sender's -----------------------------------

  /** What the other actors leave alone: the histories, and every row a sender
      owns. Coroutines of the sender may only disappear. */
  ghost predicate Quiet(s: State, s': State) {
    && s'.claims == s.claims && s'.sends == s.sends
    && (forall p :: p in s'.procs && IsSender(s'.procs[p]) ==> p in s.procs && s.procs[p] == s'.procs[p])
    && DbStep(s.db, s'.db, false)
  }

  lemma QuietKeeps(s: State, s': State)
    requires SendInv(s) && Quiet(s, s')
    ensures SendInv(s')
  {
    forall p | p in s'.procs && IsSender(s'.procs[p])
      ensures SenderOwns(s', p) && HasClaim(s'.claims, s'.procs[p].draft, s'.procs[p].row)
    {
      assert SenderOwns(s, p);
      var d := s.procs[p].draft;
      assert RowMoves(s.db.drafts[d], s'.db.drafts[d], false);
    }
    forall d | 0 <= d < |s.db.drafts| && InFlight(s.db.drafts[d].status) ensures s'.db.drafts[d] == s.db.drafts[d] {
      assert RowMoves(s.db.drafts[d], s'.db.drafts[d], false);
    }
  }

  lemma NoChange(db: Db)
    ensures DbStep(db, db, false)
  {
  }

  lemma ClassifyQuiet(s: State, p: ProcId, severity: Option<Severity>)
    ensures Quiet(s, StepClassify(s, p, severity))
  {
    hide DbStep, Classify;
    NoChange(s.db);
    if Running(s, p) && severity.Some? { ClassifyFacts(s.db, s.procs[p].caseId, severity.value); }
  }

  lemma DraftQuiet(s: State, p: ProcId, body: string, guardFailed: bool)
    ensures Quiet(s, StepDraft(s, p, body, guardFailed))
  {
    hide DbStep, InsertDraft;
    NoChange(s.db);
    if Running(s, p) {
      InsertFacts(s.db, s.procs[p].caseId, s.db.cases[s.procs[p].caseId].landlord, body);
    }
  }

  lemma AutoSendQuiet(s: State, p: ProcId)
    ensures Quiet(s, StepAutoSend(s, p))
  {
    hide DbStep, AutoSend;
    NoChange(s.db);
    if Running(s, p) && AutoSend(s.db, s.procs[p].caseId).Some? { AutoSendFacts(s.db, s.procs[p].caseId); }
  }

  lemma MarkQuiet(s: State, p: ProcId)
    ensures Quiet(s, StepMark(s, p))
  {
    hide DbStep, MarkAwaiting;
    NoChange(s.db);
    if Running(s, p) { MarkFacts(s.db, s.procs[p].caseId); }
  }

  lemma DecideQuiet(s: State, p: ProcId)
    ensures Quiet(s, StepDecide(s, p))
  {
    hide DbStep, ApplyDecision, FirstIn;
    NoChange(s.db);
    if Resuming(s, p, Finalizing) {
      match PendingOf(s.db, s.procs[p].caseId)
      case None =>
      case Some(x) => DecisionFacts(s.db, s.procs[p].caseId, x, s.procs[p].decision);
    }
  }

  /** Steps of a lock holder that write no table. */
  lemma ReadOnlyQuiet(s: State, e: Event)
    requires e.StartRun? || e.RouteRun? || e.PauseRun? || e.CheckResume? || e.ReplayResume?
    ensures StepHolder(s, e).db == s.db && Quiet(s, StepHolder(s, e))
  {
    hide Quiet;
    if e.CheckResume? || e.ReplayResume? { CheckingIsQuiet(s, e); } else { PausingIsQuiet(s, e); }
    hide StepStart, StepRoute, StepPause, StepCheck, StepReplay;
  }

  lemma PausingIsQuiet(s: State, e: Event)
    requires e.StartRun? || e.RouteRun? || e.PauseRun?
    ensures StepRunner(s, e).db == s.db && Quiet(s, StepRunner(s, e))
  {
    NoChange(s.db);
    hide DbStep, RouteAfterDraft, FirstIn;
  }

  lemma CheckingIsQuiet(s: State, e: Event)
    requires e.CheckResume? || e.ReplayResume?
    ensures StepResumer(s, e).db == s.db && Quiet(s, StepResumer(s, e))
  {
    NoChange(s.db);
    hide DbStep, FirstIn;
  }

  lemma WriteIsQuiet(s: State, db: Db)
    requires DbStep(s.db, db, false)
    ensures Quiet(s, WithDb(s, db))
  {
  }

  /** An event of the web tier or of the world is one write and nothing else. */
  lemma WebEventWrites(s: State, e: Event)
    requires WebEvent(e)
    ensures StepWeb(s, e) == WithDb(s, StepWeb(s, e).db)
    ensures DbStep(s.db, StepWeb(s, e).db, false)
    ensures OnePending(s.db) ==> OnePending(StepWeb(s, e).db)
  {
    hide DbStep, OnePending, Transactions.Receive, IdentifyCase, ResolveByLandlord, SweepWrite, Undo, FinalizeUnpaused,
      RevokeProperty, RevokeAll;
    NoChange(s.db);
    if e.Receive? {
      ReceiveKeepsDrafts(s.db, e.party, e.about, e.body);
      ReceiveFacts(s.db, e.party, e.about, e.body);
      SameDrafts(s.db, StepWeb(s, e).db);
    }
    else if e.Identify? { IdentifyWrites(s, e); }
    else if e.ResolveCase? { ResolveFacts(s.db, e.c, e.landlord); }
    else if e.SweepCase? { SweepFacts(s.db, e.c, e.leg, e.at); }
    else if e.UndoApproval? { UndoFacts(s.db, e.d, e.landlord, e.channel); }
    else if e.FinalizeNeverPaused? { FinalizeWrites(s, e.c, e.d, e.decision); }
    else { QuietWrites(s, e); }
  }

  lemma SameDrafts(a: Db, b: Db)
    requires a.drafts == b.drafts
    ensures OnePending(a) ==> OnePending(b)
  {
  }

  lemma ReceiveKeepsDrafts(db: Db, party: Party, about: Option<CaseId>, body: string)
    ensures Transactions.Receive(db, party, about, body).drafts == db.drafts
  {
  }

  lemma IdentifyWrites(s: State, e: Event)
    requires e.Identify?
    ensures DbStep(s.db, StepWeb(s, e).db, false)
    ensures OnePending(s.db) ==> OnePending(StepWeb(s, e).db)
  {
    hide DbStep, IdentifyCase;
    IdentifyFacts(s.db, e.m, e.target, e.uuid, e.landlord, e.property, e.confirms);
  }

  lemma FinalizeWrites(s: State, c: CaseId, d: DraftId, dec: Decision)
    ensures StepFinalize(s, c, d, dec) == WithDb(s, StepFinalize(s, c, d, dec).db)
    ensures DbStep(s.db, StepFinalize(s, c, d, dec).db, false)
    ensures OnePending(s.db) ==> OnePending(StepFinalize(s, c, d, dec).db)
  {
    hide DbStep, FinalizeUnpaused, OnePending;
    NoChange(s.db);
    if FinalizeUnpaused(s.db, c, d, dec).Some? { FinalizeFacts(s.db, c, d, dec); }
  }

  lemma QuietWrites(s: State, e: Event)
    requires e.Advance? || e.RevokeOne? || e.RevokeEvery?
    ensures DbStep(s.db, StepWeb(s, e).db, false)
    ensures OnePending(s.db) ==> OnePending(StepWeb(s, e).db)
  {
    hide RevokeKeys, PropertyRevokeKeys, LandlordRevokeKeys;
  }

  lemma LockEventQuiet(s: State, e: Event)
    requires e.Acquire? || e.Crash?
    ensures Quiet(s, Step(s, e))
  {
    hide DbStep, StepWeb, StepSender, StepHolder;
    NoChange(s.db);
  }

  lemma OtherEventQuiet(s: State, e: Event)
    requires !SenderEvent(e)
    ensures Quiet(s, Step(s, e))
  {
    hide Quiet, StepWeb, StepHolder;
    if WebEvent(e) {
      WebEventWrites(s, e);
      WriteIsQuiet(s, Step(s, e).db);
    } else if HolderEvent(e) {
      HolderEventQuiet(s, e);
    } else {
      LockEventQuiet(s, e);
    }
  }

  lemma HolderEventQuiet(s: State, e: Event)
    requires HolderEvent(e)
    ensures Quiet(s, StepHolder(s, e))
  {
    hide Quiet, StepClassify, StepDraft, StepAutoSend, StepMark, StepDecide;
    if e.ClassifyRun? { ClassifyQuiet(s, e.p, e.severity); }
    else if e.DraftRun? { DraftQuiet(s, e.p, e.body, e.guardFailed); }
    else if e.AutoSendRun? { AutoSendQuiet(s, e.p); }
    else if e.MarkRun? { MarkQuiet(s, e.p); }
    else if e.FinalizeResume? { DecideQuiet(s, e.p); }
    else { ReadOnlyQuiet(s, e); }
  }

  // ----- the sender's events --------------------------------------------------

  lemma ClaimsExtend(claims: seq<ClaimRecord>, r: ClaimRecord)
    ensures forall d, row :: HasClaim(claims, d, row) ==> HasClaim(claims + [r], d, row)
    ensures forall send :: Backed(claims, send) ==> Backed(claims + [r], send)
  {
    var all := claims + [r];
    forall d, row | HasClaim(claims, d, row) ensures HasClaim(all, d, row) {
      var i :| 0 <= i < |claims| && claims[i].draft == d && Justified(claims[i]) && RowAtClaim(claims[i]) == row;
      assert all[i] == claims[i];
    }
    forall send | Backed(claims, send) ensures Backed(all, send) {
      var i :| 0 <= i < |claims| && claims[i].draft == send.draft && Justified(claims[i])
               && SendText(claims[i].seen.drafts[send.draft]) == Some(send.text);
      assert all[i] == claims[i];
    }
  }

  /** No coroutine owns, and no send names, a row that is still approved. */
  lemma ApprovedIsFree(s: State, d: DraftId)
    requires SendInv(s) && d < |s.db.drafts| && s.db.drafts[d].status == Approved
    ensures forall q :: q in s.procs && IsSender(s.procs[q]) ==> s.procs[q].draft != d
    ensures forall i :: 0 <= i < |s.claims| ==> s.claims[i].draft != d
    ensures forall i :: 0 <= i < |s.sends| ==> s.sends[i].draft != d
  {
    forall q | q in s.procs && IsSender(s.procs[q]) ensures s.procs[q].draft != d {
      assert SenderOwns(s, q);
    }
  }

  lemma WonClaimClaims(s: State, p: ProcId, d: DraftId)
    requires SendInv(s) && p !in s.procs && ClaimWins(s.db, d)
    ensures ClaimsSound(StepClaim(s, p, d))
  {
    ApprovedIsFree(s, d);
    hide NewerInbound, NewerTenantInbound, Backed, HasClaim;
  }

  lemma WonClaimSends(s: State, p: ProcId, d: DraftId)
    requires SendInv(s) && p !in s.procs && ClaimWins(s.db, d)
    ensures SendsSound(StepClaim(s, p, d))
  {
    ApprovedIsFree(s, d);
    ClaimsExtend(s.claims, ClaimRecord(d, s.db));
    hide NewerInbound, NewerTenantInbound, Backed, HasClaim;
  }

  lemma WonClaimKeeps(s: State, p: ProcId, d: DraftId)
    requires SendInv(s) && p !in s.procs && ClaimWins(s.db, d)
    ensures SendInv(StepClaim(s, p, d))
  {
    var s' := StepClaim(s, p, d);
    var r := ClaimRecord(d, s.db);
    ApprovedIsFree(s, d);
    ClaimsExtend(s.claims, r);
    hide NewerInbound, NewerTenantInbound, Backed;
    WonClaimClaims(s, p, d);
    WonClaimSends(s, p, d);
    assert s'.claims[|s.claims|] == r && RowAtClaim(r) == s'.db.drafts[d];
    hide ClaimsSound, SendsSound;
    forall q | q in s'.procs && IsSender(s'.procs[q])
      ensures SenderOwns(s', q) && HasClaim(s'.claims, s'.procs[q].draft, s'.procs[q].row)
    {
      if q != p { assert SenderOwns(s, q); }
    }
  }

  lemma ClaimEventKeeps(s: State, p: ProcId, d: DraftId)
    requires SendInv(s)
    ensures SendInv(StepClaim(s, p, d))
  {
    NoChange(s.db);
    if p in s.procs {
    } else if ClaimWins(s.db, d) {
      WonClaimKeeps(s, p, d);
    } else {
      ClaimFacts(s.db, d);
      WriteIsQuiet(s, Claim(s.db, d));
      QuietKeeps(s, StepClaim(s, p, d));
    }
  }

  /** A sender that moves on with the same claim. */
  lemma MovingOnKeeps(s: State, p: ProcId, proc: Proc)
    requires SendInv(s) && p in s.procs && IsSender(s.procs[p]) && IsSender(proc)
    requires proc.draft == s.procs[p].draft && proc.row == s.procs[p].row
    requires proc.Ready? || proc.Delivered? ==> SendText(proc.row) == Some(proc.text)
    requires s.procs[p].Delivered? ==> proc.Delivered?
    ensures SendInv(s.(procs := s.procs[p := proc]))
  {
    var s' := s.(procs := s.procs[p := proc]);
    forall q | q in s'.procs && IsSender(s'.procs[q])
      ensures SenderOwns(s', q) && HasClaim(s'.claims, s'.procs[q].draft, s'.procs[q].row)
    {
      assert SenderOwns(s, q);
    }
    assert ClaimsSound(s') && SendsSound(s');
  }

  lemma RetireKeeps(s: State, p: ProcId)
    requires SendInv(s) && p in s.procs
    ensures SendInv(Retire(s, p))
  {
    NoChange(s.db);
    assert Quiet(s, Retire(s, p));
    QuietKeeps(s, Retire(s, p));
  }

  lemma LoadEventKeeps(s: State, p: ProcId, addressable: bool)
    requires SendInv(s)
    ensures SendInv(StepLoad(s, p, addressable))
  {
    if p in s.procs && s.procs[p].Claimed? {
      if p in StepLoad(s, p, addressable).procs {
        MovingOnKeeps(s, p, StepLoad(s, p, addressable).procs[p]);
      } else {
        RetireKeeps(s, p);
      }
    }
  }

  lemma DeliveredIsBacked(s: State, p: ProcId)
    requires SendInv(s) && p in s.procs && s.procs[p].Delivered?
    ensures Backed(s.claims, SendRecord(s.procs[p].draft, s.procs[p].text)) && SenderOwns(s, p)
  {
    var proc := s.procs[p];
    assert SenderOwns(s, p) && HasClaim(s.claims, proc.draft, proc.row);
    var i :| 0 <= i < |s.claims| && s.claims[i].draft == proc.draft && Justified(s.claims[i])
             && RowAtClaim(s.claims[i]) == proc.row;
    assert SendText(s.claims[i].seen.drafts[proc.draft]) == Some(proc.text);
  }

  /** Logging the one send of a delivered draft. */
  lemma LoggedSendKeeps(s: State, p: ProcId)
    requires SendInv(s) && p in s.procs && s.procs[p].Delivered?
    requires forall i :: 0 <= i < |s.sends| ==> s.sends[i].draft != s.procs[p].draft
    ensures SendInv(s.(sends := s.sends + [SendRecord(s.procs[p].draft, s.procs[p].text)]))
  {
    DeliveredIsBacked(s, p);
    hide Backed, HasClaim, Justified;
    var s' := s.(sends := s.sends + [SendRecord(s.procs[p].draft, s.procs[p].text)]);
    forall q | q in s'.procs && IsSender(s'.procs[q]) ensures SenderOwns(s', q) {
      assert SenderOwns(s, q);
    }
    assert ClaimsSound(s') && SendersSound(s') && SendsSound(s');
  }

  /** The state right after Twilio accepted the call. */
  function AfterSend(s: State, p: ProcId): State
    requires p in s.procs && s.procs[p].Ready?
  {
    var Ready(d, row, text, property, severity) := s.procs[p];
    s.(procs := s.procs[p := Delivered(d, row, text, property, severity)], sends := s.sends + [SendRecord(d, text)])
  }

  lemma AfterSendKeeps(s: State, p: ProcId)
    requires SendInv(s) && p in s.procs && s.procs[p].Ready?
    ensures SendInv(AfterSend(s, p))
  {
    var Ready(d, row, text, property, severity) := s.procs[p];
    assert SenderOwns(s, p);
    var after := Delivered(d, row, text, property, severity);
    MovingOnKeeps(s, p, after);
    LoggedSendKeeps(s.(procs := s.procs[p := after]), p);
  }

  lemma SendEventKeeps(s: State, p: ProcId, outcome: Outcome)
    requires SendInv(s)
    ensures SendInv(StepSend(s, p, outcome))
  {
    hide SendInv;
    if p in s.procs && s.procs[p].Ready? {
      AfterSendKeeps(s, p);
      RetireKeeps(AfterSend(s, p), p);
      RetireKeeps(s, p);
      assert AfterSend(s, p).procs - {p} == s.procs - {p};
    }
  }

  /** A row no coroutine owns may become `sent`. */
  lemma SentRowKeeps(s: State, db: Db, d: DraftId)
    requires SendInv(s) && d < |s.db.drafts| == |db.drafts| && db.drafts[d].status == Sent
    requires forall i :: 0 <= i < |s.db.drafts| && i != d ==> db.drafts[i] == s.db.drafts[i]
    requires forall q :: q in s.procs && IsSender(s.procs[q]) ==> s.procs[q].draft != d
    ensures SendInv(WithDb(s, db))
  {
    var s' := WithDb(s, db);
    forall q | q in s'.procs && IsSender(s'.procs[q]) ensures SenderOwns(s', q) {
      assert SenderOwns(s, q);
    }
    assert ClaimsSound(s') && SendersSound(s') && SendsSound(s');
  }

  lemma RecordShape(s: State, p: ProcId)
    requires p in s.procs && s.procs[p].Delivered? && s.procs[p].draft < |s.db.drafts|
    ensures var db', d := StepRecord(s, p).db, s.procs[p].draft;
            && StepRecord(s, p) == WithDb(Retire(s, p), db')
            && |db'.drafts| == |s.db.drafts| && db'.drafts[d].status == Sent
            && forall i :: 0 <= i < |s.db.drafts| && i != d ==> db'.drafts[i] == s.db.drafts[i]
  {
  }

  lemma RecordEventKeeps(s: State, p: ProcId)
    requires SendInv(s)
    ensures SendInv(StepRecord(s, p))
  {
    if p in s.procs && s.procs[p].Delivered? && s.procs[p].draft < |s.db.drafts| {
      RetireKeeps(s, p);
      RecordShape(s, p);
      SentRowKeeps(Retire(s, p), StepRecord(s, p).db, s.procs[p].draft);
    }
  }

  lemma StepKeepsSendInv(s: State, e: Event)
    requires SendInv(s)
    ensures SendInv(Step(s, e))
  {
    hide SendInv, Quiet, StepWeb, StepSender, StepHolder;
    if SenderEvent(e) {
      SenderEventKeeps(s, e);
    } else {
      OtherEventQuiet(s, e);
      QuietKeeps(s, Step(s, e));
    }
  }

  lemma SenderEventKeeps(s: State, e: Event)
    requires SendInv(s) && SenderEvent(e)
    ensures SendInv(StepSender(s, e))
  {
    hide SendInv, StepClaim, StepLoad, StepSend, StepRecord;
    if e.ClaimDraft? { ClaimEventKeeps(s, e.p, e.d); }
    else if e.LoadContext? { LoadEventKeeps(s, e.p, e.addressable); }
    else if e.Send? { SendEventKeeps(s, e.p, e.outcome); }
    else { RecordEventKeeps(s, e.p); }
  }

  lemma {:induction false} RunKeepsSendInv(s: State, es: seq<Event>)
    requires SendInv(s)
    ensures SendInv(Run(s, es))
  {
    if es != [] {
      RunKeepsSendInv(s, es[..|es| - 1]);
      StepKeepsSendInv(Run(s, es[..|es| - 1]), es[|es| - 1]);
    }
  }

  // ----- the theorems ---------------------------------------------------------

  /** At most one Twilio send per draft, whatever interleaves with what. */
  lemma AtMostOneSend(settings: Settings, now: Time, es: seq<Event>, i: nat, j: nat)
    requires i < j < |Run(Initial(settings, now), es).sends|
    ensures Run(Initial(settings, now), es).sends[i].draft != Run(Initial(settings, now), es).sends[j].draft
  {
    InitialSendInv(settings, now);
    RunKeepsSendInv(Initial(settings, now), es);
  }

  /** No two coroutines hold the same draft, and the held row is in `sending`. */
  lemma ClaimIsExclusive(settings: Settings, now: Time, es: seq<Event>, p: ProcId, q: ProcId)
    requires var s := Run(Initial(settings, now), es);
             p in s.procs && q in s.procs && IsSender(s.procs[p]) && IsSender(s.procs[q])
    ensures var s := Run(Initial(settings, now), es);
            && (p != q ==> s.procs[p].draft != s.procs[q].draft)
            && s.procs[p].draft < |s.db.drafts| && s.db.drafts[s.procs[p].draft].status == Sending
  {
    InitialSendInv(settings, now);
    RunKeepsSendInv(Initial(settings, now), es);
    assert SenderOwns(Run(Initial(settings, now), es), p);
  }

  /** Every message that left has a claim whose guards held when it was made (the
      draft was approved and due, its case was not resolved, an auto-send draft
      had no newer inbound message, an SMS-approved draft no newer tenant message
      since its approval) and its text is the landlord's edit exactly when the
      row was marked edited. */
  lemma EverySendIsJustified(settings: Settings, now: Time, es: seq<Event>, i: nat) returns (claim: ClaimRecord)
    requires i < |Run(Initial(settings, now), es).sends|
    ensures var s := Run(Initial(settings, now), es);
            && claim in s.claims && claim.draft == s.sends[i].draft < |claim.seen.drafts|
            && var row := claim.seen.drafts[claim.draft];
               && row.status == Approved && Due(row, claim.seen.now)
               && !CaseIs(claim.seen, row.caseId, Resolved)
               && (row.autoSend ==> !NewerInbound(claim.seen, row))
               && (row.approvedVia == Some(Sms) ==> !NewerTenantInbound(claim.seen, row))
               && (if row.edited then row.finalBody == Some(s.sends[i].text) && s.sends[i].text != ""
                   else row.body == s.sends[i].text)
  {
    InitialSendInv(settings, now);
    RunKeepsSendInv(Initial(settings, now), es);
    var s := Run(Initial(settings, now), es);
    var send := s.sends[i];
    assert Backed(s.claims, send);
    var k :| 0 <= k < |s.claims| && s.claims[k].draft == send.draft && Justified(s.claims[k])
             && SendText(s.claims[k].seen.drafts[send.draft]) == Some(send.text);
    claim := s.claims[k];
  }

  /** A row that was ever claimed is `sending` or `sent` at every later state: it
      never becomes claimable again. */
  lemma ClaimedForever(settings: Settings, now: Time, es: seq<Event>, more: seq<Event>, i: nat)
    requires i < |Run(Initial(settings, now), es).claims|
    ensures var s := Run(Run(Initial(settings, now), es), more);
            i < |s.claims| && s.claims[i] == Run(Initial(settings, now), es).claims[i]
            && s.claims[i].draft < |s.db.drafts| && InFlight(s.db.drafts[s.claims[i].draft].status)
  {
    InitialSendInv(settings, now);
    RunKeepsSendInv(Initial(settings, now), es);
    var s0 := Run(Initial(settings, now), es);
    RunKeepsSendInv(s0, more);
    HistoriesGrow(s0, more);
  }

  lemma SenderHistoriesGrow(s: State, e: Event)
    requires SenderEvent(e)
    ensures s.claims <= StepSender(s, e).claims && s.sends <= StepSender(s, e).sends
  {
    hide Claim, ClaimWins, RecordSent, SendText;
  }

  lemma {:induction false} HistoriesGrow(s: State, es: seq<Event>)
    ensures s.claims <= Run(s, es).claims && s.sends <= Run(s, es).sends
  {
    hide StepWeb, StepSender, StepHolder;
    if es != [] {
      HistoriesGrow(s, es[..|es| - 1]);
      var s1, e := Run(s, es[..|es| - 1]), es[|es| - 1];
      if SenderEvent(e) { SenderHistoriesGrow(s1, e); } else { OtherEventQuiet(s1, e); }
    }
  }

  /** The claim transaction leaves no zombie: afterwards the row is the caller's,
      or cancelled with an audit entry, or was not an approved, due draft of an
      unresolved case to begin with. */
  lemma ClaimOutcome(db: Db, d: DraftId)
    requires d < |db.drafts|
    ensures var row, db' := db.drafts[d], Claim(db, d);
            || (ClaimWins(db, d) && db'.drafts[d].status == Sending)
            || (db'.drafts[d].status == Cancelled && row.status == Approved
                && db'.audit == db.audit + [AuditEntry(Some(row.caseId), SendCancelled({d}), db.now)])
            || (db' == db && !(row.status == Approved && Due(row, db.now) && !CaseIs(db, row.caseId, Resolved)))
  {
  }
}
