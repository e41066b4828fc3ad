/** What becomes of a claimed draft, spelled out in the row's own columns: when it goes
    out and with which text, what the sender leaves behind in each case, and that a
    reply a landlord decided on does reach the tenant. */
module Deliveries {
  import opened Vocabulary
  import opened TrustLadder
  import opened Tables
  import opened CaseLifecycle
  import opened Transactions
  import opened LifeCycle
  import opened Protocol
  import opened SendSafety
  import opened Histories
  import opened LockSafety
  import opened DecisionSeam
  import opened Outcomes
  import opened Interleavings

  lemma {:induction false} OthersLeaveProcAll(s: State, es: seq<Event>, p: ProcId)
    requires ByOthers(es, p)
    ensures p in Run(s, es).procs <==> p in s.procs
    ensures p in s.procs ==> Run(s, es).procs[p] == s.procs[p]
  {
    hide Step;
    if es != [] {
      OthersLeaveProcAll(s, es[..|es| - 1], p);
      OthersLeaveProc(Run(s, es[..|es| - 1]), es[|es| - 1], p);
    }
  }

  // ----- one step at a time -----------------------------------------------------

  /** The load goes on exactly when the row can be sent, and then with the landlord's
      text if the row is edited and with the draft's own if it is not. Nothing else
      changes. */
  lemma LoadGoesOnIff(s: State, p: ProcId, addressable: bool)
    requires p in s.procs && s.procs[p].Claimed?
    ensures var d, row, s' := s.procs[p].draft, s.procs[p].row, StepLoad(s, p, addressable);
            && s' == s.(procs := s'.procs)
            && (forall q :: q != p ==> (q in s'.procs <==> q in s.procs) && (q in s.procs ==> s'.procs[q] == s.procs[q]))
            && (p in s'.procs <==> addressable && row.caseId < |s.db.cases|
                                   && (row.edited ==> row.finalBody.Some? && row.finalBody.value != ""))
            && (p in s'.procs ==>
                  s'.procs[p] == Ready(d, row, if row.edited then row.finalBody.value else row.body,
                                       s.db.cases[row.caseId].property, s.db.cases[row.caseId].severity))
  {
  }

  /** A call that Twilio accepted is on record whether or not its answer arrived, a
      refused one never is, and only an answered one goes on to the final write. */
  lemma SendIsLogged(s: State, p: ProcId, outcome: Outcome)
    requires p in s.procs && s.procs[p].Ready?
    ensures var r, s' := s.procs[p], StepSend(s, p, outcome);
            && s'.db == s.db && s'.claims == s.claims
            && s'.sends == s.sends + (if outcome == RefusedCall then [] else [SendRecord(r.draft, r.text)])
            && (p in s'.procs <==> outcome == Accepted)
            && (p in s'.procs ==> s'.procs[p] == Delivered(r.draft, r.row, r.text, r.property, r.severity))
  {
  }

  // ----- one delivery, whatever happens around it -----------------------------------

  /** How a delivery leaves its draft. */
  ghost predicate LeftBehind(s: State, d: DraftId, text: string, sent: bool, recorded: bool) {
    && d < |s.db.drafts| && s.db.drafts[d].status == (if recorded then Sent else Sending)
    && (sent ==> SendRecord(d, text) in s.sends)
    && (!sent ==> forall i :: 0 <= i < |s.sends| ==> s.sends[i].draft != d)
  }

  lemma AfterOthers(s: State, es: seq<Event>, p: ProcId)
    requires SendInv(s) && ByOthers(es, p) && p in s.procs && IsSender(s.procs[p])
    ensures var s' := Run(s, es);
            && SendInv(s') && p in s'.procs && s'.procs[p] == s.procs[p] && s.sends <= s'.sends
            && s.procs[p].draft < |s'.db.drafts| && s'.db.drafts[s.procs[p].draft].status == Sending
  {
    RunKeepsSendInv(s, es);
    OthersLeaveProcAll(s, es, p);
    HistoriesGrow(s, es);
    assert SenderOwns(Run(s, es), p);
    hide Run, SendInv;
  }

  /** Nothing of it was sent yet. */
  lemma NotSentYet(s: State, p: ProcId)
    requires SendInv(s) && p in s.procs && (s.procs[p].Claimed? || s.procs[p].Ready?)
    ensures forall i :: 0 <= i < |s.sends| ==> s.sends[i].draft != s.procs[p].draft
    ensures s.procs[p].draft < |s.db.drafts| && s.db.drafts[s.procs[p].draft].status == Sending
  {
    assert SenderOwns(s, p);
  }

  lemma LoadLeaves(s: State, p: ProcId, addressable: bool, text: string)
    requires SendInv(s) && p in s.procs && s.procs[p].Claimed? && !MayGoOut(s, p, addressable)
    ensures LeftBehind(Step(s, LoadContext(p, addressable)), s.procs[p].draft, text, false, false)
  {
    NotSentYet(s, p);
    LoadIs(s, p, addressable);
    LoadGoesOnIff(s, p, addressable);
    hide Step, StepLoad, SendInv;
  }

  lemma SendLeaves(s: State, p: ProcId, outcome: Outcome)
    requires SendInv(s) && p in s.procs && s.procs[p].Ready?
    ensures var s' := Step(s, Send(p, outcome));
            && SendInv(s') && LeftBehind(s', s.procs[p].draft, s.procs[p].text, outcome != RefusedCall, false)
            && (outcome == Accepted ==>
                  p in s'.procs && s'.procs[p].Delivered? && s'.procs[p].draft == s.procs[p].draft
                  && s'.procs[p].text == s.procs[p].text)
  {
    NotSentYet(s, p);
    SendIs(s, p, outcome);
    SendIsLogged(s, p, outcome);
    SendEventKeeps(s, p, outcome);
    hide Step, StepSend, SendInv;
    var s', send := Step(s, Send(p, outcome)), SendRecord(s.procs[p].draft, s.procs[p].text);
    if outcome != RefusedCall { assert s'.sends[|s.sends|] == send; }
  }

  lemma RecordLeaves(s: State, p: ProcId, recorded: bool)
    requires SendInv(s) && p in s.procs && s.procs[p].Delivered?
    requires SendRecord(s.procs[p].draft, s.procs[p].text) in s.sends
    ensures LeftBehind(Step(s, if recorded then Record(p) else Crash(p)), s.procs[p].draft, s.procs[p].text, true, recorded)
  {
    assert SenderOwns(s, p);
    hide SendInv;
    if recorded { RecordShape(s, p); RecordIs(s, p); hide StepRecord; } else { CrashIs(s, p); }
    hide Step;
  }

  lemma LoadedText(s: State, p: ProcId, addressable: bool)
    requires SendInv(s) && MayGoOut(s, p, addressable)
    ensures var d, row, s' := s.procs[p].draft, s.procs[p].row, Step(s, LoadContext(p, addressable));
            && SendInv(s') && p in s'.procs && s'.procs[p].Ready? && s'.procs[p].draft == d
            && s'.procs[p].text == if row.edited then row.finalBody.value else row.body
  {
    LoadIs(s, p, addressable);
    LoadGoesOnIff(s, p, addressable);
    LoadEventKeeps(s, p, addressable);
    hide Step, StepLoad, SendInv;
  }

  /** A claimed draft goes out exactly when it can be sent and Twilio takes it, with the
      landlord's text if it is edited and its own if not, and it is `sent` afterwards
      exactly when the final write went through; otherwise it stays `sending`. */
  lemma DeliveryLeaves(s: State, p: ProcId, w: Delivery, trace: seq<Event>, raised: bool)
    requires SendInv(s) && p in s.procs && s.procs[p].Claimed? && WorldOf(w, p) && DeliverySteps(s, p, w, trace, raised)
    ensures var row := s.procs[p].row;
            var goes := MayGoOut(Run(s, w.beforeLoad), p, w.addressable);
            LeftBehind(Run(s, trace), s.procs[p].draft,
                       if row.edited && row.finalBody.Some? then row.finalBody.value else row.body,
                       goes && w.outcome != RefusedCall, goes && w.outcome == Accepted && w.recorded)
  {
    hide Run, Step, SendInv, LeftBehind;
    var s1 := Run(s, w.beforeLoad);
    AfterOthers(s, w.beforeLoad, p);
    var load := w.beforeLoad + [LoadContext(p, w.addressable)];
    RunThen(s, w.beforeLoad, LoadContext(p, w.addressable));
    if !MayGoOut(s1, p, w.addressable) {
      var row := s.procs[p].row;
      LoadLeaves(s1, p, w.addressable, if row.edited && row.finalBody.Some? then row.finalBody.value else row.body);
    } else {
      LoadedText(s1, p, w.addressable);
      DeliveredLeaves(s, p, w, trace, raised);
    }
  }

  lemma DeliveredLeaves(s: State, p: ProcId, w: Delivery, trace: seq<Event>, raised: bool)
    requires WorldOf(w, p) && DeliverySteps(s, p, w, trace, raised) && MayGoOut(Run(s, w.beforeLoad), p, w.addressable)
    requires var s2 := Run(s, w.beforeLoad + [LoadContext(p, w.addressable)]); SendInv(s2) && p in s2.procs && s2.procs[p].Ready?
    ensures var r := Run(s, w.beforeLoad + [LoadContext(p, w.addressable)]).procs[p];
            LeftBehind(Run(s, trace), r.draft, r.text, w.outcome != RefusedCall, w.outcome == Accepted && w.recorded)
  {
    hide Run, Step, SendInv;
    var load := w.beforeLoad + [LoadContext(p, w.addressable)];
    var s2 := Run(s, load);
    var s3 := Run(s2, w.beforeSend);
    AfterOthers(s2, w.beforeSend, p);
    RunConcat(s, load, w.beforeSend);
    RunThen(s, load + w.beforeSend, Send(p, w.outcome));
    SendLeaves(s3, p, w.outcome);
    if w.outcome == Accepted {
      var sent := load + w.beforeSend + [Send(p, w.outcome)];
      var s4 := Run(s, sent);
      var s5 := Run(s4, w.beforeRecord);
      AfterOthers(s4, w.beforeRecord, p);
      RunConcat(s, sent, w.beforeRecord);
      RunThen(s, sent + w.beforeRecord, if w.recorded then Record(p) else Crash(p));
      RecordLeaves(s5, p, w.recorded);
    }
  }

  // ----- from the decision to the tenant ----------------------------------------------

  lemma RunFive(s: State, a: Event, b: Event, c: Event, d: Event, e: Event)
    ensures Run(s, [a, b, c, d, e]) == Step(Step(Step(Step(Step(s, a), b), c), d), e)
  {
    hide Step;
    assert [a, b, c, d, e] == [] + [a] + [b] + [c] + [d] + [e];
    RunThen(s, [], a);
    RunThen(s, [] + [a], b);
    RunThen(s, [] + [a] + [b], c);
    RunThen(s, [] + [a] + [b] + [c], d);
    RunThen(s, [] + [a] + [b] + [c] + [d], e);
  }

  /** The row the claim hands over, and the tables it leaves. */
  lemma ClaimHandsOver(s: State, p: ProcId, d: DraftId)
    requires p !in s.procs && ClaimWins(s.db, d)
    ensures var s', row := Step(s, ClaimDraft(p, d)), s.db.drafts[d].(status := Sending, updatedAt := s.db.now);
            && s'.db == s.db.(drafts := s.db.drafts[d := row]) && s'.procs == s.procs[p := Claimed(d, row)]
            && s'.sends == s.sends && s'.settings == s.settings
  {
    ClaimIs(s, p, d);
    hide Step, NewerInbound, NewerTenantInbound;
  }

  /** Load, send and record of a row that can be sent, with nobody in between. */
  lemma GoesOutAlone(s: State, p: ProcId)
    requires p in s.procs && s.procs[p].Claimed? && MayGoOut(s, p, true) && s.procs[p].draft < |s.db.drafts|
    requires s.db.drafts[s.procs[p].draft] == s.procs[p].row
    ensures var d, row := s.procs[p].draft, s.procs[p].row;
            var text := if row.edited then row.finalBody.value else row.body;
            var s' := Step(Step(Step(s, LoadContext(p, true)), Send(p, Accepted)), Record(p));
            && s'.sends == s.sends + [SendRecord(d, text)]
            && s'.db.messages == s.db.messages + [Message(Outbound, Tenant, Some(row.caseId), text, s.db.now)]
            && |s'.db.drafts| == |s.db.drafts| && s'.db.drafts[d].status == Sent
            && s'.db.drafts[d].sentMessage == Some(|s.db.messages|)
            && (!CaseIs(s.db, row.caseId, Resolved) ==> CaseIs(s'.db, row.caseId, AwaitingTenant))
  {
    hide Step, StepLoad, StepSend, StepRecord, CountedSend;
    LoadIs(s, p, true);
    LoadGoesOnIff(s, p, true);
    var s1 := StepLoad(s, p, true);
    SendIs(s1, p, Accepted);
    SendIsLogged(s1, p, Accepted);
    RecordIs(StepSend(s1, p, Accepted), p);
    RecordWrites(StepSend(s1, p, Accepted), p);
  }

  lemma RecordWrites(s: State, p: ProcId)
    requires p in s.procs && s.procs[p].Delivered? && s.procs[p].draft < |s.db.drafts|
    ensures var r, s' := s.procs[p], StepRecord(s, p);
            && SentOut(s.db, s'.db, r.draft, r.text, r.row.landlord, r.property, r.severity, r.row.edited, s.settings.threshold)
            && s'.sends == s.sends && s'.claims == s.claims && s'.procs == s.procs - {p}
  {
    hide RecordSent, SentOut;
    var r := s.procs[p];
    SentIsRecorded(s.db, r.draft, r.text, r.row.landlord, r.property, r.severity, r.row.edited, s.settings.threshold);
  }

  /** A reply that a landlord approved or edited does reach the tenant: once its undo window
      is over, on an open case and not overtaken by a message, an attempt on it whose call
      Twilio accepts sends exactly the text decided on, records it as an outbound message
      to the tenant, and leaves the case waiting for them. */
  lemma DecidedReplyReachesTenant(s: State, d: DraftId, dec: Decision, at: Time, wait: nat, p: ProcId)
    requires d < |s.db.drafts| && DecidedAs(s.db.drafts[d], dec, at) && dec.action != Reject && p !in s.procs
    requires dec.action == EditAndSend ==> dec.body.Some? && dec.body.value != ""
    requires s.db.now + wait >= at + if dec.channel == Sms then 300 else 5
    requires var row := s.db.drafts[d];
             && row.caseId < |s.db.cases| && s.db.cases[row.caseId].status != Resolved
             && !(row.autoSend && Heard(s.db, row.caseId, row.createdAt, false))
             && !(dec.channel == Sms && Heard(s.db, row.caseId, at, true))
    ensures var c := s.db.drafts[d].caseId;
            var text := if dec.action == EditAndSend then dec.body.value else s.db.drafts[d].body;
            var s' := Run(s, [Advance(wait), ClaimDraft(p, d), LoadContext(p, true), Send(p, Accepted), Record(p)]);
            && s'.sends == s.sends + [SendRecord(d, text)]
            && s'.db.messages == s.db.messages + [Message(Outbound, Tenant, Some(c), text, s.db.now + wait)]
            && |s'.db.drafts| == |s.db.drafts| && s'.db.drafts[d].status == Sent
            && s'.db.drafts[d].sentMessage == Some(|s.db.messages|) && CaseIs(s'.db, c, AwaitingTenant)
  {
    hide Run, Step, Heard, ClaimWins;
    RunFive(s, Advance(wait), ClaimDraft(p, d), LoadContext(p, true), Send(p, Accepted), Record(p));
    var s1 := s.(db := s.db.(now := s.db.now + wait));
    TimePasses(s, wait);
    HeardLater(s.db, s1.db, s.db.drafts[d].caseId, s.db.drafts[d].createdAt, at);
    DecidedComesDue(s1.db, d, dec, at);
    ClaimHandsOver(s1, p, d);
    GoesOutAlone(Step(s1, ClaimDraft(p, d)), p);
  }

  lemma TimePasses(s: State, wait: nat)
    ensures Step(s, Advance(wait)) == s.(db := s.db.(now := s.db.now + wait))
  {
    WebStep(s, Advance(wait));
    hide Step;
  }

  lemma HeardLater(a: Db, b: Db, c: CaseId, since: Time, at: Time)
    requires b == a.(now := b.now)
    ensures Heard(b, c, since, false) <==> Heard(a, c, since, false)
    ensures Heard(b, c, at, true) <==> Heard(a, c, at, true)
  {
  }
}
