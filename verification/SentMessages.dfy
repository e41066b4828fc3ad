/** The conversation the landlord sees against what the tenant got: over every run the
    outbound messages on record are exactly the drafts recorded as sent, one each, on the
    draft's case, with the text that was handed to Twilio for it. */
module SentMessages {
  import opened Vocabulary
  import opened TrustLadder
  import opened Tables
  import opened CaseLifecycle
  import opened Transactions
  import opened LifeCycle
  import opened Protocol
  import opened SendSafety
  import opened Outcomes
  import opened Deliveries

  /** A sent draft names its message, which is what was handed to Twilio. */
  predicate OnRecord(s: State, d: DraftId) {
    d < |s.db.drafts| && s.db.drafts[d].status == Sent ==>
      && s.db.drafts[d].sentMessage.Some? && s.db.drafts[d].sentMessage.value < |s.db.messages|
      && var m := s.db.messages[s.db.drafts[d].sentMessage.value];
         m.direction == Outbound && m.party == Tenant && m.caseId == Some(s.db.drafts[d].caseId)
         && SendRecord(d, m.body) in s.sends
  }

  /** An outbound message is that of some sent draft. */
  predicate IsOfDraft(db: Db, m: MessageId, d: DraftId) {
    d < |db.drafts| && db.drafts[d].status == Sent && db.drafts[d].sentMessage == Some(m)
  }

  ghost predicate HasDraft(db: Db, m: MessageId) {
    m < |db.messages| && db.messages[m].direction == Outbound ==> exists d :: IsOfDraft(db, m, d)
  }

  /** Drafts that are not sent name no message, and no two name the same. */
  predicate OwnMessage(db: Db, d: DraftId, other: DraftId) {
    d < |db.drafts| && other < |db.drafts| && db.drafts[d].sentMessage.Some? ==>
      db.drafts[d].status == Sent && (other != d ==> db.drafts[other].sentMessage != db.drafts[d].sentMessage)
  }

  /** What a coroutine delivered is on record. */
  predicate Logged(s: State, p: ProcId) {
    p in s.procs && s.procs[p].Delivered? ==> SendRecord(s.procs[p].draft, s.procs[p].text) in s.sends
  }

  ghost predicate MessageInv(s: State) {
    && (forall d: DraftId :: OnRecord(s, d))
    && (forall m: MessageId :: HasDraft(s.db, m))
    && (forall d: DraftId, other: DraftId :: OwnMessage(s.db, d, other))
    && (forall p: ProcId :: Logged(s, p))
  }

  // ----- every step but the final write -----------------------------------------------

  predicate OnlyInbound(a: Db, b: Db) {
    a.messages <= b.messages && forall m :: |a.messages| <= m < |b.messages| ==> b.messages[m].direction == Inbound
  }

  lemma WebBringsInbound(s: State, e: Event)
    requires WebEvent(e)
    ensures OnlyInbound(s.db, StepWeb(s, e).db)
  {
    hide StepFinalize, FirstIn, RevokeKeys;
    if e.FinalizeNeverPaused? { FinalizeBringsNone(s, e.c, e.d, e.decision); }
  }

  lemma FinalizeBringsNone(s: State, c: CaseId, d: DraftId, dec: Decision)
    ensures StepFinalize(s, c, d, dec).db.messages == s.db.messages
  {
    hide FirstIn, RecordRejection;
  }

  lemma HolderBringsNone(s: State, e: Event)
    requires HolderEvent(e)
    ensures StepHolder(s, e).db.messages == s.db.messages
  {
    hide StepRunner, StepResumer;
    if RunnerEvent(e) { RunnerBringsNone(s, e); } else { ResumerBringsNone(s, e); }
  }

  lemma RunnerBringsNone(s: State, e: Event)
    requires RunnerEvent(e)
    ensures StepRunner(s, e).db.messages == s.db.messages
  {
    hide FirstIn, RouteAfterDraft, AutonomyUnlocked;
  }

  lemma ResumerBringsNone(s: State, e: Event)
    requires ResumerEvent(e)
    ensures StepResumer(s, e).db.messages == s.db.messages
  {
    hide FirstIn, RecordRejection;
  }

  /** Rows that are sent, or name a message, stay as they are, and no other becomes one. */
  predicate SentRowsKept(a: Db, b: Db) {
    && |a.drafts| <= |b.drafts|
    && (forall i :: 0 <= i < |a.drafts| ==> b.drafts[i].sentMessage == a.drafts[i].sentMessage
                                            && (a.drafts[i].status == Sent <==> b.drafts[i].status == Sent)
                                            && a.drafts[i].caseId == b.drafts[i].caseId)
    && (forall i :: |a.drafts| <= i < |b.drafts| ==> b.drafts[i].status == Pending && b.drafts[i].sentMessage.None?)
  }

  lemma MovesKeepSent(a: Db, b: Db)
    requires DbStep(a, b, false)
    ensures SentRowsKept(a, b)
  {
    forall i | 0 <= i < |a.drafts|
      ensures b.drafts[i].sentMessage == a.drafts[i].sentMessage && (a.drafts[i].status == Sent <==> b.drafts[i].status == Sent)
              && a.drafts[i].caseId == b.drafts[i].caseId
    {
      assert RowMoves(a.drafts[i], b.drafts[i], false);
    }
    forall i | |a.drafts| <= i < |b.drafts| ensures b.drafts[i].status == Pending && b.drafts[i].sentMessage.None? {
      assert FreshRow(b.drafts[i], a.now);
    }
  }

  lemma ClaimKeepsSent(s: State, p: ProcId, d: DraftId)
    ensures var s' := StepClaim(s, p, d);
            && SentRowsKept(s.db, s'.db) && s'.db.messages == s.db.messages && s'.sends == s.sends
            && forall q :: q in s'.procs && s'.procs[q].Delivered? ==> q in s.procs && s'.procs[q] == s.procs[q]
  {
    hide NewerInbound, NewerTenantInbound;
  }

  /** What every step but the final write leaves of all this. */
  predicate Undisturbing(s: State, s': State) {
    SentRowsKept(s.db, s'.db) && OnlyInbound(s.db, s'.db) && s.sends <= s'.sends
  }

  lemma OthersUndisturbing(s: State, e: Event)
    requires !e.Record?
    ensures Undisturbing(s, Step(s, e))
    ensures forall p :: Logged(s, p) ==> Logged(Step(s, e), p)
  {
    hide StepWeb, StepHolder, StepSender, DbStep, SentRowsKept, OnlyInbound;
    if SenderEvent(e) { SenderUndisturbing(s, e); }
    else {
      OtherEventQuiet(s, e);
      MovesKeepSent(s.db, Step(s, e).db);
      if WebEvent(e) { WebBringsInbound(s, e); }
      else if HolderEvent(e) { HolderBringsNone(s, e); SameMessages(s.db, Step(s, e).db); }
      else { SameMessages(s.db, Step(s, e).db); }
    }
  }

  lemma SameMessages(a: Db, b: Db)
    requires a.messages == b.messages
    ensures OnlyInbound(a, b)
  {
  }

  lemma SameDb(db: Db)
    ensures SentRowsKept(db, db)
  {
  }

  lemma SenderUndisturbing(s: State, e: Event)
    requires SenderEvent(e) && !e.Record?
    ensures Undisturbing(s, StepSender(s, e)) && forall p :: Logged(s, p) ==> Logged(StepSender(s, e), p)
  {
    hide SentRowsKept, OnlyInbound, StepClaim;
    SameDb(s.db);
    SameMessages(s.db, StepSender(s, e).db) by {
      if e.ClaimDraft? { ClaimKeepsSent(s, e.p, e.d); }
    }
    if e.ClaimDraft? { ClaimKeepsSent(s, e.p, e.d); }
    else if e.LoadContext? { LoadLogs(s, e.p, e.addressable); }
    else { SendLogs(s, e.p, e.outcome); }
  }

  lemma LoadLogs(s: State, p: ProcId, addressable: bool)
    ensures StepLoad(s, p, addressable).db == s.db && StepLoad(s, p, addressable).sends == s.sends
    ensures forall q :: Logged(s, q) ==> Logged(StepLoad(s, p, addressable), q)
  {
  }

  lemma SendLogs(s: State, p: ProcId, outcome: Outcome)
    ensures StepSend(s, p, outcome).db == s.db && s.sends <= StepSend(s, p, outcome).sends
    ensures forall q :: Logged(s, q) ==> Logged(StepSend(s, p, outcome), q)
  {
    var s' := StepSend(s, p, outcome);
    if p in s.procs && s.procs[p].Ready? && outcome == Accepted { assert s'.sends[|s.sends|] in s'.sends; }
  }

  lemma UndisturbedInv(s: State, s': State)
    requires MessageInv(s) && Undisturbing(s, s') && forall p: ProcId :: Logged(s', p)
    ensures MessageInv(s')
  {
    forall d: DraftId ensures OnRecord(s', d) {
      assert OnRecord(s, d);
    }
    forall m: MessageId ensures HasDraft(s'.db, m) {
      assert HasDraft(s.db, m);
      if m < |s'.db.messages| && s'.db.messages[m].direction == Outbound {
        assert m < |s.db.messages| && s.db.messages[m] == s'.db.messages[m];
        var d :| IsOfDraft(s.db, m, d);
        assert IsOfDraft(s'.db, m, d);
      }
    }
    forall d: DraftId, other: DraftId ensures OwnMessage(s'.db, d, other) {
      assert OwnMessage(s.db, d, other) && OwnMessage(s.db, d, d);
    }
  }

  // ----- the final write ------------------------------------------------------------------

  lemma RecordInv(s: State, p: ProcId)
    requires MessageInv(s) && SendInv(s)
    ensures MessageInv(StepRecord(s, p))
  {
    if p in s.procs && s.procs[p].Delivered? && s.procs[p].draft < |s.db.drafts| {
      assert SenderOwns(s, p) && Logged(s, p);
      RecordWrites(s, p);
      hide SendInv, StepRecord, CountedSend;
      WrittenInv(s, StepRecord(s, p), s.procs[p].draft, s.procs[p].text);
      forall q: ProcId ensures Logged(StepRecord(s, p), q) { assert Logged(s, q); }
    }
  }

  lemma WrittenInv(s: State, s': State, d: DraftId, text: string)
    requires MessageInv(s) && d < |s.db.drafts| && s.db.drafts[d].status == Sending && SendRecord(d, text) in s.sends
    requires OnlyRow(s.db.drafts, s'.db.drafts, d) && s'.sends == s.sends
    requires s'.db.messages == s.db.messages + [Message(Outbound, Tenant, Some(s.db.drafts[d].caseId), text, s.db.now)]
    requires s'.db.drafts[d] == s.db.drafts[d].(status := Sent, sentMessage := Some(|s.db.messages|), updatedAt := s.db.now)
    ensures (forall i: DraftId :: OnRecord(s', i)) && (forall m: MessageId :: HasDraft(s'.db, m))
    ensures forall i: DraftId, other: DraftId :: OwnMessage(s'.db, i, other)
  {
    var n := |s.db.messages|;
    forall i: DraftId ensures OnRecord(s', i) { assert OnRecord(s, i); }
    forall m: MessageId ensures HasDraft(s'.db, m) {
      assert HasDraft(s.db, m);
      if m == n { assert IsOfDraft(s'.db, n, d); }
      else if m < n && s.db.messages[m].direction == Outbound {
        var i :| IsOfDraft(s.db, m, i);
        assert IsOfDraft(s'.db, m, i);
      }
    }
    forall i: DraftId, other: DraftId ensures OwnMessage(s'.db, i, other) {
      assert OwnMessage(s.db, i, other) && OwnMessage(s.db, other, i) && OnRecord(s, i) && OnRecord(s, other);
    }
  }

  // ----- whole runs -------------------------------------------------------------------------

  lemma StepKeepsMessages(s: State, e: Event)
    requires MessageInv(s) && SendInv(s)
    ensures MessageInv(Step(s, e))
  {
    if e.Record? {
      RecordIs(s, e.p);
      RecordInv(s, e.p);
    } else {
      OthersUndisturbing(s, e);
      hide Step, Undisturbing, OnRecord, HasDraft, OwnMessage, Logged;
      forall p: ProcId ensures Logged(Step(s, e), p) { assert Logged(s, p); }
      UndisturbedInv(s, Step(s, e));
    }
  }

  lemma {:induction false} RunKeepsMessages(s: State, es: seq<Event>)
    requires MessageInv(s) && SendInv(s)
    ensures MessageInv(Run(s, es)) && SendInv(Run(s, es))
  {
    hide Step, MessageInv, SendInv;
    if es != [] {
      RunKeepsMessages(s, es[..|es| - 1]);
      StepKeepsMessages(Run(s, es[..|es| - 1]), es[|es| - 1]);
      StepKeepsSendInv(Run(s, es[..|es| - 1]), es[|es| - 1]);
    }
  }

  /** Over every run: each sent draft has its own outbound message to the tenant, on its
      case, with the very text that was handed to Twilio for it; and each outbound message
      is that of exactly one sent draft. */
  lemma MessagesAreSends(settings: Settings, now: Time, es: seq<Event>, d: DraftId, m: MessageId)
    ensures var s := Run(Initial(settings, now), es);
            && (d < |s.db.drafts| && s.db.drafts[d].status == Sent ==>
                  && s.db.drafts[d].sentMessage.Some? && s.db.drafts[d].sentMessage.value < |s.db.messages|
                  && var msg := s.db.messages[s.db.drafts[d].sentMessage.value];
                     msg.direction == Outbound && msg.party == Tenant && msg.caseId == Some(s.db.drafts[d].caseId)
                     && SendRecord(d, msg.body) in s.sends)
            && (m < |s.db.messages| && s.db.messages[m].direction == Outbound ==>
                  exists i: DraftId :: IsOfDraft(s.db, m, i) && forall j: DraftId :: IsOfDraft(s.db, m, j) ==> j == i)
  {
    InitialSendInv(settings, now);
    RunKeepsMessages(Initial(settings, now), es);
    var s := Run(Initial(settings, now), es);
    hide Run, SendInv;
    assert OnRecord(s, d) && HasDraft(s.db, m);
    if m < |s.db.messages| && s.db.messages[m].direction == Outbound {
      var i :| IsOfDraft(s.db, m, i);
      forall j: DraftId | IsOfDraft(s.db, m, j) ensures j == i { assert OwnMessage(s.db, i, j); }
    }
  }
}
