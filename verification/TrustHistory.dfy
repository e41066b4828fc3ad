/** The trust ladder against what happened: over every run its counters are the numbers
    of clean sends, edited sends and rejections that the run recorded, so autonomy is
    earned by replies that really went out unedited. */
module TrustHistory {
  import opened Vocabulary
  import opened TrustLadder
  import opened Tables
  import opened CaseLifecycle
  import opened Transactions
  import opened Protocol
  import opened Histories

  /** The step records a delivered draft of this property and severity, edited or not. */
  predicate RecordsSend(s: State, e: Event, key: Key, edited: bool) {
    && e.Record? && e.p in s.procs && s.procs[e.p].Delivered? && s.procs[e.p].draft < |s.db.drafts|
    && (s.procs[e.p].property, s.procs[e.p].severity) == (key.0, Some(key.1)) && s.procs[e.p].row.edited == edited
  }

  predicate OfCase(db: Db, c: CaseId, key: Key) {
    c < |db.cases| && (db.cases[c].property, db.cases[c].severity) == (key.0, Some(key.1))
  }

  /** The step writes a rejection of a pending draft, on either path. */
  predicate RecordsRejection(s: State, e: Event, key: Key) {
    || (e.FinalizeResume? && Resuming(s, e.p, Finalizing) && s.procs[e.p].decision.action == Reject
        && PendingOf(s.db, s.procs[e.p].caseId).Some? && OfCase(s.db, s.procs[e.p].caseId, key))
    || (e.FinalizeNeverPaused? && e.decision.action == Reject && OfCase(s.db, e.c, key)
        && KeyOf(s, e.c) !in s.locks && PendingOf(s.db, e.c) == Some(e.d))
  }

  function SendsRecorded(s: State, es: seq<Event>, key: Key, edited: bool): nat {
    if es == [] then 0
    else
      var n := |es| - 1;
      SendsRecorded(s, es[..n], key, edited) + (if RecordsSend(Run(s, es[..n]), es[n], key, edited) then 1 else 0)
  }

  function RejectionsRecorded(s: State, es: seq<Event>, key: Key): nat {
    if es == [] then 0
    else
      var n := |es| - 1;
      RejectionsRecorded(s, es[..n], key) + (if RecordsRejection(Run(s, es[..n]), es[n], key) then 1 else 0)
  }

  // ----- the log and the counters ---------------------------------------------------

  /** The row's columns are the log's counts. */
  predicate CountersMatch(l: Ledger, key: Key) {
    var row := RowAt(l, 0, key);
    row.clean == CleanSends(l.log, key) && row.edited == EditedSends(l.log, key) && row.rejections == Rejections(l.log, key)
  }

  /** The log grew by these many entries for `key`, and the counters still match. */
  predicate CountedOn(a: Ledger, b: Ledger, key: Key, clean: nat, edited: nat, rejected: nat) {
    && CleanSends(b.log, key) == CleanSends(a.log, key) + clean
    && EditedSends(b.log, key) == EditedSends(a.log, key) + edited
    && Rejections(b.log, key) == Rejections(a.log, key) + rejected
    && (CountersMatch(a, key) ==> CountersMatch(b, key))
  }

  lemma LogGains(log: seq<TrustEvent>, e: TrustEvent, key: Key)
    ensures CleanSends(log + [e], key) == CleanSends(log, key) + (if e == CleanSend(key) then 1 else 0)
    ensures EditedSends(log + [e], key) == EditedSends(log, key) + (if e == EditedSend(key) then 1 else 0)
    ensures Rejections(log + [e], key) == Rejections(log, key) + (if e == Rejection(key) then 1 else 0)
  {
    assert (log + [e])[..|log|] == log;
  }

  lemma SendCounted(l: Ledger, landlord: LandlordId, property: PropertyId, severity: Option<Severity>, edited: bool,
                    threshold: nat, now: Time, key: Key)
    ensures var hit := (property, severity) == (key.0, Some(key.1));
            CountedOn(l, RecordSend(l, landlord, property, severity, edited, threshold, now), key,
                      if hit && !edited then 1 else 0, if hit && edited then 1 else 0, 0)
  {
    hide RecordSend, CountedOn;
    if severity.None? { NothingCounted(l, landlord, property, edited, threshold, now, key); }
    else if edited { EditCounted(l, landlord, property, severity.value, threshold, now, key); }
    else { CleanCounted(l, landlord, property, severity.value, threshold, now, key); }
  }

  lemma NothingCounted(l: Ledger, landlord: LandlordId, property: PropertyId, edited: bool, threshold: nat, now: Time, key: Key)
    ensures CountedOn(l, RecordSend(l, landlord, property, None, edited, threshold, now), key, 0, 0, 0)
  {
    SendIsCounted(l, landlord, property, None, edited, threshold, now);
    hide RecordSend, CountersMatch, CleanSends, EditedSends, Rejections;
  }

  lemma EditCounted(l: Ledger, landlord: LandlordId, property: PropertyId, sev: Severity, threshold: nat, now: Time, key: Key)
    ensures CountedOn(l, RecordSend(l, landlord, property, Some(sev), true, threshold, now), key, 0,
                      if key == (property, sev) then 1 else 0, 0)
  {
    hide RecordSend, CleanSends, EditedSends, Rejections;
    SendIsCounted(l, landlord, property, Some(sev), true, threshold, now);
    LogGains(l.log, EditedSend((property, sev)), key);
  }

  lemma CleanCounted(l: Ledger, landlord: LandlordId, property: PropertyId, sev: Severity, threshold: nat, now: Time, key: Key)
    ensures CountedOn(l, RecordSend(l, landlord, property, Some(sev), false, threshold, now), key,
                      if key == (property, sev) then 1 else 0, 0, 0)
  {
    hide RecordSend, CleanSends, EditedSends, Rejections;
    SendIsCounted(l, landlord, property, Some(sev), false, threshold, now);
    var sent := l.log + [CleanSend((property, sev))];
    LogGains(l.log, CleanSend((property, sev)), key);
    LogGains(sent, Unlock(property), key);
    assert sent + [] == sent;
  }

  lemma RejectionCounted(l: Ledger, landlord: LandlordId, property: PropertyId, severity: Option<Severity>, key: Key)
    ensures CountedOn(l, RecordRejection(l, landlord, property, severity), key, 0, 0,
                      if (property, severity) == (key.0, Some(key.1)) then 1 else 0)
  {
    RejectionIsCounted(l, landlord, property, severity);
    if severity.Some? { LogGains(l.log, Rejection((property, severity.value)), key); }
    hide RecordRejection, CleanSends, EditedSends, Rejections;
  }

  lemma RevokeNotCounted(l: Ledger, keys: set<Key>, now: Time, key: Key)
    requires keys <= l.rows.Keys
    ensures CountedOn(l, RevokeKeys(l, keys, now), key, 0, 0, 0)
  {
    LogGains(l.log, Revoke(keys), key);
    hide CleanSends, EditedSends, Rejections;
  }

  lemma DecisionCounted(db: Db, c: CaseId, d: DraftId, dec: Decision, key: Key)
    requires d < |db.drafts| && c < |db.cases|
    ensures CountedOn(db.ledger, ApplyDecision(db, c, d, dec).ledger, key, 0, 0,
                      if dec.action == Reject && db.drafts[d].status == Pending && OfCase(db, c, key) then 1 else 0)
  {
    RejectionCounted(db.ledger, db.cases[c].landlord, db.cases[c].property, db.cases[c].severity, key);
    hide RecordRejection, CountersMatch, CleanSends, EditedSends, Rejections;
  }

  // ----- one step -------------------------------------------------------------------

  lemma RecordCounted(s: State, p: ProcId, key: Key)
    ensures CountedOn(s.db.ledger, StepRecord(s, p).db.ledger, key, if RecordsSend(s, Record(p), key, false) then 1 else 0,
                      if RecordsSend(s, Record(p), key, true) then 1 else 0, 0)
  {
    hide RecordSend, CountersMatch, CleanSends, EditedSends, Rejections;
    if p in s.procs && s.procs[p].Delivered? && s.procs[p].draft < |s.db.drafts| {
      var r := s.procs[p];
      SendCounted(s.db.ledger, r.row.landlord, r.property, r.severity, r.row.edited, s.settings.threshold, s.db.now, key);
      RecordedLedger(s, p);
      hide StepRecord;
    }
  }

  lemma RecordedLedger(s: State, p: ProcId)
    requires p in s.procs && s.procs[p].Delivered? && s.procs[p].draft < |s.db.drafts|
    ensures var r := s.procs[p];
            StepRecord(s, p).db.ledger ==
              RecordSend(s.db.ledger, r.row.landlord, r.property, r.severity, r.row.edited, s.settings.threshold, s.db.now)
  {
    hide RecordSend;
  }

  lemma DecideCounted(s: State, p: ProcId, key: Key)
    ensures CountedOn(s.db.ledger, StepDecide(s, p).db.ledger, key, 0, 0,
                      if RecordsRejection(s, FinalizeResume(p), key) then 1 else 0)
  {
    hide ApplyDecision, FirstIn, CountersMatch, CleanSends, EditedSends, Rejections;
    if Resuming(s, p, Finalizing) && PendingOf(s.db, s.procs[p].caseId).Some? {
      DecisionCounted(s.db, s.procs[p].caseId, PendingOf(s.db, s.procs[p].caseId).value, s.procs[p].decision, key);
    }
  }

  lemma FinalizeCounted(s: State, c: CaseId, d: DraftId, dec: Decision, key: Key)
    ensures CountedOn(s.db.ledger, StepFinalize(s, c, d, dec).db.ledger, key, 0, 0,
                      if RecordsRejection(s, FinalizeNeverPaused(c, d, dec), key) then 1 else 0)
  {
    hide ApplyDecision, FirstIn, CountersMatch, CleanSends, EditedSends, Rejections;
    if FinalizeUnpaused(s.db, c, d, dec).Some? {
      DecisionCounted(s.db, c, d, dec, key);
      DecisionCounted(EnsureAwaiting(s.db, c), c, d, dec, key);
    }
  }

  lemma RevokesNotCounted(s: State, e: Event, key: Key)
    requires e.RevokeOne? || e.RevokeEvery?
    ensures CountedOn(s.db.ledger, StepWeb(s, e).db.ledger, key, 0, 0, 0)
  {
    if e.RevokeOne? { RevokeNotCounted(s.db.ledger, PropertyRevokeKeys(s.db.ledger, e.landlord, e.property), s.db.now, key); }
    else { RevokeNotCounted(s.db.ledger, LandlordRevokeKeys(s.db.ledger, e.landlord), s.db.now, key); }
    hide RevokeKeys, CountersMatch, CleanSends, EditedSends, Rejections;
  }

  lemma StepCounted(s: State, e: Event, key: Key)
    ensures CountedOn(s.db.ledger, Step(s, e).db.ledger, key, if RecordsSend(s, e, key, false) then 1 else 0,
                      if RecordsSend(s, e, key, true) then 1 else 0, if RecordsRejection(s, e, key) then 1 else 0)
  {
    if e.Record? { RecordIs(s, e.p); RecordCounted(s, e.p, key); }
    else if e.FinalizeResume? { DecideIs(s, e.p); DecideCounted(s, e.p, key); }
    else if e.FinalizeNeverPaused? { FinalizeIs(s, e.c, e.d, e.decision); FinalizeCounted(s, e.c, e.d, e.decision, key); }
    else if e.RevokeOne? || e.RevokeEvery? { WebStep(s, e); RevokesNotCounted(s, e, key); }
    else { OthersLeaveLedger(s, e); }
    hide Step, StepRecord, StepDecide, StepFinalize, StepWeb, CountersMatch, CleanSends, EditedSends, Rejections, FirstIn;
  }

  // ----- whole runs -------------------------------------------------------------------

  lemma {:induction false} RunCounted(s: State, es: seq<Event>, key: Key)
    ensures CountedOn(s.db.ledger, Run(s, es).db.ledger, key, SendsRecorded(s, es, key, false), SendsRecorded(s, es, key, true),
                      RejectionsRecorded(s, es, key))
  {
    hide Step, RecordsSend, RecordsRejection, CountersMatch, CleanSends, EditedSends, Rejections;
    if es != [] {
      RunCounted(s, es[..|es| - 1], key);
      StepCounted(Run(s, es[..|es| - 1]), es[|es| - 1], key);
    }
  }

  /** Over every run a property's counters are exactly what the run recorded for it: sends
      of unedited drafts, sends of edited ones, and rejections. */
  lemma CountersAreSends(settings: Settings, now: Time, es: seq<Event>, key: Key)
    ensures var s0 := Initial(settings, now);
            var row := RowAt(Run(s0, es).db.ledger, 0, key);
            && row.clean == SendsRecorded(s0, es, key, false) && row.edited == SendsRecorded(s0, es, key, true)
            && row.rejections == RejectionsRecorded(s0, es, key)
  {
    RunCounted(Initial(settings, now), es, key);
    hide Run, SendsRecorded, RejectionsRecorded;
  }

  /** So every unlock of a property, and the run of clean sends it has towards the next,
      is paid for by routine drafts of it that were recorded as sent and that nobody had
      edited; without `threshold` of them it is not unlocked. */
  lemma AutonomyIsEarned(settings: Settings, now: Time, es: seq<Event>, p: PropertyId)
    ensures var s0 := Initial(settings, now);
            var l := Run(s0, es).db.ledger;
            var sent := SendsRecorded(s0, es, (p, Routine), false);
            && settings.threshold * Unlocks(l.log, p)
                 + (if AutonomyUnlocked(l, p) then 0 else RowAt(l, 0, (p, Routine)).consecutiveClean) <= sent
            && (AutonomyUnlocked(l, p) ==> settings.threshold <= sent)
  {
    TrustIsEarned(settings, now, es, p);
    RunCounted(Initial(settings, now), es, (p, Routine));
    var l := Run(Initial(settings, now), es).db.ledger;
    assert CleanSends(EMPTY_LEDGER.log, (p, Routine)) == 0;
    hide Run, SendsRecorded, RejectionsRecorded, Unlocks, Revokes, CleanSends, EditedSends, Rejections;
    if AutonomyUnlocked(l, p) { AtLeastOnce(settings.threshold, Unlocks(l.log, p)); }
  }

  lemma AtLeastOnce(threshold: nat, times: nat)
    requires times >= 1
    ensures threshold <= threshold * times
  {
  }
}
