/** The draft protocol as a state machine. A state holds the tables, the paused
    graph threads, the advisory locks, and every coroutine that is between two of
    its transactions. An event is one atomic step of one actor; any sequence of
    events is a run, so a run is any interleaving of any number of sender ticks,
    graph runs, resumes, undos, resolves, sweeps and crashes.

    `claims` and `sends` are history variables: what the sender ever claimed, with
    the tables the claim saw, and what it ever handed to Twilio. */
module Protocol {
  import opened Vocabulary
  import opened TrustLadder
  import opened Tables
  import opened CaseLifecycle
  import opened Transactions
  import opened SlidingWindow

  /** `trust_graduation_threshold` and `auto_send_daily_case_cap`. */
  datatype Settings = Settings(threshold: nat, cap: nat)

  datatype RunPhase =
    | Starting
    | Classifying
    | Drafting(severity: Severity)
    | Routing(routed: Severity, guardFailed: bool)
    | AutoSending
    | Marking
    | Pausing

  datatype ResumePhase = Checking | Replaying | Finalizing

  datatype Proc =
    | Claimed(draft: DraftId, row: Draft)       // claim committed, nothing read yet
    | Ready(draft: DraftId, row: Draft, text: string, property: PropertyId, severity: Option<Severity>)
    | Delivered(draft: DraftId, row: Draft, text: string, property: PropertyId, severity: Option<Severity>)
    | Runner(caseId: CaseId, phase: RunPhase)
    | Resumer(caseId: CaseId, decided: DraftId, decision: Decision, step: ResumePhase)

  datatype Job = RunGraph | Resume(draft: DraftId, decision: Decision)

  datatype ClaimRecord = ClaimRecord(draft: DraftId, seen: Db)

  datatype SendRecord = SendRecord(draft: DraftId, text: string)

  datatype State = State(
    settings: Settings,
    db: Db,
    threads: map<CaseId, DraftId>,  // case -> draft its live interrupt was raised for
    locks: map<nat, ProcId>,        // advisory key -> holder
    procs: map<ProcId, Proc>,
    claims: seq<ClaimRecord>,
    sends: seq<SendRecord>)

  /** What Twilio did with one call: accepted it, refused it, or accepted it and
      lost the acknowledgement. */
  datatype Outcome = Accepted | RefusedCall | AcceptedAckLost

  datatype Event =
    // the world and the web tier
    | Advance(elapsed: nat)
    | Receive(party: Party, about: Option<CaseId>, body: string)
    | Identify(m: MessageId, target: Option<CaseId>, uuid: nat, landlord: LandlordId, property: PropertyId, confirms: bool)
    | ResolveCase(c: CaseId, landlord: LandlordId)
    | SweepCase(c: CaseId, leg: Leg, at: Time)
    | UndoApproval(d: DraftId, landlord: LandlordId, channel: Channel)
    | RevokeOne(landlord: LandlordId, property: PropertyId)
    | RevokeEvery(landlord: LandlordId)
    | FinalizeNeverPaused(c: CaseId, d: DraftId, decision: Decision)
    // the sender
    | ClaimDraft(p: ProcId, d: DraftId)
    | LoadContext(p: ProcId, addressable: bool)
    | Send(p: ProcId, outcome: Outcome)
    | Record(p: ProcId)
    // graph runs and resumes, which hold the case lock
    | Acquire(p: ProcId, c: CaseId, job: Job)
    | StartRun(p: ProcId)
    | ClassifyRun(p: ProcId, severity: Option<Severity>)
    | DraftRun(p: ProcId, body: string, guardFailed: bool)
    | RouteRun(p: ProcId, hardHit: bool, readsOk: bool)
    | AutoSendRun(p: ProcId)
    | MarkRun(p: ProcId)
    | PauseRun(p: ProcId)
    | CheckResume(p: ProcId)
    | ReplayResume(p: ProcId)
    | FinalizeResume(p: ProcId)
    // any coroutine dies; its transaction, and with it the lock, ends
    | Crash(p: ProcId)

  const LOCK_KEYS: nat := 0x1_0000_0000_0000_0000

  /** The advisory key of a case: the low 64 bits of its id. */
  function KeyOf(s: State, c: CaseId): nat
    requires c < |s.db.cases|
  {
    s.db.cases[c].uuid % LOCK_KEYS
  }

  predicate HoldsLock(p: Proc) { p.Runner? || p.Resumer? }

  predicate IsSender(p: Proc) { p.Claimed? || p.Ready? || p.Delivered? }

  // ----- steps ----------------------------------------------------------------

  function WithDb(s: State, db: Db): State { s.(db := db) }

  /** The coroutine is over. */
  function Retire(s: State, p: ProcId): State
    requires p in s.procs
  {
    var s' := s.(procs := s.procs - {p});
    if HoldsLock(s.procs[p]) && s.procs[p].caseId < |s.db.cases| then
      s'.(locks := s.locks - {KeyOf(s, s.procs[p].caseId)})
    else s'
  }

  predicate Running(s: State, p: ProcId) {
    p in s.procs && s.procs[p].Runner? && s.procs[p].caseId < |s.db.cases|
  }

  predicate Resuming(s: State, p: ProcId, step: ResumePhase) {
    p in s.procs && s.procs[p].Resumer? && s.procs[p].step == step && s.procs[p].caseId < |s.db.cases|
  }

  function ToPhase(s: State, p: ProcId, phase: RunPhase): State
    requires p in s.procs && s.procs[p].Runner?
  {
    s.(procs := s.procs[p := s.procs[p].(phase := phase)])
  }

  function Begun(c: CaseId, job: Job): Proc {
    match job
    case RunGraph => Runner(c, Starting)
    case Resume(d, decision) => Resumer(c, d, decision, Checking)
  }

  function StepAcquire(s: State, p: ProcId, c: CaseId, job: Job): State {
    if c < |s.db.cases| && p !in s.procs && KeyOf(s, c) !in s.locks then
      s.(locks := s.locks[KeyOf(s, c) := p], procs := s.procs[p := Begun(c, job)])
    else s
  }

  function StepClaim(s: State, p: ProcId, d: DraftId): State {
    if p in s.procs then s
    else
      var s' := WithDb(s, Claim(s.db, d));
      if ClaimWins(s.db, d) then
        s'.(procs := s.procs[p := Claimed(d, s'.db.drafts[d])], claims := s.claims + [ClaimRecord(d, s.db)])
      else s'
  }

  /** The empty-edit guard, then the recipient and case reads. Any refusal leaves
      the row in `sending`. */
  function StepLoad(s: State, p: ProcId, addressable: bool): State {
    if p in s.procs && s.procs[p].Claimed? then
      var Claimed(d, row) := s.procs[p];
      var text := SendText(row);
      if text.None? || row.caseId >= |s.db.cases| || !addressable then Retire(s, p)
      else
        var c := s.db.cases[row.caseId];
        s.(procs := s.procs[p := Ready(d, row, text.value, c.property, c.severity)])
    else s
  }

  function StepSend(s: State, p: ProcId, outcome: Outcome): State {
    if p in s.procs && s.procs[p].Ready? then
      var Ready(d, row, text, property, severity) := s.procs[p];
      match outcome
      case RefusedCall => Retire(s, p)
      case AcceptedAckLost => Retire(s, p).(sends := s.sends + [SendRecord(d, text)])
      case Accepted =>
        s.(procs := s.procs[p := Delivered(d, row, text, property, severity)], sends := s.sends + [SendRecord(d, text)])
    else s
  }

  function StepRecord(s: State, p: ProcId): State {
    if p in s.procs && s.procs[p].Delivered? && s.procs[p].draft < |s.db.drafts| then
      var Delivered(d, row, text, property, severity) := s.procs[p];
      Retire(WithDb(s, RecordSent(s.db, d, text, row.landlord, property, severity, row.edited, s.settings.threshold)), p)
    else s
  }

  /** The `auto_sent` audit rows of one case. */
  function AutoSentLog(audit: seq<AuditEntry>, c: CaseId): seq<Entry> {
    if audit == [] then []
    else
      var before, last := AutoSentLog(audit[..|audit| - 1], c), audit[|audit| - 1];
      if last.caseId == Some(c) && last.action.AutoSent? then before + [Entry(last.at, 1)] else before
  }

  /** `auto_sent_count_last_24h`. */
  function AutoSentCount(db: Db, c: CaseId): nat {
    Since(AutoSentLog(db.audit, c), db.now - DAY)
  }

  /** The routing edge after `draft_response`. Reads only. */
  function RouteAfterDraft(s: State, c: CaseId, severity: Severity, guardFailed: bool, hardHit: bool, readsOk: bool)
    : Option<RunPhase>
    requires c < |s.db.cases|
  {
    if guardFailed then None  // degraded_mode, then END
    else if severity == Emergency && !hardHit then None
    else if severity == Routine && readsOk && AutonomyUnlocked(s.db.ledger, s.db.cases[c].property)
            && AutoSentCount(s.db, c) < s.settings.cap
    then Some(AutoSending)
    else Some(Marking)
  }

  /** A fresh input on a paused thread discards its pause. */
  function StepStart(s: State, p: ProcId): State {
    if Running(s, p) && s.procs[p].phase == Starting then
      ToPhase(s.(threads := s.threads - {s.procs[p].caseId}), p, Classifying)
    else s
  }

  /** No severity means the model call failed: the run ends in `degraded_mode`. */
  function StepClassify(s: State, p: ProcId, severity: Option<Severity>): State {
    if Running(s, p) && s.procs[p].phase == Classifying then
      if severity.None? then Retire(s, p)
      else ToPhase(WithDb(s, Classify(s.db, s.procs[p].caseId, severity.value)), p, Drafting(severity.value))
    else s
  }

  function StepDraft(s: State, p: ProcId, body: string, guardFailed: bool): State {
    if Running(s, p) && s.procs[p].phase.Drafting? then
      var c := s.procs[p].caseId;
      ToPhase(WithDb(s, InsertDraft(s.db, c, s.db.cases[c].landlord, body)), p,
              Routing(s.procs[p].phase.severity, guardFailed))
    else s
  }

  function StepRoute(s: State, p: ProcId, hardHit: bool, readsOk: bool): State {
    if Running(s, p) && s.procs[p].phase.Routing? then
      var Runner(c, phase) := s.procs[p];
      match RouteAfterDraft(s, c, phase.routed, phase.guardFailed, hardHit, readsOk)
      case None => Retire(s, p)
      case Some(next) => ToPhase(s, p, next)
    else s
  }

  function StepAutoSend(s: State, p: ProcId): State {
    if Running(s, p) && s.procs[p].phase == AutoSending then
      match AutoSend(s.db, s.procs[p].caseId)
      case Some(db) => Retire(WithDb(s, db), p)
      case None => ToPhase(s, p, Marking)
    else s
  }

  function StepMark(s: State, p: ProcId): State {
    if Running(s, p) && s.procs[p].phase == Marking then
      ToPhase(WithDb(s, MarkAwaiting(s.db, s.procs[p].caseId)), p, Pausing)
    else s
  }

  /** `interrupt()` parks the thread on the draft it names. */
  function StepPause(s: State, p: ProcId): State {
    if Running(s, p) && s.procs[p].phase == Pausing then
      var c := s.procs[p].caseId;
      match PendingOf(s.db, c)
      case None => Retire(s, p)
      case Some(d) => Retire(s.(threads := s.threads[c := d]), p)
    else s
  }

  /** The checks of `resume_case_thread`, made under the lock. */
  function StepCheck(s: State, p: ProcId): State {
    if Resuming(s, p, Checking) then
      var Resumer(c, d, dec, _) := s.procs[p];
      if PendingOf(s.db, c) != Some(d) then Retire(s, p)   // DraftStaleError
      else if c !in s.threads then Retire(s, p)            // CaseNotAwaitingApprovalError
      else s.(procs := s.procs[p := Resumer(c, d, dec, Replaying)])
    else s
  }

  /** The paused node re-executes from its top, looks the draft up again, and only
      then receives the resume value; either way the pause is over. */
  function StepReplay(s: State, p: ProcId): State {
    if Resuming(s, p, Replaying) then
      var Resumer(c, d, dec, _) := s.procs[p];
      var s' := s.(threads := s.threads - {c});
      if PendingOf(s.db, c).None? || dec.action == Unrecognised then Retire(s', p)
      else s'.(procs := s.procs[p := Resumer(c, d, dec, Finalizing)])
    else s
  }

  /** The finalize node trusts the case's pending draft, not the decision's id. */
  function StepDecide(s: State, p: ProcId): State {
    if Resuming(s, p, Finalizing) then
      var Resumer(c, _, dec, _) := s.procs[p];
      match PendingOf(s.db, c)
      case None => Retire(s, p)
      case Some(x) => Retire(WithDb(s, ApplyDecision(s.db, c, x, dec)), p)
    else s
  }

  /** `_finalize_never_paused_draft` takes the lock, writes and releases in one
      transaction, and never touches the thread. */
  function StepFinalize(s: State, c: CaseId, d: DraftId, dec: Decision): State {
    if c < |s.db.cases| && KeyOf(s, c) !in s.locks then
      match FinalizeUnpaused(s.db, c, d, dec)
      case Some(db) => WithDb(s, db)
      case None => s
    else s
  }

  predicate WebEvent(e: Event) {
    e.Advance? || e.Receive? || e.Identify? || e.ResolveCase? || e.SweepCase? || e.UndoApproval? || e.RevokeOne?
    || e.RevokeEvery? || e.FinalizeNeverPaused?
  }

  predicate SenderEvent(e: Event) { e.ClaimDraft? || e.LoadContext? || e.Send? || e.Record? }

  predicate RunnerEvent(e: Event) {
    e.StartRun? || e.ClassifyRun? || e.DraftRun? || e.RouteRun? || e.AutoSendRun? || e.MarkRun? || e.PauseRun?
  }

  predicate ResumerEvent(e: Event) { e.CheckResume? || e.ReplayResume? || e.FinalizeResume? }

  predicate HolderEvent(e: Event) { RunnerEvent(e) || ResumerEvent(e) }

  function StepWeb(s: State, e: Event): State
    requires WebEvent(e)
  {
    match e
    case Advance(elapsed) => WithDb(s, s.db.(now := s.db.now + elapsed))
    case Receive(party, about, body) => WithDb(s, Transactions.Receive(s.db, party, about, body))
    case Identify(m, target, uuid, landlord, property, confirms) =>
      WithDb(s, IdentifyCase(s.db, m, target, uuid, landlord, property, confirms))
    case ResolveCase(c, landlord) => WithDb(s, ResolveByLandlord(s.db, c, landlord))
    case SweepCase(c, leg, at) => if at <= s.db.now then WithDb(s, SweepWrite(s.db, c, leg, at)) else s
    case UndoApproval(d, landlord, channel) => WithDb(s, Undo(s.db, d, landlord, channel))
    case RevokeOne(landlord, property) => WithDb(s, RevokeProperty(s.db, landlord, property))
    case RevokeEvery(landlord) => WithDb(s, RevokeAll(s.db, landlord))
    case FinalizeNeverPaused(c, d, decision) => StepFinalize(s, c, d, decision)
  }

  function StepSender(s: State, e: Event): State
    requires SenderEvent(e)
  {
    match e
    case ClaimDraft(p, d) => StepClaim(s, p, d)
    case LoadContext(p, addressable) => StepLoad(s, p, addressable)
    case Send(p, outcome) => StepSend(s, p, outcome)
    case Record(p) => StepRecord(s, p)
  }

  function StepRunner(s: State, e: Event): State
    requires RunnerEvent(e)
  {
    match e
    case StartRun(p) => StepStart(s, p)
    case ClassifyRun(p, severity) => StepClassify(s, p, severity)
    case DraftRun(p, body, guardFailed) => StepDraft(s, p, body, guardFailed)
    case RouteRun(p, hardHit, readsOk) => StepRoute(s, p, hardHit, readsOk)
    case AutoSendRun(p) => StepAutoSend(s, p)
    case MarkRun(p) => StepMark(s, p)
    case PauseRun(p) => StepPause(s, p)
  }

  function StepResumer(s: State, e: Event): State
    requires ResumerEvent(e)
  {
    match e
    case CheckResume(p) => StepCheck(s, p)
    case ReplayResume(p) => StepReplay(s, p)
    case FinalizeResume(p) => StepDecide(s, p)
  }

  function StepHolder(s: State, e: Event): State
    requires HolderEvent(e)
  {
    if RunnerEvent(e) then StepRunner(s, e) else StepResumer(s, e)
  }

  function Step(s: State, e: Event): State {
    if WebEvent(e) then StepWeb(s, e)
    else if SenderEvent(e) then StepSender(s, e)
    else if HolderEvent(e) then StepHolder(s, e)
    else
      match e
      case Acquire(p, c, job) => StepAcquire(s, p, c, job)
      case Crash(p) => if p in s.procs then Retire(s, p) else s
  }

  /** The event is a step of coroutine `p`. */
  predicate ActsAs(e: Event, p: ProcId) {
    match e
    case ClaimDraft(q, _) => q == p
    case LoadContext(q, _) => q == p
    case Send(q, _) => q == p
    case Record(q) => q == p
    case Acquire(q, _, _) => q == p
    case StartRun(q) => q == p
    case ClassifyRun(q, _) => q == p
    case DraftRun(q, _, _) => q == p
    case RouteRun(q, _, _) => q == p
    case AutoSendRun(q) => q == p
    case MarkRun(q) => q == p
    case PauseRun(q) => q == p
    case CheckResume(q) => q == p
    case ReplayResume(q) => q == p
    case FinalizeResume(q) => q == p
    case Crash(q) => q == p
    case _ => false
  }

  function Run(s: State, es: seq<Event>): State {
    if es == [] then s else Step(Run(s, es[..|es| - 1]), es[|es| - 1])
  }

  function Initial(settings: Settings, now: Time): State {
    State(settings, Db(now, [], [], [], {}, EMPTY_LEDGER, []), map[], map[], map[], [], [])
  }

  // ----- which function each event is ---------------------------------------------

  lemma WebStep(s: State, e: Event)
    requires WebEvent(e)
    ensures Step(s, e) == StepWeb(s, e)
  {
    hide StepWeb, StepSender, StepHolder;
  }

  lemma FinalizeIs(s: State, c: CaseId, d: DraftId, dec: Decision)
    ensures Step(s, FinalizeNeverPaused(c, d, dec)) == StepFinalize(s, c, d, dec)
  {
    hide Step, StepFinalize;
    WebStep(s, FinalizeNeverPaused(c, d, dec));
  }

  lemma SenderStep(s: State, e: Event)
    requires SenderEvent(e)
    ensures Step(s, e) == StepSender(s, e)
  {
    hide StepWeb, StepSender, StepHolder;
  }

  lemma RunnerStep(s: State, e: Event)
    requires RunnerEvent(e)
    ensures Step(s, e) == StepRunner(s, e)
  {
    hide StepWeb, StepSender, StepRunner, StepResumer;
  }

  lemma ResumerStep(s: State, e: Event)
    requires ResumerEvent(e)
    ensures Step(s, e) == StepResumer(s, e)
  {
    hide StepWeb, StepSender, StepRunner, StepResumer;
  }

  lemma AcquireIs(s: State, p: ProcId, c: CaseId, job: Job)
    ensures Step(s, Acquire(p, c, job)) == StepAcquire(s, p, c, job)
  {
    hide StepWeb, StepSender, StepHolder, StepAcquire;
  }

  lemma CrashIs(s: State, p: ProcId)
    ensures Step(s, Crash(p)) == if p in s.procs then Retire(s, p) else s
  {
    hide StepWeb, StepSender, StepHolder;
  }

  lemma ClaimIs(s: State, p: ProcId, d: DraftId)
    ensures Step(s, ClaimDraft(p, d)) == StepClaim(s, p, d)
  {
    hide Step, StepClaim;
    SenderStep(s, ClaimDraft(p, d));
  }

  lemma LoadIs(s: State, p: ProcId, addressable: bool)
    ensures Step(s, LoadContext(p, addressable)) == StepLoad(s, p, addressable)
  {
    hide Step, StepLoad;
    SenderStep(s, LoadContext(p, addressable));
  }

  lemma SendIs(s: State, p: ProcId, outcome: Outcome)
    ensures Step(s, Send(p, outcome)) == StepSend(s, p, outcome)
  {
    hide Step, StepSend;
    SenderStep(s, Send(p, outcome));
  }

  lemma RecordIs(s: State, p: ProcId)
    ensures Step(s, Record(p)) == StepRecord(s, p)
  {
    hide Step, StepRecord;
    SenderStep(s, Record(p));
  }

  lemma StartIs(s: State, p: ProcId)
    ensures Step(s, StartRun(p)) == StepStart(s, p)
  {
    hide Step, StepStart;
    RunnerStep(s, StartRun(p));
  }

  lemma ClassifyIs(s: State, p: ProcId, severity: Option<Severity>)
    ensures Step(s, ClassifyRun(p, severity)) == StepClassify(s, p, severity)
  {
    hide Step, StepClassify;
    RunnerStep(s, ClassifyRun(p, severity));
  }

  lemma DraftIs(s: State, p: ProcId, body: string, guardFailed: bool)
    ensures Step(s, DraftRun(p, body, guardFailed)) == StepDraft(s, p, body, guardFailed)
  {
    hide Step, StepDraft;
    RunnerStep(s, DraftRun(p, body, guardFailed));
  }

  lemma RouteIs(s: State, p: ProcId, hardHit: bool, readsOk: bool)
    ensures Step(s, RouteRun(p, hardHit, readsOk)) == StepRoute(s, p, hardHit, readsOk)
  {
    hide Step, StepRoute;
    RunnerStep(s, RouteRun(p, hardHit, readsOk));
  }

  lemma AutoSendIs(s: State, p: ProcId)
    ensures Step(s, AutoSendRun(p)) == StepAutoSend(s, p)
  {
    hide Step, StepAutoSend;
    RunnerStep(s, AutoSendRun(p));
  }

  lemma MarkIs(s: State, p: ProcId)
    ensures Step(s, MarkRun(p)) == StepMark(s, p)
  {
    hide Step, StepMark;
    RunnerStep(s, MarkRun(p));
  }

  lemma PauseIs(s: State, p: ProcId)
    ensures Step(s, PauseRun(p)) == StepPause(s, p)
  {
    hide Step, StepPause;
    RunnerStep(s, PauseRun(p));
  }

  lemma CheckIs(s: State, p: ProcId)
    ensures Step(s, CheckResume(p)) == StepCheck(s, p)
  {
    hide Step, StepCheck;
    ResumerStep(s, CheckResume(p));
  }

  lemma ReplayIs(s: State, p: ProcId)
    ensures Step(s, ReplayResume(p)) == StepReplay(s, p)
  {
    hide Step, StepReplay;
    ResumerStep(s, ReplayResume(p));
  }

  lemma DecideIs(s: State, p: ProcId)
    ensures Step(s, FinalizeResume(p)) == StepDecide(s, p)
  {
    hide Step, StepDecide;
    ResumerStep(s, FinalizeResume(p));
  }
}
