/** The degraded-mode retry of one message: a bounded machine with two counters,
    failed classifications and raised exceptions, whose every write re-checks the
    attempt it was decided on. */
module DegradedRetry {
  import opened Vocabulary

  const RETRY_SCHEDULE: seq<Time> := [1 * MINUTE, 5 * MINUTE, 15 * MINUTE]
  const MAX_EXCEPTIONS: nat := 3

  /** `next_retry_at`: absolute from the failure; `None` once the schedule is used up. */
  function NextRetryAt(attempt: nat, failedAt: Time): Option<Time> {
    if attempt >= |RETRY_SCHEDULE| then None else Some(failedAt + RETRY_SCHEDULE[attempt])
  }

  datatype Outcome = Resolved | Escalated | EscalatedByException | Superseded

  /** What the re-animation guard reads. `now` is `None` if the case row is missing;
      `atFailure` is the snapshot taken when the retry was queued. */
  datatype CaseView = NoCase | OfCase(now: Option<CaseStatus>, atFailure: Option<CaseStatus>, newerInbound: bool)

  /** `_case_has_moved_on` */
  predicate MovedOn(v: CaseView) {
    match v
    case NoCase => false
    case OfCase(now, atFailure, newer) => now.None? || atFailure.None? || now != atFailure || newer
  }

  /** Without a case there is nothing to have moved on from; with one, the retry goes
      ahead only if the status is known to be unchanged and no newer tenant message
      came in. */
  lemma GoesAheadIff(v: CaseView)
    ensures !MovedOn(v) <==>
              v == NoCase || (exists st: CaseStatus :: v == OfCase(Some(st), Some(st), false))
  {
    if !MovedOn(v) && v.OfCase? { assert v == OfCase(Some(v.now.value), Some(v.now.value), false); }
  }

  /** One `degraded_retry` row with its message's `needs_eyes` rows. `supersededOn` is
      history: what the guard saw when it superseded. */
  datatype Row = Row(
    pending: bool,
    attempt: nat,
    nextAt: Option<Time>,
    failedAt: Time,
    exceptions: nat,
    outcome: Option<Outcome>,
    needsEyes: nat,
    supersededOn: Option<CaseView>)

  predicate Born(r: Row) {
    r.pending && r.attempt == 0 && r.nextAt == NextRetryAt(0, r.failedAt) && r.exceptions == 0 && r.outcome == None
    && r.needsEyes <= 1 && r.supersededOn == None
  }

  // ----- the guarded writes ----------------------------------------------------

  predicate Matches(r: Row, attempt: nat) { r.pending && r.attempt == attempt }

  function Finish(r: Row, outcome: Outcome): Row {
    r.(pending := false, nextAt := None, outcome := Some(outcome))
  }

  function Resolve(r: Row, attempt: nat): Row {
    if Matches(r, attempt) then Finish(r, Outcome.Resolved) else r
  }

  function Supersede(r: Row, attempt: nat, v: CaseView): Row {
    if Matches(r, attempt) then Finish(r, Superseded).(supersededOn := Some(v)) else r
  }

  function Reschedule(r: Row, attempt: nat, nextAt: Time): Row {
    if Matches(r, attempt) then r.(attempt := attempt + 1, nextAt := Some(nextAt)) else r
  }

  /** With the `needs_eyes` insert, which keeps an existing row. */
  function Escalate(r: Row, attempt: nat, outcome: Outcome): Row {
    if Matches(r, attempt) then Finish(r, outcome).(attempt := attempt + 1, needsEyes := 1) else r
  }

  /** Exceptions are counted on any pending row; the third one escalates. */
  function RecordException(r: Row, attempt: nat): Row {
    if !r.pending then r
    else
      var counted := r.(exceptions := r.exceptions + 1);
      if counted.exceptions < MAX_EXCEPTIONS then counted else Escalate(counted, attempt, EscalatedByException)
  }

  datatype GraphResult = Classified | StillFailing | Raised

  /** What a candidate that passed the guard writes after its graph run. */
  function AfterGraph(r: Row, attempt: nat, result: GraphResult): Row {
    match result
    case Classified => Resolve(r, attempt)
    case Raised => RecordException(r, attempt)
    case StillFailing =>
      match NextRetryAt(attempt + 1, r.failedAt)
      case Some(at) => Reschedule(r, attempt, at)
      case None => Escalate(r, attempt, Escalated)
  }

  // ----- any interleaving of overlapping sweeps ----------------------------------

  datatype Phase = Selected(attempt: nat) | Retrying(attempt: nat)

  datatype State = State(row: Row, procs: map<ProcId, Phase>)

  datatype Event =
    | Select(p: ProcId, at: Time)
    | Guard(p: ProcId, view: CaseView)
    | GuardRaises(p: ProcId)
    | RunGraph(p: ProcId, result: GraphResult)
    | Crash(p: ProcId)

  function Step(s: State, e: Event): State {
    match e
    case Select(p, at) =>
      if p !in s.procs && s.row.pending && s.row.nextAt.Some? && s.row.nextAt.value <= at then
        s.(procs := s.procs[p := Selected(s.row.attempt)])
      else s
    case Guard(p, view) =>
      if p in s.procs && s.procs[p].Selected? then
        if MovedOn(view) then State(Supersede(s.row, s.procs[p].attempt, view), s.procs - {p})
        else s.(procs := s.procs[p := Retrying(s.procs[p].attempt)])
      else s
    case GuardRaises(p) =>
      if p in s.procs && s.procs[p].Selected? then State(RecordException(s.row, s.procs[p].attempt), s.procs - {p}) else s
    case RunGraph(p, result) =>
      if p in s.procs && s.procs[p].Retrying? then
        State(AfterGraph(s.row, s.procs[p].attempt, result), s.procs - {p})
      else s
    case Crash(p) => s.(procs := s.procs - {p})
  }

  function Run(s: State, es: seq<Event>): State {
    if es == [] then s else Step(Run(s, es[..|es| - 1]), es[|es| - 1])
  }

  ghost predicate RowInv(r: Row) {
    && r.needsEyes <= 1
    && (r.pending <==> r.outcome.None?)
    && (r.pending ==> r.attempt < |RETRY_SCHEDULE| && r.nextAt == NextRetryAt(r.attempt, r.failedAt))
    && (!r.pending ==> r.nextAt.None?)
    && (r.outcome == Some(Escalated) || r.outcome == Some(EscalatedByException) ==> r.needsEyes == 1)
    && (r.outcome == Some(Superseded) <==> r.supersededOn.Some?)
    && (r.supersededOn.Some? ==> MovedOn(r.supersededOn.value))
  }

  lemma StepKeepsRow(s: State, e: Event)
    requires RowInv(s.row)
    ensures RowInv(Step(s, e).row) && Step(s, e).row.failedAt == s.row.failedAt
    ensures !s.row.pending ==> Step(s, e).row == s.row
  {
  }

  lemma {:induction false} RunKeepsRow(s: State, es: seq<Event>)
    requires RowInv(s.row)
    ensures RowInv(Run(s, es).row) && Run(s, es).row.failedAt == s.row.failedAt
    ensures !s.row.pending ==> Run(s, es).row == s.row
  {
    if es != [] {
      RunKeepsRow(s, es[..|es| - 1]);
      StepKeepsRow(Run(s, es[..|es| - 1]), es[|es| - 1]);
    }
  }

  /** Over any interleaving: a row has at most one terminal outcome and it is final;
      an escalated row's message has its `needs_eyes` row; a superseded one's case
      had moved on when the guard looked; and a pending row is due at an absolute
      offset from the original failure. */
  lemma OneOutcome(r: Row, es: seq<Event>, more: seq<Event>)
    requires Born(r)
    ensures var a := Run(State(r, map[]), es).row;
            var b := Run(Run(State(r, map[]), es), more).row;
            && (a.outcome.Some? ==> b == a)
            && (a.outcome == Some(Escalated) || a.outcome == Some(EscalatedByException) ==> a.needsEyes == 1)
            && (a.outcome == Some(Superseded) ==> a.supersededOn.Some? && MovedOn(a.supersededOn.value))
            && (a.outcome.None? ==>
                  a.pending && a.nextAt == Some(r.failedAt + (if a.attempt == 0 then 60 else if a.attempt == 1 then 300 else 900)))
  {
    RunKeepsRow(State(r, map[]), es);
    RunKeepsRow(Run(State(r, map[]), es), more);
  }

  // ----- why a row ended ----------------------------------------------------------

  /** An exception met by a coroutine that holds the row, before or in its graph run, while
      the row is pending. */
  predicate RaisesOn(s: State, e: Event) {
    && s.row.pending
    && ((e.GuardRaises? && e.p in s.procs && s.procs[e.p].Selected?)
        || (e.RunGraph? && e.p in s.procs && s.procs[e.p].Retrying? && e.result == Raised))
  }

  function RaisesCounted(s: State, es: seq<Event>): nat {
    if es == [] then 0
    else
      var n := |es| - 1;
      RaisesCounted(s, es[..n]) + (if RaisesOn(Run(s, es[..n]), es[n]) then 1 else 0)
  }

  lemma {:induction false} ExceptionsAreRaises(s: State, es: seq<Event>)
    ensures Run(s, es).row.exceptions == s.row.exceptions + RaisesCounted(s, es)
  {
    if es != [] { ExceptionsAreRaises(s, es[..|es| - 1]); }
  }

  /** The coroutine's graph run, of the row's current attempt, came out as `result`. */
  predicate Answered(s: State, e: Event, result: GraphResult) {
    e.RunGraph? && e.result == result && e.p in s.procs && s.procs[e.p] == Retrying(s.row.attempt)
  }

  /** The step that ended the row, by its outcome. */
  predicate Ends(s: State, e: Event, outcome: Outcome) {
    && s.row.pending
    && match outcome
       case Resolved => Answered(s, e, Classified)
       case Escalated => Answered(s, e, StillFailing) && s.row.attempt == 2
       case EscalatedByException => RaisesOn(s, e) && s.row.exceptions >= 2
       case Superseded =>
         && e.Guard? && e.p in s.procs && s.procs[e.p] == Selected(s.row.attempt)
         && e.view.OfCase? && !(exists st: CaseStatus :: e.view == OfCase(Some(st), Some(st), false))
  }

  lemma StepEnds(s: State, e: Event)
    requires RowInv(s.row) && s.row.pending && Step(s, e).row.outcome.Some?
    ensures Ends(s, e, Step(s, e).row.outcome.value)
  {
    if e.Guard? { GoesAheadIff(e.view); }
  }

  /** Over any interleaving every final outcome has its cause, at the one step that ended
      the row: it is resolved only by a graph run that classified the message, escalated
      only by a failure of the third attempt or by an exception that was at least the
      third, and superseded only by a guard that saw its case moved on. */
  lemma {:induction false} OutcomeHasCause(r: Row, es: seq<Event>) returns (i: nat)
    requires Born(r) && Run(State(r, map[]), es).row.outcome.Some?
    ensures i < |es|
    ensures var s0 := State(r, map[]);
            && Ends(Run(s0, es[..i]), es[i], Run(s0, es).row.outcome.value)
            && (Run(s0, es).row.outcome == Some(EscalatedByException) ==> RaisesCounted(s0, es[..i + 1]) >= 3)
  {
    var s0, n := State(r, map[]), |es| - 1;
    RunKeepsRow(s0, es[..n]);
    var s := Run(s0, es[..n]);
    if s.row.outcome.Some? {
      StepKeepsRow(s, es[n]);
      i := OutcomeHasCause(r, es[..n]);
      assert es[..n][..i] == es[..i] && es[..n][..i + 1] == es[..i + 1];
    } else {
      i := n;
      StepEnds(s, es[n]);
      ExceptionsAreRaises(s0, es[..n]);
      assert es[..i + 1] == es && es[..i + 1][..n] == es[..n];
    }
  }

  // ----- termination ------------------------------------------------------------

  /** What one processed tick meets: an exception before or after the guard counts as
      `Raised`. */
  datatype TickWorld = TickWorld(view: CaseView, result: GraphResult, guardRaises: bool)

  /** One undisturbed processed tick. */
  function Tick(r: Row, w: TickWorld): Row {
    if w.guardRaises then RecordException(r, r.attempt)
    else if MovedOn(w.view) then Supersede(r, r.attempt, w.view)
    else AfterGraph(r, r.attempt, w.result)
  }

  function Ticks(r: Row, ws: seq<TickWorld>): Row {
    if ws == [] then r else Tick(Ticks(r, ws[..|ws| - 1]), ws[|ws| - 1])
  }

  /** What a candidate's tick makes of a pending row, in seconds after the failure. */
  predicate Processed(r: Row, r': Row, w: TickWorld) {
    var moved := w.view.OfCase? && (w.view.now.None? || w.view.now != w.view.atFailure || w.view.newerInbound);
    if w.guardRaises || (!moved && w.result == Raised) then
      if r.exceptions < 2 then r' == r.(exceptions := r.exceptions + 1)
      else
        r' == r.(exceptions := r.exceptions + 1, pending := false, nextAt := None, attempt := r.attempt + 1, needsEyes := 1,
                 outcome := Some(EscalatedByException))
    else if moved then r' == r.(pending := false, nextAt := None, outcome := Some(Superseded), supersededOn := Some(w.view))
    else if w.result == Classified then r' == r.(pending := false, nextAt := None, outcome := Some(Outcome.Resolved))
    else if r.attempt == 0 then r' == r.(attempt := 1, nextAt := Some(r.failedAt + 300))
    else if r.attempt == 1 then r' == r.(attempt := 2, nextAt := Some(r.failedAt + 900))
    else r' == r.(pending := false, nextAt := None, attempt := r.attempt + 1, needsEyes := 1, outcome := Some(Escalated))
  }

  lemma TickProcesses(r: Row, w: TickWorld)
    requires CountInv(r) && r.pending
    ensures Processed(r, Tick(r, w), w)
  {
  }

  function Measure(r: Row): int { (3 - r.attempt) + (3 - r.exceptions) }

  ghost predicate CountInv(r: Row) { RowInv(r) && (r.pending ==> r.exceptions < MAX_EXCEPTIONS) }

  lemma TickCounts(r: Row, w: TickWorld)
    requires CountInv(r)
    ensures CountInv(Tick(r, w))
    ensures r.pending && Tick(r, w).pending ==> Measure(Tick(r, w)) == Measure(r) - 1
    ensures !r.pending ==> Tick(r, w) == r
  {
  }

  lemma {:induction false} TicksCount(r: Row, ws: seq<TickWorld>)
    requires CountInv(r)
    ensures CountInv(Ticks(r, ws))
    ensures Ticks(r, ws).pending ==> Measure(Ticks(r, ws)) == Measure(r) - |ws|
  {
    if ws != [] {
      TicksCount(r, ws[..|ws| - 1]);
      TickCounts(Ticks(r, ws[..|ws| - 1]), ws[|ws| - 1]);
    }
  }

  /** Five processed ticks bring every row to a terminal outcome, whatever the graph
      answers and whatever raises. */
  lemma FiveTicksSuffice(r: Row, ws: seq<TickWorld>)
    requires Born(r) && |ws| >= 5
    ensures Ticks(r, ws).outcome.Some?
  {
    TicksCount(r, ws);
  }

  /** Four do not: two exceptions and two failed retries leave the row pending. */
  lemma FourTicksMayNot(r: Row)
    requires Born(r)
    ensures var again := TickWorld(NoCase, StillFailing, false);
            var raise := TickWorld(NoCase, Raised, false);
            Ticks(r, [raise, raise, again, again]).pending
  {
    var again, raise := TickWorld(NoCase, StillFailing, false), TickWorld(NoCase, Raised, false);
    var ws := [raise, raise, again, again];
    assert ws[..3] == [raise, raise, again] && ws[..3][..2] == [raise, raise] && ws[..3][..2][..1] == [raise];
    var r1 := Tick(r, raise);
    var r2 := Tick(r1, raise);
    var r3 := Tick(r2, again);
    assert Ticks(r, [raise]) == r1 by { assert [raise][..0] == []; }
    assert Ticks(r, [raise, raise]) == r2;
    assert Ticks(r, [raise, raise, again]) == r3;
  }

  // ----- the row as an object ----------------------------------------------------

  /** The row, and its message's `needs_eyes` rows, as the sweep's statements update
      them. */
  class RetryRow {
    var row: Row

    constructor (failedAt: Time)
      ensures Born(row) && row.failedAt == failedAt && row.nextAt == Some(failedAt + 60)
    {
      row := Row(true, 0, NextRetryAt(0, failedAt), failedAt, 0, None, 0, None);
    }

    method MarkExhausted(attempt: nat, outcome: Outcome, newAttempt: nat) returns (applied: bool)
      modifies this
      ensures applied <==> Matches(old(row), attempt)
      ensures row == if applied then Finish(old(row), outcome).(attempt := newAttempt) else old(row)
    {
      applied := row.pending && row.attempt == attempt;
      if applied { row := row.(pending := false, nextAt := None, outcome := Some(outcome), attempt := newAttempt); }
    }

    method EscalateRow(attempt: nat, outcome: Outcome) returns (applied: bool)
      modifies this
      ensures applied <==> Matches(old(row), attempt)
      ensures row == Escalate(old(row), attempt, outcome)
    {
      applied := MarkExhausted(attempt, outcome, attempt + 1);
      if applied { row := row.(needsEyes := 1); }  // ON CONFLICT DO NOTHING
    }

    /** `_record_candidate_exception` */
    method RecordCandidateException(attempt: nat) returns (escalated: bool)
      modifies this
      ensures row == RecordException(old(row), attempt)
      ensures escalated <==> old(row).exceptions + 1 >= MAX_EXCEPTIONS && Matches(old(row), attempt)
    {
      if !row.pending { return false; }
      row := row.(exceptions := row.exceptions + 1);
      if row.exceptions < MAX_EXCEPTIONS { return false; }
      escalated := EscalateRow(attempt, EscalatedByException);
    }

    /** One candidate of an undisturbed sweep tick: a retry that classifies the message
        resolves the row, one that fails is due again 5 and then 15 minutes after the
        failure and then escalates, and the third exception escalates too. */
    method ProcessCandidate(w: TickWorld) returns (progressed: bool)
      requires CountInv(row)
      modifies this
      ensures row == Tick(old(row), w) && CountInv(row)
      ensures old(row).pending ==> Processed(old(row), row, w)
      ensures !old(row).pending ==> row == old(row)
      ensures progressed == old(row).pending
      ensures progressed && row.pending ==> Measure(row) < Measure(old(row))
    {
      TickCounts(row, w);
      if row.pending { TickProcesses(row, w); }
      hide Processed;
      var attempt := row.attempt;
      progressed := row.pending;
      if w.guardRaises {
        var escalated := RecordCandidateException(attempt);
        return;
      }
      if MovedOn(w.view) {
        var applied := MarkExhausted(attempt, Superseded, attempt);
        if applied { row := row.(supersededOn := Some(w.view)); }
        return;
      }
      match w.result {
        case Classified =>
          var applied := MarkExhausted(attempt, Outcome.Resolved, attempt);
        case Raised =>
          var escalated := RecordCandidateException(attempt);
        case StillFailing =>
          var next := NextRetryAt(attempt + 1, row.failedAt);
          if next.Some? {
            if row.pending { row := row.(attempt := attempt + 1, nextAt := next); }
          } else {
            var escalated := EscalateRow(attempt, Escalated);
          }
      }
    }
  }
}
