/** The schedules of the backend's coroutines: which events one call makes, in which
    order, and where others may run in between. Each call of `BackendObject.Backend`
    is proved to leave the state where its schedule leads, so what the call does,
    disturbed or not, is fixed by the schedule and the state machine together. */
module Interleavings {
  import opened Vocabulary
  import opened Tables
  import opened CaseLifecycle
  import opened Transactions
  import P = Protocol

  lemma {:induction false} RunConcat(s: P.State, a: seq<P.Event>, b: seq<P.Event>)
    ensures P.Run(s, a + b) == P.Run(P.Run(s, a), b)
  {
    hide P.Step;
    if b == [] {
      assert a + b == a;
    } else {
      var n := |a + b| - 1;
      assert (a + b)[..n] == a + b[..|b| - 1];
      RunConcat(s, a, b[..|b| - 1]);
    }
  }

  lemma RunThen(s: P.State, trace: seq<P.Event>, e: P.Event)
    ensures P.Run(s, trace + [e]) == P.Step(P.Run(s, trace), e)
  {
    hide P.Step;
    assert (trace + [e])[..|trace|] == trace;
  }

  /** What the rest of the system does while coroutine `p` awaits. */
  ghost predicate ByOthers(es: seq<P.Event>, p: ProcId) {
    forall i :: 0 <= i < |es| ==> !P.ActsAs(es[i], p)
  }

  ghost predicate AllByOthers(waits: seq<seq<P.Event>>, p: ProcId) {
    forall i :: 0 <= i < |waits| ==> ByOthers(waits[i], p)
  }

  // ----- the lock loop ----------------------------------------------------------

  predicate LockTaken(s: P.State, c: CaseId) {
    c < |s.db.cases| && P.KeyOf(s, c) in s.locks
  }

  /** Everything before try `n` (from 0) of `e`: the earlier tries, and what others
      did after each of them. */
  function BeforeTry(e: P.Event, waits: seq<seq<P.Event>>, n: nat): seq<P.Event>
    requires n <= |waits|
  {
    if n == 0 then [] else BeforeTry(e, waits, n - 1) + [e] + waits[n - 1]
  }

  /** Every try before try `n` found the lock of `c` taken; try `n` found it free if
      `won`. */
  ghost predicate TriedTo(s: P.State, c: CaseId, e: P.Event, waits: seq<seq<P.Event>>, n: nat, won: bool) {
    && n <= |waits|
    && (forall k :: 0 <= k < n ==> LockTaken(P.Run(s, BeforeTry(e, waits, k)), c))
    && (won <==> !LockTaken(P.Run(s, BeforeTry(e, waits, n)), c))
  }

  /** ... and nobody gives up before the last. */
  ghost predicate TriedUntil(s: P.State, c: CaseId, e: P.Event, waits: seq<seq<P.Event>>, n: nat, won: bool) {
    TriedTo(s, c, e, waits, n, won) && (!won ==> n == |waits|)
  }

  function Tried(e: P.Event, waits: seq<seq<P.Event>>, n: nat): seq<P.Event>
    requires n <= |waits|
  {
    BeforeTry(e, waits, n) + [e]
  }

  lemma FirstTry(s: P.State, c: CaseId, e: P.Event, waits: seq<seq<P.Event>>)
    ensures TriedTo(s, c, e, waits, 0, !LockTaken(s, c)) && Tried(e, waits, 0) == [e]
  {
    assert P.Run(s, []) == s;
  }

  lemma NextTry(s: P.State, c: CaseId, e: P.Event, waits: seq<seq<P.Event>>, n: nat)
    requires TriedTo(s, c, e, waits, n, false) && n < |waits|
    ensures TriedTo(s, c, e, waits, n + 1, !LockTaken(P.Run(s, Tried(e, waits, n) + waits[n]), c))
    ensures Tried(e, waits, n + 1) == Tried(e, waits, n) + waits[n] + [e]
  {
    hide LockTaken, P.Run;
  }

  // ----- the sender -------------------------------------------------------------

  /** What the world does around one claimed draft: what others do while this
      coroutine awaits, whether the recipient and the sending number resolve, what
      Twilio answers, and whether the final write commits. */
  datatype Delivery = Delivery(
    beforeLoad: seq<P.Event>, addressable: bool,
    beforeSend: seq<P.Event>, outcome: P.Outcome,
    beforeRecord: seq<P.Event>, recorded: bool)

  ghost predicate WorldOf(w: Delivery, p: ProcId) {
    ByOthers(w.beforeLoad, p) && ByOthers(w.beforeSend, p) && ByOthers(w.beforeRecord, p)
  }

  /** The claimed row can be sent: its case and recipient are there, and an edited row
      has a text. */
  predicate MayGoOut(s: P.State, p: ProcId, addressable: bool) {
    && p in s.procs && s.procs[p].Claimed? && addressable
    && var row := s.procs[p].row;
       row.caseId < |s.db.cases| && (row.edited ==> row.finalBody.Some? && row.finalBody.value != "")
  }

  /** The steps one claimed draft takes after its claim, from state `s`: the load alone
      if the row cannot be sent, no write unless Twilio accepted, and an error exactly
      when that write fails. */
  ghost predicate DeliverySteps(s: P.State, p: ProcId, w: Delivery, trace: seq<P.Event>, raised: bool) {
    var load := w.beforeLoad + [P.LoadContext(p, w.addressable)];
    var sent := load + w.beforeSend + [P.Send(p, w.outcome)];
    if !MayGoOut(P.Run(s, w.beforeLoad), p, w.addressable) then trace == load && !raised
    else if w.outcome != P.Accepted then trace == sent && !raised
    else if w.recorded then trace == sent + w.beforeRecord + [P.Record(p)] && !raised
    else trace == sent + w.beforeRecord + [P.Crash(p)] && raised
  }

  /** One candidate of a tick, from state `s`: others, one claim by a coroutine that
      holds nothing, and the delivery of a won claim. */
  ghost predicate AttemptSteps(s: P.State, p: ProcId, d: DraftId, gap: seq<P.Event>, w: Delivery, raised: bool,
                               steps: seq<P.Event>) {
    var claim := gap + [P.ClaimDraft(p, d)];
    && claim <= steps && p !in P.Run(s, gap).procs
    && if ClaimWins(P.Run(s, gap).db, d) then DeliverySteps(P.Run(s, claim), p, w, steps[|claim|..], raised)
       else steps == claim && !raised
  }

  function Joined(parts: seq<seq<P.Event>>): seq<P.Event> {
    if parts == [] then [] else Joined(parts[..|parts| - 1]) + parts[|parts| - 1]
  }

  /** A tick's attempts, in the order of its candidates; only the last may raise. */
  ghost predicate TickSteps(s: P.State, p: ProcId, ids: seq<DraftId>, gaps: seq<seq<P.Event>>, world: seq<Delivery>,
                            raised: bool, parts: seq<seq<P.Event>>) {
    && |parts| <= |ids| && |parts| <= |gaps| && |parts| <= |world|
    && (raised ==> parts != [])
    && forall i :: 0 <= i < |parts| ==>
         AttemptSteps(P.Run(s, Joined(parts[..i])), p, ids[i], gaps[i], world[i], raised && i == |parts| - 1, parts[i])
  }

  lemma TickStarts(s: P.State, p: ProcId, ids: seq<DraftId>, gaps: seq<seq<P.Event>>, world: seq<Delivery>)
    ensures TickSteps(s, p, ids, gaps, world, false, []) && Joined([]) == []
  {
  }

  lemma TickGrows(s: P.State, p: ProcId, ids: seq<DraftId>, gaps: seq<seq<P.Event>>, world: seq<Delivery>,
                  parts: seq<seq<P.Event>>, steps: seq<P.Event>, raised: bool)
    requires TickSteps(s, p, ids, gaps, world, false, parts)
    requires |parts| < |ids| && |parts| < |gaps| && |parts| < |world|
    requires AttemptSteps(P.Run(s, Joined(parts)), p, ids[|parts|], gaps[|parts|], world[|parts|], raised, steps)
    ensures TickSteps(s, p, ids, gaps, world, raised, parts + [steps])
    ensures Joined(parts + [steps]) == Joined(parts) + steps
  {
    hide AttemptSteps, P.Run;
    var more := parts + [steps];
    assert more[..|parts|] == parts;
    assert Joined(more) == Joined(parts) + steps;
    hide Joined;
    forall i | 0 <= i < |more|
      ensures AttemptSteps(P.Run(s, Joined(more[..i])), p, ids[i], gaps[i], world[i], raised && i == |parts|, more[i])
    {
      if i < |parts| { assert more[..i] == parts[..i]; }
    }
  }

  // ----- the decision seam ------------------------------------------------------

  /** How `resolve_draft_decision` ends. */
  datatype Resolution = Done | NoSuchCase | DraftIsStale(pending: Option<DraftId>) | NotAwaiting | BadAction | LockTimeout

  /** What happens around one decision while its caller awaits: after the unlocked
      peek, between lock tries, between the transactions of the resume, before the
      second peek, and between the lock tries of the direct write. */
  datatype DecisionWorld = DecisionWorld(
    afterPeek: seq<P.Event>, resumeWaits: seq<seq<P.Event>>, beforeCheck: seq<P.Event>, beforeReplay: seq<P.Event>,
    beforeDecide: seq<P.Event>, afterResume: seq<P.Event>, directWaits: seq<seq<P.Event>>)

  ghost predicate AroundDecision(w: DecisionWorld, p: ProcId) {
    && ByOthers(w.afterPeek, p) && AllByOthers(w.resumeWaits, p) && ByOthers(w.beforeCheck, p)
    && ByOthers(w.beforeReplay, p) && ByOthers(w.beforeDecide, p) && ByOthers(w.afterResume, p)
    && AllByOthers(w.directWaits, p)
  }

  /** Nobody else runs. */
  predicate Alone(w: DecisionWorld) {
    w.afterPeek == w.beforeCheck == w.beforeReplay == w.beforeDecide == w.afterResume == []
  }

  ghost predicate ReplaySteps(p: ProcId, w: DecisionWorld, trace: seq<P.Event>) {
    var replayed := w.beforeReplay + [P.ReplayResume(p)];
    trace == replayed || trace == replayed + w.beforeDecide + [P.FinalizeResume(p)]
  }

  /** The resume: lock, check, and replay the paused node, which may end there or go
      on to the finalize node. */
  ghost predicate ResumeSteps(s: P.State, p: ProcId, c: CaseId, d: DraftId, dec: Decision, w: DecisionWorld,
                              r: Resolution, tries: nat, trace: seq<P.Event>) {
    var e := P.Acquire(p, c, P.Resume(d, dec));
    && TriedUntil(s, c, e, w.resumeWaits, tries, r != LockTimeout)
    && var locked := Tried(e, w.resumeWaits, tries);
       var checked := locked + w.beforeCheck + [P.CheckResume(p)];
       match r
       case LockTimeout => trace == locked
       case DraftIsStale(_) => trace == checked
       case NotAwaiting => trace == checked
       case Done => checked <= trace && ReplaySteps(p, w, trace[|checked|..])
       case NoSuchCase => false
       case BadAction => false
  }

  /** The direct write: its one transaction, tried until the lock is free. */
  ghost predicate DirectSteps(s: P.State, c: CaseId, d: DraftId, dec: Decision, waits: seq<seq<P.Event>>, won: bool,
                              tries: nat, trace: seq<P.Event>) {
    var e := P.FinalizeNeverPaused(c, d, dec);
    TriedUntil(s, c, e, waits, tries, won) && trace == Tried(e, waits, tries)
  }

  /** What a decision went through after its peek. */
  datatype SeamPath = SeamPath(resume: Option<ResumeHalf>, direct: Option<DirectHalf>)

  datatype ResumeHalf = ResumeHalf(answer: Resolution, tries: nat, steps: seq<P.Event>)

  datatype DirectHalf = DirectHalf(tries: nat, steps: seq<P.Event>)

  /** The resume, and, if it found no interrupt, whatever happens before the second
      peek. */
  function ResumeTrace(path: SeamPath, w: DecisionWorld): seq<P.Event> {
    match path.resume
    case None => []
    case Some(h) => if h.answer == NotAwaiting then h.steps + w.afterResume else h.steps
  }

  /** The direct write is due: the peek did not choose the resume, or the resume met
      no interrupt though the draft is still pending. */
  predicate FallsThrough(s: P.State, c: CaseId, d: DraftId, w: DecisionWorld, path: SeamPath) {
    match path.resume
    case None => true
    case Some(h) => h.answer == NotAwaiting && PendingOf(P.Run(s, ResumeTrace(path, w)).db, c) == Some(d)
  }

  /** A decision whose unlocked peek read `status`. */
  ghost predicate SeamSteps(s: P.State, status: CaseStatus, p: ProcId, c: CaseId, d: DraftId, dec: Decision,
                            w: DecisionWorld, r: Resolution, path: SeamPath, trace: seq<P.Event>) {
    && (path.resume.Some? <==> status == AwaitingApproval)
    && (path.resume.Some? ==>
          ResumeSteps(s, p, c, d, dec, w, path.resume.value.answer, path.resume.value.tries, path.resume.value.steps))
    && (path.direct.Some? <==> FallsThrough(s, c, d, w, path))
    && if path.direct.Some? then
         && DirectSteps(P.Run(s, ResumeTrace(path, w)), c, d, dec, w.directWaits, r != LockTimeout, path.direct.value.tries,
                        path.direct.value.steps)
         && trace == ResumeTrace(path, w) + path.direct.value.steps
       else
         r == path.resume.value.answer && trace == ResumeTrace(path, w)
  }

  /** The whole of `resolve_draft_decision`. */
  ghost predicate DecisionSteps(s: P.State, p: ProcId, c: CaseId, d: DraftId, dec: Decision, w: DecisionWorld,
                                r: Resolution, path: SeamPath, trace: seq<P.Event>) {
    if c >= |s.db.cases| then r == NoSuchCase && trace == []
    else
      && w.afterPeek <= trace
      && SeamSteps(P.Run(s, w.afterPeek), s.db.cases[c].status, p, c, d, dec, w, r, path, trace[|w.afterPeek|..])
  }

  // ----- a graph run ------------------------------------------------------------

  /** What one graph run meets: what others do between its lock tries and before each
      of its transactions, what the model calls and the reads on its routing edges
      answer. `severity` is `None` when the classification failed. */
  datatype RunWorld = RunWorld(
    lockWaits: seq<seq<P.Event>>, beforeStart: seq<P.Event>, beforeClassify: seq<P.Event>, severity: Option<Severity>,
    beforeDraft: seq<P.Event>, body: string, guardFailed: bool,
    beforeRoute: seq<P.Event>, hardHit: bool, readsOk: bool,
    beforeAutoSend: seq<P.Event>, beforeMark: seq<P.Event>, beforePause: seq<P.Event>)

  ghost predicate AroundRun(w: RunWorld, p: ProcId) {
    && AllByOthers(w.lockWaits, p)
    && ByOthers(w.beforeStart, p) && ByOthers(w.beforeClassify, p) && ByOthers(w.beforeDraft, p)
    && ByOthers(w.beforeRoute, p) && ByOthers(w.beforeAutoSend, p) && ByOthers(w.beforeMark, p)
    && ByOthers(w.beforePause, p)
  }

  /** How a graph run ends. */
  datatype RunEnd = LockBusy | Degraded | AutoSentDraft | PausedOn(draft: DraftId) | NothingToPause

  function Classified(p: ProcId, w: RunWorld): seq<P.Event> {
    w.beforeStart + [P.StartRun(p)] + w.beforeClassify + [P.ClassifyRun(p, w.severity)]
  }

  function Routed(p: ProcId, w: RunWorld): seq<P.Event> {
    w.beforeDraft + [P.DraftRun(p, w.body, w.guardFailed)] + w.beforeRoute + [P.RouteRun(p, w.hardHit, w.readsOk)]
  }

  function AutoSendTried(p: ProcId, w: RunWorld): seq<P.Event> {
    w.beforeAutoSend + [P.AutoSendRun(p)]
  }

  function MarkedAndPaused(p: ProcId, w: RunWorld): seq<P.Event> {
    w.beforeMark + [P.MarkRun(p)] + w.beforePause + [P.PauseRun(p)]
  }

  /** A run after its lock. It ends degraded after a failed classification, a draft the
      content guard refused, or an emergency no hard rule confirms. */
  ghost predicate GraphSteps(p: ProcId, w: RunWorld, end: RunEnd, trace: seq<P.Event>) {
    var classified := Classified(p, w);
    var routed := classified + Routed(p, w);
    match end
    case LockBusy => false
    case Degraded =>
      || (trace == classified && w.severity.None?)
      || (trace == routed && (w.guardFailed || (w.severity == Some(Emergency) && !w.hardHit)))
    case AutoSentDraft => trace == routed + AutoSendTried(p, w)
    case PausedOn(_) =>
      trace == routed + MarkedAndPaused(p, w) || trace == routed + AutoSendTried(p, w) + MarkedAndPaused(p, w)
    case NothingToPause =>
      trace == routed + MarkedAndPaused(p, w) || trace == routed + AutoSendTried(p, w) + MarkedAndPaused(p, w)
  }

  /** The whole of `run_graph`, once the message's case is known. */
  ghost predicate RunSteps(s: P.State, p: ProcId, c: CaseId, w: RunWorld, end: RunEnd, tries: nat, trace: seq<P.Event>) {
    var e := P.Acquire(p, c, P.RunGraph);
    && TriedUntil(s, c, e, w.lockWaits, tries, end != LockBusy)
    && var locked := Tried(e, w.lockWaits, tries);
       && locked <= trace
       && if end == LockBusy then trace == locked else GraphSteps(p, w, end, trace[|locked|..])
  }

  // ----- the sweep --------------------------------------------------------------

  /** The first `n` actions, each after others ran. */
  function SweepTrace(actions: seq<(CaseId, Leg)>, gaps: seq<seq<P.Event>>, at: Time, n: nat): seq<P.Event>
    requires n <= |actions| && n <= |gaps|
  {
    if n == 0 then []
    else SweepTrace(actions, gaps, at, n - 1) + gaps[n - 1] + [P.SweepCase(actions[n - 1].0, actions[n - 1].1, at)]
  }

  /** Those of them that were still due on the row they found. */
  function Written(s: P.State, actions: seq<(CaseId, Leg)>, gaps: seq<seq<P.Event>>, at: Time, n: nat): seq<(CaseId, Leg)>
    requires n <= |actions| && n <= |gaps|
  {
    if n == 0 then []
    else
      var (c, leg) := actions[n - 1];
      var live := P.Run(s, SweepTrace(actions, gaps, at, n - 1) + gaps[n - 1]).db;
      Written(s, actions, gaps, at, n - 1)
      + if c < |live.cases| && TimeTransition(live.cases[c], at) == Some(leg) then [actions[n - 1]] else []
  }

  lemma SweepStarts(s: P.State, actions: seq<(CaseId, Leg)>, gaps: seq<seq<P.Event>>, at: Time)
    ensures SweepTrace(actions, gaps, at, 0) == [] && Written(s, actions, gaps, at, 0) == []
  {
  }

  lemma SweepGrows(s: P.State, actions: seq<(CaseId, Leg)>, gaps: seq<seq<P.Event>>, at: Time, i: nat)
    requires i < |actions| && i < |gaps|
    ensures var (c, leg) := actions[i];
            var before := SweepTrace(actions, gaps, at, i) + gaps[i];
            var live := P.Run(s, before).db;
            && SweepTrace(actions, gaps, at, i + 1) == before + [P.SweepCase(c, leg, at)]
            && Written(s, actions, gaps, at, i + 1)
                 == Written(s, actions, gaps, at, i)
                    + (if c < |live.cases| && TimeTransition(live.cases[c], at) == Some(leg) then [actions[i]] else [])
  {
    hide P.Run, TimeTransition;
  }
}
