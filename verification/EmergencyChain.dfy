/** One escalation chain, the `emergency_call` row of one message, under any mix of
    the T+0 call, overlapping sweeps, acknowledgements from three surfaces and
    crashes. A candidate is what a caller read before it tries its claim; the claim
    compares only the attempt number, never the due time. */
module EmergencyChain {
  import opened Vocabulary
  import opened EscalationSchedule

  datatype Claim = Claim(step: nat, at: Time)

  /** `claims` and `answers` are history: the steps ever claimed, and the instants
      acknowledgers were given. */
  datatype Chain = Chain(
    now: Time,
    start: Time,                   // created_at
    attempt: nat,
    nextAt: Option<Time>,
    acknowledgedAt: Option<Time>,
    smsRows: nat,                  // emergency_sms rows of this message
    ackAudit: seq<Time>,
    candidates: map<ProcId, nat>,
    claims: seq<Claim>,
    answers: seq<Time>)

  datatype Event =
    | Advance(elapsed: nat)
    | Trigger(p: ProcId)           // the T+0 call; it assumes attempt 0
    | Select(p: ProcId, at: Time)  // a sweep's SELECT, with the tick's own clock
    | ClaimStep(p: ProcId)
    | Acknowledge                  // press-1, SMS link or dashboard
    | Crash(p: ProcId)

  predicate DueNow(s: Chain, at: Time) {
    s.acknowledgedAt.None? && (s.nextAt.None? || s.nextAt.value <= at)
  }

  /** The claim: one conditional UPDATE, and with step 0 the insert of the tenant's
      send-intent row in the same transaction. */
  function Claimed(s: Chain, candidate: nat): Chain {
    if s.acknowledgedAt.None? && s.attempt == candidate then
      s.(attempt := candidate + 1, nextAt := Some(s.start + Offset(candidate + 1)),
         smsRows := if candidate == 0 then s.smsRows + 1 else s.smsRows,
         claims := s.claims + [Claim(candidate, s.now)])
    else s
  }

  function Acknowledged(s: Chain): Chain {
    if s.acknowledgedAt.None? then
      s.(acknowledgedAt := Some(s.now), ackAudit := s.ackAudit + [s.now], answers := s.answers + [s.now])
    else s.(answers := s.answers + [s.acknowledgedAt.value])
  }

  function Step(s: Chain, e: Event): Chain {
    match e
    case Advance(elapsed) => s.(now := s.now + elapsed)
    case Trigger(p) => if p in s.candidates then s else s.(candidates := s.candidates[p := 0])
    case Select(p, at) =>
      if p !in s.candidates && at <= s.now && DueNow(s, at) then s.(candidates := s.candidates[p := s.attempt]) else s
    case ClaimStep(p) =>
      if p in s.candidates then Claimed(s, s.candidates[p]).(candidates := s.candidates - {p}) else s
    case Acknowledge => Acknowledged(s)
    case Crash(p) => s.(candidates := s.candidates - {p})
  }

  function Run(s: Chain, es: seq<Event>): Chain {
    if es == [] then s else Step(Run(s, es[..|es| - 1]), es[|es| - 1])
  }

  /** The row is born due, with its first attempt at the start; a row that was not
      (`nextAt` unset) is healed by the sweep. */
  predicate Born(s: Chain, start: Time) {
    s.now == s.start == start && s.attempt == 0 && (s.nextAt == None || s.nextAt == Some(start)) && s.acknowledgedAt == None
    && s.smsRows == 0 && s.ackAudit == [] && s.candidates == map[] && s.claims == [] && s.answers == []
  }

  // ----- the invariant --------------------------------------------------------

  ghost predicate Inv(s: Chain) {
    && s.start <= s.now
    // what ties the due time, which the claim does not look at, to the attempt
    && (if s.attempt == 0 then s.nextAt == None || s.nextAt == Some(s.start)
        else s.nextAt == Some(s.start + Offset(s.attempt)))
    && (forall p :: p in s.candidates ==> s.start + Offset(s.candidates[p]) <= s.now)
    // claims are the steps 0, 1, 2, ..., each once and none early
    && |s.claims| == s.attempt
    && (forall i :: 0 <= i < |s.claims| ==> s.claims[i].step == i && s.start + Offset(i) <= s.claims[i].at <= s.now)
    && s.smsRows == (if s.attempt > 0 then 1 else 0)
    // acknowledgement
    && s.ackAudit == (if s.acknowledgedAt.Some? then [s.acknowledgedAt.value] else [])
    && (forall i :: 0 <= i < |s.answers| ==> s.acknowledgedAt == Some(s.answers[i]))
    && (s.acknowledgedAt.Some? ==> forall i :: 0 <= i < |s.claims| ==> s.claims[i].at <= s.acknowledgedAt.value)
  }

  lemma BornInv(s: Chain, start: Time)
    requires Born(s, start)
    ensures Inv(s)
  {
    OffsetGaps(0);
  }

  lemma LosingKeepsInv(s: Chain, p: ProcId)
    requires Inv(s)
    ensures Inv(s.(candidates := s.candidates - {p}))
  {
    hide NextOffsetMinutes;
  }

  lemma WinningKeepsInv(s: Chain)
    requires Inv(s) && s.acknowledgedAt.None? && s.start + Offset(s.attempt) <= s.now
    ensures Inv(Claimed(s, s.attempt))
  {
    hide NextOffsetMinutes;
    var s' := Claimed(s, s.attempt);
    assert s'.claims[s.attempt] == Claim(s.attempt, s.now);
    forall i | 0 <= i < s.attempt ensures s'.claims[i] == s.claims[i] {}
  }

  lemma ClaimKeepsInv(s: Chain, p: ProcId)
    requires Inv(s)
    ensures Inv(Step(s, ClaimStep(p)))
  {
    hide NextOffsetMinutes;
    if p in s.candidates {
      var claimed := Claimed(s, s.candidates[p]);
      if claimed != s { WinningKeepsInv(s); }
      LosingKeepsInv(claimed, p);
    }
    hide Inv;
  }

  lemma NewCandidateKeepsInv(s: Chain, p: ProcId, step: nat)
    requires Inv(s) && s.start + Offset(step) <= s.now
    ensures Inv(s.(candidates := s.candidates[p := step]))
  {
    hide NextOffsetMinutes;
  }

  lemma SelectKeepsInv(s: Chain, p: ProcId, at: Time)
    requires Inv(s)
    ensures Inv(Step(s, Select(p, at)))
  {
    OffsetGaps(0);
    hide NextOffsetMinutes;
    if p !in s.candidates && at <= s.now && DueNow(s, at) { NewCandidateKeepsInv(s, p, s.attempt); }
  }

  lemma AcknowledgeKeepsInv(s: Chain)
    requires Inv(s)
    ensures Inv(Acknowledged(s))
  {
    hide NextOffsetMinutes;
  }

  lemma StepKeepsInv(s: Chain, e: Event)
    requires Inv(s)
    ensures Inv(Step(s, e))
  {
    hide Claimed, Acknowledged, NextOffsetMinutes;
    match e
    case Advance(_) =>
    case Trigger(p) => OffsetGaps(0); NewCandidateKeepsInv(s, p, 0);
    case Select(p, at) => SelectKeepsInv(s, p, at);
    case ClaimStep(p) => ClaimKeepsInv(s, p);
    case Acknowledge => AcknowledgeKeepsInv(s);
    case Crash(p) => LosingKeepsInv(s, p);
  }

  lemma {:induction false} RunKeepsInv(s: Chain, es: seq<Event>)
    requires Inv(s)
    ensures Inv(Run(s, es))
  {
    if es != [] {
      RunKeepsInv(s, es[..|es| - 1]);
      StepKeepsInv(Run(s, es[..|es| - 1]), es[|es| - 1]);
    }
  }

  // ----- the theorems ---------------------------------------------------------

  /** Each step is claimed at most once, in order, and never before it is due; the
      tenant's `emergency_sms` row exists, exactly once, if and only if step 0 has
      been claimed. */
  lemma StepsOnceAndNeverEarly(s: Chain, start: Time, es: seq<Event>)
    requires Born(s, start)
    ensures var s' := Run(s, es);
            && (forall i :: 0 <= i < |s'.claims| ==> s'.claims[i].step == i && s'.start + Offset(i) <= s'.claims[i].at)
            && (s'.smsRows == 1 <==> exists i :: 0 <= i < |s'.claims| && s'.claims[i].step == 0)
            && s'.smsRows <= 1
  {
    BornInv(s, start);
    RunKeepsInv(s, es);
    var s' := Run(s, es);
    if s'.attempt > 0 { assert s'.claims[0].step == 0; }
  }

  lemma {:induction false} AcknowledgedStays(s: Chain, es: seq<Event>)
    requires s.acknowledgedAt.Some?
    ensures Run(s, es).acknowledgedAt == s.acknowledgedAt && Run(s, es).claims == s.claims
  {
    if es != [] { AcknowledgedStays(s, es[..|es| - 1]); }
  }

  /** Once anybody has acknowledged, no further step is ever claimed, every
      acknowledger is given the same first instant, and there is exactly one
      `acknowledged` audit row. */
  lemma AcknowledgementIsFinal(s: Chain, start: Time, es: seq<Event>, more: seq<Event>)
    requires Born(s, start) && Run(s, es).acknowledgedAt.Some?
    ensures var s1 := Run(s, es);
            var s2 := Run(s1, more);
            && s2.claims == s1.claims && s2.acknowledgedAt == s1.acknowledgedAt
            && s2.ackAudit == [s1.acknowledgedAt.value]
            && forall i :: 0 <= i < |s2.answers| ==> s2.answers[i] == s1.acknowledgedAt.value
  {
    BornInv(s, start);
    RunKeepsInv(s, es);
    RunKeepsInv(Run(s, es), more);
    AcknowledgedStays(Run(s, es), more);
  }

  // ----- regular ticks --------------------------------------------------------

  /** One undisturbed sweep tick at instant `at`. */
  function Tick(s: Chain, p: ProcId, at: Time): Chain {
    Step(Step(s.(now := at), Select(p, at)), ClaimStep(p))
  }

  function Ticks(s: Chain, p: ProcId, ats: seq<Time>, n: nat): Chain
    requires n <= |ats|
  {
    if n == 0 then s else Tick(Ticks(s, p, ats, n - 1), p, ats[n - 1])
  }

  predicate Unattended(s: Chain) { s.acknowledgedAt.None? && s.candidates == map[] }

  lemma TickKeepsInv(s: Chain, p: ProcId, at: Time)
    requires Inv(s) && s.now <= at
    ensures Inv(Tick(s, p, at))
  {
    hide Inv;
    StepKeepsInv(s, Advance(at - s.now));
    StepKeepsInv(s.(now := at), Select(p, at));
    StepKeepsInv(Step(s.(now := at), Select(p, at)), ClaimStep(p));
  }

  /** A tick is one step of the schedule's own counting. */
  lemma TickCounts(s: Chain, p: ProcId, at: Time)
    requires Inv(s) && Unattended(s) && s.now <= at
    ensures Inv(Tick(s, p, at)) && Unattended(Tick(s, p, at)) && Tick(s, p, at).now == at && Tick(s, p, at).start == s.start
    ensures Tick(s, p, at).attempt == TickOnce(s.attempt, at - s.start)
    ensures Tick(s, p, at).attempt > s.attempt ==> Tick(s, p, at).claims == s.claims + [Claim(s.attempt, at)]
  {
    TickKeepsInv(s, p, at);
    TickDue(s, p, at);
  }

  lemma TickDue(s: Chain, p: ProcId, at: Time)
    requires Unattended(s)
    requires if s.attempt == 0 then s.start <= at && (s.nextAt == None || s.nextAt == Some(s.start))
             else s.nextAt == Some(s.start + Offset(s.attempt))
    ensures Unattended(Tick(s, p, at)) && Tick(s, p, at).now == at && Tick(s, p, at).start == s.start
    ensures Tick(s, p, at).attempt == TickOnce(s.attempt, at - s.start)
    ensures Tick(s, p, at).attempt > s.attempt ==> Tick(s, p, at).claims == s.claims + [Claim(s.attempt, at)]
  {
    OffsetGaps(0);
    hide NextOffsetMinutes;
    assert map[p := s.attempt] - {p} == map[];
  }

  /** Instants since the chain's start. */
  function Since(start: Time, ats: seq<Time>): (r: seq<Time>)
    ensures |r| == |ats| && forall i :: 0 <= i < |ats| ==> r[i] == ats[i] - start
  {
    seq(|ats|, i requires 0 <= i < |ats| => ats[i] - start)
  }

  lemma {:induction false} TicksCount(s: Chain, p: ProcId, ats: seq<Time>, n: nat)
    requires Inv(s) && Unattended(s) && n <= |ats|
    requires Regular(Since(s.start, ats)) && (|ats| > 0 ==> s.now <= ats[0])
    ensures var s' := Ticks(s, p, ats, n);
            && Inv(s') && Unattended(s') && s'.start == s.start && (if n == 0 then s'.now == s.now else s'.now == ats[n - 1])
            && s'.attempt == AfterTicks(s.attempt, Since(s.start, ats), n)
  {
    if n > 0 {
      TicksCount(s, p, ats, n - 1);
      if n > 1 { assert Since(s.start, ats)[n - 2] <= Since(s.start, ats)[n - 1]; }
      TickCounts(Ticks(s, p, ats, n - 1), p, ats[n - 1]);
    }
  }

  /** With undisturbed ticks at most 60 s apart from the chain's start, step `k` is
      claimed by the very first tick that finds it due. */
  lemma UndisturbedIsExact(s: Chain, start: Time, p: ProcId, ats: seq<Time>, k: nat, n: nat)
    requires Born(s, start) && Regular(Since(start, ats)) && 0 < n <= |ats| && start <= ats[0] <= start + TICK
    requires ats[n - 1] >= start + Offset(k) && (n > 1 ==> ats[n - 2] < start + Offset(k))
    ensures var s' := Ticks(s, p, ats, n);
            && |s'.claims| == k + 1 && s'.claims[k] == Claim(k, ats[n - 1])
            && start + Offset(k) <= ats[n - 1] <= start + Offset(k) + TICK
  {
    BornInv(s, start);
    if k > 0 { OffsetsIncrease(0, k); }
    var since := Since(start, ats);
    ClaimedWithinOneTick(since, k, n);
    TicksCount(s, p, ats, n);
    TicksCount(s, p, ats, n - 1);
    if n > 1 { assert since[n - 2] <= since[n - 1]; }
    TickCounts(Ticks(s, p, ats, n - 1), p, ats[n - 1]);
  }

  // ----- ticks among everything else --------------------------------------------

  /** One sweep's pass over the row: whatever happens first, its SELECT at the tick's
      own clock, whatever the others do then, and its claim. */
  datatype Pass = Pass(before: seq<Event>, p: ProcId, at: Time, between: seq<Event>)

  predicate NotBy(e: Event, p: ProcId) {
    match e
    case Trigger(q) => q != p
    case Select(q, _) => q != p
    case ClaimStep(q) => q != p
    case Crash(q) => q != p
    case Advance(_) => true
    case Acknowledge => true
  }

  ghost predicate AllNotBy(es: seq<Event>, p: ProcId) { forall i :: 0 <= i < |es| ==> NotBy(es[i], p) }

  /** The pass really is one: its coroutine is new, its clock is not ahead, and nobody
      else acts as it. */
  ghost predicate PassIn(s: Chain, t: Pass) {
    && t.p !in Run(s, t.before).candidates && t.at <= Run(s, t.before).now
    && AllNotBy(t.between, t.p)
  }

  function AfterPass(s: Chain, t: Pass): Chain {
    Step(Run(Step(Run(s, t.before), Select(t.p, t.at)), t.between), ClaimStep(t.p))
  }

  function AfterPasses(s: Chain, ts: seq<Pass>, n: nat): Chain
    requires n <= |ts|
  {
    if n == 0 then s else AfterPass(AfterPasses(s, ts, n - 1), ts[n - 1])
  }

  /** A run that contains these passes; between and inside them there may be T+0 calls,
      other sweeps, acknowledgements and crashes. */
  ghost predicate Sweeping(s: Chain, ts: seq<Pass>) {
    forall n :: 0 <= n < |ts| ==> PassIn(AfterPasses(s, ts, n), ts[n])
  }

  /** Seconds from the start to each pass's clock. */
  function Readings(start: Time, ts: seq<Pass>): (r: seq<Time>)
    ensures |r| == |ts| && forall i :: 0 <= i < |ts| ==> r[i] == ts[i].at - start
  {
    seq(|ts|, i requires 0 <= i < |ts| => ts[i].at - start)
  }

  /** What only ever grows. */
  predicate Onward(a: Chain, b: Chain) {
    a.attempt <= b.attempt && a.start == b.start && (b.acknowledgedAt.None? ==> a.acknowledgedAt.None?)
  }

  lemma {:induction false} RunIsOnward(s: Chain, es: seq<Event>)
    ensures Onward(s, Run(s, es))
  {
    hide NextOffsetMinutes;
    if es != [] { RunIsOnward(s, es[..|es| - 1]); }
  }

  lemma {:induction false} CandidateStays(s: Chain, es: seq<Event>, p: ProcId)
    requires p in s.candidates && AllNotBy(es, p)
    ensures p in Run(s, es).candidates && Run(s, es).candidates[p] == s.candidates[p]
  {
    hide NextOffsetMinutes;
    if es != [] { CandidateStays(s, es[..|es| - 1], p); }
  }

  lemma PassGoesOn(s: Chain, t: Pass)
    requires Inv(s)
    ensures Inv(AfterPass(s, t)) && Onward(s, AfterPass(s, t))
  {
    hide Run, Inv, Step, Onward;
    var s1 := Run(s, t.before);
    var s2 := Step(s1, Select(t.p, t.at));
    var s3 := Run(s2, t.between);
    RunKeepsInv(s, t.before);
    StepKeepsInv(s1, Select(t.p, t.at));
    RunKeepsInv(s2, t.between);
    StepKeepsInv(s3, ClaimStep(t.p));
    RunIsOnward(s, t.before);
    StepIsOnward(s1, Select(t.p, t.at));
    RunIsOnward(s2, t.between);
    StepIsOnward(s3, ClaimStep(t.p));
    OnwardOn(s, s1, s2);
    OnwardOn(s, s2, s3);
    OnwardOn(s, s3, AfterPass(s, t));
  }

  lemma OnwardOn(a: Chain, b: Chain, c: Chain)
    requires Onward(a, b) && Onward(b, c)
    ensures Onward(a, c)
  {
  }

  lemma StepIsOnward(s: Chain, e: Event)
    ensures Onward(s, Step(s, e))
  {
    hide NextOffsetMinutes;
  }

  /** Whatever happens between a SELECT that found the next step due and its claim, the
      step is claimed in the end. */
  lemma SelectedIsClaimed(s: Chain, p: ProcId, between: seq<Event>)
    requires p in s.candidates && s.candidates[p] == s.attempt && AllNotBy(between, p)
    ensures var s' := Step(Run(s, between), ClaimStep(p));
            s'.acknowledgedAt.Some? || s'.attempt > s.attempt
  {
    CandidateStays(s, between, p);
    RunIsOnward(s, between);
    hide Run, NextOffsetMinutes;
  }

  /** A pass that finds the next step due leaves it claimed, by itself or by whoever
      overtook it, unless somebody acknowledged. */
  lemma PassClaims(s: Chain, t: Pass)
    requires Inv(s) && PassIn(s, t)
    ensures var s' := AfterPass(s, t);
            && Inv(s') && Onward(s, s')
            && (s'.acknowledgedAt.None? ==> s'.attempt >= TickOnce(s.attempt, t.at - s.start))
  {
    hide NextOffsetMinutes, Inv, Run;
    PassGoesOn(s, t);
    var s1 := Run(s, t.before);
    RunIsOnward(s, t.before);
    RunKeepsInv(s, t.before);
    var s2 := Step(s1, Select(t.p, t.at));
    var s' := AfterPass(s, t);
    if s'.acknowledgedAt.None? && s'.attempt <= s.attempt && Offset(s.attempt) <= t.at - s.start {
      RestGoesOn(s2, t, s');
      DueIsSelected(s1, t.at);
      SelectedIsClaimed(s2, t.p, t.between);
    }
  }

  lemma RestGoesOn(s: Chain, t: Pass, s': Chain)
    requires s' == Step(Run(s, t.between), ClaimStep(t.p))
    ensures Onward(s, s')
  {
    RunIsOnward(s, t.between);
    hide Run, NextOffsetMinutes;
  }

  lemma DueIsSelected(s: Chain, at: Time)
    requires Inv(s) && s.acknowledgedAt.None? && s.start + Offset(s.attempt) <= at
    ensures DueNow(s, at)
  {
    OffsetGaps(0);
    hide NextOffsetMinutes;
  }

  /** The chain is in order and no step due `elapsed` seconds after its start is
      unclaimed, unless somebody acknowledged. */
  ghost predicate CaughtUp(s: Chain, start: Time, elapsed: Time) {
    Inv(s) && s.start == start && (s.acknowledgedAt.Some? || DueCount(elapsed) <= s.attempt)
  }

  lemma FirstPass(s: Chain, start: Time, t: Pass)
    requires Born(s, start) && PassIn(s, t) && start <= t.at <= start + TICK
    ensures CaughtUp(AfterPass(s, t), start, t.at - start)
  {
    BornInv(s, start);
    PassClaims(s, t);
    hide NextOffsetMinutes, Inv, PassIn, AfterPass, DueCount, TickOnce;
    FirstPassDue(t.at - start);
  }

  lemma NextPass(s: Chain, start: Time, earlier: Time, t: Pass)
    requires CaughtUp(s, start, earlier) && PassIn(s, t) && earlier <= t.at - start <= earlier + TICK
    ensures CaughtUp(AfterPass(s, t), start, t.at - start)
  {
    hide NextOffsetMinutes, Inv, PassIn, AfterPass, DueCount, TickOnce;
    PassClaims(s, t);
    if s.acknowledgedAt.None? { StaysCaughtUp(s.attempt, earlier, t.at - start); }
  }

  lemma FirstPassDue(elapsed: Time)
    requires 0 <= elapsed <= TICK
    ensures DueCount(elapsed) == 1 == TickOnce(0, elapsed)
  {
    OffsetGaps(0);
    DueCountInverts(elapsed, 0);
    DueCountInverts(elapsed, 1);
  }

  lemma StaysCaughtUp(claimed: nat, earlier: Time, later: Time)
    requires earlier <= later <= earlier + TICK && DueCount(earlier) <= claimed
    ensures DueCount(later) <= TickOnce(claimed, later)
  {
    DueSlowly(earlier, later - earlier);
    TickCatchesOne(claimed, later);
    hide DueCount, TickOnce;
  }

  lemma PassGap(start: Time, ts: seq<Pass>, i: nat)
    requires Regular(Readings(start, ts)) && 0 < i < |ts|
    ensures ts[i - 1].at <= ts[i].at <= ts[i - 1].at + TICK
  {
    assert Readings(start, ts)[i - 1] <= Readings(start, ts)[i] <= Readings(start, ts)[i - 1] + TICK;
  }

  lemma SweepingAt(s: Chain, ts: seq<Pass>, n: nat)
    requires Sweeping(s, ts) && n < |ts|
    ensures PassIn(AfterPasses(s, ts, n), ts[n])
  {
    hide AfterPasses, PassIn;
  }

  /** With passes at most 60 s apart from the chain's start, no due step is left
      unclaimed when a pass ends, whatever else goes on, until somebody acknowledges. */
  lemma {:induction false} NeverBehind(s: Chain, start: Time, ts: seq<Pass>, n: nat)
    requires Born(s, start) && Sweeping(s, ts) && Regular(Readings(start, ts))
    requires 0 < n <= |ts| && start <= ts[0].at <= start + TICK
    ensures CaughtUp(AfterPasses(s, ts, n), start, ts[n - 1].at - start)
  {
    hide CaughtUp, PassIn, AfterPass, Born, Regular, Sweeping;
    SweepingAt(s, ts, n - 1);
    if n == 1 {
      FirstPass(s, start, ts[0]);
    } else {
      NeverBehind(s, start, ts, n - 1);
      PassGap(start, ts, n - 1);
      NextPass(AfterPasses(s, ts, n - 1), start, ts[n - 2].at - start, ts[n - 1]);
    }
  }

  /** So step `k` is claimed, never early, by the end of the first pass whose clock finds
      it due, and that pass starts within 60 s of the due time, whatever T+0 calls,
      overlapping sweeps and crashes there are. */
  lemma EveryStepOnTime(s: Chain, start: Time, ts: seq<Pass>, k: nat, n: nat)
    requires Born(s, start) && Sweeping(s, ts) && Regular(Readings(start, ts))
    requires 0 < n <= |ts| && start <= ts[0].at <= start + TICK
    requires ts[n - 1].at >= start + Offset(k) && (n > 1 ==> ts[n - 2].at < start + Offset(k))
    ensures ts[n - 1].at <= start + Offset(k) + TICK
    ensures var s' := AfterPasses(s, ts, n);
            s'.acknowledgedAt.Some?
            || (k < |s'.claims| && s'.claims[k].step == k && start + Offset(k) <= s'.claims[k].at <= s'.now)
  {
    NeverBehind(s, start, ts, n);
    DueCountInverts(ts[n - 1].at - start, k);
    if n > 1 { PassGap(start, ts, n - 1); }
    OffsetIsNatural(k);
    hide Regular, Sweeping, NextOffsetMinutes, DueCount, AfterPasses;
  }

  lemma OffsetIsNatural(k: nat)
    ensures Offset(k) >= 0
  {
  }

  // ----- the row as an object -------------------------------------------------

  /** The row, its message's `emergency_sms` rows and the acknowledgement audit, as
      the statements update them. */
  class EmergencyCall {
    var now: Time
    const start: Time
    var attempt: nat
    var nextAt: Option<Time>
    var acknowledgedAt: Option<Time>
    var smsRows: nat
    var ackAudit: seq<Time>
    var candidates: map<ProcId, nat>
    var claims: seq<Claim>
    var answers: seq<Time>

    constructor (start: Time, enriched: bool)
      ensures Born(State(), start)
    {
      this.start, now, attempt := start, start, 0;
      nextAt := if enriched then Some(start) else None;
      acknowledgedAt, smsRows, ackAudit := None, 0, [];
      candidates, claims, answers := map[], [], [];
    }

    function State(): Chain
      reads this
    {
      Chain(now, start, attempt, nextAt, acknowledgedAt, smsRows, ackAudit, candidates, claims, answers)
    }

    /** The sweep's SELECT, for this row. */
    method SelectDue(p: ProcId, at: Time) returns (due: bool)
      requires p !in candidates && at <= now
      modifies this`candidates
      ensures State() == Step(old(State()), Select(p, at))
      ensures due <==> p in candidates
      ensures due <==> acknowledgedAt.None? && (nextAt.None? || nextAt.value <= at)
    {
      due := acknowledgedAt.None? && (nextAt.None? || nextAt.value <= at);
      if due { candidates := candidates[p := attempt]; }
    }

    /** The claim of `_process_due_row`; `None` is a lost race. */
    method ClaimDueStep(p: ProcId) returns (step: Option<nat>)
      requires p in candidates
      modifies this`attempt, this`nextAt, this`smsRows, this`claims, this`candidates
      ensures State() == Step(old(State()), ClaimStep(p))
      ensures step.Some? <==> old(acknowledgedAt).None? && old(attempt) == old(candidates)[p]
      ensures step.Some? ==> step.value == old(attempt) && attempt == old(attempt) + 1
                             && smsRows == old(smsRows) + (if step.value == 0 then 1 else 0)
      ensures step.None? ==> attempt == old(attempt) && smsRows == old(smsRows)
    {
      var candidate := candidates[p];
      candidates := candidates - {p};
      if acknowledgedAt.Some? || attempt != candidate { return None; }
      attempt := candidate + 1;
      nextAt := Some(start + Offset(candidate + 1));
      if candidate == 0 { smsRows := smsRows + 1; }
      claims := claims + [Claim(candidate, now)];
      return Some(candidate);
    }

    /** `handle_emergency_trigger`: the immediate attempt at step 0. */
    method HandleTrigger(p: ProcId) returns (step: Option<nat>)
      requires p !in candidates
      modifies this`attempt, this`nextAt, this`smsRows, this`claims, this`candidates
      ensures State() == Step(Step(old(State()), Trigger(p)), ClaimStep(p))
      ensures step == (if old(acknowledgedAt).None? && old(attempt) == 0 then Some(0) else None)
    {
      candidates := candidates[p := 0];
      step := ClaimDueStep(p);
    }

    /** One sweep tick on this row; the row cannot lose a race it is alone in. */
    method SweepTick(p: ProcId) returns (step: Option<nat>)
      requires p !in candidates && Inv(State())
      modifies this`attempt, this`nextAt, this`smsRows, this`claims, this`candidates
      ensures State() == Step(Step(old(State()), Select(p, now)), ClaimStep(p)) && Inv(State())
      ensures step.Some? <==> old(acknowledgedAt).None? && start + Offset(old(attempt)) <= now
      ensures step.Some? ==> step.value == old(attempt)
    {
      OffsetGaps(0);
      StepKeepsInv(State(), Select(p, now));
      StepKeepsInv(Step(State(), Select(p, now)), ClaimStep(p));
      var due := SelectDue(p, now);
      if !due { return None; }
      step := ClaimDueStep(p);
    }

    /** `acknowledge_notification`, from any of the three surfaces. */
    method AcknowledgeNotification() returns (instant: Time)
      requires Inv(State())
      modifies this`acknowledgedAt, this`ackAudit, this`answers
      ensures State() == Step(old(State()), Acknowledge) && Inv(State())
      ensures acknowledgedAt == Some(instant) && ackAudit == [instant]
      ensures old(acknowledgedAt).Some? ==> acknowledgedAt == old(acknowledgedAt)
    {
      StepKeepsInv(State(), Acknowledge);
      if acknowledgedAt.None? {
        acknowledgedAt := Some(now);
        ackAudit := ackAudit + [now];
      }
      instant := acknowledgedAt.value;
      answers := answers + [instant];
    }
  }
}
