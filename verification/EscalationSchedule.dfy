/** The escalation schedule: when each step is due, what it does, and how fast a
    sweep that claims one step per tick keeps up with it. */
module EscalationSchedule {
  import opened Vocabulary

  const FIXED_OFFSETS: seq<nat> := [0, 2, 5, 10, 15, 20]
  const REPEAT_INTERVAL: nat := 15
  const TICK: Time := MINUTE

  /** `next_offset_minutes`: minutes from the chain's start at which the step
      numbered `attempt` is due. */
  function NextOffsetMinutes(attempt: nat): nat {
    if attempt < |FIXED_OFFSETS| then FIXED_OFFSETS[attempt]
    else FIXED_OFFSETS[|FIXED_OFFSETS| - 1] + (attempt - |FIXED_OFFSETS| + 1) * REPEAT_INTERVAL
  }

  function Offset(step: nat): Time { NextOffsetMinutes(step) * MINUTE }

  datatype Action = LandlordCall | LandlordSms | BackupCall | BackupSms | TenantSafetySms | TenantStatusSms

  function ActionsForStep(step: nat): seq<Action> {
    if step == 0 then [LandlordCall, TenantSafetySms]
    else if step == 1 then [LandlordSms]
    else if step == 2 then [LandlordCall]
    else if step == 3 then [BackupCall, BackupSms]
    else if step == 4 then [LandlordCall, TenantStatusSms]
    else [LandlordCall, BackupCall, BackupSms]
  }

  /** The tenant's safety text belongs to step 0 alone, the landlord or the backup
      is contacted at every step, and each of them again in any three steps in a
      row from the third on. */
  lemma EveryStepContactsSomebody(step: nat)
    ensures TenantSafetySms in ActionsForStep(step) <==> step == 0
    ensures exists a :: a in ActionsForStep(step) && (a == LandlordCall || a == LandlordSms || a == BackupCall)
    ensures step >= 2 ==> LandlordCall in ActionsForStep(step) || LandlordCall in ActionsForStep(step + 1)
    ensures step >= 3 ==> || BackupCall in ActionsForStep(step) || BackupCall in ActionsForStep(step + 1)
                          || BackupCall in ActionsForStep(step + 2)
  {
    var a := ActionsForStep(step)[0];
    assert a in ActionsForStep(step);
    if step >= 2 {
      assert ActionsForStep(step)[0] == LandlordCall || ActionsForStep(step + 1)[0] == LandlordCall;
    }
    if step >= 3 {
      assert ActionsForStep(step + 2)[1] == BackupCall;
    }
  }

  /** Some step makes this contact `at` seconds after the chain's start. */
  ghost predicate Contacts(a: Action, at: Time) {
    exists step: nat :: Offset(step) == at && a in ActionsForStep(step)
  }

  /** The minute of every step: 0, 2, 5, 10, 15, 20 and every quarter of an hour from then. */
  lemma MinuteOfStep(step: nat)
    ensures Offset(step) == 60 * if step == 0 then 0 else if step == 1 then 2 else if step == 2 then 5
                                 else if step == 3 then 10 else if step == 4 then 15 else 20 + 15 * (step - 5)
  {
  }

  /** From T+20 on, every quarter of an hour. */
  predicate Repeats(at: Time) { at >= 20 * 60 && (at - 20 * 60) % (15 * 60) == 0 }

  lemma StepAt(at: Time) returns (step: nat)
    requires at in {0, 2 * 60, 5 * 60, 10 * 60, 15 * 60} || Repeats(at)
    ensures Offset(step) == at && (step >= 5 <==> Repeats(at))
  {
    step := if at == 0 then 0 else if at == 2 * 60 then 1 else if at == 5 * 60 then 2 else if at == 10 * 60 then 3
            else if at == 15 * 60 then 4 else 5 + (at - 20 * 60) / (15 * 60);
    MinuteOfStep(step);
  }

  lemma RepeatsFrom(step: nat)
    ensures Repeats(Offset(step)) <==> step >= 5
  {
    MinuteOfStep(step);
  }

  /** Who is contacted when. The landlord is called at T+0, T+5, T+15 and at every repeat
      and texted at T+2; the backup is called and texted at T+10 and at every repeat; the
      tenant gets the safety text at T+0 and the status text at T+15. Nobody is contacted
      at any other instant. */
  lemma ContactedAt(at: Time)
    ensures Contacts(LandlordCall, at) <==> at in {0, 5 * 60, 15 * 60} || Repeats(at)
    ensures Contacts(LandlordSms, at) <==> at == 2 * 60
    ensures Contacts(BackupCall, at) <==> at == 10 * 60 || Repeats(at)
    ensures Contacts(BackupSms, at) <==> at == 10 * 60 || Repeats(at)
    ensures Contacts(TenantSafetySms, at) <==> at == 0
    ensures Contacts(TenantStatusSms, at) <==> at == 15 * 60
  {
    forall step: nat | Offset(step) == at ensures at in {0, 2 * 60, 5 * 60, 10 * 60, 15 * 60} || Repeats(at) {
      MinuteOfStep(step);
      RepeatsFrom(step);
    }
    if at in {0, 2 * 60, 5 * 60, 10 * 60, 15 * 60} || Repeats(at) {
      var step := StepAt(at);
      OneStepAt(step, at);
      MinuteOfStep(step);
    }
    hide NextOffsetMinutes;
  }

  lemma OneStepAt(step: nat, at: Time)
    requires Offset(step) == at
    ensures forall a :: Contacts(a, at) <==> a in ActionsForStep(step)
  {
    forall a, other: nat | Offset(other) == at && a in ActionsForStep(other) ensures a in ActionsForStep(step) {
      if other < step { OffsetsIncrease(other, step); } else if step < other { OffsetsIncrease(step, other); }
    }
  }

  // ----- the schedule and its inverse -----------------------------------------

  /** Consecutive steps are between 2 and 15 minutes apart. */
  lemma OffsetGaps(step: nat)
    ensures Offset(0) == 0
    ensures 2 * MINUTE <= Offset(step + 1) - Offset(step) <= 15 * MINUTE
  {
    if step + 1 < |FIXED_OFFSETS| {
      assert FIXED_OFFSETS[step] + 2 <= FIXED_OFFSETS[step + 1] <= FIXED_OFFSETS[step] + 15;
    }
  }

  lemma {:induction false} OffsetsIncrease(i: nat, j: nat)
    requires i < j
    ensures Offset(i) + 2 * MINUTE * (j - i) <= Offset(j)
  {
    OffsetGaps(j - 1);
    if i < j - 1 { OffsetsIncrease(i, j - 1); }
  }

  /** How many steps are due `elapsed` seconds after the start. */
  function DueCount(elapsed: Time): nat {
    if elapsed < 0 then 0
    else if elapsed < Offset(5) then SmallCount(elapsed, 0)
    else 6 + (elapsed - Offset(5)) / (REPEAT_INTERVAL * MINUTE)
  }

  function SmallCount(elapsed: Time, from: nat): nat
    requires from <= 5
    decreases 5 - from
  {
    if from == 5 || elapsed < Offset(from) then from else SmallCount(elapsed, from + 1)
  }

  lemma {:induction false} SmallCountIs(elapsed: Time, from: nat, step: nat)
    requires from <= step < 5
    ensures from <= SmallCount(elapsed, from) <= 5
    ensures step < SmallCount(elapsed, from) <==> Offset(step) <= elapsed
    decreases 5 - from
  {
    if elapsed < Offset(from) {
      if from < step { OffsetsIncrease(from, step); }
    } else if from < step {
      SmallCountIs(elapsed, from + 1, step);
    } else {
      SmallCountAbove(elapsed, from + 1);
    }
  }

  lemma {:induction false} SmallCountAbove(elapsed: Time, from: nat)
    requires from <= 5
    ensures from <= SmallCount(elapsed, from) <= 5
    decreases 5 - from
  {
    if from < 5 && elapsed >= Offset(from) { SmallCountAbove(elapsed, from + 1); }
  }

  /** The count is the schedule's inverse. */
  lemma DueCountInverts(elapsed: Time, step: nat)
    ensures step < DueCount(elapsed) <==> Offset(step) <= elapsed
  {
    if elapsed < 0 {
    } else if elapsed < Offset(5) {
      SmallCountAbove(elapsed, 0);
      if step < 5 { SmallCountIs(elapsed, 0, step); }
      else if step > 5 { OffsetsIncrease(5, step); }
    } else if step < 6 {
      if step < 5 { OffsetsIncrease(step, 5); }
    } else {
      var past, period := step - 5, REPEAT_INTERVAL * MINUTE;
      assert Offset(step) == Offset(5) + past * period;
      QuotientAtLeast(elapsed - Offset(5), period, past);
    }
  }

  lemma QuotientAtLeast(x: int, d: int, q: int)
    requires d > 0 && x >= 0
    ensures q <= x / d <==> q * d <= x
  {
    var k := x / d;
    assert x == k * d + x % d;
    if q <= k { MulMonotone(q, k, d); }
    if q > k { MulMonotone(k + 1, q, d); }
  }

  lemma MulMonotone(a: int, b: int, d: int)
    requires a <= b && d > 0
    ensures a * d <= b * d
  {
    assert (b - a) * d >= 0;
  }

  /** Steps fall due at most once every two minutes. */
  lemma DueSlowly(elapsed: Time, more: Time)
    requires more >= 0
    ensures DueCount(elapsed) <= DueCount(elapsed + more) <= DueCount(elapsed) + more / (2 * MINUTE) + 1
  {
    var a, b := DueCount(elapsed), DueCount(elapsed + more);
    if a > 0 {
      DueCountInverts(elapsed, a - 1);
      DueCountInverts(elapsed + more, a - 1);
    }
    DueCountInverts(elapsed, a);
    if b > a + 1 {
      DueCountInverts(elapsed + more, b - 1);
      OffsetsIncrease(a, b - 1);
      QuotientAtLeast(more, 2 * MINUTE, b - 1 - a);
    }
  }

  // ----- one step per tick ----------------------------------------------------

  /** What one sweep tick `elapsed` seconds after the start does to the count of
      claimed steps: claim the next one if it is due. */
  function TickOnce(claimed: nat, elapsed: Time): nat {
    if Offset(claimed) <= elapsed then claimed + 1 else claimed
  }

  /** The count after the first `n` ticks. */
  function AfterTicks(claimed: nat, ticks: seq<Time>, n: nat): nat
    requires n <= |ticks|
  {
    if n == 0 then claimed else TickOnce(AfterTicks(claimed, ticks, n - 1), ticks[n - 1])
  }

  /** Ticks in order, at most 60 s apart. */
  ghost predicate Regular(ticks: seq<Time>) {
    forall i :: 0 < i < |ticks| ==> ticks[i - 1] <= ticks[i] <= ticks[i - 1] + TICK
  }

  lemma TickCatchesOne(claimed: nat, elapsed: Time)
    ensures claimed < DueCount(elapsed) ==> TickOnce(claimed, elapsed) == claimed + 1
    ensures claimed >= DueCount(elapsed) ==> TickOnce(claimed, elapsed) == claimed
  {
    DueCountInverts(elapsed, claimed);
  }

  /** Once every due step is claimed, that is so again after every later tick: no two
      steps fall due within one tick. */
  lemma {:induction false} KeepsUp(claimed: nat, ticks: seq<Time>, i: nat, n: nat)
    requires Regular(ticks) && 0 < i <= n <= |ticks|
    requires AfterTicks(claimed, ticks, i) == DueCount(ticks[i - 1])
    ensures AfterTicks(claimed, ticks, n) == DueCount(ticks[n - 1])
  {
    hide DueCount, Offset;
    if i < n {
      KeepsUp(claimed, ticks, i, n - 1);
      DueSlowly(ticks[n - 2], ticks[n - 1] - ticks[n - 2]);
      TickCatchesOne(AfterTicks(claimed, ticks, n - 1), ticks[n - 1]);
    }
  }

  /** With regular ticks from the start of the chain, step `k` is claimed by the
      first tick at or after its due time, so less than one tick late: it is not
      claimed by an earlier tick, and that tick comes within 60 s. */
  lemma ClaimedWithinOneTick(ticks: seq<Time>, k: nat, n: nat)
    requires Regular(ticks) && 0 < n <= |ticks| && 0 <= ticks[0] <= TICK
    requires ticks[n - 1] >= Offset(k) && (n > 1 ==> ticks[n - 2] < Offset(k))
    ensures AfterTicks(0, ticks, n) == k + 1 && (n > 1 ==> AfterTicks(0, ticks, n - 1) == k)
    ensures ticks[n - 1] - Offset(k) <= TICK
  {
    DueSlowly(0, ticks[0]);
    TickCatchesOne(0, ticks[0]);
    DueCountInverts(ticks[0], 0);
    assert AfterTicks(0, ticks, 1) == TickOnce(AfterTicks(0, ticks, 0), ticks[0]);
    DueCountInverts(ticks[0], 1);
    OffsetGaps(0);
    KeepsUp(0, ticks, 1, n);
    if n > 1 {
      KeepsUp(0, ticks, 1, n - 1);
      DueCountInverts(ticks[n - 2], k);
      DueSlowly(ticks[n - 2], ticks[n - 1] - ticks[n - 2]);
    } else if k > 0 {
      OffsetsIncrease(0, k);
    }
    DueCountInverts(ticks[n - 1], k);
  }

  /** At each of the first `n` ticks some due step is still unclaimed. */
  ghost predicate Behind(claimed: nat, ticks: seq<Time>, n: nat)
    requires n <= |ticks|
  {
    forall i :: 0 <= i < n ==> AfterTicks(claimed, ticks, i) < DueCount(ticks[i])
  }

  lemma BehindBefore(claimed: nat, ticks: seq<Time>, n: nat)
    requires 0 < n <= |ticks| && Behind(claimed, ticks, n)
    ensures Behind(claimed, ticks, n - 1) && AfterTicks(claimed, ticks, n - 1) < DueCount(ticks[n - 1])
  {
    hide DueCount, AfterTicks;
  }

  /** While it is behind, every tick claims a step. */
  lemma {:induction false} BehindClaimsEveryTick(claimed: nat, ticks: seq<Time>, n: nat)
    requires n <= |ticks| && Behind(claimed, ticks, n)
    ensures AfterTicks(claimed, ticks, n) == claimed + n
  {
    hide DueCount, Offset, Behind, TickOnce;
    if n > 0 {
      BehindBefore(claimed, ticks, n);
      BehindClaimsEveryTick(claimed, ticks, n - 1);
      TickCatchesOne(AfterTicks(claimed, ticks, n - 1), ticks[n - 1]);
    }
  }

  lemma {:induction false} RegularSpan(ticks: seq<Time>, n: nat)
    requires Regular(ticks) && n < |ticks|
    ensures ticks[0] <= ticks[n] <= ticks[0] + TICK * n
  {
    if n > 0 { RegularSpan(ticks, n - 1); }
  }

  /** A tick never claims a step that is not due. */
  lemma {:induction false} NeverAhead(claimed: nat, ticks: seq<Time>, n: nat)
    requires Regular(ticks) && 0 < n <= |ticks| && claimed <= DueCount(ticks[0])
    ensures AfterTicks(claimed, ticks, n) <= DueCount(ticks[n - 1])
  {
    TickCatchesOne(AfterTicks(claimed, ticks, n - 1), ticks[n - 1]);
    if n > 1 {
      NeverAhead(claimed, ticks, n - 1);
      DueSlowly(ticks[n - 2], ticks[n - 1] - ticks[n - 2]);
    }
  }

  lemma DueAfterOutage(ticks: seq<Time>, overdue: nat)
    requires Regular(ticks) && overdue > 0 && |ticks| >= 2 * overdue
    ensures DueCount(ticks[2 * overdue - 1]) <= DueCount(ticks[0]) + overdue
  {
    RegularSpan(ticks, 2 * overdue - 1);
    var span := ticks[2 * overdue - 1] - ticks[0];
    DueSlowly(ticks[0], span);
    assert span < overdue * (2 * MINUTE);
    QuotientAtLeast(span, 2 * MINUTE, overdue);
  }

  /** After an outage that left `overdue` steps unclaimed at the first tick, the
      one-step-per-tick sweep has claimed exactly the due steps after at most twice
      as many ticks; from then on `KeepsUp` applies. */
  lemma CatchesUp(claimed: nat, ticks: seq<Time>, overdue: nat) returns (n: nat)
    requires Regular(ticks) && overdue > 0 && |ticks| >= 2 * overdue
    requires DueCount(ticks[0]) == claimed + overdue
    ensures 0 < n <= 2 * overdue && AfterTicks(claimed, ticks, n) == DueCount(ticks[n - 1])
  {
    hide DueCount, Offset;
    n := 2 * overdue;
    if i :| 0 <= i < n && AfterTicks(claimed, ticks, i) >= DueCount(ticks[i]) {
      n := i + 1;
      TickCatchesOne(AfterTicks(claimed, ticks, i), ticks[i]);
    } else {
      BehindClaimsEveryTick(claimed, ticks, n);
      DueAfterOutage(ticks, overdue);
    }
    NeverAhead(claimed, ticks, n);
  }
}
