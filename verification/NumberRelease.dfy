/** Releasing a deleted property's number: one durable row, claimed by an attempt
    number before every Twilio call, by any number of overlapping sweeps. */
module NumberRelease {
  import opened Vocabulary
  import Drain = SmsDrain

  const GRACE_PERIOD: Time := 24 * HOUR
  const RETRY_INTERVAL: Time := 15 * MINUTE
  const MAX_ATTEMPTS: nat := 5
  const BATCH_LIMIT: nat := 50

  datatype Status = Waiting | Released | Exhausted

  datatype Answer = Gone | NotFound | Refused

  datatype Phase =
    | Candidate(attempt: nat, at: Time)
    | Claimed(slot: nat)
    | Cleared(slot: nat)                 // the guard saw no live property on the SID
    | Answered(slot: nat, answer: Answer)

  /** `claims` and `calls` are history: when each attempt was claimed, and which
      attempts made a release call. */
  datatype Row = Row(attempt: nat, nextAt: Time, status: Status, claims: seq<Time>, calls: seq<nat>, procs: map<ProcId, Phase>)

  datatype Event =
    | Select(p: ProcId, at: Time)
    | Claim(p: ProcId)
    | Guard(p: ProcId, live: bool)
    | Call(p: ProcId, answer: Answer)
    | Mark(p: ProcId)
    | Crash(p: ProcId)

  function Drop(s: Row, p: ProcId): Row { s.(procs := s.procs - {p}) }

  function Step(s: Row, e: Event): Row {
    match e
    case Select(p, at) =>
      if p !in s.procs && s.status == Waiting && s.nextAt <= at then s.(procs := s.procs[p := Candidate(s.attempt, at)]) else s
    case Claim(p) =>
      if p in s.procs && s.procs[p].Candidate? then
        var Candidate(attempt, at) := s.procs[p];
        if s.status == Waiting && s.attempt == attempt then
          s.(attempt := attempt + 1, nextAt := at + RETRY_INTERVAL, claims := s.claims + [at], procs := s.procs[p := Claimed(attempt)])
        else Drop(s, p)
      else s
    case Guard(p, live) =>
      if p in s.procs && s.procs[p].Claimed? then
        if live then Drop(s, p).(status := Exhausted)
        else s.(procs := s.procs[p := Cleared(s.procs[p].slot)])
      else s
    case Call(p, answer) =>
      if p in s.procs && s.procs[p].Cleared? then
        s.(procs := s.procs[p := Answered(s.procs[p].slot, answer)], calls := s.calls + [s.procs[p].slot])
      else s
    case Mark(p) =>
      if p in s.procs && s.procs[p].Answered? then
        var Answered(slot, answer) := s.procs[p];
        if answer != Refused then Drop(s, p).(status := Released)   // a 404 is success
        else if slot + 1 >= MAX_ATTEMPTS then Drop(s, p).(status := Exhausted)
        else Drop(s, p)
      else s
    case Crash(p) => Drop(s, p)
  }

  function Run(s: Row, es: seq<Event>): Row {
    if es == [] then s else Step(Run(s, es[..|es| - 1]), es[|es| - 1])
  }

  /** `schedule_number_release` */
  function Scheduled(at: Time): Row { Row(0, at + GRACE_PERIOD, Waiting, [], [], map[]) }

  predicate HasSlot(ph: Phase) { !ph.Candidate? }

  ghost predicate Inv(s: Row, start: Time) {
    && |s.claims| == s.attempt
    && s.nextAt == (if s.attempt == 0 then start + GRACE_PERIOD else s.claims[s.attempt - 1] + RETRY_INTERVAL)
    && (s.attempt > 0 ==> s.claims[0] >= start + GRACE_PERIOD)
    && (forall i :: 0 < i < s.attempt ==> s.claims[i - 1] + RETRY_INTERVAL <= s.claims[i])
    && (forall p :: p in s.procs && s.procs[p].Candidate? && s.procs[p].attempt == s.attempt ==> s.nextAt <= s.procs[p].at)
    && (forall p :: p in s.procs && s.procs[p].Candidate? ==> s.procs[p].attempt <= s.attempt)
    && (forall p :: p in s.procs && HasSlot(s.procs[p]) ==> s.procs[p].slot < s.attempt)
  }

  /** Slots are exclusive, and a slot makes at most one call. */
  ghost predicate SlotInv(s: Row) {
    && (forall p :: p in s.procs && HasSlot(s.procs[p]) ==> s.procs[p].slot < s.attempt)
    && (forall p, q :: p in s.procs && q in s.procs && p != q && HasSlot(s.procs[p]) && HasSlot(s.procs[q]) ==>
          s.procs[p].slot != s.procs[q].slot)
    && (forall i :: 0 <= i < |s.calls| ==> s.calls[i] < s.attempt)
    && (forall i, j :: 0 <= i < j < |s.calls| ==> s.calls[i] != s.calls[j])
    && (forall i, p :: 0 <= i < |s.calls| && p in s.procs && (s.procs[p].Claimed? || s.procs[p].Cleared?) ==>
          s.calls[i] != s.procs[p].slot)
  }

  lemma DropKeepsInv(s: Row, p: ProcId, status: Status, start: Time)
    requires Inv(s, start)
    ensures Inv(Drop(s, p), start) && Inv(Drop(s, p).(status := status), start)
  {
  }

  lemma SelectKeepsInv(s: Row, p: ProcId, at: Time, start: Time)
    requires Inv(s, start)
    ensures Inv(Step(s, Select(p, at)), start)
  {
  }

  lemma GuardKeepsInv(s: Row, p: ProcId, live: bool, start: Time)
    requires Inv(s, start)
    ensures Inv(Step(s, Guard(p, live)), start)
  {
    DropKeepsInv(s, p, Exhausted, start);
  }

  lemma CallKeepsInv(s: Row, p: ProcId, answer: Answer, start: Time)
    requires Inv(s, start)
    ensures Inv(Step(s, Call(p, answer)), start)
  {
  }

  lemma ClaimKeepsInv(s: Row, p: ProcId, start: Time)
    requires Inv(s, start)
    ensures Inv(Step(s, Claim(p)), start)
  {
  }

  lemma StepKeepsInv(s: Row, e: Event, start: Time)
    requires Inv(s, start)
    ensures Inv(Step(s, e), start)
  {
    hide Inv;
    match e
    case Select(p, at) => SelectKeepsInv(s, p, at, start);
    case Claim(p) => ClaimKeepsInv(s, p, start);
    case Guard(p, live) => GuardKeepsInv(s, p, live, start);
    case Call(p, answer) => CallKeepsInv(s, p, answer, start);
    case Mark(p) =>
      DropKeepsInv(s, p, Released, start);
      DropKeepsInv(s, p, Exhausted, start);
      DropKeepsInv(s, p, s.status, start);
    case Crash(p) => DropKeepsInv(s, p, s.status, start);
  }

  lemma DropKeepsSlots(s: Row, p: ProcId, status: Status)
    requires SlotInv(s)
    ensures SlotInv(Drop(s, p)) && SlotInv(Drop(s, p).(status := status))
  {
  }

  lemma SelectKeepsSlots(s: Row, p: ProcId, at: Time)
    requires SlotInv(s)
    ensures SlotInv(Step(s, Select(p, at)))
  {
  }

  lemma ClaimKeepsSlots(s: Row, p: ProcId)
    requires SlotInv(s)
    ensures SlotInv(Step(s, Claim(p)))
  {
    DropKeepsSlots(s, p, s.status);
  }

  lemma CallKeepsSlots(s: Row, p: ProcId, answer: Answer)
    requires SlotInv(s)
    ensures SlotInv(Step(s, Call(p, answer)))
  {
    if p in s.procs && s.procs[p].Cleared? {
      var s' := Step(s, Call(p, answer));
      var n := |s.calls|;
      assert s'.calls == s.calls + [s.procs[p].slot];
      forall i | 0 <= i < |s'.calls| ensures s'.calls[i] < s'.attempt && (i < n ==> s'.calls[i] == s.calls[i] != s'.calls[n]) {
      }
    }
  }

  lemma GuardKeepsSlots(s: Row, p: ProcId, live: bool)
    requires SlotInv(s)
    ensures SlotInv(Step(s, Guard(p, live)))
  {
    DropKeepsSlots(s, p, Exhausted);
  }

  lemma StepKeepsSlots(s: Row, e: Event)
    requires SlotInv(s)
    ensures SlotInv(Step(s, e))
  {
    hide SlotInv;
    match e
    case Select(p, at) => SelectKeepsSlots(s, p, at);
    case Claim(p) => ClaimKeepsSlots(s, p);
    case Guard(p, live) => GuardKeepsSlots(s, p, live);
    case Call(p, answer) => CallKeepsSlots(s, p, answer);
    case Mark(p) =>
      DropKeepsSlots(s, p, Released);
      DropKeepsSlots(s, p, Exhausted);
      DropKeepsSlots(s, p, s.status);
    case Crash(p) => DropKeepsSlots(s, p, s.status);
  }

  lemma {:induction false} RunKeeps(s: Row, es: seq<Event>, start: Time)
    requires Inv(s, start) && SlotInv(s)
    ensures Inv(Run(s, es), start) && SlotInv(Run(s, es))
  {
    if es != [] {
      RunKeeps(s, es[..|es| - 1], start);
      StepKeepsInv(Run(s, es[..|es| - 1]), es[|es| - 1], start);
      StepKeepsSlots(Run(s, es[..|es| - 1]), es[|es| - 1]);
    }
  }

  lemma {:induction false} ClaimsSpread(s: Row, start: Time, i: nat)
    requires Inv(s, start) && i < s.attempt
    ensures s.claims[i] >= start + GRACE_PERIOD + i * RETRY_INTERVAL
  {
    if i > 0 { ClaimsSpread(s, start, i - 1); }
  }

  /** Whatever sweeps overlap: every release call needs a claim of its own, so there are
      at most `attempt` of them; and the claim of attempt `i`, hence any call it makes,
      comes no sooner than the grace period and `i` retry intervals after the delete. */
  lemma CallsNeedClaims(start: Time, es: seq<Event>, i: nat)
    ensures var s := Run(Scheduled(start), es);
            && |s.calls| <= s.attempt
            && (forall a, b :: 0 <= a < b < |s.calls| ==> s.calls[a] != s.calls[b])
            && (i < |s.calls| ==> s.calls[i] < |s.claims|
                                  && s.claims[s.calls[i]] >= start + 24 * 3600 + s.calls[i] * (15 * 60))
  {
    RunKeeps(Scheduled(start), es, start);
    var s := Run(Scheduled(start), es);
    Drain.DistinctBelow(s.calls, s.attempt);
    if i < |s.calls| { ClaimsSpread(s, start, s.calls[i]); }
  }

  /** What the answer to a call closes: a number Twilio released or does not know is
      released, a fifth refusal gives up, and an earlier one leaves the row as it is. */
  lemma MarkSettles(s: Row, p: ProcId)
    requires p in s.procs && s.procs[p].Answered?
    ensures Step(s, Mark(p)).status ==
              match s.procs[p].answer
              case Gone => Released
              case NotFound => Released
              case Refused => if s.procs[p].slot >= 4 then Exhausted else s.status
    ensures Step(s, Mark(p)).nextAt == s.nextAt && Step(s, Mark(p)).attempt == s.attempt
  {
  }

  /** A due row that one sweep handles alone: if no property uses the number, the one call is
      made, and if Twilio released it or does not know it the row is released. */
  lemma AloneItIsReleased(s: Row, p: ProcId, at: Time, answer: Answer)
    requires s.status == Waiting && s.nextAt <= at && p !in s.procs && answer != Refused
    ensures var s' := Step(Step(Step(Step(Step(s, Select(p, at)), Claim(p)), Guard(p, false)), Call(p, answer)), Mark(p));
            && s'.status == Released && s'.calls == s.calls + [s.attempt] && s'.claims == s.claims + [at]
            && s'.attempt == s.attempt + 1 && s'.nextAt == at + 15 * 60 && s'.procs == s.procs
  {
    assert s.procs[p := Answered(s.attempt, answer)] - {p} == s.procs;
  }

  /** Nobody holds the slot any more, and it made no call. */
  ghost predicate SlotSpent(s: Row, slot: nat) {
    && slot < s.attempt && slot !in s.calls
    && (forall p :: p in s.procs && HasSlot(s.procs[p]) ==> s.procs[p].slot != slot)
  }

  lemma {:induction false} SpentStays(s: Row, es: seq<Event>, slot: nat)
    requires SlotSpent(s, slot)
    ensures SlotSpent(Run(s, es), slot)
  {
    if es != [] { SpentStays(s, es[..|es| - 1], slot); }
  }

  /** A claim whose guard saw a live property closes the row and makes no release call,
      then or ever after. */
  lemma LivePropertyBlocks(start: Time, es: seq<Event>, p: ProcId, more: seq<Event>)
    requires var s := Run(Scheduled(start), es); p in s.procs && s.procs[p].Claimed?
    ensures var s := Run(Scheduled(start), es);
            var s' := Step(s, Guard(p, true));
            s'.status == Exhausted && s.procs[p].slot !in Run(s', more).calls
  {
    RunKeeps(Scheduled(start), es, start);
    var s := Run(Scheduled(start), es);
    SpentStays(Step(s, Guard(p, true)), more, s.procs[p].slot);
  }

  // ----- undisturbed sweeps -------------------------------------------------------

  datatype World = RivalClaims | Live | Answers(answer: Answer)

  datatype Release = Release(sid: Option<nat>, attempt: nat, nextAt: Time, status: Status)

  predicate IsDue(r: Release, at: Time) { r.status == Waiting && r.nextAt <= at }

  /** What one processed candidate becomes. */
  function Processed(r: Release, at: Time, w: World): Release {
    if r.sid.None? then r.(status := Exhausted)  // malformed
    else
      var claimed := r.(attempt := r.attempt + 1, nextAt := at + RETRY_INTERVAL);
      match w
      case RivalClaims => claimed  // the rival's claim; this sweep does nothing
      case Live => claimed.(status := Exhausted)
      case Answers(answer) =>
        if answer != Refused then claimed.(status := Released)
        else if claimed.attempt >= MAX_ATTEMPTS then claimed.(status := Exhausted)
        else claimed
  }

  /** What the answer of the call leads to, with the attempt before it. */
  predicate Settles(r: Release, r': Release, at: Time, w: World) {
    && r'.sid == r.sid
    && (r'.status == Released <==> r.sid.Some? && (w == Answers(Gone) || w == Answers(NotFound)))
    && (r'.status == Exhausted <==> r.sid.None? || w == Live || (w == Answers(Refused) && r.attempt >= 4))
    && (r.sid.Some? ==> r'.attempt == r.attempt + 1 && r'.nextAt == at + 15 * 60)
    && (r.sid.None? ==> r'.attempt == r.attempt && r'.nextAt == r.nextAt)
  }

  /** A number is released exactly when Twilio released it or does not know it. A refusal
      leaves the row waiting for 15 minutes, the fifth gives up, and so do a property
      that still uses the number and a row that names none. */
  lemma AnswerSettles(r: Release, at: Time, w: World)
    requires r.status == Waiting
    ensures Settles(r, Processed(r, at, w), at, w)
  {
  }

  function ProcessedTimes(r: Release, at: Time, ws: seq<World>): Release {
    if ws == [] then r
    else
      var before := ProcessedTimes(r, at, ws[..|ws| - 1]);
      if before.status == Waiting then Processed(before, at, ws[|ws| - 1]) else before
  }

  lemma {:induction false} AttemptsCount(r: Release, at: Time, ws: seq<World>)
    requires r.sid.Some? && forall i :: 0 <= i < |ws| ==> ws[i] != RivalClaims
    ensures var r' := ProcessedTimes(r, at, ws);
            r'.sid == r.sid && (r'.status == Waiting && r.attempt < MAX_ATTEMPTS ==>
                                  r'.attempt == r.attempt + |ws| && r'.attempt < MAX_ATTEMPTS)
  {
    if ws != [] { AttemptsCount(r, at, ws[..|ws| - 1]); }
  }

  /** A row that no rival touches is released or exhausted within five processed
      ticks. */
  lemma FiveAttemptsSuffice(r: Release, at: Time, ws: seq<World>)
    requires r.status == Waiting && r.attempt == 0 && |ws| >= MAX_ATTEMPTS
    requires forall i :: 0 <= i < |ws| ==> ws[i] != RivalClaims
    ensures ProcessedTimes(r, at, ws).status != Waiting
  {
    if r.sid.Some? {
      AttemptsCount(r, at, ws);
    } else {
      MalformedIsClosed(r, at, ws);
    }
  }

  lemma {:induction false} MalformedIsClosed(r: Release, at: Time, ws: seq<World>)
    requires r.sid.None? && ws != []
    ensures ProcessedTimes(r, at, ws).status != Waiting && ProcessedTimes(r, at, ws).sid.None?
  {
    if |ws| > 1 { MalformedIsClosed(r, at, ws[..|ws| - 1]); } else { assert ws[..0] == []; }
  }

  class ReleaseQueue {
    var rows: seq<Release>

    constructor (rows: seq<Release>)
      ensures this.rows == rows
    {
      this.rows := rows;
    }

    /** One candidate; true when its number is gone at Twilio. */
    method ProcessCandidate(i: nat, at: Time, w: World) returns (released: bool)
      requires i < |rows| && rows[i].status == Waiting
      modifies this
      ensures rows == old(rows)[i := Processed(old(rows)[i], at, w)]
      ensures Settles(old(rows)[i], rows[i], at, w)
      ensures released <==> rows[i].status == Released
      ensures released ==> rows[i].sid.Some?
    {
      AnswerSettles(rows[i], at, w);
      hide Settles;
      if rows[i].sid.None? {
        rows := rows[i := rows[i].(status := Exhausted)];
        return false;
      }
      var read := rows[i].attempt;
      var last := read + 1 >= MAX_ATTEMPTS;
      if w == RivalClaims { rows := rows[i := rows[i].(attempt := read + 1, nextAt := at + RETRY_INTERVAL)]; }
      if rows[i].attempt != read { return false; }
      rows := rows[i := rows[i].(attempt := read + 1, nextAt := at + RETRY_INTERVAL)];
      if w == Live {
        rows := rows[i := rows[i].(status := Exhausted)];
        return false;
      }
      if w.answer != Refused {
        rows := rows[i := rows[i].(status := Released)];
        return true;
      }
      if last { rows := rows[i := rows[i].(status := Exhausted)]; }
      return false;
    }

    /** `sweep_pending_number_releases` over the candidates its SELECT returned: each of
        them is processed once, nothing else is touched, and what is returned are the
        SIDs now gone, in order. */
    method Sweep(at: Time, candidates: seq<nat>, worlds: seq<World>) returns (released: seq<nat>)
      requires |candidates| <= BATCH_LIMIT && |worlds| >= |candidates|
      requires forall k :: 0 <= k < |candidates| ==> candidates[k] < |rows| && IsDue(rows[candidates[k]], at)
      requires Distinct(candidates)
      modifies this
      ensures Swept(old(rows), rows, at, candidates, worlds, |candidates|)
      ensures released == ReleasedSids(rows, candidates)
      ensures forall k :: 0 <= k < |candidates| ==> Settles(old(rows)[candidates[k]], rows[candidates[k]], at, worlds[k])
    {
      released := [];
      assert released == ReleasedSids(rows, candidates[..0]);
      hide Processed, ReleasedSids;
      var k := 0;
      while k < |candidates|
        invariant 0 <= k <= |candidates|
        invariant Swept(old(rows), rows, at, candidates, worlds, k)
        invariant released == ReleasedSids(rows, candidates[..k])
      {
        ghost var before := rows;
        var i := candidates[k];
        NotYetSwept(old(rows), before, at, candidates, worlds, k);
        var gone := ProcessCandidate(i, at, worlds[k]);
        SweptOneMore(old(rows), before, rows, at, candidates, worlds, k);
        OthersReleased(before, rows, candidates[..k], i);
        ReleasedOneMore(rows, candidates, k);
        if gone { released := released + [rows[i].sid.value]; }
        k := k + 1;
      }
      assert candidates[..|candidates|] == candidates;
      forall j | 0 <= j < |candidates| ensures Settles(old(rows)[candidates[j]], rows[candidates[j]], at, worlds[j]) {
        AnswerSettles(old(rows)[candidates[j]], at, worlds[j]);
      }
    }
  }

  ghost predicate Swept(before: seq<Release>, after: seq<Release>, at: Time, candidates: seq<nat>, worlds: seq<World>, n: nat) {
    && n <= |candidates| <= |worlds| && |after| == |before|
    && (forall k :: 0 <= k < |candidates| ==> candidates[k] < |before|)
    && (forall k :: 0 <= k < n ==> after[candidates[k]] == Processed(before[candidates[k]], at, worlds[k]))
    && (forall d :: 0 <= d < |before| && d !in candidates[..n] ==> after[d] == before[d])
  }

  ghost predicate Distinct(candidates: seq<nat>) {
    forall i, j :: 0 <= i < j < |candidates| ==> candidates[i] != candidates[j]
  }

  lemma NotYetSwept(start: seq<Release>, now: seq<Release>, at: Time, candidates: seq<nat>, worlds: seq<World>, k: nat)
    requires Swept(start, now, at, candidates, worlds, k) && k < |candidates| && Distinct(candidates)
    ensures candidates[k] !in candidates[..k] && now[candidates[k]] == start[candidates[k]]
  {
    assert forall i :: 0 <= i < k ==> candidates[..k][i] == candidates[i] != candidates[k];
  }

  lemma SweptOneMore(start: seq<Release>, before: seq<Release>, after: seq<Release>, at: Time, candidates: seq<nat>,
                     worlds: seq<World>, k: nat)
    requires Swept(start, before, at, candidates, worlds, k) && k < |candidates| && Distinct(candidates)
    requires after == before[candidates[k] := Processed(before[candidates[k]], at, worlds[k])]
    ensures Swept(start, after, at, candidates, worlds, k + 1)
  {
    hide Processed;
    NotYetSwept(start, before, at, candidates, worlds, k);
    assert candidates[..k + 1] == candidates[..k] + [candidates[k]];
    forall j | 0 <= j < k ensures after[candidates[j]] == before[candidates[j]] { assert candidates[j] != candidates[k]; }
  }

  function ReleasedSids(rows: seq<Release>, candidates: seq<nat>): seq<nat> {
    if candidates == [] then []
    else
      var before, i := ReleasedSids(rows, candidates[..|candidates| - 1]), candidates[|candidates| - 1];
      if i < |rows| && rows[i].status == Released && rows[i].sid.Some? then before + [rows[i].sid.value] else before
  }

  lemma ReleasedOneMore(rows: seq<Release>, candidates: seq<nat>, k: nat)
    requires k < |candidates| && candidates[k] < |rows|
    requires rows[candidates[k]].status == Released ==> rows[candidates[k]].sid.Some?
    ensures ReleasedSids(rows, candidates[..k + 1])
            == ReleasedSids(rows, candidates[..k])
               + if rows[candidates[k]].status == Released then [rows[candidates[k]].sid.value] else []
  {
    assert candidates[..k + 1][..k] == candidates[..k];
  }

  lemma {:induction false} OthersReleased(before: seq<Release>, after: seq<Release>, candidates: seq<nat>, i: nat)
    requires |after| == |before| && i !in candidates
    requires forall d :: 0 <= d < |before| && d != i ==> after[d] == before[d]
    ensures ReleasedSids(after, candidates) == ReleasedSids(before, candidates)
  {
    if candidates != [] {
      assert candidates[|candidates| - 1] in candidates;
      OthersReleased(before, after, candidates[..|candidates| - 1], i);
    }
  }
}
