/** One drain tick over the durable SMS rows: first every due `emergency_sms` row,
    without limit, deadline or backoff; then a bounded batch of `tenant_ack` rows
    under a wall-clock budget. */
module SmsOutbox {
  import Vocabulary
  import opened SmsDrain

  type Time = Vocabulary.Time

  datatype Kind = EmergencySms | TenantAck

  /** Rows are in `created_at` order. */
  datatype Notice = Notice(kind: Kind, status: Status, attempt: nat, nextAt: Vocabulary.Option<Time>)

  const BACKOFF_BASE: Time := 60
  const BACKOFF_CAP: Time := 3600
  const BATCH_LIMIT: nat := 100

  // ----- backoff --------------------------------------------------------------

  function Pow2(n: nat): (p: nat)
    ensures p > 0
  {
    if n == 0 then 1 else 2 * Pow2(n - 1)
  }

  /** `_tenant_ack_backoff_seconds`; attempts count from 1. */
  function BackoffSeconds(attempt: nat): Time
    requires attempt > 0
  {
    var uncapped := BACKOFF_BASE * Pow2(attempt - 1);
    if uncapped < BACKOFF_CAP then uncapped else BACKOFF_CAP
  }

  lemma {:induction false} Pow2Grows(a: nat, b: nat)
    requires a <= b
    ensures Pow2(a) <= Pow2(b)
  {
    if a < b { Pow2Grows(a, b - 1); }
  }

  /** One tick after the first failure, twice as long after each further one, and an
      hour from the seventh on. */
  lemma BackoffShape(attempt: nat)
    requires attempt > 0
    ensures BackoffSeconds(1) == 60
    ensures attempt < 6 ==> BackoffSeconds(attempt + 1) == 2 * BackoffSeconds(attempt)
    ensures BackoffSeconds(attempt) == 3600 <==> attempt >= 7
    ensures BackoffSeconds(attempt) <= BackoffSeconds(attempt + 1) <= 3600
  {
    assert Pow2(0) == 1 && Pow2(1) == 2 && Pow2(2) == 4 && Pow2(3) == 8;
    assert Pow2(4) == 16 && Pow2(5) == 32 && Pow2(6) == 64;
    Pow2Grows(attempt - 1, attempt);
    if attempt >= 7 { Pow2Grows(6, attempt - 1); }
  }

  // ----- what is due ----------------------------------------------------------

  predicate IsDue(n: Notice, kind: Kind, at: Time) {
    n.kind == kind && Open(n.status)
    && (kind == EmergencySms || n.nextAt.None? || n.nextAt.value <= at)
  }

  /** Positions of the due rows of one kind, oldest first. */
  function DueRows(rows: seq<Notice>, kind: Kind, at: Time): (ids: seq<nat>)
    ensures forall i :: 0 <= i < |ids| ==> ids[i] < |rows|
  {
    if rows == [] then []
    else
      var before, last := DueRows(rows[..|rows| - 1], kind, at), |rows| - 1;
      if IsDue(rows[last], kind, at) then before + [last] else before
  }

  /** An emergency row is due whenever it was not sent or given up, whatever its due time
      says; an acknowledgement only once that has come. */
  predicate WantsSending(n: Notice, kind: Kind, at: Time) {
    && n.kind == kind && (n.status == Pending || n.status == Failed)
    && (kind == TenantAck && n.nextAt.Some? ==> n.nextAt.value <= at)
  }

  lemma DueWhen(n: Notice, kind: Kind, at: Time)
    ensures IsDue(n, kind, at) <==> WantsSending(n, kind, at)
  {
  }

  lemma {:induction false} DueRowsListed(rows: seq<Notice>, kind: Kind, at: Time)
    ensures var ids := DueRows(rows, kind, at);
            && (forall d :: 0 <= d < |rows| && IsDue(rows[d], kind, at) ==> d in ids)
            && (forall i :: 0 <= i < |ids| ==> IsDue(rows[ids[i]], kind, at))
            && (forall i, j :: 0 <= i < j < |ids| ==> ids[i] < ids[j])
  {
    if rows != [] {
      var init := rows[..|rows| - 1];
      DueRowsListed(init, kind, at);
      var before := DueRows(init, kind, at);
      assert forall i :: 0 <= i < |before| ==> init[before[i]] == rows[before[i]];
      forall d | 0 <= d < |rows| && IsDue(rows[d], kind, at) ensures d in DueRows(rows, kind, at) {
        if d < |init| { assert init[d] == rows[d] && d in before; }
      }
    }
  }

  /** The selection: exactly the rows of the kind that want sending, oldest first. */
  lemma DueRowsAre(rows: seq<Notice>, kind: Kind, at: Time)
    ensures var ids := DueRows(rows, kind, at);
            && Ascending(ids) && (forall d :: 0 <= d < |rows| ==> (d in ids <==> WantsSending(rows[d], kind, at)))
  {
    var ids := DueRows(rows, kind, at);
    DueRowsListed(rows, kind, at);
    hide DueRows, IsDue, WantsSending;
    forall d | 0 <= d < |rows| ensures d in ids <==> WantsSending(rows[d], kind, at) {
      DueWhen(rows[d], kind, at);
      if d in ids {
        var i :| 0 <= i < |ids| && ids[i] == d;
      }
    }
  }

  /** What one candidate meets: a rival sender that claims the attempt first, no number
      to send to, an accepted or refused call, or an error after the claim. */
  datatype World = Rival | Unreachable | Delivers | Refuses | Raises

  datatype DrainOutcome = LostRace | NoTenantPhone | SentOk | SendFailed | ProcessingError

  /** A row after the attempt `read` was made on it in world `w`. */
  predicate AttemptedRow(before: Notice, after: Notice, at: Time, w: World, outcome: DrainOutcome) {
    && after.kind == before.kind && after.attempt == before.attempt + 1
    && match w
       case Rival => outcome == LostRace && after.status == before.status && after.nextAt == before.nextAt
       case Unreachable => outcome == NoTenantPhone && after.status == Exhausted
       case Delivers => outcome == SentOk && after.status == Sent
       case Refuses =>
         && outcome == SendFailed && after.status == Failed
         && after.nextAt == (if before.kind == TenantAck then Vocabulary.Some(at + BackoffSeconds(after.attempt)) else before.nextAt)
       case Raises => outcome == ProcessingError && after.status == before.status && after.nextAt == before.nextAt
  }

  ghost predicate Ascending(ids: seq<nat>) {
    forall i, j :: 0 <= i < j < |ids| ==> ids[i] < ids[j]
  }

  /** After the first `n` candidates: each of them was attempted, nothing else was
      touched. */
  ghost predicate Drained(before: seq<Notice>, after: seq<Notice>, ids: seq<nat>, n: nat, at: Time, worlds: seq<World>,
                          outcomes: seq<DrainOutcome>)
  {
    && n <= |ids| && |outcomes| == n && |worlds| >= n && |after| == |before|
    && (forall k :: 0 <= k < |ids| ==> ids[k] < |before|)
    && (forall k :: 0 <= k < n ==> AttemptedRow(before[ids[k]], after[ids[k]], at, worlds[k], outcomes[k]))
    && (forall d :: 0 <= d < |before| && d !in ids[..n] ==> after[d] == before[d])
  }

  lemma DrainedOne(before: seq<Notice>, mid: seq<Notice>, row: Notice, ids: seq<nat>, n: nat, at: Time,
                   worlds: seq<World>, outcomes: seq<DrainOutcome>, outcome: DrainOutcome)
    requires Ascending(ids) && Drained(before, mid, ids, n, at, worlds, outcomes) && n < |ids| && n < |worlds|
    requires AttemptedRow(mid[ids[n]], row, at, worlds[n], outcome)
    ensures Drained(before, mid[ids[n] := row], ids, n + 1, at, worlds, outcomes + [outcome])
  {
    assert ids[..n + 1] == ids[..n] + [ids[n]];
    assert ids[n] !in ids[..n];
  }

  /** The next candidate is as the SELECT saw it. */
  lemma NextIsDue(before: seq<Notice>, mid: seq<Notice>, ids: seq<nat>, n: nat, kind: Kind, at: Time,
                  worlds: seq<World>, outcomes: seq<DrainOutcome>)
    requires ids <= DueRows(before, kind, at) && Drained(before, mid, ids, n, at, worlds, outcomes) && n < |ids|
    ensures Ascending(ids) && mid[ids[n]] == before[ids[n]] && IsDue(mid[ids[n]], kind, at)
  {
    DueRowsListed(before, kind, at);
    assert ids[n] !in ids[..n];
  }

  class Outbox {
    var rows: seq<Notice>

    constructor (rows: seq<Notice>)
      ensures this.rows == rows
    {
      this.rows := rows;
    }

    /** `_process_sms_drain_candidate` */
    method ProcessCandidate(i: nat, read: nat, at: Time, w: World) returns (outcome: DrainOutcome)
      requires i < |rows| && Open(rows[i].status) && rows[i].attempt == read
      modifies this
      ensures |rows| == |old(rows)| && rows == old(rows)[i := rows[i]]
      ensures AttemptedRow(old(rows)[i], rows[i], at, w, outcome)
    {
      if w == Rival { rows := rows[i := rows[i].(attempt := rows[i].attempt + 1)]; }
      // UPDATE ... WHERE status IN ('pending', 'failed') AND attempt = :old_attempt
      if !(Open(rows[i].status) && rows[i].attempt == read) { return LostRace; }
      rows := rows[i := rows[i].(attempt := read + 1)];
      if w == Unreachable {
        rows := rows[i := rows[i].(status := Exhausted)];
        return NoTenantPhone;
      }
      if w == Raises { return ProcessingError; }
      if w == Refuses {
        if rows[i].kind == TenantAck {
          rows := rows[i := rows[i].(status := Failed, nextAt := Vocabulary.Some(at + BackoffSeconds(read + 1)))];
        } else {
          rows := rows[i := rows[i].(status := Failed)];
        }
        return SendFailed;
      }
      rows := rows[i := rows[i].(status := Sent)];
      return SentOk;
    }

    /** `_drain_emergency_sms_pass`: every due row, unbounded. */
    method DrainEmergencyPass(at: Time, worlds: seq<World>) returns (outcomes: seq<DrainOutcome>)
      requires |worlds| >= |rows|
      modifies this
      ensures var ids := DueRows(old(rows), EmergencySms, at);
              Drained(old(rows), rows, ids, |ids|, at, worlds, outcomes)
      ensures forall d :: 0 <= d < |rows| ==>
                rows[d].attempt == old(rows)[d].attempt + if WantsSending(old(rows)[d], EmergencySms, at) then 1 else 0
    {
      DueRowsAre(rows, EmergencySms, at);
      var ids := DueRows(rows, EmergencySms, at);
      DueRowsFit(rows, EmergencySms, at);
      outcomes := [];
      while |outcomes| < |ids|
        invariant Drained(old(rows), rows, ids, |outcomes|, at, worlds, outcomes)
      {
        ghost var before, n := rows, |outcomes|;
        NextIsDue(old(rows), rows, ids, n, EmergencySms, at, worlds, outcomes);
        var i := ids[|outcomes|];
        var outcome := ProcessCandidate(i, rows[i].attempt, at, worlds[|outcomes|]);
        DrainedOne(old(rows), before, rows[i], ids, n, at, worlds, outcomes, outcome);
        outcomes := outcomes + [outcome];
      }
    }

    /** `_drain_tenant_ack_pass`: at most 100 candidates, and no claim at or after the
        deadline. It handles a prefix of its candidates, so it overruns its budget by
        at most the one candidate it had started. */
    method DrainTenantAckPass(at: Time, deadline: Time, readings: seq<Time>, worlds: seq<World>)
      returns (outcomes: seq<DrainOutcome>, candidates: seq<nat>)
      requires |readings| > BATCH_LIMIT && |worlds| >= BATCH_LIMIT
      modifies this
      ensures |outcomes| <= |candidates| <= 100 && candidates <= DueRows(old(rows), TenantAck, at)
      ensures |candidates| < 100 ==> candidates == DueRows(old(rows), TenantAck, at)
      ensures forall k :: 1 <= k <= |outcomes| ==> readings[k] - readings[0] < deadline
      ensures |outcomes| == |candidates| || readings[|outcomes| + 1] - readings[0] >= deadline
      ensures Drained(old(rows), rows, candidates, |outcomes|, at, worlds, outcomes)
    {
      hide AttemptedRow, DueRows;
      var due := DueRows(rows, TenantAck, at);
      candidates := if |due| > BATCH_LIMIT then due[..BATCH_LIMIT] else due;
      outcomes := [];
      while |outcomes| < |candidates|
        invariant Drained(old(rows), rows, candidates, |outcomes|, at, worlds, outcomes)
        invariant forall k :: 1 <= k <= |outcomes| ==> readings[k] - readings[0] < deadline
      {
        if readings[|outcomes| + 1] - readings[0] >= deadline { break; }
        ghost var before, n := rows, |outcomes|;
        NextIsDue(old(rows), rows, candidates, n, TenantAck, at, worlds, outcomes);
        var i := candidates[|outcomes|];
        var outcome := ProcessCandidate(i, rows[i].attempt, at, worlds[|outcomes|]);
        DrainedOne(old(rows), before, rows[i], candidates, n, at, worlds, outcomes, outcome);
        outcomes := outcomes + [outcome];
      }
    }

    /** `run_sms_drain_sweep`: first the one pass, then the other, on whatever the first
        left (`mid`). Every due `emergency_sms` row is attempted in every tick, whatever
        the `tenant_ack` backlog, the clock and the outcomes are. */
    method RunDrainSweep(at: Time, deadline: Time, readings: seq<Time>, worlds: seq<World>, ackWorlds: seq<World>)
      returns (outcomes: seq<DrainOutcome>, ghost mid: seq<Notice>, ghost acked: seq<nat>)
      requires |readings| > BATCH_LIMIT && |worlds| >= |rows| && |ackWorlds| >= BATCH_LIMIT
      modifies this
      ensures var ids := DueRows(old(rows), EmergencySms, at);
              && |ids| <= |outcomes| && Drained(old(rows), mid, ids, |ids|, at, worlds, outcomes[..|ids|])
              && acked <= DueRows(mid, TenantAck, at) && |acked| <= 100
              && Drained(mid, rows, acked, |outcomes| - |ids|, at, ackWorlds, outcomes[|ids|..])
      ensures |rows| == |old(rows)|
      ensures forall d :: 0 <= d < |rows| && WantsSending(old(rows)[d], EmergencySms, at) ==>
                rows[d].attempt == old(rows)[d].attempt + 1
    {
      hide AttemptedRow, DueRows;
      var first := DrainEmergencyPass(at, worlds);
      mid := rows;
      var acks, candidates := DrainTenantAckPass(at, deadline, readings, ackWorlds);
      acked := candidates;
      forall d | 0 <= d < |rows| && WantsSending(old(rows)[d], EmergencySms, at)
        ensures rows[d].attempt == old(rows)[d].attempt + 1
      {
        DueWhen(old(rows)[d], EmergencySms, at);
        EmergencyUntouchedByAcks(old(rows), mid, rows, candidates, at, worlds, first, ackWorlds, acks, d);
      }
      outcomes := first + acks;
      assert outcomes[..|first|] == first && outcomes[|first|..] == acks;
    }
  }

  lemma EmergencyUntouchedByAcks(before: seq<Notice>, mid: seq<Notice>, after: seq<Notice>, candidates: seq<nat>, at: Time,
                                 worlds: seq<World>, outcomes: seq<DrainOutcome>, ackWorlds: seq<World>, acks: seq<DrainOutcome>,
                                 d: nat)
    requires d < |before| && IsDue(before[d], EmergencySms, at)
    requires var ids := DueRows(before, EmergencySms, at); Drained(before, mid, ids, |ids|, at, worlds, outcomes)
    requires candidates <= DueRows(mid, TenantAck, at) && Drained(mid, after, candidates, |acks|, at, ackWorlds, acks)
    ensures after[d].attempt == before[d].attempt + 1
  {
    DueRowsListed(before, EmergencySms, at);
    DueRowsListed(mid, TenantAck, at);
    var ids := DueRows(before, EmergencySms, at);
    var k :| 0 <= k < |ids| && ids[k] == d;
    assert AttemptedRow(before[ids[k]], mid[ids[k]], at, worlds[k], outcomes[k]);
    forall j | 0 <= j < |acks| ensures candidates[..|acks|][j] != d {
      assert IsDue(mid[DueRows(mid, TenantAck, at)[j]], TenantAck, at);
    }
  }

  lemma {:induction false} DueRowsFit(rows: seq<Notice>, kind: Kind, at: Time)
    ensures |DueRows(rows, kind, at)| <= |rows|
  {
    if rows != [] { DueRowsFit(rows[..|rows| - 1], kind, at); }
  }
}
